/** The collectors' writer: a reference exists only for an object that was stored before it. */
module MinioWriter {
  import opened EvidenceStore
  import opened Text

  datatype EvidenceRef = EvidenceRef(
    evidenceId: string, storageUri: string, contentType: string, sizeBytes: int, expiresAt: int)

  datatype Request = Request(incidentId: string, contentType: string, payload: Payload)

  datatype WriterError = MissingIncident | MissingContentType | BucketNotFound(bucket: string) | PutFailed

  /** Thirty days, in nanoseconds. */
  const DEFAULT_TTL: int := 2_592_000_000_000_000

  /** How the upload ends, and whether a refusal names the missing bucket. */
  datatype Upload = Upload(how: Write, noBucket: bool)

  predicate Accepted(r: Request) { r.incidentId != "" && r.contentType != "" }

  /** The objects afterwards: a refused request reaches no store. */
  function Stored(objects: map<string, Payload>, r: Request, id: string, up: Upload): map<string, Payload> {
    if Accepted(r) && up.how != Refused then objects[id := r.payload] else objects
  }

  /** The reference describes an object that is there. */
  predicate Refers(ref: EvidenceRef, objects: map<string, Payload>) {
    ref.evidenceId in objects && |objects[ref.evidenceId]| == ref.sizeBytes
  }

  class ObjectStore {
    var objects: map<string, Payload>

    constructor ()
      ensures objects == map[]
    {
      objects := map[];
    }

    method PutObject(key: string, body: Payload, how: Write) returns (raised: bool)
      modifies this
      ensures objects == if how == Refused then old(objects) else old(objects)[key := body]
      ensures raised <==> how != Done
    {
      if how != Refused { objects := objects[key := body]; }
      raised := how != Done;
    }
  }

  class MinioWriter {
    const client: ObjectStore
    const bucket: string

    constructor (client: ObjectStore, bucket: string)
      ensures this.client == client && this.bucket == bucket
    {
      this.client := client;
      this.bucket := bucket;
    }

    /** `id` is the identifier drawn for this call, `now` the clock after the upload. */
    method Put(request: Request, id: string, up: Upload, now: int) returns (r: Result<EvidenceRef, WriterError>)
      modifies client
      ensures client.objects == Stored(old(client.objects), request, id, up)
      ensures r.Ok? <==> request.incidentId != "" && request.contentType != "" && up.how == Done
      ensures client.objects ==
        if request.incidentId == "" || request.contentType == "" || up.how == Refused then old(client.objects)
        else old(client.objects)[id := request.payload]
      ensures r.Ok? ==>
        && Refers(r.value, client.objects) && client.objects[id] == request.payload
        && r.value == EvidenceRef(id, "s3://" + bucket + "/" + id, request.contentType, |request.payload|,
                                  now + 30 * 24 * 3600 * 1_000_000_000)
      ensures r == Err(MissingIncident) <==> request.incidentId == ""
      ensures r == Err(MissingContentType) <==> request.incidentId != "" && request.contentType == ""
      ensures r.Err? && request.incidentId != "" && request.contentType != "" ==>
        up.how != Done && r.error == if up.noBucket then BucketNotFound(bucket) else PutFailed
    {
      if request.incidentId == "" { return Err(MissingIncident); }
      if request.contentType == "" { return Err(MissingContentType); }
      var raised := client.PutObject(id, request.payload, up.how);
      if raised { return Err(if up.noBucket then BucketNotFound(bucket) else PutFailed); }
      r := Ok(EvidenceRef(id, "s3://" + bucket + "/" + id, request.contentType, |request.payload|, now + DEFAULT_TTL));
    }
  }

  /** A further write under another id leaves every reference valid; writes never delete. */
  lemma RefersStill(ref: EvidenceRef, objects: map<string, Payload>, r: Request, id: string, up: Upload)
    requires Refers(ref, objects)
    ensures Refers(ref, Stored(objects, r, id, up)) <==>
      ref.evidenceId != id || !Accepted(r) || up.how == Refused || |r.payload| == ref.sizeBytes
    ensures ref.evidenceId in Stored(objects, r, id, up)
  {
  }
}
