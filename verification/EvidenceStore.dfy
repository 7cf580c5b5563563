/**
 The evidence store: blobs in an object store, metadata rows in a database, and the client that
 writes the blob first. A write to either store may be refused, or take effect and still raise.
 */
module EvidenceStore {
  import opened Text

  type Payload = seq<bv8>

  datatype Row = Row(incidentId: string, contentType: string, sizeBytes: nat)

  /** What a write does: it takes effect and says so, has no effect and raises, or both. */
  datatype Write = Done | Refused | DoneButRaised

  /**
   How the calls to the outside end: migration, blob, row, and whether the rollback deletes the
   blob; `answered` when it was the object store that refused the blob, not the connection.
   */
  datatype Faults = Faults(schemaFails: bool, blob: Write, answered: bool, row: Write, deletes: bool)

  /** `ClientError` is the object store's own exception, which the client lets through. */
  datatype Error = SchemaError | StorageError | ClientError | MetadataError | NotFound

  datatype Contents = Contents(blobs: map<string, Payload>, rows: map<string, Row>)

  /** Every row has its blob, of the size it records. */
  ghost predicate Matched(c: Contents) {
    forall id :: id in c.rows ==> id in c.blobs && |c.blobs[id]| == c.rows[id].sizeBytes
  }

  /** `ON CONFLICT DO NOTHING`: the first row stays. */
  function InsertRow(rows: map<string, Row>, id: string, row: Row): map<string, Row> {
    if id in rows then rows else rows[id := row]
  }

  datatype PutRequest = PutRequest(id: string, payload: Payload, contentType: string, incidentId: string)

  function RowOf(p: PutRequest): Row { Row(p.incidentId, p.contentType, |p.payload|) }

  /** The blob is in the object store after the upload, whether or not the upload said so. */
  predicate Uploads(f: Faults) { !f.schemaFails && f.blob != Refused }

  /** The client takes the row for refused and the blob is deleted again. */
  predicate RollsBack(f: Faults) { !f.schemaFails && f.blob == Done && f.row != Done && f.deletes }

  /** The row is in the database. */
  predicate Inserts(f: Faults) { !f.schemaFails && f.blob == Done && f.row != Refused }

  predicate Succeeds(f: Faults) { !f.schemaFails && f.blob == Done && f.row == Done }

  function PutError(f: Faults): Error {
    if f.schemaFails then SchemaError
    else if f.blob != Done then if f.answered then ClientError else StorageError
    else MetadataError
  }

  /** What a call to put a blob leaves in the two stores. */
  function AfterPut(c: Contents, p: PutRequest, f: Faults): Contents {
    Contents(
      if RollsBack(f) then c.blobs - {p.id} else if Uploads(f) then c.blobs[p.id := p.payload] else c.blobs,
      if Inserts(f) then InsertRow(c.rows, p.id, RowOf(p)) else c.rows)
  }

  class Stores {
    var schema: bool
    var contents: Contents

    constructor ()
      ensures contents == Contents(map[], map[])
    {
      schema := false;
      contents := Contents(map[], map[]);
    }

    method PutObject(id: string, payload: Payload, how: Write) returns (raised: bool)
      modifies this`contents
      ensures contents == if how == Refused then old(contents)
                          else old(contents).(blobs := old(contents).blobs[id := payload])
      ensures raised <==> how != Done
    {
      if how != Refused { contents := contents.(blobs := contents.blobs[id := payload]); }
      raised := how != Done;
    }

    method DeleteObject(id: string, works: bool)
      modifies this`contents
      ensures contents == if works then old(contents).(blobs := old(contents).blobs - {id}) else old(contents)
    {
      if works { contents := contents.(blobs := contents.blobs - {id}); }
    }

    method Insert(id: string, row: Row, how: Write) returns (raised: bool)
      modifies this`contents
      ensures contents == if how == Refused then old(contents)
                          else old(contents).(rows := InsertRow(old(contents).rows, id, row))
      ensures raised <==> how != Done
    {
      if how != Refused && id !in contents.rows {
        contents := contents.(rows := contents.rows[id := row]);
      }
      raised := how != Done;
    }
  }

  class EvidenceClient {
    const stores: Stores
    var schemaBootstrapped: bool

    constructor (stores: Stores)
      ensures this.stores == stores && !schemaBootstrapped
    {
      this.stores := stores;
      schemaBootstrapped := false;
    }

    /** Once per process; a migration that fails is tried again by the next call. */
    method EnsureSchema(fails: bool) returns (raised: bool)
      modifies this`schemaBootstrapped, stores`schema
      ensures raised <==> !old(schemaBootstrapped) && fails
      ensures schemaBootstrapped <==> !raised
    {
      if schemaBootstrapped { return false; }
      if fails { return true; }
      stores.schema := true;
      schemaBootstrapped := true;
      raised := false;
    }

    /** Blob, then row; when the row raises, an attempt to delete the blob again. */
    method PutBlob(p: PutRequest, f: Faults) returns (r: Result<Row, Error>)
      modifies this`schemaBootstrapped, stores
      ensures var g := f.(schemaFails := f.schemaFails && !old(schemaBootstrapped));
        && stores.contents == AfterPut(old(stores.contents), p, g)
        && (r.Ok? <==> Succeeds(g))
        && (r.Ok? ==> r.value == RowOf(p))
        && (r.Err? ==> r.error == PutError(g))
      ensures var raisesEarly := f.schemaFails && !old(schemaBootstrapped);
        && (r == Err(SchemaError) <==> raisesEarly)
        && (r == Err(StorageError) <==> !raisesEarly && f.blob != Done && !f.answered)
        && (r == Err(ClientError) <==> !raisesEarly && f.blob != Done && f.answered)
        && (r == Err(MetadataError) <==> !raisesEarly && f.blob == Done && f.row != Done)
        && (r.Ok? ==> r.value == Row(p.incidentId, p.contentType, |p.payload|))
      ensures schemaBootstrapped <==> old(schemaBootstrapped) || !f.schemaFails
    {
      var raised := EnsureSchema(f.schemaFails);
      if raised { return Err(SchemaError); }
      raised := stores.PutObject(p.id, p.payload, f.blob);
      if raised { return Err(if f.answered then ClientError else StorageError); }
      raised := stores.Insert(p.id, RowOf(p), f.row);
      if raised {
        stores.DeleteObject(p.id, f.deletes);
        ghost var blobs := old(stores.contents).blobs;
        assert f.deletes ==> blobs[p.id := p.payload] - {p.id} == blobs - {p.id};
        return Err(MetadataError);
      }
      r := Ok(RowOf(p));
    }

    method GetBlob(id: string, fails: bool) returns (r: Result<Payload, Error>)
      ensures r == if fails then Err(StorageError)
                   else if id in stores.contents.blobs then Ok(stores.contents.blobs[id]) else Err(NotFound)
    {
      if fails { return Err(StorageError); }
      if id !in stores.contents.blobs { return Err(NotFound); }
      r := Ok(stores.contents.blobs[id]);
    }

    /** A row for a blob that a collector wrote. */
    method RecordMetadata(id: string, row: Row, schemaFails: bool, how: Write) returns (ok: bool)
      modifies this`schemaBootstrapped, stores
      ensures var fails := schemaFails && !old(schemaBootstrapped);
        && (ok <==> !fails && how == Done)
        && stores.contents.blobs == old(stores.contents).blobs
        && stores.contents.rows == if fails || how == Refused then old(stores.contents).rows
                                   else InsertRow(old(stores.contents).rows, id, row)
    {
      var raised := EnsureSchema(schemaFails);
      if raised { return false; }
      raised := stores.Insert(id, row, how);
      ok := !raised;
    }
  }

  /******* When rows and blobs stay matched *******/

  /**
   For an id that has no row yet, rows and blobs stay matched exactly unless the row was
   committed with an exception and the rollback then deleted the blob.
   */
  lemma NewPutKeepsMatch(c: Contents, p: PutRequest, f: Faults)
    requires Matched(c) && p.id !in c.rows
    ensures Matched(AfterPut(c, p, f)) <==>
      !(!f.schemaFails && f.blob == Done && f.row == DoneButRaised && f.deletes)
  {
  }

  /**
   For an id that has a row already they stay matched exactly when nothing was uploaded, or
   the new payload is as long as the old one and was not rolled back.
   */
  lemma RepeatedPutKeepsMatch(c: Contents, p: PutRequest, f: Faults)
    requires Matched(c) && p.id in c.rows
    ensures Matched(AfterPut(c, p, f)) <==>
      || f.schemaFails || f.blob == Refused
      || (|p.payload| == c.rows[p.id].sizeBytes && !(f.blob == Done && f.row != Done && f.deletes))
  {
  }

  /**
   A call that returns leaves both, with the row saying what was put; one that raises leaves its
   row exactly when the commit took effect, and its blob exactly when the upload did and no
   rollback has deleted it. Nothing else is touched.
   */
  lemma PutLeaves(c: Contents, p: PutRequest, f: Faults)
    requires p.id !in c.rows && p.id !in c.blobs
    ensures var after := AfterPut(c, p, f);
      && (p.id in after.rows <==> !f.schemaFails && f.blob == Done && f.row != Refused)
      && (p.id in after.rows ==> after.rows[p.id] == Row(p.incidentId, p.contentType, |p.payload|))
      && (p.id in after.blobs <==>
            !f.schemaFails && f.blob != Refused && !(f.blob == Done && f.row != Done && f.deletes))
      && (p.id in after.blobs ==> after.blobs[p.id] == p.payload)
      && forall id :: id != p.id ==>
           && (id in after.blobs <==> id in c.blobs) && (id in c.blobs ==> after.blobs[id] == c.blobs[id])
           && (id in after.rows <==> id in c.rows) && (id in c.rows ==> after.rows[id] == c.rows[id])
  {
  }

  /** What a successful call stored is what a later read returns. */
  method PutThenGet(client: EvidenceClient, p: PutRequest, f: Faults) returns (r: Result<Payload, Error>)
    modifies client`schemaBootstrapped, client.stores
    ensures Succeeds(f) ==> r == Ok(p.payload)
  {
    var put := client.PutBlob(p, f);
    r := client.GetBlob(p.id, false);
  }
}
