# Incident orchestrator: a verified model

This project models the incident orchestrator and its collectors in Dafny and proves what the
system promises about runs, actions, evidence, caching and retries. Whatever comes from outside
(language-model answers, collector replies, failures of stores, deaths of processes) is an
arbitrary input, so every theorem is about all of them. `dafny verify dfyconfig.toml` checks
everything.

## How it is laid out

- **The run.** `Graph` builds the wired state graph; `Investigator`, `Collectors`, `Planner` and
  `Coordinator` are its nodes; `Runs` folds them into runs and bounds their length; `Outcome`
  proves what every state of a run satisfies and how each run ends, `Diagnosis` that it believes
  what was last proposed; `Checkpoint` is `run_once`.
- **Intents.** `Json` prints canonical JSON and parses it back; `JsonLayout` says what it looks
  like; `Signing` hashes, signs and
  verifies intents on top of it; `Executor` executes them at most once.
- **Evidence.** `EvidenceStore` is the two-store client, `EvidenceProtocol` any number of its
  calls interleaved with failures and deaths, `Cache` and `CacheKey` the five-minute cache,
  `Dispatch` the reading of collector replies, `MinioWriter` and `LokiCollector` the collectors'
  side, and `Provenance` the whole system at the level of evidence references.
- **Language-model loops.** `LlmClient` (backoff), `Structured` (corrective retries), `Dev` (two
  attempts at a fix), `RepoSnapshot`, and `Reviewer` (the gate).
- **Range queries.** `PromQuery` (the step and the number of points) and `RateSummary`.
- **Shared.** `Text` (strings in code-point order, sorting) and `Schemas` (the incident state).

Code that updates state is a class or a method with loops, proved against a function of its
inputs; the properties are lemmas about those functions. The nodes' dictionaries of changed
fields are record updates.

## Assumptions

- The digest has no collisions (`CollisionFree`) and a signature made with the signing key checks
  with the verifying key (`MatchingKeys`); each lemma that needs one says so. The content hash
  never yields an empty id (`Sound`).
- Strings are sequences of Unicode scalar values; the models the source declares refuse lone
  surrogates.
- Incidents start from intake with no findings, hypotheses, intents or attempts; lemmas that need
  less ask for less.
- A run of which the answers end before the graph does is one whose process died or whose node
  raised.
- Times are integers in the source's resolution; scores, confidences and pauses are reals.

## What the code does that its documentation does not say

- Attempts exhausted with no hypothesis at all resolve the incident with a no-op; the
  documentation speaks of escalation (`Outcome.RunWithoutCause`). A hypothesis confirmed on the
  fifth tick is escalated and never planned, since the cap is looked at first
  (`Outcome.ConfirmedTooLate`).
- A process that dies half way is never resumed: `run_once` returns the state it left, although
  the checkpoint module promises resumption (`Checkpoint.NeverResumed`, `Checkpoint.DiedUnsettled`).
- The coordinator's executor starts with an empty seen-set and no store, so coordinating an
  incident again executes everything again (`Coordinator.SecondRunExecutesAgain`).
- The coordinator's branch for "no verified intents" after a ready preflight cannot be reached,
  and the first rule of the preflight's documentation is not the first branch of its code.
- A put whose row was committed although the commit raised, and whose rollback then deletes the
  blob, leaves a row without a blob, which the ordering promise rules out
  (`EvidenceProtocol.MatchedExactly` gives the exact condition).
- The cache table's foreign key refuses every answer whose evidence has no metadata row, and the
  orchestrator never records metadata for collectors' evidence, so its cache stays empty
  (`Cache.CachedExactlyWithMetadata`); a refresh does not go through the key
  (`Cache.RefreshEscapesForeignKey`). The key contains the moment of asking, so a moving clock
  finds no row (`Collectors.NoHitOnceTheClockMoved`).
- The Loki collector leaves its list of follow-ups nil, which is `null` on the wire and refused by
  the orchestrator's model: each of its answers becomes a failure finding
  (`LokiCollector.OutputsAreRefused`).
- The signature covers five fields; expiry, approval and signer can change under it
  (`Signing.SignatureBindsExactlyTheFields`).
- Structured output says it forces the tool call; no tool choice is sent, so a response without
  the call is an ordinary case (`Structured.AssertionFailsExactly` says when the final assertion
  can fail).
- The Dev snapshot's cap is named in bytes and counts characters.
- The step of a range query keeps the number of points within 63 for every window shorter than
  9 684 540 621 seconds, and beyond that not, because durations saturate
  (`PromQuery.PointsAtMost63`).

## Model

| member | source | states |
|---|---|---|
| Runs.RunsEnd | agent/src/agent/orchestrator/graph.py:40-65 | from any seed, a run that is answered often enough ends after two nodes per tick, one more, and one more if it plans; it never exceeds 2*max(1, 5-a)+1 nodes, and does not plan exactly when it ticks up to the cap |
| Runs.RunHasShape | agent/src/agent/orchestrator/routing.py:38-44 | at every point of every run, how often each node ran and how attempts relate to ticks |
| Runs.StepFollowsWiring | agent/src/agent/orchestrator/graph.py:40-65 | every step of a run is an edge of the graph that is built |
| Runs.CapOnlyFromTheSeed | agent/src/agent/orchestrator/nodes/investigator.py:143-161 | a tick finds the attempts exhausted exactly when the seed already had them |
| Runs.PlannerReachedExactly | agent/src/agent/orchestrator/routing.py:38-44 | the planner is reached exactly when some tick leaves a confirmed hypothesis with attempts below five |
| Runs.EndIsFinal | agent/src/agent/orchestrator/graph.py:65 | nothing runs after the coordinator |
| Graph.BuildGraph | agent/src/agent/orchestrator/graph.py:21-70 | adding nodes and edges one by one yields this entry point, these nodes and these edges |
| Graph.WaysOn | agent/src/agent/orchestrator/graph.py:40-65 | where each node leads |
| Graph.DevClusterUnreachable | agent/src/agent/orchestrator/graph.py:58-65 | no path of wired edges from the entry leads to Dev, Verifier or Reviewer |
| Outcome.EveryRunSettles | agent/src/agent/orchestrator/nodes/coordinator.py:70-301 | eleven answers end every run from a fresh seed, and it is resolved or escalated |
| Outcome.RunWithoutCause | agent/src/agent/orchestrator/coordinator/preflight.py:59-75 | if no tick confirms below the cap there is no intent and no executor is called, and the run resolves with one no-op exactly when nothing was ever proposed and otherwise escalates with no action |
| Outcome.RunWithCause | agent/src/agent/orchestrator/nodes/planner.py:289-304 | a run that plans ends as its one decision says: a mutating plan at one half or more becomes one intent, of which executors are asked one execution, and one rollback if it raises; any other escalates with no call and no action |
| Outcome.ConfirmedTooLate | agent/src/agent/orchestrator/routing.py:38-44 | from any fresh seed, four ticks without a hypothesis and a confirmed one on the fifth escalate with no plan, no call and no action |
| Outcome.RunKeepsWellFormed | agent/src/agent/orchestrator/nodes/investigator.py:202-252 | in every reachable state hypothesis ids are distinct and non-empty, finding ids distinct, services strictly sorted, attempts the number of ticks on the timeline, and every intent verifies |
| Outcome.RunExtends | agent/src/agent/orchestrator/nodes/collectors.py:238-278 | along a run timeline, findings, actions, intents and hypothesis ids only grow by extension, services never shrink, and the alert stays |
| Outcome.NodesOwnTheirFields | agent/src/agent/orchestrator/nodes/planner.py:324-330 | each node changes only its own fields, and each but the coordinator records one event |
| Outcome.FocusAfterTick | agent/src/agent/orchestrator/nodes/collectors.py:124-144 | after a tick below the cap the collectors node has a focus exactly when something was proposed |
| Outcome.EmptyExactly | agent/src/agent/orchestrator/nodes/investigator.py:58-71 | a run from no hypotheses has none exactly when no tick below the cap was given one |
| Checkpoint.RunOnce | agent/src/agent/orchestrator/run.py:37-58 | a saved incident is returned without running a node; any other is streamed, its log being each node followed by the save of the state it leaves, and exactly if it reaches the end and saves that, the saved end is returned; the process may die in or after any node, before or after its save |
| Checkpoint.ReturnsWhatIsSaved | agent/src/agent/orchestrator/run.py:49-58 | a call returns what is saved after it; it returns exactly for a saved incident or a run that saved its end, and touches no other incident |
| Checkpoint.Stream | agent/src/agent/orchestrator/run.py:44-47 | the streaming loop runs a node, saves, and only then runs the next, for exactly the run its answers determine |
| Checkpoint.DiesAsAShorterCall | agent/src/agent/orchestrator/run.py:44-47 | whatever has happened when a call dies, at any point of its log, is the whole log of a shorter call |
| Checkpoint.SavedIsReplayed | agent/src/agent/orchestrator/run.py:49-58 | what is saved after a call is what the saves in its log leave |
| Checkpoint.NodesAreLogged | agent/src/agent/orchestrator/run.py:44-47 | the nodes a call reports are those its log shows to have run |
| Checkpoint.FirstCallDecides | agent/src/agent/orchestrator/run.py:37-58 | over any sequence of calls, the first that saves anything for an incident fixes what stays saved; calls before, after and for other incidents do not |
| Checkpoint.ActsAtMostOnce | agent/src/agent/orchestrator/run.py:37-58 | over any sequence of calls with deaths anywhere, an incident is coordinated at most once, and exactly when its first saving call got that far |
| Checkpoint.SavedForGood | agent/src/agent/orchestrator/run.py:37-42 | once an incident is saved no later call runs a node for it, and each returns the same state |
| Checkpoint.NeverResumed | agent/src/agent/orchestrator/checkpoint.py:3-7 | what later calls return is settled exactly when the first saving call reached the end and saved it, so a run that died half way is never resumed |
| Checkpoint.DiedUnsettled | agent/src/agent/orchestrator/checkpoint.py:3-7 | a process dies after intake, and every later call returns the incident under investigation without running a node |
| Coordinator.Coordinate | agent/src/agent/orchestrator/nodes/coordinator.py:70-301 | phase, events and actions are those given by the first intent that fails to verify, the first execution that raises, and repeated hashes; and the journal of all executors grows by exactly the calls that follow from these, and by their records |
| Coordinator.VerifyAll | agent/src/agent/orchestrator/nodes/coordinator.py:88-122 | the verification loop keeps the intents before the first that fails |
| Coordinator.ExecuteUntilRaise | agent/src/agent/orchestrator/nodes/coordinator.py:210-243 | the execution loop asks the executor for each intent up to and including the first that raises, and for nothing else |
| Coordinator.ExecuteAll | agent/src/agent/orchestrator/nodes/coordinator.py:210-243 | ... and records every intent before the one that raises, then that failure |
| Coordinator.Remediate | agent/src/agent/orchestrator/nodes/coordinator.py:210-301 | a new executor is asked for these executions, then at most for one rollback, of the intent that failed; then escalation or resolution |
| Coordinator.PreflightTable | agent/src/agent/orchestrator/coordinator/preflight.py:59-110 | execution goes ahead exactly with an intent and a confirmed hypothesis; the other outcomes exactly as listed |
| Coordinator.FailClosed | agent/src/agent/orchestrator/nodes/coordinator.py:88-122 | with an intent that fails to verify no executor is called and no record made; the only new action is one failed action for the first such intent, and the phase is escalated |
| Coordinator.ForgeryFailsClosed | agent/src/agent/orchestrator/nodes/coordinator.py:88-122 | an intent anywhere in the list with a signature that does not check, or a hash that is not the digest of its fields, stops every call |
| Coordinator.NothingRunsUnverified | agent/src/agent/orchestrator/nodes/coordinator.py:88-215 | an executor is called exactly when there is an intent, all intents verify and a hypothesis is confirmed; an action that ran implies it |
| Coordinator.CompensationAccounting | agent/src/agent/orchestrator/nodes/coordinator.py:214-282 | the calls are each intent executed in order up to and including the first that raises, then that one compensated; the actions are one per intent so far, then at most one rollback |
| Coordinator.LaterIntentsUntouched | agent/src/agent/orchestrator/nodes/coordinator.py:236-243 | no call is made about an intent that only stands after the one that raised |
| Coordinator.EventAccounting | agent/src/agent/orchestrator/nodes/coordinator.py:210-296 | the events of a run that executes, in order, each naming its intent |
| Coordinator.StoppedEvents | agent/src/agent/orchestrator/nodes/coordinator.py:134-192 | the events and actions of a run that stops at the preflight |
| Coordinator.ExecutesEachOnce | agent/src/agent/orchestrator/nodes/coordinator.py:210-243 | whenever it executes at all, the forward records made are as many as there are distinct intents, by their five signed fields, among those that take effect; each of their hashes is executed once and no other ever |
| Coordinator.ActionsShowEachOnce | agent/src/agent/orchestrator/nodes/coordinator.py:214-221 | after a run that resolves by execution the actions show one effect per distinct intent |
| Coordinator.SecondRunExecutesAgain | agent/src/agent/orchestrator/nodes/coordinator.py:210-211 | coordinating an already coordinated incident makes the same calls of an executor that has seen nothing, and adds the same actions |
| Coordinator.PhaseTable | agent/src/agent/orchestrator/nodes/coordinator.py:134-301 | for every state, which phase the coordinator leaves, each exactly when |
| Executor.IdempotentExecutor.Execute | agent/src/agent/orchestrator/coordinator/exec.py:111-177 | one call's entry and record in the journal, the seen-set after it, what is returned and what reached the store, whether it returns or raises before or after its work |
| Executor.IdempotentExecutor.Compensate | agent/src/agent/orchestrator/coordinator/exec.py:179-215 | a rollback is recorded whatever was seen, unless the call raises first, and the seen-set stays |
| Executor.SeenExactly | agent/src/agent/orchestrator/coordinator/exec.py:75-84 | after any calls the seen-set is the seed and every hash whose execution took effect |
| Executor.ExactlyOnce | agent/src/agent/orchestrator/coordinator/exec.py:111-165 | over any calls, raising or not, a hash is executed once if an execution of it took effect and it was not seeded, otherwise never |
| Executor.RecordsTell | agent/src/agent/orchestrator/coordinator/exec.py:143-152 | one record for every call that takes effect, in order, with the hash, target, parameters and type of its intent, or of its rollback |
| Executor.TotalIsNew | agent/src/agent/orchestrator/coordinator/exec.py:111-165 | over any calls there are as many real executions as hashes added to the seen-set |
| Executor.HandOver | agent/src/agent/orchestrator/coordinator/exec.py:75-84 | an executor seeded with another's set continues where that one stopped |
| Executor.NeverRepeatsAcrossExecutors | agent/src/agent/orchestrator/coordinator/exec.py:66-84 | ... and never repeats its work |
| Json.UnitsRoundTrip | agent/src/agent/security/action_intent.py:62 | scalar values survive their UTF-16 units, surrogate pairs included |
| Json.ReadQuote | agent/src/agent/security/action_intent.py:62 | a reader recovers each escaped string and what follows it |
| Json.LexSpell | agent/src/agent/security/action_intent.py:62 | tokens survive being spelled, integers of any sign and size included |
| Json.ParsePrint | agent/src/agent/security/action_intent.py:62 | parsing undoes printing, for every tree of strings, integers, Booleans, arrays and objects |
| JsonLayout.EscapeForm | agent/src/agent/security/action_intent.py:62 | one character exactly for printable ASCII but quote and backslash, two exactly for the seven with a letter, else \uXXXX; ASCII only |
| JsonLayout.EscapeSamples | agent/src/agent/security/action_intent.py:62 | which letter escapes which of the seven |
| JsonLayout.HexIsLower | agent/src/agent/security/action_intent.py:62 | the digits of \uXXXX are lower-case |
| JsonLayout.MoreSamples | agent/src/agent/security/action_intent.py:62 | one six-character escape, one surrogate pair and two numbers, spelled out |
| JsonLayout.PrintIsAscii | agent/src/agent/security/action_intent.py:62 | the text of every tree is printable ASCII |
| JsonLayout.PrintedObject | agent/src/agent/security/action_intent.py:62 | an object is its members' texts between braces, one comma between each two and no white space |
| Signing.PayloadKeysSorted | agent/src/agent/security/action_intent.py:55-62 | keys of the payload and of its parameters stand in sorted order |
| Signing.CanonicalLayout | agent/src/agent/security/action_intent.py:55-62 | the canonical form of every intent, member by member, each field under its own key |
| Signing.MutatingNames | agent/src/agent/security/action_intent.py:103-104 | the names under which the three mutating types are hashed |
| Signing.CanonicalInjective | agent/src/agent/security/action_intent.py:55-63 | canonical forms are equal exactly when the five fields are, the parameters as a dictionary |
| Signing.HashBinding | agent/src/agent/security/action_intent.py:41-63 | hashes are equal exactly when the five fields are, whatever the expiry, signer or approval |
| Signing.SignThenVerify | agent/src/agent/security/action_intent.py:99-115 | a signed copy has the digest of its fields and the signature of that, differs in nothing else, verifies, and signing again changes nothing |
| Signing.VerifiesExactly | agent/src/agent/security/action_intent.py:137-164 | an intent verifies exactly when its hash is the digest of its fields and its signature checks; otherwise which of the two failed |
| Signing.SignatureBindsExactlyTheFields | agent/src/agent/security/action_intent.py:137-164 | an altered copy verifies exactly when none of the five fields was altered, and else fails on the hash |
| Signing.VerifiedHashIdentifies | agent/src/agent/security/action_intent.py:137-164 | among verified intents the stored hash identifies the five fields |
| Investigator.MergeHypotheses | agent/src/agent/orchestrator/nodes/investigator.py:58-71 | the dictionary loops keep each id once, at its first position with its last value |
| Investigator.MergeAssociative | agent/src/agent/orchestrator/nodes/investigator.py:58-71 | merging tick by tick or all proposals at once comes to the same |
| Investigator.MergeIdempotent | agent/src/agent/orchestrator/nodes/investigator.py:58-71 | merging a proposal twice is merging it once |
| Investigator.MergeKeeps | agent/src/agent/orchestrator/nodes/investigator.py:58-71 | the merged ids are the known and the proposed ones, the proposed value winning |
| Investigator.FocusIsKnown | agent/src/agent/orchestrator/nodes/investigator.py:204-221 | the focus names a merged hypothesis exactly when something was proposed |
| Diagnosis.TickTakesTheAnswer | agent/src/agent/orchestrator/nodes/investigator.py:51-71 | after a tick below the cap each id the answer names holds the last answer for it, unchanged, in place of what was held, and every other id what it held |
| Diagnosis.FocusIsTheChoice | agent/src/agent/orchestrator/nodes/investigator.py:204-221 | the focus is the model's choice when it was answered, else the first answered with the highest score, else empty |
| Diagnosis.LatestIsHeld | agent/src/agent/orchestrator/nodes/investigator.py:202-221 | in every state of a run, what is held under an id is the latest proposal for it |
| Diagnosis.PlannerFollowsProposals | agent/src/agent/orchestrator/routing.py:38-44 | the planner is reached exactly when after some tick with attempts below five the latest proposal for some id is confirmed |
| Planner.PlannerGate | agent/src/agent/orchestrator/nodes/planner.py:178-213 | an intent is built exactly for the three mutating types at one half or more, carries the decision's fields, and verifies |
| CacheKey.KeysIdentifyQuestions | agent/src/agent/orchestrator/dispatch/cache.py:37-69 | keys are equal exactly when all parts are, the scope compared as a multiset |
| CacheKey.KeyLayout | agent/src/agent/orchestrator/dispatch/cache.py:51-69 | the text under the digest, each part under its own name |
| Cache.CollectorCache.Get | agent/src/agent/orchestrator/dispatch/cache.py:83-100 | only a row that has not expired is returned |
| Cache.CollectorCache.Put | agent/src/agent/orchestrator/dispatch/cache.py:102-139 | an accepted write is an upsert that keeps the evidence column, and the table stays exactly what the accepted writes leave |
| Cache.TableHoldsLast | agent/src/agent/orchestrator/dispatch/cache.py:116-126 | a row is there exactly for a key that was written, with the answer and the expiry of the last write |
| Cache.ColumnKeepsFirst | agent/src/agent/orchestrator/dispatch/cache.py:116-126 | the evidence column keeps what the first write under the key set |
| Cache.HitExactly | agent/src/agent/orchestrator/dispatch/cache.py:83-139 | a lookup hits exactly when the question was answered and its last answer is less than five minutes old, and that is the answer found |
| Cache.HitProvenance | agent/src/agent/orchestrator/dispatch/cache.py:83-139 | a hit is the answer to the same question, given less than five minutes ago |
| Cache.CachedExactlyWithMetadata | agent/src/agent/evidence/migrations/0001_initial.sql:29-38 | after any writes a key is present exactly when one of them named evidence with a metadata row |
| Cache.NoMetadataNoCache | agent/src/agent/orchestrator/nodes/collectors.py:211-219 | without metadata rows no sequence of writes puts anything into the cache |
| Cache.RefreshEscapesForeignKey | agent/src/agent/orchestrator/dispatch/cache.py:116-126 | an accepted write keeps answers backed by metadata exactly when its own evidence has some, while the column always stays valid |
| Collectors.CollectorsNode | agent/src/agent/orchestrator/nodes/collectors.py:120-278 | a live row answers the question, every other case dispatches as without a cache, only a collector's answer is written, and the finding is recorded as it came unless its id is there |
| Collectors.QuestionIs | agent/src/agent/orchestrator/nodes/collectors.py:146-178 | the question asks the focus hypothesis's text from ten minutes before the alert until now, about the incident's service and all touched so far |
| Collectors.CacheIsTransparent | agent/src/agent/orchestrator/nodes/collectors.py:180-233 | with collectors that repeat themselves for five minutes a hit is the answer of a dispatch |
| Collectors.NoHitOnceTheClockMoved | agent/src/agent/orchestrator/nodes/collectors.py:63-67 | with a clock that moves on between visits the cache never hits |
| Collectors.CollectedKeeps | agent/src/agent/orchestrator/nodes/collectors.py:238-250 | finding ids stay distinct, findings extend, services stay strictly sorted and grow |
| Dispatch.AnswersAreInRange | agent/src/agent/orchestrator/dispatch/http.py:102-167 | a 2xx reply with its list there and its numbers in range is taken field by field as sent; every other becomes a failure under its own id, at confidence zero and without evidence |
| EvidenceStore.EvidenceClient.PutBlob | agent/src/agent/evidence/client.py:115-190 | blob, row, and rollback leave these stores and raise these errors, whatever takes effect or raises |
| EvidenceStore.EvidenceClient.GetBlob | agent/src/agent/evidence/client.py:192-218 | a stored blob is returned, a missing one is reported as such |
| EvidenceStore.EvidenceClient.RecordMetadata | agent/src/agent/evidence/client.py:220-261 | inserts a row unless one exists, and never touches blobs |
| EvidenceStore.NewPutKeepsMatch | agent/src/agent/evidence/client.py:164-187 | for a new id rows and blobs stay matched exactly unless a commit raised after taking effect and its blob was rolled back |
| EvidenceStore.RepeatedPutKeepsMatch | agent/src/agent/evidence/client.py:240-261 | for an id with a row they stay matched exactly when nothing was uploaded, or the length is the same and nothing rolled back |
| EvidenceStore.PutLeaves | agent/src/agent/evidence/client.py:152-190 | success leaves both, failure no row unless the commit took effect, and at worst an orphan; other ids are untouched |
| EvidenceStore.PutThenGet | agent/src/agent/evidence/client.py:115-218 | what a successful put stored is what a read returns |
| EvidenceProtocol.MatchedExactly | agent/src/agent/evidence/client.py:152-190 | in every state of every interleaving of calls with distinct new ids, rows match blobs exactly when no call has deleted the blob of a row whose commit raised |
| EvidenceProtocol.NoDanglingRows | agent/src/agent/evidence/client.py:8-12 | with commits that raise only without effect no row ever dangles, a returned call left both, any other no row |
| EvidenceProtocol.AloneAsTheClient | agent/src/agent/evidence/client.py:115-190 | one call on its own leaves the stores as the client's method does, and stands at the stage its faults determine |
| EvidenceProtocol.StageTellsError | agent/src/agent/evidence/client.py:151-190 | that stage tells success from each of the method's errors, and whether row and blob are there |
| EvidenceProtocol.DanglingRow | agent/src/agent/evidence/client.py:169-187 | three steps after which a row has no blob |
| Provenance.NothingDangles | agent/src/agent/orchestrator/nodes/collectors.py:205-242 | after any interleaving with any failures and deaths, live and saved findings cite a stored blob or nothing, and cached ones always a blob |
| Provenance.EvidenceIsRecorded | agent/src/agent/orchestrator/nodes/collectors.py:238-242 | after any interleaving, a new finding in hand is recorded as it came, naming its stored blob unless it is a failure |
| Provenance.AnswerIsReceived | agent/src/agent/orchestrator/dispatch/http.py:125-130 | what a collector sent is in hand as it was sent, and cites what it stored |
| Provenance.FindingsAreCarried | agent/src/agent/orchestrator/nodes/collectors.py:180-219 | findings go into saved states and the cache, and come out of it, unchanged |
| Provenance.AfterKeepsInv | collectors/cmd/loki-collector/main.go:64-96 | the invariant behind it, over collectors holding references, bodies on the wire, answers in hand, cache and saved states |
| MinioWriter.MinioWriter.Put | collectors/internal/evidence/minio_writer.go:124-155 | a reference is returned only for an object stored before it, with its length; a refused request reaches no store |
| MinioWriter.RefersStill | collectors/internal/evidence/minio_writer.go:132-155 | a later write leaves a reference valid unless it reuses the id with another length, and never removes the object |
| LokiCollector.CollectLines | collectors/internal/loki/dispatch.go:74-92 | the nested loops collect the first min(cap, total) lines of the flattened streams |
| LokiCollector.FlattenAt | collectors/internal/loki/dispatch.go:74-86 | every value becomes one line, with its time, text and its stream's labels, in order |
| LokiCollector.Dispatch | collectors/internal/loki/dispatch.go:52-99 | refusals in order, else those lines and their count |
| LokiCollector.Collect | collectors/cmd/loki-collector/main.go:38-97 | the blob is stored before the output exists, without it there is none, and the output refers to it, with its fields and its confidence |
| LokiCollector.LinesAreCapped | collectors/internal/contract/contract.go:89-98 | for every input and every answer at most 1000 lines; of a valid one all lines exactly when they fit the cap |
| LokiCollector.IterationsAreClamped | collectors/internal/contract/contract.go:89-98 | the iterations are the ones asked for between one and ten, ten beyond, five when none are |
| LokiCollector.PayloadTells | collectors/cmd/loki-collector/main.go:55-83 | what is stored and what the summary says, when the query failed and when it did not |
| LokiCollector.OutputsAreRefused | collectors/cmd/loki-collector/main.go:83-96 | the orchestrator turns every output of this collector into a failure finding |
| LlmClient.Client.Complete | agent/src/agent/llm/client.py:92-153 | the calls and pauses made, in order, and the reply returned or raised |
| LlmClient.StopsInTime | agent/src/agent/llm/client.py:111-124 | at most max(0, R) retries |
| LlmClient.SucceedsExactly | agent/src/agent/llm/client.py:92-153 | success exactly when a message comes within the retries and before it only status errors with retryable codes, and then that message |
| LlmClient.RaisesExactly | agent/src/agent/llm/client.py:106-124 | after retryable errors only, any other error stops the call at once and is what it raises; when the retries are used up the last one is |
| LlmClient.DefaultRetries | agent/src/agent/llm/settings.py:24-28 | by default a call is repeated exactly after 429, 500, 502, 503 and 504 |
| LlmClient.TraceAlternates | agent/src/agent/llm/client.py:92-136 | calls and pauses alternate, the same request each time, each pause in its turn |
| LlmClient.BackoffIsCapped | agent/src/agent/llm/client.py:126-129 | each pause is the shorter of the doubled one and the longest allowed |
| LlmClient.WaitUnderDoubling | agent/src/agent/llm/client.py:126-136 | pauses add up to at most init*(2^k-1) |
| LlmClient.WaitUnderLongest | agent/src/agent/llm/client.py:126-136 | ... and to at most k*max |
| LlmClient.WaitIsExact | agent/src/agent/llm/client.py:126-136 | ... and to exactly init*(2^k-1) while the longest pause is not exceeded |
| LlmClient.DefaultWait | agent/src/agent/llm/settings.py:17-28 | with the default settings at most three calls and zero, one or three seconds |
| Structured.CompleteTyped | agent/src/agent/llm/structured.py:116-211 | what is returned or raised and everything the client did, for any number of retries; the caller's list is not modified |
| Structured.Converse | agent/src/agent/llm/structured.py:126-202 | the corrective loop ends at the first attempt that is not rejected or at the last |
| Structured.NestedBound | agent/src/agent/llm/structured.py:126-131 | both loops together call the service at most (R+1)(r+1) times |
| Structured.ConversationShape | agent/src/agent/llm/structured.py:183-202 | attempt k converses on the caller's turns and k pairs of a response and its correction |
| Structured.ReturnsExactly | agent/src/agent/llm/structured.py:153-168 | a value exactly when the first attempt not rejected, among those allowed, validates |
| Structured.JudgementTells | agent/src/agent/llm/structured.py:64-72 | which response is accepted, and what a correction says of one that is not |
| Structured.FirstCall | agent/src/agent/llm/structured.py:64-72 | the input judged is that of the first call of the tool |
| Structured.RoundTells | agent/src/agent/llm/structured.py:126-131 | an attempt fails exactly when its call does, with that error, and otherwise judges the message it got |
| Structured.ExhaustedTells | agent/src/agent/llm/structured.py:140-211 | the error raised at the end carries the last attempt's input and the latest validation error |
| Structured.AttemptAsks | agent/src/agent/llm/structured.py:126-131 | every call of an attempt carries the system prompt, the tool and the attempt's own conversation |
| Structured.AssertionFailsExactly | agent/src/agent/llm/structured.py:204-205 | the final assertion fails exactly without attempts, or when every attempt lacks the call and the model accepts an empty payload |
| Dev.ValidateFileChanges | agent/src/agent/orchestrator/dev/diff_validator.py:39-78 | no error exactly when there are changes and all parse; else the failures by file |
| Dev.FailuresName | agent/src/agent/orchestrator/dev/diff_validator.py:56-78 | a file is named exactly when some change to it fails, with the complaint about the last that does |
| Dev.RunDev | agent/src/agent/orchestrator/nodes/dev.py:187-384 | what is produced or blocked, and everything the client did: one request, and a second with the corrective turns exactly when the first returned a draft whose diffs fail; at most 2(R+1) calls |
| Dev.ProposalsAreSound | agent/src/agent/orchestrator/nodes/dev.py:345-384 | a proposal takes every field from the draft that decided, has changes that parse and lie in the plan's repositories, and names the first confirmed hypothesis |
| Dev.ProducedExactly | agent/src/agent/orchestrator/nodes/dev.py:254-365 | a proposal exactly when a draft parses and stays in scope |
| Dev.RaisesExactly | agent/src/agent/orchestrator/nodes/dev.py:254-335 | a run raises exactly when the request that decides does |
| Dev.BlockedTells | agent/src/agent/orchestrator/nodes/dev.py:262-363 | a blocked report lists what failed, and for changes out of scope exactly these |
| Dev.FirstConfirmedIs | agent/src/agent/orchestrator/nodes/dev.py:223-226 | the hypothesis that counts is the first confirmed |
| Dev.RetryTurnsAlternate | agent/src/agent/orchestrator/nodes/dev.py:299-309 | the corrective conversation repeats the request and alternates |
| RepoSnapshot.ReadSnapshot | agent/src/agent/orchestrator/nodes/dev.py:60-104 | the lines of the snapshot, or the notice for a path that is no directory |
| RepoSnapshot.SnapshotShowsPrefix | agent/src/agent/orchestrator/nodes/dev.py:69-104 | the snippets are the first min(32768, total) characters of the readable files, the cap is announced exactly when a readable file begins beyond it, and no directory shows nothing |
| RepoSnapshot.NamesArePrefix | agent/src/agent/orchestrator/nodes/dev.py:80-100 | visible files are named in order, all of them unless the cap was announced |
| Reviewer.RunAllChecks | agent/src/agent/orchestrator/reviewer/policy.py:116-137 | the rules a proposal breaks, in order, each exactly when |
| Reviewer.ViolationsSay | agent/src/agent/orchestrator/reviewer/policy.py:32-113 | which rule is broken, in terms of the repositories and of what the texts contain |
| Reviewer.GateIsExact | agent/src/agent/orchestrator/nodes/reviewer.py:143-218 | approval exactly when every rule holds and the model approves; a challenge exactly with citations besides |
| Reviewer.RequestsTell | agent/src/agent/orchestrator/nodes/reviewer.py:118-218 | why changes are requested, each case with its reason and citations, and when there is nothing to review |
| Reviewer.DevMeetsReviewer | agent/src/agent/orchestrator/reviewer/policy.py:32-63 | a Dev proposal reviewed against the same plan and state can break only the rules on commit message and evidence |
| Reviewer.FailureSatisfiesRuleThree | agent/src/agent/orchestrator/reviewer/policy.py:86-113 | with one failure finding the third rule holds for every body |
| PromQuery.PointsAtMost63 | collectors/internal/prom/dispatch.go:161-168 | however the step is printed, at most 63 points exactly below 9 684 540 621 seconds |
| PromQuery.SixtyFourPoints | collectors/internal/prom/dispatch.go:161-168 | a window of 9 684 540 621 seconds asks for 64 |
| PromQuery.PointsAtLeast59 | collectors/internal/prom/client.go:196-211 | at least 59 points for fifteen minutes or more |
| PromQuery.RoundHalfEvenIsPrinted | collectors/internal/prom/client.go:211 | the printed step, rounded half to even, is within what the two bounds allow |
| PromQuery.QueryRange | collectors/internal/prom/client.go:196-247 | what is asked, in whole seconds, and every series parsed or an error at the first bad sample |
| PromQuery.RowsParsed | collectors/internal/prom/client.go:231-244 | an answer is taken exactly when every pair parses, and then row by row with its labels |
| PromQuery.RoundHalfEvenIsNearest | collectors/internal/prom/client.go:211 | the printed step is a nearest integer, of two the even one |
| RateSummary.Summarise | collectors/internal/prom/dispatch.go:181-202 | counts of the flattened samples, their ratio within [0, 1], and the first sample with the greatest time after the zero time |
| RateSummary.SummaryIsUnique | collectors/internal/prom/dispatch.go:181-198 | the samples determine the summary |
| RateSummary.ZeroTimeIs | collectors/internal/prom/dispatch.go:184 | the zero time against which the latest sample is sought |
| RateSummary.ThresholdTable | collectors/internal/prom/dispatch.go:318-335 | which comparisons hold, by how the value lies to the threshold |
| RateSummary.AboveCounts | collectors/internal/prom/dispatch.go:186-190 | the count is that of the samples that compare |
| RateSummary.FlattenAt | collectors/internal/prom/dispatch.go:186-187 | every sample of every series is counted, in order |
| RateSummary.DispatchRate | collectors/internal/prom/dispatch.go:170-212 | a failed query reports no confidence; a successful one the summary of its samples and their ratio |

## Left out

- Clock readings on events and states, action and proposal uuids (each a fresh id), and the wording of summaries, reasons, prompts and the escalation package.
- The Dev, Verifier and Reviewer graph nodes as steps of a run: no wired path reaches them; `run_dev` and the gate are modelled on their own.
- Checkpoint.FirstCallDecides: LangGraph's own checkpoint of the input, written before the first node, is not counted; a call that dies before the save of its first node counts as not saved, where the library would keep the seed.
- Concurrent calls of `run_once` for one incident.
- Retries inside the SDKs of the object store, the database and the language model.
- The internals of SHA-256 and Ed25519, and the base64 form of signatures.
- Rounding of floating-point scores, confidences, samples and pauses, and NaN; the printed step of a range query is proved for every rounding within sixteen nanoseconds.
- Coordinator.Coordinate: which executions raise, and whether before or after their work, is an input; the dry-run executor of the source raises only if building its records or actions does.
- Coordinator.ExecutesEachOnce: a record is what the source's dry run amounts to; there is no change to a system behind it, in the source either.
- Executor.IdempotentExecutor.PersistRecord: a record reaches the store or not; the store's own two-step write is modelled in EvidenceStore and not repeated here.
- EvidenceProtocol.MatchedExactly: calls have pairwise distinct ids that are new; an id used twice is covered call by call in EvidenceStore.RepeatedPutKeepsMatch only.
- Structured.CompleteTyped: the caller's list is one object; the dictionaries in it are values, so aliasing inside a turn is not captured.
- Cache.CollectorCache.Put: deleting metadata rows, which would cascade to the cache, does not happen in the source and has no operation here.
- Provenance.NothingDangles: the bucket's expiry of old objects and the writer that stores nothing when no object store is configured are outside the invariant.
- The choice of collector by prefix, query texts, the summary line of the Loki collector and the value and default queries of the Prometheus collector: parameters or absent, they would only add easy members.
- HTTP servers, Slack, Alertmanager, the command line, Kubernetes calls, charts and manifests.
