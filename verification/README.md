# Trust registry: verified model

A Dafny model of the Affinidi trust registry server (`trust-registry`) and of its query client
(`trql-client`), with proofs of the properties the two rest on. `dafny verify dfyconfig.toml` checks
the whole project.

## What is modelled

The registry stores *trust records* under a four-tuple (authority, action, resource, entity) and is
queried and changed through *Trust Task* documents that reach it over DIDComm or TSP. Both transports
deliver at least once, so every write goes through a claim store that remembers outcomes.

| module | part of the system |
|---|---|
| `Domain`, `MapValues`, `Text` | JSON trees, records and keys; draining a map; trimming |
| `JsonMerge` | deep merge of record contexts |
| `Keys` | flat record keys and message keys |
| `Storage` | the abstract four-tuple map, the scanning local store, the flat-key stores (fjall, Redis) |
| `CsvStorage`, `CsvRaces` | the CSV-backed store: rows, files, rewrite, background sync, restart; its operations and the sync task interleaved |
| `Tasks` | documents, outcomes and the record router |
| `Dedup` | the claim store and its history |
| `Redelivery` | `dispatch_idempotent`, one delivery after another |
| `DedupProtocol`, `ServerProtocol` | any number of deliveries interleaved at claim, handling and resolve, for any handlers; the server's own handlers among them |
| `Capabilities`, `CapabilityRuns` | composition of live dispatchers; enable, disable, failed saves, crashes, restarts |
| `GitTrust` | the git-trust grants and revokes, alone and interleaved |
| `Bindings`, `BindingRuns` | the DIDComm, TSP and HTTP pipelines over the whole server, and runs of messages over all three |
| `Answers` | what a sender is told and what has happened then, from the fields of the message alone |
| `Interleavings` | messages of all three bindings handled at once |
| `PendingReplies` | the client's reply demultiplexer and exchanges, interleaved |
| `Discovery` | the server's DID document builder against the client's parser and choice |
| `Backoff` | the two capped exponential retry loops |

Code that updates state in place is modelled by classes and loops proved against specification
functions (`LocalStorage`, `FlatStorage`, `FileStorage`, `MemoryMessageIdStore`, `CapabilitySet`,
`FileCapabilityStore`, `Server`, `Pending`, the merge, parse, build and retry loops). The theorems are
about those functions: runs of operations, runs of deliveries, and interleaved state machines.

Clocks, response ids, the endings of file writes and the answers of foreign services are parameters.
Framework party, freshness and proof checks are arbitrary functions in `Bindings.Policy`, so every
result holds whatever they decide.

## Where the code and its words differ

The model follows the code.

- A second grant of a git-trust tuple is refused as already granted because a record *exists*, not because
  a grant is active: the refusal tells of an active grant exactly when nothing has revoked the tuple
  (`GitTrust.GrantRefusedIffGrantedBefore`). A revoke is refused as not granted exactly when nothing ever
  granted the tuple, so revoking again succeeds (`GitTrust.RevokeRefusedIffNeverGranted`).
- `enable` and `disable` are described as persisting first, but they change memory before the save. After a
  failed save memory shows the change, nothing serves it, and a retry is refused (`Capabilities.FailedSaveStrands`);
  memory stays the saved state exactly when the request was refused or saved (`Capabilities.MemoryStaysSavedIff`);
  and the next save that succeeds publishes the stranded change after all (`Capabilities.NextSavePublishesMemory`).
- `disable` asks only the in-memory state, so it also works for a capability the host lacks, and after a failed
  save it answers from what was never saved.
- The HTTP surface is described as read-only. `compose` registers enabled capabilities on it too, and the HTTP
  binding makes the framework checks only, so while git-trust is on with an authority, posted grants and revokes
  are carried out without an administrator, a proof or a claim. It is read-only exactly when git-trust is not on
  with an authority (`BindingRuns.QueryReadOnlyIff`, `BindingRuns.PostedChangesIff`).
- Every write slug is described as deduplicated. A key rotation over DIDComm is served before the claim, so every
  copy of it asks the key service again (`BindingRuns.RotationIsRepeated`); copies of writes are answered verbatim
  exactly when neither delivery is such a rotation (`BindingRuns.CopyVerbatimIff`).
- The client says it acknowledges a frame only once the waiter holds the reply. The reply may enter a channel
  whose waiter has just timed out (`PendingReplies.AckedReplyCanBeLost`); a reply that was sent is the exchange's
  answer exactly when the exchange was awaiting at that step, or still sending and accepted later
  (`PendingReplies.SentReplyIsAnswerIff`).
- `complete` and `release` carry no owner. With no bound on handler time, two dispatches of one key never overlap
  exactly when no claim is asked for while a delivery of that key is past its in-flight window
  (`DedupProtocol.ExclusiveIffNoneOvertakes`). Once that has happened, a release by the first delivery deletes the
  second one's claim, and a third is let in with nothing overdue (`DedupProtocol.OwnerlessReleaseLetsThirdIn`).
- The claim store reads a wall clock; if that steps back, a claim can be answered against its own key's history,
  exactly in the case `Dedup.OwnHistoryIff` names.
- A capability with no config check is documented to accept no config beyond an empty object; `enable` accepts any.
- A failed CSV write leaves the change in memory although the caller is told it failed
  (`CsvStorage.UnsavedCreateIsReadable`); a half-written file that still parses makes the next sync drop records
  (`CsvStorage.TornLosesIff`, `CsvStorage.CutFileLosesTheRest`); and the next completed write makes the change that was
  answered as failed durable (`CsvStorage.NextWritePublishesUnsaved`).
- Stamping the file after a write is there to prevent a reload. It does not order concurrent writes: two acknowledged
  creates can leave a file that lacks one of them and that no sync will look at (`CsvRaces.LateWriteLosesCreate`), and
  a sync can drop an acknowledged change (`CsvRaces.HarmfulSwapDropsCreate`).

## Model

| member | source | states |
|---|---|---|
| JsonMerge.MergeJsonValues | trust-registry/src/domain/mod.rs:287-301 | the remove-then-insert loop, in any key order, yields the one merged tree |
| JsonMerge.PathLaw | trust-registry/src/domain/mod.rs:287-301 | at every path the merge reads as the addition, nothing below the addition's leaves, else the base |
| JsonMerge.PathLawIsComplete | trust-registry/src/domain/mod.rs:98-100 | any tree that obeys the path law at every path is the merged tree |
| JsonMerge.MergeIdempotent | trust-registry/src/domain/mod.rs:287-301 | merging a tree with itself gives it back |
| JsonMerge.MergeAbsorbs | trust-registry/src/domain/mod.rs:287-301 | repeating the addition or the base changes nothing |
| JsonMerge.EmptyObjectIdentity | trust-registry/src/domain/mod.rs:85-100 | the empty context is a left identity, and a right identity exactly on objects |
| JsonMerge.MergeAssociativeIff | trust-registry/src/domain/mod.rs:287-301 | three merges regroup exactly when the middle tree does not wipe an object the last one re-creates with less in it |
| JsonMerge.MiddleYieldsImpliesAssociative | trust-registry/src/domain/mod.rs:287-301 | they regroup if the middle tree has no leaf where both outer trees are objects |
| JsonMerge.MergeNotAssociative | trust-registry/src/domain/mod.rs:287-301 | a concrete triple that does not regroup |
| Keys.SkInjective | trust-registry/src/domain/key.rs:19-24 | with '#'-free authority, action and resource the flat key determines the four-tuple |
| Keys.SkShared | trust-registry/src/domain/key.rs:19-24 | a tuple with a '#' in any field has a different tuple under the same flat key |
| Keys.SkUnsharedIff | trust-registry/src/domain/key.rs:3-24 | a tuple has its flat key to itself exactly when no field holds '#' |
| Keys.MessageKeyInjective | trust-registry/src/dedup/mod.rs:87-90 | message keys of named '#'-free issuers determine issuer and id, also against anonymous ones |
| Keys.MessageKeyUnsharedIff | trust-registry/src/dedup/mod.rs:87-90 | a document has its message key to itself exactly for a named '#'-free issuer other than `anonymous` and a '#'-free id |
| Keys.MessageKeyOutsideRecords | trust-registry/src/dedup/mod.rs:87-90 | no message key carries the record prefix |
| Keys.KeysSpelledOut | trust-registry/src/domain/key.rs:19-24 | both kinds of key written out; a document with no issuer shares the key space of an issuer called `anonymous` |
| Storage.LocalStorage.CreateRecord | trust-registry/src/storage/adapters/local_storage.rs:92-109 | adds an absent record, refuses a present one, and is the abstract step |
| Storage.LocalStorage.UpdateRecord | trust-registry/src/storage/adapters/local_storage.rs:111-128 | replaces a present record, refuses an absent one |
| Storage.LocalStorage.DeleteRecord | trust-registry/src/storage/adapters/local_storage.rs:130-143 | removes a present record, refuses an absent one |
| Storage.LocalStorage.FindByQuery | trust-registry/src/storage/adapters/local_storage.rs:58-89 | scanning the values in any order finds exactly what a key lookup finds |
| Storage.LocalStorage.ReadRecord | trust-registry/src/storage/adapters/local_storage.rs:154-170 | the scan as a read, with not-found as an error |
| Storage.LocalStorage.ListRecords | trust-registry/src/storage/adapters/local_storage.rs:145-152 | lists every record once per key, in any order |
| Storage.LocalStorage.Perform | trust-registry/src/storage/adapters/local_storage.rs:21-170 | any run of operations answers as the abstract four-tuple map and ends in its records |
| Storage.FlatStorage.CreateRecord | trust-registry/src/storage/adapters/fjall_storage.rs:77-90 | check-then-insert under the flat key; a failing backend is a failed query |
| Storage.FlatStorage.UpdateRecord | trust-registry/src/storage/adapters/fjall_storage.rs:92-105 | check-then-replace under the flat key; a failing backend is a failed query |
| Storage.FlatStorage.DeleteRecord | trust-registry/src/storage/adapters/redis_storage.rs:133-153 | removes a present flat key, refuses an absent one; a failing backend is a failed query |
| Storage.FlatStorage.FindByQuery | trust-registry/src/storage/adapters/redis_storage.rs:44-66 | lookup by flat key; an unreadable value and a failing lookup are errors |
| Storage.FlatStorage.ReadRecord | trust-registry/src/storage/adapters/fjall_storage.rs:121-130 | the lookup as a read, failures included |
| Storage.FlatStorage.ListRecords | trust-registry/src/storage/adapters/fjall_storage.rs:132-151 | the scan yields every readable value under the record prefix and nothing else, or fails as a whole |
| Storage.MessagesAreNotListed | trust-registry/src/storage/adapters/fjall_storage.rs:132-151 | what the claim store keeps beside the records is never listed, a further record is listed once, an unreadable value is skipped |
| Storage.FlatRunAgrees | trust-registry/src/storage/adapters/redis_storage.rs:44-223 | over keys that do not collide, any run on the flat store answers as the abstract map and keeps representing it |
| Storage.FaultyStepAgrees | trust-registry/src/storage/adapters/fjall_storage.rs:77-130 | with the backend failing at the lookup or at the write, the operation is answered as a failed query and either happened or did not |
| Storage.FaultyRunAgrees | trust-registry/src/storage/adapters/redis_storage.rs:68-153 | through any faults the store keeps representing the run of just the operations that took effect |
| Storage.FlatAgreesIff | trust-registry/src/storage/adapters/fjall_storage.rs:60-151 | from empty, flat store and abstract map agree on every run over a set of keys exactly when no two of them share a flat key |
| Storage.CollisionDivides | trust-registry/src/domain/key.rs:19-42 | creating one of two colliding records and reading the other tells the stores apart |
| Storage.BackendsAgree | trust-registry/src/domain/key.rs:19-42 | on '#'-free authority, action and resource all backends give the same answers |
| CsvStorage.RowRoundTrip | trust-registry/src/storage/adapters/csv_file_storage.rs:317-374 | a written row reads back with trimmed ids, and as the normalised record exactly when its ids were trimmed |
| Text.TrimIff | trust-registry/src/storage/adapters/csv_file_storage.rs:148-157 | trimming gives the trimmed string that the text pads with nothing but white space |
| Text.IsSpaceIff | trust-registry/src/storage/adapters/csv_file_storage.rs:148-157 | the white space characters, one by one |
| CsvStorage.RowIsRead | trust-registry/src/storage/adapters/csv_file_storage.rs:317-374 | any row, whoever wrote it, is read exactly when its type is one of the two names in any case and padding; its ids are the ones inside the padding, and a context that does not decode is the empty object |
| CsvStorage.RowIsWritten | trust-registry/src/storage/adapters/csv_file_storage.rs:332-353 | what a row holds of a record: set flags only, contexts only if objects or arrays |
| CsvStorage.ParseCsv | trust-registry/src/storage/adapters/csv_file_storage.rs:148-167 | the loop keeps the last row per key and fails on any bad row |
| CsvStorage.AnyOrderRebuilds | trust-registry/src/storage/adapters/csv_file_storage.rs:176-213 | with trimmed ids, the rows of a map in any order parse to the normalised map |
| CsvStorage.RebuildsIffTrimmed | trust-registry/src/storage/adapters/csv_file_storage.rs:148-213 | rows rebuild the normalised map exactly when all its ids are trimmed |
| CsvStorage.FileStorage.TryNew | trust-registry/src/storage/adapters/csv_file_storage.rs:31-68 | opens exactly the files that exist and parse, with the file's records and time |
| CsvStorage.FileStorage.Sync | trust-registry/src/storage/adapters/csv_file_storage.rs:70-146 | reloads a newer, parseable file and otherwise changes nothing |
| CsvStorage.FileStorage.WriteToFile | trust-registry/src/storage/adapters/csv_file_storage.rs:176-213 | what each of the four endings of a rewrite leaves in file and memory |
| CsvStorage.FileStorage.Perform | trust-registry/src/storage/adapters/csv_file_storage.rs:236-297 | memory takes the abstract step first, the file follows only if it changed something |
| CsvStorage.CompletedStaysInStep | trust-registry/src/storage/adapters/csv_file_storage.rs:176-275 | a completed operation on trimmed ids keeps file, memory and time stamp in step |
| CsvStorage.RestartsAndSyncsAreInvisible | trust-registry/src/storage/adapters/csv_file_storage.rs:115-275 | in any run of completed operations with syncs and restarts anywhere, answers and records are those of the plain map up to what a file cannot keep, and every sync changes nothing |
| CsvStorage.RunsExist | trust-registry/src/storage/adapters/csv_file_storage.rs:115-275 | there is such a run of any such events, from any state in step |
| CsvStorage.QueriesCannotTell | trust-registry/src/storage/adapters/csv_file_storage.rs:332-374 | recognition and authorization queries never see that difference |
| CsvStorage.UnopenedInStepIff | trust-registry/src/storage/adapters/csv_file_storage.rs:236-275 | after a write that could not open the file, file and memory agree exactly when the change is one a file cannot show |
| CsvStorage.UnstattedHealsIff | trust-registry/src/storage/adapters/csv_file_storage.rs:196-213 | when only reading the new time failed, the file already agrees, and the next sync settles everything exactly when the new time is not older than the last one seen |
| CsvStorage.TornLosesIff | trust-registry/src/storage/adapters/csv_file_storage.rs:115-213 | after a half-finished write the next sync keeps memory's records unless the torn file is newer, parses and differs, and then takes the torn file's; the store reopens exactly when the torn file parses |
| CsvStorage.CutFileLosesTheRest | trust-registry/src/storage/adapters/csv_file_storage.rs:115-213 | a file cut off after some rows keeps exactly those rows' records at the next sync |
| CsvStorage.NextWritePublishesUnsaved | trust-registry/src/storage/adapters/csv_file_storage.rs:176-275 | after a failed write, the next one that completes puts file and memory in step with both operations done in order |
| CsvRaces.InStepIffLastWriteNotLate | trust-registry/src/storage/adapters/csv_file_storage.rs:176-275 | over every interleaving of operations and sync steps in which no swap drops a change: when all have ended memory is the plain map, its version was written, and the file holds it exactly when the last write was not an older snapshot |
| CsvRaces.SnapshotsParse | trust-registry/src/storage/adapters/csv_file_storage.rs:148-195 | in every such run a snapshot, written in any row order, parses to its normalised records |
| CsvRaces.LateWriteLosesCreate | trust-registry/src/storage/adapters/csv_file_storage.rs:236-248 | two creates acknowledged, one of them missing from a file whose time stamp is the one last seen |
| CsvRaces.HarmfulSwapDropsCreate | trust-registry/src/storage/adapters/csv_file_storage.rs:85-97 | a create acknowledged although a sync has taken it out of memory, so that it is in neither memory nor file |
| CsvRaces.UndisturbedOperation | trust-registry/src/storage/adapters/csv_file_storage.rs:176-275 | the steps of an operation with nothing in between do what the plain map and a completed rewrite do |
| CsvRaces.UndisturbedSync | trust-registry/src/storage/adapters/csv_file_storage.rs:85-97 | the steps of a sync with nothing in between reload a newer file and else change nothing |
| CsvStorage.UnsavedCreateIsReadable | trust-registry/src/storage/adapters/csv_file_storage.rs:236-248 | however its write failed, a create is reported failed, readable and refused on retry; a restart finds it exactly as that ending left the file |
| Tasks.HandleDocument | trust-registry/src/trust_tasks/router.rs:152-335 | routes a document to its repository operation and turns the answer into the outcome, query fields and requested time echoed |
| Tasks.ReadsChangeNothing | trust-registry/src/trust_tasks/proof.rs:24-36 | documents outside the write slugs leave the records alone |
| Tasks.LocalOutcomesCacheable | trust-registry/src/dedup/mod.rs:253-269 | over the local store every outcome is a cacheable one |
| Tasks.AnswersOnItsThread | trust-registry/src/trust_tasks/router.rs:164-345 | every answer carries the id of the document it answers |
| Tasks.CreateAdds | trust-registry/src/trust_tasks/router.rs:251-267 | a create completes and adds exactly its record exactly when its four-tuple was free, else it already exists |
| Tasks.UpdateReplaces | trust-registry/src/trust_tasks/router.rs:269-285 | an update completes and replaces exactly when the record was there, else it is not found |
| Tasks.DeleteRemoves | trust-registry/src/trust_tasks/router.rs:287-304 | a delete completes and removes exactly when the record was there, else it is not found |
| Tasks.ReadsGiveWhatIsStored | trust-registry/src/trust_tasks/router.rs:306-335 | a read gives the record under its key or not found, a list all values, and neither changes anything |
| Tasks.QueryTellsTheFlag | trust-registry/src/trust_tasks/router.rs:164-239 | a query is positive exactly when a record is there with its flag set to true; query, time and message are as stated |
| Tasks.OtherwiseRejected | trust-registry/src/trust_tasks/router.rs:152-162 | other types are unsupported, other payload shapes malformed, for good |
| Tasks.BackendFaultsAreRetryable | trust-registry/src/trust_tasks/router.rs:54-72 | an answer is one to retry exactly when the backend failed or held an unreadable value |
| Tasks.ReadAfterWrite | trust-registry/src/trust_tasks/router.rs:164-319 | what a completed write stored or removed is what a following read and both queries tell |
| Dedup.MemoryMessageIdStore.constructor | trust-registry/src/dedup/mod.rs:173-182 | over-long windows collapse to zero |
| Dedup.MemoryMessageIdStore.Default | trust-registry/src/dedup/mod.rs:198-202 | the store with the default settings |
| Dedup.MemoryMessageIdStore.EvictExpired | trust-registry/src/dedup/mod.rs:184-195 | keeps exactly the entries still inside their window |
| Dedup.MemoryMessageIdStore.ClaimKey | trust-registry/src/dedup/mod.rs:205-224 | evicts, then replays, refuses or grants; afterwards every other entry is unexpired |
| Dedup.MemoryMessageIdStore.Complete | trust-registry/src/dedup/mod.rs:226-241 | stores the outcome with its expiry under the key, whoever holds the claim |
| Dedup.MemoryMessageIdStore.Release | trust-registry/src/dedup/mod.rs:243-250 | removes the key, whoever holds the claim |
| Dedup.AnswersFollowOwnHistory | trust-registry/src/dedup/mod.rs:184-250 | with a clock that never steps back, each claim answer is a function of that key's own events, so evicting others never changes it |
| Dedup.OwnHistoryIff | trust-registry/src/dedup/mod.rs:184-250 | whatever the clock does, all claims on a key are answered from its own history exactly when none finds live what a claim on another key in between saw expired |
| Dedup.MonotoneForgetsNothing | trust-registry/src/dedup/mod.rs:184-224 | a clock that never steps back meets that condition |
| Dedup.ReplayedIff | trust-registry/src/dedup/mod.rs:184-241 | for a store built from any settings, whatever happens on other keys: a completed key is replayed exactly while its replay setting fits a clock difference and has not passed, and is free again from then on |
| Dedup.BusyIff | trust-registry/src/dedup/mod.rs:184-224 | likewise a granted key is busy exactly while its in-flight setting fits and has not passed |
| Dedup.ReleasedIsFree | trust-registry/src/dedup/mod.rs:243-250 | a released key is free at once |
| Dedup.DefaultWindows | trust-registry/src/dedup/mod.rs:61-73 | with the default settings that is a day and five minutes |
| Dedup.ClockStepBackForgets | trust-registry/src/dedup/mod.rs:184-224 | a claimed and completed key whose live outcome is forgotten when the clock steps back |
| Dedup.GrantsAreSeparated | trust-registry/src/dedup/mod.rs:184-250 | with no bound on handler time, two grants of one key are separated by a release, the in-flight window, or the replay window after a completion |
| Redelivery.DispatchIdempotent | trust-registry/src/dedup/mod.rs:276-335 | claim, dispatch, then complete or release; reads and store errors bypass the store |
| Redelivery.ClaimedIffMutating | trust-registry/src/dedup/mod.rs:276-287 | exactly the eight mutating types are claimed, under issuer and id |
| Redelivery.ReplayedToItsOwnIssuer | trust-registry/src/dedup/mod.rs:80-90 | inside the window a second write is answered from the first one exactly when issuer and id are the same |
| Redelivery.BusyCopyRetries | trust-registry/src/dedup/mod.rs:294-312 | a copy of a write still in progress is turned away under its own ids as retryable, changes nothing, and its retry is given the first answer |
| Redelivery.RedeliveryInvisible | trust-registry/src/dedup/mod.rs:264-335 | with repeats inside the window, records and every answer are those of the run with repeats struck out and no dedup |
| Redelivery.SlotHoldsFirstCopy | trust-registry/src/dedup/mod.rs:276-335 | the place each delivery is assigned in the struck-out run holds its first copy |
| Redelivery.VerbatimIffWithinWindow | trust-registry/src/dedup/mod.rs:276-335 | every repeat gets the first answer verbatim exactly when every repeat arrives inside the window |
| DedupProtocol.MutualExclusionAndQuiet | trust-registry/src/dedup/mod.rs:205-335 | for any handlers of any number of steps, in every interleaving with prompt handlers: one dispatch per key at a time, none again for `ttl` after a settlement, and the shared state is that of the logged handling steps in order |
| DedupProtocol.UndisturbedDelivery | trust-registry/src/dedup/mod.rs:276-335 | a delivery taken through its steps with nothing in between does what dispatching it does |
| DedupProtocol.OnlyMutatingTypesTakePart | trust-registry/src/dedup/mod.rs:276-285 | exactly the eight mutating types go through the claims |
| DedupProtocol.ExactlyOnceWithinWindow | trust-registry/src/dedup/mod.rs:276-335 | within one window nothing is done for a key after a dispatch of it ended in an outcome to keep, and all its lasting answers are that outcome |
| ServerProtocol.UndisturbedJobServes | trust-registry/src/trust_tasks/router.rs:152-162 | the server's handlers taken store operation by store operation, a revoke in two, do undisturbed what serving the document does |
| ServerProtocol.StoreDownChangesNothing | trust-registry/src/trust_tasks/router.rs:54-72 | a store that does not answer gives a retryable rejection and changes nothing |
| ServerProtocol.RevokeReadsThenWrites | trust-registry/src/capabilities/git_trust.rs:159-219 | a revoke overwrites whatever the record has become since it was read with what it read, authorization withdrawn; if it is gone by then a retry is due |
| ServerProtocol.ServerWritesHappenOnce | trust-registry/src/dedup/mod.rs:276-335 | with all the server's write types interleaved, outages and failed saves included, no store operation or save follows for a key once a dispatch of it ended in an answer to keep |
| DedupProtocol.PromptIsNeverOvertaken | trust-registry/src/dedup/mod.rs:205-250 | runs whose handlers resolve in time meet the condition of the next row |
| DedupProtocol.ExclusiveIffNoneOvertakes | trust-registry/src/dedup/mod.rs:205-335 | over every run with no bound on handler time, no two dispatches of one key are ever in progress together exactly when no claim is asked for while a delivery of its key is past its in-flight window |
| DedupProtocol.OverlapIffOverdue | trust-registry/src/dedup/mod.rs:205-250 | the same for one step, from any state in which exclusion has held so far, claims already evicted included |
| DedupProtocol.SecondCopyOvertakes | trust-registry/src/dedup/mod.rs:184-224 | a run from the start in which a second copy is granted the key of a delivery still in progress |
| DedupProtocol.OwnerlessReleaseLetsThirdIn | trust-registry/src/dedup/mod.rs:243-250 | after that, the first copy's release deletes the second's claim, and a third copy overlaps the second with nothing overdue |
| Capabilities.ComposeLive | trust-registry/src/capabilities/mod.rs:291-324 | the registration loop builds base, governance surface and enabled capabilities in order |
| Capabilities.LastRegistrationAnswers | trust-registry/src/capabilities/mod.rs:318-324 | the last enabled capability registering a type answers it |
| Capabilities.UnservedFallsThrough | trust-registry/src/capabilities/mod.rs:288-324 | a type no enabled capability registers is answered by governance, else the base, else nobody |
| Capabilities.SurfacesAgree | trust-registry/src/capabilities/mod.rs:288-324 | over one base the two surfaces differ only in enable and disable |
| Capabilities.FileCapabilityStore.Save | trust-registry/src/capabilities/mod.rs:99-108 | the saved state changes exactly when both temp write and rename succeed |
| Capabilities.EnableAcceptedIff | trust-registry/src/capabilities/mod.rs:204-231 | enabling is accepted exactly when the host has the capability, its check accepts the config, read as the empty object if absent, and it is not on; else the first of these answers |
| Capabilities.FileCapabilityStore.Load | trust-registry/src/capabilities/mod.rs:87-97 | a missing file is the empty state; one that cannot be read or parsed is an error |
| Capabilities.CapabilitySet.New | trust-registry/src/capabilities/mod.rs:158-191 | starting fails on such a file, and otherwise composes both dispatchers from the saved state |
| Capabilities.CapabilitySet.Rebuild | trust-registry/src/capabilities/mod.rs:270-285 | both dispatchers are composed from the current state |
| Capabilities.CapabilitySet.Enable | trust-registry/src/capabilities/mod.rs:204-236 | the checks in order, memory, save, and dispatchers swapped only after a good save |
| Capabilities.CapabilitySet.Disable | trust-registry/src/capabilities/mod.rs:240-249 | switches an enabled entry off under the same save discipline |
| Capabilities.CapabilitySet.ListAll | trust-registry/src/capabilities/mod.rs:253-268 | the listing loop, in host order: manifests with the state memory holds |
| Capabilities.ListingShows | trust-registry/src/capabilities/mod.rs:253-268 | an entry is listed exactly when the host has it, with memory's state, and it is on there or all are asked for |
| Capabilities.ListsInOrder | trust-registry/src/capabilities/mod.rs:253-268 | a full listing gives for each capability of the host, in order, its manifest and the state under its name |
| Capabilities.FailedSaveStrands | trust-registry/src/capabilities/mod.rs:204-249 | after a failed save of an enable or disable memory shows it done, saved state and dispatchers are as before, and a retry is refused |
| Capabilities.MemoryStaysSavedIff | trust-registry/src/capabilities/mod.rs:204-249 | memory that is the saved state stays so over one request exactly when it was refused or its save succeeded |
| Capabilities.NextSavePublishesMemory | trust-registry/src/capabilities/mod.rs:204-249 | the next save that succeeds saves and serves exactly the stranded memory, changed only where the second request says |
| Capabilities.StrandedEnableIsServed | trust-registry/src/capabilities/mod.rs:204-324 | so an enable answered as failed is answering its task types after somebody else's successful request |
| CapabilityRuns.LiveDispatchersFollowSavedState | trust-registry/src/capabilities/mod.rs:204-285 | at every quiescent point of every run with failed saves and crashes both dispatchers are those of the last saved state |
| CapabilityRuns.CrashAndRestartConverges | trust-registry/src/capabilities/mod.rs:155-191 | a crash anywhere and a restart serve exactly the last saved state |
| CapabilityRuns.StartsReady | trust-registry/src/capabilities/mod.rs:158-191 | a process that is down can be started with any host, serves what is on disk, and is ready |
| CapabilityRuns.MemoryIsSavedUnlessFailed | trust-registry/src/capabilities/mod.rs:204-249 | at every quiescent point of every run memory is the saved state if no save failed since the last good one or the start, and is not if exactly one did |
| CapabilityRuns.TwoFailuresMayCancel | trust-registry/src/capabilities/mod.rs:204-249 | after two failed saves it may be again |
| CapabilityRuns.ForeignEntriesSurvive | trust-registry/src/capabilities/mod.rs:87-107 | an entry for a capability no host offers survives every step of every run, unless disabled by name |
| CapabilityRuns.UnknownCapabilitiesSurvive | trust-registry/src/capabilities/mod.rs:87-107 | what was saved for an unknown capability at the start is still saved at the end |
| CapabilityRuns.UndisturbedRequest | trust-registry/src/capabilities/mod.rs:204-249 | the crash machine's steps of one request amount to the set's own enable or disable |
| GitTrust.ValidatedIffAuthority | trust-registry/src/capabilities/git_trust.rs:76-97 | the enable-time check accepts exactly the configurations that yield an authority |
| GitTrust.HandleGrant | trust-registry/src/capabilities/git_trust.rs:118-157 | creates the authorized record or refuses because the tuple exists |
| GitTrust.HandleRevoke | trust-registry/src/capabilities/git_trust.rs:159-219 | takes authorization away, keeping recognition and context |
| GitTrust.GrantThenQuery | trust-registry/src/capabilities/git_trust.rs:118-157 | a grant completes exactly when no record has its authority, action, resource and subject; then both queries about those four are positive and every other query is answered as before |
| GitTrust.RevokeThenQuery | trust-registry/src/capabilities/git_trust.rs:159-219 | a revoke completes exactly when such a record exists; then its authorization query is negative, recognition and context are kept, and every other query is answered as before |
| GitTrust.NoAuthorityNoEffect | trust-registry/src/capabilities/git_trust.rs:104-116 | without an authority both ask for a retry and change nothing |
| GitTrust.GitFaultsAreRetryable | trust-registry/src/capabilities/git_trust.rs:150-219 | a store that fails costs either a plea to retry, whichever operation it fails at |
| GitTrust.UndisturbedGit | trust-registry/src/capabilities/git_trust.rs:118-219 | the interleaved steps with nothing in between do what the two handlers do |
| GitTrust.TuplesNeverMoveBack | trust-registry/src/capabilities/git_trust.rs:118-219 | in every interleaving a tuple only moves absent, authorized, unauthorized |
| GitTrust.AuthorizedIffGrantedNotRevoked | trust-registry/src/trust_tasks/router.rs:201-238 | from an empty store the authorization query is positive exactly when its action is commit signing, a grant to its entity on its resource under its authority succeeded and no such revoke did, whatever was reconfigured |
| GitTrust.GrantRefusedIffGrantedBefore | trust-registry/src/capabilities/git_trust.rs:118-157 | in every run a grant is refused exactly when the tuple was granted before, and the refusal tells of an active grant exactly when no revoke has succeeded |
| GitTrust.RevokeRefusedIffNeverGranted | trust-registry/src/capabilities/git_trust.rs:159-219 | a revoke is refused exactly when nothing has granted the tuple by the time it reads; past that it succeeds |
| GitTrust.RevokedCannotBeGrantedAgain | trust-registry/src/capabilities/git_trust.rs:118-157 | after a revoke every later grant of the tuple fails and changes nothing |
| GitTrust.ReconfiguringCounts | trust-registry/src/capabilities/git_trust.rs:52-74 | requests asked before the authority is changed keep the old one, later ones take the new |
| GitTrust.AuthorityAlwaysPresent | trust-registry/src/capabilities/git_trust.rs:76-116 | in every run from validated saved state no live git handler lacks its authority |
| GitTrust.MissingAuthorityUnreachable | trust-registry/src/capabilities/git_trust.rs:104-116 | so the missing-authority rejection is never the answer |
| Bindings.Server.InvokeHandler | trust-registry/src/capabilities/mod.rs:338-469 | each handler over the real stores, capability errors as reasons, and the listing's status filters |
| Bindings.Server.ServeDocument | trust-registry/src/trust_tasks/router.rs:152-162 | dispatch through a live dispatcher; unknown types are unsupported |
| Bindings.Server.DispatchDocument | trust-registry/src/dedup/mod.rs:276-335 | the claim discipline around the live dispatcher |
| Bindings.Server.RotateKeys | trust-registry/src/didcomm/handlers/trust_tasks/mod.rs:192-243 | rejects where rotation is not built in or the payload is not one, else asks the key service once |
| Bindings.Server.HandleInbound | trust-registry/src/tsp/mod.rs:181-214 | parties, freshness, administrators, proof, then dispatch, for DIDComm and TSP |
| Bindings.Server.HandlePosted | trust-registry/src/http/handlers/trust_tasks/mod.rs:68-86 | parties and freshness, then the query dispatcher with no claim |
| Answers.PassesIff | trust-registry/src/didcomm/handlers/trust_tasks/mod.rs:79-96 | over DIDComm and TSP any message, reads included, passes the checks exactly when parties and time are right and its type is none of the eight mutating ones or it has a proof that holds and an administrator as sender |
| Answers.FirstFailingCheckAnswers | trust-registry/src/didcomm/handlers/trust_tasks/mod.rs:131-163 | otherwise the first failing check answers, for good, and nothing changes |
| Answers.AdminSurface | trust-registry/src/trust_tasks/router.rs:91-124 | the types served over DIDComm and TSP, one by one |
| Answers.ReadsAreDispatched | trust-registry/src/dedup/mod.rs:276-283 | a passing message of a type that mutates nothing goes to its handler past the claims |
| Answers.QueriesAreAnswered | trust-registry/src/trust_tasks/router.rs:164-239 | from any registry, over all three bindings, a query past the checks is told what the record store holds |
| Answers.ReadsAreAnswered | trust-registry/src/trust_tasks/router.rs:306-335 | reads and lists past the checks are told what is stored over DIDComm and TSP, and are unsupported over HTTP |
| Answers.WritesAreDispatched | trust-registry/src/dedup/mod.rs:276-335 | a passing write whose claim is free goes to its handler, and an answer to keep is then stored under its key |
| Answers.RecordWritesAreCarriedOut | trust-registry/src/trust_tasks/router.rs:251-304 | such a create acts exactly when the key was free, such an update or delete exactly when not; nothing else changes |
| Answers.EnableIsAnswered | trust-registry/src/capabilities/mod.rs:380-406 | an enable document completes exactly when it names git-trust, its config an authority DID, git-trust is not on and the save is done; what is then held and saved, and what each refusal says |
| Answers.ConfigIsSavedAsGiven | trust-registry/src/capabilities/mod.rs:391-395 | on any host an empty config is saved as none, any other as the object given |
| Answers.DisableIsAnswered | trust-registry/src/capabilities/mod.rs:408-424 | a disable document completes exactly when the capability is on in memory and the save is done |
| Answers.OtherShapesAreMalformed | trust-registry/src/capabilities/mod.rs:380-430 | payloads of another shape are malformed for good and change nothing |
| Answers.GrantsAreServed | trust-registry/src/capabilities/git_trust.rs:52-74 | either surface carries out grants and revokes under the authority of the saved config |
| Answers.EnableGrantQuery | trust-registry/src/capabilities/git_trust.rs:52-157 | after a completed enable, a grant completes on either surface and the query under the authority of that very config turns positive |
| Answers.DisableStopsGrants | trust-registry/src/capabilities/mod.rs:240-250 | after a completed disable neither surface knows grants or revokes, and the records stay |
| Answers.ListingIsAnswered | trust-registry/src/capabilities/mod.rs:426-468 | what a listing document shows of git-trust for each status asked |
| Answers.RotationIsAnswered | trust-registry/src/didcomm/handlers/trust_tasks/mod.rs:170-243 | when a rotation reaches the key service, and what it is answered over either transport |
| BindingRuns.CoherentWellRouted | trust-registry/src/capabilities/mod.rs:291-324 | whatever is saved, both live dispatchers send each type only to its own handler |
| BindingRuns.QuerySurface | trust-registry/src/capabilities/mod.rs:288-324 | the query dispatcher holds the two queries, the listing, and git-trust while it is on |
| BindingRuns.ReceiveStaysCoherent | trust-registry/src/capabilities/mod.rs:270-324 | any message over any transport leaves both dispatchers composed of the saved state |
| BindingRuns.RefusedIffNotAdmitted | trust-registry/src/didcomm/handlers/trust_tasks/mod.rs:79-96 | the ordered checks pass a write exactly when it is proved, fresh, consistent and from an administrator |
| BindingRuns.OnlyAdmittedWritesChange | trust-registry/src/didcomm/handlers/trust_tasks/mod.rs:128-187 | over DIDComm and TSP anything but an admitted write leaves the whole registry unchanged |
| BindingRuns.PostedChangesIff | trust-registry/src/http/handlers/trust_tasks/mod.rs:68-86 | a posted document changes something exactly when it is a git-trust document passing the framework checks while git-trust is on, and would change its tuple |
| BindingRuns.PostedGitEffect | trust-registry/src/capabilities/git_trust.rs:118-219 | and then it changes that tuple's record only |
| BindingRuns.PostedGrantIsRecorded | trust-registry/src/http/handlers/trust_tasks/mod.rs:68-86 | a posted grant of an absent tuple is recorded without proof, administrator or claim |
| BindingRuns.QueryReadOnlyIff | trust-registry/src/capabilities/mod.rs:318-324 | for all registries and messages the query surface changes nothing exactly when git-trust is not on with an authority |
| BindingRuns.OnlyAdmittedWritesMatter | trust-registry/src/tsp/mod.rs:134-214 | over all three transports, striking every message but admitted writes and git-trust documents posted while git-trust is on changes neither the final registry nor any remaining answer |
| BindingRuns.FromStartOnlyWritesMatter | trust-registry/src/server.rs:227-249 | from any started server, with no further assumption |
| BindingRuns.LastChangeIsAdmitted | trust-registry/src/didcomm/handlers/trust_tasks/mod.rs:128-187 | whatever part of the registry a run over all three transports changed was last changed, to its final value, by one of those messages |
| BindingRuns.CopyOfAWriteChangesNothing | trust-registry/src/dedup/mod.rs:276-335 | once an admitted write took effect under a claim, whatever came between: a copy inside the window over DIDComm or TSP changes neither records nor capability state, and one that claims asks for no rotation and, if admitted, gets the first answer |
| BindingRuns.CopyVerbatimIff | trust-registry/src/didcomm/handlers/trust_tasks/mod.rs:170-187 | with fresh response ids an admitted copy of any admitted write is answered verbatim and asks for no rotation exactly when neither delivery is a DIDComm rotation |
| BindingRuns.RotationIsNeverClaimed | trust-registry/src/didcomm/handlers/trust_tasks/mod.rs:170-178 | an admitted DIDComm rotation leaves the claims as they were and asks if it can |
| BindingRuns.RotationIsRepeated | trust-registry/src/didcomm/handlers/trust_tasks/mod.rs:170-178 | so one document delivered twice asks twice and is answered anew |
| BindingRuns.RotationsAreCounted | trust-registry/src/didcomm/handlers/trust_tasks/mod.rs:170-243 | in every run the key service is asked once per admitted DIDComm rotation delivered, copies included |
| BindingRuns.RecordsGoTheirOwnWay | trust-registry/src/trust_tasks/router.rs:91-160 | whatever is saved, a record document is dispatched as by the plain record router |
| Interleavings.OthersAreInvisible | trust-registry/src/tsp/mod.rs:181-214 | in every interleaving, striking out all steps of all messages but admitted writes and git-trust documents posted while git-trust was on leaves a run with the same state, rotations and answers |
| Interleavings.FromStartOthersAreInvisible | trust-registry/src/server.rs:227-249 | from any started server with nothing in progress |
| Interleavings.UndisturbedMessage | trust-registry/src/tsp/mod.rs:181-214 | a message alone, its claim free, does through its steps what receiving it does |
| Interleavings.FoundJobOutlivesDisable | trust-registry/src/didcomm/handlers/trust_tasks/mod.rs:181-182 | a handler found on arrival works whatever has become of its capability since |
| Interleavings.PostedGrantLandsAfterDisable | trust-registry/src/http/handlers/trust_tasks/mod.rs:79-80 | a grant posted while git-trust is on is recorded after git-trust has been disabled and that saved |
| PendingReplies.Pending.Register | trql-client/src/pending.rs:27-31 | adds a fresh channel under the id, dropping a replaced sender |
| PendingReplies.Pending.Abandon | trql-client/src/pending.rs:34-36 | removes the entry and its sender |
| PendingReplies.Pending.Route | trql-client/src/pending.rs:40-50 | takes the sender named by `threadId` and succeeds exactly while its receiver exists |
| PendingReplies.AnsweredExchange | trql-client/src/didcomm.rs:110-144 | an exchange alone whose reply comes is given it, acknowledges it, and leaves no entry |
| PendingReplies.UnroutedFrame | trql-client/src/pending.rs:40-50 | a reply on nobody's thread goes nowhere and is not acknowledged |
| PendingReplies.FailureBegins | trql-client/src/didcomm.rs:118-142 | a refused send, a timer and a lost channel each end an exchange in its own error |
| PendingReplies.FailingExchange | trql-client/src/didcomm.rs:118-142 | an exchange that fails abandons its entry, returns why, and leaves its receiver gone |
| PendingReplies.LateReplyIsDropped | trql-client/src/pending.rs:40-50 | a reply that finds its receiver gone is neither kept, counted as sent, nor acknowledged |
| PendingReplies.RepliesReachTheirWaiters | trql-client/src/didcomm.rs:110-144 | in every interleaving: one document per waiter carrying its id, acknowledgement only after the document entered the matching channel, no entry outlives its exchange |
| PendingReplies.FreshIdsNeverClose | trql-client/src/tsp.rs:107-142 | with fresh ids the closed-channel error is unreachable and a sent document is answered unless its exchange gave up |
| PendingReplies.QuiescentBoardIsEmpty | trql-client/src/pending.rs:14-50 | when all exchanges have returned no entry remains |
| PendingReplies.AckedReplyCanBeLost | trql-client/src/didcomm.rs:206-242 | a reply sent between timer and receiver drop is acknowledged and lost |
| PendingReplies.AnyExchangeAwaits | trql-client/src/didcomm.rs:110-129 | the state that can happen in is reached by the first two steps of any exchange |
| PendingReplies.SentReplyIsAnswerIff | trql-client/src/didcomm.rs:110-144 | in every run a reply that is sent is its exchange's final answer exactly when the exchange was awaiting at that step, or still sending and accepted later |
| PendingReplies.ClosesIffDisplaced | trql-client/src/didcomm.rs:127-136 | in every run an awaiting exchange finds its channel closed exactly when another exchange under its id began or gave up while it was registered |
| PendingReplies.SharedIdCloses | trql-client/src/pending.rs:27-36 | two exchanges under one id make the closed-channel error reachable |
| PendingReplies.ResponseIff | trql-client/src/client.rs:169-200 | a reply is read as a response exactly when correlated, of the requested response type, and parseable |
| PendingReplies.ClassifiedIff | trql-client/src/client.rs:169-200 | a reply is a refusal exactly when correlated, of the error type and parseable; and exactly when it is each kind of contract error |
| PendingReplies.UncorrelatedIsUnreachable | trql-client/src/client.rs:169-178 | the uncorrelated-reply branch is unreachable over the mediator transports |
| Discovery.BuildServices | trust-registry/src/didcomm/did_document.rs:225-267 | pushes a service per enabled transport, REST only with a non-blank URL |
| Discovery.ValidateIff | trust-registry/src/didcomm/did_document.rs:161-187 | which flags are accepted, and which rule answers for each that is not |
| Discovery.AcceptedUrlIff | trust-registry/src/didcomm/did_document.rs:197-211 | HTTPS anywhere, cleartext to exactly the three loopback hosts |
| Discovery.ServicesWritten | trust-registry/src/didcomm/did_document.rs:225-267 | the document holds exactly the service entries of the enabled transports, member by member |
| Discovery.DocumentWritten | trust-registry/src/didcomm/did_document.rs:269-294 | the document around the services, member by member, every key reference for all three purposes |
| Discovery.FromDocument | trql-client/src/discovery.rs:152-174 | the pass keeps the first usable endpoint of each transport |
| Discovery.YieldedIff | trql-client/src/discovery.rs:229-240 | an endpoint yields a text, the `uri` of an object, or what the first fruitful item of a list yields |
| Discovery.RecoveredIff | trql-client/src/discovery.rs:152-240 | whatever the document, an endpoint is recovered exactly when some service advertises it and no earlier one any, endpoints and types given as lists included |
| Discovery.FirstOfferIsFirst | trql-client/src/discovery.rs:152-174 | an endpoint is recovered exactly when some service offers it and no earlier one offers any |
| Discovery.SelectsBestShared | trql-client/src/discovery.rs:187-216 | the choice is the best transport both sides speak, and the error reports both sides exactly when there is none |
| Discovery.BuiltThenParsed | trust-registry/src/didcomm/did_document.rs:225-294 | for all inputs, parsing the built document recovers exactly the enabled transports with a non-empty endpoint |
| Discovery.AcceptedUrlSurvives | trust-registry/src/didcomm/did_document.rs:195-211 | an accepted public URL never trims to nothing |
| Discovery.ValidatedRoundTrip | trust-registry/src/didcomm/did_document.rs:161-211 | with validated flags, a mediator and an accepted URL, exactly the enabled transports come back |
| Discovery.ChoiceIsServed | trql-client/src/discovery.rs:200-216 | a client's choice from the built document is always a transport the registry serves |
| Discovery.LabelsDoNotMatter | trql-client/src/discovery.rs:152-240 | only `type` and `serviceEndpoint` of a service matter |
| Backoff.RetryTransient | trust-registry/src/tsp/mod.rs:83-127 | calls again exactly after a DID, transport, disconnection or TDK error within the budget, having slept the capped doublings; its error is transient only if the budget ran out |
| Backoff.CheckAvailability | trust-registry/src/didcomm/listener/mod.rs:109-180 | skips other methods, fails early without a domain or a client, succeeds at the first accessible probe, else fails after all attempts, having slept the capped doublings |
| Backoff.DelayClosedForm | trust-registry/src/tsp/mod.rs:107-125 | sleep k is min(initial·2^k, cap) for every k past the first |
| Backoff.UniformIff | trust-registry/src/didcomm/listener/mod.rs:146-177 | the formula holds for the first sleep too exactly when the start is within the cap |
| Backoff.TotalSleep | trust-registry/src/tsp/mod.rs:83-127 | total sleep is at most initial·(2^n − 1), reached while the cap is not, and at most n·cap when the start is within it |
| Backoff.DoublingFitsIff | trust-registry/src/didcomm/listener/mod.rs:146-177 | the 64-bit doubling never overflows exactly when the start and the last capped doubling of it are below half its range |

## Left out

- Redelivery.RedeliveryInvisible: covers the record tasks over the local store; for the other writes the copy-by-copy result is `BindingRuns.CopyVerbatimIff`, since a failed save may answer retryably.
- Redelivery.DispatchIdempotent: the handler is the record router; `Bindings.Server.DispatchDocument` is the same discipline over the live dispatcher, and `DedupProtocol` over any handlers.
- DedupProtocol.ExactlyOnceWithinWindow: assumes a clock that never steps back and handlers that resolve inside the in-flight window (see `Dedup.OwnHistoryIff`, `DedupProtocol.ExclusiveIffNoneOvertakes`).
- ServerProtocol.ServerWritesHappenOnce: enabling and disabling are one step each, since they hold the state lock; their file steps are in `CapabilityRuns`.
- CsvStorage.RestartsAndSyncsAreInvisible: operations, syncs and restarts follow one another; interleaved they are in `CsvRaces`. Edits of the file by others during the run are not in the run.
- CsvRaces.InStepIffLastWriteNotLate: writing the file is one step, so a sync does not see a half-written one (see `CsvStorage.TornLosesIff`), and no write fails.
- BindingRuns.OnlyAdmittedWritesMatter: messages are received one after another; handled at once they are in `Interleavings`.
- Interleavings.OthersAreInvisible: the checks, and the lookup of the handler after them, are one step on arrival; that a claim may answer a message without working is allowed at any time, when it does is in `DedupProtocol`.
- PendingReplies.FreshIdsNeverClose: request ids are random UUIDs; the counter-based fallback id is not modelled. `PendingReplies.ClosesIffDisplaced` needs no freshness.
- Bindings.Server.HandleInbound: what the key service does when asked to rotate is outside; only its answer and how often it is asked are in the model.
- Bindings.Server.HandlePosted: HTTP status codes and bodies that are no document at all.
- GitTrust.MANIFEST: only the members that name the manifest; the rest of it is text for readers.
- Capabilities.CapabilitySet.Enable: host definitions are taken in ascending order of name, as the source's ordered map keeps them.
- Storage.FlatStorage.ListRecords: a listing is the set of values under the prefix; what a Redis SCAN cursor may repeat is not modelled.
- Backoff.CheckAvailability: the URL derived from a did:web is not built; whether its domain decodes is a parameter.
- Cryptography, DID resolution, packing, mediator sockets and the network: uninterpreted checks, or steps that deliver, lose or repeat.
- JSON text, base64 (section 4 of RFC 4648) and CSV quoting (section 2 of RFC 4180): values are modelled as trees and rows.
- Texts of error messages and rejection details, except those that are task codes.
- Races between two concurrent creates in one store, and the atomicity of fjall and Redis commands: operations are whole steps.
- Claim stores other than the in-memory one, so `complete` and `release` never fail.
- The capability set is alive for as long as the server is; upgrading its weak handles never fails. Only git-trust is compiled in.
- Lock poisoning, panics, task cancellation, audit logging, health, configuration loading, HTTP routing, DynamoDB, the legacy DIDComm handlers and the test client.
- Dispatcher registration is taken to replace an earlier handler of the same type; the dispatcher crate itself is not part of this model.
