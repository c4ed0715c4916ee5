# PortunusMCP: a verified model of the gateway's protocols

PortunusMCP is an MCP gateway: it decides tool calls against a policy, writes every decision
into a signed hash chain, promotes policies and signing keys through journals, watches tool
schemas for drift and accounts for concurrent calls. This project models those parts in Dafny
and proves what they promise. `dafny verify dfyconfig.toml` checks all of it.

One module stands for each part of the gateway:

- `AuditRecords`, `AuditWriter`, `AuditVerifier`, `AuditExport` - the row check that every walk
  shares, the writer with its Redis pointer, the incremental and the full verifier, the export
  and its checker.
- `AuditKeys`, `AuditLifecycle`, `PolicyActivation` - the two journal protocols with crashes at
  any durable write, repeated crashing recoveries, and the log that settles them.
- `PolicyEngine`, `PolicyScaffold`, `Abac`, `DecisionPipeline` - grants, the policy generated from
  observed calls, conditions, and the live, observing and dry-run decisions.
- `SessionManager` - in-flight accounting under every interleaving.
- `DriftClassifier`, `DriftDetector` - the recursive severity rules and the baselines.
- `ReplayAndStepUp`, `Approvals` - one-time use under a clock.
- `JsonDepth`, `EnvFile` - the depth scanner and the environment file.
- `Values`, `Assumptions` - JSON values, and the proof that what is assumed can be met.

Objects whose methods update fields are classes; their methods are proved against functions of
the old state, and the promises are lemmas about those functions over all runs. Everything the
code calls but does not compute - hashing, signatures, key fingerprints, JSON string decoding,
schema validation, parsing of expressions and YAML, clocks, random ids - is a function value or
a parameter, and what is assumed of it is a named predicate (`CollisionFree`, `SignaturesCheck`,
`DistinctKeys`, `HashInjective`, `Sensible`). Digests are idealised as never colliding. As stated
the predicates can be met: JSON values are countable here, numbers being decimal digits with a
scale, and `Assumptions` writes them one-to-one as texts and builds an instance of every predicate
(`CryptoExists`, `SettingsExist`, `ReadingExists`).

The lemmas that compare live, observed and dry-run decisions are short, because the three
references share the stages they have in common. What they rest on is that the staged methods -
`Authorize` with `EarlyDenials`, `ScoredDenials` and `Conclude`, and `Explain` with `ExplainEarly`
and `ExplainScored` - are proved to decide as these references do.

## Faults

There is one writer. Redis operations may fail, before or after their effect, and the pointer may
vanish at any time. An insert commits and returns, or raises with nothing stored. A process may
die before or after every durable write, recovery included; an `OSError` may come before or
after the effect of the write that raises it. Operation ids, session ids, approval ids, challenge
ids and new signing keys are fresh. An operation that faults can strike takes a parameter `calm`:
nothing strikes a calm call, and what it then must achieve is part of its contract. A replaced file is replaced atomically; a public key file and
a revision snapshot are created and then filled, and may be found torn.

## Where the code differs from what it says

These are proved, each with the exact condition:

- A rotation or activation that is rolled back after its row was committed (a conflict, a Redis
  error or, for policies, a failing journal mark after the commit) leaves the row in the log and
  the old key or bytes in force. Recovery raises for ever exactly when the rollback was cut
  between its two deletions with the row committed, or when a pointer conflict after a commit
  made several rows name the operation and the journal is still there (`Stuck`,
  `LogAndKeyAgreeUnlessRolledBackAfterCommit`,
  `LogAndFileAgreeUnlessRolledBackAfterCommit`).
- A crash inside the snapshot write leaves a torn snapshot. Over any series of later operations
  its version is taken only by a policy whose bytes are exactly what was left
  (`TornSnapshotBurnsItsVersion`).
- A task cancelled between its commit and the pointer update forks the chain exactly when the
  pointer was trusted and still there (`CancelledAfterCommitForksTheChain`).
- The audit row of a grant carries the requester's id in its extras over the approver's column,
  so verifiers reject it unless the two are the same (`GrantRowVerifiesExactlyWhenSelfApproved`).
- A tool blocked as a rename is unblocked by checking the same list again, although the code's
  comment says it stays blocked until approval (`RecheckUnblocksRename`).
- Checking the same list again is silent only if no rename source is newly missing
  (`RecheckReportsOnlyOrphans`), and severity is not monotone (`ReorderingBlocksOnlyAlone`).
- A timestamp that is not a number passes the replay window at all times
  (`NotANumberIsAcceptedAgain`); the nonce's lifetime has no margin over its validity, where the
  comment says it strictly outlives it (`DedupIsTight`). A TOTP code verifies over ninety
  seconds, not the sixty of the comment (`CodeSpan`).
- The printer of environment values refuses only NUL, CR and LF, but the file is read with
  `splitlines`, which breaks at eight more characters (`PrintedLineIsReadBackExactlyWhen`).
- The export checker returns the manifest's genesis flag without checking it; the flag is right
  exactly when it agrees with the manifest's first row being row 1
  (`GenesisFlagIsRightExactlyWhen`).
- Observation does not always foretell enforcement. It goes on behind a denial, and a later stage
  may raise: a timestamp outside the years of the calendar has no hour, a `_meta` that is no
  object cannot be read, a validator may not cope with its schema. The call then ends without a
  decision where enforcement records a denial (`ObservationForetellsExactlyWhen`,
  `MillisecondCallIsLost`). A timestamp that is not a number passes the replay window and then
  raises in enforcement too, under a grant with conditions (`LiveUndecidedExactlyWhen`), and the
  dry run asks for the hour whether or not there are conditions (`DryUndecidedExactlyWhen`).

## Model

| member | source | states |
|---|---|---|
| `AuditRecords.VerifyRecord` | services/gateway/audit_verification.py:62-104 | accepts a row exactly when it continues the chain, its hash covers its payload, it is signed by the ring's key of that fingerprint and every projected column equals its hashed copy; otherwise the failure it names is true of the row |
| `AuditRecords.OneHashOneHistory` | services/gateway/audit_verification.py:62-104 | a hash met in two accepted chains stands at the same place in both, after the same protected history, whatever rings they were checked with |
| `AuditRecords.HeadFixesHistory` | services/gateway/audit_log.py:40-43 | two chains accepted from genesis with the same last hash have the same length, payloads, links and projected columns |
| `AuditRecords.HashesNeverRepeat` | services/gateway/audit_log.py:40-43 | no hash repeats along an accepted chain, so no row can be replayed further on |
| `AuditRecords.AcceptedRowsWereSigned` | services/gateway/audit_verification.py:62-104 | nothing passes that was not signed: every row of an accepted chain was signed with the key it names over the hash of its link and payload, continues its predecessor and shows in its columns what the signed payload says |
| `AuditWriter.AuditWriter.WriteLocked` | services/gateway/audit_log.py:106-158 | the retry loop performs a legal run of protocol steps whatever fails; every row it commits records the request, one for each conflict and one for the last turn; success returns the last row's number and leaves the pointer trusted; without a fault it succeeds with one row exactly when no column holds NUL |
| `AuditWriter.AuditWriter.Write` | services/gateway/audit_log.py:83-104 | the same behind the availability check: refused with nothing written once key recovery is pending; without a fault it succeeds exactly when the writer is available and no column holds NUL |
| `AuditWriter.AuditWriter.TakeLink` | services/gateway/audit_log.py:202-213 | WATCH and the read of the link: the trusted pointer, or the Postgres tail |
| `AuditWriter.AuditWriter.Commit` | services/gateway/audit_log.py:215-238 | INSERT and COMMIT store exactly the row of the request, or nothing; without a fault a row with no NUL in its columns is stored |
| `AuditWriter.RowTellsItsRequest` | services/gateway/audit_log.py:120-130 | a stored row has the columns of its request, the score among them, is signed with the writer's key over the hash of its payload, and its payload holds the extras as given and beside them the projected fields |
| `AuditWriter.NulInAnyColumn` | services/gateway/audit_log.py:215-238 | a request is refused for its text exactly when a column would hold NUL |
| `AuditWriter.AuditWriter.Publish` | services/gateway/audit_log.py:143-156 | EXEC: the pointer becomes the new hash and trusted, or a conflict is retried, or the pointer is distrusted and perhaps deleted |
| `AuditWriter.StepKeepsSound` | services/gateway/audit_log.py:106-158 | each Redis or Postgres step, failure, vanishing pointer and restart keeps the chain whole and the trusted pointer coherent |
| `AuditWriter.EveryRunIsSound` | services/gateway/audit_log.py:106-158 | over every run of such steps the chain is linked back to genesis, and whenever the lock is free a trusted pointer is the hash of the Postgres tail |
| `AuditWriter.CancelledAfterCommitForksTheChain` | services/gateway/audit_log.py:141-157 | a task cancelled between its commit and the pointer update makes the next write link past the new tail exactly when the pointer was trusted and still there |
| `AuditWriter.FaithfulExactlyWhenExtrasAgree` | services/gateway/audit_log.py:120-130 | a written row's columns equal their hashed copies exactly when the payload extras do not contradict them |
| `AuditWriter.WriterChainVerifies` | services/gateway/audit_verification.py:62-104 | in a chain the writer made, every verifier accepts a row exactly when its columns and key id are the hashed ones: linkage, hash, key and signature never fail |
| `AuditWriter.AuditWriter.Rotate` | services/gateway/audit_log.py:160-192 | whatever fails or dies, the disk is where some story of the rotation leaves it, the story's rows are the ones in the chain, they are signed by the old key, and the writer holds the new key only after the handoff; without a fault it succeeds exactly when the writer is available, no journal is left and the approver's name holds no NUL, and then the new key is in force and filed with no journal |
| `AuditWriter.HandoffRowNamesBothKeys` | services/gateway/audit_log.py:164-178 | the row of a rotation is signed with the old key and says who replaced which key by which, for which operation |
| `AuditWriter.AuditWriter.HandOver` | services/gateway/audit_log.py:176-191 | after the committed handoff the writes happen in journal order, and an error on the way takes the writer out of service |
| `AuditKeys.AuditKeyStore.Prepare` | services/gateway/audit_keys.py:115-131 | stages the new key by the four writes of the plan, in order, stopping at the first that fails; refused while a journal exists |
| `AuditKeys.AuditKeyStore.PromoteStaged` | services/gateway/audit_keys.py:138-145 | promotes by the two writes of the plan, and not at all a staged key that is not the journal's |
| `AuditKeys.AuditKeyStore.Recover` | services/gateway/audit_keys.py:151-177 | performs exactly the recovery the journal and the log call for, a prefix of it when cut off; a completed recovery has the active key filed; no filed public key is touched; without a fault it completes exactly where it is not bound to raise |
| `AuditKeys.AuditKeyStore.EnsurePublic` | services/gateway/audit_keys.py:72-91 | files the public key if it is missing, and raises exactly where another or a torn file stands in its place |
| `AuditKeys.StoryIsMidway` | services/gateway/audit_keys.py:115-149 | from every point an attempt can stop at, what recovery must make of it is already fixed |
| `AuditKeys.RecoverKeepsVerdict` | services/gateway/audit_keys.py:151-177 | recovery raises exactly where it is bound to, and neither a completed nor an interrupted recovery changes what is bound to come out |
| `AuditKeys.RotationIsCrashAtomic` | services/gateway/audit_keys.py:115-177 | after any attempt and any number of crashing recoveries, recovery raises exactly when the attempt left it stuck, and otherwise ends with no journal, the new key in force exactly when the attempt promotes, and every archived key in place |
| `AuditKeys.LogAndKeyAgreeUnlessRolledBackAfterCommit` | services/gateway/audit_log.py:187-191 | the new key is in force exactly when a rotation row is in the log, unless the attempt was rolled back after its row was committed |
| `AuditKeys.ArchiveOutlivesRotations` | services/gateway/audit_keys.py:72-91 | over any series of rotations, crashes and recoveries the active key and every key ever in force stay in the public archive |
| `AuditLifecycle.QueryFindsTheAttempt` | services/gateway/audit_keys.py:157-164 | with a fresh operation id the recovery query finds exactly the rows that the attempt committed |
| `AuditLifecycle.RotationSettledByTheLog` | services/gateway/audit_log.py:160-192 | rotation end to end by the actual log: when recovery completes, the key in force is the new one exactly when the query finds a row, but for a rollback after the commit |
| `AuditLifecycle.RotateOnce` | services/gateway/audit_log.py:160-192 | a rotation, however it ends, leaves every row verifiable under the archive and the writer's key filed; without a fault it succeeds exactly when nothing forbids it, with the new key in force |
| `AuditLifecycle.Operate` | services/gateway/audit_log.py:60-192 | over the whole life of a deployment - writes, writes queued behind a failed rotation, rotations, crashes, recoveries - every row verifies under the archived key it names |
| `AuditVerifier.Walk` | services/gateway/audit_verifier.py:65-83 | stops exactly at the first bad row after the start and names it |
| `AuditVerifier.Verifier.VerifyIncrement` | services/gateway/audit_verifier.py:33-91 | the checkpoint moves through exactly the good rows after it and stops before the first bad one; a checkpoint whose row is gone is reported and kept |
| `AuditVerifier.FullScan` | scripts/verify_audit_chain.py:36-52 | counts the longest accepted prefix and exits 0 exactly when the whole chain is accepted from genesis |
| `AuditVerifier.IncrementalEqualsFull` | services/gateway/audit_verifier.py:33-91 | over any passes interleaved with appends and new keys the checkpoint is the last row of the longest prefix that a full scan of that moment accepts, and never moves back |
| `AuditVerifier.CaughtUpExactlyWhenFullScanPasses` | scripts/verify_audit_chain.py:36-52 | the incremental checkpoint reaches the last row exactly when the full scan would exit 0 |
| `AuditExport.WalkRange` | services/gateway/audit_export.py:39-56 | accepts exactly the gap-free, linked and signed ranges and collects exactly the keys they name |
| `AuditExport.Prepare` | services/gateway/audit_export.py:21-67 | refuses bad bounds; otherwise the manifest describes the selected range exactly, with just the keys its rows name, and it fails exactly on a range that is not sound |
| `AuditExport.Stream` | services/gateway/audit_export.py:110-126 | emits the manifest and then exactly the selected rows of the log as it is by then |
| `AuditExport.VerifyFile` | services/gateway/audit_export.py:129-196 | accepts exactly the files whose rows are gap-free, linked, signed by bundled keys and described by their manifest, and returns the row count and the manifest's own genesis flag |
| `AuditExport.NothingIsLeftOut` | services/gateway/audit_export.py:129-196 | no row can be left out of an accepted file or added to it: it has the rows the manifest numbers, each once, and the bundled keys are exactly those the rows name |
| `AuditExport.ExportThenVerify` | services/gateway/audit_export.py:21-196 | what prepare accepts, streamed from a log that has grown meanwhile, is accepted by the checker with the right count and flag |
| `AuditExport.BundleSuffices` | services/gateway/audit_export.py:70-87 | a range verifies under just the keys it names as well as under the whole directory |
| `AuditExport.SelectIgnoresLaterRows` | services/gateway/audit_export.py:110-126 | rows appended after prepare never enter the range |
| `AuditExport.GenesisFlagIsRightExactlyWhen` | services/gateway/audit_export.py:129-196 | the checker accepts a file with either genesis flag; the flag it hands back says rightly whether the rows reach back to genesis exactly when it agrees with the manifest's first row being row 1 |
| `PolicyEngine.CheckIdentityIndexes` | services/gateway/policy_engine.py:250-276 | accepts exactly the policies whose ids and non-empty secrets are pairwise distinct |
| `PolicyEngine.CheckServers` | services/gateway/policy_engine.py:278-290 | accepts exactly the policies whose grants name registered servers or the wildcard |
| `PolicyEngine.ResolveGrant` | services/gateway/policy_engine.py:333-352 | returns the grant that the reference resolution gives |
| `PolicyEngine.GrantIsFirstToDecide` | services/gateway/policy_engine.py:333-352 | a grant is returned exactly when it is the first in the list that covers the server, by name or wildcard, and names the tool at all, and it allows and does not deny it |
| `PolicyScaffold.Observe` | services/gateway/policy_scaffold.py:213-242 | collects exactly the triples of the qualifying rows of a sound span, and fails only on an unsound span or an unusable row |
| `PolicyScaffold.QualifyingRowsAreObserved` | services/gateway/policy_scaffold.py:65-76 | the rows that qualify are exactly the decisions of a tool call, whichever way, made in observe mode |
| `PolicyScaffold.GrantIsReadableExactlyWhen` | services/gateway/policy_scaffold.py:65-76 | a row is refused exactly when it is such a decision and does not name an identity, a server and a tool other than the wildcard |
| `PolicyScaffold.Candidate` | services/gateway/policy_scaffold.py:79-145 | refuses exactly when an observed identity or server is unknown, the identity first |
| `PolicyScaffold.FromSpan` | services/gateway/policy_scaffold.py:213-290 | makes a policy exactly of a span that is whole, sound and readable, observes something, and names only known identities and servers; it grants exactly what was observed, and refuses for nothing observed, an unknown identity or an unknown server exactly when that is so |
| `PolicyScaffold.ScaffoldIsExact` | services/gateway/policy_scaffold.py:79-145 | the generated policy is always structurally valid, grants exactly the observed triples and keeps exactly the admins and the observed identities |
| `PolicyScaffold.GrantsForMeaning` | services/gateway/policy_scaffold.py:79-145 | the grants written for an identity resolve a server and tool exactly when that triple was observed on a registered server |
| `PolicyScaffold.Scaffold` | services/gateway/policy_scaffold.py:180-290 | a policy is returned exactly for a recorded ledger, a window whose span is usable, and an unchanged base, with the next version and exactly the observed triples granted; the refusals for an empty ledger, an empty window and a changed policy are given exactly when they apply, and the generated policy is never refused as invalid |
| `PolicyActivation.RecordingAccepts` | services/gateway/policy_versions.py:58-107 | the two record-keeping calls accept exactly the eligible and the already recorded bytes |
| `PolicyActivation.TornSnapshotBurnsItsVersion` | services/gateway/policy_versions.py:110-117 | after an attempt that stopped inside its snapshot write, and over any series of later activations, rollbacks, crashes and recoveries, nothing is recorded under that version, and only a policy whose bytes are exactly the torn ones would be accepted for it |
| `PolicyActivation.TornForever` | services/gateway/policy_versions.py:58-87 | a torn snapshot stays as it is over any series of attempts that never bring its very bytes |
| `PolicyActivation.PolicyOperationStore.ActivationStatus` | services/gateway/policy_versions.py:28-51 | accepts exactly a version above every recorded one with no other snapshot in its way |
| `PolicyActivation.PolicyOperationStore.RecordActivation` | services/gateway/policy_versions.py:58-87 | writes the snapshot and then the row, or nothing for recorded content, or raises without writing |
| `PolicyActivation.PolicyOperationStore.PromotePending` | services/gateway/policy_operations.py:103-108 | promotes by the two writes of the plan, and not at all pending bytes that are not the journal's |
| `PolicyActivation.PolicyOperationStore.Recover` | services/gateway/policy_operations.py:119-148 | performs exactly the recovery the journal and the log call for, a prefix of it when cut off, and raises without writing where the source does; without a fault it completes exactly where it is not bound to raise |
| `PolicyActivation.PolicyOperationStore.AfterAuditWrite` | services/gateway/main.py:152-163 | from the outcome of the audit write on, the files end where a story says; failures through the journal mark roll back, later ones block traffic |
| `PolicyActivation.PolicyOperationStore.HandOver` | services/gateway/main.py:152-163 | from the committed row on: a failure up to and including the journal mark is rolled back, a later one blocks traffic, and the files follow the journal's order |
| `PolicyActivation.Activate` | services/gateway/main.py:103-165 | refused without a trace while blocked, with a journal left or for an ineligible candidate; otherwise the files are where a story leaves them, the story's rows are the ones in the chain, and the policy served moves only on success or with traffic blocked; without a fault it succeeds exactly when preflight passes, nothing blocks it, the writer is available, the actor's name holds no NUL and the candidate is eligible or, for a rollback, recorded, and then the candidate is in force, served and recorded with no journal |
| `PolicyActivation.ActivationRowTells` | services/gateway/main.py:139-151 | the row of an activation says who put which content in force, from which version to which, how, and whether as a rollback |
| `PolicyActivation.StoryIsMidway` | services/gateway/main.py:119-165 | from every point an attempt can stop at, what recovery must make of it is already fixed |
| `PolicyActivation.RecoverKeepsVerdict` | services/gateway/policy_operations.py:119-148 | recovery raises exactly where it is bound to, leaves the revisions alone, and neither a completed nor an interrupted recovery changes what is bound to come out |
| `PolicyActivation.PromotionIsCrashAtomic` | services/gateway/policy_operations.py:72-148 | after any attempt and any number of crashing recoveries, recovery raises exactly when the attempt left it stuck, and otherwise ends with the candidate in force exactly when the attempt promotes and the old bytes otherwise, a recorded revision either way |
| `PolicyActivation.LogAndFileAgreeUnlessRolledBackAfterCommit` | services/gateway/main.py:159-163 | the candidate is in force exactly when its row is in the log, unless the attempt was rolled back after its row was committed |
| `PolicyActivation.ActivationSettledByTheLog` | services/gateway/policy_operations.py:126-147 | activation end to end by the actual log: when recovery completes, other bytes than the old ones are in force exactly when the query finds a row, but for a rollback after the commit |
| `PolicyActivation.ActiveAfter` | services/gateway/main.py:152-157 | the file holds the candidate's bytes exactly from the promotion on |
| `PolicyActivation.VersionsAreBoundForever` | services/gateway/policy_versions.py:58-117 | over any series of activations, rollbacks, crashes and recoveries the bytes in force are the last promoted ones and a recorded revision, every version keeps its one content hash, and the next boot's record-keeping accepts them without writing |
| `PolicyActivation.EveryRecordedVersionCanComeBack` | services/gateway/policy_versions.py:90-107 | the snapshot of any recorded version passes the rollback check |
| `SessionManager.EveryRunIsLawful` | services/gateway/session_manager.py:282-342 | under every interleaving no identity is over the limit, every call belongs to a session in service or being cleaned up, none is both answered and abandoned, and a timed-out call's session is out of service |
| `SessionManager.EachCallEndsOnce` | services/gateway/session_manager.py:282-447 | under every interleaving the admissions are exactly, each once, the calls ended so far and the calls outstanding |
| `SessionManager.AnsweredAndAbandonedIsOver` | services/gateway/session_manager.py:314-333 | whatever is interleaved, a call with both its response and its client's disconnect is over unless its deadline struck first |
| `SessionManager.OverExactlyWhen` | services/gateway/session_manager.py:300-447 | whatever is interleaved, an admission is over exactly when it was finished before its deadline, had its response and its client's disconnect before its deadline, or had its session cleaned up; until then its call is outstanding with the flags of what happened to it |
| `SessionManager.OutstandingExactlyWhen` | services/gateway/session_manager.py:282-447 | the calls outstanding after a run are exactly those that some step admitted and no later step ended |
| `SessionManager.SessionsExactlyWhen` | services/gateway/session_manager.py:335-447 | a session is in service exactly when it was opened and not torn down nor hit by the deadline of one of its calls since, and waits for its cleanup exactly from then until it |
| `SessionManager.FinishFreesAPlace` | services/gateway/session_manager.py:300-312 | a finish in time takes exactly that call away and leaves its identity one call less |
| `SessionManager.SessionManager.AdmitCall` | services/gateway/session_manager.py:282-298 | admits exactly when the session is live, the id is new and the identity's outstanding calls are below the limit, and keeps counters, request sets and heartbeats exact |
| `SessionManager.SessionManager.FinishCall` | services/gateway/session_manager.py:300-312 | ends the call, or waits for the deadline that already struck |
| `SessionManager.SessionManager.DisconnectCall` | services/gateway/session_manager.py:314-321 | marks the call, or ends it when its response was there |
| `SessionManager.SessionManager.ResponseReady` | services/gateway/session_manager.py:323-333 | marks the call, or ends it when its client was gone |
| `SessionManager.SessionManager.StrikeDeadline` | services/gateway/session_manager.py:335-342 | marks the call and takes its session out of service in one step |
| `SessionManager.SessionManager.RemoveCall` | services/gateway/session_manager.py:394-410 | one step of the counter, the session's set and its heartbeat removes exactly that call from the simple view and keeps every counter exact and non-zero |
| `SessionManager.SessionManager.Teardown` | services/gateway/session_manager.py:431-436 | takes the session out of service and nothing else |
| `SessionManager.SessionManager.CleanupSession` | services/gateway/session_manager.py:438-447 | removes every call the session has, through the possibly stale set it lists |
| `SessionManager.CountedAfterRemoval` | services/gateway/session_manager.py:394-402 | the decremented counters still say how many calls each identity has |
| `DriftClassifier.ClassifySchema` | services/gateway/drift_detector.py:69-130 | computes the worst of the node-local changes over every node that both schemas share through properties and items |
| `DriftClassifier.NodeRules` | services/gateway/drift_detector.py:76-130 | the rules of one node add up to the node's severity as the table ranks it |
| `DriftClassifier.KeyEdit` | services/gateway/drift_detector.py:76-128 | setting one key of a node counts CRITICAL for the type, LOW for the description, nothing of its own for items that stay a schema, and HIGH for anything else |
| `DriftClassifier.PropertyEdit` | services/gateway/drift_detector.py:83-113 | declaring one more property counts MEDIUM, or CRITICAL if it is required, removing one HIGH, and requiring one that was declared CRITICAL |
| `DriftClassifier.NestedEdit` | services/gateway/drift_detector.py:108-121 | changing the schema of one property or of the items, and nothing else, counts exactly as that change does |
| `DriftClassifier.UnhashableEntry` | services/gateway/drift_detector.py:83-90 | a list or object among the required entries makes any other edit of the node raise |
| `DriftClassifier.EmptyPartsCountAsDefault` | services/gateway/drift_detector.py:81-85 | a part that is absent, null, false, zero or empty counts as the empty default |
| `DriftClassifier.MildExactlyWhenExtendsEverywhere` | services/gateway/drift_detector.py:69-130 | a change is at most MEDIUM exactly when the new schema extends the old one at every shared node |
| `DriftClassifier.TypeChangeIsCritical` | services/gateway/drift_detector.py:77-78 | a type change at any shared depth makes the whole change CRITICAL, or raises exactly where some shared node has an unhashable required entry |
| `DriftClassifier.Classify` | services/gateway/drift_detector.py:133-158 | combines description, schema, other fields and the hash fallback into the one severity |
| `DriftClassifier.ToolEdit` | services/gateway/drift_detector.py:133-150 | a new description of a tool counts as configured, and a change of anything but description and schema counts HIGH |
| `DriftClassifier.NoDriftExactlyWhenEqual` | services/gateway/drift_detector.py:133-158 | no drift is reported exactly between equal definitions |
| `DriftClassifier.ToolIsMildExactlyWhen` | services/gateway/drift_detector.py:133-158 | a change of definition does not block exactly when it is equal, or only its description within the configured severity and an extended schema changed in a way the rules name |
| `DriftClassifier.ReorderingBlocksOnlyAlone` | services/gateway/drift_detector.py:153-158 | severity does not grow with the change: a reordered required list blocks alone and not beside a new optional property |
| `DriftDetector.DriftDetector.Check` | services/gateway/drift_detector.py:226-297 | a completed check puts every baseline exactly where its sighting, first sighting, rename or absence puts it and writes exactly the rows that go with that; a failed one changes no baseline; without a fault it completes unless a listed change cannot be classified |
| `DriftDetector.ChangeIsReportedExactlyWhen` | services/gateway/drift_detector.py:247-274 | a completed check writes about a listed tool with a baseline exactly one row, with the severity of its change from the approved definition, whether that blocks, and both hashes, unless the definition is the approved one or was reported before and lacks no block |
| `DriftDetector.ListedToolExactly` | services/gateway/drift_detector.py:247-274 | the baseline of a listed tool keeps its approved definition; seeing that again clears any block, and any other definition is kept as observed and blocks if it is no mild change or the tool was blocked |
| `DriftDetector.NewToolExactly` | services/gateway/drift_detector.py:299-366 | a listed tool without a baseline gets what was listed, blocked and reported as renamed exactly when a tool of the same shape is no longer listed, and flagged exactly when suspicious |
| `DriftDetector.MissingToolExactly` | services/gateway/drift_detector.py:276-290 | a tool no longer listed is reported missing exactly once unless it was taken for the source of a rename, and keeps its approved definition and its block |
| `DriftDetector.NothingWaitsUntold` | services/gateway/drift_detector.py:226-470 | over every run from no baselines the log has a row for every observed definition that waits for approval and for every block |
| `DriftDetector.DriftDetector.ApproveTool` | services/gateway/drift_detector.py:429-470 | promotes exactly what was observed and clears the block; refused when nothing is pending |
| `DriftDetector.ApprovedIsWhatWasObserved` | services/gateway/drift_detector.py:429-470 | what was observed is what gets approved: listed again it is not blocked and nothing is reported about it |
| `DriftDetector.UnblockedMeansMild` | services/gateway/drift_detector.py:247-283 | a listed tool that had a baseline and ends unblocked is a non-blocking change of its approved definition; a lifted block means the approved definition itself was seen |
| `DriftDetector.RunKeepsCoherent` | services/gateway/drift_detector.py:226-470 | over every run approved and observed hashes match their schemas and only a baseline with something observed is blocked |
| `DriftDetector.BlocksAreLiftedOnlyBy` | services/gateway/drift_detector.py:252-259 | over every run a block is lifted only by an approval of that tool or by a check that saw exactly the approved definition |
| `DriftDetector.SmallStepsDoNotAddUp` | services/gateway/drift_detector.py:247-283 | after any run without an approval, however the definition crept, a tool listed last and left unblocked is a non-blocking change of what was approved at the start |
| `DriftDetector.RecheckReportsOnlyOrphans` | services/gateway/drift_detector.py:285-296 | checking the same list again writes exactly one row for each rename source not already reported missing, and none exactly when there is no such source |
| `DriftDetector.RecheckUnblocksRename` | services/gateway/drift_detector.py:252-259 | a tool blocked as a rename is unblocked by checking the same list again, without an approval |
| `JsonDepth.RefusedExactlyWhenTooDeep` | services/gateway/main.py:988-1002 | for every value, whitespace and legal string escape the scan refuses exactly when the tree is nested deeper than the limit |
| `JsonDepth.DepthExceeded` | services/gateway/main.py:988-1002 | the loop over depth, in_string and escaped refuses a body that is a JSON text exactly when it is nested deeper than the limit |
| `JsonDepth.ScanPieces` | services/gateway/main.py:991-997 | nothing a legal string is written with is taken for structure |
| `EnvFile.DecodeUndoesQuoted` | services/quickstart.py:298-301 | a value is refused exactly for NUL, CR or LF, and reading a printed one gives it back |
| `EnvFile.BareValueIsItself` | services/doctor.py:106-118 | a value without quotes stands for itself without the space around it |
| `EnvFile.EnvFileOf` | services/doctor.py:121-135 | the loop reads exactly the map, the duplicates and the refusals of the line-by-line reference |
| `EnvFile.UniversalMeans` | services/doctor.py:121-125 | reading turns each CR LF and each CR into one LF and changes nothing else |
| `EnvFile.UpdateEnv` | services/doctor.py:138-154 | replaces the one assignment or appends one, and raises exactly when the key is assigned more than once |
| `EnvFile.UpdateChangesOneKey` | services/doctor.py:121-154 | after an update, reading gives the old map with exactly that key changed and the same duplicates, wherever the key stood and however the file ends |
| `EnvFile.RefusedExactlyForDuplicates` | services/doctor.py:138-146 | the update is refused exactly for a key that reading reports as a duplicate |
| `EnvFile.PrintedLineIsReadBackExactlyWhen` | services/quickstart.py:298-301 | through the file a printed value comes back exactly when it has none of the other line-breaking characters, which the printer does not refuse |
| `EnvFile.Counting` | services/doctor.py:131-134 | a key is in the map exactly when it is assigned and a duplicate exactly when it is assigned twice |
| `DecisionPipeline.Interceptor.Authorize` | services/gateway/jsonrpc_interceptor.py:173-434 | the staged method with its retained terminal decides as the first stage that does not let the call go on, and raises exactly where a stage that it reaches does |
| `DecisionPipeline.Interceptor.EarlyDenials` | services/gateway/jsonrpc_interceptor.py:193-269 | replay, grant, conditions and drift: stops at the first denial in enforcement, goes on behind it in observation, raises where the keys or the attributes cannot be read |
| `DecisionPipeline.Interceptor.ScoredDenials` | services/gateway/jsonrpc_interceptor.py:335-383 | scoring puts the score onto a retained denial, and otherwise decides by the conditions on risk and then the band |
| `DecisionPipeline.Explain` | services/gateway/decision_explainer.py:131-409 | the dry run decides as the first of its own stages that does not let the call go on, and raises exactly where a stage that it reaches does |
| `DecisionPipeline.Interceptor.FailedCondition` | services/gateway/jsonrpc_interceptor.py:478-526 | returns the first condition that is not satisfied, and writes a policy-error row exactly when that one could not be evaluated and the row can be written |
| `DecisionPipeline.Interceptor.Emit` | services/gateway/jsonrpc_interceptor.py:606-702 | forwards exactly when the call may go and its row is stored, and drops the pending entry of every other call |
| `DecisionPipeline.Interceptor.OnToolsCall` | services/gateway/jsonrpc_interceptor.py:148-172 | no record, no action: a forwarded call's decision is the last audit row and in enforcement it is ALLOW; exactly the calls that were forwarded or that raised stay pending, and one that raised records no decision |
| `DecisionPipeline.DryRunAgreesExactlyWhen` | services/gateway/decision_explainer.py:131-409 | live and dry run agree on outcome, event, rules, score and factors in both modes exactly when neither raises, the call is not refused as a replay and it is not the schema re-fetch alone that would let it through |
| `DecisionPipeline.LiveUndecidedExactlyWhen` | services/gateway/jsonrpc_interceptor.py:173-434 | without ids the live path raises before it has a decision exactly where `_meta`, the hour or the validator raises in a stage that it reaches |
| `DecisionPipeline.DryUndecidedExactlyWhen` | services/gateway/decision_explainer.py:122-409 | the dry run raises exactly where the hour or the validator raises in a stage that it reaches; it reads the hour even for a grant without conditions |
| `DecisionPipeline.ObservationForetellsExactlyWhen` | services/gateway/jsonrpc_interceptor.py:181-192 | observation has a decision exactly when enforcement has and records the outcome, event and rules that enforcement comes to, exactly when no stage raises that comes only after one that denies |
| `DecisionPipeline.ObservationForetellsButForTheHour` | services/gateway/jsonrpc_interceptor.py:436-457 | with an object for `_meta` and a validator that does not raise, observation foretells enforcement exactly when it is not a replay denial whose timestamp names no hour under a grant with conditions |
| `DecisionPipeline.MillisecondCallIsLost` | services/gateway/jsonrpc_interceptor.py:451-453 | the witness: a bearer call stamped in milliseconds under a grant with one condition is a replay denial in enforcement, and raises without a decision in observation |
| `DecisionPipeline.AllowedExactlyWhen` | services/gateway/jsonrpc_interceptor.py:240-434 | without ids a call is let through exactly when it is no replay, has an object for `_meta`, is granted, satisfies every condition in one pass with the score bound and the hour known, has no drift, scores below the challenge band and fits an available schema |
| `DecisionPipeline.RestrictedGrantAllowsExactly` | services/gateway/jsonrpc_interceptor.py:240-434 | a grant whose one condition asks for a tool by name lets exactly that tool through, of the calls that nothing else stops |
| `DecisionPipeline.CallPathsMean` | services/gateway/jsonrpc_interceptor.py:436-457 | a condition on `tool.name`, `tool.server_id` or `context.hour` asks for the tool called, its server and the hour of the call, whatever attributes the identity has |
| `DecisionPipeline.CallerPathsMean` | services/gateway/jsonrpc_interceptor.py:443-450 | a condition on `identity.k` asks for the policy's attribute k of the caller, and one on `identity.id` for the caller unless the policy gives it an attribute id |
| `DecisionPipeline.ScorePathMeans` | services/gateway/jsonrpc_interceptor.py:362-374 | a condition on `risk.score` waits for the score and then asks for it |
| `DecisionPipeline.HourAtMeans` | services/gateway/jsonrpc_interceptor.py:451-453 | the hour of a timestamp is its hour of day in UTC, for exactly the instants of the years 1 to 9999 |
| `DecisionPipeline.FailsClosed` | services/gateway/jsonrpc_interceptor.py:246-434 | a crashed score, an unreadable drift status or an unavailable schema never lets a call through, in either mode, except that a redeemed approval needs no score |
| `DecisionPipeline.ScoreIsKept` | services/gateway/jsonrpc_interceptor.py:335-434 | a score on a decision is the score found; observation always has it, and enforcement on every decision from scoring on, unless an approval stood in for it |
| `DecisionPipeline.DryRunFailsClosed` | services/gateway/decision_explainer.py:131-409 | nor does it in the dry run |
| `DecisionPipeline.DecisionsAreTrue` | services/gateway/jsonrpc_interceptor.py:193-434 | what the event of a live decision says of the call is so, and the decision names the rule of that event, the denied condition among them |
| `DecisionPipeline.RedemptionsClearOnlyTheirStage` | services/gateway/jsonrpc_interceptor.py:270-377 | a verified proof clears the challenge band only, and a redeemed approval stands in for the score only |
| `DecisionPipeline.Band` | services/gateway/risk_engine.py:216-227 | the threshold bands, each by its exact bounds |
| `DecisionPipeline.EventTellsOutcome` | services/gateway/decision_explainer.py:39-53 | the event of every live decision determines its outcome as the reconstruction table has it |
| `Abac.Validate` | services/gateway/abac.py:63-79 | accepts exactly the whitelisted expressions and collects exactly the paths written in them |
| `Abac.CompileCondition` | services/gateway/abac.py:49-60 | compiles exactly the short enough, validated sources, with their tree and paths |
| `Abac.Eval` | services/gateway/abac.py:114-127 | the walk never reads an unbound attribute and gives the expression's meaning |
| `Abac.Evaluate` | services/gateway/abac.py:102-111 | a condition holds exactly when all its paths are bound and its meaning holds; the missing paths are reported |
| `Abac.MissingPathDenies` | services/gateway/abac.py:102-111 | a path that is not bound denies, however deep under not, and, or it stands |
| `Abac.DependsOnlyOnPaths` | services/gateway/abac.py:114-127 | evaluation depends on nothing but the paths the expression names |
| `Abac.ChainIsConjunction` | services/gateway/abac.py:114-127 | a chained comparison holds exactly when all its adjacent pairs do |
| `Abac.ConnectivesMean` | services/gateway/abac.py:114-127 | a conjunction holds exactly when every part does, a disjunction exactly when some part holds after parts that fail, and a part that raises counts only if evaluation reaches it |
| `Abac.ComparisonMeans` | services/gateway/abac.py:139-150 | numbers and texts compare as such, a bool as 0 or 1, and a text with anything else is unequal and raises when ordered |
| `Abac.PathIsMeans` | services/gateway/abac.py:102-127 | a condition `root.attr == x` is satisfied exactly when its path is bound to a value equal to x |
| `Abac.TwoPhasesEqualOnePass` | services/gateway/jsonrpc_interceptor.py:240-374 | checking the conditions without risk first and the others after scoring gives the verdict of one pass with the score bound |
| `Abac.RiskPathsAreRootedInRisk` | services/gateway/abac.py:45-46 | the prefix test finds exactly the paths rooted in risk |
| `ReplayAndStepUp.ReplayGuard.Check` | services/gateway/replay_guard.py:34-52 | answers and remembers as the reference judgement does |
| `ReplayAndStepUp.AcceptedExactlyWhen` | services/gateway/replay_guard.py:34-52 | over every run under a clock that does not go back a call is accepted exactly when its nonce is a UUID, its timestamp is within the window either way or not a number, and no call with that nonce was accepted within the last two windows |
| `ReplayAndStepUp.DenialsAreTrue` | services/gateway/replay_guard.py:34-52 | what a refused call is told is so |
| `ReplayAndStepUp.NoPairTwice` | services/gateway/replay_guard.py:43-52 | over every run under a clock that does not go back, a nonce and timestamp are accepted twice only if the timestamp is not a number |
| `ReplayAndStepUp.NotANumberIsAcceptedAgain` | services/gateway/replay_guard.py:41-52 | a timestamp that is not a number is in the window at all times, so its pair is accepted again exactly when its nonce is forgotten |
| `ReplayAndStepUp.DedupIsTight` | services/gateway/replay_guard.py:45-47 | a pair stamped a window ahead is in its window until the very instant its nonce expires and not after: the margin is nil |
| `ReplayAndStepUp.VerifyTotp` | services/gateway/step_up.py:60-70 | accepts exactly the codes of the current step and its two neighbours |
| `ReplayAndStepUp.VerifiesForSomeCounter` | services/gateway/step_up.py:60-70 | a code verifies exactly when it is the code of some counter within one step of the clock, which is what the dedup of codes is proved about |
| `ReplayAndStepUp.ChallengeStore.CreateChallenge` | services/gateway/step_up.py:93-109 | stores the challenge and its deadline as the reference step does |
| `ReplayAndStepUp.CodeSpan` | services/gateway/step_up.py:37-44 | one counter's code verifies over exactly ninety seconds, as long as its dedup key lasts |
| `ReplayAndStepUp.ChallengeStore.RedeemChallenge` | services/gateway/step_up.py:111-149 | consumes the challenge first and answers as the reference does |
| `ReplayAndStepUp.RedemptionAnswersItsChallenge` | services/gateway/step_up.py:111-149 | every redemption answers a challenge issued to the same identity for the same server, tool and arguments, in time and not asked for before |
| `ReplayAndStepUp.RedeemedExactlyWhen` | services/gateway/step_up.py:111-149 | over every run a redemption succeeds exactly when its challenge was issued for the same call and not asked for since, is in time, the caller has a secret, the proof is the code of a step next to the clock, and the code was not redeemed in the last ninety seconds |
| `ReplayAndStepUp.RefusalsAreTrue` | services/gateway/step_up.py:111-149 | what a refused redemption is told is so |
| `ReplayAndStepUp.ChallengeRedeemedOnce` | services/gateway/step_up.py:125-128 | any attempt on a challenge rules out every later redemption of it |
| `ReplayAndStepUp.CodeRedeemedOncePerCounter` | services/gateway/step_up.py:142-148 | over every run an identity redeems a code at most once for the counter it encodes |
| `Approvals.ApprovalStore.CreateApproval` | services/gateway/approvals.py:43-60 | stores a pending, unconsumed request with its deadline as the reference step does |
| `Approvals.ApprovalStore.ApproveRequest` | services/gateway/approvals.py:62-95 | grants exactly a pending request that is not past due, and expires one that is |
| `Approvals.ApprovalStore.RedeemApproval` | services/gateway/approvals.py:97-134 | classifies as the reference does and consumes exactly on success |
| `Approvals.ApprovalStore.ExpireStaleRows` | services/gateway/approvals.py:136-154 | expires exactly the pending requests past due, all or none |
| `Approvals.RedemptionFollowsItsGrant` | services/gateway/approvals.py:97-134 | over every run a redemption follows the creation of its approval for the same identity, server, tool and arguments and a grant of it, and comes no later than its expiry |
| `Approvals.RedeemedExactlyWhen` | services/gateway/approvals.py:97-134 | over every run a request is redeemed exactly when it was made for the same call, approved in time, is not past due and was not redeemed |
| `Approvals.GrantedExactlyWhen` | services/gateway/approvals.py:62-95 | over every run a request is granted exactly when it was made and is approved in time for the first time |
| `Approvals.RefusalsAreTrue` | services/gateway/approvals.py:97-134 | what a refused redemption says of the request is so |
| `Approvals.PastDueExpires` | services/gateway/approvals.py:136-154 | a sweep expires exactly the pending requests past due, and so does an approval or a redemption that comes upon one |
| `Approvals.RedeemedOnce` | services/gateway/approvals.py:109-110 | over every run an approval that was redeemed is refused as reused ever after |
| `Approvals.ConsumedIsApproved` | services/gateway/approvals.py:116-133 | over every run a consumed approval is an approved one |
| `Approvals.StatusOnlyLeavesPending` | services/gateway/approvals.py:62-154 | over every run a status moves only from pending and never back |
| `Approvals.GrantRowVerifiesExactlyWhenSelfApproved` | services/gateway/approvals.py:87-93 | the audit row of a grant is accepted by every verifier exactly when the approver is the requester |

## Left out

- AuditWriter.AuditWriter.WriteLocked: the retries after a conflict are bounded by a parameter, because the source's loop has no bound; rows committed before the bound is reached are all accounted for; each turn records the policy version in force at that turn, which is left open.
- AuditWriter.PayloadOf: the extras are taken as already free of NUL below the top level, and the latency and id columns of a row that no hash covers are not modelled.
- AuditWriter: a commit that raises after storing its row, and more than one writer, are outside the stated faults.
- AuditKeys.AuditKeyStore.EnsurePublic: file modes and the second read after a lost creation race are not modelled.
- AuditKeys.AuditKeyStore.Recover: where the active key's public file is torn or foreign it promises only that no filed key is touched.
- PolicyActivation.PolicyOperationStore.Recover: the active file is always there, because nothing modelled removes it; the branch for a missing one is not modelled.
- PolicyActivation.Activate: calls are sequential, so the refusal while another mutation holds the lock is not modelled; a rollback refreshes only the row's time and actor, which are not modelled.
- PolicyEngine.ResolveGrant: tool lists are sets, because they are only asked for membership.
- PolicyScaffold.Scaffold: rendering to YAML, the size limit and the metadata it returns are not modelled; which of an integrity failure, an incomplete triple and a wildcard tool a bad span is refused for is stated only as the group of them.
- SessionManager.SessionManager.CleanupSession: a session's fields are values in the manager's maps rather than a shared object, so aliasing between the map and a running cleanup is not captured; what such a cleanup sees of a session already taken out of service is.
- SessionManager.SessionManager.StrikeDeadline: the timeout message and the wait for its delivery are not modelled; session slots, idle sweeps and rate limits are left out.
- DriftClassifier.ClassifySchema: JSON equality is structural, numbers being equal by digits and scale, where Python also equates true, 1 and 1.0; Python's recursion limit is not modelled.
- DriftDetector.DriftDetector.Check: the time a baseline was flagged at and metrics are not modelled; the source of a rename is any matching one, where the code takes the first in table order.
- JsonDepth.DepthExceeded: UTF-8 decoding before the scan and parsing after it are not modelled, nor is the depth of a body that is no JSON text.
- EnvFile.UpdateEnv: the temporary file, its mode and the replacement of the old file are not modelled.
- EnvFile.Decode: a double-quoted value is decoded by a function that is not modelled.
- DecisionPipeline.Explain: the explicit hour and the option to skip validation are parameters of a dry run that live calls do not have, and are not modelled.
- DecisionPipeline.HourAt: the rounding of a timestamp to microseconds, which can carry the last instant of the year 9999 over its end, is not modelled.
- DecisionPipeline.Interceptor.Authorize: the tear-down of the session by a call that raises belongs to the session manager; reasons, latency and the counters that scoring moves are not modelled; each stage's lookup is a fact of the call; whether each of its two policy-error rows can be written is left open.
- ReplayAndStepUp.ReplayGuard.Check: Redis failures, which deny, are part of the pipeline's facts rather than of the guard.
- Approvals.ApprovalStore.ApproveRequest: the audit rows of expiries and the risk decay after a grant are not modelled.
- Abac.Eval: non-finite floats and Python's own recursion limit are not modelled.
- Risk factors, their combination and counters, the policy simulator, schema cache contents, description scanning, metrics and readiness: easy arithmetic, patterns or plumbing.
- Docker runtime, HTTP and ASGI routing, MCP transport, the command-line tools other than the two functions above, migrations and demos: input and output.
