# WormVerify: a verified model

WormVerify authenticates cross-chain messages. Guardians sign the digest
`keccak256(keccak256(body))` of a message body; an off-chain engine collects their signatures
and assembles a VAA (header, signatures, body) once `floor(2N/3) + 1` of the N guardians of a set
have signed; an on-chain program checks the same VAA against its own copy of the set, accepts
every digest once, rotates guardian sets and numbers outbound messages. This project models both
sides and the small resilience library beside them, and proves what connects them.

## Layout

| file | content |
|---|---|
| `Prelude.dfy` | machine integers, byte strings, big-endian integers, the two cryptographic primitives |
| `Vaa.dfy`, `VaaCodec.dfy` | off-chain codec and verification; the codec as an exact inverse; what verification means |
| `OnChainVaa.dfy`, `VaaEquivalence.dfy` | on-chain parser and quorum check; agreement of the two implementations |
| `Agreement.dfy` | the quorum threshold as the only safe and live one, and agreement on one body per slot |
| `Domain.dfy`, `Engine.dfy` | the engine's entities, stores and operations |
| `EngineRuns.dfy` | serial runs: event grammar, conservation, completion, which signatures are held, arrival order |
| `Origins.dfy` | where stored messages come from: the stores as told by the calls, availability, origins under every schedule |
| `Interleaving.dfy`, `Schedules.dfy` | the engine as concurrent tasks that interleave at every store access; what holds under every schedule |
| `Exclusion.dfy`, `LockedGrammar.dfy` | what a lock per message id restores: lossless collection, conservation, the event grammar |
| `Reach.dfy`, `Races.dfy`, `Losses.dfy` | serial runs and races as schedules; two submissions in every interleaving; reachable losses and exactly when they happen |
| `Program.dfy`, `ProgramRuns.dfy` | the on-chain instructions as transactions; invariants of every run |
| `ProgramLedger.dfy` | the ledger as told by the transactions: foundation, guardian sets, messages, replies |
| `EndToEnd.dfy` | from any engine schedule to any program run |
| `Breaker.dfy`, `Retry.dfy` | circuit breaker against its history; backoff against unbounded integers |

Operations appear twice where the source changes state: as a function on the whole state (the
specification, about which the lemmas speak), and as a method of a class, or a method with the
source's loop and cursor, whose `ensures` equates it with that function.

## Conventions and assumptions

- keccak256 and address recovery (public-key recovery, section 4.1.6 of SEC 1 v2.0, followed by
  address derivation) are the two fields of `Crypto`, an arbitrary total function and an arbitrary
  partial one. Both sides use the same `recover`. No theorem assumes anything about them except
  the agreement theorems, whose hypothesis `MostlyHonest` names the unforgeability and
  collision-freeness they need, for the two bodies compared and the honest guardians' finite
  sets of signed bodies only.
- Integer widths, the truncating cast of the signature count, saturating and checked arithmetic
  and the final 64-bit cast of the backoff are explicit.
- Clocks are arguments. What each guardian set's creation time and expiry are holds for any clock
  (`SetLedger`, `SupersededWindow`); that expiries are positive and ordered assumes a positive
  clock that never goes back, and `SupersededForeverIff` shows why positivity is needed. Of the
  breaker, `RejectedIffRecentTrip` assumes that its clock never goes back, and
  `RejectedUnderAnyClock` nothing.
- Registry upgrades of the engine insert a fresh index; rewriting an index is not considered.
- A failing transaction is undone as a whole. Account constraints are checked before the handler
  runs, in the order of the account list; a checked-arithmetic overflow is a failure
  (`anchor/Cargo.toml` turns overflow checks on).
- `AggregatorEngine.SubmitSignature` requires the stored list to be sorted, as the source's binary
  search does; every reachable store satisfies it (`Interleaving.StoresGood`).
- The engine takes no lock between loading an observation and storing it back, so theorems about
  serial runs do not carry over to interleaved tasks as they are. What holds under every schedule
  is stated by `SafeUnderEverySchedule` and `LogUnderEverySchedule`. Lossless collection holds
  for an id while at most one task at a time is between its first store access and its last access
  to the pending store on that id (`LosslessUnderLock`); other ids and registry upgrades interleave
  freely. So does conservation. The event grammar needs, besides, that no signature is announced
  before the observation (`GrammarIffObservedFirst`), which a lock on the whole operation gives
  (`GrammarUnderLock`) and the shorter one does not (`LateAnnouncement`). Without a lock there are
  two ways to lose signatures, each with its exact condition and its executions: a submission that
  stores what it loaded earlier (`OverlappingSubmissionsLoseOne`, `LateSubmissionForgets`), and an
  observation that stores a message it did not find earlier (`LateObserverErases`); either can
  also bring a completed message back into the pending store (`OverlapReachable`).

Where the documentation and the code differ, the model follows the code: the breaker admits every
call in its half-open state, not a single trial call (`HalfOpenAdmitsEveryCall`); `retry` accepts
`max_attempts = 0` and then makes one attempt; the replay marker is created before the handler
runs, not after the quorum check; a replay fails as an account already in use, not with the
declared error code for it.

## Model

| member | source | states |
|---|---|---|
| Vaa.EncodeBodyBuffer | crates/wormverify-types/src/vaa.rs:59-68 | the growing buffer holds the body's fields in wire order, big-endian, payload last |
| Vaa.EncodeBuffer | crates/wormverify-types/src/vaa.rs:89-102 | the loop over signatures yields header, 66-byte entries and body, with the count truncated to a byte |
| Vaa.ParseBodyCursor | crates/wormverify-types/src/vaa.rs:214-244 | the cursor reads give the body, or the length or payload error, of the specification |
| Vaa.ParseCursor | crates/wormverify-types/src/vaa.rs:105-148 | the streaming loop returns the specified VAA or the first error met, for every byte string |
| Vaa.RunVerify | crates/wormverify-types/src/vaa.rs:152-184 | the verification loop returns the specified first failure, or the quorum verdict |
| VaaCodec.BodyFields | crates/wormverify-types/src/vaa.rs:59-68 | the offset of every field in an encoded body |
| Prelude.BigEndianDigit | crates/wormverify-types/src/vaa.rs:61-66 | every byte of an encoded integer is the digit of its place, most significant first |
| VaaCodec.WireLayout | crates/wormverify-types/src/vaa.rs:89-102 | the offset of every header field, signature entry and the body in an encoded VAA |
| VaaCodec.ParseInvertsEncode | crates/wormverify-types/src/vaa.rs:89-148 | parsing yields v exactly from v's own encoding, and exactly when v has version 1, at most 255 strictly ascending signatures and at most 1024 payload bytes |
| VaaCodec.ParseInjective | crates/wormverify-types/src/vaa.rs:105-148 | two byte strings that parse to the same VAA are equal |
| VaaCodec.EncodeBodyInjective | crates/wormverify-types/src/vaa.rs:59-68 | bodies with equal encodings are equal, for any payload length |
| VaaCodec.VerifyMeansQuorum | crates/wormverify-types/src/vaa.rs:152-184 | verification succeeds exactly when signatures ascend, all are valid, and at least quorum(N) distinct guardians signed |
| VaaCodec.VerifyReports | crates/wormverify-types/src/vaa.rs:152-184 | verification reports an empty set, else the fault of the first faulty signature, else how many signatures there are and that floor(2N/3)+1 are needed |
| VaaCodec.ParseReports | crates/wormverify-types/src/vaa.rs:105-148 | an unsupported version is reported exactly when the first byte is not 1, with that byte; an oversized payload with its actual length and the limit |
| OnChainVaa.ParseOffsets | anchor/programs/wormverify-core/src/vaa.rs:115-176 | the fixed-offset loop returns the specified fields and raw-slice digest, or the specified error |
| OnChainVaa.RunVerifyQuorum | anchor/programs/wormverify-core/src/verify.rs:43-60 | the loop returns the specified first failure, or the quorum verdict |
| VaaEquivalence.StreamingMeetsOffsets | crates/wormverify-types/src/vaa.rs:119-138 | a complete signature section read as a stream gives the entries at fixed offsets, or out-of-order exactly when neighbouring indices do not ascend |
| VaaEquivalence.StreamingTruncated | crates/wormverify-types/src/vaa.rs:119-138 | a truncated signature section is malformed or out of order |
| VaaEquivalence.ParsersAgree | anchor/programs/wormverify-core/src/vaa.rs:115-176 | on every byte string the on-chain parser accepts the same input with the same fields, its raw-slice digest is that of the re-encoded body, and errors correspond except for out-of-order input truncated in its signature section |
| VaaEquivalence.VerifiersAgree | anchor/programs/wormverify-core/src/verify.rs:43-60 | on every accepted byte string and guardian set the two verifiers give corresponding results; success means a certified VAA |
| VaaEquivalence.HashOfBody | anchor/programs/wormverify-core/src/vaa.rs:148-161 | the hash of accepted bytes is the digest of their parsed body, whatever the header |
| Agreement.QuorumsOverlap | crates/wormverify-types/src/guardian.rs:51-53 | any two quorums share at least 2*quorum(N) - N guardians, more than a third of N |
| Agreement.HonestOverlapIffFewFaulty | crates/wormverify-types/src/guardian.rs:51-53 | exactly the sets of fewer than 2*quorum(N) - N faulty guardians leave an honest one in every intersection of quorums |
| Agreement.HonestQuorumIffFewFaulty | crates/wormverify-types/src/guardian.rs:51-53 | the guardians that are not faulty are a quorum exactly when fewer than a third are faulty |
| Agreement.OnlySafeAndLiveThreshold | crates/wormverify-types/src/guardian.rs:51-53 | quorum(N) is the only threshold of which any two quorums share more than N/3 guardians and that the others meet whenever fewer than N/3 are faulty |
| Agreement.HonestSignersVerify | crates/wormverify-types/src/vaa.rs:152-184 | a VAA signed by all guardians that are not faulty verifies when fewer than a third are faulty |
| Agreement.VerifiedBodiesAgree | crates/wormverify-types/src/vaa.rs:152-184 | two VAAs for one (chain, emitter, sequence) that verify against one set have the same body when fewer guardians are faulty than two quorums share (which covers fewer than N/3) |
| Domain.InsertByBinarySearch | crates/wormverify-core/src/domain.rs:86-92 | binary search on a sorted list finds the insertion point of the specification |
| Domain.InsertAddsOne | crates/wormverify-core/src/domain.rs:86-92 | insertion keeps the list strictly ascending and adds exactly the one signature |
| Domain.AscendingUnique | crates/wormverify-core/src/domain.rs:50-51 | a strictly ascending list is determined by its elements |
| Domain.InMemoryMessageStore.UpsertPending | crates/wormverify-infra/src/memory.rs:20-23 | stores the observation under its message id and changes nothing else |
| Domain.InMemoryMessageStore.RemovePending | crates/wormverify-infra/src/memory.rs:30-33 | removes exactly this id |
| Domain.InMemoryMessageStore.ListPending | crates/wormverify-infra/src/memory.rs:27-29 | lists every stored observation, as many as there are ids |
| Domain.InMemoryVaaStore.Save | crates/wormverify-infra/src/memory.rs:44-47 | stores the record under its id and changes nothing else |
| Domain.InMemoryGuardianRegistry.Upgrade | crates/wormverify-infra/src/memory.rs:77-81 | inserts the set under its index and makes that index current |
| Engine.AggregatorEngine.ObserveMessage | crates/wormverify-core/src/engine.rs:88-121 | reply and all four stores afterwards are those of the specification |
| Engine.AggregatorEngine.SubmitSignature | crates/wormverify-core/src/engine.rs:133-202 | reply and all four stores afterwards are those of the specification, in every branch |
| Engine.AggregatorEngine.Stats | crates/wormverify-core/src/engine.rs:224-229 | reports the sizes of the pending and the completed store |
| EngineRuns.SubmitEffect | crates/wormverify-core/src/engine.rs:138-201 | a submission changes good stores only if it is a guardian's first valid signature for a pending message; it is then added, and the message completes exactly when that makes a quorum |
| EngineRuns.SubmitReply | crates/wormverify-core/src/engine.rs:138-201 | which reply is given exactly when; a missing set or a failed final verification is never reported |
| EngineRuns.EventGrammar | crates/wormverify-core/src/engine.rs:95-201 | in serial runs the events of a message are Observed, Collected 1..k and, once k = needed, Assembled, with distinct guardians and constant needed, and decide what the stores hold |
| EngineRuns.ScriptShape | crates/wormverify-core/src/domain.rs:106-118 | the event at each position of a script |
| EngineRuns.MessagesConserved | crates/wormverify-core/src/engine.rs:224-229 | pending and completed ids are disjoint and together as many as the messages ever announced |
| EngineRuns.RunGood | crates/wormverify-core/src/engine.rs:88-202 | every serial run keeps the invariant, existing guardian sets and completed records, unchanged |
| EngineRuns.ObserveIdempotent | crates/wormverify-core/src/engine.rs:82-100 | observing an announced body again, after any calls, changes nothing and reports its id or its completion |
| EngineRuns.CompletesIffQuorumSubmitted | crates/wormverify-core/src/engine.rs:133-202 | a pending message is completed at the end of any serial run, whatever else is called, exactly when held and submitted valid signatures come from a quorum of distinct guardians |
| EngineRuns.HoldsFirstQuorum | crates/wormverify-core/src/engine.rs:154-188 | in any serial run a message holds, and its VAA carries, the signatures it started with and the first valid one of each further guardian, up to a quorum, in ascending order |
| EngineRuns.ArrivalOrderImmaterial | crates/wormverify-core/src/engine.rs:154-188 | two runs offering the same quorum of signatures assemble byte-identical VAAs, whatever the order and the other calls |
| EngineRuns.PermutationsAssembleAlike | crates/wormverify-core/src/domain.rs:86-92 | reordering the calls of a run leaves the assembled bytes as they are |
| Origins.RegistryFromCalls | crates/wormverify-infra/src/memory.rs:77-81 | after a serial run the registry holds the sets it had and those inserted, unchanged, and the last inserted is current |
| Origins.MessageFromCalls | crates/wormverify-core/src/engine.rs:88-202 | a message is stored after a serial run exactly when a call observes it and names a set registered by then; the first such call gives its set, body and observation time; it holds the first valid signatures of distinct guardians among the later calls and is completed exactly when those guardians are a quorum |
| Origins.ObserveReplies | crates/wormverify-core/src/engine.rs:93-120 | an observation of an announced message changes nothing; of another one it is stored, as given, exactly when its guardian set is registered, with the matching reply |
| Origins.CompletesDespiteFaulty | crates/wormverify-core/src/engine.rs:133-202 | when fewer than a third of a pending message's guardians are faulty and all others submit valid signatures, in any order, it is completed with a VAA that verifies |
| Origins.OriginUnderEverySchedule | crates/wormverify-core/src/engine.rs:88-115 | under every schedule each stored message was brought in by one observation task, started with its guardian set and body, that found the set registered at its observation time |
| Interleaving.AdvanceKeepsGood | crates/wormverify-core/src/engine.rs:88-202 | one step of one task, between two await points, keeps the stores and its local copies good |
| Interleaving.SafeUnderEverySchedule | crates/wormverify-core/src/engine.rs:88-202 | under every schedule of any number of tasks, every saved record is keyed by the digest of its body, carries exactly quorum(N) ascending valid signatures and verifies; every stored observation holds fewer than its quorum of ascending valid signatures over its key; the engine's final verification never fails |
| Interleaving.CompletedStays | crates/wormverify-infra/src/memory.rs:44-47 | under every schedule a completed id stays completed |
| Interleaving.SetsStay | crates/wormverify-infra/src/memory.rs:77-81 | under every schedule a registered guardian set stays as it is |
| Interleaving.ObserveUninterrupted | crates/wormverify-core/src/engine.rs:88-121 | an observation task that runs without interruption is the serial operation |
| Interleaving.SubmitUninterrupted | crates/wormverify-core/src/engine.rs:133-202 | a submission task that runs without interruption is the serial operation |
| Schedules.LogUnderEverySchedule | crates/wormverify-core/src/engine.rs:115-199 | under every schedule, every event is true (observed: stored; collected: that guardian signed validly; assembled: saved), every signature held has been announced, and the stored messages are those announced or announced by a task's next step |
| Exclusion.LosslessUnderLock | crates/wormverify-core/src/engine.rs:95-198 | if at most one task at a time has been between its first store access and its last pending-store access on an id, then whenever none is, the message is in at most one store and the guardians announced, once each and counting up, are exactly the signers held; other ids and upgrades are unrestricted |
| LockedGrammar.AnnouncedOnceUnderLock | crates/wormverify-core/src/engine.rs:115-199 | under the same lock, whenever no operation on the id is under way, its observation has been announced once if it is stored, its completion once if it is saved, otherwise never |
| LockedGrammar.CensusUnderLocks | crates/wormverify-core/src/engine.rs:224-229 | with every id so locked, pending and completed ids are disjoint and together as many as the messages announced |
| LockedGrammar.GrammarIffObservedFirst | crates/wormverify-core/src/engine.rs:115-199 | under the same lock, whenever no operation on the id is under way, its events follow the script and match the stores exactly when no signature was announced before the observation was |
| LockedGrammar.GrammarUnderLock | crates/wormverify-core/src/engine.rs:88-202 | if the operations on an id exclude each other as a whole, its events follow the script and match the stores whenever none is under way |
| LockedGrammar.SerialUnderLocks | crates/wormverify-core/src/engine.rs:88-202 | if the operations on each id exclude each other, the invariant of serial runs holds whenever none is under way, however different ids interleave |
| Reach.SerialRunReachable | crates/wormverify-core/src/engine.rs:88-202 | serial calls are part of a schedule, beside whatever tasks are parked |
| Reach.PairReachable | crates/wormverify-core/src/engine.rs:88-202 | every interleaving of two tasks is part of a schedule |
| Races.SerialSubmissionsKeepBoth | crates/wormverify-core/src/engine.rs:138-179 | two submissions one after the other are both held |
| Races.OverlappingSubmissionsLoseOne | crates/wormverify-core/src/engine.rs:138-179 | in every interleaving of two submissions short of the quorum both are announced and reported collected, and both are held exactly when one stores before the other loads; otherwise only the last to store is |
| Losses.RaceReachable | crates/wormverify-core/src/engine.rs:88-179 | after an observation, every interleaving of two submissions is an execution from the initial state |
| Losses.LossReachable | crates/wormverify-core/src/engine.rs:88-179 | an execution from the initial state, with everything finished, that announces two guardians and holds one |
| Losses.LateObserverReachable | crates/wormverify-core/src/engine.rs:95-119 | an observation that did not find the message may store it after any serial calls of others |
| Losses.LateObserverErases | crates/wormverify-core/src/engine.rs:95-119 | that observation does no harm exactly when the message has not been stored meanwhile; otherwise it drops every signature held, or puts a completed message back into the pending store |
| Losses.LateSubmissionReachable | crates/wormverify-core/src/engine.rs:138-179 | a submission may load a message after some serial calls and store it after some more |
| Losses.LateSubmissionForgets | crates/wormverify-core/src/engine.rs:138-179 | that submission does no harm exactly when the message is still as it was loaded; otherwise it drops what was collected meanwhile, from the observation or from the record it completes, or puts a completed message back into the pending store |
| Losses.OverlapReachable | crates/wormverify-core/src/engine.rs:95-198 | for every guardian set of which a quorum signs, an execution that leaves a message in both stores |
| Losses.LateAnnouncement | crates/wormverify-core/src/engine.rs:115-179 | an execution that respects the lock up to the last pending-store access and still announces a signature before the observation |
| Program.WormVerifyCore.HandleInitialize | anchor/programs/wormverify-core/src/lib.rs:54-85 | the accounts afterwards, or the error, are those of the specification |
| Program.WormVerifyCore.HandlePostMessage | anchor/programs/wormverify-core/src/lib.rs:88-122 | the accounts afterwards, or the error, are those of the specification |
| Program.WormVerifyCore.HandleVerifyVaa | anchor/programs/wormverify-core/src/lib.rs:130-166 | the accounts afterwards, or the error, are those of the specification |
| Program.WormVerifyCore.HandleUpgrade | anchor/programs/wormverify-core/src/lib.rs:173-215 | the accounts afterwards, or the error, are those of the specification |
| Program.WormVerifyCore.Process | anchor/programs/wormverify-core/src/lib.rs:49-215 | a transaction keeps the handler's writes on success and leaves every account as it was on failure |
| ProgramRuns.AcceptsExactly | anchor/programs/wormverify-core/src/lib.rs:130-166 | a verification succeeds exactly when the bytes parse, index and hash match, the digest is new, the set is active, and a quorum of distinct guardians signed validly |
| ProgramRuns.OnlyAuthorityRotates | anchor/programs/wormverify-core/src/lib.rs:184-206 | only an upgrade signed by the authority moves the current index, by exactly one; the rest of the configuration is fixed |
| ProgramRuns.UpgradeSucceedsIff | anchor/programs/wormverify-core/src/lib.rs:173-196 | in a reachable ledger a rotation succeeds exactly when the authority signs for current + 1 with 1..19 guardians and the expiry fits; it then stores those guardians |
| ProgramRuns.StepKeepsChain | anchor/programs/wormverify-core/src/lib.rs:173-214 | every instruction keeps the rotation chain and every existing set |
| ProgramRuns.RotationChain | anchor/programs/wormverify-core/src/lib.rs:173-214 | in every reachable ledger the sets are exactly genesis..current, each under its index with 1..19 keys; only the current one has expiry 0; every other expires ttl after its successor's creation |
| ProgramRuns.SetsImmutable | anchor/programs/wormverify-core/src/lib.rs:192-206 | keys, creation time and a nonzero expiry never change afterwards |
| ProgramRuns.ExpiryMonotone | anchor/programs/wormverify-core/src/lib.rs:192-196 | expiries of superseded sets are positive and nondecreasing in the index |
| ProgramRuns.ActiveSuffix | anchor/programs/wormverify-core/src/state.rs:55-57 | at any instant the active sets are a contiguous run of indices ending with the current one |
| ProgramRuns.SupersededForeverIff | anchor/programs/wormverify-core/src/lib.rs:192-196 | a superseded set stays active forever exactly when upgrade time plus ttl is 0 |
| ProgramRuns.RecordsKept | anchor/programs/wormverify-core/src/lib.rs:154-157 | replay markers and posted messages are never rewritten or removed |
| ProgramRuns.AcceptedIffSucceeds | anchor/programs/wormverify-core/src/lib.rs:154-157 | a verification succeeds exactly when it adds its digest to the replay markers |
| ProgramRuns.AcceptedOnce | anchor/programs/wormverify-core/src/lib.rs:281-288 | a digest is accepted by at most one transaction of a run, whatever header the bytes carry |
| ProgramRuns.ReplayLedger | anchor/programs/wormverify-core/src/lib.rs:130-166 | every consumed digest is justified, in all later ledgers, by exactly one transaction whose bytes hash to it and re-verify against the unchanged keys of a set active at that time |
| ProgramRuns.AcceptedVerifies | anchor/programs/wormverify-core/src/lib.rs:136-152 | accepted bytes parse off chain to a VAA with the consumed digest that verifies against its set's keys in all later ledgers |
| ProgramRuns.KeysKept | anchor/programs/wormverify-core/src/lib.rs:192-204 | guardian keys never change once stored, whatever the clock does |
| ProgramRuns.OneBodyPerSlot | anchor/programs/wormverify-core/src/lib.rs:130-166 | with few faulty guardians, a set is used for at most one body per (chain, emitter, sequence) in the whole run |
| ProgramRuns.StepKeepsGapless | anchor/programs/wormverify-core/src/lib.rs:97-114 | an instruction keeps an emitter's messages gapless and adds one exactly when it posts for that emitter |
| ProgramRuns.EmissionGapless | anchor/programs/wormverify-core/src/lib.rs:88-122 | in every reachable ledger an emitter's messages are exactly those numbered below its counter, each under its own number |
| ProgramRuns.PostsUnlessFull | anchor/programs/wormverify-core/src/lib.rs:94-114 | posting succeeds exactly when the payload fits and the counter is not at its maximum, where nothing is posted |
| ProgramLedger.InitializedOnce | anchor/programs/wormverify-core/src/lib.rs:54-85 | one initialization ever succeeds, the first with 1..19 guardians; from then on authority, chain id and ttl are its arguments, before it there is neither configuration nor set |
| ProgramLedger.InitializeReplies | anchor/programs/wormverify-core/src/lib.rs:61-65 | an initialization fails because the bridge is founded already, or for the number of guardians, with the matching error |
| ProgramLedger.SetLedger | anchor/programs/wormverify-core/src/lib.rs:192-206 | whatever the clock does, the sets are those installed, each by exactly one transaction, with its index, guardians and clock; the current one never expires, every other one expires ttl after the clock of the one transaction that superseded it |
| ProgramLedger.SupersededWindow | anchor/programs/wormverify-core/src/lib.rs:192-196 | a set superseded at time t is active exactly before t + ttl, in all later ledgers (or forever when t + ttl is 0) |
| ProgramLedger.RotatedByFounderOnly | anchor/programs/wormverify-core/src/lib.rs:173-206 | the current index moves exactly by upgrades to the next index, signed by the key named at initialization, with 1..19 guardians and an expiry that fits |
| ProgramLedger.UpgradeReplies | anchor/programs/wormverify-core/src/lib.rs:173-196 | the error of every failing upgrade of a founded bridge |
| ProgramLedger.VerifyReplies | anchor/programs/wormverify-core/src/lib.rs:130-152 | the error of every failing verification in a founded bridge, in terms of the off-chain parser and verifier |
| ProgramLedger.PostReplies | anchor/programs/wormverify-core/src/lib.rs:94-114 | a post succeeds exactly when it gives its emitter's next number; otherwise the payload is too large or the counter at its maximum |
| ProgramLedger.MessageLedger | anchor/programs/wormverify-core/src/lib.rs:97-112 | message q of an emitter is stored exactly when its q-th transaction with a payload that fits has been made; it is the only one with that number and its nonce, level, payload and clock are those stored |
| EndToEnd.RecordAccepted | anchor/programs/wormverify-core/src/lib.rs:130-166 | a record the engine saved is accepted by every ledger that has its set active with the same keys and its digest unconsumed |
| EndToEnd.EngineToProgram | crates/wormverify-core/src/engine.rs:183-201 | whatever any engine schedule saves is accepted by any ready ledger of any program run, after which every byte string with that body is refused for good |
| EndToEnd.EngineAgreement | crates/wormverify-core/src/engine.rs:183-201 | with few faulty guardians, any two records saved in any two states of a schedule for one slot and guardian set are for the same body |
| Breaker.CircuitBreaker.AcquireCall | crates/wormverify-resilience/src/breaker.rs:93-106 | the verdict and the new state are those of the specification |
| Breaker.CircuitBreaker.Succeeded | crates/wormverify-resilience/src/breaker.rs:109-113 | the new state is that of the specification |
| Breaker.CircuitBreaker.Failed | crates/wormverify-resilience/src/breaker.rs:116-134 | the new state is that of the specification |
| Breaker.RefinesHistory | crates/wormverify-resilience/src/breaker.rs:93-134 | after every sequence of calls the constant-size state is the one computed from the history since the last success |
| Breaker.RejectedIffRecentTrip | crates/wormverify-resilience/src/breaker.rs:93-106 | a call is rejected exactly when the latest trip since the last success is younger than the open duration |
| Breaker.RejectedUnderAnyClock | crates/wormverify-resilience/src/breaker.rs:93-106 | whatever the clock does, a call is rejected exactly when it and every call since the latest trip came before the end of that trip's open duration |
| Breaker.HalfOpenAdmitsEveryCall | crates/wormverify-resilience/src/breaker.rs:93-106 | every configuration can be driven to a half-open state that admits any number of calls at one instant with no outcome recorded |
| Breaker.HalfOpenUntilOutcome | crates/wormverify-resilience/src/breaker.rs:93-106 | once half open, any further calls are admitted and leave the state as it is |
| Breaker.CounterNeverSaturates | crates/wormverify-resilience/src/breaker.rs:116-134 | the counter is the number of failures since the last success capped at the threshold, and its saturating addition never saturates |
| Retry.BackoffExactIff | crates/wormverify-resilience/src/retry.rs:35-43 | the machine computation equals min(initial * m^k, max) over unbounded integers for all attempts exactly for the policies whose cap hides the 32-bit saturation and fits 64 bits |
| Retry.BackoffClosedForm | crates/wormverify-resilience/src/retry.rs:35-43 | every delay of every policy: min(initial * min(m^k, 2^32 - 1), max) modulo 2^64 |
| Retry.BackoffMonotone | crates/wormverify-resilience/src/retry.rs:35-43 | for those policies with multiplier at least 1 delays never shrink |
| Retry.TotalGeometric | crates/wormverify-resilience/src/retry.rs:35-43 | below the cap the total delay is the sum of the geometric series |
| Retry.RetryLoop | crates/wormverify-resilience/src/retry.rs:51-70 | stops at the first success or the last attempt, sleeping after each attempt but the final one for exactly that attempt's delay, in total at most (attempts - 1) * max |

## Left out

- Keccak, signature recovery and address derivation: foreign code, uninterpreted here; high-S and recovery-id rules of the two libraries are therefore not compared.
- `PendingObservation` is a value: the stores hold clones, so updating the local copy in place is a new value here and no aliasing is lost.
- Store errors: the in-memory adapters never return one.
- The registry's `current` lookup and expiry of off-chain guardian sets: the engine consults neither.
- Rewriting an existing registry index: the engine theorems assume fresh indices.
- Lossless collection, disjoint stores and the event grammar for unlocked tasks on one id: false of the code, with the executions in `Losses.dfy`; proved under the per-id locks of `Exclusion.dfy` and `LockedGrammar.dfy`.
- Arbitrary overlaps of unlocked tasks on one id: the exact outcome is stated for two submissions short of the quorum in every interleaving, and for one late submission or observation against any serial run.
- On-chain events, rent, account sizes, bumps and address derivation: accounts are map entries.
- Framework details of which constraint is reported first when several fail: one fixed order is modelled, and every order leaves the accounts unchanged.
- Half-open single-probe behaviour of the breaker: the code does not have it.
- Timeout helper and rate limiter: thin wrappers over libraries.
- Postgres adapter, GraphQL schema, routing, configuration, telemetry, demo and simulated signer: input and output plumbing.
- Hex and serde helpers: text conversion only.
