/** The engine as concurrent tasks. Every store access is an await point, so a task is a
    program counter with its local copies, and any other task may run between two of its
    steps. The module proves what survives every schedule, and that a task which runs without
    interruption is the serial operation. */
module Interleaving {
  import opened Prelude
  import opened Vaa
  import opened VaaCodec
  import opened Domain
  import opened Engine

  datatype Outcome =
    | Observed(result: Result<Hash, EngineError>)
    | Submitted(reply: Result<SubmitOutcome, EngineError>)
    | Upgraded

  /** Each constructor is an await point: the access named last is the one about to happen. */
  datatype Task =
    | ObserveCheckDone(gsi: U32, body: VaaBody)                         // vaas.get
    | ObserveCheckPending(gsi: U32, body: VaaBody)                      // messages.get_pending
    | ObserveResolve(gsi: U32, body: VaaBody)                           // guardians.get
    | ObserveStore(pending: PendingObservation)                         // messages.upsert_pending
    | ObserveAnnounce(id: Hash)                                         // events.publish
    | SubmitLoad(id: Hash, sig: GuardianSignature)                      // messages.get_pending
    | SubmitResolve(id: Hash, sig: GuardianSignature, pending: PendingObservation)  // guardians.get
    | SubmitAnnounce(id: Hash, index: Byte, pending: PendingObservation, keys: seq<Address>)  // events.publish
    | SubmitKeep(pending: PendingObservation)                           // messages.upsert_pending
    | SubmitSave(record: VaaRecord)                                     // vaas.save
    | SubmitClear(id: Hash, vaa: Vaa)                                   // messages.remove_pending
    | SubmitFinish(id: Hash, vaa: Vaa)                                  // events.publish
    | UpgradeInsert(guardianSet: GuardianSet)                                  // sets.insert
    | UpgradeSwitch(setIndex: U32)                                      // current.write
    | Finished(outcome: Outcome)

  function Failed(e: EngineError): Task {
    Finished(Submitted(Err(e)))
  }

  /** What the code between two await points does, with the access at the first of them. */
  function Advance(c: Crypto, s: Stores, t: Task, now: I64): (Stores, Task) {
    match t
    case ObserveCheckDone(gsi, body) =>
      if Digest(c, body) in s.vaas then (s, Finished(Observed(Err(AlreadyCompleted))))
      else (s, ObserveCheckPending(gsi, body))
    case ObserveCheckPending(gsi, body) =>
      if Digest(c, body) in s.pending then (s, Finished(Observed(Ok(Digest(c, body)))))
      else (s, ObserveResolve(gsi, body))
    case ObserveResolve(gsi, body) =>
      if gsi !in s.sets then (s, Finished(Observed(Err(GuardianSetUnavailable))))
      else (s, ObserveStore(NewPending(c, gsi, body, |s.sets[gsi].keys|, now)))
    case ObserveStore(p) =>
      (s.(pending := s.pending[p.message.id := p]), ObserveAnnounce(p.message.id))
    case ObserveAnnounce(id) =>
      (s.(events := s.events + [MessageObserved(id)]), Finished(Observed(Ok(id))))

    case SubmitLoad(id, sig) =>
      if id !in s.pending then (s, Failed(MessageNotObserved))
      else (s, SubmitResolve(id, sig, s.pending[id]))
    case SubmitResolve(id, sig, p) =>
      if p.message.guardianSetIndex !in s.sets then (s, Failed(GuardianSetUnavailable))
      else
        var keys := s.sets[p.message.guardianSetIndex].keys;
        (match Screen(c, id, p, keys, sig)
         case Some(e) => (s, Failed(e))
         case None => (s, SubmitAnnounce(id, sig.guardianIndex, p.With(sig), keys)))
    case SubmitAnnounce(id, index, p, keys) =>
      var s1 := s.(events := s.events + [CollectedEvent(id, index, p)]);
      if !p.QuorumReached() then (s1, SubmitKeep(p))
      else
        (match Verify(c, Assemble(p), keys)
         case Some(e) => (s1, Failed(FailedVerification(e)))
         case None => (s1, SubmitSave(VaaRecord(id, Assemble(p), now))))
    case SubmitKeep(p) =>
      (s.(pending := s.pending[p.message.id := p]), Finished(Submitted(Ok(Collected(|p.signatures|, p.Needed())))))
    case SubmitSave(r) =>
      (s.(vaas := s.vaas[r.id := r]), SubmitClear(r.id, r.vaa))
    case SubmitClear(id, vaa) =>
      (s.(pending := s.pending - {id}), SubmitFinish(id, vaa))
    case SubmitFinish(id, vaa) =>
      (s.(events := s.events + [VaaAssembled(id)]), Finished(Submitted(Ok(Assembled(vaa)))))

    case UpgradeInsert(guardianSet) =>
      (s.(sets := s.sets[guardianSet.index := guardianSet]), UpgradeSwitch(guardianSet.index))
    case UpgradeSwitch(index) => (s.(current := index), Finished(Upgraded))
    case Finished(_) => (s, t)
  }

  // ----- systems and executions

  datatype System = System(stores: Stores, tasks: seq<Task>)

  datatype Action =
    | SpawnObserve(gsi: U32, body: VaaBody)
    | SpawnSubmit(id: Hash, sig: GuardianSignature)
    | SpawnUpgrade(guardianSet: GuardianSet)
    | Run(task: nat, now: I64)

  ghost predicate Initial(sys: System) {
    sys.tasks == [] && InitialStores(sys.stores)
  }

  /** A registry upgrade may only insert an index that is not yet there. */
  predicate Enabled(sys: System, a: Action) {
    a.Run? ==>
      && a.task < |sys.tasks|
      && (sys.tasks[a.task].UpgradeInsert? ==> sys.tasks[a.task].guardianSet.index !in sys.stores.sets)
  }

  function Apply(c: Crypto, sys: System, a: Action): System
    requires Enabled(sys, a)
  {
    match a
    case SpawnObserve(gsi, body) => sys.(tasks := sys.tasks + [ObserveCheckDone(gsi, body)])
    case SpawnSubmit(id, sig) => sys.(tasks := sys.tasks + [SubmitLoad(id, sig)])
    case SpawnUpgrade(guardianSet) => sys.(tasks := sys.tasks + [UpgradeInsert(guardianSet)])
    case Run(task, now) =>
      var (stores, t) := Advance(c, sys.stores, sys.tasks[task], now);
      System(stores, sys.tasks[task := t])
  }

  /** A finite schedule with the states it passes through. */
  ghost predicate Execution(c: Crypto, states: seq<System>, actions: seq<Action>) {
    && |states| == |actions| + 1
    && Initial(states[0])
    && forall k :: 0 <= k < |actions| ==>
          Enabled(states[k], actions[k]) && states[k + 1] == Apply(c, states[k], actions[k])
  }

  // ----- the invariant

  ghost predicate PendingGood(c: Crypto, sets: map<U32, GuardianSet>, p: PendingObservation) {
    && p.message.id == Digest(c, p.message.body)
    && p.message.guardianSetIndex in sets
    && p.guardianCount == |sets[p.message.guardianSetIndex].keys|
    && Ascending(p.signatures)
    && AllValid(c, p.message.id, sets[p.message.guardianSetIndex].keys, p.signatures)
  }

  /** A stored observation has not reached quorum. */
  ghost predicate HeldGood(c: Crypto, sets: map<U32, GuardianSet>, p: PendingObservation) {
    PendingGood(c, sets, p) && |p.signatures| < p.Needed()
  }

  /** A completed record carries exactly a quorum of ascending valid signatures over its id. */
  ghost predicate RecordGood(c: Crypto, sets: map<U32, GuardianSet>, r: VaaRecord) {
    && r.vaa.version == SUPPORTED_VERSION
    && r.id == Digest(c, r.vaa.body)
    && r.vaa.guardianSetIndex in sets
    && Ascending(r.vaa.signatures)
    && AllValid(c, r.id, sets[r.vaa.guardianSetIndex].keys, r.vaa.signatures)
    && |r.vaa.signatures| == Quorum(|sets[r.vaa.guardianSetIndex].keys|)
  }

  ghost predicate StoresGood(c: Crypto, s: Stores) {
    && (forall id :: id in s.pending ==> s.pending[id].message.id == id && HeldGood(c, s.sets, s.pending[id]))
    && (forall id :: id in s.vaas ==> s.vaas[id].id == id && RecordGood(c, s.sets, s.vaas[id]))
    && (forall i :: i in s.sets ==> s.sets[i].index == i)
  }

  /** In-flight local copies are as good as the stores, and no task has failed its final
      verification. */
  ghost predicate TaskGood(c: Crypto, sets: map<U32, GuardianSet>, t: Task) {
    match t
    case ObserveStore(p) => HeldGood(c, sets, p)
    case SubmitResolve(id, _, p) => p.message.id == id && HeldGood(c, sets, p)
    case SubmitAnnounce(id, index, p, keys) =>
      && p.message.id == id && PendingGood(c, sets, p) && |p.signatures| <= p.Needed()
      && index in Signers(p.signatures)
      && keys == sets[p.message.guardianSetIndex].keys
    case SubmitKeep(p) => HeldGood(c, sets, p)
    case SubmitSave(r) => RecordGood(c, sets, r)
    case Finished(Submitted(Err(e))) => !e.FailedVerification?
    case _ => true
  }

  ghost predicate Good(c: Crypto, sys: System) {
    && StoresGood(c, sys.stores)
    && forall k :: 0 <= k < |sys.tasks| ==> TaskGood(c, sys.stores.sets, sys.tasks[k])
  }

  lemma GoodRecordVerifies(c: Crypto, sets: map<U32, GuardianSet>, r: VaaRecord)
    requires RecordGood(c, sets, r)
    ensures Verify(c, r.vaa, sets[r.vaa.guardianSetIndex].keys) == None
  {
    AscendingSigners(r.vaa.signatures);
    VerifyMeansQuorum(c, r.vaa, sets[r.vaa.guardianSetIndex].keys);
  }

  lemma ScreenPassed(c: Crypto, id: Hash, p: PendingObservation, keys: seq<Address>, sig: GuardianSignature)
    ensures Screen(c, id, p, keys, sig) == None
        <==> SignatureValid(c, id, keys, sig) && sig.guardianIndex !in Signers(p.signatures)
  {
    if p.HasGuardian(sig.guardianIndex) {
      var k :| 0 <= k < |p.signatures| && p.signatures[k].guardianIndex == sig.guardianIndex;
      assert sig.guardianIndex in Signers(p.signatures);
    }
  }

  /** Adding a screened signature to a good observation leaves it good. */
  lemma WithKeepsGood(c: Crypto, sets: map<U32, GuardianSet>, p: PendingObservation, sig: GuardianSignature)
    requires HeldGood(c, sets, p)
    requires Screen(c, p.message.id, p, sets[p.message.guardianSetIndex].keys, sig) == None
    ensures PendingGood(c, sets, p.With(sig)) && |p.With(sig).signatures| == |p.signatures| + 1
    ensures Signers(p.With(sig).signatures) == Signers(p.signatures) + {sig.guardianIndex}
  {
    var keys := sets[p.message.guardianSetIndex].keys;
    ScreenPassed(c, p.message.id, p, keys, sig);
    InsertAddsOne(p.signatures, sig);
    forall k | 0 <= k < |p.With(sig).signatures|
      ensures SignatureValid(c, p.message.id, keys, p.With(sig).signatures[k])
    {
      assert p.With(sig).signatures[k] in ElementSet(p.With(sig).signatures);
    }
  }

  lemma AssembleGood(c: Crypto, sets: map<U32, GuardianSet>, p: PendingObservation, now: I64)
    requires PendingGood(c, sets, p) && |p.signatures| == p.Needed()
    ensures RecordGood(c, sets, VaaRecord(p.message.id, Assemble(p), now))
    ensures Verify(c, Assemble(p), sets[p.message.guardianSetIndex].keys) == None
  {
    GoodRecordVerifies(c, sets, VaaRecord(p.message.id, Assemble(p), now));
  }

  lemma PutPendingGood(c: Crypto, s: Stores, p: PendingObservation)
    requires StoresGood(c, s) && HeldGood(c, s.sets, p)
    ensures StoresGood(c, s.(pending := s.pending[p.message.id := p]))
  {}

  lemma DropPendingGood(c: Crypto, s: Stores, id: Hash)
    requires StoresGood(c, s)
    ensures StoresGood(c, s.(pending := s.pending - {id}))
  {}

  lemma PutRecordGood(c: Crypto, s: Stores, r: VaaRecord)
    requires StoresGood(c, s) && RecordGood(c, s.sets, r)
    ensures StoresGood(c, s.(vaas := s.vaas[r.id := r]))
  {}

  lemma PutSetGood(c: Crypto, s: Stores, guardianSet: GuardianSet)
    requires StoresGood(c, s) && guardianSet.index !in s.sets
    ensures StoresGood(c, s.(sets := s.sets[guardianSet.index := guardianSet]))
  {
    var sets' := s.sets[guardianSet.index := guardianSet];
    forall id | id in s.pending ensures HeldGood(c, sets', s.pending[id]) {}
    forall id | id in s.vaas ensures RecordGood(c, sets', s.vaas[id]) {}
  }

  ghost predicate Extends(sets: map<U32, GuardianSet>, sets': map<U32, GuardianSet>) {
    forall i :: i in sets ==> i in sets' && sets'[i] == sets[i]
  }

  /** The stores and the running task stay good; existing guardian sets do not change. */
  lemma AdvanceKeepsGood(c: Crypto, s: Stores, t: Task, now: I64)
    requires StoresGood(c, s) && TaskGood(c, s.sets, t)
    requires t.UpgradeInsert? ==> t.guardianSet.index !in s.sets
    ensures var r := Advance(c, s, t, now); StoresGood(c, r.0) && TaskGood(c, r.0.sets, r.1)
  {
    match t
    case ObserveStore(p) => PutPendingGood(c, s, p);
    case SubmitResolve(id, sig, p) =>
      if Screen(c, id, p, s.sets[p.message.guardianSetIndex].keys, sig) == None {
        WithKeepsGood(c, s.sets, p, sig);
      }
    case SubmitAnnounce(id, index, p, keys) =>
      if p.QuorumReached() {
        AssembleGood(c, s.sets, p, now);
      }
    case SubmitKeep(p) => PutPendingGood(c, s, p);
    case SubmitSave(r) => PutRecordGood(c, s, r);
    case SubmitClear(id, _) => DropPendingGood(c, s, id);
    case UpgradeInsert(guardianSet) => PutSetGood(c, s, guardianSet);
    case _ =>
  }

  lemma AdvanceExtends(c: Crypto, s: Stores, t: Task, now: I64)
    requires t.UpgradeInsert? ==> t.guardianSet.index !in s.sets
    ensures Extends(s.sets, Advance(c, s, t, now).0.sets)
    ensures s.vaas.Keys <= Advance(c, s, t, now).0.vaas.Keys
  {}

  lemma GoodUnderMoreSets(c: Crypto, sets: map<U32, GuardianSet>, sets': map<U32, GuardianSet>, t: Task)
    requires TaskGood(c, sets, t)
    requires Extends(sets, sets')
    ensures TaskGood(c, sets', t)
  {}

  lemma {:induction false} ApplyKeepsGood(c: Crypto, sys: System, a: Action)
    requires Good(c, sys) && Enabled(sys, a)
    ensures Good(c, Apply(c, sys, a))
  {
    if a.Run? {
      var sys' := Apply(c, sys, a);
      AdvanceKeepsGood(c, sys.stores, sys.tasks[a.task], a.now);
      AdvanceExtends(c, sys.stores, sys.tasks[a.task], a.now);
      forall k | 0 <= k < |sys'.tasks|
        ensures TaskGood(c, sys'.stores.sets, sys'.tasks[k])
      {
        if k != a.task {
          GoodUnderMoreSets(c, sys.stores.sets, sys'.stores.sets, sys.tasks[k]);
        }
      }
    }
  }

  lemma {:induction false} ExecutionGood(c: Crypto, states: seq<System>, actions: seq<Action>, k: nat)
    requires Execution(c, states, actions) && k < |states|
    ensures Good(c, states[k])
  {
    if k > 0 {
      ExecutionGood(c, states, actions, k - 1);
      assert states[k - 1 + 1] == Apply(c, states[k - 1], actions[k - 1]);
      ApplyKeepsGood(c, states[k - 1], actions[k - 1]);
    }
  }

  /** Safety under every schedule of any number of tasks: in each state passed, each saved
      record is stored under the digest of its body, carries exactly a quorum of strictly
      ascending valid signatures of a registered set, and verifies; each stored observation
      is for the digest it is stored under and holds strictly ascending valid signatures of a
      registered set, fewer than its quorum; and the engine's final verification has failed
      in no task. */
  lemma SafeUnderEverySchedule(c: Crypto, states: seq<System>, actions: seq<Action>, k: nat)
    requires Execution(c, states, actions) && k < |states|
    ensures var s := states[k].stores;
            forall id :: id in s.vaas ==>
              var r := s.vaas[id];
              && id == r.id == Digest(c, r.vaa.body) == c.keccak(c.keccak(EncodeBody(r.vaa.body)))
              && r.vaa.version == SUPPORTED_VERSION
              && r.vaa.guardianSetIndex in s.sets
              && var keys := s.sets[r.vaa.guardianSetIndex].keys;
                 && Ascending(r.vaa.signatures)
                 && AllValid(c, id, keys, r.vaa.signatures)
                 && |r.vaa.signatures| == Quorum(|keys|)
                 && Verify(c, r.vaa, keys) == None
    ensures var s := states[k].stores;
            forall id :: id in s.pending ==>
              var p := s.pending[id];
              && id == p.message.id == Digest(c, p.message.body)
              && p.message.guardianSetIndex in s.sets
              && var keys := s.sets[p.message.guardianSetIndex].keys;
                 && p.guardianCount == |keys|
                 && Ascending(p.signatures)
                 && AllValid(c, id, keys, p.signatures)
                 && |p.signatures| < Quorum(|keys|)
    ensures forall i, e :: 0 <= i < |states[k].tasks| ==> states[k].tasks[i] != Failed(FailedVerification(e))
  {
    ExecutionGood(c, states, actions, k);
    var s := states[k].stores;
    forall id | id in s.vaas
      ensures Verify(c, s.vaas[id].vaa, s.sets[s.vaas[id].vaa.guardianSetIndex].keys) == None
    {
      GoodRecordVerifies(c, s.sets, s.vaas[id]);
    }
    forall i, e | 0 <= i < |states[k].tasks|
      ensures states[k].tasks[i] != Failed(FailedVerification(e))
    {
      assert TaskGood(c, s.sets, states[k].tasks[i]);
    }
  }

  /** A completed id stays completed in every later state of the schedule. */
  lemma {:induction false} CompletedStays(c: Crypto, states: seq<System>, actions: seq<Action>, j: nat, k: nat)
    requires Execution(c, states, actions) && j <= k < |states|
    ensures states[j].stores.vaas.Keys <= states[k].stores.vaas.Keys
    decreases k
  {
    if j < k {
      CompletedStays(c, states, actions, j, k - 1);
      var before, a := states[k - 1], actions[k - 1];
      assert Enabled(before, a) && states[k - 1 + 1] == Apply(c, before, a);
      if a.Run? {
        AdvanceExtends(c, before.stores, before.tasks[a.task], a.now);
      }
    }
  }

  /** A registered guardian set never changes afterwards. */
  lemma {:induction false} SetsStay(c: Crypto, states: seq<System>, actions: seq<Action>, j: nat, k: nat)
    requires Execution(c, states, actions) && j <= k < |states|
    ensures Extends(states[j].stores.sets, states[k].stores.sets)
    decreases k
  {
    if j < k {
      SetsStay(c, states, actions, j, k - 1);
      var before, a := states[k - 1], actions[k - 1];
      assert Enabled(before, a) && states[k - 1 + 1] == Apply(c, before, a);
      if a.Run? {
        AdvanceExtends(c, before.stores, before.tasks[a.task], a.now);
      }
    }
  }

  // ----- a task without interruption is the serial operation

  /** Steps a task has left, at most. */
  ghost function Rank(t: Task): nat {
    match t
    case ObserveCheckDone(_, _) => 5
    case ObserveCheckPending(_, _) => 4
    case ObserveResolve(_, _) => 3
    case ObserveStore(_) => 2
    case ObserveAnnounce(_) => 1
    case SubmitLoad(_, _) => 6
    case SubmitResolve(_, _, _) => 5
    case SubmitAnnounce(_, _, _, _) => 4
    case SubmitKeep(_) => 1
    case SubmitSave(_) => 3
    case SubmitClear(_, _) => 2
    case SubmitFinish(_, _) => 1
    case UpgradeInsert(_) => 2
    case UpgradeSwitch(_) => 1
    case Finished(_) => 0
  }

  ghost function RunToEnd(c: Crypto, s: Stores, t: Task, now: I64): (Stores, Task)
    decreases Rank(t)
  {
    if t.Finished? then (s, t)
    else
      var (s', t') := Advance(c, s, t, now);
      RunToEnd(c, s', t', now)
  }

  lemma OneStep(c: Crypto, s: Stores, t: Task, now: I64)
    requires !t.Finished?
    ensures RunToEnd(c, s, t, now) == RunToEnd(c, Advance(c, s, t, now).0, Advance(c, s, t, now).1, now)
  {}

  lemma ObserveUninterrupted(c: Crypto, s: Stores, gsi: U32, body: VaaBody, now: I64)
    ensures RunToEnd(c, s, ObserveCheckDone(gsi, body), now)
         == (Observe(c, s, gsi, body, now).0, Finished(Observed(Observe(c, s, gsi, body, now).1)))
  {
    var id := Digest(c, body);
    OneStep(c, s, ObserveCheckDone(gsi, body), now);
    OneStep(c, s, ObserveCheckPending(gsi, body), now);
    OneStep(c, s, ObserveResolve(gsi, body), now);
    if gsi in s.sets {
      var p := NewPending(c, gsi, body, |s.sets[gsi].keys|, now);
      var s1 := s.(pending := s.pending[id := p]);
      OneStep(c, s, ObserveStore(p), now);
      OneStep(c, s1, ObserveAnnounce(id), now);
    }
  }

  lemma AcceptUninterrupted(c: Crypto, s: Stores, id: Hash, p: PendingObservation, index: Byte, keys: seq<Address>,
                            now: I64)
    requires p.message.id == id
    ensures RunToEnd(c, s, SubmitAnnounce(id, index, p, keys), now)
         == (Accept(c, s, id, p, index, keys, now).0, Finished(Submitted(Accept(c, s, id, p, index, keys, now).1)))
  {
    var s1 := s.(events := s.events + [CollectedEvent(id, index, p)]);
    var vaa := Assemble(p);
    OneStep(c, s, SubmitAnnounce(id, index, p, keys), now);
    if !p.QuorumReached() {
      OneStep(c, s1, SubmitKeep(p), now);
    } else if Verify(c, vaa, keys) == None {
      var r := VaaRecord(id, vaa, now);
      var s2 := s1.(vaas := s1.vaas[id := r]);
      var s3 := s2.(pending := s2.pending - {id});
      OneStep(c, s1, SubmitSave(r), now);
      OneStep(c, s2, SubmitClear(id, vaa), now);
      OneStep(c, s3, SubmitFinish(id, vaa), now);
    }
  }

  lemma SubmitUninterrupted(c: Crypto, s: Stores, id: Hash, sig: GuardianSignature, now: I64)
    requires id in s.pending ==> s.pending[id].message.id == id
    ensures RunToEnd(c, s, SubmitLoad(id, sig), now)
         == (Submit(c, s, id, sig, now).0, Finished(Submitted(Submit(c, s, id, sig, now).1)))
  {
    OneStep(c, s, SubmitLoad(id, sig), now);
    if id in s.pending {
      var p := s.pending[id];
      OneStep(c, s, SubmitResolve(id, sig, p), now);
      if p.message.guardianSetIndex in s.sets {
        var keys := s.sets[p.message.guardianSetIndex].keys;
        if Screen(c, id, p, keys, sig) == None {
          AcceptUninterrupted(c, s, id, p.With(sig), sig.guardianIndex, keys, now);
        }
      }
    }
  }

  /** Running a good task to its end leaves good stores. */
  lemma {:induction false} RunToEndKeepsGood(c: Crypto, s: Stores, t: Task, now: I64)
    requires StoresGood(c, s) && TaskGood(c, s.sets, t)
    requires t.UpgradeInsert? ==> t.guardianSet.index !in s.sets
    ensures var r := RunToEnd(c, s, t, now); StoresGood(c, r.0) && TaskGood(c, r.0.sets, r.1)
    decreases Rank(t)
  {
    if !t.Finished? {
      AdvanceKeepsGood(c, s, t, now);
      var r := Advance(c, s, t, now);
      RunToEndKeepsGood(c, r.0, r.1, now);
    }
  }
}
