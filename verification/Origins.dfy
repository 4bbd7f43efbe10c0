/** Where the contents of the engine's stores come from: in serial runs, from the calls alone; under
    every schedule, from the observations that were started. */
module Origins {
  import opened Prelude
  import opened Vaa
  import opened VaaCodec
  import opened Agreement
  import opened Domain
  import opened Engine
  import opened Interleaving
  import opened EngineRuns
  import opened Schedules

  // ----- the registry

  /** The guardian set is there at first or is inserted by one of the calls. */
  ghost predicate Registered(s: Stores, calls: seq<Call>, gsi: int) {
    gsi in s.sets || exists k :: 0 <= k < |calls| && calls[k].UpgradeCall? && calls[k].guardianSet.index == gsi
  }

  lemma RegisteredStep(s: Stores, calls: seq<Call>, gsi: int)
    requires calls != []
    ensures var n := |calls| - 1;
            Registered(s, calls, gsi)
            <==> Registered(s, calls[..n], gsi) || (calls[n].UpgradeCall? && calls[n].guardianSet.index == gsi)
  {
    var n := |calls| - 1;
    if k :| 0 <= k < n && calls[k].UpgradeCall? && calls[k].guardianSet.index == gsi {
      assert calls[..n][k] == calls[k];
    }
  }

  lemma OnlyUpgradesRegister(c: Crypto, s: Stores, call: Call)
    ensures var t := ApplyCall(c, s, call);
            if call.UpgradeCall? then
              t.sets == s.sets[call.guardianSet.index := call.guardianSet] && t.current == call.guardianSet.index
            else t.sets == s.sets && t.current == s.current
  {}

  lemma {:induction false} RegisteredSets(c: Crypto, s: Stores, calls: seq<Call>)
    requires FreshUpgrades(c, s, calls)
    ensures Extends(s.sets, RunCalls(c, s, calls).sets)
    ensures forall i :: i in RunCalls(c, s, calls).sets <==> Registered(s, calls, i)
  {
    if calls != [] {
      var n := |calls| - 1;
      RegisteredSets(c, s, calls[..n]);
      OnlyUpgradesRegister(c, RunCalls(c, s, calls[..n]), calls[n]);
      forall i ensures i in RunCalls(c, s, calls).sets <==> Registered(s, calls, i) {
        RegisteredStep(s, calls, i);
      }
    }
  }

  lemma {:induction false} InsertedSets(c: Crypto, s: Stores, calls: seq<Call>)
    requires FreshUpgrades(c, s, calls)
    ensures forall k :: 0 <= k < |calls| && calls[k].UpgradeCall? ==>
              calls[k].guardianSet.index in RunCalls(c, s, calls).sets
              && RunCalls(c, s, calls).sets[calls[k].guardianSet.index] == calls[k].guardianSet
  {
    if calls != [] {
      var n := |calls| - 1;
      InsertedSets(c, s, calls[..n]);
      OnlyUpgradesRegister(c, RunCalls(c, s, calls[..n]), calls[n]);
      assert forall k :: 0 <= k < n ==> calls[..n][k] == calls[k];
    }
  }

  /** The position of the last upgrade among the calls, -1 when there is none. */
  ghost function LastUpgrade(calls: seq<Call>): (k: int)
    ensures -1 <= k < |calls|
    ensures k >= 0 ==> calls[k].UpgradeCall?
    ensures forall j :: k < j < |calls| ==> !calls[j].UpgradeCall?
  {
    if calls == [] then -1
    else if calls[|calls| - 1].UpgradeCall? then |calls| - 1
    else LastUpgrade(calls[..|calls| - 1])
  }

  /** The registry after a serial run: the sets it held at first and those inserted, unchanged;
      the current one is the last inserted. */
  lemma {:induction false} RegistryFromCalls(c: Crypto, s: Stores, calls: seq<Call>)
    requires FreshUpgrades(c, s, calls)
    ensures var t := RunCalls(c, s, calls);
            && Extends(s.sets, t.sets)
            && (forall i :: i in t.sets <==> Registered(s, calls, i))
            && (forall k :: 0 <= k < |calls| && calls[k].UpgradeCall? ==>
                  calls[k].guardianSet.index in t.sets
                  && t.sets[calls[k].guardianSet.index] == calls[k].guardianSet)
            && t.current == if LastUpgrade(calls) < 0 then s.current else calls[LastUpgrade(calls)].guardianSet.index
  {
    RegisteredSets(c, s, calls);
    InsertedSets(c, s, calls);
    CurrentFromCalls(c, s, calls);
  }

  lemma {:induction false} CurrentFromCalls(c: Crypto, s: Stores, calls: seq<Call>)
    ensures RunCalls(c, s, calls).current
         == if LastUpgrade(calls) < 0 then s.current else calls[LastUpgrade(calls)].guardianSet.index
  {
    if calls != [] {
      var n := |calls| - 1;
      CurrentFromCalls(c, s, calls[..n]);
      OnlyUpgradesRegister(c, RunCalls(c, s, calls[..n]), calls[n]);
    }
  }

  // ----- the call that announces a message

  predicate Observes(c: Crypto, call: Call, id: Hash) {
    call.ObserveCall? && Digest(c, call.body) == id
  }

  /** Call k observes the message and names a guardian set registered by then. */
  ghost predicate CanOpen(c: Crypto, s: Stores, calls: seq<Call>, k: nat, id: Hash)
    requires k < |calls|
  {
    Observes(c, calls[k], id) && Registered(s, calls[..k], calls[k].gsi)
  }

  /** It is the first such call. */
  ghost predicate Opens(c: Crypto, s: Stores, calls: seq<Call>, k: int, id: Hash) {
    0 <= k < |calls| && CanOpen(c, s, calls, k, id) && forall j :: 0 <= j < k ==> !CanOpen(c, s, calls, j, id)
  }

  lemma OtherCallStores(c: Crypto, t: Stores, call: Call, id: Hash)
    requires StoresGood(c, t) && !Stored(t, id)
    requires Observes(c, call, id) ==> call.gsi !in t.sets
    ensures !Stored(ApplyCall(c, t, call), id)
  {
    if call.SubmitCall? {
      SubmitEffect(c, t, call.id, call.sig, call.now);
    }
  }

  lemma {:induction false} NotOpened(c: Crypto, s: Stores, calls: seq<Call>, id: Hash)
    requires SerialGood(c, s) && FreshUpgrades(c, s, calls) && !Stored(s, id)
    requires forall k :: 0 <= k < |calls| ==> !CanOpen(c, s, calls, k, id)
    ensures !Stored(RunCalls(c, s, calls), id)
  {
    if calls != [] {
      var n := |calls| - 1;
      var before := calls[..n];
      forall k | 0 <= k < n ensures !CanOpen(c, s, before, k, id) {
        assert before[..k] == calls[..k] && !CanOpen(c, s, calls, k, id);
      }
      NotOpened(c, s, before, id);
      RunGood(c, s, before);
      RegistryFromCalls(c, s, before);
      assert !CanOpen(c, s, calls, n, id);
      OtherCallStores(c, RunCalls(c, s, before), calls[n], id);
    }
  }

  lemma {:induction false} BeforeOpening(c: Crypto, s: Stores, calls: seq<Call>, k: nat, id: Hash)
    requires SerialGood(c, s) && FreshUpgrades(c, s, calls) && !Stored(s, id) && Opens(c, s, calls, k, id)
    ensures FreshUpgrades(c, s, calls[..k])
    ensures var t := RunCalls(c, s, calls[..k]); !Stored(t, id) && calls[k].gsi in t.sets
  {
    var first := calls[..k];
    FreshUpgradesSplit(c, s, calls, k);
    forall j | 0 <= j < k ensures !CanOpen(c, s, first, j, id) {
      assert first[..j] == calls[..j] && !CanOpen(c, s, calls, j, id);
    }
    NotOpened(c, s, first, id);
    RegisteredSets(c, s, first);
  }

  lemma {:induction false} RunFrom(c: Crypto, s: Stores, calls: seq<Call>, k: nat)
    requires SerialGood(c, s) && FreshUpgrades(c, s, calls) && k <= |calls|
    ensures var t := RunCalls(c, s, calls[..k]);
            && SerialGood(c, t) && FreshUpgrades(c, t, calls[k..])
            && RunCalls(c, s, calls) == RunCalls(c, t, calls[k..])
  {
    FreshUpgradesSplit(c, s, calls, k);
    RunGood(c, s, calls[..k]);
    assert calls == calls[..k] + calls[k..];
    RunCallsSplit(c, s, calls[..k], calls[k..]);
  }

  /** What the opening call leaves behind. */
  lemma {:induction false} OpenedPrefix(c: Crypto, s: Stores, calls: seq<Call>, k: nat, id: Hash)
    requires SerialGood(c, s) && FreshUpgrades(c, s, calls) && !Stored(s, id) && Opens(c, s, calls, k, id)
    ensures var t, call := RunCalls(c, s, calls[..k + 1]), calls[k];
            && call.gsi in t.sets && id in t.pending
            && t.pending[id] == NewPending(c, call.gsi, call.body, |t.sets[call.gsi].keys|, call.now)
  {
    BeforeOpening(c, s, calls, k, id);
    assert calls[..k + 1][..k] == calls[..k];
    assert RunCalls(c, s, calls[..k + 1]) == ApplyCall(c, RunCalls(c, s, calls[..k]), calls[k]);
  }

  lemma {:induction false} StoredIffOpened(c: Crypto, s: Stores, calls: seq<Call>, id: Hash)
    requires SerialGood(c, s) && FreshUpgrades(c, s, calls) && !Stored(s, id)
    ensures Stored(RunCalls(c, s, calls), id) <==> exists k :: Opens(c, s, calls, k, id)
  {
    if k :| Opens(c, s, calls, k, id) {
      OpenedPrefix(c, s, calls, k, id);
      RunFrom(c, s, calls, k + 1);
      HoldsFirstQuorum(c, RunCalls(c, s, calls[..k + 1]), calls[k + 1..], id);
    } else {
      if k :| 0 <= k < |calls| && CanOpen(c, s, calls, k, id) {
        var first := FirstOpening(c, s, calls, k, id);
        assert false;
      }
      NotOpened(c, s, calls, id);
    }
  }

  lemma {:induction false} FirstOpening(c: Crypto, s: Stores, calls: seq<Call>, k: nat, id: Hash) returns (first: nat)
    requires k < |calls| && CanOpen(c, s, calls, k, id)
    ensures Opens(c, s, calls, first, id)
  {
    if j :| 0 <= j < k && CanOpen(c, s, calls, j, id) {
      first := FirstOpening(c, s, calls, j, id);
    } else {
      first := k;
    }
  }

  /** The stores of a serial run, told by its calls. A message not stored at first is stored in the
      end exactly when some call observes it and names a guardian set registered by then; the
      first such call gives it its guardian set, body and observation time. The signatures held
      are the first valid ones of distinct guardians of that set among the later calls, in
      ascending order, and it is completed exactly when they are a quorum. */
  lemma {:induction false} MessageFromCalls(c: Crypto, s: Stores, calls: seq<Call>, id: Hash, k: int)
    requires SerialGood(c, s) && FreshUpgrades(c, s, calls) && !Stored(s, id)
    ensures Stored(RunCalls(c, s, calls), id) <==> exists j :: Opens(c, s, calls, j, id)
    ensures Opens(c, s, calls, k, id) ==>
              var t, call, later := RunCalls(c, s, calls), calls[k], calls[k + 1..];
              && call.gsi in t.sets
              && var keys := t.sets[call.gsi].keys;
                 && Stored(t, id) && Ascending(HeldFor(t, id))
                 && ElementSet(HeldFor(t, id)) == FirstQuorum(c, keys, id, {}, later)
                 && (id in t.vaas <==> |Indices(ValidSubmissions(c, keys, id, later))| >= Quorum(|keys|))
                 && (if id in t.vaas then t.vaas[id].vaa == Vaa(1, call.gsi, HeldFor(t, id), call.body)
                     else t.pending[id] == PendingObservation(ObservedMessage(id, call.gsi, call.body, call.now),
                                                              HeldFor(t, id), |keys|))
  {
    StoredIffOpened(c, s, calls, id);
    if Opens(c, s, calls, k, id) {
      OpenedPrefix(c, s, calls, k, id);
      RunFrom(c, s, calls, k + 1);
      var mid, later := RunCalls(c, s, calls[..k + 1]), calls[k + 1..];
      var keys := mid.sets[calls[k].gsi].keys;
      HoldsFirstQuorum(c, mid, later, id);
      CompletesIffQuorumSubmitted(c, mid, later, id);
      RunGood(c, mid, later);
      assert ElementSet(mid.pending[id].signatures) == {};
      assert {} + ValidSubmissions(c, keys, id, later) == ValidSubmissions(c, keys, id, later);
    }
  }

  /** An observation after any calls: it replies and stores the message exactly as the calls so far
      decide; a message not announced yet is stored exactly when its guardian set is registered. */
  lemma {:induction false} ObserveReplies(c: Crypto, s: Stores, calls: seq<Call>, gsi: U32, body: VaaBody, now: I64)
    requires InitialStores(s) && FreshUpgrades(c, s, calls)
    ensures var id, t := Digest(c, body), RunCalls(c, s, calls);
            var (t', reply) := Observe(c, t, gsi, body, now);
            if id in Announced(t.events) then
              t' == t && reply == if id in t.vaas then Err(AlreadyCompleted) else Ok(id)
            else
              && id !in t.pending && id !in t.vaas
              && (id in t'.pending <==> Registered(s, calls, gsi))
              && id !in t'.vaas
              && reply == (if Registered(s, calls, gsi) then Ok(id) else Err(GuardianSetUnavailable))
              && (id in t'.pending ==>
                    && gsi in t.sets
                    && t'.pending[id] == PendingObservation(ObservedMessage(id, gsi, body, now), [], |t.sets[gsi].keys|)
                    && t'.events == t.events + [MessageObserved(id)])
  {
    InitialGood(c, s);
    RunGood(c, s, calls);
    RegistryFromCalls(c, s, calls);
  }

  // ----- availability

  /** Every guardian that is not faulty submits a valid signature. */
  ghost predicate OthersSubmit(c: Crypto, keys: seq<Address>, id: Hash, calls: seq<Call>, faulty: set<int>) {
    forall i :: 0 <= i < |keys| && i !in faulty ==>
      exists k :: 0 <= k < |calls| && ValidFor(c, keys, id, calls[k]) && calls[k].sig.guardianIndex == i
  }

  lemma OthersAreOffered(c: Crypto, keys: seq<Address>, id: Hash, calls: seq<Call>, faulty: set<int>)
    requires OthersSubmit(c, keys, id, calls, faulty)
    ensures Everyone(|keys|) - faulty <= Indices(ValidSubmissions(c, keys, id, calls))
  {
    forall i | i in Everyone(|keys|) - faulty
      ensures i in Indices(ValidSubmissions(c, keys, id, calls))
    {
      var k :| 0 <= k < |calls| && ValidFor(c, keys, id, calls[k]) && calls[k].sig.guardianIndex == i;
      assert calls[k].sig in ValidSubmissions(c, keys, id, calls);
    }
  }

  /** Availability: when fewer than a third of the guardians of a pending message's set are faulty
      and all others submit a valid signature, in any order and whatever else is called, the
      message is completed, with a VAA that verifies. */
  lemma {:induction false} CompletesDespiteFaulty(c: Crypto, s: Stores, calls: seq<Call>, id: Hash, faulty: set<int>)
    requires SerialGood(c, s) && FreshUpgrades(c, s, calls) && id in s.pending
    requires var keys := s.sets[s.pending[id].message.guardianSetIndex].keys;
             && (forall i :: i in faulty ==> 0 <= i < |keys|) && 3 * |faulty| < |keys|
             && OthersSubmit(c, keys, id, calls, faulty)
    ensures var t := RunCalls(c, s, calls);
            && id in t.vaas && id !in t.pending
            && t.vaas[id].vaa.body == s.pending[id].message.body
            && Verify(c, t.vaas[id].vaa, s.sets[s.pending[id].message.guardianSetIndex].keys) == None
  {
    var p := s.pending[id];
    var keys := s.sets[p.message.guardianSetIndex].keys;
    var valid := ValidSubmissions(c, keys, id, calls);
    var offered := ElementSet(p.signatures) + valid;
    OthersAreOffered(c, keys, id, calls, faulty);
    HonestQuorumIffFewFaulty(faulty, |keys|);
    assert Indices(valid) <= Indices(offered);
    SubsetCardinality(Everyone(|keys|) - faulty, Indices(offered));
    CompletesIffQuorumSubmitted(c, s, calls, id);
    HoldsFirstQuorum(c, s, calls, id);
    RunGood(c, s, calls);
    GoodRecordVerifies(c, RunCalls(c, s, calls).sets, RunCalls(c, s, calls).vaas[id]);
  }

  // ----- every schedule

  /** Action i starts the observation task x for this guardian set and body. */
  ghost predicate Starts(states: seq<System>, actions: seq<Action>, i: int, x: nat, gsi: U32, body: VaaBody) {
    0 <= i < |actions| && i < |states| && actions[i] == SpawnObserve(gsi, body) && |states[i].tasks| == x
  }

  /** Action j is the step of task x that looks up the guardian set and reads the clock. */
  ghost predicate Resolves(states: seq<System>, actions: seq<Action>, j: int, x: nat, gsi: U32, body: VaaBody,
                           now: I64)
  {
    && 0 <= j < |actions| && j < |states| && actions[j] == Run(x, now)
    && x < |states[j].tasks| && states[j].tasks[x] == ObserveResolve(gsi, body) && gsi in states[j].stores.sets
  }

  /** Before step k, one observation task was started with the message's guardian set and body, and
      found that set registered at the message's observation time. */
  ghost predicate ComesFrom(states: seq<System>, actions: seq<Action>, k: nat, m: ObservedMessage) {
    exists i, j, x ::
      && i < j < k
      && Starts(states, actions, i, x, m.guardianSetIndex, m.body)
      && Resolves(states, actions, j, x, m.guardianSetIndex, m.body, m.observedAt)
  }

  ghost predicate RecordFrom(states: seq<System>, actions: seq<Action>, k: nat, r: VaaRecord) {
    exists m: ObservedMessage ::
      ComesFrom(states, actions, k, m) && m.guardianSetIndex == r.vaa.guardianSetIndex && m.body == r.vaa.body
  }

  ghost predicate Started(states: seq<System>, actions: seq<Action>, k: nat, x: nat, gsi: U32, body: VaaBody) {
    exists i :: i < k && Starts(states, actions, i, x, gsi, body)
  }

  ghost predicate TaskFrom(states: seq<System>, actions: seq<Action>, k: nat, x: nat, t: Task) {
    match t
    case ObserveCheckDone(gsi, body) => Started(states, actions, k, x, gsi, body)
    case ObserveCheckPending(gsi, body) => Started(states, actions, k, x, gsi, body)
    case ObserveResolve(gsi, body) => Started(states, actions, k, x, gsi, body)
    case ObserveStore(p) => ComesFrom(states, actions, k, p.message)
    case SubmitResolve(_, _, p) => ComesFrom(states, actions, k, p.message)
    case SubmitAnnounce(_, _, p, _) => ComesFrom(states, actions, k, p.message)
    case SubmitKeep(p) => ComesFrom(states, actions, k, p.message)
    case SubmitSave(r) => RecordFrom(states, actions, k, r)
    case _ => true
  }

  ghost predicate AllFrom(states: seq<System>, actions: seq<Action>, k: nat)
    requires k < |states|
  {
    var sys := states[k];
    && (forall x :: 0 <= x < |sys.tasks| ==> TaskFrom(states, actions, k, x, sys.tasks[x]))
    && (forall id :: id in sys.stores.pending ==> ComesFrom(states, actions, k, sys.stores.pending[id].message))
    && (forall id :: id in sys.stores.vaas ==> RecordFrom(states, actions, k, sys.stores.vaas[id]))
  }

  lemma ComesFromLater(states: seq<System>, actions: seq<Action>, k: nat, m: ObservedMessage)
    requires ComesFrom(states, actions, k, m)
    ensures ComesFrom(states, actions, k + 1, m)
  {
    var i, j, x :| && i < j < k
                   && Starts(states, actions, i, x, m.guardianSetIndex, m.body)
                   && Resolves(states, actions, j, x, m.guardianSetIndex, m.body, m.observedAt);
  }

  lemma RecordFromLater(states: seq<System>, actions: seq<Action>, k: nat, r: VaaRecord)
    requires RecordFrom(states, actions, k, r)
    ensures RecordFrom(states, actions, k + 1, r)
  {
    var m: ObservedMessage :|
      ComesFrom(states, actions, k, m) && m.guardianSetIndex == r.vaa.guardianSetIndex && m.body == r.vaa.body;
    ComesFromLater(states, actions, k, m);
  }

  lemma TaskFromLater(states: seq<System>, actions: seq<Action>, k: nat, x: nat, t: Task)
    requires TaskFrom(states, actions, k, x, t)
    ensures TaskFrom(states, actions, k + 1, x, t)
  {
    match t
    case ObserveStore(p) => ComesFromLater(states, actions, k, p.message);
    case SubmitResolve(_, _, p) => ComesFromLater(states, actions, k, p.message);
    case SubmitAnnounce(_, _, p, _) => ComesFromLater(states, actions, k, p.message);
    case SubmitKeep(p) => ComesFromLater(states, actions, k, p.message);
    case SubmitSave(r) => RecordFromLater(states, actions, k, r);
    case _ =>
  }

  lemma StoredByTask(c: Crypto, s: Stores, t: Task, now: I64, id: Hash)
    ensures var s' := Advance(c, s, t, now).0;
            && (id in s'.pending ==>
                  || (id in s.pending && s'.pending[id] == s.pending[id])
                  || ((t.ObserveStore? || t.SubmitKeep?) && s'.pending[id] == t.pending))
            && (id in s'.vaas ==>
                  || (id in s.vaas && s'.vaas[id] == s.vaas[id])
                  || (t.SubmitSave? && s'.vaas[id] == t.record))
  {}

  /** What the running task stores. */
  lemma {:induction false} StepFrom(c: Crypto, states: seq<System>, actions: seq<Action>, k: nat, id: Hash)
    requires k < |actions| && |states| == |actions| + 1 && AllFrom(states, actions, k)
    requires actions[k].Run? && actions[k].task < |states[k].tasks|
    ensures var s' := Advance(c, states[k].stores, states[k].tasks[actions[k].task], actions[k].now).0;
            && (id in s'.pending ==> ComesFrom(states, actions, k + 1, s'.pending[id].message))
            && (id in s'.vaas ==> RecordFrom(states, actions, k + 1, s'.vaas[id]))
  {
    var s, x := states[k].stores, actions[k].task;
    var t := states[k].tasks[x];
    assert TaskFrom(states, actions, k, x, t);
    StoredByTask(c, s, t, actions[k].now, id);
    TaskFromLater(states, actions, k, x, t);
    if id in s.pending { ComesFromLater(states, actions, k, s.pending[id].message); }
    if id in s.vaas { RecordFromLater(states, actions, k, s.vaas[id]); }
  }

  lemma {:induction false} NextFrom(c: Crypto, states: seq<System>, actions: seq<Action>, k: nat)
    requires k < |actions| && |states| == |actions| + 1 && AllFrom(states, actions, k)
    requires actions[k].Run? && actions[k].task < |states[k].tasks|
    ensures TaskFrom(states, actions, k + 1, actions[k].task,
                     Advance(c, states[k].stores, states[k].tasks[actions[k].task], actions[k].now).1)
  {
    var s, x, now := states[k].stores, actions[k].task, actions[k].now;
    var t := states[k].tasks[x];
    assert TaskFrom(states, actions, k, x, t);
    match t {
      case ObserveResolve(gsi, body) =>
        if gsi in s.sets {
          var i :| i < k && Starts(states, actions, i, x, gsi, body);
          assert Resolves(states, actions, k, x, gsi, body, now);
          assert ComesFrom(states, actions, k + 1, ObservedMessage(Digest(c, body), gsi, body, now));
        }
      case SubmitLoad(id, _) =>
        if id in s.pending { ComesFromLater(states, actions, k, s.pending[id].message); }
      case SubmitResolve(_, _, p) => ComesFromLater(states, actions, k, p.message);
      case SubmitAnnounce(_, _, p, _) => ComesFromLater(states, actions, k, p.message);
      case _ =>
    }
  }

  lemma {:induction false} AllFromStep(c: Crypto, states: seq<System>, actions: seq<Action>, k: nat)
    requires k < |actions| && |states| == |actions| + 1 && AllFrom(states, actions, k)
    requires Enabled(states[k], actions[k]) && states[k + 1] == Apply(c, states[k], actions[k])
    ensures AllFrom(states, actions, k + 1)
  {
    var sys, sys', a := states[k], states[k + 1], actions[k];
    forall x | 0 <= x < |sys'.tasks|
      ensures TaskFrom(states, actions, k + 1, x, sys'.tasks[x])
    {
      if a.Run? && x == a.task {
        NextFrom(c, states, actions, k);
      } else if x < |sys.tasks| {
        TaskFromLater(states, actions, k, x, sys.tasks[x]);
      } else if a.SpawnObserve? {
        assert Starts(states, actions, k, x, a.gsi, a.body);
      }
    }
    forall id | id in sys'.stores.pending
      ensures ComesFrom(states, actions, k + 1, sys'.stores.pending[id].message)
    {
      if a.Run? {
        StepFrom(c, states, actions, k, id);
      } else {
        ComesFromLater(states, actions, k, sys.stores.pending[id].message);
      }
    }
    forall id | id in sys'.stores.vaas
      ensures RecordFrom(states, actions, k + 1, sys'.stores.vaas[id])
    {
      if a.Run? {
        StepFrom(c, states, actions, k, id);
      } else {
        RecordFromLater(states, actions, k, sys.stores.vaas[id]);
      }
    }
  }

  lemma {:induction false} ExecutionFrom(c: Crypto, states: seq<System>, actions: seq<Action>, k: nat)
    requires Execution(c, states, actions) && k < |states|
    ensures AllFrom(states, actions, k)
  {
    if k > 0 {
      ExecutionFrom(c, states, actions, k - 1);
      assert states[k - 1 + 1] == Apply(c, states[k - 1], actions[k - 1]);
      AllFromStep(c, states, actions, k - 1);
    }
  }

  /** Under every schedule, whatever is stored for a message was brought in by one observation
      task: it was started with the guardian set and body stored, found that set registered at the
      observation time stored, and the guardian count stored is the size of that set. */
  lemma {:induction false} OriginUnderEverySchedule(c: Crypto, states: seq<System>, actions: seq<Action>, k: nat,
                                                    id: Hash)
    requires Execution(c, states, actions) && k < |states|
    ensures var s := states[k].stores;
            id in s.pending ==>
              var p := s.pending[id];
              && ComesFrom(states, actions, k, p.message)
              && p.message.id == id == Digest(c, p.message.body)
              && p.message.guardianSetIndex in s.sets
              && p.guardianCount == |s.sets[p.message.guardianSetIndex].keys|
    ensures var s := states[k].stores;
            id in s.vaas ==> RecordFrom(states, actions, k, s.vaas[id]) && id == Digest(c, s.vaas[id].vaa.body)
  {
    ExecutionFrom(c, states, actions, k);
    ExecutionGood(c, states, actions, k);
  }
}
