/** What the event log says under every schedule of the engine's tasks. */
module Schedules {
  import opened Prelude
  import opened Vaa
  import opened VaaCodec
  import opened Domain
  import opened Engine
  import opened Interleaving
  import opened EngineRuns

  predicate Stored(s: Stores, id: Hash) {
    id in s.pending || id in s.vaas
  }

  /** Guardian `index` of some registered set with quorum `needed` has signed `id` validly. */
  ghost predicate Signed(c: Crypto, sets: map<U32, GuardianSet>, id: Hash, index: Byte, needed: nat) {
    exists i, sig ::
      && i in sets && needed == Quorum(|sets[i].keys|)
      && SignatureValid(c, id, sets[i].keys, sig) && sig.guardianIndex == index
  }

  /** What an event tells is true. */
  ghost predicate EventTrue(c: Crypto, s: Stores, e: DomainEvent) {
    match e
    case MessageObserved(id) => Stored(s, id)
    case SignatureCollected(id, index, have, needed) =>
      Stored(s, id) && 1 <= have <= needed && Signed(c, s.sets, id, index, needed)
    case VaaAssembled(id) => id in s.vaas
  }

  /** The guardians whose signatures for `id` the log announces. */
  ghost function Told(log: seq<DomainEvent>, id: Hash): set<int> {
    set e | e in log && e.SignatureCollected? && e.id == id :: e.guardianIndex
  }

  lemma ToldAppend(log: seq<DomainEvent>, e: DomainEvent, id: Hash)
    ensures Told(log + [e], id)
         == Told(log, id) + (if e.SignatureCollected? && e.id == id then {e.guardianIndex} else {})
  {}

  /** The signatures a store or a task holds are announced, except one that the task is about
      to announce; and a task past its first store access works on a stored message. */
  ghost predicate TaskTold(s: Stores, t: Task) {
    match t
    case ObserveStore(p) => p.signatures == []
    case ObserveAnnounce(id) => Stored(s, id)
    case SubmitResolve(id, _, p) => Stored(s, id) && Signers(p.signatures) <= Told(s.events, id)
    case SubmitAnnounce(id, index, p, _) => Stored(s, id) && Signers(p.signatures) <= Told(s.events, id) + {index}
    case SubmitKeep(p) => Stored(s, p.message.id) && Signers(p.signatures) <= Told(s.events, p.message.id)
    case SubmitSave(r) => Stored(s, r.id) && Signers(r.vaa.signatures) <= Told(s.events, r.id)
    case SubmitClear(id, _) => id in s.vaas
    case SubmitFinish(id, _) => id in s.vaas
    case _ => true
  }

  ghost predicate StoresTold(s: Stores) {
    && (forall id :: id in s.pending ==> Signers(s.pending[id].signatures) <= Told(s.events, id))
    && (forall id :: id in s.vaas ==> Signers(s.vaas[id].vaa.signatures) <= Told(s.events, id))
  }

  ghost predicate Announcing(sys: System, id: Hash) {
    exists k :: 0 <= k < |sys.tasks| && sys.tasks[k] == ObserveAnnounce(id)
  }

  ghost predicate Logged(c: Crypto, sys: System) {
    && Good(c, sys)
    && StoresTold(sys.stores)
    && (forall e :: e in sys.stores.events ==> EventTrue(c, sys.stores, e))
    && (forall k :: 0 <= k < |sys.tasks| ==> TaskTold(sys.stores, sys.tasks[k]))
    && (forall id :: Stored(sys.stores, id) ==> id in Announced(sys.stores.events) || Announcing(sys, id))
  }

  /** A step of `t` forgets neither a message nor an announcement. */
  lemma StepKeeps(c: Crypto, s: Stores, t: Task, now: I64, id: Hash)
    requires TaskTold(s, t)
    requires t.UpgradeInsert? ==> t.guardianSet.index !in s.sets
    ensures var s' := Advance(c, s, t, now).0;
            && (Stored(s, id) ==> Stored(s', id))
            && (id in s.vaas ==> id in s'.vaas)
            && Told(s.events, id) <= Told(s'.events, id)
            && Announced(s.events) <= Announced(s'.events)
            && Extends(s.sets, s'.sets)
  {}

  lemma TaskStaysTold(c: Crypto, s: Stores, t: Task, now: I64, other: Task)
    requires TaskTold(s, t) && TaskTold(s, other)
    requires t.UpgradeInsert? ==> t.guardianSet.index !in s.sets
    ensures TaskTold(Advance(c, s, t, now).0, other)
  {
    match other
    case ObserveAnnounce(id) => StepKeeps(c, s, t, now, id);
    case SubmitResolve(id, _, _) => StepKeeps(c, s, t, now, id);
    case SubmitAnnounce(id, _, _, _) => StepKeeps(c, s, t, now, id);
    case SubmitKeep(p) => StepKeeps(c, s, t, now, p.message.id);
    case SubmitSave(r) => StepKeeps(c, s, t, now, r.id);
    case SubmitClear(id, _) => StepKeeps(c, s, t, now, id);
    case SubmitFinish(id, _) => StepKeeps(c, s, t, now, id);
    case _ =>
  }

  lemma EventStaysTrue(c: Crypto, s: Stores, t: Task, now: I64, e: DomainEvent)
    requires TaskTold(s, t) && EventTrue(c, s, e)
    requires t.UpgradeInsert? ==> t.guardianSet.index !in s.sets
    ensures EventTrue(c, Advance(c, s, t, now).0, e)
  {
    StepKeeps(c, s, t, now, e.id);
    if e.SignatureCollected? {
      var i, sig :| && i in s.sets && e.needed == Quorum(|s.sets[i].keys|)
                    && SignatureValid(c, e.id, s.sets[i].keys, sig) && sig.guardianIndex == e.guardianIndex;
      var sets' := Advance(c, s, t, now).0.sets;
      assert i in sets' && sets'[i] == s.sets[i];
    }
  }

  /** The events a step appends to the log. */
  function Publishes(t: Task): seq<DomainEvent> {
    match t
    case ObserveAnnounce(id) => [MessageObserved(id)]
    case SubmitAnnounce(id, index, p, _) => [CollectedEvent(id, index, p)]
    case SubmitFinish(id, _) => [VaaAssembled(id)]
    case _ => []
  }

  lemma Published(c: Crypto, s: Stores, t: Task, now: I64)
    ensures Advance(c, s, t, now).0.events == s.events + Publishes(t)
  {}

  /** An event that a step publishes is true, and speaks about a stored message. */
  lemma NewEventTrue(c: Crypto, s: Stores, t: Task, now: I64, e: DomainEvent)
    requires StoresGood(c, s) && TaskGood(c, s.sets, t) && TaskTold(s, t)
    requires e in Publishes(t)
    ensures EventTrue(c, Advance(c, s, t, now).0, e)
  {
    StepKeeps(c, s, t, now, e.id);
    if t.SubmitAnnounce? {
      var p := t.pending;
      var k :| 0 <= k < |p.signatures| && p.signatures[k].guardianIndex == t.index;
      assert SignatureValid(c, t.id, t.keys, p.signatures[k]);
    }
  }

  /** The running task and what it stores are told. */
  lemma StepTold(c: Crypto, s: Stores, t: Task, now: I64)
    requires TaskGood(c, s.sets, t) && TaskTold(s, t) && StoresTold(s)
    ensures var r := Advance(c, s, t, now); TaskTold(r.0, r.1)
  {
    match t
    case SubmitResolve(id, sig, p) =>
      if Screen(c, id, p, s.sets[p.message.guardianSetIndex].keys, sig) == None {
        WithKeepsGood(c, s.sets, p, sig);
      }
    case SubmitAnnounce(id, index, p, _) =>
      ToldAppend(s.events, CollectedEvent(id, index, p), id);
    case _ =>
  }

  lemma StoresStayTold(c: Crypto, s: Stores, t: Task, now: I64)
    requires TaskTold(s, t) && StoresTold(s)
    requires t.UpgradeInsert? ==> t.guardianSet.index !in s.sets
    ensures StoresTold(Advance(c, s, t, now).0)
  {
    var s' := Advance(c, s, t, now).0;
    forall id | id in s'.pending
      ensures Signers(s'.pending[id].signatures) <= Told(s'.events, id)
    {
      StepKeeps(c, s, t, now, id);
    }
    forall id | id in s'.vaas
      ensures Signers(s'.vaas[id].vaa.signatures) <= Told(s'.events, id)
    {
      StepKeeps(c, s, t, now, id);
    }
  }

  /** A message newly stored by a task is announced by its next step. */
  lemma NewlyStored(c: Crypto, s: Stores, t: Task, now: I64, id: Hash)
    requires TaskTold(s, t)
    requires Stored(Advance(c, s, t, now).0, id) && !Stored(s, id)
    ensures Advance(c, s, t, now).1 == ObserveAnnounce(id)
  {}

  lemma {:induction false} StepKeepsOwed(c: Crypto, sys: System, a: Action, id: Hash)
    requires Logged(c, sys) && Enabled(sys, a) && Stored(Apply(c, sys, a).stores, id)
    ensures id in Announced(Apply(c, sys, a).stores.events) || Announcing(Apply(c, sys, a), id)
  {
    var sys' := Apply(c, sys, a);
    if !a.Run? {
      if Announcing(sys, id) {
        var k :| 0 <= k < |sys.tasks| && sys.tasks[k] == ObserveAnnounce(id);
        assert sys'.tasks[k] == sys.tasks[k];
      }
    } else {
      var t := sys.tasks[a.task];
      if !Stored(sys.stores, id) {
        NewlyStored(c, sys.stores, t, a.now, id);
        assert sys'.tasks[a.task] == ObserveAnnounce(id);
      } else if id in Announced(sys.stores.events) {
        StepKeeps(c, sys.stores, t, a.now, id);
      } else {
        var k :| 0 <= k < |sys.tasks| && sys.tasks[k] == ObserveAnnounce(id);
        if k == a.task {
          AnnouncedAppend(sys.stores.events, MessageObserved(id));
        } else {
          assert sys'.tasks[k] == sys.tasks[k];
        }
      }
    }
  }

  lemma {:induction false} ApplyKeepsLogged(c: Crypto, sys: System, a: Action)
    requires Logged(c, sys) && Enabled(sys, a)
    ensures Logged(c, Apply(c, sys, a))
  {
    ApplyKeepsGood(c, sys, a);
    var sys' := Apply(c, sys, a);
    forall id | Stored(sys'.stores, id)
      ensures id in Announced(sys'.stores.events) || Announcing(sys', id)
    {
      StepKeepsOwed(c, sys, a, id);
    }
    if a.Run? {
      var s, t := sys.stores, sys.tasks[a.task];
      StepTold(c, s, t, a.now);
      StoresStayTold(c, s, t, a.now);
      forall e | e in sys'.stores.events ensures EventTrue(c, sys'.stores, e) {
        if e in s.events {
          EventStaysTrue(c, s, t, a.now, e);
        } else {
          Published(c, s, t, a.now);
          NewEventTrue(c, s, t, a.now, e);
        }
      }
      forall k | 0 <= k < |sys'.tasks| ensures TaskTold(sys'.stores, sys'.tasks[k]) {
        if k != a.task {
          TaskStaysTold(c, s, t, a.now, sys.tasks[k]);
        }
      }
    }
  }

  lemma {:induction false} ExecutionLogged(c: Crypto, states: seq<System>, actions: seq<Action>, k: nat)
    requires Execution(c, states, actions) && k < |states|
    ensures Logged(c, states[k])
  {
    if k > 0 {
      ExecutionLogged(c, states, actions, k - 1);
      assert states[k - 1 + 1] == Apply(c, states[k - 1], actions[k - 1]);
      ApplyKeepsLogged(c, states[k - 1], actions[k - 1]);
    }
  }

  /** The event log under every schedule. Whatever it tells is true: an observed message is
      stored, a collected signature is a valid one by that guardian, and an assembled VAA is
      saved. It misses nothing that is held: every signature held for a message has been
      announced. And the messages stored are those announced, and those that a task has just
      stored and announces next. */
  lemma LogUnderEverySchedule(c: Crypto, states: seq<System>, actions: seq<Action>, k: nat)
    requires Execution(c, states, actions) && k < |states|
    ensures var s := states[k].stores;
            && (forall e :: e in s.events ==> EventTrue(c, s, e))
            && (forall id :: id in s.pending ==> Signers(s.pending[id].signatures) <= Told(s.events, id))
            && (forall id :: id in s.vaas ==> Signers(s.vaas[id].vaa.signatures) <= Told(s.events, id))
            && (forall id :: Stored(s, id) <==> id in Announced(s.events) || Announcing(states[k], id))
  {
    ExecutionLogged(c, states, actions, k);
    var s := states[k].stores;
    forall id | id in Announced(s.events) || Announcing(states[k], id)
      ensures Stored(s, id)
    {
      if Announcing(states[k], id) {
        var i :| 0 <= i < |states[k].tasks| && states[k].tasks[i] == ObserveAnnounce(id);
        assert TaskTold(s, states[k].tasks[i]);
      }
    }
  }
}
