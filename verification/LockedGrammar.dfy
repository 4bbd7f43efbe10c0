/** The event grammar of a message under a lock on its id: exactly when it survives
    interleaving. */
module LockedGrammar {
  import opened Prelude
  import opened Vaa
  import opened VaaCodec
  import opened Domain
  import opened Engine
  import opened Interleaving
  import opened EngineRuns
  import opened Schedules
  import opened Exclusion

  // ----- one observation and one completion

  /** A stored message is announced once, or about to be. */
  ghost predicate ObservedOnce(sys: System, id: Hash) {
    multiset(sys.stores.events)[MessageObserved(id)] + multiset(sys.tasks)[ObserveAnnounce(id)]
    == if Stored(sys.stores, id) then 1 else 0
  }

  predicate Completing(t: Task, id: Hash) {
    (t.SubmitClear? || t.SubmitFinish?) && t.id == id
  }

  /** So is the completion of a saved one. */
  ghost predicate AssembledOnce(sys: System, id: Hash) {
    id in sys.stores.vaas ==>
      var v := sys.stores.vaas[id].vaa;
      && multiset(sys.stores.events)[VaaAssembled(id)]
         + multiset(sys.tasks)[SubmitClear(id, v)] + multiset(sys.tasks)[SubmitFinish(id, v)] == 1
      && (forall t :: t in sys.tasks && Completing(t, id) ==> t.vaa == v)
  }

  lemma CountUpdate(tasks: seq<Task>, i: nat, t: Task, x: Task)
    requires i < |tasks|
    ensures multiset(tasks[i := t])[x] + (if tasks[i] == x then 1 else 0)
         == multiset(tasks)[x] + (if t == x then 1 else 0)
  {}

  lemma InUpdated(tasks: seq<Task>, i: nat, t: Task, x: Task)
    requires i < |tasks| && x in tasks[i := t]
    ensures x == t || x in tasks
  {}

  function One(b: bool): nat {
    if b then 1 else 0
  }

  predicate FirstStores(t: Task, id: Hash) {
    t.ObserveStore? && t.pending.message.id == id
  }

  lemma NextOwed(c: Crypto, s: Stores, t: Task, now: I64, id: Hash)
    ensures Advance(c, s, t, now).1 == ObserveAnnounce(id) <==> FirstStores(t, id)
  {}

  lemma NextStored(c: Crypto, s: Stores, t: Task, now: I64, id: Hash)
    requires TaskTold(s, t)
    ensures Stored(Advance(c, s, t, now).0, id) <==> Stored(s, id) || FirstStores(t, id)
  {}

  lemma ObserveBalance(c: Crypto, s: Stores, t: Task, now: I64, id: Hash)
    requires TaskTold(s, t) && (Holds(c, Short, t, id) ==> WindowGood(s, id, t))
    ensures var (s', t') := Advance(c, s, t, now);
            var e, owed := MessageObserved(id), ObserveAnnounce(id);
            multiset(s'.events)[e] + One(t' == owed) + One(Stored(s, id))
            == multiset(s.events)[e] + One(t == owed) + One(Stored(s', id))
  {
    Published(c, s, t, now);
    NextOwed(c, s, t, now, id);
    NextStored(c, s, t, now, id);
    assert FirstStores(t, id) ==> Holds(c, Short, t, id) && !Stored(s, id);
  }

  lemma {:induction false} RunObservesOnce(c: Crypto, sys: System, a: Action, id: Hash)
    requires Logged(c, sys) && IdGood(c, sys, id) && a.Run? && Enabled(sys, a) && ObservedOnce(sys, id)
    ensures ObservedOnce(Apply(c, sys, a), id)
  {
    CountUpdate(sys.tasks, a.task, Advance(c, sys.stores, sys.tasks[a.task], a.now).1, ObserveAnnounce(id));
    ObserveBalance(c, sys.stores, sys.tasks[a.task], a.now, id);
  }

  lemma NextCompleting(c: Crypto, s: Stores, t: Task, now: I64, id: Hash)
    requires !(t.SubmitSave? && t.record.id == id)
    ensures var t' := Advance(c, s, t, now).1;
            Completing(t', id) <==> t.SubmitClear? && t.id == id && t' == SubmitFinish(id, t.vaa)
  {}

  /** A step that does not save a record for `id` keeps the record it has. */
  lemma RecordKept(c: Crypto, s: Stores, t: Task, now: I64, id: Hash)
    requires !(t.SubmitSave? && t.record.id == id)
    ensures var s' := Advance(c, s, t, now).0;
            (id in s.vaas <==> id in s'.vaas) && (id in s.vaas ==> s'.vaas[id] == s.vaas[id])
  {}

  /** It also keeps the balance of completions announced and owed. */
  lemma AssembleBalance(c: Crypto, s: Stores, t: Task, now: I64, id: Hash, v: Vaa)
    requires !(t.SubmitSave? && t.record.id == id) && (Completing(t, id) ==> t.vaa == v)
    ensures var (s', t') := Advance(c, s, t, now);
            var e, clear, finish := VaaAssembled(id), SubmitClear(id, v), SubmitFinish(id, v);
            && multiset(s'.events)[e] + One(t' == clear) + One(t' == finish)
               == multiset(s.events)[e] + One(t == clear) + One(t == finish)
            && (Completing(t', id) ==> t'.vaa == v)
  {
    Published(c, s, t, now);
    NextCompleting(c, s, t, now, id);
  }

  lemma NoneCompleting(c: Crypto, sys: System, id: Hash)
    requires Logged(c, sys) && id !in sys.stores.vaas
    ensures forall t :: t in sys.tasks ==> !Completing(t, id)
    ensures VaaAssembled(id) !in sys.stores.events
  {
    forall t | t in sys.tasks ensures !Completing(t, id) {
      var k :| 0 <= k < |sys.tasks| && sys.tasks[k] == t;
      assert TaskTold(sys.stores, sys.tasks[k]);
    }
    assert VaaAssembled(id) in sys.stores.events ==> EventTrue(c, sys.stores, VaaAssembled(id));
  }

  lemma {:induction false} SaveAssemblesOnce(c: Crypto, sys: System, a: Action, id: Hash)
    requires Logged(c, sys) && a.Run? && Enabled(sys, a) && id !in sys.stores.vaas
    requires var t := sys.tasks[a.task]; t.SubmitSave? && t.record.id == id
    ensures AssembledOnce(Apply(c, sys, a), id)
  {
    var v := sys.tasks[a.task].record.vaa;
    NoneCompleting(c, sys, id);
    assert !Completing(sys.tasks[a.task], id);
    CountUpdate(sys.tasks, a.task, SubmitClear(id, v), SubmitClear(id, v));
    CountUpdate(sys.tasks, a.task, SubmitClear(id, v), SubmitFinish(id, v));
    assert SubmitClear(id, v) !in sys.tasks && SubmitFinish(id, v) !in sys.tasks;
    var sys' := Apply(c, sys, a);
    forall t | t in sys'.tasks && Completing(t, id) ensures t.vaa == v {
      InUpdated(sys.tasks, a.task, SubmitClear(id, v), t);
    }
  }

  lemma {:induction false} OtherAssemblesOnce(c: Crypto, sys: System, a: Action, id: Hash)
    requires a.Run? && Enabled(sys, a) && AssembledOnce(sys, id) && id in sys.stores.vaas
    requires var t := sys.tasks[a.task]; !(t.SubmitSave? && t.record.id == id)
    ensures AssembledOnce(Apply(c, sys, a), id)
  {
    var v := sys.stores.vaas[id].vaa;
    var t, r := sys.tasks[a.task], Advance(c, sys.stores, sys.tasks[a.task], a.now);
    assert t in sys.tasks;
    RecordKept(c, sys.stores, t, a.now, id);
    AssembleBalance(c, sys.stores, t, a.now, id, v);
    CountUpdate(sys.tasks, a.task, r.1, SubmitClear(id, v));
    CountUpdate(sys.tasks, a.task, r.1, SubmitFinish(id, v));
    var sys' := Apply(c, sys, a);
    forall u | u in sys'.tasks && Completing(u, id) ensures u.vaa == v {
      InUpdated(sys.tasks, a.task, r.1, u);
    }
  }

  lemma {:induction false} RunAssemblesOnce(c: Crypto, sys: System, a: Action, id: Hash)
    requires Logged(c, sys) && IdGood(c, sys, id) && a.Run? && Enabled(sys, a) && AssembledOnce(sys, id)
    ensures AssembledOnce(Apply(c, sys, a), id)
  {
    var t := sys.tasks[a.task];
    if t.SubmitSave? && t.record.id == id {
      assert Holds(c, Short, t, id) && WindowGood(sys.stores, id, t);
      SaveAssemblesOnce(c, sys, a, id);
    } else if id in sys.stores.vaas {
      OtherAssemblesOnce(c, sys, a, id);
    } else {
      RecordKept(c, sys.stores, t, a.now, id);
    }
  }

  lemma NoneOwed(c: Crypto, sys: System, id: Hash)
    requires Free(c, Whole, sys, id)
    ensures ObserveAnnounce(id) !in sys.tasks
    ensures forall v :: SubmitClear(id, v) !in sys.tasks && SubmitFinish(id, v) !in sys.tasks
  {
    forall t | t in sys.tasks ensures !Holds(c, Whole, t, id) {
      var k :| 0 <= k < |sys.tasks| && sys.tasks[k] == t;
    }
    assert Holds(c, Whole, ObserveAnnounce(id), id);
    forall v ensures SubmitClear(id, v) !in sys.tasks && SubmitFinish(id, v) !in sys.tasks {
      assert Holds(c, Whole, SubmitClear(id, v), id) && Holds(c, Whole, SubmitFinish(id, v), id);
    }
  }

  lemma {:induction false} ApplyObservesOnce(c: Crypto, sys: System, a: Action, id: Hash)
    requires Logged(c, sys) && IdGood(c, sys, id) && Enabled(sys, a) && ObservedOnce(sys, id)
    ensures ObservedOnce(Apply(c, sys, a), id)
  {
    if a.Run? {
      RunObservesOnce(c, sys, a, id);
    } else {
      Spawned(c, sys, a, id);
    }
  }

  lemma {:induction false} ApplyAssemblesOnce(c: Crypto, sys: System, a: Action, id: Hash)
    requires Logged(c, sys) && IdGood(c, sys, id) && Enabled(sys, a) && AssembledOnce(sys, id)
    ensures AssembledOnce(Apply(c, sys, a), id)
  {
    if a.Run? {
      RunAssemblesOnce(c, sys, a, id);
    } else {
      Spawned(c, sys, a, id);
    }
  }

  lemma Spawned(c: Crypto, sys: System, a: Action, id: Hash)
    requires !a.Run?
    ensures exists t ::
      && Apply(c, sys, a) == System(sys.stores, sys.tasks + [t])
      && t != ObserveAnnounce(id) && !Completing(t, id)
  {
    var t := Apply(c, sys, a).tasks[|sys.tasks|];
    assert Apply(c, sys, a) == System(sys.stores, sys.tasks + [t]);
  }

  lemma LockedBefore(c: Crypto, states: seq<System>, actions: seq<Action>, k: nat, id: Hash)
    requires Execution(c, states, actions) && 0 < k < |states| && Locked(c, Short, states, k, id)
    ensures Locked(c, Short, states, k - 1, id)
    ensures Logged(c, states[k - 1]) && IdGood(c, states[k - 1], id)
    ensures Enabled(states[k - 1], actions[k - 1]) && states[k] == Apply(c, states[k - 1], actions[k - 1])
  {
    LockedGood(c, states, actions, k - 1, id);
    ExecutionLogged(c, states, actions, k - 1);
    assert states[k - 1 + 1] == Apply(c, states[k - 1], actions[k - 1]);
  }

  /** What holds at first and is kept by every step holds throughout a locked execution. */
  lemma {:induction false} LockedInduction(c: Crypto, states: seq<System>, actions: seq<Action>, k: nat, id: Hash,
                                           p: System -> bool)
    requires Execution(c, states, actions) && k < |states| && Locked(c, Short, states, k, id)
    requires p(states[0])
    requires forall sys, a :: Logged(c, sys) && IdGood(c, sys, id) && Enabled(sys, a) && p(sys) ==> p(Apply(c, sys, a))
    ensures p(states[k])
  {
    if k > 0 {
      LockedBefore(c, states, actions, k, id);
      LockedInduction(c, states, actions, k - 1, id, p);
    }
  }

  lemma InitialCounts(sys: System, id: Hash)
    requires Initial(sys)
    ensures ObservedOnce(sys, id) && AssembledOnce(sys, id)
  {}

  lemma {:induction false} LockedCounts(c: Crypto, states: seq<System>, actions: seq<Action>, k: nat, id: Hash)
    requires Execution(c, states, actions) && k < |states| && Locked(c, Short, states, k, id)
    ensures ObservedOnce(states[k], id) && AssembledOnce(states[k], id)
  {
    InitialCounts(states[0], id);
    var counted := (sys: System) => ObservedOnce(sys, id) && AssembledOnce(sys, id);
    forall sys, a | Logged(c, sys) && IdGood(c, sys, id) && Enabled(sys, a) && counted(sys)
      ensures counted(Apply(c, sys, a))
    {
      ApplyObservesOnce(c, sys, a, id);
      ApplyAssemblesOnce(c, sys, a, id);
    }
    LockedInduction(c, states, actions, k, id, counted);
  }

  // ----- the order of announcements

  lemma {:induction false} HistoryCounts(log: seq<DomainEvent>, e: DomainEvent)
    ensures multiset(History(log, e.id))[e] == multiset(log)[e]
  {
    if log != [] {
      HistoryCounts(log[..|log| - 1], e);
      assert log == log[..|log| - 1] + [log[|log| - 1]];
    }
  }

  /** Action `a` announces a signature for `id`. */
  predicate Collects(sys: System, a: Action, id: Hash) {
    a.Run? && a.task < |sys.tasks| && sys.tasks[a.task].SubmitAnnounce? && sys.tasks[a.task].id == id
  }

  /** Up to state k, no signature is announced before the observation itself. */
  ghost predicate ObservedFirst(states: seq<System>, actions: seq<Action>, k: nat, id: Hash)
    requires k <= |actions| < |states|
  {
    forall j :: 0 <= j < k && Collects(states[j], actions[j], id) ==>
      MessageObserved(id) in states[j].stores.events
  }

  lemma SavedIsHeard(c: Crypto, sys: System, id: Hash)
    requires Logged(c, sys) && IdGood(c, sys, id) && id in sys.stores.vaas
    ensures History(sys.stores.events, id) != []
  {
    var h, sigs := History(sys.stores.events, id), sys.stores.vaas[id].vaa.signatures;
    assert RecordGood(c, sys.stores.sets, sys.stores.vaas[id]);
    if !Free(c, Short, sys, id) {
      var k :| 0 <= k < |sys.tasks| && Holds(c, Short, sys.tasks[k], id);
      assert WindowGood(sys.stores, id, sys.tasks[k]);
    }
    assert Heard(h, sigs, |sigs|);
  }

  /** What the first event about `id` tells when `ordered` says whether all was announced in
      order. */
  ghost predicate FirstTells(log: seq<DomainEvent>, id: Hash, ordered: bool) {
    var h := History(log, id);
    if h == [] then ordered else h[0] == MessageObserved(id) <==> ordered
  }

  lemma {:induction false} NextEvent(log: seq<DomainEvent>, e: DomainEvent, id: Hash, ordered: bool)
    requires FirstTells(log, id, ordered) && (e == VaaAssembled(id) ==> History(log, id) != [])
    ensures FirstTells(log + [e], id,
                       ordered && (e.SignatureCollected? && e.id == id ==> MessageObserved(id) in log))
  {
    HistoryAppend(log, e, id);
    HistoryCounts(log, MessageObserved(id));
  }

  lemma {:induction false} NextPublished(log: seq<DomainEvent>, t: Task, id: Hash, ordered: bool)
    requires FirstTells(log, id, ordered)
    requires t.SubmitFinish? && t.id == id ==> History(log, id) != []
    ensures FirstTells(log + Publishes(t), id,
                       ordered && (t.SubmitAnnounce? && t.id == id ==> MessageObserved(id) in log))
  {
    if Publishes(t) == [] {
      assert log + [] == log;
    } else {
      NextEvent(log, Publishes(t)[0], id, ordered);
    }
  }

  lemma FinishIsHeard(c: Crypto, sys: System, k: nat, id: Hash)
    requires Logged(c, sys) && IdGood(c, sys, id) && k < |sys.tasks|
    ensures sys.tasks[k].SubmitFinish? && sys.tasks[k].id == id ==> History(sys.stores.events, id) != []
  {
    assert TaskTold(sys.stores, sys.tasks[k]);
    if sys.tasks[k].SubmitFinish? && sys.tasks[k].id == id {
      SavedIsHeard(c, sys, id);
    }
  }

  lemma {:induction false} RunFirstEvent(c: Crypto, sys: System, a: Action, id: Hash, ordered: bool)
    requires Logged(c, sys) && IdGood(c, sys, id) && a.Run? && Enabled(sys, a)
    requires FirstTells(sys.stores.events, id, ordered)
    ensures FirstTells(Apply(c, sys, a).stores.events, id,
                       ordered && (Collects(sys, a, id) ==> MessageObserved(id) in sys.stores.events))
  {
    FinishIsHeard(c, sys, a.task, id);
    Published(c, sys.stores, sys.tasks[a.task], a.now);
    NextPublished(sys.stores.events, sys.tasks[a.task], id, ordered);
  }

  lemma ApplyFirstEvent(c: Crypto, sys: System, a: Action, id: Hash, ordered: bool)
    requires Logged(c, sys) && IdGood(c, sys, id) && Enabled(sys, a)
    requires FirstTells(sys.stores.events, id, ordered)
    ensures FirstTells(Apply(c, sys, a).stores.events, id,
                       ordered && (Collects(sys, a, id) ==> MessageObserved(id) in sys.stores.events))
  {
    if a.Run? {
      RunFirstEvent(c, sys, a, id, ordered);
    }
  }

  lemma ObservedFirstStep(states: seq<System>, actions: seq<Action>, k: nat, id: Hash)
    requires 0 < k <= |actions| < |states|
    ensures ObservedFirst(states, actions, k, id)
        <==> ObservedFirst(states, actions, k - 1, id)
             && (Collects(states[k - 1], actions[k - 1], id) ==> MessageObserved(id) in states[k - 1].stores.events)
  {}

  lemma {:induction false} FirstEvent(c: Crypto, states: seq<System>, actions: seq<Action>, k: nat, id: Hash)
    requires Execution(c, states, actions) && k < |states| && Locked(c, Short, states, k, id)
    ensures FirstTells(states[k].stores.events, id, ObservedFirst(states, actions, k, id))
  {
    if k > 0 {
      LockedBefore(c, states, actions, k, id);
      FirstEvent(c, states, actions, k - 1, id);
      ApplyFirstEvent(c, states[k - 1], actions[k - 1], id, ObservedFirst(states, actions, k - 1, id));
      ObservedFirstStep(states, actions, k, id);
    }
  }

  // ----- the script

  lemma {:induction false} ScriptOf(h: seq<DomainEvent>, id: Hash, needed: nat)
    requires h != [] && h[0] == MessageObserved(id) && multiset(h)[MessageObserved(id)] == 1
    requires (forall e :: e in h ==> e.id == id) && VaaAssembled(id) !in h
    requires CountsUp(h, needed)
    ensures h == Script(id, Collectors(h), needed)
  {
    var n := |h| - 1;
    assert h == h[..n] + [h[n]];
    if n == 0 {
      CollectorsAppend([], h[0]);
      assert [] + [h[0]] == h;
    } else {
      var g := Collectors(h[..n]);
      assert h[..n][0] == h[0] && multiset(h[..n])[h[0]] >= 1;
      assert h[n] in h && h[n].SignatureCollected?;
      ScriptOf(h[..n], id, needed);
      CollectorsAppend(h[..n], h[n]);
      ScriptAppend(id, g, h[n].guardianIndex, needed);
    }
  }

  lemma ScriptWithEnd(h: seq<DomainEvent>, id: Hash, needed: nat)
    requires h != [] && h[0] == MessageObserved(id) && multiset(h)[MessageObserved(id)] == 1
    requires (forall e :: e in h ==> e.id == id) && multiset(h)[VaaAssembled(id)] == 1
    requires CountsUp(h, needed)
    ensures h == Script(id, Collectors(h), needed) + [VaaAssembled(id)]
  {
    var n := |h| - 1;
    assert h == h[..n] + [h[n]] && h[n] in h;
    assert multiset(h) == multiset(h[..n]) + multiset{h[n]};
    assert n > 0 && h[..n][0] == h[0];
    assert h[n] == VaaAssembled(id);
    CollectorsAppend(h[..n], h[n]);
    ScriptOf(h[..n], id, needed);
  }

  lemma GrammarAtRest(c: Crypto, sys: System, id: Hash)
    requires Logged(c, sys) && AtRest(sys.stores, id) && Free(c, Whole, sys, id)
    requires ObservedOnce(sys, id) && AssembledOnce(sys, id)
    ensures var h := History(sys.stores.events, id);
            HistoryGood(sys.stores, id) <==> h == [] || h[0] == MessageObserved(id)
  {
    var s := sys.stores;
    var h := History(s.events, id);
    NoneOwed(c, sys, id);
    HistoryWithin(s.events, id);
    HistoryCounts(s.events, MessageObserved(id));
    HistoryCounts(s.events, VaaAssembled(id));
    if id in s.vaas {
      var needed := |s.vaas[id].vaa.signatures|;
      ScriptShape(id, Collectors(h), needed);
      if h != [] && h[0] == MessageObserved(id) {
        ScriptWithEnd(h, id, needed);
      }
    } else if id in s.pending {
      ScriptShape(id, Collectors(h), s.pending[id].Needed());
      assert VaaAssembled(id) in h ==> EventTrue(c, s, VaaAssembled(id));
      if h != [] && h[0] == MessageObserved(id) {
        ScriptOf(h, id, s.pending[id].Needed());
      }
    }
  }

  // ----- the theorems

  /** The event grammar under a lock. While at most one task at a time has been between its
      first store access and its last access to the pending store on `id`, then whenever no
      task is in the middle of an operation on it, its events follow the script and match what
      the stores hold exactly when no signature was announced before the observation was. */
  lemma GrammarIffObservedFirst(c: Crypto, states: seq<System>, actions: seq<Action>, k: nat, id: Hash)
    requires Execution(c, states, actions) && k < |states|
    requires Locked(c, Short, states, k, id) && Free(c, Whole, states[k], id)
    ensures HistoryGood(states[k].stores, id) <==> ObservedFirst(states, actions, k, id)
  {
    LockedGood(c, states, actions, k, id);
    ExecutionLogged(c, states, actions, k);
    LockedCounts(c, states, actions, k, id);
    FirstEvent(c, states, actions, k, id);
    GrammarAtRest(c, states[k], id);
  }

  lemma WholeIsObservedFirst(c: Crypto, states: seq<System>, actions: seq<Action>, k: nat, id: Hash)
    requires Execution(c, states, actions) && k < |states| && Locked(c, Whole, states, k, id)
    ensures Locked(c, Short, states, k, id) && ObservedFirst(states, actions, k, id)
  {
    forall j, m, n | 0 <= j <= k && 0 <= m < n < |states[j].tasks|
      ensures !(Holds(c, Short, states[j].tasks[m], id) && Holds(c, Short, states[j].tasks[n], id))
    {
      assert Exclusive(c, Whole, states[j], id);
    }
    forall j | 0 <= j < k && Collects(states[j], actions[j], id)
      ensures MessageObserved(id) in states[j].stores.events
    {
      AnnouncedBeforeCollecting(c, states, actions, j, id);
    }
  }

  lemma AnnouncedBeforeCollecting(c: Crypto, states: seq<System>, actions: seq<Action>, j: nat, id: Hash)
    requires Execution(c, states, actions) && j < |actions|
    requires Exclusive(c, Whole, states[j], id) && Collects(states[j], actions[j], id)
    ensures MessageObserved(id) in states[j].stores.events
  {
    ExecutionLogged(c, states, actions, j);
    var sys, a := states[j], actions[j];
    assert TaskTold(sys.stores, sys.tasks[a.task]);
    if Announcing(sys, id) {
      var k :| 0 <= k < |sys.tasks| && sys.tasks[k] == ObserveAnnounce(id);
      assert Holds(c, Whole, sys.tasks[k], id) && Holds(c, Whole, sys.tasks[a.task], id);
      assert false;
    }
  }

  /** While the operations on `id` exclude each other as a whole, the event grammar holds
      whenever none is under way. */
  lemma GrammarUnderLock(c: Crypto, states: seq<System>, actions: seq<Action>, k: nat, id: Hash)
    requires Execution(c, states, actions) && k < |states|
    requires Locked(c, Whole, states, k, id) && Free(c, Whole, states[k], id)
    ensures HistoryGood(states[k].stores, id)
  {
    WholeIsObservedFirst(c, states, actions, k, id);
    GrammarIffObservedFirst(c, states, actions, k, id);
  }

  /** Conservation of one message under the short lock: whenever no task is in the middle of an
      operation on it, it is in at most one store, its observation has been announced once if
      it is in either, and its completion once if it is saved; otherwise never. */
  lemma AnnouncedOnceUnderLock(c: Crypto, states: seq<System>, actions: seq<Action>, k: nat, id: Hash)
    requires Execution(c, states, actions) && k < |states|
    requires Locked(c, Short, states, k, id) && Free(c, Whole, states[k], id)
    ensures var s := states[k].stores;
            && !(id in s.pending && id in s.vaas)
            && multiset(s.events)[MessageObserved(id)] == (if Stored(s, id) then 1 else 0)
            && multiset(s.events)[VaaAssembled(id)] == (if id in s.vaas then 1 else 0)
  {
    LockedGood(c, states, actions, k, id);
    LockedCounts(c, states, actions, k, id);
    ExecutionLogged(c, states, actions, k);
    NoneOwed(c, states[k], id);
    var s := states[k].stores;
    assert VaaAssembled(id) in s.events ==> EventTrue(c, s, VaaAssembled(id));
  }

  /** Hence, when every id is locked: the two numbers that `stats` reports add up to the number
      of messages announced. */
  lemma CensusUnderLocks(c: Crypto, states: seq<System>, actions: seq<Action>, k: nat)
    requires Execution(c, states, actions) && k < |states|
    requires forall id :: Locked(c, Short, states, k, id) && Free(c, Whole, states[k], id)
    ensures Census(states[k].stores)
    ensures var s := states[k].stores; |s.pending| + |s.vaas| == |Announced(s.events)|
  {
    var s := states[k].stores;
    forall id
      ensures !(id in s.pending && id in s.vaas)
      ensures id in Announced(s.events) <==> id in s.pending.Keys + s.vaas.Keys
    {
      AnnouncedOnceUnderLock(c, states, actions, k, id);
      assert id in Announced(s.events) <==> MessageObserved(id) in s.events;
    }
    assert Announced(s.events) == s.pending.Keys + s.vaas.Keys;
    assert |s.pending.Keys + s.vaas.Keys| == |s.pending.Keys| + |s.vaas.Keys|;
  }

  /** Locks make the engine serial: while the operations on each id exclude each other, the
      stores satisfy the invariant of serial runs whenever none is under way, however the
      operations on different ids and the registry upgrades interleave. */
  lemma SerialUnderLocks(c: Crypto, states: seq<System>, actions: seq<Action>, k: nat)
    requires Execution(c, states, actions) && k < |states|
    requires forall id :: Locked(c, Whole, states, k, id) && Free(c, Whole, states[k], id)
    ensures SerialGood(c, states[k].stores)
  {
    ExecutionGood(c, states, actions, k);
    forall id
      ensures Locked(c, Short, states, k, id) && HistoryGood(states[k].stores, id)
    {
      WholeIsObservedFirst(c, states, actions, k, id);
      GrammarUnderLock(c, states, actions, k, id);
    }
    CensusUnderLocks(c, states, actions, k);
  }
}
