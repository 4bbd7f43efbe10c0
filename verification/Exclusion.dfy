/** A lock per message id. While at most one task at a time is inside its window on an id,
    collection of that id is lossless, whatever happens to other ids and to the registry. */
module Exclusion {
  import opened Prelude
  import opened Vaa
  import opened VaaCodec
  import opened Domain
  import opened Engine
  import opened Interleaving
  import opened EngineRuns
  import opened Schedules

  /** How long the lock is held. It is taken with a task's first store access, and released after
      its last access to the pending store (Short) or at the end of the operation (Whole). */
  datatype Lock = Short | Whole

  predicate InWindow(lock: Lock, t: Task) {
    match t
    case ObserveCheckPending(_, _) => true
    case ObserveResolve(_, _) => true
    case ObserveStore(_) => true
    case ObserveAnnounce(_) => lock.Whole?
    case SubmitResolve(_, _, _) => true
    case SubmitAnnounce(_, _, _, _) => true
    case SubmitKeep(_) => true
    case SubmitSave(_) => true
    case SubmitClear(_, _) => true
    case SubmitFinish(_, _) => lock.Whole?
    case _ => false
  }

  /** The message a task works on. */
  function Target(c: Crypto, t: Task): Option<Hash> {
    match t
    case ObserveCheckDone(_, body) => Some(Digest(c, body))
    case ObserveCheckPending(_, body) => Some(Digest(c, body))
    case ObserveResolve(_, body) => Some(Digest(c, body))
    case ObserveStore(p) => Some(p.message.id)
    case ObserveAnnounce(id) => Some(id)
    case SubmitLoad(id, _) => Some(id)
    case SubmitResolve(id, _, _) => Some(id)
    case SubmitAnnounce(id, _, _, _) => Some(id)
    case SubmitKeep(p) => Some(p.message.id)
    case SubmitSave(r) => Some(r.id)
    case SubmitClear(id, _) => Some(id)
    case SubmitFinish(id, _) => Some(id)
    case _ => None
  }

  predicate Holds(c: Crypto, lock: Lock, t: Task, id: Hash) {
    InWindow(lock, t) && Target(c, t) == Some(id)
  }

  ghost predicate Exclusive(c: Crypto, lock: Lock, sys: System, id: Hash) {
    forall i, j :: 0 <= i < j < |sys.tasks| ==> !(Holds(c, lock, sys.tasks[i], id) && Holds(c, lock, sys.tasks[j], id))
  }

  ghost predicate Free(c: Crypto, lock: Lock, sys: System, id: Hash) {
    forall k :: 0 <= k < |sys.tasks| ==> !Holds(c, lock, sys.tasks[k], id)
  }

  // ----- what the history of a message says

  /** The Collected events count up from 1, with a constant `needed`, and end before Assembled. */
  ghost predicate CountsUp(h: seq<DomainEvent>, needed: nat) {
    h == [] ||
    (var before, e := h[..|h| - 1], h[|h| - 1];
     && CountsUp(before, needed)
     && (e.SignatureCollected? ==>
           e.have == |Collectors(before)| + 1 && e.needed == needed && VaaAssembled(e.id) !in before))
  }

  lemma CountsUpAppend(h: seq<DomainEvent>, e: DomainEvent, needed: nat)
    requires CountsUp(h, needed)
    requires e.SignatureCollected? ==> e.have == |Collectors(h)| + 1 && e.needed == needed && VaaAssembled(e.id) !in h
    ensures CountsUp(h + [e], needed)
  {
    assert (h + [e])[..|h|] == h;
  }

  /** The history announces exactly the signers of `sigs`, once each, and counts them. */
  ghost predicate Heard(h: seq<DomainEvent>, sigs: seq<GuardianSignature>, needed: nat) {
    Matches(Collectors(h), sigs) && CountsUp(h, needed)
  }

  lemma HeardCollected(h: seq<DomainEvent>, id: Hash, p: PendingObservation, sig: GuardianSignature)
    requires Heard(h, p.signatures, p.Needed()) && VaaAssembled(id) !in h
    requires Ascending(p.signatures) && sig.guardianIndex !in Signers(p.signatures)
    ensures var q := p.With(sig); Heard(h + [CollectedEvent(id, sig.guardianIndex, q)], q.signatures, q.Needed())
  {
    var e := CollectedEvent(id, sig.guardianIndex, p.With(sig));
    InsertAddsOne(p.signatures, sig);
    CollectKeepsMatch(Collectors(h), p.signatures, sig);
    CollectorsAppend(h, e);
    CountsUpAppend(h, e, p.Needed());
  }

  lemma {:induction false} HistoryWithin(log: seq<DomainEvent>, id: Hash)
    ensures forall e :: e in History(log, id) ==> e in log && e.id == id
  {
    if log != [] {
      HistoryWithin(log[..|log| - 1], id);
    }
  }

  // ----- the invariant of one id

  /** Nobody holds the lock: the message is in at most one store, and the signers announced are
      those held. */
  ghost predicate AtRest(s: Stores, id: Hash) {
    var h := History(s.events, id);
    && !(id in s.pending && id in s.vaas)
    && (id in s.pending ==> Heard(h, s.pending[id].signatures, s.pending[id].Needed()))
    && (id in s.vaas ==> var sigs := s.vaas[id].vaa.signatures; Heard(h, sigs, |sigs|))
    && (!Stored(s, id) ==> h == [])
  }

  ghost predicate Adds(q: PendingObservation, index: Byte, p: PendingObservation) {
    exists sig: GuardianSignature ::
      sig.guardianIndex == index && index !in Signers(q.signatures) && p == q.With(sig)
  }

  /** What holds while task `t` is inside its window on `id`. */
  ghost predicate WindowGood(s: Stores, id: Hash, t: Task) {
    var h := History(s.events, id);
    match t
    case ObserveCheckPending(_, _) => id !in s.vaas && AtRest(s, id)
    case ObserveResolve(_, _) => !Stored(s, id) && h == []
    case ObserveStore(_) => !Stored(s, id) && h == []
    case SubmitResolve(_, _, p) => id in s.pending && p == s.pending[id] && AtRest(s, id)
    case SubmitAnnounce(_, index, p, _) => id in s.pending && Adds(s.pending[id], index, p) && AtRest(s, id)
    case SubmitKeep(p) => id in s.pending && id !in s.vaas && Heard(h, p.signatures, p.Needed())
    case SubmitSave(r) =>
      id in s.pending && id !in s.vaas && Heard(h, r.vaa.signatures, |r.vaa.signatures|)
    case SubmitClear(_, _) =>
      id in s.vaas && var sigs := s.vaas[id].vaa.signatures; Heard(h, sigs, |sigs|)
    case _ => true
  }

  ghost predicate Phase(c: Crypto, s: Stores, id: Hash, t: Task) {
    if Holds(c, Short, t, id) then WindowGood(s, id, t) else AtRest(s, id)
  }

  ghost predicate IdGood(c: Crypto, sys: System, id: Hash) {
    && (forall k :: 0 <= k < |sys.tasks| && Holds(c, Short, sys.tasks[k], id) ==>
          WindowGood(sys.stores, id, sys.tasks[k]))
    && (Free(c, Short, sys, id) ==> AtRest(sys.stores, id))
  }

  // ----- steps outside the window

  /** Nothing that the lock protects has changed; an announcement other than Collected may have
      been added for a stored message. */
  ghost predicate Undisturbed(s: Stores, s': Stores, id: Hash) {
    var h, h' := History(s.events, id), History(s'.events, id);
    && SameEntry(s, s', id)
    && (h' == h || (Stored(s, id) && exists e: DomainEvent :: !e.SignatureCollected? && h' == h + [e]))
  }

  lemma OutsideEntry(c: Crypto, s: Stores, t: Task, now: I64, id: Hash)
    requires TaskGood(c, s.sets, t) && !Holds(c, Short, t, id)
    ensures SameEntry(s, Advance(c, s, t, now).0, id)
  {}

  lemma OutsideStep(c: Crypto, s: Stores, t: Task, now: I64, id: Hash)
    requires TaskGood(c, s.sets, t) && TaskTold(s, t) && !Holds(c, Short, t, id)
    ensures Undisturbed(s, Advance(c, s, t, now).0, id)
  {
    OutsideEntry(c, s, t, now, id);
    Published(c, s, t, now);
    if Publishes(t) != [] {
      HistoryAppend(s.events, Publishes(t)[0], id);
    }
  }

  lemma HeardFrame(s: Stores, s': Stores, id: Hash, sigs: seq<GuardianSignature>, needed: nat)
    requires Undisturbed(s, s', id) && Heard(History(s.events, id), sigs, needed)
    ensures Heard(History(s'.events, id), sigs, needed)
  {
    var h, h' := History(s.events, id), History(s'.events, id);
    if h' != h {
      var e: DomainEvent :| !e.SignatureCollected? && h' == h + [e];
      CollectorsAppend(h, e);
      CountsUpAppend(h, e, needed);
    }
  }

  lemma RestFrame(s: Stores, s': Stores, id: Hash)
    requires Undisturbed(s, s', id) && AtRest(s, id)
    ensures AtRest(s', id)
  {
    if id in s.pending {
      HeardFrame(s, s', id, s.pending[id].signatures, s.pending[id].Needed());
    } else if id in s.vaas {
      HeardFrame(s, s', id, s.vaas[id].vaa.signatures, |s.vaas[id].vaa.signatures|);
    }
  }

  lemma WindowFrame(c: Crypto, s: Stores, s': Stores, id: Hash, t: Task)
    requires Undisturbed(s, s', id) && Holds(c, Short, t, id) && WindowGood(s, id, t)
    ensures WindowGood(s', id, t)
  {
    match t
    case ObserveCheckPending(_, _) => RestFrame(s, s', id);
    case SubmitResolve(_, _, _) => RestFrame(s, s', id);
    case SubmitAnnounce(_, _, _, _) => RestFrame(s, s', id);
    case SubmitKeep(p) => HeardFrame(s, s', id, p.signatures, p.Needed());
    case SubmitSave(r) => HeardFrame(s, s', id, r.vaa.signatures, |r.vaa.signatures|);
    case SubmitClear(_, _) => HeardFrame(s, s', id, s.vaas[id].vaa.signatures, |s.vaas[id].vaa.signatures|);
    case _ =>
  }

  // ----- steps of the task that holds the lock

  lemma ObserveInWindow(c: Crypto, s: Stores, t: Task, now: I64, id: Hash)
    requires t.ObserveCheckPending? || t.ObserveResolve? || t.ObserveStore?
    requires TaskTold(s, t) && Holds(c, Short, t, id) && WindowGood(s, id, t)
    ensures var r := Advance(c, s, t, now); Phase(c, r.0, id, r.1)
  {}

  lemma ResolveInWindow(c: Crypto, s: Stores, t: Task, now: I64, id: Hash)
    requires t.SubmitResolve? && TaskGood(c, s.sets, t)
    requires Holds(c, Short, t, id) && WindowGood(s, id, t)
    ensures var r := Advance(c, s, t, now); Phase(c, r.0, id, r.1)
  {
    var p, sig := t.pending, t.sig;
    ScreenPassed(c, id, p, s.sets[p.message.guardianSetIndex].keys, sig);
    if Screen(c, id, p, s.sets[p.message.guardianSetIndex].keys, sig) == None {
      assert Adds(p, sig.guardianIndex, p.With(sig));
    }
  }

  lemma AnnouncedHeard(c: Crypto, s: Stores, t: Task, id: Hash)
    requires StoresGood(c, s) && t.SubmitAnnounce? && Holds(c, Short, t, id) && WindowGood(s, id, t)
    requires VaaAssembled(id) !in s.events
    ensures var p := t.pending;
            Heard(History(s.events, id) + [CollectedEvent(id, t.index, p)], p.signatures, p.Needed())
  {
    var q, p := s.pending[id], t.pending;
    var sig: GuardianSignature :| sig.guardianIndex == t.index && t.index !in Signers(q.signatures) && p == q.With(sig);
    HistoryWithin(s.events, id);
    HeardCollected(History(s.events, id), id, q, sig);
  }

  lemma AnnounceInWindow(c: Crypto, s: Stores, t: Task, now: I64, id: Hash)
    requires StoresGood(c, s) && t.SubmitAnnounce? && TaskGood(c, s.sets, t)
    requires Holds(c, Short, t, id) && WindowGood(s, id, t)
    requires VaaAssembled(id) !in s.events
    ensures var r := Advance(c, s, t, now); Phase(c, r.0, id, r.1)
  {
    var p, e := t.pending, CollectedEvent(id, t.index, t.pending);
    var s' := s.(events := s.events + [e]);
    AnnouncedHeard(c, s, t, id);
    HistoryAppend(s.events, e, id);
    if p.QuorumReached() {
      AssembleGood(c, s.sets, p, now);
      assert Advance(c, s, t, now) == (s', SubmitSave(VaaRecord(id, Assemble(p), now)));
    } else {
      assert Advance(c, s, t, now) == (s', SubmitKeep(p));
    }
  }

  lemma StoreInWindow(c: Crypto, s: Stores, t: Task, now: I64, id: Hash)
    requires t.SubmitKeep? || t.SubmitSave? || t.SubmitClear?
    requires Holds(c, Short, t, id) && WindowGood(s, id, t)
    ensures var r := Advance(c, s, t, now); Phase(c, r.0, id, r.1)
  {}

  lemma StepInWindow(c: Crypto, s: Stores, t: Task, now: I64, id: Hash)
    requires StoresGood(c, s) && TaskGood(c, s.sets, t) && TaskTold(s, t)
    requires forall e :: e in s.events ==> EventTrue(c, s, e)
    requires Holds(c, Short, t, id) && WindowGood(s, id, t)
    ensures var r := Advance(c, s, t, now); Phase(c, r.0, id, r.1)
  {
    if t.SubmitResolve? {
      ResolveInWindow(c, s, t, now, id);
    } else if t.SubmitAnnounce? {
      assert VaaAssembled(id) in s.events ==> EventTrue(c, s, VaaAssembled(id));
      AnnounceInWindow(c, s, t, now, id);
    } else if t.SubmitKeep? || t.SubmitSave? || t.SubmitClear? {
      StoreInWindow(c, s, t, now, id);
    } else {
      ObserveInWindow(c, s, t, now, id);
    }
  }

  lemma StepIntoWindow(c: Crypto, s: Stores, t: Task, now: I64, id: Hash)
    requires AtRest(s, id) && !Holds(c, Short, t, id) && Holds(c, Short, Advance(c, s, t, now).1, id)
    requires TaskGood(c, s.sets, t)
    ensures var r := Advance(c, s, t, now); r.0 == s && WindowGood(s, id, r.1)
  {}

  /** A step of a task while no other one holds the lock. */
  lemma StepPhase(c: Crypto, s: Stores, t: Task, now: I64, id: Hash)
    requires StoresGood(c, s) && TaskGood(c, s.sets, t) && TaskTold(s, t) && Phase(c, s, id, t)
    requires forall e :: e in s.events ==> EventTrue(c, s, e)
    ensures var r := Advance(c, s, t, now); Phase(c, r.0, id, r.1)
  {
    var r := Advance(c, s, t, now);
    if Holds(c, Short, t, id) {
      StepInWindow(c, s, t, now, id);
    } else if Holds(c, Short, r.1, id) {
      StepIntoWindow(c, s, t, now, id);
    } else {
      OutsideStep(c, s, t, now, id);
      RestFrame(s, r.0, id);
    }
  }

  // ----- whole executions

  lemma {:induction false} RunKeepsIdGood(c: Crypto, sys: System, a: Action, id: Hash)
    requires Logged(c, sys) && IdGood(c, sys, id) && a.Run? && Enabled(sys, a)
    requires Exclusive(c, Short, sys, id) && Exclusive(c, Short, Apply(c, sys, a), id)
    ensures IdGood(c, Apply(c, sys, a), id)
  {
    var sys', t := Apply(c, sys, a), sys.tasks[a.task];
    assert TaskGood(c, sys.stores.sets, t) && TaskTold(sys.stores, t);
    if k :| 0 <= k < |sys.tasks| && k != a.task && Holds(c, Short, sys.tasks[k], id) {
      assert sys'.tasks[k] == sys.tasks[k];
      assert !Holds(c, Short, t, id);
      assert !Holds(c, Short, sys'.tasks[a.task], id);
      OutsideStep(c, sys.stores, t, a.now, id);
      forall i | 0 <= i < |sys'.tasks| && Holds(c, Short, sys'.tasks[i], id)
        ensures WindowGood(sys'.stores, id, sys'.tasks[i])
      {
        WindowFrame(c, sys.stores, sys'.stores, id, sys.tasks[i]);
      }
    } else {
      assert Phase(c, sys.stores, id, t);
      StepPhase(c, sys.stores, t, a.now, id);
      assert Phase(c, sys'.stores, id, sys'.tasks[a.task]);
    }
  }

  lemma SpawnKeepsIdGood(c: Crypto, sys: System, a: Action, id: Hash)
    requires IdGood(c, sys, id) && !a.Run?
    ensures IdGood(c, Apply(c, sys, a), id)
  {
    var sys' := Apply(c, sys, a);
    assert sys'.tasks[..|sys.tasks|] == sys.tasks;
    assert !Holds(c, Short, sys'.tasks[|sys.tasks|], id);
    if Free(c, Short, sys', id) {
      forall k | 0 <= k < |sys.tasks| ensures !Holds(c, Short, sys.tasks[k], id) {
        assert !Holds(c, Short, sys'.tasks[k], id);
      }
    }
  }

  lemma {:induction false} ApplyKeepsIdGood(c: Crypto, sys: System, a: Action, id: Hash)
    requires Logged(c, sys) && IdGood(c, sys, id) && Enabled(sys, a)
    requires Exclusive(c, Short, sys, id) && Exclusive(c, Short, Apply(c, sys, a), id)
    ensures IdGood(c, Apply(c, sys, a), id)
  {
    if a.Run? {
      RunKeepsIdGood(c, sys, a, id);
    } else {
      SpawnKeepsIdGood(c, sys, a, id);
    }
  }

  /** Up to state k, at most one task at a time is inside its window on `id`. */
  ghost predicate Locked(c: Crypto, lock: Lock, states: seq<System>, k: nat, id: Hash)
    requires k < |states|
  {
    forall j :: 0 <= j <= k ==> Exclusive(c, lock, states[j], id)
  }

  lemma {:induction false} LockedGood(c: Crypto, states: seq<System>, actions: seq<Action>, k: nat, id: Hash)
    requires Execution(c, states, actions) && k < |states| && Locked(c, Short, states, k, id)
    ensures IdGood(c, states[k], id)
  {
    if k > 0 {
      LockedGood(c, states, actions, k - 1, id);
      ExecutionLogged(c, states, actions, k - 1);
      assert states[k - 1 + 1] == Apply(c, states[k - 1], actions[k - 1]);
      ApplyKeepsIdGood(c, states[k - 1], actions[k - 1], id);
    }
  }

  lemma {:induction false} ToldIsCollected(log: seq<DomainEvent>, id: Hash)
    ensures forall x :: x in Told(log, id) <==> x in Collectors(History(log, id))
  {
    if log != [] {
      var before, e := log[..|log| - 1], log[|log| - 1];
      ToldIsCollected(before, id);
      assert log == before + [e];
      ToldAppend(before, e, id);
      HistoryAppend(before, e, id);
      CollectorsAppend(History(before, id), e);
    }
  }

  /** Lossless collection. While at most one task at a time has been between its first store
      access and its last access to the pending store on `id`, then whenever none is, the
      message is in at most one store, and the guardians whose signatures have been announced,
      each once and counting up, are exactly the signers held. Tasks on other ids and registry
      upgrades interleave freely. */
  lemma LosslessUnderLock(c: Crypto, states: seq<System>, actions: seq<Action>, k: nat, id: Hash)
    requires Execution(c, states, actions) && k < |states|
    requires Locked(c, Short, states, k, id) && Free(c, Short, states[k], id)
    ensures var s := states[k].stores;
            var h := History(s.events, id);
            && !(id in s.pending && id in s.vaas)
            && (if Stored(s, id) then
                  && Told(s.events, id) == Signers(HeldFor(s, id))
                  && |Collectors(h)| == |HeldFor(s, id)|
                  && CountsUp(h, if id in s.pending then s.pending[id].Needed() else |HeldFor(s, id)|)
                else h == [])
  {
    LockedGood(c, states, actions, k, id);
    ToldIsCollected(states[k].stores.events, id);
  }
}
