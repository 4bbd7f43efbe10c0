/** Reachable failures of interleaved operations on one message: for each of them, a family of
    executions from the initial state, and exactly when it does harm. */
module Losses {
  import opened Prelude
  import opened Vaa
  import opened VaaCodec
  import opened Domain
  import opened Engine
  import opened Interleaving
  import opened EngineRuns
  import opened Schedules
  import opened Exclusion
  import opened LockedGrammar
  import opened Reach
  import opened Races

  ghost predicate AllFinished(tasks: seq<Task>) {
    forall t :: t in tasks ==> t.Finished?
  }

  // ----- overlapping submissions

  ghost predicate TwoSigners(c: Crypto, s: Stores, gsi: U32, id: Hash, a: GuardianSignature, b: GuardianSignature) {
    && gsi in s.sets && Quorum(|s.sets[gsi].keys|) >= 3
    && SignatureValid(c, id, s.sets[gsi].keys, a) && SignatureValid(c, id, s.sets[gsi].keys, b)
    && a.guardianIndex != b.guardianIndex
  }

  lemma ObservedReachable(c: Crypto, s: Stores, gsi: U32, body: VaaBody, now: I64)
    requires InitialStores(s) && gsi in s.sets
    ensures Reachable(c, None, System(Observe(c, s, gsi, body, now).0, [Finished(Observed(Ok(Digest(c, body))))]))
  {
    ReachStart(c, None, s);
    InitialGood(c, s);
    var observe := ObserveCall(gsi, body, now);
    ReachCall(c, System(s, []), observe);
    assert [] + [Ending(c, s, observe)] == [Finished(Observed(Ok(Digest(c, body))))];
  }

  /** After one observation, every interleaving of two submissions is an execution. */
  lemma {:induction false} RaceReachable(c: Crypto, s: Stores, gsi: U32, body: VaaBody, now: I64,
                                         a: GuardianSignature, b: GuardianSignature, moves: seq<Move>)
    requires InitialStores(s) && TwoSigners(c, s, gsi, Digest(c, body), a, b)
    ensures var id, start := Digest(c, body), Observe(c, s, gsi, body, now).0;
            var q := RunPair(c, Pair(start, SubmitLoad(id, a), SubmitLoad(id, b)), moves);
            && TwoMore(c, start, id, a, b)
            && Reachable(c, None, System(q.stores, [Finished(Observed(Ok(id)))] + [q.one, q.two]))
  {
    var id, start := Digest(c, body), Observe(c, s, gsi, body, now).0;
    ObservedReachable(c, s, gsi, body, now);
    var observed, one, two := [Finished(Observed(Ok(id)))], SubmitLoad(id, a), SubmitLoad(id, b);
    SpawnTwo(c, System(start, observed), id, a, b);
    PairReachable(c, Pair(start, one, two), observed, moves);
  }

  lemma SpawnTwo(c: Crypto, sys: System, id: Hash, a: GuardianSignature, b: GuardianSignature)
    requires Reachable(c, None, sys)
    ensures Reachable(c, None, sys.(tasks := sys.tasks + [SubmitLoad(id, a), SubmitLoad(id, b)]))
  {
    ReachStep(c, None, sys, SpawnSubmit(id, a));
    ReachStep(c, None, sys.(tasks := sys.tasks + [SubmitLoad(id, a)]), SpawnSubmit(id, b));
    assert sys.tasks + [SubmitLoad(id, a)] + [SubmitLoad(id, b)] == sys.tasks + [SubmitLoad(id, a), SubmitLoad(id, b)];
  }

  ghost function Alternately(now: I64): seq<Move> {
    var x, y := Move(true, now), Move(false, now);
    [x, y, x, y, x, y, x, y]
  }

  lemma AppendMove(moves: seq<Move>, m: Move, x: bool)
    ensures var moves' := moves + [m];
            && Steps(moves', x) == Steps(moves, x) + (if m.first == x then 1 else 0)
            && (StoresBeforeOtherLoads(moves', x)
                <==> StoresBeforeOtherLoads(moves, x) || (Steps(moves', x) >= 4 && Steps(moves', !x) == 0))
            && LastToStore(moves') == if Steps(moves, m.first) == 3 then Some(m.first) else LastToStore(moves)
  {
    assert (moves + [m])[..|moves|] == moves;
  }

  lemma TakeTurns(moves: seq<Move>, now: I64)
    requires Steps(moves, true) == Steps(moves, false)
    requires !StoresBeforeOtherLoads(moves, true) && !StoresBeforeOtherLoads(moves, false)
    ensures var moves' := moves + [Move(true, now)] + [Move(false, now)];
            && Steps(moves', true) == Steps(moves', false) == Steps(moves, true) + 1
            && !StoresBeforeOtherLoads(moves', true) && !StoresBeforeOtherLoads(moves', false)
            && LastToStore(moves') == if Steps(moves, true) == 3 then Some(false) else LastToStore(moves)
  {
    var mid := moves + [Move(true, now)];
    AppendMove(moves, Move(true, now), true);
    AppendMove(moves, Move(true, now), false);
    AppendMove(mid, Move(false, now), true);
    AppendMove(mid, Move(false, now), false);
  }

  lemma AlternatelyOverlaps(now: I64)
    ensures var moves := Alternately(now);
            && Steps(moves, true) == 4 && Steps(moves, false) == 4
            && !StoresBeforeOtherLoads(moves, true) && !StoresBeforeOtherLoads(moves, false)
            && LastToStore(moves) == Some(false)
  {
    var x, y := Move(true, now), Move(false, now);
    TakeTurns([], now);
    TakeTurns([] + [x] + [y], now);
    TakeTurns([] + [x] + [y] + [x] + [y], now);
    TakeTurns([] + [x] + [y] + [x] + [y] + [x] + [y], now);
    assert [] + [x] + [y] + [x] + [y] + [x] + [y] + [x] + [y] == Alternately(now);
  }

  /** An execution that loses a signature: one observation, then two submissions that take turns.
      Everything has finished and both guardians have been told that their signature was
      collected, but only the second is held. */
  lemma {:induction false} LossReachable(c: Crypto, s: Stores, gsi: U32, body: VaaBody, now: I64,
                                         a: GuardianSignature, b: GuardianSignature)
    returns (end: System)
    requires InitialStores(s) && TwoSigners(c, s, gsi, Digest(c, body), a, b)
    ensures Reachable(c, None, end) && AllFinished(end.tasks)
    ensures var id := Digest(c, body);
            && {a.guardianIndex, b.guardianIndex} <= Told(end.stores.events, id)
            && id in end.stores.pending && id !in end.stores.vaas
            && Signers(end.stores.pending[id].signatures) == {b.guardianIndex}
            && !HistoryGood(end.stores, id)
  {
    var id, start := Digest(c, body), Observe(c, s, gsi, body, now).0;
    var r, moves := Race(start, id, a, b), Alternately(now);
    RaceReachable(c, s, gsi, body, now, a, b, moves);
    AlternatelyOverlaps(now);
    OverlappingSubmissionsLoseOne(c, start, id, a, b, moves);
    RaceRun(c, r, moves);
    var q := RunPair(c, Pair(start, SubmitLoad(id, a), SubmitLoad(id, b)), moves);
    end := System(q.stores, [Finished(Observed(Ok(id)))] + [q.one, q.two]);
    assert Signers([]) == {};
  }

  // ----- a late observation

  ghost function AfterLateObserver(c: Crypto, t: Stores, gsi: U32, body: VaaBody, guardians: nat, now: I64): Stores {
    t.(pending := t.pending[Digest(c, body) := NewPending(c, gsi, body, guardians, now)],
       events := t.events + [MessageObserved(Digest(c, body))])
  }

  lemma ParkedObserver(c: Crypto, s: Stores, gsi: U32, body: VaaBody, now: I64)
    requires InitialStores(s) && gsi in s.sets
    ensures Reachable(c, None, System(s, [ObserveStore(NewPending(c, gsi, body, |s.sets[gsi].keys|, now))]))
  {
    var t0, t1, t2 := ObserveCheckDone(gsi, body), ObserveCheckPending(gsi, body), ObserveResolve(gsi, body);
    var t3 := ObserveStore(NewPending(c, gsi, body, |s.sets[gsi].keys|, now));
    ReachStart(c, None, s);
    ReachStep(c, None, System(s, []), SpawnObserve(gsi, body));
    assert [] + [t0] == [t0] + [];
    ReachNext(c, None, s, t0, [], now, s, t1);
    ReachNext(c, None, s, t1, [], now, s, t2);
    ReachNext(c, None, s, t2, [], now, s, t3);
    assert [t3] + [] == [t3];
  }

  /** An observation that has looked for the message and not found it may store it after any
      serial calls of others. */
  lemma {:induction false} LateObserverReachable(c: Crypto, s: Stores, gsi: U32, body: VaaBody, calls: seq<Call>,
                                                 now: I64)
    requires InitialStores(s) && gsi in s.sets && FreshUpgrades(c, s, calls)
    ensures var end := System(AfterLateObserver(c, RunCalls(c, s, calls), gsi, body, |s.sets[gsi].keys|, now),
                              [Finished(Observed(Ok(Digest(c, body))))] + Endings(c, s, calls));
            Reachable(c, None, end) && AllFinished(end.tasks)
  {
    var p := NewPending(c, gsi, body, |s.sets[gsi].keys|, now);
    InitialGood(c, s);
    ParkedObserver(c, s, gsi, body, now);
    SerialRunReachable(c, System(s, [ObserveStore(p)]), calls);
    StoreReachable(c, RunCalls(c, s, calls), p, Endings(c, s, calls));
  }

  lemma StoreReachable(c: Crypto, t: Stores, p: PendingObservation, e: seq<Task>)
    requires Reachable(c, None, System(t, [ObserveStore(p)] + e))
    ensures var id := p.message.id;
            Reachable(c, None, System(t.(pending := t.pending[id := p], events := t.events + [MessageObserved(id)]),
                                      [Finished(Observed(Ok(id)))] + e))
  {
    var id := p.message.id;
    var t1 := t.(pending := t.pending[id := p]);
    var t2 := t1.(events := t.events + [MessageObserved(id)]);
    ReachNext(c, None, t, ObserveStore(p), e, 0, t1, ObserveAnnounce(id));
    ReachNext(c, None, t1, ObserveAnnounce(id), e, 0, t2, Finished(Observed(Ok(id))));
  }

  /** What the late observation does to a serial run: it does no harm exactly when the message has
      not been stored in the meantime. Otherwise every signature held for it is dropped, though
      announced; or, when the message had been completed, it is in both stores. */
  lemma {:induction false} LateObserverErases(c: Crypto, s: Stores, gsi: U32, body: VaaBody, calls: seq<Call>, now: I64)
    requires InitialStores(s) && gsi in s.sets && FreshUpgrades(c, s, calls)
    ensures var id, t := Digest(c, body), RunCalls(c, s, calls);
            var end := AfterLateObserver(c, t, gsi, body, |s.sets[gsi].keys|, now);
            && (HistoryGood(end, id) <==> !Stored(t, id))
            && end.pending[id].signatures == []
            && Told(end.events, id) == (if Stored(t, id) then Signers(HeldFor(t, id)) else {})
            && (id in end.pending && id in end.vaas <==> id in t.vaas)
  {
    var id, t := Digest(c, body), RunCalls(c, s, calls);
    var end := AfterLateObserver(c, t, gsi, body, |s.sets[gsi].keys|, now);
    InitialGood(c, s);
    RunGood(c, s, calls);
    assert HistoryGood(t, id);
    ToldAppend(t.events, MessageObserved(id), id);
    ToldIsCollected(t.events, id);
    if Stored(t, id) {
      SecondObserved(t, end, id);
    } else {
      NewHistory(t, end, id);
    }
  }

  lemma SecondObserved(t: Stores, end: Stores, id: Hash)
    requires HistoryGood(t, id) && Stored(t, id) && end.events == t.events + [MessageObserved(id)]
    requires id in end.pending
    ensures !HistoryGood(end, id)
  {
    var h, h' := History(t.events, id), History(end.events, id);
    HistoryAppend(t.events, MessageObserved(id), id);
    ScriptShape(id, Collectors(h), if id in t.vaas then |t.vaas[id].vaa.signatures| else t.pending[id].Needed());
    assert |h| > 0 && h'[|h|] == MessageObserved(id);
    if id !in end.vaas {
      ScriptShape(id, Collectors(h'), end.pending[id].Needed());
    }
  }

  // ----- a late submission

  /** A guardian's first valid signature for a pending message. */
  ghost predicate OneMore(c: Crypto, s: Stores, id: Hash, sig: GuardianSignature) {
    && id in s.pending && s.pending[id].message.id == id && HeldGood(c, s.sets, s.pending[id])
    && SignatureValid(c, id, s.sets[s.pending[id].message.guardianSetIndex].keys, sig)
    && sig.guardianIndex !in Signers(s.pending[id].signatures)
  }

  /** The end of a submission that loaded `p` and comes to store it in `t`: the stores and its
      reply. */
  ghost function LateSubmission(c: Crypto, t: Stores, p: PendingObservation, sig: GuardianSignature, now: I64)
    : (Stores, Task)
    requires p.message.guardianSetIndex in t.sets
  {
    var (s, reply) := Accept(c, t, p.message.id, p.With(sig), sig.guardianIndex,
                             t.sets[p.message.guardianSetIndex].keys, now);
    (s, Finished(Submitted(reply)))
  }

  lemma LateSteps(c: Crypto, s: Stores, t: Stores, id: Hash, sig: GuardianSignature, now: I64)
    requires OneMore(c, s, id, sig) && Extends(s.sets, t.sets)
    ensures var p := s.pending[id];
            RunToEnd(c, t, SubmitResolve(id, sig, p), now) == LateSubmission(c, t, p, sig, now)
  {
    var p, keys := s.pending[id], t.sets[s.pending[id].message.guardianSetIndex].keys;
    ScreenPassed(c, id, p, keys, sig);
    OneStep(c, t, SubmitResolve(id, sig, p), now);
    AcceptUninterrupted(c, t, id, p.With(sig), sig.guardianIndex, keys, now);
  }

  /** What it stores: the observation it loaded with its signature added, or, when that makes a
      quorum, the assembled record. */
  lemma LateEffect(c: Crypto, s: Stores, t: Stores, id: Hash, sig: GuardianSignature, now: I64)
    requires OneMore(c, s, id, sig) && Extends(s.sets, t.sets)
    ensures var q := s.pending[id].With(sig);
            var end := LateSubmission(c, t, s.pending[id], sig, now).0;
            var events := t.events + [CollectedEvent(id, sig.guardianIndex, q)];
            && Signers(q.signatures) == Signers(s.pending[id].signatures) + {sig.guardianIndex}
            && |q.signatures| == |s.pending[id].signatures| + 1
            && (|q.signatures| < q.Needed() ==> end == t.(pending := t.pending[id := q], events := events))
            && (|q.signatures| >= q.Needed() ==>
                  && |q.signatures| == q.Needed()
                  && end == t.(vaas := t.vaas[id := VaaRecord(id, Assemble(q), now)], pending := t.pending - {id},
                               events := events + [VaaAssembled(id)]))
  {
    var p := s.pending[id];
    ScreenPassed(c, id, p, s.sets[p.message.guardianSetIndex].keys, sig);
    WithKeepsGood(c, s.sets, p, sig);
    if p.With(sig).QuorumReached() {
      AssembleGood(c, s.sets, p.With(sig), now);
    }
  }

  lemma {:induction false} StaysParked(c: Crypto, mid: Stores, parked: Task, e: seq<Task>, next: seq<Call>)
    requires SerialGood(c, mid) && FreshUpgrades(c, mid, next)
    requires Reachable(c, None, System(mid, [parked] + e))
    ensures Reachable(c, None, System(RunCalls(c, mid, next), [parked] + (e + Endings(c, mid, next))))
    ensures Extends(mid.sets, RunCalls(c, mid, next).sets)
  {
    var e2 := Endings(c, mid, next);
    SerialRunReachable(c, System(mid, [parked] + e), next);
    assert [parked] + e + e2 == [parked] + (e + e2);
    RunGood(c, mid, next);
  }

  lemma SpawnedSubmission(c: Crypto, s: Stores, id: Hash, sig: GuardianSignature)
    requires InitialStores(s)
    ensures Reachable(c, None, System(s, [SubmitLoad(id, sig)] + []))
  {
    ReachStart(c, None, s);
    ReachStep(c, None, System(s, []), SpawnSubmit(id, sig));
    assert [] + [SubmitLoad(id, sig)] == [SubmitLoad(id, sig)] + [];
  }

  lemma {:induction false} ParkedSubmission(c: Crypto, s: Stores, first: seq<Call>, id: Hash, sig: GuardianSignature)
    requires InitialStores(s) && FreshUpgrades(c, s, first) && id in RunCalls(c, s, first).pending
    ensures var mid := RunCalls(c, s, first);
            Reachable(c, None, System(mid, [SubmitResolve(id, sig, mid.pending[id])] + Endings(c, s, first)))
  {
    var mid, e, load := RunCalls(c, s, first), Endings(c, s, first), SubmitLoad(id, sig);
    SpawnedSubmission(c, s, id, sig);
    InitialGood(c, s);
    StaysParked(c, s, load, [], first);
    assert [] + e == e;
    ReachNext(c, None, mid, load, e, 0, mid, SubmitResolve(id, sig, mid.pending[id]));
  }

  lemma LateStore(c: Crypto, mid: Stores, t: Stores, id: Hash, sig: GuardianSignature, e: seq<Task>, now: I64)
    requires OneMore(c, mid, id, sig) && Extends(mid.sets, t.sets)
    requires Reachable(c, None, System(t, [SubmitResolve(id, sig, mid.pending[id])] + e))
    ensures var (end, done) := LateSubmission(c, t, mid.pending[id], sig, now);
            Reachable(c, None, System(end, [done] + e))
  {
    var parked := SubmitResolve(id, sig, mid.pending[id]);
    LateSteps(c, mid, t, id, sig, now);
    ReachRunToEnd(c, System(t, [parked] + e), 0, now);
    var r := LateSubmission(c, t, mid.pending[id], sig, now);
    assert ([parked] + e)[0] == parked && ([parked] + e)[0 := r.1] == [r.1] + e;
  }

  /** A submission may load a message after some serial calls and store it after some more. */
  lemma {:induction false} LateSubmissionReachable(c: Crypto, s: Stores, first: seq<Call>, next: seq<Call>, id: Hash,
                                                   sig: GuardianSignature, now: I64)
    requires InitialStores(s) && FreshUpgrades(c, s, first) && OneMore(c, RunCalls(c, s, first), id, sig)
    requires FreshUpgrades(c, RunCalls(c, s, first), next)
    ensures var mid := RunCalls(c, s, first);
            var t := RunCalls(c, mid, next);
            && Extends(mid.sets, t.sets)
            && var (end, done) := LateSubmission(c, t, mid.pending[id], sig, now);
               && Reachable(c, None, System(end, [done] + (Endings(c, s, first) + Endings(c, mid, next))))
               && AllFinished([done] + (Endings(c, s, first) + Endings(c, mid, next)))
  {
    var mid, e1 := RunCalls(c, s, first), Endings(c, s, first);
    InitialGood(c, s);
    RunGood(c, s, first);
    ParkedSubmission(c, s, first, id, sig);
    StaysParked(c, mid, SubmitResolve(id, sig, mid.pending[id]), e1, next);
    LateStore(c, mid, RunCalls(c, mid, next), id, sig, e1 + Endings(c, mid, next), now);
  }

  /** What the late submission does to the serial run `next` that comes between its load and its
      store: it does no harm exactly when the message is still as it was loaded. Otherwise
      whatever was collected in between is dropped, from the observation or from the record; and
      a message completed in between is pending again, unless the late submission completes it
      once more. */
  lemma {:induction false} LateSubmissionForgets(c: Crypto, mid: Stores, next: seq<Call>, id: Hash,
                                                 sig: GuardianSignature, now: I64)
    requires OneMore(c, mid, id, sig) && SerialGood(c, mid) && FreshUpgrades(c, mid, next)
    ensures var t, p := RunCalls(c, mid, next), mid.pending[id];
            && Extends(mid.sets, t.sets) && Stored(t, id)
            && var end := LateSubmission(c, t, p, sig, now).0;
               && Stored(end, id)
               && (HistoryGood(end, id) <==> id in t.pending && t.pending[id] == p)
               && Signers(HeldFor(end, id)) == Signers(p.signatures) + {sig.guardianIndex}
               && Told(end.events, id) == Signers(HeldFor(t, id)) + {sig.guardianIndex}
               && (id in end.pending && id in end.vaas <==> id in t.vaas && |p.signatures| + 1 < p.Needed())
  {
    var t, p := RunCalls(c, mid, next), mid.pending[id];
    RunGood(c, mid, next);
    HoldsFirstQuorum(c, mid, next, id);
    LateEffect(c, mid, t, id, sig, now);
    assert HistoryGood(t, id);
    var end := LateSubmission(c, t, p, sig, now).0;
    LateTold(t, end, id, CollectedEvent(id, sig.guardianIndex, p.With(sig)));
    if p.With(sig).QuorumReached() {
      LateCompletion(c, t, end, id, p, sig);
    } else {
      LateKeep(c, t, end, id, p, sig);
    }
  }

  lemma LateTold(t: Stores, end: Stores, id: Hash, e: DomainEvent)
    requires HistoryGood(t, id) && Stored(t, id) && !(id in t.pending && id in t.vaas)
    requires e.SignatureCollected? && e.id == id
    requires end.events == t.events + [e] || end.events == t.events + [e] + [VaaAssembled(id)]
    ensures Told(end.events, id) == Signers(HeldFor(t, id)) + {e.guardianIndex}
  {
    ToldAppend(t.events, e, id);
    ToldAppend(t.events + [e], VaaAssembled(id), id);
    ToldIsCollected(t.events, id);
  }

  /** `p` is an earlier state of the message in `t`. */
  ghost predicate Earlier(t: Stores, id: Hash, p: PendingObservation) {
    && p.message.id == id && Ascending(p.signatures)
    && Stored(t, id)
    && ElementSet(p.signatures) <= ElementSet(HeldFor(t, id))
    && (id in t.pending ==> t.pending[id] == p.(signatures := HeldFor(t, id)))
  }

  lemma SameIfAsMany(t: Stores, id: Hash, p: PendingObservation)
    requires Earlier(t, id, p) && id in t.pending && Ascending(t.pending[id].signatures)
    requires |p.signatures| == |t.pending[id].signatures|
    ensures t.pending[id] == p
  {
    var held := t.pending[id].signatures;
    AscendingElements(held);
    SameSet(p.signatures, ElementSet(held));
    AscendingUnique(p.signatures, held);
  }

  lemma LateKeep(c: Crypto, t: Stores, end: Stores, id: Hash, p: PendingObservation, sig: GuardianSignature)
    requires StoresGood(c, t) && Census(t) && HistoryGood(t, id) && Earlier(t, id, p)
    requires sig.guardianIndex !in Signers(p.signatures)
    requires var q := p.With(sig);
             end == t.(pending := t.pending[id := q], events := t.events + [CollectedEvent(id, sig.guardianIndex, q)])
    ensures HistoryGood(end, id) <==> id in t.pending && t.pending[id] == p
  {
    var e, h := CollectedEvent(id, sig.guardianIndex, p.With(sig)), History(t.events, id);
    HistoryAppend(t.events, e, id);
    CollectorsAppend(h, e);
    InsertAddsOne(p.signatures, sig);
    if id in t.vaas {
      assert (h + [e])[|h|] == e;
    } else if t.pending[id] == p {
      KeptHistory(t, id, sig);
    } else if HistoryGood(end, id) {
      SameIfAsMany(t, id, p);
      assert false;
    }
  }

  lemma LateCompletion(c: Crypto, t: Stores, end: Stores, id: Hash, p: PendingObservation, sig: GuardianSignature)
    requires StoresGood(c, t) && Census(t) && HistoryGood(t, id) && Earlier(t, id, p)
    requires sig.guardianIndex !in Signers(p.signatures)
    requires var q := p.With(sig);
             && |q.signatures| == q.Needed()
             && id in end.vaas && end.vaas[id].vaa.signatures == q.signatures
             && end == t.(vaas := t.vaas[id := end.vaas[id]], pending := t.pending - {id},
                          events := t.events + [CollectedEvent(id, sig.guardianIndex, q)] + [VaaAssembled(id)])
    ensures HistoryGood(end, id) <==> id in t.pending && t.pending[id] == p
  {
    var e, h := CollectedEvent(id, sig.guardianIndex, p.With(sig)), History(t.events, id);
    HistoryAppend(t.events, e, id);
    HistoryAppend(t.events + [e], VaaAssembled(id), id);
    CollectorsAppend(h, e);
    CollectorsAppend(h + [e], VaaAssembled(id));
    InsertAddsOne(p.signatures, sig);
    if id in t.vaas {
      var g := Collectors(h + [e]);
      ScriptShape(id, g, |p.With(sig).signatures|);
      ScriptShape(id, Collectors(h), |t.vaas[id].vaa.signatures|);
      assert (h + [e])[|h| - 1] == VaaAssembled(id) && |h| > 1;
    } else if t.pending[id] == p {
      CompletedHistory(t, id, sig, end.vaas[id]);
    } else if HistoryGood(end, id) {
      SameIfAsMany(t, id, p);
      assert false;
    }
  }

  // ----- both stores at once

  ghost function Submissions(id: Hash, sigs: seq<GuardianSignature>, now: I64): seq<Call> {
    seq(|sigs|, k requires 0 <= k < |sigs| => SubmitCall(id, sigs[k], now))
  }

  lemma {:induction false} QuorumCompletes(c: Crypto, s: Stores, id: Hash, sigs: seq<GuardianSignature>, now: I64)
    requires SerialGood(c, s) && id in s.pending
    requires var keys := s.sets[s.pending[id].message.guardianSetIndex].keys;
             AllValid(c, id, keys, sigs) && |Signers(sigs)| >= Quorum(|keys|)
    ensures FreshUpgrades(c, s, Submissions(id, sigs, now))
    ensures id in RunCalls(c, s, Submissions(id, sigs, now)).vaas
  {
    var p := s.pending[id];
    var keys, calls := s.sets[p.message.guardianSetIndex].keys, Submissions(id, sigs, now);
    NoUpgrades(c, s, calls);
    var offered := ElementSet(p.signatures) + ValidSubmissions(c, keys, id, calls);
    forall i | i in Signers(sigs) ensures i in Indices(offered) {
      var k :| 0 <= k < |sigs| && sigs[k].guardianIndex == i;
      assert ValidFor(c, keys, id, calls[k]) && calls[k].sig in offered;
    }
    SubsetCardinality(Signers(sigs), Indices(offered));
    CompletesIffQuorumSubmitted(c, s, calls, id);
  }

  /** An execution that leaves a message in both stores, for every guardian set of which a quorum
      signs: a second observation looks for the message before the first one stores it, and
      stores it after it has been completed. */
  lemma {:induction false} OverlapReachable(c: Crypto, s: Stores, gsi: U32, body: VaaBody,
                                            sigs: seq<GuardianSignature>, now: I64)
    returns (end: System)
    requires InitialStores(s) && gsi in s.sets
    requires AllValid(c, Digest(c, body), s.sets[gsi].keys, sigs) && |Signers(sigs)| >= Quorum(|s.sets[gsi].keys|)
    ensures Reachable(c, None, end) && AllFinished(end.tasks)
    ensures Digest(c, body) in end.stores.pending && Digest(c, body) in end.stores.vaas && !Census(end.stores)
  {
    var id, observe := Digest(c, body), [ObserveCall(gsi, body, now)];
    var subs := Submissions(id, sigs, now);
    InitialGood(c, s);
    NoUpgrades(c, s, observe);
    RunGood(c, s, observe);
    assert observe[..0] == [];
    var mid := RunCalls(c, s, observe);
    assert mid == Observe(c, s, gsi, body, now).0;
    QuorumCompletes(c, mid, id, sigs, now);
    RunCallsSplit(c, s, observe, subs);
    NoUpgrades(c, s, observe + subs);
    LateObserverReachable(c, s, gsi, body, observe + subs, now);
    LateObserverErases(c, s, gsi, body, observe + subs, now);
    end := System(AfterLateObserver(c, RunCalls(c, s, observe + subs), gsi, body, |s.sets[gsi].keys|, now),
                  [Finished(Observed(Ok(id)))] + Endings(c, s, observe + subs));
  }

  // ----- announcements out of order

  /** The end of a submission that has stored `p`. */
  ghost function CollectedReply(p: PendingObservation): Task {
    Finished(Submitted(Ok(Collected(|p.signatures|, p.Needed()))))
  }

  lemma StoredUnannounced(c: Crypto, s: Stores, gsi: U32, body: VaaBody, now: I64)
    requires InitialStores(s) && gsi in s.sets
    ensures var id, p := Digest(c, body), NewPending(c, gsi, body, |s.sets[gsi].keys|, now);
            Reachable(c, Some(id), System(s.(pending := map[id := p]), [ObserveAnnounce(id)]))
  {
    var id, p := Digest(c, body), NewPending(c, gsi, body, |s.sets[gsi].keys|, now);
    var t0, t1, t2 := ObserveCheckDone(gsi, body), ObserveCheckPending(gsi, body), ObserveResolve(gsi, body);
    ReachStart(c, Some(id), s);
    assert [] + [t0] == [t0] + [];
    ReachStep(c, Some(id), System(s, []), SpawnObserve(gsi, body));
    ReachNext(c, Some(id), s, t0, [], now, s, t1);
    ReachNext(c, Some(id), s, t1, [], now, s, t2);
    ReachNext(c, Some(id), s, t2, [], now, s, ObserveStore(p));
    var s1 := s.(pending := map[id := p]);
    assert s.pending[id := p] == map[id := p];
    ReachNext(c, Some(id), s, ObserveStore(p), [], now, s1, ObserveAnnounce(id));
    assert [ObserveAnnounce(id)] + [] == [ObserveAnnounce(id)];
  }

  /** Beside an observation that is about to be announced, a task takes a step. */
  lemma ReachBeside(c: Crypto, s: Stores, id: Hash, t: Task, s': Stores, t': Task)
    requires Reachable(c, Some(id), System(s, [ObserveAnnounce(id), t])) && !t.UpgradeInsert?
    requires (s', t') == Advance(c, s, t, 0)
    ensures Reachable(c, Some(id), System(s', [ObserveAnnounce(id), t']))
  {
    var sys := System(s, [ObserveAnnounce(id), t]);
    assert sys.tasks[1 := t'] == [ObserveAnnounce(id), t'];
    assert Apply(c, sys, Run(1, 0)) == System(s', [ObserveAnnounce(id), t']);
    ReachStep(c, Some(id), sys, Run(1, 0));
  }

  lemma SpawnBeside(c: Crypto, s: Stores, id: Hash, sig: GuardianSignature)
    requires Reachable(c, Some(id), System(s, [ObserveAnnounce(id)]))
    ensures Reachable(c, Some(id), System(s, [ObserveAnnounce(id), SubmitLoad(id, sig)]))
  {
    assert [ObserveAnnounce(id)] + [SubmitLoad(id, sig)] == [ObserveAnnounce(id), SubmitLoad(id, sig)];
    ReachStep(c, Some(id), System(s, [ObserveAnnounce(id)]), SpawnSubmit(id, sig));
  }

  /** A submission runs to its end before the observation is announced. */
  lemma SubmittedUnannounced(c: Crypto, s: Stores, id: Hash, sig: GuardianSignature)
    requires OneMore(c, s, id, sig) && |s.pending[id].signatures| + 1 < s.pending[id].Needed()
    requires Reachable(c, Some(id), System(s, [ObserveAnnounce(id)]))
    ensures var q := s.pending[id].With(sig);
            var e := CollectedEvent(id, sig.guardianIndex, q);
            Reachable(c, Some(id), System(s.(pending := s.pending[id := q], events := s.events + [e]),
                                          [ObserveAnnounce(id), CollectedReply(q)]))
  {
    var p, q := s.pending[id], s.pending[id].With(sig);
    var load, resolve := SubmitLoad(id, sig), SubmitResolve(id, sig, p);
    var announce := SubmitAnnounce(id, sig.guardianIndex, q, s.sets[p.message.guardianSetIndex].keys);
    var s1 := s.(events := s.events + [CollectedEvent(id, sig.guardianIndex, q)]);
    SpawnBeside(c, s, id, sig);
    ReachBeside(c, s, id, load, s, resolve);
    ScreenPassed(c, id, p, s.sets[p.message.guardianSetIndex].keys, sig);
    WithKeepsGood(c, s.sets, p, sig);
    ReachBeside(c, s, id, resolve, s, announce);
    ReachBeside(c, s, id, announce, s1, SubmitKeep(q));
    KeptUnannounced(c, s1, id, q);
  }

  lemma KeptUnannounced(c: Crypto, s: Stores, id: Hash, q: PendingObservation)
    requires Reachable(c, Some(id), System(s, [ObserveAnnounce(id), SubmitKeep(q)])) && q.message.id == id
    ensures Reachable(c, Some(id), System(s.(pending := s.pending[id := q]), [ObserveAnnounce(id), CollectedReply(q)]))
  {
    ReachBeside(c, s, id, SubmitKeep(q), s.(pending := s.pending[id := q]), CollectedReply(q));
  }

  lemma AnnouncedLast(c: Crypto, s: Stores, id: Hash, done: Task)
    requires Reachable(c, Some(id), System(s, [ObserveAnnounce(id), done])) && done.Finished?
    ensures Reachable(c, Some(id), System(s.(events := s.events + [MessageObserved(id)]),
                                          [Finished(Observed(Ok(id))), done]))
  {
    var observed, s' := Finished(Observed(Ok(id))), s.(events := s.events + [MessageObserved(id)]);
    assert [ObserveAnnounce(id)] + [done] == [ObserveAnnounce(id), done];
    assert [observed] + [done] == [observed, done];
    ReachNext(c, Some(id), s, ObserveAnnounce(id), [done], 0, s', observed);
  }

  lemma FirstFits(c: Crypto, s: Stores, start: Stores, gsi: U32, body: VaaBody, sig: GuardianSignature, now: I64)
    requires gsi in s.sets && Quorum(|s.sets[gsi].keys|) >= 2
    requires SignatureValid(c, Digest(c, body), s.sets[gsi].keys, sig)
    requires var p := NewPending(c, gsi, body, |s.sets[gsi].keys|, now);
             start == s.(pending := map[Digest(c, body) := p])
    ensures OneMore(c, start, Digest(c, body), sig)
  {}

  /** Under the short lock the event grammar can still fail: this execution respects the lock,
      everything has finished, the signature is held, and yet the observation is announced
      after it. The operations as a whole must exclude each other, or a submission must wait
      until the observation has been announced. */
  lemma {:induction false} LateAnnouncement(c: Crypto, s: Stores, gsi: U32, body: VaaBody, sig: GuardianSignature,
                                            now: I64)
    returns (end: System)
    requires InitialStores(s) && gsi in s.sets && Quorum(|s.sets[gsi].keys|) >= 2
    requires SignatureValid(c, Digest(c, body), s.sets[gsi].keys, sig)
    ensures Reachable(c, Some(Digest(c, body)), end) && AllFinished(end.tasks)
    ensures !HistoryGood(end.stores, Digest(c, body))
  {
    var id, p := Digest(c, body), NewPending(c, gsi, body, |s.sets[gsi].keys|, now);
    var start, q := s.(pending := map[id := p]), p.With(sig);
    StoredUnannounced(c, s, gsi, body, now);
    FirstFits(c, s, start, gsi, body, sig, now);
    SubmittedUnannounced(c, start, id, sig);
    var e1, e2 := CollectedEvent(id, sig.guardianIndex, q), MessageObserved(id);
    var t := start.(pending := start.pending[id := q], events := start.events + [e1]);
    AnnouncedLast(c, t, id, CollectedReply(q));
    end := System(t.(events := t.events + [e2]), [Finished(Observed(Ok(id))), CollectedReply(q)]);
    CollectedFirst(end.stores, id, e1, e2);
  }

  lemma CollectedFirst(s: Stores, id: Hash, e1: DomainEvent, e2: DomainEvent)
    requires s.events == [e1] + [e2] && e1.id == id && e2.id == id && e1.SignatureCollected?
    requires id in s.pending && id !in s.vaas
    ensures !HistoryGood(s, id)
  {
    HistoryAppend([], e1, id);
    HistoryAppend([e1], e2, id);
    assert [] + [e1] == [e1] && [e1] + [e2] == [e1, e2];
    ScriptShape(id, Collectors([e1, e2]), s.pending[id].Needed());
  }
}
