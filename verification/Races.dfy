/** What interleaved operations on one message lose, and exactly when. */
module Races {
  import opened Prelude
  import opened Vaa
  import opened VaaCodec
  import opened Domain
  import opened Engine
  import opened Interleaving
  import opened EngineRuns
  import opened Schedules
  import opened Exclusion
  import opened Reach

  /** Two guardians' first valid signatures for a pending observation, short of its quorum. */
  ghost predicate TwoMore(c: Crypto, s: Stores, id: Hash, a: GuardianSignature, b: GuardianSignature) {
    && id in s.pending && s.pending[id].message.id == id && HeldGood(c, s.sets, s.pending[id])
    && var p := s.pending[id];
       var keys := s.sets[p.message.guardianSetIndex].keys;
       && SignatureValid(c, id, keys, a) && SignatureValid(c, id, keys, b)
       && a.guardianIndex != b.guardianIndex
       && a.guardianIndex !in Signers(p.signatures) && b.guardianIndex !in Signers(p.signatures)
       && |p.signatures| + 2 < p.Needed()
  }

  lemma SubmitKeeps(c: Crypto, s: Stores, id: Hash, sig: GuardianSignature, now: I64)
    requires id in s.pending && HeldGood(c, s.sets, s.pending[id]) && s.pending[id].message.id == id
    requires SignatureValid(c, id, s.sets[s.pending[id].message.guardianSetIndex].keys, sig)
    requires sig.guardianIndex !in Signers(s.pending[id].signatures)
    requires |s.pending[id].signatures| + 1 < s.pending[id].Needed()
    ensures var p := s.pending[id].With(sig);
            && HeldGood(c, s.sets, p)
            && Signers(p.signatures) == Signers(s.pending[id].signatures) + {sig.guardianIndex}
            && |p.signatures| == |s.pending[id].signatures| + 1
            && Submit(c, s, id, sig, now).0
               == s.(pending := s.pending[id := p], events := s.events + [CollectedEvent(id, sig.guardianIndex, p)])
  {
    ScreenPassed(c, id, s.pending[id], s.sets[s.pending[id].message.guardianSetIndex].keys, sig);
    WithKeepsGood(c, s.sets, s.pending[id], sig);
  }

  /** Serially, both signatures are held afterwards. */
  lemma SerialSubmissionsKeepBoth(c: Crypto, s: Stores, id: Hash, a: GuardianSignature, b: GuardianSignature, now: I64)
    requires TwoMore(c, s, id, a, b)
    ensures var s' := Submit(c, Submit(c, s, id, a, now).0, id, b, now).0;
            && id in s'.pending
            && Signers(s'.pending[id].signatures)
               == Signers(s.pending[id].signatures) + {a.guardianIndex, b.guardianIndex}
  {
    SubmitKeeps(c, s, id, a, now);
    SubmitKeeps(c, Submit(c, s, id, a, now).0, id, b, now);
  }

  // ----- every interleaving of two submissions

  /** How many of the moves are the first task's, or the second's. */
  function Steps(moves: seq<Move>, first: bool): nat {
    if moves == [] then 0
    else Steps(moves[..|moves| - 1], first) + (if moves[|moves| - 1].first == first then 1 else 0)
  }

  /** A submission that is kept takes four steps: load, resolve, announce, store. This one has
      stored before the other loads. */
  predicate StoresBeforeOtherLoads(moves: seq<Move>, first: bool) {
    moves != [] &&
    (StoresBeforeOtherLoads(moves[..|moves| - 1], first) || (Steps(moves, first) >= 4 && Steps(moves, !first) == 0))
  }

  lemma {:induction false} BeforeMeansSteps(moves: seq<Move>, first: bool)
    requires StoresBeforeOtherLoads(moves, first)
    ensures Steps(moves, first) >= 4
  {
    if StoresBeforeOtherLoads(moves[..|moves| - 1], first) {
      BeforeMeansSteps(moves[..|moves| - 1], first);
    }
  }

  /** Which submission has stored last. */
  function LastToStore(moves: seq<Move>): Option<bool> {
    if moves == [] then None
    else
      var before, x := moves[..|moves| - 1], moves[|moves| - 1].first;
      if Steps(before, x) == 3 then Some(x) else LastToStore(before)
  }

  lemma {:induction false} LastFacts(moves: seq<Move>, x: bool)
    ensures LastToStore(moves) == None <==> Steps(moves, true) < 4 && Steps(moves, false) < 4
    ensures LastToStore(moves) == Some(x) ==> Steps(moves, x) >= 4
    ensures StoresBeforeOtherLoads(moves, x) && Steps(moves, !x) >= 4 ==> LastToStore(moves) == Some(!x)
  {
    if moves != [] {
      var before := moves[..|moves| - 1];
      LastFacts(before, x);
      if StoresBeforeOtherLoads(before, x) {
        BeforeMeansSteps(before, x);
      }
    }
  }

  /** Two submissions for a pending message. */
  datatype Race = Race(start: Stores, id: Hash, a: GuardianSignature, b: GuardianSignature) {
    function Sig(first: bool): GuardianSignature {
      if first then a else b
    }

    /** What the submission loads, once it does. */
    ghost function Loaded(moves: seq<Move>, first: bool): PendingObservation
      requires id in start.pending
    {
      if StoresBeforeOtherLoads(moves, !first) then start.pending[id].With(Sig(!first)) else start.pending[id]
    }

    /** What it stores. */
    ghost function Result(moves: seq<Move>, first: bool): PendingObservation
      requires id in start.pending
    {
      Loaded(moves, first).With(Sig(first))
    }

    ghost function Announcement(moves: seq<Move>, first: bool): DomainEvent
      requires id in start.pending
    {
      CollectedEvent(id, Sig(first).guardianIndex, Result(moves, first))
    }

    ghost function TaskAfter(moves: seq<Move>, first: bool): Task
      requires id in start.pending && start.pending[id].message.guardianSetIndex in start.sets
    {
      var result := Result(moves, first);
      var keys := start.sets[start.pending[id].message.guardianSetIndex].keys;
      match Steps(moves, first)
      case 0 => SubmitLoad(id, Sig(first))
      case 1 => SubmitResolve(id, Sig(first), Loaded(moves, first))
      case 2 => SubmitAnnounce(id, Sig(first).guardianIndex, result, keys)
      case 3 => SubmitKeep(result)
      case _ => Finished(Submitted(Ok(Collected(|result.signatures|, result.Needed()))))
    }
  }

  ghost predicate StoredAfter(r: Race, moves: seq<Move>, p: PendingObservation)
    requires r.id in r.start.pending
  {
    p == match LastToStore(moves)
         case None => r.start.pending[r.id]
         case Some(x) => r.Result(moves, x)
  }

  ghost function AnnouncedBy(r: Race, moves: seq<Move>, x: bool): multiset<DomainEvent>
    requires r.id in r.start.pending
  {
    if Steps(moves, x) >= 3 then multiset{r.Announcement(moves, x)} else multiset{}
  }

  ghost predicate EventsAfter(r: Race, moves: seq<Move>, events: seq<DomainEvent>)
    requires r.id in r.start.pending
  {
    && multiset(events) == multiset(r.start.events) + AnnouncedBy(r, moves, true) + AnnouncedBy(r, moves, false)
    && EndsCollected(r, moves, events)
  }

  ghost predicate EndsCollected(r: Race, moves: seq<Move>, events: seq<DomainEvent>) {
    Steps(moves, true) >= 3 || Steps(moves, false) >= 3 ==>
      events != [] && events[|events| - 1].SignatureCollected? && events[|events| - 1].id == r.id
  }

  /** What the stores hold after `moves`. */
  ghost predicate StoresAt(r: Race, moves: seq<Move>, s: Stores)
    requires r.id in r.start.pending
  {
    && r.id in s.pending
    && StoredAfter(r, moves, s.pending[r.id])
    && EventsAfter(r, moves, s.events)
    && s == r.start.(pending := r.start.pending[r.id := s.pending[r.id]], events := s.events)
  }

  /** Where the two submissions and the stores are after `moves`. */
  ghost predicate RaceAt(c: Crypto, r: Race, moves: seq<Move>, q: Pair)
    requires TwoMore(c, r.start, r.id, r.a, r.b)
  {
    && q.one == r.TaskAfter(moves, true)
    && q.two == r.TaskAfter(moves, false)
    && StoresAt(r, moves, q.stores)
  }

  /** Whatever a submission has loaded, its signature is new there and leaves it short of the
      quorum. */
  lemma LoadedFits(c: Crypto, r: Race, moves: seq<Move>, first: bool)
    requires TwoMore(c, r.start, r.id, r.a, r.b)
    ensures var p, loaded, sig := r.start.pending[r.id], r.Loaded(moves, first), r.Sig(first);
            var keys := r.start.sets[p.message.guardianSetIndex].keys;
            && loaded.message == p.message && loaded.guardianCount == p.guardianCount
            && Screen(c, r.id, loaded, keys, sig) == None
            && Signers(loaded.signatures) <= Signers(p.signatures) + {r.Sig(!first).guardianIndex}
            && Signers(p.signatures) <= Signers(loaded.signatures)
            && Signers(r.Result(moves, first).signatures) == Signers(loaded.signatures) + {sig.guardianIndex}
            && |r.Result(moves, first).signatures| < p.Needed()
  {
    var p, loaded, sig := r.start.pending[r.id], r.Loaded(moves, first), r.Sig(first);
    var keys := r.start.sets[p.message.guardianSetIndex].keys;
    if StoresBeforeOtherLoads(moves, !first) {
      ScreenPassed(c, r.id, p, keys, r.Sig(!first));
      WithKeepsGood(c, r.start.sets, p, r.Sig(!first));
    }
    ScreenPassed(c, r.id, loaded, keys, sig);
    WithKeepsGood(c, r.start.sets, loaded, sig);
  }

  lemma MoveCounts(r: Race, moves: seq<Move>, m: Move)
    requires r.id in r.start.pending
    ensures var moves', x := moves + [m], m.first;
            && Steps(moves', x) == Steps(moves, x) + 1 && Steps(moves', !x) == Steps(moves, !x)
            && StoresBeforeOtherLoads(moves', !x) == StoresBeforeOtherLoads(moves, !x)
            && (StoresBeforeOtherLoads(moves', x)
                <==> StoresBeforeOtherLoads(moves, x) || (Steps(moves', x) >= 4 && Steps(moves, !x) == 0))
            && r.Loaded(moves', x) == r.Loaded(moves, x)
            && (Steps(moves, !x) > 0 ==> r.Loaded(moves', !x) == r.Loaded(moves, !x))
  {
    var moves' := moves + [m];
    assert moves'[..|moves|] == moves;
    if Steps(moves, !m.first) >= 4 && Steps(moves', m.first) == 0 {
      assert false;
    }
    if StoresBeforeOtherLoads(moves', !m.first) && !StoresBeforeOtherLoads(moves, !m.first) {
      assert false;
    }
  }

  lemma LoadMove(c: Crypto, r: Race, moves: seq<Move>, q: Pair, x: bool, now: I64)
    requires TwoMore(c, r.start, r.id, r.a, r.b) && RaceAt(c, r, moves, q) && Steps(moves, x) == 0
    ensures Advance(c, q.stores, r.TaskAfter(moves, x), now)
         == (q.stores, SubmitResolve(r.id, r.Sig(x), r.Loaded(moves, x)))
  {
    NothingStoredYet(r, moves, x);
    LastFacts(moves, x);
    LastFacts(moves, !x);
  }

  lemma ResolveMove(c: Crypto, r: Race, moves: seq<Move>, q: Pair, x: bool, now: I64)
    requires TwoMore(c, r.start, r.id, r.a, r.b) && RaceAt(c, r, moves, q) && Steps(moves, x) == 1
    ensures var keys := r.start.sets[r.start.pending[r.id].message.guardianSetIndex].keys;
            Advance(c, q.stores, r.TaskAfter(moves, x), now)
            == (q.stores, SubmitAnnounce(r.id, r.Sig(x).guardianIndex, r.Result(moves, x), keys))
  {
    LoadedFits(c, r, moves, x);
  }

  lemma AnnounceMove(c: Crypto, r: Race, moves: seq<Move>, q: Pair, x: bool, now: I64)
    requires TwoMore(c, r.start, r.id, r.a, r.b) && RaceAt(c, r, moves, q) && Steps(moves, x) == 2
    ensures Advance(c, q.stores, r.TaskAfter(moves, x), now)
         == (q.stores.(events := q.stores.events + [r.Announcement(moves, x)]), SubmitKeep(r.Result(moves, x)))
  {
    LoadedFits(c, r, moves, x);
  }

  lemma KeepMove(c: Crypto, r: Race, moves: seq<Move>, q: Pair, x: bool, now: I64)
    requires TwoMore(c, r.start, r.id, r.a, r.b) && RaceAt(c, r, moves, q) && Steps(moves, x) == 3
    ensures var p := r.Result(moves, x);
            Advance(c, q.stores, r.TaskAfter(moves, x), now)
            == (q.stores.(pending := q.stores.pending[r.id := p]),
                Finished(Submitted(Ok(Collected(|p.signatures|, p.Needed())))))
  {
    LoadedFits(c, r, moves, x);
  }

  /** The stores after a move. */
  ghost function StoresAfter(r: Race, moves: seq<Move>, s: Stores, x: bool): Stores
    requires r.id in r.start.pending
  {
    var n := Steps(moves, x);
    s.(pending := if n == 3 then s.pending[r.id := r.Result(moves, x)] else s.pending,
       events := if n == 2 then s.events + [r.Announcement(moves, x)] else s.events)
  }

  /** What the moving task does. */
  lemma MoverSteps(c: Crypto, r: Race, moves: seq<Move>, q: Pair, m: Move)
    requires TwoMore(c, r.start, r.id, r.a, r.b) && RaceAt(c, r, moves, q)
    ensures Advance(c, q.stores, r.TaskAfter(moves, m.first), m.now)
         == (StoresAfter(r, moves, q.stores, m.first), r.TaskAfter(moves + [m], m.first))
  {
    MoveCounts(r, moves, m);
    match Steps(moves, m.first)
    case 0 => LoadMove(c, r, moves, q, m.first, m.now);
    case 1 => ResolveMove(c, r, moves, q, m.first, m.now);
    case 2 => AnnounceMove(c, r, moves, q, m.first, m.now);
    case 3 => KeepMove(c, r, moves, q, m.first, m.now);
    case _ =>
  }

  lemma {:induction false} NothingStoredYet(r: Race, moves: seq<Move>, x: bool)
    requires r.id in r.start.pending && Steps(moves, x) == 0
    ensures !StoresBeforeOtherLoads(moves, x)
    ensures StoresBeforeOtherLoads(moves, !x) <==> Steps(moves, !x) >= 4
  {
    if StoresBeforeOtherLoads(moves, x) {
      BeforeMeansSteps(moves, x);
      assert false;
    }
    if StoresBeforeOtherLoads(moves, !x) {
      BeforeMeansSteps(moves, !x);
    }
  }

  lemma StoredStep(r: Race, moves: seq<Move>, m: Move, p: PendingObservation)
    requires r.id in r.start.pending && StoredAfter(r, moves, p)
    ensures StoredAfter(r, moves + [m], if Steps(moves, m.first) == 3 then r.Result(moves, m.first) else p)
  {
    MoveCounts(r, moves, m);
    LastFacts(moves, true);
    LastFacts(moves, false);
    assert (moves + [m])[..|moves|] == moves;
  }

  lemma AnnouncedByStep(r: Race, moves: seq<Move>, m: Move)
    requires r.id in r.start.pending
    ensures AnnouncedBy(r, moves + [m], m.first) == AnnouncedBy(r, moves, m.first)
         + (if Steps(moves, m.first) == 2 then multiset{r.Announcement(moves, m.first)} else multiset{})
    ensures AnnouncedBy(r, moves + [m], !m.first) == AnnouncedBy(r, moves, !m.first)
  {
    MoveCounts(r, moves, m);
  }

  lemma EventsStep(r: Race, moves: seq<Move>, m: Move, events: seq<DomainEvent>)
    requires r.id in r.start.pending && EventsAfter(r, moves, events)
    ensures EventsAfter(r, moves + [m],
                        if Steps(moves, m.first) == 2 then events + [r.Announcement(moves, m.first)] else events)
  {
    EndsStep(r, moves, m, events);
    AnnouncedByStep(r, moves, m);
  }

  lemma EndsStep(r: Race, moves: seq<Move>, m: Move, events: seq<DomainEvent>)
    requires r.id in r.start.pending && EndsCollected(r, moves, events)
    ensures EndsCollected(r, moves + [m],
                          if Steps(moves, m.first) == 2 then events + [r.Announcement(moves, m.first)] else events)
  {
    MoveCounts(r, moves, m);
  }

  lemma StoresMoved(r: Race, moves: seq<Move>, m: Move, s: Stores)
    requires r.id in r.start.pending && StoresAt(r, moves, s)
    ensures StoresAt(r, moves + [m], StoresAfter(r, moves, s, m.first))
  {
    StoredStep(r, moves, m, s.pending[r.id]);
    EventsStep(r, moves, m, s.events);
  }

  lemma {:induction false} RaceMoved(c: Crypto, r: Race, moves: seq<Move>, q: Pair, m: Move, q': Pair)
    requires TwoMore(c, r.start, r.id, r.a, r.b) && RaceAt(c, r, moves, q)
    requires q'.stores == StoresAfter(r, moves, q.stores, m.first)
    requires q'.one == if m.first then r.TaskAfter(moves + [m], true) else q.one
    requires q'.two == if m.first then q.two else r.TaskAfter(moves + [m], false)
    ensures RaceAt(c, r, moves + [m], q')
  {
    OtherStays(r, moves, m);
    StoresMoved(r, moves, m, q.stores);
  }

  lemma {:induction false} RaceStep(c: Crypto, r: Race, moves: seq<Move>, q: Pair, m: Move)
    requires TwoMore(c, r.start, r.id, r.a, r.b) && RaceAt(c, r, moves, q)
    ensures RaceAt(c, r, moves + [m], MovePair(c, q, m))
  {
    MoverSteps(c, r, moves, q, m);
    RaceMoved(c, r, moves, q, m, MovePair(c, q, m));
  }

  lemma OtherStays(r: Race, moves: seq<Move>, m: Move)
    requires r.id in r.start.pending && r.start.pending[r.id].message.guardianSetIndex in r.start.sets
    ensures r.TaskAfter(moves + [m], !m.first) == r.TaskAfter(moves, !m.first)
  {
    MoveCounts(r, moves, m);
  }

  lemma RaceStart(c: Crypto, r: Race)
    requires TwoMore(c, r.start, r.id, r.a, r.b)
    ensures RaceAt(c, r, [], Pair(r.start, SubmitLoad(r.id, r.a), SubmitLoad(r.id, r.b)))
  {}

  lemma {:induction false} RaceRun(c: Crypto, r: Race, moves: seq<Move>)
    requires TwoMore(c, r.start, r.id, r.a, r.b)
    ensures RaceAt(c, r, moves, RunPair(c, Pair(r.start, SubmitLoad(r.id, r.a), SubmitLoad(r.id, r.b)), moves))
  {
    if moves == [] {
      RaceStart(c, r);
    } else {
      var before, m := moves[..|moves| - 1], moves[|moves| - 1];
      RaceRun(c, r, before);
      assert moves == before + [m];
      RaceStep(c, r, before, RunPair(c, Pair(r.start, SubmitLoad(r.id, r.a), SubmitLoad(r.id, r.b)), before), m);
    }
  }

  /** Both submissions have finished, and have been told that their signature was collected. */
  ghost predicate BothCollected(q: Pair) {
    && q.one.Finished? && q.one.outcome.Submitted? && q.one.outcome.reply.Ok? && q.one.outcome.reply.value.Collected?
    && q.two.Finished? && q.two.outcome.Submitted? && q.two.outcome.reply.Ok? && q.two.outcome.reply.value.Collected?
  }

  lemma RaceHeld(c: Crypto, r: Race, moves: seq<Move>, q: Pair)
    requires TwoMore(c, r.start, r.id, r.a, r.b) && RaceAt(c, r, moves, q)
    requires Steps(moves, true) >= 4 && Steps(moves, false) >= 4
    ensures var before, held := Signers(r.start.pending[r.id].signatures), Signers(q.stores.pending[r.id].signatures);
            var i, j := r.a.guardianIndex, r.b.guardianIndex;
            if StoresBeforeOtherLoads(moves, true) || StoresBeforeOtherLoads(moves, false) then
              held == before + {i, j}
            else held == before + {if LastToStore(moves) == Some(true) then i else j}
  {
    LastFacts(moves, true);
    LastFacts(moves, false);
    LoadedFits(c, r, moves, true);
    LoadedFits(c, r, moves, false);
    var p := r.start.pending[r.id];
    var keys := r.start.sets[p.message.guardianSetIndex].keys;
    if StoresBeforeOtherLoads(moves, true) {
      ScreenPassed(c, r.id, p, keys, r.a);
      WithKeepsGood(c, r.start.sets, p, r.a);
    } else if StoresBeforeOtherLoads(moves, false) {
      ScreenPassed(c, r.id, p, keys, r.b);
      WithKeepsGood(c, r.start.sets, p, r.b);
    }
  }

  lemma LossBreaksHistory(s: Stores, id: Hash, lost: Byte)
    requires id in s.pending && lost in Told(s.events, id) && lost !in Signers(s.pending[id].signatures)
    requires s.events != [] && s.events[|s.events| - 1].SignatureCollected? && s.events[|s.events| - 1].id == id
    ensures !HistoryGood(s, id)
  {
    ToldIsCollected(s.events, id);
    var h := History(s.events, id);
    assert h[|h| - 1] == s.events[|s.events| - 1];
  }

  lemma EventsTell(r: Race, moves: seq<Move>, events: seq<DomainEvent>, x: bool)
    requires r.id in r.start.pending && EventsAfter(r, moves, events)
    requires Steps(moves, x) >= 3
    ensures r.Announcement(moves, x) in events
    ensures r.Sig(x).guardianIndex in Told(events, r.id)
  {
    var e := r.Announcement(moves, x);
    assert e in multiset(events);
  }

  lemma RaceEnds(c: Crypto, r: Race, moves: seq<Move>, q: Pair)
    requires TwoMore(c, r.start, r.id, r.a, r.b) && RaceAt(c, r, moves, q)
    requires Steps(moves, true) >= 4 && Steps(moves, false) >= 4
    ensures BothCollected(q)
  {}

  lemma RaceAnnounced(r: Race, moves: seq<Move>, s: Stores)
    requires r.id in r.start.pending && StoresAt(r, moves, s)
    requires Steps(moves, true) >= 4 && Steps(moves, false) >= 4
    ensures {r.a.guardianIndex, r.b.guardianIndex} <= Told(s.events, r.id)
    ensures s.events != [] && s.events[|s.events| - 1].SignatureCollected? && s.events[|s.events| - 1].id == r.id
  {
    EventsTell(r, moves, s.events, true);
    EventsTell(r, moves, s.events, false);
  }

  /** Two submissions for one message, in every interleaving of their steps: both report their
      signature collected and announce it, and both signatures are held in the end exactly when
      one of the two stores before the other loads. Otherwise only the last to store is held,
      and the history no longer matches the store. */
  lemma {:induction false} OverlappingSubmissionsLoseOne(c: Crypto, s: Stores, id: Hash, a: GuardianSignature,
                                                         b: GuardianSignature, moves: seq<Move>)
    requires TwoMore(c, s, id, a, b)
    requires Steps(moves, true) >= 4 && Steps(moves, false) >= 4
    ensures var q := RunPair(c, Pair(s, SubmitLoad(id, a), SubmitLoad(id, b)), moves);
            var i, j := a.guardianIndex, b.guardianIndex;
            var before := Signers(s.pending[id].signatures);
            && BothCollected(q)
            && {i, j} <= Told(q.stores.events, id)
            && id in q.stores.pending
            && var held := Signers(q.stores.pending[id].signatures);
               && (held == before + {i, j}
                   <==> StoresBeforeOtherLoads(moves, true) || StoresBeforeOtherLoads(moves, false))
               && (held != before + {i, j} ==>
                     && held == before + {if LastToStore(moves) == Some(true) then i else j}
                     && !HistoryGood(q.stores, id))
  {
    var r := Race(s, id, a, b);
    var q := RunPair(c, Pair(s, SubmitLoad(id, a), SubmitLoad(id, b)), moves);
    RaceRun(c, r, moves);
    RaceHeld(c, r, moves, q);
    RaceEnds(c, r, moves, q);
    RaceAnnounced(r, moves, q.stores);
    if !StoresBeforeOtherLoads(moves, true) && !StoresBeforeOtherLoads(moves, false) {
      LossBreaksHistory(q.stores, id, if LastToStore(moves) == Some(true) then b.guardianIndex else a.guardianIndex);
    }
  }
}
