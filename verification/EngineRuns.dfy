/** Serial runs of the engine: the event grammar, conservation of messages, when a message
    completes, and independence of arrival order. */
module EngineRuns {
  import opened Prelude
  import opened Vaa
  import opened VaaCodec
  import opened Domain
  import opened Engine
  import opened Interleaving

  datatype Call =
    | ObserveCall(gsi: U32, body: VaaBody, now: I64)
    | SubmitCall(id: Hash, sig: GuardianSignature, now: I64)
    | UpgradeCall(guardianSet: GuardianSet)

  function ApplyCall(c: Crypto, s: Stores, call: Call): Stores {
    match call
    case ObserveCall(gsi, body, now) => Observe(c, s, gsi, body, now).0
    case SubmitCall(id, sig, now) => Submit(c, s, id, sig, now).0
    case UpgradeCall(guardianSet) => Upgrade(s, guardianSet)
  }

  function RunCalls(c: Crypto, s: Stores, calls: seq<Call>): Stores {
    if calls == [] then s
    else ApplyCall(c, RunCalls(c, s, calls[..|calls| - 1]), calls[|calls| - 1])
  }

  predicate FreshUpgrade(s: Stores, call: Call) {
    call.UpgradeCall? ==> call.guardianSet.index !in s.sets
  }

  /** Registry upgrades in the run never rewrite an existing index. */
  predicate FreshUpgrades(c: Crypto, s: Stores, calls: seq<Call>) {
    calls == [] ||
    (var before := calls[..|calls| - 1];
     FreshUpgrades(c, s, before) && FreshUpgrade(RunCalls(c, s, before), calls[|calls| - 1]))
  }

  lemma {:induction false} RunCallsSplit(c: Crypto, s: Stores, first: seq<Call>, next: seq<Call>)
    ensures RunCalls(c, s, first + next) == RunCalls(c, RunCalls(c, s, first), next)
  {
    if next == [] {
      assert first + next == first;
    } else {
      var n, all := |next| - 1, first + next;
      RunCallsSplit(c, s, first, next[..n]);
      assert all[..|all| - 1] == first + next[..n] && all[|all| - 1] == next[n];
    }
  }

  lemma {:induction false} FreshUpgradesSplit(c: Crypto, s: Stores, calls: seq<Call>, k: nat)
    requires FreshUpgrades(c, s, calls) && k <= |calls|
    ensures FreshUpgrades(c, s, calls[..k]) && FreshUpgrades(c, RunCalls(c, s, calls[..k]), calls[k..])
    decreases |calls|
  {
    if k < |calls| {
      var n := |calls| - 1;
      FreshUpgradesSplit(c, s, calls[..n], k);
      assert calls[..n][..k] == calls[..k] && calls[..n][k..] == calls[k..n];
      assert calls[k..][..n - k] == calls[k..n] && calls[..k] + calls[k..n] == calls[..n];
      RunCallsSplit(c, s, calls[..k], calls[k..n]);
    } else {
      assert calls[..k] == calls && calls[k..] == [];
    }
  }

  lemma {:induction false} NoUpgrades(c: Crypto, s: Stores, calls: seq<Call>)
    requires forall k :: 0 <= k < |calls| ==> !calls[k].UpgradeCall?
    ensures FreshUpgrades(c, s, calls)
  {
    if calls != [] {
      NoUpgrades(c, s, calls[..|calls| - 1]);
    }
  }

  // ----- the event log, message by message

  /** The events about one message, in order. */
  function History(log: seq<DomainEvent>, id: Hash): seq<DomainEvent> {
    if log == [] then []
    else
      var e := log[|log| - 1];
      var before := History(log[..|log| - 1], id);
      if e.id == id then before + [e] else before
  }

  lemma HistoryAppend(log: seq<DomainEvent>, e: DomainEvent, id: Hash)
    ensures History(log + [e], id) == if e.id == id then History(log, id) + [e] else History(log, id)
  {
    assert (log + [e])[..|log|] == log;
  }

  /** The guardians whose signatures a history announces, in order. */
  function Collectors(h: seq<DomainEvent>): seq<Byte> {
    if h == [] then []
    else
      var e := h[|h| - 1];
      var before := Collectors(h[..|h| - 1]);
      if e.SignatureCollected? then before + [e.guardianIndex] else before
  }

  lemma CollectorsAppend(h: seq<DomainEvent>, e: DomainEvent)
    ensures Collectors(h + [e])
         == if e.SignatureCollected? then Collectors(h) + [e.guardianIndex] else Collectors(h)
  {
    assert (h + [e])[..|h|] == h;
  }

  /** Observed, then one Collected event for each of `guardians`, counting up. */
  function Script(id: Hash, guardians: seq<Byte>, needed: nat): seq<DomainEvent> {
    if guardians == [] then [MessageObserved(id)]
    else
      var n := |guardians| - 1;
      Script(id, guardians[..n], needed) + [SignatureCollected(id, guardians[n], n + 1, needed)]
  }

  lemma ScriptAppend(id: Hash, guardians: seq<Byte>, g: Byte, needed: nat)
    ensures Script(id, guardians + [g], needed)
         == Script(id, guardians, needed) + [SignatureCollected(id, g, |guardians| + 1, needed)]
  {
    assert (guardians + [g])[..|guardians|] == guardians;
  }

  lemma {:induction false} ScriptShape(id: Hash, guardians: seq<Byte>, needed: nat)
    ensures var h := Script(id, guardians, needed);
            && |h| == |guardians| + 1
            && h[0] == MessageObserved(id)
            && forall k :: 0 <= k < |guardians| ==> h[k + 1] == SignatureCollected(id, guardians[k], k + 1, needed)
  {
    if guardians != [] {
      ScriptShape(id, guardians[..|guardians| - 1], needed);
    }
  }

  ghost predicate Distinct(g: seq<Byte>) {
    forall i, j :: 0 <= i < j < |g| ==> g[i] != g[j]
  }

  /** The announced guardians are, without repetition, the signers held. */
  ghost predicate Matches(g: seq<Byte>, sigs: seq<GuardianSignature>) {
    && |g| == |sigs|
    && Distinct(g)
    && (forall x :: x in g <==> x in Signers(sigs))
  }

  ghost predicate HistoryGood(s: Stores, id: Hash) {
    var h := History(s.events, id);
    var g := Collectors(h);
    if id in s.vaas then
      && h == Script(id, g, |s.vaas[id].vaa.signatures|) + [VaaAssembled(id)]
      && Matches(g, s.vaas[id].vaa.signatures)
    else if id in s.pending then
      && h == Script(id, g, s.pending[id].Needed())
      && Matches(g, s.pending[id].signatures)
    else h == []
  }

  ghost function Announced(log: seq<DomainEvent>): set<Hash> {
    set e | e in log && e.MessageObserved? :: e.id
  }

  ghost predicate SerialGood(c: Crypto, s: Stores) {
    && StoresGood(c, s)
    && Census(s)
    && forall id :: HistoryGood(s, id)
  }

  lemma AnnouncedAppend(log: seq<DomainEvent>, e: DomainEvent)
    ensures Announced(log + [e]) == Announced(log) + (if e.MessageObserved? then {e.id} else {})
  {}

  // ----- one call

  /** What a submission does to good stores: nothing, unless it is the first valid signature of
      a guardian for a pending message, which is then added; and the message completes exactly
      when that makes a quorum. */
  lemma SubmitEffect(c: Crypto, s: Stores, id: Hash, sig: GuardianSignature, now: I64)
    requires StoresGood(c, s)
    ensures var s' := Submit(c, s, id, sig, now).0;
            if id in s.pending
               && SignatureValid(c, id, s.sets[s.pending[id].message.guardianSetIndex].keys, sig)
               && sig.guardianIndex !in Signers(s.pending[id].signatures)
            then
              var p := s.pending[id].With(sig);
              var e := CollectedEvent(id, sig.guardianIndex, p);
              if |p.signatures| < p.Needed() then
                s' == s.(pending := s.pending[id := p], events := s.events + [e])
              else
                && |p.signatures| == p.Needed()
                && s' == s.(vaas := s.vaas[id := VaaRecord(id, Assemble(p), now)],
                            pending := s.pending - {id},
                            events := s.events + [e] + [VaaAssembled(id)])
            else s' == s
  {
    if id in s.pending {
      var p := s.pending[id];
      var keys := s.sets[p.message.guardianSetIndex].keys;
      ScreenPassed(c, id, p, keys, sig);
      if Screen(c, id, p, keys, sig) == None {
        WithKeepsGood(c, s.sets, p, sig);
        if p.With(sig).QuorumReached() {
          AssembleGood(c, s.sets, p.With(sig), now);
        }
      }
    }
  }

  /** The reply to a submission tells which of the cases it was; neither a missing guardian set
      nor a failed final verification is ever reported. */
  lemma SubmitReply(c: Crypto, s: Stores, id: Hash, sig: GuardianSignature, now: I64)
    requires StoresGood(c, s)
    ensures var reply := Submit(c, s, id, sig, now).1;
            var index := sig.guardianIndex;
            && (reply == Err(MessageNotObserved) <==> id !in s.pending)
            && (id in s.pending ==>
                  var p := s.pending[id];
                  var keys := s.sets[p.message.guardianSetIndex].keys;
                  var held := Signers(p.signatures);
                  && (reply == Err(IndexOutOfRange(index)) <==> index >= |keys|)
                  && (reply == Err(DuplicateSignature(index)) <==> index < |keys| && index in held)
                  && (reply == Err(InvalidSignature(index))
                      <==> index < |keys| && index !in held && !SignatureValid(c, id, keys, sig))
                  && (reply == Ok(Collected(|held| + 1, Quorum(|keys|)))
                      <==> index !in held && SignatureValid(c, id, keys, sig) && |held| + 1 < Quorum(|keys|))
                  && (reply == Ok(Assembled(Assemble(p.With(sig))))
                      <==> index !in held && SignatureValid(c, id, keys, sig) && |held| + 1 == Quorum(|keys|)))
  {
    if id in s.pending {
      var p := s.pending[id];
      var keys := s.sets[p.message.guardianSetIndex].keys;
      AscendingSigners(p.signatures);
      ScreenPassed(c, id, p, keys, sig);
      DuplicateMeansHeld(p, sig.guardianIndex);
      if Screen(c, id, p, keys, sig) == None {
        WithKeepsGood(c, s.sets, p, sig);
        if p.With(sig).QuorumReached() {
          AssembleGood(c, s.sets, p.With(sig), now);
        }
      }
    }
  }

  lemma DuplicateMeansHeld(p: PendingObservation, index: Byte)
    ensures p.HasGuardian(index) <==> index in Signers(p.signatures)
  {
    if p.HasGuardian(index) {
      var k :| 0 <= k < |p.signatures| && p.signatures[k].guardianIndex == index;
      assert p.signatures[k].guardianIndex in Signers(p.signatures);
    }
  }

  lemma CallKeepsStoresGood(c: Crypto, s: Stores, call: Call)
    requires StoresGood(c, s) && FreshUpgrade(s, call)
    ensures StoresGood(c, ApplyCall(c, s, call))
    ensures Extends(s.sets, ApplyCall(c, s, call).sets)
  {
    match call
    case ObserveCall(gsi, body, now) =>
      ObserveUninterrupted(c, s, gsi, body, now);
      RunToEndKeepsGood(c, s, ObserveCheckDone(gsi, body), now);
    case SubmitCall(id, sig, now) =>
      SubmitUninterrupted(c, s, id, sig, now);
      RunToEndKeepsGood(c, s, SubmitLoad(id, sig), now);
      SubmitEffect(c, s, id, sig, now);
    case UpgradeCall(guardianSet) =>
      PutSetGood(c, s, guardianSet);
  }

  /** The two stores hold the same about message id. */
  ghost predicate SameEntry(s: Stores, s': Stores, id: Hash) {
    && (id in s.pending <==> id in s'.pending) && (id in s.pending ==> s.pending[id] == s'.pending[id])
    && (id in s.vaas <==> id in s'.vaas) && (id in s.vaas ==> s.vaas[id] == s'.vaas[id])
  }

  lemma OtherHistory(s: Stores, s': Stores, id: Hash)
    requires HistoryGood(s, id) && SameEntry(s, s', id) && History(s'.events, id) == History(s.events, id)
    ensures HistoryGood(s', id)
  {}

  lemma NewHistory(s: Stores, s': Stores, id: Hash)
    requires HistoryGood(s, id) && id !in s.pending && id !in s.vaas
    requires id in s'.pending && id !in s'.vaas && s'.pending[id].signatures == []
    requires s'.events == s.events + [MessageObserved(id)]
    ensures HistoryGood(s', id)
  {
    HistoryAppend(s.events, MessageObserved(id), id);
    CollectorsAppend([], MessageObserved(id));
    assert [] + [MessageObserved(id)] == [MessageObserved(id)];
  }

  lemma ObserveKeepsHistories(c: Crypto, s: Stores, gsi: U32, body: VaaBody, now: I64, other: Hash)
    requires HistoryGood(s, other)
    ensures HistoryGood(Observe(c, s, gsi, body, now).0, other)
  {
    var id := Digest(c, body);
    var s' := Observe(c, s, gsi, body, now).0;
    if s' != s {
      if other == id {
        NewHistory(s, s', id);
      } else {
        HistoryAppend(s.events, MessageObserved(id), other);
        OtherHistory(s, s', other);
      }
    }
  }

  lemma CollectKeepsMatch(g: seq<Byte>, sigs: seq<GuardianSignature>, s: GuardianSignature)
    requires Matches(g, sigs) && Ascending(sigs) && s.guardianIndex !in Signers(sigs)
    ensures Matches(g + [s.guardianIndex], InsertSorted(sigs, s))
  {
    InsertAddsOne(sigs, s);
    var g' := g + [s.guardianIndex];
    forall i, j | 0 <= i < j < |g'|
      ensures g'[i] != g'[j]
    {
      assert g'[i] in g;
    }
  }

  lemma CollectedHistory(s: Stores, id: Hash, sig: GuardianSignature)
    requires HistoryGood(s, id) && id in s.pending && id !in s.vaas
    requires Ascending(s.pending[id].signatures) && sig.guardianIndex !in Signers(s.pending[id].signatures)
    ensures var p := s.pending[id].With(sig);
            var h := History(s.events, id) + [CollectedEvent(id, sig.guardianIndex, p)];
            && h == Script(id, Collectors(h), p.Needed())
            && Matches(Collectors(h), p.signatures)
  {
    var p := s.pending[id].With(sig);
    var h := History(s.events, id);
    CollectorsAppend(h, CollectedEvent(id, sig.guardianIndex, p));
    InsertAddsOne(s.pending[id].signatures, sig);
    ScriptAppend(id, Collectors(h), sig.guardianIndex, p.Needed());
    CollectKeepsMatch(Collectors(h), s.pending[id].signatures, sig);
  }

  lemma KeptHistory(s: Stores, id: Hash, sig: GuardianSignature)
    requires HistoryGood(s, id) && id in s.pending && id !in s.vaas
    requires Ascending(s.pending[id].signatures) && sig.guardianIndex !in Signers(s.pending[id].signatures)
    ensures var p := s.pending[id].With(sig);
            var e := CollectedEvent(id, sig.guardianIndex, p);
            HistoryGood(s.(pending := s.pending[id := p], events := s.events + [e]), id)
  {
    CollectedHistory(s, id, sig);
    HistoryAppend(s.events, CollectedEvent(id, sig.guardianIndex, s.pending[id].With(sig)), id);
  }

  lemma CompletedHistory(s: Stores, id: Hash, sig: GuardianSignature, r: VaaRecord)
    requires HistoryGood(s, id) && id in s.pending && id !in s.vaas
    requires Ascending(s.pending[id].signatures) && sig.guardianIndex !in Signers(s.pending[id].signatures)
    requires var p := s.pending[id].With(sig); r.vaa.signatures == p.signatures && |p.signatures| == p.Needed()
    ensures var e := CollectedEvent(id, sig.guardianIndex, s.pending[id].With(sig));
            HistoryGood(s.(vaas := s.vaas[id := r], pending := s.pending - {id},
                           events := s.events + [e] + [VaaAssembled(id)]), id)
  {
    var e := CollectedEvent(id, sig.guardianIndex, s.pending[id].With(sig));
    CollectedHistory(s, id, sig);
    HistoryAppend(s.events, e, id);
    HistoryAppend(s.events + [e], VaaAssembled(id), id);
    CollectorsAppend(History(s.events, id) + [e], VaaAssembled(id));
  }

  lemma {:induction false} SubmitKeepsHistories(c: Crypto, s: Stores, id: Hash, sig: GuardianSignature, now: I64,
                                                other: Hash)
    requires StoresGood(c, s) && s.pending.Keys !! s.vaas.Keys && HistoryGood(s, other)
    ensures HistoryGood(Submit(c, s, id, sig, now).0, other)
  {
    SubmitEffect(c, s, id, sig, now);
    var s' := Submit(c, s, id, sig, now).0;
    if s' != s {
      var p := s.pending[id].With(sig);
      if other != id {
        var e := CollectedEvent(id, sig.guardianIndex, p);
        HistoryAppend(s.events, e, other);
        HistoryAppend(s.events + [e], VaaAssembled(id), other);
        OtherHistory(s, s', other);
      } else if |p.signatures| < p.Needed() {
        KeptHistory(s, id, sig);
      } else {
        CompletedHistory(s, id, sig, VaaRecord(id, Assemble(p), now));
      }
    }
  }

  lemma {:induction false} CallKeepsHistories(c: Crypto, s: Stores, call: Call, other: Hash)
    requires StoresGood(c, s) && s.pending.Keys !! s.vaas.Keys && HistoryGood(s, other)
    ensures HistoryGood(ApplyCall(c, s, call), other)
  {
    match call
    case ObserveCall(gsi, body, now) => ObserveKeepsHistories(c, s, gsi, body, now, other);
    case SubmitCall(id, sig, now) => SubmitKeepsHistories(c, s, id, sig, now, other);
    case UpgradeCall(guardianSet) => OtherHistory(s, Upgrade(s, guardianSet), other);
  }

  /** No message is in both stores, and the announced messages are those in either. */
  ghost predicate Census(s: Stores) {
    && s.pending.Keys !! s.vaas.Keys
    && Announced(s.events) == s.pending.Keys + s.vaas.Keys
  }

  lemma SubmitKeepsCensus(c: Crypto, s: Stores, id: Hash, sig: GuardianSignature, now: I64)
    requires StoresGood(c, s) && Census(s)
    ensures Census(Submit(c, s, id, sig, now).0)
  {
    SubmitEffect(c, s, id, sig, now);
    if Submit(c, s, id, sig, now).0 != s {
      var e := CollectedEvent(id, sig.guardianIndex, s.pending[id].With(sig));
      AnnouncedAppend(s.events, e);
      AnnouncedAppend(s.events + [e], VaaAssembled(id));
    }
  }

  lemma CallKeepsCensus(c: Crypto, s: Stores, call: Call)
    requires StoresGood(c, s) && Census(s)
    ensures Census(ApplyCall(c, s, call))
  {
    match call
    case ObserveCall(gsi, body, now) => AnnouncedAppend(s.events, MessageObserved(Digest(c, body)));
    case SubmitCall(id, sig, now) => SubmitKeepsCensus(c, s, id, sig, now);
    case UpgradeCall(_) =>
  }

  lemma CallKeepsSerialGood(c: Crypto, s: Stores, call: Call)
    requires SerialGood(c, s) && FreshUpgrade(s, call)
    ensures SerialGood(c, ApplyCall(c, s, call))
  {
    CallKeepsStoresGood(c, s, call);
    CallKeepsCensus(c, s, call);
    forall other ensures HistoryGood(ApplyCall(c, s, call), other) {
      CallKeepsHistories(c, s, call, other);
    }
  }

  // ----- whole runs

  lemma InitialGood(c: Crypto, s: Stores)
    requires InitialStores(s)
    ensures SerialGood(c, s)
  {}

  lemma {:induction false} RunGood(c: Crypto, s: Stores, calls: seq<Call>)
    requires SerialGood(c, s) && FreshUpgrades(c, s, calls)
    ensures SerialGood(c, RunCalls(c, s, calls))
    ensures Extends(s.sets, RunCalls(c, s, calls).sets)
    ensures forall id :: id in s.vaas ==>
              id in RunCalls(c, s, calls).vaas && RunCalls(c, s, calls).vaas[id] == s.vaas[id]
  {
    if calls != [] {
      var before := calls[..|calls| - 1];
      RunGood(c, s, before);
      var mid, call := RunCalls(c, s, before), calls[|calls| - 1];
      CallKeepsSerialGood(c, mid, call);
      CallKeepsStoresGood(c, mid, call);
      if call.SubmitCall? {
        SubmitEffect(c, mid, call.id, call.sig, call.now);
      }
    }
  }

  /** The event grammar of serial runs: the events about a message are Observed,
      Collected(1), ..., Collected(k), and Assembled once k = needed, with a constant `needed`
      and pairwise distinct guardians; and how far that script has run decides what the stores
      hold for the message. */
  lemma {:induction false} EventGrammar(c: Crypto, s: Stores, calls: seq<Call>, id: Hash)
    requires InitialStores(s) && FreshUpgrades(c, s, calls)
    ensures var t := RunCalls(c, s, calls);
            var h := History(t.events, id);
            var g := Collectors(h);
            && Distinct(g)
            && (h == [] <==> id !in t.pending && id !in t.vaas)
            && (id in t.pending ==>
                  && h == Script(id, g, t.pending[id].Needed())
                  && |g| < t.pending[id].Needed()
                  && (forall x :: x in g <==> x in Signers(t.pending[id].signatures)))
            && (id in t.vaas ==>
                  && t.vaas[id].vaa.guardianSetIndex in t.sets
                  && var needed := Quorum(|t.sets[t.vaas[id].vaa.guardianSetIndex].keys|);
                     && h == Script(id, g, needed) + [VaaAssembled(id)]
                     && |g| == needed
                     && (forall x :: x in g <==> x in Signers(t.vaas[id].vaa.signatures)))
  {
    InitialGood(c, s);
    RunGood(c, s, calls);
    var t := RunCalls(c, s, calls);
    assert HistoryGood(t, id);
    var g := Collectors(History(t.events, id));
    if id in t.pending {
      ScriptShape(id, g, t.pending[id].Needed());
    }
  }

  /** Conservation: no message is pending and completed at once, and the two numbers that
      `stats` reports add up to the number of distinct messages ever announced. */
  lemma {:induction false} MessagesConserved(c: Crypto, s: Stores, calls: seq<Call>)
    requires InitialStores(s) && FreshUpgrades(c, s, calls)
    ensures var t := RunCalls(c, s, calls);
            && t.pending.Keys !! t.vaas.Keys
            && |t.pending| + |t.vaas| == |Announced(t.events)|
  {
    InitialGood(c, s);
    RunGood(c, s, calls);
    var t := RunCalls(c, s, calls);
    assert |t.pending.Keys + t.vaas.Keys| == |t.pending.Keys| + |t.vaas.Keys|;
  }

  lemma {:induction false} AnnouncedStays(c: Crypto, s: Stores, calls: seq<Call>)
    requires SerialGood(c, s) && FreshUpgrades(c, s, calls)
    ensures Announced(s.events) <= Announced(RunCalls(c, s, calls).events)
  {
    if calls != [] {
      var n := |calls| - 1;
      AnnouncedStays(c, s, calls[..n]);
      RunGood(c, s, calls[..n]);
      var t := RunCalls(c, s, calls[..n]);
      if calls[n].SubmitCall? {
        SubmitEffect(c, t, calls[n].id, calls[n].sig, calls[n].now);
      }
    }
  }

  /** Observation is idempotent: once a body has been announced, observing it again after any
      further calls changes nothing, and reports its id or that it is completed. */
  lemma {:induction false} ObserveIdempotent(c: Crypto, s: Stores, calls: seq<Call>, body: VaaBody, gsi: U32, now: I64)
    requires SerialGood(c, s) && FreshUpgrades(c, s, calls) && Digest(c, body) in Announced(s.events)
    ensures var t := RunCalls(c, s, calls);
            Observe(c, t, gsi, body, now)
            == (t, if Digest(c, body) in t.vaas then Err(AlreadyCompleted) else Ok(Digest(c, body)))
  {
    AnnouncedStays(c, s, calls);
    RunGood(c, s, calls);
  }

  // ----- completion

  ghost predicate ValidFor(c: Crypto, keys: seq<Address>, id: Hash, call: Call) {
    call.SubmitCall? && call.id == id && SignatureValid(c, id, keys, call.sig)
  }

  /** The valid signatures for a message among the calls. */
  ghost function ValidSubmissions(c: Crypto, keys: seq<Address>, id: Hash, calls: seq<Call>): set<GuardianSignature> {
    set k | 0 <= k < |calls| && ValidFor(c, keys, id, calls[k]) :: calls[k].sig
  }

  ghost function Indices(v: set<GuardianSignature>): set<int> {
    set s | s in v :: s.guardianIndex
  }

  lemma ValidSubmissionsStep(c: Crypto, keys: seq<Address>, id: Hash, calls: seq<Call>)
    requires calls != []
    ensures var n := |calls| - 1;
            ValidSubmissions(c, keys, id, calls)
            == ValidSubmissions(c, keys, id, calls[..n])
               + (if ValidFor(c, keys, id, calls[n]) then {calls[n].sig} else {})
  {
    var n := |calls| - 1;
    assert forall k :: 0 <= k < n ==> calls[..n][k] == calls[k];
    forall x | x in ValidSubmissions(c, keys, id, calls[..n])
      ensures x in ValidSubmissions(c, keys, id, calls)
    {
      var k :| 0 <= k < n && ValidFor(c, keys, id, calls[..n][k]) && calls[..n][k].sig == x;
      assert ValidFor(c, keys, id, calls[k]);
    }
  }

  lemma SignersAreIndices(sigs: seq<GuardianSignature>)
    ensures Signers(sigs) == Indices(ElementSet(sigs))
  {
    forall x | x in Indices(ElementSet(sigs)) ensures x in Signers(sigs) {
      var s :| s in sigs && s.guardianIndex == x;
      var k :| 0 <= k < |sigs| && sigs[k] == s;
    }
  }

  /** How a message that was `p0` stands when the valid signatures `v` have been offered. */
  ghost predicate Stands(t: Stores, id: Hash, p0: PendingObservation, v: set<GuardianSignature>) {
    if id in t.pending then
      && t.pending[id].message == p0.message && t.pending[id].guardianCount == p0.guardianCount
      && ElementSet(t.pending[id].signatures) <= v
      && Signers(t.pending[id].signatures) == Indices(v)
    else
      && id in t.vaas
      && t.vaas[id].vaa.body == p0.message.body
      && t.vaas[id].vaa.guardianSetIndex == p0.message.guardianSetIndex
      && |t.vaas[id].vaa.signatures| == p0.Needed()
      && ElementSet(t.vaas[id].vaa.signatures) <= v
      && |Indices(v)| >= p0.Needed()
  }

  lemma AddedSignature(sigs: seq<GuardianSignature>, sig: GuardianSignature, v: set<GuardianSignature>)
    requires Ascending(sigs) && ElementSet(sigs) <= v && Signers(sigs) == Indices(v)
    requires sig.guardianIndex !in Indices(v)
    ensures var out := InsertSorted(sigs, sig);
            && ElementSet(out) <= v + {sig}
            && Signers(out) == Indices(v + {sig})
            && |Indices(v + {sig})| == |out|
  {
    InsertAddsOne(sigs, sig);
    AscendingSigners(InsertSorted(sigs, sig));
    assert Indices(v + {sig}) == Indices(v) + {sig.guardianIndex};
  }

  lemma RepeatedIndex(v: set<GuardianSignature>, sig: GuardianSignature)
    ensures |Indices(v)| <= |Indices(v + {sig})|
    ensures sig.guardianIndex in Indices(v) ==> Indices(v + {sig}) == Indices(v)
  {
    assert Indices(v + {sig}) == Indices(v) + {sig.guardianIndex};
    SubsetCardinality(Indices(v), Indices(v + {sig}));
  }

  lemma ValidSubmissionStands(c: Crypto, t: Stores, id: Hash, sig: GuardianSignature, now: I64,
                              p0: PendingObservation, v: set<GuardianSignature>)
    requires StoresGood(c, t) && Census(t) && Stands(t, id, p0, v)
    requires p0.message.guardianSetIndex in t.sets
    requires SignatureValid(c, id, t.sets[p0.message.guardianSetIndex].keys, sig)
    ensures Stands(Submit(c, t, id, sig, now).0, id, p0, v + {sig})
  {
    SubmitEffect(c, t, id, sig, now);
    RepeatedIndex(v, sig);
    if id in t.pending && sig.guardianIndex !in Indices(v) {
      AddedSignature(t.pending[id].signatures, sig, v);
    }
  }

  /** A call that offers `id` no valid signature leaves it as it stands. */
  lemma OtherCallStands(c: Crypto, t: Stores, call: Call, id: Hash, p0: PendingObservation, v: set<GuardianSignature>)
    requires StoresGood(c, t) && Census(t) && Stands(t, id, p0, v)
    requires p0.message.guardianSetIndex in t.sets
    requires !ValidFor(c, t.sets[p0.message.guardianSetIndex].keys, id, call)
    ensures Stands(ApplyCall(c, t, call), id, p0, v)
  {
    if call.SubmitCall? {
      SubmitEffect(c, t, call.id, call.sig, call.now);
    }
  }

  lemma CallStands(c: Crypto, t: Stores, call: Call, id: Hash, p0: PendingObservation, v: set<GuardianSignature>)
    requires StoresGood(c, t) && Census(t) && Stands(t, id, p0, v)
    requires p0.message.guardianSetIndex in t.sets
    ensures var keys := t.sets[p0.message.guardianSetIndex].keys;
            Stands(ApplyCall(c, t, call), id, p0, v + (if ValidFor(c, keys, id, call) then {call.sig} else {}))
  {
    if ValidFor(c, t.sets[p0.message.guardianSetIndex].keys, id, call) {
      ValidSubmissionStands(c, t, id, call.sig, call.now, p0, v);
    } else {
      OtherCallStands(c, t, call, id, p0, v);
      assert v + {} == v;
    }
  }

  lemma {:induction false} RunStands(c: Crypto, s: Stores, calls: seq<Call>, id: Hash)
    requires SerialGood(c, s) && FreshUpgrades(c, s, calls) && id in s.pending
    ensures var p0 := s.pending[id];
            var keys := s.sets[p0.message.guardianSetIndex].keys;
            Stands(RunCalls(c, s, calls), id, p0, ElementSet(p0.signatures) + ValidSubmissions(c, keys, id, calls))
  {
    var p0 := s.pending[id];
    var keys := s.sets[p0.message.guardianSetIndex].keys;
    var v0 := ElementSet(p0.signatures);
    if calls == [] {
      SignersAreIndices(p0.signatures);
      assert v0 + ValidSubmissions(c, keys, id, calls) == v0;
    } else {
      var n := |calls| - 1;
      RunStands(c, s, calls[..n], id);
      RunGood(c, s, calls[..n]);
      var v := v0 + ValidSubmissions(c, keys, id, calls[..n]);
      CallStands(c, RunCalls(c, s, calls[..n]), calls[n], id, p0, v);
      ValidSubmissionsStep(c, keys, id, calls);
      assert v + (if ValidFor(c, keys, id, calls[n]) then {calls[n].sig} else {})
          == v0 + ValidSubmissions(c, keys, id, calls);
    }
  }

  /** A pending message has completed by the end of a serial run, whatever else is called in
      between and in whatever order, exactly when the signatures it held and the valid ones
      submitted come from a quorum of distinct guardians; until then it stays pending. */
  lemma {:induction false} CompletesIffQuorumSubmitted(c: Crypto, s: Stores, calls: seq<Call>, id: Hash)
    requires SerialGood(c, s) && FreshUpgrades(c, s, calls) && id in s.pending
    ensures var t := RunCalls(c, s, calls);
            var p := s.pending[id];
            var keys := s.sets[p.message.guardianSetIndex].keys;
            var offered := ElementSet(p.signatures) + ValidSubmissions(c, keys, id, calls);
            && (id in t.vaas <==> |Indices(offered)| >= Quorum(|keys|))
            && (id in t.vaas <==> id !in t.pending)
  {
    RunStands(c, s, calls, id);
    RunGood(c, s, calls);
    var t := RunCalls(c, s, calls);
    if id in t.pending {
      AscendingSigners(t.pending[id].signatures);
    }
  }

  // ----- which signatures are held

  /** Call k brings a guardian's first valid signature for `id`, before a quorum of distinct
      guardians, those of `v0` included, has sent one. */
  ghost predicate InFirstQuorum(c: Crypto, keys: seq<Address>, id: Hash, v0: set<GuardianSignature>,
                                calls: seq<Call>, k: nat)
    requires k < |calls|
  {
    && ValidFor(c, keys, id, calls[k])
    && var earlier := Indices(v0 + ValidSubmissions(c, keys, id, calls[..k]));
       calls[k].sig.guardianIndex !in earlier && |earlier| < Quorum(|keys|)
  }

  /** The signatures `v0` and the first ones of distinct guardians, up to a quorum. */
  ghost function FirstQuorum(c: Crypto, keys: seq<Address>, id: Hash, v0: set<GuardianSignature>,
                             calls: seq<Call>): set<GuardianSignature>
  {
    v0 + set k | 0 <= k < |calls| && InFirstQuorum(c, keys, id, v0, calls, k) :: calls[k].sig
  }

  lemma FirstQuorumStep(c: Crypto, keys: seq<Address>, id: Hash, v0: set<GuardianSignature>, calls: seq<Call>)
    requires calls != []
    ensures var n := |calls| - 1;
            FirstQuorum(c, keys, id, v0, calls)
            == FirstQuorum(c, keys, id, v0, calls[..n])
               + (if InFirstQuorum(c, keys, id, v0, calls, n) then {calls[n].sig} else {})
  {
    var n := |calls| - 1;
    forall k | 0 <= k < n
      ensures calls[..n][k] == calls[k]
      ensures InFirstQuorum(c, keys, id, v0, calls[..n], k) <==> InFirstQuorum(c, keys, id, v0, calls, k)
    {
      assert calls[..n][..k] == calls[..k];
    }
    forall x | x in FirstQuorum(c, keys, id, v0, calls[..n])
      ensures x in FirstQuorum(c, keys, id, v0, calls)
    {
      if x !in v0 {
        var k :| 0 <= k < n && InFirstQuorum(c, keys, id, v0, calls[..n], k) && calls[..n][k].sig == x;
        assert InFirstQuorum(c, keys, id, v0, calls, k);
      }
    }
  }

  /** The signatures held for a message, pending or completed. */
  ghost function HeldFor(s: Stores, id: Hash): seq<GuardianSignature>
    requires id in s.pending || id in s.vaas
  {
    if id in s.pending then s.pending[id].signatures else s.vaas[id].vaa.signatures
  }

  /** The store takes a submission exactly when it is in the first quorum. */
  lemma TakenIffInFirstQuorum(c: Crypto, t: Stores, calls: seq<Call>, id: Hash, p0: PendingObservation)
    requires calls != [] && StoresGood(c, t) && Census(t) && p0.message.guardianSetIndex in t.sets
    requires var n := |calls| - 1;
             var keys := t.sets[p0.message.guardianSetIndex].keys;
             && p0.Needed() == Quorum(|keys|)
             && Stands(t, id, p0, ElementSet(p0.signatures) + ValidSubmissions(c, keys, id, calls[..n]))
    ensures var n := |calls| - 1;
            var keys := t.sets[p0.message.guardianSetIndex].keys;
            InFirstQuorum(c, keys, id, ElementSet(p0.signatures), calls, n)
            <==> && id in t.pending && ValidFor(c, keys, id, calls[n])
                 && calls[n].sig.guardianIndex !in Signers(HeldFor(t, id))
  {
    if id in t.pending {
      AscendingSigners(t.pending[id].signatures);
    }
  }

  lemma OtherSubmitAdds(c: Crypto, t: Stores, other: Hash, sig: GuardianSignature, now: I64, id: Hash)
    requires StoresGood(c, t) && other != id
    ensures SameEntry(t, Submit(c, t, other, sig, now).0, id)
  {
    SubmitEffect(c, t, other, sig, now);
  }

  /** A call that is not a submission for `id` leaves the signatures held for it. */
  lemma OtherCallAdds(c: Crypto, t: Stores, call: Call, id: Hash)
    requires StoresGood(c, t) && (id in t.pending || id in t.vaas)
    requires call.SubmitCall? ==> call.id != id
    ensures SameEntry(t, ApplyCall(c, t, call), id)
  {
    match call
    case ObserveCall(_, body, _) => assert Digest(c, body) == id ==> ApplyCall(c, t, call) == t;
    case SubmitCall(other, sig, now) => OtherSubmitAdds(c, t, other, sig, now, id);
    case UpgradeCall(_) =>
  }

  /** What a call adds to the signatures held for a message. */
  lemma {:induction false} CallAdds(c: Crypto, t: Stores, call: Call, id: Hash)
    requires StoresGood(c, t) && Census(t) && (id in t.pending || id in t.vaas)
    ensures var t' := ApplyCall(c, t, call);
            && (id in t'.pending || id in t'.vaas)
            && ElementSet(HeldFor(t', id)) == ElementSet(HeldFor(t, id)) +
               if && id in t.pending
                  && ValidFor(c, t.sets[t.pending[id].message.guardianSetIndex].keys, id, call)
                  && call.sig.guardianIndex !in Signers(HeldFor(t, id))
               then {call.sig} else {}
  {
    var t' := ApplyCall(c, t, call);
    if call.SubmitCall? && call.id == id {
      SubmitEffect(c, t, id, call.sig, call.now);
      if t' != t {
        InsertAddsOne(t.pending[id].signatures, call.sig);
        assert HeldFor(t', id) == t.pending[id].With(call.sig).signatures;
      }
    } else {
      OtherCallAdds(c, t, call, id);
      assert HeldFor(t', id) == HeldFor(t, id);
    }
  }

  lemma HoldsStep(c: Crypto, t: Stores, calls: seq<Call>, id: Hash, p0: PendingObservation)
    requires calls != [] && StoresGood(c, t) && Census(t) && p0.message.guardianSetIndex in t.sets
    requires var n := |calls| - 1;
             var keys := t.sets[p0.message.guardianSetIndex].keys;
             var v0 := ElementSet(p0.signatures);
             && p0.Needed() == Quorum(|keys|)
             && Stands(t, id, p0, v0 + ValidSubmissions(c, keys, id, calls[..n]))
             && ElementSet(HeldFor(t, id)) == FirstQuorum(c, keys, id, v0, calls[..n])
    ensures var keys := t.sets[p0.message.guardianSetIndex].keys;
            var t' := ApplyCall(c, t, calls[|calls| - 1]);
            && (id in t'.pending || id in t'.vaas)
            && ElementSet(HeldFor(t', id)) == FirstQuorum(c, keys, id, ElementSet(p0.signatures), calls)
  {
    FirstQuorumStep(c, t.sets[p0.message.guardianSetIndex].keys, id, ElementSet(p0.signatures), calls);
    TakenIffInFirstQuorum(c, t, calls, id, p0);
    CallAdds(c, t, calls[|calls| - 1], id);
  }

  lemma HeldShape(c: Crypto, t: Stores, id: Hash, p0: PendingObservation, v: set<GuardianSignature>)
    requires StoresGood(c, t) && Stands(t, id, p0, v)
    ensures Ascending(HeldFor(t, id))
    ensures id in t.pending ==> t.pending[id] == p0.(signatures := HeldFor(t, id))
    ensures id !in t.pending ==> t.vaas[id].vaa == Assemble(p0.(signatures := HeldFor(t, id)))
  {}

  /** In any serial run a pending message holds, and its VAA when it completes carries, the
      signatures it started with and the first valid one of each further guardian, up to a
      quorum, in ascending order of guardian index. */
  lemma {:induction false} HoldsFirstQuorum(c: Crypto, s: Stores, calls: seq<Call>, id: Hash)
    requires SerialGood(c, s) && FreshUpgrades(c, s, calls) && id in s.pending
    ensures var t := RunCalls(c, s, calls);
            var p := s.pending[id];
            var keys := s.sets[p.message.guardianSetIndex].keys;
            && (id in t.pending || id in t.vaas)
            && Ascending(HeldFor(t, id))
            && ElementSet(HeldFor(t, id)) == FirstQuorum(c, keys, id, ElementSet(p.signatures), calls)
            && (if id in t.pending then t.pending[id] == p.(signatures := HeldFor(t, id))
                else t.vaas[id].vaa == Assemble(p.(signatures := HeldFor(t, id))))
  {
    var p := s.pending[id];
    var keys := s.sets[p.message.guardianSetIndex].keys;
    RunStands(c, s, calls, id);
    RunGood(c, s, calls);
    HeldShape(c, RunCalls(c, s, calls), id, p, ElementSet(p.signatures) + ValidSubmissions(c, keys, id, calls));
    if calls != [] {
      var before := calls[..|calls| - 1];
      HoldsFirstQuorum(c, s, before, id);
      RunStands(c, s, before, id);
      RunGood(c, s, before);
      HoldsStep(c, RunCalls(c, s, before), calls, id, p);
    }
  }

  // ----- arrival order

  /** Two serial runs that offer one and the same set of signatures, exactly a quorum of them
      and from as many guardians, to a message that holds none yet, assemble byte-identical
      VAAs; the order and everything else in the runs is immaterial. */
  lemma {:induction false} ArrivalOrderImmaterial(c: Crypto, s: Stores, id: Hash, calls1: seq<Call>, calls2: seq<Call>)
    requires SerialGood(c, s) && FreshUpgrades(c, s, calls1) && FreshUpgrades(c, s, calls2)
    requires id in s.pending && s.pending[id].signatures == []
    requires var p := s.pending[id];
             var keys := s.sets[p.message.guardianSetIndex].keys;
             var v := ValidSubmissions(c, keys, id, calls1);
             && v == ValidSubmissions(c, keys, id, calls2)
             && |v| == |Indices(v)| == Quorum(|keys|)
    ensures var t1, t2 := RunCalls(c, s, calls1), RunCalls(c, s, calls2);
            && id in t1.vaas && id in t2.vaas
            && t1.vaas[id].vaa == t2.vaas[id].vaa
            && Encode(t1.vaas[id].vaa) == Encode(t2.vaas[id].vaa)
  {
    AssembledFrom(c, s, id, calls1);
    AssembledFrom(c, s, id, calls2);
    var t1, t2 := RunCalls(c, s, calls1), RunCalls(c, s, calls2);
    AscendingUnique(t1.vaas[id].vaa.signatures, t2.vaas[id].vaa.signatures);
  }

  lemma SameCallsSameSubmissions(c: Crypto, keys: seq<Address>, id: Hash, calls1: seq<Call>, calls2: seq<Call>)
    requires multiset(calls1) == multiset(calls2)
    ensures ValidSubmissions(c, keys, id, calls1) <= ValidSubmissions(c, keys, id, calls2)
  {
    forall x | x in ValidSubmissions(c, keys, id, calls1)
      ensures x in ValidSubmissions(c, keys, id, calls2)
    {
      var k :| 0 <= k < |calls1| && ValidFor(c, keys, id, calls1[k]) && calls1[k].sig == x;
      assert calls1[k] in multiset(calls2);
      var j :| 0 <= j < |calls2| && calls2[j] == calls1[k];
    }
  }

  /** In particular, reordering the calls of a run leaves the assembled bytes as they are. */
  lemma {:induction false} PermutationsAssembleAlike(c: Crypto, s: Stores, id: Hash, calls1: seq<Call>,
                                                     calls2: seq<Call>)
    requires SerialGood(c, s) && FreshUpgrades(c, s, calls1) && FreshUpgrades(c, s, calls2)
    requires multiset(calls1) == multiset(calls2)
    requires id in s.pending && s.pending[id].signatures == []
    requires var keys := s.sets[s.pending[id].message.guardianSetIndex].keys;
             var v := ValidSubmissions(c, keys, id, calls1);
             |v| == |Indices(v)| == Quorum(|keys|)
    ensures var t1, t2 := RunCalls(c, s, calls1), RunCalls(c, s, calls2);
            && id in t1.vaas && id in t2.vaas
            && Encode(t1.vaas[id].vaa) == Encode(t2.vaas[id].vaa)
  {
    var keys := s.sets[s.pending[id].message.guardianSetIndex].keys;
    SameCallsSameSubmissions(c, keys, id, calls1, calls2);
    SameCallsSameSubmissions(c, keys, id, calls2, calls1);
    ArrivalOrderImmaterial(c, s, id, calls1, calls2);
  }

  lemma AssembledFrom(c: Crypto, s: Stores, id: Hash, calls: seq<Call>)
    requires SerialGood(c, s) && FreshUpgrades(c, s, calls)
    requires id in s.pending && s.pending[id].signatures == []
    requires var keys := s.sets[s.pending[id].message.guardianSetIndex].keys;
             var v := ValidSubmissions(c, keys, id, calls);
             |v| == |Indices(v)| == Quorum(|keys|)
    ensures var t := RunCalls(c, s, calls);
            var p := s.pending[id];
            var keys := s.sets[p.message.guardianSetIndex].keys;
            && id in t.vaas
            && Ascending(t.vaas[id].vaa.signatures)
            && ElementSet(t.vaas[id].vaa.signatures) == ValidSubmissions(c, keys, id, calls)
            && t.vaas[id].vaa == Assemble(p.(signatures := t.vaas[id].vaa.signatures))
  {
    var p := s.pending[id];
    var v := ValidSubmissions(c, s.sets[p.message.guardianSetIndex].keys, id, calls);
    assert ElementSet(p.signatures) + v == v;
    CompletesIffQuorumSubmitted(c, s, calls, id);
    RunStands(c, s, calls, id);
    RunGood(c, s, calls);
    SameSet(RunCalls(c, s, calls).vaas[id].vaa.signatures, v);
  }

  lemma SameSet(sigs: seq<GuardianSignature>, v: set<GuardianSignature>)
    requires Ascending(sigs) && ElementSet(sigs) <= v && |sigs| == |v|
    ensures ElementSet(sigs) == v
  {
    AscendingElements(sigs);
    SubsetCardinality(ElementSet(sigs), v);
  }

  lemma {:induction false} AscendingElements(sigs: seq<GuardianSignature>)
    requires Ascending(sigs)
    ensures |ElementSet(sigs)| == |sigs|
  {
    if sigs != [] {
      var m := |sigs| - 1;
      AscendingElements(sigs[..m]);
      WithoutLast(sigs);
      assert sigs[m] in ElementSet(sigs);
    }
  }
}
