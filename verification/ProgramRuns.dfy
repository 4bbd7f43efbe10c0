/** Runs of the on-chain program: the chain of guardian sets and their expiry windows, the
    replay ledger, one body per slot, and gapless emission. */
module ProgramRuns {
  import opened Prelude
  import Vaa
  import opened VaaCodec
  import opened VaaEquivalence
  import opened Agreement
  import OnChain = OnChainVaa
  import opened Program

  datatype Transaction = Transaction(ins: Instruction, now: I64)

  /** A sequence of transactions with the ledgers it passes through. */
  ghost predicate Execution(c: Crypto, states: seq<Ledger>, txs: seq<Transaction>) {
    && |states| == |txs| + 1
    && states[0] == EMPTY_LEDGER
    && forall k :: 0 <= k < |txs| ==> states[k + 1] == Step(c, states[k], txs[k].ins, txs[k].now)
  }

  /** The clock is positive and never goes back. */
  ghost predicate ClockAdvances(txs: seq<Transaction>) {
    && (forall k :: 0 <= k < |txs| ==> 0 < txs[k].now)
    && (forall j, k :: 0 <= j < k < |txs| ==> txs[j].now <= txs[k].now)
  }

  // ----- guardian sets

  /** Superseded set i expires ttl seconds after its successor was created. */
  ghost predicate Superseded(s: Ledger, ttl: int, i: int) {
    && i in s.sets && i + 1 in s.sets
    && s.sets[i].expirationTime == s.sets[i + 1].creationTime + ttl
    && s.sets[i].creationTime <= s.sets[i + 1].creationTime
  }

  ghost predicate SetGood(s: Ledger, i: int, last: int)
    requires i in s.sets
  {
    && s.sets[i].index == i
    && 1 <= |s.sets[i].keys| <= Vaa.MAX_GUARDIANS
    && 0 < s.sets[i].creationTime <= last
  }

  /** The sets are exactly those from `genesis` to the current one, each good under its own
      index; the current one never expires and all earlier ones expire as superseded. */
  ghost predicate Chained(s: Ledger, genesis: int, last: int) {
    if s.config.None? then s.sets == map[]
    else
      var current := s.config.value.currentGuardianSetIndex;
      && 0 <= genesis <= current
      && (forall i :: i in s.sets <==> genesis <= i <= current)
      && (forall i :: i in s.sets ==> SetGood(s, i, last))
      && s.sets[current].expirationTime == 0
      && (forall i :: genesis <= i < current ==> Superseded(s, s.config.value.guardianSetTtlSeconds, i))
  }

  /** Set i of a ledger is kept: its keys and creation never change, and its expiry at most once. */
  ghost predicate SetKept(s: Ledger, t: Ledger, i: int)
    requires i in s.sets
  {
    && i in t.sets
    && t.sets[i].index == s.sets[i].index
    && t.sets[i].keys == s.sets[i].keys
    && t.sets[i].creationTime == s.sets[i].creationTime
    && (s.sets[i].expirationTime != 0 ==> t.sets[i].expirationTime == s.sets[i].expirationTime)
  }

  lemma UpgradeKeepsChain(s: Ledger, signer: Pubkey, index: U32, guardians: seq<Address>, now: I64, genesis: int,
                          last: int)
    requires Chained(s, genesis, last) && 0 < now && last <= now
    requires ExecUpgrade(s, signer, index, guardians, now).Ok?
    ensures Chained(ExecUpgrade(s, signer, index, guardians, now).value, genesis, now)
    ensures forall i :: i in s.sets ==> SetKept(s, ExecUpgrade(s, signer, index, guardians, now).value, i)
  {
    var t := ExecUpgrade(s, signer, index, guardians, now).value;
    var current := s.config.value.currentGuardianSetIndex;
    var ttl := s.config.value.guardianSetTtlSeconds;
    assert SetGood(s, current, last);
    forall i | i in t.sets
      ensures SetGood(t, i, now)
    {
      assert i in s.sets ==> SetGood(s, i, last);
    }
    forall i | genesis <= i < index
      ensures Superseded(t, ttl, i)
    {
      if i < current {
        assert Superseded(s, ttl, i);
      }
    }
  }

  /** One instruction at time `now` keeps the chain; the genesis index is chosen when the bridge
      is initialized. */
  lemma StepKeepsChain(c: Crypto, s: Ledger, ins: Instruction, now: I64, genesis: int, last: int)
    returns (genesis': int)
    requires Chained(s, genesis, last) && 0 < now && last <= now
    ensures Chained(Step(c, s, ins, now), genesis', now)
    ensures s.config.Some? ==> genesis' == genesis
    ensures forall i :: i in s.sets ==> SetKept(s, Step(c, s, ins, now), i)
  {
    var t := Step(c, s, ins, now);
    genesis' := if s.config.None? && ins.Initialize? then ins.index else genesis;
    if Execute(c, s, ins, now).Ok? && ins.UpgradeGuardianSet? {
      UpgradeKeepsChain(s, ins.signer, ins.index, ins.guardians, now, genesis, last);
    } else if !(Execute(c, s, ins, now).Ok? && ins.Initialize?) {
      assert t.sets == s.sets && t.config == s.config;
      SameSetsSameChain(s, t, genesis, last, now);
    }
  }

  lemma SameSetsSameChain(s: Ledger, t: Ledger, genesis: int, last: int, now: int)
    requires Chained(s, genesis, last) && t.sets == s.sets && t.config == s.config && last <= now
    ensures Chained(t, genesis, now)
  {
    if s.config.Some? {
      forall i | i in t.sets ensures SetGood(t, i, now) {
        assert SetGood(s, i, last);
      }
      forall i | genesis <= i < s.config.value.currentGuardianSetIndex
        ensures Superseded(t, s.config.value.guardianSetTtlSeconds, i)
      {
        assert Superseded(s, s.config.value.guardianSetTtlSeconds, i);
      }
    }
  }

  function LastTime(txs: seq<Transaction>, k: nat): int
    requires k <= |txs|
  {
    if k == 0 then 0 else txs[k - 1].now
  }

  /** The rotation chain holds in every reachable ledger. */
  lemma {:induction false} RotationChain(c: Crypto, states: seq<Ledger>, txs: seq<Transaction>, k: nat)
    returns (genesis: int)
    requires Execution(c, states, txs) && ClockAdvances(txs) && k < |states|
    ensures Chained(states[k], genesis, LastTime(txs, k))
  {
    if k == 0 {
      genesis := 0;
    } else {
      genesis := RotationChain(c, states, txs, k - 1);
      assert states[k - 1 + 1] == Step(c, states[k - 1], txs[k - 1].ins, txs[k - 1].now);
      genesis := StepKeepsChain(c, states[k - 1], txs[k - 1].ins, txs[k - 1].now, genesis, LastTime(txs, k - 1));
    }
  }

  /** Once written, keys, creation time and a nonzero expiry of a set stay as they are in all
      later ledgers. */
  lemma {:induction false} SetsImmutable(c: Crypto, states: seq<Ledger>, txs: seq<Transaction>, j: nat, k: nat)
    requires Execution(c, states, txs) && ClockAdvances(txs) && j <= k < |states|
    ensures forall i :: i in states[j].sets ==> SetKept(states[j], states[k], i)
    decreases k
  {
    if j < k {
      SetsImmutable(c, states, txs, j, k - 1);
      var genesis := RotationChain(c, states, txs, k - 1);
      assert states[k - 1 + 1] == Step(c, states[k - 1], txs[k - 1].ins, txs[k - 1].now);
      genesis := StepKeepsChain(c, states[k - 1], txs[k - 1].ins, txs[k - 1].now, genesis, LastTime(txs, k - 1));
      forall i | i in states[j].sets
        ensures SetKept(states[j], states[k], i)
      {
        assert SetKept(states[j], states[k - 1], i);
        assert SetKept(states[k - 1], states[k], i);
      }
    }
  }

  lemma {:induction false} ExpiryMonotone(s: Ledger, genesis: int, last: int, i: int, j: int)
    requires Chained(s, genesis, last) && s.config.Some?
    requires genesis <= i <= j < s.config.value.currentGuardianSetIndex
    ensures i in s.sets && j in s.sets
    ensures 0 < s.sets[i].expirationTime <= s.sets[j].expirationTime
    decreases j - i
  {
    var ttl := s.config.value.guardianSetTtlSeconds;
    assert Superseded(s, ttl, i) && SetGood(s, i + 1, last);
    if i < j {
      ExpiryMonotone(s, genesis, last, i + 1, j);
      assert Superseded(s, ttl, i + 1);
    }
  }

  /** At any instant the active sets are a contiguous run of indices that ends with the current
      one: those from `oldest` on. */
  lemma ActiveSuffix(s: Ledger, genesis: int, last: int, now: I64) returns (oldest: int)
    requires Chained(s, genesis, last) && s.config.Some?
    ensures genesis <= oldest <= s.config.value.currentGuardianSetIndex
    ensures forall i :: i in s.sets ==> (s.sets[i].IsActive(now) <==> oldest <= i)
  {
    oldest := s.config.value.currentGuardianSetIndex;
    while oldest > genesis && s.sets[oldest - 1].IsActive(now)
      invariant genesis <= oldest <= s.config.value.currentGuardianSetIndex
      invariant forall i :: oldest <= i && i in s.sets ==> s.sets[i].IsActive(now)
    {
      oldest := oldest - 1;
    }
    forall i | i in s.sets && i < oldest
      ensures !s.sets[i].IsActive(now)
    {
      ExpiryMonotone(s, genesis, last, i, oldest - 1);
    }
  }

  /** Without a positive clock a superseded set could be written with expiry 0, which means
      "never": exactly when the upgrade's time and the ttl cancel out. */
  lemma SupersededForeverIff(s: Ledger, signer: Pubkey, index: U32, guardians: seq<Address>, now: I64)
    requires ExecUpgrade(s, signer, index, guardians, now).Ok?
    ensures var t := ExecUpgrade(s, signer, index, guardians, now).value;
            var current := s.config.value.currentGuardianSetIndex;
            (forall later: I64 :: t.sets[current].IsActive(later)) <==> now + s.config.value.guardianSetTtlSeconds == 0
  {
    var t := ExecUpgrade(s, signer, index, guardians, now).value;
    var current := s.config.value.currentGuardianSetIndex;
    assert t.sets[current].IsActive(t.sets[current].expirationTime) <==> t.sets[current].expirationTime == 0;
  }

  // ----- governance

  /** Only an upgrade signed by the governance authority moves the current index, and it moves it
      up by one; authority, chain id and ttl are fixed at initialization. */
  lemma OnlyAuthorityRotates(c: Crypto, s: Ledger, ins: Instruction, now: I64)
    requires s.config.Some?
    ensures var t := Step(c, s, ins, now);
            && t.config.Some?
            && var before, after := s.config.value, t.config.value;
               && after == before.(currentGuardianSetIndex := after.currentGuardianSetIndex)
               && (after == before ||
                   (&& ins.UpgradeGuardianSet? && ins.signer == before.governanceAuthority
                    && after.currentGuardianSetIndex == before.currentGuardianSetIndex + 1))
               && (t.sets != s.sets ==> after != before)
  {}

  /** In a reachable ledger a rotation succeeds exactly when the authority signs for the successor
      of the current index with 1..19 guardians and the expiry time fits; the account for that
      index is never already in use. */
  lemma UpgradeSucceedsIff(s: Ledger, signer: Pubkey, index: U32, guardians: seq<Address>, now: I64,
                           genesis: int, last: int)
    requires Chained(s, genesis, last) && s.config.Some?
    ensures var config := s.config.value;
            var r := ExecUpgrade(s, signer, index, guardians, now);
            && (r.Ok? <==> && signer == config.governanceAuthority
                           && index == config.currentGuardianSetIndex + 1
                           && 1 <= |guardians| <= Vaa.MAX_GUARDIANS
                           && now + config.guardianSetTtlSeconds < I64_LIMIT)
            && (r.Ok? ==> index in r.value.sets && r.value.sets[index].keys == guardians)
  {}

  // ----- the replay ledger

  /** Transaction k is a VAA verification that consumes its digest. */
  ghost predicate Accepted(states: seq<Ledger>, txs: seq<Transaction>, k: int) {
    && 0 <= k < |txs| < |states|
    && txs[k].ins.VerifyVaa?
    && txs[k].ins.hash !in states[k].consumed
    && txs[k].ins.hash in states[k + 1].consumed
  }

  /** That is, one that succeeds. */
  lemma AcceptedIffSucceeds(c: Crypto, states: seq<Ledger>, txs: seq<Transaction>, k: int)
    requires Execution(c, states, txs) && 0 <= k < |txs| && txs[k].ins.VerifyVaa?
    ensures Accepted(states, txs, k) <==> Execute(c, states[k], txs[k].ins, txs[k].now).Ok?
  {
    assert states[k + 1] == Step(c, states[k], txs[k].ins, txs[k].now);
  }

  lemma StepKeepsRecords(c: Crypto, s: Ledger, ins: Instruction, now: I64)
    ensures var t := Step(c, s, ins, now);
            && (forall d :: d in s.consumed ==> d in t.consumed && t.consumed[d] == s.consumed[d])
            && (forall m :: m in s.messages ==> m in t.messages && t.messages[m] == s.messages[m])
  {}

  /** Replay markers and posted messages are never rewritten or removed. */
  lemma {:induction false} RecordsKept(c: Crypto, states: seq<Ledger>, txs: seq<Transaction>, j: nat, k: nat)
    requires Execution(c, states, txs) && j <= k < |states|
    ensures forall d :: d in states[j].consumed ==>
              d in states[k].consumed && states[k].consumed[d] == states[j].consumed[d]
    ensures forall m :: m in states[j].messages ==>
              m in states[k].messages && states[k].messages[m] == states[j].messages[m]
    decreases k
  {
    if j < k {
      RecordsKept(c, states, txs, j, k - 1);
      assert states[k - 1 + 1] == Step(c, states[k - 1], txs[k - 1].ins, txs[k - 1].now);
      StepKeepsRecords(c, states[k - 1], txs[k - 1].ins, txs[k - 1].now);
    }
  }

  /** A verification succeeds exactly when the bytes parse to a VAA that names the given set and
      hashes to the given digest, the digest is new, the set is active, and a quorum of its
      distinct guardians signed with valid signatures only. */
  lemma AcceptsExactly(c: Crypto, s: Ledger, index: U32, hash: Hash, bytes: Bytes, now: I64)
    ensures ExecVerifyVaa(c, s, index, hash, bytes, now).Ok?
        <==> (&& s.config.Some? && index in s.sets && s.sets[index].index == index
              && hash !in s.consumed
              && s.sets[index].IsActive(now)
              && Vaa.Parse(bytes).Ok?
              && var v := Vaa.Parse(bytes).value;
                 && v.guardianSetIndex == index
                 && c.keccak(c.keccak(Vaa.EncodeBody(v.body))) == hash
                 && Certified(c, v, s.sets[index].keys))
  {
    ParsersAgree(c, bytes);
    if Vaa.Parse(bytes).Ok? && index in s.sets {
      VerifiersAgree(c, bytes, s.sets[index].keys);
    }
  }

  /** Guardian keys are never rewritten or removed, whatever the clock does. */
  lemma {:induction false} KeysKept(c: Crypto, states: seq<Ledger>, txs: seq<Transaction>, j: nat, k: nat, i: U32)
    requires Execution(c, states, txs) && j <= k < |states| && i in states[j].sets
    ensures i in states[k].sets && states[k].sets[i].keys == states[j].sets[i].keys
    decreases k
  {
    if j < k {
      KeysKept(c, states, txs, j, k - 1, i);
      assert states[k - 1 + 1] == Step(c, states[k - 1], txs[k - 1].ins, txs[k - 1].now);
    }
  }

  /** Each digest is accepted at most once, whatever guardian set or signatures the byte strings
      name. */
  lemma AcceptedOnce(c: Crypto, states: seq<Ledger>, txs: seq<Transaction>, j: int, k: int)
    requires Execution(c, states, txs)
    requires Accepted(states, txs, j) && Accepted(states, txs, k)
    requires txs[j].ins.hash == txs[k].ins.hash
    ensures j == k
  {
    if j < k {
      RecordsKept(c, states, txs, j + 1, k);
    } else if k < j {
      RecordsKept(c, states, txs, k + 1, j);
    }
  }

  /** What justifies digest d in a ledger: transaction k accepted a byte string that parses and
      hashes to d, named a set that was active then, and re-verifies against the keys that set
      still has in the ledger. */
  ghost predicate Justifies(c: Crypto, states: seq<Ledger>, txs: seq<Transaction>, k: int, d: Hash, s: Ledger) {
    && Accepted(states, txs, k)
    && txs[k].ins.hash == d
    && var bytes := txs[k].ins.bytes;
       var index := txs[k].ins.index;
       && OnChain.Parse(c, bytes).Ok?
       && var parsed := OnChain.Parse(c, bytes).value;
          && parsed.hash == d
          && parsed.guardianSetIndex == index
          && index in states[k].sets && states[k].sets[index].IsActive(txs[k].now)
          && index in s.sets && s.sets[index].keys == states[k].sets[index].keys
          && OnChain.VerifyQuorum(c, parsed, s.sets[index].keys) == None
          && d in s.consumed && s.consumed[d] == ConsumedVaa(d, parsed.sequence)
  }

  lemma AcceptedJustifies(c: Crypto, states: seq<Ledger>, txs: seq<Transaction>, k: int, n: nat)
    requires Execution(c, states, txs)
    requires Accepted(states, txs, k) && k < n < |states|
    ensures Justifies(c, states, txs, k, txs[k].ins.hash, states[n])
  {
    AcceptedIffSucceeds(c, states, txs, k);
    assert states[k + 1] == Step(c, states[k], txs[k].ins, txs[k].now);
    KeysKept(c, states, txs, k, n, txs[k].ins.index);
    RecordsKept(c, states, txs, k + 1, n);
  }

  lemma {:induction false} ConsumedByAccepted(c: Crypto, states: seq<Ledger>, txs: seq<Transaction>, n: nat, d: Hash)
    returns (k: int)
    requires Execution(c, states, txs) && n < |states| && d in states[n].consumed
    ensures k < n && Accepted(states, txs, k) && txs[k].ins.hash == d
  {
    var tx := txs[n - 1];
    assert states[n - 1 + 1] == Step(c, states[n - 1], tx.ins, tx.now);
    if d in states[n - 1].consumed {
      k := ConsumedByAccepted(c, states, txs, n - 1, d);
    } else {
      k := n - 1;
    }
  }

  /** In every reachable ledger, each consumed digest is justified by exactly one transaction. */
  lemma ReplayLedger(c: Crypto, states: seq<Ledger>, txs: seq<Transaction>, n: nat, d: Hash)
    requires Execution(c, states, txs) && n < |states| && d in states[n].consumed
    ensures exists k :: k < n && Justifies(c, states, txs, k, d, states[n])
    ensures forall j, k :: Justifies(c, states, txs, j, d, states[n]) && Justifies(c, states, txs, k, d, states[n]) ==>
              j == k
  {
    var k := ConsumedByAccepted(c, states, txs, n, d);
    AcceptedJustifies(c, states, txs, k, n);
    forall i, j | Justifies(c, states, txs, i, d, states[n]) && Justifies(c, states, txs, j, d, states[n])
      ensures i == j
    {
      AcceptedOnce(c, states, txs, i, j);
    }
  }

  /** An accepted VAA has the consumed digest and verifies against its set's keys for good. */
  lemma {:induction false} AcceptedVerifies(c: Crypto, states: seq<Ledger>, txs: seq<Transaction>, k: int, n: nat)
    requires Execution(c, states, txs)
    requires Accepted(states, txs, k) && k < n < |states|
    ensures Vaa.Parse(txs[k].ins.bytes).Ok? && txs[k].ins.index in states[n].sets
    ensures var v := Vaa.Parse(txs[k].ins.bytes).value;
            && Vaa.Digest(c, v.body) == txs[k].ins.hash
            && Vaa.Verify(c, v, states[n].sets[txs[k].ins.index].keys) == None
  {
    AcceptedJustifies(c, states, txs, k, n);
    HashOfBody(c, txs[k].ins.bytes);
    VerifiersAgree(c, txs[k].ins.bytes, states[n].sets[txs[k].ins.index].keys);
    VerifyMeansQuorum(c, Vaa.Parse(txs[k].ins.bytes).value, states[n].sets[txs[k].ins.index].keys);
  }

  /** Two verifications name one guardian set and one slot, and few of that set's guardians are
      faulty. */
  ghost predicate ConflictingUse(c: Crypto, states: seq<Ledger>, txs: seq<Transaction>, j: int, k: int,
                                 faulty: set<int>, signed: map<int, set<Vaa.VaaBody>>)
    requires Accepted(states, txs, j) && Accepted(states, txs, k)
  {
    var a, b := Vaa.Parse(txs[j].ins.bytes), Vaa.Parse(txs[k].ins.bytes);
    && a.Ok? && b.Ok?
    && txs[j].ins.index == txs[k].ins.index
    && SameSlot(a.value.body, b.value.body)
    && txs[j].ins.index in states[j].sets
    && MostlyHonest(c, states[j].sets[txs[j].ins.index].keys, faulty, signed, {a.value.body, b.value.body})
  }

  /** With few faulty guardians, a guardian set is used for at most one body per slot in the
      whole life of the program: two accepted verifications of one slot under one set are the
      same transaction. */
  lemma {:induction false} OneBodyPerSlot(c: Crypto, states: seq<Ledger>, txs: seq<Transaction>, j: int, k: int,
                                          faulty: set<int>, signed: map<int, set<Vaa.VaaBody>>)
    requires Execution(c, states, txs)
    requires Accepted(states, txs, j) && Accepted(states, txs, k)
    ensures ConflictingUse(c, states, txs, j, k, faulty, signed) ==> j == k
  {
    if ConflictingUse(c, states, txs, j, k, faulty, signed) {
      var n := |states| - 1;
      AcceptedVerifies(c, states, txs, j, n);
      AcceptedVerifies(c, states, txs, k, n);
      KeysKept(c, states, txs, j, n, txs[j].ins.index);
      var v, w := Vaa.Parse(txs[j].ins.bytes).value, Vaa.Parse(txs[k].ins.bytes).value;
      SameSlotSameDigest(c, states[j].sets[txs[j].ins.index].keys, v, w, faulty, signed);
      AcceptedOnce(c, states, txs, j, k);
    }
  }

  lemma {:induction false} SameSlotSameDigest(c: Crypto, keys: seq<Address>, v: Vaa.Vaa, w: Vaa.Vaa,
                                              faulty: set<int>, signed: map<int, set<Vaa.VaaBody>>)
    requires Vaa.Verify(c, v, keys) == None && Vaa.Verify(c, w, keys) == None
    requires SameSlot(v.body, w.body) && MostlyHonest(c, keys, faulty, signed, {v.body, w.body})
    ensures Vaa.Digest(c, v.body) == Vaa.Digest(c, w.body)
  {
    VerifiedBodiesAgree(c, keys, v, w, faulty, signed);
  }

  // ----- message emission

  /** The number of messages an emitter has posted. */
  function Posted(s: Ledger, emitter: Pubkey): nat {
    Tracker(s, emitter).sequence
  }

  /** The emitter's messages are exactly those numbered 0 .. Posted - 1, each stored under its
      own number. */
  ghost predicate Gapless(s: Ledger, emitter: Pubkey) {
    && (emitter in s.trackers ==> s.trackers[emitter].emitter == emitter)
    && (forall q: U64 :: (emitter, q) in s.messages <==> q < Posted(s, emitter))
    && (forall q: U64 :: (emitter, q) in s.messages ==>
          s.messages[(emitter, q)].emitter == emitter && s.messages[(emitter, q)].sequence == q)
  }

  lemma StepKeepsGapless(c: Crypto, s: Ledger, ins: Instruction, now: I64, emitter: Pubkey)
    requires Gapless(s, emitter)
    ensures Gapless(Step(c, s, ins, now), emitter)
    ensures var posts := ins.PostMessage? && ins.emitter == emitter && Execute(c, s, ins, now).Ok?;
            Posted(Step(c, s, ins, now), emitter) == Posted(s, emitter) + (if posts then 1 else 0)
  {
    var t := Step(c, s, ins, now);
    if ins.PostMessage? && t != s {
      var e, n := ins.emitter, Posted(s, ins.emitter);
      forall q: U64
        ensures (emitter, q) in t.messages <==> (emitter, q) in s.messages || (emitter == e && q == n)
      {}
    } else {
      assert t.messages == s.messages && t.trackers == s.trackers;
    }
  }

  /** In every reachable ledger every emitter's messages are gapless. */
  lemma {:induction false} EmissionGapless(c: Crypto, states: seq<Ledger>, txs: seq<Transaction>, k: nat,
                                           emitter: Pubkey)
    requires Execution(c, states, txs) && k < |states|
    ensures Gapless(states[k], emitter)
  {
    if k > 0 {
      EmissionGapless(c, states, txs, k - 1, emitter);
      assert states[k - 1 + 1] == Step(c, states[k - 1], txs[k - 1].ins, txs[k - 1].now);
      StepKeepsGapless(c, states[k - 1], txs[k - 1].ins, txs[k - 1].now, emitter);
    }
  }

  /** When posting succeeds in a reachable ledger: exactly when the payload fits and the counter
      is not at its maximum; at the maximum nothing is posted. */
  lemma PostsUnlessFull(c: Crypto, s: Ledger, emitter: Pubkey, nonce: U32, level: Byte, payload: Bytes, now: I64)
    requires Gapless(s, emitter)
    ensures Execute(c, s, PostMessage(emitter, nonce, level, payload), now).Ok?
        <==> |payload| <= Vaa.MAX_PAYLOAD_LEN && Posted(s, emitter) < U64_LIMIT - 1
    ensures |payload| <= Vaa.MAX_PAYLOAD_LEN && Posted(s, emitter) == U64_LIMIT - 1
        ==> Execute(c, s, PostMessage(emitter, nonce, level, payload), now) == Err(Failed(OnChain.Overflow))
            && Step(c, s, PostMessage(emitter, nonce, level, payload), now) == s
  {
    assert (emitter, Posted(s, emitter)) !in s.messages;
  }
}
