/** The ledger told by the transactions: which of them founded the bridge, installed each guardian
    set and posted each message, and what they wrote. Nothing is assumed about the clock. */
module ProgramLedger {
  import opened Prelude
  import opened Program
  import opened ProgramRuns
  import Vaa
  import opened VaaEquivalence
  import OnChain = OnChainVaa

  // ----- foundation

  predicate WellSized(guardians: seq<Address>) {
    1 <= |guardians| <= 19
  }

  /** Transaction k is the first that initializes the bridge with 1 to 19 guardians. */
  ghost predicate Founds(txs: seq<Transaction>, k: int) {
    && 0 <= k < |txs|
    && txs[k].ins.Initialize? && WellSized(txs[k].ins.guardians)
    && forall j :: 0 <= j < k && txs[j].ins.Initialize? ==> !WellSized(txs[j].ins.guardians)
  }

  // ----- rotation

  /** Transaction k rotates from set `current`, in a bridge founded by transaction f. */
  predicate Rotates(txs: seq<Transaction>, f: nat, k: nat, current: int)
    requires f < |txs| && k < |txs| && txs[f].ins.Initialize?
  {
    var founder, ins := txs[f].ins, txs[k].ins;
    && ins.UpgradeGuardianSet?
    && ins.signer == founder.governance
    && ins.index == current + 1
    && WellSized(ins.guardians)
    && txs[k].now + founder.ttl < I64_LIMIT
  }

  /** The current set before transaction n. */
  function CurrentIndex(txs: seq<Transaction>, f: nat, n: nat): nat
    requires f < n <= |txs| && txs[f].ins.Initialize?
  {
    if n == f + 1 then txs[f].ins.index
    else
      var before := CurrentIndex(txs, f, n - 1);
      if Rotates(txs, f, n - 1, before) then before + 1 else before
  }

  /** Transaction k installs guardian set i: it founds the bridge with it, or rotates to it. */
  ghost predicate Installs(txs: seq<Transaction>, f: nat, k: int, i: int)
    requires f < |txs| && txs[f].ins.Initialize?
  {
    if k == f then i == txs[f].ins.index
    else f < k < |txs| && i == CurrentIndex(txs, f, k) + 1 && Rotates(txs, f, k, i - 1)
  }

  lemma {:induction false} CurrentGrows(txs: seq<Transaction>, f: nat, j: nat, k: nat)
    requires f < j <= k <= |txs| && txs[f].ins.Initialize?
    ensures txs[f].ins.index <= CurrentIndex(txs, f, j) <= CurrentIndex(txs, f, k)
    decreases k
  {
    if j < k {
      CurrentGrows(txs, f, j, k - 1);
    } else if f + 1 < j {
      CurrentGrows(txs, f, j - 1, j - 1);
    }
  }

  lemma InstallsOnce(txs: seq<Transaction>, f: nat, j: int, k: int, i: int)
    requires f < |txs| && txs[f].ins.Initialize?
    requires Installs(txs, f, j, i) && Installs(txs, f, k, i)
    ensures j == k
  {
    if j < k {
      CurrentGrows(txs, f, j + 1, k);
    } else if k < j {
      CurrentGrows(txs, f, k + 1, j);
    }
  }

  /** Transaction k rotates away from guardian set i. */
  ghost predicate Supersedes(txs: seq<Transaction>, f: nat, k: int, i: int)
    requires f < |txs| && txs[f].ins.Initialize?
  {
    f < k && Installs(txs, f, k, i + 1)
  }

  /** The configuration after n transactions. */
  ghost predicate ConfigTold(txs: seq<Transaction>, f: nat, n: nat, s: Ledger)
    requires f < n <= |txs| && txs[f].ins.Initialize?
  {
    var ins := txs[f].ins;
    && s.config.Some?
    && s.config.value.governanceAuthority == ins.governance
    && s.config.value.chainId == ins.chainId
    && s.config.value.currentGuardianSetIndex == CurrentIndex(txs, f, n)
    && s.config.value.guardianSetTtlSeconds == ins.ttl
    && s.config.value.emitterSequence == 0
  }

  /** What transaction k wrote when it installed set i is still there. */
  ghost predicate SetTold(txs: seq<Transaction>, f: nat, s: Ledger, k: nat, i: int)
    requires f < |txs| && txs[f].ins.Initialize? && k < |txs|
    requires Installs(txs, f, k, i)
  {
    && i in s.sets
    && s.sets[i].index == i
    && s.sets[i].keys == txs[k].ins.guardians
    && s.sets[i].creationTime == txs[k].now
  }

  /** The guardian sets after n transactions: those installed, each as its transaction wrote it;
      the current one never expires, and each other one expires ttl after the clock of the
      transaction that installed its successor. */
  ghost predicate SetsTold(txs: seq<Transaction>, f: nat, n: nat, s: Ledger)
    requires f < n <= |txs| && txs[f].ins.Initialize?
  {
    && (forall i :: i in s.sets <==> txs[f].ins.index <= i <= CurrentIndex(txs, f, n))
    && (forall k, i :: 0 <= k < n && Installs(txs, f, k, i) ==> SetTold(txs, f, s, k, i))
    && CurrentIndex(txs, f, n) in s.sets && s.sets[CurrentIndex(txs, f, n)].expirationTime == 0
    && (forall k, i :: f < k < n && Installs(txs, f, k, i) ==>
          i - 1 in s.sets && s.sets[i - 1].expirationTime == txs[k].now + txs[f].ins.ttl)
  }

  lemma {:induction false} Installer(txs: seq<Transaction>, f: nat, n: nat, i: int) returns (k: nat)
    requires f < n <= |txs| && txs[f].ins.Initialize?
    requires txs[f].ins.index <= i <= CurrentIndex(txs, f, n)
    ensures k < n && Installs(txs, f, k, i)
  {
    if n == f + 1 {
      k := f;
    } else if i <= CurrentIndex(txs, f, n - 1) {
      k := Installer(txs, f, n - 1, i);
    } else {
      k := n - 1;
    }
  }

  lemma UpgradeExactly(c: Crypto, txs: seq<Transaction>, f: nat, n: nat, s: Ledger)
    requires f < n < |txs| && txs[f].ins.Initialize? && txs[n].ins.UpgradeGuardianSet?
    requires ConfigTold(txs, f, n, s) && SetsTold(txs, f, n, s)
    ensures Execute(c, s, txs[n].ins, txs[n].now).Ok? <==> Rotates(txs, f, n, CurrentIndex(txs, f, n))
  {
    CurrentGrows(txs, f, n, n);
  }

  lemma {:induction false} ToldStep(c: Crypto, txs: seq<Transaction>, f: nat, n: nat, s: Ledger)
    requires f < n < |txs| && txs[f].ins.Initialize?
    requires ConfigTold(txs, f, n, s) && SetsTold(txs, f, n, s)
    ensures var t := Step(c, s, txs[n].ins, txs[n].now);
            ConfigTold(txs, f, n + 1, t) && SetsTold(txs, f, n + 1, t)
  {
    var t, cur := Step(c, s, txs[n].ins, txs[n].now), CurrentIndex(txs, f, n);
    CurrentGrows(txs, f, n, n);
    if txs[n].ins.UpgradeGuardianSet? {
      UpgradeExactly(c, txs, f, n, s);
    }
    if Rotates(txs, f, n, cur) {
      RotationTold(c, txs, f, n, s);
    } else {
      assert t.sets == s.sets && t.config == s.config;
      assert forall i :: !Installs(txs, f, n, i);
    }
  }

  lemma {:induction false} RotationTold(c: Crypto, txs: seq<Transaction>, f: nat, n: nat, s: Ledger)
    requires f < n < |txs| && txs[f].ins.Initialize? && Rotates(txs, f, n, CurrentIndex(txs, f, n))
    requires ConfigTold(txs, f, n, s) && SetsTold(txs, f, n, s)
    ensures var t := Step(c, s, txs[n].ins, txs[n].now);
            ConfigTold(txs, f, n + 1, t) && SetsTold(txs, f, n + 1, t)
  {
    var t, cur := Step(c, s, txs[n].ins, txs[n].now), CurrentIndex(txs, f, n);
    CurrentGrows(txs, f, n, n);
    UpgradeExactly(c, txs, f, n, s);
    assert t.sets.Keys == s.sets.Keys + {cur + 1};
    forall k, i | 0 <= k < n + 1 && Installs(txs, f, k, i)
      ensures SetTold(txs, f, t, k, i)
    {
      if k < n {
        assert SetTold(txs, f, s, k, i);
        assert i <= cur;
      }
    }
    forall k, i | f < k < n + 1 && Installs(txs, f, k, i)
      ensures i - 1 in t.sets && t.sets[i - 1].expirationTime == txs[k].now + txs[f].ins.ttl
    {
      if k < n {
        assert SetTold(txs, f, s, k, i);
        assert i - 1 < cur;
      }
    }
  }

  // ----- whole runs

  ghost predicate Unfounded(s: Ledger) {
    s.config.None? && s.sets == map[]
  }

  lemma {:induction false} UnfoundedBefore(c: Crypto, states: seq<Ledger>, txs: seq<Transaction>, n: nat)
    requires Execution(c, states, txs) && n < |states|
    requires forall k :: 0 <= k < n ==> !Founds(txs, k)
    ensures Unfounded(states[n])
    ensures forall k :: 0 <= k < n && txs[k].ins.Initialize? ==> !WellSized(txs[k].ins.guardians)
  {
    if n > 0 {
      UnfoundedBefore(c, states, txs, n - 1);
      var tx := txs[n - 1];
      assert states[n - 1 + 1] == Step(c, states[n - 1], tx.ins, tx.now);
      assert !Founds(txs, n - 1);
    }
  }

  lemma {:induction false} FoundedAfter(c: Crypto, states: seq<Ledger>, txs: seq<Transaction>, f: nat, n: nat)
    requires Execution(c, states, txs) && Founds(txs, f) && f < n < |states|
    ensures ConfigTold(txs, f, n, states[n]) && SetsTold(txs, f, n, states[n])
    decreases n
  {
    var tx := txs[n - 1];
    assert states[n - 1 + 1] == Step(c, states[n - 1], tx.ins, tx.now);
    if n == f + 1 {
      forall k | 0 <= k < f ensures !Founds(txs, k) {}
      UnfoundedBefore(c, states, txs, f);
    } else {
      FoundedAfter(c, states, txs, f, n - 1);
      ToldStep(c, txs, f, n - 1, states[n - 1]);
    }
  }

  /** One initialization ever succeeds: the first that names 1 to 19 guardians. Until then there
      is neither a configuration nor a guardian set; from then on authority, chain id and ttl are
      the arguments of that transaction. */
  lemma InitializedOnce(c: Crypto, states: seq<Ledger>, txs: seq<Transaction>, n: nat)
    requires Execution(c, states, txs) && n < |states|
    ensures n < |txs| && txs[n].ins.Initialize? ==>
              (Execute(c, states[n], txs[n].ins, txs[n].now).Ok? <==> Founds(txs, n))
    ensures if exists f :: f < n && Founds(txs, f) then states[n].config.Some? else Unfounded(states[n])
    ensures forall f :: f < n && Founds(txs, f) ==>
              var ins := txs[f].ins;
              states[n].config.Some? && states[n].config.value
              == BridgeConfig(ins.governance, ins.chainId, states[n].config.value.currentGuardianSetIndex, ins.ttl, 0)
  {
    if f :| 0 <= f < n && Founds(txs, f) {
      FoundedAfter(c, states, txs, f, n);
    } else {
      UnfoundedBefore(c, states, txs, n);
    }
  }

  /** The guardian sets of a run, whatever the clock does. After the founding transaction f they
      are those it and the rotations since have installed, each by exactly one transaction: under
      its index, with its guardians, created at its clock. The current set never expires; every
      other one expires ttl after the clock of the one transaction that superseded it. */
  lemma SetLedger(c: Crypto, states: seq<Ledger>, txs: seq<Transaction>, f: nat, n: nat, i: int)
    requires Execution(c, states, txs) && Founds(txs, f) && f < n < |states|
    ensures states[n].config.Some?
    ensures i in states[n].sets <==> exists k :: 0 <= k < n && Installs(txs, f, k, i)
    ensures forall j, k :: Installs(txs, f, j, i) && Installs(txs, f, k, i) ==> j == k
    ensures forall k :: 0 <= k < n && Installs(txs, f, k, i) ==>
              var kept := states[n].sets[i];
              kept.index == i && kept.keys == txs[k].ins.guardians && kept.creationTime == txs[k].now
    ensures i in states[n].sets ==>
              if i == states[n].config.value.currentGuardianSetIndex then states[n].sets[i].expirationTime == 0
              else exists k :: 0 <= k < n && Supersedes(txs, f, k, i)
    ensures forall k :: 0 <= k < n && Supersedes(txs, f, k, i) ==>
              i in states[n].sets && states[n].sets[i].expirationTime == txs[k].now + txs[f].ins.ttl
  {
    FoundedAfter(c, states, txs, f, n);
    forall j, k | Installs(txs, f, j, i) && Installs(txs, f, k, i)
      ensures j == k
    {
      InstallsOnce(txs, f, j, k, i);
    }
    forall k | 0 <= k < n && Installs(txs, f, k, i)
      ensures SetTold(txs, f, states[n], k, i)
    {}
    if i in states[n].sets {
      var k := Installer(txs, f, n, i);
      if i != states[n].config.value.currentGuardianSetIndex {
        var next := Installer(txs, f, n, i + 1);
        assert Supersedes(txs, f, next, i);
      }
    }
  }

  /** The in-flight window: a set superseded at time t verifies VAAs at every later time before
      t + ttl, in all later ledgers, and at none from then on (unless t + ttl is 0, which means
      that it never expires). */
  lemma SupersededWindow(c: Crypto, states: seq<Ledger>, txs: seq<Transaction>, f: nat, k: nat, n: nat, i: int, u: I64)
    requires Execution(c, states, txs) && Founds(txs, f) && k < n < |states| && Supersedes(txs, f, k, i)
    ensures i in states[n].sets
    ensures var expiry := txs[k].now + txs[f].ins.ttl;
            states[n].sets[i].IsActive(u) <==> u < expiry || expiry == 0
  {
    FoundedAfter(c, states, txs, f, n);
    assert i + 1 - 1 == i;
  }

  /** A transaction moves the current index exactly when it is an upgrade to the next index,
      signed by the authority named at the foundation, with 1 to 19 guardians and an expiry that
      fits; no other upgrade succeeds. */
  lemma RotatedByFounderOnly(c: Crypto, states: seq<Ledger>, txs: seq<Transaction>, f: nat, k: nat)
    requires Execution(c, states, txs) && Founds(txs, f) && f < k < |txs|
    ensures states[k].config.Some? && states[k + 1].config.Some?
    ensures var current, next := states[k].config.value.currentGuardianSetIndex,
                                 states[k + 1].config.value.currentGuardianSetIndex;
            && (next != current <==> Rotates(txs, f, k, current))
            && (next != current ==> next == current + 1)
            && (txs[k].ins.UpgradeGuardianSet? ==>
                  (Execute(c, states[k], txs[k].ins, txs[k].now).Ok? <==> next != current))
  {
    FoundedAfter(c, states, txs, f, k);
    FoundedAfter(c, states, txs, f, k + 1);
    if txs[k].ins.UpgradeGuardianSet? {
      UpgradeExactly(c, txs, f, k, states[k]);
    }
  }

  /** Why an initialization fails: the bridge is founded already, or the number of guardians. */
  lemma InitializeReplies(c: Crypto, states: seq<Ledger>, txs: seq<Transaction>, k: nat)
    requires Execution(c, states, txs) && k < |txs| && txs[k].ins.Initialize?
    ensures var guardians, r := txs[k].ins.guardians, Execute(c, states[k], txs[k].ins, txs[k].now);
            r.Err? ==> r.error == if exists f :: f < k && Founds(txs, f) then AccountInUse
                                  else if guardians == [] then Failed(OnChain.EmptyGuardianSet)
                                  else Failed(OnChain.GuardianSetTooLarge)
  {
    InitializedOnce(c, states, txs, k);
  }

  /** Why an upgrade of a founded bridge fails, the first reason that applies: the index belongs to
      a set already installed, the signer, the number of guardians, no index is left, the index
      is not the next one, or the expiry does not fit. */
  lemma UpgradeReplies(c: Crypto, states: seq<Ledger>, txs: seq<Transaction>, f: nat, k: nat)
    requires Execution(c, states, txs) && Founds(txs, f) && f < k < |txs| && txs[k].ins.UpgradeGuardianSet?
    ensures var founder, ins, current := txs[f].ins, txs[k].ins, CurrentIndex(txs, f, k);
            var r := Execute(c, states[k], ins, txs[k].now);
            r.Err? ==> r.error == if founder.index <= ins.index <= current then AccountInUse
                                  else if ins.signer != founder.governance then Failed(OnChain.Unauthorized)
                                  else if ins.guardians == [] then Failed(OnChain.EmptyGuardianSet)
                                  else if |ins.guardians| > 19 then Failed(OnChain.GuardianSetTooLarge)
                                  else if current == 0xFFFF_FFFF then ArithmeticPanic
                                  else if ins.index != current + 1 then Failed(OnChain.InvalidGuardianSetIndex)
                                  else Failed(OnChain.Overflow)
  {
    FoundedAfter(c, states, txs, f, k);
    CurrentGrows(txs, f, k, k);
  }

  /** Why a verification in a founded bridge fails, the first reason that applies, in terms of the
      off-chain parser and verifier: no such set, the digest is consumed, the bytes do not parse,
      they name another set or another digest, the set has expired, or the signatures do not
      verify. */
  lemma VerifyReplies(c: Crypto, states: seq<Ledger>, txs: seq<Transaction>, f: nat, k: nat)
    requires Execution(c, states, txs) && Founds(txs, f) && f < k < |txs| && txs[k].ins.VerifyVaa?
    ensures var s, ins, r := states[k], txs[k].ins, Execute(c, states[k], txs[k].ins, txs[k].now);
            var parsed := Vaa.Parse(ins.bytes);
            r.Err? ==>
              if ins.index !in s.sets then r.error == AccountNotInitialized
              else if ins.hash in s.consumed then r.error == AccountInUse
              else if parsed.Err? then r.error == Failed(Counterpart(c, ins.bytes, parsed).error)
              else if parsed.value.guardianSetIndex != ins.index then r.error == Failed(OnChain.GuardianSetMismatch)
              else if Vaa.Digest(c, parsed.value.body) != ins.hash then r.error == Failed(OnChain.InvalidVaa)
              else if !s.sets[ins.index].IsActive(txs[k].now) then r.error == Failed(OnChain.GuardianSetExpired)
              else
                var fault := Vaa.Verify(c, parsed.value, s.sets[ins.index].keys);
                fault.Some? && r.error == Failed(ErrorCounterpart(fault.value))
  {
    var bytes := txs[k].ins.bytes;
    FoundedAfter(c, states, txs, f, k);
    SetOf(txs, f, k, states[k], txs[k].ins.index);
    ParsersAgree(c, bytes);
    if Vaa.Parse(bytes).Ok? && txs[k].ins.index in states[k].sets {
      VerifiersAgree(c, bytes, states[k].sets[txs[k].ins.index].keys);
    }
  }

  lemma SetOf(txs: seq<Transaction>, f: nat, n: nat, s: Ledger, i: int)
    requires f < n <= |txs| && txs[f].ins.Initialize? && SetsTold(txs, f, n, s)
    ensures i in s.sets ==> s.sets[i].index == i
  {
    if i in s.sets {
      var k := Installer(txs, f, n, i);
    }
  }

  // ----- messages

  /** How many of the first n transactions post for the emitter with a payload that fits. */
  function Fitting(txs: seq<Transaction>, n: nat, emitter: Pubkey): nat
    requires n <= |txs|
  {
    if n == 0 then 0
    else
      var ins := txs[n - 1].ins;
      Fitting(txs, n - 1, emitter)
      + (if ins.PostMessage? && ins.emitter == emitter && |ins.payload| <= 1024 then 1 else 0)
  }

  /** Transaction k posts the emitter's message number q. The last number of the counter's range
      is never given. */
  ghost predicate PostsAs(txs: seq<Transaction>, k: int, emitter: Pubkey, q: int) {
    && 0 <= k < |txs|
    && txs[k].ins.PostMessage? && txs[k].ins.emitter == emitter && |txs[k].ins.payload| <= 1024
    && Fitting(txs, k, emitter) == q < U64_LIMIT - 1
  }

  lemma {:induction false} FittingGrows(txs: seq<Transaction>, j: nat, k: nat, emitter: Pubkey)
    requires j <= k <= |txs|
    ensures Fitting(txs, j, emitter) <= Fitting(txs, k, emitter)
    decreases k
  {
    if j < k {
      FittingGrows(txs, j, k - 1, emitter);
    }
  }

  lemma PostsOnce(txs: seq<Transaction>, j: int, k: int, emitter: Pubkey, q: int)
    requires PostsAs(txs, j, emitter, q) && PostsAs(txs, k, emitter, q)
    ensures j == k
  {
    if j < k {
      FittingGrows(txs, j + 1, k, emitter);
    } else if k < j {
      FittingGrows(txs, k + 1, j, emitter);
    }
  }

  function PostedBy(txs: seq<Transaction>, n: nat, emitter: Pubkey): nat
    requires n <= |txs|
  {
    var fitting := Fitting(txs, n, emitter);
    if fitting < U64_LIMIT then fitting else U64_LIMIT - 1
  }

  lemma {:induction false} PostedTold(c: Crypto, states: seq<Ledger>, txs: seq<Transaction>, n: nat, emitter: Pubkey)
    requires Execution(c, states, txs) && n < |states|
    ensures Gapless(states[n], emitter) && Posted(states[n], emitter) == PostedBy(txs, n, emitter)
  {
    EmissionGapless(c, states, txs, n, emitter);
    if n > 0 {
      PostedTold(c, states, txs, n - 1, emitter);
      var s, tx := states[n - 1], txs[n - 1];
      assert states[n - 1 + 1] == Step(c, s, tx.ins, tx.now);
      StepKeepsGapless(c, s, tx.ins, tx.now, emitter);
      if tx.ins.PostMessage? && tx.ins.emitter == emitter {
        PostsUnlessFull(c, s, emitter, tx.ins.nonce, tx.ins.level, tx.ins.payload, tx.now);
      }
    }
  }

  /** A post succeeds exactly when it gives its emitter's next number; otherwise the payload is too
      large, or the counter is at its maximum. */
  lemma PostReplies(c: Crypto, states: seq<Ledger>, txs: seq<Transaction>, k: nat)
    requires Execution(c, states, txs) && k < |txs| && txs[k].ins.PostMessage?
    ensures var ins, r := txs[k].ins, Execute(c, states[k], txs[k].ins, txs[k].now);
            && (r.Ok? <==> PostsAs(txs, k, ins.emitter, Fitting(txs, k, ins.emitter)))
            && (r.Err? ==> r.error == Failed(if |ins.payload| > 1024 then OnChain.WormError.PayloadTooLarge
                                             else OnChain.Overflow))
  {
    var ins := txs[k].ins;
    PostedTold(c, states, txs, k, ins.emitter);
    PostsUnlessFull(c, states[k], ins.emitter, ins.nonce, ins.level, ins.payload, txs[k].now);
  }

  lemma {:induction false} MessageOf(c: Crypto, states: seq<Ledger>, txs: seq<Transaction>, n: nat, emitter: Pubkey,
                                     q: U64) returns (k: nat)
    requires Execution(c, states, txs) && n < |states| && (emitter, q) in states[n].messages
    ensures k < n && PostsAs(txs, k, emitter, q)
  {
    PostedTold(c, states, txs, n, emitter);
    if n > 0 && q < PostedBy(txs, n - 1, emitter) {
      PostedTold(c, states, txs, n - 1, emitter);
      k := MessageOf(c, states, txs, n - 1, emitter, q);
    } else {
      k := n - 1;
    }
  }

  lemma MessageWritten(c: Crypto, states: seq<Ledger>, txs: seq<Transaction>, n: nat, k: nat, emitter: Pubkey, q: U64)
    requires Execution(c, states, txs) && k < n < |states| && PostsAs(txs, k, emitter, q)
    ensures var ins := txs[k].ins;
            && (emitter, q) in states[n].messages
            && states[n].messages[(emitter, q)]
               == PostedMessage(emitter, q, ins.nonce, ins.level, txs[k].now, ins.payload)
  {
    PostedTold(c, states, txs, k, emitter);
    PostReplies(c, states, txs, k);
    assert states[k + 1] == Step(c, states[k], txs[k].ins, txs[k].now);
    RecordsKept(c, states, txs, k + 1, n);
  }

  /** The message ledger: an emitter's message q is stored exactly when one of the transactions so
      far posted it, namely the emitter's q-th one with a payload that fits; it is the only one
      with that number, and its nonce, consistency level, payload and clock are those stored. */
  lemma MessageLedger(c: Crypto, states: seq<Ledger>, txs: seq<Transaction>, n: nat, emitter: Pubkey, q: U64)
    requires Execution(c, states, txs) && n < |states|
    ensures (emitter, q) in states[n].messages <==> exists k :: 0 <= k < n && PostsAs(txs, k, emitter, q)
    ensures forall j, k :: PostsAs(txs, j, emitter, q) && PostsAs(txs, k, emitter, q) ==> j == k
    ensures forall k :: 0 <= k < n && PostsAs(txs, k, emitter, q) ==>
              (emitter, q) in states[n].messages
              && states[n].messages[(emitter, q)] == PostedMessage(emitter, q, txs[k].ins.nonce, txs[k].ins.level,
                                                                   txs[k].now, txs[k].ins.payload)
  {
    if (emitter, q) in states[n].messages {
      var k := MessageOf(c, states, txs, n, emitter, q);
    }
    forall k | 0 <= k < n && PostsAs(txs, k, emitter, q)
      ensures (emitter, q) in states[n].messages
      ensures states[n].messages[(emitter, q)] == PostedMessage(emitter, q, txs[k].ins.nonce, txs[k].ins.level,
                                                                txs[k].now, txs[k].ins.payload)
    {
      MessageWritten(c, states, txs, n, k, emitter, q);
    }
    forall j, k | PostsAs(txs, j, emitter, q) && PostsAs(txs, k, emitter, q)
      ensures j == k
    {
      PostsOnce(txs, j, k, emitter, q);
    }
  }
}
