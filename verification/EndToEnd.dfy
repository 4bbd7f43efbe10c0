/** From the engine to the program: what the engine assembles under any schedule, the program
    accepts once, and once only. */
module EndToEnd {
  import opened Prelude
  import opened Vaa
  import opened VaaCodec
  import opened VaaEquivalence
  import opened Agreement
  import OnChain = OnChainVaa
  import Domain
  import Off = Interleaving
  import Program
  import Chain = ProgramRuns

  /** The program can take the VAA `v` now: the set it names exists with these keys and is active,
      the payload fits, and the digest is unconsumed. */
  ghost predicate Ready(c: Crypto, s: Program.Ledger, v: Vaa, keys: seq<Address>, now: I64) {
    && v.guardianSetIndex in s.sets
    && s.sets[v.guardianSetIndex].keys == keys
    && s.sets[v.guardianSetIndex].IsActive(now)
    && |v.body.payload| <= MAX_PAYLOAD_LEN
    && Digest(c, v.body) !in s.consumed
  }

  /** A record that a schedule of the engine saves is accepted by any ready ledger of the program. */
  lemma RecordAccepted(c: Crypto, sets: map<U32, Domain.GuardianSet>, r: Domain.VaaRecord,
                       s: Program.Ledger, genesis: int, last: int, now: I64)
    requires Off.RecordGood(c, sets, r)
    requires Chain.Chained(s, genesis, last)
    requires Ready(c, s, r.vaa, sets[r.vaa.guardianSetIndex].keys, now)
    ensures Program.ExecVerifyVaa(c, s, r.vaa.guardianSetIndex, r.id, Encode(r.vaa), now)
         == Ok(s.(consumed := s.consumed[r.id := Program.ConsumedVaa(r.id, r.vaa.body.sequence)]))
  {
    var keys := sets[r.vaa.guardianSetIndex].keys;
    var bytes := Encode(r.vaa);
    assert Chain.SetGood(s, r.vaa.guardianSetIndex, last);
    assert |r.vaa.signatures| <= 13;
    ParseEncoded(r.vaa);
    ParsersAgree(c, bytes);
    Off.GoodRecordVerifies(c, sets, r);
    VerifiersAgree(c, bytes, keys);
  }

  /** The bytes that follow the announced signature section are this body's. */
  ghost predicate HasBody(bytes: Bytes, body: VaaBody) {
    && |bytes| >= 6
    && OnChain.BodyStart(bytes[5]) <= |bytes|
    && bytes[OnChain.BodyStart(bytes[5])..] == EncodeBody(body)
  }

  /** Once a digest is consumed, no verification of any byte string with that body succeeds,
      whatever set, hash, header or time the caller chooses. */
  lemma BodyRefused(c: Crypto, s: Program.Ledger, body: VaaBody, index: U32, hash: Hash, bytes: Bytes, now: I64)
    requires Digest(c, body) in s.consumed && HasBody(bytes, body)
    ensures Program.ExecVerifyVaa(c, s, index, hash, bytes, now).Err?
  {}

  /** End to end: whatever VAA the engine has saved in any state of any schedule, its encoding is
      accepted by `verify_vaa` in every ledger of every run of the program that is ready for
      it; and in all later ledgers of that run every byte string with the same body is
      refused. */
  lemma EngineToProgram(c: Crypto, states: seq<Off.System>, actions: seq<Off.Action>, k: nat, id: Hash,
                        ledgers: seq<Program.Ledger>, txs: seq<Chain.Transaction>, n: nat)
    requires Off.Execution(c, states, actions) && k < |states| && id in states[k].stores.vaas
    requires Chain.Execution(c, ledgers, txs) && Chain.ClockAdvances(txs) && n < |txs|
    requires var v := states[k].stores.vaas[id].vaa;
             && v.guardianSetIndex in states[k].stores.sets
             && Ready(c, ledgers[n], v, states[k].stores.sets[v.guardianSetIndex].keys, txs[n].now)
             && txs[n].ins == Program.VerifyVaa(v.guardianSetIndex, id, Encode(v))
    ensures Chain.Accepted(ledgers, txs, n)
    ensures forall m, index, hash, bytes, now ::
              n < m < |ledgers| && HasBody(bytes, states[k].stores.vaas[id].vaa.body) ==>
              Program.ExecVerifyVaa(c, ledgers[m], index, hash, bytes, now).Err?
  {
    Off.ExecutionGood(c, states, actions, k);
    var sets := states[k].stores.sets;
    var r := states[k].stores.vaas[id];
    var genesis := Chain.RotationChain(c, ledgers, txs, n);
    RecordAccepted(c, sets, r, ledgers[n], genesis, Chain.LastTime(txs, n), txs[n].now);
    Chain.AcceptedIffSucceeds(c, ledgers, txs, n);
    forall m, index, hash, bytes, now | n < m < |ledgers| && HasBody(bytes, r.vaa.body)
      ensures Program.ExecVerifyVaa(c, ledgers[m], index, hash, bytes, now).Err?
    {
      Chain.RecordsKept(c, ledgers, txs, n + 1, m);
      BodyRefused(c, ledgers[m], r.vaa.body, index, hash, bytes, now);
    }
  }

  /** Agreement of the engine: with few faulty guardians, two records saved for one slot under
      one guardian set, in any two states of any schedule, are for the same body. */
  lemma EngineAgreement(c: Crypto, states: seq<Off.System>, actions: seq<Off.Action>, j: nat, k: nat,
                        a: Hash, b: Hash, faulty: set<int>, signed: map<int, set<VaaBody>>)
    requires Off.Execution(c, states, actions) && j < |states| && k < |states|
    requires a in states[j].stores.vaas && b in states[k].stores.vaas
    requires var v, w := states[j].stores.vaas[a].vaa, states[k].stores.vaas[b].vaa;
             && v.guardianSetIndex == w.guardianSetIndex
             && SameSlot(v.body, w.body)
             && v.guardianSetIndex in states[j].stores.sets
             && MostlyHonest(c, states[j].stores.sets[v.guardianSetIndex].keys, faulty, signed, {v.body, w.body})
    ensures states[j].stores.vaas[a].vaa.body == states[k].stores.vaas[b].vaa.body
    ensures a == b
  {
    Off.SafeUnderEverySchedule(c, states, actions, j);
    Off.SafeUnderEverySchedule(c, states, actions, k);
    if j <= k {
      Off.SetsStay(c, states, actions, j, k);
    } else {
      Off.SetsStay(c, states, actions, k, j);
    }
    var v, w := states[j].stores.vaas[a].vaa, states[k].stores.vaas[b].vaa;
    VerifiedBodiesAgree(c, states[j].stores.sets[v.guardianSetIndex].keys, v, w, faulty, signed);
  }
}
