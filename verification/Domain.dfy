/** Domain entities, the sorted signature list and the in-memory stores of the aggregation
    engine (crates/wormverify-core/src/domain.rs, crates/wormverify-infra/src/memory.rs). */
module Domain {
  import opened Prelude
  import opened Vaa
  import opened VaaCodec

  datatype ObservedMessage = ObservedMessage(id: Hash, guardianSetIndex: U32, body: VaaBody, observedAt: I64)

  /** `signatures` is kept sorted by ascending guardian index. */
  datatype PendingObservation = PendingObservation(message: ObservedMessage,
                                                   signatures: seq<GuardianSignature>,
                                                   guardianCount: nat)
  {
    function Needed(): nat {
      Quorum(guardianCount)
    }

    predicate QuorumReached() {
      |signatures| >= Needed()
    }

    predicate HasGuardian(index: Byte) {
      exists k | 0 <= k < |signatures| :: signatures[k].guardianIndex == index
    }

    function With(s: GuardianSignature): PendingObservation {
      this.(signatures := InsertSorted(signatures, s))
    }
  }

  datatype VaaRecord = VaaRecord(id: Hash, vaa: Vaa, assembledAt: I64)

  datatype DomainEvent =
    | MessageObserved(id: Hash)
    | SignatureCollected(id: Hash, guardianIndex: Byte, have: nat, needed: nat)
    | VaaAssembled(id: Hash)

  datatype GuardianSet = GuardianSet(index: U32, keys: seq<Address>, expirationTime: U64)

  // ----- sorted insertion

  /** The first position whose guardian index is not below `index`. */
  function InsertPosition(sigs: seq<GuardianSignature>, index: Byte): (p: nat)
    ensures p <= |sigs|
  {
    if sigs == [] || sigs[0].guardianIndex >= index then 0 else 1 + InsertPosition(sigs[1..], index)
  }

  function InsertSorted(sigs: seq<GuardianSignature>, s: GuardianSignature): seq<GuardianSignature> {
    var p := InsertPosition(sigs, s.guardianIndex);
    sigs[..p] + [s] + sigs[p..]
  }

  lemma {:induction false} PositionSplits(sigs: seq<GuardianSignature>, index: Byte)
    requires Ascending(sigs)
    ensures var p := InsertPosition(sigs, index);
            && (forall k :: 0 <= k < p ==> sigs[k].guardianIndex < index)
            && (forall k :: p <= k < |sigs| ==> index <= sigs[k].guardianIndex)
  {
    if sigs != [] && sigs[0].guardianIndex < index {
      PositionSplits(sigs[1..], index);
      var p := InsertPosition(sigs, index);
      forall k | p <= k < |sigs|
        ensures index <= sigs[k].guardianIndex
      {
        assert sigs[k] == sigs[1..][k - 1];
      }
      forall k | 0 < k < p
        ensures sigs[k].guardianIndex < index
      {
        assert sigs[k] == sigs[1..][k - 1];
      }
    }
  }

  /** A signature is found or its place determined by binary search, as the standard library's
      binary_search_by_key does on a sorted vector. */
  method InsertByBinarySearch(sigs: seq<GuardianSignature>, s: GuardianSignature)
    returns (out: seq<GuardianSignature>)
    requires Ascending(sigs)
    ensures out == InsertSorted(sigs, s)
  {
    var lo, hi := 0, |sigs|;
    PositionSplits(sigs, s.guardianIndex);
    ghost var p := InsertPosition(sigs, s.guardianIndex);
    while lo < hi
      invariant 0 <= lo <= p <= hi <= |sigs|
    {
      var mid := (lo + hi) / 2;
      if sigs[mid].guardianIndex < s.guardianIndex {
        lo := mid + 1;
      } else {
        hi := mid;
      }
    }
    out := sigs[..lo] + [s] + sigs[lo..];
  }

  ghost function ElementSet<T>(xs: seq<T>): set<T> {
    set x | x in xs
  }

  lemma InsertAscending(sigs: seq<GuardianSignature>, s: GuardianSignature)
    requires Ascending(sigs) && s.guardianIndex !in Signers(sigs)
    ensures Ascending(InsertSorted(sigs, s))
  {
    PositionSplits(sigs, s.guardianIndex);
    forall k | 0 <= k < |sigs|
      ensures sigs[k].guardianIndex != s.guardianIndex
    {
      assert sigs[k].guardianIndex in Signers(sigs);
    }
  }

  /** Inserting a guardian's first signature keeps the list strictly sorted and adds exactly
      that signature. */
  lemma InsertAddsOne(sigs: seq<GuardianSignature>, s: GuardianSignature)
    requires Ascending(sigs) && s.guardianIndex !in Signers(sigs)
    ensures var out := InsertSorted(sigs, s);
            && Ascending(out)
            && multiset(out) == multiset(sigs) + multiset{s}
            && ElementSet(out) == ElementSet(sigs) + {s}
            && Signers(out) == Signers(sigs) + {s.guardianIndex}
            && |out| == |sigs| + 1
  {
    InsertAscending(sigs, s);
    var p := InsertPosition(sigs, s.guardianIndex);
    InsertedAt(sigs, s, p);
    assert sigs == sigs[..p] + sigs[p..];
  }

  lemma InsertedAt(sigs: seq<GuardianSignature>, s: GuardianSignature, p: nat)
    requires p <= |sigs|
    ensures var out := sigs[..p] + [s] + sigs[p..];
            && ElementSet(out) == ElementSet(sigs) + {s}
            && Signers(out) == Signers(sigs) + {s.guardianIndex}
  {
    var out := sigs[..p] + [s] + sigs[p..];
    forall k | 0 <= k < |sigs|
      ensures sigs[k] in out && sigs[k].guardianIndex in Signers(out)
    {
      assert out[if k < p then k else k + 1] == sigs[k];
    }
    assert out[p] == s;
    forall k | 0 <= k < |out|
      ensures out[k] in ElementSet(sigs) + {s}
      ensures out[k].guardianIndex in Signers(sigs) + {s.guardianIndex}
    {
      assert k < p ==> out[k] == sigs[k];
      assert k > p ==> out[k] == sigs[k - 1];
    }
    forall i | i in Signers(out)
      ensures i in Signers(sigs) + {s.guardianIndex}
    {
      var k :| 0 <= k < |out| && out[k].guardianIndex == i;
    }
    forall i | i in Signers(sigs)
      ensures i in Signers(out)
    {
      var k :| 0 <= k < |sigs| && sigs[k].guardianIndex == i;
    }
  }

  lemma WithoutLast(a: seq<GuardianSignature>)
    requires Ascending(a) && a != []
    ensures ElementSet(a[..|a| - 1]) == ElementSet(a) - {a[|a| - 1]}
  {
    var m := |a| - 1;
    assert a == a[..m] + [a[m]];
    assert forall k :: 0 <= k < m ==> a[k] != a[m];
  }

  /** There is only one strictly ascending list with given elements. */
  lemma {:induction false} AscendingUnique(a: seq<GuardianSignature>, b: seq<GuardianSignature>)
    requires Ascending(a) && Ascending(b) && ElementSet(a) == ElementSet(b)
    ensures a == b
  {
    assert a != [] ==> a[|a| - 1] in ElementSet(a);
    assert b != [] ==> b[|b| - 1] in ElementSet(b);
    if a != [] {
      var m, n := |a| - 1, |b| - 1;
      assert a[m] in b && b[n] in a;
      assert a[m] == b[n];
      WithoutLast(a);
      WithoutLast(b);
      AscendingUnique(a[..m], b[..n]);
      assert a == a[..m] + [a[m]] && b == b[..n] + [b[n]];
    }
  }

  // ----- in-memory stores

  class InMemoryMessageStore {
    var pending: map<Hash, PendingObservation>

    constructor ()
      ensures pending == map[]
    {
      pending := map[];
    }

    method UpsertPending(p: PendingObservation)
      modifies this
      ensures pending == old(pending)[p.message.id := p]
    {
      pending := pending[p.message.id := p];
    }

    method GetPending(id: Hash) returns (r: Option<PendingObservation>)
      ensures r == if id in pending then Some(pending[id]) else None
    {
      r := if id in pending then Some(pending[id]) else None;
    }

    method ListPending() returns (r: seq<PendingObservation>)
      ensures |r| == |pending|
      ensures ElementSet(r) == pending.Values
    {
      r := [];
      var rest := pending.Keys;
      while rest != {}
        invariant rest <= pending.Keys
        invariant |r| + |rest| == |pending|
        invariant ElementSet(r) == set id | id in pending.Keys - rest :: pending[id]
        decreases |rest|
      {
        var id :| id in rest;
        ghost var before := r;
        r := r + [pending[id]];
        assert ElementSet(r) == ElementSet(before) + {pending[id]};
        assert pending.Keys - (rest - {id}) == (pending.Keys - rest) + {id};
        rest := rest - {id};
      }
      assert pending.Keys - {} == pending.Keys;
    }

    method RemovePending(id: Hash)
      modifies this
      ensures pending == old(pending) - {id}
    {
      pending := pending - {id};
    }
  }

  class InMemoryVaaStore {
    var vaas: map<Hash, VaaRecord>

    constructor ()
      ensures vaas == map[]
    {
      vaas := map[];
    }

    method Save(record: VaaRecord)
      modifies this
      ensures vaas == old(vaas)[record.id := record]
    {
      vaas := vaas[record.id := record];
    }

    method Get(id: Hash) returns (r: Option<VaaRecord>)
      ensures r == if id in vaas then Some(vaas[id]) else None
    {
      r := if id in vaas then Some(vaas[id]) else None;
    }

    method Count() returns (n: nat)
      ensures n == |vaas|
    {
      n := |vaas|;
    }
  }

  class InMemoryGuardianRegistry {
    var sets: map<U32, GuardianSet>
    var current: U32

    constructor (guardianSet: GuardianSet)
      ensures sets == map[guardianSet.index := guardianSet] && current == guardianSet.index
    {
      sets := map[guardianSet.index := guardianSet];
      current := guardianSet.index;
    }

    /** Inserts a set and marks it as the active one. */
    method Upgrade(guardianSet: GuardianSet)
      modifies this
      ensures sets == old(sets)[guardianSet.index := guardianSet] && current == guardianSet.index
    {
      sets := sets[guardianSet.index := guardianSet];
      current := guardianSet.index;
    }

    method Current() returns (r: Option<GuardianSet>)
      ensures r == if current in sets then Some(sets[current]) else None
    {
      r := if current in sets then Some(sets[current]) else None;
    }

    method Get(index: U32) returns (r: Option<GuardianSet>)
      ensures r == if index in sets then Some(sets[index]) else None
    {
      r := if index in sets then Some(sets[index]) else None;
    }
  }

  /** The event sink as an append-only log. */
  class EventLog {
    var events: seq<DomainEvent>

    constructor ()
      ensures events == []
    {
      events := [];
    }

    method Publish(e: DomainEvent)
      modifies this
      ensures events == old(events) + [e]
    {
      events := events + [e];
    }
  }
}
