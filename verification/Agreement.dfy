/** Byzantine quorum arithmetic: what the floor(2N/3)+1 threshold buys. */
module Agreement {
  import opened Prelude
  import opened Vaa
  import opened VaaCodec

  /** How many faulty guardians a set of n tolerates: any fewer than this. */
  ghost function Overlap(n: nat): int {
    2 * Quorum(n) - n
  }

  ghost predicate IsQuorum(a: set<int>, n: nat) {
    && (forall i :: i in a ==> 0 <= i < n)
    && |a| >= Quorum(n)
  }

  lemma OverlapBound(n: nat)
    ensures 3 * Overlap(n) > n
  {}

  lemma QuorumsOverlap(a: set<int>, b: set<int>, n: nat)
    requires IsQuorum(a, n) && IsQuorum(b, n)
    ensures |a * b| >= Overlap(n)
    ensures 3 * |a * b| > n
  {
    BoundedCardinality(a + b, n);
    OverlapBound(n);
  }

  ghost function Everyone(n: nat): (s: set<int>)
    ensures |s| == n
    ensures forall i :: i in s <==> 0 <= i < n
  {
    if n == 0 then {} else Everyone(n - 1) + {n - 1}
  }

  lemma TakeSubset<T>(s: set<T>, k: nat) returns (t: set<T>)
    requires k <= |s|
    ensures t <= s && |t| == k
  {
    t := {};
    while |t| < k
      invariant t <= s && |t| <= k
    {
      if s <= t {
        SubsetCardinality(s, t);
      }
      var x :| x in s && x !in t;
      t := t + {x};
    }
  }

  /** Exactly the sets of fewer than 2*quorum - N faulty guardians leave an honest guardian in
      the intersection of every two quorums. */
  lemma HonestOverlapIffFewFaulty(faulty: set<int>, n: nat)
    requires n > 0 && forall i :: i in faulty ==> 0 <= i < n
    ensures |faulty| < Overlap(n)
        <==> forall a, b :: IsQuorum(a, n) && IsQuorum(b, n) ==> !(a * b <= faulty)
  {
    if |faulty| < Overlap(n) {
      forall a, b | IsQuorum(a, n) && IsQuorum(b, n)
        ensures !(a * b <= faulty)
      {
        QuorumsOverlap(a, b, n);
        if a * b <= faulty { SubsetCardinality(a * b, faulty); }
      }
    } else {
      var a, b := QuorumsMeetingIn(faulty, n);
      assert IsQuorum(a, n) && IsQuorum(b, n) && a * b <= faulty;
    }
  }

  lemma QuorumsMeetingIn(faulty: set<int>, n: nat) returns (a: set<int>, b: set<int>)
    requires n > 0 && forall i :: i in faulty ==> 0 <= i < n
    requires |faulty| >= Overlap(n)
    ensures IsQuorum(a, n) && IsQuorum(b, n) && a * b <= faulty
  {
    var everyone := Everyone(n);
    var shared := TakeSubset(faulty, Overlap(n));
    var others := everyone - shared;
    assert shared <= everyone;
    assert |others| == n - |shared|;
    var half := TakeSubset(others, n - Quorum(n));
    a, b := shared + half, shared + (others - half);
    assert |a| == |shared| + |half|;
    assert |b| == |shared| + |others - half|;
  }

  // ----- availability

  /** The guardians that are not faulty make a quorum by themselves exactly when fewer than a
      third are faulty. */
  lemma HonestQuorumIffFewFaulty(faulty: set<int>, n: nat)
    requires n > 0 && forall i :: i in faulty ==> 0 <= i < n
    ensures IsQuorum(Everyone(n) - faulty, n) <==> 3 * |faulty| < n
  {
    assert faulty <= Everyone(n);
    assert |Everyone(n) - faulty| == n - |faulty|;
  }

  /** The threshold is the only one that is both safe and live: any two quorums share more than a
      third of the guardians, and the others suffice when fewer than a third are faulty. */
  lemma OnlySafeAndLiveThreshold(n: nat, q: nat)
    requires n > 0
    ensures 3 * (2 * q - n) > n && (forall faulty: nat :: 3 * faulty < n ==> q <= n - faulty) <==> q == Quorum(n)
  {
    if forall faulty: nat :: 3 * faulty < n ==> q <= n - faulty {
      var most := (n - 1) / 3;
      assert 3 * most < n ==> q <= n - most;
    }
  }

  /** A VAA with valid signatures in ascending order from all guardians that are not faulty
      verifies when fewer than a third are faulty. */
  lemma HonestSignersVerify(c: Crypto, v: Vaa, keys: seq<Address>, faulty: set<int>)
    requires (forall i :: i in faulty ==> 0 <= i < |keys|) && 3 * |faulty| < |keys|
    requires Ascending(v.signatures) && AllValid(c, Digest(c, v.body), keys, v.signatures)
    requires Everyone(|keys|) - faulty <= Signers(v.signatures)
    ensures Verify(c, v, keys) == None
  {
    HonestQuorumIffFewFaulty(faulty, |keys|);
    SubsetCardinality(Everyone(|keys|) - faulty, Signers(v.signatures));
    VerifyMeansQuorum(c, v, keys);
  }

  // ----- agreement on bodies

  /** The same emitter chain, emitter and sequence number. */
  predicate SameSlot(a: VaaBody, b: VaaBody) {
    && a.emitterChain == b.emitterChain
    && a.emitterAddress == b.emitterAddress
    && a.sequence == b.sequence
  }

  /** What is assumed of an honest guardian i that signed the bodies `signed`: at most one body
      per slot, no signature of its key over the digest of one of `bodies` unless it signed
      that digest, and no digest collision between what it signed and `bodies`. */
  ghost predicate Honest(c: Crypto, keys: seq<Address>, i: int, signed: set<VaaBody>, bodies: set<VaaBody>) {
    && (forall a, b :: a in signed && b in signed && SameSlot(a, b) ==> a == b)
    && (forall b, s: GuardianSignature ::
          b in bodies && s.guardianIndex == i && SignatureValid(c, Digest(c, b), keys, s)
          ==> exists a :: a in signed && Digest(c, a) == Digest(c, b))
    && (forall a, b :: a in signed && b in bodies && Digest(c, a) == Digest(c, b) ==> a == b)
  }

  /** Fewer faulty guardians than the overlap of two quorums; all others honest. */
  ghost predicate MostlyHonest(c: Crypto, keys: seq<Address>, faulty: set<int>,
                               signed: map<int, set<VaaBody>>, bodies: set<VaaBody>) {
    && |faulty| < Overlap(|keys|)
    && forall i :: 0 <= i < |keys| && i !in faulty ==> i in signed && Honest(c, keys, i, signed[i], bodies)
  }

  lemma CertifiedQuorum(c: Crypto, v: Vaa, keys: seq<Address>)
    requires Certified(c, v, keys)
    ensures IsQuorum(Signers(v.signatures), |keys|)
  {
    assert forall k :: 0 <= k < |v.signatures| ==>
      SignatureValid(c, Digest(c, v.body), keys, v.signatures[k]);
  }

  lemma SignerSigned(c: Crypto, v: Vaa, keys: seq<Address>, i: int, signed: set<VaaBody>, bodies: set<VaaBody>)
    requires Certified(c, v, keys) && i in Signers(v.signatures)
    requires v.body in bodies && Honest(c, keys, i, signed, bodies)
    ensures v.body in signed
  {
    var k :| 0 <= k < |v.signatures| && v.signatures[k].guardianIndex == i;
    assert SignatureValid(c, Digest(c, v.body), keys, v.signatures[k]);
  }

  /** Two VAAs for one slot that verify against the same guardian set carry the same body. */
  lemma VerifiedBodiesAgree(c: Crypto, keys: seq<Address>, v: Vaa, w: Vaa,
                            faulty: set<int>, signed: map<int, set<VaaBody>>)
    requires Verify(c, v, keys) == None && Verify(c, w, keys) == None
    requires SameSlot(v.body, w.body)
    requires MostlyHonest(c, keys, faulty, signed, {v.body, w.body})
    ensures v.body == w.body
  {
    VerifyMeansQuorum(c, v, keys);
    VerifyMeansQuorum(c, w, keys);
    CertifiedQuorum(c, v, keys);
    CertifiedQuorum(c, w, keys);
    var both := Signers(v.signatures) * Signers(w.signatures);
    QuorumsOverlap(Signers(v.signatures), Signers(w.signatures), |keys|);
    if both <= faulty {
      SubsetCardinality(both, faulty);
    }
    var i :| i in both && i !in faulty;
    SignerSigned(c, v, keys, i, signed[i], {v.body, w.body});
    SignerSigned(c, w, keys, i, signed[i], {v.body, w.body});
  }
}
