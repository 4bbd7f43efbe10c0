/** Machine integers, byte strings, big-endian integers and the cryptographic primitives
    that both halves of WormVerify share. */
module Prelude {

  datatype Option<+T> = None | Some(value: T)

  datatype Result<+T, +E> = Ok(value: T) | Err(error: E)

  const U32_LIMIT: int := 0x1_0000_0000
  const U64_LIMIT: int := 0x1_0000_0000_0000_0000
  const I64_LIMIT: int := 0x8000_0000_0000_0000

  type Byte = x: int | 0 <= x < 0x100
  type U16 = x: int | 0 <= x < 0x1_0000
  type U32 = x: int | 0 <= x < U32_LIMIT
  type U64 = x: int | 0 <= x < U64_LIMIT
  type I64 = x: int | -I64_LIMIT <= x < I64_LIMIT

  type Bytes = seq<Byte>
  type Hash = s: Bytes | |s| == 32 witness seq(32, i => 0)
  type Bytes32 = s: Bytes | |s| == 32 witness seq(32, i => 0)
  type Rs = s: Bytes | |s| == 64 witness seq(64, i => 0)
  type Address = s: Bytes | |s| == 20 witness seq(20, i => 0)

  /** The two primitives the repository takes from libraries: keccak256, and the recovery of
      the signer's address from a digest, a compact signature and a recovery id (public-key
      recovery, section 4.1.6 of SEC 1 v2.0). Nothing is assumed about either of them. */
  datatype Crypto = Crypto(keccak: Bytes -> Hash,
                           recover: (Hash, Rs, Byte) -> Option<Address>)

  /** keccak256(keccak256(body)), the digest that guardians sign. */
  function BodyDigest(c: Crypto, body: Bytes): Hash {
    c.keccak(c.keccak(body))
  }

  // ----- big-endian integers

  function Pow256(w: nat): (p: nat)
    ensures p >= 1
  {
    if w == 0 then 1 else 256 * Pow256(w - 1)
  }

  function ToBe(n: nat, w: nat): (s: Bytes)
    ensures |s| == w
  {
    if w == 0 then [] else ToBe(n / 256, w - 1) + [n % 256]
  }

  function FromBe(s: Bytes): nat {
    if s == [] then 0 else FromBe(s[..|s| - 1]) * 256 + s[|s| - 1]
  }

  lemma {:induction false} FromBeToBe(n: nat, w: nat)
    requires n < Pow256(w)
    ensures FromBe(ToBe(n, w)) == n
  {
    if w > 0 {
      FromBeToBe(n / 256, w - 1);
      var s := ToBe(n, w);
      assert s[..|s| - 1] == ToBe(n / 256, w - 1);
    }
  }

  lemma {:induction false} ToBeFromBe(s: Bytes)
    ensures FromBe(s) < Pow256(|s|)
    ensures ToBe(FromBe(s), |s|) == s
  {
    if s != [] {
      var init := s[..|s| - 1];
      ToBeFromBe(init);
      assert FromBe(s) / 256 == FromBe(init) && FromBe(s) % 256 == s[|s| - 1];
      assert s == init + [s[|s| - 1]];
    }
  }

  lemma {:induction false} TimesBelow(d: nat, m: nat, q: nat)
    requires m < q
    ensures d * m + d <= d * q
    decreases q
  {
    assert d * q == d * (q - 1) + d;
    if m < q - 1 {
      TimesBelow(d, m, q - 1);
    }
  }

  lemma QuotientUnique(n: nat, d: nat, q: nat, r: nat)
    requires n == d * q + r && r < d
    ensures n / d == q
  {
    var m, s := n / d, n % d;
    assert n == d * m + s;
    if m < q {
      TimesBelow(d, m, q);
    } else if q < m {
      TimesBelow(d, q, m);
    }
  }

  lemma DivideTwice(n: nat, b: nat)
    requires b > 0
    ensures n / 256 / b == n / (256 * b)
  {
    var q, t := n / 256 / b, n / 256 % b;
    assert n / 256 == b * q + t;
    assert 256 * (b * q) == (256 * b) * q;
    QuotientUnique(n, 256 * b, q, 256 * t + n % 256);
  }

  /** Digit k of the encoding, counted from the most significant one. */
  lemma {:induction false} BigEndianDigit(n: nat, w: nat, k: nat)
    requires k < w
    ensures ToBe(n, w)[k] == n / Pow256(w - 1 - k) % 256
  {
    if k < w - 1 {
      BigEndianDigit(n / 256, w - 1, k);
      DivideTwice(n, Pow256(w - 2 - k));
    }
  }

  lemma Widths()
    ensures Pow256(2) == 0x1_0000 && Pow256(4) == U32_LIMIT && Pow256(8) == U64_LIMIT
  {
    assert Pow256(1) == 256 * Pow256(0);
    assert Pow256(2) == 256 * Pow256(1);
    assert Pow256(3) == 256 * Pow256(2);
    assert Pow256(4) == 256 * Pow256(3);
    assert Pow256(5) == 256 * Pow256(4);
    assert Pow256(6) == 256 * Pow256(5);
    assert Pow256(7) == 256 * Pow256(6);
    assert Pow256(8) == 256 * Pow256(7);
  }

  function BeU16(s: Bytes): U16
    requires |s| == 2
  {
    Widths(); ToBeFromBe(s);
    FromBe(s)
  }

  function BeU32(s: Bytes): U32
    requires |s| == 4
  {
    Widths(); ToBeFromBe(s);
    FromBe(s)
  }

  function BeU64(s: Bytes): U64
    requires |s| == 8
  {
    Widths(); ToBeFromBe(s);
    FromBe(s)
  }

  // ----- finite sets

  lemma {:induction false} SubsetCardinality<T>(a: set<T>, b: set<T>)
    requires a <= b
    ensures |a| <= |b|
    ensures |a| == |b| ==> a == b
  {
    if a != {} {
      var x :| x in a;
      SubsetCardinality(a - {x}, b - {x});
    }
  }

  /** A set of naturals below n has at most n elements. */
  lemma {:induction false} BoundedCardinality(s: set<int>, n: nat)
    requires forall x :: x in s ==> 0 <= x < n
    ensures |s| <= n
  {
    if n == 0 {
      forall x | x in s ensures false {}
      assert s == {};
    } else {
      BoundedCardinality(s - {n - 1}, n - 1);
      if n - 1 in s {
        assert |s - {n - 1}| == |s| - 1;
      } else {
        assert s - {n - 1} == s;
      }
    }
  }
}
