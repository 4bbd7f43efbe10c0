/** The off-chain codec is an exact inverse pair, and verification means a quorum of distinct
    guardians signed. */
module VaaCodec {
  import opened Prelude
  import opened Vaa

  /** Ascending, and above `last` when there is one. */
  ghost predicate AscendingFrom(sigs: seq<GuardianSignature>, last: Option<Byte>) {
    && Ascending(sigs)
    && (last.Some? && sigs != [] ==> last.value < sigs[0].guardianIndex)
  }

  /** The VAAs that have a wire encoding which reads back as themselves. */
  ghost predicate Canonical(v: Vaa) {
    && v.version == SUPPORTED_VERSION
    && |v.signatures| <= 255
    && Ascending(v.signatures)
    && |v.body.payload| <= MAX_PAYLOAD_LEN
  }

  // ----- signatures

  lemma AscendingTail(sigs: seq<GuardianSignature>, last: Option<Byte>)
    requires sigs != []
    ensures AscendingFrom(sigs, last)
        <==> !OutOfOrder(last, sigs[0].guardianIndex)
             && AscendingFrom(sigs[1..], Some(sigs[0].guardianIndex))
  {
    var tail := sigs[1..];
    if AscendingFrom(tail, Some(sigs[0].guardianIndex)) {
      forall i, j | 0 <= i < j < |sigs|
        ensures sigs[i].guardianIndex < sigs[j].guardianIndex
      {
        assert sigs[j] == tail[j - 1];
        assert i > 0 ==> sigs[i] == tail[i - 1];
      }
    }
  }

  lemma EntryRoundTrip(s: GuardianSignature, e: Bytes)
    ensures ParseEntry(EncodeSignature(s)) == s
    ensures |e| == SIGNATURE_ENTRY_LEN ==> EncodeSignature(ParseEntry(e)) == e
  {
    assert EncodeSignature(s)[1..65] == s.rs;
  }

  lemma {:induction false} ParseEncodedSignatures(sigs: seq<GuardianSignature>, last: Option<Byte>, tail: Bytes)
    requires AscendingFrom(sigs, last)
    ensures ParseSignatures(EncodeSignatures(sigs) + tail, |sigs|, last) == Ok((sigs, tail))
  {
    var bytes := EncodeSignatures(sigs) + tail;
    if sigs == [] {
      assert bytes == tail;
    } else {
      AscendingTail(sigs, last);
      EntryRoundTrip(sigs[0], []);
      ParseEncodedSignatures(sigs[1..], Some(sigs[0].guardianIndex), tail);
      assert bytes[..SIGNATURE_ENTRY_LEN] == EncodeSignature(sigs[0]);
      assert bytes[SIGNATURE_ENTRY_LEN..] == EncodeSignatures(sigs[1..]) + tail;
      assert bytes[0] == sigs[0].guardianIndex;
      assert sigs == [sigs[0]] + sigs[1..];
    }
  }

  lemma {:induction false} EncodeParsedSignatures(rest: Bytes, count: nat, last: Option<Byte>)
    requires ParseSignatures(rest, count, last).Ok?
    ensures var (sigs, tail) := ParseSignatures(rest, count, last).value;
            && |sigs| == count
            && AscendingFrom(sigs, last)
            && EncodeSignatures(sigs) + tail == rest
  {
    if count > 0 {
      var n := SIGNATURE_ENTRY_LEN;
      EncodeParsedSignatures(rest[n..], count - 1, Some(rest[0]));
      var (sigs, tail) := ParseSignatures(rest, count, last).value;
      EntryRoundTrip(sigs[0], rest[..n]);
      assert sigs[1..] == ParseSignatures(rest[n..], count - 1, Some(rest[0])).value.0;
      AscendingTail(sigs, last);
      assert rest == rest[..n] + rest[n..];
      assert EncodeSignatures(sigs) + tail == EncodeSignature(sigs[0]) + (EncodeSignatures(sigs[1..]) + tail);
    } else {
      assert [] + rest == rest;
    }
  }

  // ----- body

  lemma BodyFields(b: VaaBody)
    ensures var x := EncodeBody(b);
            && x[0..4] == ToBe(b.timestamp, 4) && x[4..8] == ToBe(b.nonce, 4)
            && x[8..10] == ToBe(b.emitterChain, 2) && x[10..42] == b.emitterAddress
            && x[42..50] == ToBe(b.sequence, 8) && x[50] == b.consistencyLevel && x[51..] == b.payload
  {}

  lemma {:induction false} EncodedEntryAt(sigs: seq<GuardianSignature>, k: nat)
    requires k < |sigs|
    ensures |EncodeSignatures(sigs)| == SIGNATURE_ENTRY_LEN * |sigs|
    ensures var x, at := EncodeSignatures(sigs), SIGNATURE_ENTRY_LEN * k;
            && x[at] == sigs[k].guardianIndex
            && x[at + 1..at + 65] == sigs[k].rs
            && x[at + 65] == sigs[k].recoveryId
  {
    var x, n := EncodeSignatures(sigs), SIGNATURE_ENTRY_LEN;
    if |sigs| > 1 {
      EncodedEntryAt(sigs[1..], if k > 0 then k - 1 else 0);
    }
    assert x == EncodeSignature(sigs[0]) + EncodeSignatures(sigs[1..]);
    if k > 0 {
      var y, at := EncodeSignatures(sigs[1..]), n * (k - 1);
      assert x[at + n + 1..at + n + 65] == y[at + 1..at + 65];
    } else {
      assert x[1..65] == sigs[0].rs;
    }
  }

  /** The offset of every header field, signature entry and the body in an encoded VAA. */
  lemma WireLayout(v: Vaa)
    ensures var x, n := Encode(v), |v.signatures|;
            && |x| == 6 + 66 * n + |EncodeBody(v.body)|
            && x[0] == v.version && x[1..5] == ToBe(v.guardianSetIndex, 4) && x[5] == n % 256
            && (forall k :: 0 <= k < n ==>
                  var at := 6 + 66 * k;
                  && x[at] == v.signatures[k].guardianIndex
                  && x[at + 1..at + 65] == v.signatures[k].rs
                  && x[at + 65] == v.signatures[k].recoveryId)
            && x[6 + 66 * n..] == EncodeBody(v.body)
  {
    var x, n, section := Encode(v), |v.signatures|, EncodeSignatures(v.signatures);
    if n > 0 {
      EncodedEntryAt(v.signatures, 0);
    }
    assert |section| == 66 * n;
    forall k | 0 <= k < n
      ensures var at := 6 + 66 * k;
              && x[at] == v.signatures[k].guardianIndex
              && x[at + 1..at + 65] == v.signatures[k].rs
              && x[at + 65] == v.signatures[k].recoveryId
    {
      EncodedEntryAt(v.signatures, k);
      var at := 66 * k;
      assert x[6 + at + 1..6 + at + 65] == section[at + 1..at + 65];
    }
  }

  lemma ParseEncodedBody(b: VaaBody)
    requires |b.payload| <= MAX_PAYLOAD_LEN
    ensures ParseBody(EncodeBody(b)) == Ok(b)
  {
    Widths();
    FromBeToBe(b.timestamp, 4);
    FromBeToBe(b.nonce, 4);
    FromBeToBe(b.emitterChain, 2);
    FromBeToBe(b.sequence, 8);
    BodyFields(b);
  }

  lemma EncodeParsedBody(x: Bytes)
    requires ParseBody(x).Ok?
    ensures EncodeBody(ParseBody(x).value) == x
    ensures |ParseBody(x).value.payload| <= MAX_PAYLOAD_LEN
  {
    ToBeFromBe(x[0..4]);
    ToBeFromBe(x[4..8]);
    ToBeFromBe(x[8..10]);
    ToBeFromBe(x[42..50]);
    assert x == x[0..4] + x[4..8] + x[8..10] + x[10..42] + x[42..50] + [x[50]] + x[51..];
  }

  /** Two bodies with the same encoding are the same body, whatever their payload length. */
  lemma EncodeBodyInjective(a: VaaBody, b: VaaBody)
    requires EncodeBody(a) == EncodeBody(b)
    ensures a == b
  {
    var a0, b0 := a.(payload := []), b.(payload := []);
    var x, y := EncodeBody(a), EncodeBody(b);
    assert x[..51] == EncodeBody(a0) && y[..51] == EncodeBody(b0);
    ParseEncodedBody(a0);
    ParseEncodedBody(b0);
    assert x[51..] == a.payload && y[51..] == b.payload;
  }

  // ----- whole VAAs

  /** The exact inverse: parsing yields v for v's own encoding and for nothing else, and only
      the canonical VAAs can be read back. */
  lemma ParseInvertsEncode(bytes: Bytes, v: Vaa)
    ensures Parse(bytes) == Ok(v) <==> Canonical(v) && bytes == Encode(v)
  {
    if Canonical(v) && bytes == Encode(v) {
      ParseEncoded(v);
    }
    if Parse(bytes) == Ok(v) {
      EncodeParsed(bytes);
    }
  }

  lemma ParseEncoded(v: Vaa)
    requires Canonical(v)
    ensures Parse(Encode(v)) == Ok(v)
  {
    var bytes := Encode(v);
    Widths();
    FromBeToBe(v.guardianSetIndex, 4);
    assert bytes[1..5] == ToBe(v.guardianSetIndex, 4);
    assert bytes[5] == |v.signatures|;
    assert bytes[6..] == EncodeSignatures(v.signatures) + EncodeBody(v.body);
    ParseEncodedSignatures(v.signatures, None, EncodeBody(v.body));
    ParseEncodedBody(v.body);
  }

  lemma HeaderBytes(bytes: Bytes, v: Vaa)
    requires |bytes| >= 6
    requires v.version == bytes[0] && v.guardianSetIndex == BeU32(bytes[1..5]) && |v.signatures| == bytes[5]
    ensures EncodeHeader(v) == bytes[..6]
  {
    ToBeFromBe(bytes[1..5]);
    assert bytes[..6] == [bytes[0]] + bytes[1..5] + [bytes[5]];
  }

  lemma JoinParts(bytes: Bytes, v: Vaa, tail: Bytes)
    requires |bytes| >= 6 && EncodeHeader(v) == bytes[..6]
    requires EncodeSignatures(v.signatures) + tail == bytes[6..]
    requires EncodeBody(v.body) == tail
    ensures Encode(v) == bytes
  {
    assert bytes == bytes[..6] + bytes[6..];
  }

  lemma EncodeParsed(bytes: Bytes)
    requires Parse(bytes).Ok?
    ensures Canonical(Parse(bytes).value) && Encode(Parse(bytes).value) == bytes
  {
    EncodeParsedSignatures(bytes[6..], bytes[5], None);
    var tail := ParseSignatures(bytes[6..], bytes[5], None).value.1;
    EncodeParsedBody(tail);
    HeaderBytes(bytes, Parse(bytes).value);
    JoinParts(bytes, Parse(bytes).value, tail);
  }

  /** No two byte strings parse to the same VAA. */
  lemma ParseInjective(a: Bytes, b: Bytes)
    requires Parse(a).Ok? && Parse(b) == Parse(a)
    ensures a == b
  {
    EncodeParsed(a);
    EncodeParsed(b);
  }

  // ----- verification

  ghost predicate SignatureValid(c: Crypto, digest: Hash, keys: seq<Address>, s: GuardianSignature) {
    && s.guardianIndex < |keys|
    && c.recover(digest, s.rs, s.recoveryId) == Some(keys[s.guardianIndex])
  }

  ghost predicate AllValid(c: Crypto, digest: Hash, keys: seq<Address>, sigs: seq<GuardianSignature>) {
    forall i :: 0 <= i < |sigs| ==> SignatureValid(c, digest, keys, sigs[i])
  }

  /** The guardian indices that signed. */
  ghost function Signers(sigs: seq<GuardianSignature>): set<int> {
    set i | 0 <= i < |sigs| :: sigs[i].guardianIndex
  }

  lemma {:induction false} NoFailure(c: Crypto, digest: Hash, keys: seq<Address>,
                                     sigs: seq<GuardianSignature>, last: Option<Byte>)
    ensures FirstFailure(c, digest, keys, sigs, last) == None
        <==> AscendingFrom(sigs, last) && AllValid(c, digest, keys, sigs)
  {
    if sigs != [] {
      var tail := sigs[1..];
      AscendingTail(sigs, last);
      NoFailure(c, digest, keys, tail, Some(sigs[0].guardianIndex));
      assert AllValid(c, digest, keys, sigs)
          <==> SignatureValid(c, digest, keys, sigs[0]) && AllValid(c, digest, keys, tail) by {
        assert forall i :: 0 < i < |sigs| ==> sigs[i] == tail[i - 1];
        assert forall i :: 0 <= i < |tail| ==> tail[i] == sigs[i + 1];
      }
    }
  }

  /** Ascending signatures come from as many guardians as there are signatures. */
  lemma {:induction false} AscendingSigners(sigs: seq<GuardianSignature>)
    requires Ascending(sigs)
    ensures |Signers(sigs)| == |sigs|
  {
    if sigs != [] {
      var n := |sigs| - 1;
      AscendingSigners(sigs[..n]);
      assert Signers(sigs) == Signers(sigs[..n]) + {sigs[n].guardianIndex};
      assert sigs[n].guardianIndex !in Signers(sigs[..n]);
    }
  }

  ghost predicate Certified(c: Crypto, v: Vaa, keys: seq<Address>) {
    && Ascending(v.signatures)
    && AllValid(c, Digest(c, v.body), keys, v.signatures)
    && |Signers(v.signatures)| >= Quorum(|keys|)
  }

  /** Verification succeeds exactly when the signatures are in order, all valid, and come from
      at least a quorum of distinct guardians. */
  lemma VerifyMeansQuorum(c: Crypto, v: Vaa, keys: seq<Address>)
    ensures Verify(c, v, keys) == None <==> Certified(c, v, keys)
  {
    NoFailure(c, Digest(c, v.body), keys, v.signatures, None);
    if Ascending(v.signatures) {
      AscendingSigners(v.signatures);
    }
    if Certified(c, v, keys) {
      assert v.signatures[0].guardianIndex < |keys|;
    }
  }

  // ----- which error verification reports

  /** What is wrong with signature k of a list whose earlier signatures are fine; None when
      nothing is. */
  ghost function Fault(c: Crypto, digest: Hash, keys: seq<Address>, sigs: seq<GuardianSignature>, k: nat)
    : Option<VaaError>
    requires k < |sigs|
  {
    var i := sigs[k].guardianIndex;
    if k > 0 && i <= sigs[k - 1].guardianIndex then Some(SignaturesOutOfOrder)
    else if i >= |keys| then Some(GuardianIndexOutOfRange(i))
    else if c.recover(digest, sigs[k].rs, sigs[k].recoveryId) == None then Some(RecoveryFailed)
    else if !SignatureValid(c, digest, keys, sigs[k]) then Some(InvalidGuardianSignature(i))
    else None
  }

  lemma {:induction false} FirstFault(c: Crypto, digest: Hash, keys: seq<Address>, sigs: seq<GuardianSignature>, j: nat,
                                      k: nat)
    requires j <= k <= |sigs|
    requires forall i :: j <= i < k ==> Fault(c, digest, keys, sigs, i) == None
    requires k < |sigs| ==> Fault(c, digest, keys, sigs, k).Some?
    ensures FirstFailure(c, digest, keys, sigs[j..], if j == 0 then None else Some(sigs[j - 1].guardianIndex))
         == if k < |sigs| then Fault(c, digest, keys, sigs, k) else None
    decreases k - j
  {
    if j < |sigs| {
      var rest := sigs[j..];
      assert rest[0] == sigs[j] && rest[1..] == sigs[j + 1..];
      if j < k {
        assert Fault(c, digest, keys, sigs, j) == None;
        FirstFault(c, digest, keys, sigs, j + 1, k);
      }
    }
  }

  /** Verification reports an empty guardian set, else the fault of the first faulty signature,
      else by how much the quorum is missed; k is the number of signatures before the first
      faulty one. */
  lemma {:induction false} VerifyReports(c: Crypto, v: Vaa, keys: seq<Address>, k: nat)
    requires k <= |v.signatures|
    requires forall i :: 0 <= i < k ==> Fault(c, Digest(c, v.body), keys, v.signatures, i) == None
    requires k < |v.signatures| ==> Fault(c, Digest(c, v.body), keys, v.signatures, k).Some?
    ensures Verify(c, v, keys)
         == if keys == [] then Some(EmptyGuardianSet)
            else if k < |v.signatures| then Fault(c, Digest(c, v.body), keys, v.signatures, k)
            else if 3 * k <= 2 * |keys| then Some(QuorumNotMet(k, 2 * |keys| / 3 + 1))
            else None
  {
    assert v.signatures[0..] == v.signatures;
    FirstFault(c, Digest(c, v.body), keys, v.signatures, 0, k);
  }

  // ----- which error parsing reports

  /** What the reported version and payload length are. */
  lemma ParseReports(bytes: Bytes)
    ensures Parse(bytes).Err? && Parse(bytes).error.UnsupportedVersion?
            <==> bytes != [] && bytes[0] != 1
    ensures match Parse(bytes)
            case Err(UnsupportedVersion(version)) => bytes != [] && version == bytes[0]
            case Err(PayloadTooLarge(length, max)) =>
              |bytes| >= 6 && |bytes| == 6 + 66 * bytes[5] + 51 + length && max == 1024 && length > max
            case _ => true
  {
    if |bytes| >= 6 && ParseSignatures(bytes[6..], bytes[5], None).Ok? {
      var (sigs, tail) := ParseSignatures(bytes[6..], bytes[5], None).value;
      EncodeParsedSignatures(bytes[6..], bytes[5], None);
      if sigs != [] {
        EncodedEntryAt(sigs, 0);
      }
      assert |EncodeSignatures(sigs)| + |tail| == |bytes| - 6;
    }
    if |bytes| >= 6 {
      NoVersionError(bytes[6..], bytes[5], None);
    }
  }

  lemma {:induction false} NoVersionError(rest: Bytes, count: nat, last: Option<Byte>)
    ensures match ParseSignatures(rest, count, last)
            case Ok(_) => true
            case Err(e) => e == Malformed || e == SignaturesOutOfOrder
  {
    if count > 0 && |rest| >= SIGNATURE_ENTRY_LEN {
      NoVersionError(rest[SIGNATURE_ENTRY_LEN..], count - 1, Some(rest[0]));
    }
  }
}
