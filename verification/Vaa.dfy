/** Off-chain VAA types, wire codec and verification (crates/wormverify-types). The functions
    are the specification; the methods follow the source's growing buffers, moving cursor and
    loops. */
module Vaa {
  import opened Prelude

  const SUPPORTED_VERSION: Byte := 1
  const SIGNATURE_ENTRY_LEN: nat := 66
  const BODY_HEADER_LEN: nat := 51
  const MAX_GUARDIANS: nat := 19
  const MAX_PAYLOAD_LEN: nat := 1024

  datatype GuardianSignature = GuardianSignature(guardianIndex: Byte, rs: Rs, recoveryId: Byte)

  datatype VaaBody = VaaBody(timestamp: U32, nonce: U32, emitterChain: U16, emitterAddress: Bytes32,
                             sequence: U64, consistencyLevel: Byte, payload: Bytes)

  datatype Vaa = Vaa(version: Byte, guardianSetIndex: U32,
                     signatures: seq<GuardianSignature>, body: VaaBody)

  datatype VaaError =
    | Malformed
    | UnsupportedVersion(found: Byte)
    | SignaturesOutOfOrder
    | PayloadTooLarge(got: nat, max: nat)
    | EmptyGuardianSet
    | GuardianIndexOutOfRange(index: Byte)
    | RecoveryFailed
    | InvalidGuardianSignature(index: Byte)
    | QuorumNotMet(valid: nat, needed: nat)

  /** Strictly ascending guardian indices. */
  ghost predicate Ascending(sigs: seq<GuardianSignature>) {
    forall i, j :: 0 <= i < j < |sigs| ==> sigs[i].guardianIndex < sigs[j].guardianIndex
  }

  // ----- encoding

  function EncodeBody(b: VaaBody): (out: Bytes)
    ensures |out| == BODY_HEADER_LEN + |b.payload|
  {
    ToBe(b.timestamp, 4) + ToBe(b.nonce, 4) + ToBe(b.emitterChain, 2) + b.emitterAddress
    + ToBe(b.sequence, 8) + [b.consistencyLevel] + b.payload
  }

  function Digest(c: Crypto, b: VaaBody): Hash {
    BodyDigest(c, EncodeBody(b))
  }

  function EncodeSignature(s: GuardianSignature): (out: Bytes)
    ensures |out| == SIGNATURE_ENTRY_LEN
  {
    [s.guardianIndex] + s.rs + [s.recoveryId]
  }

  function EncodeSignatures(sigs: seq<GuardianSignature>): (out: Bytes)
    ensures |out| == SIGNATURE_ENTRY_LEN * |sigs|
  {
    if sigs == [] then [] else EncodeSignature(sigs[0]) + EncodeSignatures(sigs[1..])
  }

  /** The signature count is cast to one byte, so it is truncated above 255. */
  function EncodeHeader(v: Vaa): (out: Bytes)
    ensures |out| == 6
  {
    [v.version] + ToBe(v.guardianSetIndex, 4) + [|v.signatures| % 0x100]
  }

  function Encode(v: Vaa): Bytes {
    EncodeHeader(v) + EncodeSignatures(v.signatures) + EncodeBody(v.body)
  }

  method EncodeBodyBuffer(b: VaaBody) returns (out: Bytes)
    ensures out == EncodeBody(b)
  {
    out := [];
    out := out + ToBe(b.timestamp, 4);
    out := out + ToBe(b.nonce, 4);
    out := out + ToBe(b.emitterChain, 2);
    out := out + b.emitterAddress;
    out := out + ToBe(b.sequence, 8);
    out := out + [b.consistencyLevel];
    out := out + b.payload;
  }

  method EncodeBuffer(v: Vaa) returns (out: Bytes)
    ensures out == Encode(v)
  {
    out := [];
    out := out + [v.version];
    out := out + ToBe(v.guardianSetIndex, 4);
    out := out + [|v.signatures| % 0x100];
    for i := 0 to |v.signatures|
      invariant out + EncodeSignatures(v.signatures[i..]) == EncodeHeader(v) + EncodeSignatures(v.signatures)
    {
      ghost var rest := v.signatures[i..];
      assert rest[0] == v.signatures[i] && rest[1..] == v.signatures[i + 1..];
      ghost var before := out;
      var sig := v.signatures[i];
      out := out + [sig.guardianIndex];
      out := out + sig.rs;
      out := out + [sig.recoveryId];
      assert out == before + EncodeSignature(sig);
    }
    var body := EncodeBodyBuffer(v.body);
    out := out + body;
  }

  // ----- parsing

  function ParseEntry(entry: Bytes): GuardianSignature
    requires |entry| == SIGNATURE_ENTRY_LEN
  {
    GuardianSignature(entry[0], entry[1..65], entry[65])
  }

  predicate OutOfOrder(last: Option<Byte>, index: Byte) {
    last.Some? && index <= last.value
  }

  /** Reads `count` entries from the front of `rest`; returns them with what is left. */
  function ParseSignatures(rest: Bytes, count: nat, last: Option<Byte>)
    : Result<(seq<GuardianSignature>, Bytes), VaaError>
  {
    if count == 0 then Ok(([], rest))
    else if |rest| < SIGNATURE_ENTRY_LEN then Err(Malformed)
    else if OutOfOrder(last, rest[0]) then Err(SignaturesOutOfOrder)
    else
      match ParseSignatures(rest[SIGNATURE_ENTRY_LEN..], count - 1, Some(rest[0]))
      case Err(e) => Err(e)
      case Ok((sigs, tail)) => Ok(([ParseEntry(rest[..SIGNATURE_ENTRY_LEN])] + sigs, tail))
  }

  function ParseBody(b: Bytes): Result<VaaBody, VaaError> {
    if |b| < BODY_HEADER_LEN then Err(Malformed)
    else if |b| - BODY_HEADER_LEN > MAX_PAYLOAD_LEN then
      Err(PayloadTooLarge(|b| - BODY_HEADER_LEN, MAX_PAYLOAD_LEN))
    else
      Ok(VaaBody(BeU32(b[0..4]), BeU32(b[4..8]), BeU16(b[8..10]), b[10..42], BeU64(b[42..50]),
                 b[50], b[51..]))
  }

  function Parse(bytes: Bytes): Result<Vaa, VaaError> {
    if bytes == [] then Err(Malformed)
    else if bytes[0] != SUPPORTED_VERSION then Err(UnsupportedVersion(bytes[0]))
    else if |bytes| < 6 then Err(Malformed)
    else
      match ParseSignatures(bytes[6..], bytes[5], None)
      case Err(e) => Err(e)
      case Ok((sigs, tail)) =>
        match ParseBody(tail)
        case Err(e) => Err(e)
        case Ok(body) => Ok(Vaa(SUPPORTED_VERSION, BeU32(bytes[1..5]), sigs, body))
  }

  method ReadU16(bytes: Bytes, cur: nat) returns (r: Result<U16, VaaError>, next: nat)
    ensures cur + 2 <= |bytes| ==> r == Ok(BeU16(bytes[cur..cur + 2])) && next == cur + 2
    ensures cur + 2 > |bytes| ==> r == Err(Malformed)
  {
    next := cur;
    if cur + 2 > |bytes| { return Err(Malformed), next; }
    r := Ok(BeU16(bytes[cur..cur + 2]));
    next := cur + 2;
  }

  method ReadU32(bytes: Bytes, cur: nat) returns (r: Result<U32, VaaError>, next: nat)
    ensures cur + 4 <= |bytes| ==> r == Ok(BeU32(bytes[cur..cur + 4])) && next == cur + 4
    ensures cur + 4 > |bytes| ==> r == Err(Malformed)
  {
    next := cur;
    if cur + 4 > |bytes| { return Err(Malformed), next; }
    r := Ok(BeU32(bytes[cur..cur + 4]));
    next := cur + 4;
  }

  method ReadU64(bytes: Bytes, cur: nat) returns (r: Result<U64, VaaError>, next: nat)
    ensures cur + 8 <= |bytes| ==> r == Ok(BeU64(bytes[cur..cur + 8])) && next == cur + 8
    ensures cur + 8 > |bytes| ==> r == Err(Malformed)
  {
    next := cur;
    if cur + 8 > |bytes| { return Err(Malformed), next; }
    r := Ok(BeU64(bytes[cur..cur + 8]));
    next := cur + 8;
  }

  method ParseBodyCursor(bytes: Bytes) returns (r: Result<VaaBody, VaaError>)
    ensures r == ParseBody(bytes)
  {
    if |bytes| < BODY_HEADER_LEN { return Err(Malformed); }
    var cur := 0;
    var timestamp, nonce, chain, sequence;
    timestamp, cur := ReadU32(bytes, cur);
    nonce, cur := ReadU32(bytes, cur);
    chain, cur := ReadU16(bytes, cur);
    var address := bytes[cur..cur + 32];
    cur := cur + 32;
    sequence, cur := ReadU64(bytes, cur);
    var level := bytes[cur];
    cur := cur + 1;
    var payload := bytes[cur..];
    if |payload| > MAX_PAYLOAD_LEN {
      return Err(PayloadTooLarge(|payload|, MAX_PAYLOAD_LEN));
    }
    r := Ok(VaaBody(timestamp.value, nonce.value, chain.value, address, sequence.value, level, payload));
  }

  method ParseCursor(bytes: Bytes) returns (r: Result<Vaa, VaaError>)
    ensures r == Parse(bytes)
  {
    var cur := 0;
    if |bytes| == 0 { return Err(Malformed); }
    var version := bytes[0];
    if version != SUPPORTED_VERSION { return Err(UnsupportedVersion(version)); }
    cur := cur + 1;
    var gsi;
    gsi, cur := ReadU32(bytes, cur);
    if gsi.Err? { return Err(gsi.error); }
    if cur >= |bytes| { return Err(Malformed); }
    var numSigs := bytes[cur];
    cur := cur + 1;

    var signatures: seq<GuardianSignature> := [];
    var lastIndex: Option<Byte> := None;
    ghost var whole := ParseSignatures(bytes[6..], numSigs, None);
    ResumeNothing(whole);
    for i := 0 to numSigs
      invariant 6 <= cur <= |bytes|
      invariant whole == Resume(signatures, ParseSignatures(bytes[cur..], numSigs - i, lastIndex))
    {
      if cur + SIGNATURE_ENTRY_LEN > |bytes| { return Err(Malformed); }
      var entry := bytes[cur..cur + SIGNATURE_ENTRY_LEN];
      assert bytes[cur..][..SIGNATURE_ENTRY_LEN] == entry;
      var guardianIndex := entry[0];
      if lastIndex.Some? && guardianIndex <= lastIndex.value { return Err(SignaturesOutOfOrder); }
      ghost var next := bytes[cur..][SIGNATURE_ENTRY_LEN..];
      assert next == bytes[cur + SIGNATURE_ENTRY_LEN..];
      ResumeNext(signatures, ParseEntry(entry), ParseSignatures(next, numSigs - i - 1, Some(guardianIndex)));
      lastIndex := Some(guardianIndex);
      signatures := signatures + [GuardianSignature(guardianIndex, entry[1..65], entry[65])];
      cur := cur + SIGNATURE_ENTRY_LEN;
    }
    assert signatures + [] == signatures;
    var body := ParseBodyCursor(bytes[cur..]);
    if body.Err? { return Err(body.error); }
    r := Ok(Vaa(version, gsi.value, signatures, body.value));
  }

  /** The result of a parse that has already collected `done`. */
  ghost function Resume(done: seq<GuardianSignature>, r: Result<(seq<GuardianSignature>, Bytes), VaaError>)
    : Result<(seq<GuardianSignature>, Bytes), VaaError>
  {
    match r
    case Err(e) => Err(e)
    case Ok((sigs, tail)) => Ok((done + sigs, tail))
  }

  lemma ResumeNothing(r: Result<(seq<GuardianSignature>, Bytes), VaaError>)
    ensures Resume([], r) == r
  {
    if r.Ok? {
      assert [] + r.value.0 == r.value.0;
    }
  }

  lemma ResumeNext(done: seq<GuardianSignature>, s: GuardianSignature,
                   r: Result<(seq<GuardianSignature>, Bytes), VaaError>)
    ensures Resume(done, Resume([s], r)) == Resume(done + [s], r)
  {
    if r.Ok? {
      assert done + ([s] + r.value.0) == done + [s] + r.value.0;
    }
  }

  // ----- quorum and verification

  /** floor(2N/3) + 1. */
  function Quorum(n: nat): nat {
    (n * 2) / 3 + 1
  }

  /** First failure of the signature loop, entered with the last index seen. */
  function FirstFailure(c: Crypto, digest: Hash, keys: seq<Address>,
                        sigs: seq<GuardianSignature>, last: Option<Byte>): Option<VaaError>
  {
    if sigs == [] then None
    else
      var s := sigs[0];
      if OutOfOrder(last, s.guardianIndex) then Some(SignaturesOutOfOrder)
      else if s.guardianIndex >= |keys| then Some(GuardianIndexOutOfRange(s.guardianIndex))
      else
        match c.recover(digest, s.rs, s.recoveryId)
        case None => Some(RecoveryFailed)
        case Some(address) =>
          if address != keys[s.guardianIndex] then Some(InvalidGuardianSignature(s.guardianIndex))
          else FirstFailure(c, digest, keys, sigs[1..], Some(s.guardianIndex))
  }

  /** None when verification succeeds. */
  function Verify(c: Crypto, v: Vaa, keys: seq<Address>): Option<VaaError> {
    if keys == [] then Some(EmptyGuardianSet)
    else
      match FirstFailure(c, Digest(c, v.body), keys, v.signatures, None)
      case Some(e) => Some(e)
      case None =>
        if |v.signatures| < Quorum(|keys|) then Some(QuorumNotMet(|v.signatures|, Quorum(|keys|)))
        else None
  }

  method RunVerify(c: Crypto, v: Vaa, keys: seq<Address>) returns (r: Option<VaaError>)
    ensures r == Verify(c, v, keys)
  {
    if |keys| == 0 { return Some(EmptyGuardianSet); }
    var body := EncodeBodyBuffer(v.body);
    var digest := BodyDigest(c, body);
    var valid := 0;
    var lastIndex: Option<Byte> := None;
    for i := 0 to |v.signatures|
      invariant valid == i
      invariant FirstFailure(c, digest, keys, v.signatures, None)
             == FirstFailure(c, digest, keys, v.signatures[i..], lastIndex)
    {
      var sig := v.signatures[i];
      assert v.signatures[i..][0] == sig && v.signatures[i..][1..] == v.signatures[i + 1..];
      if lastIndex.Some? && sig.guardianIndex <= lastIndex.value { return Some(SignaturesOutOfOrder); }
      lastIndex := Some(sig.guardianIndex);
      if sig.guardianIndex >= |keys| { return Some(GuardianIndexOutOfRange(sig.guardianIndex)); }
      var recovered := c.recover(digest, sig.rs, sig.recoveryId);
      if recovered.None? { return Some(RecoveryFailed); }
      if recovered.value != keys[sig.guardianIndex] {
        return Some(InvalidGuardianSignature(sig.guardianIndex));
      }
      valid := valid + 1;
    }
    var needed := Quorum(|keys|);
    if valid < needed { return Some(QuorumNotMet(valid, needed)); }
    return None;
  }
}
