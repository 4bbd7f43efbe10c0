/** The on-chain parser and quorum check (anchor/programs/wormverify-core/src/{vaa,verify}.rs):
    fixed offsets, the signature section's length checked up front, and the digest taken from
    the raw body slice. */
module OnChainVaa {
  import opened Prelude
  import opened Vaa

  datatype WormError =
    | InvalidVaa
    | UnsupportedVersion
    | GuardianSetMismatch
    | GuardianSetExpired
    | EmptyGuardianSet
    | GuardianSetTooLarge
    | GuardianIndexOutOfRange
    | SignaturesOutOfOrder
    | RecoveryFailed
    | InvalidGuardianSignature
    | QuorumNotMet
    | PayloadTooLarge
    | Unauthorized
    | InvalidGuardianSetIndex
    | Overflow

  datatype ParsedVaa = ParsedVaa(version: Byte, guardianSetIndex: U32, signatures: seq<GuardianSignature>,
                                 timestamp: U32, nonce: U32, emitterChain: U16, emitterAddress: Bytes32,
                                 sequence: U64, consistencyLevel: Byte, payload: Bytes, hash: Hash)

  const SIGS_START: nat := 6

  /** Where the body starts when there are n signatures. */
  function BodyStart(n: nat): nat {
    SIGS_START + n * SIGNATURE_ENTRY_LEN
  }

  function EntryAt(data: Bytes, i: nat): GuardianSignature
    requires BodyStart(i + 1) <= |data|
  {
    var base := BodyStart(i);
    GuardianSignature(data[base], data[base + 1..base + 65], data[base + 65])
  }

  predicate InOrder(data: Bytes, n: nat)
    requires BodyStart(n) <= |data|
  {
    forall i | 1 <= i < n :: data[BodyStart(i - 1)] < data[BodyStart(i)]
  }

  function Parse(c: Crypto, data: Bytes): Result<ParsedVaa, WormError> {
    if data == [] then Err(WormError.InvalidVaa)
    else if data[0] != SUPPORTED_VERSION then Err(WormError.UnsupportedVersion)
    else if |data| < SIGS_START || |data| < BodyStart(data[5]) then Err(WormError.InvalidVaa)
    else if !InOrder(data, data[5]) then Err(WormError.SignaturesOutOfOrder)
    else
      var n := data[5];
      var body := data[BodyStart(n)..];
      if |body| < BODY_HEADER_LEN then Err(WormError.InvalidVaa)
      else if |body| - BODY_HEADER_LEN > MAX_PAYLOAD_LEN then Err(WormError.PayloadTooLarge)
      else
        Ok(ParsedVaa(data[0], BeU32(data[1..5]), seq(n, i requires 0 <= i < n => EntryAt(data, i)),
                     BeU32(body[0..4]), BeU32(body[4..8]), BeU16(body[8..10]), body[10..42],
                     BeU64(body[42..50]), body[50], body[51..], BodyDigest(c, body)))
  }

  method ParseOffsets(c: Crypto, data: Bytes) returns (r: Result<ParsedVaa, WormError>)
    ensures r == Parse(c, data)
  {
    if |data| == 0 { return Err(WormError.InvalidVaa); }
    var version := data[0];
    if version != SUPPORTED_VERSION { return Err(WormError.UnsupportedVersion); }
    if 1 + 4 > |data| { return Err(WormError.InvalidVaa); }
    var guardianSetIndex := BeU32(data[1..5]);
    if 5 >= |data| { return Err(WormError.InvalidVaa); }
    var n := data[5];
    var bodyStart := BodyStart(n);
    if |data| < bodyStart { return Err(WormError.InvalidVaa); }

    var signatures: seq<GuardianSignature> := [];
    var lastIndex: Option<Byte> := None;
    for i := 0 to n
      invariant signatures == seq(i, k requires 0 <= k < i => EntryAt(data, k))
      invariant lastIndex == if i == 0 then None else Some(data[BodyStart(i - 1)])
      invariant InOrder(data, i)
    {
      var base := BodyStart(i);
      var guardianIndex := data[base];
      if lastIndex.Some? && !(guardianIndex > lastIndex.value) { return Err(WormError.SignaturesOutOfOrder); }
      lastIndex := Some(guardianIndex);
      var rs := data[base + 1..base + 65];
      signatures := signatures + [GuardianSignature(guardianIndex, rs, data[base + 65])];
    }

    var body := data[bodyStart..];
    if |body| < BODY_HEADER_LEN { return Err(WormError.InvalidVaa); }
    var payload := body[BODY_HEADER_LEN..];
    if |payload| > MAX_PAYLOAD_LEN { return Err(WormError.PayloadTooLarge); }
    r := Ok(ParsedVaa(version, guardianSetIndex, signatures, BeU32(body[0..4]), BeU32(body[4..8]),
                      BeU16(body[8..10]), body[10..42], BeU64(body[42..50]), body[50], payload,
                      BodyDigest(c, body)));
  }

  /** First failure of the signature loop. */
  function FirstFailure(c: Crypto, hash: Hash, keys: seq<Address>, sigs: seq<GuardianSignature>): Option<WormError> {
    if sigs == [] then None
    else
      var s := sigs[0];
      if s.guardianIndex >= |keys| then Some(WormError.GuardianIndexOutOfRange)
      else
        match c.recover(hash, s.rs, s.recoveryId)
        case None => Some(WormError.RecoveryFailed)
        case Some(address) =>
          if address != keys[s.guardianIndex] then Some(WormError.InvalidGuardianSignature)
          else FirstFailure(c, hash, keys, sigs[1..])
  }

  /** None when the quorum check succeeds. */
  function VerifyQuorum(c: Crypto, vaa: ParsedVaa, keys: seq<Address>): Option<WormError> {
    if keys == [] then Some(WormError.EmptyGuardianSet)
    else
      match FirstFailure(c, vaa.hash, keys, vaa.signatures)
      case Some(e) => Some(e)
      case None => if |vaa.signatures| < Quorum(|keys|) then Some(WormError.QuorumNotMet) else None
  }

  method RunVerifyQuorum(c: Crypto, vaa: ParsedVaa, keys: seq<Address>) returns (r: Option<WormError>)
    ensures r == VerifyQuorum(c, vaa, keys)
  {
    if |keys| == 0 { return Some(WormError.EmptyGuardianSet); }
    var needed := Quorum(|keys|);
    var valid := 0;
    for i := 0 to |vaa.signatures|
      invariant valid == i
      invariant FirstFailure(c, vaa.hash, keys, vaa.signatures)
             == FirstFailure(c, vaa.hash, keys, vaa.signatures[i..])
    {
      var sig := vaa.signatures[i];
      assert vaa.signatures[i..][0] == sig && vaa.signatures[i..][1..] == vaa.signatures[i + 1..];
      if sig.guardianIndex >= |keys| { return Some(WormError.GuardianIndexOutOfRange); }
      var recovered := c.recover(vaa.hash, sig.rs, sig.recoveryId);
      if recovered.None? { return Some(WormError.RecoveryFailed); }
      if recovered.value != keys[sig.guardianIndex] { return Some(WormError.InvalidGuardianSignature); }
      valid := valid + 1;
    }
    if valid < needed { return Some(WormError.QuorumNotMet); }
    return None;
  }
}
