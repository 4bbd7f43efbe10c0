/** The off-chain and the on-chain implementation read and judge every byte string alike. */
module VaaEquivalence {
  import opened Prelude
  import opened Vaa
  import opened VaaCodec
  import OnChain = OnChainVaa

  /** The on-chain view of an off-chain VAA; its hash is that of the re-encoded body. */
  ghost function View(c: Crypto, v: Vaa): OnChain.ParsedVaa {
    OnChain.ParsedVaa(v.version, v.guardianSetIndex, v.signatures, v.body.timestamp, v.body.nonce,
                      v.body.emitterChain, v.body.emitterAddress, v.body.sequence,
                      v.body.consistencyLevel, v.body.payload, Digest(c, v.body))
  }

  /** The bytes end inside the signature section that their count byte announces. */
  ghost predicate TruncatedInSignatures(bytes: Bytes) {
    |bytes| >= 6 && |bytes| < OnChain.BodyStart(bytes[5])
  }

  /** The on-chain result that corresponds to an off-chain one. */
  ghost function Counterpart(c: Crypto, bytes: Bytes, r: Result<Vaa, VaaError>)
    : Result<OnChain.ParsedVaa, OnChain.WormError>
  {
    match r
    case Ok(v) => Ok(View(c, v))
    case Err(SignaturesOutOfOrder) =>
      Err(if TruncatedInSignatures(bytes) then OnChain.InvalidVaa else OnChain.SignaturesOutOfOrder)
    case Err(e) => Err(ErrorCounterpart(e))
  }

  ghost function ErrorCounterpart(e: VaaError): OnChain.WormError {
    match e
    case Malformed => OnChain.InvalidVaa
    case UnsupportedVersion(_) => OnChain.UnsupportedVersion
    case SignaturesOutOfOrder => OnChain.SignaturesOutOfOrder
    case PayloadTooLarge(_, _) => OnChain.PayloadTooLarge
    case EmptyGuardianSet => OnChain.EmptyGuardianSet
    case GuardianIndexOutOfRange(_) => OnChain.GuardianIndexOutOfRange
    case RecoveryFailed => OnChain.RecoveryFailed
    case InvalidGuardianSignature(_) => OnChain.InvalidGuardianSignature
    case QuorumNotMet(_, _) => OnChain.QuorumNotMet
  }

  // ----- the signature section

  /** The guardian index of entry k when the signature section starts at the front of `rest`. */
  ghost function IndexIn(rest: Bytes, k: nat): Byte
    requires SIGNATURE_ENTRY_LEN * k < |rest|
  {
    rest[SIGNATURE_ENTRY_LEN * k]
  }

  ghost predicate OrderedIn(rest: Bytes, count: nat, last: Option<Byte>)
    requires SIGNATURE_ENTRY_LEN * count <= |rest|
  {
    && (count > 0 ==> !OutOfOrder(last, IndexIn(rest, 0)))
    && (forall k :: 1 <= k < count ==> IndexIn(rest, k - 1) < IndexIn(rest, k))
  }

  ghost function EntryIn(rest: Bytes, k: nat): GuardianSignature
    requires SIGNATURE_ENTRY_LEN * (k + 1) <= |rest|
  {
    ParseEntry(rest[SIGNATURE_ENTRY_LEN * k..SIGNATURE_ENTRY_LEN * (k + 1)])
  }

  ghost function EntriesIn(rest: Bytes, count: nat): (entries: seq<GuardianSignature>)
    requires SIGNATURE_ENTRY_LEN * count <= |rest|
    ensures |entries| == count
  {
    seq(count, k requires 0 <= k < count => EntryIn(rest, k))
  }

  lemma EntryShift(rest: Bytes, k: nat)
    requires SIGNATURE_ENTRY_LEN * (k + 2) <= |rest|
    ensures EntryIn(rest[SIGNATURE_ENTRY_LEN..], k) == EntryIn(rest, k + 1)
    ensures IndexIn(rest[SIGNATURE_ENTRY_LEN..], k) == IndexIn(rest, k + 1)
  {
    var n := SIGNATURE_ENTRY_LEN;
    assert rest[n..][n * k..n * (k + 1)] == rest[n * (k + 1)..n * (k + 2)];
  }

  lemma OrderedShift(rest: Bytes, count: nat, last: Option<Byte>)
    requires count > 0 && SIGNATURE_ENTRY_LEN * count <= |rest|
    ensures OrderedIn(rest, count, last)
        <==> !OutOfOrder(last, rest[0]) && OrderedIn(rest[SIGNATURE_ENTRY_LEN..], count - 1, Some(rest[0]))
  {
    var tail := rest[SIGNATURE_ENTRY_LEN..];
    forall k | 0 <= k < count - 1
      ensures IndexIn(tail, k) == IndexIn(rest, k + 1)
    {
      EntryShift(rest, k);
    }
    if OrderedIn(tail, count - 1, Some(rest[0])) && !OutOfOrder(last, rest[0]) {
      forall k | 1 <= k < count
        ensures IndexIn(rest, k - 1) < IndexIn(rest, k)
      {
        assert IndexIn(rest, k) == IndexIn(tail, k - 1);
        assert k >= 2 ==> IndexIn(rest, k - 1) == IndexIn(tail, k - 2);
      }
    }
    if OrderedIn(rest, count, last) {
      assert IndexIn(rest, 0) == rest[0];
      assert count > 1 ==> IndexIn(rest, 1) == IndexIn(tail, 0);
      forall k | 1 <= k < count - 1
        ensures IndexIn(tail, k - 1) < IndexIn(tail, k)
      {
        assert IndexIn(rest, k) < IndexIn(rest, k + 1);
      }
    }
  }

  lemma {:induction false} StreamingMeetsOffsets(rest: Bytes, count: nat, last: Option<Byte>)
    requires SIGNATURE_ENTRY_LEN * count <= |rest|
    ensures ParseSignatures(rest, count, last)
         == if OrderedIn(rest, count, last)
            then Ok((EntriesIn(rest, count), rest[SIGNATURE_ENTRY_LEN * count..]))
            else Err(SignaturesOutOfOrder)
  {
    if count > 0 {
      var n := SIGNATURE_ENTRY_LEN;
      var tail := rest[n..];
      StreamingMeetsOffsets(tail, count - 1, Some(rest[0]));
      OrderedShift(rest, count, last);
      if OrderedIn(rest, count, last) {
        var here, there := EntriesIn(rest, count), EntriesIn(tail, count - 1);
        forall k | 0 <= k < count - 1
          ensures there[k] == here[k + 1]
        {
          EntryShift(rest, k);
        }
        assert here == [ParseEntry(rest[..n])] + there;
        assert tail[n * (count - 1)..] == rest[n * count..];
      }
    } else {
      assert rest[SIGNATURE_ENTRY_LEN * count..] == rest;
    }
  }

  lemma {:induction false} StreamingTruncated(rest: Bytes, count: nat, last: Option<Byte>)
    requires |rest| < SIGNATURE_ENTRY_LEN * count
    ensures ParseSignatures(rest, count, last) in {Err(Malformed), Err(SignaturesOutOfOrder)}
  {
    if |rest| >= SIGNATURE_ENTRY_LEN {
      StreamingTruncated(rest[SIGNATURE_ENTRY_LEN..], count - 1, Some(rest[0]));
    }
  }

  lemma EntryAtOffset(data: Bytes, k: nat)
    requires OnChain.BodyStart(k + 1) <= |data|
    ensures IndexIn(data[6..], k) == data[OnChain.BodyStart(k)]
    ensures EntryIn(data[6..], k) == OnChain.EntryAt(data, k)
  {
    var base := OnChain.BodyStart(k);
    var entry := data[base..base + SIGNATURE_ENTRY_LEN];
    assert data[6..][SIGNATURE_ENTRY_LEN * k..SIGNATURE_ENTRY_LEN * (k + 1)] == entry;
    assert |entry| == SIGNATURE_ENTRY_LEN;
    assert forall i :: 0 <= i < 64 ==> entry[1..65][i] == entry[1 + i] == data[base + 1 + i];
    assert entry[1..65] == data[base + 1..base + 65];
  }

  lemma OffsetsInData(data: Bytes, n: nat)
    requires OnChain.BodyStart(n) <= |data|
    ensures OrderedIn(data[6..], n, None) <==> OnChain.InOrder(data, n)
    ensures forall k :: 0 <= k < n ==> EntryIn(data[6..], k) == OnChain.EntryAt(data, k)
    ensures data[6..][SIGNATURE_ENTRY_LEN * n..] == data[OnChain.BodyStart(n)..]
  {
    forall k | 0 <= k < n
      ensures IndexIn(data[6..], k) == data[OnChain.BodyStart(k)]
      ensures EntryIn(data[6..], k) == OnChain.EntryAt(data, k)
    {
      EntryAtOffset(data, k);
    }
  }

  // ----- the two parsers

  /** On every byte string the on-chain parser returns the counterpart of the off-chain result:
      the same bytes accepted, the same fields, the raw-slice digest equal to the digest of the
      re-encoded body, and matching error kinds except for out-of-order input that is also
      truncated within its signature section. */
  lemma ParsersAgree(c: Crypto, bytes: Bytes)
    ensures OnChain.Parse(c, bytes) == Counterpart(c, bytes, Parse(bytes))
  {
    if bytes != [] && bytes[0] == SUPPORTED_VERSION && |bytes| >= 6 {
      var n := bytes[5];
      if TruncatedInSignatures(bytes) {
        StreamingTruncated(bytes[6..], n, None);
      } else {
        StreamingMeetsOffsets(bytes[6..], n, None);
        OffsetsInData(bytes, n);
        if OnChain.InOrder(bytes, n) {
          SameFields(c, bytes);
        }
      }
    }
  }

  lemma SameFields(c: Crypto, bytes: Bytes)
    requires |bytes| >= 6 && bytes[0] == SUPPORTED_VERSION && OnChain.BodyStart(bytes[5]) <= |bytes|
    requires OnChain.InOrder(bytes, bytes[5])
    ensures OnChain.Parse(c, bytes) == Counterpart(c, bytes, Parse(bytes))
  {
    var n := bytes[5];
    var body := bytes[OnChain.BodyStart(n)..];
    StreamingMeetsOffsets(bytes[6..], n, None);
    OffsetsInData(bytes, n);
    assert EntriesIn(bytes[6..], n)
        == seq(n, i requires 0 <= i < n => OnChain.EntryAt(bytes, i));
    if ParseBody(body).Ok? {
      EncodeParsedBody(body);
    }
  }

  // ----- the two verifiers

  lemma {:induction false} SameFailure(c: Crypto, hash: Hash, keys: seq<Address>,
                                       sigs: seq<GuardianSignature>, last: Option<Byte>)
    requires AscendingFrom(sigs, last)
    ensures match FirstFailure(c, hash, keys, sigs, last)
            case None => OnChain.FirstFailure(c, hash, keys, sigs) == None
            case Some(e) => OnChain.FirstFailure(c, hash, keys, sigs) == Some(ErrorCounterpart(e))
  {
    if sigs != [] {
      AscendingTail(sigs, last);
      SameFailure(c, hash, keys, sigs[1..], Some(sigs[0].guardianIndex));
    }
  }

  /** For every accepted byte string and every guardian set the two verifiers return
      corresponding results, and both succeed exactly on a certified VAA. */
  lemma VerifiersAgree(c: Crypto, bytes: Bytes, keys: seq<Address>)
    requires Parse(bytes).Ok?
    ensures OnChain.Parse(c, bytes).Ok?
    ensures var on := OnChain.VerifyQuorum(c, OnChain.Parse(c, bytes).value, keys);
            match Verify(c, Parse(bytes).value, keys)
            case None => on == None
            case Some(e) => on == Some(ErrorCounterpart(e))
    ensures OnChain.VerifyQuorum(c, OnChain.Parse(c, bytes).value, keys) == None
        <==> Certified(c, Parse(bytes).value, keys)
  {
    ParsersAgree(c, bytes);
    EncodeParsed(bytes);
    var v := Parse(bytes).value;
    SameFailure(c, Digest(c, v.body), keys, v.signatures, None);
    VerifyMeansQuorum(c, v, keys);
  }

  /** Only the body decides the digest: accepted byte strings with the same body bytes hash
      alike, whatever their headers say. */
  lemma HashOfBody(c: Crypto, bytes: Bytes)
    requires OnChain.Parse(c, bytes).Ok?
    ensures Parse(bytes).Ok?
    ensures OnChain.Parse(c, bytes).value == View(c, Parse(bytes).value)
    ensures OnChain.Parse(c, bytes).value.hash == Digest(c, Parse(bytes).value.body)
  {
    ParsersAgree(c, bytes);
  }
}
