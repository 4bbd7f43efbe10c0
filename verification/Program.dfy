/** The on-chain program (anchor/programs/wormverify-core/src/{lib,state}.rs). Accounts at
    program-derived addresses are maps keyed by their seeds: `init` requires an absent key, any
    other account constraint a present one. */
module Program {
  import opened Prelude
  import opened OnChainVaa
  import Vaa

  type Pubkey = Bytes32

  const DEFAULT_PUBKEY: Pubkey :=
    [0, 0, 0, 0, 0, 0, 0, 0, 0, 0, 0, 0, 0, 0, 0, 0,
     0, 0, 0, 0, 0, 0, 0, 0, 0, 0, 0, 0, 0, 0, 0, 0]

  datatype BridgeConfig = BridgeConfig(governanceAuthority: Pubkey, chainId: U16,
                                       currentGuardianSetIndex: U32, guardianSetTtlSeconds: U32,
                                       emitterSequence: U64)

  datatype GuardianSet = GuardianSet(index: U32, keys: seq<Address>, creationTime: I64, expirationTime: I64)
  {
    predicate IsActive(now: I64) {
      expirationTime == 0 || now < expirationTime
    }
  }

  datatype ConsumedVaa = ConsumedVaa(hash: Hash, sequence: U64)

  datatype EmitterSequence = EmitterSequence(emitter: Pubkey, sequence: U64)

  datatype PostedMessage = PostedMessage(emitter: Pubkey, sequence: U64, nonce: U32, consistencyLevel: Byte,
                                         submissionTime: I64, payload: Bytes)

  /** All accounts of the program. */
  datatype Ledger = Ledger(config: Option<BridgeConfig>,
                           sets: map<U32, GuardianSet>,
                           consumed: map<Hash, ConsumedVaa>,
                           trackers: map<Pubkey, EmitterSequence>,
                           messages: map<(Pubkey, U64), PostedMessage>)

  const EMPTY_LEDGER := Ledger(None, map[], map[], map[], map[])

  datatype Instruction =
    | Initialize(governance: Pubkey, chainId: U16, ttl: U32, index: U32, guardians: seq<Address>)
    | PostMessage(emitter: Pubkey, nonce: U32, level: Byte, payload: Bytes)
    | VerifyVaa(index: U32, hash: Hash, bytes: Bytes)
    | UpgradeGuardianSet(signer: Pubkey, index: U32, guardians: seq<Address>)

  /** An error of the program, of the account framework, or a checked-arithmetic panic. */
  datatype ProgramError =
    | Failed(error: WormError)
    | AccountNotInitialized
    | AccountInUse
    | ArithmeticPanic

  // ----- instructions on ledgers

  function CheckGuardians(guardians: seq<Address>): Option<WormError> {
    if guardians == [] then Some(EmptyGuardianSet)
    else if |guardians| > Vaa.MAX_GUARDIANS then Some(GuardianSetTooLarge)
    else None
  }

  function ExecInitialize(s: Ledger, governance: Pubkey, chainId: U16, ttl: U32, index: U32,
                          guardians: seq<Address>, now: I64): Result<Ledger, ProgramError>
  {
    if s.config.Some? || index in s.sets then Err(AccountInUse)
    else
      match CheckGuardians(guardians)
      case Some(e) => Err(Failed(e))
      case None =>
        Ok(s.(config := Some(BridgeConfig(governance, chainId, index, ttl, 0)),
              sets := s.sets[index := GuardianSet(index, guardians, now, 0)]))
  }

  /** The emitter's counter; a new account starts zeroed. */
  function Tracker(s: Ledger, emitter: Pubkey): EmitterSequence {
    if emitter in s.trackers then s.trackers[emitter] else EmitterSequence(DEFAULT_PUBKEY, 0)
  }

  function ExecPostMessage(s: Ledger, emitter: Pubkey, nonce: U32, level: Byte, payload: Bytes, now: I64)
    : Result<Ledger, ProgramError>
  {
    var tracker := Tracker(s, emitter);
    var q := tracker.sequence;
    if (emitter, q) in s.messages then Err(AccountInUse)
    else if |payload| > Vaa.MAX_PAYLOAD_LEN then Err(Failed(WormError.PayloadTooLarge))
    else if q + 1 >= U64_LIMIT then Err(Failed(Overflow))
    else
      var owner := if tracker.emitter == DEFAULT_PUBKEY then emitter else tracker.emitter;
      Ok(s.(trackers := s.trackers[emitter := EmitterSequence(owner, q + 1)],
            messages := s.messages[(emitter, q) := PostedMessage(emitter, q, nonce, level, now, payload)]))
  }

  function ExecVerifyVaa(c: Crypto, s: Ledger, index: U32, hash: Hash, bytes: Bytes, now: I64)
    : Result<Ledger, ProgramError>
  {
    if s.config.None? || index !in s.sets then Err(AccountNotInitialized)
    else if hash in s.consumed then Err(AccountInUse)
    else
      match Parse(c, bytes)
      case Err(e) => Err(Failed(e))
      case Ok(parsed) =>
        if parsed.guardianSetIndex != index then Err(Failed(GuardianSetMismatch))
        else if parsed.hash != hash then Err(Failed(InvalidVaa))
        else if s.sets[index].index != index then Err(Failed(GuardianSetMismatch))
        else if !s.sets[index].IsActive(now) then Err(Failed(GuardianSetExpired))
        else
          match VerifyQuorum(c, parsed, s.sets[index].keys)
          case Some(e) => Err(Failed(e))
          case None => Ok(s.(consumed := s.consumed[hash := ConsumedVaa(parsed.hash, parsed.sequence)]))
  }

  function ExecUpgrade(s: Ledger, signer: Pubkey, index: U32, guardians: seq<Address>, now: I64)
    : Result<Ledger, ProgramError>
  {
    if s.config.None? || s.config.value.currentGuardianSetIndex !in s.sets then Err(AccountNotInitialized)
    else if index in s.sets then Err(AccountInUse)
    else
      var config := s.config.value;
      var current := config.currentGuardianSetIndex;
      if signer != config.governanceAuthority then Err(Failed(Unauthorized))
      else
        match CheckGuardians(guardians)
        case Some(e) => Err(Failed(e))
        case None =>
          if current + 1 >= U32_LIMIT then Err(ArithmeticPanic)
          else if index != current + 1 then Err(Failed(InvalidGuardianSetIndex))
          else if now + config.guardianSetTtlSeconds >= I64_LIMIT then Err(Failed(Overflow))
          else
            var outgoing := s.sets[current].(expirationTime := now + config.guardianSetTtlSeconds);
            Ok(s.(config := Some(config.(currentGuardianSetIndex := index)),
                  sets := s.sets[current := outgoing][index := GuardianSet(index, guardians, now, 0)]))
  }

  function Execute(c: Crypto, s: Ledger, ins: Instruction, now: I64): Result<Ledger, ProgramError> {
    match ins
    case Initialize(governance, chainId, ttl, index, guardians) =>
      ExecInitialize(s, governance, chainId, ttl, index, guardians, now)
    case PostMessage(emitter, nonce, level, payload) => ExecPostMessage(s, emitter, nonce, level, payload, now)
    case VerifyVaa(index, hash, bytes) => ExecVerifyVaa(c, s, index, hash, bytes, now)
    case UpgradeGuardianSet(signer, index, guardians) => ExecUpgrade(s, signer, index, guardians, now)
  }

  /** A failed instruction leaves every account as it was. */
  function Step(c: Crypto, s: Ledger, ins: Instruction, now: I64): Ledger {
    match Execute(c, s, ins, now)
    case Ok(s') => s'
    case Err(_) => s
  }

  // ----- the program

  class WormVerifyCore {
    const crypto: Crypto
    var config: Option<BridgeConfig>
    var sets: map<U32, GuardianSet>
    var consumed: map<Hash, ConsumedVaa>
    var trackers: map<Pubkey, EmitterSequence>
    var messages: map<(Pubkey, U64), PostedMessage>

    ghost function Accounts(): Ledger
      reads this
    {
      Ledger(config, sets, consumed, trackers, messages)
    }

    constructor (crypto: Crypto)
      ensures this.crypto == crypto && Accounts() == EMPTY_LEDGER
    {
      this.crypto := crypto;
      config, sets, consumed, trackers, messages := None, map[], map[], map[], map[];
    }

    method HandleInitialize(governance: Pubkey, chainId: U16, ttl: U32, index: U32,
                            guardians: seq<Address>, now: I64) returns (r: Option<ProgramError>)
      modifies this
      ensures r.None?
              ==> ExecInitialize(old(Accounts()), governance, chainId, ttl, index, guardians, now) == Ok(Accounts())
      ensures r.Some?
              ==> ExecInitialize(old(Accounts()), governance, chainId, ttl, index, guardians, now) == Err(r.value)
    {
      if config.Some? || index in sets { return Some(AccountInUse); }
      if |guardians| == 0 { return Some(Failed(EmptyGuardianSet)); }
      if |guardians| > Vaa.MAX_GUARDIANS { return Some(Failed(GuardianSetTooLarge)); }
      config := Some(BridgeConfig(governance, chainId, index, ttl, 0));
      sets := sets[index := GuardianSet(index, guardians, now, 0)];
      return None;
    }

    /** The message is written before the counter overflow is noticed; the transaction then
        undoes the write. */
    method HandlePostMessage(emitter: Pubkey, nonce: U32, level: Byte, payload: Bytes, now: I64)
      returns (r: Option<ProgramError>)
      modifies this
      ensures r.None? ==> ExecPostMessage(old(Accounts()), emitter, nonce, level, payload, now) == Ok(Accounts())
      ensures r.Some? ==> ExecPostMessage(old(Accounts()), emitter, nonce, level, payload, now) == Err(r.value)
    {
      if emitter !in trackers {
        trackers := trackers[emitter := EmitterSequence(DEFAULT_PUBKEY, 0)];
      }
      var tracker := trackers[emitter];
      if (emitter, tracker.sequence) in messages { return Some(AccountInUse); }
      if |payload| > Vaa.MAX_PAYLOAD_LEN { return Some(Failed(WormError.PayloadTooLarge)); }
      if tracker.emitter == DEFAULT_PUBKEY {
        tracker := tracker.(emitter := emitter);
      }
      var sequence := tracker.sequence;
      messages := messages[(emitter, sequence) := PostedMessage(emitter, sequence, nonce, level, now, payload)];
      if sequence + 1 >= U64_LIMIT { return Some(Failed(Overflow)); }
      trackers := trackers[emitter := tracker.(sequence := sequence + 1)];
      assert trackers == old(trackers)[emitter := trackers[emitter]];
      return None;
    }

    method HandleVerifyVaa(index: U32, hash: Hash, bytes: Bytes, now: I64) returns (r: Option<ProgramError>)
      modifies this
      ensures r.None? ==> ExecVerifyVaa(crypto, old(Accounts()), index, hash, bytes, now) == Ok(Accounts())
      ensures r.Some? ==> ExecVerifyVaa(crypto, old(Accounts()), index, hash, bytes, now) == Err(r.value)
    {
      if config.None? || index !in sets { return Some(AccountNotInitialized); }
      if hash in consumed { return Some(AccountInUse); }
      var result := ParseOffsets(crypto, bytes);
      if result.Err? { return Some(Failed(result.error)); }
      var parsed := result.value;
      if parsed.guardianSetIndex != index { return Some(Failed(GuardianSetMismatch)); }
      if parsed.hash != hash { return Some(Failed(InvalidVaa)); }
      var guardianSet := sets[index];
      if guardianSet.index != index { return Some(Failed(GuardianSetMismatch)); }
      if !guardianSet.IsActive(now) { return Some(Failed(GuardianSetExpired)); }
      var failure := RunVerifyQuorum(crypto, parsed, guardianSet.keys);
      if failure.Some? { return Some(Failed(failure.value)); }
      consumed := consumed[hash := ConsumedVaa(parsed.hash, parsed.sequence)];
      return None;
    }

    method HandleUpgrade(signer: Pubkey, index: U32, guardians: seq<Address>, now: I64)
      returns (r: Option<ProgramError>)
      modifies this
      ensures r.None? ==> ExecUpgrade(old(Accounts()), signer, index, guardians, now) == Ok(Accounts())
      ensures r.Some? ==> ExecUpgrade(old(Accounts()), signer, index, guardians, now) == Err(r.value)
    {
      if config.None? { return Some(AccountNotInitialized); }
      var current := config.value.currentGuardianSetIndex;
      if current !in sets { return Some(AccountNotInitialized); }
      if index in sets { return Some(AccountInUse); }
      if signer != config.value.governanceAuthority { return Some(Failed(Unauthorized)); }
      if |guardians| == 0 { return Some(Failed(EmptyGuardianSet)); }
      if |guardians| > Vaa.MAX_GUARDIANS { return Some(Failed(GuardianSetTooLarge)); }
      if current + 1 >= U32_LIMIT { return Some(ArithmeticPanic); }
      if index != current + 1 { return Some(Failed(InvalidGuardianSetIndex)); }
      var expiry := now + config.value.guardianSetTtlSeconds;
      if expiry >= I64_LIMIT { return Some(Failed(Overflow)); }
      sets := sets[current := sets[current].(expirationTime := expiry)];
      sets := sets[index := GuardianSet(index, guardians, now, 0)];
      config := Some(config.value.(currentGuardianSetIndex := index));
      return None;
    }

    /** One transaction: the handler's writes are kept on success and undone on failure. */
    method Process(ins: Instruction, now: I64) returns (r: Option<ProgramError>)
      modifies this
      ensures Accounts() == Step(crypto, old(Accounts()), ins, now)
      ensures r.None? <==> Execute(crypto, old(Accounts()), ins, now).Ok?
      ensures r.Some? ==> Execute(crypto, old(Accounts()), ins, now) == Err(r.value)
    {
      var config0, sets0, consumed0, trackers0, messages0 := config, sets, consumed, trackers, messages;
      match ins {
        case Initialize(governance, chainId, ttl, index, guardians) =>
          r := HandleInitialize(governance, chainId, ttl, index, guardians, now);
        case PostMessage(emitter, nonce, level, payload) =>
          r := HandlePostMessage(emitter, nonce, level, payload, now);
        case VerifyVaa(index, hash, bytes) =>
          r := HandleVerifyVaa(index, hash, bytes, now);
        case UpgradeGuardianSet(signer, index, guardians) =>
          r := HandleUpgrade(signer, index, guardians, now);
      }
      if r.Some? {
        config, sets, consumed, trackers, messages := config0, sets0, consumed0, trackers0, messages0;
      }
    }
  }
}
