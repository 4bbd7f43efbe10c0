/** The VAA aggregation engine (crates/wormverify-core/src/engine.rs): each operation as a
    function on the contents of the stores, and the engine class that performs it. */
module Engine {
  import opened Prelude
  import opened Vaa
  import opened VaaCodec
  import opened Domain

  datatype SubmitOutcome =
    | Collected(have: nat, needed: nat)
    | Assembled(vaa: Vaa)

  datatype EngineError =
    | MessageNotObserved
    | GuardianSetUnavailable
    | IndexOutOfRange(index: Byte)
    | InvalidSignature(index: Byte)
    | DuplicateSignature(index: Byte)
    | FailedVerification(error: VaaError)
    | AlreadyCompleted

  /** What the four ports hold. */
  datatype Stores = Stores(pending: map<Hash, PendingObservation>,
                           vaas: map<Hash, VaaRecord>,
                           sets: map<U32, GuardianSet>,
                           current: U32,
                           events: seq<DomainEvent>)

  /** Nothing observed yet, and a registry seeded with one set. */
  ghost predicate InitialStores(s: Stores) {
    && s.pending == map[] && s.vaas == map[] && s.events == []
    && exists seed: GuardianSet :: s.sets == map[seed.index := seed] && s.current == seed.index
  }

  function NewPending(c: Crypto, gsi: U32, body: VaaBody, guardians: nat, now: I64): PendingObservation {
    PendingObservation(ObservedMessage(Digest(c, body), gsi, body, now), [], guardians)
  }

  function Observe(c: Crypto, s: Stores, gsi: U32, body: VaaBody, now: I64): (Stores, Result<Hash, EngineError>) {
    var id := Digest(c, body);
    if id in s.vaas then (s, Err(AlreadyCompleted))
    else if id in s.pending then (s, Ok(id))
    else if gsi !in s.sets then (s, Err(GuardianSetUnavailable))
    else
      (s.(pending := s.pending[id := NewPending(c, gsi, body, |s.sets[gsi].keys|, now)],
          events := s.events + [MessageObserved(id)]),
       Ok(id))
  }

  /** The checks a signature passes before it is added to `p`; None when it passes them all. */
  function Screen(c: Crypto, id: Hash, p: PendingObservation, keys: seq<Address>, sig: GuardianSignature)
    : Option<EngineError>
  {
    if sig.guardianIndex >= |keys| then Some(IndexOutOfRange(sig.guardianIndex))
    else if p.HasGuardian(sig.guardianIndex) then Some(DuplicateSignature(sig.guardianIndex))
    else if c.recover(id, sig.rs, sig.recoveryId) != Some(keys[sig.guardianIndex]) then
      Some(InvalidSignature(sig.guardianIndex))
    else None
  }

  function Assemble(p: PendingObservation): Vaa {
    Vaa(SUPPORTED_VERSION, p.message.guardianSetIndex, p.signatures, p.message.body)
  }

  function CollectedEvent(id: Hash, index: Byte, p: PendingObservation): DomainEvent {
    SignatureCollected(id, index, |p.signatures|, p.Needed())
  }

  function Submit(c: Crypto, s: Stores, id: Hash, sig: GuardianSignature, now: I64)
    : (Stores, Result<SubmitOutcome, EngineError>)
  {
    if id !in s.pending then (s, Err(MessageNotObserved))
    else
      var p := s.pending[id];
      if p.message.guardianSetIndex !in s.sets then (s, Err(GuardianSetUnavailable))
      else
        var keys := s.sets[p.message.guardianSetIndex].keys;
        match Screen(c, id, p, keys, sig)
        case Some(e) => (s, Err(e))
        case None => Accept(c, s, id, p.With(sig), sig.guardianIndex, keys, now)
  }

  /** The rest of a submission, once `p` includes the new signature. */
  function Accept(c: Crypto, s: Stores, id: Hash, p: PendingObservation, index: Byte,
                  keys: seq<Address>, now: I64): (Stores, Result<SubmitOutcome, EngineError>)
  {
    var s1 := s.(events := s.events + [CollectedEvent(id, index, p)]);
    if !p.QuorumReached() then
      (s1.(pending := s1.pending[p.message.id := p]), Ok(Collected(|p.signatures|, p.Needed())))
    else
      var vaa := Assemble(p);
      match Verify(c, vaa, keys)
      case Some(e) => (s1, Err(FailedVerification(e)))
      case None =>
        (s1.(vaas := s1.vaas[id := VaaRecord(id, vaa, now)],
             pending := s1.pending - {id},
             events := s1.events + [VaaAssembled(id)]),
         Ok(Assembled(vaa)))
  }

  function Upgrade(s: Stores, guardianSet: GuardianSet): Stores {
    s.(sets := s.sets[guardianSet.index := guardianSet], current := guardianSet.index)
  }

  class AggregatorEngine {
    const crypto: Crypto
    const messages: InMemoryMessageStore
    const vaas: InMemoryVaaStore
    const guardians: InMemoryGuardianRegistry
    const events: EventLog

    constructor (crypto: Crypto, messages: InMemoryMessageStore, vaas: InMemoryVaaStore,
                 guardians: InMemoryGuardianRegistry, events: EventLog)
      ensures this.crypto == crypto && this.messages == messages && this.vaas == vaas
      ensures this.guardians == guardians && this.events == events
    {
      this.crypto := crypto;
      this.messages := messages;
      this.vaas := vaas;
      this.guardians := guardians;
      this.events := events;
    }

    ghost function State(): Stores
      reads messages, vaas, guardians, events
    {
      Stores(messages.pending, vaas.vaas, guardians.sets, guardians.current, events.events)
    }

    method ObserveMessage(guardianSetIndex: U32, body: VaaBody, now: I64) returns (r: Result<Hash, EngineError>)
      modifies messages, events
      ensures (State(), r) == Observe(crypto, old(State()), guardianSetIndex, body, now)
    {
      var id := Digest(crypto, body);
      var done := vaas.Get(id);
      if done.Some? { return Err(AlreadyCompleted); }
      var known := messages.GetPending(id);
      if known.Some? { return Ok(id); }
      var found := guardians.Get(guardianSetIndex);
      if found.None? { return Err(GuardianSetUnavailable); }
      var message := ObservedMessage(id, guardianSetIndex, body, now);
      messages.UpsertPending(PendingObservation(message, [], |found.value.keys|));
      events.Publish(MessageObserved(id));
      return Ok(id);
    }

    method SubmitSignature(id: Hash, signature: GuardianSignature, now: I64)
      returns (r: Result<SubmitOutcome, EngineError>)
      requires id in messages.pending ==> Ascending(messages.pending[id].signatures)
      modifies messages, vaas, events
      ensures (State(), r) == Submit(crypto, old(State()), id, signature, now)
    {
      var found := messages.GetPending(id);
      if found.None? { return Err(MessageNotObserved); }
      var pending := found.value;
      var guardianSet := guardians.Get(pending.message.guardianSetIndex);
      if guardianSet.None? { return Err(GuardianSetUnavailable); }
      var index := signature.guardianIndex;
      if index >= |guardianSet.value.keys| { return Err(IndexOutOfRange(index)); }
      var expected := guardianSet.value.keys[index];
      if pending.HasGuardian(index) { return Err(DuplicateSignature(index)); }
      var recovered := crypto.recover(id, signature.rs, signature.recoveryId);
      if recovered.None? || recovered.value != expected { return Err(InvalidSignature(index)); }

      var signatures := InsertByBinarySearch(pending.signatures, signature);
      pending := pending.(signatures := signatures);
      var have, needed := |pending.signatures|, pending.Needed();
      events.Publish(SignatureCollected(id, index, have, needed));
      if !pending.QuorumReached() {
        messages.UpsertPending(pending);
        return Ok(Collected(have, needed));
      }

      var vaa := Vaa(SUPPORTED_VERSION, pending.message.guardianSetIndex, pending.signatures, pending.message.body);
      var failure := RunVerify(crypto, vaa, guardianSet.value.keys);
      if failure.Some? { return Err(FailedVerification(failure.value)); }
      vaas.Save(VaaRecord(id, vaa, now));
      messages.RemovePending(id);
      events.Publish(VaaAssembled(id));
      return Ok(Assembled(vaa));
    }

    method Stats() returns (pending: nat, completed: nat)
      ensures pending == |messages.pending| && completed == |vaas.vaas|
    {
      var listed := messages.ListPending();
      pending := |listed|;
      completed := vaas.Count();
    }
  }
}
