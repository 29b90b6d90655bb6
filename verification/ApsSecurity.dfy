/**
 APS link-key security: the key table every operation is specified on, and the
 two-slot cipher cache in front of it that nobody can tell is there.
 */
module ApsSecurity {
  import opened Types

  const LAST_COUNTER: U32 := 0xFFFF_FFFF

  /** Keys as terms: installed ones, and those derived from a link key. */
  datatype Key = Stored(name: nat) | TransportOf(link: Key) | LoadOf(link: Key) | HashOf(link: Key)

  datatype KeyId = Data | Network | KeyTransport | KeyLoad

  datatype Attributes = Provisional | Unverified | Verified

  datatype Kind = Unique | Global

  datatype Entry = Entry(
    key: Key, attributes: Attributes, kind: Kind, incoming: U32, sync: bool, verifiedCounter: bool, challengeCounter: U32)

  /** The key-pair set by partner address. */
  type Keys = map<Address64, Entry>

  /** The key a key identifier names, given the link key. */
  function Derived(k: Key, id: KeyId): Option<Key> {
    match id
    case Data => Some(k)
    case KeyTransport => Some(TransportOf(k))
    case KeyLoad => Some(LoadOf(k))
    case Network => None
  }

  /** The cipher for a partner, looked up afresh. */
  function Lookup(keys: Keys, partner: Address64, id: KeyId): Option<Key> {
    if partner in keys then Derived(keys[partner].key, id) else None
  }

  /** A sealed payload names everything it was sealed with. */
  datatype Seal = Seal(key: Key, level: nat, nonce: Address64, counter: U32, plain: seq<Octet>)

  datatype Frame = Frame(keyId: KeyId, counter: U32, source: Option<Address64>, seal: Seal)

  function Open(key: Key, level: nat, nonce: Address64, f: Frame): Option<seq<Octet>> {
    if f.seal == Seal(key, level, nonce, f.counter, f.seal.plain) then Some(f.seal.plain) else None
  }

  datatype ChallengeMic = ChallengeMic(key: Key, counter: U32, owner: Address64, challengeCounter: U32, challenge: nat)

  // ------------------------------------------------------------------
  // Operations on the key table
  // ------------------------------------------------------------------

  /** What the outgoing counter of an entry gives out. */
  datatype Allocation = Allocated(counter: U32) | Exhausted | ReservationRequired

  datatype Op =
    | Install(partner: Address64, entry: Entry)
    | ReplaceKey(partner: Address64, key: Key, attributes: Attributes, kind: Kind)
    | Rename(from: Address64, to: Address64)
    | Remove(partner: Address64)
    | Edit(edited: Keys)
    | SetAttributes(partner: Address64, attributes: Attributes)
    | ResetIncoming(partner: Address64)
    | InvalidateCounters
    | AnswerChallenge(local: Address64, partner: Address64, challenge: nat, outgoing: U32)
    | ValidateChallenge(partner: Address64, challenge: nat, counter: U32, challengeCounter: U32, mic: ChallengeMic)
    | Secure(partner: Address64, keyId: KeyId, level: nat, local: Address64, extendedNonce: bool, allocation: Allocation, plain: seq<Octet>)
    | Unsecure(frame: Frame, level: nat, sender: Option<Address64>, fallback: Option<Address64>)
    | SwapOut(frame: Frame, level: nat, trustCenter: Address64)

  datatype Error = NoKey | CounterPending | CounterExhausted | PolicyRejected | BadFrameCounter | NotAuthentic | UnverifiedFrameCounter

  datatype Answer =
    | Changed(ok: bool)
    | Challenged(challengeCounter: U32, mic: ChallengeMic)
    | Secured(frame: Frame)
    | Unsecured(partner: Address64, keyId: KeyId, counter: U32, kind: Kind, attributes: Attributes, plain: seq<Octet>)
    | SwappedOut(newTrustCenter: Address64, plain: seq<Octet>)
    | Failed(error: Error)

  datatype Step = Step(keys: Keys, answer: Answer)

  function DoInstall(capacity: nat, keys: Keys, partner: Address64, entry: Entry): Step {
    var rest := keys - {partner};
    if |rest| < capacity then Step(rest[partner := entry], Changed(true)) else Step(rest, Changed(false))
  }

  function DoReplaceKey(keys: Keys, partner: Address64, key: Key, attributes: Attributes, kind: Kind): Step {
    if partner in keys then
      Step(keys[partner := keys[partner].(key := key, attributes := attributes, kind := kind, incoming := 0)], Changed(true))
    else Step(keys, Changed(false))
  }

  function DoRename(keys: Keys, from: Address64, to: Address64): Step {
    if from == to then Step(keys, Changed(true))
    else if from !in keys then Step(keys, Changed(false))
    else Step((keys - {from, to})[to := keys[from]], Changed(true))
  }

  function Invalidated(keys: Keys): Keys {
    map p | p in keys :: keys[p].(verifiedCounter := false, challengeCounter := 0)
  }

  function DoAnswerChallenge(keys: Keys, local: Address64, partner: Address64, challenge: nat, outgoing: U32): Step {
    if partner !in keys then Step(keys, Failed(NoKey))
    else
      var e := keys[partner];
      var next := if e.challengeCounter == LAST_COUNTER then 0 else e.challengeCounter + 1;
      Step(keys[partner := e.(challengeCounter := next)],
           Challenged(e.challengeCounter, ChallengeMic(e.key, outgoing, local, e.challengeCounter, challenge)))
  }

  function DoValidateChallenge(keys: Keys, partner: Address64, challenge: nat, counter: U32, challengeCounter: U32, mic: ChallengeMic): Step {
    if partner in keys && mic == ChallengeMic(keys[partner].key, counter, partner, challengeCounter, challenge) then
      Step(keys[partner := keys[partner].(incoming := counter, verifiedCounter := true)], Changed(true))
    else Step(keys, Changed(false))
  }

  function DoSecure(keys: Keys, partner: Address64, id: KeyId, level: nat, local: Address64, extendedNonce: bool, a: Allocation, plain: seq<Octet>): Step {
    if id.Network? || partner !in keys || keys[partner].attributes.Unverified? then Step(keys, Failed(NoKey))
    else
      match a
      case Exhausted => Step(keys, Failed(CounterExhausted))
      case ReservationRequired => Step(keys, Failed(CounterPending))
      case Allocated(counter) =>
        var keys' := keys[partner := keys[partner].(challengeCounter := 0)];
        match Lookup(keys', partner, id)
        case None => Step(keys', Failed(NoKey))
        case Some(k) =>
          Step(keys', Secured(Frame(id, counter, if extendedNonce then Some(local) else None, Seal(k, level, local, counter, plain))))
  }

  /** The entry an incoming frame is opened with. */
  function PartnerOf(keys: Keys, source: Address64, fallback: Option<Address64>): Option<Address64> {
    if source in keys then Some(source)
    else if fallback.Some? && fallback.value in keys then fallback
    else None
  }

  function SourceOf(f: Frame, sender: Option<Address64>): Option<Address64> {
    if f.source.Some? then f.source else sender
  }

  function DoUnsecure(keys: Keys, f: Frame, level: nat, sender: Option<Address64>, fallback: Option<Address64>): Step {
    if f.keyId.Network? then Step(keys, Failed(PolicyRejected))
    else if f.counter == LAST_COUNTER then Step(keys, Failed(BadFrameCounter))
    else
      var source := SourceOf(f, sender);
      if source.None? || PartnerOf(keys, source.value, fallback).None? then Step(keys, Failed(NoKey))
      else
        var partner := PartnerOf(keys, source.value, fallback).value;
        var e := keys[partner];
        if e.kind.Unique? && f.counter < e.incoming then Step(keys, Failed(BadFrameCounter))
        else
          var key := Lookup(keys, partner, f.keyId).value;
          match Open(key, level, source.value, f)
          case None => Step(keys, Failed(NotAuthentic))
          case Some(plain) =>
            if e.kind.Unique? && e.sync && !e.verifiedCounter then Step(keys, Failed(UnverifiedFrameCounter))
            else
              Step(keys[partner := e.(incoming := f.counter + 1)], Unsecured(partner, f.keyId, f.counter, e.kind, e.attributes, plain))
  }

  /** A frame of a new Trust Center, sealed with the hash of the old one's link key. */
  function DoSwapOut(keys: Keys, f: Frame, level: nat, trustCenter: Address64): Step {
    if f.source.None? then Step(keys, Failed(NoKey))
    else if f.keyId.Network? || f.source.value == trustCenter then Step(keys, Failed(PolicyRejected))
    else if trustCenter !in keys then Step(keys, Failed(NoKey))
    else
      var source, e := f.source.value, keys[trustCenter];
      var hashed := HashOf(e.key);
      match Open(Derived(hashed, f.keyId).value, level, source, f)
      case None => Step(keys, Failed(NotAuthentic))
      case Some(plain) =>
        var incoming := if f.counter == LAST_COUNTER then f.counter else f.counter + 1;
        Step((keys - {source, trustCenter})[source := e.(key := hashed, attributes := Provisional, incoming := incoming, verifiedCounter := true)],
             SwappedOut(source, plain))
  }

  /** The operation on the key table alone, with a fresh lookup of every cipher. */
  function Do(capacity: nat, keys: Keys, op: Op): Step {
    match op
    case Install(partner, entry) => DoInstall(capacity, keys, partner, entry)
    case ReplaceKey(partner, key, attributes, kind) => DoReplaceKey(keys, partner, key, attributes, kind)
    case Rename(from, to) => DoRename(keys, from, to)
    case Remove(partner) => Step(keys - {partner}, Changed(partner in keys))
    case Edit(edited) => Step(edited, Changed(true))
    case SetAttributes(partner, attributes) =>
      if partner in keys then Step(keys[partner := keys[partner].(attributes := attributes)], Changed(true))
      else Step(keys, Changed(false))
    case ResetIncoming(partner) =>
      Step(if partner in keys then keys[partner := keys[partner].(incoming := 0)] else keys, Changed(true))
    case InvalidateCounters => Step(Invalidated(keys), Changed(true))
    case AnswerChallenge(local, partner, challenge, outgoing) => DoAnswerChallenge(keys, local, partner, challenge, outgoing)
    case ValidateChallenge(partner, challenge, counter, fc, mic) => DoValidateChallenge(keys, partner, challenge, counter, fc, mic)
    case Secure(partner, id, level, local, extended, a, plain) => DoSecure(keys, partner, id, level, local, extended, a, plain)
    case Unsecure(f, level, sender, fallback) => DoUnsecure(keys, f, level, sender, fallback)
    case SwapOut(f, level, trustCenter) => DoSwapOut(keys, f, level, trustCenter)
  }

  function KeysAfter(capacity: nat, keys: Keys, ops: seq<Op>): Keys {
    if ops == [] then keys else Do(capacity, KeysAfter(capacity, keys, ops[..|ops| - 1]), ops[|ops| - 1]).keys
  }

  /** The answers to a sequence of operations without any cache. */
  function Answers(capacity: nat, keys: Keys, ops: seq<Op>): seq<Answer> {
    if ops == [] then []
    else
      var n := |ops| - 1;
      Answers(capacity, keys, ops[..n]) + [Do(capacity, KeysAfter(capacity, keys, ops[..n]), ops[n]).answer]
  }

  // ------------------------------------------------------------------
  // The cached machine
  // ------------------------------------------------------------------

  datatype Cached = Cached(partner: Address64, id: KeyId, cipher: Key)

  const SLOTS: nat := 2
  const WORD: nat := 0x1_0000_0000_0000_0000

  class SecurityState {
    const capacity: nat
    var keys: Keys
    const ciphers: array<Option<Cached>>
    var nextSlot: nat

    /** Every cached cipher is the one its partner's current key gives. */
    ghost predicate Valid()
      reads this, ciphers
    {
      && ciphers.Length == SLOTS
      && forall i :: 0 <= i < SLOTS && ciphers[i].Some? ==>
           Lookup(keys, ciphers[i].value.partner, ciphers[i].value.id) == Some(ciphers[i].value.cipher)
    }

    constructor (capacity: nat)
      ensures Valid() && keys == map[] && this.capacity == capacity
      ensures fresh(ciphers)
    {
      this.capacity, keys, nextSlot := capacity, map[], 0;
      ciphers := new Option<Cached>[SLOTS](_ => None);
    }

    method DropCiphers()
      requires ciphers.Length == SLOTS
      modifies ciphers
      ensures forall i :: 0 <= i < SLOTS ==> ciphers[i].None?
    {
      ciphers[0], ciphers[1] := None, None;
    }

    /** The cipher for a partner: from the cache, or built and put in the next slot. */
    method CipherFor(partner: Address64, id: KeyId) returns (cipher: Option<Key>)
      requires Valid()
      modifies ciphers, `nextSlot
      ensures Valid() && keys == old(keys)
      ensures cipher == Lookup(keys, partner, id)
    {
      for i := 0 to SLOTS
        invariant Valid() && keys == old(keys)
      {
        if ciphers[i].Some? && ciphers[i].value.partner == partner && ciphers[i].value.id == id {
          return Some(ciphers[i].value.cipher);
        }
      }
      if partner !in keys {
        return None;
      }
      cipher := Derived(keys[partner].key, id);
      if cipher.None? {
        return;
      }
      var slot := nextSlot % SLOTS;
      nextSlot := (nextSlot + 1) % WORD;
      ciphers[slot] := Some(Cached(partner, id, cipher.value));
    }

    /** Replaces the whole key table; every cached cipher is dropped. */
    method Rekey(k: Keys)
      requires Valid()
      modifies this, ciphers
      ensures Valid() && keys == k
    {
      DropCiphers();
      keys := k;
    }

    /** Changes an entry without touching its key; the cache stays. */
    method Amend(partner: Address64, e: Entry)
      requires Valid() && partner in keys && e.key == keys[partner].key
      modifies `keys
      ensures Valid() && keys == old(keys)[partner := e]
    {
      keys := keys[partner := e];
    }

    method InstallKey(partner: Address64, entry: Entry) returns (answer: Answer)
      requires Valid()
      modifies this, ciphers
      ensures Valid() && Step(keys, answer) == DoInstall(capacity, old(keys), partner, entry)
    {
      Rekey(keys - {partner});
      if |keys| < capacity {
        keys := keys[partner := entry];
        return Changed(true);
      }
      return Changed(false);
    }

    method ReplaceLinkKey(partner: Address64, key: Key, attributes: Attributes, kind: Kind) returns (answer: Answer)
      requires Valid()
      modifies this, ciphers
      ensures Valid() && Step(keys, answer) == DoReplaceKey(old(keys), partner, key, attributes, kind)
    {
      DropCiphers();
      if partner !in keys {
        return Changed(false);
      }
      keys := keys[partner := keys[partner].(key := key, attributes := attributes, kind := kind, incoming := 0)];
      return Changed(true);
    }

    method RenamePartner(from: Address64, to: Address64) returns (answer: Answer)
      requires Valid()
      modifies this, ciphers
      ensures Valid() && Step(keys, answer) == DoRename(old(keys), from, to)
    {
      if from == to {
        return Changed(true);
      }
      if from !in keys {
        return Changed(false);
      }
      DropCiphers();
      keys := keys - {to};
      keys := (keys - {from})[to := keys[from]];
      assert keys == (old(keys) - {from, to})[to := old(keys)[from]];
      return Changed(true);
    }

    method SecureOutgoing(partner: Address64, id: KeyId, level: nat, local: Address64, extendedNonce: bool, a: Allocation, plain: seq<Octet>) returns (answer: Answer)
      requires Valid()
      modifies this, ciphers
      ensures Valid() && Step(keys, answer) == DoSecure(old(keys), partner, id, level, local, extendedNonce, a, plain)
    {
      if id.Network? || partner !in keys || keys[partner].attributes.Unverified? {
        return Failed(NoKey);
      }
      match a {
        case Exhausted => return Failed(CounterExhausted);
        case ReservationRequired => return Failed(CounterPending);
        case Allocated(counter) =>
          Amend(partner, keys[partner].(challengeCounter := 0));
          var cipher := CipherFor(partner, id);
          if cipher.None? {
            return Failed(NoKey);
          }
          return Secured(Frame(id, counter, if extendedNonce then Some(local) else None, Seal(cipher.value, level, local, counter, plain)));
      }
    }

    method UnsecureIncoming(f: Frame, level: nat, sender: Option<Address64>, fallback: Option<Address64>) returns (answer: Answer)
      requires Valid()
      modifies this, ciphers
      ensures Valid() && Step(keys, answer) == DoUnsecure(old(keys), f, level, sender, fallback)
    {
      if f.keyId.Network? {
        return Failed(PolicyRejected);
      }
      if f.counter == LAST_COUNTER {
        return Failed(BadFrameCounter);
      }
      var source := SourceOf(f, sender);
      if source.None? {
        return Failed(NoKey);
      }
      var p := PartnerOf(keys, source.value, fallback);
      if p.None? {
        return Failed(NoKey);
      }
      var partner := p.value;
      var e := keys[partner];
      if e.kind.Unique? && f.counter < e.incoming {
        return Failed(BadFrameCounter);
      }
      var cipher := CipherFor(partner, f.keyId);
      var plain := Open(cipher.value, level, source.value, f);
      if plain.None? {
        return Failed(NotAuthentic);
      }
      if e.kind.Unique? && e.sync && !e.verifiedCounter {
        return Failed(UnverifiedFrameCounter);
      }
      Amend(partner, e.(incoming := f.counter + 1));
      return Unsecured(partner, f.keyId, f.counter, e.kind, e.attributes, plain.value);
    }

    method UnsecureSwapOut(f: Frame, level: nat, trustCenter: Address64) returns (answer: Answer)
      requires Valid()
      modifies this, ciphers
      ensures Valid() && Step(keys, answer) == DoSwapOut(old(keys), f, level, trustCenter)
    {
      if f.source.None? {
        return Failed(NoKey);
      }
      var source := f.source.value;
      if f.keyId.Network? || source == trustCenter {
        return Failed(PolicyRejected);
      }
      if trustCenter !in keys {
        return Failed(NoKey);
      }
      var hashed := HashOf(keys[trustCenter].key);
      var plain := Open(Derived(hashed, f.keyId).value, level, source, f);
      if plain.None? {
        return Failed(NotAuthentic);
      }
      DropCiphers();
      keys := keys - {source};
      var e := keys[trustCenter].(key := hashed, attributes := Provisional,
                                  incoming := if f.counter == LAST_COUNTER then f.counter else f.counter + 1, verifiedCounter := true);
      keys := (keys - {trustCenter})[source := e];
      assert keys == (old(keys) - {source, trustCenter})[source := e];
      return SwappedOut(source, plain.value);
    }

    /** The operations that never build a cipher. */
    method Administer(op: Op) returns (answer: Answer)
      requires Valid() && !op.Secure? && !op.Unsecure? && !op.SwapOut?
      modifies this, ciphers
      ensures Valid() && Step(keys, answer) == Do(capacity, old(keys), op)
    {
      match op {
        case Install(partner, entry) =>
          answer := InstallKey(partner, entry);
        case ReplaceKey(partner, key, attributes, kind) =>
          answer := ReplaceLinkKey(partner, key, attributes, kind);
        case Rename(from, to) =>
          answer := RenamePartner(from, to);
        case Remove(partner) =>
          answer := Changed(partner in keys);
          Rekey(keys - {partner});
        case Edit(edited) =>
          Rekey(edited);
          answer := Changed(true);
        case SetAttributes(partner, attributes) =>
          answer := Changed(partner in keys);
          if partner in keys {
            Amend(partner, keys[partner].(attributes := attributes));
          }
        case ResetIncoming(partner) =>
          if partner in keys {
            Amend(partner, keys[partner].(incoming := 0));
          }
          answer := Changed(true);
        case InvalidateCounters =>
          keys := map p | p in keys :: keys[p].(verifiedCounter := false, challengeCounter := 0);
          answer := Changed(true);
        case AnswerChallenge(local, partner, challenge, outgoing) =>
          if partner !in keys {
            return Failed(NoKey);
          }
          var e := keys[partner];
          Amend(partner, e.(challengeCounter := if e.challengeCounter == LAST_COUNTER then 0 else e.challengeCounter + 1));
          answer := Challenged(e.challengeCounter, ChallengeMic(e.key, outgoing, local, e.challengeCounter, challenge));
        case ValidateChallenge(partner, challenge, counter, fc, mic) =>
          if partner !in keys || mic != ChallengeMic(keys[partner].key, counter, partner, fc, challenge) {
            return Changed(false);
          }
          Amend(partner, keys[partner].(incoming := counter, verifiedCounter := true));
          answer := Changed(true);
      }
    }

    method Perform(op: Op) returns (answer: Answer)
      requires Valid()
      modifies this, ciphers
      ensures Valid() && Step(keys, answer) == Do(capacity, old(keys), op)
    {
      match op {
        case Secure(partner, id, level, local, extended, a, plain) =>
          answer := SecureOutgoing(partner, id, level, local, extended, a, plain);
        case Unsecure(f, level, sender, fallback) =>
          answer := UnsecureIncoming(f, level, sender, fallback);
        case SwapOut(f, level, trustCenter) =>
          answer := UnsecureSwapOut(f, level, trustCenter);
        case _ =>
          answer := Administer(op);
      }
    }

    /** Through any sequence of operations the cache is invisible: the answers and the key
        table are those of the uncached machine, and the cache stays coherent. */
    method PerformAll(ops: seq<Op>) returns (answers: seq<Answer>)
      requires Valid()
      modifies this, ciphers
      ensures Valid()
      ensures answers == Answers(capacity, old(keys), ops)
      ensures keys == KeysAfter(capacity, old(keys), ops)
    {
      answers := [];
      for i := 0 to |ops|
        invariant Valid() && keys == KeysAfter(capacity, old(keys), ops[..i])
        invariant answers == Answers(capacity, old(keys), ops[..i])
      {
        assert ops[..i + 1][..i] == ops[..i];
        var a := Perform(ops[i]);
        answers := answers + [a];
      }
      assert ops[..|ops|] == ops;
    }
  }

  // ------------------------------------------------------------------
  // What the operations add up to
  // ------------------------------------------------------------------

  /** Operations that give a partner another key or restart its counter. */
  predicate Resets(op: Op, p: Address64) {
    match op
    case Install(partner, _) => partner == p
    case ReplaceKey(partner, _, _, _) => partner == p
    case Rename(from, to) => from == p || to == p
    case Remove(partner) => partner == p
    case Edit(_) => true
    case ResetIncoming(partner) => partner == p
    case ValidateChallenge(partner, _, _, _, _) => partner == p
    case SwapOut(f, _, trustCenter) => f.source == Some(p) || trustCenter == p
    case _ => false
  }

  ghost predicate Keeps(before: Keys, after: Keys, p: Address64)
    requires p in before
  {
    && p in after && after[p].key == before[p].key && after[p].kind == before[p].kind
    && before[p].incoming <= after[p].incoming
  }

  /** The operation lets a frame of the partner through. */
  predicate LetsThrough(capacity: nat, keys: Keys, op: Op, p: Address64) {
    op.Unsecure? && Do(capacity, keys, op).answer.Unsecured? && Do(capacity, keys, op).answer.partner == p
  }

  lemma DoKeeps(capacity: nat, keys: Keys, op: Op, p: Address64)
    requires p in keys && keys[p].kind.Unique? && !Resets(op, p)
    ensures Keeps(keys, Do(capacity, keys, op).keys, p)
    ensures LetsThrough(capacity, keys, op, p) ==>
              && keys[p].incoming <= op.frame.counter < Do(capacity, keys, op).keys[p].incoming
              && Do(capacity, keys, op).answer.plain == op.frame.seal.plain
              && Derived(keys[p].key, op.frame.keyId) == Some(op.frame.seal.key)
  {
  }

  ghost predicate IsRun(capacity: nat, ops: seq<Op>, states: seq<Keys>) {
    |states| == |ops| + 1 && forall i :: 0 <= i < |ops| ==> states[i + 1] == Do(capacity, states[i], ops[i]).keys
  }

  lemma {:induction false} RunKeeps(capacity: nat, ops: seq<Op>, states: seq<Keys>, p: Address64, a: nat, b: nat)
    requires IsRun(capacity, ops, states) && a <= b <= |ops|
    requires p in states[a] && states[a][p].kind.Unique?
    requires forall i :: a <= i < b ==> !Resets(ops[i], p)
    ensures Keeps(states[a], states[b], p)
  {
    if a < b {
      RunKeeps(capacity, ops, states, p, a, b - 1);
      RunStep(capacity, ops, states, b - 1);
      DoKeeps(capacity, states[b - 1], ops[b - 1], p);
    }
  }

  lemma RunStep(capacity: nat, ops: seq<Op>, states: seq<Keys>, i: nat)
    requires IsRun(capacity, ops, states) && i < |ops|
    ensures states[i + 1] == Do(capacity, states[i], ops[i]).keys
  {
  }

  /** With a unique link key that is neither replaced nor reset, the frames a partner gets through
      carry strictly increasing counters and were sealed with that key or its named derivative. */
  lemma AcceptedCountersIncrease(capacity: nat, ops: seq<Op>, states: seq<Keys>, p: Address64, i: nat, j: nat)
    requires IsRun(capacity, ops, states) && i < j < |ops|
    requires p in states[0] && states[0][p].kind.Unique?
    requires forall k :: 0 <= k < |ops| ==> !Resets(ops[k], p)
    requires LetsThrough(capacity, states[i], ops[i], p) && LetsThrough(capacity, states[j], ops[j], p)
    ensures states[0][p].incoming <= ops[i].frame.counter < ops[j].frame.counter
    ensures Derived(states[0][p].key, ops[j].frame.keyId) == Some(ops[j].frame.seal.key)
  {
    RunKeeps(capacity, ops, states, p, 0, i);
    DoKeeps(capacity, states[i], ops[i], p);
    RunStep(capacity, ops, states, i);
    RunKeeps(capacity, ops, states, p, i + 1, j);
    DoKeeps(capacity, states[j], ops[j], p);
  }
}
