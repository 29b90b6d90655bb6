/**
 What APS security is good for: a frame secured at one end opens at the other, exactly
 while its counter is acceptable there, and nothing else opens; a frame of a new Trust
 Center moves the key; and a counter challenge is met by whoever holds the key.
 */
module ApsExchange {
  import opened Types
  import opened ApsSecurity

  // ------------------------------------------------------------------
  // Securing
  // ------------------------------------------------------------------

  /** When a frame is secured, what it announces, and that only the challenge counter restarts. */
  lemma SecuredExactly(capacity: nat, keys: Keys, to: Address64, id: KeyId, level: nat, local: Address64, extended: bool,
                       a: Allocation, plain: seq<Octet>)
    ensures var r := Do(capacity, keys, Secure(to, id, level, local, extended, a, plain));
            var usable := !id.Network? && to in keys && !keys[to].attributes.Unverified?;
            && (r.answer.Secured? <==> usable && a.Allocated?)
            && (!usable ==> r.answer == Failed(NoKey))
            && (usable && a.Exhausted? ==> r.answer == Failed(CounterExhausted))
            && (usable && a.ReservationRequired? ==> r.answer == Failed(CounterPending))
            && (r.answer.Secured? ==>
                  && r.answer.frame.keyId == id && r.answer.frame.counter == a.counter
                  && r.answer.frame.source == (if extended then Some(local) else None)
                  && var seal, key := r.answer.frame.seal, keys[to].key;
                  && seal.level == level && seal.nonce == local && seal.counter == a.counter && seal.plain == plain
                  && seal.key in {key, TransportOf(key), LoadOf(key)}
                  && (seal.key == key <==> id.Data?) && (seal.key == LoadOf(key) <==> id.KeyLoad?))
            && r.keys == if usable && a.Allocated? then keys[to := keys[to].(challengeCounter := 0)] else keys
  {
  }

  /** An entry of a table that secures frames for whoever shares `key`. */
  ghost predicate Secures(capacity: nat, key: Key, id: KeyId, level: nat, local: Address64, extended: bool,
                          counter: U32, plain: seq<Octet>, f: Frame)
  {
    forall keys: Keys, to: Address64 :: to in keys && keys[to].key == key && !keys[to].attributes.Unverified? ==>
      Do(capacity, keys, Secure(to, id, level, local, extended, Allocated(counter), plain)).answer == Secured(f)
  }

  lemma SecuresExactly(capacity: nat, key: Key, id: KeyId, level: nat, local: Address64, extended: bool,
                       counter: U32, plain: seq<Octet>, f: Frame)
    ensures Secures(capacity, key, id, level, local, extended, counter, plain, f) <==>
              && !id.Network?
              && f == Frame(id, counter, if extended then Some(local) else None,
                            Seal(Derived(key, id).value, level, local, counter, plain))
  {
    var sample: Keys := map[0 := Entry(key, Verified, Unique, 0, false, false, 0)];
    var sealed := Do(capacity, sample, Secure(0, id, level, local, extended, Allocated(counter), plain)).answer;
    if Secures(capacity, key, id, level, local, extended, counter, plain, f) {
      assert 0 in sample && sealed == Secured(f);
    }
  }

  // ------------------------------------------------------------------
  // From one end to the other
  // ------------------------------------------------------------------

  /** The counter is one the entry still accepts. */
  predicate Acceptable(e: Entry, counter: U32) {
    && counter != 0xFFFF_FFFF
    && (e.kind.Unique? ==> counter >= e.incoming && (e.sync ==> e.verifiedCounter))
  }

  /** The entry that stands for a sender: its own, else the fallback. */
  predicate StandsFor(keys: Keys, sender: Address64, fallback: Option<Address64>, p: Address64) {
    p in keys && (p == sender || (sender !in keys && fallback == Some(p)))
  }

  /** A frame secured at one end with a key the other end holds for it opens there exactly while its counter
      is acceptable, with the sender, key identifier, counter and plaintext it was secured with; then just the
      counter moves on, and otherwise nothing changes. */
  lemma SecuredOpens(
    capacity: nat, mine: Keys, theirs: Keys, me: Address64, you: Address64, id: KeyId, level: nat, extended: bool,
    a: Allocation, plain: seq<Octet>, f: Frame, sender: Option<Address64>, fallback: Option<Address64>, p: Address64)
    requires Do(capacity, mine, Secure(you, id, level, me, extended, a, plain)).answer == Secured(f)
    requires StandsFor(theirs, me, fallback, p) && you in mine && theirs[p].key == mine[you].key
    requires extended || sender == Some(me)
    ensures var r, e := Do(capacity, theirs, Unsecure(f, level, sender, fallback)), theirs[p];
            if Acceptable(e, f.counter) then
              && r.answer == Unsecured(p, id, a.counter, e.kind, e.attributes, plain)
              && r.keys == theirs[p := e.(incoming := f.counter + 1)]
            else
              && r.keys == theirs
              && r.answer == Failed(if f.counter == 0xFFFF_FFFF || f.counter < e.incoming then BadFrameCounter
                                    else UnverifiedFrameCounter)
  {
  }

  /** And nothing else opens: whatever opens is the frame that a holder of that key at the source address
      secures under that counter. */
  lemma OpenedWasSecured(capacity: nat, keys: Keys, f: Frame, level: nat, sender: Option<Address64>, fallback: Option<Address64>)
    ensures var r := Do(capacity, keys, Unsecure(f, level, sender, fallback));
            r.answer.Unsecured? ==>
              && var source := if f.source.Some? then f.source else sender;
              && source.Some? && StandsFor(keys, source.value, fallback, r.answer.partner)
              && Acceptable(keys[r.answer.partner], f.counter)
              && r.answer.keyId == f.keyId && r.answer.counter == f.counter
              && Secures(capacity, keys[r.answer.partner].key, f.keyId, level, source.value, f.source.Some?, f.counter, r.answer.plain, f)
  {
    hide Secures;
    var source := if f.source.Some? then f.source else sender;
    if source.Some? && PartnerOf(keys, source.value, fallback).Some? {
      var e := keys[PartnerOf(keys, source.value, fallback).value];
      SecuresExactly(capacity, e.key, f.keyId, level, source.value, f.source.Some?, f.counter, f.seal.plain, f);
    }
  }

  /** A frame the other end secured with another key, under another address or at another level never opens. */
  lemma OthersDoNotOpen(
    capacity: nat, mine: Keys, theirs: Keys, me: Address64, you: Address64, id: KeyId, level: nat, extended: bool, a: Allocation,
    plain: seq<Octet>, f: Frame, level': nat, sender: Option<Address64>, fallback: Option<Address64>, p: Address64)
    requires Do(capacity, mine, Secure(you, id, level, me, extended, a, plain)).answer == Secured(f)
    requires you in mine
    requires var source := if extended then Some(me) else sender;
             && source.Some? && StandsFor(theirs, source.value, fallback, p)
             && (theirs[p].key != mine[you].key || source != Some(me) || level' != level)
    ensures Do(capacity, theirs, Unsecure(f, level', sender, fallback)).answer.Failed?
    ensures Do(capacity, theirs, Unsecure(f, level', sender, fallback)).keys == theirs
  {
  }

  // ------------------------------------------------------------------
  // Trust Center swap-out
  // ------------------------------------------------------------------

  /** A swap-out is taken exactly for a frame that another address secured, naming itself, with the hash of the
      Trust Center's link key. */
  lemma SwapOutExactly(capacity: nat, keys: Keys, f: Frame, level: nat, tc: Address64)
    ensures var r := Do(capacity, keys, SwapOut(f, level, tc));
            && (r.answer.SwappedOut? <==>
                  && f.source.Some? && f.source.value != tc && !f.keyId.Network? && tc in keys
                  && Secures(capacity, HashOf(keys[tc].key), f.keyId, level, f.source.value, true, f.counter, f.seal.plain, f))
            && (!r.answer.SwappedOut? ==> r.keys == keys && r.answer.Failed?)
  {
    hide Secures;
    if f.source.Some? && tc in keys {
      SecuresExactly(capacity, HashOf(keys[tc].key), f.keyId, level, f.source.value, true, f.counter, f.seal.plain, f);
    }
  }

  /** The entry then stands under that address with the hashed key and the counter of the frame, and all
      others stay. */
  lemma SwapOutMoves(capacity: nat, keys: Keys, f: Frame, level: nat, tc: Address64)
    ensures var r := Do(capacity, keys, SwapOut(f, level, tc));
            r.answer.SwappedOut? ==>
              && f.source.Some? && tc in keys && r.answer == SwappedOut(f.source.value, f.seal.plain)
              && r.keys.Keys == keys.Keys - {tc} + {f.source.value}
              && (forall p :: p in r.keys && p != f.source.value ==> r.keys[p] == keys[p])
              && var (before, e) := (keys[tc], r.keys[f.source.value]);
              && e.key == HashOf(before.key) && e.attributes.Provisional? && e.verifiedCounter
              && e.incoming == (if f.counter == 0xFFFF_FFFF then f.counter else f.counter + 1)
              && e.kind == before.kind && e.sync == before.sync
  {
  }

  // ------------------------------------------------------------------
  // Counter challenges
  // ------------------------------------------------------------------

  /** The answer of whoever holds the same key is valid for the challenge it answers, and makes its outgoing
      counter the next one accepted. */
  lemma ChallengeIsMet(capacity: nat, mine: Keys, theirs: Keys, me: Address64, you: Address64, challenge: nat, outgoing: U32)
    requires you in mine && me in theirs && mine[you].key == theirs[me].key
    ensures var answered := Do(capacity, mine, AnswerChallenge(me, you, challenge, outgoing));
            && answered.answer.Challenged?
            && var (used, mic) := (answered.answer.challengeCounter, answered.answer.mic);
            && var valid := Do(capacity, theirs, ValidateChallenge(me, challenge, outgoing, used, mic));
            && valid.answer == Changed(true)
            && valid.keys == theirs[me := theirs[me].(incoming := outgoing, verifiedCounter := true)]
  {
  }

  /** A challenge counter is used for one answer only, until the outgoing counter moves on. */
  lemma ChallengeCountersDiffer(capacity: nat, keys: Keys, me: Address64, you: Address64, challenge: nat, outgoing: U32)
    requires you in keys
    ensures var r := Do(capacity, keys, AnswerChallenge(me, you, challenge, outgoing));
            && you in r.keys && r.keys == keys[you := keys[you].(challengeCounter := r.keys[you].challengeCounter)]
            && r.keys[you].challengeCounter == (r.answer.challengeCounter + 1) % 0x1_0000_0000
            && r.answer.challengeCounter == keys[you].challengeCounter
  {
  }

  /** Only such an answer is valid: another key, owner, counter or challenge changes nothing. */
  lemma OnlyThatAnswerIsValid(capacity: nat, keys: Keys, from: Address64, challenge: nat, counter: U32, used: U32, mic: ChallengeMic)
    ensures var r := Do(capacity, keys, ValidateChallenge(from, challenge, counter, used, mic));
            && (r.answer == Changed(true) <==>
                  && from in keys && mic.key == keys[from].key && mic.owner == from
                  && mic.counter == counter && mic.challengeCounter == used && mic.challenge == challenge)
            && (r.answer != Changed(true) ==> r == Step(keys, Changed(false)))
  {
  }

  /** After a restart nothing opens from a partner that synchronises its counter until it has met a challenge. */
  lemma RestartNeedsChallenge(capacity: nat, keys: Keys, f: Frame, level: nat, sender: Option<Address64>, fallback: Option<Address64>)
    ensures var restarted := Do(capacity, keys, InvalidateCounters).keys;
            var r := Do(capacity, restarted, Unsecure(f, level, sender, fallback));
            && restarted.Keys == keys.Keys
            && (forall p :: p in keys ==> restarted[p] == keys[p].(verifiedCounter := false, challengeCounter := 0))
            && (r.answer.Unsecured? ==> !(keys[r.answer.partner].kind.Unique? && keys[r.answer.partner].sync))
  {
  }

  // ------------------------------------------------------------------
  // The rest of the table
  // ------------------------------------------------------------------

  /** The partners an operation is about. */
  ghost predicate Concerns(op: Op, p: Address64) {
    match op
    case Install(q, _) => p == q
    case ReplaceKey(q, _, _, _) => p == q
    case Rename(from, to) => p == from || p == to
    case Remove(q) => p == q
    case SetAttributes(q, _) => p == q
    case ResetIncoming(q) => p == q
    case AnswerChallenge(_, q, _, _) => p == q
    case ValidateChallenge(q, _, _, _, _) => p == q
    case Secure(q, _, _, _, _, _, _) => p == q
    case Unsecure(f, _, sender, fallback) => f.source == Some(p) || sender == Some(p) || fallback == Some(p)
    case SwapOut(f, _, tc) => p == tc || f.source == Some(p)
    case Edit(_) => true
    case InvalidateCounters => true
  }

  /** An entry is installed where there is one already or room for one; an installation that does not fit loses
      the entry that was there before. */
  lemma InstalledExactly(capacity: nat, keys: Keys, p: Address64, e: Entry)
    ensures var r := Do(capacity, keys, Install(p, e));
            && r.answer == Changed(|keys| < capacity || (p in keys && |keys| == capacity))
            && (p in r.keys <==> r.answer.ok) && (p in r.keys ==> r.keys[p] == e)
  {
    if p in keys {
      Smaller(keys, p);
    } else {
      assert keys - {p} == keys;
    }
  }

  /** What becomes of the entry whose key is replaced, or that is renamed or removed. */
  lemma EntryAfter(capacity: nat, keys: Keys, p: Address64, q: Address64, key: Key, attributes: Attributes, kind: Kind)
    ensures var r := Do(capacity, keys, ReplaceKey(p, key, attributes, kind));
            && r.answer == Changed(p in keys) && (p in r.keys <==> p in keys)
            && (p in keys ==> r.keys[p].key == key && r.keys[p].attributes == attributes && r.keys[p].kind == kind
                              && r.keys[p].incoming == 0 && r.keys[p].sync == keys[p].sync)
    ensures var r := Do(capacity, keys, Rename(p, q));
            && r.answer == Changed(p == q || p in keys)
            && (if p in keys then q in r.keys && r.keys[q] == keys[p] && (p != q ==> p !in r.keys) else r.keys == keys)
    ensures var r := Do(capacity, keys, Remove(p)); r.answer == Changed(p in keys) && p !in r.keys
  {
  }

  lemma Smaller(keys: Keys, p: Address64)
    requires p in keys
    ensures |keys - {p}| == |keys| - 1
  {
    assert (keys - {p}).Keys == keys.Keys - {p};
    assert |keys - {p}| == |(keys - {p}).Keys| && |keys| == |keys.Keys|;
  }

  lemma FramesTouchOne(capacity: nat, keys: Keys, op: Op, p: Address64)
    requires !Concerns(op, p) && (op.Unsecure? || op.SwapOut?)
    ensures var after := Do(capacity, keys, op).keys;
            (p in after <==> p in keys) && (p in keys ==> after[p] == keys[p])
  {
    hide Open, Derived;
  }

  /** No operation touches the entries of other partners. */
  lemma OthersUntouched(capacity: nat, keys: Keys, op: Op, p: Address64)
    requires !Concerns(op, p)
    ensures var after := Do(capacity, keys, op).keys;
            (p in after <==> p in keys) && (p in keys ==> after[p] == keys[p])
  {
    hide DoUnsecure, DoSwapOut, Derived;
    if op.Unsecure? || op.SwapOut? {
      FramesTouchOne(capacity, keys, op, p);
    }
  }
}
