/**
 The Zigbee Direct secure channel: two ends of a session, and a link that may drop,
 repeat, reorder, reflect and redirect what they send.
 */
module SecureChannel {
  import opened Types
  import opened LittleEndian

  const LAST_COUNTER: U32 := 0xFFFF_FFFF
  const HEADER_LEN: nat := 4
  const MIC_LEN: nat := 4
  const MAX_MESSAGE: nat := 0xFFFF
  const SECURITY_CONTROL: Octet := 0x05

  type Uuid = u: Bytes | |u| == 16 witness [0, 0, 0, 0, 0, 0, 0, 0, 0, 0, 0, 0, 0, 0, 0, 0]

  datatype Characteristic = Characteristic(service: Uuid, uuid: Uuid)

  /** The associated data that stands for a characteristic. */
  function UniqueAddress(c: Characteristic): Bytes {
    c.service + [0] + c.uuid + [0]
  }

  function Nonce(source: Address64, counter: U32): Bytes {
    Le(source, 8) + Le(counter, 4) + [SECURITY_CONTROL]
  }

  /** A ciphertext with its integrity code names everything that went into it. */
  datatype Sealed = Sealed(key: nat, nonce: Bytes, aad: Bytes, plain: Bytes)

  /** A value on the link: shorter than header and code, or a counter in front of a ciphertext. */
  datatype Value = Short | Value(header: U32, sealed: Sealed)

  datatype Error = Stale | AuthFailed | Malformed | CounterExhausted

  datatype End = End(key: nat, local: Address64, remote: Address64, outgoing: U32, incoming: U32)

  function Fresh(key: nat, local: Address64, remote: Address64): End {
    End(key, local, remote, 0, 0)
  }

  datatype Result<T> = Ok(value: T) | Err(error: Error)

  /** Protects a plaintext into a buffer of `room` octets. */
  function Protect(e: End, c: Characteristic, plain: Bytes, room: nat): (End, Result<Value>) {
    if e.outgoing == LAST_COUNTER then (e, Err(CounterExhausted))
    else if room < HEADER_LEN + |plain| + MIC_LEN || |plain| > MAX_MESSAGE then (e, Err(Malformed))
    else
      var counter := e.outgoing + 1;
      (e.(outgoing := counter), Ok(Value(counter, Sealed(e.key, Nonce(e.local, counter), UniqueAddress(c), plain))))
  }

  /** Opens a received value; only success moves the incoming counter. */
  function Unprotect(e: End, c: Characteristic, v: Value): (End, Result<Bytes>) {
    if v.Short? then (e, Err(Malformed))
    else if v.header <= e.incoming then (e, Err(Stale))
    else if v.sealed != Sealed(e.key, Nonce(e.remote, v.header), UniqueAddress(c), v.sealed.plain) then (e, Err(AuthFailed))
    else (e.(incoming := v.header), Ok(v.sealed.plain))
  }

  class Channel {
    const key: nat
    const local: Address64
    const remote: Address64
    var outgoing: U32
    var incoming: U32

    ghost function View(): End
      reads this
    {
      End(key, local, remote, outgoing, incoming)
    }

    constructor (key: nat, local: Address64, remote: Address64)
      ensures View() == Fresh(key, local, remote)
    {
      this.key, this.local, this.remote := key, local, remote;
      outgoing, incoming := 0, 0;
    }

    method Send(c: Characteristic, plain: Bytes, room: nat) returns (r: Result<Value>)
      modifies `outgoing
      ensures (View(), r) == Protect(old(View()), c, plain, room)
    {
      if outgoing == LAST_COUNTER {
        return Err(CounterExhausted);
      }
      var total := HEADER_LEN + |plain| + MIC_LEN;
      if room < total || |plain| > MAX_MESSAGE {
        return Err(Malformed);
      }
      var counter := outgoing + 1;
      var sealed := Sealed(key, Nonce(local, counter), UniqueAddress(c), plain);
      outgoing := counter;
      return Ok(Value(counter, sealed));
    }

    method Receive(c: Characteristic, v: Value) returns (r: Result<Bytes>)
      modifies `incoming
      ensures (View(), r) == Unprotect(old(View()), c, v)
    {
      if v.Short? {
        return Err(Malformed);
      }
      if v.header <= incoming {
        return Err(Stale);
      }
      if v.sealed.key != key || v.sealed.nonce != Nonce(remote, v.header) || v.sealed.aad != UniqueAddress(c) {
        return Err(AuthFailed);
      }
      incoming := v.header;
      return Ok(v.sealed.plain);
    }
  }

  // ------------------------------------------------------------------
  // Injectivity on octets
  // ------------------------------------------------------------------

  lemma NonceInjective(a: Address64, c: U32, b: Address64, d: U32)
    requires Nonce(a, c) == Nonce(b, d)
    ensures a == b && c == d
  {
    Ranges();
    assert Nonce(a, c)[..8] == Le(a, 8) && Nonce(b, d)[..8] == Le(b, 8);
    assert Nonce(a, c)[8..12] == Le(c, 4) && Nonce(b, d)[8..12] == Le(d, 4);
    LeRoundTrip(a, 8);
    LeRoundTrip(b, 8);
    LeRoundTrip(c, 4);
    LeRoundTrip(d, 4);
  }

  lemma AddressInjective(c: Characteristic, d: Characteristic)
    requires UniqueAddress(c) == UniqueAddress(d)
    ensures c == d
  {
    assert UniqueAddress(c)[..16] == c.service && UniqueAddress(d)[..16] == d.service;
    assert UniqueAddress(c)[17..33] == c.uuid && UniqueAddress(d)[17..33] == d.uuid;
  }

  // ------------------------------------------------------------------
  // A session over an arbitrary link
  // ------------------------------------------------------------------

  type Message = (Characteristic, Bytes)

  /** One end with what it was asked to protect, the values that came of it, and what it
      accepted, each with its counter. */
  datatype Party = Party(end: End, sent: seq<Message>, emitted: seq<Value>, got: seq<(U32, Message)>)

  datatype Session = Session(left: Party, right: Party)

  function Of(s: Session, left: bool): Party {
    if left then s.left else s.right
  }

  function With(s: Session, left: bool, p: Party): Session {
    if left then s.(left := p) else s.(right := p)
  }

  /** Nobody else has the session key: whatever is under it was emitted by one of the ends. */
  ghost predicate OnTheLink(s: Session, v: Value) {
    v.Value? && v.sealed.key == s.left.end.key ==>
      exists from: bool, w: Value :: w in Of(s, from).emitted && w.Value? && v.sealed == w.sealed
  }

  datatype Step = SendStep(left: bool, c: Characteristic, plain: Bytes, room: nat) | ReceiveStep(left: bool, c: Characteristic, v: Value)

  /** The link delivers to either end anything on it, any number of times, under any header. */
  ghost predicate Enabled(s: Session, step: Step) {
    step.ReceiveStep? ==> OnTheLink(s, step.v)
  }

  function AfterSend(p: Party, c: Characteristic, plain: Bytes, room: nat): Party {
    var (e, r) := Protect(p.end, c, plain, room);
    if r.Ok? then p.(end := e, sent := p.sent + [(c, plain)], emitted := p.emitted + [r.value]) else p.(end := e)
  }

  function AfterReceive(p: Party, c: Characteristic, v: Value): Party {
    var (e, r) := Unprotect(p.end, c, v);
    if r.Ok? then p.(end := e, got := p.got + [(e.incoming, (c, r.value))]) else p.(end := e)
  }

  function Next(s: Session, step: Step): Session {
    match step
    case SendStep(left, c, plain, room) => With(s, left, AfterSend(Of(s, left), c, plain, room))
    case ReceiveStep(left, c, v) => With(s, left, AfterReceive(Of(s, left), c, v))
  }

  ghost predicate IsRun(steps: seq<Step>, sessions: seq<Session>) {
    && |sessions| == |steps| + 1
    && forall i :: 0 <= i < |steps| ==> Enabled(sessions[i], steps[i]) && sessions[i + 1] == Next(sessions[i], steps[i])
  }

  predicate Begins(s: Session) {
    && s.left.end == Fresh(s.left.end.key, s.left.end.local, s.left.end.remote)
    && s.right.end == Fresh(s.left.end.key, s.left.end.remote, s.left.end.local)
    && s.left.end.local != s.left.end.remote
    && s.left.sent == s.right.sent == [] && s.left.emitted == s.right.emitted == [] && s.left.got == s.right.got == []
  }

  /** What a receiver has accepted are messages of the sender, by counter and in order. */
  ghost predicate InOrder(got: seq<(U32, Message)>, sent: seq<Message>) {
    && (forall i :: 0 <= i < |got| ==> 1 <= got[i].0 <= |sent| && got[i].1 == sent[got[i].0 - 1])
    && (forall i, j :: 0 <= i < j < |got| ==> got[i].0 < got[j].0)
  }

  /** Every message went out under the next counter, sealed with that counter's nonce. */
  ghost predicate Numbered(p: Party) {
    && |p.sent| == |p.emitted| == p.end.outgoing
    && forall i :: 0 <= i < |p.emitted| ==>
         p.emitted[i] == Value(i + 1, Sealed(p.end.key, Nonce(p.end.local, i + 1), UniqueAddress(p.sent[i].0), p.sent[i].1))
  }

  ghost predicate Half(p: Party, peer: Party) {
    && p.end.key == peer.end.key && p.end.local == peer.end.remote && p.end.local != p.end.remote
    && Numbered(p)
    && InOrder(p.got, peer.sent)
    && p.end.incoming == if p.got == [] then 0 else p.got[|p.got| - 1].0
  }

  ghost predicate Inv(s: Session) {
    Half(s.left, s.right) && Half(s.right, s.left)
  }

  lemma AcceptsOnlySent(s: Session, left: bool, c: Characteristic, v: Value)
    requires Inv(s) && OnTheLink(s, v) && Unprotect(Of(s, left).end, c, v).1.Ok?
    ensures v.header <= |Of(s, !left).sent| && (c, v.sealed.plain) == Of(s, !left).sent[v.header - 1]
  {
    hide Nonce, UniqueAddress;
    var from: bool, w: Value :| w in Of(s, from).emitted && w.Value? && v.sealed == w.sealed;
    var p := Of(s, from);
    var i :| 0 <= i < |p.emitted| && p.emitted[i] == w;
    NonceInjective(Of(s, left).end.remote, v.header, p.end.local, i + 1);
    AddressInjective(c, p.sent[i].0);
  }

  lemma SendKeeps(p: Party, peer: Party, c: Characteristic, plain: Bytes, room: nat)
    requires Half(p, peer) && Half(peer, p)
    ensures Half(AfterSend(p, c, plain, room), peer) && Half(peer, AfterSend(p, c, plain, room))
  {
    hide Nonce, UniqueAddress;
  }

  lemma ReceiveKeeps(p: Party, peer: Party, c: Characteristic, v: Value)
    requires Half(p, peer) && Half(peer, p)
    requires Unprotect(p.end, c, v).1.Ok? ==> v.header <= |peer.sent| && (c, v.sealed.plain) == peer.sent[v.header - 1]
    ensures Half(AfterReceive(p, c, v), peer) && Half(peer, AfterReceive(p, c, v))
  {
    hide Nonce, UniqueAddress;
  }

  lemma NextInv(s: Session, step: Step)
    requires Inv(s) && Enabled(s, step)
    ensures Inv(Next(s, step))
  {
    match step
    case SendStep(left, c, plain, room) =>
      SendKeeps(Of(s, left), Of(s, !left), c, plain, room);
    case ReceiveStep(left, c, v) =>
      if Unprotect(Of(s, left).end, c, v).1.Ok? {
        AcceptsOnlySent(s, left, c, v);
      }
      ReceiveKeeps(Of(s, left), Of(s, !left), c, v);
  }

  lemma {:induction false} RunInv(steps: seq<Step>, sessions: seq<Session>, n: nat)
    requires IsRun(steps, sessions) && Begins(sessions[0]) && n <= |steps|
    ensures Inv(sessions[n])
  {
    if n > 0 {
      RunInv(steps, sessions, n - 1);
      assert Enabled(sessions[n - 1], steps[n - 1]) && sessions[n - 1 + 1] == Next(sessions[n - 1], steps[n - 1]);
      NextInv(sessions[n - 1], steps[n - 1]);
    }
  }

  /** `picks` are the positions in `whole` of the members of `part`, in order and without repeats. */
  ghost predicate PicksOut<T>(picks: seq<nat>, part: seq<T>, whole: seq<T>) {
    && |picks| == |part|
    && (forall i :: 0 <= i < |picks| ==> picks[i] < |whole| && part[i] == whole[picks[i]])
    && (forall i, j :: 0 <= i < j < |picks| ==> picks[i] < picks[j])
  }

  function Messages(got: seq<(U32, Message)>): seq<Message> {
    seq(|got|, i requires 0 <= i < |got| => got[i].1)
  }

  /** Whatever the link does, each end has accepted an in-order, repeat-free subsequence of the
      (characteristic, plaintext) pairs the other end protected. */
  lemma AcceptedIsSubsequence(steps: seq<Step>, sessions: seq<Session>, n: nat, left: bool) returns (picks: seq<nat>)
    requires IsRun(steps, sessions) && Begins(sessions[0]) && n <= |steps|
    ensures PicksOut(picks, Messages(Of(sessions[n], left).got), Of(sessions[n], !left).sent)
  {
    RunInv(steps, sessions, n);
    var got := Of(sessions[n], left).got;
    picks := seq(|got|, i requires 0 <= i < |got| => got[i].0 as int - 1);
  }

  /** No two protected values have the same nonce, not even values of different ends. */
  lemma NoncesAreUnique(steps: seq<Step>, sessions: seq<Session>, n: nat, from: bool, i: nat, from': bool, i': nat)
    requires IsRun(steps, sessions) && Begins(sessions[0]) && n <= |steps|
    requires i < |Of(sessions[n], from).emitted| && i' < |Of(sessions[n], from').emitted|
    ensures var (v, v') := (Of(sessions[n], from).emitted[i], Of(sessions[n], from').emitted[i']);
            v.Value? && v'.Value? && (v.sealed.nonce == v'.sealed.nonce ==> from == from' && i == i')
  {
    hide Nonce, UniqueAddress;
    RunInv(steps, sessions, n);
    var p, p' := Of(sessions[n], from), Of(sessions[n], from');
    if Nonce(p.end.local, i + 1) == Nonce(p'.end.local, i' + 1) {
      NonceInjective(p.end.local, i + 1, p'.end.local, i' + 1);
    }
  }

  /** What one end emitted reaches the other: delivered as it is on its characteristic, it is
      accepted with its plaintext exactly when its counter is above the last accepted one. */
  lemma EmittedIsAcceptedInTurn(steps: seq<Step>, sessions: seq<Session>, n: nat, left: bool, i: nat)
    requires IsRun(steps, sessions) && Begins(sessions[0]) && n <= |steps|
    requires i < |Of(sessions[n], !left).emitted|
    ensures |Of(sessions[n], !left).sent| == |Of(sessions[n], !left).emitted|
    ensures var p, peer := Of(sessions[n], left), Of(sessions[n], !left);
            var (c, plain) := peer.sent[i];
            && OnTheLink(sessions[n], peer.emitted[i])
            && Unprotect(p.end, c, peer.emitted[i]).1 == (if i + 1 > p.end.incoming then Ok(plain) else Err(Stale))
  {
    hide Nonce, UniqueAddress;
    RunInv(steps, sessions, n);
    var peer := Of(sessions[n], !left);
    assert peer.emitted[i] in Of(sessions[n], !left).emitted;
  }
}
