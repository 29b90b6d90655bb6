/**
 The Green Power Basic Proxy: what it makes of received frames, GP Pairing
 commands, commissioning mode and the passing of time.
 */
module Proxy {
  import opened Types
  import opened GreenPower
  import opened ProxyTable

  const DUPLICATE_TIMEOUT: nat := 2000
  const DMIN_UNIDIRECTIONAL: nat := 5
  const DMIN_BIDIRECTIONAL: nat := 32
  const MAX_PAYLOAD: nat := 80
  const QUEUE_CAPACITY: nat := 8
  const DUPLICATE_ENTRIES: nat := 8

  datatype Config = Config(short: U16, sharedKeyType: KeyType, sharedKey: Option<Key>, nwkKey: Option<Key>, window: nat)

  datatype Commissioning = Commissioning(until: Instant, unicastTo: Option<U16>, exitOnFirstPairing: bool)

  /** A GP Proxy Commissioning Mode command. */
  datatype ModeCommand = ModeCommand(enter: bool, window: Option<nat>, unicast: bool, exitOnFirstPairing: bool)

  datatype Duplicate = Duplicate(gpd: GpdId, counter: U32, until: Instant)

  datatype Destination = ToSink(short: U16) | ToGroup(group: U16) | Broadcast

  datatype Alias = Alias(address: U16, sequence: Octet)

  datatype Command =
    | Notification(
        gpd: GpdId, alsoUnicast: bool, alsoDerived: bool, alsoCommissioned: bool, level: SecurityLevel,
        keyType: KeyType, rxAfterTx: bool, counter: U32, commandId: Octet, payload: seq<Octet>, proxy: (U16, Octet))
    | CommissioningNotification(
        gpd: GpdId, rxAfterTx: bool, level: SecurityLevel, keyType: KeyType, failed: bool,
        counter: U32, commandId: Octet, payload: seq<Octet>, proxy: (U16, Octet), mic: Option<Tag>)

  datatype Outgoing = Outgoing(
    destination: Destination, alias: Option<Alias>, notBefore: Instant, radius: Octet, command: Command)

  datatype State = State(
    table: Table, commissioning: Option<Commissioning>, duplicates: seq<Duplicate>,
    outgoing: seq<Outgoing>, now: Instant, away: bool)

  // ------------------------------------------------------------------
  // Security processing
  // ------------------------------------------------------------------

  datatype Status = NoSecurity | Success | AuthFailed | Unprocessed

  datatype Opened = Opened(status: Status, keyType: KeyType, payload: seq<Octet>)

  function ActiveEntry(t: Table, g: GpdId): Option<ProxyEntry> {
    var e := Find(t, g);
    if e.Some? && e.value.1.active then Some(e.value.1) else None
  }

  function Counter(f: Gpdf): U32 {
    if f.frameCounter.Some? then f.frameCounter.value else f.macSequence
  }

  function OrElse(a: Option<Key>, b: Option<Key>): Option<Key> {
    if a.Some? then a else b
  }

  function Typed(k: Option<Key>, t: KeyType): Option<(Key, KeyType)> {
    if k.Some? then Some((k.value, t)) else None
  }

  function DerivedGroup(c: Config): Option<Key> {
    if c.nwkKey.Some? then Some(GroupKeyOf(c.nwkKey.value)) else None
  }

  function DerivedIndividualKey(c: Config, g: GpdId): Option<Key> {
    if c.sharedKey.Some? then Some(IndividualKeyOf(c.sharedKey.value, IdBits(g))) else None
  }

  /** The key a protected frame is opened with. */
  function ResolveKey(c: Config, e: Option<ProxyEntry>, g: GpdId, individual: bool): Option<(Key, KeyType)> {
    var stored := if e.Some? && e.value.traits.security.Some? then e.value.traits.security.value.key else None;
    var entryType := if e.Some? then TypeOfKey(e.value) else NoKey;
    if individual then
      match entryType
      case Individual => Typed(stored, Individual)
      case DerivedIndividual => Typed(OrElse(stored, DerivedIndividualKey(c, g)), DerivedIndividual)
      case _ => None
    else
      match if entryType.NoKey? then c.sharedKeyType else entryType
      case NwkKey => Typed(c.nwkKey, NwkKey)
      case GroupKey => Typed(OrElse(stored, c.sharedKey), GroupKey)
      case NwkDerivedGroupKey => Typed(OrElse(stored, DerivedGroup(c)), NwkDerivedGroupKey)
      case _ => None
  }

  /** Level and key type agree with the entry, and the counter of a protected entry is fresh. */
  predicate Admits(e: ProxyEntry, f: Gpdf, counter: U32) {
    && Level(e) == f.level
    && IsIndividual(TypeOfKey(e)) == f.individualKey
    && (Level(e).Unprotected? || counter > e.traits.frameCounter)
  }

  function Zeroed(payload: seq<Octet>): seq<Octet> {
    seq(|payload|, _ => 0)
  }

  function Process(c: Config, t: Table, f: Gpdf, g: GpdId): (o: Opened)
    ensures |o.payload| == |f.payload|
  {
    var failedType := if f.individualKey then Individual else NoKey;
    if f.level.Unprotected? then Opened(NoSecurity, NoKey, f.payload)
    else if f.frameCounter.None? || f.tag.None? then Opened(Unprocessed, failedType, f.payload)
    else
      var e := ActiveEntry(t, g);
      if e.Some? && !Admits(e.value, f, f.frameCounter.value) then Opened(Unprocessed, failedType, f.payload)
      else
        var k := ResolveKey(c, e, g, f.individualKey);
        if k.None? then Opened(Unprocessed, failedType, f.payload)
        else
          var plain := Unprotect(k.value.0, f.level, g, f.frameCounter.value, f.header, f.payload, f.tag.value);
          if plain.Some? then Opened(Success, k.value.1, plain.value)
          else Opened(AuthFailed, failedType, if f.level.EncryptedMic? then Zeroed(f.payload) else f.payload)
  }

  // ------------------------------------------------------------------
  // Sending
  // ------------------------------------------------------------------

  function Push(q: seq<Outgoing>, o: Outgoing): seq<Outgoing> {
    if |q| < QUEUE_CAPACITY then q + [o] else q
  }

  function PushAll(q: seq<Outgoing>, os: seq<Outgoing>): seq<Outgoing> {
    if os == [] then q else Push(PushAll(q, os[..|os| - 1]), os[|os| - 1])
  }

  function EncodedLength(n: Command): nat {
    2 + IdLength(n.gpd) + 4 + 1 + 1 + |n.payload| + 3
    + if n.CommissioningNotification? && n.failed then 4 else 0
  }

  function Dmin(rxAfterTx: bool): nat {
    if rxAfterTx then DMIN_BIDIRECTIONAL else DMIN_UNIDIRECTIONAL
  }

  function MinusWrapping(x: Octet, d: Octet): Octet {
    (x + 0x100 - d) % 0x100
  }

  /** Who gets the notifications of one entry. */
  datatype Receiver = SinkReceiver(ieee: Address64, short: U16) | DerivedReceiver | GroupReceiver(group: U16, alias: U16)

  function EntryAlias(k: GpdId, t: Traits): U16 {
    if t.assignedAlias.Some? then t.assignedAlias.value else DerivedAlias(k)
  }

  /** The frame that carries a notification `n` of the frame `f` to one receiver. */
  function MessageTo(r: Receiver, k: GpdId, t: Traits, f: Gpdf, now: Instant, n: Command): Outgoing {
    var notBefore := After(now, Dmin(f.rxAfterTx));
    match r
    case SinkReceiver(_, short) => Outgoing(ToSink(short), None, notBefore, 0, n)
    case DerivedReceiver =>
      Outgoing(ToGroup(DerivedAlias(n.gpd)), Some(Alias(EntryAlias(k, t), f.macSequence)), notBefore, t.radius, n)
    case GroupReceiver(group, alias) =>
      var address := if alias == ALIAS_DERIVED then DerivedAlias(n.gpd) else alias;
      Outgoing(ToGroup(group), Some(Alias(address, MinusWrapping(f.macSequence, 9))), notBefore, t.radius, n)
  }

  function SinkReceivers(sinks: seq<(Address64, U16)>): (r: seq<Receiver>)
    ensures |r| == |sinks|
    ensures forall i :: 0 <= i < |r| ==> r[i] == SinkReceiver(sinks[i].0, sinks[i].1)
  {
    seq(|sinks|, i requires 0 <= i < |sinks| => SinkReceiver(sinks[i].0, sinks[i].1))
  }

  function GroupReceivers(groups: seq<(U16, U16)>): (r: seq<Receiver>)
    ensures |r| == |groups|
    ensures forall i :: 0 <= i < |r| ==> r[i] == GroupReceiver(groups[i].0, groups[i].1)
  {
    seq(|groups|, i requires 0 <= i < |groups| => GroupReceiver(groups[i].0, groups[i].1))
  }

  /** The receivers of an entry in sending order: unicast sinks, derived group, groups. */
  function ReceiversInOrder(e: ProxyEntry): seq<Receiver> {
    SinkReceivers(e.sinks) + (if e.derivedGroup then [DerivedReceiver] else []) + GroupReceivers(e.groups)
  }

  function Messages(rs: seq<Receiver>, k: GpdId, t: Traits, f: Gpdf, now: Instant, n: Command): seq<Outgoing> {
    seq(|rs|, i requires 0 <= i < |rs| => MessageTo(rs[i], k, t, f, now, n))
  }

  function NotificationOf(c: Config, e: ProxyEntry, f: Gpdf, g: GpdId, o: Opened, rxAfterTx: bool, link: Octet): Command
    requires |o.payload| > 0
  {
    Notification(g, e.sinks != [], e.derivedGroup, e.groups != [], f.level, o.keyType, rxAfterTx,
                 Counter(f), o.payload[0], o.payload[1..], (c.short, link))
  }

  /** Fans an accepted operational frame out to the receivers of its entry. */
  function Notify(c: Config, s: State, f: Gpdf, g: GpdId, o: Opened, rxAfterTx: bool, link: Octet): State
    requires |o.payload| > 0
  {
    match Find(s.table, g)
    case None => s
    case Some((k, e)) =>
      var n := NotificationOf(c, e, f, g, o, rxAfterTx, link);
      if EncodedLength(n) > MAX_PAYLOAD then s
      else s.(outgoing := PushAll(s.outgoing, Messages(ReceiversInOrder(e), k, e.traits, f, s.now, n)))
  }

  /** Broadcast under the derived alias, or unicast to who opened commissioning mode. */
  function SendCommissioning(s: State, n: Command, f: Gpdf): State
    requires n.CommissioningNotification?
  {
    if EncodedLength(n) > MAX_PAYLOAD then s
    else
      var to := if s.commissioning.Some? then s.commissioning.value.unicastTo else None;
      var notBefore := After(s.now, Dmin(n.rxAfterTx));
      var o :=
        if to.Some? then Outgoing(ToSink(to.value), None, notBefore, 0, n)
        else Outgoing(Broadcast, Some(Alias(DerivedAlias(n.gpd), MinusWrapping(f.macSequence, 12))), notBefore, 0, n);
      s.(outgoing := Push(s.outgoing, o))
  }

  function NotifyCommissioning(c: Config, s: State, f: Gpdf, g: GpdId, keyType: KeyType, failed: bool, payload: seq<Octet>, link: Octet): State
    requires |payload| > 0
  {
    SendCommissioning(
      s,
      CommissioningNotification(g, f.rxAfterTx, f.level, keyType, failed, Counter(f), payload[0], payload[1..],
                                (c.short, link), if failed then f.tag else None),
      f)
  }

  // ------------------------------------------------------------------
  // Receiving
  // ------------------------------------------------------------------

  predicate IsDuplicate(ds: seq<Duplicate>, g: GpdId, counter: U32) {
    exists i :: 0 <= i < |ds| && SameDevice(ds[i].gpd, g) && ds[i].counter == counter
  }

  function Remember(s: State, g: GpdId, counter: U32): State {
    var d := Duplicate(g, counter, After(s.now, DUPLICATE_TIMEOUT));
    s.(duplicates := (if |s.duplicates| < DUPLICATE_ENTRIES then s.duplicates else s.duplicates[1..]) + [d])
  }

  function StoreCounter(s: State, g: GpdId, counter: U32): State {
    s.(table := Heard(s.table, g, counter))
  }

  predicate IsCommissioningFrame(f: Gpdf, cmd: Octet) {
    IsCommissioning(cmd) || f.autoCommissioning || IsManufacturerDefined(cmd)
  }

  /** A data frame worth opening. */
  predicate Arrives(s: State, f: Gpdf) {
    && !s.away
    && f.gpd.Some? && IsValid(f.gpd.value)
    && 0 < |f.payload| <= MAX_PAYLOAD
    && (f.level.EncryptedMic? || !IsToGpd(f.payload[0]))
    && !IsDuplicate(s.duplicates, f.gpd.value, Counter(f))
  }

  /** What becomes of an opened data frame. */
  datatype Route = Ignored | Noted | Rejected | Commissioned(store: bool) | Operated(rxAfterTx: bool)

  predicate EntryProtected(t: Table, g: GpdId) {
    ActiveEntry(t, g).Some? && !Level(ActiveEntry(t, g).value).Unprotected?
  }

  function RouteOf(s: State, f: Gpdf, g: GpdId, o: Opened): Route
    requires |o.payload| > 0
  {
    var cmd := o.payload[0];
    var forCommissioning := s.commissioning.Some? && IsCommissioningFrame(f, cmd);
    if o.status.Success? && IsToGpd(cmd) then Ignored
    else if f.level.Unprotected? && EntryProtected(s.table, g) && !forCommissioning then Ignored
    else if o.status.AuthFailed? || o.status.Unprocessed? then (if forCommissioning then Rejected else Ignored)
    else if !IsCommissioningFrame(f, cmd) then (if ActiveEntry(s.table, g).None? then Noted else Operated(f.rxAfterTx))
    else if f.autoCommissioning && (cmd == COMMISSIONING || f.rxAfterTx) then Noted
    else if s.commissioning.Some? then Commissioned(o.status.Success?)
    else if ActiveEntry(s.table, g).Some? && (cmd == COMMISSIONING || cmd == DECOMMISSIONING) && !f.autoCommissioning
    then Operated(false)
    else Noted
  }

  /** The frame failed security; in commissioning mode the sink is told. */
  function RejectFrame(c: Config, s: State, f: Gpdf, g: GpdId, o: Opened, link: Octet): State
    requires |f.payload| > 0
  {
    NotifyCommissioning(c, Remember(s, g, Counter(f)), f, g, o.keyType, true, f.payload, link)
  }

  function CommissionFrame(c: Config, s: State, f: Gpdf, g: GpdId, o: Opened, store: bool, link: Octet): State
    requires |o.payload| > 0
  {
    var noted := Remember(s, g, Counter(f));
    NotifyCommissioning(c, if store then StoreCounter(noted, g, Counter(f)) else noted, f, g, o.keyType, false, o.payload, link)
  }

  function OperateFrame(c: Config, s: State, f: Gpdf, g: GpdId, o: Opened, rxAfterTx: bool, link: Octet): State
    requires |o.payload| > 0
  {
    Notify(c, StoreCounter(Remember(s, g, Counter(f)), g, Counter(f)), f, g, o, rxAfterTx, link)
  }

  function OnData(c: Config, s: State, f: Gpdf, link: Octet): State
    requires Arrives(s, f)
  {
    var g := f.gpd.value;
    var o := Process(c, s.table, f, g);
    match RouteOf(s, f, g, o)
    case Ignored => s
    case Noted => Remember(s, g, Counter(f))
    case Rejected => RejectFrame(c, s, f, g, o, link)
    case Commissioned(store) => CommissionFrame(c, s, f, g, o, store, link)
    case Operated(rxAfterTx) => OperateFrame(c, s, f, g, o, rxAfterTx, link)
  }

  const UNSPECIFIED := SrcId(0)

  /** A Maintenance frame: forwarded in commissioning mode only. */
  function OnMaintenance(c: Config, s: State, f: Gpdf, link: Octet): State
    requires |f.payload| > 0
  {
    var cmd := f.payload[0];
    if IsToGpd(cmd) || s.commissioning.None? || s.away || IsDuplicate(s.duplicates, UNSPECIFIED, f.macSequence) then s
    else
      var noted := Remember(s, UNSPECIFIED, f.macSequence);
      if |f.payload| > MAX_PAYLOAD then noted
      else
        SendCommissioning(
          noted,
          CommissioningNotification(UNSPECIFIED, cmd == CHANNEL_REQUEST, Unprotected, NoKey, false, f.macSequence,
                                    cmd, f.payload[1..], (c.short, link), None),
          f)
  }

  function OnGpdf(c: Config, s: State, f: Gpdf, link: Octet): State {
    if f.fromProxy || f.payload == [] then s
    else if f.maintenance then OnMaintenance(c, s, f, link)
    else if Arrives(s, f) then OnData(c, s, f, link)
    else s
  }

  function OnPairing(capacity: nat, s: State, p: Pairing): State {
    if Dropped(p) then s
    else
      var exits := s.commissioning.Some? && s.commissioning.value.exitOnFirstPairing;
      s.(table := Pair(capacity, s.table, p), commissioning := if exits then None else s.commissioning)
  }

  function Live(ds: seq<Duplicate>, now: Instant): seq<Duplicate> {
    if ds == [] then []
    else Live(ds[..|ds| - 1], now) + (if ds[|ds| - 1].until <= now then [] else [ds[|ds| - 1]])
  }

  function Poll(s: State, now: Instant): State {
    s.(now := now, duplicates := Live(s.duplicates, now),
       commissioning := if s.commissioning.Some? && s.commissioning.value.until <= now then None else s.commissioning)
  }

  function OnCommissioningMode(c: Config, s: State, cmd: ModeCommand, src: U16): State {
    if cmd.enter then
      var window := if cmd.window.Some? then 1000 * cmd.window.value else c.window;
      s.(commissioning := Some(Commissioning(After(s.now, window), if cmd.unicast then Some(src) else None, cmd.exitOnFirstPairing)))
    else s.(commissioning := None)
  }
}
