/**
 Where the Basic Proxy sends what it hears: the destination, alias, delay and radius of
 every frame it queues, read off the abstract table of links.
 */
module ProxyFanout {
  import opened Types
  import opened GreenPower
  import opened Assoc
  import opened ProxyTable
  import opened Proxy
  import opened ProxyDelivery

  // ------------------------------------------------------------------
  // Operational frames
  // ------------------------------------------------------------------

  function Delay(f: Gpdf): nat {
    if f.rxAfterTx then 32 else 5
  }

  /** The notification of an operational frame of an entry linked as `l`. */
  predicate Announces(c: Config, l: Links, f: Gpdf, link: Octet, n: Command)
    requires f.gpd.Some? && |Plain(f)| > 0
  {
    && n.Notification? && n.gpd == f.gpd.value
    && n.counter == (if f.frameCounter.Some? then f.frameCounter.value else f.macSequence)
    && [n.commandId] + n.payload == Plain(f)
    && n.level == f.level && n.proxy == (c.short, link)
    && n.alsoUnicast == (l.sinks != map[]) && n.alsoDerived == l.derived && n.alsoCommissioned == (l.groups != map[])
    && n.rxAfterTx == (f.rxAfterTx && !IsCommissioningFrame(f, Plain(f)[0]))
    && n.keyType ==
       (if f.level.Unprotected? || l.traits.security.None? then NoKey
        else KeyTypeInUse(c, l.traits.security.value, f.individualKey))
  }

  /** A unicast to the sink's short address, without alias. */
  predicate GoesToSink(o: Outgoing, short: U16) {
    o.destination == ToSink(short) && o.alias.None? && o.radius == 0
  }

  /** A groupcast under an alias, within the entry's radius. */
  predicate GoesToGroup(o: Outgoing, l: Links, group: U16, alias: U16, f: Gpdf, behind: nat) {
    && o.destination == ToGroup(group) && o.radius == l.traits.radius
    && o.alias.Some? && o.alias.value.address == alias
    && (o.alias.value.sequence + behind) % 256 == f.macSequence
  }

  /** What is queued for a deliverable frame: one unicast per paired sink in some order, the groupcast
      to the derived group if that is linked, one groupcast per commissioned group, and nothing else. */
  ghost predicate FansOut(
    c: Config, k: GpdId, l: Links, f: Gpdf, now: Instant, link: Octet,
    out: seq<Outgoing>, sinks: seq<Address64>, groups: seq<U16>)
    requires f.gpd.Some? && |Plain(f)| > 0
  {
    var g := f.gpd.value;
    var derived := if l.derived then 1 else 0;
    && Enumerates(sinks, l.sinks.Keys) && Enumerates(groups, l.groups.Keys)
    && |out| == |sinks| + derived + |groups|
    && (forall o :: o in out ==> o.notBefore == After(now, Delay(f)) && Announces(c, l, f, link, o.command))
    && (forall i :: 0 <= i < |sinks| ==> GoesToSink(out[i], l.sinks[sinks[i]]))
    && (l.derived ==>
          var alias := if l.traits.assignedAlias.Some? then l.traits.assignedAlias.value else DerivedAlias(k);
          GoesToGroup(out[|sinks|], l, DerivedAlias(g), alias, f, 0))
    && (forall j :: 0 <= j < |groups| ==>
          var alias := if l.groups[groups[j]] == 0xFFFF then DerivedAlias(g) else l.groups[groups[j]];
          GoesToGroup(out[|sinks| + derived + j], l, groups[j], alias, f, 9))
  }

  function KeysOf<K, V>(s: seq<(K, V)>): (r: seq<K>)
    ensures |r| == |s|
    ensures forall i :: 0 <= i < |r| ==> r[i] == s[i].0
  {
    seq(|s|, i requires 0 <= i < |s| => s[i].0)
  }

  lemma KeysOnce<K(!new), V(!new)>(s: seq<(K, V)>)
    requires DistinctKeys(s)
    ensures Enumerates(KeysOf(s), ToMap(s).Keys)
    ensures forall i :: 0 <= i < |s| ==> s[i].0 in ToMap(s) && ToMap(s)[s[i].0] == s[i].1
  {
    ToMapPairs(s);
    var m, ks := ToMap(s), KeysOf(s);
    forall i | 0 <= i < |s|
      ensures s[i].0 in m && m[s[i].0] == s[i].1
    {
      assert s[i] in s;
    }
    forall x | x in m
      ensures x in ks
    {
      var i :| 0 <= i < |s| && s[i] == (x, m[x]);
      assert ks[i] == x;
    }
  }

  /** What the three kinds of queued frames are. */
  lemma MessageKinds(k: GpdId, l: Links, f: Gpdf, now: Instant, n: Command, ieee: Address64, short: U16, group: U16, alias: U16)
    ensures GoesToSink(MessageTo(SinkReceiver(ieee, short), k, l.traits, f, now, n), short)
    ensures var own := if l.traits.assignedAlias.Some? then l.traits.assignedAlias.value else DerivedAlias(k);
            GoesToGroup(MessageTo(DerivedReceiver, k, l.traits, f, now, n), l, DerivedAlias(n.gpd), own, f, 0)
    ensures var other := if alias == 0xFFFF then DerivedAlias(n.gpd) else alias;
            GoesToGroup(MessageTo(GroupReceiver(group, alias), k, l.traits, f, now, n), l, group, other, f, 9)
  {
    hide DerivedAlias;
  }

  /** The queued frames, one kind of receiver after the other. */
  lemma MessagesByKind(e: ProxyEntry, k: GpdId, f: Gpdf, now: Instant, n: Command)
    ensures var out := Messages(ReceiversInOrder(e), k, e.traits, f, now, n);
            var base := |e.sinks| + if e.derivedGroup then 1 else 0;
            && |out| == base + |e.groups|
            && (forall i :: 0 <= i < |e.sinks| ==>
                  out[i] == MessageTo(SinkReceiver(e.sinks[i].0, e.sinks[i].1), k, e.traits, f, now, n))
            && (e.derivedGroup ==> out[|e.sinks|] == MessageTo(DerivedReceiver, k, e.traits, f, now, n))
            && (forall j :: 0 <= j < |e.groups| ==>
                  out[base + j] == MessageTo(GroupReceiver(e.groups[j].0, e.groups[j].1), k, e.traits, f, now, n))
            && (forall o :: o in out ==> o.notBefore == After(now, Delay(f)) && o.command == n)
  {
    hide DerivedAlias, EntryAlias;
    var rs := ReceiversInOrder(e);
    var derived := if e.derivedGroup then [DerivedReceiver] else [];
    assert rs == SinkReceivers(e.sinks) + derived + GroupReceivers(e.groups);
    assert forall j :: 0 <= j < |e.groups| ==> rs[|e.sinks| + |derived| + j] == GroupReceivers(e.groups)[j];
    assert forall i :: 0 <= i < |e.sinks| ==> rs[i] == SinkReceivers(e.sinks)[i];
  }

  lemma MessagesFanOut(
    c: Config, k: GpdId, e: ProxyEntry, f: Gpdf, now: Instant, link: Octet, n: Command)
    requires ValidEntry(e) && f.gpd.Some? && |Plain(f)| > 0 && Announces(c, Abstract(e), f, link, n)
    ensures FansOut(c, k, Abstract(e), f, now, link, Messages(ReceiversInOrder(e), k, e.traits, f, now, n),
                    KeysOf(e.sinks), KeysOf(e.groups))
  {
    hide ToMap, DerivedAlias, Messages, MessageTo, ReceiversInOrder, Enumerates, GoesToSink, GoesToGroup, Plain, After;
    assert n.gpd == f.gpd.value;
    hide Announces;
    MessagesByKind(e, k, f, now, n);
    KeysOnce<Address64, U16>(e.sinks);
    KeysOnce<U16, U16>(e.groups);
    var out, l := Messages(ReceiversInOrder(e), k, e.traits, f, now, n), Abstract(e);
    var base := |e.sinks| + if e.derivedGroup then 1 else 0;
    forall i | 0 <= i < |e.sinks|
      ensures GoesToSink(out[i], l.sinks[KeysOf(e.sinks)[i]])
    {
      MessageKinds(k, l, f, now, n, e.sinks[i].0, e.sinks[i].1, 0, 0);
    }
    MessageKinds(k, l, f, now, n, 0, 0, 0, 0);
    forall j | 0 <= j < |e.groups|
      ensures var alias := l.groups[KeysOf(e.groups)[j]];
              GoesToGroup(out[base + j], l, KeysOf(e.groups)[j], if alias == 0xFFFF then DerivedAlias(n.gpd) else alias, f, 9)
    {
      MessageKinds(k, l, f, now, n, 0, 0, e.groups[j].0, e.groups[j].1);
    }
  }

  lemma OperatedAnnounces(c: Config, capacity: nat, s: State, f: Gpdf, link: Octet)
    requires ValidTable(capacity, s.table) && s.commissioning.None? && Deliverable(c, s, f)
    ensures Operates(c, s, f)
    ensures var (k, e) := Find(s.table, f.gpd.value).value;
            var o := Process(c, s.table, f, f.gpd.value);
            var n := NotificationOf(c, e, f, f.gpd.value, o, RouteOf(s, f, f.gpd.value, o).rxAfterTx, link);
            Announces(c, Abstract(e), f, link, n)
  {
    hide IsDuplicate, Find;
    var g := f.gpd.value;
    OperatesExactly(c, capacity, s, f);
    ValidActive(capacity, s.table, g);
    var (k, e) := Find(s.table, g).value;
    if !f.level.Unprotected? {
      ProcessSealed(c, s.table, f, g);
    }
    EmptyLinks(e);
    var o := Process(c, s.table, f, g);
    assert [o.payload[0]] + o.payload[1..] == o.payload;
  }

  lemma EmptyLinks(e: ProxyEntry)
    ensures (Abstract(e).sinks == map[]) == (e.sinks == []) && (Abstract(e).groups == map[]) == (e.groups == [])
  {
    if e.sinks != [] {
      assert e.sinks[|e.sinks| - 1].0 in Abstract(e).sinks;
    }
    if e.groups != [] {
      assert e.groups[|e.groups| - 1].0 in Abstract(e).groups;
    }
  }

  /** With the queue empty, a deliverable frame goes to exactly the receivers linked with its device,
      each once, and to the right place; a frame that is not deliverable goes nowhere. */
  lemma DeliverableFansOut(c: Config, capacity: nat, s: State, f: Gpdf, link: Octet)
    returns (sinks: seq<Address64>, groups: seq<U16>)
    requires ValidTable(capacity, s.table) && s.commissioning.None? && s.outgoing == [] && Deliverable(c, s, f)
    ensures var k := Find(s.table, f.gpd.value).value.0;
            && k in Registered(s.table)
            && FansOut(c, k, Registered(s.table)[k], f, s.now, link, OnGpdf(c, s, f, link).outgoing, sinks, groups)
  {
    hide IsDuplicate, Find, Genuine, Process, RouteOf, Messages, FansOut, OnGpdf;
    var g := f.gpd.value;
    FindRegistered(s.table, g);
    ValidActive(capacity, s.table, g);
    var (k, e) := Find(s.table, g).value;
    sinks, groups := KeysOf(e.sinks), KeysOf(e.groups);
    OperatedAnnounces(c, capacity, s, f, link);
    OperatesExactly(c, capacity, s, f);
    OperatedSends(c, capacity, s, f, link);
    var o := Process(c, s.table, f, g);
    MessagesFanOut(c, k, e, f, s.now, link, NotificationOf(c, e, f, g, o, RouteOf(s, f, g, o).rxAfterTx, link));
  }

  function Fitting(q: seq<Outgoing>): seq<Outgoing> {
    if |q| <= QUEUE_CAPACITY then q else q[..QUEUE_CAPACITY]
  }

  lemma {:induction false} PushAllFits(q: seq<Outgoing>, os: seq<Outgoing>)
    requires |q| <= QUEUE_CAPACITY
    ensures PushAll(q, os) == Fitting(q + os)
  {
    if os == [] {
      assert q + os == q;
    } else {
      var n := |os| - 1;
      PushAllFits(q, os[..n]);
      assert q + os == q + os[..n] + [os[n]];
    }
  }

  lemma FittingShort(q: seq<Outgoing>)
    requires |q| <= QUEUE_CAPACITY
    ensures Fitting(q + []) == q
  {
    assert q + [] == q;
  }

  lemma FittingTwice(q: seq<Outgoing>, os: seq<Outgoing>)
    ensures Fitting(q + Fitting(os)) == Fitting(q + os)
  {
    if |os| > QUEUE_CAPACITY {
      assert (q + os)[..QUEUE_CAPACITY] == (q + os[..QUEUE_CAPACITY])[..QUEUE_CAPACITY];
    }
  }

  lemma NotifyFits(c: Config, s: State, f: Gpdf, g: GpdId, o: Opened, rxAfterTx: bool, link: Octet)
    requires |o.payload| > 0 && |s.outgoing| <= QUEUE_CAPACITY
    ensures Notify(c, s, f, g, o, rxAfterTx, link).outgoing
            == Fitting(s.outgoing + Notify(c, s.(outgoing := []), f, g, o, rxAfterTx, link).outgoing)
  {
    hide Find, NotificationOf, Messages, ReceiversInOrder, EncodedLength, PushAll, Fitting;
    FittingShort(s.outgoing);
    if Find(s.table, g).Some? {
      var (k, e) := Find(s.table, g).value;
      var os := Messages(ReceiversInOrder(e), k, e.traits, f, s.now, NotificationOf(c, e, f, g, o, rxAfterTx, link));
      PushAllFits(s.outgoing, os);
      PushAllFits([], os);
      assert [] + os == os;
      FittingTwice(s.outgoing, os);
    }
  }

  lemma CommissioningFits(s: State, n: Command, f: Gpdf)
    requires n.CommissioningNotification? && |s.outgoing| <= QUEUE_CAPACITY
    ensures SendCommissioning(s, n, f).outgoing
            == Fitting(s.outgoing + SendCommissioning(s.(outgoing := []), n, f).outgoing)
  {
    hide EncodedLength, DerivedAlias;
    assert s.outgoing + [] == s.outgoing;
  }

  /** Behind frames that already wait, a received frame queues what it would queue alone, as far as there is room. */
  lemma BusyQueue(c: Config, s: State, f: Gpdf, link: Octet)
    requires |s.outgoing| <= QUEUE_CAPACITY
    ensures OnGpdf(c, s, f, link).outgoing
            == Fitting(s.outgoing + OnGpdf(c, s.(outgoing := []), f, link).outgoing)
  {
    hide Process, Notify, Heard, IsDuplicate, SendCommissioning, Fitting;
    FittingShort(s.outgoing);
    if f.fromProxy || f.payload == [] {
    } else if f.maintenance {
      var n := CommissioningNotification(UNSPECIFIED, f.payload[0] == CHANNEL_REQUEST, Unprotected, NoKey, false, f.macSequence,
                                         f.payload[0], f.payload[1..], (c.short, link), None);
      CommissioningFits(Remember(s, UNSPECIFIED, f.macSequence), n, f);
    } else if Arrives(s, f) {
      DataFits(c, s, f, link);
    }
  }

  lemma DataFits(c: Config, s: State, f: Gpdf, link: Octet)
    requires |s.outgoing| <= QUEUE_CAPACITY && Arrives(s, f)
    ensures OnData(c, s, f, link).outgoing == Fitting(s.outgoing + OnData(c, s.(outgoing := []), f, link).outgoing)
  {
    hide Process, Notify, Heard, IsDuplicate, SendCommissioning, Fitting;
    FittingShort(s.outgoing);
    var g := f.gpd.value;
    var o := Process(c, s.table, f, g);
    var r := RouteOf(s, f, g, o);
    var noted := Remember(s, g, Counter(f));
    assert RouteOf(s.(outgoing := []), f, g, o) == r;
    hide RouteOf;
    match r
    case Ignored =>
    case Noted =>
    case Rejected => CommissioningFits(noted, FrameSeen(c, f, g, o.keyType, true, f.payload, link), f);
    case Commissioned(store) =>
      CommissioningFits(if store then StoreCounter(noted, g, Counter(f)) else noted,
                        FrameSeen(c, f, g, o.keyType, false, o.payload, link), f);
    case Operated(rx) => NotifyFits(c, StoreCounter(noted, g, Counter(f)), f, g, o, rx, link);
  }

  /** What commissioning mode reports of a frame. */
  function FrameSeen(c: Config, f: Gpdf, g: GpdId, keyType: KeyType, failed: bool, payload: seq<Octet>, link: Octet): Command
    requires |payload| > 0
  {
    CommissioningNotification(g, f.rxAfterTx, f.level, keyType, failed, Counter(f), payload[0], payload[1..],
                              (c.short, link), if failed then f.tag else None)
  }

  // ------------------------------------------------------------------
  // Commissioning frames
  // ------------------------------------------------------------------

  predicate Failed(o: Opened) {
    o.status.AuthFailed? || o.status.Unprocessed?
  }

  /** In commissioning mode: a commissioning frame is passed on, marked when its security failed, unless
      it opened as a command for devices or as an auto-commissioning frame that asks for an answer. */
  predicate Tunnelled(f: Gpdf, o: Opened)
    requires |o.payload| > 0
  {
    && IsCommissioningFrame(f, o.payload[0])
    && (Failed(o)
        || (&& !(o.status.Success? && IsToGpd(o.payload[0]))
            && !(f.autoCommissioning && (o.payload[0] == COMMISSIONING || f.rxAfterTx))))
  }

  /** Goes to who opened commissioning mode, or to everybody under the device's alias. */
  predicate GoesToCommissioner(x: Outgoing, s: State, g: GpdId, f: Gpdf, rxAfterTx: bool)
    requires s.commissioning.Some?
  {
    && x.radius == 0 && x.notBefore == After(s.now, if rxAfterTx then 32 else 5)
    && match s.commissioning.value.unicastTo
       case Some(short) => x.destination == ToSink(short) && x.alias.None?
       case None =>
         && x.destination == Broadcast && x.alias.Some? && x.alias.value.address == DerivedAlias(g)
         && (x.alias.value.sequence + 12) % 256 == f.macSequence
  }

  /** What is reported of a frame: what it said where it opened, and what was received where it failed. */
  predicate Reports(c: Config, f: Gpdf, g: GpdId, o: Opened, link: Octet, n: Command) {
    && n.CommissioningNotification? && n.gpd == g && n.counter == Counter(f)
    && n.level == f.level && n.rxAfterTx == f.rxAfterTx && n.proxy == (c.short, link)
    && n.failed == Failed(o) && n.keyType == o.keyType
    && [n.commandId] + n.payload == (if Failed(o) then f.payload else o.payload)
    && n.mic == if Failed(o) then f.tag else None
  }

  lemma FrameSeenReports(c: Config, f: Gpdf, g: GpdId, o: Opened, link: Octet)
    requires |f.payload| > 0 && |o.payload| == |f.payload|
    ensures var n := FrameSeen(c, f, g, o.keyType, Failed(o), if Failed(o) then f.payload else o.payload, link);
            && Reports(c, f, g, o, link, n)
            && EncodedLength(n) == 10 + IdLength(g) + |f.payload| + if Failed(o) then 4 else 0
  {
    assert [f.payload[0]] + f.payload[1..] == f.payload && [o.payload[0]] + o.payload[1..] == o.payload;
  }

  lemma CommissionerGets(s: State, n: Command, f: Gpdf)
    requires s.commissioning.Some? && n.CommissioningNotification? && |s.outgoing| < QUEUE_CAPACITY
    ensures var out := SendCommissioning(s, n, f).outgoing;
            if EncodedLength(n) > MAX_PAYLOAD then out == s.outgoing
            else
              && |out| == |s.outgoing| + 1 && out[..|s.outgoing|] == s.outgoing
              && GoesToCommissioner(out[|s.outgoing|], s, n.gpd, f, n.rxAfterTx) && out[|s.outgoing|].command == n
  {
    hide DerivedAlias, EncodedLength;
  }

  /** Everything commissioning mode does with a commissioning frame. */
  lemma CommissioningIsTunnelled(c: Config, s: State, f: Gpdf, link: Octet)
    requires s.commissioning.Some? && |s.outgoing| < QUEUE_CAPACITY
    requires !f.fromProxy && !f.maintenance && Arrives(s, f)
    requires IsCommissioningFrame(f, Process(c, s.table, f, f.gpd.value).payload[0])
    ensures var g, out := f.gpd.value, OnGpdf(c, s, f, link).outgoing;
            var o := Process(c, s.table, f, g);
            if !Tunnelled(f, o) || 10 + IdLength(g) + |f.payload| + (if Failed(o) then 4 else 0) > MAX_PAYLOAD
            then out == s.outgoing
            else
              && |out| == |s.outgoing| + 1 && out[..|s.outgoing|] == s.outgoing
              && GoesToCommissioner(out[|s.outgoing|], s, g, f, f.rxAfterTx)
              && Reports(c, f, g, o, link, out[|s.outgoing|].command)
  {
    hide Process, Heard, IsDuplicate, SendCommissioning, GoesToCommissioner, EncodedLength, Reports;
    var g := f.gpd.value;
    var o := Process(c, s.table, f, g);
    FrameSeenReports(c, f, g, o, link);
    var n := FrameSeen(c, f, g, o.keyType, Failed(o), if Failed(o) then f.payload else o.payload, link);
    var noted := Remember(s, g, Counter(f));
    var s1 := if o.status.Success? then StoreCounter(noted, g, Counter(f)) else noted;
    CommissionerGets(s1, n, f);
    SameCommissioner(s, s1, g, f);
  }

  lemma SameCommissioner(s: State, s1: State, g: GpdId, f: Gpdf)
    requires s.commissioning.Some? && s1.commissioning == s.commissioning && s1.now == s.now
    ensures forall x, rx :: GoesToCommissioner(x, s1, g, f, rx) == GoesToCommissioner(x, s, g, f, rx)
  {
  }

  /** A Maintenance frame is passed on in commissioning mode only, once per MAC sequence number. */
  lemma MaintenanceIsTunnelled(c: Config, s: State, f: Gpdf, link: Octet)
    requires f.maintenance && !f.fromProxy && |s.outgoing| < QUEUE_CAPACITY
    ensures var out := OnGpdf(c, s, f, link).outgoing;
            if f.payload == [] || IsToGpd(f.payload[0]) || s.commissioning.None? || s.away
               || IsDuplicate(s.duplicates, SrcId(0), f.macSequence) || 14 + |f.payload| > MAX_PAYLOAD
            then out == s.outgoing
            else
              && |out| == |s.outgoing| + 1 && out[..|s.outgoing|] == s.outgoing
              && var x := out[|s.outgoing|];
              && GoesToCommissioner(x, s, SrcId(0), f, f.payload[0] == CHANNEL_REQUEST)
              && x.command.CommissioningNotification? && x.command.gpd == SrcId(0) && !x.command.failed
              && x.command.level.Unprotected? && x.command.keyType.NoKey? && x.command.mic.None?
              && x.command.counter == f.macSequence && x.command.proxy == (c.short, link)
              && x.command.rxAfterTx == (f.payload[0] == CHANNEL_REQUEST)
              && [x.command.commandId] + x.command.payload == f.payload
  {
    hide IsDuplicate, DerivedAlias;
    if f.payload != [] {
      assert [f.payload[0]] + f.payload[1..] == f.payload;
    }
  }
}
