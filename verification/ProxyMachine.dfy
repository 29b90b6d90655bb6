/**
 The Basic Proxy as the object it is: its table, duplicate filter, outgoing queue and
 commissioning window are updated in place, and every call has the effect the value
 model says.
 */
module ProxyMachine {
  import opened Types
  import opened GreenPower
  import opened Assoc
  import opened ProxyTable
  import opened Proxy
  import opened ProxyDelivery

  lemma {:induction false} PushAllJoin(q: seq<Outgoing>, a: seq<Outgoing>, b: seq<Outgoing>)
    ensures PushAll(q, a + b) == PushAll(PushAll(q, a), b)
  {
    if b == [] {
      assert a + b == a;
    } else {
      var n := |b| - 1;
      PushAllJoin(q, a, b[..n]);
      assert (a + b)[..|a| + n] == a + b[..n];
    }
  }

  lemma MessagesJoin(q: seq<Outgoing>, a: seq<Receiver>, b: seq<Receiver>, k: GpdId, t: Traits, f: Gpdf, now: Instant, n: Command)
    ensures PushAll(q, Messages(a + b, k, t, f, now, n))
            == PushAll(PushAll(q, Messages(a, k, t, f, now, n)), Messages(b, k, t, f, now, n))
  {
    PushAllJoin(q, Messages(a, k, t, f, now, n), Messages(b, k, t, f, now, n));
    assert Messages(a + b, k, t, f, now, n) == Messages(a, k, t, f, now, n) + Messages(b, k, t, f, now, n);
  }

  class BasicProxy {
    const config: Config
    const capacity: nat
    var table: Table
    var commissioning: Option<Commissioning>
    var duplicates: seq<Duplicate>
    var outgoing: seq<Outgoing>
    var now: Instant
    var away: bool

    ghost function View(): State
      reads this
    {
      State(table, commissioning, duplicates, outgoing, now, away)
    }

    constructor (config: Config, capacity: nat)
      ensures View() == State([], None, [], [], 0, false)
      ensures this.config == config && this.capacity == capacity
    {
      this.config, this.capacity := config, capacity;
      table, commissioning, duplicates, outgoing, now, away := [], None, [], [], 0, false;
    }

    // ----------------------------------------------------------------
    // Time, mode and queue
    // ----------------------------------------------------------------

    method PollTimers(t: Instant)
      modifies this
      ensures View() == Poll(old(View()), t)
      ensures forall d :: d in duplicates <==> d in old(duplicates) && t < d.until
      ensures commissioning.Some? ==> t < commissioning.value.until
    {
      now := t;
      var kept: seq<Duplicate> := [];
      for i := 0 to |duplicates|
        invariant kept == Live(duplicates[..i], t) && forall d :: d in kept <==> d in duplicates[..i] && t < d.until
        invariant View() == old(View()).(now := t)
      {
        assert duplicates[..i + 1][..i] == duplicates[..i];
        if duplicates[i].until > t {
          kept := kept + [duplicates[i]];
        }
      }
      assert duplicates[..|duplicates|] == duplicates;
      duplicates := kept;
      if commissioning.Some? && commissioning.value.until <= t {
        commissioning := None;
      }
    }

    method SetMode(cmd: ModeCommand, src: U16)
      modifies `commissioning
      ensures View() == OnCommissioningMode(config, old(View()), cmd, src)
    {
      if cmd.enter {
        var window := config.window;
        if cmd.window.Some? {
          window := 1000 * cmd.window.value;
        }
        commissioning := Some(Commissioning(After(now, window), if cmd.unicast then Some(src) else None, cmd.exitOnFirstPairing));
      } else {
        commissioning := None;
      }
    }

    method Enqueue(o: Outgoing)
      modifies `outgoing
      ensures outgoing == Push(old(outgoing), o)
    {
      if |outgoing| < QUEUE_CAPACITY {
        outgoing := outgoing + [o];
      }
    }

    // ----------------------------------------------------------------
    // GP Pairing
    // ----------------------------------------------------------------

    method RetainOtherDevices(g: GpdId)
      modifies `table
      ensures table == RemoveDevice(old(table), g)
      ensures forall e :: e in table <==> e in old(table) && !SameDevice(e.0, g)
    {
      var r: Table := [];
      ghost var ids := SiblingIds(table, g);
      for i := 0 to |table|
        invariant table == old(table) && r == Without(table[..i], ids)
        invariant forall e :: e in r <==> e in table[..i] && !SameDevice(e.0, g)
      {
        WithoutStep(table, ids, i);
        assert table[i] in table;
        if !SameDevice(table[i].0, g) {
          r := r + [table[i]];
        }
      }
      assert table[..|table|] == table;
      table := r;
    }

    method RemoveIdentity(g: GpdId)
      modifies `table
      ensures table == Remove(old(table), g)
    {
      table := Retain(table, g);
    }

    /** Removes one sink; an entry left without any goes too. */
    method DropSinkOf(p: Pairing)
      modifies `table
      ensures table == RemoveSink(old(table), p)
    {
      var i := Position(table, p.gpd);
      if i == |table| {
        return;
      }
      var e := table[i].1;
      if NamesSink(p) {
        var sinks := Retain<Address64, U16>(e.sinks, p.sink.value.ieee);
        e := e.(sinks := sinks);
      } else if p.mode.DerivedGroupcast? {
        e := e.(derivedGroup := false);
      } else if NamesGroup(p) {
        var groups := Retain<U16, U16>(e.groups, p.sink.value.group);
        e := e.(groups := groups);
      }
      if e.sinks == [] && !e.derivedGroup && e.groups == [] {
        table := Retain(table, p.gpd);
      } else {
        table := table[i := (p.gpd, e)];
      }
    }

    /** All other entries of the device take over the security options and counter. */
    method ShareSecurity(g: GpdId, from: Traits)
      modifies `table
      ensures table == Shared(old(table), g, from)
    {
      ghost var before := table;
      for i := 0 to |table|
        invariant |table| == |before|
        invariant forall j :: 0 <= j < i ==> table[j] == Shared(before, g, from)[j]
        invariant forall j :: i <= j < |table| ==> table[j] == before[j]
      {
        var (k, e) := table[i];
        if SameDevice(k, g) && k != g {
          table := table[i := (k, e.(traits := e.traits.(security := from.security, frameCounter := from.frameCounter)))];
        }
      }
    }

    static method UpdateLinks(before: ProxyEntry, p: Pairing) returns (e: ProxyEntry)
      ensures forall level :: e == WithSink(before, p, level).(traits := before.traits)
    {
      e := before.(active := true, valid := true);
      if NamesSink(p) {
        var sinks := Upsert<Address64, U16>(e.sinks, p.sink.value.ieee, p.sink.value.short, SINK_CAPACITY);
        e := e.(sinks := sinks);
      } else if p.mode.DerivedGroupcast? {
        e := e.(derivedGroup := true);
      } else if NamesGroup(p) {
        var alias: U16 := ALIAS_DERIVED;
        if p.assignedAlias.Some? {
          alias := p.assignedAlias.value;
        }
        var groups := Upsert<U16, U16>(e.groups, p.sink.value.group, alias, GROUP_CAPACITY);
        e := e.(groups := groups);
      }
    }

    static method UpdateTraits(before: Traits, p: Pairing, level: SecurityLevel) returns (t: Traits)
      ensures t == Updated(before, p, level)
    {
      t := before.(gpdFixed := p.gpdFixed, sequenceCapable := p.sequenceCapable);
      if !p.mode.CommissionedGroupcast? && p.assignedAlias.Some? {
        t := t.(assignedAlias := p.assignedAlias);
      }
      if p.radius.Some? {
        t := t.(radius := MergedRadius(t.radius, p.radius.value));
      }
      if !level.Unprotected? || !p.keyType.NoKey? {
        var key := p.key;
        if key.None? && t.security.Some? {
          key := t.security.value.key;
        }
        t := t.(security := Some(Security(level, p.keyType, key)));
      } else {
        t := t.(security := None);
      }
      if p.frameCounter.Some? {
        t := t.(frameCounter := p.frameCounter.value);
      }
    }

    method UpdateEntry(i: nat, p: Pairing, level: SecurityLevel) returns (traits: Traits)
      requires i < |table| && table[i].0 == p.gpd
      modifies `table
      ensures table == old(table)[i := (p.gpd, WithSink(old(table)[i].1, p, level))]
      ensures traits == Updated(old(table)[i].1.traits, p, level)
    {
      var e := UpdateLinks(table[i].1, p);
      traits := UpdateTraits(table[i].1.traits, p, level);
      assert e.(traits := traits) == WithSink(table[i].1, p, level);
      table := table[i := (p.gpd, e.(traits := traits))];
    }

    /** A GP Pairing command; a refusal is reported when the command was unicast. */
    method ReceivePairing(p: Pairing) returns (refused: Option<PairingError>)
      modifies `table, `commissioning
      ensures View() == OnPairing(capacity, old(View()), p)
      ensures refused ==
              if !Dropped(p) && !p.removeGpd && p.level.Some? && p.addSink then Refusal(capacity, old(table), p) else None
      ensures refused.Some? ==> table == old(table)
      ensures ValidTable(capacity, old(table)) ==>
                && ValidTable(capacity, table)
                && Registered(table) == if Dropped(p) then Registered(old(table)) else Register(capacity, Registered(old(table)), p)
    {
      hide ValidTable, Registered, Register;
      if ValidTable(capacity, table) {
        PairRefines(capacity, table, p);
      }
      refused := None;
      if Dropped(p) {
        return;
      }
      if commissioning.Some? && commissioning.value.exitOnFirstPairing {
        commissioning := None;
      }
      if p.removeGpd {
        if p.gpd.Ieee? && p.gpd.endpoint == ENDPOINT_ALL {
          RetainOtherDevices(p.gpd);
        } else {
          RemoveIdentity(p.gpd);
        }
        return;
      }
      if p.level.None? {
        return;
      }
      if !p.addSink {
        DropSinkOf(p);
        return;
      }
      if p.mode.FullUnicast? {
        refused := Some(InvalidField);
        return;
      }
      var i := Position(table, p.gpd);
      if i == |table| {
        if |table| >= capacity {
          refused := Some(InsufficientSpace);
          return;
        }
        table := table + [(p.gpd, NEW_ENTRY)];
      }
      var traits := UpdateEntry(i, p, p.level.value);
      ShareSecurity(p.gpd, traits);
    }

    // ----------------------------------------------------------------
    // Frames
    // ----------------------------------------------------------------

    method FindEntry(g: GpdId) returns (r: Option<(GpdId, ProxyEntry)>)
      ensures r == Find(table, g)
      ensures r.Some? ==> r.value in table && (r.value.0 == g || Matches(r.value.0, g))
      ensures r.None? ==> forall e :: e in table ==> e.0 != g && !Matches(e.0, g)
    {
      var i := Position(table, g);
      if i < |table| {
        return Some(table[i]);
      }
      i := 0;
      while i < |table| && !Matches(table[i].0, g)
        invariant i <= |table| && FirstMatch(table, g) == FirstMatch(table[i..], g)
        invariant forall j :: 0 <= j < i ==> !Matches(table[j].0, g)
      {
        i := i + 1;
      }
      return if i < |table| then Some(table[i]) else None;
    }

    method HasSeen(g: GpdId, counter: U32) returns (seen: bool)
      ensures seen == IsDuplicate(duplicates, g, counter)
    {
      for i := 0 to |duplicates|
        invariant forall j :: 0 <= j < i ==> !(SameDevice(duplicates[j].gpd, g) && duplicates[j].counter == counter)
      {
        if SameDevice(duplicates[i].gpd, g) && duplicates[i].counter == counter {
          return true;
        }
      }
      return false;
    }

    method RememberFrame(g: GpdId, counter: U32)
      modifies `duplicates
      ensures View() == Remember(old(View()), g, counter)
      ensures IsDuplicate(duplicates, g, counter)
    {
      var d := Duplicate(g, counter, After(now, DUPLICATE_TIMEOUT));
      if |duplicates| >= DUPLICATE_ENTRIES {
        duplicates := duplicates[1..];
      }
      duplicates := duplicates + [d];
      assert duplicates[|duplicates| - 1] == d;
    }

    method StoreFrameCounter(g: GpdId, counter: U32)
      modifies `table
      ensures View() == StoreCounter(old(View()), g, counter)
    {
      ghost var before := table;
      for i := 0 to |table|
        invariant |table| == |before|
        invariant forall j :: 0 <= j < i ==> table[j] == Heard(before, g, counter)[j]
        invariant forall j :: i <= j < |table| ==> table[j] == before[j]
      {
        var (k, e) := table[i];
        if SameDevice(k, g) {
          if Matches(k, g) {
            e := e.(traits := e.traits.(frameCounter := counter));
          }
          table := table[i := (k, e.(traits := e.traits.(inRange := true)))];
        }
      }
    }

    method SendToSinks(e: ProxyEntry, k: GpdId, f: Gpdf, n: Command)
      modifies `outgoing
      ensures outgoing == PushAll(old(outgoing), Messages(SinkReceivers(e.sinks), k, e.traits, f, now, n))
    {
      ghost var all := Messages(SinkReceivers(e.sinks), k, e.traits, f, now, n);
      for i := 0 to |e.sinks|
        invariant outgoing == PushAll(old(outgoing), all[..i])
      {
        Enqueue(Outgoing(ToSink(e.sinks[i].1), None, After(now, Dmin(f.rxAfterTx)), 0, n));
        assert all[..i + 1][..i] == all[..i];
      }
      assert all[..|all|] == all;
    }

    method SendToGroups(e: ProxyEntry, k: GpdId, f: Gpdf, n: Command)
      modifies `outgoing
      ensures outgoing == PushAll(old(outgoing), Messages(GroupReceivers(e.groups), k, e.traits, f, now, n))
    {
      ghost var all := Messages(GroupReceivers(e.groups), k, e.traits, f, now, n);
      for i := 0 to |e.groups|
        invariant outgoing == PushAll(old(outgoing), all[..i])
      {
        var (group, alias) := e.groups[i];
        var address := if alias == ALIAS_DERIVED then DerivedAlias(n.gpd) else alias;
        Enqueue(Outgoing(ToGroup(group), Some(Alias(address, MinusWrapping(f.macSequence, 9))), After(now, Dmin(f.rxAfterTx)), e.traits.radius, n));
        assert all[..i + 1][..i] == all[..i];
      }
      assert all[..|all|] == all;
    }

    /** Fans a notification out: unicast sinks, the derived group, then the commissioned groups. */
    method SendToAll(e: ProxyEntry, k: GpdId, f: Gpdf, n: Command)
      modifies `outgoing
      ensures outgoing == PushAll(old(outgoing), Messages(ReceiversInOrder(e), k, e.traits, f, now, n))
    {
      SendToSinks(e, k, f, n);
      ghost var derived: seq<Receiver> := [];
      if e.derivedGroup {
        derived := [DerivedReceiver];
        Enqueue(MessageTo(DerivedReceiver, k, e.traits, f, now, n));
      }
      MessagesJoin(old(outgoing), SinkReceivers(e.sinks), derived, k, e.traits, f, now, n);
      SendToGroups(e, k, f, n);
      MessagesJoin(old(outgoing), SinkReceivers(e.sinks) + derived, GroupReceivers(e.groups), k, e.traits, f, now, n);
    }

    method SendNotification(f: Gpdf, g: GpdId, o: Opened, rxAfterTx: bool, link: Octet)
      requires |o.payload| > 0
      modifies `outgoing
      ensures View() == Notify(config, old(View()), f, g, o, rxAfterTx, link)
    {
      var found := FindEntry(g);
      if found.None? {
        return;
      }
      var (k, e) := found.value;
      var n := NotificationOf(config, e, f, g, o, rxAfterTx, link);
      if EncodedLength(n) > MAX_PAYLOAD {
        return;
      }
      SendToAll(e, k, f, n);
    }

    method SendCommissioningNotification(n: Command, f: Gpdf)
      requires n.CommissioningNotification?
      modifies `outgoing
      ensures View() == SendCommissioning(old(View()), n, f)
    {
      if EncodedLength(n) > MAX_PAYLOAD {
        return;
      }
      var notBefore := After(now, Dmin(n.rxAfterTx));
      if commissioning.Some? && commissioning.value.unicastTo.Some? {
        Enqueue(Outgoing(ToSink(commissioning.value.unicastTo.value), None, notBefore, 0, n));
      } else {
        Enqueue(Outgoing(Broadcast, Some(Alias(DerivedAlias(n.gpd), MinusWrapping(f.macSequence, 12))), notBefore, 0, n));
      }
    }

    method NotifyOfCommissioning(f: Gpdf, g: GpdId, keyType: KeyType, failed: bool, payload: seq<Octet>, link: Octet)
      requires |payload| > 0
      modifies `outgoing
      ensures View() == NotifyCommissioning(config, old(View()), f, g, keyType, failed, payload, link)
    {
      var n := CommissioningNotification(g, f.rxAfterTx, f.level, keyType, failed, Counter(f), payload[0], payload[1..],
                                         (config.short, link), if failed then f.tag else None);
      SendCommissioningNotification(n, f);
    }

    method ReceiveMaintenance(f: Gpdf, link: Octet)
      requires |f.payload| > 0
      modifies `duplicates, `outgoing
      ensures View() == OnMaintenance(config, old(View()), f, link)
    {
      var cmd := f.payload[0];
      if IsToGpd(cmd) || commissioning.None? || away {
        return;
      }
      var seen := HasSeen(UNSPECIFIED, f.macSequence);
      if seen {
        return;
      }
      RememberFrame(UNSPECIFIED, f.macSequence);
      if |f.payload| > MAX_PAYLOAD {
        return;
      }
      var n := CommissioningNotification(UNSPECIFIED, cmd == CHANNEL_REQUEST, Unprotected, NoKey, false, f.macSequence,
                                         cmd, f.payload[1..], (config.short, link), None);
      SendCommissioningNotification(n, f);
    }

    /** Opens a frame with the entry's key, or a shared one for a device without an entry. */
    method Open(f: Gpdf, g: GpdId) returns (o: Opened)
      ensures o == Process(config, table, f, g)
    {
      if f.level.Unprotected? {
        return Opened(NoSecurity, NoKey, f.payload);
      }
      var failedType := if f.individualKey then Individual else NoKey;
      if f.frameCounter.None? || f.tag.None? {
        return Opened(Unprocessed, failedType, f.payload);
      }
      var counter := f.frameCounter.value;
      var found := FindEntry(g);
      var e: Option<ProxyEntry> := None;
      if found.Some? && found.value.1.active {
        e := Some(found.value.1);
        if Level(e.value) != f.level || IsIndividual(TypeOfKey(e.value)) != f.individualKey
           || (!Level(e.value).Unprotected? && counter <= e.value.traits.frameCounter) {
          return Opened(Unprocessed, failedType, f.payload);
        }
      }
      var k := ResolveKey(config, e, g, f.individualKey);
      if k.None? {
        return Opened(Unprocessed, failedType, f.payload);
      }
      var plain := Unprotect(k.value.0, f.level, g, counter, f.header, f.payload, f.tag.value);
      if plain.Some? {
        return Opened(Success, k.value.1, plain.value);
      }
      return Opened(AuthFailed, failedType, if f.level.EncryptedMic? then Zeroed(f.payload) else f.payload);
    }

    method Reject(f: Gpdf, g: GpdId, o: Opened, link: Octet)
      requires |f.payload| > 0
      modifies `duplicates, `outgoing
      ensures View() == RejectFrame(config, old(View()), f, g, o, link)
    {
      RememberFrame(g, Counter(f));
      NotifyOfCommissioning(f, g, o.keyType, true, f.payload, link);
    }

    method Commission(f: Gpdf, g: GpdId, o: Opened, link: Octet)
      requires |o.payload| > 0
      modifies `table, `duplicates, `outgoing
      ensures View() == CommissionFrame(config, old(View()), f, g, o, o.status.Success?, link)
    {
      RememberFrame(g, Counter(f));
      if o.status.Success? {
        StoreFrameCounter(g, Counter(f));
      }
      NotifyOfCommissioning(f, g, o.keyType, false, o.payload, link);
    }

    method Operate(f: Gpdf, g: GpdId, o: Opened, rxAfterTx: bool, link: Octet)
      requires |o.payload| > 0
      modifies `table, `duplicates, `outgoing
      ensures View() == OperateFrame(config, old(View()), f, g, o, rxAfterTx, link)
    {
      RememberFrame(g, Counter(f));
      StoreFrameCounter(g, Counter(f));
      SendNotification(f, g, o, rxAfterTx, link);
    }

    method Classify(f: Gpdf, g: GpdId, o: Opened) returns (r: Route)
      requires |o.payload| > 0
      ensures r == RouteOf(View(), f, g, o)
    {
      var cmd := o.payload[0];
      if o.status.Success? && IsToGpd(cmd) {
        return Ignored;
      }
      var found := FindEntry(g);
      var hasEntry := found.Some? && found.value.1.active;
      var forCommissioning := IsCommissioningFrame(f, cmd);
      if f.level.Unprotected? && hasEntry && !Level(found.value.1).Unprotected? && !(commissioning.Some? && forCommissioning) {
        return Ignored;
      }
      if o.status.AuthFailed? || o.status.Unprocessed? {
        return if commissioning.Some? && forCommissioning then Rejected else Ignored;
      }
      if forCommissioning {
        if cmd == COMMISSIONING && f.autoCommissioning {
          return Noted;
        }
        if f.autoCommissioning && f.rxAfterTx {
          return Noted;
        }
        if commissioning.Some? {
          return Commissioned(o.status.Success?);
        }
        if hasEntry && (cmd == COMMISSIONING || cmd == DECOMMISSIONING) && !f.autoCommissioning {
          return Operated(false);
        }
        return Noted;
      }
      return if hasEntry then Operated(f.rxAfterTx) else Noted;
    }

    method ReceiveData(f: Gpdf, link: Octet)
      requires Arrives(View(), f)
      modifies `table, `duplicates, `outgoing
      ensures View() == OnData(config, old(View()), f, link)
    {
      var g := f.gpd.value;
      var o := Open(f, g);
      var r := Classify(f, g, o);
      match r
      case Ignored =>
      case Noted => RememberFrame(g, Counter(f));
      case Rejected => Reject(f, g, o, link);
      case Commissioned(store) => Commission(f, g, o, link);
      case Operated(rxAfterTx) => Operate(f, g, o, rxAfterTx, link);
    }

    method ReceiveGpdf(f: Gpdf, link: Octet)
      modifies `table, `duplicates, `outgoing
      ensures View() == OnGpdf(config, old(View()), f, link)
      ensures old(outgoing) <= outgoing
    {
      ReceiveKeepsQueue(config, View(), f, link);
      if f.fromProxy || f.payload == [] {
        return;
      }
      if f.maintenance {
        ReceiveMaintenance(f, link);
        return;
      }
      if away || f.gpd.None? || !IsValid(f.gpd.value) {
        return;
      }
      if !f.level.EncryptedMic? && IsToGpd(f.payload[0]) {
        return;
      }
      var seen := HasSeen(f.gpd.value, Counter(f));
      if seen || |f.payload| > MAX_PAYLOAD {
        return;
      }
      ReceiveData(f, link);
    }
  }
}
