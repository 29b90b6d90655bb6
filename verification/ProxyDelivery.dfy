/**
 What the Basic Proxy guarantees: one notification for every paired receiver of an
 accepted frame and for nobody else, and, over whole runs, fresh counters and
 authenticated payloads for a device that is paired with security.
 */
module ProxyDelivery {
  import opened Types
  import opened GreenPower
  import opened Assoc
  import opened ProxyTable
  import opened Proxy

  // ------------------------------------------------------------------
  // The entry that answers
  // ------------------------------------------------------------------

  lemma {:induction false} FirstMatchMember(t: Table, g: GpdId)
    ensures FirstMatch(t, g).Some? ==> FirstMatch(t, g).value in t && Matches(FirstMatch(t, g).value.0, g)
    ensures FirstMatch(t, g).None? ==> forall x :: x in t ==> !Matches(x.0, g)
  {
    if t != [] && !Matches(t[0].0, g) {
      FirstMatchMember(t[1..], g);
      assert t == [t[0]] + t[1..];
    }
  }

  /** The exact identity answers when there is one, else some matching one. */
  lemma FindRegistered(t: Table, g: GpdId)
    requires DistinctKeys(t)
    ensures Find(t, g).None? ==> forall k :: k in Registered(t) ==> !Matches(k, g)
    ensures Find(t, g).Some? ==>
      var (k, e) := Find(t, g).value;
      && (k, e) in t && k in Registered(t)
      && Matches(k, g) && Abstract(e) == Registered(t)[k]
      && (g in Registered(t) ==> k == g)
  {
    ToMapPairs(t);
    IndexOfMember(t, g);
    FirstMatchMember(t, g);
    if IndexOf(t, g) < |t| {
      assert t[IndexOf(t, g)] in t;
    }
  }

  // ------------------------------------------------------------------
  // Fan-out
  // ------------------------------------------------------------------

  ghost function SinksOf(m: map<Address64, U16>): set<Receiver> {
    set i | i in m :: SinkReceiver(i, m[i])
  }

  ghost function GroupsOf(m: map<U16, U16>): set<Receiver> {
    set g | g in m :: GroupReceiver(g, m[g])
  }

  /** Who is paired, according to the abstract table. */
  ghost function Receivers(l: Links): set<Receiver> {
    SinksOf(l.sinks) + (if l.derived then {DerivedReceiver} else {}) + GroupsOf(l.groups)
  }

  /** Every member of the set, each once. */
  ghost predicate Enumerates<T(!new)>(s: seq<T>, all: set<T>) {
    && (forall i, j :: 0 <= i < j < |s| ==> s[i] != s[j])
    && (forall x :: x in s <==> x in all)
  }

  lemma EnumeratesBoth<T(!new)>(a: seq<T>, b: seq<T>, s: set<T>, t: set<T>)
    requires Enumerates(a, s) && Enumerates(b, t) && s !! t
    ensures Enumerates(a + b, s + t)
  {
    forall i, j | 0 <= i < j < |a + b|
      ensures (a + b)[i] != (a + b)[j]
    {
      if i < |a| <= j {
        assert a[i] in a && b[j - |a|] in b;
      }
    }
  }

  lemma SinksOnce(sinks: seq<(Address64, U16)>)
    requires DistinctKeys(sinks)
    ensures Enumerates(SinkReceivers(sinks), SinksOf(ToMap<Address64, U16>(sinks)))
  {
    ToMapPairs<Address64, U16>(sinks);
    var rs, m := SinkReceivers(sinks), ToMap<Address64, U16>(sinks);
    forall x | x in rs
      ensures x in SinksOf(m)
    {
      var i :| 0 <= i < |rs| && rs[i] == x;
      assert sinks[i] in sinks;
    }
    forall x | x in SinksOf(m)
      ensures x in rs
    {
      var i :| 0 <= i < |sinks| && sinks[i] == (x.ieee, x.short);
      assert rs[i] == x;
    }
  }

  lemma GroupsOnce(groups: seq<(U16, U16)>)
    requires DistinctKeys(groups)
    ensures Enumerates(GroupReceivers(groups), GroupsOf(ToMap<U16, U16>(groups)))
  {
    ToMapPairs<U16, U16>(groups);
    var rs, m := GroupReceivers(groups), ToMap<U16, U16>(groups);
    forall x | x in rs
      ensures x in GroupsOf(m)
    {
      var i :| 0 <= i < |rs| && rs[i] == x;
      assert groups[i] in groups;
    }
    forall x | x in GroupsOf(m)
      ensures x in rs
    {
      var i :| 0 <= i < |groups| && groups[i] == (x.group, x.alias);
      assert rs[i] == x;
    }
  }

  /** The sending order names every paired receiver once. */
  lemma ReceiversOnce(e: ProxyEntry)
    requires ValidEntry(e)
    ensures Enumerates(ReceiversInOrder(e), Receivers(Abstract(e)))
    ensures |ReceiversInOrder(e)| <= SINK_CAPACITY + 1 + GROUP_CAPACITY
  {
    SinksOnce(e.sinks);
    GroupsOnce(e.groups);
    var l := Abstract(e);
    var derived := if e.derivedGroup then [DerivedReceiver] else [];
    EnumeratesBoth(SinkReceivers(e.sinks), derived, SinksOf(l.sinks), if l.derived then {DerivedReceiver} else {});
    EnumeratesBoth(SinkReceivers(e.sinks) + derived, GroupReceivers(e.groups),
                   SinksOf(l.sinks) + (if l.derived then {DerivedReceiver} else {}), GroupsOf(l.groups));
  }

  lemma {:induction false} PushAllPrefix(q: seq<Outgoing>, os: seq<Outgoing>)
    ensures q <= PushAll(q, os)
    ensures forall o :: o in PushAll(q, os)[|q|..] ==> o in os
    ensures |q| + |os| <= QUEUE_CAPACITY ==> PushAll(q, os) == q + os
  {
    if os != [] {
      PushAllPrefix(q, os[..|os| - 1]);
      assert os == os[..|os| - 1] + [os[|os| - 1]];
    }
  }

  lemma NotifyKeepsQueue(c: Config, s: State, f: Gpdf, g: GpdId, o: Opened, rxAfterTx: bool, link: Octet)
    requires |o.payload| > 0
    ensures s.outgoing <= Notify(c, s, f, g, o, rxAfterTx, link).outgoing
  {
    hide Find, NotificationOf, MessageTo;
    if Find(s.table, g).Some? {
      var (k, e) := Find(s.table, g).value;
      PushAllPrefix(s.outgoing, Messages(ReceiversInOrder(e), k, e.traits, f, s.now, NotificationOf(c, e, f, g, o, rxAfterTx, link)));
    }
  }

  /** Whatever frame comes in, nothing that waits to be sent is lost or overtaken. */
  lemma ReceiveKeepsQueue(c: Config, s: State, f: Gpdf, link: Octet)
    ensures s.outgoing <= OnGpdf(c, s, f, link).outgoing
  {
    hide Process, Notify, Heard;
    if !f.fromProxy && !f.maintenance && Arrives(s, f) {
      var g := f.gpd.value;
      var o := Process(c, s.table, f, g);
      var r := RouteOf(s, f, g, o);
      if r.Operated? {
        NotifyKeepsQueue(c, StoreCounter(Remember(s, g, Counter(f)), g, Counter(f)), f, g, o, r.rxAfterTx, link);
      }
    }
  }

  /** A frame as its device meant it: what the integrity code covers, or the bare payload. */
  function Plain(f: Gpdf): seq<Octet> {
    if f.level.Unprotected? then f.payload
    else if f.tag.Some? then f.tag.value.plain
    else []
  }

  /** What a key type stands for where no key was handed out. */
  function GivenKey(c: Config, t: KeyType, g: GpdId): Option<Key> {
    if t.NwkKey? then c.nwkKey
    else if t.GroupKey? then c.sharedKey
    else if t.NwkDerivedGroupKey? && c.nwkKey.Some? then Some(GroupKeyOf(c.nwkKey.value))
    else if t.DerivedIndividual? && c.sharedKey.Some? then Some(IndividualKeyOf(c.sharedKey.value, IdBits(g)))
    else None
  }

  /** The key type in use: a device paired without one uses the shared type, for shared keys only. */
  function KeyTypeInUse(c: Config, sec: Security, individual: bool): KeyType {
    if sec.keyType.NoKey? && !individual then c.sharedKeyType else sec.keyType
  }

  /** The key a device seals with: the one it was paired with, unless it uses the network key. */
  function DeviceKey(c: Config, sec: Security, g: GpdId, individual: bool): Option<Key> {
    var t := KeyTypeInUse(c, sec, individual);
    if t.NoKey? || IsIndividual(t) != individual then None
    else if sec.key.Some? && !t.NwkKey? then sec.key
    else GivenKey(c, t, g)
  }

  /** The key recovered for an entry is the one its device seals with. */
  lemma KeyIsRecovered(c: Config, e: ProxyEntry, g: GpdId, individual: bool)
    requires e.traits.security.Some?
    ensures var sec := e.traits.security.value;
            var key := DeviceKey(c, sec, g, individual);
            ResolveKey(c, Some(e), g, individual)
            == if key.Some? then Some((key.value, KeyTypeInUse(c, sec, individual))) else None
  {
  }

  /** The frame was sealed for this entry: right level and key, and newer than the last. */
  predicate Sealed(c: Config, e: ProxyEntry, f: Gpdf, g: GpdId) {
    && e.traits.security.Some? && var sec := e.traits.security.value;
    && sec.level == f.level && IsIndividual(sec.keyType) == f.individualKey
    && f.frameCounter.Some? && f.frameCounter.value > e.traits.frameCounter
    && var key := DeviceKey(c, sec, g, f.individualKey);
    && key.Some? && f.tag.Some?
    && f.tag.value == Tag(key.value, f.level, g, f.frameCounter.value, f.header, f.payload, Plain(f))
    && Carries(f.level, f.payload, Plain(f))
  }

  predicate Genuine(c: Config, e: ProxyEntry, f: Gpdf, g: GpdId) {
    if f.level.Unprotected? then Level(e).Unprotected? else Sealed(c, e, f, g)
  }

  /** A frame that operational mode tunnels: paired, genuine, not seen before and not reserved. */
  predicate Deliverable(c: Config, s: State, f: Gpdf) {
    && !f.fromProxy && !f.maintenance && !s.away
    && f.gpd.Some? && IsValid(f.gpd.value)
    && 0 < |f.payload| <= MAX_PAYLOAD
    && !IsDuplicate(s.duplicates, f.gpd.value, Counter(f))
    && Find(s.table, f.gpd.value).Some?
    && Genuine(c, Find(s.table, f.gpd.value).value.1, f, f.gpd.value)
    && |Plain(f)| > 0
    && var cmd := Plain(f)[0];
    && !IsToGpd(cmd)
    && (IsCommissioningFrame(f, cmd) ==> (cmd == COMMISSIONING || cmd == DECOMMISSIONING) && !f.autoCommissioning)
    && 10 + IdLength(f.gpd.value) + |Plain(f)| <= MAX_PAYLOAD
  }

  lemma ProcessSealed(c: Config, t: Table, f: Gpdf, g: GpdId)
    requires ActiveEntry(t, g).Some? && !f.level.Unprotected?
    ensures Process(c, t, f, g).status.Success? <==> Sealed(c, ActiveEntry(t, g).value, f, g)
    ensures Process(c, t, f, g).status.Success? ==>
              && Process(c, t, f, g).payload == Plain(f)
              && Process(c, t, f, g).keyType == KeyTypeInUse(c, ActiveEntry(t, g).value.traits.security.value, f.individualKey)
  {
    var e := ActiveEntry(t, g).value;
    if e.traits.security.Some? {
      KeyIsRecovered(c, e, g, f.individualKey);
    }
  }

  lemma ValidActive(capacity: nat, t: Table, g: GpdId)
    requires ValidTable(capacity, t)
    ensures ActiveEntry(t, g) == if Find(t, g).Some? then Some(Find(t, g).value.1) else None
    ensures Find(t, g).Some? ==> ValidEntry(Find(t, g).value.1)
  {
    FindRegistered(t, g);
  }

  predicate Operates(c: Config, s: State, f: Gpdf) {
    && !f.fromProxy && !f.maintenance && Arrives(s, f)
    && RouteOf(s, f, f.gpd.value, Process(c, s.table, f, f.gpd.value)).Operated?
  }

  function Oversized(f: Gpdf): bool
    requires f.gpd.Some?
  {
    10 + IdLength(f.gpd.value) + |f.payload| > MAX_PAYLOAD
  }

  /** In operational mode exactly the deliverable frames (and oversized ones) reach fan-out. */
  lemma OperatesExactly(c: Config, capacity: nat, s: State, f: Gpdf)
    requires ValidTable(capacity, s.table) && s.commissioning.None?
    ensures Deliverable(c, s, f) <==> Operates(c, s, f) && !Oversized(f)
    ensures Operates(c, s, f) ==> Process(c, s.table, f, f.gpd.value).payload == Plain(f)
  {
    if f.gpd.Some? {
      var g := f.gpd.value;
      ValidActive(capacity, s.table, g);
      if ActiveEntry(s.table, g).Some? && !f.level.Unprotected? {
        ProcessSealed(c, s.table, f, g);
      }
    }
  }

  lemma HeardKeepsReceivers(t: Table, g: GpdId, h: GpdId, counter: U32)
    requires Find(t, g).Some?
    ensures var (k, e), h := Find(t, g).value, Find(Heard(t, h, counter), g);
            h.Some? && h.value.0 == k && ReceiversInOrder(h.value.1) == ReceiversInOrder(e)
            && EntryAlias(k, h.value.1.traits) == EntryAlias(k, e.traits) && h.value.1.traits.radius == e.traits.radius
            && h.value.1.sinks == e.sinks && h.value.1.derivedGroup == e.derivedGroup && h.value.1.groups == e.groups
  {
    FirstMatchHeard(t, h, counter, g);
  }

  lemma {:induction false} FirstMatchHeard(t: Table, h: GpdId, counter: U32, g: GpdId)
    ensures var (a, b) := (FirstMatch(t, g), FirstMatch(Heard(t, h, counter), g));
            a.Some? == b.Some? && (a.Some? ==> b.value == (a.value.0, Hearing(h, counter)(a.value.0, a.value.1)))
  {
    if t != [] {
      FirstMatchHeard(t[1..], h, counter, g);
      assert Heard(t, h, counter)[1..] == Heard(t[1..], h, counter);
    }
  }

  lemma OperatedNotifies(c: Config, s: State, f: Gpdf, link: Octet)
    requires Operates(c, s, f)
    ensures var g := f.gpd.value;
            var o := Process(c, s.table, f, g);
            OnGpdf(c, s, f, link)
            == Notify(c, StoreCounter(Remember(s, g, Counter(f)), g, Counter(f)), f, g, o, RouteOf(s, f, g, o).rxAfterTx, link)
  {
  }

  lemma NotifySends(c: Config, s: State, f: Gpdf, g: GpdId, o: Opened, rxAfterTx: bool, link: Octet, k: GpdId, e: ProxyEntry)
    requires |o.payload| > 0 && s.outgoing == [] && Find(s.table, g) == Some((k, e)) && |ReceiversInOrder(e)| <= QUEUE_CAPACITY
    ensures var n := NotificationOf(c, e, f, g, o, rxAfterTx, link);
            Notify(c, s, f, g, o, rxAfterTx, link).outgoing
            == if EncodedLength(n) > MAX_PAYLOAD then [] else Messages(ReceiversInOrder(e), k, e.traits, f, s.now, n)
  {
    PushAllPrefix([], Messages(ReceiversInOrder(e), k, e.traits, f, s.now, NotificationOf(c, e, f, g, o, rxAfterTx, link)));
  }

  /** What fan-out puts into an empty queue. */
  lemma OperatedSends(c: Config, capacity: nat, s: State, f: Gpdf, link: Octet)
    requires ValidTable(capacity, s.table) && s.outgoing == [] && Operates(c, s, f)
    ensures Find(s.table, f.gpd.value).Some?
    ensures var (k, e) := Find(s.table, f.gpd.value).value;
            var o := Process(c, s.table, f, f.gpd.value);
            var n := NotificationOf(c, e, f, f.gpd.value, o, RouteOf(s, f, f.gpd.value, o).rxAfterTx, link);
            OnGpdf(c, s, f, link).outgoing == if Oversized(f) then [] else Messages(ReceiversInOrder(e), k, e.traits, f, s.now, n)
  {
    var g := f.gpd.value;
    ValidActive(capacity, s.table, g);
    var (k, e) := Find(s.table, g).value;
    ReceiversOnce(e);
    HeardKeepsReceivers(s.table, g, g, Counter(f));
    var o := Process(c, s.table, f, g);
    var rx := RouteOf(s, f, g, o).rxAfterTx;
    OperatedNotifies(c, s, f, link);
    var s1 := StoreCounter(Remember(s, g, Counter(f)), g, Counter(f));
    var (k', e') := Find(s1.table, g).value;
    NotifySends(c, s1, f, g, o, rx, link, k', e');
    SameMessages(ReceiversInOrder(e), k, e.traits, e'.traits, f, s.now, NotificationOf(c, e, f, g, o, rx, link));
  }

  lemma SameMessages(rs: seq<Receiver>, k: GpdId, t: Traits, t': Traits, f: Gpdf, now: Instant, n: Command)
    requires EntryAlias(k, t) == EntryAlias(k, t') && t.radius == t'.radius
    ensures Messages(rs, k, t, f, now, n) == Messages(rs, k, t', f, now, n)
  {
  }

  /** With the queue empty, an accepted operational frame sends its notification once to every
      receiver paired with its device, and a frame that is not deliverable sends nothing. */
  lemma AcceptedReachesEveryReceiver(c: Config, capacity: nat, s: State, f: Gpdf, link: Octet)
    requires ValidTable(capacity, s.table) && s.commissioning.None? && s.outgoing == []
    ensures !Deliverable(c, s, f) ==> OnGpdf(c, s, f, link).outgoing == []
    ensures Deliverable(c, s, f) ==>
      var (k, e) := Find(s.table, f.gpd.value).value;
      exists rs: seq<Receiver>, n: Command ::
        && k in Registered(s.table) && Enumerates(rs, Receivers(Registered(s.table)[k]))
        && n.Notification? && n.gpd == f.gpd.value && n.counter == Counter(f) && n.level == f.level
        && [n.commandId] + n.payload == Plain(f)
        && OnGpdf(c, s, f, link).outgoing == Messages(rs, k, e.traits, f, s.now, n)
  {
    OperatesExactly(c, capacity, s, f);
    if Operates(c, s, f) {
      OperatedSends(c, capacity, s, f, link);
      var g := f.gpd.value;
      ValidActive(capacity, s.table, g);
      FindRegistered(s.table, g);
      var (k, e) := Find(s.table, g).value;
      ReceiversOnce(e);
      var o := Process(c, s.table, f, g);
      var n := NotificationOf(c, e, f, g, o, RouteOf(s, f, g, o).rxAfterTx, link);
      assert [n.commandId] + n.payload == o.payload;
    }
  }
}
