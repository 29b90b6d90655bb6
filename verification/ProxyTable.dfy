/**
 The Green Power Proxy Table: what GP Pairing commands make of it, entry by entry
 and in order, and the abstract table it stands for.
 */
module ProxyTable {
  import opened Types
  import opened Collections
  import opened GreenPower
  import opened Assoc

  const SINK_CAPACITY: nat := 2
  const GROUP_CAPACITY: nat := 2
  /** Alias of a commissioned group that stands for the derived one. */
  const ALIAS_DERIVED: U16 := 0xFFFF

  datatype Security = Security(level: SecurityLevel, keyType: KeyType, key: Option<Key>)

  /** What an entry records about its device besides the sinks. */
  datatype Traits = Traits(
    gpdFixed: bool, sequenceCapable: bool, inRange: bool, assignedAlias: Option<U16>, radius: Octet,
    security: Option<Security>, frameCounter: U32)

  datatype ProxyEntry = ProxyEntry(
    active: bool, valid: bool, searchCounter: Octet,
    sinks: seq<(Address64, U16)>, derivedGroup: bool, groups: seq<(U16, U16)>, traits: Traits)

  const NEW_TRAITS := Traits(false, false, false, None, 0, None, 0)
  const NEW_ENTRY := ProxyEntry(true, true, 0, [], false, [], NEW_TRAITS)

  /** Entries in index order, each under its identity. */
  type Table = seq<(GpdId, ProxyEntry)>

  predicate HasNoSink(e: ProxyEntry) {
    e.sinks == [] && !e.derivedGroup && e.groups == []
  }

  function Level(e: ProxyEntry): SecurityLevel {
    if e.traits.security.Some? then e.traits.security.value.level else Unprotected
  }

  function TypeOfKey(e: ProxyEntry): KeyType {
    if e.traits.security.Some? then e.traits.security.value.keyType else NoKey
  }

  /** The entry answering for `g`: the exact identity first, else the first that matches. */
  function Find(t: Table, g: GpdId): Option<(GpdId, ProxyEntry)> {
    var i := IndexOf(t, g);
    if i < |t| then Some(t[i]) else FirstMatch(t, g)
  }

  function FirstMatch(t: Table, g: GpdId): Option<(GpdId, ProxyEntry)> {
    if t == [] then None
    else if Matches(t[0].0, g) then Some(t[0])
    else FirstMatch(t[1..], g)
  }

  // ------------------------------------------------------------------
  // GP Pairing
  // ------------------------------------------------------------------

  predicate Dropped(p: Pairing) {
    IsZero(p.gpd) || (p.addSink && p.removeGpd)
  }

  function MergedRadius(kept: Octet, r: Octet): Octet {
    if kept == 0 then r else if kept < r then r else kept
  }

  function MergedSecurity(e: Option<Security>, p: Pairing, level: SecurityLevel): Option<Security> {
    if level.Unprotected? && p.keyType.NoKey? then None
    else
      var kept := if e.Some? then e.value.key else None;
      Some(Security(level, p.keyType, if p.key.Some? then p.key else kept))
  }

  /** The newest pairing decides; the radius only grows, and an absent key or counter stays. */
  function Updated(t: Traits, p: Pairing, level: SecurityLevel): Traits {
    Traits(p.gpdFixed, p.sequenceCapable, t.inRange,
           if !p.mode.CommissionedGroupcast? && p.assignedAlias.Some? then p.assignedAlias else t.assignedAlias,
           if p.radius.Some? then MergedRadius(t.radius, p.radius.value) else t.radius,
           MergedSecurity(t.security, p, level),
           if p.frameCounter.Some? then p.frameCounter.value else t.frameCounter)
  }

  predicate NamesSink(p: Pairing) {
    p.mode.LightweightUnicast? && p.sink.Some? && p.sink.value.Unicast?
  }

  predicate NamesGroup(p: Pairing) {
    p.mode.CommissionedGroupcast? && p.sink.Some? && p.sink.value.Group?
  }

  function GroupAlias(p: Pairing): U16 {
    if p.assignedAlias.Some? then p.assignedAlias.value else ALIAS_DERIVED
  }

  /** The entry after a sink was added. */
  function WithSink(e: ProxyEntry, p: Pairing, level: SecurityLevel): ProxyEntry {
    ProxyEntry(true, true, e.searchCounter,
               if NamesSink(p) then Put<Address64, U16>(e.sinks, p.sink.value.ieee, p.sink.value.short, SINK_CAPACITY) else e.sinks,
               e.derivedGroup || p.mode.DerivedGroupcast?,
               if NamesGroup(p) then Put<U16, U16>(e.groups, p.sink.value.group, GroupAlias(p), GROUP_CAPACITY) else e.groups,
               Updated(e.traits, p, level))
  }

  /** The entry after a sink was removed. */
  function WithoutSink(e: ProxyEntry, p: Pairing): ProxyEntry {
    if NamesSink(p) then
      e.(sinks := Without<Address64, U16>(e.sinks, {p.sink.value.ieee}))
    else if p.mode.DerivedGroupcast? then e.(derivedGroup := false)
    else if NamesGroup(p) then
      e.(groups := Without<U16, U16>(e.groups, {p.sink.value.group}))
    else e
  }

  function Secured(t: Traits, from: Traits): Traits {
    t.(security := from.security, frameCounter := from.frameCounter)
  }

  function Sharing(g: GpdId, from: Traits): (GpdId, ProxyEntry) -> ProxyEntry {
    (k: GpdId, e: ProxyEntry) => if SameDevice(k, g) && k != g then e.(traits := Secured(e.traits, from)) else e
  }

  /** All entries of a device take over the security fields of one of them. */
  function Shared(t: Table, g: GpdId, from: Traits): Table {
    MapValues(t, Sharing(g, from))
  }

  /** The identities in the table that belong to the device of `g`. */
  function SiblingIds(t: Table, g: GpdId): set<GpdId> {
    set e | e in t && SameDevice(e.0, g) :: e.0
  }

  function Remove(t: Table, g: GpdId): Table {
    Without(t, {g})
  }

  function RemoveDevice(t: Table, g: GpdId): Table {
    Without(t, SiblingIds(t, g))
  }

  datatype PairingError = InvalidField | InsufficientSpace

  function RemoveGpd(t: Table, g: GpdId): Table {
    if g.Ieee? && g.endpoint == ENDPOINT_ALL then RemoveDevice(t, g) else Remove(t, g)
  }

  function RemoveSink(t: Table, p: Pairing): Table {
    var i := IndexOf(t, p.gpd);
    if i == |t| then t
    else
      var e := WithoutSink(t[i].1, p);
      if HasNoSink(e) then Remove(t, p.gpd) else t[i := (p.gpd, e)]
  }

  function AddSink(t: Table, p: Pairing, level: SecurityLevel): Table {
    var i := IndexOf(t, p.gpd);
    var t1 := if i == |t| then t + [(p.gpd, NEW_ENTRY)] else t;
    var e := WithSink(t1[i].1, p, level);
    Shared(t1[i := (p.gpd, e)], p.gpd, e.traits)
  }

  /** Whether, and why, an AddSink cannot be honoured. */
  function Refusal(capacity: nat, t: Table, p: Pairing): Option<PairingError> {
    if p.mode.FullUnicast? then Some(InvalidField)
    else if IndexOf(t, p.gpd) == |t| && |t| >= capacity then Some(InsufficientSpace)
    else None
  }

  /** What a GP Pairing asks for: no change, the device gone, a sink gone or a sink added. */
  datatype Action = Keep | DropDevice | DropSink | NewSink

  function ActionOf(p: Pairing, refused: bool): Action {
    if Dropped(p) then Keep
    else if p.removeGpd then DropDevice
    else if p.level.None? then Keep
    else if !p.addSink then DropSink
    else if refused then Keep
    else NewSink
  }

  /** What a GP Pairing makes of the table. */
  function Pair(capacity: nat, t: Table, p: Pairing): Table {
    match ActionOf(p, Refusal(capacity, t, p).Some?)
    case Keep => t
    case DropDevice => RemoveGpd(t, p.gpd)
    case DropSink => RemoveSink(t, p)
    case NewSink => AddSink(t, p, p.level.value)
  }

  function HeardTraits(k: GpdId, t: Traits, g: GpdId, counter: U32): Traits {
    t.(inRange := true, frameCounter := if Matches(k, g) then counter else t.frameCounter)
  }

  function Hearing(g: GpdId, counter: U32): (GpdId, ProxyEntry) -> ProxyEntry {
    (k: GpdId, e: ProxyEntry) =>
      if SameDevice(k, g) then e.(traits := HeardTraits(k, e.traits, g, counter)) else e
  }

  /** An accepted frame's counter is stored in every entry that answers for it. */
  function Heard(t: Table, g: GpdId, counter: U32): Table {
    MapValues(t, Hearing(g, counter))
  }

  // ------------------------------------------------------------------
  // The table it stands for
  // ------------------------------------------------------------------

  /** One device identity in the abstract table: who is paired with it, and its traits. */
  datatype Links = Links(sinks: map<Address64, U16>, derived: bool, groups: map<U16, U16>, traits: Traits)

  const NO_LINKS := Links(map[], false, map[], NEW_TRAITS)

  type Registry = map<GpdId, Links>

  ghost function Adopt<K, V>(m: map<K, V>, k: K, v: V, capacity: nat): map<K, V> {
    if k in m || |m| < capacity then m[k := v] else m
  }

  /** What adding a sink means: the link, and the newest traits. */
  ghost function Linked(l: Links, p: Pairing): Links
    requires p.level.Some?
  {
    Links(if NamesSink(p) then Adopt<Address64, U16>(l.sinks, p.sink.value.ieee, p.sink.value.short, SINK_CAPACITY) else l.sinks,
          l.derived || p.mode.DerivedGroupcast?,
          if NamesGroup(p) then Adopt<U16, U16>(l.groups, p.sink.value.group, GroupAlias(p), GROUP_CAPACITY) else l.groups,
          Updated(l.traits, p, p.level.value))
  }

  ghost function Unlinked(l: Links, p: Pairing): Links {
    if NamesSink(p) then l.(sinks := l.sinks - {p.sink.value.ieee})
    else if p.mode.DerivedGroupcast? then l.(derived := false)
    else if NamesGroup(p) then l.(groups := l.groups - {p.sink.value.group})
    else l
  }

  predicate NoLinks(l: Links) {
    l.sinks == map[] && !l.derived && l.groups == map[]
  }

  ghost function SharedIn(m: Registry, g: GpdId, from: Traits): Registry {
    map k | k in m :: if SameDevice(k, g) && k != g then m[k].(traits := Secured(m[k].traits, from)) else m[k]
  }

  ghost function UnregisterGpd(m: Registry, g: GpdId): Registry {
    if g.Ieee? && g.endpoint == ENDPOINT_ALL then map k | k in m && !SameDevice(k, g) :: m[k] else m - {g}
  }

  ghost function UnregisterSink(m: Registry, p: Pairing): Registry {
    if p.gpd !in m then m
    else if NoLinks(Unlinked(m[p.gpd], p)) then m - {p.gpd}
    else m[p.gpd := Unlinked(m[p.gpd], p)]
  }

  ghost function RegisterSink(m: Registry, p: Pairing): Registry
    requires p.level.Some?
  {
    var l := Linked(if p.gpd in m then m[p.gpd] else NO_LINKS, p);
    SharedIn(m[p.gpd := l], p.gpd, l.traits)
  }

  /** Replays one command on the abstract table. */
  ghost function Register(capacity: nat, m: Registry, p: Pairing): Registry {
    match ActionOf(p, p.mode.FullUnicast? || (p.gpd !in m && |m| >= capacity))
    case Keep => m
    case DropDevice => UnregisterGpd(m, p.gpd)
    case DropSink => UnregisterSink(m, p)
    case NewSink => RegisterSink(m, p)
  }

  /** Replays the counter of an accepted frame. */
  ghost function RegisterHeard(m: Registry, g: GpdId, counter: U32): Registry {
    map k | k in m :: if SameDevice(k, g) then m[k].(traits := HeardTraits(k, m[k].traits, g, counter)) else m[k]
  }

  ghost function Abstract(e: ProxyEntry): Links {
    Links(ToMap<Address64, U16>(e.sinks), e.derivedGroup, ToMap<U16, U16>(e.groups), e.traits)
  }

  ghost function Registered(t: Table): Registry {
    map g | g in ToMap(t) :: Abstract(ToMap(t)[g])
  }

  ghost predicate ValidEntry(e: ProxyEntry) {
    && e.active && e.valid
    && DistinctKeys(e.sinks) && |e.sinks| <= SINK_CAPACITY
    && DistinctKeys(e.groups) && |e.groups| <= GROUP_CAPACITY
  }

  ghost predicate ValidTable(capacity: nat, t: Table) {
    && |t| <= capacity && DistinctKeys(t)
    && (forall e :: e in t ==> ValidEntry(e.1))
  }

  // ------------------------------------------------------------------
  // Refinement
  // ------------------------------------------------------------------

  lemma WithSinkRefines(e: ProxyEntry, p: Pairing)
    requires p.level.Some? && ValidEntry(e)
    ensures ValidEntry(WithSink(e, p, p.level.value))
    ensures Abstract(WithSink(e, p, p.level.value)) == Linked(Abstract(e), p)
  {
    if NamesSink(p) {
      PutMap<Address64, U16>(e.sinks, p.sink.value.ieee, p.sink.value.short, SINK_CAPACITY);
    }
    if NamesGroup(p) {
      PutMap<U16, U16>(e.groups, p.sink.value.group, GroupAlias(p), GROUP_CAPACITY);
    }
  }

  lemma WithoutSinkRefines(e: ProxyEntry, p: Pairing)
    requires ValidEntry(e)
    ensures ValidEntry(WithoutSink(e, p))
    ensures Abstract(WithoutSink(e, p)) == Unlinked(Abstract(e), p)
    ensures HasNoSink(WithoutSink(e, p)) <==> NoLinks(Abstract(WithoutSink(e, p)))
  {
    if NamesSink(p) {
      WithoutMap<Address64, U16>(e.sinks, {p.sink.value.ieee});
    } else if NamesGroup(p) {
      WithoutMap<U16, U16>(e.groups, {p.sink.value.group});
    }
    EmptyRefines(WithoutSink(e, p));
  }

  lemma EmptyRefines(e: ProxyEntry)
    requires ValidEntry(e)
    ensures HasNoSink(e) <==> NoLinks(Abstract(e))
  {
    ToMapPairs<Address64, U16>(e.sinks);
    ToMapPairs<U16, U16>(e.groups);
  }

  lemma RemoveRefines(capacity: nat, t: Table, drop: set<GpdId>)
    requires ValidTable(capacity, t)
    ensures ValidTable(capacity, Without(t, drop))
    ensures Registered(Without(t, drop)) == Registered(t) - drop
  {
    WithoutMap(t, drop);
    ToMapPairs(t);
  }

  lemma SiblingsInMap(t: Table, g: GpdId)
    requires DistinctKeys(t)
    ensures forall k :: k in Registered(t) ==> (k in SiblingIds(t, g) <==> SameDevice(k, g))
  {
    ToMapPairs(t);
    forall k | k in Registered(t) && SameDevice(k, g)
      ensures k in SiblingIds(t, g)
    {
      assert (k, ToMap(t)[k]) in t;
    }
  }

  lemma SharedValid(capacity: nat, t: Table, g: GpdId, from: Traits)
    requires ValidTable(capacity, t)
    ensures ValidTable(capacity, Shared(t, g, from))
  {
    var r := Shared(t, g, from);
    forall x | x in r
      ensures ValidEntry(x.1)
    {
      var i :| 0 <= i < |r| && r[i] == x;
      assert t[i] in t;
    }
  }

  lemma SharedRefines(t: Table, g: GpdId, from: Traits)
    requires DistinctKeys(t)
    ensures Registered(Shared(t, g, from)) == SharedIn(Registered(t), g, from)
  {
    hide ToMap, MapValues;
    MapValuesMap(t, Sharing(g, from));
    var m, m' := ToMap(t), ToMap(Shared(t, g, from));
    forall k | k in m
      ensures k in m' && Abstract(m'[k]) == SharedIn(Registered(t), g, from)[k]
    {
    }
  }

  lemma PutRefines(capacity: nat, t: Table, i: nat, e: ProxyEntry)
    requires ValidTable(capacity, t) && i < |t| && ValidEntry(e)
    ensures ValidTable(capacity, t[i := (t[i].0, e)])
    ensures Registered(t[i := (t[i].0, e)]) == Registered(t)[t[i].0 := Abstract(e)]
  {
    ToMapUpdate(t, i, e);
    assert forall x :: x in t[i := (t[i].0, e)] ==> x in t || x == (t[i].0, e);
  }

  lemma InsertRefines(capacity: nat, t: Table, g: GpdId)
    requires ValidTable(capacity, t) && |t| < capacity && IndexOf(t, g) == |t|
    ensures ValidTable(capacity, t + [(g, NEW_ENTRY)])
    ensures Registered(t + [(g, NEW_ENTRY)]) == Registered(t)[g := NO_LINKS]
  {
    IndexOfMember(t, g);
    ToMapAppend(t, g, NEW_ENTRY);
    assert Abstract(NEW_ENTRY) == NO_LINKS;
  }

  lemma RegisteredAt(t: Table, g: GpdId)
    requires DistinctKeys(t)
    ensures IndexOf(t, g) < |t| <==> g in Registered(t)
    ensures g in Registered(t) ==> Registered(t)[g] == Abstract(t[IndexOf(t, g)].1)
    ensures |Registered(t)| == |t|
  {
    IndexOfMember(t, g);
    ToMapPairs(t);
    assert Registered(t).Keys == ToMap(t).Keys;
  }

  /** The table with an entry for `g`, new if need be, and where it is. */
  lemma EnsureRefines(capacity: nat, t: Table, g: GpdId, l: Links)
    requires ValidTable(capacity, t)
    requires IndexOf(t, g) < |t| || |t| < capacity
    ensures var i := IndexOf(t, g);
            var t1 := if i == |t| then t + [(g, NEW_ENTRY)] else t;
            && ValidTable(capacity, t1) && t1[i].0 == g && ValidEntry(t1[i].1)
            && Abstract(t1[i].1) == (if g in Registered(t) then Registered(t)[g] else NO_LINKS)
            && Registered(t1)[g := l] == Registered(t)[g := l]
  {
    RegisteredAt(t, g);
    var i := IndexOf(t, g);
    if i == |t| {
      InsertRefines(capacity, t, g);
      assert Abstract(NEW_ENTRY) == NO_LINKS;
    } else {
      assert t[i] in t;
    }
  }

  lemma AddSinkRefines(capacity: nat, t: Table, p: Pairing)
    requires ValidTable(capacity, t) && p.level.Some?
    requires IndexOf(t, p.gpd) < |t| || |t| < capacity
    ensures ValidTable(capacity, AddSink(t, p, p.level.value))
    ensures Registered(AddSink(t, p, p.level.value)) == RegisterSink(Registered(t), p)
  {
    var i := IndexOf(t, p.gpd);
    RegisteredAt(t, p.gpd);
    EnsureRefines(capacity, t, p.gpd, Linked(if p.gpd in Registered(t) then Registered(t)[p.gpd] else NO_LINKS, p));
    var t1 := if i == |t| then t + [(p.gpd, NEW_ENTRY)] else t;
    var e := WithSink(t1[i].1, p, p.level.value);
    WithSinkRefines(t1[i].1, p);
    PutRefines(capacity, t1, i, e);
    SharedValid(capacity, t1[i := (p.gpd, e)], p.gpd, e.traits);
    SharedRefines(t1[i := (p.gpd, e)], p.gpd, e.traits);
  }

  lemma RemoveSinkRefines(capacity: nat, t: Table, p: Pairing)
    requires ValidTable(capacity, t)
    ensures ValidTable(capacity, RemoveSink(t, p))
    ensures Registered(RemoveSink(t, p)) == UnregisterSink(Registered(t), p)
  {
    var i := IndexOf(t, p.gpd);
    RegisteredAt(t, p.gpd);
    if i < |t| {
      assert t[i] in t;
      WithoutSinkRefines(t[i].1, p);
      RemoveRefines(capacity, t, {p.gpd});
      PutRefines(capacity, t, i, WithoutSink(t[i].1, p));
    }
  }

  lemma RemoveGpdRefines(capacity: nat, t: Table, g: GpdId)
    requires ValidTable(capacity, t)
    ensures ValidTable(capacity, RemoveGpd(t, g))
    ensures Registered(RemoveGpd(t, g)) == UnregisterGpd(Registered(t), g)
  {
    RemoveRefines(capacity, t, {g});
    RemoveRefines(capacity, t, SiblingIds(t, g));
    SiblingsInMap(t, g);
  }

  lemma RefusalRefines(capacity: nat, t: Table, p: Pairing)
    requires DistinctKeys(t)
    ensures Refusal(capacity, t, p).Some? <==> p.mode.FullUnicast? || (p.gpd !in Registered(t) && |Registered(t)| >= capacity)
  {
    RegisteredAt(t, p.gpd);
  }

  /** One GP Pairing command on the table is that command on the abstract table. */
  lemma PairRefines(capacity: nat, t: Table, p: Pairing)
    requires ValidTable(capacity, t)
    ensures ValidTable(capacity, Pair(capacity, t, p))
    ensures Registered(Pair(capacity, t, p)) == Register(capacity, Registered(t), p)
  {
    RefusalRefines(capacity, t, p);
    match ActionOf(p, Refusal(capacity, t, p).Some?)
    case Keep =>
    case DropDevice => RemoveGpdRefines(capacity, t, p.gpd);
    case DropSink => RemoveSinkRefines(capacity, t, p);
    case NewSink => AddSinkRefines(capacity, t, p);
  }

  lemma HearingRefines(k: GpdId, e: ProxyEntry, g: GpdId, counter: U32)
    ensures Abstract(Hearing(g, counter)(k, e))
            == if SameDevice(k, g) then Abstract(e).(traits := HeardTraits(k, e.traits, g, counter)) else Abstract(e)
    ensures ValidEntry(e) ==> ValidEntry(Hearing(g, counter)(k, e))
  {
  }

  lemma HeardValid(capacity: nat, t: Table, g: GpdId, counter: U32)
    requires ValidTable(capacity, t)
    ensures ValidTable(capacity, Heard(t, g, counter))
  {
    MapValuesMap(t, Hearing(g, counter));
    var r := Heard(t, g, counter);
    forall x | x in r
      ensures ValidEntry(x.1)
    {
      var i :| 0 <= i < |r| && r[i] == x;
      assert t[i] in t;
      HearingRefines(t[i].0, t[i].1, g, counter);
    }
  }

  lemma ValidDistinct(capacity: nat, t: Table)
    requires ValidTable(capacity, t)
    ensures DistinctKeys(t)
  {
  }

  lemma HeardRefines(capacity: nat, t: Table, g: GpdId, counter: U32)
    requires ValidTable(capacity, t)
    ensures ValidTable(capacity, Heard(t, g, counter))
    ensures Registered(Heard(t, g, counter)) == RegisterHeard(Registered(t), g, counter)
  {
    hide ToMap, MapValues, ValidTable, Hearing;
    HeardValid(capacity, t, g, counter);
    ValidDistinct(capacity, t);
    MapValuesMap(t, Hearing(g, counter));
    var m, m' := ToMap(t), ToMap(Heard(t, g, counter));
    forall k | k in m
      ensures k in m' && Abstract(m'[k]) == RegisterHeard(Registered(t), g, counter)[k]
    {
      HearingRefines(k, m[k], g, counter);
    }
  }

  // ------------------------------------------------------------------
  // Whole histories
  // ------------------------------------------------------------------

  /** What changes the table: a GP Pairing, or a frame whose counter is stored. */
  datatype Event = Paired(pairing: Pairing) | Accepted(gpd: GpdId, counter: U32)

  function TableAfter(capacity: nat, t: Table, e: Event): Table {
    match e
    case Paired(p) => Pair(capacity, t, p)
    case Accepted(g, c) => Heard(t, g, c)
  }

  function Play(capacity: nat, history: seq<Event>): Table {
    if history == [] then []
    else TableAfter(capacity, Play(capacity, history[..|history| - 1]), history[|history| - 1])
  }

  ghost function RegistryAfter(capacity: nat, m: Registry, e: Event): Registry {
    match e
    case Paired(p) => Register(capacity, m, p)
    case Accepted(g, c) => RegisterHeard(m, g, c)
  }

  ghost function Replay(capacity: nat, history: seq<Event>): Registry {
    if history == [] then map[]
    else RegistryAfter(capacity, Replay(capacity, history[..|history| - 1]), history[|history| - 1])
  }

  /** After any history the table is valid and stands for the replayed abstract table. */
  lemma {:induction false} TableIsReplay(capacity: nat, history: seq<Event>)
    ensures ValidTable(capacity, Play(capacity, history))
    ensures Registered(Play(capacity, history)) == Replay(capacity, history)
  {
    if history != [] {
      var n := |history| - 1;
      TableIsReplay(capacity, history[..n]);
      var t := Play(capacity, history[..n]);
      match history[n]
      case Paired(p) => PairRefines(capacity, t, p);
      case Accepted(g, c) => HeardRefines(capacity, t, g, c);
    }
  }

  ghost predicate NoneWithoutSink(m: Registry) {
    forall g :: g in m ==> !NoLinks(m[g])
  }

  ghost predicate SharesSecurity(m: Registry) {
    forall a, b :: a in m && b in m && SameDevice(a, b) ==> m[a].traits.security == m[b].traits.security
  }

  lemma LinkedHasSink(l: Links, p: Pairing)
    requires p.level.Some? && WellFormed(p) && !p.removeGpd && !p.mode.FullUnicast?
    ensures !NoLinks(Linked(l, p))
  {
    if p.mode.LightweightUnicast? {
      assert p.sink.value.ieee in Linked(l, p).sinks || |l.sinks| >= SINK_CAPACITY;
    } else if p.mode.CommissionedGroupcast? {
      assert p.sink.value.group in Linked(l, p).groups || |l.groups| >= GROUP_CAPACITY;
    }
  }

  ghost predicate Settled(capacity: nat, m: Registry) {
    NoneWithoutSink(m) && SharesSecurity(m) && |m| <= capacity
  }

  lemma UnregisterGpdKeeps(capacity: nat, m: Registry, g: GpdId)
    requires Settled(capacity, m)
    ensures Settled(capacity, UnregisterGpd(m, g))
  {
    SubsetSize(UnregisterGpd(m, g).Keys, m.Keys);
  }

  lemma UnregisterSinkKeeps(capacity: nat, m: Registry, p: Pairing)
    requires Settled(capacity, m)
    ensures Settled(capacity, UnregisterSink(m, p))
  {
    if p.gpd in m {
      SubsetSize((m - {p.gpd}).Keys, m.Keys);
      var l := Unlinked(m[p.gpd], p);
      assert l.traits == m[p.gpd].traits;
      assert m[p.gpd := l].Keys == m.Keys;
    }
  }

  lemma RegisterSinkKeeps(capacity: nat, m: Registry, p: Pairing)
    requires Settled(capacity, m) && p.level.Some? && WellFormed(p) && !p.removeGpd && !p.mode.FullUnicast?
    requires p.gpd in m || |m| < capacity
    ensures Settled(capacity, RegisterSink(m, p))
  {
    hide Linked, NoLinks, NoneWithoutSink, SharesSecurity, SharedIn;
    var l := Linked(if p.gpd in m then m[p.gpd] else NO_LINKS, p);
    LinkedHasSink(if p.gpd in m then m[p.gpd] else NO_LINKS, p);
    SharedInKeeps(m, p.gpd, l);
    var m' := m[p.gpd := l];
    assert m'.Keys == m.Keys + {p.gpd};
    SharedInKeys(m', p.gpd, l.traits);
  }

  lemma SharedInKeys(m: Registry, g: GpdId, from: Traits)
    ensures SharedIn(m, g, from).Keys == m.Keys
  {
  }

  lemma SharedInKeeps(m: Registry, g: GpdId, l: Links)
    requires NoneWithoutSink(m) && SharesSecurity(m) && !NoLinks(l)
    ensures NoneWithoutSink(SharedIn(m[g := l], g, l.traits)) && SharesSecurity(SharedIn(m[g := l], g, l.traits))
  {
    var r := SharedIn(m[g := l], g, l.traits);
    forall k | k in r
      ensures !NoLinks(r[k])
      ensures r[k].traits.security == if SameDevice(k, g) then l.traits.security else m[k].traits.security
    {
    }
  }

  lemma RegisterKeeps(capacity: nat, m: Registry, p: Pairing)
    requires WellFormed(p) && Settled(capacity, m)
    ensures Settled(capacity, Register(capacity, m, p))
  {
    match ActionOf(p, p.mode.FullUnicast? || (p.gpd !in m && |m| >= capacity))
    case Keep =>
    case DropDevice => UnregisterGpdKeeps(capacity, m, p.gpd);
    case DropSink => UnregisterSinkKeeps(capacity, m, p);
    case NewSink => RegisterSinkKeeps(capacity, m, p);
  }

  /** Histories of well-formed commands leave at most `capacity` entries, none without a
      sink, and one set of security options for all endpoints of an IEEE device. */
  lemma {:induction false} ReplayKeeps(capacity: nat, history: seq<Event>)
    requires forall e :: e in history && e.Paired? ==> WellFormed(e.pairing)
    ensures Settled(capacity, Replay(capacity, history))
  {
    if history != [] {
      var n := |history| - 1;
      ReplayKeeps(capacity, history[..n]);
      var m := Replay(capacity, history[..n]);
      match history[n]
      case Paired(p) =>
        assert history[n] in history;
        RegisterKeeps(capacity, m, p);
      case Accepted(g, c) =>
        assert RegisterHeard(m, g, c).Keys == m.Keys;
    }
  }
}
