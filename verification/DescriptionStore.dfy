/**
 The store that assembles the report descriptors of each device from the commands
 that carry them, in whatever order, split and repetition they arrive.
 */
module DescriptionStore {
  import opened Types
  import opened Collections
  import opened GreenPower
  import opened Description

  const MAX_DESCRIPTOR: nat := 48
  const MAX_REPORTS: nat := 4

  datatype Entry = Entry(gpd: GpdId, total: Octet, reports: seq<Bytes>)

  type Store = seq<Entry>

  datatype Fed = Partial | Complete | Full

  /** One Application Description command of a device. */
  datatype Command = Command(gpd: GpdId, total: Octet, descriptors: Bytes)

  function IdOf(raw: Bytes): Option<Octet> {
    if ReportLength(raw).Some? then Some(HeadReport(raw).id) else None
  }

  predicate HasReport(reports: seq<Bytes>, id: Octet) {
    exists i :: 0 <= i < |reports| && IdOf(reports[i]) == Some(id)
  }

  predicate IsComplete(e: Entry) {
    forall id: Octet :: id < e.total ==> HasReport(e.reports, id)
  }

  /** Adds the reports that are not there yet; true when one does not fit. */
  function Absorb(reports: seq<Bytes>, rs: seq<RawReport>): (seq<Bytes>, bool)
    decreases |rs|
  {
    if rs == [] then (reports, false)
    else if HasReport(reports, rs[0].id) then Absorb(reports, rs[1..])
    else if |rs[0].raw| > MAX_DESCRIPTOR || |reports| >= MAX_REPORTS then (reports, true)
    else Absorb(reports + [rs[0].raw], rs[1..])
  }

  function Position(store: Store, g: GpdId): (i: nat)
    ensures i <= |store|
    ensures i < |store| ==> SameDevice(store[i].gpd, g)
    ensures forall j :: 0 <= j < i ==> !SameDevice(store[j].gpd, g)
  {
    if store == [] then 0
    else if SameDevice(store[0].gpd, g) then 0
    else
      assert forall j :: 1 <= j < |store| ==> store[j] == store[1..][j - 1];
      1 + Position(store[1..], g)
  }

  /** Makes room for a new device by forgetting the oldest. */
  function Opened(capacity: nat, store: Store, g: GpdId, total: Octet): Store
    requires capacity > 0
  {
    (if |store| < capacity then store else store[1..]) + [Entry(g, total, [])]
  }

  function FeedEntry(e: Entry, c: Command): (Entry, Fed) {
    var e1 := if e.total != c.total then Entry(e.gpd, c.total, []) else e;
    var (reports, full) := Absorb(e1.reports, Reports(c.descriptors));
    var e2 := e1.(reports := reports);
    (e2, if full then Full else if IsComplete(e2) then Complete else Partial)
  }

  function Feed(capacity: nat, store: Store, c: Command): (Store, Fed)
    requires 0 < capacity && |store| <= capacity
  {
    var known := Position(store, c.gpd);
    var s := if known < |store| then store else Opened(capacity, store, c.gpd, c.total);
    var i := if known < |store| then known else |s| - 1;
    var (e, fed) := FeedEntry(s[i], c);
    (s[i := e], fed)
  }

  // ------------------------------------------------------------------
  // The object
  // ------------------------------------------------------------------

  class Descriptions {
    const capacity: nat
    var entries: Store

    ghost predicate Valid()
      reads this
    {
      0 < capacity && |entries| <= capacity
    }

    constructor (capacity: nat)
      requires capacity > 0
      ensures Valid() && this.capacity == capacity && entries == []
    {
      this.capacity, entries := capacity, [];
    }

    static method Holds(reports: seq<Bytes>, id: Octet) returns (b: bool)
      ensures b == HasReport(reports, id)
    {
      for i := 0 to |reports|
        invariant forall j :: 0 <= j < i ==> IdOf(reports[j]) != Some(id)
      {
        if IdOf(reports[i]) == Some(id) {
          return true;
        }
      }
      return false;
    }

    static method Check(e: Entry) returns (b: bool)
      ensures b == IsComplete(e)
    {
      for id := 0 to e.total as int
        invariant forall j: Octet :: j < id ==> HasReport(e.reports, j)
      {
        var here := Holds(e.reports, id);
        if !here {
          return false;
        }
      }
      return true;
    }

    method Locate(g: GpdId) returns (i: nat)
      ensures i == Position(entries, g)
    {
      i := 0;
      while i < |entries| && !SameDevice(entries[i].gpd, g)
        invariant i <= |entries| && Position(entries, g) == i + Position(entries[i..], g)
      {
        i := i + 1;
      }
    }

    /** Adds the descriptors that are not there yet until one does not fit. */
    static method AbsorbAll(before: seq<Bytes>, descriptors: Bytes) returns (reports: seq<Bytes>, full: bool)
      ensures (reports, full) == Absorb(before, Reports(descriptors))
    {
      reports, full := before, false;
      var iter := new ReportDescriptors(descriptors);
      while true
        invariant Absorb(before, Reports(descriptors)) == Absorb(reports, Reports(iter.rest))
        decreases |iter.rest|
      {
        var r := iter.Next();
        if r.None? {
          return;
        }
        var here := Holds(reports, r.value.id);
        if !here {
          if |r.value.raw| > MAX_DESCRIPTOR || |reports| >= MAX_REPORTS {
            full := true;
            return;
          }
          reports := reports + [r.value.raw];
        }
      }
    }

    method Receive(c: Command) returns (fed: Fed)
      requires Valid()
      modifies this
      ensures Valid() && (entries, fed) == Feed(capacity, old(entries), c)
    {
      var i := Locate(c.gpd);
      if i == |entries| {
        if |entries| >= capacity {
          entries := entries[1..];
        }
        entries := entries + [Entry(c.gpd, c.total, [])];
        i := |entries| - 1;
      }
      var e := entries[i];
      if e.total != c.total {
        e := Entry(e.gpd, c.total, []);
      }
      var reports, full := AbsorbAll(e.reports, c.descriptors);
      e := e.(reports := reports);
      entries := entries[i := e];
      if full {
        return Full;
      }
      var done := Check(e);
      return if done then Complete else Partial;
    }
  }

  // ------------------------------------------------------------------
  // Confluence
  // ------------------------------------------------------------------

  /** What a device describes: one descriptor for every report identifier, within capacity. */
  ghost predicate Fits(desc: map<Octet, Bytes>) {
    |desc| <= MAX_REPORTS && forall id :: id in desc ==> IdOf(desc[id]) == Some(id) && |desc[id]| <= MAX_DESCRIPTOR
  }

  /** Exactly the descriptors of the identifiers in `ids` are stored, each once. */
  ghost predicate Contains(reports: seq<Bytes>, desc: map<Octet, Bytes>, ids: set<Octet>) {
    && ids <= desc.Keys
    && (forall raw :: raw in reports ==> exists id :: id in ids && raw == desc[id])
    && (forall id :: id in ids ==> desc[id] in reports)
    && (forall i, j :: 0 <= i < j < |reports| ==> reports[i] != reports[j])
  }

  lemma ContainsHas(reports: seq<Bytes>, desc: map<Octet, Bytes>, ids: set<Octet>, id: Octet)
    requires Fits(desc) && Contains(reports, desc, ids)
    ensures HasReport(reports, id) <==> id in ids
  {
    if HasReport(reports, id) {
      var i :| 0 <= i < |reports| && IdOf(reports[i]) == Some(id);
      assert reports[i] in reports;
    }
    if id in ids {
      var i :| 0 <= i < |reports| && reports[i] == desc[id];
    }
  }

  /** As many descriptors as identifiers. */
  lemma {:induction false} ContainsSize(reports: seq<Bytes>, desc: map<Octet, Bytes>, ids: set<Octet>)
    requires Fits(desc) && Contains(reports, desc, ids)
    ensures |reports| == |ids|
  {
    if reports != [] {
      var n := |reports| - 1;
      var raw := reports[n];
      assert raw in reports;
      var id :| id in ids && raw == desc[id];
      ContainsLess(reports, desc, ids, id);
      ContainsSize(reports[..n], desc, ids - {id});
    }
  }

  lemma ContainsLess(reports: seq<Bytes>, desc: map<Octet, Bytes>, ids: set<Octet>, id: Octet)
    requires Fits(desc) && Contains(reports, desc, ids) && |reports| > 0 && id in ids && reports[|reports| - 1] == desc[id]
    ensures Contains(reports[..|reports| - 1], desc, ids - {id})
  {
    var init := reports[..|reports| - 1];
    forall raw | raw in init
      ensures exists k :: k in ids - {id} && raw == desc[k]
    {
      assert raw in reports;
      var k :| k in ids && raw == desc[k];
      assert k != id;
    }
    forall k | k in ids - {id}
      ensures desc[k] in init
    {
      var i :| 0 <= i < |reports| && reports[i] == desc[k];
      assert IdOf(desc[k]) != IdOf(desc[id]);
      assert init[i] == desc[k];
    }
  }

  ghost predicate Describes(desc: map<Octet, Bytes>, rs: seq<RawReport>) {
    forall i :: 0 <= i < |rs| ==> rs[i].id in desc && rs[i].raw == desc[rs[i].id]
  }

  function Ids(rs: seq<RawReport>): set<Octet> {
    set i | 0 <= i < |rs| :: rs[i].id
  }

  /** While a report is missing there is room for it. */
  lemma ContainsRoom(reports: seq<Bytes>, desc: map<Octet, Bytes>, ids: set<Octet>, id: Octet)
    requires Fits(desc) && Contains(reports, desc, ids) && id in desc && id !in ids
    ensures |reports| < MAX_REPORTS
  {
    ContainsSize(reports, desc, ids);
    assert ids + {id} <= desc.Keys by {
      hide Fits;
    }
    hide Contains;
    SubsetSize(ids + {id}, desc.Keys);
  }

  lemma ContainsMore(reports: seq<Bytes>, desc: map<Octet, Bytes>, ids: set<Octet>, id: Octet)
    requires Fits(desc) && Contains(reports, desc, ids) && id in desc && id !in ids
    ensures |reports| < MAX_REPORTS
    ensures Contains(reports + [desc[id]], desc, ids + {id})
  {
    ContainsRoom(reports, desc, ids, id);
    var more := reports + [desc[id]];
    forall raw | raw in reports
      ensures raw != desc[id]
    {
      var k :| k in ids && raw == desc[k];
    }
    hide Fits;
    forall raw | raw in more
      ensures exists k :: k in ids + {id} && raw == desc[k]
    {
      if raw in reports {
        var k :| k in ids && raw == desc[k];
        assert k in ids + {id};
      } else {
        assert id in ids + {id};
      }
    }
    forall k | k in ids + {id}
      ensures desc[k] in more
    {
      assert more[|reports|] == desc[id];
    }
    forall i, j | 0 <= i < j < |more|
      ensures more[i] != more[j]
    {
      assert more[i] == reports[i] && reports[i] in reports;
    }
  }

  lemma {:induction false} AbsorbAdds(reports: seq<Bytes>, desc: map<Octet, Bytes>, ids: set<Octet>, rs: seq<RawReport>)
    requires Fits(desc) && Contains(reports, desc, ids) && Describes(desc, rs)
    ensures !Absorb(reports, rs).1 && Contains(Absorb(reports, rs).0, desc, ids + Ids(rs))
    decreases |rs|
  {
    hide Contains, IdOf, HasReport;
    if rs == [] {
      assert ids + Ids(rs) == ids;
    } else {
      var id := rs[0].id;
      ContainsHas(reports, desc, ids, id);
      if id in ids {
        AbsorbAdds(reports, desc, ids, rs[1..]);
        assert ids + Ids(rs[1..]) == ids + Ids(rs);
      } else {
        ContainsMore(reports, desc, ids, id);
        AbsorbAdds(reports + [rs[0].raw], desc, ids + {id}, rs[1..]);
        assert ids + {id} + Ids(rs[1..]) == ids + Ids(rs);
      }
    }
  }

  // ------------------------------------------------------------------
  // Runs
  // ------------------------------------------------------------------

  /** One representative for all endpoints of a device. */
  function DeviceOf(g: GpdId): GpdId {
    match g
    case SrcId(_) => g
    case Ieee(address, _) => Ieee(address, 0)
  }

  ghost predicate IsRun(capacity: nat, commands: seq<Command>, stores: seq<Store>)
    requires capacity > 0
  {
    && |stores| == |commands| + 1 && stores[0] == []
    && forall i :: 0 <= i < |commands| ==> |stores[i]| <= capacity && stores[i + 1] == Feed(capacity, stores[i], commands[i]).0
  }

  /** The commands of the device of `g` describe `desc` and announce `total` reports. */
  ghost predicate Consistent(commands: seq<Command>, g: GpdId, total: Octet, desc: map<Octet, Bytes>) {
    forall i :: 0 <= i < |commands| && SameDevice(commands[i].gpd, g) ==>
      commands[i].total == total && Describes(desc, Reports(commands[i].descriptors))
  }

  /** The report identifiers fed for the device of `g` by the first `n` commands. */
  function FedIds(commands: seq<Command>, n: nat, g: GpdId): set<Octet>
    requires n <= |commands|
  {
    if n == 0 then {}
    else FedIds(commands, n - 1, g) + if SameDevice(commands[n - 1].gpd, g) then Ids(Reports(commands[n - 1].descriptors)) else {}
  }

  /** Not more devices than the store has entries. */
  ghost predicate Roomy(capacity: nat, commands: seq<Command>) {
    |DevicesOf(commands, |commands|)| <= capacity
  }

  function DevicesOf(commands: seq<Command>, n: nat): set<GpdId>
    requires n <= |commands|
  {
    if n == 0 then {} else DevicesOf(commands, n - 1) + {DeviceOf(commands[n - 1].gpd)}
  }

  /** One entry for each device fed so far. */
  ghost predicate Tracks(store: Store, devices: set<GpdId>) {
    && (forall i :: 0 <= i < |store| ==> DeviceOf(store[i].gpd) in devices)
    && (forall i, j :: 0 <= i < j < |store| ==> !SameDevice(store[i].gpd, store[j].gpd))
  }

  lemma {:induction false} TracksSize(store: Store, devices: set<GpdId>)
    requires Tracks(store, devices)
    ensures |store| <= |devices|
  {
    if store != [] {
      var n := |store| - 1;
      var d := DeviceOf(store[n].gpd);
      forall i | 0 <= i < n
        ensures DeviceOf(store[..n][i].gpd) in devices - {d}
      {
        assert !SameDevice(store[i].gpd, store[n].gpd);
      }
      TracksSize(store[..n], devices - {d});
    }
  }

  lemma {:induction false} DevicesGrow(commands: seq<Command>, n: nat, m: nat)
    requires n <= m <= |commands|
    ensures DevicesOf(commands, n) <= DevicesOf(commands, m)
  {
    if n < m {
      DevicesGrow(commands, n, m - 1);
    }
  }

  /** With room for the device there is no forgetting: other entries stay as they are. */
  lemma FeedKeeps(capacity: nat, store: Store, c: Command, devices: set<GpdId>)
    requires 0 < capacity && Tracks(store, devices) && |devices + {DeviceOf(c.gpd)}| <= capacity && |store| <= capacity
    ensures Tracks(Feed(capacity, store, c).0, devices + {DeviceOf(c.gpd)})
    ensures |Feed(capacity, store, c).0| <= capacity && |store| <= |Feed(capacity, store, c).0|
    ensures forall i :: 0 <= i < |store| && !SameDevice(store[i].gpd, c.gpd) ==> Feed(capacity, store, c).0[i] == store[i]
    ensures forall i :: 0 <= i < |store| ==> Feed(capacity, store, c).0[i].gpd == store[i].gpd
  {
    var known := Position(store, c.gpd);
    if known == |store| {
      var store' := store + [Entry(c.gpd, c.total, [])];
      assert Tracks(store', devices + {DeviceOf(c.gpd)}) by {
        forall i | 0 <= i < |store|
          ensures !SameDevice(store[i].gpd, c.gpd)
        {
        }
      }
      TracksSize(store', devices + {DeviceOf(c.gpd)});
    }
  }

  /** The entry of the device of `g` holds exactly the descriptors fed for it. */
  ghost predicate Knows(store: Store, g: GpdId, total: Octet, desc: map<Octet, Bytes>, ids: set<Octet>) {
    if Position(store, g) < |store| then
      var e := store[Position(store, g)];
      e.total == total && Contains(e.reports, desc, ids)
    else ids == {}
  }

  lemma PositionIs(store: Store, g: GpdId, i: nat)
    requires i < |store| && SameDevice(store[i].gpd, g) && forall j :: 0 <= j < |store| && j != i ==> !SameDevice(store[j].gpd, store[i].gpd)
    ensures Position(store, g) == i
  {
    var k := Position(store, g);
    assert SameDevice(store[k].gpd, g);
  }

  /** Every identifier below the announced total has been fed. */
  ghost predicate AllFed(total: Octet, ids: set<Octet>) {
    forall id: Octet :: id < total ==> id in ids
  }

  lemma CompleteExactly(e: Entry, desc: map<Octet, Bytes>, ids: set<Octet>)
    requires Fits(desc) && Contains(e.reports, desc, ids)
    ensures IsComplete(e) <==> AllFed(e.total, ids)
  {
    forall id: Octet
      ensures HasReport(e.reports, id) <==> id in ids
    {
      ContainsHas(e.reports, desc, ids, id);
    }
  }

  lemma FeedSame(capacity: nat, store: Store, c: Command, devices: set<GpdId>, g: GpdId, total: Octet, desc: map<Octet, Bytes>, ids: set<Octet>)
    requires 0 < capacity && Tracks(store, devices) && |devices + {DeviceOf(c.gpd)}| <= capacity && |store| <= capacity
    requires SameDevice(c.gpd, g) && c.total == total && Fits(desc) && Describes(desc, Reports(c.descriptors))
    requires Knows(store, g, total, desc, ids)
    ensures var (s, fed) := Feed(capacity, store, c);
            && Knows(s, g, total, desc, ids + Ids(Reports(c.descriptors))) && Position(s, g) < |s|
            && fed != Full && (fed == Complete <==> AllFed(total, ids + Ids(Reports(c.descriptors))))
  {
    assert Contains([], desc, {});
    hide Fits, Describes, Reports, Ids, AllFed, Contains;
    FeedKeeps(capacity, store, c, devices);
    var known := Position(store, c.gpd);
    SamePosition(store, c.gpd, g);
    var s := if known < |store| then store else Opened(capacity, store, c.gpd, c.total);
    var i := if known < |store| then known else |s| - 1;
    var all := ids + Ids(Reports(c.descriptors));
    AbsorbAdds(s[i].reports, desc, ids, Reports(c.descriptors));
    CompleteExactly(FeedEntry(s[i], c).0, desc, all);
    var s' := Feed(capacity, store, c).0;
    PositionIs(s', g, i);
  }

  lemma {:induction false} SamePosition(store: Store, a: GpdId, b: GpdId)
    requires SameDevice(a, b)
    ensures Position(store, a) == Position(store, b)
  {
    var i, j := Position(store, a), Position(store, b);
    if i < |store| {
      assert SameDevice(store[i].gpd, b);
    }
    if j < |store| {
      assert SameDevice(store[j].gpd, a);
    }
  }

  lemma FeedOther(capacity: nat, store: Store, c: Command, devices: set<GpdId>, g: GpdId, total: Octet, desc: map<Octet, Bytes>, ids: set<Octet>)
    requires 0 < capacity && Tracks(store, devices) && |devices + {DeviceOf(c.gpd)}| <= capacity && |store| <= capacity
    requires !SameDevice(c.gpd, g) && Knows(store, g, total, desc, ids)
    ensures Knows(Feed(capacity, store, c).0, g, total, desc, ids)
    ensures Position(store, g) < |store| ==> Position(Feed(capacity, store, c).0, g) < |Feed(capacity, store, c).0|
  {
    FeedKeeps(capacity, store, c, devices);
    var s', k := Feed(capacity, store, c).0, Position(store, g);
    if k < |store| {
      assert !SameDevice(store[k].gpd, c.gpd);
      assert s'[k] == store[k];
      PositionIs(s', g, k);
    }
  }

  /** What the last of the first `n` commands answered, if it was for the device of `g`. */
  ghost predicate AnswersRightly(capacity: nat, store: Store, c: Command, g: GpdId, total: Octet, ids: set<Octet>)
    requires 0 < capacity && |store| <= capacity
  {
    var fed := Feed(capacity, store, c).1;
    SameDevice(c.gpd, g) ==> fed != Full && (fed == Complete <==> AllFed(total, ids))
  }

  lemma FeedStep(capacity: nat, store: Store, c: Command, devices: set<GpdId>, g: GpdId, total: Octet, desc: map<Octet, Bytes>, ids: set<Octet>, ids': set<Octet>)
    requires 0 < capacity && Tracks(store, devices) && |devices + {DeviceOf(c.gpd)}| <= capacity && |store| <= capacity
    requires SameDevice(c.gpd, g) ==> c.total == total && Describes(desc, Reports(c.descriptors))
    requires Fits(desc) && Knows(store, g, total, desc, ids)
    requires ids' == ids + if SameDevice(c.gpd, g) then Ids(Reports(c.descriptors)) else {}
    ensures Knows(Feed(capacity, store, c).0, g, total, desc, ids') && AnswersRightly(capacity, store, c, g, total, ids')
  {
    if SameDevice(c.gpd, g) {
      FeedSame(capacity, store, c, devices, g, total, desc, ids);
    } else {
      FeedOther(capacity, store, c, devices, g, total, desc, ids);
      assert ids' == ids;
    }
  }

  /** However the reports of a device are ordered, split over commands and repeated, and whatever
      other devices send in between, the store holds exactly the reports fed so far, each once;
      a command completes the description exactly when all announced identifiers have been fed. */
  lemma {:induction false} ContentIsWhatWasFed(
    capacity: nat, commands: seq<Command>, stores: seq<Store>, n: nat, g: GpdId, total: Octet, desc: map<Octet, Bytes>)
    requires capacity > 0 && IsRun(capacity, commands, stores) && n <= |commands| && Roomy(capacity, commands)
    requires Fits(desc) && Consistent(commands, g, total, desc)
    ensures Tracks(stores[n], DevicesOf(commands, n)) && |stores[n]| <= capacity
    ensures Knows(stores[n], g, total, desc, FedIds(commands, n, g))
    ensures n > 0 ==> |stores[n - 1]| <= capacity
                      && AnswersRightly(capacity, stores[n - 1], commands[n - 1], g, total, FedIds(commands, n, g))
  {
    if n > 0 {
      ContentIsWhatWasFed(capacity, commands, stores, n - 1, g, total, desc);
      var store, c, devices := stores[n - 1], commands[n - 1], DevicesOf(commands, n - 1);
      assert stores[n - 1 + 1] == Feed(capacity, stores[n - 1], commands[n - 1]).0;
      DevicesGrow(commands, n, |commands|);
      SubsetSize(DevicesOf(commands, n), DevicesOf(commands, |commands|));
      FeedKeeps(capacity, store, c, devices);
      FeedStep(capacity, store, c, devices, g, total, desc, FedIds(commands, n - 1, g), FedIds(commands, n, g));
    }
  }

  /** Two stores that were fed the same reports hold the same descriptors. */
  lemma SameReportsSameContent(a: seq<Bytes>, b: seq<Bytes>, desc: map<Octet, Bytes>, ids: set<Octet>)
    requires Contains(a, desc, ids) && Contains(b, desc, ids)
    ensures multiset(a) == multiset(b)
  {
    forall x
      ensures multiset(a)[x] == multiset(b)[x]
    {
      MultiplicityIs(a, x);
      MultiplicityIs(b, x);
      if x in a {
        var id :| id in ids && x == desc[id];
      }
      if x in b {
        var id :| id in ids && x == desc[id];
      }
    }
  }

  lemma MultiplicityIs<T>(s: seq<T>, x: T)
    requires forall i, j :: 0 <= i < j < |s| ==> s[i] != s[j]
    ensures multiset(s)[x] == if x in s then 1 else 0
  {
    if x in s {
      var a :| 0 <= a < |s| && s[a] == x;
      CountOnce(s, a);
    }
  }

  // ------------------------------------------------------------------
  // The reports of a tree
  // ------------------------------------------------------------------

  ghost predicate DistinctIds(tree: seq<Report>) {
    forall i, j :: 0 <= i < j < |tree| ==> tree[i].id != tree[j].id
  }

  /** What a tree of reports describes. */
  ghost function DescriptorsOf(tree: seq<Report>): (desc: map<Octet, Bytes>)
    requires WritableReports(tree)
    ensures |desc| <= |tree|
  {
    if tree == [] then map[]
    else
      var n := |tree| - 1;
      DescriptorsOf(tree[..n])[tree[n].id := PrintReport(tree[n])]
  }

  lemma {:induction false} DescriptorAt(tree: seq<Report>, i: nat)
    requires WritableReports(tree) && DistinctIds(tree) && i < |tree|
    ensures tree[i].id in DescriptorsOf(tree) && DescriptorsOf(tree)[tree[i].id] == PrintReport(tree[i])
  {
    if i < |tree| - 1 {
      DescriptorAt(tree[..|tree| - 1], i);
    }
  }

  lemma {:induction false} DescriptorSource(tree: seq<Report>, id: Octet) returns (i: nat)
    requires WritableReports(tree) && id in DescriptorsOf(tree)
    ensures i < |tree| && tree[i].id == id && DescriptorsOf(tree)[id] == PrintReport(tree[i])
  {
    var n := |tree| - 1;
    if tree[n].id == id {
      i := n;
    } else {
      i := DescriptorSource(tree[..n], id);
    }
  }

  lemma PrintedId(r: Report)
    requires WritableReport(r)
    ensures IdOf(PrintReport(r)) == Some(r.id)
  {
    ReportRoundTrip(r, []);
    assert PrintReport(r) + [] == PrintReport(r);
  }

  /** Any selection of the reports of a tree that fits, printed into one command, describes that
      tree; so every way of sending the tree meets what the store needs. */
  lemma PartDescribesTree(tree: seq<Report>, part: seq<Report>)
    requires WritableReports(tree) && DistinctIds(tree) && |tree| <= MAX_REPORTS
    requires forall i :: 0 <= i < |tree| ==> |PrintReport(tree[i])| <= MAX_DESCRIPTOR
    requires WritableReports(part) && forall i :: 0 <= i < |part| ==> part[i] in tree
    ensures Fits(DescriptorsOf(tree)) && Describes(DescriptorsOf(tree), Reports(PrintReports(part)))
    ensures Ids(Reports(PrintReports(part))) == set i | 0 <= i < |part| :: part[i].id
  {
    var desc, rs := DescriptorsOf(tree), Reports(PrintReports(part));
    forall id | id in desc
      ensures IdOf(desc[id]) == Some(id) && |desc[id]| <= MAX_DESCRIPTOR
    {
      var i := DescriptorSource(tree, id);
      PrintedId(tree[i]);
    }
    TreeRoundTrip(part);
    assert |rs| == |ReadReports(rs)| == |part|;
    forall i | 0 <= i < |rs|
      ensures rs[i].id == part[i].id && rs[i].id in desc && rs[i].raw == desc[rs[i].id]
    {
      assert ReadReports(rs)[i] == ReadReport(rs[i]);
      var k :| 0 <= k < |tree| && tree[k] == part[i];
      DescriptorAt(tree, k);
    }
  }
}
