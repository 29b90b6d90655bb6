/**
 Touchlink address and group assignment: every node that assigns addresses holds
 one interval of free network addresses and one of free group identifiers. It
 takes single addresses and blocks of groups from the bottom, and hands the upper
 halves of both intervals to a new holder.
 */
module AddressRanges {
  import opened Types
  import opened Collections

  const FIRST: U16 := 0x0001
  const LAST_ADDRESS: U16 := 0xfff7
  const LAST_GROUP: U16 := 0xfeff
  /** Smallest half worth splitting off. */
  const MIN_RANGE: nat := 16

  /** A begin of 0 means the holder does not assign. */
  datatype Ranges = Ranges(addressesBegin: U16, addressesEnd: U16, groupsBegin: U16, groupsEnd: U16)

  const FACTORY_NEW := Ranges(FIRST, LAST_ADDRESS, FIRST, LAST_GROUP)

  predicate Between(begin: nat, a: nat, end: nat) {
    begin <= a <= end
  }

  function Interval(begin: nat, end: nat): set<nat> {
    set a: nat | begin <= a <= end && Between(begin, a, end)
  }

  function FreeAddresses(r: Ranges): set<nat> {
    if r.addressesBegin == 0 then {} else Interval(r.addressesBegin, r.addressesEnd)
  }

  function FreeGroups(r: Ranges): set<nat> {
    if r.groupsBegin == 0 then {} else Interval(r.groupsBegin, r.groupsEnd)
  }

  predicate IsCapable(r: Ranges) {
    r.addressesBegin != 0
  }

  function Saturate(x: nat): U16 {
    if x < 0xffff then x else 0xffff
  }

  function NextAddress(r: Ranges): (res: (Ranges, Option<U16>)) {
    if !IsCapable(r) || r.addressesBegin > r.addressesEnd then (r, None)
    else (r.(addressesBegin := Saturate(r.addressesBegin + 1)), Some(r.addressesBegin))
  }

  function TakeGroups(r: Ranges, count: Octet): (res: (Ranges, Option<(U16, U16)>)) {
    if count == 0 || r.groupsBegin == 0 || r.groupsBegin + count - 1 > r.groupsEnd then (r, None)
    else
      var end := r.groupsBegin + count - 1;
      (r.(groupsBegin := Saturate(end + 1)), Some((r.groupsBegin, end)))
  }

  function Split(r: Ranges): (res: (Ranges, Option<Ranges>)) {
    if !IsCapable(r) || r.addressesEnd < r.addressesBegin || r.groupsEnd < r.groupsBegin then (r, None)
    else
      var addrSpan, groupSpan := r.addressesEnd - r.addressesBegin, r.groupsEnd - r.groupsBegin;
      if addrSpan / 2 < MIN_RANGE || groupSpan / 2 < MIN_RANGE then (r, None)
      else
        var addrMid, groupMid := r.addressesBegin + addrSpan / 2, r.groupsBegin + groupSpan / 2;
        (r.(addressesEnd := addrMid, groupsEnd := groupMid),
         Some(Ranges(addrMid + 1, r.addressesEnd, groupMid + 1, r.groupsEnd)))
  }

  // ------------------------------------------------------------------
  // The ranges of one node, updated in place
  // ------------------------------------------------------------------

  class Holder {
    var ranges: Ranges

    constructor (ranges: Ranges)
      ensures this.ranges == ranges
    {
      this.ranges := ranges;
    }

    /** Takes the lowest free address; nothing else leaves the interval. */
    method TakeAddress() returns (a: Option<U16>)
      modifies this
      ensures (ranges, a) == NextAddress(old(ranges))
      ensures a.None? <==> old(FreeAddresses(ranges)) == {}
      ensures a.Some? ==> a.value in old(FreeAddresses(ranges))
      ensures a.Some? ==> forall x :: x in old(FreeAddresses(ranges)) ==> a.value <= x
      ensures a.Some? ==> (FreeAddresses(ranges) == old(FreeAddresses(ranges)) - {a.value} <==> a.value != 0xffff)
      ensures FreeGroups(ranges) == old(FreeGroups(ranges))
    {
      if !IsCapable(ranges) || ranges.addressesBegin > ranges.addressesEnd {
        return None;
      }
      assert ranges.addressesBegin in FreeAddresses(ranges);
      TakingConserves(ranges);
      a := Some(ranges.addressesBegin);
      ranges := ranges.(addressesBegin := Saturate(ranges.addressesBegin + 1));
    }

    /** Takes the `count` lowest groups as one block, or none at all. */
    method TakeGroupBlock(count: Octet) returns (g: Option<(U16, U16)>)
      modifies this
      ensures (ranges, g) == TakeGroups(old(ranges), count)
      ensures g.Some? <==> count > 0 && count <= |old(FreeGroups(ranges))|
      ensures g.Some? ==> |Interval(g.value.0, g.value.1)| == count
      ensures g.Some? ==> Interval(g.value.0, g.value.1) <= old(FreeGroups(ranges))
      ensures g.Some? ==>
                (FreeGroups(ranges) == old(FreeGroups(ranges)) - Interval(g.value.0, g.value.1) <==> g.value.1 != 0xffff)
      ensures FreeAddresses(ranges) == old(FreeAddresses(ranges))
    {
      IntervalSize(ranges.groupsBegin, ranges.groupsEnd);
      if count == 0 || ranges.groupsBegin == 0 {
        return None;
      }
      var end := ranges.groupsBegin + count - 1;
      if end > ranges.groupsEnd {
        return None;
      }
      IntervalSize(ranges.groupsBegin, end);
      TakingGroupsConserves(ranges, count);
      g := Some((ranges.groupsBegin, end));
      ranges := ranges.(groupsBegin := Saturate(end + 1));
    }

    /** Gives the upper halves of both intervals away. */
    method SplitUpper() returns (upper: Option<Ranges>)
      modifies this
      ensures (ranges, upper) == Split(old(ranges))
      ensures upper.None? ==> ranges == old(ranges)
      ensures upper.Some? ==> old(FreeAddresses(ranges)) == FreeAddresses(ranges) + FreeAddresses(upper.value)
      ensures upper.Some? ==> FreeAddresses(ranges) !! FreeAddresses(upper.value)
      ensures upper.Some? && old(ranges.groupsBegin) != 0 ==>
                old(FreeGroups(ranges)) == FreeGroups(ranges) + FreeGroups(upper.value)
                && FreeGroups(ranges) !! FreeGroups(upper.value)
      ensures upper.Some? ==> |FreeAddresses(upper.value)| >= MIN_RANGE && |FreeGroups(upper.value)| >= MIN_RANGE
    {
      hide Interval;
      if !IsCapable(ranges) || ranges.addressesEnd < ranges.addressesBegin || ranges.groupsEnd < ranges.groupsBegin {
        return None;
      }
      var addrSpan := ranges.addressesEnd - ranges.addressesBegin;
      var groupSpan := ranges.groupsEnd - ranges.groupsBegin;
      if addrSpan / 2 < MIN_RANGE || groupSpan / 2 < MIN_RANGE {
        return None;
      }
      var addrMid := ranges.addressesBegin + addrSpan / 2;
      var groupMid := ranges.groupsBegin + groupSpan / 2;
      IntervalSize(addrMid + 1, ranges.addressesEnd);
      IntervalSize(groupMid + 1, ranges.groupsEnd);
      IntervalSplit(ranges.addressesBegin, addrMid, ranges.addressesEnd);
      IntervalSplit(ranges.groupsBegin, groupMid, ranges.groupsEnd);
      upper := Some(Ranges(addrMid + 1, ranges.addressesEnd, groupMid + 1, ranges.groupsEnd));
      ranges := ranges.(addressesEnd := addrMid, groupsEnd := groupMid);
    }
  }

  lemma IntervalSplit(begin: nat, mid: nat, end: nat)
    requires begin <= mid <= end
    ensures Interval(begin, end) == Interval(begin, mid) + Interval(mid + 1, end)
    ensures Interval(begin, mid) !! Interval(mid + 1, end)
  {
  }

  lemma {:induction false} IntervalSize(begin: nat, end: nat)
    ensures |Interval(begin, end)| == if begin <= end then end - begin + 1 else 0
    decreases end
  {
    if begin <= end {
      if end == 0 {
        assert Interval(begin, end) == {0};
      } else {
        IntervalSize(begin, end - 1);
        assert Interval(begin, end) == Interval(begin, end - 1) + {end};
      }
    }
  }

  /** For ranges received over the air: taking an address removes it from the interval
      exactly when it is not the last one a 16-bit address can name. */
  lemma TakingConserves(r: Ranges)
    requires NextAddress(r).1.Some?
    ensures (FreeAddresses(NextAddress(r).0) == FreeAddresses(r) - {NextAddress(r).1.value})
            <==> r.addressesBegin != 0xffff
  {
    var a := NextAddress(r).1.value;
    assert a in FreeAddresses(r);
    if a == 0xffff {
      assert a in FreeAddresses(NextAddress(r).0);
    }
  }

  /** Likewise a block of groups, exactly when it does not end in the last group there is. */
  lemma TakingGroupsConserves(r: Ranges, count: Octet)
    requires TakeGroups(r, count).1.Some?
    ensures var res := TakeGroups(r, count);
            (FreeGroups(res.0) == FreeGroups(r) - Interval(res.1.value.0, res.1.value.1))
            <==> r.groupsBegin + count - 1 != 0xffff
  {
    var end := r.groupsBegin + count - 1;
    if end == 0xffff {
      assert end in FreeGroups(TakeGroups(r, count).0) && end in Interval(r.groupsBegin, end);
    }
  }

  /** At the end of the range the same address and the same group are handed out on every call. */
  lemma LastOneStays()
    ensures var last := Ranges(0xffff, 0xffff, 0xffff, 0xffff);
            && FreeAddresses(last) == {0xffff} && FreeGroups(last) == {0xffff}
            && NextAddress(last) == (last, Some(0xffff))
            && TakeGroups(last, 1) == (last, Some((0xffff, 0xffff)))
  {
  }

  // ------------------------------------------------------------------
  // Any number of holders
  // ------------------------------------------------------------------

  /** What one holder does next. */
  datatype Op =
    | Address(holder: nat)
    | Groups(holder: nat, count: Octet)
    | Grant(holder: nat)

  /** Every holder there is, and all addresses and groups handed out so far. */
  datatype World = World(holders: seq<Ranges>, addresses: seq<nat>, groups: seq<nat>)

  const ORIGIN := World([FACTORY_NEW], [], [])

  function Ascending(begin: nat, end: nat): (s: seq<nat>)
    ensures multiset(s) == multiset(Interval(begin, end))
    decreases end
  {
    if begin > end then []
    else if end == 0 then assert Interval(begin, end) == {0}; [0]
    else
      assert Interval(begin, end) == Interval(begin, end - 1) + {end};
      Ascending(begin, end - 1) + [end]
  }

  function Apply(w: World, op: Op): World {
    if op.holder >= |w.holders| then w
    else
      var h := w.holders[op.holder];
      match op
      case Address(i) =>
        var (r, a) := NextAddress(h);
        World(w.holders[i := r], if a.Some? then w.addresses + [a.value] else w.addresses, w.groups)
      case Groups(i, count) =>
        var (r, g) := TakeGroups(h, count);
        World(w.holders[i := r], w.addresses, if g.Some? then w.groups + Ascending(g.value.0, g.value.1) else w.groups)
      case Grant(i) =>
        var (r, upper) := Split(h);
        World(w.holders[i := r] + (if upper.Some? then [upper.value] else []), w.addresses, w.groups)
  }

  function Run(w: World, ops: seq<Op>): World
    decreases |ops|
  {
    if ops == [] then w else Run(Apply(w, ops[0]), ops[1..])
  }

  /** The two things that are handed out. */
  datatype Resource = Addresses | GroupIds

  function Free(k: Resource, r: Ranges): set<nat> {
    if k.Addresses? then FreeAddresses(r) else FreeGroups(r)
  }

  function Handed(k: Resource, w: World): seq<nat> {
    if k.Addresses? then w.addresses else w.groups
  }

  function LastOf(k: Resource): nat {
    if k.Addresses? then LAST_ADDRESS else LAST_GROUP
  }

  function One(b: bool): nat {
    if b then 1 else 0
  }

  /** How many holders have `a` free. */
  function Holders(k: Resource, hs: seq<Ranges>, a: nat): nat {
    if hs == [] then 0
    else Holders(k, hs[..|hs| - 1], a) + One(a in Free(k, hs[|hs| - 1]))
  }

  lemma {:induction false} HoldersUpdate(k: Resource, hs: seq<Ranges>, i: nat, r: Ranges, a: nat)
    requires i < |hs|
    ensures Holders(k, hs[i := r], a) + One(a in Free(k, hs[i])) == Holders(k, hs, a) + One(a in Free(k, r))
  {
    var n := |hs| - 1;
    if i == n {
      assert hs[i := r][..n] == hs[..n];
    } else {
      HoldersUpdate(k, hs[..n], i, r, a);
      assert hs[i := r][..n] == hs[..n][i := r];
    }
  }

  predicate Proper(r: Ranges) {
    && 1 <= r.addressesBegin <= r.addressesEnd + 1 <= LAST_ADDRESS + 1
    && 1 <= r.groupsBegin <= r.groupsEnd + 1 <= LAST_GROUP + 1
  }

  function Total(k: Resource, w: World, a: nat): nat {
    multiset(Handed(k, w))[a] + Holders(k, w.holders, a)
  }

  /** Handed out plus still free is everything, each exactly once. */
  ghost predicate Conserved(k: Resource, w: World) {
    && (forall i :: 0 <= i < |w.holders| ==> Proper(w.holders[i]))
    && (forall a: nat :: Total(k, w, a) == One(Between(FIRST, a, LastOf(k))))
  }

  lemma AddressMoves(k: Resource, w: World, i: nat, a: nat)
    requires i < |w.holders| && Proper(w.holders[i])
    ensures Total(k, Apply(w, Address(i)), a) == Total(k, w, a)
    ensures Proper(NextAddress(w.holders[i]).0)
  {
    HoldersUpdate(k, w.holders, i, NextAddress(w.holders[i]).0, a);
  }

  lemma GroupsMove(k: Resource, w: World, i: nat, count: Octet, a: nat)
    requires i < |w.holders| && Proper(w.holders[i])
    ensures Total(k, Apply(w, Groups(i, count)), a) == Total(k, w, a)
    ensures Proper(TakeGroups(w.holders[i], count).0)
  {
    HoldersUpdate(k, w.holders, i, TakeGroups(w.holders[i], count).0, a);
  }

  /** A split leaves every free element with exactly one of the two. */
  lemma SplitMoves(k: Resource, h: Ranges, a: nat)
    requires Proper(h)
    ensures var (r, upper) := Split(h);
            && Proper(r) && (upper.Some? ==> Proper(upper.value))
            && One(a in Free(k, h)) == One(a in Free(k, r)) + if upper.Some? then One(a in Free(k, upper.value)) else 0
  {
  }

  lemma GrantMoves(k: Resource, w: World, i: nat, a: nat)
    requires i < |w.holders| && Proper(w.holders[i])
    ensures Total(k, Apply(w, Grant(i)), a) == Total(k, w, a)
    ensures Proper(Split(w.holders[i]).0)
    ensures Split(w.holders[i]).1.Some? ==> Proper(Split(w.holders[i]).1.value)
  {
    hide Split, Proper, Free, One;
    var (r, upper) := Split(w.holders[i]);
    SplitMoves(k, w.holders[i], a);
    HoldersUpdate(k, w.holders, i, r, a);
    var hs := Apply(w, Grant(i)).holders;
    if upper.Some? {
      assert hs[..|hs| - 1] == w.holders[i := r];
    } else {
      assert hs == w.holders[i := r];
    }
  }

  /** One operation moves each element at most from a free interval to another one or to
      the handed-out elements. */
  lemma ApplyConserves(k: Resource, w: World, op: Op)
    requires Conserved(k, w)
    ensures Conserved(k, Apply(w, op))
  {
    if op.holder < |w.holders| {
      forall a: nat
        ensures Total(k, Apply(w, op), a) == Total(k, w, a)
      {
        match op
        case Address(i) => AddressMoves(k, w, i, a);
        case Groups(i, count) => GroupsMove(k, w, i, count, a);
        case Grant(i) => GrantMoves(k, w, i, a);
      }
      match op
      case Address(i) => AddressMoves(k, w, i, 0);
      case Groups(i, count) => GroupsMove(k, w, i, count, 0);
      case Grant(i) => GrantMoves(k, w, i, 0);
    }
  }

  lemma {:induction false} RunConserves(k: Resource, w: World, ops: seq<Op>)
    requires Conserved(k, w)
    ensures Conserved(k, Run(w, ops))
    decreases |ops|
  {
    if ops != [] {
      ApplyConserves(k, w, ops[0]);
      RunConserves(k, Apply(w, ops[0]), ops[1..]);
    }
  }

  lemma {:induction false} HolderCounts(k: Resource, hs: seq<Ranges>, a: nat, i: nat)
    requires i < |hs| && a in Free(k, hs[i])
    ensures Holders(k, hs, a) >= 1
    ensures forall j :: 0 <= j < i && a in Free(k, hs[j]) ==> Holders(k, hs, a) >= 2
  {
    var n := |hs| - 1;
    if i < n {
      HolderCounts(k, hs[..n], a, i);
      assert forall j :: 0 <= j < i ==> hs[..n][j] == hs[j];
    } else {
      forall j | 0 <= j < i && a in Free(k, hs[j])
        ensures Holders(k, hs, a) >= 2
      {
        HolderCounts(k, hs[..n], a, j);
      }
    }
  }

  lemma {:induction false} HolderOf(k: Resource, hs: seq<Ranges>, a: nat) returns (i: nat)
    requires Holders(k, hs, a) > 0
    ensures i < |hs| && a in Free(k, hs[i])
  {
    var n := |hs| - 1;
    if a in Free(k, hs[n]) {
      i := n;
    } else {
      i := HolderOf(k, hs[..n], a);
    }
  }

  /** Of everything between the bounds there is exactly one: handed out once, or free in
      exactly one holder's interval; and nothing outside the bounds is either. */
  ghost predicate Partition(k: Resource, w: World) {
    var handed, hs := Handed(k, w), w.holders;
    && (forall i, j :: 0 <= i < j < |handed| ==> handed[i] != handed[j])
    && (forall i, h :: 0 <= i < |handed| && 0 <= h < |hs| ==> handed[i] !in Free(k, hs[h]))
    && (forall g, h, a :: 0 <= g < h < |hs| && a in Free(k, hs[g]) ==> a !in Free(k, hs[h]))
    && (forall a :: Between(FIRST, a, LastOf(k)) <==> a in handed || exists h :: 0 <= h < |hs| && a in Free(k, hs[h]))
  }

  lemma ConservedIsPartition(k: Resource, w: World)
    requires Conserved(k, w)
    ensures Partition(k, w)
  {
    var handed, hs := Handed(k, w), w.holders;
    forall a: nat
      ensures multiset(handed)[a] + Holders(k, hs, a) <= 1
    {
      assert Total(k, w, a) == One(Between(FIRST, a, LastOf(k)));
    }
    forall i, j | 0 <= i < j < |handed|
      ensures handed[i] != handed[j]
    {
      if handed[i] == handed[j] {
        CountTwice(handed, i, j);
      }
    }
    forall i, h | 0 <= i < |handed| && 0 <= h < |hs|
      ensures handed[i] !in Free(k, hs[h])
    {
      assert handed[i] in multiset(handed);
      if handed[i] in Free(k, hs[h]) {
        HolderCounts(k, hs, handed[i], h);
      }
    }
    forall g, h, a | 0 <= g < h < |hs| && a in Free(k, hs[g])
      ensures a !in Free(k, hs[h])
    {
      if a in Free(k, hs[h]) {
        HolderCounts(k, hs, a, h);
      }
    }
    forall a
      ensures Between(FIRST, a, LastOf(k)) <==> a in handed || exists h :: 0 <= h < |hs| && a in Free(k, hs[h])
    {
      assert a in handed <==> multiset(handed)[a] > 0;
      assert Total(k, w, a) == One(Between(FIRST, a, LastOf(k)));
      if Holders(k, hs, a) > 0 {
        var h := HolderOf(k, hs, a);
      }
      if h :| 0 <= h < |hs| && a in Free(k, hs[h]) {
        HolderCounts(k, hs, a, h);
      }
    }
  }

  /** From one factory-new node, whatever the holders do and in whatever order, no address
      or group is ever handed out twice, held twice, or lost. */
  lemma NothingTwiceNothingLost(k: Resource, ops: seq<Op>)
    ensures Partition(k, Run(ORIGIN, ops))
  {
    forall a: nat
      ensures Total(k, ORIGIN, a) == One(Between(FIRST, a, LastOf(k)))
    {
      assert ORIGIN.holders[..0] == [];
      assert Holders(k, ORIGIN.holders[..0], a) == 0;
    }
    RunConserves(k, ORIGIN, ops);
    ConservedIsPartition(k, Run(ORIGIN, ops));
  }
}
