/**
 The APS duplicate rejection table: a fixed-capacity set of (source, counter)
 pairs, each live until its expiry. Recording drops what has expired, refreshes
 a pair that is already there, and evicts the pair closest to expiry when the
 table is full.
 */
module DuplicateRejection {
  import opened Types
  import opened Collections
  import opened Assoc

  /** What identifies a frame: its source address and its APS counter. */
  datatype Key = Key(src: U16, counter: Octet)

  /** A remembered pair with its expiry. */
  type Record = (Key, Instant)

  /** The table as a value: each remembered pair with its expiry. */
  type Table = map<Key, Instant>

  // ------------------------------------------------------------------
  // What one call does, on table values
  // ------------------------------------------------------------------

  function Live(m: Table, now: Instant): Table {
    map k | k in m && now < m[k] :: m[k]
  }

  ghost predicate ClosestToExpiry(m: Table, v: Key) {
    v in m && forall k :: k in m ==> m[v] <= m[k]
  }

  ghost predicate Evicts(m: Table, v: Key, key: Key, expires: Instant, m': Table) {
    ClosestToExpiry(m, v) && m' == (m - {v})[key := expires]
  }

  /** One call: `dup` is its answer and `m'` the table it leaves behind. Which of
      several equally old pairs goes is left open. */
  ghost predicate Step(capacity: nat, m: Table, key: Key, now: Instant, expires: Instant, dup: bool, m': Table) {
    var live := Live(m, now);
    && (dup <==> key in live)
    && (if dup || |live| < capacity then m' == live[key := expires]
        else if live == map[] then m' == live
        else exists v :: Evicts(live, v, key, expires, m'))
  }

  // ------------------------------------------------------------------
  // The table itself
  // ------------------------------------------------------------------

  ghost function Contents(es: seq<Record>): Table {
    ToMap<Key, Instant>(es)
  }

  class DuplicateRejectionTable {
    const capacity: nat
    var entries: seq<Record>

    ghost predicate Valid()
      reads this
    {
      DistinctKeys<Key, Instant>(entries) && |entries| <= capacity
    }

    constructor (capacity: nat)
      ensures Valid() && this.capacity == capacity && Contents(entries) == map[]
    {
      this.capacity := capacity;
      entries := [];
    }

    /** Drops every record whose expiry `now` has reached. */
    method Retain(now: Instant)
      requires Valid()
      modifies this
      ensures Valid()
      ensures Contents(entries) == Live(old(Contents(entries)), now)
    {
      hide Contents, ToMap;
      var kept: seq<Record> := [];
      for i := 0 to |entries|
        invariant entries == old(entries)
        invariant |kept| <= i && DistinctKeys<Key, Instant>(kept)
        invariant forall r :: r in kept <==> r in entries[..i] && now < r.1
      {
        assert forall r :: r in entries[..i] ==> r.0 != entries[i].0;
        assert entries[..i + 1] == entries[..i] + [entries[i]];
        if !(now >= entries[i].1) {
          kept := kept + [entries[i]];
        }
      }
      assert entries[..|entries|] == entries;
      KeptContents(entries, now, kept);
      entries := kept;
    }

    /** The first of the entries closest to expiry. */
    method FindClosest() returns (best: nat)
      requires Valid() && entries != []
      ensures best < |entries|
      ensures ClosestToExpiry(Contents(entries), entries[best].0)
    {
      best := 0;
      for i := 1 to |entries|
        invariant best < |entries|
        invariant forall j :: 0 <= j < i ==> entries[best].1 <= entries[j].1
      {
        if entries[i].1 < entries[best].1 {
          best := i;
        }
      }
      ToMapPairs<Key, Instant>(entries);
      assert entries[best] in entries;
    }

    /** Removes entry `i`, moving the last one into its place. */
    method SwapRemove(i: nat)
      requires Valid() && i < |entries|
      modifies this
      ensures Valid() && |entries| == |old(entries)| - 1
      ensures Contents(entries) == old(Contents(entries)) - {old(entries[i].0)}
    {
      var last := entries[|entries| - 1];
      SwappedContents(entries, i);
      entries := entries[i := last][..|entries| - 1];
    }

    /** Appends a record unless the table is full. */
    method Push(r: Record) returns (ok: bool)
      requires Valid() && r.0 !in Contents(entries)
      modifies this
      ensures Valid()
      ensures ok <==> |old(entries)| < capacity
      ensures ok ==> Contents(entries) == old(Contents(entries))[r.0 := r.1]
      ensures !ok ==> entries == old(entries)
    {
      ok := |entries| < capacity;
      if ok {
        ToMapAppend<Key, Instant>(entries, r.0, r.1);
        entries := entries + [r];
      }
    }

    /** Records the pair at `now`; true when it was already there. */
    method CheckAndRecord(key: Key, now: Instant, lifetime: nat) returns (dup: bool)
      requires Valid()
      modifies this
      ensures Valid()
      ensures Step(capacity, old(Contents(entries)), key, now, After(now, lifetime), dup, Contents(entries))
    {
      Retain(now);
      ghost var live := Contents(entries);
      ToMapPairs<Key, Instant>(entries);
      IndexOfMember<Key, Instant>(entries, key);
      var i := Position<Key, Instant>(entries, key);
      if i < |entries| {
        ToMapUpdate<Key, Instant>(entries, i, After(now, lifetime));
        entries := entries[i := (key, After(now, lifetime))];
        return true;
      }
      var rec := (key, After(now, lifetime));
      var ok := Push(rec);
      if !ok {
        if |entries| > 0 {
          var v := FindClosest();
          ghost var victim := entries[v].0;
          SwapRemove(v);
          ok := Push(rec);
          assert Evicts(live, victim, key, After(now, lifetime), Contents(entries));
        } else {
          ok := Push(rec);
          assert live == map[];
        }
      }
      return false;
    }
  }

  lemma KeptContents(es: seq<Record>, now: Instant, kept: seq<Record>)
    requires DistinctKeys<Key, Instant>(es) && DistinctKeys<Key, Instant>(kept)
    requires forall r :: r in kept <==> r in es && now < r.1
    ensures Contents(kept) == Live(Contents(es), now)
  {
    ToMapPairs<Key, Instant>(es);
    ToMapUnique<Key, Instant>(kept, Live(Contents(es), now));
  }

  lemma SwappedContents(es: seq<Record>, i: nat)
    requires DistinctKeys<Key, Instant>(es) && i < |es|
    ensures var shorter := es[i := es[|es| - 1]][..|es| - 1];
            DistinctKeys<Key, Instant>(shorter) && Contents(shorter) == Contents(es) - {es[i].0}
  {
    ToMapPairs<Key, Instant>(es);
    var n := |es| - 1;
    var shorter, m := es[i := es[n]][..n], Contents(es) - {es[i].0};
    forall r | r in shorter
      ensures r.0 in m && m[r.0] == r.1
    {
      assert r in es && r.0 != es[i].0;
    }
    forall k | k in m
      ensures (k, m[k]) in shorter
    {
      var j :| 0 <= j < |es| && es[j] == (k, m[k]);
      assert shorter[if j == n then i else j] == es[j];
    }
    ToMapUnique<Key, Instant>(shorter, m);
  }

  // ------------------------------------------------------------------
  // Whole runs: one lifetime, a clock that never goes back
  // ------------------------------------------------------------------

  datatype Call = Call(key: Key, now: Instant)

  function Expiry(c: Call, lifetime: nat): Instant {
    After(c.now, lifetime)
  }

  /** `tables[i]` is the table before call `i` and `dups[i]` that call's answer. */
  ghost predicate IsRun(capacity: nat, lifetime: nat, calls: seq<Call>, tables: seq<Table>, dups: seq<bool>) {
    && |tables| == |calls| + 1 && |dups| == |calls|
    && tables[0] == map[]
    && (forall i, j :: 0 <= i <= j < |calls| ==> calls[i].now <= calls[j].now)
    && (forall i :: 0 <= i < |calls| ==>
          Step(capacity, tables[i], calls[i].key, calls[i].now, Expiry(calls[i], lifetime), dups[i], tables[i + 1]))
  }

  /** The expiry each pair got when it was last recorded. */
  function Last(calls: seq<Call>, lifetime: nat): (m: Table) {
    if calls == [] then map[]
    else
      var c := calls[|calls| - 1];
      Last(calls[..|calls| - 1], lifetime)[c.key := Expiry(c, lifetime)]
  }

  lemma {:induction false} LastAt(calls: seq<Call>, lifetime: nat, j: nat)
    requires j < |calls|
    requires forall n :: j < n < |calls| ==> calls[n].key != calls[j].key
    ensures calls[j].key in Last(calls, lifetime)
    ensures Last(calls, lifetime)[calls[j].key] == Expiry(calls[j], lifetime)
  {
    if j < |calls| - 1 {
      LastAt(calls[..|calls| - 1], lifetime, j);
    }
  }

  lemma {:induction false} LastSource(calls: seq<Call>, lifetime: nat, k: Key) returns (j: nat)
    requires k in Last(calls, lifetime)
    ensures j < |calls| && calls[j].key == k
    ensures forall n :: j < n < |calls| ==> calls[n].key != k
    ensures Last(calls, lifetime)[k] == Expiry(calls[j], lifetime)
  {
    if calls[|calls| - 1].key == k {
      j := |calls| - 1;
    } else {
      j := LastSource(calls[..|calls| - 1], lifetime, k);
    }
  }

  /** The other pairs recorded no earlier (`strict`: later) than `k`, in expiry order. */
  ghost function Younger(last: Table, k: Key, strict: bool): set<Key>
    requires k in last
  {
    set o | o in last && o != k && (last[o] > last[k] || (!strict && last[o] == last[k]))
  }

  /** What the table is, in terms of the history: it holds pairs with the expiry of
      their last recording, it never keeps a pair and forgets a younger one, and it
      forgets a live pair only once `capacity` others are at least as young. */
  ghost predicate Remembers(capacity: nat, m: Table, last: Table, now: Instant) {
    && |m| <= capacity
    && (forall k :: k in m ==> k in last && m[k] == last[k])
    && (forall k, o :: k in m && o in last && last[o] > last[k] && last[o] > now ==> o in m)
    && (forall k :: k in last && k !in m && now < last[k] ==> |Younger(last, k, false)| >= capacity)
  }

  lemma LiveRemembers(capacity: nat, m: Table, last: Table, before: Instant, now: Instant)
    requires Remembers(capacity, m, last, before) && before <= now
    ensures Remembers(capacity, Live(m, now), last, now)
  {
    SubsetSize(Live(m, now).Keys, m.Keys);
  }

  /** Recording `key` last of all only makes other pairs look older. */
  lemma YoungerGrows(last: Table, k: Key, key: Key, x: Instant)
    requires k in last && k != key && last[k] <= x
    ensures |Younger(last, k, false)| <= |Younger(last[key := x], k, false)|
  {
    SubsetSize(Younger(last, k, false), Younger(last[key := x], k, false));
  }

  lemma KeepRemembers(capacity: nat, live: Table, last: Table, now: Instant, key: Key, x: Instant)
    requires Remembers(capacity, live, last, now)
    requires forall k :: k in last ==> last[k] <= x
    requires key in live || |live| < capacity
    ensures Remembers(capacity, live[key := x], last[key := x], now)
  {
    assert live[key := x].Keys == live.Keys + {key};
    forall k | k in last[key := x] && k !in live[key := x] && now < last[k]
      ensures |Younger(last[key := x], k, false)| >= capacity
    {
      YoungerGrows(last, k, key, x);
    }
  }

  lemma EvictRemembers(capacity: nat, live: Table, last: Table, now: Instant, v: Key, key: Key, x: Instant, m': Table)
    requires Remembers(capacity, live, last, now) && |live| == capacity
    requires forall k :: k in last ==> last[k] <= x
    requires key !in live && Evicts(live, v, key, x, m')
    ensures Remembers(capacity, m', last[key := x], now)
  {
    var last' := last[key := x];
    assert m'.Keys == live.Keys - {v} + {key};
    forall k | k in last' && k !in m' && now < last'[k]
      ensures |Younger(last', k, false)| >= capacity
    {
      if k == v {
        assert live.Keys - {v} + {key} <= Younger(last', v, false);
        SubsetSize(live.Keys - {v} + {key}, Younger(last', v, false));
      } else {
        YoungerGrows(last, k, key, x);
      }
    }
  }

  lemma StepRemembers(capacity: nat, m: Table, last: Table, before: Instant, key: Key, now: Instant, x: Instant, dup: bool, m': Table)
    requires Remembers(capacity, m, last, before) && before <= now
    requires forall k :: k in last ==> last[k] <= x
    requires Step(capacity, m, key, now, x, dup, m')
    ensures Remembers(capacity, m', last[key := x], now)
  {
    LiveRemembers(capacity, m, last, before, now);
    var live := Live(m, now);
    if dup || |live| < capacity {
      KeepRemembers(capacity, live, last, now, key, x);
    } else if live != map[] {
      var v :| Evicts(live, v, key, x, m');
      EvictRemembers(capacity, live, last, now, v, key, x, m');
    }
  }

  lemma RunStep(capacity: nat, lifetime: nat, calls: seq<Call>, tables: seq<Table>, dups: seq<bool>, i: nat)
    requires IsRun(capacity, lifetime, calls, tables, dups) && i < |calls|
    ensures Step(capacity, tables[i], calls[i].key, calls[i].now, Expiry(calls[i], lifetime), dups[i], tables[i + 1])
    ensures forall j :: 0 <= j <= i ==> calls[j].now <= calls[i].now
  {
  }

  /** Expiries follow the clock. */
  lemma {:induction false} LastBounded(calls: seq<Call>, lifetime: nat, now: Instant)
    requires forall j :: 0 <= j < |calls| ==> calls[j].now <= now
    ensures forall k :: k in Last(calls, lifetime) ==> Last(calls, lifetime)[k] <= After(now, lifetime)
  {
    if calls != [] {
      LastBounded(calls[..|calls| - 1], lifetime, now);
      AfterMonotone(calls[|calls| - 1].now, now, lifetime);
    }
  }

  lemma {:induction false} RunRemembers(capacity: nat, lifetime: nat, calls: seq<Call>, tables: seq<Table>, dups: seq<bool>, i: nat)
    requires IsRun(capacity, lifetime, calls, tables, dups) && i <= |calls|
    ensures Remembers(capacity, tables[i], Last(calls[..i], lifetime), if i == 0 then 0 else calls[i - 1].now)
  {
    if i > 0 {
      hide Step, Remembers, IsRun;
      RunRemembers(capacity, lifetime, calls, tables, dups, i - 1);
      RunStep(capacity, lifetime, calls, tables, dups, i - 1);
      assert calls[..i][..i - 1] == calls[..i - 1];
      var c := calls[i - 1];
      LastBounded(calls[..i - 1], lifetime, c.now);
      StepRemembers(capacity, tables[i - 1], Last(calls[..i - 1], lifetime),
                    if i == 1 then 0 else calls[i - 2].now, c.key, c.now, Expiry(c, lifetime), dups[i - 1], tables[i]);
    }
  }

  /** Call `j` is the last one before call `i` that recorded the pair of call `i`. */
  ghost predicate LastBefore(calls: seq<Call>, i: nat, j: nat) {
    && j < i < |calls| && calls[j].key == calls[i].key
    && forall n :: j < n < i ==> calls[n].key != calls[i].key
  }

  /** The other pairs recorded before call `i` that expire no sooner than the recording at `j`. */
  ghost function NoOlder(calls: seq<Call>, lifetime: nat, i: nat, j: nat): set<Key>
    requires j < i < |calls|
  {
    set n | 0 <= n < i && calls[n].key != calls[j].key && Expiry(calls[n], lifetime) >= Expiry(calls[j], lifetime) :: calls[n].key
  }

  /** The other pairs recorded before call `i` that expire later than the recording at `j`. */
  ghost function Newer(calls: seq<Call>, lifetime: nat, i: nat, j: nat): set<Key>
    requires j < i < |calls|
  {
    set n | 0 <= n < i && calls[n].key != calls[j].key && Expiry(calls[n], lifetime) > Expiry(calls[j], lifetime) :: calls[n].key
  }

  lemma AnswerAt(capacity: nat, lifetime: nat, calls: seq<Call>, tables: seq<Table>, dups: seq<bool>, i: nat)
    requires IsRun(capacity, lifetime, calls, tables, dups) && i < |calls|
    ensures dups[i] <==> calls[i].key in tables[i] && calls[i].now < tables[i][calls[i].key]
    ensures var before := if i == 0 then 0 else calls[i - 1].now;
            Remembers(capacity, tables[i], Last(calls[..i], lifetime), before)
  {
    assert Step(capacity, tables[i], calls[i].key, calls[i].now, Expiry(calls[i], lifetime), dups[i], tables[i + 1]);
    RunRemembers(capacity, lifetime, calls, tables, dups, i);
  }

  /** A pair is reported duplicate only within the lifetime of an earlier recording. */
  lemma DuplicateWasRecorded(capacity: nat, lifetime: nat, calls: seq<Call>, tables: seq<Table>, dups: seq<bool>, i: nat) returns (j: nat)
    requires IsRun(capacity, lifetime, calls, tables, dups)
    requires i < |calls| && dups[i]
    ensures LastBefore(calls, i, j) && calls[i].now < Expiry(calls[j], lifetime)
  {
    AnswerAt(capacity, lifetime, calls, tables, dups, i);
    j := LastSource(calls[..i], lifetime, calls[i].key);
    assert forall n :: j < n < i ==> calls[..i][n] == calls[n];
  }

  /** A live pair is forgotten only after `capacity` distinct others, each expiring no
      sooner, were recorded. */
  lemma ForgottenOnlyWhenCrowded(capacity: nat, lifetime: nat, calls: seq<Call>, tables: seq<Table>, dups: seq<bool>, i: nat, j: nat)
    requires IsRun(capacity, lifetime, calls, tables, dups)
    requires LastBefore(calls, i, j) && calls[i].now < Expiry(calls[j], lifetime)
    ensures !dups[i] ==> |NoOlder(calls, lifetime, i, j)| >= capacity
  {
    if !dups[i] {
      AnswerAt(capacity, lifetime, calls, tables, dups, i);
      LastAt(calls[..i], lifetime, j);
      var last := Last(calls[..i], lifetime);
      forall o | o in Younger(last, calls[i].key, false)
        ensures o in NoOlder(calls, lifetime, i, j)
      {
        var n := LastSource(calls[..i], lifetime, o);
        assert calls[..i][n] == calls[n];
      }
      SubsetSize(Younger(last, calls[i].key, false), NoOlder(calls, lifetime, i, j));
    }
  }

  /** The other pairs recorded before call `i` and not before call `j`. */
  ghost function RecordedSince(calls: seq<Call>, i: nat, j: nat): set<Key>
    requires j < i < |calls|
  {
    set n | 0 <= n < i && calls[n].key != calls[j].key && calls[n].now >= calls[j].now :: calls[n].key
  }

  /** A pair recorded last at some time, not within a lifetime of the end of the clock, is reported
      duplicate at every later time within the lifetime, unless `capacity` distinct others were
      recorded at or after that time. */
  lemma DuplicateUnlessCrowded(capacity: nat, lifetime: nat, calls: seq<Call>, tables: seq<Table>, dups: seq<bool>, i: nat, j: nat)
    requires IsRun(capacity, lifetime, calls, tables, dups) && LastBefore(calls, i, j)
    requires calls[i].now < calls[j].now + lifetime <= FAR_FUTURE
    ensures dups[i] || |RecordedSince(calls, i, j)| >= capacity
  {
    assert NoOlder(calls, lifetime, i, j) == RecordedSince(calls, i, j);
    ForgottenOnlyWhenCrowded(capacity, lifetime, calls, tables, dups, i, j);
  }

  /** And `capacity` distinct others that expire later always crowd a pair out. */
  lemma CrowdedOutIsForgotten(capacity: nat, lifetime: nat, calls: seq<Call>, tables: seq<Table>, dups: seq<bool>, i: nat, j: nat)
    requires IsRun(capacity, lifetime, calls, tables, dups)
    requires LastBefore(calls, i, j) && calls[i].now < Expiry(calls[j], lifetime)
    ensures |Newer(calls, lifetime, i, j)| >= capacity ==> !dups[i]
  {
    if dups[i] {
      AnswerAt(capacity, lifetime, calls, tables, dups, i);
      LastAt(calls[..i], lifetime, j);
      var m, k, last := tables[i], calls[i].key, Last(calls[..i], lifetime);
      forall o | o in Newer(calls, lifetime, i, j)
        ensures o in m.Keys - {k}
      {
        var n :| 0 <= n < i && calls[n].key == o && o != k && Expiry(calls[n], lifetime) > Expiry(calls[j], lifetime);
        LastNoSooner(calls[..i], lifetime, n);
        assert o in last && last[o] > last[k];
      }
      SubsetSize(Newer(calls, lifetime, i, j), m.Keys - {k});
      assert m.Keys == (m.Keys - {k}) + {k};
    }
  }

  lemma {:induction false} LastNoSooner(calls: seq<Call>, lifetime: nat, n: nat)
    requires n < |calls|
    requires forall a, b :: 0 <= a <= b < |calls| ==> calls[a].now <= calls[b].now
    ensures calls[n].key in Last(calls, lifetime)
    ensures Expiry(calls[n], lifetime) <= Last(calls, lifetime)[calls[n].key]
  {
    if n < |calls| - 1 {
      LastNoSooner(calls[..|calls| - 1], lifetime, n);
      AfterMonotone(calls[n].now, calls[|calls| - 1].now, lifetime);
    }
  }

  /** The table is a least-recently-recorded cache with expiry: a call answers duplicate exactly
      when its pair was recorded less than `lifetime` ago and fewer than `capacity` distinct
      pairs have been recorded since; provided no other pair was recorded at that same instant,
      and that it was not within `lifetime` of the end of the clock. */
  lemma DuplicateExactly(capacity: nat, lifetime: nat, calls: seq<Call>, tables: seq<Table>, dups: seq<bool>, i: nat, j: nat)
    requires IsRun(capacity, lifetime, calls, tables, dups) && LastBefore(calls, i, j)
    requires forall n :: 0 <= n < i && calls[n].key != calls[j].key ==> calls[n].now != calls[j].now
    requires calls[j].now + lifetime < FAR_FUTURE
    ensures dups[i] <==> calls[i].now < calls[j].now + lifetime
                         && |set n | j < n < i :: calls[n].key| < capacity
  {
    var since := set n | j < n < i :: calls[n].key;
    assert since == NoOlder(calls, lifetime, i, j) == Newer(calls, lifetime, i, j);
    if dups[i] {
      var j' := DuplicateWasRecorded(capacity, lifetime, calls, tables, dups, i);
      assert j' == j;
    }
    if calls[i].now < calls[j].now + lifetime {
      ForgottenOnlyWhenCrowded(capacity, lifetime, calls, tables, dups, i, j);
      CrowdedOutIsForgotten(capacity, lifetime, calls, tables, dups, i, j);
    }
  }
}
