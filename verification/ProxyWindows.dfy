/**
 What the Basic Proxy keeps for a time: the frames it has heeded, which it does not heed
 again, and commissioning mode.
 */
module ProxyWindows {
  import opened Types
  import opened GreenPower
  import opened ProxyTable
  import opened Proxy
  import opened ProxyFreshness
  import opened ProxyFanout

  // ------------------------------------------------------------------
  // Frames heeded
  // ------------------------------------------------------------------

  /** A data frame is heeded unless it is a command for devices; in commissioning mode a commissioning frame always
      is; another one must open, and must not be unprotected where its device's entry is protected. */
  predicate HeedsData(c: Config, s: State, f: Gpdf)
    requires Arrives(s, f)
  {
    var g := f.gpd.value;
    var o := Process(c, s.table, f, g);
    var cmd := o.payload[0];
    && !(o.status.Success? && IsToGpd(cmd))
    && ((s.commissioning.Some? && IsCommissioningFrame(f, cmd))
        || (!Failed(o) && !(f.level.Unprotected? && EntryProtected(s.table, g))))
  }

  predicate HeedsMaintenance(s: State, f: Gpdf) {
    && f.payload != [] && !IsToGpd(f.payload[0]) && s.commissioning.Some? && !s.away
    && !IsDuplicate(s.duplicates, UNSPECIFIED, f.macSequence)
  }

  /** A frame that was heeded, as it is recognised later: by its device and counter, up to a time. */
  datatype Record = Record(gpd: GpdId, counter: U32, until: Instant, step: nat)

  /** The record an input leaves behind. */
  function RecordOf(c: Config, s: State, i: Input, step: nat): (r: seq<Record>)
    ensures |r| <= 1
  {
    if !i.Frame? || i.frame.fromProxy then []
    else if i.frame.maintenance then
      if HeedsMaintenance(s, i.frame) then [Record(SrcId(0), i.frame.macSequence, After(s.now, 2000), step)] else []
    else if Arrives(s, i.frame) && HeedsData(c, s, i.frame) then
      [Record(i.frame.gpd.value, Counter(i.frame), After(s.now, 2000), step)]
    else []
  }

  /** The records of the first `n` inputs, in their order. */
  function Records(c: Config, inputs: seq<Input>, states: seq<State>, n: nat): seq<Record>
    requires n <= |inputs| && n <= |states|
  {
    if n == 0 then [] else Records(c, inputs, states, n - 1) + RecordOf(c, states[n - 1], inputs[n - 1], n - 1)
  }

  /** A tick after it reached the end of its time. */
  ghost predicate Lapsed(inputs: seq<Input>, r: Record, n: nat)
    requires n <= |inputs|
  {
    exists t :: r.step < t < n && inputs[t].Tick? && inputs[t].now >= r.until
  }

  /** The clock never goes back. */
  ghost predicate Steady(inputs: seq<Input>, states: seq<State>) {
    |states| == |inputs| + 1 && forall i :: 0 <= i < |inputs| && inputs[i].Tick? ==> inputs[i].now >= states[i].now
  }

  function Remembered(r: Record): Duplicate {
    Duplicate(r.gpd, r.counter, r.until)
  }

  /** What one input does to the frames remembered. */
  lemma StepRemembers(c: Config, capacity: nat, s: State, i: Input, step: nat)
    ensures var (ds, r) := (s.duplicates, RecordOf(c, s, i, step));
            Next(c, capacity, s, i).duplicates
            == if i.Tick? then Live(ds, i.now)
               else if r == [] then ds
               else (if |ds| < 8 then ds else ds[1..]) + [Remembered(r[0])]
    ensures Next(c, capacity, s, i).now == if i.Tick? then i.now else s.now
  {
    hide Process, Pair, Heard, IsDuplicate, EncodedLength;
  }

  predicate Sorted(ds: seq<Duplicate>) {
    forall i, j :: 0 <= i < j < |ds| ==> ds[i].until <= ds[j].until
  }

  /** Just the first `p` have reached their time. */
  predicate OldOnes(ds: seq<Duplicate>, now: Instant, p: nat) {
    p <= |ds| && (forall i :: 0 <= i < p ==> ds[i].until <= now) && (forall i :: p <= i < |ds| ==> ds[i].until > now)
  }

  /** Of frames in the order of their times the old ones are the first. */
  lemma {:induction false} OldOnesFirst(ds: seq<Duplicate>, now: Instant) returns (p: nat)
    requires Sorted(ds)
    ensures OldOnes(ds, now, p)
  {
    if ds == [] || ds[|ds| - 1].until <= now {
      p := |ds|;
    } else {
      p := OldOnesFirst(ds[..|ds| - 1], now);
    }
  }

  lemma {:induction false} LiveAreOthers(ds: seq<Duplicate>, now: Instant, p: nat)
    requires OldOnes(ds, now, p)
    ensures Live(ds, now) == ds[p..]
  {
    if ds != [] {
      var m := |ds| - 1;
      if p > m {
        LiveAreOthers(ds[..m], now, m);
      } else {
        LiveAreOthers(ds[..m], now, p);
        assert ds[p..] == ds[..m][p..] + [ds[m]];
      }
    }
  }

  /** Records are made in the order of their times, and before now. */
  predicate InOrder(rs: seq<Record>, n: nat, now: Instant) {
    && (forall k :: 0 <= k < |rs| ==> rs[k].step < n && rs[k].until <= After(now, 2000))
    && (forall j, k :: 0 <= j < k < |rs| ==> rs[j].until <= rs[k].until)
  }

  lemma {:induction false} RecordsInOrder(c: Config, capacity: nat, inputs: seq<Input>, states: seq<State>, n: nat)
    requires IsRun(c, capacity, inputs, states) && Steady(inputs, states) && n <= |inputs|
    ensures InOrder(Records(c, inputs, states, n), n, states[n].now)
  {
    if n > 0 {
      hide Next, RecordOf, InOrder;
      RecordsInOrder(c, capacity, inputs, states, n - 1);
      var rs, r := Records(c, inputs, states, n - 1), RecordOf(c, states[n - 1], inputs[n - 1], n - 1);
      assert states[n - 1 + 1] == Next(c, capacity, states[n - 1], inputs[n - 1]);
      StepRemembers(c, capacity, states[n - 1], inputs[n - 1], n - 1);
      assert Records(c, inputs, states, n) == rs + r;
      if r != [] {
        RecordIsNow(c, states[n - 1], inputs[n - 1], n - 1);
      }
      OrderKept(rs, r, n - 1, states[n - 1].now, states[n].now);
    }
  }

  lemma OrderKept(rs: seq<Record>, r: seq<Record>, n: nat, now: Instant, now': Instant)
    requires InOrder(rs, n, now) && now <= now' && |r| <= 1
    requires r != [] ==> r[0].step == n && r[0].until == After(now, 2000) && now == now'
    ensures InOrder(rs + r, n + 1, now')
  {
  }

  lemma RecordIsNow(c: Config, s: State, i: Input, step: nat)
    requires RecordOf(c, s, i, step) != []
    ensures var r := RecordOf(c, s, i, step)[0];
            !i.Tick? && r.step == step && r.until == After(s.now, 2000)
  {
    hide HeedsData;
  }

  /** The frames remembered are the last ones: those among the last eight whose time is not over. */
  ghost predicate Last8(inputs: seq<Input>, rs: seq<Record>, ds: seq<Duplicate>, n: nat, lo: nat)
    requires n <= |inputs|
  {
    && |rs| == lo + |ds| && (forall i :: 0 <= i < |ds| ==> ds[i] == Remembered(rs[lo + i]))
    && forall k :: 0 <= k < |rs| ==> (k < lo <==> Gone(inputs, rs, n, k))
  }

  /** Its time is over, or eight were heeded after it. */
  ghost predicate Gone(inputs: seq<Input>, rs: seq<Record>, n: nat, k: nat)
    requires n <= |inputs| && k < |rs|
  {
    Lapsed(inputs, rs[k], n) || |rs| - k > 8
  }

  lemma TickKeepsLast(inputs: seq<Input>, rs: seq<Record>, ds: seq<Duplicate>, n: nat, lo: nat, now: Instant)
    returns (lo': nat)
    requires n < |inputs| && Last8(inputs, rs, ds, n, lo) && inputs[n].Tick? && InOrder(rs, n, now)
    ensures Last8(inputs, rs, Live(ds, inputs[n].now), n + 1, lo')
  {
    hide Lapsed, Live;
    var next := n + 1;
    var p := OldOnesFirst(ds, inputs[n].now);
    LiveAreOthers(ds, inputs[n].now, p);
    lo' := lo + p;
    forall k | 0 <= k < |rs|
      ensures k < lo' <==> Gone(inputs, rs, next, k)
    {
      LapsedNow(inputs, rs[k], n);
      assert k < lo <==> Gone(inputs, rs, n, k);
      if lo <= k {
        assert ds[k - lo] == Remembered(rs[lo + (k - lo)]);
      }
    }
  }

  lemma OtherKeepsLast(inputs: seq<Input>, rs: seq<Record>, ds: seq<Duplicate>, n: nat, lo: nat, now: Instant)
    requires n < |inputs| && Last8(inputs, rs, ds, n, lo) && !inputs[n].Tick? && InOrder(rs, n, now)
    ensures Last8(inputs, rs, ds, n + 1, lo)
  {
    hide Lapsed;
    var next := n + 1;
    forall k | 0 <= k < |rs|
      ensures k < lo <==> Gone(inputs, rs, next, k)
    {
      LapsedNow(inputs, rs[k], n);
      assert k < lo <==> Gone(inputs, rs, n, k);
    }
  }

  lemma RecordKeepsLast(inputs: seq<Input>, rs: seq<Record>, ds: seq<Duplicate>, n: nat, lo: nat, r: Record)
    requires n <= |inputs| && Last8(inputs, rs, ds, n, lo) && !Lapsed(inputs, r, n)
    ensures Last8(inputs, rs + [r], (if |ds| < 8 then ds else ds[1..]) + [Remembered(r)], n, if |ds| < 8 then lo else lo + 1)
  {
    hide Lapsed;
    assert lo < |rs| ==> !Gone(inputs, rs, n, lo);
    forall k | 0 <= k < |rs|
      ensures Gone(inputs, rs + [r], n, k) <==> k < if |ds| < 8 then lo else lo + 1
    {
      assert (rs + [r])[k] == rs[k] && (k < lo <==> Gone(inputs, rs, n, k));
    }
  }

  /** One step more. */
  lemma StepKeepsLast(
    inputs: seq<Input>, rs: seq<Record>, ds: seq<Duplicate>, n: nat, lo: nat, now: Instant, r: seq<Record>, ds': seq<Duplicate>)
    returns (lo': nat)
    requires n < |inputs| && Last8(inputs, rs, ds, n, lo) && InOrder(rs, n, now)
    requires |r| <= 1 && (r != [] ==> !inputs[n].Tick? && r[0].step == n)
    requires ds' == if inputs[n].Tick? then Live(ds, inputs[n].now)
                    else if r == [] then ds
                    else (if |ds| < 8 then ds else ds[1..]) + [Remembered(r[0])]
    ensures Last8(inputs, rs + r, ds', n + 1, lo')
  {
    hide Live, Last8, InOrder;
    lo' := lo;
    if inputs[n].Tick? {
      assert rs + r == rs;
      lo' := TickKeepsLast(inputs, rs, ds, n, lo, now);
    } else {
      OtherKeepsLast(inputs, rs, ds, n, lo, now);
      if r == [] {
        assert rs + r == rs;
      } else {
        NotLapsed(inputs, r[0], n + 1);
        RecordKeepsLast(inputs, rs, ds, n + 1, lo, r[0]);
        assert r == [r[0]];
        lo' := if |ds| < 8 then lo else lo + 1;
      }
    }
  }

  lemma {:induction false} RememberedAre(
    c: Config, capacity: nat, inputs: seq<Input>, states: seq<State>, n: nat) returns (lo: nat)
    requires IsRun(c, capacity, inputs, states) && Steady(inputs, states) && n <= |inputs| && states[0].duplicates == []
    ensures Last8(inputs, Records(c, inputs, states, n), states[n].duplicates, n, lo)
  {
    if n == 0 {
      lo := 0;
    } else {
      hide Next, RecordOf, Live, Last8, InOrder;
      lo := RememberedAre(c, capacity, inputs, states, n - 1);
      var s, i, rs := states[n - 1], inputs[n - 1], Records(c, inputs, states, n - 1);
      assert states[n - 1 + 1] == Next(c, capacity, s, i);
      StepRemembers(c, capacity, s, i, n - 1);
      RecordsInOrder(c, capacity, inputs, states, n - 1);
      var r := RecordOf(c, s, i, n - 1);
      if r != [] {
        RecordIsNow(c, s, i, n - 1);
      }
      lo := StepKeepsLast(inputs, rs, s.duplicates, n - 1, lo, s.now, r, states[n].duplicates);
    }
  }

  lemma LapsedNow(inputs: seq<Input>, r: Record, n: nat)
    requires n < |inputs| && r.step < n
    ensures Lapsed(inputs, r, n + 1) <==> Lapsed(inputs, r, n) || (inputs[n].Tick? && inputs[n].now >= r.until)
  {
    if Lapsed(inputs, r, n) {
      var t :| r.step < t < n && inputs[t].Tick? && inputs[t].now >= r.until;
      assert r.step < t < n + 1;
    }
  }

  lemma NotLapsed(inputs: seq<Input>, r: Record, n: nat)
    requires n <= |inputs| && r.step + 1 == n
    ensures !Lapsed(inputs, r, n)
  {
  }

  /** One of the last eight frames heeded was this one, of the same device, and its time is not over. */
  ghost predicate Repeats(c: Config, inputs: seq<Input>, states: seq<State>, n: nat, g: GpdId, counter: U32)
    requires n <= |inputs| && n <= |states|
  {
    var rs := Records(c, inputs, states, n);
    exists k :: |rs| - 8 <= k < |rs| && 0 <= k && SameDevice(rs[k].gpd, g) && rs[k].counter == counter
                && !Lapsed(inputs, rs[k], n)
  }

  /** In every run a frame counts as seen exactly when it repeats one of the last eight heeded, within two seconds. */
  lemma RepeatedExactly(c: Config, capacity: nat, inputs: seq<Input>, states: seq<State>, n: nat, g: GpdId, counter: U32)
    requires IsRun(c, capacity, inputs, states) && Steady(inputs, states) && n <= |inputs| && states[0].duplicates == []
    ensures IsDuplicate(states[n].duplicates, g, counter) <==> Repeats(c, inputs, states, n, g, counter)
  {
    var lo := RememberedAre(c, capacity, inputs, states, n);
    hide Records, Lapsed;
    var rs, ds := Records(c, inputs, states, n), states[n].duplicates;
    if IsDuplicate(ds, g, counter) {
      var i :| 0 <= i < |ds| && SameDevice(ds[i].gpd, g) && ds[i].counter == counter;
      assert ds[i] == Remembered(rs[lo + i]) && !Gone(inputs, rs, n, lo + i);
    }
    if Repeats(c, inputs, states, n, g, counter) {
      var k :| |rs| - 8 <= k < |rs| && 0 <= k && SameDevice(rs[k].gpd, g) && rs[k].counter == counter
               && !Lapsed(inputs, rs[k], n);
      assert !Gone(inputs, rs, n, k);
      assert ds[k - lo] == Remembered(rs[lo + (k - lo)]);
    }
  }

  /** A repeated frame changes nothing. */
  lemma RepeatIsIgnored(
    c: Config, capacity: nat, inputs: seq<Input>, states: seq<State>, n: nat, f: Gpdf, link: Octet)
    requires IsRun(c, capacity, inputs, states) && Steady(inputs, states) && n <= |inputs| && states[0].duplicates == []
    requires if f.maintenance then Repeats(c, inputs, states, n, SrcId(0), f.macSequence)
             else f.gpd.Some? && Repeats(c, inputs, states, n, f.gpd.value, Counter(f))
    ensures OnGpdf(c, states[n], f, link) == states[n]
  {
    hide Repeats, IsDuplicate;
    if f.maintenance {
      RepeatedExactly(c, capacity, inputs, states, n, SrcId(0), f.macSequence);
    } else {
      RepeatedExactly(c, capacity, inputs, states, n, f.gpd.value, Counter(f));
    }
  }

  // ------------------------------------------------------------------
  // Commissioning mode
  // ------------------------------------------------------------------

  /** Ends a commissioning mode: any mode command, its time, or a pairing where the first one ends it. */
  predicate EndsMode(i: Input, m: Commissioning) {
    match i
    case Mode(_, _) => true
    case Tick(now) => now >= m.until
    case Command(p) => m.exitOnFirstPairing && !Dropped(p)
    case _ => false
  }

  /** The command at `i` opened this mode and nothing has ended it since. */
  ghost predicate OpenSince(c: Config, inputs: seq<Input>, states: seq<State>, i: nat, n: nat, m: Commissioning)
    requires i < n <= |inputs| && n < |states|
  {
    && Opens(c, states[i], inputs[i], m)
    && forall j :: i < j < n ==> !EndsMode(inputs[j], m)
  }

  /** What the command at hand opens. */
  ghost predicate Opens(c: Config, s: State, i: Input, m: Commissioning) {
    && i.Mode? && i.mode.enter
    && m.until == After(s.now, if i.mode.window.Some? then i.mode.window.value * 1000 else c.window)
    && m.unicastTo == (if i.mode.unicast then Some(i.src) else None)
    && m.exitOnFirstPairing == i.mode.exitOnFirstPairing
  }

  lemma ModeStep(c: Config, capacity: nat, s: State, i: Input, m: Commissioning)
    ensures Next(c, capacity, s, i).commissioning == Some(m) <==>
              Opens(c, s, i, m) || (s.commissioning == Some(m) && !EndsMode(i, m))
  {
    hide Process, Pair, Heard, IsDuplicate, EncodedLength;
  }

  /** In every run the proxy is in commissioning mode exactly from a command that opens it on until it is ended. */
  lemma {:induction false} ModeExactly(
    c: Config, capacity: nat, inputs: seq<Input>, states: seq<State>, n: nat, m: Commissioning)
    requires IsRun(c, capacity, inputs, states) && n <= |inputs| && states[0].commissioning.None?
    ensures states[n].commissioning == Some(m) <==> exists i :: 0 <= i < n && OpenSince(c, inputs, states, i, n, m)
  {
    if n > 0 {
      hide Next, Opens, EndsMode, OpenSince;
      ModeExactly(c, capacity, inputs, states, n - 1, m);
      var s, i := states[n - 1], inputs[n - 1];
      assert states[n - 1 + 1] == Next(c, capacity, s, i);
      ModeStep(c, capacity, s, i, m);
      if states[n].commissioning == Some(m) {
        if Opens(c, s, i, m) {
          OneMore(c, inputs, states, n - 1, n, m);
        } else {
          var k :| 0 <= k < n - 1 && OpenSince(c, inputs, states, k, n - 1, m);
          OneMore(c, inputs, states, k, n, m);
        }
      }
      if k :| 0 <= k < n && OpenSince(c, inputs, states, k, n, m) {
        OneMore(c, inputs, states, k, n, m);
      }
    }
  }

  lemma OneMore(c: Config, inputs: seq<Input>, states: seq<State>, k: nat, n: nat, m: Commissioning)
    requires k < n <= |inputs| && n < |states|
    ensures OpenSince(c, inputs, states, k, n, m) <==>
              if k == n - 1 then Opens(c, states[k], inputs[k], m)
              else OpenSince(c, inputs, states, k, n - 1, m) && !EndsMode(inputs[n - 1], m)
  {
    hide Opens, EndsMode;
  }
}
