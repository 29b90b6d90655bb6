/**
 Runs of the Basic Proxy: its table is always one that GP Pairings built, and a
 device with one protected entry is only ever notified with authenticated payloads
 and strictly increasing counters.
 */
module ProxyFreshness {
  import opened Types
  import opened GreenPower
  import opened Assoc
  import opened ProxyTable
  import opened Proxy
  import opened ProxyDelivery

  datatype Input =
    | Frame(frame: Gpdf, link: Octet)
    | Command(pairing: Pairing)
    | Tick(now: Instant)
    | Mode(mode: ModeCommand, src: U16)
    | Away(away: bool)
    | Dequeue

  function Next(c: Config, capacity: nat, s: State, i: Input): State {
    match i
    case Frame(f, link) => OnGpdf(c, s, f, link)
    case Command(p) => OnPairing(capacity, s, p)
    case Tick(now) => Poll(s, now)
    case Mode(cmd, src) => OnCommissioningMode(c, s, cmd, src)
    case Away(away) => s.(away := away)
    case Dequeue => s.(outgoing := if s.outgoing == [] then [] else s.outgoing[1..])
  }

  ghost predicate IsRun(c: Config, capacity: nat, inputs: seq<Input>, states: seq<State>) {
    && |states| == |inputs| + 1
    && forall i :: 0 <= i < |inputs| ==> states[i + 1] == Next(c, capacity, states[i], inputs[i])
  }

  const START := State([], None, [], [], 0, false)

  /** A frame whose counter is stored: it reaches fan-out, or opened and is passed on in commissioning mode. */
  predicate Credited(c: Config, s: State, f: Gpdf) {
    && !f.fromProxy && !f.maintenance && Arrives(s, f)
    && var g := f.gpd.value;
    var o := Process(c, s.table, f, g);
    Operates(c, s, f) || (o.status.Success? && RouteOf(s, f, g, o).Commissioned?)
  }

  /** What one input means for the table: a pairing received, a counter heard, or nothing. */
  function EventsOf(c: Config, s: State, i: Input): (es: seq<Event>)
    ensures |es| <= 1
  {
    match i
    case Command(p) => if Dropped(p) then [] else [Paired(p)]
    case Frame(f, _) => if Credited(c, s, f) then [Accepted(f.gpd.value, Counter(f))] else []
    case _ => []
  }

  /** The events of the first `n` inputs, in their order. */
  function HistoryOf(c: Config, inputs: seq<Input>, states: seq<State>, n: nat): seq<Event>
    requires n <= |inputs| && n <= |states|
  {
    if n == 0 then [] else HistoryOf(c, inputs, states, n - 1) + EventsOf(c, states[n - 1], inputs[n - 1])
  }

  lemma TableStep(c: Config, capacity: nat, s: State, i: Input)
    ensures var es := EventsOf(c, s, i);
            Next(c, capacity, s, i).table == if es == [] then s.table else TableAfter(capacity, s.table, es[0])
  {
    hide Process, Heard, Pair;
  }

  /** Whatever a proxy receives, its table is the replay of the pairings received and the counters
      heard, in their order. */
  lemma {:induction false} ReachableTable(c: Config, capacity: nat, inputs: seq<Input>, states: seq<State>, n: nat)
    requires IsRun(c, capacity, inputs, states) && states[0] == START && n <= |inputs|
    ensures states[n].table == Play(capacity, HistoryOf(c, inputs, states, n))
    ensures ValidTable(capacity, states[n].table)
    ensures Registered(states[n].table) == Replay(capacity, HistoryOf(c, inputs, states, n))
  {
    hide EventsOf, TableAfter, ValidTable, Registered, Replay, OnGpdf, OnPairing, Proxy.Poll, OnCommissioningMode;
    if n > 0 {
      ReachableTable(c, capacity, inputs, states, n - 1);
      assert states[n - 1 + 1] == Next(c, capacity, states[n - 1], inputs[n - 1]);
      TableStep(c, capacity, states[n - 1], inputs[n - 1]);
      var history, es := HistoryOf(c, inputs, states, n - 1), EventsOf(c, states[n - 1], inputs[n - 1]);
      if es == [] {
        assert history + es == history;
      } else {
        assert es == [es[0]];
      }
    }
    TableIsReplay(capacity, HistoryOf(c, inputs, states, n));
  }

  // ------------------------------------------------------------------
  // Freshness
  // ------------------------------------------------------------------

  /** The device of `k` has this one entry, protected by `sec`. */
  ghost predicate Guarded(capacity: nat, t: Table, k: GpdId, sec: Security) {
    && ValidTable(capacity, t)
    && k in Registered(t) && Registered(t)[k].traits.security == Some(sec) && !sec.level.Unprotected?
    && (forall g :: g in Registered(t) && SameDevice(g, k) ==> g == k)
  }

  ghost function Stored(t: Table, k: GpdId): U32
    requires k in Registered(t)
  {
    Registered(t)[k].traits.frameCounter
  }

  /** The notification carries what was sealed under the entry's level and key. */
  predicate Authentic(c: Config, sec: Security, f: Gpdf, n: Proxy.Command)
    requires n.Notification?
  {
    var key := DeviceKey(c, sec, n.gpd, f.individualKey);
    && n.level == sec.level && f.level == sec.level
    && f.tag.Some? && key.Some?
    && f.tag.value == Tag(key.value, sec.level, n.gpd, n.counter, f.header, f.payload, [n.commandId] + n.payload)
  }

  /** Step `i` queues the notification `n` of the device of `k`. */
  ghost predicate Notifies(c: Config, s: State, i: Input, k: GpdId, n: Proxy.Command) {
    && i.Frame? && n.Notification? && SameDevice(n.gpd, k)
    && var out := OnGpdf(c, s, i.frame, i.link).outgoing;
    exists j :: |s.outgoing| <= j < |out| && out[j].command == n
  }

  lemma MessagesCarry(rs: seq<Receiver>, k: GpdId, t: Traits, f: Gpdf, now: Instant, n: Proxy.Command, o: Outgoing)
    requires o in Messages(rs, k, t, f, now, n)
    ensures o.command == n
  {
  }

  /** Only fan-out queues GP Notifications, and they say what was opened. */
  lemma NotifiesMeansOperated(c: Config, s: State, i: Input, k: GpdId, n: Proxy.Command)
    requires Notifies(c, s, i, k, n)
    ensures Operates(c, s, i.frame) && n.gpd == i.frame.gpd.value
    ensures var f := i.frame;
            n.counter == Counter(f) && n.level == f.level && [n.commandId] + n.payload == Process(c, s.table, f, n.gpd).payload
  {
    hide Process, IsDuplicate, Find, Notify;
    var f := i.frame;
    var out := OnGpdf(c, s, f, i.link).outgoing;
    var j :| |s.outgoing| <= j < |out| && out[j].command == n;
    assert Operates(c, s, f);
    var g := f.gpd.value;
    var o := Process(c, s.table, f, g);
    OperatedNotifies(c, s, f, i.link);
    NotifyCarries(c, StoreCounter(Remember(s, g, Counter(f)), g, Counter(f)), f, g, o, RouteOf(s, f, g, o).rxAfterTx, i.link, j);
    assert [o.payload[0]] + o.payload[1..] == o.payload;
  }

  lemma NotifyCarries(c: Config, s: State, f: Gpdf, g: GpdId, o: Opened, rxAfterTx: bool, link: Octet, j: nat)
    requires |o.payload| > 0 && |s.outgoing| <= j < |Notify(c, s, f, g, o, rxAfterTx, link).outgoing|
    ensures Find(s.table, g).Some?
    ensures Notify(c, s, f, g, o, rxAfterTx, link).outgoing[j].command == NotificationOf(c, Find(s.table, g).value.1, f, g, o, rxAfterTx, link)
  {
    var (k, e) := Find(s.table, g).value;
    var n := NotificationOf(c, e, f, g, o, rxAfterTx, link);
    var os := Messages(ReceiversInOrder(e), k, e.traits, f, s.now, n);
    PushAllPrefix(s.outgoing, os);
    var out := PushAll(s.outgoing, os);
    assert out[|s.outgoing|..][j - |s.outgoing|] == out[j];
    MessagesCarry(ReceiversInOrder(e), k, e.traits, f, s.now, n, out[j]);
  }

  /** A frame of the guarded device that opens was sealed for its entry, with a newer counter. */
  lemma OpenedIsSealed(c: Config, capacity: nat, s: State, f: Gpdf, g: GpdId, k: GpdId, sec: Security)
    requires Guarded(capacity, s.table, k, sec) && SameDevice(g, k)
    requires Process(c, s.table, f, g).status.Success? && Matches(k, g)
    ensures Counter(f) > Stored(s.table, k)
    ensures ActiveEntry(s.table, g).Some? && Sealed(c, ActiveEntry(s.table, g).value, f, g)
    ensures ActiveEntry(s.table, g).value.traits.security == Some(sec)
  {
    FindRegistered(s.table, g);
    ValidActive(capacity, s.table, g);
    ProcessSealed(c, s.table, f, g);
  }

  /** An unprotected frame of the guarded device is never operated. */
  lemma OperatedIsOpened(c: Config, capacity: nat, s: State, f: Gpdf, k: GpdId, sec: Security)
    requires Guarded(capacity, s.table, k, sec) && Operates(c, s, f) && SameDevice(f.gpd.value, k)
    ensures Process(c, s.table, f, f.gpd.value).status.Success? && Matches(k, f.gpd.value)
  {
    FindRegistered(s.table, f.gpd.value);
    ValidActive(capacity, s.table, f.gpd.value);
  }

  lemma PairingKeepsOthers(capacity: nat, t: Table, p: Pairing, k: GpdId, sec: Security)
    requires Guarded(capacity, t, k, sec) && !SameDevice(p.gpd, k)
    ensures Guarded(capacity, Pair(capacity, t, p), k, sec) && Stored(Pair(capacity, t, p), k) == Stored(t, k)
  {
    hide Pair, ToMap, ValidTable, Registered, Linked, Unlinked;
    PairRefines(capacity, t, p);
  }

  lemma HeardKeepsGuard(capacity: nat, t: Table, g: GpdId, counter: U32, k: GpdId, sec: Security)
    requires Guarded(capacity, t, k, sec)
    ensures Guarded(capacity, Heard(t, g, counter), k, sec)
    ensures Stored(Heard(t, g, counter), k) == if Matches(k, g) then counter else Stored(t, k)
  {
    HeardRefines(capacity, t, g, counter);
  }

  lemma FrameKeepsGuard(c: Config, capacity: nat, s: State, f: Gpdf, link: Octet, k: GpdId, sec: Security)
    requires Guarded(capacity, s.table, k, sec)
    ensures Guarded(capacity, OnGpdf(c, s, f, link).table, k, sec)
    ensures Stored(OnGpdf(c, s, f, link).table, k) >= Stored(s.table, k)
  {
    TableStep(c, capacity, s, Frame(f, link));
    if Credited(c, s, f) {
      var g := f.gpd.value;
      HeardKeepsGuard(capacity, s.table, g, Counter(f), k, sec);
      if Matches(k, g) {
        if Operates(c, s, f) {
          OperatedIsOpened(c, capacity, s, f, k, sec);
        }
        OpenedIsSealed(c, capacity, s, f, g, k, sec);
      }
    }
  }

  lemma StepKeepsGuard(c: Config, capacity: nat, s: State, i: Input, k: GpdId, sec: Security)
    requires Guarded(capacity, s.table, k, sec)
    requires !(i.Command? && SameDevice(i.pairing.gpd, k))
    ensures Guarded(capacity, Next(c, capacity, s, i).table, k, sec)
    ensures Stored(Next(c, capacity, s, i).table, k) >= Stored(s.table, k)
  {
    if i.Frame? {
      FrameKeepsGuard(c, capacity, s, i.frame, i.link, k, sec);
    } else if i.Command? && !Dropped(i.pairing) {
      PairingKeepsOthers(capacity, s.table, i.pairing, k, sec);
    }
  }

  /** One notification: authenticated, above the stored counter, which it becomes. */
  lemma NotificationIsFresh(c: Config, capacity: nat, s: State, i: Input, k: GpdId, sec: Security, n: Proxy.Command)
    requires Guarded(capacity, s.table, k, sec)
    ensures Notifies(c, s, i, k, n) ==>
      && Authentic(c, sec, i.frame, n)
      && Stored(s.table, k) < n.counter
      && k in Registered(Next(c, capacity, s, i).table) && Stored(Next(c, capacity, s, i).table, k) == n.counter
  {
    if Notifies(c, s, i, k, n) {
      NotifiesMeansOperated(c, s, i, k, n);
      var f := i.frame;
      OperatedIsOpened(c, capacity, s, f, k, sec);
      OpenedIsSealed(c, capacity, s, f, n.gpd, k, sec);
      ProcessSealed(c, s.table, f, n.gpd);
      OperatedNotifies(c, s, f, i.link);
      HeardKeepsGuard(capacity, s.table, n.gpd, Counter(f), k, sec);
    }
  }

  lemma LinksHaveReceivers(l: Links)
    requires !NoLinks(l)
    ensures Receivers(l) != {}
  {
    if l.derived {
      assert DerivedReceiver in Receivers(l);
    } else if l.sinks != map[] {
      var i :| i in l.sinks;
      assert SinkReceiver(i, l.sinks[i]) in Receivers(l);
    } else {
      var g :| g in l.groups;
      assert GroupReceiver(g, l.groups[g]) in Receivers(l);
    }
  }

  /** And fresh frames do get through: in operational mode with an empty queue, every deliverable
      frame of the guarded device is notified. */
  lemma DeliverableIsNotified(c: Config, capacity: nat, s: State, f: Gpdf, link: Octet, k: GpdId, sec: Security) returns (n: Proxy.Command)
    requires Guarded(capacity, s.table, k, sec) && NoneWithoutSink(Registered(s.table))
    requires s.commissioning.None? && s.outgoing == [] && Deliverable(c, s, f) && SameDevice(f.gpd.value, k)
    ensures Notifies(c, s, Frame(f, link), k, n)
  {
    hide OnGpdf, MessageTo, ToMap, Genuine, IsDuplicate;
    AcceptedReachesEveryReceiver(c, capacity, s, f, link);
    FindRegistered(s.table, f.gpd.value);
    var (key, e) := Find(s.table, f.gpd.value).value;
    var rs: seq<Receiver>, m: Proxy.Command :|
      && key in Registered(s.table) && Enumerates(rs, Receivers(Registered(s.table)[key]))
      && m.Notification? && m.gpd == f.gpd.value && m.counter == Counter(f) && m.level == f.level
      && [m.commandId] + m.payload == Plain(f)
      && OnGpdf(c, s, f, link).outgoing == Messages(rs, key, e.traits, f, s.now, m);
    n := m;
    LinksHaveReceivers(Registered(s.table)[key]);
    var r :| r in Receivers(Registered(s.table)[key]);
    assert r in rs;
    var out := OnGpdf(c, s, f, link).outgoing;
    assert out[0] in Messages(rs, key, e.traits, f, s.now, m);
    MessagesCarry(rs, key, e.traits, f, s.now, m, out[0]);
  }

  lemma {:induction false} RunKeepsGuard(c: Config, capacity: nat, inputs: seq<Input>, states: seq<State>, k: GpdId, sec: Security, a: nat, b: nat)
    requires IsRun(c, capacity, inputs, states) && a <= b <= |inputs|
    requires Guarded(capacity, states[a].table, k, sec)
    requires forall i :: a <= i < b ==> !(inputs[i].Command? && SameDevice(inputs[i].pairing.gpd, k))
    ensures Guarded(capacity, states[b].table, k, sec)
    ensures Stored(states[a].table, k) <= Stored(states[b].table, k)
  {
    hide Guarded, Stored, OnGpdf, OnPairing, Poll, OnCommissioningMode;
    if a < b {
      RunKeepsGuard(c, capacity, inputs, states, k, sec, a, b - 1);
      assert states[b - 1 + 1] == Next(c, capacity, states[b - 1], inputs[b - 1]);
      StepKeepsGuard(c, capacity, states[b - 1], inputs[b - 1], k, sec);
    }
  }

  /** While a device with a single protected entry is not paired again, in either mode, every GP
      Notification of it is authenticated and its counter exceeds the one stored at the start. */
  lemma EveryNotificationIsFresh(
    c: Config, capacity: nat, inputs: seq<Input>, states: seq<State>, k: GpdId, sec: Security, i: nat, n: Proxy.Command)
    requires IsRun(c, capacity, inputs, states) && i < |inputs|
    requires Guarded(capacity, states[0].table, k, sec)
    requires forall x :: 0 <= x < i ==> !(inputs[x].Command? && SameDevice(inputs[x].pairing.gpd, k))
    ensures Notifies(c, states[i], inputs[i], k, n) ==>
      && Authentic(c, sec, inputs[i].frame, n)
      && Stored(states[0].table, k) < n.counter
      && k in Registered(states[i + 1].table) && Stored(states[i + 1].table, k) == n.counter
  {
    hide Guarded, Stored, Notifies, Authentic, OnGpdf, OnPairing, Poll, OnCommissioningMode;
    RunKeepsGuard(c, capacity, inputs, states, k, sec, 0, i);
    NotificationIsFresh(c, capacity, states[i], inputs[i], k, sec, n);
    assert states[i + 1] == Next(c, capacity, states[i], inputs[i]);
  }

  /** And its counter exceeds those of all earlier notifications. */
  lemma NotificationsAreFresh(
    c: Config, capacity: nat, inputs: seq<Input>, states: seq<State>, k: GpdId, sec: Security,
    i: nat, n: Proxy.Command, j: nat, m: Proxy.Command)
    requires IsRun(c, capacity, inputs, states) && i < j < |inputs|
    requires Guarded(capacity, states[0].table, k, sec)
    requires forall x :: 0 <= x < j ==> !(inputs[x].Command? && SameDevice(inputs[x].pairing.gpd, k))
    ensures Notifies(c, states[i], inputs[i], k, n) && Notifies(c, states[j], inputs[j], k, m) ==>
      && Authentic(c, sec, inputs[i].frame, n) && Authentic(c, sec, inputs[j].frame, m)
      && Stored(states[0].table, k) < n.counter < m.counter
  {
    hide Guarded, Stored, Notifies, Authentic, OnGpdf, OnPairing, Poll, OnCommissioningMode;
    EveryNotificationIsFresh(c, capacity, inputs, states, k, sec, i, n);
    RunKeepsGuard(c, capacity, inputs, states, k, sec, 0, i);
    assert states[i + 1] == Next(c, capacity, states[i], inputs[i]);
    StepKeepsGuard(c, capacity, states[i], inputs[i], k, sec);
    RunKeepsGuard(c, capacity, inputs, states, k, sec, i + 1, j);
    NotificationIsFresh(c, capacity, states[j], inputs[j], k, sec, m);
  }
}
