/**
 Touchlink commissioning: what the initiator and the target do at each step, as
 functions on machine values. Inter-PAN frames are datatypes and key transport is
 symbolic; the radio, signal strength, source PANs and device information are not
 part of this model.
 */
module Touchlink {
  import opened Types
  import opened AddressRanges

  const TRANSACTION_LIFETIME_MS: nat := 8000
  const MIN_STARTUP_DELAY_MS: nat := 2000
  const RX_WINDOW_MS: nat := 5000
  const SCAN_TIME_BASE_MS: nat := 250
  const FIRST_CHANNEL_SCANS: nat := 5
  const MAX_CANDIDATES: nat := 4
  const PRIMARY_CHANNELS: seq<nat> := [11, 15, 20, 25]
  const SECONDARY_CHANNELS: seq<nat> := [12, 13, 14, 16, 17, 18, 19, 21, 22, 23, 24, 26]

  type Ieee = nat

  // ------------------------------------------------------------------
  // Network key transport, symbolically
  // ------------------------------------------------------------------

  /** A drawn network key, or what comes out when a transported key is opened with the
      wrong identifiers (the transport carries no integrity check). */
  datatype NetworkKey = Drawn(id: nat) | Garbled(index: nat, transaction: nat, response: nat, block: Block)

  datatype Block = Sealed(index: nat, transaction: nat, response: nat, key: NetworkKey)

  function Open(index: nat, transaction: nat, response: nat, block: Block): NetworkKey {
    if index == block.index && transaction == block.transaction && response == block.response then block.key
    else Garbled(index, transaction, response, block)
  }

  ghost function Depth(k: NetworkKey): nat {
    match k
    case Drawn(_) => 0
    case Garbled(_, _, _, block) => 1 + Depth(block.key)
  }

  /** A transported key is recovered exactly by whoever uses the identifiers it was sealed with. */
  lemma OpenIsRightExactly(index: nat, transaction: nat, response: nat, block: Block)
    ensures Open(index, transaction, response, block) == block.key
            <==> index == block.index && transaction == block.transaction && response == block.response
  {
    assert Depth(Garbled(index, transaction, response, block)) > Depth(block.key);
  }

  // ------------------------------------------------------------------
  // Nodes and frames
  // ------------------------------------------------------------------

  datatype Role = Coordinator | Router | EndDevice

  /** What both ends have to agree on. */
  datatype Network = Network(extendedPanId: nat, panId: nat, channel: nat, updateId: nat)

  datatype Membership = Membership(network: Network, key: NetworkKey, short: nat, centralized: bool)

  datatype Node = Node(ieee: Ieee, role: Role, keyIndexes: set<nat>, member: Option<Membership>)

  datatype NetworkParams = NetworkParams(network: Network, key: NetworkKey, short: nat, neighbour: Option<(Ieee, nat)>)

  function Joined(node: Node, p: NetworkParams): Node {
    node.(member := Some(Membership(p.network, p.key, p.short, false)))
  }

  datatype Assignment = Assignment(networkAddress: nat, groups: Option<(U16, U16)>, free: Option<Ranges>)

  datatype ScanResponse = ScanResponse(
    transaction: nat, role: Role, addressAssignment: bool, keyIndexes: set<nat>, response: nat,
    network: Network, networkAddress: nat, totalGroups: Octet)

  datatype Request =
    | Scan(transaction: nat)
    | NetworkStart(transaction: nat, network: Network, keyIndex: nat, block: Block, assignment: Assignment,
                   initiatorIeee: Ieee, initiatorAddress: nat)
    | NetworkJoin(router: bool, transaction: nat, network: Network, keyIndex: nat, block: Block, assignment: Assignment)
    | NetworkUpdate(transaction: nat, network: Network)
    | Reset(transaction: nat)

  datatype Response =
    | Scanned(response: ScanResponse)
    | Started(transaction: nat, success: bool, network: Network)
    | JoinedAs(router: bool, transaction: nat, success: bool)

  function TransactionOf(r: Response): nat {
    match r
    case Scanned(s) => s.transaction
    case Started(t, _, _) => t
    case JoinedAs(_, t, _) => t
  }

  predicate Is24GHz(channel: nat) {
    11 <= channel <= 26
  }

  const NO_NETWORK := Network(0, 0, 0, 0)

  /** The more recent of two update identifiers, across the wrap-around. */
  function NewerUpdateId(a: nat, b: nat): nat {
    var diff := if a < b then b - a else a - b;
    if diff > 200 then (if a < b then a else b)
    else if a > b then a else b
  }

  // ------------------------------------------------------------------
  // The initiator
  // ------------------------------------------------------------------

  datatype Candidate = Candidate(ieee: Ieee, channel: nat, response: ScanResponse)

  datatype State =
    | Idle
    | Scanning(remaining: seq<nat>, current: nat, sendsLeft: nat, secondaryPending: bool, nextSend: Instant)
    | Selecting
    | WaitingStart(startDeadline: Instant, params: NetworkParams)
    | WaitingJoin(joinDeadline: Instant, short: nat)
    | StartupDelay(deadline: Instant, adopted: Option<NetworkParams>, reported: nat)

  datatype Failure = NoScanResponses | NoCommonKey | NotPermitted | NotAddressAssignmentCapable | NoNetwork | TargetFailure | NodeFailed

  datatype Outcome =
    | Discovered(found: seq<Candidate>)
    | Success(target: Ieee, shortAddress: nat)
    | ResetSent
    | Failed(why: Failure)

  datatype Initiator = Initiator(
    keyIndex: nat, ranges: Ranges, transaction: nat, state: State,
    candidates: seq<Candidate>, target: Option<Candidate>, reset: bool)

  /** Starts discovery under a new transaction identifier. */
  function Begin(i: Initiator, transaction: nat, extended: bool, reset: bool, now: Instant): Initiator {
    i.(transaction := transaction, candidates := [], target := None, reset := reset,
       state := Scanning(PRIMARY_CHANNELS[1..], PRIMARY_CHANNELS[0], FIRST_CHANNEL_SCANS, extended, now))
  }

  datatype PollResult = PollResult(initiator: Initiator, node: Node, scan: bool, outcome: Option<Outcome>)

  /** Advances the initiator's timers; `scan` says whether a scan request is broadcast, and
      `adopts` whether the node manages to adopt a network. */
  function Poll(i: Initiator, node: Node, now: Instant, adopts: bool): PollResult {
    match i.state
    case Scanning(remaining, current, sendsLeft, secondaryPending, nextSend) =>
      if now < nextSend then PollResult(i, node, false, None)
      else if sendsLeft > 0 then
        PollResult(i.(state := Scanning(remaining, current, sendsLeft - 1, secondaryPending, After(now, SCAN_TIME_BASE_MS))),
                   node, true, None)
      else if remaining != [] then
        PollResult(i.(state := Scanning(remaining[1..], remaining[0], 1, secondaryPending, now)), node, false, None)
      else if secondaryPending then
        PollResult(i.(state := Scanning(SECONDARY_CHANNELS[1..], SECONDARY_CHANNELS[0], 1, false, now)), node, false, None)
      else if i.candidates == [] then
        PollResult(i.(state := Idle), node, false, Some(Failed(NoScanResponses)))
      else
        PollResult(i.(state := Selecting), node, false, Some(Discovered(i.candidates)))
    case WaitingStart(deadline, _) =>
      if now >= deadline then PollResult(i.(state := Idle), node, false, Some(Failed(TargetFailure)))
      else PollResult(i, node, false, None)
    case WaitingJoin(deadline, _) =>
      if now >= deadline then PollResult(i.(state := Idle), node, false, Some(Failed(TargetFailure)))
      else PollResult(i, node, false, None)
    case StartupDelay(deadline, adopted, short) =>
      if now < deadline then PollResult(i, node, false, None)
      else if adopted.Some? && !adopts then PollResult(i.(state := Idle), node, false, Some(Failed(NodeFailed)))
      else
        PollResult(i.(state := Idle),
                   if adopted.Some? then Joined(node, adopted.value) else node,
                   false, Some(Success(if i.target.Some? then i.target.value.ieee else 0, short)))
    case _ => PollResult(i, node, false, None)
  }

  predicate Known(cs: seq<Candidate>, ieee: Ieee) {
    exists k :: 0 <= k < |cs| && cs[k].ieee == ieee
  }

  /** A response received from `src`. */
  function Receive(i: Initiator, src: Ieee, r: Response, now: Instant): (res: (Initiator, Option<Outcome>)) {
    match r
    case Scanned(s) =>
      if !i.state.Scanning? || s.transaction != i.transaction || Known(i.candidates, src) || |i.candidates| >= MAX_CANDIDATES
      then (i, None)
      else (i.(candidates := i.candidates + [Candidate(src, i.state.current, s)]), None)
    case Started(transaction, success, network) =>
      if !i.state.WaitingStart? || transaction != i.transaction || i.target.None? || i.target.value.ieee != src then (i, None)
      else if !success then (i.(state := Idle), Some(Failed(NoNetwork)))
      else
        var p := i.state.params;
        var channel := if Is24GHz(network.channel) then network.channel else p.network.channel;
        (i.(state := StartupDelay(After(now, MIN_STARTUP_DELAY_MS),
                                  Some(p.(network := network.(channel := channel))), 0x0002)), None)
    case JoinedAs(_, transaction, success) =>
      if !i.state.WaitingJoin? || transaction != i.transaction || i.target.None? || i.target.value.ieee != src then (i, None)
      else if !success then (i.(state := Idle), Some(Failed(TargetFailure)))
      else (i.(state := StartupDelay(After(now, MIN_STARTUP_DELAY_MS), None, i.state.short)), None)
  }

  /** Address, group block and free ranges for a target, taken from the initiator's ranges. */
  function Assign(r: Ranges, s: ScanResponse): (res: (Ranges, Option<Assignment>)) {
    var (r1, address) := NextAddress(r);
    if address.None? then (r1, None)
    else
      var (r2, groups) := if s.totalGroups > 0 then TakeGroups(r1, s.totalGroups) else (r1, None);
      var (r3, free) := if s.addressAssignment then Split(r2) else (r2, None);
      (r3, Some(Assignment(address.value, groups, free)))
  }

  /** What an assignment does to the holders of ranges, step by step. */
  function AssignOps(h: nat, s: ScanResponse): seq<Op> {
    [Address(h)] + (if s.totalGroups > 0 then [Groups(h, s.totalGroups)] else []) + if s.addressAssignment then [Grant(h)] else []
  }

  function AfterAddress(w: World, h: nat): World {
    Apply(w, Address(h))
  }

  function AfterGroups(w: World, h: nat, s: ScanResponse): World {
    if s.totalGroups > 0 then Apply(AfterAddress(w, h), Groups(h, s.totalGroups)) else AfterAddress(w, h)
  }

  function AfterGrant(w: World, h: nat, s: ScanResponse): World {
    if s.addressAssignment then Apply(AfterGroups(w, h, s), Grant(h)) else AfterGroups(w, h, s)
  }

  lemma RunOfAssign(w: World, h: nat, s: ScanResponse)
    ensures Run(w, AssignOps(h, s)) == AfterGrant(w, h, s)
  {
    hide Apply;
    var grant := if s.addressAssignment then [Grant(h)] else [];
    var groups := if s.totalGroups > 0 then [Groups(h, s.totalGroups)] else [];
    RunStep(w, Address(h), groups + grant);
    assert AssignOps(h, s) == [Address(h)] + (groups + grant);
    var w1, w2 := AfterAddress(w, h), AfterGroups(w, h, s);
    if s.totalGroups > 0 {
      RunStep(w1, Groups(h, s.totalGroups), grant);
    } else {
      assert groups + grant == grant;
    }
    if s.addressAssignment {
      RunStep(w2, Grant(h), []);
      assert grant == [Grant(h)] + [];
    }
  }

  /** A successful assignment is a run of the allocator: the address, the group block and the free
      ranges it names are what that run hands out, so all assignments partition the ranges. */
  lemma AssignIsRun(w: World, h: nat, s: ScanResponse)
    requires h < |w.holders| && Assign(w.holders[h], s).1.Some?
    ensures var (r, a) := Assign(w.holders[h], s);
            Run(w, AssignOps(h, s))
            == World(w.holders[h := r] + (if a.value.free.Some? then [a.value.free.value] else []),
                     w.addresses + [a.value.networkAddress],
                     w.groups + if a.value.groups.Some? then Ascending(a.value.groups.value.0, a.value.groups.value.1) else [])
  {
    hide NextAddress, TakeGroups, Split, Ascending, Run;
    RunOfAssign(w, h, s);
    var hs, r1 := w.holders, NextAddress(w.holders[h]).0;
    var r2 := if s.totalGroups > 0 then TakeGroups(r1, s.totalGroups).0 else r1;
    var r3 := if s.addressAssignment then Split(r2).0 else r2;
    assert AfterAddress(w, h).holders == hs[h := r1];
    assert AfterGroups(w, h, s).holders == hs[h := r2];
    assert hs[h := r2][h := r3] == hs[h := r3];
    assert w.groups + [] == w.groups && hs[h := r3] + [] == hs[h := r3];
  }

  lemma RunStep(w: World, op: Op, ops: seq<Op>)
    ensures Run(w, [op] + ops) == Run(Apply(w, op), ops)
  {
    assert ([op] + ops)[1..] == ops;
  }

  datatype SelectResult = SelectResult(initiator: Initiator, node: Node, sent: Option<Request>, outcome: Option<Outcome>)

  /** What the node does for a request: everything, or it cannot encrypt the key, or cannot send. */
  datatype Service = Works | NoEncryption | NoRadio

  function Trouble(service: Service): Failure {
    if service.NoEncryption? then NoCommonKey else NodeFailed
  }

  /** Continues with the chosen candidate; `key` is the network key drawn for a new network. */
  function Select(i0: Initiator, node: Node, c: Candidate, key: NetworkKey, now: Instant, service: Service): SelectResult {
    if !i0.state.Selecting? then SelectResult(i0, node, None, None)
    else
      var i := i0.(target := Some(c));
      var idle := i.(state := Idle);
      var r := c.response;
      if node.member.Some? && node.member.value.network.extendedPanId == r.network.extendedPanId && !i.reset then
        Reconcile(idle, node, node.member.value.network, c)
      else if node.member.Some? && node.member.value.centralized then
        SelectResult(idle, node, None, Some(Failed(NotPermitted)))
      else if !IsCapable(i.ranges) then
        SelectResult(idle, node, None, Some(Failed(NotAddressAssignmentCapable)))
      else if i.keyIndex !in node.keyIndexes * r.keyIndexes then
        SelectResult(idle, node, None, Some(Failed(NoCommonKey)))
      else if i.reset then
        if service.NoRadio? then SelectResult(idle, node, None, Some(Failed(NodeFailed)))
        else SelectResult(idle, node, Some(Reset(i.transaction)), Some(ResetSent))
      else
        Commission(i, node, c, key, now, service)
  }

  /** The target is on this network already: only the update identifiers are reconciled. */
  function Reconcile(idle: Initiator, node: Node, n: Network, c: Candidate): SelectResult
    requires node.member.Some?
  {
    var r := c.response;
    var newer := NewerUpdateId(n.updateId, r.network.updateId);
    var done := Some(Success(c.ieee, r.networkAddress));
    if newer != n.updateId then
      var m := node.member.value;
      SelectResult(idle,
                   if Is24GHz(r.network.channel)
                   then node.(member := Some(m.(network := n.(updateId := newer, channel := r.network.channel))))
                   else node,
                   None, done)
    else
      SelectResult(idle, node, if n.updateId != r.network.updateId then Some(NetworkUpdate(idle.transaction, n)) else None, done)
  }

  /** Assigns addresses and sends the network start or join request. */
  function Commission(i: Initiator, node: Node, c: Candidate, key: NetworkKey, now: Instant, service: Service): SelectResult {
    var r := c.response;
    var (r1, own) := if node.member.None? then NextAddress(i.ranges) else (i.ranges, None);
    var (r2, assignment) := Assign(r1, r);
    var i' := i.(ranges := r2);
    var idle := i'.(state := Idle);
    if assignment.None? then SelectResult(idle, node, None, Some(Failed(NoNetwork)))
    else if node.member.None? then
      if node.role.Router? || !r.role.Router? then SelectResult(idle, node, None, Some(Failed(NoNetwork)))
      else if !service.Works? then SelectResult(idle, node, None, Some(Failed(Trouble(service))))
      else
        var ownAddress := if own.Some? then own.value else 0x0001;
        var start := NetworkStart(i.transaction, NO_NETWORK, i.keyIndex, Sealed(i.keyIndex, i.transaction, r.response, key),
                                  assignment.value, node.ieee, ownAddress);
        SelectResult(i'.(state := WaitingStart(After(now, RX_WINDOW_MS),
                                               NetworkParams(NO_NETWORK.(channel := c.channel), key, ownAddress,
                                                             Some((c.ieee, assignment.value.networkAddress))))),
                     node, Some(start), None)
    else if !service.Works? then SelectResult(idle, node, None, Some(Failed(Trouble(service))))
    else
      var m := node.member.value;
      var join := NetworkJoin(r.role.Router?, i.transaction, m.network, i.keyIndex,
                              Sealed(i.keyIndex, i.transaction, r.response, m.key), assignment.value);
      SelectResult(i'.(state := WaitingJoin(After(now, RX_WINDOW_MS), assignment.value.networkAddress)), node, Some(join), None)
  }

  /** A network start request uses free addresses, never the fallback, and gives the target one
      that is not the initiator's exactly when the range does not begin at the last address. */
  lemma StartAddressesDiffer(i: Initiator, node: Node, c: Candidate, key: NetworkKey, now: Instant, service: Service)
    ensures var res := Select(i, node, c, key, now, service);
            res.sent.Some? && res.sent.value.NetworkStart? ==>
              && res.sent.value.initiatorAddress in FreeAddresses(i.ranges)
              && res.sent.value.assignment.networkAddress in FreeAddresses(i.ranges)
              && (res.sent.value.initiatorAddress != res.sent.value.assignment.networkAddress <==> i.ranges.addressesBegin != 0xffff)
  {
  }

  // ------------------------------------------------------------------
  // The target
  // ------------------------------------------------------------------

  datatype Policy = Policy(accept: bool, allowStealing: bool)

  datatype Transaction = Transaction(id: nat, initiator: Ieee, expires: Instant)

  datatype Target = Target(policy: Policy, transaction: Option<Transaction>, responseId: nat, totalGroups: Octet)

  /** The random values a target draws; unusable identifiers are drawn again. */
  datatype Draw = Draw(responseId: nat, extendedPanId: nat, panId: nat)

  predicate Acceptable(d: Draw) {
    d.extendedPanId != 0 && d.extendedPanId != 0xFFFF_FFFF_FFFF_FFFF && d.panId != 0 && d.panId != 0xffff
  }

  function PollTarget(t: Target, now: Instant): Target {
    if t.transaction.Some? && now >= t.transaction.value.expires then t.(transaction := None) else t
  }

  predicate Allowed(t: Target, node: Node) {
    t.policy.accept && (node.member.Some? && node.member.value.centralized ==> t.policy.allowStealing)
  }

  datatype TargetResult = TargetResult(target: Target, node: Node, reply: Option<Response>)

  /** A scan request opens the transaction or keeps it open; the response identifier stays
      the same within one transaction. */
  function OnScan(t: Target, node: Node, src: Ieee, transaction: nat, now: Instant, draw: Draw): TargetResult {
    var same := t.transaction.Some? && t.transaction.value.id == transaction;
    var t' := t.(transaction := Some(Transaction(transaction, src, After(now, TRANSACTION_LIFETIME_MS))),
                 responseId := if same then t.responseId else draw.responseId);
    TargetResult(t', node, Some(Scanned(ScanResponse(
                   transaction, node.role, false, node.keyIndexes, t'.responseId,
                   if node.member.Some? then node.member.value.network else NO_NETWORK,
                   if node.member.Some? then node.member.value.short else 0xffff, t.totalGroups))))
  }

  function OnStart(t: Target, node: Node, f: Request, draw: Draw): TargetResult
    requires f.NetworkStart?
  {
    if node.role != Router then TargetResult(t, node, None)
    else if !Allowed(t, node) || f.keyIndex !in node.keyIndexes then
      TargetResult(t, node, Some(Started(f.transaction, false, NO_NETWORK)))
    else
      var n := Network(
        if f.network.extendedPanId == 0 || f.network.extendedPanId == 0xFFFF_FFFF_FFFF_FFFF then draw.extendedPanId else f.network.extendedPanId,
        if f.network.panId == 0 || f.network.panId == 0xffff then draw.panId else f.network.panId,
        if Is24GHz(f.network.channel) then f.network.channel else PRIMARY_CHANNELS[0],
        0);
      var key := Open(f.keyIndex, f.transaction, t.responseId, f.block);
      TargetResult(t.(transaction := None),
                   Joined(node, NetworkParams(n, key, f.assignment.networkAddress, Some((f.initiatorIeee, f.initiatorAddress)))),
                   Some(Started(f.transaction, true, n)))
  }

  function OnJoin(t: Target, node: Node, f: Request): TargetResult
    requires f.NetworkJoin?
  {
    if node.role != (if f.router then Router else EndDevice) then TargetResult(t, node, None)
    else if !Allowed(t, node) || f.keyIndex !in node.keyIndexes then
      TargetResult(t, node, Some(JoinedAs(f.router, f.transaction, false)))
    else
      var reply := Some(JoinedAs(f.router, f.transaction, true));
      if !Is24GHz(f.network.channel) then TargetResult(t, node, reply)
      else
        var key := Open(f.keyIndex, f.transaction, t.responseId, f.block);
        TargetResult(t.(transaction := None),
                     Joined(node, NetworkParams(f.network, key, f.assignment.networkAddress, None)), reply)
  }

  function OnUpdate(t: Target, node: Node, f: Request): TargetResult
    requires f.NetworkUpdate?
  {
    if node.member.None? then TargetResult(t, node, None)
    else
      var m := node.member.value;
      if f.network.extendedPanId != m.network.extendedPanId || f.network.panId != m.network.panId
         || NewerUpdateId(m.network.updateId, f.network.updateId) == m.network.updateId || !Is24GHz(f.network.channel)
      then TargetResult(t, node, None)
      else TargetResult(t, node.(member := Some(m.(network := m.network.(updateId := f.network.updateId, channel := f.network.channel)))), None)
  }

  /** A request received from `src`. Anything but a scan needs the open transaction of that
      initiator. */
  function Handle(t0: Target, node: Node, src: Ieee, f: Request, now: Instant, draw: Draw): TargetResult {
    var t := PollTarget(t0, now);
    if f.Scan? then OnScan(t, node, src, f.transaction, now, draw)
    else if t.transaction.None? || t.transaction.value.initiator != src || t.transaction.value.id != f.transaction then TargetResult(t, node, None)
    else
      match f
      case NetworkStart(_, _, _, _, _, _, _) => OnStart(t, node, f, draw)
      case NetworkJoin(_, _, _, _, _, _) => OnJoin(t, node, f)
      case NetworkUpdate(_, _) => OnUpdate(t, node, f)
      case Reset(_) => TargetResult(t.(transaction := None), node.(member := None), None)
  }
}
