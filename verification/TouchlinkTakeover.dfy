/**
 When touchlink may take a device over: which requests a target grants and what becomes
 of its membership, when an initiator asks at all, and, over whole runs, that a device
 which accepts no touchlink keeps its network.
 */
module TouchlinkTakeover {
  import opened Types
  import opened Touchlink
  import opened TouchlinkProtocol

  // ------------------------------------------------------------------
  // One request at the target
  // ------------------------------------------------------------------

  /** The request belongs to the transaction this initiator opened, which has not expired. */
  predicate InTransaction(t: Target, src: Ieee, f: Request, now: Instant) {
    && t.transaction.Some? && t.transaction.value.id == f.transaction
    && t.transaction.value.initiator == src && now < t.transaction.value.expires
  }

  predicate Asks(f: Request) {
    f.NetworkStart? || f.NetworkJoin?
  }

  /** Only routers start networks; a join names the role it is for. */
  predicate RightRole(node: Node, f: Request)
    requires Asks(f)
  {
    if f.NetworkStart? || f.router then node.role.Router? else node.role.EndDevice?
  }

  /** The device may be taken over: its policy accepts touchlink, and stealing where it is on a
      centralized network, and it has the transport key. */
  predicate MayTakeOver(policy: Policy, node: Node, keyIndex: nat) {
    && policy.accept && keyIndex in node.keyIndexes
    && (policy.allowStealing || node.member.None? || !node.member.value.centralized)
  }

  predicate Granted(r: Option<Response>) {
    r.Some? && ((r.value.Started? && r.value.success) || (r.value.JoinedAs? && r.value.success))
  }

  /** A start or join request is answered in its transaction and by the right role only, and granted
      exactly when the device may be taken over. */
  lemma GrantedExactly(t: Target, node: Node, src: Ieee, f: Request, now: Instant, draw: Draw)
    requires Asks(f)
    ensures var reply := Handle(t, node, src, f, now, draw).reply;
            && (reply.Some? <==> InTransaction(t, src, f, now) && RightRole(node, f))
            && (reply.Some? ==> (if f.NetworkStart? then reply.value.Started? else reply.value.JoinedAs? && reply.value.router == f.router)
                                && TransactionOf(reply.value) == f.transaction)
            && (Granted(reply) <==>
                  InTransaction(t, src, f, now) && RightRole(node, f) && MayTakeOver(t.policy, node, f.keyIndex))
  {
  }

  /** What a granted start makes of the device: a member of the network it reports, which is the one
      asked for as far as the request names it, under the assigned address and no trust center. */
  lemma StartedAs(t: Target, node: Node, src: Ieee, f: Request, now: Instant, draw: Draw)
    requires f.NetworkStart? && Acceptable(draw)
    ensures var res := Handle(t, node, src, f, now, draw);
            Granted(res.reply) ==>
              && res.target.transaction.None? && res.node.member.Some? && var m := res.node.member.value;
              && res.reply.value.network == m.network
              && m.short == f.assignment.networkAddress && !m.centralized
              && m.key == Open(f.keyIndex, f.transaction, t.responseId, f.block)
              && (f.network.extendedPanId !in {0, 0xFFFF_FFFF_FFFF_FFFF} ==> m.network.extendedPanId == f.network.extendedPanId)
              && m.network.extendedPanId !in {0, 0xFFFF_FFFF_FFFF_FFFF}
              && (f.network.panId !in {0, 0xffff} ==> m.network.panId == f.network.panId)
              && m.network.panId !in {0, 0xffff}
              && (Is24GHz(f.network.channel) ==> m.network.channel == f.network.channel)
              && Is24GHz(m.network.channel) && m.network.updateId == 0
  {
  }

  /** What a granted join makes of the device: a member of the initiator's network under the assigned
      address. A join that names no 2.4 GHz channel is granted and changes nothing. */
  lemma JoinedTo(t: Target, node: Node, src: Ieee, f: Request, now: Instant, draw: Draw)
    requires f.NetworkJoin?
    ensures var res := Handle(t, node, src, f, now, draw);
            Granted(res.reply) ==>
              if Is24GHz(f.network.channel) then
                && res.target.transaction.None? && res.node.member.Some? && var m := res.node.member.value;
                && m.network == f.network && m.short == f.assignment.networkAddress && !m.centralized
                && m.key == Open(f.keyIndex, f.transaction, t.responseId, f.block)
              else res.node == node && res.target == t
  {
  }

  /** An update is taken over on the same network with a more recent identifier only. */
  predicate Updates(node: Node, f: Request) {
    && f.NetworkUpdate? && node.member.Some? && var n := node.member.value.network;
    && f.network.extendedPanId == n.extendedPanId && f.network.panId == n.panId
    && f.network.updateId != n.updateId && NewerUpdateId(n.updateId, f.network.updateId) == f.network.updateId
    && Is24GHz(f.network.channel)
  }

  /** The membership as an update leaves it: only channel and update identifier are new. */
  predicate SameMembershipUpdated(m: Membership, m': Membership, n: Network) {
    m' == m.(network := m.network.(updateId := n.updateId, channel := n.channel))
  }

  /** A device changes only by a granted start or join, an update of its network, or a reset, each in
      its transaction; and every update and reset in its transaction takes effect. */
  lemma ChangesExactly(t: Target, node: Node, src: Ieee, f: Request, now: Instant, draw: Draw)
    ensures var res := Handle(t, node, src, f, now, draw);
            && res.target.policy == t.policy && res.target.totalGroups == t.totalGroups
            && res.node == node.(member := res.node.member) && (Granted(res.reply) ==> Asks(f))
            && (res.node != node ==> InTransaction(t, src, f, now) && (Granted(res.reply) || Updates(node, f) || f.Reset?))
            && (InTransaction(t, src, f, now) && Updates(node, f) ==>
                  res.node.member.Some? && SameMembershipUpdated(node.member.value, res.node.member.value, f.network))
            && (InTransaction(t, src, f, now) && f.Reset? ==> res.node.member.None? && res.target.transaction.None?)
  {
  }

  /** The more recent of two identifiers is the one up to 55 ahead, counted across the wrap-around. */
  lemma NewerIsAhead(a: Octet, k: nat)
    requires 1 <= k <= 55
    ensures NewerUpdateId(a, (a + k) % 256) == (a + k) % 256 && NewerUpdateId((a + k) % 256, a) == (a + k) % 256
  {
  }

  /** A scan request is always answered with what the device is; it opens a transaction of 8 seconds
      for its sender, and draws a new response identifier exactly when it starts a new one. */
  lemma ScanOpens(t: Target, node: Node, src: Ieee, f: Request, now: Instant, draw: Draw)
    requires f.Scan?
    ensures var res := Handle(t, node, src, f, now, draw);
            && res.node == node
            && res.target.transaction == Some(Transaction(f.transaction, src, After(now, 8000)))
            && res.reply.Some? && res.reply.value.Scanned? && var r := res.reply.value.response;
            && r.transaction == f.transaction && r.response == res.target.responseId
            && r.role == node.role && r.keyIndexes == node.keyIndexes && r.totalGroups == t.totalGroups && !r.addressAssignment
            && (if node.member.Some? then r.network == node.member.value.network && r.networkAddress == node.member.value.short
                else r.network == Network(0, 0, 0, 0) && r.networkAddress == 0xffff)
            && res.target.responseId ==
               (if t.transaction.Some? && t.transaction.value.id == f.transaction && now < t.transaction.value.expires
                then t.responseId else draw.responseId)
  {
  }

  // ------------------------------------------------------------------
  // The initiator's choice
  // ------------------------------------------------------------------

  /** The two ends are on one network already, and no reset was asked for. */
  predicate Together(i: Initiator, node: Node, c: Candidate) {
    !i.reset && node.member.Some? && node.member.value.network.extendedPanId == c.response.network.extendedPanId
  }

  /** The initiator may commission others: it is on no centralized network, has ranges to assign from,
      and shares a transport key with the candidate. */
  predicate MayCommission(i: Initiator, node: Node, c: Candidate) {
    && (node.member.None? || !node.member.value.centralized)
    && i.ranges.addressesBegin != 0
    && i.keyIndex in node.keyIndexes && i.keyIndex in c.response.keyIndexes
  }

  /** There is an address for the target, and on a new network one for the initiator before it; the
      last address of all serves for both. */
  predicate HasAddresses(i: Initiator, node: Node) {
    var (begin, end) := (i.ranges.addressesBegin, i.ranges.addressesEnd);
    begin <= end && (node.member.Some? || begin < end || begin == 0xffff)
  }

  /** When the initiator sends what to the chosen candidate. */
  lemma AskedExactly(i: Initiator, node: Node, c: Candidate, key: NetworkKey, now: Instant, service: Service)
    requires i.state.Selecting?
    ensures var sent := Select(i, node, c, key, now, service).sent;
            var may := !Together(i, node, c) && MayCommission(i, node, c);
            var room := HasAddresses(i, node);
            && (sent.Some? && sent.value.Reset? <==> may && i.reset && !service.NoRadio?)
            && (sent.Some? && sent.value.NetworkStart? <==>
                  may && !i.reset && room && service.Works? && node.member.None? && !node.role.Router? && c.response.role.Router?)
            && (sent.Some? && sent.value.NetworkJoin? <==> may && !i.reset && room && service.Works? && node.member.Some?)
            && (sent.Some? && sent.value.NetworkJoin? ==> sent.value.router == c.response.role.Router?)
            && (sent.Some? ==> sent.value.transaction == i.transaction && !sent.value.Scan?)
  {
  }

  /** On one network already: both ends are then said to agree, and the one behind is brought up to date. */
  lemma Reconciles(i: Initiator, node: Node, c: Candidate, key: NetworkKey, now: Instant, service: Service)
    requires i.state.Selecting? && Together(i, node, c)
    ensures var (res, m, theirs) := (Select(i, node, c, key, now, service), node.member.value, c.response.network);
            var ahead := m.network.updateId != theirs.updateId && NewerUpdateId(m.network.updateId, theirs.updateId) == m.network.updateId;
            var behind := m.network.updateId != theirs.updateId && !ahead;
            && res.outcome == Some(Success(c.ieee, c.response.networkAddress)) && res.initiator.state.Idle?
            && res.sent == (if ahead then Some(NetworkUpdate(i.transaction, m.network)) else None)
            && (if behind && Is24GHz(theirs.channel) then
                  res.node.member.Some? && SameMembershipUpdated(m, res.node.member.value, theirs)
                else res.node == node)
  {
  }

  /** A scan answered while discovery runs is a candidate: as the target described itself, on the channel of that
      scan, once for each device and up to the four the initiator keeps. */
  lemma AnswerIsFound(i: Initiator, t: Target, node: Node, src: Ieee, at: Instant, now: Instant, draw: Draw)
    requires i.state.Scanning?
    ensures var answer := Handle(t, node, src, Scan(i.transaction), at, draw).reply;
            && answer.Some? && answer.value.Scanned?
            && var (i', outcome) := Receive(i, node.ieee, answer.value, now);
            && outcome.None? && i'.(candidates := i.candidates) == i
            && (if |i.candidates| < 4 && forall c :: c in i.candidates ==> c.ieee != node.ieee then
                  i'.candidates == i.candidates + [Candidate(node.ieee, i.state.current, answer.value.response)]
                else i'.candidates == i.candidates)
  {
    if Known(i.candidates, node.ieee) {
      var k :| 0 <= k < |i.candidates| && i.candidates[k].ieee == node.ieee;
      assert i.candidates[k] in i.candidates;
    }
  }

  /** An answer counts only from the chosen target, in the transaction, and while it is waited for. */
  lemma AnswerIsAwaited(i: Initiator, src: Ieee, r: Response, now: Instant)
    requires !r.Scanned?
    ensures var (i', outcome) := Receive(i, src, r, now);
            var awaited := && TransactionOf(r) == i.transaction && i.target.Some? && i.target.value.ieee == src
                           && (if r.Started? then i.state.WaitingStart? else i.state.WaitingJoin?);
            && (!awaited ==> i' == i && outcome.None?)
            && (awaited ==> i' == i.(state := i'.state)
                            && (if r.success then i'.state.StartupDelay? && i'.state.deadline == After(now, 2000) && outcome.None?
                                else i'.state.Idle? && outcome == Some(Failed(if r.Started? then NoNetwork else TargetFailure))))
  {
  }

  /** What the initiator asks of a target that may be taken over, in its transaction, comes about: with the answer and
      the start-up delay the initiator succeeds, and both are on one network with one key. */
  lemma OfferSucceeds(
    i: Initiator, mine: Node, c: Candidate, key: NetworkKey, now: Instant, service: Service,
    t: Target, yours: Node, at: Instant, draw: Draw, back: Instant, later: Instant)
    requires Select(i, mine, c, key, now, service).sent.Some? && Asks(Select(i, mine, c, key, now, service).sent.value)
    requires var f := Select(i, mine, c, key, now, service).sent.value;
             InTransaction(t, mine.ieee, f, at) && RightRole(yours, f) && MayTakeOver(t.policy, yours, f.keyIndex)
    requires c.ieee == yours.ieee && c.response.response == t.responseId && Acceptable(draw) && later >= After(back, 2000)
    requires mine.member.Some? ==> Is24GHz(mine.member.value.network.channel)
    ensures var asked := Select(i, mine, c, key, now, service);
            var taken := Handle(t, yours, mine.ieee, asked.sent.value, at, draw);
            && taken.reply.Some? && var (heard, nothing) := Receive(asked.initiator, yours.ieee, taken.reply.value, back);
            && nothing.None? && var done := Poll(heard, asked.node, later, true);
            && done.outcome.Some? && done.outcome.value.Success? && done.outcome.value.target == yours.ieee
            && done.node.member.Some? && taken.node.member.Some?
            && done.node.member.value.network == taken.node.member.value.network
            && done.node.member.value.key == taken.node.member.value.key
  {
    hide Assign;
    var asked := Select(i, mine, c, key, now, service);
    var f := asked.sent.value;
    GrantedExactly(t, yours, mine.ieee, f, at, draw);
    if f.NetworkStart? {
      StartedAs(t, yours, mine.ieee, f, at, draw);
    } else {
      JoinedTo(t, yours, mine.ieee, f, at, draw);
    }
  }

  // ------------------------------------------------------------------
  // Discovery
  // ------------------------------------------------------------------

  function Times(n: nat, channel: nat): seq<nat> {
    if n == 0 then [] else [channel] + Times(n - 1, channel)
  }

  /** The channels a scanning initiator still has to ask on, in order. */
  function Plan(s: State): seq<nat>
    requires s.Scanning?
  {
    Times(s.sendsLeft, s.current) + s.remaining
    + if s.secondaryPending then [12, 13, 14, 16, 17, 18, 19, 21, 22, 23, 24, 26] else []
  }

  lemma DiscoveryPlan(i: Initiator, transaction: nat, extended: bool, reset: bool, now: Instant)
    ensures var s := Touchlink.Begin(i, transaction, extended, reset, now).state;
            s.Scanning? && s.nextSend == now
            && Plan(s) == [11, 11, 11, 11, 11, 15, 20, 25]
                          + if extended then [12, 13, 14, 16, 17, 18, 19, 21, 22, 23, 24, 26] else []
  {
    assert Times(5, 11) == [11, 11, 11, 11, 11] by {
      assert Times(2, 11) == [11, 11];
    }
  }

  /** A due poll asks on the next channel of the plan, or moves there; when nothing is left, discovery
      ends with the candidates found, or fails when there are none. */
  lemma DiscoveryFollowsPlan(i: Initiator, node: Node, now: Instant, adopts: bool)
    requires i.state.Scanning?
    ensures var res := Poll(i, node, now, adopts);
            if now < i.state.nextSend then res == PollResult(i, node, false, None)
            else if Plan(i.state) == [] then
              && !res.scan && res.node == node
              && (if i.candidates == [] then res.initiator.state.Idle? && res.outcome == Some(Failed(NoScanResponses))
                  else res.initiator.state.Selecting? && res.outcome == Some(Discovered(i.candidates)))
            else
              && res.node == node && res.outcome.None? && res.initiator.state.Scanning?
              && res.initiator.candidates == i.candidates && res.initiator.transaction == i.transaction
              && (if res.scan then
                    && i.state.current == Plan(i.state)[0] && Plan(res.initiator.state) == Plan(i.state)[1..]
                    && res.initiator.state.nextSend == After(now, 250)
                  else
                    && Plan(res.initiator.state) == Plan(i.state) && res.initiator.state.nextSend == now
                    && res.initiator.state.sendsLeft == 1)
  {
    var s := i.state;
    if s.sendsLeft > 0 {
      assert Times(s.sendsLeft, s.current)[1..] == Times(s.sendsLeft - 1, s.current);
    } else if s.remaining != [] {
      assert Times(1, s.remaining[0]) + s.remaining[1..] == s.remaining == Times(0, s.current) + s.remaining;
    }
  }

  // ------------------------------------------------------------------
  // Runs
  // ------------------------------------------------------------------

  /** A peer's membership changes only when a request is delivered to it, and, unless that is an update
      or a reset, only when it may be taken over. */
  lemma TakenOverOnlyIfAllowed(w: World, s: Step, p: Ieee)
    requires Enabled(w, s) && p in w.peers
    ensures var w' := Next(w, s).0;
            && p in w'.peers && w'.peers[p].target.policy == w.peers[p].target.policy
            && (w'.peers[p].node != w.peers[p].node ==>
                  && s.DeliverRequest? && s.peer == p && var f := w.peers[p].inbox[0];
                  && (f.NetworkUpdate? || f.Reset? || (Asks(f) && MayTakeOver(w.peers[p].target.policy, w.peers[p].node, f.keyIndex))))
  {
    hide Handle, Poll, Select, Receive, PollTarget;
    if s.DeliverRequest? && s.peer == p {
      var peer := w.peers[p];
      ChangesExactly(peer.target, peer.node, w.node.ieee, peer.inbox[0], w.now, s.draw);
      if Asks(peer.inbox[0]) {
        GrantedExactly(peer.target, peer.node, w.node.ieee, peer.inbox[0], w.now, s.draw);
      }
    } else {
      PolledPolicy(w, s, p);
    }
  }

  lemma PolledPolicy(w: World, s: Step, p: Ieee)
    requires Enabled(w, s) && p in w.peers && !(s.DeliverRequest? && s.peer == p)
    ensures var w' := Next(w, s).0;
            p in w'.peers && w'.peers[p].target.policy == w.peers[p].target.policy && w'.peers[p].node == w.peers[p].node
  {
    hide Handle, Poll, Select, Receive;
  }

  /** The same network, key and address; only an update may have moved the network on. */
  predicate SameNetwork(m: Membership, m': Membership) {
    && m'.key == m.key && m'.short == m.short && m'.centralized == m.centralized
    && m'.network.extendedPanId == m.network.extendedPanId && m'.network.panId == m.network.panId
  }

  /** Over every run, a peer that accepts no touchlink never joins anything: it stays on the network it
      was on, with its key and its address, or leaves it by a reset for good. */
  lemma {:induction false} RefusingPeerIsNeverTakenOver(steps: seq<Step>, worlds: seq<World>, k: nat, p: Ieee)
    requires IsRun(steps, worlds) && k <= |steps|
    requires p in worlds[0].peers && !worlds[0].peers[p].target.policy.accept
    ensures p in worlds[k].peers && worlds[k].peers[p].target.policy == worlds[0].peers[p].target.policy
    ensures var m, m' := worlds[0].peers[p].node.member, worlds[k].peers[p].node.member;
            m'.Some? ==> m.Some? && SameNetwork(m.value, m'.value)
  {
    if k > 0 {
      RefusingPeerIsNeverTakenOver(steps, worlds, k - 1, p);
      var w, s := worlds[k - 1], steps[k - 1];
      assert worlds[k - 1 + 1] == Next(w, s).0;
      TakenOverOnlyIfAllowed(w, s, p);
      if worlds[k].peers[p].node != w.peers[p].node {
        hide Handle;
        var peer := w.peers[p];
        ChangesExactly(peer.target, peer.node, w.node.ieee, peer.inbox[0], w.now, s.draw);
        if Asks(peer.inbox[0]) {
          GrantedExactly(peer.target, peer.node, w.node.ieee, peer.inbox[0], w.now, s.draw);
        }
      }
    }
  }
}
