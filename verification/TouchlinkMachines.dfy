/**
 The touchlink initiator and target as the objects they are: fields that each
 received frame and each timer tick updates in place, and a node they drive. Every
 method does exactly what the step functions of module Touchlink say.
 */
module TouchlinkMachines {
  import opened Types
  import opened AddressRanges
  import opened Touchlink

  /** The node under an initiator: its network, and the requests it was told to send
      (to one device, or to all). */
  class InitiatorNode {
    const ieee: Ieee
    const role: Role
    const keyIndexes: set<nat>
    var member: Option<Membership>
    var sent: seq<(Option<Ieee>, Request)>

    constructor (node: Node)
      ensures Value() == node && sent == []
    {
      ieee, role, keyIndexes, member, sent := node.ieee, node.role, node.keyIndexes, node.member, [];
    }

    function Value(): Node
      reads this
    {
      Node(ieee, role, keyIndexes, member)
    }
  }

  class InitiatorMachine {
    const keyIndex: nat
    const ranges: Holder
    var transaction: nat
    var state: State
    var candidates: seq<Candidate>
    var target: Option<Candidate>
    var reset: bool

    constructor (keyIndex: nat)
      ensures fresh(ranges)
      ensures Value() == Initiator(keyIndex, FACTORY_NEW, 0, Idle, [], None, false)
    {
      this.keyIndex := keyIndex;
      ranges := new Holder(FACTORY_NEW);
      transaction, state, candidates, target, reset := 0, Idle, [], None, false;
    }

    function Value(): Initiator
      reads this, ranges
    {
      Initiator(keyIndex, ranges.ranges, transaction, state, candidates, target, reset)
    }

    /** Starts device discovery. */
    method Start(trid: nat, extended: bool, reset: bool, now: Instant)
      modifies this
      ensures Value() == Begin(old(Value()), trid, extended, reset, now)
      ensures state.Scanning? && transaction == trid && candidates == [] && target.None?
    {
      transaction := trid;
      candidates := [];
      target := None;
      this.reset := reset;
      state := Scanning(PRIMARY_CHANNELS[1..], PRIMARY_CHANNELS[0], FIRST_CHANNEL_SCANS, extended, now);
    }

    /** Advances the timers. */
    method PollTimers(node: InitiatorNode, now: Instant, adopts: bool) returns (outcome: Option<Outcome>)
      modifies this, node
      ensures var res := Poll(old(Value()), old(node.Value()), now, adopts);
              && Value() == res.initiator && node.Value() == res.node && outcome == res.outcome
              && node.sent == old(node.sent) + (if res.scan then [(None, Scan(transaction))] else [])
      ensures outcome.Some? ==> state == if outcome.value.Discovered? then Selecting else Idle
      ensures old(state).StartupDelay? && outcome.Some? ==> (outcome.value.Success? <==> old(state).adopted.None? || adopts)
      ensures node.member != old(node.member) ==> outcome.Some? && outcome.value.Success? && node.member.Some?
    {
      match state {
        case Scanning(remaining, current, sendsLeft, secondaryPending, nextSend) =>
          if now < nextSend {
            return None;
          }
          if sendsLeft > 0 {
            node.sent := node.sent + [(None, Scan(transaction))];
            state := Scanning(remaining, current, sendsLeft - 1, secondaryPending, After(now, SCAN_TIME_BASE_MS));
            return None;
          }
          if remaining != [] {
            state := Scanning(remaining[1..], remaining[0], 1, secondaryPending, now);
            return None;
          }
          if secondaryPending {
            state := Scanning(SECONDARY_CHANNELS[1..], SECONDARY_CHANNELS[0], 1, false, now);
            return None;
          }
          if candidates == [] {
            state := Idle;
            return Some(Failed(NoScanResponses));
          }
          state := Selecting;
          return Some(Discovered(candidates));
        case WaitingStart(deadline, _) =>
          if now >= deadline {
            state := Idle;
            return Some(Failed(TargetFailure));
          }
          return None;
        case WaitingJoin(deadline, _) =>
          if now >= deadline {
            state := Idle;
            return Some(Failed(TargetFailure));
          }
          return None;
        case StartupDelay(deadline, adopted, short) =>
          if now < deadline {
            return None;
          }
          state := Idle;
          if adopted.Some? {
            if !adopts {
              return Some(Failed(NodeFailed));
            }
            var p := adopted.value;
            node.member := Some(Membership(p.network, p.key, p.short, false));
          }
          return Some(Success(if target.Some? then target.value.ieee else 0, short));
        case Idle => return None;
        case Selecting => return None;
      }
    }

    method IsKnown(ieee: Ieee) returns (known: bool)
      ensures known <==> Known(candidates, ieee)
    {
      for k := 0 to |candidates|
        invariant forall j :: 0 <= j < k ==> candidates[j].ieee != ieee
      {
        if candidates[k].ieee == ieee {
          return true;
        }
      }
      return false;
    }

    /** A response received from `src`. */
    method OnInterPan(src: Ieee, r: Response, now: Instant) returns (outcome: Option<Outcome>)
      modifies this
      ensures (Value(), outcome) == Receive(old(Value()), src, r, now)
      ensures outcome.Some? ==> state.Idle? && outcome.value.Failed?
      ensures old(candidates) <= candidates && |candidates| <= |old(candidates)| + 1
    {
      match r {
        case Scanned(s) =>
          if !state.Scanning? || s.transaction != transaction {
            return None;
          }
          var known := IsKnown(src);
          if known {
            return None;
          }
          if |candidates| < MAX_CANDIDATES {
            candidates := candidates + [Candidate(src, state.current, s)];
          }
          return None;
        case Started(trid, success, network) =>
          if !state.WaitingStart? {
            return None;
          }
          var p := state.params;
          if trid != transaction || target.None? || target.value.ieee != src {
            return None;
          }
          if !success {
            state := Idle;
            return Some(Failed(NoNetwork));
          }
          var channel := if Is24GHz(network.channel) then network.channel else p.network.channel;
          state := StartupDelay(After(now, MIN_STARTUP_DELAY_MS), Some(p.(network := network.(channel := channel))), 0x0002);
          return None;
        case JoinedAs(_, trid, success) =>
          if !state.WaitingJoin? {
            return None;
          }
          var short := state.short;
          if trid != transaction || target.None? || target.value.ieee != src {
            return None;
          }
          if !success {
            state := Idle;
            return Some(Failed(TargetFailure));
          }
          state := StartupDelay(After(now, MIN_STARTUP_DELAY_MS), None, short);
          return None;
      }
    }

    /** Takes an address, a group block and free ranges for a target. */
    method AssignTo(s: ScanResponse) returns (a: Option<Assignment>)
      modifies ranges
      ensures (ranges.ranges, a) == Assign(old(ranges.ranges), s)
    {
      var address := ranges.TakeAddress();
      if address.None? {
        return None;
      }
      var groups, free := None, None;
      if s.totalGroups > 0 {
        groups := ranges.TakeGroupBlock(s.totalGroups);
      }
      if s.addressAssignment {
        free := ranges.SplitUpper();
      }
      return Some(Assignment(address.value, groups, free));
    }

    /** The candidate is on this network already: the newer update identifier wins. */
    method ReconcileWith(node: InitiatorNode, c: Candidate) returns (outcome: Option<Outcome>)
      requires node.member.Some? && state.Idle?
      modifies node
      ensures var res := Reconcile(Value(), old(node.Value()), old(node.member.value.network), c);
              && Value() == res.initiator && node.Value() == res.node && outcome == res.outcome
              && node.sent == old(node.sent) + (if res.sent.Some? then [(Some(c.ieee), res.sent.value)] else [])
    {
      var r, n := c.response, node.member.value.network;
      var newer := NewerUpdateId(n.updateId, r.network.updateId);
      if newer != n.updateId {
        if Is24GHz(r.network.channel) {
          node.member := Some(node.member.value.(network := n.(updateId := newer, channel := r.network.channel)));
        }
      } else if n.updateId != r.network.updateId {
        node.sent := node.sent + [(Some(c.ieee), NetworkUpdate(transaction, n))];
      }
      return Some(Success(c.ieee, r.networkAddress));
    }

    /** Sends the chosen candidate a network start or join request. */
    method CommissionTarget(node: InitiatorNode, c: Candidate, key: NetworkKey, now: Instant, service: Service) returns (outcome: Option<Outcome>)
      requires target == Some(c)
      modifies this, ranges, node
      ensures var res := Commission(old(Value()), old(node.Value()), c, key, now, service);
              && Value() == res.initiator && node.Value() == res.node && outcome == res.outcome
              && node.sent == old(node.sent) + (if res.sent.Some? then [(Some(c.ieee), res.sent.value)] else [])
      ensures outcome.Some? ==> state.Idle? && node.sent == old(node.sent)
      ensures target == Some(c)
      ensures outcome.None? ==> if old(node.member).None? then state.WaitingStart? else state.WaitingJoin?
      ensures outcome.None? ==> |node.sent| == |old(node.sent)| + 1 && node.sent[|old(node.sent)|].0 == Some(c.ieee)
    {
      hide NextAddress, TakeGroups, Split, After;
      state := Idle;
      var r := c.response;
      var own := None;
      if node.member.None? {
        own := ranges.TakeAddress();
      }
      var assignment := AssignTo(r);
      if assignment.None? {
        return Some(Failed(NoNetwork));
      }
      if node.member.None? {
        if node.role.Router? || !r.role.Router? {
          return Some(Failed(NoNetwork));
        }
        if !service.Works? {
          return Some(Failed(Trouble(service)));
        }
        var ownAddress := if own.Some? then own.value else 0x0001;
        var block := Sealed(keyIndex, transaction, r.response, key);
        node.sent := node.sent + [(Some(c.ieee), NetworkStart(transaction, NO_NETWORK, keyIndex, block, assignment.value, node.ieee, ownAddress))];
        state := WaitingStart(After(now, RX_WINDOW_MS),
                              NetworkParams(NO_NETWORK.(channel := c.channel), key, ownAddress,
                                            Some((c.ieee, assignment.value.networkAddress))));
        return None;
      }
      if !service.Works? {
        return Some(Failed(Trouble(service)));
      }
      var m := node.member.value;
      var block := Sealed(keyIndex, transaction, r.response, m.key);
      node.sent := node.sent + [(Some(c.ieee), NetworkJoin(r.role.Router?, transaction, m.network, keyIndex, block, assignment.value))];
      state := WaitingJoin(After(now, RX_WINDOW_MS), assignment.value.networkAddress);
      return None;
    }

    /** Chooses a discovered target and continues the procedure. */
    method SelectTarget(node: InitiatorNode, c: Candidate, key: NetworkKey, now: Instant, service: Service) returns (outcome: Option<Outcome>)
      modifies this, ranges, node
      ensures var res := Select(old(Value()), old(node.Value()), c, key, now, service);
              && Value() == res.initiator && node.Value() == res.node && outcome == res.outcome
              && node.sent == old(node.sent) + (if res.sent.Some? then [(Some(c.ieee), res.sent.value)] else [])
      ensures !old(state).Selecting? ==> outcome.None? && Value() == old(Value()) && node.sent == old(node.sent)
      ensures old(state).Selecting? ==> target == Some(c) && (outcome.Some? <==> state.Idle?)
      ensures old(state).Selecting? && outcome.None? ==>
                && (state.WaitingStart? || state.WaitingJoin?) && |node.sent| == |old(node.sent)| + 1
                && node.sent[|old(node.sent)|].0 == Some(c.ieee)
    {
      hide Commission;
      if !state.Selecting? {
        return None;
      }
      target := Some(c);
      var r := c.response;
      if node.member.Some? && node.member.value.network.extendedPanId == r.network.extendedPanId && !reset {
        state := Idle;
        outcome := ReconcileWith(node, c);
        return;
      }
      if node.member.Some? && node.member.value.centralized {
        state := Idle;
        return Some(Failed(NotPermitted));
      }
      if !IsCapable(ranges.ranges) {
        state := Idle;
        return Some(Failed(NotAddressAssignmentCapable));
      }
      if keyIndex !in node.keyIndexes * r.keyIndexes {
        state := Idle;
        return Some(Failed(NoCommonKey));
      }
      if reset {
        state := Idle;
        if service.NoRadio? {
          return Some(Failed(NodeFailed));
        }
        node.sent := node.sent + [(Some(c.ieee), Reset(transaction))];
        return Some(ResetSent);
      }
      outcome := CommissionTarget(node, c, key, now, service);
    }
  }

  /** A target and the network its node is on. */
  class TargetMachine {
    const policy: Policy
    const totalGroups: Octet
    const role: Role
    const ieee: Ieee
    const keyIndexes: set<nat>
    var transaction: Option<Transaction>
    var responseId: nat
    var member: Option<Membership>

    constructor (policy: Policy, totalGroups: Octet, node: Node)
      ensures Value() == Target(policy, None, 0, totalGroups) && NodeValue() == node
    {
      this.policy, this.totalGroups := policy, totalGroups;
      role, ieee, keyIndexes, member := node.role, node.ieee, node.keyIndexes, node.member;
      transaction, responseId := None, 0;
    }

    function Value(): Target
      reads this
    {
      Target(policy, transaction, responseId, totalGroups)
    }

    function NodeValue(): Node
      reads this
    {
      Node(ieee, role, keyIndexes, member)
    }

    /** Expires the transaction. */
    method Expire(now: Instant)
      modifies this
      ensures Value() == PollTarget(old(Value()), now) && NodeValue() == old(NodeValue())
      ensures transaction == if old(transaction).Some? && now < old(transaction).value.expires then old(transaction) else None
    {
      if transaction.Some? && now >= transaction.value.expires {
        transaction := None;
      }
    }

    method StartNetwork(f: Request, draw: Draw) returns (reply: Option<Response>)
      requires f.NetworkStart?
      modifies this
      ensures TargetResult(Value(), NodeValue(), reply) == OnStart(old(Value()), old(NodeValue()), f, draw)
    {
      if role != Router {
        return None;
      }
      if !Allowed(Value(), NodeValue()) || f.keyIndex !in keyIndexes {
        return Some(Started(f.transaction, false, NO_NETWORK));
      }
      var key := Open(f.keyIndex, f.transaction, responseId, f.block);
      var channel := if Is24GHz(f.network.channel) then f.network.channel else PRIMARY_CHANNELS[0];
      var epid := f.network.extendedPanId;
      if epid == 0 || epid == 0xFFFF_FFFF_FFFF_FFFF {
        epid := draw.extendedPanId;
      }
      var pan := f.network.panId;
      if pan == 0 || pan == 0xffff {
        pan := draw.panId;
      }
      var n := Network(epid, pan, channel, 0);
      transaction := None;
      member := Some(Membership(n, key, f.assignment.networkAddress, false));
      return Some(Started(f.transaction, true, n));
    }

    method JoinNetwork(f: Request) returns (reply: Option<Response>)
      requires f.NetworkJoin?
      modifies this
      ensures TargetResult(Value(), NodeValue(), reply) == OnJoin(old(Value()), old(NodeValue()), f)
    {
      if role != (if f.router then Router else EndDevice) {
        return None;
      }
      if !Allowed(Value(), NodeValue()) || f.keyIndex !in keyIndexes {
        return Some(JoinedAs(f.router, f.transaction, false));
      }
      var key := Open(f.keyIndex, f.transaction, responseId, f.block);
      reply := Some(JoinedAs(f.router, f.transaction, true));
      if !Is24GHz(f.network.channel) {
        return;
      }
      transaction := None;
      member := Some(Membership(f.network, key, f.assignment.networkAddress, false));
    }

    /** A request received from `src`. */
    method OnInterPan(src: Ieee, f: Request, now: Instant, draw: Draw) returns (reply: Option<Response>)
      modifies this
      ensures TargetResult(Value(), NodeValue(), reply) == Handle(old(Value()), old(NodeValue()), src, f, now, draw)
    {
      Expire(now);
      if f.Scan? {
        var same := transaction.Some? && transaction.value.id == f.transaction;
        transaction := Some(Transaction(f.transaction, src, After(now, TRANSACTION_LIFETIME_MS)));
        if !same {
          responseId := draw.responseId;
        }
        var network := if member.Some? then member.value.network else NO_NETWORK;
        var address := if member.Some? then member.value.short else 0xffff;
        return Some(Scanned(ScanResponse(f.transaction, role, false, keyIndexes, responseId, network, address, totalGroups)));
      }
      if transaction.None? || transaction.value.initiator != src || transaction.value.id != f.transaction {
        return None;
      }
      match f {
        case NetworkStart(_, _, _, _, _, _, _) =>
          reply := StartNetwork(f, draw);
        case NetworkJoin(_, _, _, _, _, _) =>
          reply := JoinNetwork(f);
        case NetworkUpdate(_, n) =>
          if member.Some? {
            var m := member.value;
            if n.extendedPanId == m.network.extendedPanId && n.panId == m.network.panId
               && NewerUpdateId(m.network.updateId, n.updateId) != m.network.updateId && Is24GHz(n.channel) {
              member := Some(m.(network := m.network.(updateId := n.updateId, channel := n.channel)));
            }
          }
          reply := None;
        case Reset(_) =>
          transaction := None;
          member := None;
          reply := None;
      }
    }
  }
}
