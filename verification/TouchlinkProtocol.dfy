/**
 One touchlink initiator and any number of targets over links that keep frames in
 order but may lose any of them. Whatever the timing and the losses, a procedure
 that ends in success after a start or join exchange leaves both ends on the same
 network.
 */
module TouchlinkProtocol {
  import opened Types
  import opened Touchlink

  /** A target with the frames on their way to it and from it. */
  datatype Peer = Peer(target: Target, node: Node, inbox: seq<Request>, outbox: seq<Response>)

  datatype World = World(now: Instant, initiator: Initiator, node: Node, peers: map<Ieee, Peer>, used: set<nat>)

  datatype Step =
    | Tick(time: Instant)
    | Begin(transaction: nat, extended: bool, reset: bool)
    | PollInitiator(adopts: bool)
    | Choose(candidate: Candidate, key: NetworkKey, service: Service)
    | DeliverRequest(peer: Ieee, draw: Draw)
    | LoseRequest(peer: Ieee)
    | DeliverResponse(peer: Ieee)
    | LoseResponse(peer: Ieee)
    | PollPeer(peer: Ieee)

  /** What the environment may do: time does not go back, every procedure draws a
      transaction identifier not drawn before, and only waiting frames move. */
  predicate Enabled(w: World, s: Step) {
    match s
    case Tick(time) => w.now <= time
    case Begin(transaction, _, _) => transaction != 0 && transaction !in w.used
    case PollInitiator(_) => true
    case Choose(c, _, _) => c in w.initiator.candidates
    case DeliverRequest(p, draw) => p in w.peers && w.peers[p].inbox != [] && Acceptable(draw)
    case LoseRequest(p) => p in w.peers && w.peers[p].inbox != []
    case DeliverResponse(p) => p in w.peers && w.peers[p].outbox != []
    case LoseResponse(p) => p in w.peers && w.peers[p].outbox != []
    case PollPeer(p) => p in w.peers
  }

  function Post(peers: map<Ieee, Peer>, dst: Ieee, f: Request): map<Ieee, Peer> {
    if dst in peers then peers[dst := peers[dst].(inbox := peers[dst].inbox + [f])] else peers
  }

  function Broadcast(peers: map<Ieee, Peer>, f: Request): map<Ieee, Peer> {
    map p | p in peers :: peers[p].(inbox := peers[p].inbox + [f])
  }

  function Next(w: World, s: Step): (World, Option<Outcome>)
    requires Enabled(w, s)
  {
    match s
    case Tick(time) => (w.(now := time), None)
    case Begin(transaction, extended, reset) =>
      (w.(initiator := Touchlink.Begin(w.initiator, transaction, extended, reset, w.now), used := w.used + {transaction}), None)
    case PollInitiator(adopts) =>
      var res := Poll(w.initiator, w.node, w.now, adopts);
      (w.(initiator := res.initiator, node := res.node,
          peers := if res.scan then Broadcast(w.peers, Scan(w.initiator.transaction)) else w.peers), res.outcome)
    case Choose(c, key, service) =>
      var res := Select(w.initiator, w.node, c, key, w.now, service);
      (w.(initiator := res.initiator, node := res.node,
          peers := if res.sent.Some? then Post(w.peers, c.ieee, res.sent.value) else w.peers), res.outcome)
    case DeliverRequest(p, draw) =>
      var peer := w.peers[p];
      var res := Handle(peer.target, peer.node, w.node.ieee, peer.inbox[0], w.now, draw);
      (w.(peers := w.peers[p := Peer(res.target, res.node, peer.inbox[1..],
                                     peer.outbox + (if res.reply.Some? then [res.reply.value] else []))]), None)
    case LoseRequest(p) => (w.(peers := w.peers[p := w.peers[p].(inbox := w.peers[p].inbox[1..])]), None)
    case DeliverResponse(p) =>
      var peer := w.peers[p];
      var (i, outcome) := Receive(w.initiator, p, peer.outbox[0], w.now);
      (w.(initiator := i, peers := w.peers[p := peer.(outbox := peer.outbox[1..])]), outcome)
    case LoseResponse(p) => (w.(peers := w.peers[p := w.peers[p].(outbox := w.peers[p].outbox[1..])]), None)
    case PollPeer(p) => (w.(peers := w.peers[p := w.peers[p].(target := PollTarget(w.peers[p].target, w.now))]), None)
  }

  // ------------------------------------------------------------------
  // The invariant
  // ------------------------------------------------------------------

  /** The initiator records its chosen target, under an address that is not its own
      unless only the last one was left. */
  predicate Neighbours(i: Initiator, p: NetworkParams) {
    && i.target.Some? && p.neighbour.Some?
    && p.neighbour.value.0 == i.target.value.ieee && (p.neighbour.value.1 == p.short <==> p.short == 0xffff)
  }

  /** The initiator's end of the exchange it waits for: the network, and the key it sealed. */
  ghost predicate Offers(i: Initiator, node: Node, f: Request) {
    && i.target.Some?
    && match i.state
       case WaitingStart(_, p) =>
         && f.NetworkStart? && f.network == NO_NETWORK
         && Neighbours(i, p) && p.neighbour.value.1 == f.assignment.networkAddress
         && f.block == Sealed(i.keyIndex, i.transaction, i.target.value.response.response, p.key)
         && f.keyIndex == i.keyIndex && f.initiatorAddress == p.short
       case WaitingJoin(_, short) =>
         && f.NetworkJoin? && node.member.Some? && f.network == node.member.value.network
         && f.assignment.networkAddress == short
         && f.block == Sealed(i.keyIndex, i.transaction, i.target.value.response.response, node.member.value.key)
         && f.keyIndex == i.keyIndex
       case _ => false
  }

  /** The peer is on network `n` with address `short`, holding what it made of the key `key`
      that the initiator sealed for the response identifier it had kept. */
  ghost predicate Holds(i: Initiator, peer: Peer, n: Network, key: NetworkKey, short: nat) {
    && i.target.Some?
    && peer.node.member.Some?
    && peer.node.member.value.network == n
    && peer.node.member.value.short == short
    && peer.node.member.value.key
       == Open(i.keyIndex, i.transaction, peer.target.responseId,
               Sealed(i.keyIndex, i.transaction, i.target.value.response.response, key))
  }

  /** A success response the initiator would act on means that the peer already holds what
      the initiator is about to believe. */
  ghost predicate Confirms(i: Initiator, node: Node, peer: Peer, r: Response) {
    match i.state
    case WaitingStart(_, p) =>
      r.Started? && r.success && r.transaction == i.transaction ==>
        && Is24GHz(r.network.channel) && Neighbours(i, p)
        && Holds(i, peer, r.network, p.key, p.neighbour.value.1)
    case WaitingJoin(_, short) =>
      r.JoinedAs? && r.success && r.transaction == i.transaction ==>
        && node.member.Some? && Holds(i, peer, node.member.value.network, node.member.value.key, short)
    case _ => true
  }

  predicate Fresh(i: Initiator, r: Response) {
    !r.Scanned? ==> TransactionOf(r) != i.transaction
  }

  /** No request of the current procedure but scans is on its way or has been answered. */
  ghost predicate Unasked(i: Initiator, peer: Peer) {
    && (forall k :: 0 <= k < |peer.inbox| ==> peer.inbox[k].Scan? || peer.inbox[k].transaction != i.transaction)
    && (forall k :: 0 <= k < |peer.outbox| ==> Fresh(i, peer.outbox[k]))
  }

  /** The request is the last frame on its way, and nothing has been answered yet. */
  ghost predicate Asked(i: Initiator, node: Node, peer: Peer) {
    && (forall k :: 0 <= k < |peer.inbox| && !peer.inbox[k].Scan? && peer.inbox[k].transaction == i.transaction ==>
          k == |peer.inbox| - 1 && Offers(i, node, peer.inbox[k]))
    && (forall k :: 0 <= k < |peer.outbox| ==> Fresh(i, peer.outbox[k]))
  }

  /** Nothing is on its way to the peer any more. */
  ghost predicate Settled(i: Initiator, node: Node, peer: Peer) {
    && peer.inbox == []
    && (forall k :: 0 <= k < |peer.outbox| ==> Confirms(i, node, peer, peer.outbox[k]))
  }

  predicate IsChosen(i: Initiator, p: Ieee) {
    i.target.Some? && i.target.value.ieee == p
  }

  ghost predicate Exchange(i: Initiator, node: Node, p: Ieee, peer: Peer) {
    match i.state
    case Idle => true
    case Scanning(_, _, _, _, _) => Unasked(i, peer)
    case Selecting => Unasked(i, peer)
    case WaitingStart(_, _) => if IsChosen(i, p) then Asked(i, node, peer) || Settled(i, node, peer) else true
    case WaitingJoin(_, _) => if IsChosen(i, p) then Asked(i, node, peer) || Settled(i, node, peer) else true
    case StartupDelay(_, adopted, reported) =>
      IsChosen(i, p) ==>
        && peer.inbox == []
        && (adopted.Some? ==>
              && Neighbours(i, adopted.value)
              && Holds(i, peer, adopted.value.network, adopted.value.key, adopted.value.neighbour.value.1))
        && (adopted.None? ==>
              && node.member.Some?
              && Holds(i, peer, node.member.value.network, node.member.value.key, reported))
  }

  /** Every transaction identifier in sight has been drawn. */
  ghost predicate Drawn(w: World, peer: Peer) {
    && (forall k :: 0 <= k < |peer.inbox| ==> peer.inbox[k].transaction in w.used)
    && (forall k :: 0 <= k < |peer.outbox| ==> TransactionOf(peer.outbox[k]) in w.used)
  }

  predicate Exchanging(s: State) {
    s.WaitingStart? || s.WaitingJoin? || s.StartupDelay?
  }

  /** What holds of the initiator and its node. */
  ghost predicate Sound(w: World) {
    && (forall c :: c in w.initiator.candidates ==> c.ieee in w.peers)
    && (Exchanging(w.initiator.state) ==> w.initiator.target.Some? && w.initiator.target.value.ieee in w.peers)
    && (w.initiator.state.StartupDelay? && w.initiator.state.adopted.Some? ==>
          Is24GHz(w.initiator.state.adopted.value.network.channel))
    && (!w.initiator.state.Idle? ==> w.initiator.transaction in w.used)
    && (w.node.member.Some? ==> Is24GHz(w.node.member.value.network.channel))
  }

  /** What holds of one peer. */
  ghost predicate PeerInv(w: World, q: Ieee)
    requires q in w.peers
  {
    Drawn(w, w.peers[q]) && Exchange(w.initiator, w.node, q, w.peers[q])
  }

  ghost predicate Inv(w: World) {
    Sound(w) && forall p :: p in w.peers ==> PeerInv(w, p)
  }

  // ------------------------------------------------------------------
  // Every step keeps it
  // ------------------------------------------------------------------

  lemma HandleExchange(i: Initiator, node: Node, p: Ieee, peer: Peer, now: Instant, draw: Draw, peer': Peer)
    requires Exchange(i, node, p, peer) && peer.inbox != []
    requires node.member.Some? ==> Is24GHz(node.member.value.network.channel)
    requires var res := Handle(peer.target, peer.node, node.ieee, peer.inbox[0], now, draw);
             peer' == Peer(res.target, res.node, peer.inbox[1..], peer.outbox + (if res.reply.Some? then [res.reply.value] else []))
    ensures Exchange(i, node, p, peer')
    ensures |peer'.outbox| > |peer.outbox| ==> TransactionOf(peer'.outbox[|peer.outbox|]) == peer.inbox[0].transaction
  {
    var f := peer.inbox[0];
    var res := Handle(peer.target, peer.node, node.ieee, f, now, draw);
    assert res.reply.Some? ==> TransactionOf(res.reply.value) == f.transaction && (f.Scan? <==> res.reply.value.Scanned?);
    if IsChosen(i, p) && (i.state.WaitingStart? || i.state.WaitingJoin?) {
      if !f.Scan? && f.transaction == i.transaction {
        assert peer'.inbox == [];
        forall k | 0 <= k < |peer'.outbox|
          ensures Confirms(i, node, peer', peer'.outbox[k])
        {
          if k < |peer.outbox| {
            assert Fresh(i, peer.outbox[k]);
          }
        }
        assert Settled(i, node, peer');
      } else {
        assert Asked(i, node, peer');
      }
    }
  }

  lemma DeliverRequestInv(w: World, p: Ieee, draw: Draw)
    requires Inv(w) && Enabled(w, DeliverRequest(p, draw))
    ensures Inv(Next(w, DeliverRequest(p, draw)).0)
  {
    var w' := Next(w, DeliverRequest(p, draw)).0;
    var peer, peer' := w.peers[p], w'.peers[p];
    assert PeerInv(w, p);
    HandleExchange(w.initiator, w.node, p, peer, w.now, draw, peer');
    assert Drawn(w', peer') by {
      assert peer.inbox[0].transaction in w.used;
    }
    forall q | q in w'.peers
      ensures PeerInv(w', q)
    {
      assert PeerInv(w, q);
    }
  }

  lemma ResponseKeepsPeer(w: World, p: Ieee, q: Ieee)
    requires Inv(w) && Enabled(w, DeliverResponse(p)) && q in w.peers
    ensures PeerInv(Next(w, DeliverResponse(p)).0, q)
  {
    assert PeerInv(w, p) && PeerInv(w, q);
    var w' := Next(w, DeliverResponse(p)).0;
    if w'.initiator.state == w.initiator.state {
      assert Exchange(w'.initiator, w'.node, q, w'.peers[q]);
    }
  }

  lemma ResponseKeepsSound(w: World, p: Ieee)
    requires Inv(w) && Enabled(w, DeliverResponse(p))
    ensures Sound(Next(w, DeliverResponse(p)).0)
  {
    assert PeerInv(w, p);
  }

  lemma DeliverResponseInv(w: World, p: Ieee)
    requires Inv(w) && Enabled(w, DeliverResponse(p))
    ensures Inv(Next(w, DeliverResponse(p)).0)
  {
    hide Sound, PeerInv, Receive;
    ResponseKeepsSound(w, p);
    var w' := Next(w, DeliverResponse(p)).0;
    forall q | q in w'.peers
      ensures PeerInv(w', q)
    {
      ResponseKeepsPeer(w, p, q);
    }
  }

  lemma LoseInv(w: World, s: Step)
    requires Inv(w) && Enabled(w, s) && (s.LoseRequest? || s.LoseResponse? || s.PollPeer? || s.Tick?)
    ensures Inv(Next(w, s).0)
  {
    var w' := Next(w, s).0;
    forall q | q in w'.peers
      ensures PeerInv(w', q)
    {
      assert PeerInv(w, q);
    }
  }

  lemma BeginInv(w: World, s: Step)
    requires Inv(w) && Enabled(w, s) && s.Begin?
    ensures Inv(Next(w, s).0)
  {
    var w' := Next(w, s).0;
    forall q | q in w'.peers
      ensures PeerInv(w', q)
    {
      assert PeerInv(w, q);
    }
  }

  lemma PollKeepsPeer(w: World, adopts: bool, q: Ieee)
    requires Inv(w) && q in w.peers
    ensures PeerInv(Next(w, PollInitiator(adopts)).0, q)
  {
    assert PeerInv(w, q);
  }

  lemma PollKeepsSound(w: World, adopts: bool)
    requires Sound(w)
    ensures Sound(Next(w, PollInitiator(adopts)).0)
  {
  }

  lemma PollInv(w: World, adopts: bool)
    requires Inv(w)
    ensures Inv(Next(w, PollInitiator(adopts)).0)
  {
    hide Sound, PeerInv, Poll;
    PollKeepsSound(w, adopts);
    var w' := Next(w, PollInitiator(adopts)).0;
    forall q | q in w'.peers
      ensures PeerInv(w', q)
    {
      PollKeepsPeer(w, adopts, q);
    }
  }

  lemma ChooseKeepsPeer(w: World, c: Candidate, key: NetworkKey, service: Service, q: Ieee)
    requires Inv(w) && Enabled(w, Choose(c, key, service)) && q in w.peers
    ensures PeerInv(Next(w, Choose(c, key, service)).0, q)
  {
    assert PeerInv(w, q);
  }

  lemma ChooseKeepsSound(w: World, c: Candidate, key: NetworkKey, service: Service)
    requires Sound(w) && Enabled(w, Choose(c, key, service))
    ensures Sound(Next(w, Choose(c, key, service)).0)
  {
  }

  lemma ChooseInv(w: World, c: Candidate, key: NetworkKey, service: Service)
    requires Inv(w) && Enabled(w, Choose(c, key, service))
    ensures Inv(Next(w, Choose(c, key, service)).0)
  {
    hide Sound, PeerInv, Select;
    ChooseKeepsSound(w, c, key, service);
    var w' := Next(w, Choose(c, key, service)).0;
    forall q | q in w'.peers
      ensures PeerInv(w', q)
    {
      ChooseKeepsPeer(w, c, key, service, q);
    }
  }

  // ------------------------------------------------------------------
  // Runs
  // ------------------------------------------------------------------

  /** A run: `worlds[k]` is the world before step `k`. */
  ghost predicate IsRun(steps: seq<Step>, worlds: seq<World>) {
    && |worlds| == |steps| + 1
    && Inv0(worlds[0])
    && (forall k :: 0 <= k < |steps| ==> Enabled(worlds[k], steps[k]) && worlds[k + 1] == Next(worlds[k], steps[k]).0)
  }

  /** Before anything happened: an idle initiator and no frames anywhere. */
  ghost predicate Inv0(w: World) {
    && w.initiator.state == Idle && w.initiator.candidates == [] && w.used == {}
    && (w.node.member.Some? ==> Is24GHz(w.node.member.value.network.channel))
    && (forall p :: p in w.peers ==> w.peers[p].inbox == [] && w.peers[p].outbox == [])
  }

  lemma NextInv(w: World, s: Step)
    requires Inv(w) && Enabled(w, s)
    ensures Inv(Next(w, s).0)
  {
    match s
    case Begin(_, _, _) => BeginInv(w, s);
    case PollInitiator(adopts) => PollInv(w, adopts);
    case Choose(c, key, service) => ChooseInv(w, c, key, service);
    case DeliverRequest(p, draw) => DeliverRequestInv(w, p, draw);
    case DeliverResponse(p) => DeliverResponseInv(w, p);
    case _ => LoseInv(w, s);
  }

  lemma {:induction false} RunInv(steps: seq<Step>, worlds: seq<World>, k: nat)
    requires IsRun(steps, worlds) && k <= |steps|
    ensures Inv(worlds[k])
  {
    if k > 0 {
      RunInv(steps, worlds, k - 1);
      NextInv(worlds[k - 1], steps[k - 1]);
    }
  }

  /** Success after a start or join exchange: both ends are on the same network, the target
      has the address it was assigned, and they share the network key exactly when the
      target still has the response identifier the initiator kept from its scan response. */
  lemma SuccessMeansAgreement(steps: seq<Step>, worlds: seq<World>, k: nat)
    requires IsRun(steps, worlds) && k < |steps|
    requires steps[k].PollInitiator? && worlds[k].initiator.state.StartupDelay?
    requires Next(worlds[k], steps[k]).1.Some? && Next(worlds[k], steps[k]).1.value.Success?
    ensures var i, w' := worlds[k].initiator, worlds[k + 1];
            && var p := Next(worlds[k], steps[k]).1.value.target;
            && p in w'.peers && i.target.Some? && i.target.value.ieee == p
            && w'.node.member.Some? && w'.peers[p].node.member.Some?
            && var mine, theirs := w'.node.member.value, w'.peers[p].node.member.value;
            && mine.network == theirs.network
            && (mine.key == theirs.key <==> w'.peers[p].target.responseId == i.target.value.response.response)
            && (i.state.adopted.None? ==> theirs.short == Next(worlds[k], steps[k]).1.value.shortAddress)
            && (i.state.adopted.Some? ==> i.state.adopted.value.neighbour == Some((p, theirs.short))
                                          && (mine.short == theirs.short <==> mine.short == 0xffff))
  {
    RunInv(steps, worlds, k);
    var w := worlds[k];
    var i := w.initiator;
    var p := i.target.value.ieee;
    assert Exchange(i, w.node, p, w.peers[p]);
    var key := if i.state.adopted.Some? then i.state.adopted.value.key else w.node.member.value.key;
    OpenIsRightExactly(i.keyIndex, i.transaction, w.peers[p].target.responseId,
                       Sealed(i.keyIndex, i.transaction, i.target.value.response.response, key));
  }

  // ------------------------------------------------------------------
  // Runs in which the target's transaction stays open
  // ------------------------------------------------------------------

  /** The peer has answered a scan of the current procedure. */
  ghost predicate Answered(i: Initiator, p: Ieee, peer: Peer) {
    || Known(i.candidates, p)
    || exists k :: 0 <= k < |peer.outbox| && peer.outbox[k].Scanned? && peer.outbox[k].response.transaction == i.transaction
  }

  /** If `q` answered this procedure before and now hears it scan again, it has not let the
      transaction expire in between. */
  ghost predicate StaysOpen(w: World, s: Step, q: Ieee)
    requires Enabled(w, s)
  {
    s.DeliverRequest? && s.peer == q ==>
      var peer := w.peers[s.peer];
      peer.inbox[0] == Scan(w.initiator.transaction) && Answered(w.initiator, s.peer, peer) ==>
        var t := PollTarget(peer.target, w.now);
        t.transaction.Some? && t.transaction.value.id == w.initiator.transaction
  }

  /** Frames of the current procedure are behind those of earlier ones. */
  ghost predicate InOrder(i: Initiator, p: Ieee, peer: Peer) {
    && (forall a, b :: 0 <= a < b < |peer.inbox| && peer.inbox[a].transaction == i.transaction ==>
          peer.inbox[b].transaction == i.transaction)
    && (Answered(i, p, peer) ==> forall a :: 0 <= a < |peer.inbox| ==> peer.inbox[a].transaction == i.transaction)
  }

  /** Whatever the initiator kept or will keep of this peer is its current response identifier. */
  ghost predicate SameResponse(i: Initiator, p: Ieee, peer: Peer) {
    && (forall c :: c in i.candidates && c.ieee == p ==> c.response.response == peer.target.responseId)
    && (forall k :: 0 <= k < |peer.outbox| && peer.outbox[k].Scanned? && peer.outbox[k].response.transaction == i.transaction ==>
          peer.outbox[k].response.response == peer.target.responseId)
  }

  ghost predicate PeerOpen(i: Initiator, p: Ieee, peer: Peer) {
    InOrder(i, p, peer) && SameResponse(i, p, peer)
  }

  ghost predicate OpenInv(w: World, q: Ieee) {
    && (Exchanging(w.initiator.state) ==>
          w.initiator.target.Some? && w.initiator.target.value in w.initiator.candidates)
    && (q in w.peers ==> PeerOpen(w.initiator, q, w.peers[q]))
  }

  lemma HandleOpen(i: Initiator, src: Ieee, p: Ieee, peer: Peer, now: Instant, draw: Draw, peer': Peer)
    requires PeerOpen(i, p, peer) && peer.inbox != []
    requires peer.inbox[0] == Scan(i.transaction) && Answered(i, p, peer) ==>
               var t := PollTarget(peer.target, now);
               t.transaction.Some? && t.transaction.value.id == i.transaction
    requires var res := Handle(peer.target, peer.node, src, peer.inbox[0], now, draw);
             peer' == Peer(res.target, res.node, peer.inbox[1..], peer.outbox + (if res.reply.Some? then [res.reply.value] else []))
    ensures PeerOpen(i, p, peer')
  {
    var f := peer.inbox[0];
    var res := Handle(peer.target, peer.node, src, f, now, draw);
    assert res.reply.Some? ==> TransactionOf(res.reply.value) == f.transaction && (f.Scan? <==> res.reply.value.Scanned?);
    assert f.transaction != i.transaction ==> !Answered(i, p, peer);
    assert forall k :: 0 <= k < |peer.outbox| ==> peer'.outbox[k] == peer.outbox[k];
  }

  lemma AppendOpen(i: Initiator, i': Initiator, p: Ieee, peer: Peer, f: Request)
    requires PeerOpen(i, p, peer) && f.transaction == i.transaction
    requires i'.transaction == i.transaction && i'.candidates == i.candidates
    ensures PeerOpen(i', p, peer) && PeerOpen(i', p, peer.(inbox := peer.inbox + [f]))
  {
    var peer' := peer.(inbox := peer.inbox + [f]);
    assert Answered(i', p, peer') == Answered(i, p, peer);
    assert Answered(i', p, peer) == Answered(i, p, peer);
  }

  lemma ReceiveOpen(i: Initiator, src: Ieee, p: Ieee, peer: Peer, now: Instant, peer': Peer)
    requires PeerOpen(i, p, peer)
    requires src == p ==> peer.outbox != []
    requires peer' == if src == p then peer.(outbox := peer.outbox[1..]) else peer
    ensures forall r :: (src == p ==> r == peer.outbox[0]) ==> PeerOpen(Receive(i, src, r, now).0, p, peer')
  {
    forall r | src == p ==> r == peer.outbox[0]
      ensures PeerOpen(Receive(i, src, r, now).0, p, peer')
    {
      var i' := Receive(i, src, r, now).0;
      assert Known(i'.candidates, p) ==> Known(i.candidates, p) || (src == p && r.Scanned? && r.response.transaction == i.transaction);
      assert Answered(i', p, peer') ==> Answered(i, p, peer);
    }
  }

  lemma PollStepOpen(w: World, adopts: bool, q: Ieee)
    requires Inv(w) && OpenInv(w, q) && StaysOpen(w, PollInitiator(adopts), q) && q in w.peers
    ensures var w' := Next(w, PollInitiator(adopts)).0; PeerOpen(w'.initiator, q, w'.peers[q])
  {
    var i, peer := w.initiator, w.peers[q];
    assert PeerInv(w, q) && PeerOpen(i, q, peer);
    AppendOpen(i, Next(w, PollInitiator(adopts)).0.initiator, q, peer, Scan(i.transaction));
  }

  lemma ChooseStepOpen(w: World, c: Candidate, key: NetworkKey, service: Service, q: Ieee)
    requires Inv(w) && OpenInv(w, q) && q in w.peers
    requires Enabled(w, Choose(c, key, service)) && StaysOpen(w, Choose(c, key, service), q)
    ensures var w' := Next(w, Choose(c, key, service)).0; PeerOpen(w'.initiator, q, w'.peers[q])
  {
    var i, peer := w.initiator, w.peers[q];
    assert PeerInv(w, q) && PeerOpen(i, q, peer);
    var res := Select(i, w.node, c, key, w.now, service);
    AppendOpen(i, res.initiator, q, peer, if res.sent.Some? then res.sent.value else Scan(i.transaction));
  }

  lemma RequestStepOpen(w: World, p: Ieee, draw: Draw, q: Ieee)
    requires Inv(w) && OpenInv(w, q) && q in w.peers
    requires Enabled(w, DeliverRequest(p, draw)) && StaysOpen(w, DeliverRequest(p, draw), q)
    ensures var w' := Next(w, DeliverRequest(p, draw)).0; PeerOpen(w'.initiator, q, w'.peers[q])
  {
    assert PeerInv(w, q) && PeerOpen(w.initiator, q, w.peers[q]);
    if p == q {
      HandleOpen(w.initiator, w.node.ieee, p, w.peers[q], w.now, draw, Next(w, DeliverRequest(p, draw)).0.peers[p]);
    }
  }

  lemma ResponseStepOpen(w: World, p: Ieee, q: Ieee)
    requires Inv(w) && OpenInv(w, q) && q in w.peers
    requires Enabled(w, DeliverResponse(p)) && StaysOpen(w, DeliverResponse(p), q)
    ensures var w' := Next(w, DeliverResponse(p)).0; PeerOpen(w'.initiator, q, w'.peers[q])
  {
    assert PeerInv(w, q) && PeerOpen(w.initiator, q, w.peers[q]);
    ReceiveOpen(w.initiator, p, q, w.peers[q], w.now, Next(w, DeliverResponse(p)).0.peers[q]);
  }

  lemma QuietStepOpen(w: World, s: Step, q: Ieee)
    requires Inv(w) && OpenInv(w, q) && Enabled(w, s) && StaysOpen(w, s, q) && q in w.peers
    requires s.Tick? || s.Begin? || s.LoseRequest? || s.LoseResponse? || s.PollPeer?
    ensures var w' := Next(w, s).0; PeerOpen(w'.initiator, q, w'.peers[q])
  {
    var w' := Next(w, s).0;
    var i, peer := w.initiator, w.peers[q];
    assert PeerInv(w, q) && PeerOpen(i, q, peer);
    if s.LoseRequest? {
      assert Answered(i, q, w'.peers[q]) == Answered(i, q, peer);
    } else if s.LoseResponse? {
      assert Answered(i, q, w'.peers[q]) ==> Answered(i, q, peer);
    }
  }

  lemma StepOpen(w: World, s: Step, q: Ieee)
    requires Inv(w) && OpenInv(w, q) && Enabled(w, s) && StaysOpen(w, s, q) && q in w.peers
    ensures var w' := Next(w, s).0; PeerOpen(w'.initiator, q, w'.peers[q])
  {
    hide Inv, OpenInv, StaysOpen, PeerOpen, Poll, Select, Handle, Receive;
    match s
    case PollInitiator(adopts) => PollStepOpen(w, adopts, q);
    case Choose(c, key, service) => ChooseStepOpen(w, c, key, service, q);
    case DeliverRequest(p, draw) => RequestStepOpen(w, p, draw, q);
    case DeliverResponse(p) => ResponseStepOpen(w, p, q);
    case _ => QuietStepOpen(w, s, q);
  }

  lemma ChosenIsCandidate(w: World, s: Step, q: Ieee)
    requires OpenInv(w, q) && Enabled(w, s)
    ensures var i := Next(w, s).0.initiator;
            Exchanging(i.state) ==> i.target.Some? && i.target.value in i.candidates
  {
  }

  lemma NextOpen(w: World, s: Step, q: Ieee)
    requires Inv(w) && OpenInv(w, q) && Enabled(w, s) && StaysOpen(w, s, q)
    ensures OpenInv(Next(w, s).0, q)
  {
    ChosenIsCandidate(w, s, q);
    if q in Next(w, s).0.peers {
      StepOpen(w, s, q);
    }
  }

  lemma InitiallyOpen(w: World, q: Ieee)
    requires Inv0(w)
    ensures OpenInv(w, q)
  {
  }

  lemma {:induction false} RunOpen(steps: seq<Step>, worlds: seq<World>, k: nat, q: Ieee)
    requires IsRun(steps, worlds) && k <= |steps|
    requires forall n :: 0 <= n < k ==> StaysOpen(worlds[n], steps[n], q)
    ensures OpenInv(worlds[k], q)
  {
    if k == 0 {
      InitiallyOpen(worlds[0], q);
    } else {
      hide Inv, OpenInv, StaysOpen, Enabled, Next;
      RunOpen(steps, worlds, k - 1, q);
      RunInv(steps, worlds, k - 1);
      NextOpen(worlds[k - 1], steps[k - 1], q);
    }
  }

  /** If the chosen peer's answered transaction never expired during the scan, success means that
      both ends share the network and its key. */
  lemma SuccessSharesTheKey(steps: seq<Step>, worlds: seq<World>, k: nat)
    requires IsRun(steps, worlds) && k < |steps|
    requires steps[k].PollInitiator? && worlds[k].initiator.state.StartupDelay?
    requires Next(worlds[k], steps[k]).1.Some? && Next(worlds[k], steps[k]).1.value.Success?
    requires forall n :: 0 <= n < k ==> StaysOpen(worlds[n], steps[n], Next(worlds[k], steps[k]).1.value.target)
    ensures var p := Next(worlds[k], steps[k]).1.value.target;
            var w' := worlds[k + 1];
            && p in w'.peers && w'.node.member.Some? && w'.peers[p].node.member.Some?
            && w'.node.member.value.network == w'.peers[p].node.member.value.network
            && w'.node.member.value.key == w'.peers[p].node.member.value.key
  {
    SuccessMeansAgreement(steps, worlds, k);
    var p := Next(worlds[k], steps[k]).1.value.target;
    RunOpen(steps, worlds, k, p);
    assert PeerOpen(worlds[k].initiator, p, worlds[k].peers[p]);
  }
}
