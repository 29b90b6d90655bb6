/**
 The BDB commissioning machine: network formation, off-network steering, rejoin and
 finding & binding. The node it drives is an arbitrary environment that answers
 every call depending on everything that happened before.
 */
module Bdb {
  import opened Types

  const MAX_SAME_NETWORK_RETRY_ATTEMPTS: nat := 10
  const MIN_COMMISSIONING_TIME: Octet := 180
  const MAX_CLUSTERS: nat := 16
  const MAX_RESPONDENTS: nat := 8
  const MAX_TARGETS: nat := 4

  type Channels = set<nat>
  type Clusters = s: seq<U16> | |s| <= MAX_CLUSTERS

  datatype Config = Config(
    primary: Channels, secondary: Channels, securityTimeout: nat, retries: Octet,
    commissioningTime: Octet, identifyQueryTimeout: nat, zdoTimeout: nat)

  // ------------------------------------------------------------------
  // The node
  // ------------------------------------------------------------------

  datatype JoinKind = Association | SecuredRejoin | TrustCenterRejoin

  datatype NodeError = NodeBusy | Unsupported | TableFull

  datatype Destination = UnicastTo(address: Address64, endpoint: Octet) | GroupTo(group: U16)

  datatype Call =
    | FormNetwork(channels: Channels)
    | Join(kind: JoinKind, channels: Channels)
    | Leave
    | PermitJoin(seconds: Octet)
    | BroadcastPermitJoin(seconds: Octet)
    | FastPoll
    | Identify(endpoint: Octet, seconds: Octet)
    | IdentifyQuery(endpoint: Octet)
    | SimpleDescReq(address: U16, endpoint: Octet)
    | IeeeAddrReq(address: U16)
    | Bind(endpoint: Octet, cluster: U16, destination: Destination)
    | AddGroup(address: U16, endpoint: Octet, group: U16)

  datatype Event =
    | FormationConfirm(success: bool)
    | JoinConfirm(success: bool)
    | LinkKeyUpdated
    | Left
    | IdentifyQueryResponse(src: U16, srcEndpoint: Octet, endpoint: Octet)
    | SimpleDescriptor(src: U16, endpoint: Octet, success: bool, inputs: Clusters, outputs: Clusters)
    | IeeeAddress(short: U16, ieee: Option<Address64>)
    | IdentifyTime(endpoint: Octet, seconds: U16)

  /** One thing that happened between the machine and its node. */
  datatype Entry = Called(call: Call, refusal: Option<NodeError>) | Observed(event: Event) | Ticked(now: Instant)

  type Log = seq<Entry>

  datatype LocalCluster = LocalCluster(id: U16, client: bool)

  type LocalClusters = s: seq<LocalCluster> | |s| <= MAX_CLUSTERS

  datatype Node = Node(
    endDevice: bool,
    refusal: (Log, Call) -> Option<NodeError>,
    now: Log -> Instant,
    centralized: Log -> bool,
    verified: Log -> bool,
    channel: Log -> Channels,
    ieeeOf: (Log, U16) -> Option<Address64>,
    localClusters: (Log, Octet) -> LocalClusters)

  function Ask(n: Node, log: Log, call: Call): Log {
    log + [Called(call, n.refusal(log, call))]
  }

  // ------------------------------------------------------------------
  // Cluster classes
  // ------------------------------------------------------------------

  datatype ClusterClass = Utility | Type1 | Type2 | Application

  function Classify(id: U16): ClusterClass {
    if || id <= 0x0004 || id == 0x000B || id == 0x0015 || 0x0019 <= id <= 0x001A || id == 0x0020
       || 0x0022 <= id <= 0x0025 || id == 0x0B05 || id == 0x1000 then Utility
    else if id in {0x0005, 0x0006, 0x0008, 0x0016, 0x001C, 0x0102, 0x0103, 0x0202, 0x0203, 0x0204, 0x0300, 0x0301, 0x0501,
                   0x0600, 0x0615, 0x0617, 0x0700, 0x0701, 0x0702, 0x0703, 0x0705, 0x0707, 0x0709, 0x070B, 0x0904, 0x0905,
                   0x0B04} then Type1
    else if || id in {0x0007, 0x0009, 0x001B, 0x0100, 0x0101, 0x0200, 0x0201, 0x040A, 0x040B, 0x0500, 0x0502, 0x0900}
            || 0x000C <= id <= 0x0014 || 0x0400 <= id <= 0x0407 || 0x0602 <= id <= 0x0613 || 0x0B00 <= id <= 0x0B03
    then Type2
    else Application
  }

  /** An endpoint initiates type 1 clusters as client and type 2 clusters as server. */
  predicate InitiatorFor(c: LocalCluster) {
    match Classify(c.id)
    case Utility => false
    case Type1 => c.client
    case Type2 => !c.client
    case Application => true
  }

  predicate Selected(filter: seq<U16>, c: LocalCluster) {
    if filter == [] then InitiatorFor(c) else c.id in filter
  }

  predicate OnBothSides(c: LocalCluster, inputs: seq<U16>, outputs: seq<U16>) {
    c.id in if c.client then inputs else outputs
  }

  function MatchingIn(local: seq<LocalCluster>, filter: seq<U16>, inputs: seq<U16>, outputs: seq<U16>): (r: seq<U16>)
    ensures |r| <= |local|
    ensures forall x :: x in r ==> exists c :: c in local && c.id == x && OnBothSides(c, inputs, outputs) && Selected(filter, c)
  {
    if local == [] then []
    else
      var c := local[|local| - 1];
      MatchingIn(local[..|local| - 1], filter, inputs, outputs)
      + if OnBothSides(c, inputs, outputs) && Selected(filter, c) then [c.id] else []
  }

  // ------------------------------------------------------------------
  // Procedures
  // ------------------------------------------------------------------

  datatype Failure =
    | AlreadyOnNetwork | NotOnNetwork | NotPermittedToForm | ScanChannelsExhausted | NoNetwork
    | RejoinUnsuccessful | NoIdentifyQueryResponse | BindingTableFull | NodeFailed(error: NodeError) | Busy

  datatype Outcome =
    | FormationEnd(failure: Option<Failure>)
    | SteeringEnd(failure: Option<Failure>)
    | RejoinEnd(failure: Option<Failure>)
    | TargetEnd(endpoint: Octet)
    | InitiatorEnd(endpoint: Octet, bindings: Octet, failure: Option<Failure>)

  datatype Stage = Primary | Secondary

  datatype RejoinStage = SecuredCurrent | TcCurrent | PrimaryList | SecondaryList

  datatype SteeringPhase = Joining | AwaitingLinkKey | Leaving

  datatype FbPhase = Querying | SimpleDesc | IeeeAddr

  datatype Fb = Fb(
    endpoint: Octet, group: Option<U16>, filter: Clusters, respondents: seq<(U16, Octet)>, index: nat,
    phase: FbPhase, bindings: Octet, pending: Clusters)

  datatype Procedure =
    | Idle
    | Formation(formStage: Stage)
    | Steering(stage: Stage, steeringPhase: SteeringPhase, attempts: Octet)
    | Rejoin(rejoinStage: RejoinStage)
    | FindingBinding(fb: Fb)

  datatype State = State(onNetwork: bool, procedure: Procedure, deadline: Option<Instant>, targets: seq<Octet>, log: Log)

  /** What a call leaves behind: the state, a finished procedure, or why nothing was started. */
  datatype Result = Result(state: State, outcome: Option<Outcome>, refused: Option<Failure>)

  function Running(s: State): Result {
    Result(s, None, None)
  }

  function Refuse(s: State, f: Failure): Result {
    Result(s, None, Some(f))
  }

  function Finish(s: State, o: Outcome): Result {
    Result(s, Some(o), None)
  }

  function ListOf(c: Config, stage: Stage): Channels {
    if stage.Primary? then c.primary else c.secondary
  }

  function Limit(c: Config): nat {
    if c.retries == 0 then 1
    else if c.retries > MAX_SAME_NETWORK_RETRY_ATTEMPTS then MAX_SAME_NETWORK_RETRY_ATTEMPTS
    else c.retries
  }

  function CommissioningTime(c: Config): Octet {
    if c.commissioningTime < MIN_COMMISSIONING_TIME then MIN_COMMISSIONING_TIME else c.commissioningTime
  }

  /** Makes a call that starts the radio; a node that refuses ends the procedure. */
  function Launch(n: Node, s: State, p: Procedure, call: Call): Result {
    var s' := s.(log := Ask(n, s.log, call));
    match n.refusal(s.log, call)
    case None => Running(s'.(procedure := p))
    case Some(e) => Refuse(s'.(procedure := Idle), NodeFailed(e))
  }

  // Formation

  function FormStage(c: Config, n: Node, s: State, stage: Stage): Result
    decreases stage.Primary?
  {
    if ListOf(c, stage) != {} then Launch(n, s, Formation(stage), FormNetwork(ListOf(c, stage)))
    else if stage.Primary? then FormStage(c, n, s, Secondary)
    else Refuse(s.(procedure := Idle), ScanChannelsExhausted)
  }

  function Form(c: Config, n: Node, s: State): Result {
    if !s.procedure.Idle? then Refuse(s, Busy)
    else if s.onNetwork then Refuse(s, AlreadyOnNetwork)
    else if n.endDevice then Refuse(s, NotPermittedToForm)
    else FormStage(c, n, s, Primary)
  }

  // Steering

  function SteerStage(c: Config, n: Node, s: State, stage: Stage): Result
    decreases stage.Primary?
  {
    if ListOf(c, stage) != {} then Launch(n, s, Steering(stage, Joining, 0), Join(Association, ListOf(c, stage)))
    else if stage.Primary? then SteerStage(c, n, s, Secondary)
    else Refuse(s.(procedure := Idle), NoNetwork)
  }

  function Steer(c: Config, n: Node, s: State): Result {
    if !s.procedure.Idle? then Refuse(s, Busy)
    else if s.onNetwork then Refuse(s, AlreadyOnNetwork)
    else SteerStage(c, n, s, Primary)
  }

  function Opened(c: Config, n: Node, log: Log): Log {
    var l := Ask(n, log, BroadcastPermitJoin(CommissioningTime(c)));
    Ask(n, if n.endDevice then l else Ask(n, l, PermitJoin(CommissioningTime(c))), FastPoll)
  }

  function FinishSteering(c: Config, n: Node, s: State): Result {
    Finish(s.(onNetwork := true, procedure := Idle, deadline := None, log := Opened(c, n, s.log)), SteeringEnd(None))
  }

  /** A stage started while the procedure runs: its refusal is the outcome. */
  function Ended(r: Result, wrap: Option<Failure> -> Outcome): Result {
    if r.refused.Some? then Finish(r.state, wrap(r.refused)) else r
  }

  function Incremented(x: Octet): Octet {
    if x == 255 then x else x + 1
  }

  /** Retries on the same list, or moves on to the next one. */
  function Retry(c: Config, n: Node, s: State, stage: Stage, attempts: Octet): Result {
    var again := Incremented(attempts);
    if again < Limit(c) then
      Ended(Launch(n, s, Steering(stage, Joining, again), Join(Association, ListOf(c, stage))), f => SteeringEnd(f))
    else if stage.Primary? then Ended(SteerStage(c, n, s, Secondary), f => SteeringEnd(f))
    else Finish(s.(procedure := Idle), SteeringEnd(Some(NoNetwork)))
  }

  function OnSteering(c: Config, n: Node, s: State, stage: Stage, phase: SteeringPhase, attempts: Octet, e: Event): Result {
    if phase.Joining? && e == JoinConfirm(true) then
      if n.centralized(s.log) && !n.verified(s.log) then
        Running(s.(procedure := Steering(stage, AwaitingLinkKey, attempts), deadline := Some(After(n.now(s.log), c.securityTimeout))))
      else FinishSteering(c, n, s)
    else if phase.Joining? && e == JoinConfirm(false) then Retry(c, n, s, stage, attempts)
    else if phase.AwaitingLinkKey? && e.LinkKeyUpdated? then FinishSteering(c, n, s)
    else if phase.Leaving? && e.Left? then Retry(c, n, s.(deadline := None), stage, attempts)
    else Running(s)
  }

  // Rejoin

  function RejoinRank(stage: RejoinStage): nat {
    match stage
    case SecuredCurrent => 3
    case TcCurrent => 2
    case PrimaryList => 1
    case SecondaryList => 0
  }

  function RejoinFrom(c: Config, n: Node, s: State, stage: RejoinStage): Result
    decreases RejoinRank(stage)
  {
    if stage.TcCurrent? && !(n.centralized(s.log) && n.verified(s.log)) then RejoinFrom(c, n, s, PrimaryList)
    else
      var channels := match stage
        case SecuredCurrent => n.channel(s.log)
        case TcCurrent => n.channel(s.log)
        case PrimaryList => c.primary
        case SecondaryList => c.secondary;
      if channels != {} then
        Launch(n, s, Rejoin(stage), Join(if stage.TcCurrent? then TrustCenterRejoin else SecuredRejoin, channels))
      else if stage.PrimaryList? then RejoinFrom(c, n, s, SecondaryList)
      else Refuse(s.(procedure := Idle), RejoinUnsuccessful)
  }

  function StartRejoin(c: Config, n: Node, s: State, lostTrustCenter: bool): Result {
    if !s.procedure.Idle? then Refuse(s, Busy)
    else RejoinFrom(c, n, s, if n.centralized(s.log) && n.verified(s.log) && lostTrustCenter then TcCurrent else SecuredCurrent)
  }

  function OnRejoin(c: Config, n: Node, s: State, stage: RejoinStage, e: Event): Result {
    if e == JoinConfirm(true) then Finish(s.(onNetwork := true, procedure := Idle), RejoinEnd(None))
    else if e == JoinConfirm(false) then
      match stage
      case SecuredCurrent => Ended(RejoinFrom(c, n, s, TcCurrent), f => RejoinEnd(f))
      case TcCurrent => Ended(RejoinFrom(c, n, s, PrimaryList), f => RejoinEnd(f))
      case PrimaryList => Ended(RejoinFrom(c, n, s, SecondaryList), f => RejoinEnd(f))
      case SecondaryList => Finish(s.(procedure := Idle), RejoinEnd(Some(RejoinUnsuccessful)))
    else Running(s)
  }

  function OnFormation(c: Config, n: Node, s: State, stage: Stage, e: Event): Result {
    if e == FormationConfirm(true) then Finish(s.(onNetwork := true, procedure := Idle), FormationEnd(None))
    else if e == FormationConfirm(false) then
      if stage.Primary? then Ended(FormStage(c, n, s, Secondary), f => FormationEnd(f))
      else Finish(s.(procedure := Idle), FormationEnd(Some(ScanChannelsExhausted)))
    else Running(s)
  }

  // Finding & binding

  function StartTarget(c: Config, n: Node, s: State, endpoint: Octet): Result {
    if !s.onNetwork then Refuse(s, NotOnNetwork)
    else
      var call := Identify(endpoint, CommissioningTime(c));
      var s' := s.(log := Ask(n, s.log, call));
      match n.refusal(s.log, call)
      case Some(e) => Refuse(s', NodeFailed(e))
      case None =>
        if endpoint in s.targets || |s.targets| >= MAX_TARGETS then Running(s')
        else Running(s'.(targets := s.targets + [endpoint]))
  }

  function Kept(clusters: seq<U16>): Clusters {
    if |clusters| <= MAX_CLUSTERS then clusters else clusters[..MAX_CLUSTERS]
  }

  function StartInitiator(c: Config, n: Node, s: State, endpoint: Octet, group: Option<U16>, clusters: seq<U16>): Result {
    if !s.procedure.Idle? then Refuse(s, Busy)
    else if !s.onNetwork then Refuse(s, NotOnNetwork)
    else
      var call := IdentifyQuery(endpoint);
      var log := Ask(n, s.log, call);
      match n.refusal(s.log, call)
      case Some(e) => Refuse(s.(log := log), NodeFailed(e))
      case None =>
        Running(s.(log := log, deadline := Some(After(n.now(log), c.identifyQueryTimeout)),
                   procedure := FindingBinding(Fb(endpoint, group, Kept(clusters), [], 0, Querying, 0, []))))
  }

  function EndInitiator(s: State, fb: Fb, bindings: Octet, failure: Option<Failure>): Result {
    Finish(s.(procedure := Idle, deadline := None), InitiatorEnd(fb.endpoint, bindings, failure))
  }

  /** Asks respondents from `fb.index` on for their descriptor until one request is taken. */
  function NextRespondent(c: Config, n: Node, s: State, fb: Fb): Result
    decreases |fb.respondents| - fb.index
  {
    if fb.index >= |fb.respondents| then EndInitiator(s, fb, fb.bindings, None)
    else
      var call := SimpleDescReq(fb.respondents[fb.index].0, fb.respondents[fb.index].1);
      var log := Ask(n, s.log, call);
      if n.refusal(s.log, call).None? then
        Running(s.(log := log, procedure := FindingBinding(fb.(phase := SimpleDesc)), deadline := Some(After(n.now(log), c.zdoTimeout))))
      else NextRespondent(c, n, s.(log := log), fb.(index := fb.index + 1))
  }

  function Advance(c: Config, n: Node, s: State, fb: Fb): Result {
    NextRespondent(c, n, s, fb.(index := fb.index + 1))
  }

  /** Binds clusters until the table is full. */
  datatype Bound = Bound(log: Log, created: nat, full: bool)

  function BindAll(n: Node, log: Log, endpoint: Octet, clusters: seq<U16>, d: Destination): (b: Bound)
    ensures b.created <= |clusters|
  {
    if clusters == [] then Bound(log, 0, false)
    else
      var b := BindAll(n, log, endpoint, clusters[..|clusters| - 1], d);
      if b.full then b
      else
        var call := Bind(endpoint, clusters[|clusters| - 1], d);
        var r := n.refusal(b.log, call);
        Bound(Ask(n, b.log, call), b.created + (if r.None? then 1 else 0), r == Some(TableFull))
  }

  function SaturatingAdd(x: Octet, y: nat): Octet {
    if x + y > 255 then 255 else x + y
  }

  function CreateBindings(c: Config, n: Node, s: State, fb: Fb, clusters: Clusters, d: Destination): Result
    requires fb.index < |fb.respondents|
  {
    var b := BindAll(n, s.log, fb.endpoint, clusters, d);
    var bindings := SaturatingAdd(fb.bindings, b.created);
    if b.full then EndInitiator(s.(log := b.log), fb, bindings, Some(BindingTableFull))
    else
      var (address, endpoint) := fb.respondents[fb.index];
      var log := if b.created > 0 && fb.group.Some? then Ask(n, b.log, AddGroup(address, endpoint, fb.group.value)) else b.log;
      Advance(c, n, s.(log := log), fb.(bindings := bindings))
  }

  function BindMatches(c: Config, n: Node, s: State, fb: Fb, inputs: Clusters, outputs: Clusters): Result
    requires fb.index < |fb.respondents|
  {
    var (address, endpoint) := fb.respondents[fb.index];
    var matches := MatchingIn(n.localClusters(s.log, fb.endpoint), fb.filter, inputs, outputs);
    if matches == [] then Advance(c, n, s, fb)
    else if fb.group.Some? then CreateBindings(c, n, s, fb, matches, GroupTo(fb.group.value))
    else
      var known := n.ieeeOf(s.log, address);
      if known.Some? then CreateBindings(c, n, s, fb, matches, UnicastTo(known.value, endpoint))
      else
        var call := IeeeAddrReq(address);
        var log := Ask(n, s.log, call);
        var waiting := fb.(pending := matches, phase := IeeeAddr);
        if n.refusal(s.log, call).None? then
          Running(s.(log := log, procedure := FindingBinding(waiting), deadline := Some(After(n.now(log), c.zdoTimeout))))
        else Advance(c, n, s.(log := log), waiting)
  }

  function OnFindingBinding(c: Config, n: Node, s: State, fb: Fb, e: Event): Result {
    if fb.phase.Querying? && e.IdentifyQueryResponse? && e.endpoint == fb.endpoint then
      if (e.src, e.srcEndpoint) in fb.respondents || |fb.respondents| >= MAX_RESPONDENTS then Running(s)
      else Running(s.(procedure := FindingBinding(fb.(respondents := fb.respondents + [(e.src, e.srcEndpoint)]))))
    else if fb.index >= |fb.respondents| then Running(s)
    else if fb.phase.SimpleDesc? && e.SimpleDescriptor? && fb.respondents[fb.index] == (e.src, e.endpoint) then
      if e.success then BindMatches(c, n, s, fb, e.inputs, e.outputs) else Advance(c, n, s, fb)
    else if fb.phase.IeeeAddr? && e.IeeeAddress? && fb.respondents[fb.index].0 == e.short then
      if e.ieee.Some? then CreateBindings(c, n, s, fb, fb.pending, UnicastTo(e.ieee.value, fb.respondents[fb.index].1))
      else Advance(c, n, s, fb)
    else Running(s)
  }

  // ------------------------------------------------------------------
  // Events and time
  // ------------------------------------------------------------------

  function IndexOfTarget(targets: seq<Octet>, endpoint: Octet): (i: nat)
    ensures i <= |targets|
    ensures i < |targets| ==> targets[i] == endpoint
    ensures endpoint in targets ==> i < |targets|
  {
    if targets == [] then 0
    else if targets[0] == endpoint then 0
    else 1 + IndexOfTarget(targets[1..], endpoint)
  }

  /** Takes one target out by moving the last into its place. */
  function WithoutTarget(targets: seq<Octet>, i: nat): seq<Octet>
    requires i < |targets|
  {
    targets[i := targets[|targets| - 1]][..|targets| - 1]
  }

  function Dispatched(c: Config, n: Node, s: State, e: Event): Result {
    match s.procedure
    case Idle => Running(s)
    case Formation(stage) => OnFormation(c, n, s, stage, e)
    case Steering(stage, phase, attempts) => OnSteering(c, n, s, stage, phase, attempts, e)
    case Rejoin(stage) => OnRejoin(c, n, s, stage, e)
    case FindingBinding(fb) => OnFindingBinding(c, n, s, fb, e)
  }

  function OnEvent(c: Config, n: Node, before: State, e: Event): Result {
    var s := before.(log := before.log + [Observed(e)]);
    if e.IdentifyTime? && e.seconds == 0 && e.endpoint in s.targets then
      Finish(s.(targets := WithoutTarget(s.targets, IndexOfTarget(s.targets, e.endpoint))), TargetEnd(e.endpoint))
    else Dispatched(c, n, s, e)
  }

  /** The deadline has passed. */
  function Expired(c: Config, n: Node, s: State, now: Instant): Result {
    match s.procedure
    case Steering(stage, AwaitingLinkKey, attempts) =>
      var s' := s.(procedure := Steering(stage, Leaving, attempts), log := Ask(n, s.log, Leave));
      if n.refusal(s.log, Leave).None? then Running(s'.(deadline := Some(After(now, c.zdoTimeout))))
      else Retry(c, n, s', stage, attempts)
    case Steering(stage, Leaving, attempts) => Retry(c, n, s.(onNetwork := false), stage, attempts)
    case FindingBinding(fb) =>
      if !fb.phase.Querying? then Advance(c, n, s, fb)
      else if fb.respondents == [] then EndInitiator(s, fb, 0, Some(NoIdentifyQueryResponse))
      else NextRespondent(c, n, s, fb)
    case _ => Running(s)
  }

  function Poll(c: Config, n: Node, before: State, now: Instant): Result {
    var s := before.(log := before.log + [Ticked(now)]);
    if s.deadline.None? || now < s.deadline.value then Running(s)
    else Expired(c, n, s.(deadline := None), now)
  }

  datatype Input =
    | DoForm | DoSteer | DoRejoin(lostTrustCenter: bool) | DoTarget(endpoint: Octet)
    | DoInitiator(initiator: Octet, group: Option<U16>, clusters: seq<U16>)
    | DoEvent(event: Event) | DoPoll(now: Instant) | SetOnNetwork(on: bool)

  function Step(c: Config, n: Node, s: State, i: Input): Result {
    match i
    case DoForm => Form(c, n, s)
    case DoSteer => Steer(c, n, s)
    case DoRejoin(lost) => StartRejoin(c, n, s, lost)
    case DoTarget(endpoint) => StartTarget(c, n, s, endpoint)
    case DoInitiator(endpoint, group, clusters) => StartInitiator(c, n, s, endpoint, group, clusters)
    case DoEvent(e) => OnEvent(c, n, s, e)
    case DoPoll(now) => Poll(c, n, s, now)
    case SetOnNetwork(on) => Running(s.(onNetwork := on))
  }
}
