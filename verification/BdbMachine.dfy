/**
 The commissioning machine as the object it is: it updates its procedure, deadline
 and targets in place while calling the node, with the effect the value model says.
 */
module BdbMachine {
  import opened Types
  import opened Bdb
  import opened BdbProgress

  /** The node: it answers as its environment decides and remembers what happened. */
  class NodeRuntime {
    const node: Node
    var log: Log

    constructor (node: Node)
      ensures this.node == node && log == []
    {
      this.node, log := node, [];
    }

    method Record(e: Entry)
      modifies this
      ensures log == old(log) + [e]
    {
      log := log + [e];
    }

    method Perform(call: Call) returns (refusal: Option<NodeError>)
      modifies this
      ensures log == Ask(node, old(log), call)
      ensures refusal == node.refusal(old(log), call)
    {
      refusal := node.refusal(log, call);
      log := log + [Called(call, refusal)];
    }
  }

  lemma MatchingStep(local: seq<LocalCluster>, filter: seq<U16>, inputs: seq<U16>, outputs: seq<U16>, i: nat)
    requires i < |local|
    ensures MatchingIn(local[..i + 1], filter, inputs, outputs)
            == MatchingIn(local[..i], filter, inputs, outputs)
               + if OnBothSides(local[i], inputs, outputs) && Selected(filter, local[i]) then [local[i].id] else []
  {
    assert local[..i + 1][..i] == local[..i];
  }

  lemma BindAllStep(n: Node, log: Log, endpoint: Octet, clusters: seq<U16>, d: Destination, i: nat)
    requires i < |clusters|
    ensures var b := BindAll(n, log, endpoint, clusters[..i], d);
            var call := Bind(endpoint, clusters[i], d);
            BindAll(n, log, endpoint, clusters[..i + 1], d)
            == if b.full then b
               else Bound(Ask(n, b.log, call), b.created + (if n.refusal(b.log, call).None? then 1 else 0), n.refusal(b.log, call) == Some(TableFull))
  {
    assert clusters[..i + 1][..i] == clusters[..i];
  }

  /** A full table stops the loop: later clusters are not tried. */
  lemma {:induction false} BindAllStops(n: Node, log: Log, endpoint: Octet, clusters: seq<U16>, d: Destination, i: nat)
    requires i <= |clusters| && BindAll(n, log, endpoint, clusters[..i], d).full
    ensures BindAll(n, log, endpoint, clusters, d) == BindAll(n, log, endpoint, clusters[..i], d)
    decreases |clusters| - i
  {
    if i < |clusters| {
      BindAllStep(n, log, endpoint, clusters, d, i);
      BindAllStops(n, log, endpoint, clusters, d, i + 1);
    } else {
      assert clusters[..i] == clusters;
    }
  }

  class Machine {
    const config: Config
    const runtime: NodeRuntime
    var onNetwork: bool
    var procedure: Procedure
    var deadline: Option<Instant>
    var targets: seq<Octet>

    ghost function View(): State
      reads this, runtime
    {
      State(onNetwork, procedure, deadline, targets, runtime.log)
    }

    constructor (config: Config, runtime: NodeRuntime, onNetwork: bool)
      ensures View() == State(onNetwork, Idle, None, [], runtime.log)
      ensures this.config == config && this.runtime == runtime
    {
      this.config, this.runtime, this.onNetwork := config, runtime, onNetwork;
      procedure, deadline, targets := Idle, None, [];
    }

    /** Starts a stage; a node that refuses leaves the machine idle. */
    method Begin(p: Procedure, call: Call) returns (refused: Option<Failure>)
      modifies this, runtime
      ensures Result(View(), None, refused) == Launch(runtime.node, old(View()), p, call)
    {
      procedure := p;
      var r := runtime.Perform(call);
      if r.Some? {
        procedure := Idle;
        return Some(NodeFailed(r.value));
      }
      return None;
    }

    // ----------------------------------------------------------------
    // Formation, steering, rejoin
    // ----------------------------------------------------------------

    method StartFormationStage(stage: Stage) returns (refused: Option<Failure>)
      modifies this, runtime
      ensures Result(View(), None, refused) == FormStage(config, runtime.node, old(View()), stage)
      decreases stage.Primary?
    {
      var channels := ListOf(config, stage);
      if channels == {} {
        if stage.Primary? {
          refused := StartFormationStage(Secondary);
          return;
        }
        procedure := Idle;
        return Some(ScanChannelsExhausted);
      }
      refused := Begin(Formation(stage), FormNetwork(channels));
    }

    method StartForming() returns (refused: Option<Failure>)
      modifies this, runtime
      ensures Result(View(), None, refused) == Form(config, runtime.node, old(View()))
      ensures Inv(config, old(View())) ==> Inv(config, View())
      ensures Inv(config, old(View())) ==>
                if refused.Some? then procedure == old(procedure) else old(procedure).Idle? && !procedure.Idle?
    {
      hide Inv;
      if Inv(config, View()) {
        StartStep(config, runtime.node, View(), DoForm);
      }
      if !procedure.Idle? {
        return Some(Busy);
      }
      if onNetwork {
        return Some(AlreadyOnNetwork);
      }
      if runtime.node.endDevice {
        return Some(NotPermittedToForm);
      }
      refused := StartFormationStage(Primary);
    }

    method StartSteeringStage(stage: Stage) returns (refused: Option<Failure>)
      modifies this, runtime
      ensures Result(View(), None, refused) == SteerStage(config, runtime.node, old(View()), stage)
      decreases stage.Primary?
    {
      var channels := ListOf(config, stage);
      if channels == {} {
        if stage.Primary? {
          refused := StartSteeringStage(Secondary);
          return;
        }
        procedure := Idle;
        return Some(NoNetwork);
      }
      refused := Begin(Steering(stage, Joining, 0), Join(Association, channels));
    }

    method StartSteering() returns (refused: Option<Failure>)
      modifies this, runtime
      ensures Result(View(), None, refused) == Steer(config, runtime.node, old(View()))
      ensures Inv(config, old(View())) ==> Inv(config, View())
      ensures Inv(config, old(View())) ==>
                if refused.Some? then procedure == old(procedure) else old(procedure).Idle? && !procedure.Idle?
    {
      hide Inv;
      if Inv(config, View()) {
        StartStep(config, runtime.node, View(), DoSteer);
      }
      if !procedure.Idle? {
        return Some(Busy);
      }
      if onNetwork {
        return Some(AlreadyOnNetwork);
      }
      refused := StartSteeringStage(Primary);
    }

    method SteeringSucceeds() returns (outcome: Option<Outcome>)
      modifies this, runtime
      ensures Result(View(), outcome, None) == FinishSteering(config, runtime.node, old(View()))
    {
      onNetwork, procedure, deadline := true, Idle, None;
      var secs := CommissioningTime(config);
      var _ := runtime.Perform(BroadcastPermitJoin(secs));
      if !runtime.node.endDevice {
        var _ := runtime.Perform(PermitJoin(secs));
      }
      var _ := runtime.Perform(FastPoll);
      return Some(SteeringEnd(None));
    }

    method RetrySteering(stage: Stage, attempts: Octet) returns (outcome: Option<Outcome>)
      modifies this, runtime
      ensures Result(View(), outcome, None) == Retry(config, runtime.node, old(View()), stage, attempts)
    {
      var again := Incremented(attempts);
      var refused;
      if again < Limit(config) {
        refused := Begin(Steering(stage, Joining, again), Join(Association, ListOf(config, stage)));
      } else if stage.Primary? {
        refused := StartSteeringStage(Secondary);
      } else {
        procedure := Idle;
        return Some(SteeringEnd(Some(NoNetwork)));
      }
      return if refused.Some? then Some(SteeringEnd(refused)) else None;
    }

    method SteeringEvent(stage: Stage, phase: SteeringPhase, attempts: Octet, e: Event) returns (outcome: Option<Outcome>)
      modifies this, runtime
      ensures Result(View(), outcome, None) == OnSteering(config, runtime.node, old(View()), stage, phase, attempts, e)
    {
      outcome := None;
      if phase.Joining? && e == JoinConfirm(true) {
        if runtime.node.centralized(runtime.log) && !runtime.node.verified(runtime.log) {
          procedure := Steering(stage, AwaitingLinkKey, attempts);
          deadline := Some(After(runtime.node.now(runtime.log), config.securityTimeout));
        } else {
          outcome := SteeringSucceeds();
        }
      } else if phase.Joining? && e == JoinConfirm(false) {
        outcome := RetrySteering(stage, attempts);
      } else if phase.AwaitingLinkKey? && e.LinkKeyUpdated? {
        outcome := SteeringSucceeds();
      } else if phase.Leaving? && e.Left? {
        deadline := None;
        outcome := RetrySteering(stage, attempts);
      }
    }

    method StartRejoinStage(stage: RejoinStage) returns (refused: Option<Failure>)
      modifies this, runtime
      ensures Result(View(), None, refused) == RejoinFrom(config, runtime.node, old(View()), stage)
      decreases RejoinRank(stage)
    {
      var channels;
      var kind := SecuredRejoin;
      match stage {
        case SecuredCurrent =>
          channels := runtime.node.channel(runtime.log);
        case TcCurrent =>
          if !(runtime.node.centralized(runtime.log) && runtime.node.verified(runtime.log)) {
            refused := StartRejoinStage(PrimaryList);
            return;
          }
          kind := TrustCenterRejoin;
          channels := runtime.node.channel(runtime.log);
        case PrimaryList =>
          channels := config.primary;
        case SecondaryList =>
          channels := config.secondary;
      }
      if channels == {} {
        if stage.PrimaryList? {
          refused := StartRejoinStage(SecondaryList);
          return;
        }
        procedure := Idle;
        return Some(RejoinUnsuccessful);
      }
      refused := Begin(Rejoin(stage), Join(kind, channels));
    }

    method StartRejoining(lostTrustCenter: bool) returns (refused: Option<Failure>)
      modifies this, runtime
      ensures Result(View(), None, refused) == StartRejoin(config, runtime.node, old(View()), lostTrustCenter)
      ensures Inv(config, old(View())) ==> Inv(config, View())
      ensures Inv(config, old(View())) ==>
                if refused.Some? then procedure == old(procedure) else old(procedure).Idle? && !procedure.Idle?
    {
      hide Inv;
      if Inv(config, View()) {
        StartStep(config, runtime.node, View(), DoRejoin(lostTrustCenter));
      }
      if !procedure.Idle? {
        return Some(Busy);
      }
      var verified := runtime.node.centralized(runtime.log) && runtime.node.verified(runtime.log);
      refused := StartRejoinStage(if verified && lostTrustCenter then TcCurrent else SecuredCurrent);
    }

    method RejoinEvent(stage: RejoinStage, e: Event) returns (outcome: Option<Outcome>)
      modifies this, runtime
      ensures Result(View(), outcome, None) == OnRejoin(config, runtime.node, old(View()), stage, e)
    {
      if e == JoinConfirm(true) {
        onNetwork, procedure := true, Idle;
        return Some(RejoinEnd(None));
      }
      if e != JoinConfirm(false) {
        return None;
      }
      var next;
      match stage {
        case SecuredCurrent => next := TcCurrent;
        case TcCurrent => next := PrimaryList;
        case PrimaryList => next := SecondaryList;
        case SecondaryList =>
          procedure := Idle;
          return Some(RejoinEnd(Some(RejoinUnsuccessful)));
      }
      var refused := StartRejoinStage(next);
      return if refused.Some? then Some(RejoinEnd(refused)) else None;
    }

    method FormationEvent(stage: Stage, e: Event) returns (outcome: Option<Outcome>)
      modifies this, runtime
      ensures Result(View(), outcome, None) == OnFormation(config, runtime.node, old(View()), stage, e)
    {
      outcome := None;
      if e == FormationConfirm(true) {
        onNetwork, procedure := true, Idle;
        outcome := Some(FormationEnd(None));
      } else if e == FormationConfirm(false) {
        if stage.Primary? {
          var refused := StartFormationStage(Secondary);
          outcome := if refused.Some? then Some(FormationEnd(refused)) else None;
        } else {
          procedure := Idle;
          outcome := Some(FormationEnd(Some(ScanChannelsExhausted)));
        }
      }
    }

    // ----------------------------------------------------------------
    // Finding & binding
    // ----------------------------------------------------------------

    method FindAndBindTarget(endpoint: Octet) returns (refused: Option<Failure>)
      modifies this, runtime
      ensures Result(View(), None, refused) == StartTarget(config, runtime.node, old(View()), endpoint)
    {
      if !onNetwork {
        return Some(NotOnNetwork);
      }
      var r := runtime.Perform(Identify(endpoint, CommissioningTime(config)));
      if r.Some? {
        return Some(NodeFailed(r.value));
      }
      if endpoint !in targets && |targets| < MAX_TARGETS {
        targets := targets + [endpoint];
      }
      return None;
    }

    method FindAndBindInitiator(endpoint: Octet, group: Option<U16>, clusters: seq<U16>) returns (refused: Option<Failure>)
      modifies this, runtime
      ensures Result(View(), None, refused) == StartInitiator(config, runtime.node, old(View()), endpoint, group, clusters)
      ensures Inv(config, old(View())) ==> Inv(config, View())
      ensures Inv(config, old(View())) ==>
                if refused.Some? then procedure == old(procedure) else old(procedure).Idle? && !procedure.Idle?
    {
      hide Inv;
      if Inv(config, View()) {
        StartStep(config, runtime.node, View(), DoInitiator(endpoint, group, clusters));
      }
      if !procedure.Idle? {
        return Some(Busy);
      }
      if !onNetwork {
        return Some(NotOnNetwork);
      }
      var r := runtime.Perform(IdentifyQuery(endpoint));
      if r.Some? {
        return Some(NodeFailed(r.value));
      }
      var filter: Clusters := [];
      for i := 0 to |clusters|
        invariant filter == Kept(clusters[..i])
      {
        if |filter| < MAX_CLUSTERS {
          filter := filter + [clusters[i]];
        }
      }
      assert clusters[..|clusters|] == clusters;
      procedure := FindingBinding(Fb(endpoint, group, filter, [], 0, Querying, 0, []));
      deadline := Some(After(runtime.node.now(runtime.log), config.identifyQueryTimeout));
      return None;
    }

    method EndFindingBinding(fb: Fb, bindings: Octet, failure: Option<Failure>) returns (outcome: Option<Outcome>)
      modifies this
      ensures Result(View(), outcome, None) == EndInitiator(old(View()), fb, bindings, failure)
    {
      procedure, deadline := Idle, None;
      return Some(InitiatorEnd(fb.endpoint, bindings, failure));
    }

    /** Tries the respondents from `start.index` on until one request is taken. */
    method AskNext(start: Fb) returns (outcome: Option<Outcome>)
      modifies this, runtime
      ensures Result(View(), outcome, None) == NextRespondent(config, runtime.node, old(View()), start)
    {
      var fb := start;
      while fb.index < |fb.respondents|
        invariant View() == old(View()).(log := runtime.log)
        invariant NextRespondent(config, runtime.node, old(View()), start) == NextRespondent(config, runtime.node, View(), fb)
        decreases |fb.respondents| - fb.index
      {
        var (address, endpoint) := fb.respondents[fb.index];
        var r := runtime.Perform(SimpleDescReq(address, endpoint));
        if r.None? {
          procedure := FindingBinding(fb.(phase := SimpleDesc));
          deadline := Some(After(runtime.node.now(runtime.log), config.zdoTimeout));
          return None;
        }
        fb := fb.(index := fb.index + 1);
      }
      outcome := EndFindingBinding(fb, fb.bindings, None);
    }

    /** Binds each cluster; stops when the table is full. */
    method BindClusters(endpoint: Octet, clusters: seq<U16>, d: Destination) returns (created: nat, full: bool)
      modifies runtime
      ensures Bound(runtime.log, created, full) == BindAll(runtime.node, old(runtime.log), endpoint, clusters, d)
    {
      created, full := 0, false;
      for i := 0 to |clusters|
        invariant Bound(runtime.log, created, false) == BindAll(runtime.node, old(runtime.log), endpoint, clusters[..i], d)
      {
        BindAllStep(runtime.node, old(runtime.log), endpoint, clusters, d, i);
        var r := runtime.Perform(Bind(endpoint, clusters[i], d));
        if r.None? {
          created := created + 1;
        } else if r.value.TableFull? {
          full := true;
          BindAllStops(runtime.node, old(runtime.log), endpoint, clusters, d, i + 1);
          return;
        }
      }
      assert clusters[..|clusters|] == clusters;
    }

    method Create(fb: Fb, clusters: Clusters, d: Destination) returns (outcome: Option<Outcome>)
      requires fb.index < |fb.respondents|
      modifies this, runtime
      ensures Result(View(), outcome, None) == CreateBindings(config, runtime.node, old(View()), fb, clusters, d)
    {
      var created, full := BindClusters(fb.endpoint, clusters, d);
      var bindings := SaturatingAdd(fb.bindings, created);
      if full {
        outcome := EndFindingBinding(fb, bindings, Some(BindingTableFull));
        return;
      }
      var (address, endpoint) := fb.respondents[fb.index];
      if created > 0 && fb.group.Some? {
        var _ := runtime.Perform(AddGroup(address, endpoint, fb.group.value));
      }
      outcome := AskNext(fb.(bindings := bindings, index := fb.index + 1));
    }

    method PickMatches(fb: Fb, inputs: Clusters, outputs: Clusters) returns (matches: Clusters)
      ensures matches == MatchingIn(runtime.node.localClusters(runtime.log, fb.endpoint), fb.filter, inputs, outputs)
    {
      var local := runtime.node.localClusters(runtime.log, fb.endpoint);
      var r: seq<U16> := [];
      for i := 0 to |local|
        invariant r == MatchingIn(local[..i], fb.filter, inputs, outputs)
      {
        MatchingStep(local, fb.filter, inputs, outputs, i);
        if OnBothSides(local[i], inputs, outputs) && Selected(fb.filter, local[i]) {
          r := r + [local[i].id];
        }
      }
      assert local[..|local|] == local;
      matches := r;
    }

    method MatchAndBind(fb: Fb, inputs: Clusters, outputs: Clusters) returns (outcome: Option<Outcome>)
      requires fb.index < |fb.respondents|
      modifies this, runtime
      ensures Result(View(), outcome, None) == BindMatches(config, runtime.node, old(View()), fb, inputs, outputs)
    {
      var (address, endpoint) := fb.respondents[fb.index];
      var matches := PickMatches(fb, inputs, outputs);
      if matches == [] {
        outcome := AskNext(fb.(index := fb.index + 1));
        return;
      }
      if fb.group.Some? {
        outcome := Create(fb, matches, GroupTo(fb.group.value));
        return;
      }
      var known := runtime.node.ieeeOf(runtime.log, address);
      if known.Some? {
        outcome := Create(fb, matches, UnicastTo(known.value, endpoint));
        return;
      }
      var waiting := fb.(pending := matches, phase := IeeeAddr);
      var r := runtime.Perform(IeeeAddrReq(address));
      if r.None? {
        procedure := FindingBinding(waiting);
        deadline := Some(After(runtime.node.now(runtime.log), config.zdoTimeout));
        return None;
      }
      outcome := AskNext(waiting.(index := fb.index + 1));
    }

    method FindingBindingEvent(fb: Fb, e: Event) returns (outcome: Option<Outcome>)
      requires procedure == FindingBinding(fb)
      modifies this, runtime
      ensures Result(View(), outcome, None) == OnFindingBinding(config, runtime.node, old(View()), fb, e)
    {
      outcome := None;
      if fb.phase.Querying? && e.IdentifyQueryResponse? && e.endpoint == fb.endpoint {
        if (e.src, e.srcEndpoint) !in fb.respondents && |fb.respondents| < MAX_RESPONDENTS {
          procedure := FindingBinding(fb.(respondents := fb.respondents + [(e.src, e.srcEndpoint)]));
        }
      } else if fb.index < |fb.respondents| {
        var (address, endpoint) := fb.respondents[fb.index];
        if fb.phase.SimpleDesc? && e.SimpleDescriptor? && (address, endpoint) == (e.src, e.endpoint) {
          if e.success {
            outcome := MatchAndBind(fb, e.inputs, e.outputs);
          } else {
            outcome := AskNext(fb.(index := fb.index + 1));
          }
        } else if fb.phase.IeeeAddr? && e.IeeeAddress? && address == e.short {
          if e.ieee.Some? {
            outcome := Create(fb, fb.pending, UnicastTo(e.ieee.value, endpoint));
          } else {
            outcome := AskNext(fb.(index := fb.index + 1));
          }
        }
      }
    }

    // ----------------------------------------------------------------
    // Events and time
    // ----------------------------------------------------------------

    /** Takes an endpoint out of the targets; false when it is not among them. */
    method RemoveTarget(endpoint: Octet) returns (found: bool)
      modifies `targets
      ensures found == (endpoint in old(targets))
      ensures targets == if found then WithoutTarget(old(targets), IndexOfTarget(old(targets), endpoint)) else old(targets)
    {
      var i := 0;
      while i < |targets| && targets[i] != endpoint
        invariant i <= |targets| && endpoint !in targets[..i]
        invariant IndexOfTarget(targets, endpoint) == i + IndexOfTarget(targets[i..], endpoint)
      {
        i := i + 1;
      }
      found := i < |targets|;
      if found {
        targets := targets[i := targets[|targets| - 1]][..|targets| - 1];
      } else {
        assert targets == targets[..i];
      }
    }

    method Dispatch(e: Event) returns (outcome: Option<Outcome>)
      modifies this, runtime
      ensures Result(View(), outcome, None) == Dispatched(config, runtime.node, old(View()), e)
    {
      hide OnFormation, OnSteering, OnRejoin, OnFindingBinding;
      match procedure {
        case Idle => outcome := None;
        case Formation(stage) => outcome := FormationEvent(stage, e);
        case Steering(stage, phase, attempts) => outcome := SteeringEvent(stage, phase, attempts, e);
        case Rejoin(stage) => outcome := RejoinEvent(stage, e);
        case FindingBinding(fb) => outcome := FindingBindingEvent(fb, e);
      }
    }

    method HandleEvent(e: Event) returns (outcome: Option<Outcome>)
      modifies this, runtime
      ensures Result(View(), outcome, None) == OnEvent(config, runtime.node, old(View()), e)
      ensures Inv(config, old(View())) ==> Inv(config, View())
      ensures Inv(config, old(View())) && !old(procedure).Idle? ==>
                (procedure.Idle? <==> outcome.Some? && Own(old(procedure), outcome.value))
      ensures Inv(config, old(View())) && old(procedure).Idle? ==> procedure.Idle?
    {
      hide Dispatched, IndexOfTarget, WithoutTarget, Inv, Own;
      if Inv(config, View()) {
        DrivenStep(config, runtime.node, View(), DoEvent(e));
      }
      runtime.Record(Observed(e));
      if e.IdentifyTime? && e.seconds == 0 {
        var found := RemoveTarget(e.endpoint);
        if found {
          return Some(TargetEnd(e.endpoint));
        }
      }
      outcome := Dispatch(e);
    }

    method SteeringTimeout(stage: Stage, phase: SteeringPhase, attempts: Octet, now: Instant) returns (outcome: Option<Outcome>)
      requires procedure == Steering(stage, phase, attempts)
      modifies this, runtime
      ensures Result(View(), outcome, None) == Expired(config, runtime.node, old(View()), now)
    {
      outcome := None;
      if phase.AwaitingLinkKey? {
        procedure := Steering(stage, Leaving, attempts);
        var r := runtime.Perform(Leave);
        if r.None? {
          deadline := Some(After(now, config.zdoTimeout));
        } else {
          outcome := RetrySteering(stage, attempts);
        }
      } else if phase.Leaving? {
        onNetwork := false;
        outcome := RetrySteering(stage, attempts);
      }
    }

    method HandlePoll(now: Instant) returns (outcome: Option<Outcome>)
      modifies this, runtime
      ensures Result(View(), outcome, None) == Poll(config, runtime.node, old(View()), now)
      ensures Inv(config, old(View())) ==> Inv(config, View())
      ensures Inv(config, old(View())) && !old(procedure).Idle? ==>
                (procedure.Idle? <==> outcome.Some? && Own(old(procedure), outcome.value))
      ensures Inv(config, old(View())) && old(procedure).Idle? ==> procedure.Idle?
    {
      hide Retry, NextRespondent, EndInitiator, Inv, Own;
      if Inv(config, View()) {
        DrivenStep(config, runtime.node, View(), DoPoll(now));
      }
      runtime.Record(Ticked(now));
      if deadline.None? || now < deadline.value {
        return None;
      }
      deadline := None;
      outcome := None;
      match procedure {
        case Steering(stage, phase, attempts) =>
          outcome := SteeringTimeout(stage, phase, attempts, now);
        case FindingBinding(fb) =>
          if !fb.phase.Querying? {
            outcome := AskNext(fb.(index := fb.index + 1));
          } else if fb.respondents == [] {
            outcome := EndFindingBinding(fb, 0, Some(NoIdentifyQueryResponse));
          } else {
            outcome := AskNext(fb);
          }
        case _ =>
      }
    }
  }
}
