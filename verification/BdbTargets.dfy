/**
 Finding & binding as a target: an endpoint is one exactly from the request that was taken
 until its identify time is over, which is reported then, whatever else goes on.
 */
module BdbTargets {
  import opened Types
  import opened Bdb
  import opened BdbProgress

  // ------------------------------------------------------------------
  // The other procedures leave the targets alone
  // ------------------------------------------------------------------

  predicate NoTargets(s: State, r: Result) {
    r.state.targets == s.targets && (r.outcome.Some? ==> !r.outcome.value.TargetEnd?)
  }

  lemma {:induction false} NextLeavesTargets(c: Config, n: Node, s: State, fb: Fb)
    ensures NoTargets(s, NextRespondent(c, n, s, fb))
    decreases |fb.respondents| - fb.index
  {
    if fb.index < |fb.respondents| {
      var call := SimpleDescReq(fb.respondents[fb.index].0, fb.respondents[fb.index].1);
      NextLeavesTargets(c, n, s.(log := Ask(n, s.log, call)), fb.(index := fb.index + 1));
    }
  }

  lemma BindingLeavesTargets(c: Config, n: Node, s: State, fb: Fb, clusters: Clusters, d: Destination)
    requires fb.index < |fb.respondents|
    ensures NoTargets(s, CreateBindings(c, n, s, fb, clusters, d))
  {
    hide NextRespondent, BindAll;
    var b := BindAll(n, s.log, fb.endpoint, clusters, d);
    var (address, endpoint) := fb.respondents[fb.index];
    var next := fb.(bindings := SaturatingAdd(fb.bindings, b.created), index := fb.index + 1);
    NextLeavesTargets(c, n, s.(log := b.log), next);
    if fb.group.Some? {
      NextLeavesTargets(c, n, s.(log := Ask(n, b.log, AddGroup(address, endpoint, fb.group.value))), next);
    }
  }

  lemma MatchingLeavesTargets(c: Config, n: Node, s: State, fb: Fb, inputs: Clusters, outputs: Clusters)
    requires fb.index < |fb.respondents|
    ensures NoTargets(s, BindMatches(c, n, s, fb, inputs, outputs))
  {
    hide NextRespondent, CreateBindings, MatchingIn;
    var (address, endpoint) := fb.respondents[fb.index];
    var matches := MatchingIn(n.localClusters(s.log, fb.endpoint), fb.filter, inputs, outputs);
    var waiting := fb.(pending := matches, phase := IeeeAddr, index := fb.index + 1);
    NextLeavesTargets(c, n, s, fb.(index := fb.index + 1));
    NextLeavesTargets(c, n, s.(log := Ask(n, s.log, IeeeAddrReq(address))), waiting);
    if fb.group.Some? {
      BindingLeavesTargets(c, n, s, fb, matches, GroupTo(fb.group.value));
    } else if n.ieeeOf(s.log, address).Some? {
      BindingLeavesTargets(c, n, s, fb, matches, UnicastTo(n.ieeeOf(s.log, address).value, endpoint));
    }
  }

  lemma FindingLeavesTargets(c: Config, n: Node, s: State, fb: Fb, e: Event)
    ensures NoTargets(s, OnFindingBinding(c, n, s, fb, e))
  {
    hide NextRespondent, CreateBindings, BindMatches;
    NextLeavesTargets(c, n, s, fb.(index := fb.index + 1));
    if fb.index < |fb.respondents| {
      if e.SimpleDescriptor? {
        MatchingLeavesTargets(c, n, s, fb, e.inputs, e.outputs);
      } else if e.IeeeAddress? && e.ieee.Some? {
        BindingLeavesTargets(c, n, s, fb, fb.pending, UnicastTo(e.ieee.value, fb.respondents[fb.index].1));
      }
    }
  }

  lemma {:induction false} StagesLeaveTargets(c: Config, n: Node, s: State, stage: Stage)
    ensures FormStage(c, n, s, stage).state.targets == s.targets && FormStage(c, n, s, stage).outcome.None?
    ensures SteerStage(c, n, s, stage).state.targets == s.targets && SteerStage(c, n, s, stage).outcome.None?
    decreases stage.Primary?
  {
    if stage.Primary? {
      StagesLeaveTargets(c, n, s, Secondary);
    }
  }

  lemma {:induction false} RejoinLeavesTargets(c: Config, n: Node, s: State, stage: RejoinStage)
    ensures RejoinFrom(c, n, s, stage).state.targets == s.targets && RejoinFrom(c, n, s, stage).outcome.None?
    decreases RejoinRank(stage)
  {
    if stage.TcCurrent? {
      RejoinLeavesTargets(c, n, s, PrimaryList);
    } else if stage.PrimaryList? {
      RejoinLeavesTargets(c, n, s, SecondaryList);
    }
  }

  lemma RetryLeavesTargets(c: Config, n: Node, s: State, stage: Stage, attempts: Octet)
    ensures NoTargets(s, Retry(c, n, s, stage, attempts))
  {
    hide SteerStage, FormStage;
    StagesLeaveTargets(c, n, s, Secondary);
  }

  lemma EventLeavesTargets(c: Config, n: Node, s: State, e: Event)
    ensures NoTargets(s, Dispatched(c, n, s, e))
  {
    hide OnFindingBinding, Retry, FormStage, SteerStage, RejoinFrom;
    match s.procedure
    case Idle =>
    case Formation(stage) => StagesLeaveTargets(c, n, s, Secondary);
    case Steering(stage, phase, attempts) =>
      RetryLeavesTargets(c, n, s, stage, attempts);
      RetryLeavesTargets(c, n, s.(deadline := None), stage, attempts);
    case Rejoin(stage) =>
      RejoinLeavesTargets(c, n, s, TcCurrent);
      RejoinLeavesTargets(c, n, s, PrimaryList);
      RejoinLeavesTargets(c, n, s, SecondaryList);
    case FindingBinding(fb) => FindingLeavesTargets(c, n, s, fb, e);
  }

  lemma PollLeavesTargets(c: Config, n: Node, s: State, now: Instant)
    ensures NoTargets(s, Poll(c, n, s, now))
  {
    hide Retry, NextRespondent;
    var s' := s.(log := s.log + [Ticked(now)], deadline := None);
    match s.procedure
    case Steering(stage, phase, attempts) =>
      RetryLeavesTargets(c, n, s'.(onNetwork := false), stage, attempts);
      RetryLeavesTargets(c, n, s'.(procedure := Steering(stage, Leaving, attempts), log := Ask(n, s'.log, Leave)), stage, attempts);
    case FindingBinding(fb) =>
      NextLeavesTargets(c, n, s', fb);
      NextLeavesTargets(c, n, s', fb.(index := fb.index + 1));
    case _ =>
  }

  // ------------------------------------------------------------------
  // Targets
  // ------------------------------------------------------------------

  /** A request to become a target is refused off the network and when the node refuses; otherwise the endpoint
      identifies itself for the commissioning time, of three minutes at least. */
  lemma TargetStarts(c: Config, n: Node, s: State, endpoint: Octet)
    ensures var (r, time) := (StartTarget(c, n, s, endpoint), if c.commissioningTime < 180 then 180 else c.commissioningTime);
            var refusal := n.refusal(s.log, Identify(endpoint, time));
            if !s.onNetwork then r == Refuse(s, NotOnNetwork)
            else
              && r.state.log == s.log + [Called(Identify(endpoint, time), refusal)]
              && r.refused == (if refusal.Some? then Some(NodeFailed(refusal.value)) else None) && r.outcome.None?
              && r.state.(log := s.log, targets := s.targets) == s
  {
  }

  const STOPPED := 0

  /** The identify time of an endpoint is over. */
  predicate Stops(i: Input, endpoint: Octet) {
    i == DoEvent(IdentifyTime(endpoint, STOPPED))
  }

  predicate Becomes(s: State, i: Input, r: Result, endpoint: Octet) {
    i == DoTarget(endpoint) && r.refused.None? && |s.targets| < MAX_TARGETS
  }

  /** Each target once. */
  predicate Once(targets: seq<Octet>) {
    |targets| <= MAX_TARGETS && forall i, j :: 0 <= i < j < |targets| ==> targets[i] != targets[j]
  }

  lemma TargetStep(c: Config, n: Node, s: State, i: Input, endpoint: Octet)
    requires Once(s.targets)
    ensures var r := Step(c, n, s, i);
            && Once(r.state.targets)
            && (endpoint in r.state.targets <==> Becomes(s, i, r, endpoint) || (endpoint in s.targets && !Stops(i, endpoint)))
            && (r.outcome == Some(TargetEnd(endpoint)) <==> endpoint in s.targets && Stops(i, endpoint))
  {
    hide Dispatched, Poll, RejoinFrom, FormStage, SteerStage;
    match i
    case DoEvent(e) =>
      EventLeavesTargets(c, n, s.(log := s.log + [Observed(e)]), e);
      if e.IdentifyTime? && e.seconds == 0 && e.endpoint in s.targets {
        TakenOut(s.targets, e.endpoint, endpoint);
      }
    case DoPoll(now) => PollLeavesTargets(c, n, s, now);
    case DoForm => StagesLeaveTargets(c, n, s, Primary);
    case DoSteer => StagesLeaveTargets(c, n, s, Primary);
    case DoRejoin(lost) =>
      RejoinLeavesTargets(c, n, s, TcCurrent);
      RejoinLeavesTargets(c, n, s, SecuredCurrent);
    case _ =>
  }

  lemma TakenOut(targets: seq<Octet>, out: Octet, endpoint: Octet)
    requires Once(targets) && out in targets
    ensures var rest := WithoutTarget(targets, IndexOfTarget(targets, out));
            Once(rest) && (endpoint in rest <==> endpoint in targets && endpoint != out)
  {
    hide IndexOfTarget;
    var i, m := IndexOfTarget(targets, out), |targets| - 1;
    var rest := WithoutTarget(targets, i);
    assert forall k :: 0 <= k < m ==> rest[k] == if k == i then targets[m] else targets[k];
    if endpoint in targets && endpoint != out {
      var k :| 0 <= k <= m && targets[k] == endpoint;
      assert rest[if k == m then i else k] == endpoint;
    }
  }

  /** The request at `i` made the endpoint a target and its identify time was not over since. */
  ghost predicate TargetSince(inputs: seq<Input>, results: seq<Result>, i: nat, k: nat, endpoint: Octet)
    requires i < k <= |inputs| && k < |results|
  {
    && Becomes(results[i].state, inputs[i], results[i + 1], endpoint)
    && forall j :: i < j < k ==> !Stops(inputs[j], endpoint)
  }

  /** In every run an endpoint is a target exactly from a request that was taken, while there was room, until its
      identify time is over; that is reported, once. */
  lemma {:induction false} TargetsExactly(
    c: Config, n: Node, inputs: seq<Input>, results: seq<Result>, k: nat, endpoint: Octet)
    requires IsRun(c, n, inputs, results) && k <= |inputs| && results[0].state.targets == []
    ensures Once(results[k].state.targets)
    ensures endpoint in results[k].state.targets <==> exists i :: 0 <= i < k && TargetSince(inputs, results, i, k, endpoint)
    ensures k < |inputs| ==>
              (results[k + 1].outcome == Some(TargetEnd(endpoint)) <==>
               endpoint in results[k].state.targets && Stops(inputs[k], endpoint))
  {
    hide Step, Becomes;
    if k > 0 {
      TargetsExactly(c, n, inputs, results, k - 1, endpoint);
      var s, i := results[k - 1].state, inputs[k - 1];
      assert results[k - 1 + 1] == Step(c, n, s, i);
      TargetStep(c, n, s, i, endpoint);
      if Becomes(s, i, results[k], endpoint) {
        assert TargetSince(inputs, results, k - 1, k, endpoint);
      } else if endpoint in results[k].state.targets {
        var m :| 0 <= m < k - 1 && TargetSince(inputs, results, m, k - 1, endpoint);
        assert TargetSince(inputs, results, m, k, endpoint);
      } else if m :| 0 <= m < k && TargetSince(inputs, results, m, k, endpoint) {
        OneLess(inputs, results, m, k, endpoint);
      }
    }
    if k < |inputs| {
      assert results[k + 1] == Step(c, n, results[k].state, inputs[k]);
      TargetStep(c, n, results[k].state, inputs[k], endpoint);
    }
  }

  lemma OneLess(inputs: seq<Input>, results: seq<Result>, m: nat, k: nat, endpoint: Octet)
    requires m < k <= |inputs| && k < |results| && TargetSince(inputs, results, m, k, endpoint)
    ensures if m == k - 1 then Becomes(results[m].state, inputs[m], results[k], endpoint)
            else TargetSince(inputs, results, m, k - 1, endpoint) && !Stops(inputs[k - 1], endpoint)
  {
  }
}
