/**
 What every run of the commissioning machine keeps: when the timer is armed, that a
 procedure ends with its own outcome and in boundedly many steps, and how often
 steering tries to join.
 */
module BdbProgress {
  import opened Types
  import opened Bdb

  // ------------------------------------------------------------------
  // Invariant
  // ------------------------------------------------------------------

  /** The phases that wait for a timeout. */
  predicate Timed(p: Procedure) {
    (p.Steering? && !p.steeringPhase.Joining?) || p.FindingBinding?
  }

  predicate SoundFb(fb: Fb) {
    && |fb.respondents| <= MAX_RESPONDENTS
    && (forall i, j :: 0 <= i < j < |fb.respondents| ==> fb.respondents[i] != fb.respondents[j])
    && (if fb.phase.Querying? then fb.index == 0 && fb.bindings == 0 else fb.index < |fb.respondents|)
    && fb.bindings <= MAX_CLUSTERS * fb.index
  }

  predicate Inv(c: Config, s: State) {
    && (s.deadline.Some? <==> Timed(s.procedure))
    && (s.procedure.Steering? ==> s.procedure.attempts < Limit(c))
    && (s.procedure.FindingBinding? ==> SoundFb(s.procedure.fb))
  }

  /** How much of a procedure is left, at most. */
  function Rank(c: Config, p: Procedure): nat
    requires p.Steering? ==> p.attempts < Limit(c)
    requires p.FindingBinding? ==> SoundFb(p.fb)
  {
    match p
    case Idle => 0
    case Formation(stage) => if stage.Primary? then 2 else 1
    case Steering(stage, phase, attempts) =>
      3 * ((if stage.Primary? then Limit(c) else 0) + Limit(c) - 1 - attempts)
      + (match phase case Joining => 3 case AwaitingLinkKey => 2 case Leaving => 1)
    case Rejoin(stage) => RejoinRank(stage) + 1
    case FindingBinding(fb) =>
      if fb.phase.Querying? then 2 * MAX_RESPONDENTS + 1 + (MAX_RESPONDENTS - |fb.respondents|)
      else 2 * (|fb.respondents| - fb.index) - if fb.phase.IeeeAddr? then 1 else 0
  }

  predicate SameKind(p: Procedure, q: Procedure) {
    || (p.Formation? && q.Formation?) || (p.Steering? && q.Steering?) || (p.Rejoin? && q.Rejoin?)
    || (p.FindingBinding? && q.FindingBinding? && p.fb.endpoint == q.fb.endpoint)
  }

  /** The outcome that ends this procedure. */
  predicate Own(p: Procedure, o: Outcome) {
    match p
    case Idle => false
    case Formation(_) => o.FormationEnd?
    case Steering(_, _, _) => o.SteeringEnd?
    case Rejoin(_) => o.RejoinEnd?
    case FindingBinding(fb) => o.InitiatorEnd? && o.endpoint == fb.endpoint
  }

  /** A running procedure `p` either ends with its outcome or goes on, as it was or with less left. */
  ghost predicate Continues(c: Config, p: Procedure, r: Result)
    requires p.Steering? ==> p.attempts < Limit(c)
    requires p.FindingBinding? ==> SoundFb(p.fb)
  {
    && Inv(c, r.state)
    && r.refused.None?
    && (if r.state.procedure.Idle? then r.outcome.Some? && Own(p, r.outcome.value)
        else r.outcome.None? && SameKind(p, r.state.procedure)
             && (r.state.procedure == p || Rank(c, r.state.procedure) < Rank(c, p)))
  }

  // ------------------------------------------------------------------
  // Each procedure keeps it
  // ------------------------------------------------------------------

  lemma RetryContinues(c: Config, n: Node, s: State, stage: Stage, phase: SteeringPhase, attempts: Octet)
    requires s.deadline.None? && attempts < Limit(c)
    ensures Continues(c, Steering(stage, phase, attempts), Retry(c, n, s, stage, attempts))
    ensures Retry(c, n, s, stage, attempts).state.procedure != Steering(stage, phase, attempts)
  {
    var r := SteerStage(c, n, s, Secondary);
    assert r.refused.None? ==> r.state.procedure == Steering(Secondary, Joining, 0);
  }

  lemma SteeringContinues(c: Config, n: Node, s: State, e: Event)
    requires s.procedure.Steering? && Inv(c, s)
    ensures Continues(c, s.procedure, OnSteering(c, n, s, s.procedure.stage, s.procedure.steeringPhase, s.procedure.attempts, e))
  {
    var p := s.procedure;
    RetryContinues(c, n, s.(deadline := None), p.stage, p.steeringPhase, p.attempts);
  }

  lemma {:induction false} RejoinFromEnds(c: Config, n: Node, s: State, stage: RejoinStage)
    requires s.deadline.None?
    ensures var r := RejoinFrom(c, n, s, stage);
            && r.outcome.None? && r.state.deadline.None?
            && (if r.refused.Some? then r.state.procedure.Idle?
                else r.state.procedure.Rejoin? && RejoinRank(r.state.procedure.rejoinStage) <= RejoinRank(stage))
    decreases RejoinRank(stage)
  {
    if stage.TcCurrent? {
      RejoinFromEnds(c, n, s, PrimaryList);
    } else if stage.PrimaryList? {
      RejoinFromEnds(c, n, s, SecondaryList);
    }
  }

  lemma RejoinContinues(c: Config, n: Node, s: State, e: Event)
    requires s.procedure.Rejoin? && Inv(c, s)
    ensures Continues(c, s.procedure, OnRejoin(c, n, s, s.procedure.rejoinStage, e))
  {
    match s.procedure.rejoinStage
    case SecuredCurrent => RejoinFromEnds(c, n, s, TcCurrent);
    case TcCurrent => RejoinFromEnds(c, n, s, PrimaryList);
    case PrimaryList => RejoinFromEnds(c, n, s, SecondaryList);
    case SecondaryList =>
  }

  /** Walking on from `fb.index` ends, or stops at a respondent that took the request. */
  lemma {:induction false} NextRespondentStops(c: Config, n: Node, s: State, fb: Fb)
    requires |fb.respondents| <= MAX_RESPONDENTS && fb.index <= |fb.respondents| && fb.bindings <= MAX_CLUSTERS * fb.index
    requires forall i, j :: 0 <= i < j < |fb.respondents| ==> fb.respondents[i] != fb.respondents[j]
    ensures var r := NextRespondent(c, n, s, fb);
            && Inv(c, r.state) && r.refused.None?
            && (if r.state.procedure.Idle? then r.outcome == Some(InitiatorEnd(fb.endpoint, fb.bindings, None))
                else r.outcome.None? && r.state.procedure.FindingBinding?
                     && var fb' := r.state.procedure.fb;
                     fb' == fb.(index := fb'.index, phase := SimpleDesc) && fb.index <= fb'.index)
    decreases |fb.respondents| - fb.index
  {
    if fb.index < |fb.respondents| {
      var call := SimpleDescReq(fb.respondents[fb.index].0, fb.respondents[fb.index].1);
      NextRespondentStops(c, n, s.(log := Ask(n, s.log, call)), fb.(index := fb.index + 1));
    }
  }

  /** Going on to later respondents leaves less to do. */
  lemma AdvanceContinues(c: Config, n: Node, s: State, fb: Fb, fb': Fb)
    requires SoundFb(fb) && !fb.phase.Querying?
    requires fb'.endpoint == fb.endpoint && fb'.respondents == fb.respondents && fb'.index == fb.index
    requires fb'.bindings <= MAX_CLUSTERS * (fb.index + 1)
    ensures Continues(c, FindingBinding(fb), Advance(c, n, s, fb'))
    ensures Advance(c, n, s, fb').state.procedure != FindingBinding(fb)
  {
    NextRespondentStops(c, n, s, fb'.(index := fb.index + 1));
  }

  lemma CreateBindingsContinues(c: Config, n: Node, s: State, fb: Fb, clusters: Clusters, d: Destination)
    requires SoundFb(fb) && !fb.phase.Querying?
    ensures var r := CreateBindings(c, n, s, fb, clusters, d);
            Continues(c, FindingBinding(fb), r)
  {
    var b := BindAll(n, s.log, fb.endpoint, clusters, d);
    var bindings := SaturatingAdd(fb.bindings, b.created);
    var (address, endpoint) := fb.respondents[fb.index];
    var log := if b.created > 0 && fb.group.Some? then Ask(n, b.log, AddGroup(address, endpoint, fb.group.value)) else b.log;
    AdvanceContinues(c, n, s.(log := log), fb, fb.(bindings := bindings));
  }

  lemma BindMatchesContinues(c: Config, n: Node, s: State, fb: Fb, inputs: Clusters, outputs: Clusters)
    requires SoundFb(fb) && fb.phase.SimpleDesc?
    ensures var r := BindMatches(c, n, s, fb, inputs, outputs);
            Continues(c, FindingBinding(fb), r)
  {
    var (address, endpoint) := fb.respondents[fb.index];
    var matches := MatchingIn(n.localClusters(s.log, fb.endpoint), fb.filter, inputs, outputs);
    if matches == [] {
      AdvanceContinues(c, n, s, fb, fb);
    } else if fb.group.Some? {
      CreateBindingsContinues(c, n, s, fb, matches, GroupTo(fb.group.value));
    } else if n.ieeeOf(s.log, address).Some? {
      CreateBindingsContinues(c, n, s, fb, matches, UnicastTo(n.ieeeOf(s.log, address).value, endpoint));
    } else {
      var log := Ask(n, s.log, IeeeAddrReq(address));
      AdvanceContinues(c, n, s.(log := log), fb, fb.(pending := matches, phase := IeeeAddr));
    }
  }

  lemma FindingBindingContinues(c: Config, n: Node, s: State, e: Event)
    requires s.procedure.FindingBinding? && Inv(c, s)
    ensures var r := OnFindingBinding(c, n, s, s.procedure.fb, e);
            Continues(c, s.procedure, r)
  {
    var fb := s.procedure.fb;
    if !fb.phase.Querying? {
      AdvanceContinues(c, n, s, fb, fb);
      if fb.phase.SimpleDesc? && e.SimpleDescriptor? {
        BindMatchesContinues(c, n, s, fb, e.inputs, e.outputs);
      } else if fb.phase.IeeeAddr? && e.IeeeAddress? && e.ieee.Some? {
        CreateBindingsContinues(c, n, s, fb, fb.pending, UnicastTo(e.ieee.value, fb.respondents[fb.index].1));
      }
    }
  }

  lemma FormationContinues(c: Config, n: Node, s: State, e: Event)
    requires s.procedure.Formation? && Inv(c, s)
    ensures Continues(c, s.procedure, OnFormation(c, n, s, s.procedure.formStage, e))
  {
  }

  /** A timeout never leaves a procedure where it was. */
  lemma ExpiredContinues(c: Config, n: Node, s: State, now: Instant)
    requires Timed(s.procedure) && Inv(c, s.(deadline := Some(now)))
    requires s.deadline.None?
    ensures Continues(c, s.procedure, Expired(c, n, s, now))
    ensures Expired(c, n, s, now).state.procedure != s.procedure
  {
    match s.procedure
    case Steering(stage, phase, attempts) =>
      RetryContinues(c, n, s.(procedure := Steering(stage, Leaving, attempts), log := Ask(n, s.log, Leave)), stage, phase, attempts);
      RetryContinues(c, n, s.(onNetwork := false), stage, phase, attempts);
    case FindingBinding(fb) =>
      if !fb.phase.Querying? {
        AdvanceContinues(c, n, s, fb, fb);
      } else if fb.respondents != [] {
        NextRespondentStops(c, n, s, fb);
      }
  }

  predicate Drives(i: Input) {
    i.DoEvent? || i.DoPoll?
  }

  /** While a procedure runs, an event or a poll either ends it with its own outcome, or lets it
      go on unchanged or with strictly less left; another endpoint's identify may finish besides. */
  lemma BusyStep(c: Config, n: Node, s: State, i: Input)
    requires Inv(c, s) && !s.procedure.Idle? && Drives(i)
    ensures var r := Step(c, n, s, i);
            || Continues(c, s.procedure, r)
            || (r.state.procedure == s.procedure && Inv(c, r.state) && r.refused.None?
                && r.outcome.Some? && r.outcome.value.TargetEnd?)
  {
    match i
    case DoEvent(e) =>
      var s' := s.(log := s.log + [Observed(e)]);
      match s.procedure {
        case Idle =>
        case Formation(_) => FormationContinues(c, n, s', e);
        case Steering(_, _, _) => SteeringContinues(c, n, s', e);
        case Rejoin(_) => RejoinContinues(c, n, s', e);
        case FindingBinding(_) => FindingBindingContinues(c, n, s', e);
      }
    case DoPoll(now) =>
      var s' := s.(log := s.log + [Ticked(now)]);
      if s.deadline.Some? && now >= s.deadline.value {
        ExpiredContinues(c, n, s'.(deadline := None), now);
      }
    case _ =>
  }

  /** A start succeeds exactly when its procedure then runs; otherwise the machine stays as it was. */
  lemma StartStep(c: Config, n: Node, s: State, i: Input)
    requires Inv(c, s) && !Drives(i)
    ensures var r := Step(c, n, s, i);
            && Inv(c, r.state) && r.outcome.None?
            && (if i.DoTarget? || i.SetOnNetwork? || r.refused.Some? then r.state.procedure == s.procedure
                else s.procedure.Idle? && !r.state.procedure.Idle?)
  {
    if i.DoRejoin? && s.procedure.Idle? {
      RejoinFromEnds(c, n, s, TcCurrent);
      RejoinFromEnds(c, n, s, SecuredCurrent);
    }
  }

  /** An event or a poll ends a running procedure exactly with its own outcome, and starts none. */
  lemma DrivenStep(c: Config, n: Node, s: State, i: Input)
    requires Inv(c, s) && Drives(i)
    ensures var r := Step(c, n, s, i);
            && Inv(c, r.state)
            && (!s.procedure.Idle? ==>
                  (r.state.procedure.Idle? <==> r.outcome.Some? && Own(s.procedure, r.outcome.value)))
            && (s.procedure.Idle? ==> r.state.procedure.Idle? && (r.outcome.Some? ==> r.outcome.value.TargetEnd?))
  {
    if !s.procedure.Idle? {
      BusyStep(c, n, s, i);
    }
  }

  // ------------------------------------------------------------------
  // Runs
  // ------------------------------------------------------------------

  ghost predicate IsRun(c: Config, n: Node, inputs: seq<Input>, results: seq<Result>) {
    && |results| == |inputs| + 1
    && forall i :: 0 <= i < |inputs| ==> results[i + 1] == Step(c, n, results[i].state, inputs[i])
  }

  /** In every reachable state the timer is armed exactly in the phases that wait for it. */
  lemma {:induction false} RunInv(c: Config, n: Node, inputs: seq<Input>, results: seq<Result>, k: nat)
    requires IsRun(c, n, inputs, results) && k <= |inputs|
    requires Inv(c, results[0].state)
    ensures Inv(c, results[k].state)
    ensures results[k].state.deadline.Some? <==> Timed(results[k].state.procedure)
  {
    if k > 0 {
      RunInv(c, n, inputs, results, k - 1);
      assert results[k - 1 + 1] == Step(c, n, results[k - 1].state, inputs[k - 1]);
      if Drives(inputs[k - 1]) {
        DrivenStep(c, n, results[k - 1].state, inputs[k - 1]);
      } else {
        StartStep(c, n, results[k - 1].state, inputs[k - 1]);
      }
    }
  }

  /** A running procedure becomes idle exactly in the call that returns its own outcome, and an
      idle machine returns none but the end of a target's identify. */
  lemma IdleExactlyOnOutcome(c: Config, n: Node, inputs: seq<Input>, results: seq<Result>, k: nat)
    requires IsRun(c, n, inputs, results) && k < |inputs| && Inv(c, results[0].state)
    ensures var (p, r) := (results[k].state.procedure, results[k + 1]);
            && (!p.Idle? ==> (r.state.procedure.Idle? <==> r.outcome.Some? && Own(p, r.outcome.value)))
            && (p.Idle? && Drives(inputs[k]) ==>
                  r.state.procedure.Idle? && (r.outcome.Some? ==> r.outcome.value.TargetEnd?))
            && (!p.Idle? && !r.state.procedure.Idle? ==> SameKind(p, r.state.procedure))
  {
    RunInv(c, n, inputs, results, k);
    assert results[k + 1] == Step(c, n, results[k].state, inputs[k]);
    var s := results[k].state;
    if !Drives(inputs[k]) {
      StartStep(c, n, s, inputs[k]);
    } else if !s.procedure.Idle? {
      BusyStep(c, n, s, inputs[k]);
    }
  }

  /** The steps of `a..b` in which the procedure changed. */
  function Changes(results: seq<Result>, a: nat, b: nat): nat
    requires a <= b < |results|
    decreases b
  {
    if a == b then 0
    else Changes(results, a, b - 1) + if results[b].state.procedure == results[b - 1].state.procedure then 0 else 1
  }

  ghost predicate Throughout(results: seq<Result>, a: nat, b: nat)
    requires a <= b < |results|
  {
    forall i :: a <= i < b ==> !results[i].state.procedure.Idle?
  }

  /** A procedure changes at most as often as it had steps left, whatever the node does. */
  lemma {:induction false} ProcedureEnds(c: Config, n: Node, inputs: seq<Input>, results: seq<Result>, a: nat, b: nat)
    requires IsRun(c, n, inputs, results) && a <= b <= |inputs| && Inv(c, results[0].state)
    requires Throughout(results, a, b)
    ensures Inv(c, results[a].state) && Inv(c, results[b].state)
    ensures Changes(results, a, b) + Rank(c, results[b].state.procedure) <= Rank(c, results[a].state.procedure)
  {
    RunInv(c, n, inputs, results, a);
    RunInv(c, n, inputs, results, b);
    if a < b {
      ProcedureEnds(c, n, inputs, results, a, b - 1);
      var s, i := results[b - 1].state, inputs[b - 1];
      assert results[b - 1 + 1] == Step(c, n, s, i);
      if Drives(i) {
        BusyStep(c, n, s, i);
      } else {
        StartStep(c, n, s, i);
      }
    }
  }

  /** A poll at or after an armed deadline always gets the procedure on. */
  lemma TimeoutGetsOn(c: Config, n: Node, s: State, now: Instant)
    requires Inv(c, s) && s.deadline.Some? && s.deadline.value <= now
    ensures Poll(c, n, s, now).state.procedure != s.procedure
  {
    ExpiredContinues(c, n, s.(log := s.log + [Ticked(now)], deadline := None), now);
  }

  // ------------------------------------------------------------------
  // Steering
  // ------------------------------------------------------------------

  function Joins(log: Log): nat {
    if log == [] then 0
    else Joins(log[..|log| - 1]) + if log[|log| - 1].Called? && log[|log| - 1].call.Join? then 1 else 0
  }

  lemma JoinsAppend(log: Log, e: Entry)
    ensures Joins(log + [e]) == Joins(log) + if e.Called? && e.call.Join? then 1 else 0
  {
    assert (log + [e])[..|log|] == log;
  }

  /** How many joins steering may still make. */
  function JoinsLeft(c: Config, p: Procedure): nat
    requires p.Steering? ==> p.attempts < Limit(c)
  {
    if p.Steering? then (if p.stage.Primary? then Limit(c) else 0) + Limit(c) - 1 - p.attempts else 0
  }

  /** Steering off the network: never more joins than were left, and on the network only by success. */
  ghost predicate SteersOn(c: Config, s: State, r: Result)
    requires s.procedure.Steering? && Inv(c, s)
  {
    && Inv(c, r.state)
    && Joins(r.state.log) + JoinsLeft(c, r.state.procedure) <= Joins(s.log) + JoinsLeft(c, s.procedure)
    && (r.state.onNetwork <==> r.outcome == Some(SteeringEnd(None)))
  }

  lemma RetryJoins(c: Config, n: Node, s: State, stage: Stage, attempts: Octet)
    requires attempts < Limit(c) && !s.onNetwork && s.deadline.None?
    ensures var r := Retry(c, n, s, stage, attempts);
            && Inv(c, r.state) && !r.state.onNetwork && r.outcome != Some(SteeringEnd(None))
            && Joins(r.state.log) + JoinsLeft(c, r.state.procedure)
               <= Joins(s.log) + JoinsLeft(c, Steering(stage, Joining, attempts))
  {
    hide Joins, ListOf;
    RetryContinues(c, n, s, stage, Leaving, attempts);
    var call := Join(Association, ListOf(c, stage));
    var next := Join(Association, ListOf(c, Secondary));
    JoinsAppend(s.log, Called(call, n.refusal(s.log, call)));
    JoinsAppend(s.log, Called(next, n.refusal(s.log, next)));
  }

  lemma OpenedJoins(c: Config, n: Node, log: Log)
    ensures Joins(Opened(c, n, log)) == Joins(log)
  {
    var l := Ask(n, log, BroadcastPermitJoin(CommissioningTime(c)));
    JoinsAppend(log, l[|log|]);
    var m := if n.endDevice then l else Ask(n, l, PermitJoin(CommissioningTime(c)));
    JoinsAppend(l, Called(PermitJoin(CommissioningTime(c)), n.refusal(l, PermitJoin(CommissioningTime(c)))));
    JoinsAppend(m, Called(FastPoll, n.refusal(m, FastPoll)));
  }

  lemma SteeringEventJoins(c: Config, n: Node, s: State, e: Event)
    requires s.procedure.Steering? && Inv(c, s) && !s.onNetwork
    ensures SteersOn(c, s, OnEvent(c, n, s, e))
  {
    hide Joins, Retry, Opened, Rank, SoundFb;
    var p, s' := s.procedure, s.(log := s.log + [Observed(e)]);
    JoinsAppend(s.log, Observed(e));
    OpenedJoins(c, n, s'.log);
    RetryJoins(c, n, s'.(deadline := None), p.stage, p.attempts);
  }

  lemma SteeringPollJoins(c: Config, n: Node, s: State, now: Instant)
    requires s.procedure.Steering? && Inv(c, s) && !s.onNetwork
    ensures SteersOn(c, s, Poll(c, n, s, now))
  {
    hide Joins, Retry, Rank, SoundFb;
    var p, s' := s.procedure, s.(log := s.log + [Ticked(now)]);
    JoinsAppend(s.log, Ticked(now));
    if s.deadline.Some? && now >= s.deadline.value {
      var s1 := s'.(deadline := None);
      if p.steeringPhase.AwaitingLinkKey? {
        JoinsAppend(s1.log, Called(Leave, n.refusal(s1.log, Leave)));
        RetryJoins(c, n, s1.(procedure := Steering(p.stage, Leaving, p.attempts), log := Ask(n, s1.log, Leave)), p.stage, p.attempts);
      } else {
        RetryJoins(c, n, s1, p.stage, p.attempts);
      }
    }
  }

  lemma SteerJoins(c: Config, n: Node, s: State)
    requires Inv(c, s) && s.procedure.Idle? && Steer(c, n, s).refused.None?
    ensures var r := Steer(c, n, s);
            && r.state.procedure.Steering? && !r.state.onNetwork && Inv(c, r.state)
            && Joins(r.state.log) + JoinsLeft(c, r.state.procedure) <= Joins(s.log) + 2 * Limit(c)
  {
    var first := Join(Association, ListOf(c, Primary));
    var next := Join(Association, ListOf(c, Secondary));
    JoinsAppend(s.log, Called(first, n.refusal(s.log, first)));
    JoinsAppend(s.log, Called(next, n.refusal(s.log, next)));
  }

  ghost predicate Untouched(inputs: seq<Input>, a: nat, b: nat)
    requires a <= b <= |inputs|
  {
    forall i :: a <= i < b ==> !inputs[i].SetOnNetwork?
  }

  /** One steering run, from its start to its end or to now: at most two lists of clamped retries
      are joined, and the node counts as on a network only once the run has succeeded. */
  lemma {:induction false} SteeringRun(c: Config, n: Node, inputs: seq<Input>, results: seq<Result>, a: nat, b: nat)
    requires IsRun(c, n, inputs, results) && a < b <= |inputs| && Inv(c, results[0].state)
    requires inputs[a].DoSteer? && results[a].state.procedure.Idle? && results[a + 1].refused.None?
    requires Throughout(results, a + 1, b) && Untouched(inputs, a, b)
    ensures Inv(c, results[b].state)
    ensures var (s, t) := (results[a].state, results[b].state);
            Joins(t.log) + JoinsLeft(c, t.procedure) <= Joins(s.log) + 2 * Limit(c)
    ensures var r := results[b];
            if r.state.procedure.Idle? then r.state.onNetwork <==> r.outcome == Some(SteeringEnd(None))
            else r.state.procedure.Steering? && !r.state.onNetwork
    decreases b
  {
    RunInv(c, n, inputs, results, b);
    assert results[b - 1 + 1] == Step(c, n, results[b - 1].state, inputs[b - 1]);
    if b == a + 1 {
      RunInv(c, n, inputs, results, a);
      SteerJoins(c, n, results[a].state);
    } else {
      SteeringRun(c, n, inputs, results, a, b - 1);
      var s, i := results[b - 1].state, inputs[b - 1];
      RunInv(c, n, inputs, results, b - 1);
      match i
      case DoEvent(e) =>
        SteeringEventJoins(c, n, s, e);
        BusyStep(c, n, s, i);
      case DoPoll(now) =>
        SteeringPollJoins(c, n, s, now);
        BusyStep(c, n, s, i);
      case _ =>
        StartStep(c, n, s, i);
    }
  }
}
