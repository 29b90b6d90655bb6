/**
 How formation, steering and rejoin try to get on a network: over whole runs, which calls
 they make to the radio, in which order, after what, and when they give up.
 */
module BdbAttempts {
  import opened Types
  import opened Bdb
  import opened BdbProgress

  // ------------------------------------------------------------------
  // Attempts in a log
  // ------------------------------------------------------------------

  /** A call that starts the radio. */
  predicate IsAttempt(e: Entry) {
    e.Called? && (e.call.FormNetwork? || e.call.Join?)
  }

  /** The entry is a confirmation of the kind of `failed`. */
  predicate Confirms(e: Entry, failed: Event) {
    e.Observed? && if failed.FormationConfirm? then e.event.FormationConfirm? else e.event.JoinConfirm?
  }

  /** The node took the last attempt made from `from` on. */
  predicate Taken(log: Log, from: nat) {
    |log| > from && var e := log[|log| - 1];
    if IsAttempt(e) then e.refusal.None? else Taken(log[..|log| - 1], from)
  }

  /** The node took the last attempt and has not confirmed it yet. */
  predicate Pending(log: Log, from: nat, failed: Event) {
    |log| > from && var e := log[|log| - 1];
    if IsAttempt(e) then e.refusal.None? else !Confirms(e, failed) && Pending(log[..|log| - 1], from, failed)
  }

  /** The last thing that happened. */
  predicate Last(log: Log, e: Entry) {
    log != [] && log[|log| - 1] == e
  }

  /** The attempts made from `from` on are just these calls: the first one is made at once, and every other
      one right after the one before it, which the node had taken, was confirmed as failed. */
  predicate Makes(log: Log, from: nat, calls: seq<Call>, failed: Event) {
    if |log| <= from then calls == []
    else
      var before, e := log[..|log| - 1], log[|log| - 1];
      if IsAttempt(e) then
        && calls != [] && calls[|calls| - 1] == e.call && Makes(before, from, calls[..|calls| - 1], failed)
        && (if |calls| == 1 then |before| == from else Last(before, Observed(failed)) && Taken(before, from))
      else Makes(before, from, calls, failed)
  }

  lemma Appended(log: Log, from: nat, calls: seq<Call>, failed: Event, e: Entry)
    requires from <= |log|
    ensures Last(log + [e], e)
    ensures !IsAttempt(e) ==>
              && Makes(log + [e], from, calls, failed) == Makes(log, from, calls, failed)
              && Taken(log + [e], from) == Taken(log, from)
              && Pending(log + [e], from, failed) == (Pending(log, from, failed) && !Confirms(e, failed))
    ensures IsAttempt(e) ==>
              && Taken(log + [e], from) == e.refusal.None? == Pending(log + [e], from, failed)
              && (Makes(log, from, calls, failed)
                  && (if calls == [] then |log| == from else Last(log, Observed(failed)) && Taken(log, from)) ==>
                    Makes(log + [e], from, calls + [e.call], failed))
  {
    assert (log + [e])[..|log|] == log;
    if IsAttempt(e) {
      assert (calls + [e.call])[..|calls|] == calls;
    }
  }

  lemma {:induction false} PendingIsTaken(log: Log, from: nat, failed: Event)
    ensures Pending(log, from, failed) ==> Taken(log, from)
  {
    if |log| > from && !IsAttempt(log[|log| - 1]) {
      PendingIsTaken(log[..|log| - 1], from, failed);
    }
  }

  /** Nothing happened to the running procedure. */
  ghost predicate Quiet(s: State, r: Result, failed: Event) {
    && r.state.procedure == s.procedure
    && (r.state.log == s.log
        || exists e :: r.state.log == s.log + [e] && !IsAttempt(e) && !Confirms(e, failed))
  }

  /** Formation and rejoin go on only when their attempt is confirmed. */
  lemma QuietUnlessConfirmed(c: Config, n: Node, s: State, i: Input, failed: Event)
    requires Inv(c, s)
    requires (s.procedure.Formation? && failed.FormationConfirm?) || (s.procedure.Rejoin? && failed.JoinConfirm?)
    requires !(i.DoEvent? && Confirms(Observed(i.event), failed))
    ensures Quiet(s, Step(c, n, s, i), failed)
  {
    var r := Step(c, n, s, i);
    match i
    case DoEvent(e) => assert r.state.log == s.log + [Observed(e)];
    case DoPoll(now) => assert r.state.log == s.log + [Ticked(now)];
    case DoTarget(endpoint) =>
      if s.onNetwork {
        var call := Identify(endpoint, CommissioningTime(c));
        assert r.state.log == s.log + [Called(call, n.refusal(s.log, call))];
      }
    case _ =>
  }

  // ------------------------------------------------------------------
  // Formation
  // ------------------------------------------------------------------

  const FORMATION_FAILED := FormationConfirm(false)

  /** Formation tries the primary list, then the secondary one, where there are any channels in them. */
  function FormationPlan(c: Config): seq<Call> {
    (if c.primary == {} then [] else [FormNetwork(c.primary)])
    + if c.secondary == {} then [] else [FormNetwork(c.secondary)]
  }

  /** How a formation ends: in success right after a confirmation, exhausted after all of its plan failed, or
      because the node refused. */
  predicate FormationEnds(c: Config, log: Log, from: nat, calls: seq<Call>, failure: Option<Failure>) {
    match failure
    case None => Taken(log, from) && Last(log, Observed(FormationConfirm(true)))
    case Some(ScanChannelsExhausted) => Taken(log, from) && Last(log, Observed(FormationConfirm(false))) && calls == FormationPlan(c)
    case Some(NodeFailed(e)) => calls != [] && Last(log, Called(calls[|calls| - 1], Some(e)))
    case _ => false
  }

  /** A formation that runs or just ended is somewhere in its plan. */
  predicate Forms(c: Config, from: nat, calls: seq<Call>, r: Result) {
    var log := r.state.log;
    && calls != [] && calls <= FormationPlan(c) && from < |log| && Makes(log, from, calls, FORMATION_FAILED)
    && (if r.state.procedure.Formation? then
          && Pending(log, from, FORMATION_FAILED)
          && (if r.state.procedure.formStage.Primary? then c.primary != {} && |calls| == 1
              else c.secondary != {} && calls == FormationPlan(c))
        else
          && r.state.procedure.Idle? && r.outcome.Some? && r.outcome.value.FormationEnd?
          && FormationEnds(c, log, from, calls, r.outcome.value.failure))
  }

  /** The next attempt may be made: it is the first, or the last one failed. */
  predicate MayTry(log: Log, from: nat, calls: seq<Call>, failed: Event) {
    from <= |log| && Makes(log, from, calls, failed)
    && if calls == [] then |log| == from else Last(log, Observed(failed)) && Taken(log, from)
  }

  lemma FormLaunchForms(c: Config, n: Node, s: State, stage: Stage, from: nat, calls: seq<Call>, call: Call)
    requires MayTry(s.log, from, calls, FORMATION_FAILED)
    requires call.FormNetwork? && |calls| < |FormationPlan(c)| && calls + [call] == FormationPlan(c)[..|calls| + 1]
    requires if stage.Primary? then c.primary != {} && calls == [] else c.secondary != {} && |calls| + 1 == |FormationPlan(c)|
    ensures var r := Launch(n, s, Formation(stage), call);
            && r.refused != Some(ScanChannelsExhausted) && (r.refused.Some? ==> r.state.procedure.Idle?)
            && Forms(c, from, calls + [call], Ended(r, f => FormationEnd(f)))
  {
    hide FormationPlan;
    Appended(s.log, from, calls, FORMATION_FAILED, Called(call, n.refusal(s.log, call)));
    hide Makes, Taken, Pending;
  }

  lemma FormStageForms(c: Config, n: Node, s: State, stage: Stage, from: nat, calls: seq<Call>)
    requires MayTry(s.log, from, calls, FORMATION_FAILED)
    requires calls == if stage.Primary? || c.primary == {} then [] else [FormNetwork(c.primary)]
    ensures var (r, plan) := (FormStage(c, n, s, stage), FormationPlan(c));
            if r.refused == Some(ScanChannelsExhausted) then calls == plan && r.state == s.(procedure := Idle)
            else
              && |calls| < |plan| && (r.refused.Some? ==> r.state.procedure.Idle?)
              && Forms(c, from, plan[..|calls| + 1], Ended(r, f => FormationEnd(f)))
    decreases stage.Primary?
  {
    hide Forms, MayTry, Launch;
    var list := if stage.Primary? then c.primary else c.secondary;
    if list != {} {
      var call := FormNetwork(list);
      assert FormationPlan(c)[..|calls| + 1] == calls + [call];
      FormLaunchForms(c, n, s, stage, from, calls, call);
    } else if stage.Primary? {
      FormStageForms(c, n, s, Secondary, from, calls);
    }
  }

  lemma FormationConfirmed(c: Config, n: Node, s: State, success: bool, from: nat, calls: seq<Call>) returns (next: seq<Call>)
    requires s.procedure.Formation? && Forms(c, from, calls, Running(s))
    ensures calls <= next
    ensures var e := FormationConfirm(success);
            Forms(c, from, next, OnFormation(c, n, s.(log := s.log + [Observed(e)]), s.procedure.formStage, e))
  {
    hide FormStage, Makes, Taken, Pending;
    next := calls;
    PendingIsTaken(s.log, from, FORMATION_FAILED);
    var e := Observed(FormationConfirm(success));
    var s' := s.(log := s.log + [e]);
    Appended(s.log, from, calls, FORMATION_FAILED, e);
    if !success && s.procedure.formStage.Primary? {
      assert calls == [FormNetwork(c.primary)];
      FormStageForms(c, n, s', Secondary, from, calls);
      if FormStage(c, n, s', Secondary).refused != Some(ScanChannelsExhausted) {
        next := FormationPlan(c)[..|calls| + 1];
      }
    }
  }

  lemma FormationStep(c: Config, n: Node, s: State, i: Input, from: nat, calls: seq<Call>) returns (next: seq<Call>)
    requires Inv(c, s) && s.procedure.Formation? && Forms(c, from, calls, Running(s))
    ensures calls <= next && Forms(c, from, next, Step(c, n, s, i))
  {
    if i.DoEvent? && i.event.FormationConfirm? {
      hide OnFormation, Forms;
      next := FormationConfirmed(c, n, s, i.event.success, from, calls);
    } else {
      next := calls;
      QuietUnlessConfirmed(c, n, s, i, FORMATION_FAILED);
      var r := Step(c, n, s, i);
      hide Step, Makes, Pending, FormationEnds;
      if r.state.log != s.log {
        var e :| r.state.log == s.log + [e] && !IsAttempt(e) && !Confirms(e, FORMATION_FAILED);
        Appended(s.log, from, calls, FORMATION_FAILED, e);
      }
    }
  }

  lemma FormsOn(c: Config, from: nat, calls: seq<Call>, r: Result)
    requires Forms(c, from, calls, r) && !r.state.procedure.Idle?
    ensures r.state.procedure.Formation? && Forms(c, from, calls, Running(r.state))
  {
  }

  /** One formation, from its start to its end or to now. */
  lemma {:induction false} FormationRun(c: Config, n: Node, inputs: seq<Input>, results: seq<Result>, a: nat, b: nat)
    returns (calls: seq<Call>)
    requires IsRun(c, n, inputs, results) && a < b <= |inputs| && Inv(c, results[0].state)
    requires inputs[a].DoForm? && results[a].state.procedure.Idle? && results[a + 1].refused.None?
    requires Throughout(results, a + 1, b)
    ensures Forms(c, |results[a].state.log|, calls, results[b])
    decreases b
  {
    hide Forms, FormStage, OnEvent, Poll, Steer, StartRejoin, StartTarget, StartInitiator;
    assert results[b - 1 + 1] == Step(c, n, results[b - 1].state, inputs[b - 1]);
    if b == a + 1 {
      var s := results[a].state;
      FormStageForms(c, n, s, Primary, |s.log|, []);
      calls := FormationPlan(c)[..1];
    } else {
      calls := FormationRun(c, n, inputs, results, a, b - 1);
      FormsOn(c, |results[a].state.log|, calls, results[b - 1]);
      RunInv(c, n, inputs, results, b - 1);
      calls := FormationStep(c, n, results[b - 1].state, inputs[b - 1], |results[a].state.log|, calls);
    }
  }

  /** A formation starts exactly off the network, on a node that may form one, with channels to try, and when
      the node takes the first attempt. */
  lemma FormationStarts(c: Config, n: Node, s: State)
    ensures var (r, plan) := (Form(c, n, s), FormationPlan(c));
            if !s.procedure.Idle? then r == Refuse(s, Busy)
            else if s.onNetwork then r == Refuse(s, AlreadyOnNetwork)
            else if n.endDevice then r == Refuse(s, NotPermittedToForm)
            else if plan == [] then r == Refuse(s, ScanChannelsExhausted)
            else
              var refusal := n.refusal(s.log, plan[0]);
              && r.state.log == s.log + [Called(plan[0], refusal)]
              && r.refused == if refusal.Some? then Some(NodeFailed(refusal.value)) else None
  {
  }

  // ------------------------------------------------------------------
  // Rejoin
  // ------------------------------------------------------------------

  const JOIN_FAILED := JoinConfirm(false)

  /** The ways back, in their order. */
  function Place(t: RejoinStage): nat {
    match t
    case SecuredCurrent => 0
    case TcCurrent => 1
    case PrimaryList => 2
    case SecondaryList => 3
  }

  /** On a centralized network with a verified Trust Center link key. */
  predicate KeyVerified(n: Node, log: Log) {
    n.centralized(log) && n.verified(log)
  }

  /** What each way back asks of the node. */
  function TryOf(c: Config, n: Node, log: Log, t: RejoinStage): (call: Call)
    ensures call.Join?
  {
    if t.TcCurrent? then Join(TrustCenterRejoin, n.channel(log))
    else if t.SecuredCurrent? then Join(SecuredRejoin, n.channel(log))
    else Join(SecuredRejoin, if t.PrimaryList? then c.primary else c.secondary)
  }

  /** A Trust Center rejoin takes a verified key, and an empty primary list is passed over. */
  predicate Due(c: Config, n: Node, log: Log, t: RejoinStage) {
    (t.TcCurrent? ==> KeyVerified(n, log)) && (t.PrimaryList? ==> c.primary != {})
  }

  /** The first way back that is due among those after the first `done` ones. */
  ghost predicate IsNext(c: Config, n: Node, log: Log, done: nat, t: RejoinStage) {
    && done <= Place(t) && Due(c, n, log, t)
    && forall u :: done <= Place(u) < Place(t) ==> !Due(c, n, log, u)
  }

  /** How many ways back are behind: the first one is left out when the Trust Center is lost and the key verified. */
  function Behind(n: Node, log: Log, lost: bool, tried: seq<RejoinStage>): nat {
    if tried == [] then (if lost && KeyVerified(n, log) then 1 else 0) else Place(tried[|tried| - 1]) + 1
  }

  /** The attempts made from `from` on are these ways back: each is the next one that is due at its time, on
      some channel, and made at once or right after the one before it failed. */
  ghost predicate Retraces(c: Config, n: Node, log: Log, from: nat, lost: bool, tried: seq<RejoinStage>) {
    if |log| <= from then tried == []
    else
      var before, e := log[..|log| - 1], log[|log| - 1];
      if IsAttempt(e) then
        && tried != [] && var t, rest := tried[|tried| - 1], tried[..|tried| - 1];
        && Retraces(c, n, before, from, lost, rest)
        && e.call == TryOf(c, n, before, t) && e.call.channels != {} && IsNext(c, n, before, Behind(n, before, lost, rest), t)
        && (if rest == [] then |before| == from else Last(before, Observed(JOIN_FAILED)) && Taken(before, from))
      else Retraces(c, n, before, from, lost, tried)
  }

  /** How a rejoin ends: in success right after a confirmation; without success right after a failure when the
      next way back, if any is due, has no channel; or because the node refused. */
  ghost predicate RejoinEnds(
    c: Config, n: Node, log: Log, from: nat, lost: bool, tried: seq<RejoinStage>, failure: Option<Failure>)
  {
    match failure
    case None => Taken(log, from) && Last(log, Observed(JoinConfirm(true)))
    case Some(RejoinUnsuccessful) =>
      && Taken(log, from) && Last(log, Observed(JoinConfirm(false)))
      && forall t :: IsNext(c, n, log, Behind(n, log, lost, tried), t) ==> TryOf(c, n, log, t).channels == {}
    case Some(NodeFailed(e)) => log != [] && IsAttempt(log[|log| - 1]) && log[|log| - 1].refusal == Some(e)
    case _ => false
  }

  /** A rejoin that runs or just ended. */
  ghost predicate Rejoins(c: Config, n: Node, from: nat, lost: bool, tried: seq<RejoinStage>, r: Result) {
    var log := r.state.log;
    && tried != [] && from < |log| && Retraces(c, n, log, from, lost, tried)
    && (if r.state.procedure.Rejoin? then
          Pending(log, from, JOIN_FAILED) && r.state.procedure.rejoinStage == tried[|tried| - 1]
        else
          && r.state.procedure.Idle? && r.outcome.Some? && r.outcome.value.RejoinEnd?
          && RejoinEnds(c, n, log, from, lost, tried, r.outcome.value.failure))
  }

  lemma RetracesAppended(c: Config, n: Node, log: Log, from: nat, lost: bool, tried: seq<RejoinStage>, e: Entry)
    requires from <= |log| && Retraces(c, n, log, from, lost, tried)
    ensures !IsAttempt(e) ==> Retraces(c, n, log + [e], from, lost, tried)
  {
    assert (log + [e])[..|log|] == log;
  }

  lemma RetracesFurther(c: Config, n: Node, log: Log, from: nat, lost: bool, tried: seq<RejoinStage>, t: RejoinStage,
                        refusal: Option<NodeError>)
    requires from <= |log| && Retraces(c, n, log, from, lost, tried)
    requires if tried == [] then |log| == from else Last(log, Observed(JOIN_FAILED)) && Taken(log, from)
    requires IsNext(c, n, log, Behind(n, log, lost, tried), t) && TryOf(c, n, log, t).channels != {}
    ensures Retraces(c, n, log + [Called(TryOf(c, n, log, t), refusal)], from, lost, tried + [t])
  {
    hide IsNext, TryOf, Behind, Taken;
    assert (log + [Called(TryOf(c, n, log, t), refusal)])[..|log|] == log;
    assert (tried + [t])[..|tried|] == tried;
  }

  /** The way back that rejoin takes from `stage` on, if nothing before it is due. */
  lemma RejoinFromTakes(c: Config, n: Node, s: State, stage: RejoinStage, done: nat) returns (t: RejoinStage)
    requires done <= Place(stage) && forall u :: done <= Place(u) < Place(stage) ==> !Due(c, n, s.log, u)
    ensures IsNext(c, n, s.log, done, t)
    ensures var call := TryOf(c, n, s.log, t);
            RejoinFrom(c, n, s, stage)
            == if call.channels == {} then Refuse(s.(procedure := Idle), RejoinUnsuccessful) else Launch(n, s, Rejoin(t), call)
    decreases RejoinRank(stage)
  {
    hide Launch;
    if Due(c, n, s.log, stage) {
      t := stage;
    } else {
      t := RejoinFromTakes(c, n, s, if stage.TcCurrent? then PrimaryList else SecondaryList, done);
    }
  }

  lemma LaunchRetraces(c: Config, n: Node, s: State, from: nat, lost: bool, tried: seq<RejoinStage>, t: RejoinStage)
    requires from <= |s.log| && Retraces(c, n, s.log, from, lost, tried)
    requires if tried == [] then |s.log| == from else Last(s.log, Observed(JOIN_FAILED)) && Taken(s.log, from)
    requires IsNext(c, n, s.log, Behind(n, s.log, lost, tried), t) && TryOf(c, n, s.log, t).channels != {}
    ensures var r := Launch(n, s, Rejoin(t), TryOf(c, n, s.log, t));
            r.refused != Some(RejoinUnsuccessful) && Rejoins(c, n, from, lost, tried + [t], Ended(r, f => RejoinEnd(f)))
  {
    hide Retraces, IsNext, Taken, Pending, TryOf, Behind;
    var call := TryOf(c, n, s.log, t);
    var e := Called(call, n.refusal(s.log, call));
    RetracesFurther(c, n, s.log, from, lost, tried, t, e.refusal);
    Appended(s.log, from, [], JOIN_FAILED, e);
  }

  /** From `stage` on, with everything between not due. */
  lemma RejoinFromRetraces(c: Config, n: Node, s: State, stage: RejoinStage, from: nat, lost: bool, tried: seq<RejoinStage>)
    returns (t: RejoinStage)
    requires from <= |s.log| && Retraces(c, n, s.log, from, lost, tried)
    requires if tried == [] then |s.log| == from else Last(s.log, Observed(JOIN_FAILED)) && Taken(s.log, from)
    requires var done := Behind(n, s.log, lost, tried);
             done <= Place(stage) && forall u :: done <= Place(u) < Place(stage) ==> !Due(c, n, s.log, u)
    ensures IsNext(c, n, s.log, Behind(n, s.log, lost, tried), t)
    ensures var r := RejoinFrom(c, n, s, stage);
            if r.refused == Some(RejoinUnsuccessful) then
              r.state == s.(procedure := Idle) && TryOf(c, n, s.log, t).channels == {}
            else Rejoins(c, n, from, lost, tried + [t], Ended(r, f => RejoinEnd(f)))
  {
    hide RejoinFrom, Retraces, Rejoins, IsNext, Launch, Taken;
    t := RejoinFromTakes(c, n, s, stage, Behind(n, s.log, lost, tried));
    if TryOf(c, n, s.log, t).channels != {} {
      LaunchRetraces(c, n, s, from, lost, tried, t);
    }
  }

  lemma OnlyNext(c: Config, n: Node, log: Log, done: nat, t: RejoinStage, u: RejoinStage)
    requires IsNext(c, n, log, done, t) && IsNext(c, n, log, done, u)
    ensures t == u
  {
    assert Place(t) == Place(u) ==> t == u;
  }

  lemma RejoinConfirmed(c: Config, n: Node, s: State, success: bool, from: nat, lost: bool, tried: seq<RejoinStage>)
    returns (next: seq<RejoinStage>)
    requires s.procedure.Rejoin? && Rejoins(c, n, from, lost, tried, Running(s))
    ensures tried <= next
    ensures var e := JoinConfirm(success);
            Rejoins(c, n, from, lost, next, OnRejoin(c, n, s.(log := s.log + [Observed(e)]), s.procedure.rejoinStage, e))
  {
    hide RejoinFrom, Retraces, IsNext, Pending, Taken, TryOf;
    next := tried;
    PendingIsTaken(s.log, from, JOIN_FAILED);
    var e := Observed(JoinConfirm(success));
    var s' := s.(log := s.log + [e]);
    Appended(s.log, from, [], JOIN_FAILED, e);
    RetracesAppended(c, n, s.log, from, lost, tried, e);
    var stage, done := s.procedure.rejoinStage, Behind(n, s'.log, lost, tried);
    if !success {
      if stage.SecondaryList? {
        NoneAfterSecondary(c, n, s'.log);
      } else {
        var after := if stage.SecuredCurrent? then TcCurrent else if stage.TcCurrent? then PrimaryList else SecondaryList;
        var t := RejoinFromRetraces(c, n, s', after, from, lost, tried);
        if RejoinFrom(c, n, s', after).refused != Some(RejoinUnsuccessful) {
          next := tried + [t];
        } else {
          forall u | IsNext(c, n, s'.log, done, u)
            ensures TryOf(c, n, s'.log, u).channels == {}
          {
            OnlyNext(c, n, s'.log, done, t, u);
          }
        }
      }
    }
  }

  lemma NoneAfterSecondary(c: Config, n: Node, log: Log)
    ensures forall t :: !IsNext(c, n, log, 4, t)
  {
  }

  lemma RejoinStep(c: Config, n: Node, s: State, i: Input, from: nat, lost: bool, tried: seq<RejoinStage>)
    returns (next: seq<RejoinStage>)
    requires Inv(c, s) && s.procedure.Rejoin? && Rejoins(c, n, from, lost, tried, Running(s))
    ensures tried <= next && Rejoins(c, n, from, lost, next, Step(c, n, s, i))
  {
    if i.DoEvent? && i.event.JoinConfirm? {
      hide OnRejoin, Rejoins;
      next := RejoinConfirmed(c, n, s, i.event.success, from, lost, tried);
    } else {
      next := tried;
      QuietUnlessConfirmed(c, n, s, i, JOIN_FAILED);
      var r := Step(c, n, s, i);
      hide Step, Retraces, Pending, RejoinEnds;
      if r.state.log != s.log {
        var e :| r.state.log == s.log + [e] && !IsAttempt(e) && !Confirms(e, JOIN_FAILED);
        Appended(s.log, from, [], JOIN_FAILED, e);
        RetracesAppended(c, n, s.log, from, lost, tried, e);
      }
    }
  }

  lemma RejoinsOn(c: Config, n: Node, from: nat, lost: bool, tried: seq<RejoinStage>, r: Result)
    requires Rejoins(c, n, from, lost, tried, r) && !r.state.procedure.Idle?
    ensures r.state.procedure.Rejoin? && Rejoins(c, n, from, lost, tried, Running(r.state))
  {
  }

  /** One rejoin, from its start to its end or to now. */
  lemma {:induction false} RejoinRun(c: Config, n: Node, inputs: seq<Input>, results: seq<Result>, a: nat, b: nat)
    returns (tried: seq<RejoinStage>)
    requires IsRun(c, n, inputs, results) && a < b <= |inputs| && Inv(c, results[0].state)
    requires inputs[a].DoRejoin? && results[a].state.procedure.Idle? && results[a + 1].refused.None?
    requires Throughout(results, a + 1, b)
    ensures Rejoins(c, n, |results[a].state.log|, inputs[a].lostTrustCenter, tried, results[b])
    decreases b
  {
    hide Rejoins, RejoinFrom, OnEvent, Poll, Steer, Form, StartTarget, StartInitiator;
    assert results[b - 1 + 1] == Step(c, n, results[b - 1].state, inputs[b - 1]);
    var lost := inputs[a].lostTrustCenter;
    if b == a + 1 {
      var s := results[a].state;
      var t := RejoinFromRetraces(c, n, s, if KeyVerified(n, s.log) && lost then TcCurrent else SecuredCurrent, |s.log|, lost, []);
      tried := [] + [t];
    } else {
      tried := RejoinRun(c, n, inputs, results, a, b - 1);
      RejoinsOn(c, n, |results[a].state.log|, lost, tried, results[b - 1]);
      RunInv(c, n, inputs, results, b - 1);
      tried := RejoinStep(c, n, results[b - 1].state, inputs[b - 1], |results[a].state.log|, lost, tried);
    }
  }

  /** The ways back are tried in their order and each at most once. */
  lemma {:induction false} TriedInOrder(c: Config, n: Node, log: Log, from: nat, lost: bool, tried: seq<RejoinStage>)
    requires Retraces(c, n, log, from, lost, tried)
    ensures forall i, j :: 0 <= i < j < |tried| ==> Place(tried[i]) < Place(tried[j])
  {
    if |log| > from {
      var before := log[..|log| - 1];
      if IsAttempt(log[|log| - 1]) {
        var rest := tried[..|tried| - 1];
        TriedInOrder(c, n, before, from, lost, rest);
      } else {
        TriedInOrder(c, n, before, from, lost, tried);
      }
    }
  }

  /** A rejoin is given up only when the current channel is unknown, or nothing with channels is left to try. */
  lemma GivenUpWhenNothingIsLeft(c: Config, n: Node, log: Log, from: nat, lost: bool, tried: seq<RejoinStage>)
    requires tried != [] && RejoinEnds(c, n, log, from, lost, tried, Some(RejoinUnsuccessful))
    ensures var last := tried[|tried| - 1];
            || (last.SecuredCurrent? && KeyVerified(n, log) && n.channel(log) == {})
            || last.SecondaryList?
            || (c.secondary == {} && (last.PrimaryList? || c.primary == {}))
  {
    var last, done := tried[|tried| - 1], Behind(n, log, lost, tried);
    if last.SecuredCurrent? && KeyVerified(n, log) {
      assert IsNext(c, n, log, done, TcCurrent);
    } else if !last.SecondaryList? {
      assert IsNext(c, n, log, done, if c.primary != {} && !last.PrimaryList? then PrimaryList else SecondaryList);
    }
  }

  /** A rejoin starts on an idle machine that knows its channel, when the node takes the first attempt. */
  lemma RejoinStarts(c: Config, n: Node, s: State, lost: bool)
    ensures var r := StartRejoin(c, n, s, lost);
            var first := TryOf(c, n, s.log, if lost && KeyVerified(n, s.log) then TcCurrent else SecuredCurrent);
            if !s.procedure.Idle? then r == Refuse(s, Busy)
            else if first.channels == {} then r == Refuse(s, RejoinUnsuccessful)
            else
              var refusal := n.refusal(s.log, first);
              && r.state.log == s.log + [Called(first, refusal)]
              && r.refused == if refusal.Some? then Some(NodeFailed(refusal.value)) else None
  {
  }

  // ------------------------------------------------------------------
  // Steering
  // ------------------------------------------------------------------

  /** As many attempts as retries are configured, at least one and at most ten. */
  function Rounds(c: Config, channels: Channels): seq<Call> {
    if channels == {} then []
    else seq(if c.retries < 1 then 1 else if c.retries > 10 then 10 else c.retries, _ => Join(Association, channels))
  }

  /** Steering associates on the primary list, then on the secondary one. */
  function SteeringPlan(c: Config): seq<Call> {
    Rounds(c, c.primary) + Rounds(c, c.secondary)
  }

  /** The node was told to leave since the last attempt. */
  predicate LeftSince(log: Log, from: nat) {
    |log| > from && var e := log[|log| - 1];
    !IsAttempt(e) && ((e.Called? && e.call.Leave?) || LeftSince(log[..|log| - 1], from))
  }

  /** How far the log had got when the last attempt was first confirmed as joined. */
  function JoinedSince(log: Log, from: nat): (j: Option<nat>)
    ensures j.Some? ==> from < j.value <= |log|
  {
    if |log| <= from || IsAttempt(log[|log| - 1]) then None
    else
      var before := JoinedSince(log[..|log| - 1], from);
      if before.Some? then before
      else if log[|log| - 1] == Observed(JoinConfirm(true)) then Some(|log|)
      else None
  }

  /** On a centralized network whose Trust Center link key is not verified. */
  predicate NeedsKey(n: Node, log: Log) {
    n.centralized(log) && !n.verified(log)
  }

  /** The last attempt came to nothing: it was confirmed as failed before it ever joined, or what it joined was left. */
  predicate CameToNothing(log: Log, from: nat) {
    Taken(log, from) && (LeftSince(log, from) || (Last(log, Observed(JOIN_FAILED)) && JoinedSince(log, from).None?))
  }

  /** The attempts made from `from` on are these calls, each made at once or when the one before had come to
      nothing; and a network was left only when its link key did not come in time. */
  predicate Attempts(c: Config, n: Node, log: Log, from: nat, calls: seq<Call>) {
    if |log| <= from then calls == []
    else
      var before, e := log[..|log| - 1], log[|log| - 1];
      if IsAttempt(e) then
        && calls != [] && calls[|calls| - 1] == e.call && Attempts(c, n, before, from, calls[..|calls| - 1])
        && (if |calls| == 1 then |before| == from else CameToNothing(before, from))
      else
        && Attempts(c, n, before, from, calls)
        && (e.Called? && e.call.Leave? ==> KeyIsLate(c, n, before, from))
  }

  /** A poll found the link key of the joined network missing for longer than allowed. */
  predicate KeyIsLate(c: Config, n: Node, log: Log, from: nat) {
    && log != [] && log[|log| - 1].Ticked? && !LeftSince(log, from)
    && var j := JoinedSince(log, from);
    && j.Some? && NeedsKey(n, log[..j.value])
    && log[|log| - 1].now >= After(n.now(log[..j.value]), c.securityTimeout)
  }

  /** Joined for good: the join was confirmed and needs no key, or the key has come. */
  predicate JoinedForGood(n: Node, log: Log, from: nat) {
    && Taken(log, from) && !LeftSince(log, from)
    && (|| (JoinedSince(log, from) == Some(|log|) && !NeedsKey(n, log))
        || (JoinedSince(log, from).Some? && Last(log, Observed(LinkKeyUpdated))))
  }

  /** The network was opened: everywhere, on a router also here, and polling is fast. */
  predicate Opens(c: Config, n: Node, before: Log, log: Log) {
    var seconds := if c.commissioningTime < 180 then 180 else c.commissioningTime;
    && before <= log && |log| == |before| + (if n.endDevice then 2 else 3)
    && (forall k :: |before| <= k < |log| ==> log[k].Called?)
    && log[|before|].call == BroadcastPermitJoin(seconds)
    && (!n.endDevice ==> log[|before| + 1].call == PermitJoin(seconds))
    && log[|log| - 1].call == FastPoll
  }

  predicate SteeringEnds(c: Config, n: Node, log: Log, from: nat, calls: seq<Call>, failure: Option<Failure>) {
    match failure
    case None =>
      var added := if n.endDevice then 2 else 3;
      added <= |log| && JoinedForGood(n, log[..|log| - added], from) && Opens(c, n, log[..|log| - added], log)
    case Some(NoNetwork) => CameToNothing(log, from) && calls == SteeringPlan(c)
    case Some(NodeFailed(e)) => calls != [] && Last(log, Called(calls[|calls| - 1], Some(e)))
    case _ => false
  }

  /** How much of the plan has been made in attempt `attempts` of a stage. */
  function Made(c: Config, stage: Stage, attempts: nat): nat {
    (if stage.Secondary? then |Rounds(c, c.primary)| else 0) + attempts + 1
  }

  /** A steering that runs or just ended. */
  predicate Steers(c: Config, n: Node, from: nat, calls: seq<Call>, r: Result) {
    var log := r.state.log;
    && calls != [] && calls <= SteeringPlan(c) && from < |log| && Attempts(c, n, log, from, calls)
    && (if r.state.procedure.Steering? then
          var p := r.state.procedure;
          && |calls| == Made(c, p.stage, p.attempts) && ListOf(c, p.stage) != {} && p.attempts < Limit(c)
          && Taken(log, from)
          && match p.steeringPhase
             case Joining => Pending(log, from, JOIN_FAILED) && !LeftSince(log, from) && JoinedSince(log, from).None?
             case AwaitingLinkKey =>
               && !LeftSince(log, from) && var j := JoinedSince(log, from);
               && j.Some? && NeedsKey(n, log[..j.value])
               && r.state.deadline == Some(After(n.now(log[..j.value]), c.securityTimeout))
               && (forall k :: j.value <= k < |log| ==> log[k] != Observed(LinkKeyUpdated))
             case Leaving => LeftSince(log, from)
        else
          && r.state.procedure.Idle? && r.outcome.Some? && r.outcome.value.SteeringEnd?
          && SteeringEnds(c, n, log, from, calls, r.outcome.value.failure))
  }

  lemma SteeringAppended(c: Config, n: Node, log: Log, from: nat, calls: seq<Call>, e: Entry)
    requires from <= |log| && Attempts(c, n, log, from, calls)
    ensures !IsAttempt(e) ==>
              && JoinedSince(log + [e], from)
                 == (if |log| >= from && JoinedSince(log, from).None? && e == Observed(JoinConfirm(true)) then Some(|log| + 1)
                     else JoinedSince(log, from))
              && LeftSince(log + [e], from) == (LeftSince(log, from) || (e.Called? && e.call.Leave?))
              && Attempts(c, n, log + [e], from, calls) == (e.Called? && e.call.Leave? ==> KeyIsLate(c, n, log, from))
    ensures IsAttempt(e) ==>
              && JoinedSince(log + [e], from).None? && !LeftSince(log + [e], from)
              && ((if calls == [] then |log| == from else CameToNothing(log, from)) ==>
                    Attempts(c, n, log + [e], from, calls + [e.call]))
  {
    assert (log + [e])[..|log|] == log;
    if IsAttempt(e) {
      assert (calls + [e.call])[..|calls|] == calls;
    }
  }

  /** The attempt of a stage stands at its place in the plan. */
  lemma PlanAt(c: Config, stage: Stage, attempts: nat)
    requires ListOf(c, stage) != {} && attempts < Limit(c)
    ensures Made(c, stage, attempts) <= |SteeringPlan(c)|
    ensures SteeringPlan(c)[Made(c, stage, attempts) - 1] == Join(Association, ListOf(c, stage))
    ensures |Rounds(c, ListOf(c, stage))| == Limit(c)
  {
  }

  lemma LaunchSteers(c: Config, n: Node, s: State, stage: Stage, attempts: Octet, from: nat, calls: seq<Call>)
    requires from <= |s.log| && Attempts(c, n, s.log, from, calls)
    requires if calls == [] then |s.log| == from else CameToNothing(s.log, from)
    requires ListOf(c, stage) != {} && attempts < Limit(c) && |calls| + 1 == Made(c, stage, attempts)
    requires calls <= SteeringPlan(c)
    ensures var call := Join(Association, ListOf(c, stage));
            var r := Launch(n, s, Steering(stage, Joining, attempts), call);
            && calls + [call] <= SteeringPlan(c) && r.refused != Some(NoNetwork)
            && Steers(c, n, from, calls + [call], Ended(r, f => SteeringEnd(f)))
  {
    hide Attempts, Rounds, CameToNothing, SteeringPlan, Limit;
    var call := Join(Association, ListOf(c, stage));
    var e := Called(call, n.refusal(s.log, call));
    PlanAt(c, stage, attempts);
    assert calls + [call] == SteeringPlan(c)[..|calls| + 1];
    Appended(s.log, from, calls, JOIN_FAILED, e);
    SteeringAppended(c, n, s.log, from, calls, e);
  }

  lemma SteerStageSteers(c: Config, n: Node, s: State, stage: Stage, from: nat, calls: seq<Call>)
    requires from <= |s.log| && Attempts(c, n, s.log, from, calls)
    requires if calls == [] then |s.log| == from else CameToNothing(s.log, from)
    requires calls == if stage.Primary? then [] else Rounds(c, c.primary)
    ensures var (r, plan) := (SteerStage(c, n, s, stage), SteeringPlan(c));
            if r.refused == Some(NoNetwork) then calls == plan && r.state == s.(procedure := Idle)
            else |calls| < |plan| && Steers(c, n, from, plan[..|calls| + 1], Ended(r, f => SteeringEnd(f)))
    decreases stage.Primary?
  {
    hide Attempts, CameToNothing, Steers, Launch;
    if ListOf(c, stage) != {} {
      LaunchSteers(c, n, s, stage, 0, from, calls);
      var call := Join(Association, ListOf(c, stage));
      assert calls + [call] == SteeringPlan(c)[..|calls| + 1];
    } else if stage.Primary? {
      SteerStageSteers(c, n, s, Secondary, from, calls);
    }
  }

  /** After an attempt that came to nothing. */
  lemma RetrySteers(c: Config, n: Node, s: State, stage: Stage, attempts: Octet, from: nat, calls: seq<Call>) returns (next: seq<Call>)
    requires from <= |s.log| && Attempts(c, n, s.log, from, calls) && CameToNothing(s.log, from)
    requires ListOf(c, stage) != {} && attempts < Limit(c) && calls <= SteeringPlan(c) && |calls| == Made(c, stage, attempts)
    ensures calls <= next && Steers(c, n, from, next, Retry(c, n, s, stage, attempts))
  {
    PlanAt(c, stage, attempts);
    hide Attempts, CameToNothing, Launch, SteerStage;
    next := calls;
    if attempts + 1 < Limit(c) {
      hide Steers;
      LaunchSteers(c, n, s, stage, attempts + 1, from, calls);
      next := calls + [Join(Association, ListOf(c, stage))];
    } else if stage.Primary? {
      assert calls == Rounds(c, c.primary);
      SteerStageSteers(c, n, s, Secondary, from, calls);
      if SteerStage(c, n, s, Secondary).refused != Some(NoNetwork) {
        next := SteeringPlan(c)[..|calls| + 1];
      }
    } else {
      assert calls == SteeringPlan(c);
    }
  }

  /** Anything that leaves steering alone. */
  lemma SteersStill(c: Config, n: Node, s: State, from: nat, calls: seq<Call>, e: Entry, s': State)
    requires s.procedure.Steering? && Steers(c, n, from, calls, Running(s))
    requires !IsAttempt(e) && !(e.Called? && e.call.Leave?)
    requires s.procedure.steeringPhase.Joining? ==> !Confirms(e, JOIN_FAILED)
    requires s.procedure.steeringPhase.AwaitingLinkKey? ==> e != Observed(LinkKeyUpdated)
    requires s'.log == s.log + [e] && s'.procedure == s.procedure && s'.deadline == s.deadline
    ensures Steers(c, n, from, calls, Running(s'))
  {
    hide Attempts, KeyIsLate, SteeringEnds, SteeringPlan, Made;
    Appended(s.log, from, calls, JOIN_FAILED, e);
    SteeringAppended(c, n, s.log, from, calls, e);
    var j := JoinedSince(s.log, from);
    if s.procedure.steeringPhase.AwaitingLinkKey? {
      assert s'.log[..j.value] == s.log[..j.value];
    }
    hide Taken, Pending, LeftSince, JoinedSince, NeedsKey;
  }

  lemma CallsKeep(c: Config, n: Node, log: Log, from: nat, calls: seq<Call>, call: Call)
    requires from <= |log| && Attempts(c, n, log, from, calls)
    requires !call.FormNetwork? && !call.Join? && !call.Leave?
    ensures Attempts(c, n, Ask(n, log, call), from, calls)
  {
    SteeringAppended(c, n, log, from, calls, Called(call, n.refusal(log, call)));
  }

  lemma OpenedKeeps(c: Config, n: Node, log: Log, from: nat, calls: seq<Call>)
    requires from <= |log| && Attempts(c, n, log, from, calls)
    ensures Attempts(c, n, Opened(c, n, log), from, calls)
    ensures Opens(c, n, log, Opened(c, n, log))
    ensures var added := if n.endDevice then 2 else 3;
            |Opened(c, n, log)| == |log| + added && Opened(c, n, log)[..|log|] == log
  {
    hide Attempts;
    var seconds := CommissioningTime(c);
    var l := Ask(n, log, BroadcastPermitJoin(seconds));
    CallsKeep(c, n, log, from, calls, BroadcastPermitJoin(seconds));
    CallsKeep(c, n, l, from, calls, PermitJoin(seconds));
    CallsKeep(c, n, if n.endDevice then l else Ask(n, l, PermitJoin(seconds)), from, calls, FastPoll);
  }

  lemma FinishSteers(c: Config, n: Node, s: State, from: nat, calls: seq<Call>)
    requires from < |s.log| && Attempts(c, n, s.log, from, calls) && calls != [] && calls <= SteeringPlan(c)
    requires JoinedForGood(n, s.log, from)
    ensures Steers(c, n, from, calls, FinishSteering(c, n, s))
  {
    hide Attempts, JoinedForGood, Opens, SteeringPlan;
    OpenedKeeps(c, n, s.log, from, calls);
    hide Opened;
  }

  /** The join was confirmed. */
  lemma SteeringConfirmed(c: Config, n: Node, s: State, success: bool, from: nat, calls: seq<Call>) returns (next: seq<Call>)
    requires s.procedure.Steering? && s.procedure.steeringPhase.Joining? && Steers(c, n, from, calls, Running(s))
    ensures var e := JoinConfirm(success);
            calls <= next
            && Steers(c, n, from, next,
                      OnSteering(c, n, s.(log := s.log + [Observed(e)]), s.procedure.stage, Joining, s.procedure.attempts, e))
  {
    hide Attempts, KeyIsLate, SteeringEnds, SteeringPlan, Made, Pending, LeftSince, JoinedSince, Taken, Retry, FinishSteering;
    next := calls;
    var p, e := s.procedure, Observed(JoinConfirm(success));
    var s' := s.(log := s.log + [e]);
    Appended(s.log, from, calls, JOIN_FAILED, e);
    SteeringAppended(c, n, s.log, from, calls, e);
    if !success {
      next := RetrySteers(c, n, s', p.stage, p.attempts, from, calls);
    } else if NeedsKey(n, s'.log) {
      assert s'.log[..|s'.log|] == s'.log;
    } else {
      FinishSteers(c, n, s', from, calls);
    }
  }

  /** The link key has come, or the node has left. */
  lemma SteeringMovesOn(c: Config, n: Node, s: State, e: Event, from: nat, calls: seq<Call>) returns (next: seq<Call>)
    requires s.procedure.Steering? && Steers(c, n, from, calls, Running(s))
    requires (s.procedure.steeringPhase.AwaitingLinkKey? && e.LinkKeyUpdated?) || (s.procedure.steeringPhase.Leaving? && e.Left?)
    ensures var p := s.procedure;
            calls <= next
            && Steers(c, n, from, next, OnSteering(c, n, s.(log := s.log + [Observed(e)]), p.stage, p.steeringPhase, p.attempts, e))
  {
    hide Attempts, KeyIsLate, SteeringEnds, SteeringPlan, Made, Pending, LeftSince, JoinedSince, Taken, Retry, FinishSteering;
    next := calls;
    var p, s' := s.procedure, s.(log := s.log + [Observed(e)]);
    Appended(s.log, from, calls, JOIN_FAILED, Observed(e));
    SteeringAppended(c, n, s.log, from, calls, Observed(e));
    if p.steeringPhase.Leaving? {
      next := RetrySteers(c, n, s'.(deadline := None), p.stage, p.attempts, from, calls);
    } else {
      FinishSteers(c, n, s', from, calls);
    }
  }

  /** The time for the link key, or for leaving, is over. */
  lemma SteeringExpires(c: Config, n: Node, s: State, now: Instant, from: nat, calls: seq<Call>) returns (next: seq<Call>)
    requires s.procedure.Steering? && !s.procedure.steeringPhase.Joining? && Steers(c, n, from, calls, Running(s))
    requires s.deadline.Some? && s.deadline.value <= now
    ensures calls <= next
    ensures Steers(c, n, from, next, Expired(c, n, s.(log := s.log + [Ticked(now)], deadline := None), now))
  {
    hide Attempts, SteeringEnds, SteeringPlan, Made, Pending, LeftSince, JoinedSince, Taken, Retry;
    next := calls;
    var p, s' := s.procedure, s.(log := s.log + [Ticked(now)], deadline := None);
    Appended(s.log, from, calls, JOIN_FAILED, Ticked(now));
    SteeringAppended(c, n, s.log, from, calls, Ticked(now));
    if p.steeringPhase.Leaving? {
      next := RetrySteers(c, n, s'.(onNetwork := false), p.stage, p.attempts, from, calls);
    } else {
      var j := JoinedSince(s.log, from).value;
      assert s'.log[..j] == s.log[..j];
      assert KeyIsLate(c, n, s'.log, from);
      hide KeyIsLate;
      var e := Called(Leave, n.refusal(s'.log, Leave));
      Appended(s'.log, from, calls, JOIN_FAILED, e);
      SteeringAppended(c, n, s'.log, from, calls, e);
      if e.refusal.Some? {
        var s2 := s'.(procedure := Steering(p.stage, Leaving, p.attempts), log := s'.log + [e]);
        next := RetrySteers(c, n, s2, p.stage, p.attempts, from, calls);
      }
    }
  }

  lemma SteeringStep(c: Config, n: Node, s: State, i: Input, from: nat, calls: seq<Call>) returns (next: seq<Call>)
    requires Inv(c, s) && s.procedure.Steering? && Steers(c, n, from, calls, Running(s))
    ensures calls <= next && Steers(c, n, from, next, Step(c, n, s, i))
  {
    hide Steers, Retry, FinishSteering;
    next := calls;
    var p, phase := s.procedure, s.procedure.steeringPhase;
    match i
    case DoEvent(e) =>
      if phase.Joining? && e.JoinConfirm? {
        next := SteeringConfirmed(c, n, s, e.success, from, calls);
      } else if (phase.AwaitingLinkKey? && e.LinkKeyUpdated?) || (phase.Leaving? && e.Left?) {
        next := SteeringMovesOn(c, n, s, e, from, calls);
      } else {
        SteersStill(c, n, s, from, calls, Observed(e), Step(c, n, s, i).state);
        SteersSame(c, n, from, calls, Step(c, n, s, i).state, Step(c, n, s, i));
      }
    case DoPoll(now) =>
      if s.deadline.Some? && s.deadline.value <= now {
        next := SteeringExpires(c, n, s, now, from, calls);
      } else {
        SteersStill(c, n, s, from, calls, Ticked(now), Step(c, n, s, i).state);
      }
    case DoTarget(endpoint) =>
      if s.onNetwork {
        var call := Identify(endpoint, CommissioningTime(c));
        SteersStill(c, n, s, from, calls, Called(call, n.refusal(s.log, call)), Step(c, n, s, i).state);
      }
      SteersSame(c, n, from, calls, Step(c, n, s, i).state, Step(c, n, s, i));
    case _ => SteersSame(c, n, from, calls, s, Step(c, n, s, i));
  }

  lemma SteersSame(c: Config, n: Node, from: nat, calls: seq<Call>, s: State, r: Result)
    requires s.procedure.Steering? && Steers(c, n, from, calls, Running(s))
    requires r.state.procedure == s.procedure && r.state.log == s.log && r.state.deadline == s.deadline
    ensures Steers(c, n, from, calls, r)
  {
    hide Attempts, SteeringEnds, SteeringPlan, Made, Pending, LeftSince, JoinedSince, Taken;
  }

  /** One steering, from its start to its end or to now. */
  lemma {:induction false} SteeringAttempts(c: Config, n: Node, inputs: seq<Input>, results: seq<Result>, a: nat, b: nat)
    returns (calls: seq<Call>)
    requires IsRun(c, n, inputs, results) && a < b <= |inputs| && Inv(c, results[0].state)
    requires inputs[a].DoSteer? && results[a].state.procedure.Idle? && results[a + 1].refused.None?
    requires Throughout(results, a + 1, b)
    ensures Steers(c, n, |results[a].state.log|, calls, results[b])
    decreases b
  {
    hide Steers, SteerStage, OnEvent, Poll, Form, StartRejoin, StartTarget, StartInitiator;
    assert results[b - 1 + 1] == Step(c, n, results[b - 1].state, inputs[b - 1]);
    if b == a + 1 {
      var s := results[a].state;
      SteerStageSteers(c, n, s, Primary, |s.log|, []);
      calls := SteeringPlan(c)[..1];
    } else {
      calls := SteeringAttempts(c, n, inputs, results, a, b - 1);
      RunInv(c, n, inputs, results, b - 1);
      SteersOn(c, n, |results[a].state.log|, calls, results[b - 1]);
      calls := SteeringStep(c, n, results[b - 1].state, inputs[b - 1], |results[a].state.log|, calls);
    }
  }

  lemma SteersOn(c: Config, n: Node, from: nat, calls: seq<Call>, r: Result)
    requires Steers(c, n, from, calls, r) && !r.state.procedure.Idle?
    ensures r.state.procedure.Steering? && Steers(c, n, from, calls, Running(r.state))
  {
  }

  /** Steering starts off the network with channels to try, when the node takes the first attempt. */
  lemma SteeringStarts(c: Config, n: Node, s: State)
    ensures var (r, plan) := (Steer(c, n, s), SteeringPlan(c));
            if !s.procedure.Idle? then r == Refuse(s, Busy)
            else if s.onNetwork then r == Refuse(s, AlreadyOnNetwork)
            else if plan == [] then r == Refuse(s, NoNetwork)
            else
              var refusal := n.refusal(s.log, plan[0]);
              && r.state.log == s.log + [Called(plan[0], refusal)]
              && r.refused == if refusal.Some? then Some(NodeFailed(refusal.value)) else None
  {
  }
}
