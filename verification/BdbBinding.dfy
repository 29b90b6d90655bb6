/**
 Finding & binding over whole runs: who is asked for a descriptor, what is bound and
 how many bindings are reported.
 */
module BdbBinding {
  import opened Types
  import opened Bdb
  import opened BdbProgress

  /** The descriptor requests made from `from` on, in order. */
  function RequestsIn(log: Log, from: nat): seq<(U16, Octet)> {
    if |log| <= from then []
    else
      var e := log[|log| - 1];
      RequestsIn(log[..|log| - 1], from)
      + if e.Called? && e.call.SimpleDescReq? then [(e.call.address, e.call.endpoint)] else []
  }

  /** Who answered the query of `endpoint` from `from` on and before the first descriptor request:
      in order, each once, as many as are remembered. */
  function Respondents(log: Log, from: nat, endpoint: Octet): (r: seq<(U16, Octet)>)
    ensures |r| <= MAX_RESPONDENTS
    ensures forall i, j :: 0 <= i < j < |r| ==> r[i] != r[j]
  {
    if |log| <= from then []
    else
      var before, e := log[..|log| - 1], log[|log| - 1];
      var r := Respondents(before, from, endpoint);
      if Answers(e, endpoint) && RequestsIn(before, from) == [] && |r| < MAX_RESPONDENTS && Answerer(e) !in r
      then r + [Answerer(e)] else r
  }

  predicate Answers(e: Entry, endpoint: Octet) {
    e.Observed? && e.event.IdentifyQueryResponse? && e.event.endpoint == endpoint
  }

  function Answerer(e: Entry): (U16, Octet)
    requires e.Observed? && e.event.IdentifyQueryResponse?
  {
    (e.event.src, e.event.srcEndpoint)
  }

  /** The bind calls that succeeded from `from` on. */
  function Successes(log: Log, from: nat): nat {
    if |log| <= from then 0
    else
      var e := log[|log| - 1];
      Successes(log[..|log| - 1], from) + if e.Called? && e.call.Bind? && e.refusal.None? then 1 else 0
  }

  /** What an initiator was called for. */
  datatype Task = Task(endpoint: Octet, group: Option<U16>, filter: Clusters)

  function TaskOf(fb: Fb): Task {
    Task(fb.endpoint, fb.group, fb.filter)
  }

  /** Entry `j` is the descriptor of `who`, and `cluster` is on both sides and selected. */
  ghost predicate DescribedAt(n: Node, log: Log, j: nat, task: Task, cluster: U16, who: (U16, Octet))
    requires j < |log|
  {
    && log[j].Observed? && log[j].event.SimpleDescriptor? && log[j].event.success
    && (log[j].event.src, log[j].event.endpoint) == who
    && exists c :: c in n.localClusters(log[..j + 1], task.endpoint) && c.id == cluster
                   && OnBothSides(c, log[j].event.inputs, log[j].event.outputs) && Selected(task.filter, c)
  }

  ghost predicate Described(n: Node, log: Log, from: nat, task: Task, cluster: U16, who: (U16, Octet)) {
    exists j :: from <= j < |log| && DescribedAt(n, log, j, task, cluster, who)
  }

  /** The node knew the address of `short`, or had just learnt it. */
  ghost predicate KnownAddress(n: Node, log: Log, from: nat, short: U16, ieee: Address64) {
    exists j :: from <= j < |log| && log[j].Observed?
                && (n.ieeeOf(log[..j + 1], short) == Some(ieee) || log[j].event == IeeeAddress(short, Some(ieee)))
  }

  ghost predicate ReachedBy(n: Node, log: Log, from: nat, task: Task, d: Destination, who: (U16, Octet)) {
    match d
    case GroupTo(g) => task.group == Some(g)
    case UnicastTo(ieee, endpoint) => task.group.None? && endpoint == who.1 && KnownAddress(n, log, from, who.0, ieee)
  }

  /** A bind is called for by a descriptor of a device that was asked for it, and goes to that device. */
  ghost predicate CalledFor(n: Node, log: Log, from: nat, task: Task, call: Call)
    requires call.Bind?
  {
    && call.endpoint == task.endpoint
    && exists who :: who in RequestsIn(log, from) && Described(n, log, from, task, call.cluster, who)
                     && ReachedBy(n, log, from, task, call.destination, who)
  }

  ghost predicate BindsCalledFor(n: Node, log: Log, from: nat, task: Task) {
    forall i :: from <= i < |log| && log[i].Called? && log[i].call.Bind? ==>
                  CalledFor(n, log[..i], from, task, log[i].call)
  }

  /** The log since the start agrees with the state: the respondents are those who answered the
      query, and the first `upto` of them were asked for their descriptor. */
  ghost predicate Tracks(n: Node, log: Log, from: nat, fb: Fb, upto: nat) {
    && from <= |log| && upto <= |fb.respondents|
    && fb.respondents == Respondents(log, from, fb.endpoint)
    && RequestsIn(log, from) == fb.respondents[..upto]
    && Successes(log, from) == fb.bindings
    && BindsCalledFor(n, log, from, TaskOf(fb))
  }

  lemma AppendTracks(n: Node, log: Log, from: nat, task: Task, e: Entry)
    requires from <= |log| && BindsCalledFor(n, log, from, task)
    requires e.Called? && e.call.Bind? ==> CalledFor(n, log, from, task, e.call)
    ensures BindsCalledFor(n, log + [e], from, task)
    ensures RequestsIn(log + [e], from)
            == RequestsIn(log, from) + if e.Called? && e.call.SimpleDescReq? then [(e.call.address, e.call.endpoint)] else []
    ensures Successes(log + [e], from)
            == Successes(log, from) + if e.Called? && e.call.Bind? && e.refusal.None? then 1 else 0
    ensures !Answers(e, task.endpoint) || RequestsIn(log, from) != [] ==>
              Respondents(log + [e], from, task.endpoint) == Respondents(log, from, task.endpoint)
  {
    var log' := log + [e];
    assert log'[..|log|] == log;
    forall i | from <= i < |log'| && log'[i].Called? && log'[i].call.Bind?
      ensures CalledFor(n, log'[..i], from, task, log'[i].call)
    {
      if i < |log| {
        assert log'[..i] == log[..i];
      }
    }
  }

  /** An entry that is no descriptor request, bind or answer to the query. */
  predicate Neutral(e: Entry) {
    !(e.Called? && (e.call.SimpleDescReq? || e.call.Bind?)) && !(e.Observed? && e.event.IdentifyQueryResponse?)
  }

  lemma NeutralTracks(n: Node, log: Log, from: nat, fb: Fb, upto: nat, e: Entry)
    requires Tracks(n, log, from, fb, upto)
    requires Neutral(e) || (e.Observed? && (upto > 0 || !Answers(e, fb.endpoint)))
    ensures Tracks(n, log + [e], from, fb, upto)
  {
    AppendTracks(n, log, from, TaskOf(fb), e);
  }

  /** An answer heard while querying is remembered, unless it is known or there is no room. */
  lemma AnswerTracks(n: Node, log: Log, from: nat, fb: Fb, e: Event)
    requires Tracks(n, log, from, fb, 0) && e.IdentifyQueryResponse?
    ensures var who := (e.src, e.srcEndpoint);
            var fb' := if e.endpoint == fb.endpoint && |fb.respondents| < MAX_RESPONDENTS && who !in fb.respondents
                       then fb.(respondents := fb.respondents + [who]) else fb;
            Tracks(n, log + [Observed(e)], from, fb', 0)
  {
    var log' := log + [Observed(e)];
    AppendTracks(n, log, from, TaskOf(fb), Observed(e));
    assert log'[..|log|] == log;
  }

  /** A later log still has what an earlier one had. */
  lemma DescribedLater(n: Node, log: Log, e: Entry, from: nat, task: Task, cluster: U16, who: (U16, Octet))
    requires Described(n, log, from, task, cluster, who)
    ensures Described(n, log + [e], from, task, cluster, who)
  {
    var j :| from <= j < |log| && DescribedAt(n, log, j, task, cluster, who);
    assert (log + [e])[..j + 1] == log[..j + 1];
    assert DescribedAt(n, log + [e], j, task, cluster, who);
  }

  lemma ReachedLater(n: Node, log: Log, e: Entry, from: nat, task: Task, d: Destination, who: (U16, Octet))
    requires ReachedBy(n, log, from, task, d, who)
    ensures ReachedBy(n, log + [e], from, task, d, who)
  {
    if d.UnicastTo? {
      var j :| from <= j < |log| && log[j].Observed?
               && (n.ieeeOf(log[..j + 1], who.0) == Some(d.address) || log[j].event == IeeeAddress(who.0, Some(d.address)));
      assert (log + [e])[..j + 1] == log[..j + 1];
      assert (log + [e])[j] == log[j];
    }
  }

  /** Everything in `clusters` was described by `who`. */
  ghost predicate AllDescribed(n: Node, log: Log, from: nat, task: Task, clusters: seq<U16>, who: (U16, Octet)) {
    forall x :: x in clusters ==> Described(n, log, from, task, x, who)
  }

  lemma AllDescribedLater(n: Node, log: Log, e: Entry, from: nat, task: Task, clusters: seq<U16>, who: (U16, Octet))
    requires AllDescribed(n, log, from, task, clusters, who)
    ensures AllDescribed(n, log + [e], from, task, clusters, who)
  {
    forall x | x in clusters
      ensures Described(n, log + [e], from, task, x, who)
    {
      DescribedLater(n, log, e, from, task, x, who);
    }
  }

  lemma {:induction false} BindAllTracks(
    n: Node, log: Log, from: nat, task: Task, clusters: seq<U16>, d: Destination, who: (U16, Octet))
    requires from <= |log| && BindsCalledFor(n, log, from, task) && who in RequestsIn(log, from)
    requires AllDescribed(n, log, from, task, clusters, who) && ReachedBy(n, log, from, task, d, who)
    ensures var b := BindAll(n, log, task.endpoint, clusters, d);
            && from <= |b.log| && BindsCalledFor(n, b.log, from, task)
            && RequestsIn(b.log, from) == RequestsIn(log, from)
            && Respondents(b.log, from, task.endpoint) == Respondents(log, from, task.endpoint)
            && Successes(b.log, from) == Successes(log, from) + b.created
            && AllDescribed(n, b.log, from, task, clusters, who) && ReachedBy(n, b.log, from, task, d, who)
  {
    if clusters != [] {
      var k := |clusters| - 1;
      BindAllTracks(n, log, from, task, clusters[..k], d, who);
      var b := BindAll(n, log, task.endpoint, clusters[..k], d);
      BindAllDescribed(n, log, from, task, clusters[..k], clusters, d, who);
      if !b.full {
        var call := Bind(task.endpoint, clusters[k], d);
        var e := Called(call, n.refusal(b.log, call));
        AppendTracks(n, b.log, from, task, e);
        AllDescribedLater(n, b.log, e, from, task, clusters, who);
        ReachedLater(n, b.log, e, from, task, d, who);
      }
    }
  }

  lemma {:induction false} BindAllDescribed(
    n: Node, log: Log, from: nat, task: Task, clusters: seq<U16>, all: seq<U16>, d: Destination, who: (U16, Octet))
    requires AllDescribed(n, log, from, task, all, who)
    ensures AllDescribed(n, BindAll(n, log, task.endpoint, clusters, d).log, from, task, all, who)
  {
    if clusters != [] {
      var k := |clusters| - 1;
      BindAllDescribed(n, log, from, task, clusters[..k], all, d, who);
      var b := BindAll(n, log, task.endpoint, clusters[..k], d);
      if !b.full {
        var call := Bind(task.endpoint, clusters[k], d);
        AllDescribedLater(n, b.log, Called(call, n.refusal(b.log, call)), from, task, all, who);
      }
    }
  }

  // ------------------------------------------------------------------
  // Steps
  // ------------------------------------------------------------------

  /** What holds of a running procedure, and of its end. */
  ghost predicate Accounts(n: Node, from: nat, task: Task, r: Result) {
    if r.state.procedure.FindingBinding? then
      var fb := r.state.procedure.fb;
      && TaskOf(fb) == task
      && Tracks(n, r.state.log, from, fb, if fb.phase.Querying? then 0 else fb.index + 1)
      && (fb.phase.IeeeAddr? ==>
            fb.group.None? && AllDescribed(n, r.state.log, from, task, fb.pending, fb.respondents[fb.index]))
    else
      && r.state.procedure.Idle? && r.outcome.Some?
      && r.outcome.value.InitiatorEnd?
      && Ends(n, from, task, r.state.log, r.outcome.value)
  }

  /** At the end: the respondents were asked for their descriptor in order and each once, all of
      them unless the binding table filled up; only called-for binds were made, and all that
      succeeded are counted. */
  ghost predicate Ends(n: Node, from: nat, task: Task, log: Log, o: Outcome)
    requires o.InitiatorEnd?
  {
    && o.endpoint == task.endpoint
    && o.bindings == Successes(log, from)
    && RequestsIn(log, from) <= Respondents(log, from, task.endpoint)
    && (o.failure != Some(BindingTableFull) ==> RequestsIn(log, from) == Respondents(log, from, task.endpoint))
    && BindsCalledFor(n, log, from, task)
  }

  lemma {:induction false} NextAccounts(c: Config, n: Node, s: State, from: nat, fb: Fb)
    requires Tracks(n, s.log, from, fb, fb.index)
    ensures Accounts(n, from, TaskOf(fb), NextRespondent(c, n, s, fb))
    decreases |fb.respondents| - fb.index
  {
    if fb.index < |fb.respondents| {
      var who := fb.respondents[fb.index];
      var call := SimpleDescReq(who.0, who.1);
      var e := Called(call, n.refusal(s.log, call));
      AppendTracks(n, s.log, from, TaskOf(fb), e);
      assert fb.respondents[..fb.index + 1] == fb.respondents[..fb.index] + [who];
      if e.refusal.Some? {
        NextAccounts(c, n, s.(log := s.log + [e]), from, fb.(index := fb.index + 1));
      }
    } else {
      assert fb.respondents[..fb.index] == fb.respondents;
    }
  }

  lemma CreateAccounts(c: Config, n: Node, s: State, from: nat, fb: Fb, clusters: Clusters, d: Destination)
    requires SoundFb(fb) && !fb.phase.Querying? && Tracks(n, s.log, from, fb, fb.index + 1)
    requires AllDescribed(n, s.log, from, TaskOf(fb), clusters, fb.respondents[fb.index])
    requires ReachedBy(n, s.log, from, TaskOf(fb), d, fb.respondents[fb.index])
    ensures Accounts(n, from, TaskOf(fb), CreateBindings(c, n, s, fb, clusters, d))
  {
    hide RequestsIn, Respondents, Successes, BindsCalledFor, AllDescribed, ReachedBy, BindAll, NextRespondent;
    var who := fb.respondents[fb.index];
    assert who in fb.respondents[..fb.index + 1];
    BindAllTracks(n, s.log, from, TaskOf(fb), clusters, d, who);
    var b := BindAll(n, s.log, fb.endpoint, clusters, d);
    var fb1 := fb.(bindings := SaturatingAdd(fb.bindings, b.created), index := fb.index + 1);
    assert fb1.bindings == Successes(b.log, from);
    if b.full {
      assert fb.respondents[..fb.index + 1] <= fb.respondents;
    } else if b.created > 0 && fb.group.Some? {
      var call := AddGroup(who.0, who.1, fb.group.value);
      var e := Called(call, n.refusal(b.log, call));
      NeutralTracks(n, b.log, from, fb1, fb1.index, e);
      NextAccounts(c, n, s.(log := b.log + [e]), from, fb1);
    } else {
      NextAccounts(c, n, s.(log := b.log), from, fb1);
    }
  }

  /** The clusters picked from a descriptor that just arrived were described by it. */
  lemma MatchesDescribed(n: Node, log: Log, from: nat, task: Task, e: Event)
    requires from <= |log| && e.SimpleDescriptor? && e.success
    ensures var log' := log + [Observed(e)];
            var matches := MatchingIn(n.localClusters(log', task.endpoint), task.filter, e.inputs, e.outputs);
            AllDescribed(n, log', from, task, matches, (e.src, e.endpoint))
  {
    var log' := log + [Observed(e)];
    assert log'[..|log| + 1] == log';
    forall x | x in MatchingIn(n.localClusters(log', task.endpoint), task.filter, e.inputs, e.outputs)
      ensures Described(n, log', from, task, x, (e.src, e.endpoint))
    {
      assert DescribedAt(n, log', |log|, task, x, (e.src, e.endpoint));
    }
  }

  lemma BindMatchesAccounts(c: Config, n: Node, s: State, from: nat, fb: Fb, e: Event)
    requires SoundFb(fb) && fb.phase.SimpleDesc? && from <= |s.log|
    requires e.SimpleDescriptor? && e.success && fb.respondents[fb.index] == (e.src, e.endpoint)
    requires Tracks(n, s.log + [Observed(e)], from, fb, fb.index + 1)
    ensures var r := BindMatches(c, n, s.(log := s.log + [Observed(e)]), fb, e.inputs, e.outputs);
            Accounts(n, from, TaskOf(fb), r)
  {
    hide RequestsIn, Respondents, Successes, BindsCalledFor, AllDescribed, Ends, MatchingIn, CreateBindings, NextRespondent;
    var s' := s.(log := s.log + [Observed(e)]);
    MatchesDescribed(n, s.log, from, TaskOf(fb), e);
    var matches := MatchingIn(n.localClusters(s'.log, fb.endpoint), fb.filter, e.inputs, e.outputs);
    var known := n.ieeeOf(s'.log, e.src);
    if matches == [] {
      NextAccounts(c, n, s', from, fb.(index := fb.index + 1));
    } else if fb.group.Some? {
      CreateAccounts(c, n, s', from, fb, matches, GroupTo(fb.group.value));
    } else if known.Some? {
      assert s'.log[..|s.log| + 1] == s'.log && s'.log[|s.log|].Observed?;
      CreateAccounts(c, n, s', from, fb, matches, UnicastTo(known.value, e.endpoint));
    } else {
      var call := IeeeAddrReq(e.src);
      var entry := Called(call, n.refusal(s'.log, call));
      NeutralTracks(n, s'.log, from, fb, fb.index + 1, entry);
      AllDescribedLater(n, s'.log, entry, from, TaskOf(fb), matches, (e.src, e.endpoint));
      if entry.refusal.Some? {
        var waiting := fb.(pending := matches, phase := IeeeAddr, index := fb.index + 1);
        NextAccounts(c, n, s'.(log := s'.log + [entry]), from, waiting);
      }
    }
  }

  /** Anything that leaves the procedure alone only adds entries that do not matter to it. */
  lemma IdleEntryAccounts(n: Node, s: State, from: nat, fb: Fb, e: Entry, s': State)
    requires s.procedure == FindingBinding(fb) && SoundFb(fb) && Accounts(n, from, TaskOf(fb), Running(s))
    requires Neutral(e) || (e.Observed? && (!fb.phase.Querying? || !Answers(e, fb.endpoint)))
    requires s'.procedure == s.procedure && s'.log == s.log + [e]
    ensures Accounts(n, from, TaskOf(fb), Running(s'))
  {
    hide Ends;
    NeutralTracks(n, s.log, from, fb, if fb.phase.Querying? then 0 else fb.index + 1, e);
    if fb.phase.IeeeAddr? {
      AllDescribedLater(n, s.log, e, from, TaskOf(fb), fb.pending, fb.respondents[fb.index]);
    }
  }

  lemma QueryAccounts(c: Config, n: Node, s: State, from: nat, fb: Fb, e: Event)
    requires s.procedure == FindingBinding(fb) && Accounts(n, from, TaskOf(fb), Running(s))
    requires fb.phase.Querying? && SoundFb(fb)
    ensures var r := OnFindingBinding(c, n, s.(log := s.log + [Observed(e)]), fb, e);
            Accounts(n, from, TaskOf(fb), r)
  {
    hide Tracks, Ends;
    if e.IdentifyQueryResponse? {
      AnswerTracks(n, s.log, from, fb, e);
    } else {
      NeutralTracks(n, s.log, from, fb, 0, Observed(e));
    }
  }

  /** The respondent that was asked answers, or something else happens. */
  lemma ReplyAccounts(c: Config, n: Node, s: State, from: nat, fb: Fb, e: Event)
    requires s.procedure == FindingBinding(fb) && SoundFb(fb) && Accounts(n, from, TaskOf(fb), Running(s))
    requires !fb.phase.Querying?
    ensures var r := OnFindingBinding(c, n, s.(log := s.log + [Observed(e)]), fb, e);
            Accounts(n, from, TaskOf(fb), r)
  {
    assert from <= |s.log|;
    hide Ends;
    var s' := s.(log := s.log + [Observed(e)]);
    IdleEntryAccounts(n, s, from, fb, Observed(e), s');
    assert Tracks(n, s'.log, from, fb, fb.index + 1);
    hide Accounts, Tracks, AllDescribed, BindMatches, CreateBindings, NextRespondent;
    if fb.phase.SimpleDesc? && e.SimpleDescriptor? && fb.respondents[fb.index] == (e.src, e.endpoint) {
      if e.success {
        BindMatchesAccounts(c, n, s, from, fb, e);
      } else {
        NextAccounts(c, n, s', from, fb.(index := fb.index + 1));
      }
    } else if fb.phase.IeeeAddr? && e.IeeeAddress? && fb.respondents[fb.index].0 == e.short {
      if e.ieee.Some? {
        assert s'.log[|s.log|] == Observed(IeeeAddress(e.short, Some(e.ieee.value)));
        CreateAccounts(c, n, s', from, fb, fb.pending, UnicastTo(e.ieee.value, fb.respondents[fb.index].1));
      } else {
        NextAccounts(c, n, s', from, fb.(index := fb.index + 1));
      }
    }
  }

  lemma ExpiryAccounts(c: Config, n: Node, s: State, from: nat, fb: Fb, now: Instant)
    requires s.procedure == FindingBinding(fb) && SoundFb(fb) && Accounts(n, from, TaskOf(fb), Running(s))
    ensures var r := Expired(c, n, s.(log := s.log + [Ticked(now)], deadline := None), now);
            Accounts(n, from, TaskOf(fb), r)
  {
    var s' := s.(log := s.log + [Ticked(now)], deadline := None);
    NeutralTracks(n, s.log, from, fb, if fb.phase.Querying? then 0 else fb.index + 1, Ticked(now));
    if !fb.phase.Querying? {
      NextAccounts(c, n, s', from, fb.(index := fb.index + 1));
    } else if fb.respondents != [] {
      NextAccounts(c, n, s', from, fb);
    }
  }

  lemma StepAccounts(c: Config, n: Node, s: State, from: nat, fb: Fb, i: Input)
    requires s.procedure == FindingBinding(fb) && Inv(c, s) && Accounts(n, from, TaskOf(fb), Running(s))
    ensures Accounts(n, from, TaskOf(fb), Step(c, n, s, i))
  {
    hide OnFindingBinding, Expired, Tracks, AllDescribed, Ends;
    match i
    case DoEvent(e) =>
      if e.IdentifyTime? && e.seconds == 0 && e.endpoint in s.targets {
        IdleEntryAccounts(n, s, from, fb, Observed(e), OnEvent(c, n, s, e).state);
      } else if fb.phase.Querying? {
        QueryAccounts(c, n, s, from, fb, e);
      } else {
        ReplyAccounts(c, n, s, from, fb, e);
      }
    case DoPoll(now) =>
      if s.deadline.Some? && now >= s.deadline.value {
        ExpiryAccounts(c, n, s, from, fb, now);
      } else {
        IdleEntryAccounts(n, s, from, fb, Ticked(now), Poll(c, n, s, now).state);
      }
    case DoTarget(endpoint) =>
      if s.onNetwork {
        var call := Identify(endpoint, CommissioningTime(c));
        IdleEntryAccounts(n, s, from, fb, Called(call, n.refusal(s.log, call)), StartTarget(c, n, s, endpoint).state);
      }
    case _ =>
  }

  lemma StartAccounts(c: Config, n: Node, s: State, i: Input)
    requires i.DoInitiator? && s.procedure.Idle?
    ensures var r := Step(c, n, s, i);
            r.refused.None? ==>
              r.state.procedure.FindingBinding? && Accounts(n, |s.log|, Task(i.initiator, i.group, Kept(i.clusters)), r)
  {
    var r := Step(c, n, s, i);
    if r.refused.None? {
      var call := IdentifyQuery(i.initiator);
      AppendTracks(n, s.log, |s.log|, TaskOf(r.state.procedure.fb), Called(call, n.refusal(s.log, call)));
    }
  }

  /** One finding & binding run, from its start to its end or to now. */
  lemma {:induction false} FindingBindingRun(
    c: Config, n: Node, inputs: seq<Input>, results: seq<Result>, a: nat, b: nat)
    requires IsRun(c, n, inputs, results) && a < b <= |inputs| && Inv(c, results[0].state)
    requires inputs[a].DoInitiator? && results[a].state.procedure.Idle? && results[a + 1].refused.None?
    requires Throughout(results, a + 1, b)
    ensures results[a + 1].state.procedure.FindingBinding?
    ensures var task := Task(inputs[a].initiator, inputs[a].group, Kept(inputs[a].clusters));
            Accounts(n, |results[a].state.log|, task, results[b])
    decreases b
  {
    hide Tracks, AllDescribed, Ends, BindsCalledFor, Respondents, RequestsIn, Successes, OnEvent, Poll, StartTarget;
    assert results[a + 1] == Step(c, n, results[a].state, inputs[a]);
    assert results[b - 1 + 1] == Step(c, n, results[b - 1].state, inputs[b - 1]);
    if b == a + 1 {
      StartAccounts(c, n, results[a].state, inputs[a]);
    } else {
      FindingBindingRun(c, n, inputs, results, a, b - 1);
      RunInv(c, n, inputs, results, b - 1);
      var s := results[b - 1].state;
      StepAccounts(c, n, s, |results[a].state.log|, s.procedure.fb, inputs[b - 1]);
    }
  }
}
