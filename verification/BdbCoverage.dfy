/**
 Finding & binding leaves nothing out: every matching cluster of a device that was asked
 and answered is bound before the next device is asked or the procedure ends, and every
 device whose group bindings were made is put into the group.
 */
module BdbCoverage {
  import opened Types
  import opened Bdb
  import opened BdbProgress
  import opened BdbBinding

  // ------------------------------------------------------------------
  // The turn of one respondent
  // ------------------------------------------------------------------

  predicate IsRequest(e: Entry) {
    e.Called? && e.call.SimpleDescReq?
  }

  /** Where the last descriptor request since `from` is; its respondent's turn starts there. */
  function LastRequest(log: Log, from: nat): (i: Option<nat>)
    ensures i.Some? ==> from <= i.value < |log| && IsRequest(log[i.value])
  {
    if |log| <= from then None
    else if IsRequest(log[|log| - 1]) then Some(|log| - 1)
    else LastRequest(log[..|log| - 1], from)
  }

  /** The respondent whose turn it is, if the node took the request. */
  function Asked(log: Log, from: nat): Option<(U16, Octet)> {
    var i := LastRequest(log, from);
    if i.None? || log[i.value].refusal.Some? then None
    else Some((log[i.value].call.address, log[i.value].call.endpoint))
  }

  predicate DescribesItself(e: Entry, who: (U16, Octet)) {
    e.Observed? && e.event.SimpleDescriptor? && (e.event.src, e.event.endpoint) == who
  }

  /** Where the first descriptor of the respondent in its turn is. */
  function Descriptor(log: Log, from: nat): (j: Option<nat>)
    ensures j.Some? ==> from <= j.value < |log| && log[j.value].Observed? && log[j.value].event.SimpleDescriptor?
  {
    if |log| <= from || IsRequest(log[|log| - 1]) then None
    else
      var before, who := Descriptor(log[..|log| - 1], from), Asked(log[..|log| - 1], from);
      if before.Some? then before
      else if who.Some? && DescribesItself(log[|log| - 1], who.value) then Some(|log| - 1)
      else None
  }

  /** The first address reported for `short` after entry `j`. */
  function AddressSince(log: Log, j: nat, short: U16): Option<Option<Address64>> {
    if |log| <= j + 1 then None
    else
      var before, e := AddressSince(log[..|log| - 1], j, short), log[|log| - 1];
      if before.Some? then before
      else if e.Observed? && e.event.IeeeAddress? && e.event.short == short then Some(e.event.ieee)
      else None
  }

  /** Where the binds for the descriptor at `j` go: to the group, or to the address known then or reported next. */
  ghost predicate Meant(n: Node, log: Log, task: Task, j: nat, d: Destination)
    requires j < |log| && log[j].Observed? && log[j].event.SimpleDescriptor?
  {
    var (src, endpoint) := (log[j].event.src, log[j].event.endpoint);
    var known := n.ieeeOf(log[..j + 1], src);
    match d
    case GroupTo(g) => task.group == Some(g)
    case UnicastTo(ieee, e) =>
      && task.group.None? && e == endpoint
      && (if known.Some? then known == Some(ieee) else AddressSince(log, j, src) == Some(Some(ieee)))
  }

  /** The cluster was bound after the descriptor at `j`, to where it is meant to go. */
  ghost predicate BoundSince(n: Node, log: Log, task: Task, j: nat, cluster: U16)
    requires j < |log| && log[j].Observed? && log[j].event.SimpleDescriptor?
  {
    exists k :: j < k < |log| && log[k].Called? && log[k].call.Bind? && log[k].call.endpoint == task.endpoint
                && log[k].call.cluster == cluster && Meant(n, log[..k], task, j, log[k].call.destination)
  }

  ghost predicate FullSince(log: Log, j: nat) {
    exists k :: j < k < |log| && log[k].Called? && log[k].call.Bind? && log[k].refusal == Some(TableFull)
  }

  ghost predicate SomeBoundSince(log: Log, j: nat) {
    exists k :: j < k < |log| && log[k].Called? && log[k].call.Bind? && log[k].refusal.None?
  }

  /** The address is not known, was asked for, and that was refused, not answered or answered without one. */
  ghost predicate NoAddress(n: Node, log: Log, task: Task, j: nat)
    requires j < |log| && log[j].Observed? && log[j].event.SimpleDescriptor?
  {
    var src := log[j].event.src;
    && task.group.None? && n.ieeeOf(log[..j + 1], src).None?
    && j + 1 < |log| && log[j + 1].Called? && log[j + 1].call == IeeeAddrReq(src)
    && (log[j + 1].refusal.Some? || AddressSince(log, j, src) == None || AddressSince(log, j, src) == Some(None))
  }

  /** The clusters a descriptor calls for are all bound, unless the table filled up or there is no address. */
  ghost predicate AllBound(n: Node, log: Log, task: Task, j: nat)
    requires j < |log| && log[j].Observed? && log[j].event.SimpleDescriptor?
  {
    forall x :: DescribedAt(n, log, j, task, x, (log[j].event.src, log[j].event.endpoint)) ==>
      BoundSince(n, log, task, j, x) || FullSince(log, j) || NoAddress(n, log, task, j)
  }

  predicate AddsGroup(e: Entry) {
    e.Called? && e.call.AddGroup?
  }

  /** The respondent at `j` was put into the group, exactly when a group was asked for and one of its binds
      was made, and the table did not fill up. */
  ghost predicate GroupAdded(log: Log, task: Task, j: nat)
    requires j < |log| && log[j].Observed? && log[j].event.SimpleDescriptor?
  {
    && ((exists k :: j < k < |log| && AddsGroup(log[k])) <==>
        task.group.Some? && SomeBoundSince(log, j) && !FullSince(log, j))
    && (forall k :: j < k < |log| && AddsGroup(log[k]) ==>
          task.group.Some? && log[k].call == AddGroup(log[j].event.src, log[j].event.endpoint, task.group.value))
  }

  /** Nothing is left to do for the respondent whose turn it is. */
  ghost predicate TurnDone(c: Config, n: Node, log: Log, from: nat, task: Task) {
    var j := Descriptor(log, from);
    && Patient(c, n, log, from, task)
    && if j.Some? && log[j.value].event.success then AllBound(n, log, task, j.value) && GroupAdded(log, task, j.value)
       else forall k :: TurnStart(log, from) <= k < |log| ==> !AddsGroup(log[k])
  }

  /** The last thing that happened is that the clock reached `t`. */
  predicate Overdue(log: Log, t: Instant) {
    |log| > 0 && log[|log| - 1].Ticked? && log[|log| - 1].now >= t
  }

  /** The address that goes with the descriptor at `j` is awaited and was not reported yet. */
  ghost predicate AddressDue(n: Node, log: Log, task: Task, j: nat)
    requires j < |log| && log[j].Observed? && log[j].event.SimpleDescriptor?
  {
    var src := log[j].event.src;
    && task.group.None? && n.ieeeOf(log[..j + 1], src).None? && j + 1 < |log|
    && log[j + 1] == Called(IeeeAddrReq(src), None) && AddressSince(log, j, src) == None
  }

  /** Whoever did not answer was given its whole time: the respondents to the query, the one asked for its
      descriptor, and the one whose address was asked for. */
  ghost predicate Patient(c: Config, n: Node, log: Log, from: nat, task: Task) {
    var j := Descriptor(log, from);
    && (LastRequest(log, from).None? && from < |log| ==>
          Overdue(log, After(n.now(log[..from + 1]), c.identifyQueryTimeout)))
    && (Asked(log, from).Some? && j.None? ==> Overdue(log, After(n.now(log[..TurnStart(log, from) + 1]), c.zdoTimeout)))
    && (j.Some? && AddressDue(n, log, task, j.value) ==> Overdue(log, After(n.now(log[..j.value + 2]), c.zdoTimeout)))
  }

  function TurnStart(log: Log, from: nat): nat {
    var i := LastRequest(log, from);
    if i.Some? then i.value else from
  }

  /** Every turn that is over was done. */
  ghost predicate Covered(c: Config, n: Node, log: Log, from: nat, task: Task) {
    |log| <= from
    || var before := log[..|log| - 1];
       Covered(c, n, before, from, task) && (IsRequest(log[|log| - 1]) ==> TurnDone(c, n, before, from, task))
  }

  // ------------------------------------------------------------------
  // One entry more
  // ------------------------------------------------------------------

  lemma TurnAppended(c: Config, n: Node, log: Log, from: nat, task: Task, e: Entry)
    requires from <= |log|
    ensures !IsRequest(e) ==>
              && LastRequest(log + [e], from) == LastRequest(log, from) && Asked(log + [e], from) == Asked(log, from)
              && Covered(c, n, log + [e], from, task) == Covered(c, n, log, from, task)
              && (Descriptor(log, from).Some? ==> Descriptor(log + [e], from) == Descriptor(log, from))
              && (Descriptor(log, from).None? ==>
                    Descriptor(log + [e], from)
                    == if Asked(log, from).Some? && DescribesItself(e, Asked(log, from).value) then Some(|log|) else None)
    ensures IsRequest(e) ==>
              && LastRequest(log + [e], from) == Some(|log|) && Descriptor(log + [e], from).None?
              && Asked(log + [e], from) == (if e.refusal.None? then Some((e.call.address, e.call.endpoint)) else None)
              && Covered(c, n, log + [e], from, task) == (Covered(c, n, log, from, task) && TurnDone(c, n, log, from, task))
  {
    assert (log + [e])[..|log|] == log;
  }

  lemma {:induction false} DescriptorIsAsked(log: Log, from: nat)
    ensures Descriptor(log, from).Some? ==>
              Asked(log, from).Some? && DescribesItself(log[Descriptor(log, from).value], Asked(log, from).value)
  {
    if |log| > from && !IsRequest(log[|log| - 1]) {
      DescriptorIsAsked(log[..|log| - 1], from);
    }
  }

  /** Once there is a descriptor, only the address may be waited for. */
  lemma PatientOnceDescribed(c: Config, n: Node, log: Log, from: nat, task: Task, j: nat)
    requires Descriptor(log, from) == Some(j)
    requires AddressDue(n, log, task, j) ==> Overdue(log, After(n.now(log[..j + 2]), c.zdoTimeout))
    ensures Patient(c, n, log, from, task)
  {
    hide AddressDue, LastRequest, Descriptor;
    DescriptorIsAsked(log, from);
  }

  lemma AddressAppended(log: Log, j: nat, short: U16, e: Entry)
    requires j < |log|
    ensures AddressSince(log + [e], j, short)
            == if AddressSince(log, j, short).None? && e.Observed? && e.event.IeeeAddress? && e.event.short == short
               then Some(e.event.ieee)
               else AddressSince(log, j, short)
  {
    assert (log + [e])[..|log|] == log;
  }

  /** What was done stays done. */
  lemma BoundStays(n: Node, log: Log, task: Task, j: nat, x: U16, e: Entry)
    requires j < |log| && log[j].Observed? && log[j].event.SimpleDescriptor? && BoundSince(n, log, task, j, x)
    ensures BoundSince(n, log + [e], task, j, x)
  {
    var k :| j < k < |log| && log[k].Called? && log[k].call.Bind? && log[k].call.endpoint == task.endpoint
             && log[k].call.cluster == x && Meant(n, log[..k], task, j, log[k].call.destination);
    assert (log + [e])[..k] == log[..k] && (log + [e])[k] == log[k];
  }

  lemma FullStays(log: Log, j: nat, e: Entry)
    requires FullSince(log, j)
    ensures FullSince(log + [e], j)
  {
    var k :| j < k < |log| && log[k].Called? && log[k].call.Bind? && log[k].refusal == Some(TableFull);
    assert (log + [e])[k] == log[k];
  }

  lemma DescribedSame(n: Node, log: Log, task: Task, j: nat, x: U16, who: (U16, Octet), e: Entry)
    requires j < |log|
    ensures DescribedAt(n, log + [e], j, task, x, who) == DescribedAt(n, log, j, task, x, who)
  {
    assert (log + [e])[..j + 1] == log[..j + 1];
  }

  // ------------------------------------------------------------------
  // The bind calls of one turn
  // ------------------------------------------------------------------

  predicate IsBind(e: Entry) {
    e.Called? && e.call.Bind?
  }

  /** Nothing was bound or put into a group after `j` yet. */
  predicate Untouched(log: Log, j: nat) {
    forall k :: j < k < |log| ==> !IsBind(log[k]) && !AddsGroup(log[k])
  }

  lemma MeantStays(n: Node, log: Log, task: Task, j: nat, d: Destination, e: Entry)
    requires j < |log| && log[j].Observed? && log[j].event.SimpleDescriptor? && Meant(n, log, task, j, d)
    ensures Meant(n, log + [e], task, j, d)
  {
    assert (log + [e])[..j + 1] == log[..j + 1];
    AddressAppended(log, j, log[j].event.src, e);
  }

  /** A bind call more binds its cluster. */
  lemma BoundNow(n: Node, log: Log, task: Task, j: nat, x: U16, d: Destination, e: Entry)
    requires j < |log| && log[j].Observed? && log[j].event.SimpleDescriptor? && Meant(n, log, task, j, d)
    requires e.Called? && e.call == Bind(task.endpoint, x, d)
    ensures BoundSince(n, log + [e], task, j, x)
  {
    var log' := log + [e];
    assert log'[..|log|] == log && log'[|log|] == e;
  }

  /** The binds of a list: each is made until the table is full, and nothing else is done. */
  lemma {:induction false} BindTurn(
    c: Config, n: Node, log: Log, from: nat, task: Task, j: nat, clusters: seq<U16>, d: Destination)
    requires from <= |log| && Descriptor(log, from) == Some(j) && Meant(n, log, task, j, d)
    ensures var b := BindAll(n, log, task.endpoint, clusters, d);
            && log <= b.log && (forall k :: |log| <= k < |b.log| ==> IsBind(b.log[k]))
            && Descriptor(b.log, from) == Some(j) && Covered(c, n, b.log, from, task) == Covered(c, n, log, from, task)
            && Meant(n, b.log, task, j, d)
            && (!b.full ==> forall x :: x in clusters ==> BoundSince(n, b.log, task, j, x))
            && (b.full <==> exists k :: |log| <= k < |b.log| && IsBind(b.log[k]) && b.log[k].refusal == Some(TableFull))
            && (b.created > 0 <==> exists k :: |log| <= k < |b.log| && IsBind(b.log[k]) && b.log[k].refusal.None?)
  {
    if clusters != [] {
      var m := |clusters| - 1;
      BindTurn(c, n, log, from, task, j, clusters[..m], d);
      var b := BindAll(n, log, task.endpoint, clusters[..m], d);
      if !b.full {
        var call := Bind(task.endpoint, clusters[m], d);
        var e := Called(call, n.refusal(b.log, call));
        BindTurnStep(c, n, log, from, task, j, clusters, d, b, e);
      }
    }
  }

  lemma BindTurnStep(
    c: Config, n: Node, log: Log, from: nat, task: Task, j: nat, clusters: seq<U16>, d: Destination, b: Bound, e: Entry)
    requires from <= |log| <= |b.log| && log <= b.log && clusters != [] && !b.full
    requires forall k :: |log| <= k < |b.log| ==> IsBind(b.log[k])
    requires Descriptor(b.log, from) == Some(j) && Meant(n, b.log, task, j, d)
    requires forall x :: x in clusters[..|clusters| - 1] ==> BoundSince(n, b.log, task, j, x)
    requires forall k :: |log| <= k < |b.log| && IsBind(b.log[k]) ==> b.log[k].refusal != Some(TableFull)
    requires b.created > 0 <==> exists k :: |log| <= k < |b.log| && IsBind(b.log[k]) && b.log[k].refusal.None?
    requires e.Called? && e.call == Bind(task.endpoint, clusters[|clusters| - 1], d)
    ensures var log' := b.log + [e];
            && log <= log' && (forall k :: |log| <= k < |log'| ==> IsBind(log'[k]))
            && Descriptor(log', from) == Some(j) && Covered(c, n, log', from, task) == Covered(c, n, b.log, from, task)
            && Meant(n, log', task, j, d)
            && (forall x :: x in clusters ==> BoundSince(n, log', task, j, x))
            && (e.refusal == Some(TableFull) <==>
                exists k :: |log| <= k < |log'| && IsBind(log'[k]) && log'[k].refusal == Some(TableFull))
            && (b.created > 0 || e.refusal.None? <==>
                exists k :: |log| <= k < |log'| && IsBind(log'[k]) && log'[k].refusal.None?)
  {
    hide Covered, Descriptor, Meant, BoundSince;
    var log' := b.log + [e];
    TurnAppended(c, n, b.log, from, task, e);
    MeantStays(n, b.log, task, j, d, e);
    BoundNow(n, b.log, task, j, clusters[|clusters| - 1], d, e);
    forall x | x in clusters
      ensures BoundSince(n, log', task, j, x)
    {
      if x in clusters[..|clusters| - 1] {
        BoundStays(n, b.log, task, j, x, e);
      }
    }
    assert log'[|b.log|] == e;
    if b.created > 0 {
      var k :| |log| <= k < |b.log| && IsBind(b.log[k]) && b.log[k].refusal.None?;
      assert log'[k] == b.log[k];
    }
  }

  // ------------------------------------------------------------------
  // Steps
  // ------------------------------------------------------------------

  /** What is known while a respondent's turn lasts. */
  ghost predicate Turn(c: Config, n: Node, s: State, from: nat, fb: Fb) {
    var log := s.log;
    && from < |log| && Covered(c, n, log, from, TaskOf(fb))
    && (forall k :: TurnStart(log, from) <= k < |log| ==> !AddsGroup(log[k]))
    && match fb.phase
       case Querying =>
         LastRequest(log, from).None? && s.deadline == Some(After(n.now(log[..from + 1]), c.identifyQueryTimeout))
       case SimpleDesc =>
         && fb.index < |fb.respondents| && Asked(log, from) == Some(fb.respondents[fb.index]) && Descriptor(log, from).None?
         && s.deadline == Some(After(n.now(log[..TurnStart(log, from) + 1]), c.zdoTimeout))
       case IeeeAddr =>
         && fb.index < |fb.respondents| && Descriptor(log, from).Some? && var j := Descriptor(log, from).value;
         && j + 1 < |log| && Waits(n, log, fb, j) && s.deadline == Some(After(n.now(log[..j + 2]), c.zdoTimeout))
  }

  /** The descriptor at `j` was taken and the address is being asked for. */
  ghost predicate Waits(n: Node, log: Log, fb: Fb, j: nat)
    requires fb.index < |fb.respondents| && j + 1 < |log|
  {
    && DescribesItself(log[j], fb.respondents[fb.index]) && log[j].event.success && Untouched(log, j)
    && var e := log[j].event;
    && fb.pending == MatchingIn(n.localClusters(log[..j + 1], fb.endpoint), fb.filter, e.inputs, e.outputs)
    && fb.group.None? && n.ieeeOf(log[..j + 1], e.src).None?
    && log[j + 1] == Called(IeeeAddrReq(e.src), None) && AddressSince(log, j, e.src) == None
  }

  /** A running procedure, or one that ended with all its turns done. */
  ghost predicate Covers(c: Config, n: Node, from: nat, task: Task, r: Result) {
    if r.state.procedure.FindingBinding? then
      TaskOf(r.state.procedure.fb) == task && Turn(c, n, r.state, from, r.state.procedure.fb)
    else Covered(c, n, r.state.log, from, task) && TurnDone(c, n, r.state.log, from, task)
  }

  lemma {:induction false} NextCovers(c: Config, n: Node, s: State, from: nat, fb: Fb)
    requires from < |s.log| && Covered(c, n, s.log, from, TaskOf(fb)) && TurnDone(c, n, s.log, from, TaskOf(fb))
    ensures Covers(c, n, from, TaskOf(fb), NextRespondent(c, n, s, fb))
    decreases |fb.respondents| - fb.index
  {
    if fb.index < |fb.respondents| {
      var call := SimpleDescReq(fb.respondents[fb.index].0, fb.respondents[fb.index].1);
      var e := Called(call, n.refusal(s.log, call));
      RequestCovers(c, n, s, from, fb, e);
      if e.refusal.Some? {
        NextCovers(c, n, s.(log := s.log + [e]), from, fb.(index := fb.index + 1));
      }
    }
  }

  lemma RequestCovers(c: Config, n: Node, s: State, from: nat, fb: Fb, e: Entry)
    requires from < |s.log| && Covered(c, n, s.log, from, TaskOf(fb)) && TurnDone(c, n, s.log, from, TaskOf(fb))
    requires fb.index < |fb.respondents| && e.Called?
    requires e.call == SimpleDescReq(fb.respondents[fb.index].0, fb.respondents[fb.index].1)
    ensures var log := s.log + [e];
            if e.refusal.None? then
              Turn(c, n, s.(log := log, deadline := Some(After(n.now(log), c.zdoTimeout))), from, fb.(phase := SimpleDesc))
            else Covered(c, n, log, from, TaskOf(fb)) && TurnDone(c, n, log, from, TaskOf(fb))
  {
    hide Covered, AllBound, GroupAdded, Descriptor, LastRequest;
    TurnAppended(c, n, s.log, from, TaskOf(fb), e);
    assert (s.log + [e])[..|s.log| + 1] == s.log + [e];
  }

  /** Every cluster a descriptor calls for is among the matches. */
  lemma {:induction false} MatchingIsComplete(
    local: seq<LocalCluster>, filter: seq<U16>, inputs: seq<U16>, outputs: seq<U16>, l: LocalCluster)
    requires l in local && OnBothSides(l, inputs, outputs) && Selected(filter, l)
    ensures l.id in MatchingIn(local, filter, inputs, outputs)
  {
    var m := |local| - 1;
    if l != local[m] {
      assert l in local[..m];
      MatchingIsComplete(local[..m], filter, inputs, outputs, l);
    }
  }

  lemma WantedIsMatched(n: Node, log: Log, task: Task, j: nat, x: U16, who: (U16, Octet))
    requires j < |log| && DescribedAt(n, log, j, task, x, who)
    ensures x in MatchingIn(n.localClusters(log[..j + 1], task.endpoint), task.filter,
                            log[j].event.inputs, log[j].event.outputs)
  {
    var e := log[j].event;
    var local := n.localClusters(log[..j + 1], task.endpoint);
    var l :| l in local && l.id == x && OnBothSides(l, e.inputs, e.outputs) && Selected(task.filter, l);
    MatchingIsComplete(local, task.filter, e.inputs, e.outputs, l);
  }

  /** After the binds, and the group command where one is due, the turn is done. */
  lemma TurnIsDone(c: Config, n: Node, before: Log, log: Log, from: nat, task: Task, j: nat, full: bool, created: bool)
    requires from <= |before| && before <= log && Descriptor(log, from) == Some(j) && j < |before| && Untouched(before, j)
    requires log[j].event.success && !AddressDue(n, log, task, j)
    requires forall k :: |before| <= k < |log| ==> IsBind(log[k]) || (k == |log| - 1 && AddsGroup(log[k]))
    requires full <==> exists k :: |before| <= k < |log| && IsBind(log[k]) && log[k].refusal == Some(TableFull)
    requires created <==> exists k :: |before| <= k < |log| && IsBind(log[k]) && log[k].refusal.None?
    requires !full ==> AllBound(n, log, task, j)
    requires (|log| > |before| && AddsGroup(log[|log| - 1])) <==> created && task.group.Some? && !full
    requires |log| > |before| && AddsGroup(log[|log| - 1]) ==>
               && task.group.Some?
               && log[|log| - 1].call == AddGroup(log[j].event.src, log[j].event.endpoint, task.group.value)
    ensures TurnDone(c, n, log, from, task)
  {
    hide Descriptor, DescribedAt, BoundSince, NoAddress, AddressDue, Patient;
    PatientOnceDescribed(c, n, log, from, task, j);
    assert forall k :: 0 <= k < |before| ==> log[k] == before[k];
    assert FullSince(log, j) <==> full;
    assert SomeBoundSince(log, j) <==> created;
    assert (exists k :: j < k < |log| && AddsGroup(log[k])) <==> |log| > |before| && AddsGroup(log[|log| - 1]);
  }

  lemma CreateCovers(c: Config, n: Node, s: State, from: nat, fb: Fb, clusters: Clusters, d: Destination, j: nat)
    requires from < |s.log| && Covered(c, n, s.log, from, TaskOf(fb)) && fb.index < |fb.respondents|
    requires Descriptor(s.log, from) == Some(j) && DescribesItself(s.log[j], fb.respondents[fb.index]) && s.log[j].event.success
    requires Untouched(s.log, j) && Meant(n, s.log, TaskOf(fb), j, d)
    requires var e := s.log[j].event;
             clusters == MatchingIn(n.localClusters(s.log[..j + 1], fb.endpoint), fb.filter, e.inputs, e.outputs)
    ensures Covers(c, n, from, TaskOf(fb), CreateBindings(c, n, s, fb, clusters, d))
  {
    hide Covered, Descriptor, Meant, BoundSince, MatchingIn, BindAll, NextRespondent, TurnDone, Turn;
    var task, who := TaskOf(fb), fb.respondents[fb.index];
    BindTurn(c, n, s.log, from, task, j, clusters, d);
    var b := BindAll(n, s.log, fb.endpoint, clusters, d);
    BindsAreAll(n, s.log, b.log, task, j, clusters, b.full);
    if b.full || b.created == 0 || fb.group.None? {
      TurnIsDone(c, n, s.log, b.log, from, task, j, b.full, b.created > 0);
      if !b.full {
        NextCovers(c, n, s.(log := b.log), from, fb.(bindings := SaturatingAdd(fb.bindings, b.created), index := fb.index + 1));
      }
    } else {
      var call := AddGroup(who.0, who.1, fb.group.value);
      var e := Called(call, n.refusal(b.log, call));
      GroupIsAdded(c, n, s.log, b.log, from, task, j, e);
      NextCovers(c, n, s.(log := b.log + [e]), from, fb.(bindings := SaturatingAdd(fb.bindings, b.created), index := fb.index + 1));
    }
  }

  lemma BindsAreAll(n: Node, before: Log, log: Log, task: Task, j: nat, clusters: seq<U16>, full: bool)
    requires before <= log && j < |before| && before[j].Observed? && before[j].event.SimpleDescriptor?
    requires var e := before[j].event;
             clusters == MatchingIn(n.localClusters(before[..j + 1], task.endpoint), task.filter, e.inputs, e.outputs)
    requires !full ==> forall x :: x in clusters ==> BoundSince(n, log, task, j, x)
    ensures !full ==> AllBound(n, log, task, j)
  {
    hide BoundSince, DescribedAt, MatchingIn, NoAddress;
    assert log[..j + 1] == before[..j + 1];
    var who := (log[j].event.src, log[j].event.endpoint);
    forall x | !full && DescribedAt(n, log, j, task, x, who)
      ensures BoundSince(n, log, task, j, x)
    {
      WantedIsMatched(n, log, task, j, x, who);
    }
  }

  lemma GroupIsAdded(c: Config, n: Node, before: Log, log: Log, from: nat, task: Task, j: nat, e: Entry)
    requires from <= |before| && before <= log && Descriptor(log, from) == Some(j) && j < |before| && Untouched(before, j)
    requires log[j].event.success && AllBound(n, log, task, j) && task.group.Some?
    requires forall k :: |before| <= k < |log| ==> IsBind(log[k])
    requires !exists k :: |before| <= k < |log| && IsBind(log[k]) && log[k].refusal == Some(TableFull)
    requires exists k :: |before| <= k < |log| && IsBind(log[k]) && log[k].refusal.None?
    requires e.Called? && e.call == AddGroup(log[j].event.src, log[j].event.endpoint, task.group.value)
    ensures TurnDone(c, n, log + [e], from, task) && Covered(c, n, log + [e], from, task) == Covered(c, n, log, from, task)
  {
    hide Covered, Descriptor, BoundSince, DescribedAt, NoAddress, TurnDone;
    var log' := log + [e];
    TurnAppended(c, n, log, from, task, e);
    AllBoundStays(n, log, task, j, e);
    assert forall k :: 0 <= k < |log| ==> log'[k] == log[k];
    var b :| |before| <= b < |log| && IsBind(log[b]) && log[b].refusal.None?;
    assert IsBind(log'[b]) && log'[b].refusal.None?;
    TurnIsDone(c, n, before, log', from, task, j, false, true);
  }

  /** An entry that is no report of the address leaves a turn's binds done. */
  lemma AllBoundStays(n: Node, log: Log, task: Task, j: nat, e: Entry)
    requires j < |log| && log[j].Observed? && log[j].event.SimpleDescriptor? && AllBound(n, log, task, j)
    requires !(e.Observed? && e.event.IeeeAddress? && e.event.short == log[j].event.src)
    ensures AllBound(n, log + [e], task, j)
  {
    hide BoundSince, DescribedAt, FullSince;
    var log', who := log + [e], (log[j].event.src, log[j].event.endpoint);
    AddressAppended(log, j, who.0, e);
    assert log'[..j + 1] == log[..j + 1];
    forall x | DescribedAt(n, log', j, task, x, who)
      ensures BoundSince(n, log', task, j, x) || FullSince(log', j) || NoAddress(n, log', task, j)
    {
      DescribedSame(n, log, task, j, x, who, e);
      if BoundSince(n, log, task, j, x) {
        BoundStays(n, log, task, j, x, e);
      } else if FullSince(log, j) {
        FullStays(log, j, e);
      }
    }
  }

  /** A turn in which nothing was wanted, nothing was bound, or no address is to be had is done. */
  lemma NothingToBind(c: Config, n: Node, log: Log, from: nat, task: Task, j: nat)
    requires Descriptor(log, from) == Some(j) && log[j].event.success && Untouched(log, j)
    requires AddressDue(n, log, task, j) ==> Overdue(log, After(n.now(log[..j + 2]), c.zdoTimeout))
    requires || NoAddress(n, log, task, j)
             || MatchingIn(n.localClusters(log[..j + 1], task.endpoint), task.filter,
                           log[j].event.inputs, log[j].event.outputs) == []
    ensures TurnDone(c, n, log, from, task)
  {
    hide Descriptor, DescribedAt, BoundSince, MatchingIn, NoAddress, AddressDue, Patient;
    PatientOnceDescribed(c, n, log, from, task, j);
    var who := (log[j].event.src, log[j].event.endpoint);
    forall x | DescribedAt(n, log, j, task, x, who)
      ensures NoAddress(n, log, task, j)
    {
      WantedIsMatched(n, log, task, j, x, who);
    }
    assert !SomeBoundSince(log, j);
  }

  lemma DescribedNow(c: Config, n: Node, s: State, from: nat, fb: Fb, e: Event)
    requires fb.phase.SimpleDesc? && Turn(c, n, s, from, fb)
    requires e.SimpleDescriptor? && fb.respondents[fb.index] == (e.src, e.endpoint)
    ensures var (log, j) := (s.log + [Observed(e)], |s.log|);
            && from < |log| && Covered(c, n, log, from, TaskOf(fb)) && fb.index < |fb.respondents|
            && Descriptor(log, from) == Some(j) && log[..j + 1] == log
            && Untouched(log, j) && !AddressDue(n, log, TaskOf(fb), j)
            && forall k :: TurnStart(log, from) <= k < |log| ==> !AddsGroup(log[k])
  {
    hide Covered, Descriptor, LastRequest;
    TurnAppended(c, n, s.log, from, TaskOf(fb), Observed(e));
  }

  /** The respondent that was asked describes itself. */
  lemma MatchCovers(c: Config, n: Node, s: State, from: nat, fb: Fb, e: Event)
    requires fb.phase.SimpleDesc? && Turn(c, n, s, from, fb)
    requires e.SimpleDescriptor? && e.success && fb.respondents[fb.index] == (e.src, e.endpoint)
    ensures Covers(c, n, from, TaskOf(fb), BindMatches(c, n, s.(log := s.log + [Observed(e)]), fb, e.inputs, e.outputs))
  {
    hide Covered, Descriptor, Turn, TurnDone, CreateBindings, NextRespondent, MatchingIn, AddressDue;
    var task, j, s' := TaskOf(fb), |s.log|, s.(log := s.log + [Observed(e)]);
    DescribedNow(c, n, s, from, fb, e);
    var matches := MatchingIn(n.localClusters(s'.log, fb.endpoint), fb.filter, e.inputs, e.outputs);
    var known := n.ieeeOf(s'.log, e.src);
    if matches == [] {
      NothingToBind(c, n, s'.log, from, task, j);
      NextCovers(c, n, s', from, fb.(index := fb.index + 1));
    } else if fb.group.Some? {
      CreateCovers(c, n, s', from, fb, matches, GroupTo(fb.group.value), j);
    } else if known.Some? {
      CreateCovers(c, n, s', from, fb, matches, UnicastTo(known.value, e.endpoint), j);
    } else {
      AskForAddress(c, n, s', from, fb, j);
    }
  }

  lemma AskForAddress(c: Config, n: Node, s: State, from: nat, fb: Fb, j: nat)
    requires from < |s.log| && Covered(c, n, s.log, from, TaskOf(fb)) && fb.index < |fb.respondents| && fb.group.None?
    requires Descriptor(s.log, from) == Some(j) && j + 1 == |s.log| && DescribesItself(s.log[j], fb.respondents[fb.index])
    requires s.log[j].event.success && n.ieeeOf(s.log, s.log[j].event.src).None?
    requires forall k :: TurnStart(s.log, from) <= k < |s.log| ==> !AddsGroup(s.log[k])
    ensures var e := s.log[j].event;
            var matches := MatchingIn(n.localClusters(s.log, fb.endpoint), fb.filter, e.inputs, e.outputs);
            var call := IeeeAddrReq(e.src);
            var log := Ask(n, s.log, call);
            var waiting := fb.(pending := matches, phase := IeeeAddr);
            if n.refusal(s.log, call).None? then
              var due := After(n.now(log), c.zdoTimeout);
              Turn(c, n, s.(log := log, procedure := FindingBinding(waiting), deadline := Some(due)), from, waiting)
            else Covers(c, n, from, TaskOf(fb), Advance(c, n, s.(log := log), waiting))
  {
    hide Covered, Descriptor, TurnDone, NextRespondent, MatchingIn, LastRequest;
    var e := s.log[j].event;
    var call := IeeeAddrReq(e.src);
    var entry := Called(call, n.refusal(s.log, call));
    var log := s.log + [entry];
    TurnAppended(c, n, s.log, from, TaskOf(fb), entry);
    AddressAppended(s.log, j, e.src, entry);
    assert AddressSince(s.log, j, e.src) == None;
    assert log[..j + 1] == s.log && log[..j + 2] == log && log[j] == s.log[j];
    if entry.refusal.Some? {
      hide Turn;
      assert NoAddress(n, log, TaskOf(fb), j);
      NothingToBind(c, n, log, from, TaskOf(fb), j);
      var matches := MatchingIn(n.localClusters(s.log, fb.endpoint), fb.filter, e.inputs, e.outputs);
      NextCovers(c, n, s.(log := log), from, fb.(pending := matches, phase := IeeeAddr, index := fb.index + 1));
    }
  }

  lemma AddressedNow(c: Config, n: Node, s: State, from: nat, fb: Fb, ieee: Option<Address64>)
    requires fb.phase.IeeeAddr? && Turn(c, n, s, from, fb)
    ensures fb.index < |fb.respondents|
    ensures var (short, endpoint) := fb.respondents[fb.index];
            var log := s.log + [Observed(IeeeAddress(short, ieee))];
            && from < |log| && Covered(c, n, log, from, TaskOf(fb)) && Descriptor(s.log, from).Some?
            && var j := Descriptor(s.log, from).value;
            && Descriptor(log, from) == Some(j) && DescribesItself(log[j], (short, endpoint)) && log[j].event.success
            && Untouched(log, j) && !AddressDue(n, log, TaskOf(fb), j)
            && fb.pending == MatchingIn(n.localClusters(log[..j + 1], fb.endpoint), fb.filter,
                                        log[j].event.inputs, log[j].event.outputs)
            && if ieee.Some? then Meant(n, log, TaskOf(fb), j, UnicastTo(ieee.value, endpoint))
               else NoAddress(n, log, TaskOf(fb), j)
  {
    hide Covered, Descriptor, MatchingIn, LastRequest, AddressSince;
    var j, e := Descriptor(s.log, from).value, Observed(IeeeAddress(fb.respondents[fb.index].0, ieee));
    TurnAppended(c, n, s.log, from, TaskOf(fb), e);
    AddressAppended(s.log, j, fb.respondents[fb.index].0, e);
    PrefixStays(s.log, e, j + 1);
  }

  /** The address that was waited for is reported. */
  lemma AddressCovers(c: Config, n: Node, s: State, from: nat, fb: Fb, ieee: Option<Address64>)
    requires fb.phase.IeeeAddr? && Turn(c, n, s, from, fb)
    ensures var (short, endpoint) := fb.respondents[fb.index];
            var s' := s.(log := s.log + [Observed(IeeeAddress(short, ieee))]);
            Covers(c, n, from, TaskOf(fb),
                   if ieee.Some? then CreateBindings(c, n, s', fb, fb.pending, UnicastTo(ieee.value, endpoint))
                   else Advance(c, n, s', fb))
  {
    hide Covered, Descriptor, Turn, TurnDone, NextRespondent, MatchingIn, CreateBindings, AddressDue, NoAddress;
    AddressedNow(c, n, s, from, fb, ieee);
    var task, j, who := TaskOf(fb), Descriptor(s.log, from).value, fb.respondents[fb.index];
    var s' := s.(log := s.log + [Observed(IeeeAddress(who.0, ieee))]);
    if ieee.Some? {
      CreateCovers(c, n, s', from, fb, fb.pending, UnicastTo(ieee.value, who.1), j);
    } else {
      NothingToBind(c, n, s'.log, from, task, j);
      NextCovers(c, n, s', from, fb.(index := fb.index + 1));
    }
  }

  /** Anything that leaves the procedure alone. */
  lemma TurnGoesOn(c: Config, n: Node, s: State, from: nat, fb: Fb, fb': Fb, e: Entry, s': State)
    requires Turn(c, n, s, from, fb) && !IsRequest(e) && !AddsGroup(e) && !IsBind(e)
    requires fb.phase.SimpleDesc? ==> !DescribesItself(e, fb.respondents[fb.index])
    requires fb.phase.IeeeAddr? ==> !(e.Observed? && e.event.IeeeAddress? && e.event.short == fb.respondents[fb.index].0)
    requires s'.log == s.log + [e] && s'.deadline == s.deadline && TaskOf(fb') == TaskOf(fb)
    requires fb' == fb || (fb.phase.Querying? && fb'.phase.Querying?)
    ensures Turn(c, n, s', from, fb')
  {
    hide Covered, Descriptor, LastRequest, MatchingIn, Waits;
    TurnAppended(c, n, s.log, from, TaskOf(fb), e);
    PrefixStays(s.log, e, from + 1);
    PrefixStays(s.log, e, TurnStart(s.log, from) + 1);
    if fb.phase.IeeeAddr? {
      var j := Descriptor(s.log, from).value;
      PrefixStays(s.log, e, j + 2);
      WaitsOn(n, s.log, fb, j, e);
    }
  }

  lemma PrefixStays(log: Log, e: Entry, k: nat)
    requires k <= |log|
    ensures (log + [e])[..k] == log[..k]
  {
  }

  lemma WaitsOn(n: Node, log: Log, fb: Fb, j: nat, e: Entry)
    requires fb.index < |fb.respondents| && j + 1 < |log| && Waits(n, log, fb, j) && !AddsGroup(e) && !IsBind(e)
    requires !(e.Observed? && e.event.IeeeAddress? && e.event.short == fb.respondents[fb.index].0)
    ensures Waits(n, log + [e], fb, j)
  {
    hide MatchingIn, AddressSince;
    AddressAppended(log, j, fb.respondents[fb.index].0, e);
    PrefixStays(log, e, j + 1);
    assert (log + [e])[j] == log[j] && (log + [e])[j + 1] == log[j + 1];
  }

  lemma EventCovers(c: Config, n: Node, s: State, from: nat, fb: Fb, e: Event)
    requires s.procedure == FindingBinding(fb) && SoundFb(fb) && Turn(c, n, s, from, fb)
    ensures Covers(c, n, from, TaskOf(fb), OnFindingBinding(c, n, s.(log := s.log + [Observed(e)]), fb, e))
  {
    hide Turn, BindMatches, CreateBindings, NextRespondent, TurnDone, Covered;
    var s' := s.(log := s.log + [Observed(e)]);
    var r := OnFindingBinding(c, n, s', fb, e);
    if fb.phase.Querying? {
      TurnGoesOn(c, n, s, from, fb, r.state.procedure.fb, Observed(e), r.state);
    } else if fb.phase.SimpleDesc? && DescribesItself(Observed(e), fb.respondents[fb.index]) {
      if e.success {
        MatchCovers(c, n, s, from, fb, e);
      } else {
        FailedDescriptorCovers(c, n, s, from, fb, e);
      }
    } else if fb.phase.IeeeAddr? && e.IeeeAddress? && e.short == fb.respondents[fb.index].0 {
      AddressCovers(c, n, s, from, fb, e.ieee);
    } else {
      TurnGoesOn(c, n, s, from, fb, fb, Observed(e), s');
    }
  }

  lemma FailedDescriptorCovers(c: Config, n: Node, s: State, from: nat, fb: Fb, e: Event)
    requires fb.phase.SimpleDesc? && Turn(c, n, s, from, fb) && e.SimpleDescriptor? && !e.success
    requires fb.respondents[fb.index] == (e.src, e.endpoint)
    ensures Covers(c, n, from, TaskOf(fb), Advance(c, n, s.(log := s.log + [Observed(e)]), fb))
  {
    hide Covered, NextRespondent, AllBound, GroupAdded, LastRequest;
    var s' := s.(log := s.log + [Observed(e)]);
    TurnAppended(c, n, s.log, from, TaskOf(fb), Observed(e));
    NextCovers(c, n, s', from, fb.(index := fb.index + 1));
  }

  /** The time is up for whoever was waited for. */
  lemma ExpiredTurnIsDone(c: Config, n: Node, s: State, from: nat, fb: Fb, now: Instant)
    requires Turn(c, n, s, from, fb) && s.deadline.Some? && now >= s.deadline.value
    ensures var log := s.log + [Ticked(now)];
            from < |log| && Covered(c, n, log, from, TaskOf(fb)) && TurnDone(c, n, log, from, TaskOf(fb))
  {
    hide Covered, AllBound, GroupAdded, LastRequest, Descriptor, MatchingIn, AddressSince;
    var e := Ticked(now);
    var log := s.log + [e];
    TurnAppended(c, n, s.log, from, TaskOf(fb), e);
    PrefixStays(s.log, e, from + 1);
    PrefixStays(s.log, e, TurnStart(s.log, from) + 1);
    DescriptorIsAsked(log, from);
    if fb.phase.IeeeAddr? {
      var j := Descriptor(s.log, from).value;
      PrefixStays(s.log, e, j + 2);
      WaitsOn(n, s.log, fb, j, e);
      assert NoAddress(n, log, TaskOf(fb), j);
      NothingToBind(c, n, log, from, TaskOf(fb), j);
    }
  }

  lemma ExpiryCovers(c: Config, n: Node, s: State, from: nat, fb: Fb, now: Instant)
    requires s.procedure == FindingBinding(fb) && SoundFb(fb) && Turn(c, n, s, from, fb)
    requires s.deadline.Some? && now >= s.deadline.value
    ensures Covers(c, n, from, TaskOf(fb), Expired(c, n, s.(log := s.log + [Ticked(now)], deadline := None), now))
  {
    hide Covered, NextRespondent, Turn, TurnDone, Retry;
    var task, s' := TaskOf(fb), s.(log := s.log + [Ticked(now)], deadline := None);
    ExpiredTurnIsDone(c, n, s, from, fb, now);
    if !fb.phase.Querying? {
      NextCovers(c, n, s', from, fb.(index := fb.index + 1));
    } else if fb.respondents != [] {
      NextCovers(c, n, s', from, fb);
    }
  }

  lemma StepCovers(c: Config, n: Node, s: State, from: nat, fb: Fb, i: Input)
    requires s.procedure == FindingBinding(fb) && Inv(c, s) && Turn(c, n, s, from, fb)
    ensures Covers(c, n, from, TaskOf(fb), Step(c, n, s, i))
  {
    hide OnFindingBinding, Expired, Turn, Covered, TurnDone;
    match i
    case DoEvent(e) =>
      if e.IdentifyTime? && e.seconds == 0 && e.endpoint in s.targets {
        TurnGoesOn(c, n, s, from, fb, fb, Observed(e), OnEvent(c, n, s, e).state);
      } else {
        EventCovers(c, n, s, from, fb, e);
      }
    case DoPoll(now) =>
      if s.deadline.Some? && now >= s.deadline.value {
        ExpiryCovers(c, n, s, from, fb, now);
      } else {
        TurnGoesOn(c, n, s, from, fb, fb, Ticked(now), Poll(c, n, s, now).state);
      }
    case DoTarget(endpoint) =>
      if s.onNetwork {
        var call := Identify(endpoint, CommissioningTime(c));
        TurnGoesOn(c, n, s, from, fb, fb, Called(call, n.refusal(s.log, call)), StartTarget(c, n, s, endpoint).state);
      }
    case _ => SameTurn(c, n, s, from, fb, Step(c, n, s, i).state);
  }

  lemma SameTurn(c: Config, n: Node, s: State, from: nat, fb: Fb, s': State)
    requires Turn(c, n, s, from, fb) && s'.log == s.log && s'.deadline == s.deadline
    ensures Turn(c, n, s', from, fb)
  {
    hide Covered, Descriptor, LastRequest;
  }

  lemma StartCovers(c: Config, n: Node, s: State, i: Input)
    requires i.DoInitiator? && s.procedure.Idle?
    ensures var r := Step(c, n, s, i);
            r.refused.None? ==>
              r.state.procedure.FindingBinding? && Covers(c, n, |s.log|, Task(i.initiator, i.group, Kept(i.clusters)), r)
  {
    var call := IdentifyQuery(i.initiator);
    var e := Called(call, n.refusal(s.log, call));
    TurnAppended(c, n, s.log, |s.log|, Task(i.initiator, i.group, Kept(i.clusters)), e);
    assert (s.log + [e])[..|s.log| + 1] == s.log + [e];
  }

  /** One finding & binding run: every turn that is over was done, and at the end the last one is as well. */
  lemma {:induction false} NothingIsLeftOut(
    c: Config, n: Node, inputs: seq<Input>, results: seq<Result>, a: nat, b: nat)
    requires IsRun(c, n, inputs, results) && a < b <= |inputs| && Inv(c, results[0].state)
    requires inputs[a].DoInitiator? && results[a].state.procedure.Idle? && results[a + 1].refused.None?
    requires Throughout(results, a + 1, b)
    ensures results[a + 1].state.procedure.FindingBinding?
    ensures var task := Task(inputs[a].initiator, inputs[a].group, Kept(inputs[a].clusters));
            && Covers(c, n, |results[a].state.log|, task, results[b])
            && (results[b].state.procedure.FindingBinding? || results[b].state.procedure.Idle?)
    decreases b
  {
    hide Turn, TurnDone, Covered, OnEvent, Poll, StartTarget;
    assert results[a + 1] == Step(c, n, results[a].state, inputs[a]);
    assert results[b - 1 + 1] == Step(c, n, results[b - 1].state, inputs[b - 1]);
    if b == a + 1 {
      StartCovers(c, n, results[a].state, inputs[a]);
    } else {
      NothingIsLeftOut(c, n, inputs, results, a, b - 1);
      RunInv(c, n, inputs, results, b - 1);
      var s := results[b - 1].state;
      StepCovers(c, n, s, |results[a].state.log|, s.procedure.fb, inputs[b - 1]);
      IdleExactlyOnOutcome(c, n, inputs, results, b - 1);
    }
  }
}
