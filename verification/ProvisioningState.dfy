/**
 The security state of a Zigbee Direct device (section 6.2 of ZD 1.1): when it may be
 provisioned, when it switches its interface off, and which sessions it admits.
 */
module ProvisioningState {
  import opened Types

  const MIN_TIMEOUT: nat := 60_000
  const SESSIONS: nat := 4

  datatype Interface = OpenToBeProvisioned(until: Instant) | Off | OpenToConnect

  datatype Level = Provisioning | Basic | Admin

  datatype Psk = BasicAuthorization | AdminAuthorization | SymmetricToken | InstallCode | Passcode | Anonymous

  datatype Refusal = InterfaceOff | NotProvisioned | NetworkClosed | AnonymousJoinExpired | AuthorizationSessionActive

  datatype Admission = Admitted(level: Level) | Refused(reason: Refusal)

  datatype Transition = Advertise | StopAdvertising

  type Session = (Address64, Level)

  datatype State = State(interface: Interface, provisioned: bool, timeout: nat, provisioningOpen: bool, sessions: seq<Session>)

  function New(timeout: nat): State {
    State(Off, false, if timeout < MIN_TIMEOUT then MIN_TIMEOUT else timeout, false, [])
  }

  predicate Advertising(s: State) {
    !s.interface.Off?
  }

  function PowerUp(s: State, now: Instant, provisioned: bool): State {
    State(if provisioned then OpenToConnect else OpenToBeProvisioned(After(now, s.timeout)), provisioned, s.timeout, false, [])
  }

  function Joined(s: State): State {
    s.(interface := OpenToConnect, provisioned := true, provisioningOpen := false)
  }

  function Configured(s: State, enabled: bool): State {
    if !s.provisioned || enabled == Advertising(s) then s
    else if enabled then s.(interface := OpenToConnect)
    else s.(interface := Off, sessions := [])
  }

  /** The window has run out with no provisioning session open. */
  predicate Expires(s: State, now: Instant) {
    s.interface.OpenToBeProvisioned? && !s.provisioningOpen && now >= s.interface.until
  }

  function Poll(s: State, now: Instant): State {
    if Expires(s, now) then s.(interface := Off) else s
  }

  predicate IsAuthorization(k: Psk) {
    k.BasicAuthorization? || k.AdminAuthorization?
  }

  predicate HasAuthorizationSession(sessions: seq<Session>, peer: Address64) {
    exists i :: 0 <= i < |sessions| && sessions[i].0 == peer && !sessions[i].1.Provisioning?
  }

  function Admit(s: State, peer: Address64, psk: Psk, networkOpen: bool, anonymousAllowed: bool): Admission {
    if !Advertising(s) then Refused(InterfaceOff)
    else if IsAuthorization(psk) then
      if !s.provisioned then Refused(NotProvisioned) else Admitted(if psk.AdminAuthorization? then Admin else Basic)
    else if HasAuthorizationSession(s.sessions, peer) then Refused(AuthorizationSessionActive)
    else if s.provisioned && !networkOpen then Refused(NetworkClosed)
    else if s.provisioned && psk.Anonymous? && !anonymousAllowed then Refused(AnonymousJoinExpired)
    else Admitted(Provisioning)
  }

  function Others(sessions: seq<Session>, peer: Address64): (r: seq<Session>)
    ensures |r| <= |sessions|
    ensures forall x :: x in r <==> x in sessions && x.0 != peer
  {
    if sessions == [] then []
    else
      var n := |sessions| - 1;
      assert sessions == sessions[..n] + [sessions[n]];
      Others(sessions[..n], peer) + if sessions[n].0 == peer then [] else [sessions[n]]
  }

  function Opened(s: State, peer: Address64, level: Level): State {
    var others := Others(s.sessions, peer);
    var room := if |others| >= SESSIONS then others[1..] else others;
    s.(sessions := room + [(peer, level)], provisioningOpen := s.provisioningOpen || (level.Provisioning? && !s.provisioned))
  }

  predicate HasProvisioning(sessions: seq<Session>) {
    exists i :: 0 <= i < |sessions| && sessions[i].1.Provisioning?
  }

  /** Closing the last provisioning session restarts the window. */
  predicate Restarts(s: State, peer: Address64) {
    s.provisioningOpen && !HasProvisioning(Others(s.sessions, peer))
  }

  function Closed(s: State, peer: Address64, now: Instant): State {
    var others := Others(s.sessions, peer);
    if !Restarts(s, peer) then s.(sessions := others)
    else
      s.(sessions := others, provisioningOpen := false,
         interface := if !s.provisioned && Advertising(s) then OpenToBeProvisioned(After(now, s.timeout)) else s.interface)
  }

  // ------------------------------------------------------------------
  // The object
  // ------------------------------------------------------------------

  class SecurityState {
    var interface: Interface
    var provisioned: bool
    const timeout: nat
    var provisioningOpen: bool
    var sessions: seq<Session>

    ghost function View(): State
      reads this
    {
      State(interface, provisioned, timeout, provisioningOpen, sessions)
    }

    constructor (timeout: nat)
      ensures View() == New(timeout)
    {
      this.timeout := if timeout < MIN_TIMEOUT then MIN_TIMEOUT else timeout;
      interface, provisioned, provisioningOpen, sessions := Off, false, false, [];
    }

    method OnPowerUp(now: Instant, isProvisioned: bool) returns (t: Transition)
      modifies this
      ensures View() == PowerUp(old(View()), now, isProvisioned) && t == Advertise
    {
      provisioned, provisioningOpen, sessions := isProvisioned, false, [];
      if isProvisioned {
        interface := OpenToConnect;
      } else {
        interface := OpenToBeProvisioned(After(now, timeout));
      }
      return Advertise;
    }

    method OnJoined() returns (t: Option<Transition>)
      modifies this
      ensures View() == Joined(old(View()))
      ensures t == if Advertising(old(View())) then None else Some(Advertise)
    {
      provisioned, provisioningOpen := true, false;
      var wasOff := interface.Off?;
      interface := OpenToConnect;
      return if wasOff then Some(Advertise) else None;
    }

    method OnConfigured(enabled: bool) returns (t: Option<Transition>)
      modifies this
      ensures View() == Configured(old(View()), enabled)
      ensures t.Some? <==> View() != old(View())
    {
      if !provisioned {
        return None;
      }
      if enabled && interface.Off? {
        interface := OpenToConnect;
        return Some(Advertise);
      }
      if !enabled && !interface.Off? {
        interface, sessions := Off, [];
        return Some(StopAdvertising);
      }
      return None;
    }

    method OnPoll(now: Instant) returns (t: Option<Transition>)
      modifies this
      ensures View() == Poll(old(View()), now)
      ensures t == if Expires(old(View()), now) then Some(StopAdvertising) else None
    {
      if interface.OpenToBeProvisioned? && !provisioningOpen && now >= interface.until {
        interface := Off;
        return Some(StopAdvertising);
      }
      return None;
    }

    method Retain(peer: Address64)
      modifies `sessions
      ensures sessions == Others(old(sessions), peer)
    {
      var kept: seq<Session> := [];
      for i := 0 to |sessions|
        invariant sessions == old(sessions) && kept == Others(sessions[..i], peer)
      {
        assert sessions[..i + 1][..i] == sessions[..i];
        if sessions[i].0 != peer {
          kept := kept + [sessions[i]];
        }
      }
      assert sessions[..|sessions|] == sessions;
      sessions := kept;
    }

    method Ask(peer: Address64, psk: Psk, networkOpen: bool, anonymousAllowed: bool) returns (a: Admission)
      ensures a == Admit(View(), peer, psk, networkOpen, anonymousAllowed)
    {
      if interface.Off? {
        return Refused(InterfaceOff);
      }
      if IsAuthorization(psk) {
        if !provisioned {
          return Refused(NotProvisioned);
        }
        return Admitted(if psk.AdminAuthorization? then Admin else Basic);
      }
      for i := 0 to |sessions|
        invariant forall j :: 0 <= j < i ==> !(sessions[j].0 == peer && !sessions[j].1.Provisioning?)
      {
        if sessions[i].0 == peer && !sessions[i].1.Provisioning? {
          return Refused(AuthorizationSessionActive);
        }
      }
      if provisioned {
        if !networkOpen {
          return Refused(NetworkClosed);
        }
        if psk.Anonymous? && !anonymousAllowed {
          return Refused(AnonymousJoinExpired);
        }
      }
      return Admitted(Provisioning);
    }

    method SessionOpened(peer: Address64, level: Level)
      modifies this
      ensures View() == Opened(old(View()), peer, level)
    {
      Retain(peer);
      if |sessions| >= SESSIONS {
        sessions := sessions[1..];
      }
      sessions := sessions + [(peer, level)];
      if level.Provisioning? && !provisioned {
        provisioningOpen := true;
      }
    }

    method AnyProvisioning() returns (b: bool)
      ensures b == HasProvisioning(sessions)
    {
      for i := 0 to |sessions|
        invariant forall j :: 0 <= j < i ==> !sessions[j].1.Provisioning?
      {
        if sessions[i].1.Provisioning? {
          return true;
        }
      }
      return false;
    }

    method SessionClosed(peer: Address64, now: Instant)
      modifies this
      ensures View() == Closed(old(View()), peer, now)
    {
      Retain(peer);
      var left := AnyProvisioning();
      if provisioningOpen && !left {
        provisioningOpen := false;
        if !provisioned && !interface.Off? {
          interface := OpenToBeProvisioned(After(now, timeout));
        }
      }
    }
  }

  // ------------------------------------------------------------------
  // Runs
  // ------------------------------------------------------------------

  datatype Input =
    | DoPowerUp(now: Instant, provisioned: bool)
    | DoJoined
    | DoConfigured(enabled: bool)
    | DoPoll(now: Instant)
    | DoOpen(peer: Address64, psk: Psk, networkOpen: bool, anonymousAllowed: bool)
    | DoClose(peer: Address64, now: Instant)

  /** The machine with the time its provisioning window last started: at power-up, or when the last session
      of a device still to be provisioned was closed. */
  datatype Tracked = Tracked(state: State, windowStart: Instant)

  predicate LastOneLeaves(s: State, peer: Address64) {
    !s.provisioned && s.sessions != [] && forall x :: x in s.sessions ==> x.0 == peer
  }

  /** A session is opened only when it is admitted, and at the level it is admitted at. */
  function Next(t: Tracked, i: Input): Tracked {
    var s := t.state;
    match i
    case DoPowerUp(now, provisioned) => Tracked(PowerUp(s, now, provisioned), now)
    case DoJoined => t.(state := Joined(s))
    case DoConfigured(enabled) => t.(state := Configured(s, enabled))
    case DoPoll(now) => t.(state := Poll(s, now))
    case DoOpen(peer, psk, open, anonymous) =>
      var a := Admit(s, peer, psk, open, anonymous);
      if a.Admitted? then t.(state := Opened(s, peer, a.level)) else t
    case DoClose(peer, now) => Tracked(Closed(s, peer, now), if LastOneLeaves(s, peer) then now else t.windowStart)
  }

  ghost predicate IsRun(inputs: seq<Input>, run: seq<Tracked>) {
    |run| == |inputs| + 1 && forall i :: 0 <= i < |inputs| ==> run[i + 1] == Next(run[i], inputs[i])
  }

  ghost predicate Inv(t: Tracked) {
    var s := t.state;
    && (s.interface.OpenToBeProvisioned? ==> !s.provisioned && s.interface.until == After(t.windowStart, s.timeout))
    && (s.interface.OpenToConnect? ==> s.provisioned)
    && (!s.provisioned ==> forall i :: 0 <= i < |s.sessions| ==> s.sessions[i].1.Provisioning?)
    && (s.provisioningOpen <==> !s.provisioned && s.sessions != [])
    && (s.interface.Off? ==> s.sessions == [])
  }

  lemma OpenKeeps(s: State, peer: Address64, level: Level, w: Instant)
    requires Inv(Tracked(s, w)) && Advertising(s) && (!s.provisioned ==> level.Provisioning?)
    ensures Inv(Tracked(Opened(s, peer, level), w))
  {
    var others := Others(s.sessions, peer);
    forall i | 0 <= i < |others|
      ensures others[i] in s.sessions
    {
      assert others[i] in others;
    }
  }

  lemma CloseKeeps(s: State, peer: Address64, now: Instant, w: Instant)
    requires Inv(Tracked(s, w))
    ensures Inv(Tracked(Closed(s, peer, now), if LastOneLeaves(s, peer) then now else w))
  {
    var others := Others(s.sessions, peer);
    forall i | 0 <= i < |others|
      ensures others[i] in s.sessions
    {
      assert others[i] in others;
    }
    if s.provisioningOpen && others != [] {
      assert others[0].1.Provisioning?;
    }
  }

  lemma NextKeeps(t: Tracked, i: Input)
    requires Inv(t)
    ensures Inv(Next(t, i))
  {
    match i
    case DoOpen(peer, psk, open, anonymous) =>
      var a := Admit(t.state, peer, psk, open, anonymous);
      if a.Admitted? {
        OpenKeeps(t.state, peer, a.level, t.windowStart);
      }
    case DoClose(peer, now) => CloseKeeps(t.state, peer, now, t.windowStart);
    case _ =>
  }

  /** In every run: open to be provisioned means unprovisioned, open to connect means provisioned,
      an unprovisioned device has only provisioning sessions, and its window is held exactly while
      it has one. */
  lemma {:induction false} RunKeeps(inputs: seq<Input>, run: seq<Tracked>, timeout: nat, n: nat)
    requires IsRun(inputs, run) && run[0].state == New(timeout) && n <= |inputs|
    ensures Inv(run[n])
  {
    if n > 0 {
      RunKeeps(inputs, run, timeout, n - 1);
      assert run[n - 1 + 1] == Next(run[n - 1], inputs[n - 1]);
      NextKeeps(run[n - 1], inputs[n - 1]);
    }
  }

  lemma {:induction false} TimeoutStays(inputs: seq<Input>, run: seq<Tracked>, timeout: nat, n: nat)
    requires IsRun(inputs, run) && run[0].state == New(timeout) && n <= |inputs|
    ensures run[n].state.timeout == New(timeout).timeout >= MIN_TIMEOUT
  {
    if n > 0 {
      TimeoutStays(inputs, run, timeout, n - 1);
      assert run[n - 1 + 1] == Next(run[n - 1], inputs[n - 1]);
    }
  }

  /** When the interface is on: it is switched on by a power-up, a join and a configuration that enables it, and
      off by one that disables it on a provisioned device, and by a poll on an unprovisioned device without a
      session once a full timeout has gone by since its window last started. */
  lemma AdvertisesExactly(inputs: seq<Input>, run: seq<Tracked>, timeout: nat, n: nat)
    requires IsRun(inputs, run) && run[0].state == New(timeout) && n < |inputs|
    ensures var (s, s', i) := (run[n].state, run[n + 1].state, inputs[n]);
            && (s'.provisioned <==> if i.DoPowerUp? then i.provisioned else i.DoJoined? || s.provisioned)
            && (Advertising(s') <==>
                || i.DoPowerUp? || i.DoJoined?
                || (i.DoConfigured? && s.provisioned && i.enabled)
                || (Advertising(s) && !(i.DoConfigured? && s.provisioned && !i.enabled)
                    && !(i.DoPoll? && !s.provisioned && s.sessions == []
                         && i.now >= After(run[n].windowStart, if timeout < MIN_TIMEOUT then MIN_TIMEOUT else timeout))))
  {
    RunKeeps(inputs, run, timeout, n);
    TimeoutStays(inputs, run, timeout, n);
    assert run[n + 1] == Next(run[n], inputs[n]);
  }

  // ------------------------------------------------------------------
  // Who has a session
  // ------------------------------------------------------------------

  /** What an opening request is entitled to: the administrator and basic keys to their level on a provisioned
      device, and the other keys to provisioning, by a peer without a session of those levels, and on a provisioned
      device only while the network is open and, with the anonymous key, while that is allowed. */
  ghost predicate Entitled(s: State, i: Input, level: Level)
    requires i.DoOpen?
  {
    && Advertising(s)
    && match level
       case Admin => i.psk == AdminAuthorization && s.provisioned
       case Basic => i.psk == BasicAuthorization && s.provisioned
       case Provisioning =>
         && i.psk in {SymmetricToken, InstallCode, Passcode, Anonymous}
         && (i.peer, Admin) !in s.sessions && (i.peer, Basic) !in s.sessions
         && (s.provisioned ==> i.networkOpen && (i.psk == Anonymous ==> i.anonymousAllowed))
  }

  lemma AdmittedExactly(s: State, i: Input)
    requires i.DoOpen?
    ensures var a := Admit(s, i.peer, i.psk, i.networkOpen, i.anonymousAllowed);
            && (forall level :: a == Admitted(level) <==> Entitled(s, i, level))
            && (a == Refused(InterfaceOff) <==> !Advertising(s))
            && var joins := Advertising(s) && i.psk !in {BasicAuthorization, AdminAuthorization};
            && var busy := (i.peer, Admin) in s.sessions || (i.peer, Basic) in s.sessions;
            && (a == Refused(NotProvisioned) <==> Advertising(s) && !joins && !s.provisioned)
            && (a == Refused(AuthorizationSessionActive) <==> joins && busy)
            && (a == Refused(NetworkClosed) <==> joins && !busy && s.provisioned && !i.networkOpen)
            && (a == Refused(AnonymousJoinExpired) <==>
                joins && !busy && s.provisioned && i.networkOpen && i.psk == Anonymous && !i.anonymousAllowed)
  {
    if HasAuthorizationSession(s.sessions, i.peer) {
      var k :| 0 <= k < |s.sessions| && s.sessions[k].0 == i.peer && !s.sessions[k].1.Provisioning?;
      assert s.sessions[k] in s.sessions && (s.sessions[k] == (i.peer, Admin) || s.sessions[k] == (i.peer, Basic));
    }
  }

  /** A level granted, and the number of sessions other peers were granted after that. */
  type Grant = (Level, nat)

  /** What one step does to a peer's grant. It is lost when it is closed, at a power-up, and when a provisioned
      device's interface is disabled. */
  ghost function Regranted(s: State, i: Input, peer: Address64, g: Option<Grant>): Option<Grant> {
    match i
    case DoPowerUp(_, _) => None
    case DoConfigured(enabled) => if s.provisioned && !enabled then None else g
    case DoClose(p, _) => if p == peer then None else g
    case DoOpen(p, _, _, _) =>
      if exists level :: Entitled(s, i, level) then
        if p == peer then var level :| Entitled(s, i, level); Some((level, 0)) else Later(g)
      else g
    case _ => g
  }

  function Later(g: Option<Grant>): Option<Grant> {
    if g.None? then None else Some((g.value.0, g.value.1 + 1))
  }

  /** What a peer was last granted in the first `n` steps and has not lost since. */
  ghost function Granted(inputs: seq<Input>, run: seq<Tracked>, n: nat, peer: Address64): Option<Grant>
    requires IsRun(inputs, run) && n <= |inputs|
  {
    if n == 0 then None else Regranted(run[n - 1].state, inputs[n - 1], peer, Granted(inputs, run, n - 1, peer))
  }

  /** A session is at the level that was granted. */
  ghost predicate OnlyAsGranted(sessions: seq<Session>, peer: Address64, g: Option<Grant>) {
    forall x :: x in sessions && x.0 == peer ==> g.Some? && x.1 == g.value.0
  }

  /** The session is there unless as many as there is room for were granted to others after it. */
  ghost predicate StillThere(sessions: seq<Session>, peer: Address64, g: Option<Grant>) {
    g.Some? && g.value.1 < SESSIONS ==>
      exists k :: 0 <= k < |sessions| && |sessions| <= k + 1 + g.value.1 && sessions[k] == (peer, g.value.0)
  }

  lemma {:induction false} OthersKeep(sessions: seq<Session>, p: Address64, k: nat) returns (j: nat)
    requires k < |sessions| && sessions[k].0 != p
    ensures j < |Others(sessions, p)| && Others(sessions, p)[j] == sessions[k]
    ensures |Others(sessions, p)| - j <= |sessions| - k
  {
    var m := |sessions| - 1;
    if k == m {
      j := |Others(sessions[..m], p)|;
    } else {
      j := OthersKeep(sessions[..m], p, k);
    }
  }

  lemma OpenIsThere(s: State, p: Address64, level: Level, peer: Address64, g: Option<Grant>)
    requires StillThere(s.sessions, peer, g)
    ensures StillThere(Opened(s, p, level).sessions, peer, if p == peer then Some((level, 0)) else Later(g))
  {
    hide Others;
    var others, after := Others(s.sessions, p), Opened(s, p, level).sessions;
    if p == peer {
      assert after[|after| - 1] == (peer, level);
    } else if g.Some? && g.value.1 + 1 < SESSIONS {
      var k :| 0 <= k < |s.sessions| && |s.sessions| <= k + 1 + g.value.1 && s.sessions[k] == (peer, g.value.0);
      var j := OthersKeep(s.sessions, p, k);
      assert after[if |others| >= SESSIONS then j - 1 else j] == (peer, g.value.0);
    }
  }

  lemma CloseIsThere(s: State, p: Address64, now: Instant, peer: Address64, g: Option<Grant>)
    requires StillThere(s.sessions, peer, g) && p != peer
    ensures StillThere(Closed(s, p, now).sessions, peer, g)
  {
    hide Others, Restarts;
    if g.Some? && g.value.1 < SESSIONS {
      var k :| 0 <= k < |s.sessions| && |s.sessions| <= k + 1 + g.value.1 && s.sessions[k] == (peer, g.value.0);
      var j := OthersKeep(s.sessions, p, k);
    }
  }

  lemma OpenIsAsGranted(s: State, p: Address64, level: Level, peer: Address64, g: Option<Grant>)
    requires OnlyAsGranted(s.sessions, peer, g)
    ensures OnlyAsGranted(Opened(s, p, level).sessions, peer, if p == peer then Some((level, 0)) else Later(g))
  {
    hide Others;
    forall x | x in Opened(s, p, level).sessions && x != (p, level)
      ensures x.0 != p && x in s.sessions
    {
      assert x in Others(s.sessions, p);
    }
  }

  lemma StepIsGranted(t: Tracked, i: Input, peer: Address64, g: Option<Grant>)
    requires Inv(t) && OnlyAsGranted(t.state.sessions, peer, g) && StillThere(t.state.sessions, peer, g)
    ensures var (sessions, g') := (Next(t, i).state.sessions, Regranted(t.state, i, peer, g));
            OnlyAsGranted(sessions, peer, g') && StillThere(sessions, peer, g')
  {
    hide Others, Opened, StillThere, Entitled, Admit, Restarts;
    if i.DoOpen? {
      hide OnlyAsGranted;
      AdmittedExactly(t.state, i);
      var a := Admit(t.state, i.peer, i.psk, i.networkOpen, i.anonymousAllowed);
      if a.Admitted? {
        assert Entitled(t.state, i, a.level);
        OpenIsThere(t.state, i.peer, a.level, peer, g);
        OpenIsAsGranted(t.state, i.peer, a.level, peer, g);
      }
    } else if i.DoClose? && i.peer != peer {
      CloseIsThere(t.state, i.peer, i.now, peer, g);
    } else if Regranted(t.state, i, peer, g).None? {
      NothingThere(Next(t, i).state.sessions, peer);
    }
  }

  lemma NothingThere(sessions: seq<Session>, peer: Address64)
    ensures StillThere(sessions, peer, None)
  {
  }

  /** In every run a peer has a session only while it has a grant, and at the level of it, and it has that session
      unless four were granted to others after it. */
  lemma {:induction false} SessionsAreGranted(
    inputs: seq<Input>, run: seq<Tracked>, timeout: nat, n: nat, peer: Address64)
    requires IsRun(inputs, run) && run[0].state == New(timeout) && n <= |inputs|
    ensures var g := Granted(inputs, run, n, peer);
            OnlyAsGranted(run[n].state.sessions, peer, g) && StillThere(run[n].state.sessions, peer, g)
  {
    hide Next, Regranted, Inv;
    if n > 0 {
      SessionsAreGranted(inputs, run, timeout, n - 1, peer);
      RunKeeps(inputs, run, timeout, n - 1);
      assert run[n - 1 + 1] == Next(run[n - 1], inputs[n - 1]);
      StepIsGranted(run[n - 1], inputs[n - 1], peer, Granted(inputs, run, n - 1, peer));
    }
  }
}
