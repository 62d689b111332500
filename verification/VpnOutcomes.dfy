/** What every event of the connection lifecycle achieves: outcomes of starts, retries, reports and checks,
    from any sound state, in terms of the answers the environment gives. */
module VpnOutcomes {
  import opened Switches
  import opened VpnTypes
  import opened VpnSpec
  import opened VpnInvariants
  import opened VpnTheorems
  import opened VpnWaiting

  /** The routing code publishes no diagnostics of its own. */
  ghost predicate Quiet(w: World) { forall n: nat :: w.routing(n) == [] }

  /** A diagnostic that names a problem, by its number. */
  predicate Bad(h: Health) { (16 <= h <= 28) || h == 30 }

  /** The Error state with this error on record and a problem on display. */
  predicate Failing(t: Conn, e: ErrorCode) { t.state.Error? && t.lastError == e && Problem(t.health) }

  // ---------- first starts ----------

  /** What follows when question `n`, whether there is a network, is answered yes: question n + 1 makes the
      protocol object and question n + 2 starts it. `calm` if the lifecycle is still Connecting then. */
  ghost predicate StartOutcome(w: World, s: Conn, t: Conn, n: nat, calm: bool) {
    if !w.factory(n + 1) then
      Failing(t, InternalError) && t.protocol.Off? && t.tally.starts == s.tally.starts
    else
      && t.protocol.On? && t.tally.starts == s.tally.starts + 1 && t.pending.NoAction?
      && (w.startResult(n + 2) != NoError ==> Failing(t, w.startResult(n + 2)))
      && (w.startResult(n + 2) != NoError && Quiet(w) ==> t.health == ProtocolStartFailed)
      && (w.startResult(n + 2) == NoError && w.startSignals(n + 2) == [] && calm ==>
            && t.state.Connecting? && t.connecting.On? && t.errorsLive.On? && t.statesLive.On?
            && t.protocolError == NoError
            && t.health == (if s.silent.On? then t.health else WaitingHandshake))
  }

  lemma FailFails(w: World, s: Conn, e: ErrorCode)
    requires e != NoError
    ensures Failing(Fail(w, s, e), e) && (Quiet(w) ==> Fail(w, s, e).health == ProtocolStartFailed)
  {
  }

  lemma ErrorShowsProblem(w: World, s: Conn)
    ensures var t := Change(w, s, Error); t.state.Error? && Problem(t.health)
    ensures s.lastError != NoError ==> Change(w, s, Error).lastError == s.lastError
  {
  }

  lemma ConfiguredStart(w: World, s: Conn, n: nat)
    requires s.now == n + 1
    ensures StartOutcome(w, s, StartConfigured(w, s), n, s.state.Connecting?)
  {
    hide Change, DeliverAll, Fail, Failing, Quiet;
    var a := NewProtocol(w, StopPending(s).(connecting := On, lost := Kept));
    if !a.protocol.On? {
      FailingMeans(Change(w, a.(lastError := InternalError), Error), InternalError);
      ErrorShowsProblem(w, a.(lastError := InternalError));
    } else {
      var err := w.startResult(a.now);
      if err != NoError {
        FailFails(w, Start(w, a), err);
        FailKeeps(w, Start(w, a), err);
      }
      if w.startSignals(a.now) == [] {
        NothingDelivered(w, a.(now := a.now + 1, tally := a.tally.(starts := a.tally.starts + 1)));
      }
    }
  }

  lemma FailingMeans(t: Conn, e: ErrorCode)
    ensures Failing(t, e) <==> t.state.Error? && t.lastError == e && Problem(t.health)
  {
  }

  lemma FailKeeps(w: World, s: Conn, e: ErrorCode)
    ensures var t := Fail(w, s, e);
      t.protocol.On? == s.protocol.On? && t.tally.starts == s.tally.starts && t.pending == s.pending
  {
    hide Enter;
  }

  lemma NothingDelivered(w: World, s: Conn)
    ensures DeliverAll(w, s, []) == s
  {
  }

  /** The object when a connect request asks for the network: in Connecting, the old protocol object stopped. */
  function BeforeStart(w: World, s: Conn, known: bool): Conn {
    var a := BeginConnect(w, s.(now := s.now + 1), known);
    StopPrevious(w, a.(now := a.now + 1))
  }

  lemma BeforeStartMeans(w: World, s: Conn, known: bool)
    ensures var c := BeforeStart(w, s, known);
      && c.protocol.Off? && c.pending.NoAction? && c.tally.starts == s.tally.starts && c.deadline.Off?
      && (s.protocol.On? ==> c.tally.stops > s.tally.stops)
      && (s.protocol.Off? || w.stopSignals(s.now + 2) == [] ==>
            && c.state.Connecting? && c.connecting.On? && c.attempts == 0 && c.lastError == NoError
            && c.stopping.Off? && c.recovery.Off?
            && c.serverKnown == Switched(known) && c.silent == s.silent
            && c.now == s.now + (if s.protocol.On? then 3 else 2))
  {
    var a := BeginConnect(w, s.(now := s.now + 1), known);
    hide DeliverAll;
    if s.protocol.On? {
      StopKeepsDeadline(w, a.(now := a.now + 1, errorsLive := Off));
      if w.stopSignals(s.now + 2) == [] {
        NothingDelivered(w, a.(now := a.now + 2, errorsLive := Off, tally := a.tally.(stops := a.tally.stops + 1)));
      }
    }
  }

  lemma {:induction false} DeliverKeepsDeadline(w: World, s: Conn, sigs: seq<Signal>)
    ensures DeliverAll(w, s, sigs).deadline == s.deadline
    decreases |sigs|
  {
    if sigs != [] {
      hide Enter;
      assert Deliver(w, s, sigs[0]).deadline == s.deadline by { OneKeepsDeadline(w, s, sigs[0]); }
      DeliverKeepsDeadline(w, Deliver(w, s, sigs[0]), sigs[1..]);
    }
  }

  lemma OneKeepsDeadline(w: World, s: Conn, sig: Signal)
    ensures Deliver(w, s, sig).deadline == s.deadline
  {
  }

  lemma StopKeepsDeadline(w: World, s: Conn)
    ensures Stop(w, s).deadline == s.deadline
  {
    hide DeliverAll;
    DeliverKeepsDeadline(w, s.(now := s.now + 1, tally := s.tally.(stops := s.tally.stops + 1)), w.stopSignals(s.now));
  }

  /** A connect request: refused, waiting for a network, failed or started, as the environment answers. */
  lemma ConnectOutcome(w: World, s: Conn, known: bool)
    ensures var t := Step(w, s, UserConnect(known));
            var c := BeforeStart(w, s, known);
      && (!w.repositories(s.now) ==>
            t.state.Error? && Problem(t.health) && t.tally.starts == s.tally.starts)
      && (w.repositories(s.now) && !w.protection(s.now + 1) ==>
            Failing(t, AmneziaServiceConnectionFailed) && t.tally.starts == s.tally.starts)
      && (w.repositories(s.now) && w.protection(s.now + 1) ==>
            if w.networkReady(c.now) then StartOutcome(w, s, t, c.now, c.state.Connecting? && c.silent == s.silent)
            else
              && t.pending.StartConnection? && t.pendingTick.On? && t.deadline.On? && t.connecting.Off?
              && t.probe.Off? && t.protocol.Off? && t.tally.starts == s.tally.starts && t.state == c.state
              && (c.state.Connecting? ==> t.health == CheckingLocalNetwork))
  {
    hide Enter, StopPrevious, StartConfigured, StartOutcome, Failing;
    var a := BeginConnect(w, s.(now := s.now + 1), known);
    BeginConnectAsks(w, s.(now := s.now + 1), known);
    var b := a.(now := a.now + 1);
    BeforeStartMeans(w, s, known);
    if !w.repositories(s.now) {
      ErrorShowsProblem(w, s.(now := s.now + 1));
    } else if !w.protection(a.now) {
      var c := Publish(b.(lastError := AmneziaServiceConnectionFailed), LocalServiceUnavailable);
      ErrorShowsProblem(w, c);
      FailingMeans(Change(w, c, Error), AmneziaServiceConnectionFailed);
    } else {
      var c := StopPrevious(w, b);
      if w.networkReady(c.now) {
        var d := Defer(w, c, StartConnection, CheckingLocalNetwork);
        ConfiguredStart(w, d, c.now);
        SameOutcome(w, d, s, StartConfigured(w, d), c.now, c.state.Connecting?, c.silent == s.silent);
      }
    }
  }

  lemma BeginConnectAsks(w: World, s: Conn, known: bool)
    ensures var a := BeginConnect(w, s, known); a.now == s.now && a.tally.starts == s.tally.starts
  {
  }

  lemma SameOutcome(w: World, d: Conn, s: Conn, t: Conn, n: nat, calm: bool, same: bool)
    requires StartOutcome(w, d, t, n, calm) && d.tally.starts == s.tally.starts && (same ==> d.silent == s.silent)
    ensures StartOutcome(w, s, t, n, calm && same)
  {
  }

  /** The deferred start, once there is a network. */
  lemma ResumedStart(w: World, s: Conn, e: Event)
    requires Resumes(s, e) && s.pending.StartConnection? && s.state.Connecting?
    ensures var t := Step(w, s, e);
      if w.networkReady(s.now) then StartOutcome(w, s, t, s.now, true) else t == s.(now := s.now + 1)
  {
    hide StartConfigured, StartOutcome;
    if w.networkReady(s.now) {
      var a := StopPending(s).(now := s.now + 1);
      ConfiguredStart(w, a, s.now);
      SameOutcome(w, a, s, StartConfigured(w, a), s.now, true, true);
    }
  }

  // ---------- silent restarts ----------

  /** The errors after which a silent reconnect is tried again. */
  predicate Transient(e: ErrorCode) {
    e == AmneziaServiceConnectionFailed || e == VpnHandshakeTimeout || e == VpnNoTrafficError || e == VpnBackendFailure
  }

  /** A silent reconnect has failed with `e` and `attempts` used, nothing being deferred: a recovery is
      scheduled if fewer than three have been used, and the failure is final otherwise. */
  predicate RetryOutcome(t: Conn, e: ErrorCode, attempts: int, known: bool) {
    if known && attempts < 3 then
      && t.state.Connected? && t.silent.Off? && t.recovery.On? && t.attempts == attempts + 1
      && t.errorsLive.Off? && t.statesLive.Off? && t.lastError == e && t.health == ShownError(e)
    else Failing(t, e)
  }

  /** The diagnostic for an error. */
  function ShownError(e: ErrorCode): Health {
    if e == AmneziaServiceConnectionFailed || e == VpnBackendFailure then LocalServiceUnavailable
    else if e == VpnHandshakeTimeout then HandshakeTimeout
    else if e == VpnNoTrafficError then NoTraffic
    else UnknownFailure
  }

  /** What a silent reconnect of `s` leads to, question `n` asking for the network. */
  ghost predicate SilentOutcome(w: World, s: Conn, t: Conn, n: nat) {
    if !w.networkReady(n) then
      && t.state.Connected? && t.pending.StartSilentReconnect? && t.pendingTick.On? && t.connecting.Off?
      && t.recovery.Off? && t.probe.Off? && t.attempts == s.attempts && t.tally == s.tally && t.protocol.On?
    else if !w.factory(n + 1) then
      && Failing(t, InternalError) && t.protocol.Off? && t.tally.starts == s.tally.starts
      && (Quiet(w) ==> t.health == ProtocolStartFailed)
    else
      && t.tally.starts == s.tally.starts + 1 && t.protocol.On?
      && (w.startResult(n + 2) == NoError && t.silent.On? && !t.state.Error? && !t.state.Disconnected? ==>
            t.health == Recovering)
      && (w.startSignals(n + 2) == [] ==>
            && t.tally.restarts == s.tally.restarts + 1 && t.tally.resets == s.tally.resets
            && t.tally.stops > s.tally.stops
            && var e := w.startResult(n + 2);
               if e == NoError then
                 && t.state.Connected? && t.silent.On? && t.connecting.On? && t.recovery.Off?
                 && t.attempts == s.attempts && t.errorsLive.On? && t.statesLive.On? && t.health == Recovering
                 && t.pending.NoAction? && t.serverKnown == s.serverKnown && t.stopping == s.stopping
                 && t.protocolError == NoError
               else if Transient(e) then RetryOutcome(t, e, s.attempts, s.serverKnown.On?)
               else Failing(t, e) && (Quiet(w) ==> t.health == ProtocolStartFailed))
  }

  lemma FailureRetries(w: World, s: Conn, h: Health, e: ErrorCode)
    requires s.state.Connected? && s.protocol.On? && s.recovery.Off? && s.pending.NoAction?
    requires e != NoError && h == ShownError(e)
    ensures var t := SilentFailure(w, s, h, e);
      && RetryOutcome(t, e, s.attempts, s.serverKnown.On?) && t.protocol.On?
      && t.tally.stops == s.tally.stops + 1 && t.protocolError == w.storedError(s.now) && t.stopping.Off?
      && t.tally.starts == s.tally.starts && t.tally.restarts == s.tally.restarts && t.tally.resets == s.tally.resets
  {
  }

  lemma SilentStart(w: World, s: Conn)
    requires s.state.Connected? && s.protocol.On? && s.silent.Off? && s.recovery.Off? && s.pending.NoAction?
    ensures SilentOutcome(w, s, StartSilent(w, s), s.now)
  {
    hide Enter, SilentFailure, Failing, RetryOutcome, DeliverAll, Fail, Quiet;
    var a := Replace(w, Defer(w, s, StartSilentReconnect, Recovering));
    if w.networkReady(s.now) {
      if !a.protocol.On? {
        FailFails(w, a, InternalError);
        FailKeeps(w, a, InternalError);
      } else {
        SilentCall(w, a);
      }
    }
  }

  /** The call of start() inside a silent restart. */
  lemma SilentCall(w: World, a: Conn)
    requires a.state.Connected? && a.protocol.On? && a.silent.On? && a.recovery.Off? && a.pending.NoAction?
    ensures var e := w.startResult(a.now);
            var b := Start(w, a);
      && (w.startSignals(a.now) == [] ==> b == a.(now := a.now + 1, tally := a.tally.(starts := a.tally.starts + 1)))
      && (e != NoError ==>
            var t := Fail(w, b.(silent := Off, connecting := Off), e);
            Failing(t, e) && (Quiet(w) ==> t.health == ProtocolStartFailed))
      && (var t := Fail(w, b.(silent := Off, connecting := Off), e);
            t.protocol.On? && t.tally == b.tally)
      && (var t := SilentFailure(w, b, HealthForError(e), e);
            t.protocol.On? && t.tally.starts == b.tally.starts)
      && (w.startSignals(a.now) == [] && Transient(e) ==>
            var t := SilentFailure(w, b, HealthForError(e), e);
            && RetryOutcome(t, e, a.attempts, a.serverKnown.On?)
            && t.tally.restarts == a.tally.restarts && t.tally.resets == a.tally.resets
            && t.tally.stops == a.tally.stops + 1)
  {
    hide Enter, DeliverAll, Failing, RetryOutcome, SilentFailure, Fail, Quiet;
    var e := w.startResult(a.now);
    var b := Start(w, a);
    if e != NoError { FailFails(w, b.(silent := Off, connecting := Off), e); }
    FailTally(w, b.(silent := Off, connecting := Off), e);
    FailKeeps(w, b.(silent := Off, connecting := Off), e);
    if w.startSignals(a.now) == [] {
      NothingDelivered(w, a.(now := a.now + 1, tally := a.tally.(starts := a.tally.starts + 1)));
      if Transient(e) { FailureRetries(w, b, HealthForError(e), e); }
    }
  }

  lemma FailTally(w: World, s: Conn, e: ErrorCode)
    ensures Fail(w, s, e).tally == s.tally
  {
    hide Enter;
    var t := Publish(s.(lastError := e), ProtocolStartFailed);
    assert Change(w, t, Error).tally == t.tally by { ChangeTally(w, t, Error); }
  }

  lemma ChangeTally(w: World, s: Conn, st: Lifecycle)
    ensures Change(w, s, st).tally == s.tally
  {
  }

  /** A scheduled recovery restarts the protocol when its timer fires. */
  lemma RecoveryOutcome(w: World, s: Conn)
    requires Inv(s) && s.recovery.On?
    ensures var t := Step(w, s, RecoveryFired);
      if s.state.Connected? && s.protocol.On? && s.serverKnown.On? then SilentOutcome(w, s, t, s.now)
      else t == s.(recovery := Off)
  {
    hide StartSilent, SilentOutcome;
    if s.state.Connected? && s.protocol.On? && s.serverKnown.On? {
      var a := s.(recovery := Off);
      SilentStart(w, a);
      SameSilentOutcome(w, a, s, StartSilent(w, a), s.now);
    }
  }

  lemma SameSilentOutcome(w: World, a: Conn, s: Conn, t: Conn, n: nat)
    requires SilentOutcome(w, a, t, n) && a.attempts == s.attempts && a.tally == s.tally
    requires a.serverKnown == s.serverKnown && a.stopping == s.stopping
    ensures SilentOutcome(w, s, t, n)
  {
  }

  /** One reset and the first attempt after it. */
  function Recounted(s: Conn): Conn {
    s.(attempts := 1, tally := s.tally.(resets := s.tally.resets + 1, scheduled := s.tally.scheduled + 1))
  }

  ghost predicate RequestOutcome(w: World, s: Conn, t: Conn, n: nat) {
    if !w.networkReady(n) then
      && t.state.Connected? && t.pending.RequestReconnect? && t.pendingTick.On? && t.connecting.Off?
      && t.probe.Off? && t.attempts == s.attempts && t.tally == s.tally && t.protocol.On?
    else SilentOutcome(w, Recounted(s), t, n + 1)
  }

  lemma Requested(w: World, s: Conn)
    requires s.state.Connected? && s.protocol.On? && s.silent.Off? && s.recovery.Off? && s.pending.NoAction?
    ensures RequestOutcome(w, s, Reconnect(w, s), s.now)
  {
    hide StartSilent, SilentOutcome;
    if w.networkReady(s.now) {
      var a := CountAttempt(ResetAttempts(Defer(w, s, RequestReconnect, Recovering)));
      SilentStart(w, a);
      SameSilentOutcome(w, a, Recounted(s), StartSilent(w, a), a.now);
    }
  }

  /** A wake-up restarts the protocol of a connection that is up and not being repaired; it does nothing
      otherwise. */
  lemma WakeOutcome(w: World, s: Conn)
    ensures var t := Step(w, s, Wake);
      if s.state.Connected? && s.protocol.On? && s.silent.Off? && s.recovery.Off? && s.pending.NoAction?
      then RequestOutcome(w, s, t, s.now) else t == s
  {
    hide StartSilent, RequestOutcome;
    if s.state.Connected? && s.protocol.On? && s.silent.Off? && s.recovery.Off? && s.pending.NoAction? {
      hide Reconnect;
      Requested(w, s);
    }
  }

  /** The other deferred actions, once there is a network; what is not wanted any more is dropped. */
  lemma ResumeOutcome(w: World, s: Conn, e: Event)
    requires Inv(s) && Resumes(s, e) && !(s.pending.StartConnection? && s.state.Connecting?)
    ensures var t := Step(w, s, e);
      if s.pending.NoAction? then t == s
      else if !w.networkReady(s.now) then t == s.(now := s.now + 1)
      else if s.pending.RequestReconnect? && s.state.Connected? then RequestOutcome(w, s, t, s.now + 1)
      else if s.pending.StartSilentReconnect? && s.state.Connected? then SilentOutcome(w, s, t, s.now + 1)
      else t == s.(now := s.now + 1, pending := NoAction, pendingTick := Off, deadline := Off, lost := t.lost)
  {
    hide StartSilent, Reconnect, SilentOutcome, RequestOutcome;
    var a := StopPending(s).(now := s.now + 1);
    if s.pending.NoAction? || !w.networkReady(s.now) {
    } else if s.pending.RequestReconnect? && s.state.Connected? {
      Requested(w, a);
      SameRequestOutcome(w, a, s, Reconnect(w, a), a.now);
    } else if s.pending.StartSilentReconnect? && s.state.Connected? {
      SilentStart(w, a);
      SameSilentOutcome(w, a, s, StartSilent(w, a), a.now);
    }
  }

  lemma SameRequestOutcome(w: World, a: Conn, s: Conn, t: Conn, n: nat)
    requires RequestOutcome(w, a, t, n) && a.attempts == s.attempts && a.tally == s.tally
    requires a.serverKnown == s.serverKnown && a.stopping == s.stopping
    ensures RequestOutcome(w, s, t, n)
  {
    hide SilentOutcome;
    if w.networkReady(n) { SameSilentOutcome(w, Recounted(a), Recounted(s), t, n + 1); }
  }

  // ---------- scheduling a recovery ----------

  /** A failed probe or DNS lookup of a connection: a recovery is scheduled if and only if it is possible, none
      is under way and fewer than three attempts have been used. The failure is recorded in any case. */
  lemma FailedCheckOutcome(w: World, s: Conn, e: Event)
    requires s.state.Connected? && s.silent.Off? && (e == ProbeAnswer(false) || e == DnsAnswer(false))
    ensures var t := Step(w, s, e);
            var possible := s.protocol.On? && s.serverKnown.On?;
            var underWay := s.recovery.On? || !s.pending.NoAction?;
      && t.state.Connected? && t.lastError == VpnNoTrafficError
      && t.health == (if e.DnsAnswer? then DnsFailed else NoTraffic)
      && (t.attempts == s.attempts + 1 <==> possible && !underWay && s.attempts < 3)
      && (t.attempts == s.attempts + 1 ==> t.recovery.On? && t.healthTick.Off? && t.probe.Off?)
      && (t.attempts != s.attempts + 1 ==> t.attempts == s.attempts && t.recovery == s.recovery)
      && (possible && underWay ==> t.healthTick == s.healthTick)
      && (!(possible && underWay) ==> t.healthTick.Off? && t.idleChecks == 0)
      && t.pending == s.pending && t.protocol == s.protocol && t.tally.starts == s.tally.starts
      && t.silent.Off? && t.serverKnown == s.serverKnown && t.tally.restarts == s.tally.restarts
      && t.tally.resets == s.tally.resets && t.statesLive == s.statesLive && t.stopping == s.stopping
  {
  }

  /** Checks answered at any other time change nothing but the probe itself. */
  lemma IdleCheckOutcome(w: World, s: Conn, ok: bool)
    requires !s.state.Connected? || s.silent.On?
    ensures Step(w, s, DnsAnswer(ok)) == s
    ensures Step(w, s, ProbeAnswer(false)) == s.(probe := Off)
    ensures !s.state.Connected? ==> Step(w, s, ProbeAnswer(true)) == s.(probe := Off)
  {
  }

  /** Good answers clear the failure; a good probe also restores the budget. */
  lemma GoodCheckOutcome(w: World, s: Conn)
    requires s.state.Connected?
    ensures Step(w, s, ProbeAnswer(true)) == s.(probe := Off, lastError := NoError, attempts := 0,
              tally := s.tally.(resets := s.tally.resets + 1),
              health := if s.health == DnsFailed then DnsFailed else Healthy)
    ensures s.silent.Off? ==>
      Step(w, s, DnsAnswer(true)) == if s.health == DnsFailed then s.(lastError := NoError, health := Healthy) else s
  {
  }

  /** The ways a silent reconnect fails: its watchdog, a Disconnected report, or a transient error. */
  lemma SilentFailureOutcome(w: World, s: Conn, e: Event)
    requires Inv(s) && s.state.Connected? && s.silent.On? && s.protocol.On? && s.pending.NoAction?
    ensures e.ConnectingFired? ==>
      RetryOutcome(Step(w, s, e), VpnHandshakeTimeout, s.attempts, s.serverKnown.On?)
    ensures e == FromProtocol(StateSignal(Disconnected)) && s.statesLive.On? ==>
      RetryOutcome(Step(w, s, e), AmneziaServiceConnectionFailed, s.attempts, s.serverKnown.On?)
    ensures e.FromProtocol? && e.sig.ErrorSignal? && s.errorsLive.On? && Transient(e.sig.error) ==>
      RetryOutcome(Step(w, s, e), e.sig.error, s.attempts, s.serverKnown.On?)
    ensures e.ConnectingFired? ==>
      Step(w, s, e).tally.stops == s.tally.stops + 1 && Step(w, s, e).protocolError == w.storedError(s.now)
  {
    hide SilentFailure, RetryOutcome;
    if e.ConnectingFired? {
      FailureRetries(w, s.(connecting := Off), HandshakeTimeout, VpnHandshakeTimeout);
    } else if e == FromProtocol(StateSignal(Disconnected)) {
      FailureRetries(w, s, LocalServiceUnavailable, AmneziaServiceConnectionFailed);
    } else if e.FromProtocol? && e.sig.ErrorSignal? && Transient(e.sig.error) {
      FailureRetries(w, s, HealthForError(e.sig.error), e.sig.error);
    }
  }

  // ---------- a full budget ----------

  /** Up, repairable, and not being repaired. */
  predicate Up(s: Conn) {
    && s.state.Connected? && s.protocol.On? && s.serverKnown.On? && s.silent.Off? && s.recovery.Off?
    && s.pending.NoAction? && s.statesLive.On? && s.stopping.Off?
  }

  /** A failed probe, the recovery it schedules, and the report of the new protocol object. */
  function Repair(w: World, s: Conn): Conn {
    Step(w, Step(w, Step(w, s, ProbeAnswer(false)), RecoveryFired), FromProtocol(StateSignal(Connected)))
  }

  lemma RepairWorks(w: World, s: Conn)
    requires Inv(s) && Smooth(w) && Up(s) && s.attempts < 3
    ensures var t := Repair(w, s);
      && Inv(t) && Up(t) && t.attempts == s.attempts + 1
      && t.tally.restarts == s.tally.restarts + 1 && t.tally.resets == s.tally.resets
  {
    hide Step, Inv;
    var a := Step(w, s, ProbeAnswer(false));
    var b := Step(w, a, RecoveryFired);
    FailedCheckOutcome(w, s, ProbeAnswer(false));
    StepInv(w, s, ProbeAnswer(false));
    RecoveryOutcome(w, a);
    StepInv(w, a, RecoveryFired);
    ConnectedReport(w, b);
    StepInv(w, b, FromProtocol(StateSignal(Connected)));
  }

  lemma ConnectedReport(w: World, s: Conn)
    requires s.statesLive.On?
    ensures Step(w, s, FromProtocol(StateSignal(Connected))) ==
      var t := Step(w, s, FromProtocol(StateSignal(Connected)));
      s.(state := Connected, silent := Off, connecting := Off, healthTick := On, idleChecks := 0, lost := Kept,
         now := s.now + 1, health := t.health)
  {
  }

  /** The budget can be used up: three restarts between two resets. */
  lemma ThreeRestarts(w: World, s: Conn)
    requires Inv(s) && Smooth(w) && Up(s) && s.attempts == 0
    ensures var t := Repair(w, Repair(w, Repair(w, s)));
      && t.tally.restarts == s.tally.restarts + 3 && t.tally.resets == s.tally.resets && t.attempts == 3
      && Step(w, t, ProbeAnswer(false)).recovery.Off?
  {
    hide Repair, Step, Inv;
    RepairWorks(w, s);
    RepairWorks(w, Repair(w, s));
    RepairWorks(w, Repair(w, Repair(w, s)));
    FailedCheckOutcome(w, Repair(w, Repair(w, Repair(w, s))), ProbeAnswer(false));
  }

  /** And such a state is reached from the start. */
  lemma UpIsReached(w: World)
    requires Smooth(w)
    ensures var s := Step(w, Step(w, Initial, UserConnect(true)), FromProtocol(StateSignal(Connected)));
      Inv(s) && Up(s) && s.attempts == 0
  {
    hide Step, Inv;
    var a := Step(w, Initial, UserConnect(true));
    assert Inv(Initial) by { ReachableIsSound(w, []); InitialIsReached(w); }
    StepInv(w, Initial, UserConnect(true));
    FirstUp(w);
    ConnectedReport(w, a);
    StepInv(w, a, FromProtocol(StateSignal(Connected)));
  }

  lemma InitialIsReached(w: World)
    ensures Run(w, Initial, []) == Initial
  {
  }

  lemma FirstUp(w: World)
    requires Smooth(w)
    ensures var a := Step(w, Initial, UserConnect(true));
      && a.protocol.On? && a.serverKnown.On? && a.silent.Off? && a.recovery.Off? && a.pending.NoAction?
      && a.statesLive.On? && a.stopping.Off? && a.attempts == 0
  {
  }

  // ---------- ends ----------

  /** A disconnect stops the protocol object it drops, whatever stop() reports. */
  lemma DisconnectStops(w: World, s: Conn)
    ensures var t := Step(w, s, UserDisconnect);
      t.protocol.Off? && (s.protocol.On? ==> t.tally.stops > s.tally.stops && t.protocolError == NoError)
  {
    hide DeliverAll, SettledHealth;
  }

  /** A silent restart forgets the diagnostic that led to it: an unexplained Error of the new object shows
      no old problem. */
  lemma RestartForgetsProblem(w: World, s: Conn)
    requires Inv(s) && s.recovery.On? && s.state.Connected? && s.protocol.On? && s.serverKnown.On?
    requires Quiet(w) && w.networkReady(s.now) && w.factory(s.now + 1) && w.startResult(s.now + 2) == NoError
    requires w.startSignals(s.now + 2) == [StateSignal(Error)]
    ensures var t := Step(w, s, RecoveryFired); t.state.Error? && t.health == UnknownFailure
  {
    hide Enter;
    var a := Replace(w, Defer(w, s.(recovery := Off), StartSilentReconnect, Recovering));
    var b := a.(now := a.now + 1, tally := a.tally.(starts := a.tally.starts + 1));
    assert [StateSignal(Error)][1..] == [];
    assert DeliverAll(w, b, [StateSignal(Error)]) == DeliverAll(w, Deliver(w, b, StateSignal(Error)), []);
    ErrorReport(w, b);
  }

  lemma ErrorReport(w: World, s: Conn)
    requires Quiet(w)
    ensures var t := Change(w, s, Error);
      t.state.Error? && t.health == if Bad(s.health) then s.health else UnknownFailure
  {
  }

  // ---------- timeouts ----------

  /** The watchdog or the deadline ends a first connection with a handshake timeout on record. */
  lemma TimeoutOutcome(w: World, s: Conn, e: Event)
    requires Inv(s) && (s.state.Connecting? || s.state.Reconnecting?)
    requires (e.ConnectingFired? && s.connecting.On?) || (e.DeadlineFired? && s.deadline.On?)
    ensures var t := Step(w, s, e);
      && t.state.Error? && Problem(t.health) && t.stopping.Off? && t.connecting.Off?
      && (e.DeadlineFired? ==> t.pending.NoAction?)
      && (s.protocol.On? ==> t.tally.stops > s.tally.stops)
      && (s.protocol.Off? || w.stopSignals(s.now) == [] ==> Failing(t, VpnHandshakeTimeout))
      && (Quiet(w) && (s.protocol.Off? || w.stopSignals(s.now) == []) ==> t.health == HandshakeTimeout)
  {
    hide DeliverAll;
    var a := if e.ConnectingFired? then s.(connecting := Off) else StopPending(s);
    NothingDelivered(w, a.(lastError := VpnHandshakeTimeout, now := s.now + 1, stopping := On,
      health := HandshakeTimeout, tally := s.tally.(stops := s.tally.stops + 1)));
  }

  /** In the other states a late watchdog does nothing. */
  lemma LateTimeout(w: World, s: Conn)
    requires s.connecting.On? && !s.state.Connecting? && !s.state.Reconnecting? && !(s.silent.On? && s.state.Connected?)
    ensures Step(w, s, ConnectingFired) == s.(connecting := Off)
  {
  }

  // ---------- reports of the protocol ----------

  /** A report that changes the state: what is shown and which timers run afterwards. */
  lemma ReportOutcome(w: World, s: Conn, st: Lifecycle)
    requires s.statesLive.On? && !(st.Disconnected? && (s.stopping.On? || (s.state.Error? && s.lastError != NoError)))
    requires !(s.silent.On? && st.Disconnected? && s.state.Connected?)
    ensures var t := Step(w, s, FromProtocol(StateSignal(st)));
      && t.state == (if st.Disconnected? && s.state.Reconnecting? then Reconnecting else st)
      && (!st.Preparing? ==>
            && (t.connecting.On? <==> st.Connecting? || st.Reconnecting?)
            && (t.healthTick.On? <==> st.Connected?)
            && t.idleChecks == 0)
      && (st.Preparing? ==>
            t.connecting == s.connecting && t.healthTick == s.healthTick && t.idleChecks == s.idleChecks)
      && (st.Connected? || st.Preparing? ==> t.recovery == s.recovery && t.probe == s.probe)
      && (!st.Connected? && !st.Preparing? ==> t.recovery.Off? && t.probe.Off?)
      && (t.silent.On? <==> s.silent.On? && !st.Connected?)
      && (Quiet(w) ==> t.health == ShownFor(s, st))
      && t.lastError == ErrorFor(s, st)
      && t.pending == s.pending && t.deadline == s.deadline && t.protocol == s.protocol && t.attempts == s.attempts
      && t.tally == s.tally && t.statesLive == s.statesLive && t.errorsLive == s.errorsLive
  {
  }

  /** Entering Connected, Disconnected or Error runs the routing code, whose diagnostic is shown if it fits. */
  lemma RoutingOutcome(w: World, s: Conn, st: Lifecycle, h: Health)
    requires s.statesLive.On? && s.silent.Off? && s.stopping.Off? && s.state.Connected? && w.routing(s.now) == [h]
    ensures var t := Step(w, s, FromProtocol(StateSignal(st)));
      && (st.Connected? ==> t.health == if Bad(h) then h else CheckingTraffic)
      && (st.Error? && Bad(h) ==> t.health == h)
      && (st.Disconnected? && Bad(h) ==>
            t.health == if ErrorFor(s, Disconnected) != NoError then h else Idle)
  {
    hide LastPublished;
    OnePublished(st, EntryError(st, s.health, BlamedError(s, st)),
                 Published(st, EntryError(st, s.health, BlamedError(s, st)), s.health,
                           EntryHealth(st, false, s.health)), h);
  }

  lemma OnePublished(st: Lifecycle, lastError: ErrorCode, health: Health, h: Health)
    ensures LastPublished(st, lastError, health, [h]) == Published(st, lastError, health, h)
  {
    assert [h][1..] == [];
  }

  /** The diagnostic shown after a report. */
  function ShownFor(s: Conn, st: Lifecycle): Health {
    match st
    case Connecting => if s.silent.On? then Recovering else StartingProtocol
    case Reconnecting => Recovering
    case Connected => CheckingTraffic
    case Preparing => PreparingConfig
    case Disconnected => Idle
    case Error => if Bad(s.health) then s.health else UnknownFailure
    case Disconnecting => s.health
    case Unknown => s.health
  }

  /** A clean end forgets the error; an unexplained Error gets one. */
  function ErrorFor(s: Conn, st: Lifecycle): ErrorCode {
    if st.Disconnected? && !Bad(s.health) then NoError
    else if st.Error? && s.lastError == NoError && (s.protocol.Off? || s.protocolError == NoError) then UnknownError
    else s.lastError
  }

  /** Reports that have no effect: a signal that is not connected, and a late Disconnected while stopping or
      after a failure. */
  lemma IgnoredReport(w: World, s: Conn, st: Lifecycle)
    requires s.statesLive.Off? ||
      (st.Disconnected? && !(s.silent.On? && s.state.Connected?) &&
       (s.stopping.On? || (s.state.Error? && s.lastError != NoError)))
    ensures Step(w, s, FromProtocol(StateSignal(st))) == s
  {
  }

  /** An error signal: recorded while ending, final otherwise, unless a silent reconnect retries it. */
  lemma ErrorOutcome(w: World, s: Conn, e: ErrorCode)
    requires s.errorsLive.On? && !(s.silent.On? && Transient(e)) && e != NoError
    ensures var t := Step(w, s, FromProtocol(ErrorSignal(e)));
            var service := e == AmneziaServiceConnectionFailed || e == VpnBackendFailure;
      if s.state.Disconnected? || s.state.Disconnecting? then
        t.state == s.state && t.lastError == e && t.health == if service then LocalServiceUnavailable else s.health
      else
        && Failing(t, e) && t.silent.Off?
        && (Quiet(w) ==> t.health == if service then LocalServiceUnavailable
                                     else if Bad(s.health) then s.health else UnknownFailure)
  {
  }

  lemma OtherSignals(w: World, s: Conn, e: ErrorCode, n: nat)
    ensures s.errorsLive.Off? ==> Step(w, s, FromProtocol(ErrorSignal(e))) == s
    ensures Step(w, s, FromProtocol(ErrorStored(e))) == if s.protocol.On? then s.(protocolError := e) else s
    ensures Step(w, s, FromProtocol(BytesSignal(n))) ==
            if s.statesLive.On? && s.state.Connected? && n > 0 then s.(idleChecks := 0) else s
    ensures Step(w, s, SlotsDisconnected) == s.(errorsLive := Off, statesLive := Off)
  {
  }

  /** A diagnostic that arrives late is shown if and only if it fits the lifecycle. */
  lemma DiagnosticOutcome(w: World, s: Conn, h: Health)
    ensures var fits := if s.state.Disconnected? then h == Idle || (s.lastError != NoError && Problem(h))
                        else s.state.Error? ==> Problem(h);
      Step(w, s, LateDiagnostic(h)) == if fits then s.(health := h) else s
  {
  }

  // ---------- checks ----------

  /** `k` checks in a row. */
  function Checked(w: World, s: Conn, k: nat): Conn {
    if k == 0 then s else Step(w, Checked(w, s, k - 1), HealthFired)
  }

  /** Without traffic the fifth check starts a probe, and no earlier one does. */
  lemma {:induction false} FifthCheckProbes(w: World, s: Conn, k: nat)
    requires s.state.Connected? && s.silent.Off? && s.protocol.On? && s.healthTick.On? && s.probe.Off?
    requires s.health != DnsFailed && s.health != Healthy && s.idleChecks == 0
    requires forall n: nat :: w.statusRequested(n)
    ensures var t := Checked(w, s, k);
      && t == s.(now := s.now + k, idleChecks := k, probe := t.probe)
      && (t.probe.On? <==> k >= 5)
    decreases k
  {
    if k > 0 { FifthCheckProbes(w, s, k - 1); }
  }

  /** A check of a healthy connection, or one whose status cannot be asked, probes at once. */
  lemma CheckProbesAtOnce(w: World, s: Conn)
    requires s.state.Connected? && s.silent.Off? && s.healthTick.On? && s.health != DnsFailed
    requires s.health == Healthy || s.protocol.Off? || !w.statusRequested(s.now)
    ensures Step(w, s, HealthFired).probe.On? && Step(w, s, HealthFired).idleChecks == s.idleChecks
  {
  }

  /** No check probes a connection that is being repaired or is not up. */
  lemma CheckLeavesAlone(w: World, s: Conn)
    requires s.healthTick.On?
    ensures !s.state.Connected? ==> Step(w, s, HealthFired) == s.(healthTick := Off, idleChecks := 0)
    ensures s.state.Connected? && (s.silent.On? || s.health == DnsFailed) ==>
      var t := Step(w, s, HealthFired); t == s.(now := t.now, idleChecks := t.idleChecks)
    ensures Step(w, s, PostedHealthCheck) == Step(w, s, HealthFired).(probe := On)
  {
  }
}
