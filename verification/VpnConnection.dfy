/** The connection object itself: its members are the components of one record that the handlers
    update in place, step by step. Every handler is proved to compute the function of VpnSpec that
    specifies it. */
module VpnConnectionObject {
  import opened Switches
  import opened VpnTypes
  import opened VpnSpec
  import opened VpnInvariants
  import opened VpnTheorems

  class VpnConnection {
    const world: World
    var conn: Conn // state, health, last error, timers, counters, flags, deferred action, protocol

    constructor (world: World)
      ensures this.world == world && conn == Initial && Inv(conn)
    {
      this.world := world;
      conn := Initial;
    }

    // ---------- diagnostics and timers ----------

    method SetConnectionHealth(health: Health)
      modifies this
      ensures conn == Publish(old(conn), health)
    {
      if ShouldPublish(conn.state, conn.lastError, health) {
        conn := conn.(health := health);
      }
    }

    /** Diagnostics published by the routing code while a state is entered. */
    method PublishRouting()
      modifies this
      ensures conn == old(conn).(now := old(conn).now + 1,
                health := LastPublished(conn.state, conn.lastError, old(conn).health, world.routing(old(conn).now)))
    {
      var healths := world.routing(conn.now);
      conn := conn.(now := conn.now + 1);
      for i := 0 to |healths|
        invariant conn == old(conn).(now := old(conn).now + 1, health := conn.health)
        invariant LastPublished(conn.state, conn.lastError, conn.health, healths[i..])
               == LastPublished(conn.state, conn.lastError, old(conn).health, healths)
      {
        SetConnectionHealth(healths[i]);
      }
    }

    method StopPendingNetworkAction()
      modifies this
      ensures conn == StopPending(old(conn))
    {
      conn := conn.(pending := NoAction);
      conn := conn.(pendingTick := Off);
      conn := conn.(deadline := Off);
    }

    method StopConnectedHealthCheck()
      modifies this
      ensures conn == old(conn).(healthTick := Off, idleChecks := 0)
    {
      conn := conn.(healthTick := Off);
      conn := conn.(idleChecks := 0);
    }

    method StartConnectedHealthCheck()
      requires conn.state.Connected?
      modifies this
      ensures conn == old(conn).(idleChecks := 0, healthTick := On,
                health := if Problem(old(conn).health) then old(conn).health else CheckingTraffic)
    {
      conn := conn.(idleChecks := 0);
      if !Problem(conn.health) {
        SetConnectionHealth(CheckingTraffic);
      }
      conn := conn.(healthTick := On);
    }

    /** The stops shared by the states that end a connection. */
    method StopEverything()
      modifies this
      ensures conn == old(conn).(connecting := Off, probe := Off, healthTick := Off,
                                       idleChecks := 0, recovery := Off)
    {
      conn := conn.(connecting := Off);
      conn := conn.(probe := Off);
      StopConnectedHealthCheck();
      conn := conn.(recovery := Off);
    }

    // ---------- lifecycle ----------

    method OnConnectionStateChanged(state: Lifecycle)
      requires conn.state == state
      modifies this
      ensures conn == Enter(world, old(conn), state)
    {
      match state {
        case Connecting =>
          SetConnectionHealth(if conn.silent.On? then Recovering else StartingProtocol);
          conn := conn.(recovery := Off);
          conn := conn.(connecting := On);
          conn := conn.(probe := Off);
          StopConnectedHealthCheck();
        case Reconnecting =>
          SetConnectionHealth(Recovering);
          conn := conn.(recovery := Off);
          conn := conn.(connecting := On);
          conn := conn.(probe := Off);
          StopConnectedHealthCheck();
        case Connected =>
          conn := conn.(connecting := Off);
          SetConnectionHealth(ApplyingRoutes);
        case Disconnected =>
          StopEverything();
          if !Problem(conn.health) {
            conn := conn.(lastError := NoError);
          }
          SetConnectionHealth(Idle);
        case Error =>
          StopEverything();
          if !Problem(conn.health) {
            SetConnectionHealth(UnknownFailure);
          }
        case Preparing =>
          SetConnectionHealth(PreparingConfig);
        case Disconnecting =>
          StopEverything();
        case Unknown =>
          StopEverything();
      }
      if Routes(state) {
        PublishRouting();
      }
      if state.Connected? {
        StartConnectedHealthCheck();
      }
    }

    method SetConnectionState(state: Lifecycle)
      modifies this
      ensures conn == SetState(world, old(conn), state)
      decreases if state.Disconnected? then 2 else 0
    {
      hide SilentFailure, SettledHealth, EntryError, Quiets;
      var previousState := conn.state;
      if conn.silent.On? && state.Disconnected? && previousState.Connected? {
        var _ := HandleSilentReconnectFailure(LocalServiceUnavailable, AmneziaServiceConnectionFailed);
        return;
      }
      if conn.stopping.On? && state.Disconnected? {
        return;
      }
      if previousState.Error? && state.Disconnected? && conn.lastError != NoError {
        return;
      }
      if state.Connected? {
        conn := conn.(silent := Off);
      }
      if state.Error? && conn.lastError == NoError && (!conn.protocol.On? || conn.protocolError == NoError) {
        conn := conn.(lastError := UnknownError);
      }
      conn := conn.(state := state);
      OnConnectionStateChanged(state);
      conn := conn.(lost := Kept);
      if state.Disconnected? && previousState.Reconnecting? {
        conn := conn.(state := previousState, lost := ByReport);
      }
    }

    method HandleSilentReconnectFailure(health: Health, error: ErrorCode) returns (retried: bool)
      modifies this
      ensures conn == SilentFailure(world, old(conn), health, error)
      ensures retried == Retries(Choice(Abandon(world, old(conn))))
      decreases 1
    {
      hide Enter, Recover, Choice;
      conn := conn.(connecting := Off);
      conn := conn.(silent := Off);
      if conn.protocol.On? {
        conn := conn.(stopping := On);
        conn := conn.(errorsLive := Off, statesLive := Off);
        conn := conn.(protocolError := world.storedError(conn.now));
        conn := conn.(tally := conn.tally.(stops := conn.tally.stops + 1));
        conn := conn.(now := conn.now + 1);
        conn := conn.(stopping := Off);
      }
      retried := RecoverConnectedTunnel(health, error);
      if !retried {
        SetConnectionState(Error);
      }
    }

    method RecoverConnectedTunnel(health: Health, error: ErrorCode) returns (retried: bool)
      modifies this
      ensures conn == Recover(old(conn), health, error)
      ensures retried == Retries(Choice(old(conn)))
    {
      conn := conn.(lastError := error);
      SetConnectionHealth(health);
      if !conn.state.Connected? || conn.silent.On? || !conn.protocol.On? || !conn.serverKnown.On? {
        StopConnectedHealthCheck();
        return false;
      }
      if conn.recovery.On? || !conn.pending.NoAction? {
        return true;
      }
      if conn.attempts >= MAX_ATTEMPTS {
        StopConnectedHealthCheck();
        return false;
      }
      conn := conn.(attempts := conn.attempts + 1);
      conn := conn.(tally := conn.tally.(scheduled := conn.tally.scheduled + 1));
      StopConnectedHealthCheck();
      conn := conn.(probe := Off);
      conn := conn.(recovery := On);
      return true;
    }

    // ---------- signals ----------

    method OnProtocolError(error: ErrorCode)
      modifies this
      ensures conn == ProtocolError(world, old(conn), error)
    {
      hide Change, SilentFailure;
      if conn.silent.On? && Recoverable(error) {
        var _ := HandleSilentReconnectFailure(HealthForError(error), error);
        return;
      }
      conn := conn.(lastError := error);
      if error == AmneziaServiceConnectionFailed || error == VpnBackendFailure {
        SetConnectionHealth(LocalServiceUnavailable);
      }
      if !conn.state.Disconnected? && !conn.state.Disconnecting? {
        conn := conn.(silent := Off);
        SetConnectionState(Error);
      }
    }

    method OnSignal(signal: Signal)
      modifies this
      ensures conn == Deliver(world, old(conn), signal)
    {
      hide SetState, ProtocolError;
      match signal {
        case StateSignal(state) =>
          if conn.statesLive.On? { SetConnectionState(state); }
        case ErrorSignal(error) =>
          if conn.errorsLive.On? { OnProtocolError(error); }
        case ErrorStored(error) =>
          if conn.protocol.On? { conn := conn.(protocolError := error); }
        case BytesSignal(received) =>
          if conn.statesLive.On? && conn.state.Connected? && received > 0 { conn := conn.(idleChecks := 0); }
      }
    }

    /** Signals reported from inside one call to the protocol object. */
    method HandleSignals(signals: seq<Signal>)
      modifies this
      ensures conn == DeliverAll(world, old(conn), signals)
    {
      hide Deliver;
      for i := 0 to |signals|
        invariant DeliverAll(world, conn, signals[i..]) == DeliverAll(world, old(conn), signals)
      {
        OnSignal(signals[i]);
      }
    }

    method StopProtocol()
      modifies this
      ensures conn == Stop(world, old(conn))
    {
      hide DeliverAll;
      var signals := world.stopSignals(conn.now);
      conn := conn.(now := conn.now + 1);
      conn := conn.(tally := conn.tally.(stops := conn.tally.stops + 1));
      HandleSignals(signals);
    }

    method StartProtocol() returns (result: ErrorCode)
      modifies this
      ensures conn == Start(world, old(conn))
      ensures result == world.startResult(old(conn).now)
    {
      hide DeliverAll;
      result := world.startResult(conn.now);
      var signals := world.startSignals(conn.now);
      conn := conn.(now := conn.now + 1);
      conn := conn.(tally := conn.tally.(starts := conn.tally.starts + 1));
      HandleSignals(signals);
    }

    method CreateProtocol()
      modifies this
      ensures conn == NewProtocol(world, old(conn))
    {
      conn := conn.(protocol := Switched(world.factory(conn.now)));
      conn := conn.(now := conn.now + 1);
      conn := conn.(protocolError := NoError);
      conn := conn.(errorsLive := Switched(conn.protocol.On?), statesLive := Switched(conn.protocol.On?));
    }

    method ReleaseProtocol()
      modifies this
      ensures conn == DropProtocol(old(conn))
    {
      conn := conn.(protocol := Off, protocolError := NoError);
      conn := conn.(errorsLive := Off, statesLive := Off);
    }

    // ---------- starting, deferring and resuming ----------

    method PhysicalNetworkReady() returns (ready: bool)
      modifies this
      ensures conn == old(conn).(now := old(conn).now + 1)
      ensures ready == world.networkReady(old(conn).now)
    {
      ready := world.networkReady(conn.now);
      conn := conn.(now := conn.now + 1);
    }

    method DeferUntilPhysicalNetworkReady(action: PendingAction, health: Health) returns (deferred: bool)
      modifies this
      ensures conn == Defer(world, old(conn), action, health)
      ensures deferred == !world.networkReady(old(conn).now)
    {
      var ready := PhysicalNetworkReady();
      if ready {
        return false;
      }
      conn := conn.(pending := action);
      conn := conn.(pendingTick := On);
      if action.StartConnection? {
        conn := conn.(deadline := On);
      }
      conn := conn.(connecting := Off);
      conn := conn.(recovery := Off);
      conn := conn.(probe := Off);
      SetConnectionHealth(health);
      return true;
    }

    method StartConfiguredConnection()
      modifies this
      ensures conn == StartConfigured(world, old(conn))
    {
      hide Change, Start;
      StopPendingNetworkAction();
      conn := conn.(connecting := On, lost := Kept);
      CreateProtocol();
      if !conn.protocol.On? {
        conn := conn.(lastError := InternalError);
        SetConnectionState(Error);
        return;
      }
      var error := StartProtocol();
      if error != NoError {
        conn := conn.(lastError := error);
        SetConnectionHealth(ProtocolStartFailed);
        SetConnectionState(Error);
        return;
      }
      if !conn.silent.On? {
        SetConnectionHealth(WaitingHandshake);
      }
    }

    /** The current protocol object is used without a test, so there must be one. */
    method StartSilentReconnect()
      requires conn.protocol.On?
      modifies this
      ensures conn == StartSilent(world, old(conn))
    {
      if conn.silent.On? {
        return;
      }
      var deferred := DeferUntilPhysicalNetworkReady(PendingAction.StartSilentReconnect, Recovering);
      if deferred {
        return;
      }
      RestartSilently();
    }

    method RestartSilently()
      modifies this
      ensures conn == SilentRestart(world, old(conn))
    {
      hide Change, Start, SilentFailure;
      StopPendingNetworkAction();
      conn := conn.(connecting := Off);
      conn := conn.(recovery := Off);
      conn := conn.(silent := On);
      SetConnectionHealth(Recovering);
      conn := conn.(tally := conn.tally.(restarts := conn.tally.restarts + 1));
      conn := conn.(errorsLive := Off, statesLive := Off);
      conn := conn.(tally := conn.tally.(stops := conn.tally.stops + 1)); // the old object stops unheard
      CreateProtocol();
      if !conn.protocol.On? {
        conn := conn.(silent := Off);
        conn := conn.(lastError := InternalError);
        SetConnectionHealth(ProtocolStartFailed);
        SetConnectionState(Error);
        return;
      }
      conn := conn.(connecting := On);
      assert conn == Replace(world, old(conn));
      var error := StartProtocol();
      if error != NoError {
        if Recoverable(error) {
          var _ := HandleSilentReconnectFailure(HealthForError(error), error);
          return;
        }
        conn := conn.(connecting := Off);
        conn := conn.(silent := Off);
        conn := conn.(lastError := error);
        SetConnectionHealth(ProtocolStartFailed);
        SetConnectionState(Error);
        return;
      }
      if conn.silent.On? {
        SetConnectionHealth(Recovering);
      }
    }

    method ReconnectToVpn()
      modifies this
      ensures conn == Reconnect(world, old(conn))
    {
      hide StartSilent;
      if !conn.protocol.On? {
        return;
      }
      if conn.silent.On? || conn.recovery.On? || !conn.pending.NoAction? {
        return;
      }
      if !conn.state.Connected? {
        return;
      }
      var deferred := DeferUntilPhysicalNetworkReady(RequestReconnect, Recovering);
      if deferred {
        return;
      }
      if !conn.silent.On? {
        conn := conn.(attempts := 0);
        conn := conn.(tally := conn.tally.(resets := conn.tally.resets + 1));
      }
      if conn.attempts < MAX_ATTEMPTS {
        conn := conn.(attempts := conn.attempts + 1);
        conn := conn.(tally := conn.tally.(scheduled := conn.tally.scheduled + 1));
        StartSilentReconnect();
      }
    }

    /** Resuming never tests the protocol object; the invariant says a deferred reconnect has one. */
    method ResumePendingNetworkAction()
      requires RecoveryExclusive(conn)
      modifies this
      ensures conn == Resume(world, old(conn))
    {
      hide StartConfigured, Reconnect, StartSilent;
      if conn.pending.NoAction? {
        return;
      }
      var ready := PhysicalNetworkReady();
      if !ready {
        return;
      }
      var action := conn.pending;
      StopPendingNetworkAction();
      match action {
        case StartConnection =>
          if conn.state.Connecting? { StartConfiguredConnection(); } else { NoteDrop(); }
        case RequestReconnect =>
          if conn.state.Connected? { ReconnectToVpn(); } else { NoteDrop(); }
        case StartSilentReconnect =>
          if conn.state.Connected? { StartSilentReconnect(); } else { NoteDrop(); }
        case NoAction =>
      }
    }

    /** History only: the dropped action was all that could end a Reconnecting without watchdog. */
    method NoteDrop()
      modifies this
      ensures conn == Dropped(old(conn))
    {
      if conn.state.Reconnecting? && conn.connecting.Off? {
        conn := conn.(lost := ByDrop);
      }
    }

    // ---------- user requests ----------

    method ConnectToVpn(known: bool)
      modifies this
      ensures conn == Connect(world, old(conn), known)
    {
      hide Change, StopPrevious, StartConfigured, Defer;
      var ready := world.repositories(conn.now);
      conn := conn.(now := conn.now + 1);
      if !ready {
        SetConnectionState(Error);
        return;
      }
      BeginConnecting(known);
      var protected := world.protection(conn.now);
      conn := conn.(now := conn.now + 1);
      if !protected {
        conn := conn.(lastError := AmneziaServiceConnectionFailed);
        SetConnectionHealth(LocalServiceUnavailable);
        SetConnectionState(Error);
        return;
      }
      StopPreviousProtocol();
      var deferred := DeferUntilPhysicalNetworkReady(StartConnection, CheckingLocalNetwork);
      if deferred {
        return;
      }
      StartConfiguredConnection();
    }

    method BeginConnecting(known: bool)
      modifies this
      ensures conn == BeginConnect(world, old(conn), known)
    {
      hide Change;
      conn := conn.(lastError := NoError);
      conn := conn.(attempts := 0);
      conn := conn.(tally := conn.tally.(resets := conn.tally.resets + 1));
      conn := conn.(recovery := Off);
      conn := conn.(stopping := Off);
      conn := conn.(serverKnown := Switched(known));
      StopPendingNetworkAction();
      SetConnectionState(Connecting);
    }

    method StopPreviousProtocol()
      modifies this
      ensures conn == StopPrevious(world, old(conn))
    {
      hide Stop;
      if conn.protocol.On? {
        conn := conn.(errorsLive := Off);
        StopProtocol();
        ReleaseProtocol();
      }
    }

    method DisconnectFromVpn()
      modifies this
      ensures conn == Disconnect(world, old(conn))
    {
      hide Change, Stop;
      StopPendingNetworkAction();
      conn := conn.(silent := Off);
      conn := conn.(stopping := Off);
      conn := conn.(attempts := 0);
      conn := conn.(tally := conn.tally.(resets := conn.tally.resets + 1));
      conn := conn.(recovery := Off);
      conn := conn.(connecting := Off);
      if !conn.protocol.On? {
        SetConnectionState(Disconnected);
        return;
      }
      SetConnectionState(Disconnecting);
      StopProtocol();
      ReleaseProtocol();
      if conn.state.Disconnecting? {
        SetConnectionState(Disconnected);
      }
    }

    // ---------- timers and answers ----------

    method OnConnectingTimedOut()
      modifies this
      ensures conn == TimedOut(world, old(conn))
    {
      hide Change, Stop, SilentFailure;
      var silentReconnectTimedOut := conn.silent.On? && conn.state.Connected?;
      if !silentReconnectTimedOut && !conn.state.Connecting? && !conn.state.Reconnecting? {
        return;
      }
      if silentReconnectTimedOut {
        var _ := HandleSilentReconnectFailure(HandshakeTimeout, VpnHandshakeTimeout);
        return;
      }
      conn := conn.(lastError := VpnHandshakeTimeout);
      SetConnectionHealth(HandshakeTimeout);
      if conn.protocol.On? {
        conn := conn.(stopping := On);
        StopProtocol();
      }
      SetConnectionState(Error);
      conn := conn.(stopping := Off);
    }

    method OnConnectedRecoveryTimer()
      modifies this
      ensures conn == RecoveryDue(world, old(conn))
    {
      hide StartSilent;
      if !conn.state.Connected? || conn.silent.On? || !conn.protocol.On? || !conn.serverKnown.On? {
        return;
      }
      StartSilentReconnect();
    }

    method OnPendingNetworkDeadline()
      modifies this
      ensures conn == DeadlineDue(world, old(conn))
    {
      hide TimedOut;
      if !conn.pending.StartConnection? {
        return;
      }
      StopPendingNetworkAction();
      OnConnectingTimedOut();
    }

    method CheckConnectedHealth()
      modifies this
      ensures conn == CheckHealth(world, old(conn))
    {
      if !conn.state.Connected? {
        StopConnectedHealthCheck();
        return;
      }
      if conn.silent.On? || conn.health == DnsFailed {
        return;
      }
      if conn.health == Healthy || !conn.protocol.On? {
        conn := conn.(probe := On);
        return;
      }
      var requested := world.statusRequested(conn.now);
      conn := conn.(now := conn.now + 1);
      if !requested {
        conn := conn.(probe := On);
        return;
      }
      conn := conn.(idleChecks := conn.idleChecks + 1);
      if conn.idleChecks >= MAX_IDLE_CHECKS {
        conn := conn.(probe := On);
      }
    }

    method OnDnsLookup(ok: bool)
      modifies this
      ensures conn == DnsAnswered(old(conn), ok)
    {
      hide Recover;
      if !conn.state.Connected? || conn.silent.On? {
        return;
      }
      if !ok {
        var _ := RecoverConnectedTunnel(DnsFailed, VpnNoTrafficError);
        return;
      }
      if conn.health == DnsFailed {
        conn := conn.(lastError := NoError);
        SetConnectionHealth(Healthy);
      }
    }

    method OnConnectivityProbeSucceeded()
      modifies this
      ensures conn == ProbeSucceeded(old(conn))
    {
      conn := conn.(probe := Off);
      if !conn.state.Connected? {
        return;
      }
      conn := conn.(lastError := NoError);
      conn := conn.(attempts := 0);
      conn := conn.(tally := conn.tally.(resets := conn.tally.resets + 1));
      if conn.health != DnsFailed {
        SetConnectionHealth(Healthy);
      }
    }

    method OnConnectivityProbeFailed()
      modifies this
      ensures conn == ProbeFailed(old(conn))
    {
      hide Recover;
      conn := conn.(probe := Off);
      if !conn.state.Connected? || conn.silent.On? {
        return;
      }
      var _ := RecoverConnectedTunnel(NoTraffic, VpnNoTrafficError);
    }

    // ---------- events ----------

    /** The invariant of VpnInvariants holds again after every event. */
    method Handle(event: Event)
      requires Inv(conn)
      modifies this
      ensures conn == Step(world, old(conn), event)
      ensures Inv(conn)
    {
      hide Connect, Disconnect, Reconnect, Resume, Deliver, TimedOut, RecoveryDue, DeadlineDue, CheckHealth,
           DnsAnswered, ProbeSucceeded, ProbeFailed, Publish;
      StepReached(world, conn, event);
      match event {
        case UserConnect(known) => ConnectToVpn(known);
        case UserDisconnect => DisconnectFromVpn();
        case Wake => ReconnectToVpn();
        case NetworkReady(ready) => if ready { ResumePendingNetworkAction(); }
        case QueuedResume => ResumePendingNetworkAction();
        case PostedHealthCheck =>
          CheckConnectedHealth();
          conn := conn.(probe := On);
        case FromProtocol(signal) => OnSignal(signal);
        case ConnectingFired =>
          if conn.connecting.On? {
            conn := conn.(connecting := Off);
            OnConnectingTimedOut();
          }
        case HealthFired => if conn.healthTick.On? { CheckConnectedHealth(); }
        case RecoveryFired =>
          if conn.recovery.On? {
            conn := conn.(recovery := Off);
            OnConnectedRecoveryTimer();
          }
        case PendingFired => if conn.pendingTick.On? { ResumePendingNetworkAction(); }
        case DeadlineFired =>
          if conn.deadline.On? {
            conn := conn.(deadline := Off);
            OnPendingNetworkDeadline();
          }
        case DnsAnswer(ok) => OnDnsLookup(ok);
        case ProbeAnswer(ok) =>
          if ok { OnConnectivityProbeSucceeded(); } else { OnConnectivityProbeFailed(); }
        case LateDiagnostic(health) => SetConnectionHealth(health);
        case SlotsDisconnected => conn := conn.(errorsLive := Off, statesLive := Off);
      }
    }

    /** The event loop: any finite sequence of events. A new object never spends more than its budget of
        restarts; a quiescent one starts nothing until the next connect request; a failed one stays so
        until the user acts. */
    method HandleAll(events: seq<Event>)
      requires Inv(conn)
      modifies this
      ensures conn == Run(world, old(conn), events)
      ensures Inv(conn) && Ledger(old(conn), conn)
      ensures old(conn) == Initial ==>
                && conn.tally.restarts + Outstanding(conn) <= conn.tally.scheduled
                && conn.tally.scheduled <= 3 * conn.tally.resets + conn.attempts
      ensures Quiescent(old(conn)) && (forall e :: e in events ==> !e.UserConnect?) ==>
                Quiescent(conn) && conn.tally.starts == old(conn).tally.starts
      ensures Failed(old(conn), old(conn).lastError) && (forall e :: e in events ==> Passive(e)) ==>
                Failed(conn, old(conn).lastError)
    {
      hide Step, Inv, Ledger, Quiescent, Failed, Passive;
      RunIsLawful(world, conn, events);
      for i := 0 to |events|
        invariant Inv(conn)
        invariant Run(world, conn, events[i..]) == Run(world, old(conn), events)
      {
        Handle(events[i]);
      }
    }
  }

  lemma RunIsLawful(w: World, s: Conn, events: seq<Event>)
    requires Inv(s)
    ensures var t := Run(w, s, events);
      && Inv(t) && Ledger(s, t)
      && (s == Initial ==> t.tally.restarts + Outstanding(t) <= t.tally.scheduled <= 3 * t.tally.resets + t.attempts)
      && (Quiescent(s) && (forall e :: e in events ==> !e.UserConnect?) ==>
            Quiescent(t) && t.tally.starts == s.tally.starts)
      && (Failed(s, s.lastError) && (forall e :: e in events ==> Passive(e)) ==> Failed(t, s.lastError))
  {
    hide Run, Quiescent, Failed, Passive;
    RunReached(w, s, events);
    if Quiescent(s) && (forall e :: e in events ==> !e.UserConnect?) { NoStartAfterDisconnect(w, s, events); }
    if Failed(s, s.lastError) && (forall e :: e in events ==> Passive(e)) {
      FailureIsAbsorbing(w, s, events, s.lastError);
    }
  }
}
