/** The connection lifecycle as functions on an immutable snapshot of the object.
    The class in VpnConnection.dfy is proved to compute exactly these functions;
    the lemmas of VpnInvariants.dfy and VpnTheorems.dfy are about them. */
module VpnSpec {
  import opened Switches
  import opened VpnTypes

  const MAX_ATTEMPTS := 3
  const MAX_IDLE_CHECKS := 5

  datatype Conn = Conn(
    now: nat,                 // questions asked to the world so far
    state: Lifecycle,
    health: Health,
    lastError: ErrorCode,
    connecting: Switch,       // the five timers: armed or not
    healthTick: Switch,
    recovery: Switch,
    pendingTick: Switch,
    deadline: Switch,
    attempts: int,
    idleChecks: int,
    silent: Switch,
    stopping: Switch,
    pending: PendingAction,
    protocol: Switch,           // is there a current protocol object?
    protocolError: ErrorCode, // the error it stores itself
    errorsLive: Switch,       // is its error signal connected to us?
    statesLive: Switch,       // are its state and traffic signals connected to us?
    serverKnown: Switch,
    probe: Switch,
    lost: Loss,
    tally: Tally
  )

  const Initial := Conn(
    0, Disconnected, Idle, NoError, Off, Off, Off, Off, Off, 0, 0, Off, Off,
    NoAction, Off, NoError, Off, Off, Off, Off, Kept, Tally(0, 0, 0, 0, 0))

  // ---------- small steps ----------

  predicate ShouldPublish(st: Lifecycle, lastError: ErrorCode, h: Health) {
    if st.Disconnected? then h == Idle || (lastError != NoError && Problem(h))
    else if st.Error? then Problem(h)
    else true
  }

  /** The diagnostic after `h` is offered while `health` is shown. */
  function Published(st: Lifecycle, lastError: ErrorCode, health: Health, h: Health): Health {
    if ShouldPublish(st, lastError, h) then h else health
  }

  /** The diagnostic after `hs` are offered one after the other. */
  function LastPublished(st: Lifecycle, lastError: ErrorCode, health: Health, hs: seq<Health>): (h: Health)
    ensures h == health || ShouldPublish(st, lastError, h)
    decreases |hs|
  {
    if hs == [] then health
    else LastPublished(st, lastError, Published(st, lastError, health, hs[0]), hs[1..])
  }

  function Publish(s: Conn, h: Health): Conn {
    s.(health := Published(s.state, s.lastError, s.health, h))
  }

  function StopPending(s: Conn): Conn {
    s.(pending := NoAction, pendingTick := Off, deadline := Off)
  }

  function ResetAttempts(s: Conn): Conn {
    s.(attempts := 0, tally := s.tally.(resets := s.tally.resets + 1))
  }

  function CountAttempt(s: Conn): Conn {
    s.(attempts := s.attempts + 1, tally := s.tally.(scheduled := s.tally.scheduled + 1))
  }

  function Detach(s: Conn): Conn {
    s.(errorsLive := Off, statesLive := Off)
  }

  function DropProtocol(s: Conn): Conn {
    Detach(s).(protocol := Off, protocolError := NoError)
  }

  /** A new protocol object (or none, if the factory fails), connected to us. */
  function NewProtocol(w: World, s: Conn): Conn {
    var made := w.factory(s.now);
    s.(now := s.now + 1, protocol := Switched(made), protocolError := NoError,
       errorsLive := Switched(made), statesLive := Switched(made))
  }

  /** What no signal of a protocol object can do: undo a stop, touch the deferred action or the current
      protocol object, start one, reconnect a signal, or make a silent reconnect appear in the
      Connected state. */
  predicate Tame(s: Conn, t: Conn) {
    && t.pending == s.pending
    && t.protocol.On? == s.protocol.On?
    && t.tally.starts == s.tally.starts
    && s.tally.stops <= t.tally.stops
    && (t.errorsLive.On? ==> s.errorsLive.On?)
    && (t.statesLive.On? ==> s.statesLive.On?)
    && (t.state.Connected? && t.silent.On? ==> s.state.Connected? && s.silent.On?)
  }

  // ---------- entering a lifecycle state ----------

  /** States whose entry stops the health check, the probe and a scheduled recovery. */
  predicate Quiets(st: Lifecycle) { !st.Connected? && !st.Preparing? }

  /** States whose entry runs the routing code, which publishes diagnostics of its own. */
  predicate Routes(st: Lifecycle) { st.Connected? || st.Disconnected? || st.Error? }

  /** The diagnostic offered on entry, if any. */
  function EntryHealth(st: Lifecycle, silent: bool, health: Health): Health {
    match st
    case Connecting => if silent then Recovering else StartingProtocol
    case Reconnecting => Recovering
    case Connected => ApplyingRoutes
    case Disconnected => Idle
    case Error => if Problem(health) then health else UnknownFailure
    case Preparing => PreparingConfig
    case Disconnecting => health
    case Unknown => health
  }

  /** A clean disconnect forgets the last error. */
  function EntryError(st: Lifecycle, health: Health, lastError: ErrorCode): ErrorCode {
    if st.Disconnected? && !Problem(health) then NoError else lastError
  }

  /** The diagnostic once entry, routing and the first health check have run. */
  function SettledHealth(w: World, s: Conn, st: Lifecycle): Health {
    var lastError := EntryError(st, s.health, s.lastError);
    var entered := Published(st, lastError, s.health, EntryHealth(st, s.silent.On?, s.health));
    var routed := if Routes(st) then LastPublished(st, lastError, entered, w.routing(s.now)) else entered;
    if st.Connected? && !Problem(routed) then CheckingTraffic else routed
  }

  /** onConnectionStateChanged, as a table over the timers. */
  function Enter(w: World, s: Conn, st: Lifecycle): Conn {
    s.(health := SettledHealth(w, s, st),
       lastError := EntryError(st, s.health, s.lastError),
       connecting := Switched(st.Connecting? || st.Reconnecting? || (st.Preparing? && s.connecting.On?)),
       recovery := Switched(s.recovery.On? && !Quiets(st)),
       probe := Switched(s.probe.On? && !Quiets(st)),
       healthTick := Switched(st.Connected? || (s.healthTick.On? && !Quiets(st))),
       idleChecks := if st.Preparing? then s.idleChecks else 0,
       now := if Routes(st) then s.now + 1 else s.now)
  }

  /** The error recorded on entering Error when nothing better is known. */
  function BlamedError(s: Conn, st: Lifecycle): ErrorCode {
    if st.Error? && s.lastError == NoError && (!s.protocol.On? || s.protocolError == NoError)
    then UnknownError else s.lastError
  }

  /** A Disconnected report that must not end the current state. */
  predicate Ignored(s: Conn, st: Lifecycle) {
    st.Disconnected? && (s.stopping.On? || (s.state.Error? && s.lastError != NoError))
  }

  /** setConnectionState when no silent reconnect breaks. */
  function Change(w: World, s: Conn, st: Lifecycle): (t: Conn)
    ensures Tame(s, t)
  {
    var a := Enter(w, s.(state := st, silent := Switched(s.silent.On? && !st.Connected?),
                         lastError := BlamedError(s, st)), st);
    a.(state := if st.Disconnected? && s.state.Reconnecting? then Reconnecting else st,
       lost := if st.Disconnected? && s.state.Reconnecting? then ByReport else Kept)
  }

  /** What recoverConnectedTunnel decides. */
  datatype RecoveryChoice = Impossible | UnderWay | Exhausted | Scheduled

  function Choice(s: Conn): RecoveryChoice {
    if !s.state.Connected? || s.silent.On? || !s.protocol.On? || !s.serverKnown.On? then Impossible
    else if s.recovery.On? || !s.pending.NoAction? then UnderWay
    else if s.attempts >= MAX_ATTEMPTS then Exhausted
    else Scheduled
  }

  predicate Retries(c: RecoveryChoice) { c.UnderWay? || c.Scheduled? }

  function Recover(s: Conn, h: Health, e: ErrorCode): Conn {
    var c := Choice(s);
    s.(lastError := e,
       health := Published(s.state, e, s.health, h),
       healthTick := Switched(s.healthTick.On? && c.UnderWay?),
       idleChecks := if c.UnderWay? then s.idleChecks else 0,
       probe := Switched(s.probe.On? && !c.Scheduled?),
       recovery := Switched(s.recovery.On? || c.Scheduled?),
       attempts := if c.Scheduled? then s.attempts + 1 else s.attempts,
       tally := s.tally.(scheduled := if c.Scheduled? then s.tally.scheduled + 1 else s.tally.scheduled))
  }

  /** The failed protocol object is stopped with its signals disconnected. */
  function Abandon(w: World, s: Conn): Conn {
    s.(connecting := Off, silent := Off,
       errorsLive := Switched(s.errorsLive.On? && !s.protocol.On?),
       statesLive := Switched(s.statesLive.On? && !s.protocol.On?),
       stopping := Switched(s.stopping.On? && !s.protocol.On?),
       protocolError := if s.protocol.On? then w.storedError(s.now) else s.protocolError,
       tally := s.tally.(stops := if s.protocol.On? then s.tally.stops + 1 else s.tally.stops),
       now := if s.protocol.On? then s.now + 1 else s.now)
  }

  /** handleSilentReconnectFailure: retry later if the budget allows, fail otherwise. */
  function SilentFailure(w: World, s: Conn, h: Health, e: ErrorCode): (t: Conn)
    ensures Tame(s, t)
  {
    var a := Abandon(w, s);
    var b := Recover(a, h, e);
    if Retries(Choice(a)) then b else Change(w, b, Error)
  }

  function SetState(w: World, s: Conn, st: Lifecycle): (t: Conn)
    ensures Tame(s, t)
  {
    if s.silent.On? && st.Disconnected? && s.state.Connected? then
      SilentFailure(w, s, LocalServiceUnavailable, AmneziaServiceConnectionFailed)
    else if Ignored(s, st) then s
    else Change(w, s, st)
  }

  // ---------- signals of the protocol object ----------

  predicate Ending(st: Lifecycle) { st.Disconnected? || st.Disconnecting? }

  /** A protocol error is recorded; failures of the local service are also shown. */
  function Blame(s: Conn, e: ErrorCode): (t: Conn)
    ensures Tame(s, t)
  {
    s.(lastError := e,
       silent := Switched(s.silent.On? && Ending(s.state)),
       health := if e == AmneziaServiceConnectionFailed || e == VpnBackendFailure
                 then Published(s.state, e, s.health, LocalServiceUnavailable) else s.health)
  }

  function ProtocolError(w: World, s: Conn, e: ErrorCode): (t: Conn)
    ensures Tame(s, t)
  {
    if s.silent.On? && Recoverable(e) then SilentFailure(w, s, HealthForError(e), e)
    else if Ending(s.state) then Blame(s, e)
    else Change(w, Blame(s, e), Error)
  }

  /** A signal has an effect only while it is connected. */
  function Deliver(w: World, s: Conn, sig: Signal): (t: Conn)
    ensures Tame(s, t)
  {
    match sig
    case StateSignal(st) => if s.statesLive.On? then SetState(w, s, st) else s
    case ErrorSignal(e) => if s.errorsLive.On? then ProtocolError(w, s, e) else s
    case ErrorStored(e) => s.(protocolError := if s.protocol.On? then e else s.protocolError)
    case BytesSignal(n) =>
      s.(idleChecks := if s.statesLive.On? && s.state.Connected? && n > 0 then 0 else s.idleChecks)
  }

  function DeliverAll(w: World, s: Conn, sigs: seq<Signal>): (t: Conn)
    ensures Tame(s, t)
    decreases |sigs|
  {
    if sigs == [] then s else DeliverAll(w, Deliver(w, s, sigs[0]), sigs[1..])
  }

  function Stop(w: World, s: Conn): (t: Conn)
    ensures Tame(s, t) && s.tally.stops < t.tally.stops
  {
    DeliverAll(w, s.(now := s.now + 1, tally := s.tally.(stops := s.tally.stops + 1)), w.stopSignals(s.now))
  }

  function Start(w: World, s: Conn): (t: Conn)
    ensures t.protocol.On? == s.protocol.On? && t.pending == s.pending
    ensures t.tally.starts == s.tally.starts + 1
  {
    DeliverAll(w, s.(now := s.now + 1, tally := s.tally.(starts := s.tally.starts + 1)),
               w.startSignals(s.now))
  }

  // ---------- starting, deferring and resuming ----------

  /** Wait for a physical network, if there is none. */
  function Defer(w: World, s: Conn, action: PendingAction, h: Health): Conn {
    var ready := w.networkReady(s.now);
    s.(now := s.now + 1,
       pending := if ready then s.pending else action,
       pendingTick := Switched(s.pendingTick.On? || !ready),
       deadline := Switched(s.deadline.On? || (!ready && action.StartConnection?)),
       connecting := Switched(s.connecting.On? && ready),
       recovery := Switched(s.recovery.On? && ready),
       probe := Switched(s.probe.On? && ready),
       health := if ready then s.health else Published(s.state, s.lastError, s.health, h))
  }

  /** Start failed with `err`: the Error state with that error on record. */
  function Fail(w: World, s: Conn, err: ErrorCode): Conn {
    Change(w, Publish(s.(lastError := err), ProtocolStartFailed), Error)
  }

  function StartConfigured(w: World, s: Conn): Conn {
    var a := NewProtocol(w, StopPending(s).(connecting := On, lost := Kept));
    if !a.protocol.On? then Change(w, a.(lastError := InternalError), Error)
    else
      var err := w.startResult(a.now);
      var b := Start(w, a);
      if err != NoError then Fail(w, b, err)
      else b.(health := if b.silent.On? then b.health
                        else Published(b.state, b.lastError, b.health, WaitingHandshake))
  }

  /** The old protocol object is replaced; the new one is connected and the watchdog armed. */
  function Replace(w: World, s: Conn): Conn {
    var a := NewProtocol(w, Publish(StopPending(s), Recovering));
    a.(connecting := Switched(a.protocol.On?), recovery := Off, silent := Switched(a.protocol.On?),
       tally := a.tally.(restarts := a.tally.restarts + 1, stops := a.tally.stops + 1))
  }

  /** The part of startSilentReconnect after the deferral test. */
  function SilentRestart(w: World, s: Conn): Conn {
    var a := Replace(w, s);
    if !a.protocol.On? then Fail(w, a, InternalError)
    else
      var err := w.startResult(a.now);
      var b := Start(w, a);
      if err == NoError then
        b.(health := if b.silent.On? then Published(b.state, b.lastError, b.health, Recovering) else b.health)
      else if Recoverable(err) then SilentFailure(w, b, HealthForError(err), err)
      else Fail(w, b.(silent := Off, connecting := Off), err)
  }

  function StartSilent(w: World, s: Conn): Conn {
    if s.silent.On? then s
    else
      var a := Defer(w, s, StartSilentReconnect, Recovering);
      if w.networkReady(s.now) then SilentRestart(w, a) else a
  }

  function Reconnect(w: World, s: Conn): Conn {
    if !s.protocol.On? || s.silent.On? || s.recovery.On? || !s.pending.NoAction? || !s.state.Connected? then s
    else
      var a := Defer(w, s, RequestReconnect, Recovering);
      if w.networkReady(s.now) then StartSilent(w, CountAttempt(ResetAttempts(a))) else a
  }

  /** Nothing is done about the deferred action. */
  function Dropped(a: Conn): Conn {
    a.(lost := if a.state.Reconnecting? && a.connecting.Off? then ByDrop else a.lost)
  }

  function Resume(w: World, s: Conn): Conn {
    if s.pending.NoAction? then s
    else if !w.networkReady(s.now) then s.(now := s.now + 1)
    else
      var a := StopPending(s).(now := s.now + 1);
      if s.pending.StartConnection? && s.state.Connecting? then StartConfigured(w, a)
      else if s.pending.RequestReconnect? && s.state.Connected? then Reconnect(w, a)
      else if s.pending.StartSilentReconnect? && s.state.Connected? then StartSilent(w, a)
      else Dropped(a)
  }

  // ---------- user requests ----------

  /** connectToVpn up to the Connecting state. */
  function BeginConnect(w: World, s: Conn, serverKnown: bool): Conn {
    Change(w, StopPending(ResetAttempts(s))
              .(lastError := NoError, recovery := Off, stopping := Off,
                serverKnown := Switched(serverKnown)), Connecting)
  }

  /** The previous protocol object is stopped with its error signal disconnected. */
  function StopPrevious(w: World, s: Conn): Conn {
    if s.protocol.On? then DropProtocol(Stop(w, s.(errorsLive := Off))) else s
  }

  function Connect(w: World, s: Conn, serverKnown: bool): Conn {
    if !w.repositories(s.now) then Change(w, s.(now := s.now + 1), Error)
    else
      var a := BeginConnect(w, s.(now := s.now + 1), serverKnown);
      var b := a.(now := a.now + 1);
      if !w.protection(a.now) then
        Change(w, Publish(b.(lastError := AmneziaServiceConnectionFailed), LocalServiceUnavailable), Error)
      else
        var c := StopPrevious(w, b);
        var d := Defer(w, c, StartConnection, CheckingLocalNetwork);
        if w.networkReady(c.now) then StartConfigured(w, d) else d
  }

  /** disconnectFromVpn before the lifecycle changes. */
  function BeginDisconnect(s: Conn): Conn {
    StopPending(ResetAttempts(s)).(silent := Off, stopping := Off, recovery := Off, connecting := Off)
  }

  function Disconnect(w: World, s: Conn): Conn {
    var a := BeginDisconnect(s);
    if !a.protocol.On? then SetState(w, a, Disconnected)
    else
      var b := DropProtocol(Stop(w, Change(w, a, Disconnecting)));
      if b.state.Disconnecting? then SetState(w, b, Disconnected) else b
  }

  // ---------- timers and asynchronous answers ----------

  function TimedOut(w: World, s: Conn): Conn {
    if s.silent.On? && s.state.Connected? then
      SilentFailure(w, s, HandshakeTimeout, VpnHandshakeTimeout)
    else if !s.state.Connecting? && !s.state.Reconnecting? then s
    else
      var a := Publish(s.(lastError := VpnHandshakeTimeout), HandshakeTimeout);
      var b := if a.protocol.On? then Stop(w, a.(stopping := On)) else a;
      Change(w, b, Error).(stopping := Off)
  }

  function RecoveryDue(w: World, s: Conn): Conn {
    if !s.state.Connected? || s.silent.On? || !s.protocol.On? || !s.serverKnown.On? then s
    else StartSilent(w, s)
  }

  function DeadlineDue(w: World, s: Conn): Conn {
    if !s.pending.StartConnection? then s else TimedOut(w, StopPending(s))
  }

  /** checkConnectedHealth decides whether to probe; nothing else changes. */
  function CheckHealth(w: World, s: Conn): Conn {
    var asks := s.state.Connected? && !s.silent.On? && s.protocol.On? && s.health != DnsFailed && s.health != Healthy;
    var counts := asks && w.statusRequested(s.now);
    var probes := s.state.Connected? && !s.silent.On? && s.health != DnsFailed &&
                  (!counts || s.idleChecks + 1 >= MAX_IDLE_CHECKS);
    s.(now := if asks then s.now + 1 else s.now,
       healthTick := Switched(s.healthTick.On? && s.state.Connected?),
       idleChecks := if !s.state.Connected? then 0 else if counts then s.idleChecks + 1 else s.idleChecks,
       probe := Switched(s.probe.On? || probes))
  }

  function DnsAnswered(s: Conn, ok: bool): Conn {
    if !s.state.Connected? || s.silent.On? then s
    else if !ok then Recover(s, DnsFailed, VpnNoTrafficError)
    else if s.health == DnsFailed then Publish(s.(lastError := NoError), Healthy)
    else s
  }

  function ProbeSucceeded(s: Conn): Conn {
    var up := s.state.Connected?;
    s.(probe := Off,
       lastError := if up then NoError else s.lastError,
       attempts := if up then 0 else s.attempts,
       tally := s.tally.(resets := if up then s.tally.resets + 1 else s.tally.resets),
       health := if up && s.health != DnsFailed then Healthy else s.health)
  }

  function ProbeFailed(s: Conn): Conn {
    var a := s.(probe := Off);
    if !s.state.Connected? || s.silent.On? then a else Recover(a, NoTraffic, VpnNoTrafficError)
  }

  // ---------- runs ----------

  datatype Event =
    | UserConnect(serverKnown: bool)
    | UserDisconnect
    | Wake                        // wake-up or network change reported by the service
    | NetworkReady(ready: bool)
    | QueuedResume                // posted by deferUntilPhysicalNetworkReady
    | PostedHealthCheck           // posted by startConnectedHealthCheck
    | FromProtocol(sig: Signal)
    | ConnectingFired | HealthFired | RecoveryFired | PendingFired | DeadlineFired
    | DnsAnswer(ok: bool)
    | ProbeAnswer(ok: bool)
    | LateDiagnostic(health: Health)
    | SlotsDisconnected

  /** A timer event happens only while the timer is armed; single-shot timers disarm first. */
  function Step(w: World, s: Conn, e: Event): Conn {
    match e
    case UserConnect(known) => Connect(w, s, known)
    case UserDisconnect => Disconnect(w, s)
    case Wake => Reconnect(w, s)
    case NetworkReady(ready) => if ready then Resume(w, s) else s
    case QueuedResume => Resume(w, s)
    case PostedHealthCheck => CheckHealth(w, s).(probe := On)
    case FromProtocol(sig) => Deliver(w, s, sig)
    case ConnectingFired => if s.connecting.On? then TimedOut(w, s.(connecting := Off)) else s
    case HealthFired => if s.healthTick.On? then CheckHealth(w, s) else s
    case RecoveryFired => if s.recovery.On? then RecoveryDue(w, s.(recovery := Off)) else s
    case PendingFired => if s.pendingTick.On? then Resume(w, s) else s
    case DeadlineFired => if s.deadline.On? then DeadlineDue(w, s.(deadline := Off)) else s
    case DnsAnswer(ok) => DnsAnswered(s, ok)
    case ProbeAnswer(ok) => if ok then ProbeSucceeded(s) else ProbeFailed(s)
    case LateDiagnostic(h) => Publish(s, h)
    case SlotsDisconnected => Detach(s)
  }

  function Run(w: World, s: Conn, events: seq<Event>): Conn
    decreases |events|
  {
    if events == [] then s else Run(w, Step(w, s, events[0]), events[1..])
  }
}
