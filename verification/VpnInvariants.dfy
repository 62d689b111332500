/** What every step of the connection lifecycle keeps. */
module VpnInvariants {
  import opened Switches
  import opened VpnTypes
  import opened VpnSpec

  predicate ReconnectDeferred(s: Conn) {
    s.pending.RequestReconnect? || s.pending.StartSilentReconnect?
  }

  /** Diagnostics agree with the lifecycle state. */
  predicate DiagnosticsMatch(s: Conn) {
    && (s.state.Disconnected? ==> s.health == Idle || Problem(s.health))
    && (s.state.Error? ==> Problem(s.health))
  }

  /** At most one recovery is under way, and a deferred one has a protocol to restart. */
  predicate RecoveryExclusive(s: Conn) {
    && !(s.recovery.On? && s.silent.On?)
    && !(s.recovery.On? && !s.pending.NoAction?)
    && !(s.silent.On? && ReconnectDeferred(s))
    && (ReconnectDeferred(s) ==> s.protocol.On?)
  }

  /** Somebody always ends a wait: the watchdog, or the deadline of a deferred start; only Reconnecting
      can lose the first, and the history says when. */
  predicate WaitBounded(s: Conn) {
    && (s.state.Connecting? ==> s.connecting.On? || (s.pending.StartConnection? && s.deadline.On?))
    && (s.state.Connected? && s.silent.On? ==> s.connecting.On?)
    && (s.state.Reconnecting? ==>
          && (s.lost.Kept? ==> s.connecting.On? || s.deadline.On?)
          && (!s.lost.Kept? ==> s.connecting.Off?))
  }

  predicate Core(s: Conn) {
    && DiagnosticsMatch(s)
    && RecoveryExclusive(s)
    && 0 <= s.attempts <= MAX_ATTEMPTS
    && (!s.pending.NoAction? ==> s.pendingTick.On?)
    && (s.deadline.On? ==> s.pending.StartConnection?)
    && (s.errorsLive.On? || s.statesLive.On? ==> s.protocol.On?)
    && (!s.lost.Kept? ==> s.state.Reconnecting?)
    && (s.pending.StartConnection? ==> s.protocol.Off?)
    && s.tally.starts <= s.tally.stops + (if s.protocol.On? then 1 else 0)
  }

  predicate Inv(s: Conn) { Core(s) && WaitBounded(s) }

  /** Recoveries that were scheduled and have not been used by a silent restart yet. */
  function Outstanding(s: Conn): nat {
    (if s.recovery.On? then 1 else 0) + (if s.pending.StartSilentReconnect? then 1 else 0)
  }

  function Credit(s: Conn): int {
    s.tally.scheduled - s.tally.restarts - Outstanding(s)
  }

  /** How a step may move the counters: credit is never created except by scheduling,
      scheduling moves with the attempt counter, and a reset buys at most three attempts. */
  predicate Ledger(s: Conn, t: Conn) {
    && Credit(s) <= Credit(t)
    && s.tally.starts <= t.tally.starts
    && s.tally.resets <= t.tally.resets
    && (s.tally.resets == t.tally.resets ==>
          t.tally.scheduled - s.tally.scheduled == t.attempts - s.attempts)
    && t.tally.scheduled - s.tally.scheduled
       <= 3 * (t.tally.resets - s.tally.resets) + t.attempts - s.attempts
  }

  /** From origin `s` the connection got to `t` by legal moves; if `steady`, waits are bounded. */
  predicate Reached(s: Conn, t: Conn, steady: bool) {
    && Core(t)
    && Ledger(s, t)
    && (steady ==> WaitBounded(t))
  }

  // ---------- signals ----------

  /** Entering a state settles every wait, whatever was armed before. */
  lemma ChangeReached(w: World, s: Conn, t: Conn, st: Lifecycle)
    requires Reached(s, t, false)
    ensures Reached(s, Change(w, t, st), true)
  {
  }

  lemma AbandonRecoverReached(w: World, s: Conn, t: Conn, h: Health, e: ErrorCode)
    requires Reached(s, t, false)
    ensures var a := Abandon(w, t);
            Reached(s, Recover(a, h, e), Retries(Choice(a)))
  {
  }

  lemma SilentFailureReached(w: World, s: Conn, t: Conn, h: Health, e: ErrorCode)
    requires Reached(s, t, false)
    ensures Reached(s, SilentFailure(w, t, h, e), true)
  {
    hide Change, Abandon, Recover, Choice;
    AbandonRecoverReached(w, s, t, h, e);
    ChangeReached(w, s, Recover(Abandon(w, t), h, e), Error);
  }

  lemma SetStateReached(w: World, s: Conn, t: Conn, st: Lifecycle, steady: bool)
    requires Reached(s, t, steady)
    ensures Reached(s, SetState(w, t, st), steady)
  {
    hide Change, SilentFailure;
    SilentFailureReached(w, s, t, LocalServiceUnavailable, AmneziaServiceConnectionFailed);
    ChangeReached(w, s, t, st);
  }

  lemma BlameReached(s: Conn, t: Conn, e: ErrorCode, steady: bool)
    requires Reached(s, t, steady)
    ensures Reached(s, Blame(t, e), steady)
  {
  }

  lemma ProtocolErrorReached(w: World, s: Conn, t: Conn, e: ErrorCode, steady: bool)
    requires Reached(s, t, steady)
    ensures Reached(s, ProtocolError(w, t, e), steady)
  {
    hide Change, SilentFailure, Blame;
    SilentFailureReached(w, s, t, HealthForError(e), e);
    BlameReached(s, t, e, steady);
    ChangeReached(w, s, Blame(t, e), Error);
  }

  lemma DeliverReached(w: World, s: Conn, t: Conn, sig: Signal, steady: bool)
    requires Reached(s, t, steady)
    ensures Reached(s, Deliver(w, t, sig), steady)
  {
    hide SetState, ProtocolError;
    match sig
    case StateSignal(st) => SetStateReached(w, s, t, st, steady);
    case ErrorSignal(e) => ProtocolErrorReached(w, s, t, e, steady);
    case _ =>
  }

  lemma {:induction false} DeliverAllReached(w: World, s: Conn, t: Conn, sigs: seq<Signal>, steady: bool)
    requires Reached(s, t, steady)
    ensures Reached(s, DeliverAll(w, t, sigs), steady)
    decreases |sigs|
  {
    hide Deliver, Reached;
    if sigs != [] {
      DeliverReached(w, s, t, sigs[0], steady);
      DeliverAllReached(w, s, Deliver(w, t, sigs[0]), sigs[1..], steady);
    }
  }

  lemma StopReached(w: World, s: Conn, t: Conn, steady: bool)
    requires Reached(s, t, steady)
    ensures Reached(s, Stop(w, t), steady)
    ensures Stop(w, t).tally.starts <= Stop(w, t).tally.stops
  {
    hide DeliverAll;
    DeliverAllReached(w, s, t.(now := t.now + 1, tally := t.tally.(stops := t.tally.stops + 1)),
                      w.stopSignals(t.now), steady);
  }

  lemma StartReached(w: World, s: Conn, t: Conn, steady: bool)
    requires Reached(s, t, steady) && t.protocol.On? && t.tally.starts <= t.tally.stops
    ensures Reached(s, Start(w, t), steady)
  {
    hide DeliverAll;
    DeliverAllReached(w, s, t.(now := t.now + 1, tally := t.tally.(starts := t.tally.starts + 1)),
                      w.startSignals(t.now), steady);
  }

  // ---------- starting, deferring and resuming ----------

  lemma FailReached(w: World, s: Conn, t: Conn, err: ErrorCode)
    requires Reached(s, t, false)
    ensures Reached(s, Fail(w, t, err), true)
  {
    hide Change;
    ChangeReached(w, s, Publish(t.(lastError := err), ProtocolStartFailed), Error);
  }

  lemma StartConfiguredReached(w: World, s: Conn, t: Conn)
    requires Reached(s, t, false) && t.protocol.Off?
    ensures Reached(s, StartConfigured(w, t), true)
  {
    hide Change, Start, Fail;
    var a := NewProtocol(w, StopPending(t).(connecting := On, lost := Kept));
    if !a.protocol.On? {
      ChangeReached(w, s, a.(lastError := InternalError), Error);
    } else {
      StartReached(w, s, a, true);
      FailReached(w, s, Start(w, a), w.startResult(a.now));
    }
  }

  /** A restart uses up one scheduled recovery, which its caller has just released. */
  lemma ReplaceReached(w: World, s: Conn, t: Conn)
    requires Reached(s, t, false) && Credit(s) < Credit(t)
    requires t.state.Connected?
    ensures Reached(s, Replace(w, t), true) && Replace(w, t).tally.starts <= Replace(w, t).tally.stops
  {
  }

  lemma SilentRestartReached(w: World, s: Conn, t: Conn)
    requires Reached(s, t, false) && Credit(s) < Credit(t)
    requires t.state.Connected?
    ensures Reached(s, SilentRestart(w, t), true)
  {
    hide Replace, Start, Fail, SilentFailure;
    var a := Replace(w, t);
    ReplaceReached(w, s, t);
    if !a.protocol.On? {
      FailReached(w, s, a, InternalError);
    } else {
      var err := w.startResult(a.now);
      StartReached(w, s, a, true);
      var b := Start(w, a);
      SilentFailureReached(w, s, b, HealthForError(err), err);
      FailReached(w, s, b.(silent := Off, connecting := Off), err);
    }
  }

  /** Deferring keeps a released credit, and bounds the wait of a first start by its deadline. */
  lemma DeferReached(w: World, s: Conn, t: Conn, action: PendingAction, h: Health)
    requires Reached(s, t, false) && t.pending.NoAction?
    requires action.RequestReconnect? || action.StartSilentReconnect? ==>
               t.state.Connected? && t.protocol.On? && !t.silent.On?
    requires action.StartSilentReconnect? ==> Credit(s) < Credit(t)
    requires action.StartConnection? ==> !(t.state.Connected? && t.silent.On?) && t.protocol.Off?
    requires !action.NoAction?
    ensures Reached(s, Defer(w, t, action, h), !w.networkReady(t.now)) && Defer(w, t, action, h).protocol == t.protocol
  {
  }

  lemma StartSilentReached(w: World, s: Conn, t: Conn)
    requires Reached(s, t, false) && Credit(s) < Credit(t)
    requires t.state.Connected? && t.protocol.On? && !t.silent.On? && t.pending.NoAction?
    ensures Reached(s, StartSilent(w, t), true)
  {
    hide SilentRestart;
    DeferReached(w, s, t, StartSilentReconnect, Recovering);
    if w.networkReady(t.now) {
      SilentRestartReached(w, s, Defer(w, t, StartSilentReconnect, Recovering));
    }
  }

  /** The state in which reconnectToVpn does something. */
  predicate Reconnectable(t: Conn) {
    t.protocol.On? && !t.silent.On? && !t.recovery.On? && t.pending.NoAction? && t.state.Connected?
  }

  lemma ReconnectProceeds(w: World, s: Conn, t: Conn)
    requires Reached(s, t, true) && Reconnectable(t) && w.networkReady(t.now)
    ensures Reached(s, Reconnect(w, t), true)
  {
    hide StartSilent;
    var a := Defer(w, t, RequestReconnect, Recovering);
    StartSilentReached(w, s, CountAttempt(ResetAttempts(a)));
  }

  lemma ReconnectReached(w: World, s: Conn, t: Conn)
    requires Reached(s, t, true)
    ensures Reached(s, Reconnect(w, t), true)
  {
    hide StartSilent, Defer, Reached;
    if !Reconnectable(t) {
    } else if w.networkReady(t.now) {
      ReconnectProceeds(w, s, t);
    } else {
      assert Reached(s, t, false) by { Weaken(s, t); }
      DeferReached(w, s, t, RequestReconnect, Recovering);
    }
  }

  lemma Weaken(s: Conn, t: Conn)
    requires Reached(s, t, true)
    ensures Reached(s, t, false)
  {
  }

  /** Dropping the deferred action is legal and releases its credit. */
  lemma StopPendingReached(s: Conn)
    requires Inv(s)
    ensures var a := StopPending(s).(now := s.now + 1);
            && Reached(s, a, s.state.Connected?)
            && Reached(s, Dropped(a), !s.pending.StartConnection? || !s.state.Connecting?)
            && Credit(a) == Credit(s) + (if s.pending.StartSilentReconnect? then 1 else 0)
  {
  }

  lemma ResumeReached(w: World, s: Conn)
    requires Inv(s)
    ensures Reached(s, Resume(w, s), true)
  {
    hide StartConfigured, Reconnect, StartSilent, Reached;
    var a := StopPending(s).(now := s.now + 1);
    StopPendingReached(s);
    TickReached(s);
    if s.pending.StartConnection? && s.state.Connecting? {
      StartConfiguredReached(w, s, a);
    } else if s.pending.RequestReconnect? && s.state.Connected? {
      ReconnectReached(w, s, a);
    } else if s.pending.StartSilentReconnect? && s.state.Connected? {
      Weaken(s, a);
      StartSilentReached(w, s, a);
    }
  }

  lemma TickReached(s: Conn)
    requires Inv(s)
    ensures Reached(s, s, true) && Reached(s, s.(now := s.now + 1), true)
  {
  }

  // ---------- user requests ----------

  lemma BeginConnectReached(w: World, s: Conn, known: bool)
    requires Inv(s)
    ensures var a := BeginConnect(w, s.(now := s.now + 1), known);
            Reached(s, a.(now := a.now + 1), true) && a.pending.NoAction? && a.state.Connecting?
  {
  }

  lemma StopPreviousReached(w: World, s: Conn, t: Conn)
    requires Reached(s, t, true) && t.pending.NoAction? && t.state.Connecting?
    ensures var a := StopPrevious(w, t);
            && Reached(s, a, false) && a.pending.NoAction? && !(a.state.Connected? && a.silent.On?)
            && a.protocol.Off?
  {
    hide Stop;
    if t.protocol.On? {
      StopReached(w, s, t.(errorsLive := Off), true);
    }
  }

  lemma ConnectReached(w: World, s: Conn, known: bool)
    requires Inv(s)
    ensures Reached(s, Connect(w, s, known), true)
  {
    hide Change, BeginConnect, StopPrevious, StartConfigured, Defer, Reached;
    TickReached(s);
    BeginConnectReached(w, s, known);
    var a := BeginConnect(w, s.(now := s.now + 1), known);
    var b := a.(now := a.now + 1);
    if !w.repositories(s.now) {
      Weaken(s, s.(now := s.now + 1));
      ChangeReached(w, s, s.(now := s.now + 1), Error);
    } else if !w.protection(a.now) {
      ProtectionFailedReached(w, s, b);
    } else {
      var c := StopPrevious(w, b);
      StopPreviousReached(w, s, b);
      DeferReached(w, s, c, StartConnection, CheckingLocalNetwork);
      if w.networkReady(c.now) {
        StartConfiguredReached(w, s, Defer(w, c, StartConnection, CheckingLocalNetwork));
      }
    }
  }

  lemma ProtectionFailedReached(w: World, s: Conn, t: Conn)
    requires Reached(s, t, true)
    ensures Reached(s, Change(w, Publish(t.(lastError := AmneziaServiceConnectionFailed),
                                         LocalServiceUnavailable), Error), true)
  {
    hide Change;
    ChangeReached(w, s, Publish(t.(lastError := AmneziaServiceConnectionFailed), LocalServiceUnavailable), Error);
  }

  lemma DisconnectReached(w: World, s: Conn)
    requires Inv(s)
    ensures Reached(s, Disconnect(w, s), true)
  {
    hide Change, Stop, SilentFailure;
    var a := BeginDisconnect(s);
    if !a.protocol.On? {
      ChangeReached(w, s, a, Disconnected);
    } else {
      LiveDisconnectReached(w, s, a);
    }
  }

  lemma LiveDisconnectReached(w: World, s: Conn, a: Conn)
    requires Reached(s, a, false) && a.pending.NoAction?
    ensures var b := DropProtocol(Stop(w, Change(w, a, Disconnecting)));
            Reached(s, b, true) && Reached(s, SetState(w, b, Disconnected), true)
  {
    hide Change, Stop, SetState;
    ChangeReached(w, s, a, Disconnecting);
    StopReached(w, s, Change(w, a, Disconnecting), true);
    SetStateReached(w, s, DropProtocol(Stop(w, Change(w, a, Disconnecting))), Disconnected, true);
  }

  // ---------- timers and answers ----------

  /** Giving up on a first connection: the protocol is stopped, then Error is entered. */
  lemma GiveUpReached(w: World, s: Conn, t: Conn)
    requires Reached(s, t, false) && (t.state.Connecting? || t.state.Reconnecting?)
    ensures Reached(s, TimedOut(w, t), true)
  {
    hide Change, Stop, SilentFailure;
    var a := Publish(t.(lastError := VpnHandshakeTimeout), HandshakeTimeout);
    if a.protocol.On? {
      StopReached(w, s, a.(stopping := On), false);
      ChangeReached(w, s, Stop(w, a.(stopping := On)), Error);
    } else {
      ChangeReached(w, s, a, Error);
    }
  }

  lemma TimedOutReached(w: World, s: Conn, t: Conn)
    requires Reached(s, t, false)
    ensures Reached(s, TimedOut(w, t), true)
  {
    if t.silent.On? && t.state.Connected? {
      hide Change, SilentFailure;
      SilentFailureReached(w, s, t, HandshakeTimeout, VpnHandshakeTimeout);
    } else if t.state.Connecting? || t.state.Reconnecting? {
      hide TimedOut;
      GiveUpReached(w, s, t);
    }
  }

  lemma RecoveryFiredReached(w: World, s: Conn)
    requires Inv(s) && s.recovery.On?
    ensures Reached(s, RecoveryDue(w, s.(recovery := Off)), true)
  {
    hide StartSilent;
    if s.state.Connected? && s.protocol.On? {
      StartSilentReached(w, s, s.(recovery := Off));
    }
  }

  lemma DeadlineFiredReached(w: World, s: Conn)
    requires Inv(s) && s.deadline.On?
    ensures Reached(s, DeadlineDue(w, s.(deadline := Off)), true)
  {
    hide TimedOut;
    TimedOutReached(w, s, StopPending(s.(deadline := Off)));
  }

  lemma DnsAnsweredReached(s: Conn, ok: bool)
    requires Inv(s)
    ensures Reached(s, DnsAnswered(s, ok), true)
  {
    hide Recover;
    RecoverReached(s, s, DnsFailed, VpnNoTrafficError);
  }

  lemma ProbeFailedReached(s: Conn)
    requires Inv(s)
    ensures Reached(s, ProbeFailed(s), true)
  {
    hide Recover;
    RecoverReached(s, s.(probe := Off), NoTraffic, VpnNoTrafficError);
  }

  lemma ProbeSucceededReached(s: Conn)
    requires Inv(s)
    ensures Reached(s, ProbeSucceeded(s), true)
  {
  }

  lemma RecoverReached(s: Conn, t: Conn, h: Health, e: ErrorCode)
    requires Reached(s, t, true)
    ensures Reached(s, Recover(t, h, e), true)
  {
  }

  lemma CheckHealthReached(w: World, s: Conn)
    requires Inv(s)
    ensures Reached(s, CheckHealth(w, s), true)
    ensures Reached(s, CheckHealth(w, s).(probe := On), true)
  {
  }

  lemma PublishReached(s: Conn, h: Health)
    requires Inv(s)
    ensures Reached(s, Publish(s, h), true)
  {
  }

  lemma DetachReached(s: Conn)
    requires Inv(s)
    ensures Reached(s, Detach(s), true)
  {
  }

  /** The main invariant: one event in any environment. */
  lemma StepReached(w: World, s: Conn, e: Event)
    requires Inv(s)
    ensures Reached(s, Step(w, s, e), true)
  {
    hide Reached, Connect, Disconnect, Reconnect, Resume, Deliver, TimedOut, StartSilent, Recover, CheckHealth,
         Publish, Detach, RecoveryDue, DeadlineDue, DnsAnswered, ProbeSucceeded, ProbeFailed;
    TickReached(s);
    match e
    case UserConnect(known) => ConnectReached(w, s, known);
    case UserDisconnect => DisconnectReached(w, s);
    case Wake => ReconnectReached(w, s, s);
    case NetworkReady(ready) => ResumeReached(w, s);
    case QueuedResume => ResumeReached(w, s);
    case PendingFired => ResumeReached(w, s);
    case FromProtocol(sig) => DeliverReached(w, s, s, sig, true);
    case ConnectingFired =>
      assert Reached(s, s.(connecting := Off), false) by { DisarmReached(s); }
      TimedOutReached(w, s, s.(connecting := Off));
    case RecoveryFired => if s.recovery.On? { RecoveryFiredReached(w, s); }
    case DeadlineFired => if s.deadline.On? { DeadlineFiredReached(w, s); }
    case DnsAnswer(ok) => DnsAnsweredReached(s, ok);
    case ProbeAnswer(ok) => ProbeSucceededReached(s); ProbeFailedReached(s);
    case HealthFired => CheckHealthReached(w, s);
    case PostedHealthCheck => CheckHealthReached(w, s);
    case LateDiagnostic(h) => PublishReached(s, h);
    case SlotsDisconnected => DetachReached(s);
  }

  lemma DisarmReached(s: Conn)
    requires Inv(s)
    ensures Reached(s, s.(connecting := Off), false)
  {
  }

  lemma {:induction false} RunReached(w: World, s: Conn, events: seq<Event>)
    requires Inv(s)
    ensures Reached(s, Run(w, s, events), true)
    decreases |events|
  {
    hide Step;
    if events != [] {
      StepReached(w, s, events[0]);
      RunReached(w, Step(w, s, events[0]), events[1..]);
    }
  }
}
