/** Waits of the connection lifecycle: which have a timer that ends them, and how Reconnecting can lose its own. */
module VpnWaiting {
  import opened Switches
  import opened VpnTypes
  import opened VpnSpec
  import opened VpnInvariants
  import opened VpnTheorems

  // ---------- bounded waiting ----------

  /** Every wait that has a timer ends with it, and Connecting and a silent reconnect always have one. */
  lemma WaitingIsBounded(w: World, events: seq<Event>)
    ensures var s := Run(w, Initial, events);
      && (s.state.Connecting? || s.state.Reconnecting? ==>
            && (s.connecting.On? ==> Step(w, s, ConnectingFired).state.Error?)
            && (s.deadline.On? ==> Step(w, s, DeadlineFired).state.Error?))
      && (s.state.Connecting? ==> s.connecting.On? || s.deadline.On?)
      && (s.state.Connected? && s.silent.On? ==>
            s.connecting.On? && Step(w, s, ConnectingFired).silent.Off?)
  {
    hide Run;
    var s := Run(w, Initial, events);
    ReachableIsSound(w, events);
    if s.state.Connecting? || s.state.Reconnecting? { TimersEndWaits(w, s); }
    if s.state.Connected? && s.silent.On? {
      SilentFailureEnds(w, s.(connecting := Off), HandshakeTimeout, VpnHandshakeTimeout);
    }
  }

  lemma TimersEndWaits(w: World, s: Conn)
    requires Inv(s) && (s.state.Connecting? || s.state.Reconnecting?)
    ensures s.connecting.On? ==> Step(w, s, ConnectingFired).state.Error?
    ensures s.deadline.On? ==> Step(w, s, DeadlineFired).state.Error?
  {
    hide TimedOut;
    GivingUpFails(w, s.(connecting := Off));
    GivingUpFails(w, StopPending(s.(deadline := Off)));
  }

  lemma GivingUpFails(w: World, s: Conn)
    requires s.state.Connecting? || s.state.Reconnecting?
    ensures TimedOut(w, s).state.Error?
  {
    hide Stop;
  }

  lemma SilentFailureEnds(w: World, s: Conn, h: Health, e: ErrorCode)
    ensures SilentFailure(w, s, h, e).silent.Off?
  {
  }

  /** A timer that ends the wait is armed. */
  predicate Guarded(s: Conn) { s.connecting.On? || s.deadline.On? }

  /** Reconnecting is the one wait that can lose its timers. It is over without news from user or protocol
      if and only if one of them is armed. */
  lemma ReconnectingEndsIff(w: World, s: Conn)
    requires Inv(s) && s.state.Reconnecting?
    ensures (exists e :: Passive(e) && !e.FromProtocol? && !Step(w, s, e).state.Reconnecting?) <==> Guarded(s)
  {
    hide Step;
    TimersEndWaits(w, s);
    if s.connecting.On? {
      assert Passive(ConnectingFired) && !Step(w, s, ConnectingFired).state.Reconnecting?;
    } else if s.deadline.On? {
      assert Passive(DeadlineFired) && !Step(w, s, DeadlineFired).state.Reconnecting?;
    } else {
      forall e | Passive(e) && !e.FromProtocol? ensures Step(w, s, e).state.Reconnecting? {
        ReconnectingStays(w, s, e);
      }
    }
  }

  /** Exactly when it has lost them, in every reachable state: a Disconnected was handled there or a
      deferred start was dropped there since the watchdog was last armed, and no deadline runs. */
  lemma GuardIsLostIff(w: World, events: seq<Event>)
    ensures var s := Run(w, Initial, events);
      s.state.Reconnecting? ==>
        && (Guarded(s) <==> s.lost.Kept? || s.deadline.On?)
        && ((exists e :: Passive(e) && !e.FromProtocol? && !Step(w, s, e).state.Reconnecting?)
            <==> s.lost.Kept? || s.deadline.On?)
  {
    hide Run, Step;
    var s := Run(w, Initial, events);
    ReachableIsSound(w, events);
    if s.state.Reconnecting? { ReconnectingEndsIff(w, s); }
  }

  /** Among reports, only Disconnected takes the watchdog. */
  lemma ReconnectingLosesWatchdog(w: World, s: Conn, st: Lifecycle)
    requires s.state.Reconnecting? && s.connecting.On? && s.stopping.Off?
    ensures SetState(w, s, st).state.Reconnecting? && SetState(w, s, st).connecting.Off? <==> st.Disconnected?
  {
  }

  predicate Resumes(s: Conn, e: Event) {
    e == NetworkReady(true) || e.QueuedResume? || (e.PendingFired? && s.pendingTick.On?)
  }

  /** The steps that take the last timer from Reconnecting: a report of Disconnected, a deferred start that
      is dropped, a disconnect without protocol object. */
  predicate Unguards(w: World, s: Conn, e: Event) {
    && s.state.Reconnecting?
    && (|| (e == FromProtocol(StateSignal(Disconnected)) && s.statesLive.On? && s.stopping.Off? && s.deadline.Off?)
        || (Resumes(s, e) && !s.pending.NoAction? && w.networkReady(s.now) && s.connecting.Off?)
        || (e.UserDisconnect? && s.protocol.Off?))
  }

  predicate Unguarded(s: Conn) { s.state.Reconnecting? && !Guarded(s) }

  /** For every event that makes no call of start() or stop(). */
  lemma UnguardsIff(w: World, s: Conn, e: Event)
    requires Inv(s) && s.state.Reconnecting? && Guarded(s)
    requires !e.UserConnect? && (e.UserDisconnect? ==> s.protocol.Off?)
    ensures Unguarded(Step(w, s, e)) <==> Unguards(w, s, e)
  {
    hide TimedOut, StartSilent, StartConfigured, SettledHealth, EntryError;
    if e.ConnectingFired? || e.DeadlineFired? { TimersEndWaits(w, s); }
  }

  // ---------- calls of start() and stop() ----------

  /** Do these signals, reported from inside a call, have a Disconnected handled in Reconnecting? */
  predicate Struck(w: World, s: Conn, sigs: seq<Signal>)
    decreases |sigs|
  {
    sigs != [] &&
    (Strikes(s, sigs[0]) || Struck(w, Deliver(w, s, sigs[0]), sigs[1..]))
  }

  predicate Strikes(s: Conn, sig: Signal) {
    sig == StateSignal(Disconnected) && s.state.Reconnecting? && s.statesLive.On? && s.stopping.Off?
  }

  predicate StopStrikes(w: World, s: Conn) {
    s.protocol.On? &&
    Struck(w, s.(now := s.now + 1, tally := s.tally.(stops := s.tally.stops + 1)), w.stopSignals(s.now))
  }

  predicate StartStrikes(w: World, s: Conn) {
    s.protocol.On? &&
    Struck(w, s.(now := s.now + 1, tally := s.tally.(starts := s.tally.starts + 1)), w.startSignals(s.now))
  }

  predicate StartConfiguredTold(w: World, s: Conn) {
    StartStrikes(w, NewProtocol(w, StopPending(s).(connecting := On, lost := Kept)))
  }

  predicate StartSilentTold(w: World, s: Conn) {
    !s.silent.On? && w.networkReady(s.now) &&
    StartStrikes(w, Replace(w, Defer(w, s, StartSilentReconnect, Recovering)))
  }

  predicate ReconnectTold(w: World, s: Conn) {
    Reconnectable(s) && w.networkReady(s.now) &&
    StartSilentTold(w, CountAttempt(ResetAttempts(Defer(w, s, RequestReconnect, Recovering))))
  }

  predicate ResumeTold(w: World, s: Conn) {
    !s.pending.NoAction? && w.networkReady(s.now) &&
    var a := StopPending(s).(now := s.now + 1);
    if s.pending.StartConnection? && s.state.Connecting? then StartConfiguredTold(w, a)
    else if s.pending.RequestReconnect? && s.state.Connected? then ReconnectTold(w, a)
    else s.pending.StartSilentReconnect? && s.state.Connected? && StartSilentTold(w, a)
  }

  predicate ConnectTold(w: World, s: Conn, known: bool) {
    w.repositories(s.now) &&
    var a := BeginConnect(w, s.(now := s.now + 1), known);
    var b := a.(now := a.now + 1);
    w.protection(a.now) &&
    var c := StopPrevious(w, b);
    StopStrikes(w, b.(errorsLive := Off)) ||
    (w.networkReady(c.now) && StartConfiguredTold(w, Defer(w, c, StartConnection, CheckingLocalNetwork)))
  }

  predicate DisconnectTold(w: World, s: Conn) {
    StopStrikes(w, Change(w, BeginDisconnect(s), Disconnecting))
  }

  /** Is a call of start() or stop() that this step makes told Disconnected in Reconnecting? */
  predicate Told(w: World, s: Conn, e: Event) {
    match e
    case UserConnect(known) => ConnectTold(w, s, known)
    case UserDisconnect => DisconnectTold(w, s)
    case Wake => ReconnectTold(w, s)
    case RecoveryFired =>
      s.recovery.On? && s.state.Connected? && s.serverKnown.On? && s.protocol.On? &&
      StartSilentTold(w, s.(recovery := Off))
    case _ => Resumes(s, e) && ResumeTold(w, s)
  }

  lemma DeliverKept(w: World, s: Conn, sig: Signal)
    requires s.lost.Kept? && !Strikes(s, sig)
    ensures Deliver(w, s, sig).lost.Kept?
  {
    hide Enter;
  }

  lemma {:induction false} DeliverAllKept(w: World, s: Conn, sigs: seq<Signal>)
    requires s.lost.Kept? && !Struck(w, s, sigs)
    ensures DeliverAll(w, s, sigs).lost.Kept?
    decreases |sigs|
  {
    hide Deliver, Strikes;
    if sigs != [] {
      DeliverKept(w, s, sigs[0]);
      DeliverAllKept(w, Deliver(w, s, sigs[0]), sigs[1..]);
    }
  }

  lemma StartKept(w: World, s: Conn)
    requires s.lost.Kept? && s.protocol.On? && !StartStrikes(w, s)
    ensures Start(w, s).lost.Kept?
  {
    hide DeliverAll, Struck;
    DeliverAllKept(w, s.(now := s.now + 1, tally := s.tally.(starts := s.tally.starts + 1)), w.startSignals(s.now));
  }

  lemma StopKept(w: World, s: Conn)
    requires s.lost.Kept? && s.protocol.On? && !StopStrikes(w, s)
    ensures Stop(w, s).lost.Kept?
  {
    hide DeliverAll, Struck;
    DeliverAllKept(w, s.(now := s.now + 1, tally := s.tally.(stops := s.tally.stops + 1)), w.stopSignals(s.now));
  }

  lemma StartConfiguredKept(w: World, s: Conn)
    requires !StartConfiguredTold(w, s)
    ensures StartConfigured(w, s).lost.Kept?
  {
    hide Start, Enter, StartStrikes;
    var a := NewProtocol(w, StopPending(s).(connecting := On, lost := Kept));
    if a.protocol.On? { StartKept(w, a); }
  }

  lemma StartSilentKept(w: World, s: Conn)
    requires !StartSilentTold(w, s) && s.lost.Kept?
    ensures StartSilent(w, s).lost.Kept?
  {
    hide Start, Enter, StartStrikes;
    var a := Replace(w, Defer(w, s, StartSilentReconnect, Recovering));
    if !s.silent.On? && w.networkReady(s.now) && a.protocol.On? { StartKept(w, a); }
  }

  lemma ReconnectKept(w: World, s: Conn)
    requires !ReconnectTold(w, s) && s.lost.Kept?
    ensures Reconnect(w, s).lost.Kept?
  {
    hide StartSilent, StartSilentTold;
    if Reconnectable(s) && w.networkReady(s.now) {
      StartSilentKept(w, CountAttempt(ResetAttempts(Defer(w, s, RequestReconnect, Recovering))));
    }
  }

  lemma ResumeKept(w: World, s: Conn)
    requires !ResumeTold(w, s) && s.lost.Kept? && !s.state.Reconnecting?
    ensures Resume(w, s).lost.Kept?
  {
    hide StartSilent, StartConfigured, Reconnect, StartConfiguredTold, StartSilentTold, ReconnectTold;
    var a := StopPending(s).(now := s.now + 1);
    if s.pending.NoAction? || !w.networkReady(s.now) {
    } else if s.pending.StartConnection? && s.state.Connecting? {
      StartConfiguredKept(w, a);
    } else if s.pending.RequestReconnect? && s.state.Connected? {
      ReconnectKept(w, a);
    } else if s.pending.StartSilentReconnect? && s.state.Connected? {
      StartSilentKept(w, a);
    }
  }

  lemma ConnectKept(w: World, s: Conn, known: bool)
    requires !ConnectTold(w, s, known)
    ensures Connect(w, s, known).lost.Kept?
  {
    hide Stop, BeginConnect, Enter, StopStrikes, StartConfigured, StartConfiguredTold;
    var a := BeginConnect(w, s.(now := s.now + 1), known);
    var b := a.(now := a.now + 1);
    if w.repositories(s.now) && w.protection(a.now) {
      BeginConnectKept(w, s.(now := s.now + 1), known);
      var c := StopPrevious(w, b);
      if b.protocol.On? { StopKept(w, b.(errorsLive := Off)); }
      if w.networkReady(c.now) { StartConfiguredKept(w, Defer(w, c, StartConnection, CheckingLocalNetwork)); }
    }
  }

  lemma BeginConnectKept(w: World, s: Conn, known: bool)
    ensures BeginConnect(w, s, known).lost.Kept?
  {
  }

  lemma DisconnectKept(w: World, s: Conn)
    requires !DisconnectTold(w, s) && (s.protocol.On? || !s.state.Reconnecting?)
    requires s.lost.Kept? || s.state.Reconnecting?
    ensures Disconnect(w, s).lost.Kept?
  {
    hide Stop, Enter, StopStrikes;
    if s.protocol.On? { StopKept(w, Change(w, BeginDisconnect(s), Disconnecting)); }
  }

  lemma OutsideStepKept(w: World, s: Conn, e: Event)
    requires Inv(s) && !Told(w, s, e) && !s.state.Reconnecting?
    ensures Step(w, s, e).lost.Kept?
  {
    hide Connect, Disconnect, StartSilent, Reconnect, Resume, Deliver, Enter, Stop, ConnectTold, DisconnectTold,
         StartSilentTold, ReconnectTold, ResumeTold;
    match e
    case UserConnect(known) => ConnectKept(w, s, known);
    case UserDisconnect => DisconnectKept(w, s);
    case FromProtocol(sig) => DeliverKept(w, s, sig);
    case Wake => ReconnectKept(w, s);
    case RecoveryFired =>
      if s.recovery.On? && s.state.Connected? && !s.silent.On? && s.protocol.On? && s.serverKnown.On? {
        StartSilentKept(w, s.(recovery := Off));
      }
    case NetworkReady(ready) => if ready { ResumeKept(w, s); }
    case QueuedResume => ResumeKept(w, s);
    case PendingFired => if s.pendingTick.On? { ResumeKept(w, s); }
    case _ =>
  }

  /** Reconnecting becomes endless by one of the three steps, or in a step whose own call of start() or
      stop() is told Disconnected in Reconnecting. */
  lemma UnguardedHasCause(w: World, s: Conn, e: Event)
    requires Inv(s) && !Unguarded(s) && Unguarded(Step(w, s, e))
    ensures Unguards(w, s, e) || Told(w, s, e)
  {
    hide Step, Told, Unguards, Inv;
    StepInv(w, s, e);
    LostIsUnguarded(Step(w, s, e));
    if Told(w, s, e) {
    } else if !s.state.Reconnecting? {
      OutsideStepKept(w, s, e);
    } else if e.UserConnect? {
      StepConnectKept(w, s, e);
    } else if e.UserDisconnect? && s.protocol.On? {
      StepDisconnectKept(w, s, e);
    } else {
      UnguardsIff(w, s, e);
    }
  }

  lemma StepConnectKept(w: World, s: Conn, e: Event)
    requires !Told(w, s, e) && e.UserConnect?
    ensures Step(w, s, e).lost.Kept?
  {
    hide Connect, ConnectTold;
    ConnectKept(w, s, e.serverKnown);
  }

  lemma StepDisconnectKept(w: World, s: Conn, e: Event)
    requires !Told(w, s, e) && e.UserDisconnect? && s.protocol.On? && s.state.Reconnecting?
    ensures Step(w, s, e).lost.Kept?
  {
    hide Disconnect, DisconnectTold;
    DisconnectKept(w, s);
  }

  lemma LostIsUnguarded(s: Conn)
    requires Unguarded(s) && Inv(s)
    ensures !s.lost.Kept?
  {
  }

  predicate RunUnguards(w: World, s: Conn, events: seq<Event>)
    decreases |events|
  {
    events != [] &&
    (Unguards(w, s, events[0]) || Told(w, s, events[0]) || RunUnguards(w, Step(w, s, events[0]), events[1..]))
  }

  /** Every run that ends in an endless Reconnecting contains such a step. */
  lemma {:induction false} EndlessWaitHasCause(w: World, s: Conn, events: seq<Event>)
    requires Inv(s) && !Unguarded(s) && Unguarded(Run(w, s, events))
    ensures RunUnguards(w, s, events)
    decreases |events|
  {
    hide Step, Told, Unguards, Inv, Unguarded;
    if events != [] {
      var t := Step(w, s, events[0]);
      StepInv(w, s, events[0]);
      if Unguarded(t) {
        UnguardedHasCause(w, s, events[0]);
      } else {
        EndlessWaitHasCause(w, t, events[1..]);
      }
    }
  }

  lemma StepInv(w: World, s: Conn, e: Event)
    requires Inv(s)
    ensures Inv(Step(w, s, e))
  {
    hide Step;
    StepReached(w, s, e);
  }

  // ---------- endless waits ----------

  /** An unguarded Reconnecting is left by no timer, answer or wake-up. */
  lemma {:induction false} ReconnectingCanStayForEver(w: World, s: Conn, events: seq<Event>)
    requires Unguarded(s)
    requires forall e :: e in events ==> Passive(e) && !e.FromProtocol?
    ensures Unguarded(Run(w, s, events))
    decreases |events|
  {
    if events != [] {
      assert events[0] in events;
      ReconnectingStays(w, s, events[0]);
      ReconnectingCanStayForEver(w, Step(w, s, events[0]), events[1..]);
    }
  }

  lemma ReconnectingStays(w: World, s: Conn, e: Event)
    requires Unguarded(s) && Passive(e) && !e.FromProtocol?
    ensures Unguarded(Step(w, s, e))
  {
    hide TimedOut, StartSilent, StartConfigured;
  }

  /** So two signals of a live protocol are enough to wait for ever. */
  lemma ReconnectingHasNoBound(w: World, s: Conn, events: seq<Event>)
    requires Inv(s) && s.statesLive.On? && s.stopping.Off? && s.deadline.Off?
    requires forall e :: e in events ==> Passive(e) && !e.FromProtocol?
    ensures var a := Step(w, s, FromProtocol(StateSignal(Reconnecting)));
            var b := Step(w, a, FromProtocol(StateSignal(Disconnected)));
            Run(w, b, events).state.Reconnecting?
  {
    hide Run;
    var a := Step(w, s, FromProtocol(StateSignal(Reconnecting)));
    var b := Step(w, a, FromProtocol(StateSignal(Disconnected)));
    ReconnectingCanStayForEver(w, b, events);
  }

  /** An environment in which a first connection starts without a hitch. */
  ghost predicate Smooth(w: World) {
    forall n: nat :: w.repositories(n) && w.protection(n) && w.networkReady(n) && w.factory(n) &&
                     w.startSignals(n) == [] && w.startResult(n) == NoError
  }

  /** A run from the initial state that gets there: connect, then these two reports. */
  lemma ReconnectingIsReached(w: World, events: seq<Event>)
    requires Smooth(w)
    requires forall e :: e in events ==> Passive(e) && !e.FromProtocol?
    ensures Run(w, Initial, [UserConnect(true)] + ([FromProtocol(StateSignal(Reconnecting))] +
                            ([FromProtocol(StateSignal(Disconnected))] + events))).state.Reconnecting?
  {
    hide Step, Run, Inv, Smooth, Passive;
    var s := Step(w, Initial, UserConnect(true));
    var a := Step(w, s, FromProtocol(StateSignal(Reconnecting)));
    SmoothConnect(w);
    ReconnectingHasNoBound(w, s, events);
    var rest := [FromProtocol(StateSignal(Disconnected))] + events;
    var more := [FromProtocol(StateSignal(Reconnecting))] + rest;
    RunFront(w, Initial, UserConnect(true), more);
    RunFront(w, s, FromProtocol(StateSignal(Reconnecting)), rest);
    RunFront(w, a, FromProtocol(StateSignal(Disconnected)), events);
  }

  lemma RunFront(w: World, s: Conn, e: Event, events: seq<Event>)
    ensures Run(w, s, [e] + events) == Run(w, Step(w, s, e), events)
  {
    hide Step;
    assert ([e] + events)[1..] == events;
  }

  lemma SmoothConnect(w: World)
    requires Smooth(w)
    ensures var s := Step(w, Initial, UserConnect(true));
      Inv(s) && s.statesLive.On? && s.stopping.Off? && s.deadline.Off?
  {
    assert Inv(Initial);
    StepReached(w, Initial, UserConnect(true));
  }

  /** An environment in which stopping the old protocol object reports Reconnecting, and the network is
      away when the second connection is about to start. */
  ghost predicate Flaky(w: World) {
    forall n: nat :: w.repositories(n) && w.protection(n) && w.factory(n) && (w.networkReady(n) <==> n != 8) &&
                     w.startSignals(n) == [] && w.startResult(n) == NoError &&
                     w.stopSignals(n) == [StateSignal(Reconnecting)]
  }

  /** Another run, without any report of Disconnected: two connects, the second one deferred in
      Reconnecting, and the network coming back. */
  lemma DroppedStartIsReached(w: World)
    requires Flaky(w)
    ensures var s := Run(w, Initial, [UserConnect(true)] + ([UserConnect(true)] + ([NetworkReady(true)] + [])));
      Unguarded(s) && s.lost.ByDrop?
  {
    hide Step, Run, Flaky;
    var a := Step(w, Initial, UserConnect(true));
    var b := Step(w, a, UserConnect(true));
    FlakyFirst(w);
    FlakySecond(w, a);
    FlakyResume(w, b);
    RunFront(w, Initial, UserConnect(true), [UserConnect(true)] + ([NetworkReady(true)] + []));
    RunFront(w, a, UserConnect(true), [NetworkReady(true)] + []);
    RunFront(w, b, NetworkReady(true), []);
    assert Run(w, Step(w, b, NetworkReady(true)), []) == Step(w, b, NetworkReady(true)) by { RunNothing(w, b); }
  }

  lemma RunNothing(w: World, s: Conn)
    ensures Run(w, Step(w, s, NetworkReady(true)), []) == Step(w, s, NetworkReady(true))
  {
    hide Step;
  }

  lemma FlakyFirst(w: World)
    requires Flaky(w)
    ensures var s := Step(w, Initial, UserConnect(true));
      s.now == 5 && s.protocol.On? && s.statesLive.On? && s.silent.Off?
  {
  }

  lemma FlakySecond(w: World, s: Conn)
    requires Flaky(w) && s.now == 5 && s.protocol.On? && s.statesLive.On? && s.silent.Off?
    ensures var t := Step(w, s, UserConnect(true));
      t.now == 9 && t.state.Reconnecting? && t.connecting.Off? && t.pending.StartConnection?
  {
    hide SettledHealth, StartConfigured;
    var a := BeginConnect(w, s.(now := s.now + 1), true);
    var b := a.(now := a.now + 1);
    assert b.now == 7 && b.statesLive.On?;
    var c := b.(errorsLive := Off, now := 8, tally := b.tally.(stops := b.tally.stops + 1));
    assert [StateSignal(Reconnecting)][1..] == [];
    assert DeliverAll(w, c, [StateSignal(Reconnecting)]) == DeliverAll(w, Deliver(w, c, StateSignal(Reconnecting)), []);
  }

  lemma FlakyResume(w: World, s: Conn)
    requires Flaky(w) && s.now == 9 && s.state.Reconnecting? && s.connecting.Off? && s.pending.StartConnection?
    ensures var t := Step(w, s, NetworkReady(true)); Unguarded(t) && t.lost.ByDrop?
  {
  }
}
