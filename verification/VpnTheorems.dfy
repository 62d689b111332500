/** What holds over whole runs of the connection lifecycle, in every environment. */
module VpnTheorems {
  import opened Switches
  import opened VpnTypes
  import opened VpnSpec
  import opened VpnInvariants

  lemma ReachableIsSound(w: World, events: seq<Event>)
    ensures Inv(Run(w, Initial, events)) && Ledger(Initial, Run(w, Initial, events))
  {
    RunReached(w, Initial, events);
  }

  // ---------- retry budget ----------

  /** Silent restarts never outnumber scheduled recoveries, and every reset of the attempt
      counter buys at most three of them. */
  lemma RetryBudget(w: World, events: seq<Event>)
    ensures var s := Run(w, Initial, events);
      && 0 <= s.attempts <= MAX_ATTEMPTS
      && s.tally.restarts + Outstanding(s) <= s.tally.scheduled
      && s.tally.scheduled <= 3 * s.tally.resets + s.attempts
  {
    ReachableIsSound(w, events);
  }

  /** Between two resets, from any point of any run: at most the remaining attempts,
      plus a restart that was already under way. */
  lemma RestartsBetweenResets(w: World, before: seq<Event>, after: seq<Event>)
    ensures var s := Run(w, Initial, before);
            var t := Run(w, s, after);
            t.tally.resets == s.tally.resets ==>
              t.tally.restarts - s.tally.restarts <= t.attempts - s.attempts + Outstanding(s)
  {
    ReachableIsSound(w, before);
    RunReached(w, Run(w, Initial, before), after);
  }

  // ---------- starts and stops ----------

  /** Every protocol object that was started has been stopped, except perhaps the current one. */
  lemma NothingIsLeftRunning(w: World, events: seq<Event>)
    ensures var s := Run(w, Initial, events);
      s.tally.starts <= s.tally.stops + (if s.protocol.On? then 1 else 0)
  {
    ReachableIsSound(w, events);
  }

  // ---------- exclusive recovery, matching diagnostics ----------

  lemma RecoveryIsExclusive(w: World, events: seq<Event>)
    ensures var s := Run(w, Initial, events);
      && !(s.recovery.On? && s.silent.On?)
      && !(s.recovery.On? && ReconnectDeferred(s))
      && !(s.silent.On? && ReconnectDeferred(s))
      && (ReconnectDeferred(s) ==> s.protocol.On?)
  {
    ReachableIsSound(w, events);
  }

  lemma DiagnosticsMatchLifecycle(w: World, events: seq<Event>)
    ensures var s := Run(w, Initial, events);
      && (s.state.Disconnected? ==> s.health == Idle || Problem(s.health))
      && (s.state.Error? ==> Problem(s.health))
  {
    ReachableIsSound(w, events);
  }

  // ---------- after a disconnect ----------

  /** No protocol object, nothing deferred, nobody listening. */
  predicate Quiescent(s: Conn) {
    s.protocol.Off? && s.pending.NoAction? && s.errorsLive.Off? && s.statesLive.Off?
  }

  lemma DisconnectQuiets(w: World, s: Conn)
    requires Inv(s)
    ensures Quiescent(Disconnect(w, s)) && Disconnect(w, s).tally.starts == s.tally.starts
  {
    hide Change, Stop, SilentFailure;
  }

  /** Nothing but a new connect request ever starts a protocol again. */
  lemma {:induction false} NoStartAfterDisconnect(w: World, s: Conn, events: seq<Event>)
    requires Quiescent(s)
    requires forall e :: e in events ==> !e.UserConnect?
    ensures Quiescent(Run(w, s, events)) && Run(w, s, events).tally.starts == s.tally.starts
    decreases |events|
  {
    if events != [] {
      assert events[0] in events;
      QuiescentStep(w, s, events[0]);
      NoStartAfterDisconnect(w, Step(w, s, events[0]), events[1..]);
    }
  }

  /** After a disconnect at any point of any run, no later event but a connect request starts a protocol. */
  lemma NothingStartsAfterDisconnect(w: World, before: seq<Event>, after: seq<Event>)
    requires forall e :: e in after ==> !e.UserConnect?
    ensures var s := Run(w, Initial, before);
            Run(w, Step(w, s, UserDisconnect), after).tally.starts == s.tally.starts
  {
    hide Run, Disconnect;
    var s := Run(w, Initial, before);
    ReachableIsSound(w, before);
    DisconnectQuiets(w, s);
    NoStartAfterDisconnect(w, Step(w, s, UserDisconnect), after);
  }

  lemma QuiescentStep(w: World, s: Conn, e: Event)
    requires Quiescent(s) && !e.UserConnect?
    ensures Quiescent(Step(w, s, e)) && Step(w, s, e).tally.starts == s.tally.starts
  {
  }

  /** Signals of a stop() that only winds down. */
  predicate WindsDown(sig: Signal) {
    match sig
    case StateSignal(st) => Ending(st)
    case _ => true
  }

  /** Winding down, with nothing armed and the budget restored. */
  predicate WoundDown(s: Conn) {
    && Ending(s.state) && s.silent.Off? && s.stopping.Off? && s.attempts == 0
    && s.connecting.Off? && s.healthTick.Off? && s.recovery.Off? && s.pendingTick.Off? && s.deadline.Off?
  }

  lemma {:induction false} WindingDown(w: World, s: Conn, sigs: seq<Signal>)
    requires WoundDown(s)
    requires forall sig :: sig in sigs ==> WindsDown(sig)
    ensures WoundDown(DeliverAll(w, s, sigs))
    decreases |sigs|
  {
    if sigs != [] {
      assert sigs[0] in sigs;
      WindingDown(w, Deliver(w, s, sigs[0]), sigs[1..]);
    }
  }

  /** From any state at all, a disconnect whose protocol only winds down ends in Disconnected
      with all five timers off and the attempt counter at 0. */
  lemma DisconnectCompletes(w: World, s: Conn)
    requires s.protocol.On?
    requires forall sig :: sig in w.stopSignals(s.now) ==> WindsDown(sig)
    ensures var t := Disconnect(w, s); WoundDown(t) && t.state.Disconnected? && t.protocol.Off?
  {
    hide DeliverAll;
    var a := Change(w, BeginDisconnect(s), Disconnecting);
    WindingDown(w, a.(now := a.now + 1, tally := a.tally.(stops := a.tally.stops + 1)), w.stopSignals(a.now));
  }

  /** Without a protocol object the outcome depends on where the disconnect finds us: a stored
      failure and an unfinished Reconnecting survive it, everything else becomes Disconnected. */
  lemma DisconnectWithoutProtocol(w: World, s: Conn)
    requires s.protocol.Off?
    ensures Disconnect(w, s).state.Disconnected? <==>
            !s.state.Reconnecting? && !(s.state.Error? && s.lastError != NoError)
  {
  }

  // ---------- absorbing failures ----------

  /** Events that carry no news from the user and nothing but a late Disconnected from the protocol. */
  predicate Passive(e: Event) {
    match e
    case UserConnect(_) => false
    case UserDisconnect => false
    case FromProtocol(sig) => sig == StateSignal(Disconnected) || sig.ErrorStored? || sig.BytesSignal?
    case _ => true
  }

  predicate Failed(s: Conn, error: ErrorCode) {
    s.state.Error? && s.lastError == error && error != NoError && Problem(s.health)
  }

  lemma FailureStays(w: World, s: Conn, e: Event, error: ErrorCode)
    requires Failed(s, error) && Passive(e)
    ensures Failed(Step(w, s, e), error)
  {
  }

  /** A concrete failure is absorbing until the user acts. */
  lemma {:induction false} FailureIsAbsorbing(w: World, s: Conn, events: seq<Event>, error: ErrorCode)
    requires Failed(s, error)
    requires forall e :: e in events ==> Passive(e)
    ensures Failed(Run(w, s, events), error)
    decreases |events|
  {
    if events != [] {
      assert events[0] in events;
      FailureStays(w, s, events[0], error);
      FailureIsAbsorbing(w, Step(w, s, events[0]), events[1..], error);
    }
  }

  /** Whatever run led to an Error with an error on record: only the user or the protocol's own news end it. */
  lemma FailuresAreFinal(w: World, before: seq<Event>, after: seq<Event>)
    requires forall e :: e in after ==> Passive(e)
    ensures var s := Run(w, Initial, before);
            var t := Run(w, s, after);
            s.state.Error? && s.lastError != NoError ==>
              t.state.Error? && t.lastError == s.lastError && Problem(t.health)
  {
    hide Run;
    var s := Run(w, Initial, before);
    ReachableIsSound(w, before);
    if s.state.Error? && s.lastError != NoError {
      FailureIsAbsorbing(w, s, after, s.lastError);
    }
  }
}
