/**
 What a turn of the SSH supervisor decides: when reconnecting goes on and when
 it halts, when a session is Connected, when routing is kept or taken down, and
 how fast the next attempt comes. Each is said of a whole turn, from what could
 be seen before it, and in both directions.
 */
module SshSupervisorDecisions {
  import opened Prelude
  import opened SshSupervisor
  import opened SshSupervisorInvariant
  import opened SshSupervisorRouting
  import opened SshSupervisorTheorems
  import opened SshSupervisorRetries

  // ----- Retry or halt -----

  predicate CurrentAttempt(s: State) { s.queue.running.Attempt? && s.queue.running.plan.gen == s.life.generation }

  /** The failure a current attempt ends with, if this await is its last. */
  function EndsWith(s: State, e: Event): Option<Failure> {
    if !e.Resume? || !CurrentAttempt(s) then None
    else
      match s.queue.running.at
      case Dialling => if e.outcome.Failed? && !s.queue.running.plan.holdTun then Some(e.outcome.failure) else None
      case DroppingSession(_, failure) => if s.queue.running.plan.holdTun then None else Some(failure)
      case ReleasingTun(failure) => Some(failure)
      case _ => None
  }

  /** Only the user can help: the host key or the request is refused, or the credentials are, unless they opened a session
      before and this is the first rejection in a row of an automatic attempt. */
  predicate NeedsUser(s: State, trigger: Trigger, failure: Failure) {
    || failure == HostKeyRejected
    || failure == NotRetryable
    || (failure == AuthRejected && (trigger == User || !s.retry.sessionEstablished || s.retry.authFailures > 0))
  }

  /** The clean-up of a failed session that is about to end. */
  predicate EndsCleanup(s: State, e: Event, retryable: bool) {
    && e.Resume? && s.queue.running.CleaningUp? && s.queue.running.gen == s.life.generation
    && s.queue.running.retryable == retryable
  }

  predicate Halts(s: State, e: Event) {
    || (EndsWith(s, e).Some? && NeedsUser(s, s.queue.running.plan.trigger, EndsWith(s, e).value))
    || EndsCleanup(s, e, false)
  }

  predicate Retries(s: State, e: Event) {
    || (EndsWith(s, e).Some? && !NeedsUser(s, s.queue.running.plan.trigger, EndsWith(s, e).value))
    || EndsCleanup(s, e, true)
  }

  predicate HasHalted(s: State, s': State) {
    && s'.life.reconnectHalted && s'.phase == Error && s'.retry.timer.None? && !s'.retry.watchdog && !s'.retry.pendingWake
    && s'.queue.pending == s.queue.pending + [StopRoutingOp]
  }

  predicate HasRetry(s: State, s': State) {
    && !s'.life.reconnectHalted && s'.phase == Reconnecting
    && s'.retry.timer.Some? && s'.retry.timer.value.gen == s'.life.generation == s.life.generation
    && s'.queue.pending == s.queue.pending
  }

  lemma FailureDecides(s: State, plan: Plan, failure: Failure, env: Env)
    requires plan.gen == s.life.generation && Wanted(s) && s.retry.timer.None?
    ensures var s' := ConcludeFailure(s, plan, failure, env);
      s'.queue.running.Idle? && if NeedsUser(s, plan.trigger, failure) then HasHalted(s, s') else HasRetry(s, s')
  {}

  /** A current attempt that ends in a failure halts reconnecting if only the user can help, and else leaves a timer of
      this lifecycle; the clean-up of a failed session halts if and only if its error was not retryable. */
  lemma EndDecides(s: State, e: Event, env: Env)
    requires CoreInv(s)
    ensures Halts(s, e) ==> HasHalted(s, Step(s, e, env))
    ensures Retries(s, e) ==> HasRetry(s, Step(s, e, env))
    ensures Halts(s, e) || Retries(s, e) ==> Step(s, e, env).queue.running.Idle?
  {
    if EndsWith(s, e).Some? {
      var plan, failure := s.queue.running.plan, EndsWith(s, e).value;
      match s.queue.running.at
      case Dialling => FailureDecides(CountRejection(s, failure), plan, failure, env);
      case DroppingSession(session, _) => FailureDecides(Close(s, session), plan, failure, env);
      case ReleasingTun(_) => FailureDecides(s, plan, failure, env);
    }
  }

  /** Until it ends, a current attempt that failed carries its failure to the next await unchanged. */
  lemma FailureIsCarried(s: State, tunUp: bool, outcome: Outcome, env: Env)
    requires CoreInv(s) && CurrentAttempt(s)
    ensures var e, s' := Resume(outcome, tunUp), OnResume(s, outcome, tunUp, env);
      var told := if s.queue.running.at.DroppingSession? || s.queue.running.at.ReleasingTun? then Some(s.queue.running.at.failure)
        else if outcome.Failed? && (s.queue.running.at.Dialling? || s.queue.running.at.OpeningListener? || s.queue.running.at.ApplyingRouting?)
        then Some(outcome.failure) else None;
      told.Some? ==>
        || EndsWith(s, e) == told
        || (CurrentAttempt(s') && s'.queue.running.plan == s.queue.running.plan
            && (s'.queue.running.at == ReleasingTun(told.value)
                || (s'.queue.running.at.DroppingSession? && s'.queue.running.at.failure == told.value)))
  {}

  lemma QuietEventDecides(s: State, e: Event, env: Env)
    requires CoreInv(s) && !e.Resume? && !e.BeginNext?
    ensures Step(s, e, env).life.reconnectHalted <==> s.life.reconnectHalted && !(e.UserConnect? && !s.life.disposed)
    ensures s.retry.timer.None? ==> Step(s, e, env).retry.timer.None?
  {}

  lemma BeginDecides(s: State, tunUp: bool, env: Env)
    ensures OnBeginNext(s, tunUp, env).life == s.life && OnBeginNext(s, tunUp, env).retry.timer == s.retry.timer
  {}

  lemma AttemptDecidesNothing(s: State, outcome: Outcome, tunUp: bool, env: Env)
    requires CoreInv(s) && s.queue.running.Attempt? && EndsWith(s, Resume(outcome, tunUp)).None?
    ensures OnResume(s, outcome, tunUp, env).life == s.life
    ensures OnResume(s, outcome, tunUp, env).retry.timer == s.retry.timer
  {
    if !CurrentAttempt(s) { StaleAttemptIsInert(s, outcome, tunUp, env); }
  }

  lemma OtherResumeDecides(s: State, outcome: Outcome, tunUp: bool, env: Env)
    requires CoreInv(s) && !Halts(s, Resume(outcome, tunUp)) && !Retries(s, Resume(outcome, tunUp))
    ensures OnResume(s, outcome, tunUp, env).life == s.life
    ensures OnResume(s, outcome, tunUp, env).retry.timer == s.retry.timer
  {
    if s.queue.running.Attempt? { AttemptDecidesNothing(s, outcome, tunUp, env); }
  }

  /** Reconnecting halts at those turns and no others, and goes on again only with a user Connect. */
  lemma HaltsExactly(s: State, e: Event, env: Env)
    requires CoreInv(s)
    ensures Step(s, e, env).life.reconnectHalted <==>
      Halts(s, e) || (s.life.reconnectHalted && !(e.UserConnect? && !s.life.disposed))
  {
    EndDecides(s, e, env);
    match e
    case BeginNext(tunUp) => BeginDecides(s, tunUp, env);
    case Resume(outcome, tunUp) => if !Halts(s, e) && !Retries(s, e) { OtherResumeDecides(s, outcome, tunUp, env); }
    case _ => QuietEventDecides(s, e, env);
  }

  /** Where none is armed, a reconnect timer is armed at those turns and no others. */
  lemma RetriesExactly(s: State, e: Event, env: Env)
    requires CoreInv(s) && s.retry.timer.None?
    ensures Step(s, e, env).retry.timer.Some? <==> Retries(s, e)
  {
    EndDecides(s, e, env);
    match e
    case BeginNext(tunUp) => BeginDecides(s, tunUp, env);
    case Resume(outcome, tunUp) => if !Halts(s, e) && !Retries(s, e) { OtherResumeDecides(s, outcome, tunUp, env); }
    case _ => QuietEventDecides(s, e, env);
  }

  /** Over every run: what a current attempt that ends in a failure leaves behind. */
  lemma FailedAttemptDecides(turns: seq<Turn>, e: Event, env: Env, failure: Failure)
    requires EndsWith(Run(INITIAL, turns), e) == Some(failure)
    ensures var s := Run(INITIAL, turns);
      var s' := Step(s, e, env);
      s'.queue.running.Idle? && if NeedsUser(s, s.queue.running.plan.trigger, failure) then HasHalted(s, s') else HasRetry(s, s')
  {
    Reached(turns);
    EndDecides(Run(INITIAL, turns), e, env);
  }

  // ----- A session that fails -----

  /** The bridge takes notice of the failure of its own current session only, and queues a clean-up that tells whether it
      may be retried; the clean-up runs as it was queued. */
  lemma LostSessionIsCleanedUp(s: State, session: nat, gen: nat, retryable: bool, env: Env)
    requires CoreInv(s)
    ensures var s' := Step(s, ClientFailure(session, gen, retryable), env);
      if s.client == Some(Session(session, s.life.generation)) && gen == s.life.generation
      then && s'.queue.pending == s.queue.pending + [CleanupOp(s'.life.generation, session, retryable)]
           && s'.life.generation == s.life.generation + 1 && s'.client.None?
           && s'.phase == (if retryable then Reconnecting else Error)
           && (retryable && s.hold.applied ==> s'.hold.timer.Some? || s.hold.stopQueued)
      else s' == s
  {}

  lemma CleanupRunsAsQueued(s: State, tunUp: bool, env: Env)
    requires Ready(s) && s.queue.pending[0].CleanupOp?
    ensures var op := s.queue.pending[0];
      OnBeginNext(s, tunUp, env).queue.running == CleaningUp(op.gen, op.session, op.retryable)
  {}

  // ----- How soon -----

  /** The first retry comes at once, the second after a second, and each later one after twice the delay, up to thirty seconds. */
  lemma BackoffDoubles(step: nat)
    ensures BackoffStepMs(0) == 0 && BackoffStepMs(1) == 1_000
    ensures step > 0 ==> BackoffStepMs(step + 1) == Min(2 * BackoffStepMs(step), MAXIMUM_RECONNECT_DELAY_MS)
  {}

  /** How long the spacing floor still lasts: until a second after the last attempt, whatever the clock says. */
  function FloorMs(before: Retry, now: int): int {
    if now >= before.lastAttemptAt + 1_000 then 0
    else if now <= before.lastAttemptAt then 1_000
    else before.lastAttemptAt + 1_000 - now
  }

  /** A wake restarted the backoff less than half a minute ago, on a clock that has not stepped back since. */
  predicate RestartedLately(before: Retry, now: int) {
    before.lastWakeResetAt != 0 && before.lastWakeResetAt <= now < before.lastWakeResetAt + 30_000
  }

  /** A timer set now: brought forward by a wake that came meanwhile, where the last such is long enough ago, or else one
      step further along the backoff, with up to a fifth of it and five seconds added. */
  predicate Paced(before: Retry, retry: Retry, env: Env) {
    && retry.timer.Some? && retry.timer.value.setAt == env.now && !retry.pendingWake && retry.attempt == before.attempt + 1
    && var delay, base := retry.timer.value.delayMs, BackoffStepMs(before.backoffStep);
       if before.pendingWake && !RestartedLately(before, env.now)
       then delay == FloorMs(before, env.now) && retry.backoffStep == 0 && retry.lastWakeResetAt == env.now
       else && retry.backoffStep == before.backoffStep + 1 && retry.lastWakeResetAt == before.lastWakeResetAt
            && FloorMs(before, env.now) <= delay && base <= delay
            && (delay == FloorMs(before, env.now) || (5 * (delay - base) <= base && delay - base <= 5_000))
  }

  lemma ScheduleIsPaced(s: State, env: Env)
    requires Wanted(s) && s.retry.timer.None? && 0.0 <= env.random < 1.0
    ensures Paced(s.retry, ScheduleReconnect(s, s.life.generation, false, env).retry, env)
  {
    JitterBounds(BackoffStepMs(s.retry.backoffStep), env.random);
  }

  lemma CountingIsPaced(before: Retry, counted: Retry, retry: Retry, env: Env)
    requires counted == before.(authFailures := counted.authFailures)
    ensures Paced(counted, retry, env) <==> Paced(before, retry, env)
  {}

  /** Whoever counts the failure, the timer is the one scheduleReconnect sets. */
  lemma HandlingSchedules(s: State, plan: Plan, failure: Failure, env: Env) returns (counted: State)
    requires plan.gen == s.life.generation && Wanted(s) && !NeedsUser(s, plan.trigger, failure)
    ensures counted.retry == s.retry.(authFailures := counted.retry.authFailures) && counted.life == s.life
    ensures HandleConnectFailure(s, failure, plan.gen, plan.trigger, env) == ScheduleReconnect(counted, plan.gen, false, env)
  {
    counted := if failure == AuthRejected then s.(retry := s.retry.(authFailures := s.retry.authFailures + 1)) else s;
  }

  lemma FailureIsPaced(s: State, plan: Plan, failure: Failure, env: Env)
    requires plan.gen == s.life.generation && Wanted(s) && s.retry.timer.None? && !NeedsUser(s, plan.trigger, failure)
    requires 0.0 <= env.random < 1.0
    ensures Paced(s.retry, ConcludeFailure(s, plan, failure, env).retry, env)
  {
    var told := SuspendTunnel(s).(phase := if plan.trigger == User then Error else Reconnecting);
    var counted := HandlingSchedules(told, plan, failure, env);
    ScheduleIsPaced(counted, env);
    CountingIsPaced(s.retry, counted.retry, ConcludeFailure(s, plan, failure, env).retry, env);
  }

  lemma EndIsPaced(s: State, e: Event, env: Env)
    requires CoreInv(s) && EndsWith(s, e).Some? && 0.0 <= env.random < 1.0
    requires !NeedsUser(s, s.queue.running.plan.trigger, EndsWith(s, e).value)
    ensures Paced(s.retry, Step(s, e, env).retry, env)
  {
    var plan, failure := s.queue.running.plan, EndsWith(s, e).value;
    match s.queue.running.at
    case Dialling => FailureIsPaced(CountRejection(s, failure), plan, failure, env);
    case DroppingSession(session, _) => FailureIsPaced(Close(s, session), plan, failure, env);
    case ReleasingTun(_) => FailureIsPaced(s, plan, failure, env);
  }

  /** Every turn that retries sets such a timer. */
  lemma RetryIsPaced(s: State, e: Event, env: Env)
    requires CoreInv(s) && Retries(s, e) && 0.0 <= env.random < 1.0
    ensures Paced(s.retry, Step(s, e, env).retry, env)
  {
    if EndsWith(s, e).Some? {
      EndIsPaced(s, e, env);
    } else {
      ScheduleIsPaced(Close(s, s.queue.running.session), env);
    }
  }

  // ----- What brings an attempt forward -----

  /** A timer that fires, or a user Connect, starts an attempt of a new lifecycle; the latter is a fresh mandate. */
  lemma AttemptsStart(s: State, env: Env)
    requires CoreInv(s)
    ensures s.retry.timer.Some? ==>
      var s' := Step(s, ReconnectTimerFires, env);
      && s'.queue.pending == s.queue.pending + [ConnectOp(s'.life.generation, Automatic)]
      && s'.life.generation == s.life.generation + 1 && s'.phase == Reconnecting && s'.retry.timer.None?
    ensures !s.life.disposed ==>
      var s' := Step(s, UserConnect, env);
      && s'.queue.pending == s.queue.pending + [ConnectOp(s'.life.generation, User)]
      && s'.life == Lifecycle(s.life.generation + 1, true, false, false, false) && s'.phase == Connecting
      && s'.retry.timer.None? && s'.retry.backoffStep == 0 && s'.retry.authFailures == 0 && !s'.retry.sessionEstablished
      && !s'.retry.pendingWake
  {}

  /** What a wake does: a timer is moved up to the spacing floor, unless a wake did so lately; an attempt under way is noted
      for its retry; a session is left to its probe. */
  lemma WakeBringsForward(s: State, env: Env)
    requires CoreInv(s)
    ensures var s' := Step(s, Wake, env);
      if !Wanted(s) then s' == s
      else if s.retry.timer.Some? then
        if RestartedLately(s.retry, env.now) then s' == s
        else && s'.retry.timer == Some(ReconnectTimer(s.life.generation, env.now, FloorMs(s.retry, env.now)))
             && s'.retry.backoffStep == 0 && s'.retry.lastWakeResetAt == env.now && s'.retry.attempt == Max(1, s.retry.attempt)
      else s' == if s.phase == Connected then s else s.(retry := s.retry.(pendingWake := true))
  {}

  /** A wanted session found with neither client, timer nor work in the queue would get a timer at the spacing floor from a
      wake, and from the watchdog while it runs; the watchdog does nothing else. */
  lemma StallWouldBeRepaired(s: State, env: Env)
    ensures var stalled := Wanted(s) && s.client.None? && s.retry.timer.None? && s.queue.inFlight == 0;
      var timer := Some(ReconnectTimer(s.life.generation, env.now, FloorMs(s.retry, env.now)));
      && (stalled ==> Step(s, Wake, env).retry.timer == timer)
      && (stalled && s.retry.watchdog ==> Step(s, WatchdogTick, env).retry.timer == timer)
      && (!stalled && s.queue.inFlight >= 0 ==> Step(s, WatchdogTick, env) == s)
  {}

  /** A timer, once armed, is disarmed by its own firing, a user Connect or the end of the session only. */
  lemma TimerStaysArmed(s: State, e: Event, env: Env)
    requires CoreInv(s) && s.retry.timer.Some?
    ensures Step(s, e, env).retry.timer.None? <==>
      e.ReconnectTimerFires? || e.UserConnect? || e.UserDisconnect? || e.BeginDisconnect? || e.Dispose?
  {
    match e
    case Resume(outcome, tunUp) => OtherResumeDecides(s, outcome, tunUp, env);
    case _ =>
  }

  // ----- Ending a session -----

  /** Disconnecting and disposing end the lifecycle at once and queue the teardown; beginDisconnect queues none and needs a
      session live or on its way; dismissing an error needs one. */
  lemma SessionsEnd(s: State, e: Event, env: Env)
    requires CoreInv(s) && (e.UserDisconnect? || e.Dispose? || e.BeginDisconnect? || e.ClearError?)
    ensures var s' := Step(s, e, env);
      if s.life.disposed || (e.ClearError? && s.phase != Error)
         || (e.BeginDisconnect? && s.phase != Connecting && s.phase != Reconnecting && s.phase != Connected)
      then s' == s
      else && s'.life == s.life.(generation := s.life.generation + 1, disconnectRequested := true, disposed := e.Dispose?)
           && s'.retry.timer.None? && !s'.retry.watchdog && s'.client == s.client && s'.hold == s.hold
           && s'.phase == (if e.ClearError? then Disconnected else Disconnecting)
           && (e.ClearError? ==> s'.retry.attempt == 0)
           && s'.queue.pending == s.queue.pending
                + (if e.UserDisconnect? || e.Dispose? then [DisconnectOp(s'.life.generation)]
                   else if e.ClearError? && (s.hold.applied || s.listenerUp) then [StopRoutingOp] else [])
  {}

  // ----- Connected -----

  /** The last await of a current attempt that goes well: its session is still the bridge's own. */
  predicate Connects(s: State, e: Event) {
    && e.Resume? && CurrentAttempt(s) && !e.outcome.Failed?
    && (s.queue.running.at.ApplyingRouting? || (s.queue.running.at.OpeningListener? && s.queue.running.plan.holdTun))
  }

  /** A Connected session is left by its own failure, by a new Connect and by the end of the session. */
  predicate Leaves(s: State, e: Event) {
    || e.UserConnect? || e.UserDisconnect? || e.BeginDisconnect? || e.Dispose?
    || (e.ClientFailure? && s.client == Some(Session(e.session, e.gen)) && e.gen == s.life.generation)
  }

  lemma AttemptConnects(s: State, outcome: Outcome, tunUp: bool, env: Env)
    requires CoreInv(s) && s.queue.running.Attempt?
    ensures var s' := OnResume(s, outcome, tunUp, env);
      && (s'.phase == Connected <==> Connects(s, Resume(outcome, tunUp)))
      && (s'.phase == Connected ==>
            && s'.queue.running.Idle? && s'.client == s.client && LiveClient(s') && s'.client.value.id == s.queue.running.at.session
            && s'.hold.applied && s'.hold.timer.None? && !s'.hold.stopQueued && !s'.hold.changedWhileDown
            && s'.retry.backoffStep == 0 && s'.retry.sessionEstablished && s'.retry.attempt == 0 && !s'.retry.pendingWake)
  {
    var plan := s.queue.running.plan;
    match s.queue.running.at
    case Dialling => if outcome.Failed? { FailureIsNotConnected(CountRejection(s, outcome.failure), plan, outcome.failure, env); }
    case DroppingSession(session, failure) => FailureIsNotConnected(Close(s, session), plan, failure, env);
    case ReleasingTun(failure) => FailureIsNotConnected(s, plan, failure, env);
    case _ =>
  }

  lemma OtherTurnConnectsNothing(s: State, e: Event, env: Env)
    requires CoreInv(s) && !(e.Resume? && s.queue.running.Attempt?)
    ensures Step(s, e, env).phase == Connected <==> s.phase == Connected && !Leaves(s, e)
  {}

  /** The status is Connected after exactly these turns. */
  lemma ConnectsExactly(s: State, e: Event, env: Env)
    requires CoreInv(s)
    ensures Step(s, e, env).phase == Connected <==> Connects(s, e) || (s.phase == Connected && !Leaves(s, e))
  {
    if e.Resume? && s.queue.running.Attempt? {
      AttemptConnects(s, e.outcome, e.tunUp, env);
    } else {
      OtherTurnConnectsNothing(s, e, env);
    }
  }

  /** A dialled session is the bridge's own if its attempt is still current, and closed otherwise; an attempt goes from the
      dial to the listener, and from there to routing or straight to Connected. */
  lemma DialledSessionIsUsed(s: State, session: nat, tunUp: bool, env: Env)
    requires CoreInv(s) && s.queue.running.Attempt? && s.queue.running.at.Dialling? && session !in s.world.obtained
    ensures var plan, s' := s.queue.running.plan, OnResume(s, Opened(session), tunUp, env);
      if CurrentAttempt(s)
      then && s'.client == Some(Session(session, s.life.generation)) && s'.retry.authFailures == 0
           && s'.queue.running == Attempt(plan, OpeningListener(session))
      else s'.client == s.client && s'.queue.running == Attempt(plan, DiscardingSession(session))
  {}

  lemma ListenerLeadsOn(s: State, outcome: Outcome, tunUp: bool, env: Env)
    requires CoreInv(s) && CurrentAttempt(s) && !outcome.Failed?
    ensures var plan, s' := s.queue.running.plan, OnResume(s, outcome, tunUp, env);
      match s.queue.running.at
      case OpeningListener(session) =>
        && s'.listenerUp
        && (plan.holdTun || s'.queue.running ==
              Attempt(plan, if plan.holdRouting && tunUp then RebuildingRouting(session) else ApplyingRouting(session)))
      case RebuildingRouting(session) => s'.queue.running == Attempt(plan, ApplyingRouting(session))
      case StoppingRouting =>
        s'.queue.running == Attempt(plan, if s.client.Some? then ReplacingSession(s.client.value.id) else Dialling) && s'.client.None?
      case ReplacingSession(previous) => s'.queue.running == Attempt(plan, Dialling) && previous in s'.world.closed
      case _ => true
  {}
}
