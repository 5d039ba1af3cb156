/** How often and how fast the SSH supervisor tries again. */
module SshSupervisorRetries {
  import opened Prelude
  import opened SshSupervisor
  import opened SshSupervisorInvariant
  import opened SshSupervisorRouting
  import opened SshSupervisorTheorems

  // ----- Authentication rejections -----

  /** An attempt still dialling for a lifecycle that has ended. */
  predicate DiallingStale(s: State) {
    s.queue.running.Attempt? && s.queue.running.at.Dialling? && !RunningLive(s.queue.running, s.life.generation)
  }

  /** A rejection of the live attempt that `handleConnectFailure` has not counted yet. */
  predicate RejectionUncounted(s: State) {
    && RunningLive(s.queue.running, s.life.generation)
    && s.queue.running.Attempt?
    && (s.queue.running.at == ReleasingTun(AuthRejected)
        || (s.queue.running.at.DroppingSession? && s.queue.running.at.failure == AuthRejected))
  }

  /** How many more rejections automatic reconnecting can run into before it halts. */
  function RejectionsLeft(s: State): int {
    if !Wanted(s) then 0
    else if !s.retry.sessionEstablished then if RejectionUncounted(s) then 0 else 1
    else MAXIMUM_AUTOMATIC_AUTH_FAILURES - s.retry.authFailures - if RejectionUncounted(s) then 1 else 0
  }

  predicate AuthInv(s: State) {
    && s.world.rejections + (if DiallingStale(s) then 1 else 0) + RejectionsLeft(s) <= MAXIMUM_AUTOMATIC_AUTH_FAILURES
    && (Wanted(s) ==> s.retry.authFailures < MAXIMUM_AUTOMATIC_AUTH_FAILURES)
    && (Wanted(s) && !s.retry.sessionEstablished ==> s.retry.authFailures == 0)
    && (LiveClient(s) ==> s.world.rejections == 0 && s.retry.authFailures == 0)
    && (s.queue.running.Attempt? && IsCurrent(s, s.queue.running.plan.gen) && s.queue.running.at.DroppingSession? ==>
          s.world.rejections == 0 && s.retry.authFailures == 0)
  }

  lemma EventsKeepAuth(s: State, e: Event, env: Env)
    requires CoreInv(s) && AuthInv(s) && !e.Resume? && !e.BeginNext?
    ensures AuthInv(Step(s, e, env))
  {
    match e
    case UserConnect =>
    case ClientFailure(session, gen, retryable) => ClientFailureKeepsAuth(s, session, gen, retryable);
    case Wake => WakeKeepsAuth(s, env);
    case WatchdogTick => WakeKeepsAuth(s, env);
    case ReconnectTimerFires => TimerKeepsAuth(s);
    case _ => OtherEventsKeepAuth(s, e, env);
  }

  lemma ClientFailureKeepsAuth(s: State, session: nat, gen: nat, retryable: bool)
    requires CoreInv(s) && AuthInv(s)
    ensures AuthInv(OnClientFailure(s, session, gen, retryable))
  {}

  lemma WakeKeepsAuth(s: State, env: Env)
    requires CoreInv(s) && AuthInv(s)
    ensures AuthInv(OnWake(s, env)) && AuthInv(OnWatchdog(s, env))
  {}

  lemma TimerKeepsAuth(s: State)
    requires CoreInv(s) && AuthInv(s)
    ensures AuthInv(OnReconnectTimer(s))
  {}

  lemma OtherEventsKeepAuth(s: State, e: Event, env: Env)
    requires CoreInv(s) && AuthInv(s) && !e.Resume? && !e.BeginNext? && !e.UserConnect? && !e.ClientFailure?
    requires !e.Wake? && !e.WatchdogTick? && !e.ReconnectTimerFires?
    ensures AuthInv(Step(s, e, env))
  {}

  /** Turns that neither attempt anything nor give up on it. */
  lemma AuthFrame(s: State, s': State)
    requires AuthInv(s)
    requires s'.life == s.life && s'.world.rejections == s.world.rejections
    requires s'.retry.authFailures == s.retry.authFailures && s'.retry.sessionEstablished == s.retry.sessionEstablished
    requires s'.client == s.client || s'.client.None?
    requires s'.queue.running == s.queue.running || (!s.queue.running.Attempt? && !s'.queue.running.Attempt?)
    ensures AuthInv(s')
  {
  }

  lemma BeginAttemptKeepsAuth(s: State, tunUp: bool, env: Env)
    requires CoreInv(s) && AuthInv(s) && Ready(s) && s.queue.pending[0].ConnectOp?
    ensures AuthInv(BeginAttempt(TakeHead(s), s.queue.pending[0].gen, s.queue.pending[0].trigger, tunUp, env))
  {
  }

  lemma BeginKeepsAuth(s: State, tunUp: bool, env: Env)
    requires CoreInv(s) && AuthInv(s)
    ensures AuthInv(OnBeginNext(s, tunUp, env))
  {
    if Ready(s) {
      if s.queue.pending[0].ConnectOp? {
        BeginAttemptKeepsAuth(s, tunUp, env);
      } else {
        BeginOtherKeepsAuth(s, tunUp, env);
      }
    }
  }

  lemma BeginOtherKeepsAuth(s: State, tunUp: bool, env: Env)
    requires AuthInv(s) && Ready(s) && !s.queue.pending[0].ConnectOp?
    ensures AuthInv(OnBeginNext(s, tunUp, env))
  {
    AuthFrame(s, OnBeginNext(s, tunUp, env));
  }

  lemma CleanupKeepsAuth(s: State, outcome: Outcome, tunUp: bool, env: Env)
    requires AuthInv(s) && s.queue.running.CleaningUp?
    ensures AuthInv(OnResume(s, outcome, tunUp, env))
  {
  }

  lemma OtherResumeKeepsAuth(s: State, outcome: Outcome, tunUp: bool, env: Env)
    requires AuthInv(s) && !s.queue.running.Attempt? && !s.queue.running.CleaningUp?
    ensures AuthInv(OnResume(s, outcome, tunUp, env))
  {
    AuthFrame(s, OnResume(s, outcome, tunUp, env));
  }

  lemma SucceedKeepsAuth(s: State, session: nat)
    requires AuthInv(s) && LiveClient(s) && s.queue.running.Attempt?
    ensures AuthInv(Succeed(s, session))
  {
  }

  predicate BeforeDialling(at: ConnectPoint) {
    at.StoppingRouting? || at.ReplacingSession? || at.DiscardingSession?
  }

  lemma EarlyPointKeepsAuth(s: State, outcome: Outcome, tunUp: bool, env: Env)
    requires AuthInv(s) && s.queue.running.Attempt? && BeforeDialling(s.queue.running.at)
    ensures AuthInv(OnResume(s, outcome, tunUp, env))
  {
  }

  lemma DropKeepsAuth(s: State, plan: Plan, session: nat, failure: Failure)
    requires CoreInv(s) && AuthInv(s) && s.queue.running.Attempt? && s.queue.running.plan == plan
    requires SessionPoint(s.queue.running.at, session)
    ensures AuthInv(DropSession(s, plan, session, failure))
  {
  }

  lemma ListenerKeepsAuth(s: State, plan: Plan, session: nat, tunUp: bool)
    requires CoreInv(s) && AuthInv(s) && s.queue.running == Attempt(plan, OpeningListener(session))
    ensures AuthInv(ListenerOpened(s, plan, session, tunUp))
  {
    if !Overtaken(s, plan, session) && plan.holdTun { SucceedKeepsAuth(s.(listenerUp := true), session); }
  }

  lemma AppliedKeepsAuth(s: State, plan: Plan, session: nat, tunUp: bool)
    requires CoreInv(s) && AuthInv(s) && s.queue.running == Attempt(plan, ApplyingRouting(session))
    ensures AuthInv(RoutingApplied(s, plan, session, tunUp))
  {
    if !Overtaken(s, plan, session) { SucceedKeepsAuth(NoteOvertakenApply(s, tunUp, true), session); }
  }

  lemma LatePointKeepsAuth(s: State, outcome: Outcome, tunUp: bool, env: Env)
    requires CoreInv(s) && AuthInv(s) && s.queue.running.Attempt?
    requires !CanFail(s.queue.running.at) && !BeforeDialling(s.queue.running.at)
    ensures AuthInv(OnResume(s, outcome, tunUp, env))
  {
    var plan, at := s.queue.running.plan, s.queue.running.at;
    if outcome.Failed? && !at.RebuildingRouting? {
      DropKeepsAuth(s, plan, at.session, outcome.failure);
    } else if at.OpeningListener? {
      ListenerKeepsAuth(s, plan, at.session, tunUp);
    } else if at.ApplyingRouting? {
      AppliedKeepsAuth(s, plan, at.session, tunUp);
    }
  }

  lemma AttemptMovesKeepsAuth(s: State, outcome: Outcome, tunUp: bool, env: Env)
    requires CoreInv(s) && AuthInv(s) && s.queue.running.Attempt? && !CanFail(s.queue.running.at)
    ensures AuthInv(OnResume(s, outcome, tunUp, env))
  {
    if BeforeDialling(s.queue.running.at) {
      EarlyPointKeepsAuth(s, outcome, tunUp, env);
    } else {
      LatePointKeepsAuth(s, outcome, tunUp, env);
    }
  }

  lemma DialSucceededKeepsAuth(s: State, plan: Plan, session: nat)
    requires CoreInv(s) && AuthInv(s) && s.queue.running == Attempt(plan, Dialling)
    ensures AuthInv(DialSucceeded(s, plan, session))
  {
  }

  /** The room a failure has: the rejection it reports is already in `rejections`. */
  predicate FailureRoom(s: State, plan: Plan, failure: Failure) {
    && s.queue.running.Attempt? && s.queue.running.plan == plan && !LiveClient(s)
    && (Wanted(s) ==> s.retry.authFailures < MAXIMUM_AUTOMATIC_AUTH_FAILURES)
    && (Wanted(s) && !s.retry.sessionEstablished ==> s.retry.authFailures == 0)
    && (IsCurrent(s, plan.gen) ==> Wanted(s))
    && s.world.rejections + (
         if !Wanted(s) then 0
         else if !s.retry.sessionEstablished then if IsCurrent(s, plan.gen) && failure == AuthRejected then 0 else 1
         else 2 - s.retry.authFailures - if IsCurrent(s, plan.gen) && failure == AuthRejected then 1 else 0) <= 2
  }

  lemma ConcludeKeepsAuth(s: State, plan: Plan, failure: Failure, env: Env)
    requires FailureRoom(s, plan, failure)
    ensures AuthInv(ConcludeFailure(s, plan, failure, env))
  {
  }

  lemma AfterDropKeepsAuth(s: State, plan: Plan, failure: Failure, env: Env)
    requires FailureRoom(s, plan, failure)
    ensures AuthInv(AfterDrop(s, plan, failure, env))
  {
    ConcludeKeepsAuth(s, plan, failure, env);
  }

  lemma DialFailedKeepsAuth(s: State, plan: Plan, failure: Failure, env: Env)
    requires CoreInv(s) && AuthInv(s) && s.queue.running == Attempt(plan, Dialling)
    ensures AuthInv(DialFailed(s, plan, failure, env))
  {
    AfterDropKeepsAuth(CountRejection(s, failure), plan, failure, env);
  }

  lemma AttemptFailsKeepsAuth(s: State, outcome: Outcome, tunUp: bool, env: Env)
    requires CoreInv(s) && AuthInv(s) && s.queue.running.Attempt? && CanFail(s.queue.running.at)
    ensures AuthInv(OnResume(s, outcome, tunUp, env))
  {
    var plan := s.queue.running.plan;
    match s.queue.running.at
    case Dialling =>
      if outcome.Failed? {
        DialFailedKeepsAuth(s, plan, outcome.failure, env);
      } else if outcome.Opened? {
        DialSucceededKeepsAuth(s, plan, outcome.session);
      }
    case DroppingSession(session, failure) => AfterDropKeepsAuth(Close(s, session), plan, failure, env);
    case ReleasingTun(failure) => ConcludeKeepsAuth(s, plan, failure, env);
  }

  lemma StepKeepsAuth(s: State, e: Event, env: Env)
    requires CoreInv(s) && AuthInv(s)
    ensures AuthInv(Step(s, e, env))
  {
    match e
    case BeginNext(tunUp) => BeginKeepsAuth(s, tunUp, env);
    case Resume(outcome, tunUp) =>
      if s.queue.running.CleaningUp? {
        CleanupKeepsAuth(s, outcome, tunUp, env);
      } else if !s.queue.running.Attempt? {
        OtherResumeKeepsAuth(s, outcome, tunUp, env);
      } else if CanFail(s.queue.running.at) {
        AttemptFailsKeepsAuth(s, outcome, tunUp, env);
      } else {
        AttemptMovesKeepsAuth(s, outcome, tunUp, env);
      }
    case _ => EventsKeepAuth(s, e, env);
  }

  lemma {:induction false} RunKeepsAuth(s: State, turns: seq<Turn>)
    requires SupervisorInv(s) && AuthInv(s)
    ensures AuthInv(Run(s, turns))
    decreases |turns|
  {
    if turns != [] {
      var e, env := turns[0].event, turns[0].env;
      StepKeepsSupervisor(s, e, env);
      StepKeepsAuth(s, e, env);
      RunKeepsAuth(Step(s, e, env), turns[1..]);
    }
  }

  /** In every run, since the last user Connect or opened session at most two attempts ended in an authentication
      rejection, and after the second no automatic attempt is left to come. */
  lemma AtMostTwoRejections(turns: seq<Turn>)
    ensures var s := Run(INITIAL, turns);
            && s.world.rejections <= MAXIMUM_AUTOMATIC_AUTH_FAILURES
            && (s.world.rejections == MAXIMUM_AUTOMATIC_AUTH_FAILURES && Wanted(s) ==> RejectionUncounted(s))
  {
    RunKeepsAuth(INITIAL, turns);
  }

  predicate StaysHalted(s: State, s': State) {
    s'.life.reconnectHalted && s'.retry.lastAttemptAt == s.retry.lastAttemptAt && !s'.queue.running.Attempt?
  }

  lemma HaltedEventStaysHalted(s: State, e: Event, env: Env)
    requires s.life.reconnectHalted && s.retry.timer.None? && !s.queue.running.Attempt?
    requires e != UserConnect && !e.BeginNext? && !e.Resume?
    ensures StaysHalted(s, Step(s, e, env))
  {
  }

  lemma HaltedBeginStaysHalted(s: State, tunUp: bool, env: Env)
    requires s.life.reconnectHalted && !s.queue.running.Attempt?
    requires Ready(s) ==> !IsLive(s.queue.pending[0], s.life.generation)
    ensures StaysHalted(s, OnBeginNext(s, tunUp, env))
  {
  }

  lemma HaltedResumeStaysHalted(s: State, outcome: Outcome, tunUp: bool, env: Env)
    requires s.life.reconnectHalted && !s.queue.running.Attempt?
    ensures StaysHalted(s, OnResume(s, outcome, tunUp, env))
  {
  }

  /** A halted bridge stays halted and starts no attempt until the next user Connect. */
  lemma HaltedStartsNothing(turns: seq<Turn>, e: Event, env: Env)
    requires Run(INITIAL, turns).life.reconnectHalted && e != UserConnect
    ensures StaysHalted(Run(INITIAL, turns), Step(Run(INITIAL, turns), e, env))
  {
    Reached(turns);
    var s := Run(INITIAL, turns);
    if Ready(s) { TailLive(s.queue.pending, s.life.generation); }
    match e
    case BeginNext(tunUp) => HaltedBeginStaysHalted(s, tunUp, env);
    case Resume(outcome, tunUp) => HaltedResumeStaysHalted(s, outcome, tunUp, env);
    case _ => HaltedEventStaysHalted(s, e, env);
  }

  // ----- Delays -----

  lemma ScaleBounds(random: real, cap: real)
    requires 0.0 <= random < 1.0 && cap >= 0.0
    ensures 0.0 <= random * cap <= cap
    ensures cap > 0.0 ==> random * cap < cap
  {
  }

  lemma FloorBelow(x: real, cap: int)
    requires 0.0 <= x && (x < cap as real || (cap == 0 && x == 0.0))
    ensures 0 <= x.Floor <= Max(0, cap - 1)
  {
    assert x.Floor as real <= x;
  }

  lemma CapBounds(random: real, cap: int)
    requires 0.0 <= random < 1.0 && cap >= 0
    ensures 0 <= (random * cap as real).Floor <= Max(0, cap - 1)
  {
    var scaled := random * cap as real;
    ScaleBounds(random, cap as real);
    FloorBelow(scaled, cap);
  }

  lemma JitterBounds(base: int, random: real)
    requires 0.0 <= random < 1.0 && base >= 0
    ensures 0 <= JitterMs(base, random) <= Max(0, Min(MAXIMUM_JITTER_MS, base / 5) - 1)
  {
    CapBounds(random, Min(MAXIMUM_JITTER_MS, base / 5));
  }

  /** On any clock, backward steps included, the next attempt is at most 34,999 ms away, and never before now. */
  lemma DelayBounds(immediate: bool, step: nat, sinceLastAttemptMs: int, random: real)
    requires 0.0 <= random < 1.0
    ensures 0 <= ReconnectDelayMs(immediate, step, sinceLastAttemptMs, random) <= 34_999
    ensures sinceLastAttemptMs >= 0 ==>
              ReconnectDelayMs(immediate, step, sinceLastAttemptMs, random) >= MINIMUM_RECONNECT_SPACING_MS - sinceLastAttemptMs
  {
    JitterBounds(BackoffStepMs(step), random);
  }

  /** Turns with a random number in range; a timer fires no earlier than it is due on the wall clock `now`. */
  predicate Punctual(s: State, e: Event, env: Env, now: int) {
    && 0.0 <= env.random < 1.0
    && env.now >= now
    && (e.ReconnectTimerFires? && s.retry.timer.Some? ==> env.now >= s.retry.timer.value.Due())
  }

  predicate IsAutomaticAttempt(op: Op, gen: nat) { op == ConnectOp(gen, Automatic) }

  /** Under a clock that never steps back: whatever will start an attempt leaves the floor since the last one. */
  ghost predicate SpacingInv(s: State, now: int) {
    && now >= s.retry.lastAttemptAt
    && (s.retry.timer.Some? ==> s.retry.timer.value.Due() >= s.retry.lastAttemptAt + MINIMUM_RECONNECT_SPACING_MS)
    && (forall i :: 0 <= i < |s.queue.pending| && IsAutomaticAttempt(s.queue.pending[i], s.life.generation) ==>
          now >= s.retry.lastAttemptAt + MINIMUM_RECONNECT_SPACING_MS)
  }

  lemma ScheduleKeepsSpacing(s: State, asked: bool, env: Env)
    requires SpacingInv(s, env.now) && 0.0 <= env.random < 1.0
    ensures SpacingInv(ScheduleReconnect(s, s.life.generation, asked, env), env.now)
  {
    DelayBounds(asked, s.retry.backoffStep, env.now - s.retry.lastAttemptAt, env.random);
    DelayBounds(true, 0, env.now - s.retry.lastAttemptAt, env.random);
  }

  /** Turns that neither start an attempt nor arm the timer. */
  lemma SpacingMoves(s: State, s': State, now: int, now': int)
    requires QueueInv(s) && SpacingInv(s, now) && now' >= now
    requires s'.retry.lastAttemptAt == s.retry.lastAttemptAt
    requires s'.retry.timer.None? || s'.retry.timer == s.retry.timer
    requires s'.life.generation >= s.life.generation
    requires s.queue.pending <= s'.queue.pending && |s'.queue.pending| <= |s.queue.pending| + 1
    requires |s'.queue.pending| > |s.queue.pending| && IsAutomaticAttempt(s'.queue.pending[|s.queue.pending|], s'.life.generation) ==>
               now' >= s.retry.lastAttemptAt + MINIMUM_RECONNECT_SPACING_MS
    ensures SpacingInv(s', now')
  {
  }

  lemma WakeKeepsSpacing(s: State, env: Env, now: int)
    requires SpacingInv(s, now) && env.now >= now && 0.0 <= env.random < 1.0
    ensures SpacingInv(OnWake(s, env), env.now)
    ensures SpacingInv(OnWatchdog(s, env), env.now)
  {
    ScheduleKeepsSpacing(s, true, env);
    ScheduleKeepsSpacing(s.(retry := s.retry.(timer := None, lastWakeResetAt := env.now, backoffStep := 0)), true, env);
  }

  lemma EventsKeepSpacing(s: State, e: Event, env: Env, now: int)
    requires CoreInv(s) && SpacingInv(s, now) && Punctual(s, e, env, now) && !e.BeginNext? && !e.Resume?
    ensures SpacingInv(Step(s, e, env), env.now)
  {
    if e == Wake || e == WatchdogTick {
      WakeKeepsSpacing(s, env, now);
    } else {
      SpacingMoves(s, Step(s, e, env), now, env.now);
    }
  }

  lemma BeginKeepsSpacing(s: State, tunUp: bool, env: Env, now: int)
    requires CoreInv(s) && SpacingInv(s, now) && env.now >= now
    ensures SpacingInv(OnBeginNext(s, tunUp, env), env.now)
  {
    if Ready(s) {
      if s.queue.pending[0].ConnectOp? { BeginAttemptKeepsSpacing(s, tunUp, env, now); } else { BeginOtherKeepsSpacing(s, tunUp, env, now); }
    }
  }

  lemma BeginAttemptKeepsSpacing(s: State, tunUp: bool, env: Env, now: int)
    requires CoreInv(s) && SpacingInv(s, now) && env.now >= now && Ready(s) && s.queue.pending[0].ConnectOp?
    ensures SpacingInv(OnBeginNext(s, tunUp, env), env.now)
  {
    TailLive(s.queue.pending, s.life.generation);
  }

  lemma BeginOtherKeepsSpacing(s: State, tunUp: bool, env: Env, now: int)
    requires SpacingInv(s, now) && env.now >= now && Ready(s) && !s.queue.pending[0].ConnectOp?
    ensures SpacingInv(OnBeginNext(s, tunUp, env), env.now)
  {
    var s' := OnBeginNext(s, tunUp, env);
    assert s'.queue.pending == s.queue.pending[1..];
    assert s'.retry == s.retry && s'.life == s.life;
  }

  lemma HandleKeepsSpacing(s: State, plan: Plan, failure: Failure, env: Env)
    requires SpacingInv(s, env.now) && 0.0 <= env.random < 1.0
    ensures SpacingInv(HandleConnectFailure(s, failure, plan.gen, plan.trigger, env), env.now)
  {
    ScheduleKeepsSpacing(s, false, env);
    ScheduleKeepsSpacing(s.(retry := s.retry.(authFailures := s.retry.authFailures + 1)), false, env);
  }

  lemma FailureKeepsSpacing(s: State, plan: Plan, failure: Failure, env: Env, now: int)
    requires SpacingInv(s, now) && env.now >= now && 0.0 <= env.random < 1.0
    ensures SpacingInv(ConcludeFailure(s, plan, failure, env), env.now)
  {
    var told := SuspendTunnel(s).(phase := if plan.trigger == User then Error else Reconnecting);
    assert SpacingInv(told, env.now);
    HandleKeepsSpacing(told, plan, failure, env);
  }

  lemma AfterDropKeepsSpacing(s: State, plan: Plan, failure: Failure, env: Env, now: int)
    requires SpacingInv(s, now) && env.now >= now && 0.0 <= env.random < 1.0
    ensures SpacingInv(AfterDrop(s, plan, failure, env), env.now)
  {
    FailureKeepsSpacing(s, plan, failure, env, now);
  }

  lemma AttemptFailsKeepsSpacing(s: State, outcome: Outcome, tunUp: bool, env: Env, now: int)
    requires QueueInv(s) && SpacingInv(s, now) && env.now >= now && 0.0 <= env.random < 1.0
    requires s.queue.running.Attempt? && CanFail(s.queue.running.at)
    ensures SpacingInv(OnResume(s, outcome, tunUp, env), env.now)
  {
    var plan := s.queue.running.plan;
    match s.queue.running.at
    case Dialling =>
      if outcome.Failed? {
        AfterDropKeepsSpacing(CountRejection(s, outcome.failure), plan, outcome.failure, env, now);
      } else {
        SpacingMoves(s, OnResume(s, outcome, tunUp, env), now, env.now);
      }
    case DroppingSession(session, failure) => AfterDropKeepsSpacing(Close(s, session), plan, failure, env, now);
    case ReleasingTun(failure) => FailureKeepsSpacing(s, plan, failure, env, now);
  }

  lemma CleanupKeepsSpacing(s: State, outcome: Outcome, tunUp: bool, env: Env, now: int)
    requires SpacingInv(s, now) && env.now >= now && 0.0 <= env.random < 1.0
    requires s.queue.running.CleaningUp?
    ensures SpacingInv(OnResume(s, outcome, tunUp, env), env.now)
  {
    ScheduleKeepsSpacing(Close(s, s.queue.running.session), false, env);
  }

  lemma OtherResumeKeepsSpacing(s: State, outcome: Outcome, tunUp: bool, env: Env, now: int)
    requires QueueInv(s) && SpacingInv(s, now) && env.now >= now
    requires s.queue.running.Attempt? ==> !CanFail(s.queue.running.at)
    requires !s.queue.running.CleaningUp?
    ensures SpacingInv(OnResume(s, outcome, tunUp, env), env.now)
  {
    if s.queue.running.Attempt? { AttemptMovesKeepSpacing(s, outcome, tunUp, env, now); }
    else { SpacingMoves(s, OnResume(s, outcome, tunUp, env), now, env.now); }
  }

  lemma AttemptMovesKeepSpacing(s: State, outcome: Outcome, tunUp: bool, env: Env, now: int)
    requires QueueInv(s) && SpacingInv(s, now) && env.now >= now && s.queue.running.Attempt? && !CanFail(s.queue.running.at)
    ensures SpacingInv(OnResume(s, outcome, tunUp, env), env.now)
  {
    SpacingMoves(s, OnResume(s, outcome, tunUp, env), now, env.now);
  }

  lemma StepKeepsSpacing(s: State, e: Event, env: Env, now: int)
    requires CoreInv(s) && SpacingInv(s, now) && Punctual(s, e, env, now)
    ensures SpacingInv(Step(s, e, env), env.now)
  {
    match e
    case BeginNext(tunUp) => BeginKeepsSpacing(s, tunUp, env, now);
    case Resume(outcome, tunUp) =>
      if s.queue.running.CleaningUp? {
        CleanupKeepsSpacing(s, outcome, tunUp, env, now);
      } else if s.queue.running.Attempt? && CanFail(s.queue.running.at) {
        AttemptFailsKeepsSpacing(s, outcome, tunUp, env, now);
      } else {
        OtherResumeKeepsSpacing(s, outcome, tunUp, env, now);
      }
    case _ => EventsKeepSpacing(s, e, env, now);
  }

  /** A run whose clock starts at `now`, never steps back, and whose timers fire no earlier than they are due. */
  predicate PunctualRun(s: State, turns: seq<Turn>, now: int)
    decreases |turns|
  {
    turns != [] ==>
      && Punctual(s, turns[0].event, turns[0].env, now)
      && PunctualRun(Step(s, turns[0].event, turns[0].env), turns[1..], turns[0].env.now)
  }

  function Clock(turns: seq<Turn>, start: int): int {
    if turns == [] then start else turns[|turns| - 1].env.now
  }

  lemma {:induction false} RunKeepsSpacing(s: State, turns: seq<Turn>, now: int)
    requires SupervisorInv(s) && SpacingInv(s, now) && PunctualRun(s, turns, now)
    ensures SpacingInv(Run(s, turns), Clock(turns, now))
    decreases |turns|
  {
    if turns != [] {
      var e, env := turns[0].event, turns[0].env;
      StepKeepsSupervisor(s, e, env);
      StepKeepsSpacing(s, e, env, now);
      RunKeepsSpacing(Step(s, e, env), turns[1..], env.now);
    }
  }

  /** Under a clock that never steps back, an automatic attempt begins at least a second after the attempt before it,
      whoever asked for that one. */
  lemma AutomaticAttemptsAreSpaced(turns: seq<Turn>, start: nat, tunUp: bool, env: Env)
    requires PunctualRun(INITIAL, turns, start) && env.now >= Clock(turns, start)
    requires var s := Run(INITIAL, turns);
             Ready(s) && IsAutomaticAttempt(s.queue.pending[0], s.life.generation)
    ensures var s := Run(INITIAL, turns);
            var s' := OnBeginNext(s, tunUp, env);
            && s'.queue.running.Attempt?
            && s'.retry.lastAttemptAt == env.now >= s.retry.lastAttemptAt + MINIMUM_RECONNECT_SPACING_MS
  {
    RunKeepsSpacing(INITIAL, turns, start);
  }

  /** Whatever arms the timer arms it for at most 34,999 ms. */
  lemma ScheduledDelayIsBounded(s: State, gen: nat, asked: bool, env: Env)
    requires 0.0 <= env.random < 1.0
    ensures var s' := ScheduleReconnect(s, gen, asked, env);
            s'.retry.timer != s.retry.timer ==>
              s'.retry.timer.Some? && s'.retry.timer.value.setAt == env.now && 0 <= s'.retry.timer.value.delayMs <= 34_999
  {
    DelayBounds(asked, s.retry.backoffStep, env.now - s.retry.lastAttemptAt, env.random);
    DelayBounds(true, 0, env.now - s.retry.lastAttemptAt, env.random);
  }
}
