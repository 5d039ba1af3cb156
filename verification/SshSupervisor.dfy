/**
 The SSH connection supervisor as a transition system.

 `LiveSshServiceBridge` runs on one thread: public calls, timers and session
 events run to completion, and the operations of its mutation queue run one at
 a time, giving way at every `await`. A `State` holds the bridge's fields
 between two such turns, with the operation that is running stopped at an
 await; `Step` takes one turn. What the network, the routing code, the clock
 and `Math.random` answer is an argument of the turn.
 */
module SshSupervisor {
  import opened Prelude

  const MAXIMUM_RECONNECT_DELAY_MS := 30_000
  const MINIMUM_RECONNECT_SPACING_MS := 1_000
  const MAXIMUM_AUTOMATIC_AUTH_FAILURES := 2
  const WAKE_BACKOFF_RESET_INTERVAL_MS := 30_000
  const MAXIMUM_JITTER_MS := 5_000

  datatype Phase = Disconnected | Connecting | Reconnecting | Connected | Disconnecting | Error

  datatype Trigger = User | Automatic

  /** The classes `handleConnectFailure` tells apart. */
  datatype Failure = AuthRejected | HostKeyRejected | NotRetryable | Retryable

  /** An SSH session and the lifecycle generation its event listener was registered for. */
  datatype Session = Session(id: nat, gen: nat)

  datatype ReconnectTimer = ReconnectTimer(gen: nat, setAt: int, delayMs: int) {
    function Due(): int { setAt + delayMs }
  }

  /** An operation waiting in the mutation queue. */
  datatype Op =
    | ConnectOp(gen: nat, trigger: Trigger)
    | CleanupOp(gen: nat, session: nat, retryable: bool)
    | DisconnectOp(gen: nat)
    | HoldStopOp(holdGen: nat)
    | StopRoutingOp
    | UpdateOp(gen: nat, routingGen: nat)
    | ReapplyOp(gen: nat)

  /** The constants of one `connectInternal` run. */
  datatype Plan = Plan(gen: nat, trigger: Trigger, holdRouting: bool, holdTun: bool)

  /** The await `connectInternal` is stopped at. */
  datatype ConnectPoint =
    | StoppingRouting
    | ReplacingSession(previous: nat)
    | Dialling
    | DiscardingSession(superseded: nat)
    | OpeningListener(session: nat)
    | RebuildingRouting(session: nat)
    | ApplyingRouting(session: nat)
    | DroppingSession(session: nat, failure: Failure)
    | ReleasingTun(failure: Failure)

  datatype StopPoint = AtSystemRouting | AtListener | AtSession

  datatype Activity =
    | Idle
    | Attempt(plan: Plan, at: ConnectPoint)
    | CleaningUp(gen: nat, session: nat, retryable: bool)
    | Teardown(gen: nat, captured: Option<nat>, stop: StopPoint)
    | HoldStopping
    | RoutingStopping(stop: StopPoint)
    | Reapplying

  datatype Lifecycle = Lifecycle(
    generation: nat,
    hasRequest: bool,
    disconnectRequested: bool,
    disposed: bool,
    reconnectHalted: bool)

  datatype Retry = Retry(
    timer: Option<ReconnectTimer>,
    attempt: nat,
    backoffStep: nat,
    lastAttemptAt: int,
    lastWakeResetAt: int,
    pendingWake: bool,
    authFailures: nat,
    sessionEstablished: bool,
    watchdog: bool)

  /** System routing and the hold that keeps it across an outage. */
  datatype Hold = Hold(
    applied: bool,
    timer: Option<nat>,
    generation: nat,
    stopQueued: bool,
    changedWhileDown: bool)

  datatype Settlement = Resolved(session: nat) | Refused | TimedOut | Aborted

  /** Proxy connections waiting for a session, and how every earlier one ended. */
  datatype Parking = Parking(waiters: set<nat>, settled: map<nat, Settlement>)

  datatype Queue = Queue(running: Activity, pending: seq<Op>, inFlight: int)

  /** What the SSH library saw: sessions handed out, sessions closed, and the
      authentication rejections since the last user Connect or opened session. */
  datatype World = World(obtained: set<nat>, closed: set<nat>, rejections: nat)

  datatype State = State(
    phase: Phase,
    client: Option<Session>,
    life: Lifecycle,
    retry: Retry,
    hold: Hold,
    listenerUp: bool,
    routingGeneration: nat,
    parking: Parking,
    queue: Queue,
    world: World)

  const INITIAL: State := State(
    Disconnected, None,
    Lifecycle(0, false, false, false, false),
    Retry(None, 0, 0, 0, 0, false, 0, false, false),
    Hold(false, None, 0, false, false),
    false, 0,
    Parking({}, map[]),
    Queue(Idle, [], 0),
    World({}, {}, 0))

  /** What one turn reads from outside: the wall clock and `Math.random`. */
  datatype Env = Env(now: int, random: real)

  datatype Outcome = Done | Opened(session: nat) | Failed(failure: Failure)

  /** `tunUp` says whether a TUN adapter is up when the turn looks. */
  datatype Event =
    | UserConnect
    | UserDisconnect
    | BeginDisconnect
    | ClearError
    | Dispose
    | ClientFailure(session: nat, gen: nat, retryable: bool)
    | ReconnectTimerFires
    | HoldTimerFires
    | Wake
    | WatchdogTick
    | Park(waiter: nat, aborted: bool)
    | ParkTimeout(waiter: nat)
    | ParkAbort(waiter: nat)
    | RoutingUpdate
    | TunStopped
    | BeginNext(tunUp: bool)
    | Resume(outcome: Outcome, tunUp: bool)

  // ----- Small pieces -----

  predicate IsCurrent(s: State, gen: nat) { gen == s.life.generation }

  predicate Owns(s: State, session: nat) { s.client.Some? && s.client.value.id == session }

  function ClearReconnectTimer(s: State): State { s.(retry := s.retry.(timer := None)) }

  function StartSupervisor(s: State): State {
    if s.life.disposed then s else s.(retry := s.retry.(watchdog := true))
  }

  function StopSupervisor(s: State): State { s.(retry := s.retry.(watchdog := false)) }

  function Enqueue(s: State, op: Op): State {
    s.(queue := Queue(s.queue.running, s.queue.pending + [op], s.queue.inFlight + 1))
  }

  /** The running operation stops at its next await. */
  function Await(s: State, activity: Activity): State { s.(queue := s.queue.(running := activity)) }

  /** The running operation settles. */
  function Settle(s: State): State { s.(queue := Queue(Idle, s.queue.pending, s.queue.inFlight - 1)) }

  /** `stopSystemRouting` up to its first await. */
  function StopSystemRouting(s: State): State {
    s.(hold := Hold(false, None, s.hold.generation + 1, false, s.hold.changedWhileDown))
  }

  function SettleAll(parking: Parking, how: Settlement): Parking {
    Parking({}, parking.settled + (map w | w in parking.waiters :: how))
  }

  /** `stopLocalListener` up to its first await. */
  function StopLocalListener(s: State): State {
    s.(listenerUp := false, parking := SettleAll(s.parking, Refused))
  }

  function SuspendTunnel(s: State): State {
    if !s.hold.applied || s.hold.timer.Some? || s.hold.stopQueued then s
    else s.(hold := s.hold.(generation := s.hold.generation + 1, timer := Some(s.hold.generation + 1)))
  }

  // ----- Reconnect scheduling -----

  function BackoffStepMs(step: nat): int {
    match step
    case 0 => 0
    case 1 => 1_000
    case 2 => 2_000
    case 3 => 4_000
    case 4 => 8_000
    case 5 => 16_000
    case _ => MAXIMUM_RECONNECT_DELAY_MS
  }

  function SpacingMs(sinceLastAttemptMs: int): int {
    Min(MINIMUM_RECONNECT_SPACING_MS, Max(0, MINIMUM_RECONNECT_SPACING_MS - sinceLastAttemptMs))
  }

  /** `Math.floor(Math.random() * Math.min(5000, base * 0.2))`; every base is a multiple of five. */
  function JitterMs(baseDelayMs: int, random: real): int {
    (random * Min(MAXIMUM_JITTER_MS, baseDelayMs / 5) as real).Floor
  }

  function ReconnectDelayMs(immediate: bool, step: nat, sinceLastAttemptMs: int, random: real): int {
    if immediate then SpacingMs(sinceLastAttemptMs)
    else Max(BackoffStepMs(step) + JitterMs(BackoffStepMs(step), random), SpacingMs(sinceLastAttemptMs))
  }

  predicate WakeResetTooRecent(s: State, now: int) {
    s.retry.lastWakeResetAt != 0 && 0 <= now - s.retry.lastWakeResetAt < WAKE_BACKOFF_RESET_INTERVAL_MS
  }

  predicate Wanted(s: State) {
    s.life.hasRequest && !s.life.disposed && !s.life.disconnectRequested && !s.life.reconnectHalted
  }

  /** `asked` is the `immediate` option: a wake or the watchdog wants the attempt now. */
  function ScheduleReconnect(s: State, gen: nat, asked: bool, env: Env): State {
    if !Wanted(s) || !IsCurrent(s, gen) || s.retry.timer.Some? then s
    else
      var attempt := if asked && s.phase == Reconnecting then Max(1, s.retry.attempt) else s.retry.attempt + 1;
      var broughtForward := !asked && s.retry.pendingWake && !WakeResetTooRecent(s, env.now);
      var immediate := asked || broughtForward;
      var step := if broughtForward then 0 else s.retry.backoffStep;
      s.(phase := Reconnecting,
         retry := Retry(
           Some(ReconnectTimer(gen, env.now,
             ReconnectDelayMs(immediate, step, env.now - s.retry.lastAttemptAt, env.random))),
           attempt,
           if immediate then step else step + 1,
           s.retry.lastAttemptAt,
           if broughtForward then env.now else s.retry.lastWakeResetAt,
           false,
           s.retry.authFailures,
           s.retry.sessionEstablished,
           true))
  }

  function HaltReconnect(s: State): State {
    Enqueue(
      s.(phase := Error,
         life := s.life.(reconnectHalted := true),
         retry := s.retry.(pendingWake := false, timer := None, watchdog := false)),
      StopRoutingOp)
  }

  function HandleConnectFailure(s: State, failure: Failure, gen: nat, trigger: Trigger, env: Env): State {
    if !IsCurrent(s, gen) || s.life.disconnectRequested then s
    else if failure == AuthRejected then
      var counted := s.(retry := s.retry.(authFailures := s.retry.authFailures + 1));
      if trigger != User && s.retry.sessionEstablished && counted.retry.authFailures < MAXIMUM_AUTOMATIC_AUTH_FAILURES
      then ScheduleReconnect(counted, gen, false, env)
      else HaltReconnect(counted)
    else if failure != Retryable then HaltReconnect(s)
    else ScheduleReconnect(s, gen, false, env)
  }

  // ----- Public calls, timers and session events -----

  function StartConnect(s: State, trigger: Trigger): State {
    var gen := s.life.generation + 1;
    Enqueue(
      StartSupervisor(ClearReconnectTimer(s.(
        phase := if trigger == User then Connecting else Reconnecting,
        life := s.life.(generation := gen, hasRequest := true, disconnectRequested := false),
        routingGeneration := s.routingGeneration + 1))),
      ConnectOp(gen, trigger))
  }

  function OnUserConnect(s: State): State {
    if s.life.disposed then s
    else StartConnect(s.(
      life := s.life.(reconnectHalted := false),
      retry := s.retry.(backoffStep := 0, authFailures := 0, sessionEstablished := false, pendingWake := false),
      world := s.world.(rejections := 0)), User)
  }

  function EndSessionNow(s: State): State {
    StopSupervisor(ClearReconnectTimer(s.(
      phase := Disconnecting,
      life := s.life.(generation := s.life.generation + 1, disconnectRequested := true))))
  }

  function OnUserDisconnect(s: State): State {
    if s.life.disposed then s
    else Enqueue(EndSessionNow(s), DisconnectOp(s.life.generation + 1))
  }

  function OnBeginDisconnect(s: State): State {
    if s.life.disposed || (s.phase != Connecting && s.phase != Reconnecting && s.phase != Connected) then s
    else EndSessionNow(s)
  }

  function OnClearError(s: State): State {
    if s.life.disposed || s.phase != Error then s
    else
      var cleared := EndSessionNow(s.(retry := s.retry.(attempt := 0))).(phase := Disconnected);
      if s.hold.applied || s.listenerUp then Enqueue(cleared, StopRoutingOp) else cleared
  }

  function OnDispose(s: State): State {
    if s.life.disposed then s
    else Enqueue(EndSessionNow(s.(life := s.life.(disposed := true))), DisconnectOp(s.life.generation + 1))
  }

  function OnClientFailure(s: State, session: nat, gen: nat, retryableError: bool): State {
    // A session object has one listener, so its identity includes that listener's generation.
    if s.client != Some(Session(session, gen)) || !IsCurrent(s, gen) then s
    else
      var retryable := retryableError && !s.life.disconnectRequested;
      var lost := ClearReconnectTimer(s.(client := None, life := s.life.(generation := s.life.generation + 1)));
      var told := if retryable then SuspendTunnel(lost).(phase := Reconnecting) else lost.(phase := Error);
      Enqueue(told, CleanupOp(s.life.generation + 1, session, retryable))
  }

  function OnReconnectTimer(s: State): State {
    if s.retry.timer.None? then s
    else
      var fired := ClearReconnectTimer(s);
      if !s.life.hasRequest || !IsCurrent(s, s.retry.timer.value.gen) || s.life.disconnectRequested || s.life.reconnectHalted
      then fired
      else StartConnect(fired, Automatic)
  }

  function OnHoldTimer(s: State): State {
    if s.hold.timer.None? then s
    else
      var fired := s.(hold := s.hold.(timer := None));
      if s.client.Some? || s.life.disposed || s.life.disconnectRequested || !s.hold.applied then fired
      else Enqueue(s.(hold := s.hold.(timer := None, stopQueued := true)), HoldStopOp(s.hold.timer.value))
  }

  /** No session, no attempt and no timer although a session is wanted: the repair branch of `wake` and the watchdog. */
  predicate LooksStalled(s: State) {
    Wanted(s) && s.client.None? && s.retry.timer.None? && s.queue.inFlight <= 0
  }

  function OnWake(s: State, env: Env): State {
    if !Wanted(s) then s
    else if s.retry.timer.Some? then
      if WakeResetTooRecent(s, env.now) then s
      else ScheduleReconnect(s.(retry := s.retry.(timer := None, lastWakeResetAt := env.now, backoffStep := 0)),
                             s.life.generation, true, env)
    else if s.client.Some? && s.phase == Connected then s
    else if s.queue.inFlight > 0 then s.(retry := s.retry.(pendingWake := true))
    else if s.client.None? then ScheduleReconnect(s, s.life.generation, true, env)
    else s
  }

  function OnWatchdog(s: State, env: Env): State {
    if !s.retry.watchdog || !LooksStalled(s) then s
    else ScheduleReconnect(s, s.life.generation, true, env)
  }

  /** `waitForTunnel`; a waiter is named by a number never used before. */
  function OnPark(s: State, waiter: nat, aborted: bool): State {
    if waiter in s.parking.waiters || waiter in s.parking.settled then s
    else if s.client.Some? && s.phase == Connected then EndPark(s, waiter, Resolved(s.client.value.id))
    else if s.life.disposed || s.life.disconnectRequested || s.life.reconnectHalted || !s.life.hasRequest
    then EndPark(s, waiter, Refused)
    else if aborted then EndPark(s, waiter, Aborted)
    else s.(parking := s.parking.(waiters := s.parking.waiters + {waiter}))
  }

  function EndPark(s: State, waiter: nat, how: Settlement): State {
    s.(parking := Parking(s.parking.waiters - {waiter}, s.parking.settled[waiter := how]))
  }

  function OnParkEnds(s: State, waiter: nat, how: Settlement): State {
    if waiter in s.parking.waiters then EndPark(s, waiter, how) else s
  }

  function OnRoutingUpdate(s: State): State {
    if s.life.disposed then s
    else Enqueue(s.(routingGeneration := s.routingGeneration + 1), UpdateOp(s.life.generation, s.routingGeneration + 1))
  }

  // ----- The connect operation -----

  /** `connectInternal` up to its first await. */
  function BeginAttempt(s: State, gen: nat, trigger: Trigger, tunUp: bool, env: Env): State {
    if !IsCurrent(s, gen) then Settle(s)
    else
      var hold := trigger != User && s.hold.applied && s.listenerUp;
      var plan := Plan(gen, trigger, hold, hold && tunUp && !s.hold.changedWhileDown);
      var timed := s.(retry := s.retry.(lastAttemptAt := env.now));
      if hold then ReplaceSession(timed, plan)
      else Await(StopSystemRouting(timed), Attempt(plan, StoppingRouting))
  }

  function ReplaceSession(s: State, plan: Plan): State {
    Await(s.(client := None), Attempt(plan, if s.client.Some? then ReplacingSession(s.client.value.id) else Dialling))
  }

  function DialSucceeded(s: State, plan: Plan, session: nat): State {
    var acquired := s.(world := World(s.world.obtained + {session}, s.world.closed, 0));
    if !IsCurrent(s, plan.gen) then Await(acquired, Attempt(plan, DiscardingSession(session)))
    else Await(acquired.(client := Some(Session(session, plan.gen)), retry := s.retry.(authFailures := 0)),
               Attempt(plan, OpeningListener(session)))
  }

  function DialFailed(s: State, plan: Plan, failure: Failure, env: Env): State {
    AfterDrop(CountRejection(s, failure), plan, failure, env)
  }

  function CountRejection(s: State, failure: Failure): State {
    if failure == AuthRejected then s.(world := s.world.(rejections := s.world.rejections + 1)) else s
  }

  predicate Overtaken(s: State, plan: Plan, session: nat) { !IsCurrent(s, plan.gen) || !Owns(s, session) }

  function ListenerOpened(s: State, plan: Plan, session: nat, tunUp: bool): State {
    var up := s.(listenerUp := true);
    if Overtaken(s, plan, session) then Await(up, Attempt(plan, DiscardingSession(session)))
    else if plan.holdTun then Succeed(up, session)
    else if plan.holdRouting && tunUp then Await(StopSystemRouting(up), Attempt(plan, RebuildingRouting(session)))
    else ApplyRouting(up, plan, session)
  }

  function ApplyRouting(s: State, plan: Plan, session: nat): State {
    Await(s.(hold := s.hold.(applied := true)), Attempt(plan, ApplyingRouting(session)))
  }

  function RoutingApplied(s: State, plan: Plan, session: nat, tunUp: bool): State {
    var noted := NoteOvertakenApply(s, tunUp, true);
    if Overtaken(s, plan, session) then Await(noted, Attempt(plan, DiscardingSession(session)))
    else Succeed(noted, session)
  }

  function Succeed(s: State, session: nat): State {
    Settle(s.(
      phase := Connected,
      hold := Hold(true, None, s.hold.generation + 1, false, false),
      retry := s.retry.(backoffStep := 0, sessionEstablished := true, pendingWake := false, attempt := 0),
      parking := SettleAll(s.parking, Resolved(session))))
  }

  /** A throw once a session was acquired, up to the disconnect it awaits. */
  function DropSession(s: State, plan: Plan, session: nat, failure: Failure): State {
    Await(s.(client := if Owns(s, session) then None else s.client), Attempt(plan, DroppingSession(session, failure)))
  }

  /** The rest of the catch block once nothing is left to disconnect. */
  function AfterDrop(s: State, plan: Plan, failure: Failure, env: Env): State {
    if plan.holdTun && IsCurrent(s, plan.gen) then Await(StopSystemRouting(s), Attempt(plan, ReleasingTun(failure)))
    else ConcludeFailure(s, plan, failure, env)
  }

  function ConcludeFailure(s: State, plan: Plan, failure: Failure, env: Env): State {
    if !IsCurrent(s, plan.gen) then Settle(s)
    else
      var told := SuspendTunnel(s).(phase := if plan.trigger == User then Error else Reconnecting);
      Settle(HandleConnectFailure(told, failure, plan.gen, plan.trigger, env))
  }

  function ResumeAttempt(s: State, plan: Plan, at: ConnectPoint, outcome: Outcome, tunUp: bool, env: Env): State {
    match at
    case StoppingRouting => if !IsCurrent(s, plan.gen) then Settle(s) else ReplaceSession(s, plan)
    case ReplacingSession(previous) =>
      if !IsCurrent(s, plan.gen) then Settle(Close(s, previous)) else Await(Close(s, previous), Attempt(plan, Dialling))
    case Dialling =>
      (match outcome
       case Opened(session) => if session in s.world.obtained then s else DialSucceeded(s, plan, session)
       case Failed(failure) => DialFailed(s, plan, failure, env)
       case Done => s)
    case DiscardingSession(session) => Settle(Close(s, session))
    case OpeningListener(session) =>
      if outcome.Failed? then DropSession(s, plan, session, outcome.failure) else ListenerOpened(s, plan, session, tunUp)
    case RebuildingRouting(session) => ApplyRouting(s, plan, session)
    case ApplyingRouting(session) =>
      if outcome.Failed? then DropSession(s, plan, session, outcome.failure) else RoutingApplied(s, plan, session, tunUp)
    case DroppingSession(session, failure) => AfterDrop(Close(s, session), plan, failure, env)
    case ReleasingTun(failure) => ConcludeFailure(s, plan, failure, env)
  }

  // ----- The other operations -----

  function Close(s: State, session: nat): State { s.(world := s.world.(closed := s.world.closed + {session})) }

  function FinishCleanup(s: State, gen: nat, session: nat, retryable: bool, env: Env): State {
    var closed := Close(s, session);
    if !IsCurrent(s, gen) || s.life.disconnectRequested then Settle(closed)
    else if !retryable then Settle(HaltReconnect(closed))
    else Settle(ScheduleReconnect(closed, gen, false, env))
  }

  function BeginTeardown(s: State, gen: nat): State {
    if !IsCurrent(s, gen) then Settle(s)
    else
      var captured := if s.client.Some? then Some(s.client.value.id) else None;
      Await(StopSystemRouting(s.(client := None)), Teardown(gen, captured, AtSystemRouting))
  }

  function ResumeTeardown(s: State, gen: nat, captured: Option<nat>, stop: StopPoint): State {
    match stop
    case AtSystemRouting => Await(StopLocalListener(s), Teardown(gen, captured, AtListener))
    case AtListener => if captured.Some? then Await(s, Teardown(gen, captured, AtSession)) else FinishTeardown(s, gen)
    case AtSession => FinishTeardown(if captured.Some? then Close(s, captured.value) else s, gen)
  }

  function FinishTeardown(s: State, gen: nat): State {
    if !IsCurrent(s, gen) then Settle(s)
    else Settle(s.(phase := Disconnected, retry := s.retry.(attempt := 0)))
  }

  function BeginHoldStop(s: State, holdGen: nat): State {
    if holdGen != s.hold.generation then Settle(s)
    else if s.client.Some? || s.life.disposed || s.life.disconnectRequested
    then Settle(s.(hold := s.hold.(stopQueued := false)))
    else Await(StopSystemRouting(s), HoldStopping)
  }

  function NoteRoutingChangedWhileDown(s: State): State {
    if s.hold.applied && s.life.hasRequest && !s.life.disconnectRequested
    then s.(hold := s.hold.(changedWhileDown := true)) else s
  }

  predicate RoutingStateActive(phase: Phase, allowConnecting: bool) {
    phase == Connected || (allowConnecting && (phase == Connecting || phase == Reconnecting))
  }

  /** `applySystemRouting` overtaken while an adapter it could not restart is still up. */
  function NoteOvertakenApply(s: State, tunUp: bool, allowConnecting: bool): State {
    if tunUp && !RoutingStateActive(s.phase, allowConnecting) then NoteRoutingChangedWhileDown(s) else s
  }

  function BeginUpdate(s: State, gen: nat, routingGen: nat): State {
    if s.life.disposed || !IsCurrent(s, gen) || routingGen != s.routingGeneration then Settle(s)
    else if s.phase == Connected && s.life.hasRequest && s.listenerUp then Await(s, Reapplying)
    else Settle(NoteRoutingChangedWhileDown(s))
  }

  function BeginReapply(s: State, gen: nat): State {
    if s.life.disposed || !IsCurrent(s, gen) || s.phase != Connected || !s.hold.applied || !s.life.hasRequest || !s.listenerUp
    then Settle(s) else Await(s, Reapplying)
  }

  function BeginOp(s: State, op: Op, tunUp: bool, env: Env): State {
    match op
    case ConnectOp(gen, trigger) => BeginAttempt(s, gen, trigger, tunUp, env)
    case CleanupOp(gen, session, retryable) => Await(s, CleaningUp(gen, session, retryable))
    case DisconnectOp(gen) => BeginTeardown(s, gen)
    case HoldStopOp(holdGen) => BeginHoldStop(s, holdGen)
    case StopRoutingOp => Await(StopSystemRouting(s), RoutingStopping(AtSystemRouting))
    case UpdateOp(gen, routingGen) => BeginUpdate(s, gen, routingGen)
    case ReapplyOp(gen) => BeginReapply(s, gen)
  }

  function TakeHead(s: State): State
    requires s.queue.pending != []
  {
    s.(queue := s.queue.(pending := s.queue.pending[1..]))
  }

  function OnBeginNext(s: State, tunUp: bool, env: Env): State {
    if !s.queue.running.Idle? || s.queue.pending == [] then s
    else BeginOp(TakeHead(s), s.queue.pending[0], tunUp, env)
  }

  function OnResume(s: State, outcome: Outcome, tunUp: bool, env: Env): State {
    match s.queue.running
    case Idle => s
    case Attempt(plan, at) => ResumeAttempt(s, plan, at, outcome, tunUp, env)
    case CleaningUp(gen, session, retryable) => FinishCleanup(s, gen, session, retryable, env)
    case Teardown(gen, captured, stop) => ResumeTeardown(s, gen, captured, stop)
    case HoldStopping => Settle(s)
    case RoutingStopping(stop) =>
      if stop == AtSystemRouting then Await(StopLocalListener(s), RoutingStopping(AtListener)) else Settle(s)
    case Reapplying => Settle(NoteOvertakenApply(s, tunUp, false))
  }

  // ----- Turns and runs -----

  function Step(s: State, e: Event, env: Env): State {
    match e
    case UserConnect => OnUserConnect(s)
    case UserDisconnect => OnUserDisconnect(s)
    case BeginDisconnect => OnBeginDisconnect(s)
    case ClearError => OnClearError(s)
    case Dispose => OnDispose(s)
    case ClientFailure(session, gen, retryable) => OnClientFailure(s, session, gen, retryable)
    case ReconnectTimerFires => OnReconnectTimer(s)
    case HoldTimerFires => OnHoldTimer(s)
    case Wake => OnWake(s, env)
    case WatchdogTick => OnWatchdog(s, env)
    case Park(waiter, aborted) => OnPark(s, waiter, aborted)
    case ParkTimeout(waiter) => OnParkEnds(s, waiter, TimedOut)
    case ParkAbort(waiter) => OnParkEnds(s, waiter, Aborted)
    case RoutingUpdate => OnRoutingUpdate(s)
    case TunStopped => if s.life.disposed then s else Enqueue(s, ReapplyOp(s.life.generation))
    case BeginNext(tunUp) => OnBeginNext(s, tunUp, env)
    case Resume(outcome, tunUp) => OnResume(s, outcome, tunUp, env)
  }

  datatype Turn = Turn(event: Event, env: Env)

  function Run(s: State, turns: seq<Turn>): State
    decreases |turns|
  {
    if turns == [] then s else Run(Step(s, turns[0].event, turns[0].env), turns[1..])
  }
}
