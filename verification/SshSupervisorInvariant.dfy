/** What every turn of the SSH supervisor keeps, and the theorems over whole runs. */
module SshSupervisorInvariant {
  import opened Prelude
  import opened SshSupervisor

  // ----- Live work: the operations that still answer for the wanted session -----

  predicate IsLive(op: Op, gen: nat) {
    (op.ConnectOp? || op.CleanupOp?) && op.gen == gen
  }

  predicate HasLive(pending: seq<Op>, gen: nat) {
    exists i :: 0 <= i < |pending| && IsLive(pending[i], gen)
  }

  predicate RunningLive(running: Activity, gen: nat) {
    (running.Attempt? && running.plan.gen == gen) || (running.CleaningUp? && running.gen == gen)
  }

  predicate LiveWork(s: State) {
    RunningLive(s.queue.running, s.life.generation) || HasLive(s.queue.pending, s.life.generation)
  }

  predicate LiveClient(s: State) { s.client.Some? && s.client.value.gen == s.life.generation }

  // ----- The invariant -----

  predicate OpKnown(op: Op, life: Lifecycle) {
    match op
    case ConnectOp(gen, _) => gen <= life.generation
    case CleanupOp(gen, _, _) => gen <= life.generation
    case DisconnectOp(gen) => gen <= life.generation && (gen == life.generation ==> life.disconnectRequested)
    case _ => true
  }

  predicate RunningKnown(running: Activity, life: Lifecycle) {
    match running
    case Attempt(plan, _) => plan.gen <= life.generation
    case CleaningUp(gen, _, _) => gen <= life.generation
    case Teardown(gen, _, _) => gen <= life.generation && (gen == life.generation ==> life.disconnectRequested)
    case _ => true
  }

  /** The queue's counter is its length, and at most one operation is live. */
  ghost predicate QueueInv(s: State) {
    && s.queue.inFlight == |s.queue.pending| + (if s.queue.running.Idle? then 0 else 1)
    && (forall i :: 0 <= i < |s.queue.pending| ==> OpKnown(s.queue.pending[i], s.life))
    && RunningKnown(s.queue.running, s.life)
    && (forall i, j :: 0 <= i < j < |s.queue.pending| ==>
          !(IsLive(s.queue.pending[i], s.life.generation) && IsLive(s.queue.pending[j], s.life.generation)))
    && !(RunningLive(s.queue.running, s.life.generation) && HasLive(s.queue.pending, s.life.generation))
  }

  predicate Attempting(phase: Phase) { phase == Connecting || phase == Reconnecting }

  predicate OnlyStaleClient(s: State) { s.client.Some? ==> s.client.value.gen < s.life.generation }

  /** What a live operation may assume about the session fields. */
  predicate LiveOpFits(s: State, op: Op) {
    match op
    case ConnectOp(_, _) => Attempting(s.phase) && OnlyStaleClient(s)
    case CleanupOp(_, _, retryable) => s.client.None? && s.phase == if retryable then Reconnecting else Error
    case _ => true
  }

  predicate LiveRunningFits(s: State) {
    match s.queue.running
    case Attempt(plan, at) =>
      && Attempting(s.phase)
      && (match at
          case StoppingRouting => OnlyStaleClient(s)
          case DiscardingSession(_) => false
          case OpeningListener(x) => s.client == Some(Session(x, s.life.generation))
          case RebuildingRouting(x) => s.client == Some(Session(x, s.life.generation))
          case ApplyingRouting(x) => s.client == Some(Session(x, s.life.generation))
          case _ => s.client.None?)
    case CleaningUp(_, _, retryable) => s.client.None? && s.phase == if retryable then Reconnecting else Error
    case _ => true
  }

  predicate LifeInv(s: State) {
    && (s.client.Some? ==> s.client.value.gen <= s.life.generation)
    && (s.life.disposed ==> s.life.disconnectRequested)
    && (s.life.disconnectRequested ==> s.phase == Disconnecting || s.phase == Disconnected)
    && (!Wanted(s) ==> s.retry.timer.None? && !LiveClient(s) && !LiveWork(s))
    && (s.life.reconnectHalted ==> s.client.None? && (s.phase == Error || s.life.disconnectRequested))
    && (!s.life.hasRequest ==> s.client.None? && (s.phase == Disconnected || s.phase == Disconnecting))
    && (s.retry.timer.Some? ==>
          s.retry.timer.value.gen == s.life.generation && s.client.None? && !LiveWork(s) && s.phase == Reconnecting)
    && (LiveClient(s) ==> s.phase == Connected || RunningLive(s.queue.running, s.life.generation))
    && (s.phase == Connected ==> LiveClient(s) && !LiveWork(s) && !s.queue.running.Attempt?)
    && (s.phase == Error ==> s.client.None?)
    && (s.queue.running.Attempt? ==> s.life.hasRequest && !s.life.reconnectHalted && s.retry.timer.None?)
    && (Wanted(s) ==> s.retry.watchdog)
  }

  /** While a session is wanted there is a session, a timer that will start an attempt, or live work. */
  predicate NoStall(s: State) {
    Wanted(s) ==> LiveClient(s) || s.retry.timer.Some? || LiveWork(s)
  }

  ghost predicate WorkInv(s: State) {
    && (RunningLive(s.queue.running, s.life.generation) ==> LiveRunningFits(s))
    && (forall i :: 0 <= i < |s.queue.pending| && IsLive(s.queue.pending[i], s.life.generation) ==>
          LiveOpFits(s, s.queue.pending[i]))
  }

  ghost predicate CoreInv(s: State) { QueueInv(s) && LifeInv(s) && WorkInv(s) && NoStall(s) }

  // ----- One turn keeps the core invariant -----

  lemma AppendLive(pending: seq<Op>, op: Op, gen: nat)
    ensures HasLive(pending + [op], gen) <==> HasLive(pending, gen) || IsLive(op, gen)
  {
    var longer := pending + [op];
    if HasLive(pending, gen) {
      var i :| 0 <= i < |pending| && IsLive(pending[i], gen);
      assert IsLive(longer[i], gen);
    }
    assert longer[|pending|] == op;
  }

  lemma TailLive(pending: seq<Op>, gen: nat)
    requires pending != []
    ensures HasLive(pending, gen) <==> HasLive(pending[1..], gen) || IsLive(pending[0], gen)
  {
    if HasLive(pending, gen) {
      var i :| 0 <= i < |pending| && IsLive(pending[i], gen);
      assert i > 0 ==> IsLive(pending[1..][i - 1], gen);
    }
  }

  lemma StartConnectKeepsCore(s: State, trigger: Trigger)
    requires QueueInv(s) && LifeInv(s)
    requires !s.life.disposed && !s.life.reconnectHalted
    ensures CoreInv(StartConnect(s, trigger))
  {
    AppendLive(s.queue.pending, ConnectOp(s.life.generation + 1, trigger), s.life.generation + 1);
  }

  lemma UserConnectKeepsCore(s: State)
    requires CoreInv(s)
    ensures CoreInv(OnUserConnect(s))
  {
    if !s.life.disposed {
      AppendLive(s.queue.pending, ConnectOp(s.life.generation + 1, User), s.life.generation + 1);
    }
  }

  lemma EndSessionKeepsCore(s: State, disposing: bool)
    requires CoreInv(s)
    ensures CoreInv(EndSessionNow(s.(life := s.life.(disposed := s.life.disposed || disposing))))
  {
  }

  lemma EnqueueKeepsCore(s: State, op: Op)
    requires CoreInv(s)
    requires OpKnown(op, s.life) && !op.ConnectOp? && !op.CleanupOp?
    ensures CoreInv(Enqueue(s, op))
  {
    AppendLive(s.queue.pending, op, s.life.generation);
  }

  lemma ClearErrorKeepsCore(s: State)
    requires CoreInv(s)
    ensures CoreInv(OnClearError(s))
  {
    if !s.life.disposed && s.phase == Error {
      var cleared := EndSessionNow(s.(retry := s.retry.(attempt := 0))).(phase := Disconnected);
      assert CoreInv(cleared);
      EnqueueKeepsCore(cleared, StopRoutingOp);
    }
  }

  lemma ClientFailureKeepsCore(s: State, session: nat, gen: nat, retryable: bool)
    requires CoreInv(s)
    ensures CoreInv(OnClientFailure(s, session, gen, retryable))
  {
    if s.client == Some(Session(session, gen)) && IsCurrent(s, gen) {
      AppendLive(s.queue.pending, CleanupOp(s.life.generation + 1, session, retryable && !s.life.disconnectRequested), s.life.generation + 1);
    }
  }

  lemma ReconnectTimerKeepsCore(s: State)
    requires CoreInv(s)
    ensures CoreInv(OnReconnectTimer(s))
  {
    if s.retry.timer.Some? {
      StartConnectKeepsCore(ClearReconnectTimer(s), Automatic);
    }
  }

  lemma HoldTimerKeepsCore(s: State)
    requires CoreInv(s)
    ensures CoreInv(OnHoldTimer(s))
  {
    if s.hold.timer.Some? {
      AppendLive(s.queue.pending, HoldStopOp(s.hold.timer.value), s.life.generation);
    }
  }

  /** Scheduling is safe exactly when no session and no live work is left. */
  lemma ScheduleKeepsCore(s: State, asked: bool, env: Env)
    requires QueueInv(s) && LifeInv(s) && !LiveWork(s) && s.client.None? && !s.queue.running.Attempt?
    ensures CoreInv(ScheduleReconnect(s, s.life.generation, asked, env))
  {
  }

  lemma WakeKeepsCore(s: State, env: Env)
    requires CoreInv(s)
    ensures CoreInv(OnWake(s, env))
  {
  }

  lemma DisconnectKeepsCore(s: State)
    requires CoreInv(s)
    ensures CoreInv(OnUserDisconnect(s))
  {
    if !s.life.disposed {
      EndSessionKeepsCore(s, false);
      EnqueueKeepsCore(EndSessionNow(s), DisconnectOp(s.life.generation + 1));
    }
  }

  lemma BeginDisconnectKeepsCore(s: State)
    requires CoreInv(s)
    ensures CoreInv(OnBeginDisconnect(s))
  {
    EndSessionKeepsCore(s, false);
  }

  lemma DisposeKeepsCore(s: State)
    requires CoreInv(s)
    ensures CoreInv(OnDispose(s))
  {
    if !s.life.disposed {
      EndSessionKeepsCore(s, true);
      EnqueueKeepsCore(EndSessionNow(s.(life := s.life.(disposed := true))), DisconnectOp(s.life.generation + 1));
    }
  }

  /** Routing, the listener, parked connections and the session record play no part in the core invariant. */
  lemma CoreFrame(s: State, s': State)
    requires CoreInv(s)
    requires s'.phase == s.phase && s'.client == s.client && s'.life == s.life && s'.retry == s.retry && s'.queue == s.queue
    ensures CoreInv(s')
  {
  }

  lemma ParkingKeepsCore(s: State, waiter: nat, aborted: bool, how: Settlement)
    requires CoreInv(s)
    ensures CoreInv(OnPark(s, waiter, aborted))
    ensures CoreInv(OnParkEnds(s, waiter, how))
  {
    CoreFrame(s, OnPark(s, waiter, aborted));
    CoreFrame(s, OnParkEnds(s, waiter, how));
  }

  lemma RoutingUpdateKeepsCore(s: State)
    requires CoreInv(s)
    ensures CoreInv(OnRoutingUpdate(s))
  {
    var t := s.(routingGeneration := s.routingGeneration + 1);
    CoreFrame(s, t);
    EnqueueKeepsCore(t, UpdateOp(s.life.generation, s.routingGeneration + 1));
  }

  lemma WatchdogKeepsCore(s: State, env: Env)
    requires CoreInv(s)
    ensures CoreInv(OnWatchdog(s, env))
  {
  }

  lemma {:induction false} EventsKeepCore(s: State, e: Event, env: Env)
    requires CoreInv(s)
    requires !e.BeginNext? && !e.Resume?
    ensures CoreInv(Step(s, e, env))
  {
    match e
    case UserConnect => UserConnectKeepsCore(s);
    case UserDisconnect => DisconnectKeepsCore(s);
    case BeginDisconnect => BeginDisconnectKeepsCore(s);
    case ClearError => ClearErrorKeepsCore(s);
    case Dispose => DisposeKeepsCore(s);
    case ClientFailure(session, gen, retryable) => ClientFailureKeepsCore(s, session, gen, retryable);
    case ReconnectTimerFires => ReconnectTimerKeepsCore(s);
    case HoldTimerFires => HoldTimerKeepsCore(s);
    case Wake => WakeKeepsCore(s, env);
    case WatchdogTick => WatchdogKeepsCore(s, env);
    case Park(waiter, aborted) => ParkingKeepsCore(s, waiter, aborted, Aborted);
    case ParkTimeout(waiter) => ParkingKeepsCore(s, waiter, false, TimedOut);
    case ParkAbort(waiter) => ParkingKeepsCore(s, waiter, false, Aborted);
    case RoutingUpdate => RoutingUpdateKeepsCore(s);
    case TunStopped => if !s.life.disposed { EnqueueKeepsCore(s, ReapplyOp(s.life.generation)); }
  }


  // ----- The queue's own turns -----

  predicate Ready(s: State) { s.queue.running.Idle? && s.queue.pending != [] }

  lemma BeginAttemptKeepsCore(s: State, tunUp: bool, env: Env)
    requires CoreInv(s) && Ready(s) && s.queue.pending[0].ConnectOp?
    ensures CoreInv(BeginAttempt(TakeHead(s), s.queue.pending[0].gen, s.queue.pending[0].trigger, tunUp, env))
  {
    TailLive(s.queue.pending, s.life.generation);
  }

  lemma BeginTeardownKeepsCore(s: State)
    requires CoreInv(s) && Ready(s) && s.queue.pending[0].DisconnectOp?
    ensures CoreInv(BeginTeardown(TakeHead(s), s.queue.pending[0].gen))
  {
    TailLive(s.queue.pending, s.life.generation);
  }

  lemma BeginHoldStopKeepsCore(s: State)
    requires CoreInv(s) && Ready(s) && s.queue.pending[0].HoldStopOp?
    ensures CoreInv(BeginHoldStop(TakeHead(s), s.queue.pending[0].holdGen))
  {
    TailLive(s.queue.pending, s.life.generation);
  }

  lemma BeginUpdateKeepsCore(s: State)
    requires CoreInv(s) && Ready(s) && s.queue.pending[0].UpdateOp?
    ensures CoreInv(BeginUpdate(TakeHead(s), s.queue.pending[0].gen, s.queue.pending[0].routingGen))
  {
    TakeDeadHead(s, Idle);
    TakeDeadHead(s, Reapplying);
  }

  lemma BeginReapplyKeepsCore(s: State)
    requires CoreInv(s) && Ready(s) && s.queue.pending[0].ReapplyOp?
    ensures CoreInv(BeginReapply(TakeHead(s), s.queue.pending[0].gen))
  {
    TakeDeadHead(s, Idle);
    TakeDeadHead(s, Reapplying);
  }

  /** An operation that is not live leaves the queue without touching the invariant. */
  lemma TakeDeadHead(s: State, running: Activity)
    requires CoreInv(s) && Ready(s)
    requires !IsLive(s.queue.pending[0], s.life.generation)
    requires RunningKnown(running, s.life) && !RunningLive(running, s.life.generation) && !running.Attempt?
    ensures CoreInv(s.(queue := Queue(running, s.queue.pending[1..], s.queue.inFlight - if running.Idle? then 1 else 0)))
  {
    TailLive(s.queue.pending, s.life.generation);
  }

  lemma BeginOtherKeepsCore(s: State)
    requires CoreInv(s) && Ready(s)
    ensures s.queue.pending[0].CleanupOp? ==>
              var op := s.queue.pending[0];
              CoreInv(Await(TakeHead(s), CleaningUp(op.gen, op.session, op.retryable)))
    ensures s.queue.pending[0].StopRoutingOp? ==>
              CoreInv(Await(StopSystemRouting(TakeHead(s)), RoutingStopping(AtSystemRouting)))
  {
    TailLive(s.queue.pending, s.life.generation);
  }

  lemma BeginKeepsCore(s: State, tunUp: bool, env: Env)
    requires CoreInv(s)
    ensures CoreInv(OnBeginNext(s, tunUp, env))
  {
    if Ready(s) {
      match s.queue.pending[0]
      case ConnectOp(_, _) => BeginAttemptKeepsCore(s, tunUp, env);
      case DisconnectOp(_) => BeginTeardownKeepsCore(s);
      case HoldStopOp(_) => BeginHoldStopKeepsCore(s);
      case UpdateOp(_, _) => BeginUpdateKeepsCore(s);
      case ReapplyOp(_) => BeginReapplyKeepsCore(s);
      case _ => BeginOtherKeepsCore(s);
    }
  }

  // ----- Resuming an operation -----

  lemma LiveUnique(s: State, i: nat, j: nat)
    requires QueueInv(s) && i < |s.queue.pending| && j < |s.queue.pending|
    requires IsLive(s.queue.pending[i], s.life.generation) && IsLive(s.queue.pending[j], s.life.generation)
    ensures i == j
  {
  }

  /** The running operation moves on, or settles once it is not live, and nothing else the invariant reads changes
      but a session it may own. */
  lemma MoveOn(s: State, s': State)
    requires CoreInv(s)
    requires s'.phase == s.phase && s'.life == s.life && s'.retry == s.retry && s'.queue.pending == s.queue.pending
    requires s'.queue.inFlight == |s.queue.pending| + (if s'.queue.running.Idle? then 0 else 1)
    requires RunningKnown(s'.queue.running, s.life)
    requires s'.queue.running.Attempt? ==> s.queue.running.Attempt?
    requires RunningLive(s'.queue.running, s.life.generation) == RunningLive(s.queue.running, s.life.generation)
    requires if RunningLive(s.queue.running, s.life.generation)
             then LiveRunningFits(s') && (s'.client.Some? ==> s'.client.value.gen <= s.life.generation)
             else s'.client == s.client || (s'.client.None? && !LiveClient(s))
    ensures CoreInv(s')
  {
  }

  lemma HaltKeepsCore(s: State)
    requires QueueInv(s) && LifeInv(s) && !LiveWork(s) && s.client.None? && Wanted(s) && !s.queue.running.Attempt?
    ensures CoreInv(HaltReconnect(s))
  {
    AppendLive(s.queue.pending, StopRoutingOp, s.life.generation);
  }

  /** Scheduling or halting while the operation still counts as running is doing so right after it settled. */
  lemma SettleCommutes(s: State, gen: nat, env: Env)
    ensures Settle(ScheduleReconnect(s, gen, false, env)) == ScheduleReconnect(Settle(s), gen, false, env)
    ensures Settle(HaltReconnect(s)) == HaltReconnect(Settle(s))
  {
  }

  lemma RetryOrHaltKeepsCore(s: State, plan: Plan, failure: Failure, env: Env)
    requires QueueInv(s) && LifeInv(s) && !LiveWork(s) && s.client.None? && Wanted(s) && !s.queue.running.Attempt?
    requires IsCurrent(s, plan.gen)
    ensures CoreInv(HandleConnectFailure(s, failure, plan.gen, plan.trigger, env))
  {
    var counted := s.(retry := s.retry.(authFailures := s.retry.authFailures + 1));
    HaltKeepsCore(s);
    HaltKeepsCore(counted);
    ScheduleKeepsCore(s, false, env);
    ScheduleKeepsCore(counted, false, env);
  }

  lemma HandleCommutes(s: State, plan: Plan, failure: Failure, env: Env)
    ensures Settle(HandleConnectFailure(s, failure, plan.gen, plan.trigger, env))
         == HandleConnectFailure(Settle(s), failure, plan.gen, plan.trigger, env)
  {
    SettleCommutes(s, plan.gen, env);
    SettleCommutes(s.(retry := s.retry.(authFailures := s.retry.authFailures + 1)), plan.gen, env);
  }

  lemma ConcludeKeepsCore(s: State, plan: Plan, failure: Failure, env: Env)
    requires CoreInv(s) && s.queue.running.Attempt? && s.queue.running.plan == plan
    requires IsCurrent(s, plan.gen) ==> s.client.None?
    ensures CoreInv(ConcludeFailure(s, plan, failure, env))
  {
    if !IsCurrent(s, plan.gen) {
      MoveOn(s, Settle(s));
    } else {
      var told := SuspendTunnel(s).(phase := if plan.trigger == User then Error else Reconnecting);
      HandleCommutes(told, plan, failure, env);
      RetryOrHaltKeepsCore(Settle(told), plan, failure, env);
    }
  }

  lemma AfterDropKeepsCore(s: State, plan: Plan, failure: Failure, env: Env)
    requires CoreInv(s) && s.queue.running.Attempt? && s.queue.running.plan == plan
    requires IsCurrent(s, plan.gen) ==> s.client.None?
    ensures CoreInv(AfterDrop(s, plan, failure, env))
  {
    if plan.holdTun && IsCurrent(s, plan.gen) {
      MoveOn(s, AfterDrop(s, plan, failure, env));
    } else {
      ConcludeKeepsCore(s, plan, failure, env);
    }
  }

  lemma SucceedKeepsCore(s: State, session: nat)
    requires CoreInv(s) && RunningLive(s.queue.running, s.life.generation) && LiveClient(s)
    ensures CoreInv(Succeed(s, session))
  {
  }

  lemma CountKeepsCore(s: State, failure: Failure)
    requires CoreInv(s)
    ensures CoreInv(CountRejection(s, failure))
  {
    CoreFrame(s, CountRejection(s, failure));
  }

  lemma DialFailedKeepsCore(s: State, plan: Plan, failure: Failure, env: Env)
    requires CoreInv(s) && s.queue.running == Attempt(plan, Dialling)
    ensures CoreInv(DialFailed(s, plan, failure, env))
  {
    CountKeepsCore(s, failure);
    AfterDropKeepsCore(CountRejection(s, failure), plan, failure, env);
  }

  lemma DialSucceededKeepsCore(s: State, plan: Plan, session: nat)
    requires CoreInv(s) && s.queue.running == Attempt(plan, Dialling)
    ensures CoreInv(DialSucceeded(s, plan, session))
  {
    var authReset := s.(retry := s.retry.(authFailures := 0));
    MoveOn(if IsCurrent(s, plan.gen) then authReset else s, DialSucceeded(s, plan, session));
  }

  lemma ListenerKeepsCore(s: State, outcome: Outcome, tunUp: bool, env: Env)
    requires CoreInv(s) && s.queue.running.Attempt? && s.queue.running.at.OpeningListener?
    ensures CoreInv(OnResume(s, outcome, tunUp, env))
  {
    var plan, session := s.queue.running.plan, s.queue.running.at.session;
    if outcome.Failed? || Overtaken(s, plan, session) || !plan.holdTun {
      MoveOn(s, OnResume(s, outcome, tunUp, env));
    } else {
      CoreFrame(s, s.(listenerUp := true));
      SucceedKeepsCore(s.(listenerUp := true), session);
    }
  }

  lemma AppliedKeepsCore(s: State, outcome: Outcome, tunUp: bool, env: Env)
    requires CoreInv(s) && s.queue.running.Attempt? && s.queue.running.at.ApplyingRouting?
    ensures CoreInv(OnResume(s, outcome, tunUp, env))
  {
    var plan, session := s.queue.running.plan, s.queue.running.at.session;
    if outcome.Failed? || Overtaken(s, plan, session) {
      MoveOn(s, OnResume(s, outcome, tunUp, env));
    } else {
      var noted := NoteOvertakenApply(s, tunUp, true);
      CoreFrame(s, noted);
      SucceedKeepsCore(noted, session);
    }
  }

  lemma DroppedKeepsCore(s: State, plan: Plan, session: nat, failure: Failure, env: Env)
    requires CoreInv(s) && s.queue.running == Attempt(plan, DroppingSession(session, failure))
    ensures CoreInv(AfterDrop(Close(s, session), plan, failure, env))
  {
    CoreFrame(s, Close(s, session));
    AfterDropKeepsCore(Close(s, session), plan, failure, env);
  }

  lemma EarlyPointKeepsCore(s: State, outcome: Outcome, tunUp: bool, env: Env)
    requires CoreInv(s) && s.queue.running.Attempt?
    requires s.queue.running.at.StoppingRouting? || s.queue.running.at.ReplacingSession?
    ensures CoreInv(OnResume(s, outcome, tunUp, env))
  {
    MoveOn(s, OnResume(s, outcome, tunUp, env));
  }

  lemma SimplePointKeepsCore(s: State, outcome: Outcome, tunUp: bool, env: Env)
    requires CoreInv(s) && s.queue.running.Attempt?
    requires s.queue.running.at.DiscardingSession? || s.queue.running.at.RebuildingRouting?
    ensures CoreInv(OnResume(s, outcome, tunUp, env))
  {
    MoveOn(s, OnResume(s, outcome, tunUp, env));
  }

  lemma LatePointKeepsCore(s: State, outcome: Outcome, tunUp: bool, env: Env)
    requires CoreInv(s) && s.queue.running.Attempt?
    requires s.queue.running.at.DroppingSession? || s.queue.running.at.ReleasingTun?
    ensures CoreInv(OnResume(s, outcome, tunUp, env))
  {
    var plan := s.queue.running.plan;
    match s.queue.running.at
    case DroppingSession(session, failure) => DroppedKeepsCore(s, plan, session, failure, env);
    case ReleasingTun(failure) => ConcludeKeepsCore(s, plan, failure, env);
  }

  lemma DialKeepsCore(s: State, outcome: Outcome, tunUp: bool, env: Env)
    requires CoreInv(s) && s.queue.running.Attempt? && s.queue.running.at.Dialling?
    ensures CoreInv(OnResume(s, outcome, tunUp, env))
  {
    var plan := s.queue.running.plan;
    match outcome
    case Opened(session) => if session !in s.world.obtained { DialSucceededKeepsCore(s, plan, session); }
    case Failed(failure) => DialFailedKeepsCore(s, plan, failure, env);
    case Done =>
  }

  lemma ResumeAttemptKeepsCore(s: State, outcome: Outcome, tunUp: bool, env: Env)
    requires CoreInv(s) && s.queue.running.Attempt?
    ensures CoreInv(OnResume(s, outcome, tunUp, env))
  {
    match s.queue.running.at
    case StoppingRouting => EarlyPointKeepsCore(s, outcome, tunUp, env);
    case ReplacingSession(_) => EarlyPointKeepsCore(s, outcome, tunUp, env);
    case Dialling => DialKeepsCore(s, outcome, tunUp, env);
    case OpeningListener(_) => ListenerKeepsCore(s, outcome, tunUp, env);
    case ApplyingRouting(_) => AppliedKeepsCore(s, outcome, tunUp, env);
    case DroppingSession(_, _) => LatePointKeepsCore(s, outcome, tunUp, env);
    case ReleasingTun(_) => LatePointKeepsCore(s, outcome, tunUp, env);
    case _ => SimplePointKeepsCore(s, outcome, tunUp, env);
  }

  lemma FinishCleanupKeepsCore(s: State, env: Env)
    requires CoreInv(s) && s.queue.running.CleaningUp?
    ensures CoreInv(FinishCleanup(s, s.queue.running.gen, s.queue.running.session, s.queue.running.retryable, env))
  {
    var gen, closed := s.queue.running.gen, Close(s, s.queue.running.session);
    if !IsCurrent(s, gen) || s.life.disconnectRequested {
      MoveOn(s, Settle(closed));
    } else {
      SettleCommutes(closed, gen, env);
      HaltKeepsCore(Settle(closed));
      ScheduleKeepsCore(Settle(closed), false, env);
    }
  }

  lemma ResumeTeardownKeepsCore(s: State)
    requires CoreInv(s) && s.queue.running.Teardown?
    ensures CoreInv(ResumeTeardown(s, s.queue.running.gen, s.queue.running.captured, s.queue.running.stop))
  {
    var next := ResumeTeardown(s, s.queue.running.gen, s.queue.running.captured, s.queue.running.stop);
    if next.queue.running.Teardown? { MoveOn(s, next); } else { TeardownEnds(s); }
  }

  lemma TeardownEnds(s: State)
    requires CoreInv(s) && s.queue.running.Teardown?
    requires ResumeTeardown(s, s.queue.running.gen, s.queue.running.captured, s.queue.running.stop).queue.running.Idle?
    ensures CoreInv(ResumeTeardown(s, s.queue.running.gen, s.queue.running.captured, s.queue.running.stop))
  {
    var captured := s.queue.running.captured;
    var closed := if s.queue.running.stop == AtSession && captured.Some? then Close(s, captured.value) else s;
    MoveOn(s, Settle(closed));
    if IsCurrent(s, s.queue.running.gen) { ShowsDisconnected(Settle(closed)); }
  }

  lemma ShowsDisconnected(s: State)
    requires CoreInv(s) && s.life.disconnectRequested
    ensures CoreInv(s.(phase := Disconnected, retry := s.retry.(attempt := 0)))
  {}

  lemma OtherResumeKeepsCore(s: State, outcome: Outcome, tunUp: bool, env: Env)
    requires CoreInv(s)
    requires s.queue.running.HoldStopping? || s.queue.running.RoutingStopping? || s.queue.running.Reapplying?
    ensures CoreInv(OnResume(s, outcome, tunUp, env))
  {
    MoveOn(s, OnResume(s, outcome, tunUp, env));
  }

  lemma ResumeKeepsCore(s: State, outcome: Outcome, tunUp: bool, env: Env)
    requires CoreInv(s)
    ensures CoreInv(OnResume(s, outcome, tunUp, env))
  {
    match s.queue.running
    case Idle =>
    case Attempt(_, _) => ResumeAttemptKeepsCore(s, outcome, tunUp, env);
    case CleaningUp(_, _, _) => FinishCleanupKeepsCore(s, env);
    case Teardown(_, _, _) => ResumeTeardownKeepsCore(s);
    case _ => OtherResumeKeepsCore(s, outcome, tunUp, env);
  }

  lemma StepKeepsCore(s: State, e: Event, env: Env)
    requires CoreInv(s)
    ensures CoreInv(Step(s, e, env))
  {
    match e
    case BeginNext(tunUp) => BeginKeepsCore(s, tunUp, env);
    case Resume(outcome, tunUp) => ResumeKeepsCore(s, outcome, tunUp, env);
    case _ => EventsKeepCore(s, e, env);
  }
}
