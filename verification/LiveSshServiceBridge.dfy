/**
 `LiveSshServiceBridge` as the source writes it: a class whose methods update
 its fields in place. Each method is proved to do to the fields what the
 transition system's function of the same step says; `Drive` then runs any
 list of turns on the object, and what SshSupervisorTheorems proves of every
 run holds of it.
 */
module LiveSshService {
  import opened Prelude
  import opened SshSupervisor
  import opened SshSupervisorInvariant
  import opened SshSupervisorTheorems

  class LiveSshServiceBridge {
    var state: Phase
    var client: Option<Session>
    var life: Lifecycle
    var retry: Retry
    var hold: Hold
    var socksProxy: bool
    var routingGeneration: nat
    var parked: Parking
    var mutations: Queue
    var seen: World

    ghost function View(): State
      reads this
    {
      State(state, client, life, retry, hold, socksProxy, routingGeneration, parked, mutations, seen)
    }

    constructor ()
      ensures View() == INITIAL
    {
      state, client := Disconnected, None;
      life := Lifecycle(0, false, false, false, false);
      retry := Retry(None, 0, 0, 0, 0, false, 0, false, false);
      hold := Hold(false, None, 0, false, false);
      socksProxy, routingGeneration := false, 0;
      parked, mutations, seen := Parking({}, map[]), Queue(Idle, [], 0), World({}, {}, 0);
    }

    // ----- The pieces the turns share -----

    method ClearTimer()
      modifies this`retry
      ensures View() == ClearReconnectTimer(old(View()))
    {
      retry := retry.(timer := None);
    }

    method EnqueueMutation(op: Op)
      modifies this`mutations
      ensures View() == Enqueue(old(View()), op)
    {
      mutations := mutations.(inFlight := mutations.inFlight + 1);
      mutations := mutations.(pending := mutations.pending + [op]);
    }

    method WaitAt(activity: Activity)
      modifies this`mutations
      ensures View() == Await(old(View()), activity)
    {
      mutations := mutations.(running := activity);
    }

    method SettleMutation()
      modifies this`mutations
      ensures View() == Settle(old(View()))
    {
      mutations := mutations.(running := Idle, inFlight := mutations.inFlight - 1);
    }

    method BeginConnect(trigger: Trigger)
      modifies this
      ensures View() == StartConnect(old(View()), trigger)
    {
      ClearTimer();
      life := life.(hasRequest := true, disconnectRequested := false);
      routingGeneration := routingGeneration + 1;
      life := life.(generation := life.generation + 1);
      state := if trigger == User then Connecting else Reconnecting;
      if !life.disposed { retry := retry.(watchdog := true); }
      EnqueueMutation(ConnectOp(life.generation, trigger));
    }

    method EndSession()
      modifies this`state, this`life, this`retry
      ensures View() == EndSessionNow(old(View()))
    {
      life := life.(disconnectRequested := true);
      ClearTimer();
      retry := retry.(watchdog := false);
      life := life.(generation := life.generation + 1);
      state := Disconnecting;
    }

    method HoldRouting()
      modifies this`hold
      ensures View() == SuspendTunnel(old(View()))
    {
      if !hold.applied || hold.timer.Some? || hold.stopQueued { return; }
      hold := hold.(generation := hold.generation + 1);
      hold := hold.(timer := Some(hold.generation));
    }

    method TakeRoutingDown()
      modifies this`hold
      ensures View() == StopSystemRouting(old(View()))
    {
      hold := hold.(generation := hold.generation + 1, stopQueued := false, timer := None);
      hold := hold.(applied := false);
    }

    method TakeListenerDown()
      modifies this`socksProxy, this`parked
      ensures View() == StopLocalListener(old(View()))
    {
      socksProxy := false;
      SettleWaiters(Refused);
    }

    /** `releaseTunnelWaiters` and `rejectTunnelWaiters`: every waiter leaves with the same answer. */
    method SettleWaiters(how: Settlement)
      modifies this`parked
      ensures parked == SettleAll(old(parked), how)
    {
      var waiters, settled := parked.waiters, parked.settled;
      while waiters != {}
        invariant waiters <= parked.waiters
        invariant parked == old(parked)
        invariant settled == parked.settled + (map w | w in parked.waiters - waiters :: how)
        decreases waiters
      {
        var waiter :| waiter in waiters;
        waiters, settled := waiters - {waiter}, settled[waiter := how];
      }
      parked := Parking({}, settled);
    }

    method MayResetBackoffOnWake(now: int) returns (allowed: bool)
      modifies this`retry
      ensures allowed == !WakeResetTooRecent(old(View()), now)
      ensures retry == if allowed then old(retry).(lastWakeResetAt := now) else old(retry)
    {
      if retry.lastWakeResetAt != 0 && now - retry.lastWakeResetAt >= 0
         && now - retry.lastWakeResetAt < WAKE_BACKOFF_RESET_INTERVAL_MS {
        return false;
      }
      retry := retry.(lastWakeResetAt := now);
      return true;
    }

    method ArmReconnect(gen: nat, asked: bool, env: Env)
      modifies this`state, this`retry
      ensures View() == ScheduleReconnect(old(View()), gen, asked, env)
    {
      if life.disposed || gen != life.generation || life.disconnectRequested || life.reconnectHalted || !life.hasRequest
         || retry.timer.Some? {
        return;
      }
      var attempt := if asked && state == Reconnecting then Max(1, retry.attempt) else retry.attempt + 1;
      var immediate := asked;
      if !immediate && retry.pendingWake {
        var allowed := MayResetBackoffOnWake(env.now);
        if allowed {
          immediate := true;
          retry := retry.(backoffStep := 0);
        }
      }
      retry := retry.(pendingWake := false);
      var sinceLastAttemptMs := env.now - retry.lastAttemptAt;
      var delayMs := SpacingMs(sinceLastAttemptMs);
      if !immediate {
        var baseDelayMs := BackoffStepMs(retry.backoffStep);
        delayMs := Max(baseDelayMs + JitterMs(baseDelayMs, env.random), delayMs);
        retry := retry.(backoffStep := retry.backoffStep + 1);
      }
      state := Reconnecting;
      retry := retry.(attempt := attempt, watchdog := true, timer := Some(ReconnectTimer(gen, env.now, delayMs)));
    }

    method Halt()
      modifies this`state, this`life, this`retry, this`mutations
      ensures View() == HaltReconnect(old(View()))
    {
      life := life.(reconnectHalted := true);
      retry := retry.(pendingWake := false);
      ClearTimer();
      retry := retry.(watchdog := false);
      if state != Error { state := Error; }
      EnqueueMutation(StopRoutingOp);
    }

    // ----- Public calls -----

    method Connect()
      modifies this
      ensures View() == OnUserConnect(old(View()))
    {
      if life.disposed { return; }
      life := life.(reconnectHalted := false);
      retry := retry.(backoffStep := 0, authFailures := 0, sessionEstablished := false, pendingWake := false);
      seen := seen.(rejections := 0);
      BeginConnect(User);
    }

    method Disconnect()
      modifies this
      ensures View() == OnUserDisconnect(old(View()))
    {
      if life.disposed { return; }
      EndSession();
      EnqueueMutation(DisconnectOp(life.generation));
    }

    method EndSoon()
      modifies this
      ensures View() == OnBeginDisconnect(old(View()))
    {
      if life.disposed || (state != Connecting && state != Reconnecting && state != Connected) { return; }
      EndSession();
    }

    method DismissError()
      modifies this
      ensures View() == OnClearError(old(View()))
    {
      if life.disposed || state != Error { return; }
      EndSession();
      state := Disconnected;
      retry := retry.(attempt := 0);
      if hold.applied || socksProxy { EnqueueMutation(StopRoutingOp); }
    }

    method Shutdown()
      modifies this
      ensures View() == OnDispose(old(View()))
    {
      if life.disposed { return; }
      life := life.(disposed := true);
      EndSession();
      EnqueueMutation(DisconnectOp(life.generation));
    }

    method WakeUp(env: Env)
      modifies this
      ensures View() == OnWake(old(View()), env)
    {
      if life.disposed || life.disconnectRequested || !life.hasRequest || life.reconnectHalted { return; }
      if retry.timer.Some? {
        var allowed := MayResetBackoffOnWake(env.now);
        if !allowed { return; }
        ClearTimer();
        retry := retry.(backoffStep := 0);
        ArmReconnect(life.generation, true, env);
        return;
      }
      if client.Some? && state == Connected { return; }
      if mutations.inFlight > 0 {
        retry := retry.(pendingWake := true);
        return;
      }
      if client.None? { ArmReconnect(life.generation, true, env); }
    }

    method CheckSupervisor(env: Env)
      modifies this
      ensures View() == OnWatchdog(old(View()), env)
    {
      if !retry.watchdog { return; }
      if life.disposed || life.disconnectRequested || !life.hasRequest || life.reconnectHalted { return; }
      if client.Some? || retry.timer.Some? || mutations.inFlight > 0 { return; }
      ArmReconnect(life.generation, true, env);
    }

    /** Answers at once, or parks the connection until the session is back; every call brings a new waiter. */
    method WaitForTunnel(waiter: nat, aborted: bool)
      modifies this`parked
      ensures View() == OnPark(old(View()), waiter, aborted)
    {
      if waiter in parked.waiters || waiter in parked.settled { return; }
      if client.Some? && state == Connected {
        Answer(waiter, Resolved(client.value.id));
      } else if life.disposed || life.disconnectRequested || life.reconnectHalted || !life.hasRequest {
        Answer(waiter, Refused);
      } else if aborted {
        Answer(waiter, Aborted);
      } else {
        parked := parked.(waiters := parked.waiters + {waiter});
      }
    }

    method Answer(waiter: nat, how: Settlement)
      modifies this`parked
      ensures View() == EndPark(old(View()), waiter, how)
    {
      parked := Parking(parked.waiters - {waiter}, parked.settled[waiter := how]);
    }

    method GiveUpWaiting(waiter: nat, how: Settlement)
      modifies this`parked
      ensures View() == OnParkEnds(old(View()), waiter, how)
    {
      if waiter in parked.waiters { Answer(waiter, how); }
    }

    method UpdateRouting()
      modifies this
      ensures View() == OnRoutingUpdate(old(View()))
    {
      if life.disposed { return; }
      routingGeneration := routingGeneration + 1;
      EnqueueMutation(UpdateOp(life.generation, routingGeneration));
    }

    // ----- Timers and session events -----

    method ReconnectTimerFired()
      modifies this
      ensures View() == OnReconnectTimer(old(View()))
    {
      if retry.timer.None? { return; }
      var gen := retry.timer.value.gen;
      ClearTimer();
      if !life.hasRequest || gen != life.generation || life.disconnectRequested || life.reconnectHalted { return; }
      BeginConnect(Automatic);
    }

    method HoldTimerFired()
      modifies this
      ensures View() == OnHoldTimer(old(View()))
    {
      if hold.timer.None? { return; }
      var holdGeneration := hold.timer.value;
      hold := hold.(timer := None);
      if client.Some? || life.disposed || life.disconnectRequested || !hold.applied { return; }
      hold := hold.(stopQueued := true);
      EnqueueMutation(HoldStopOp(holdGeneration));
    }

    method ClientFailed(session: Session, retryableError: bool)
      modifies this
      ensures View() == OnClientFailure(old(View()), session.id, session.gen, retryableError)
    {
      if client != Some(session) || session.gen != life.generation { return; }
      life := life.(generation := life.generation + 1);
      client := None;
      ClearTimer();
      var retryable := retryableError && !life.disconnectRequested;
      if retryable {
        HoldRouting();
        state := Reconnecting;
      } else {
        state := Error;
      }
      EnqueueMutation(CleanupOp(life.generation, session.id, retryable));
    }

    method DataplaneStopped()
      modifies this
      ensures View() == Step(old(View()), TunStopped, CALM)
    {
      if life.disposed { return; }
      EnqueueMutation(ReapplyOp(life.generation));
    }

    // ----- The connect operation, from one await to the next -----

    method StartAttempt(gen: nat, trigger: Trigger, tunUp: bool, env: Env)
      modifies this
      ensures View() == BeginAttempt(old(View()), gen, trigger, tunUp, env)
    {
      if gen != life.generation {
        SettleMutation();
        return;
      }
      retry := retry.(lastAttemptAt := env.now);
      var holdRouting := trigger != User && hold.applied && socksProxy;
      var holdTun := holdRouting && tunUp && !hold.changedWhileDown;
      var plan := Plan(gen, trigger, holdRouting, holdTun);
      if !holdRouting {
        TakeRoutingDown();
        WaitAt(Attempt(plan, StoppingRouting));
      } else {
        TakeSessionOver(plan);
      }
    }

    method TakeSessionOver(plan: Plan)
      modifies this`client, this`mutations
      ensures View() == ReplaceSession(old(View()), plan)
    {
      var existing := client;
      client := None;
      if existing.Some? {
        WaitAt(Attempt(plan, ReplacingSession(existing.value.id)));
      } else {
        WaitAt(Attempt(plan, Dialling));
      }
    }

    method Dialled(plan: Plan, session: nat)
      modifies this
      ensures View() == DialSucceeded(old(View()), plan, session)
    {
      seen := World(seen.obtained + {session}, seen.closed, 0);
      if plan.gen != life.generation {
        WaitAt(Attempt(plan, DiscardingSession(session)));
        return;
      }
      client := Some(Session(session, plan.gen));
      retry := retry.(authFailures := 0);
      WaitAt(Attempt(plan, OpeningListener(session)));
    }

    method ListenerUp(plan: Plan, session: nat, tunUp: bool)
      modifies this
      ensures View() == ListenerOpened(old(View()), plan, session, tunUp)
    {
      socksProxy := true;
      if plan.gen != life.generation || client.None? || client.value.id != session {
        WaitAt(Attempt(plan, DiscardingSession(session)));
        return;
      }
      if plan.holdTun {
        Established(session);
      } else if plan.holdRouting && tunUp {
        TakeRoutingDown();
        WaitAt(Attempt(plan, RebuildingRouting(session)));
      } else {
        Apply(plan, session);
      }
    }

    method Apply(plan: Plan, session: nat)
      modifies this`hold, this`mutations
      ensures View() == ApplyRouting(old(View()), plan, session)
    {
      hold := hold.(applied := true);
      WaitAt(Attempt(plan, ApplyingRouting(session)));
    }

    method Applied(plan: Plan, session: nat, tunUp: bool)
      modifies this
      ensures View() == RoutingApplied(old(View()), plan, session, tunUp)
    {
      if tunUp && !RoutingStateActive(state, true) { NoteRoutingChanged(); }
      if plan.gen != life.generation || client.None? || client.value.id != session {
        WaitAt(Attempt(plan, DiscardingSession(session)));
      } else {
        Established(session);
      }
    }

    method NoteRoutingChanged()
      modifies this`hold
      ensures View() == NoteRoutingChangedWhileDown(old(View()))
    {
      if hold.applied && life.hasRequest && !life.disconnectRequested { hold := hold.(changedWhileDown := true); }
    }

    method Established(session: nat)
      modifies this
      ensures View() == Succeed(old(View()), session)
    {
      hold := hold.(applied := true, changedWhileDown := false);
      hold := hold.(generation := hold.generation + 1, stopQueued := false, timer := None);
      retry := retry.(backoffStep := 0, sessionEstablished := true, pendingWake := false);
      state := Connected;
      retry := retry.(attempt := 0);
      SettleWaiters(Resolved(session));
      SettleMutation();
    }

    method Drop(plan: Plan, session: nat, failure: Failure)
      modifies this`client, this`mutations
      ensures View() == DropSession(old(View()), plan, session, failure)
    {
      if client.Some? && client.value.id == session { client := None; }
      WaitAt(Attempt(plan, DroppingSession(session, failure)));
    }

    method Dropped(plan: Plan, failure: Failure, env: Env)
      modifies this
      ensures View() == AfterDrop(old(View()), plan, failure, env)
    {
      if plan.holdTun && plan.gen == life.generation {
        TakeRoutingDown();
        WaitAt(Attempt(plan, ReleasingTun(failure)));
      } else {
        Conclude(plan, failure, env);
      }
    }

    method Conclude(plan: Plan, failure: Failure, env: Env)
      modifies this
      ensures View() == ConcludeFailure(old(View()), plan, failure, env)
    {
      if plan.gen == life.generation {
        if hold.applied { HoldRouting(); }
        state := if plan.trigger == User then Error else Reconnecting;
        HandleFailure(failure, plan.gen, plan.trigger, env);
      }
      SettleMutation();
    }

    method HandleFailure(failure: Failure, gen: nat, trigger: Trigger, env: Env)
      modifies this`state, this`life, this`retry, this`mutations
      ensures View() == HandleConnectFailure(old(View()), failure, gen, trigger, env)
    {
      if gen != life.generation || life.disconnectRequested { return; }
      if failure == AuthRejected {
        retry := retry.(authFailures := retry.authFailures + 1);
        if trigger != User && retry.sessionEstablished && retry.authFailures < MAXIMUM_AUTOMATIC_AUTH_FAILURES {
          ArmReconnect(gen, false, env);
          return;
        }
        Halt();
        return;
      }
      if failure == HostKeyRejected || failure == NotRetryable {
        Halt();
        return;
      }
      ArmReconnect(gen, false, env);
    }

    method Closed(session: nat)
      modifies this`seen
      ensures View() == Close(old(View()), session)
    {
      seen := seen.(closed := seen.closed + {session});
    }

    method ContinueAttempt(plan: Plan, at: ConnectPoint, outcome: Outcome, tunUp: bool, env: Env)
      modifies this
      ensures View() == ResumeAttempt(old(View()), plan, at, outcome, tunUp, env)
    {
      match at
      case StoppingRouting =>
        if plan.gen != life.generation { SettleMutation(); } else { TakeSessionOver(plan); }
      case ReplacingSession(previous) =>
        Closed(previous);
        if plan.gen != life.generation { SettleMutation(); } else { WaitAt(Attempt(plan, Dialling)); }
      case Dialling =>
        if outcome.Opened? {
          if outcome.session !in seen.obtained { Dialled(plan, outcome.session); }
        } else if outcome.Failed? {
          if outcome.failure == AuthRejected { seen := seen.(rejections := seen.rejections + 1); }
          Dropped(plan, outcome.failure, env);
        }
      case DiscardingSession(session) =>
        Closed(session);
        SettleMutation();
      case OpeningListener(session) =>
        if outcome.Failed? { Drop(plan, session, outcome.failure); } else { ListenerUp(plan, session, tunUp); }
      case RebuildingRouting(session) => Apply(plan, session);
      case ApplyingRouting(session) =>
        if outcome.Failed? { Drop(plan, session, outcome.failure); } else { Applied(plan, session, tunUp); }
      case DroppingSession(session, failure) =>
        Closed(session);
        Dropped(plan, failure, env);
      case ReleasingTun(failure) => Conclude(plan, failure, env);
    }

    // ----- The other operations -----

    method FinishClientCleanup(gen: nat, session: nat, retryable: bool, env: Env)
      modifies this
      ensures View() == FinishCleanup(old(View()), gen, session, retryable, env)
    {
      Closed(session);
      if gen == life.generation && !life.disconnectRequested {
        if retryable { ArmReconnect(gen, false, env); } else { Halt(); }
      }
      SettleMutation();
    }

    method StartTeardown(gen: nat)
      modifies this
      ensures View() == BeginTeardown(old(View()), gen)
    {
      if gen != life.generation {
        SettleMutation();
        return;
      }
      var captured := if client.Some? then Some(client.value.id) else None;
      client := None;
      TakeRoutingDown();
      WaitAt(Teardown(gen, captured, AtSystemRouting));
    }

    method ContinueTeardown(gen: nat, captured: Option<nat>, stop: StopPoint)
      modifies this
      ensures View() == ResumeTeardown(old(View()), gen, captured, stop)
    {
      if stop == AtSystemRouting {
        TakeListenerDown();
        WaitAt(Teardown(gen, captured, AtListener));
        return;
      }
      if captured.Some? {
        if stop == AtListener {
          WaitAt(Teardown(gen, captured, AtSession));
          return;
        }
        Closed(captured.value);
      }
      if gen == life.generation {
        state := Disconnected;
        retry := retry.(attempt := 0);
      }
      SettleMutation();
    }

    method StartHoldStop(holdGen: nat)
      modifies this
      ensures View() == BeginHoldStop(old(View()), holdGen)
    {
      if holdGen != hold.generation {
        SettleMutation();
        return;
      }
      hold := hold.(stopQueued := false);
      if client.Some? || life.disposed || life.disconnectRequested {
        SettleMutation();
        return;
      }
      TakeRoutingDown();
      WaitAt(HoldStopping);
    }

    method StartUpdate(gen: nat, routingGen: nat)
      modifies this
      ensures View() == BeginUpdate(old(View()), gen, routingGen)
    {
      if life.disposed || gen != life.generation || routingGen != routingGeneration {
        SettleMutation();
      } else if state == Connected && life.hasRequest && socksProxy {
        WaitAt(Reapplying);
      } else {
        NoteRoutingChanged();
        SettleMutation();
      }
    }

    /** The mutation queue takes its next operation. */
    method StartNext(tunUp: bool, env: Env)
      modifies this
      ensures View() == OnBeginNext(old(View()), tunUp, env)
    {
      if !mutations.running.Idle? || mutations.pending == [] { return; }
      var op := mutations.pending[0];
      mutations := mutations.(pending := mutations.pending[1..]);
      match op
      case ConnectOp(gen, trigger) => StartAttempt(gen, trigger, tunUp, env);
      case CleanupOp(gen, session, retryable) => WaitAt(CleaningUp(gen, session, retryable));
      case DisconnectOp(gen) => StartTeardown(gen);
      case HoldStopOp(holdGen) => StartHoldStop(holdGen);
      case StopRoutingOp =>
        TakeRoutingDown();
        WaitAt(RoutingStopping(AtSystemRouting));
      case UpdateOp(gen, routingGen) => StartUpdate(gen, routingGen);
      case ReapplyOp(gen) =>
        if life.disposed || gen != life.generation || state != Connected || !hold.applied || !life.hasRequest || !socksProxy {
          SettleMutation();
        } else {
          WaitAt(Reapplying);
        }
    }

    /** The await the running operation is stopped at completes. */
    method Continue(outcome: Outcome, tunUp: bool, env: Env)
      modifies this
      ensures View() == OnResume(old(View()), outcome, tunUp, env)
    {
      match mutations.running
      case Idle =>
      case Attempt(plan, at) => ContinueAttempt(plan, at, outcome, tunUp, env);
      case CleaningUp(gen, session, retryable) => FinishClientCleanup(gen, session, retryable, env);
      case Teardown(gen, captured, stop) => ContinueTeardown(gen, captured, stop);
      case HoldStopping => SettleMutation();
      case RoutingStopping(stop) =>
        if stop == AtSystemRouting {
          TakeListenerDown();
          WaitAt(RoutingStopping(AtListener));
        } else {
          SettleMutation();
        }
      case Reapplying =>
        if tunUp && !RoutingStateActive(state, false) { NoteRoutingChanged(); }
        SettleMutation();
    }

    // ----- Whole runs -----

    method TakeTurn(event: Event, env: Env)
      modifies this
      ensures View() == Step(old(View()), event, env)
    {
      match event
      case UserConnect => Connect();
      case UserDisconnect => Disconnect();
      case BeginDisconnect => EndSoon();
      case ClearError => DismissError();
      case Dispose => Shutdown();
      case ClientFailure(session, gen, retryable) => ClientFailed(Session(session, gen), retryable);
      case ReconnectTimerFires => ReconnectTimerFired();
      case HoldTimerFires => HoldTimerFired();
      case Wake => WakeUp(env);
      case WatchdogTick => CheckSupervisor(env);
      case Park(waiter, aborted) => WaitForTunnel(waiter, aborted);
      case ParkTimeout(waiter) => GiveUpWaiting(waiter, TimedOut);
      case ParkAbort(waiter) => GiveUpWaiting(waiter, Aborted);
      case RoutingUpdate => UpdateRouting();
      case TunStopped => DataplaneStopped();
      case BeginNext(tunUp) => StartNext(tunUp, env);
      case Resume(outcome, tunUp) => Continue(outcome, tunUp, env);
    }
  }

  /** Drives a new bridge through any turns; whatever they are, it has not stalled at the end. */
  method Drive(turns: seq<Turn>) returns (bridge: LiveSshServiceBridge)
    ensures fresh(bridge) && bridge.View() == Run(INITIAL, turns)
    ensures SupervisorInv(bridge.View()) && !LooksStalled(bridge.View())
  {
    bridge := new LiveSshServiceBridge();
    for i := 0 to |turns|
      invariant fresh(bridge) && bridge.View() == Run(INITIAL, turns[..i])
    {
      bridge.TakeTurn(turns[i].event, turns[i].env);
      RunLast(INITIAL, turns[..i], turns[i]);
      assert turns[..i + 1] == turns[..i] + [turns[i]];
    }
    assert turns[..|turns|] == turns;
    Reached(turns);
    WatchdogNeverRepairs(turns, CALM);
  }
}
