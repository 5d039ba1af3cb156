/**
 `XrayServiceBridge` as the source writes it: a class whose methods update its
 fields in place, each proved to do what the transition system's function of
 the same step says. `Drive` runs any list of turns on a new bridge.
 */
module XrayService {
  import opened Prelude
  import opened XraySupervisor
  import opened XrayHeldPorts
  import opened XrayHold

  class XrayServiceBridge {
    var state: Phase
    var process: Option<Child>
    var startingProcess: Option<nat>
    var inbounds: set<nat>
    var life: Lifecycle
    var reconnectTimer: Option<nat>
    var hold: Hold
    var routingGeneration: nat
    var mutations: Queue
    var seen: World

    ghost function View(): State
      reads this
    {
      State(state, process, startingProcess, inbounds, life, reconnectTimer, hold, routingGeneration, mutations, seen)
    }

    constructor ()
      ensures View() == INITIAL
    {
      state, process, startingProcess, inbounds := Disconnected, None, None, {};
      life, reconnectTimer := Lifecycle(0, false, false, false), None;
      hold, routingGeneration := Hold(false, None, 0, {}, {}), 0;
      mutations, seen := Queue(Idle, []), World({}, {}, {}, {});
    }

    // ----- The pieces the turns share -----

    method EnqueueMutation(op: Op)
      modifies this`mutations
      ensures View() == Enqueue(old(View()), op)
    {
      mutations := mutations.(pending := mutations.pending + [op]);
    }

    method WaitAt(activity: Activity)
      modifies this`mutations
      ensures View() == Await(old(View()), activity)
    {
      mutations := mutations.(running := activity);
    }

    method StartHold()
      modifies this`hold
      ensures View() == HoldRouting(old(View()))
    {
      if hold.held { return; }
      hold := hold.(held := true);
      hold := hold.(generation := hold.generation + 1);
      hold := hold.(timer := Some(hold.generation));
    }

    method ClearRoutingHold()
      modifies this`hold
      ensures hold == old(hold).(held := false, timer := None, generation := old(hold).generation + 1)
    {
      hold := hold.(generation := hold.generation + 1);
      hold := hold.(held := false);
      if hold.timer.Some? { hold := hold.(timer := None); }
    }

    method TakeRoutingDown(next: Next)
      modifies this`hold, this`mutations
      ensures View() == StopRouting(old(View()), next)
    {
      ClearRoutingHold();
      hold := hold.(endpoints := {});
      WaitAt(Stopping(next));
    }

    method ArmReconnect(gen: nat)
      modifies this`state, this`reconnectTimer
      ensures View() == ScheduleReconnect(old(View()), gen)
    {
      if life.disposed || gen != life.generation || life.disconnectRequested || !life.hasRequest || reconnectTimer.Some? {
        return;
      }
      state := Reconnecting;
      reconnectTimer := Some(gen);
    }

    method BeginConnect(restart: bool)
      modifies this
      ensures View() == StartConnect(old(View()), restart)
    {
      reconnectTimer := None;
      life := life.(hasRequest := true);
      routingGeneration := routingGeneration + 1;
      life := life.(disconnectRequested := false);
      life := life.(generation := life.generation + 1);
      state := Connecting;
      EnqueueMutation(ConnectOp(life.generation, restart));
    }

    method RestartNow()
      modifies this
      ensures View() == Restart(old(View()))
    {
      if !life.hasRequest || life.disposed || life.disconnectRequested { return; }
      BeginConnect(true);
    }

    method EndSessionHere()
      modifies this`state, this`life, this`reconnectTimer
      ensures View() == EndSessionNow(old(View()))
    {
      life := life.(disconnectRequested := true);
      reconnectTimer := None;
      life := life.(generation := life.generation + 1);
      state := Disconnecting;
    }

    // ----- Public calls, timers and process events -----

    method Connect()
      modifies this
      ensures View() == OnUserConnect(old(View()))
    {
      if life.disposed { return; }
      BeginConnect(false);
    }

    method Disconnect()
      modifies this
      ensures View() == OnUserDisconnect(old(View()))
    {
      if life.disposed { return; }
      EndSessionHere();
      EnqueueMutation(DisconnectOp(life.generation));
    }

    method EndSoon()
      modifies this
      ensures View() == OnBeginDisconnect(old(View()))
    {
      if life.disposed || (state != Connecting && state != Reconnecting && state != Connected) { return; }
      EndSessionHere();
    }

    method DismissError()
      modifies this
      ensures View() == OnClearError(old(View()))
    {
      if life.disposed || state != Error { return; }
      EndSessionHere();
      state := Disconnected;
      if hold.held { EnqueueMutation(ClearErrorOp(life.generation)); }
    }

    method Shutdown()
      modifies this
      ensures View() == OnDispose(old(View()))
    {
      if life.disposed { return; }
      life := life.(disposed := true);
      EndSessionHere();
      EnqueueMutation(DisconnectOp(life.generation));
    }

    method ProcessFailed(child: Child, closed: bool)
      modifies this
      ensures View() == OnProcessFails(old(View()), child.id, child.gen, closed)
    {
      if process != Some(child) || child.gen != life.generation || (closed && startingProcess == Some(child.id)) { return; }
      life := life.(generation := life.generation + 1);
      process := None;
      if !hold.held { hold := hold.(endpoints := inbounds); }
      inbounds := {};
      reconnectTimer := None;
      StartHold();
      state := Error;
      EnqueueMutation(FailureOp(life.generation, child.id));
    }

    method ReconnectTimerFired()
      modifies this
      ensures View() == OnReconnectTimer(old(View()))
    {
      if reconnectTimer.None? { return; }
      var gen := reconnectTimer.value;
      reconnectTimer := None;
      if gen == life.generation { RestartNow(); }
    }

    method WakeUp()
      modifies this
      ensures View() == OnWake(old(View()))
    {
      if life.disposed || life.disconnectRequested || !life.hasRequest || reconnectTimer.None? { return; }
      reconnectTimer := None;
      RestartNow();
    }

    method HoldTimerFired()
      modifies this
      ensures View() == OnHoldTimer(old(View()))
    {
      if hold.timer.None? { return; }
      var holdGeneration := hold.timer.value;
      hold := hold.(timer := None);
      if holdGeneration != hold.generation || life.disposed { return; }
      EnqueueMutation(HoldStopOp(holdGeneration));
    }

    // ----- The connect operation, from one await to the next -----

    method StartAttempt(plan: Plan)
      modifies this
      ensures View() == BeginAttempt(old(View()), plan)
    {
      if plan.gen != life.generation {
        WaitAt(Idle);
      } else if plan.restart && hold.held {
        EndPreviousProcess(plan);
      } else {
        TakeRoutingDown(Begin(plan));
      }
    }

    method EndPreviousProcess(plan: Plan)
      modifies this`process, this`mutations
      ensures View() == EndPrevious(old(View()), plan)
    {
      if plan.gen != life.generation {
        WaitAt(Idle);
        return;
      }
      var previous := if process.Some? then Some(process.value.id) else None;
      process := None;
      WaitAt(Attempt(plan, StoppingProcess(previous)));
    }

    method ProcessGone(id: Option<nat>)
      modifies this`seen
      ensures View() == Terminated(old(View()), id)
    {
      if id.Some? { seen := seen.(alive := seen.alive - {id.value}); }
    }

    method OccupyHeldPorts()
      modifies this`hold, this`seen
      ensures View() == PortsTaken(old(View()))
    {
      seen := seen.(bound := hold.endpoints);
      hold := hold.(ports := hold.endpoints);
    }

    method SpawnProcess(plan: Plan, id: nat, ports: set<nat>)
      modifies this
      ensures View() == Spawn(old(View()), plan, id, ports)
    {
      seen := seen.(alive := seen.alive + {id}, spawned := seen.spawned + {id});
      process := Some(Child(id, plan.gen));
      startingProcess := Some(id);
      WaitAt(Attempt(plan, Starting(id, ports)));
    }

    method CleanUpProcess(id: Option<nat>, next: Next, after: Activity)
      modifies this
      ensures View() == CleanUp(old(View()), id, next, after)
    {
      ForgetProcess(id);
      if hold.held {
        inbounds := {};
        WaitAt(after);
      } else {
        TakeRoutingDown(next);
      }
    }

    method ForgetProcess(id: Option<nat>)
      modifies this`process
      ensures View() == Forget(old(View()), id)
    {
      var tracked := if process.Some? then Some(process.value.id) else None;
      if tracked == id { process := None; }
    }

    /** The catch block up to the end of the attempt's process. */
    method FailAttempt(plan: Plan, acquired: Option<nat>, blocked: bool)
      modifies this
      ensures View() == AttemptFailed(old(View()), plan, acquired, blocked)
    {
      CleanUpProcess(acquired, EndFailed(plan, acquired, blocked), Attempt(plan, EndingFailed(acquired, blocked)));
    }

    method Supersede(plan: Plan, id: nat)
      modifies this
      ensures View() == Superseded(old(View()), plan, id)
    {
      CleanUpProcess(Some(id), EndSuperseded(plan, id), Attempt(plan, EndingSuperseded(id)));
    }

    method FinishStart(plan: Plan, id: nat, ports: set<nat>)
      modifies this
      ensures View() == Started(old(View()), plan, id, ports)
    {
      if plan.gen != life.generation || process.None? || process.value.id != id {
        Supersede(plan, id);
      } else {
        inbounds := ports;
        WaitAt(Attempt(plan, Applying(id, ports)));
      }
    }

    method FinishConnect(plan: Plan, id: nat)
      modifies this
      ensures View() == Applied(old(View()), plan, id)
    {
      if plan.gen != life.generation || process.None? || process.value.id != id {
        Supersede(plan, id);
      } else {
        ClearRoutingHold();
        hold := hold.(endpoints := {});
        state := Connected;
        WaitAt(Idle);
      }
    }

    method Conclude(plan: Plan, blocked: bool)
      modifies this
      ensures View() == ConcludeFailure(old(View()), plan, blocked)
    {
      if plan.gen != life.generation {
        WaitAt(Idle);
      } else if plan.restart && !life.disconnectRequested && !blocked {
        if hold.held && hold.ports == {} && hold.endpoints != {} {
          WaitAt(Attempt(plan, OccupyingAgain));
        } else {
          ArmReconnect(plan.gen);
          WaitAt(Idle);
        }
      } else if plan.restart && hold.held {
        TakeRoutingDown(GiveUp(plan));
      } else {
        state := Error;
        WaitAt(Idle);
      }
    }

    method CheckRuntime(plan: Plan)
      modifies this`mutations
      ensures View() == GoOnAfterOccupying(old(View()), plan)
    {
      WaitAt(if plan.gen != life.generation then Idle else Attempt(plan, CheckingRuntime));
    }

    method AfterPrevious(plan: Plan)
      modifies this`mutations
      ensures View() == PreviousEnded(old(View()), plan)
    {
      if plan.gen == life.generation && plan.restart && hold.held && hold.ports == {} && hold.endpoints != {} {
        WaitAt(Attempt(plan, OccupyingFirst));
      } else {
        CheckRuntime(plan);
      }
    }

    method ContinueAttempt(plan: Plan, at: ConnectPoint, outcome: Outcome)
      modifies this
      ensures View() == ResumeAttempt(old(View()), plan, at, outcome)
    {
      match at
      case StoppingProcess(previous) =>
        ProcessGone(previous);
        AfterPrevious(plan);
      case OccupyingFirst =>
        if outcome.Failed? {
          TakeRoutingDown(LostPortsFirst(plan));
        } else {
          OccupyHeldPorts();
          CheckRuntime(plan);
        }
      case CheckingRuntime =>
        if outcome.Failed? {
          FailAttempt(plan, None, outcome.blocked);
        } else if plan.gen != life.generation {
          WaitAt(Idle);
        } else {
          hold := hold.(ports := {});
          WaitAt(Attempt(plan, ReleasingPorts));
        }
      case ReleasingPorts =>
        seen := seen.(bound := {});
        WaitAt(Attempt(plan, ReservingPorts));
      case ReservingPorts =>
        if outcome.Failed? {
          FailAttempt(plan, None, outcome.blocked);
        } else if outcome.Spawned? {
          if plan.gen != life.generation { WaitAt(Idle); }
          else if outcome.process !in seen.spawned { SpawnProcess(plan, outcome.process, {outcome.socks, outcome.http}); }
        }
      case Starting(id, ports) =>
        if startingProcess == Some(id) { startingProcess := None; }
        if outcome.Failed? { FailAttempt(plan, Some(id), false); } else { FinishStart(plan, id, ports); }
      case Applying(id, _) =>
        if outcome.Failed? { FailAttempt(plan, Some(id), false); } else { FinishConnect(plan, id); }
      case EndingSuperseded(id) =>
        ProcessGone(Some(id));
        WaitAt(Idle);
      case EndingFailed(acquired, blocked) =>
        ProcessGone(acquired);
        Conclude(plan, blocked);
      case OccupyingAgain =>
        if outcome.Failed? {
          TakeRoutingDown(LostPortsAgain(plan));
        } else {
          OccupyHeldPorts();
          ArmReconnect(plan.gen);
          WaitAt(Idle);
        }
    }

    // ----- The other operations -----

    method ScheduleAfterFailure(gen: nat)
      modifies this
      ensures View() == FinishFailure(old(View()), gen)
    {
      if gen == life.generation && !life.disconnectRequested { ArmReconnect(gen); }
      WaitAt(Idle);
    }

    method AfterFailedProcess(gen: nat, id: nat)
      modifies this
      ensures View() == FailureEnded(old(View()), gen, id)
    {
      ProcessGone(Some(id));
      if hold.held && !life.disposed && hold.ports == {} && hold.endpoints != {} {
        WaitAt(OccupyingAfterFailure(gen));
      } else {
        ScheduleAfterFailure(gen);
      }
    }

    method DisconnectInternal(gen: nat)
      modifies this
      ensures View() == BeginDisconnectOp(old(View()), gen)
    {
      if gen != life.generation {
        WaitAt(Idle);
        return;
      }
      var captured := if process.Some? then Some(process.value.id) else None;
      process := None;
      TakeRoutingDown(EndSession(gen, captured));
    }

    method FinishDisconnect(gen: nat, captured: Option<nat>)
      modifies this
      ensures View() == FinishSession(old(View()), gen, captured)
    {
      ProcessGone(captured);
      if gen == life.generation { state := Disconnected; }
      WaitAt(Idle);
    }

    method RestartForLocalRuleChange(localRulesChanged: bool) returns (restarted: bool)
      modifies this
      ensures (restarted, View()) == RestartForRules(old(View()), localRulesChanged)
    {
      if process.None? || state != Connected || !localRulesChanged { return false; }
      if !hold.held { hold := hold.(endpoints := inbounds); }
      StartHold();
      RestartNow();
      return true;
    }

    method StartUpdate(gen: nat, routingGen: nat, localRulesChanged: bool)
      modifies this
      ensures View() == BeginUpdate(old(View()), gen, routingGen, localRulesChanged)
    {
      if life.disposed || gen != life.generation || routingGen != routingGeneration || state != Connected
         || !life.hasRequest || inbounds == {} {
        WaitAt(Idle);
        return;
      }
      var restarted := RestartForLocalRuleChange(localRulesChanged);
      WaitAt(if restarted then Idle else Reapplying(inbounds));
    }

    method StartTunStop(gen: nat)
      modifies this
      ensures View() == BeginTunStop(old(View()), gen)
    {
      if life.disposed || gen != life.generation {
        WaitAt(Idle);
      } else if hold.held {
        TakeRoutingDown(Nothing);
      } else {
        WaitAt(if state != Connected || !life.hasRequest || inbounds == {} then Idle else Reapplying(inbounds));
      }
    }

    /** The operation a finished `stopRouting` belongs to goes on. */
    method AfterRoutingDown(next: Next)
      modifies this
      ensures View() == PortsFree(old(View()), next)
    {
      seen := seen.(bound := {});
      inbounds := {};
      match next
      case Begin(plan) => EndPreviousProcess(plan);
      case LostPortsFirst(plan) => CheckRuntime(plan);
      case LostPortsAgain(plan) =>
        ArmReconnect(plan.gen);
        WaitAt(Idle);
      case EndFailed(plan, acquired, blocked) => WaitAt(Attempt(plan, EndingFailed(acquired, blocked)));
      case EndSuperseded(plan, id) => WaitAt(Attempt(plan, EndingSuperseded(id)));
      case GiveUp(plan) =>
        state := Error;
        WaitAt(Idle);
      case EndFailure(gen, id) => WaitAt(EndingFailure(gen, id));
      case LostPortsAfterFailure(gen) => ScheduleAfterFailure(gen);
      case EndSession(gen, captured) => WaitAt(EndingSession(gen, captured));
      case Nothing => WaitAt(Idle);
    }

    /** The mutation queue takes its next operation. */
    method StartNext(localRulesChanged: bool)
      modifies this
      ensures View() == OnBeginNext(old(View()), localRulesChanged)
    {
      if !mutations.running.Idle? || mutations.pending == [] { return; }
      var op := mutations.pending[0];
      mutations := mutations.(pending := mutations.pending[1..]);
      match op
      case ConnectOp(gen, restart) => StartAttempt(Plan(gen, restart));
      case FailureOp(gen, id) =>
        if hold.held { WaitAt(EndingFailure(gen, id)); } else { TakeRoutingDown(EndFailure(gen, id)); }
      case DisconnectOp(gen) => DisconnectInternal(gen);
      case ClearErrorOp(gen) =>
        if gen == life.generation && hold.held { TakeRoutingDown(Nothing); } else { WaitAt(Idle); }
      case HoldStopOp(holdGen) =>
        if holdGen != hold.generation || life.disposed || !hold.held { WaitAt(Idle); } else { TakeRoutingDown(Nothing); }
      case UpdateOp(gen, routingGen) => StartUpdate(gen, routingGen, localRulesChanged);
      case TunStopOp(gen) => StartTunStop(gen);
    }

    /** The await the running operation is stopped at completes. */
    method Continue(outcome: Outcome, localRulesChanged: bool)
      modifies this
      ensures View() == OnResume(old(View()), outcome, localRulesChanged)
    {
      match mutations.running
      case Idle =>
      case Stopping(next) =>
        seen := seen.(routed := {});
        hold := hold.(ports := {});
        WaitAt(LettingPortsGo(next));
      case LettingPortsGo(next) => AfterRoutingDown(next);
      case Attempt(plan, at) => ContinueAttempt(plan, at, outcome);
      case EndingFailure(gen, id) => AfterFailedProcess(gen, id);
      case OccupyingAfterFailure(gen) =>
        if outcome.Failed? {
          TakeRoutingDown(LostPortsAfterFailure(gen));
        } else {
          OccupyHeldPorts();
          ScheduleAfterFailure(gen);
        }
      case EndingSession(gen, captured) => FinishDisconnect(gen, captured);
      case Reapplying(_) =>
        var _ := RestartForLocalRuleChange(localRulesChanged);
        WaitAt(Idle);
    }

    /** `applySystemRouting` between two of its awaits: only ports it was given are ever pointed at anew. */
    method PointRouting(routed: set<nat>)
      modifies this`seen
      ensures View() == OnRoutingMoves(old(View()), routed)
    {
      var ports := ApplyingPorts(mutations.running);
      if ports.Some? && routed <= seen.routed + ports.value { seen := seen.(routed := routed); }
    }

    // ----- Whole runs -----

    method TakeTurn(event: Event)
      modifies this
      ensures View() == Step(old(View()), event)
    {
      match event
      case UserConnect => Connect();
      case UserDisconnect => Disconnect();
      case BeginDisconnect => EndSoon();
      case ClearError => DismissError();
      case Dispose => Shutdown();
      case ProcessFails(id, gen, closed) => ProcessFailed(Child(id, gen), closed);
      case ProcessExits(id) => ProcessGone(Some(id));
      case ReconnectTimerFires => ReconnectTimerFired();
      case HoldTimerFires => HoldTimerFired();
      case Wake => WakeUp();
      case RoutingUpdate =>
        if !life.disposed {
          routingGeneration := routingGeneration + 1;
          EnqueueMutation(UpdateOp(life.generation, routingGeneration));
        }
      case TunStopped => if !life.disposed { EnqueueMutation(TunStopOp(life.generation)); }
      case RoutingMoves(routed) => PointRouting(routed);
      case BeginNext(localRulesChanged) => StartNext(localRulesChanged);
      case Resume(outcome, localRulesChanged) => Continue(outcome, localRulesChanged);
    }
  }

  /** Drives a new bridge through any turns; whatever they are, it and a live Xray child never share the ports. */
  method Drive(turns: seq<Event>) returns (bridge: XrayServiceBridge)
    ensures fresh(bridge) && bridge.View() == Run(INITIAL, turns)
    ensures HeldInv(bridge.View()) && (bridge.seen.bound != {} ==> bridge.seen.alive == {})
  {
    bridge := new XrayServiceBridge();
    for i := 0 to |turns|
      invariant fresh(bridge) && bridge.View() == Run(INITIAL, turns[..i])
    {
      bridge.TakeTurn(turns[i]);
      RunLast(INITIAL, turns[..i], turns[i]);
      assert turns[..i + 1] == turns[..i] + [turns[i]];
    }
    assert turns[..|turns|] == turns;
    RunKeeps(INITIAL, turns);
  }
}
