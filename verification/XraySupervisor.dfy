/**
 The Xray bridge's routing hold as a transition system.

 As in SshSupervisor, a turn runs to the next await of the operation the queue
 is running, or is a public call, a timer or a process event. What differs is
 the hold: while Xray is down, routing stays pointed at its inbound ports, and
 the bridge binds those ports itself until a restarted Xray takes them back -
 or comes up on others, to which `applySystemRouting` then moves routing.
 */
module XraySupervisor {
  import opened Prelude

  datatype Phase = Disconnected | Connecting | Reconnecting | Connected | Disconnecting | Error

  /** An Xray child, and the lifecycle generation its listeners were registered for. */
  datatype Child = Child(id: nat, gen: nat)

  datatype Op =
    | ConnectOp(gen: nat, restart: bool)
    | FailureOp(gen: nat, process: nat)
    | DisconnectOp(gen: nat)
    | ClearErrorOp(gen: nat)
    | HoldStopOp(holdGen: nat)
    | UpdateOp(gen: nat, routingGen: nat)
    | TunStopOp(gen: nat)

  datatype Plan = Plan(gen: nat, restart: bool)

  /** The await `connectInternal` is stopped at, `stopRouting` aside. */
  datatype ConnectPoint =
    | StoppingProcess(previous: Option<nat>)
    | OccupyingFirst
    | CheckingRuntime
    | ReleasingPorts
    | ReservingPorts
    | Starting(process: nat, ports: set<nat>)
    | Applying(process: nat, ports: set<nat>)
    | EndingSuperseded(process: nat)
    | EndingFailed(acquired: Option<nat>, blocked: bool)
    | OccupyingAgain

  /** What runs once a `stopRouting` is through. */
  datatype Next =
    | Begin(plan: Plan)
    | LostPortsFirst(plan: Plan)
    | LostPortsAgain(plan: Plan)
    | EndFailed(plan: Plan, acquired: Option<nat>, blocked: bool)
    | EndSuperseded(plan: Plan, process: nat)
    | GiveUp(plan: Plan)
    | EndFailure(gen: nat, process: nat)
    | LostPortsAfterFailure(gen: nat)
    | EndSession(gen: nat, captured: Option<nat>)
    | Nothing

  datatype Activity =
    | Idle
    | Stopping(next: Next)
    | LettingPortsGo(next: Next)
    | Attempt(plan: Plan, at: ConnectPoint)
    | EndingFailure(gen: nat, process: nat)
    | OccupyingAfterFailure(gen: nat)
    | EndingSession(gen: nat, captured: Option<nat>)
    | Reapplying(ports: set<nat>)

  datatype Lifecycle = Lifecycle(generation: nat, hasRequest: bool, disconnectRequested: bool, disposed: bool)

  /** `endpoints` are the inbound ports to hold, and `ports` those the bridge has a handle on, none without one. */
  datatype Hold = Hold(held: bool, timer: Option<nat>, generation: nat, endpoints: set<nat>, ports: set<nat>)

  datatype Queue = Queue(running: Activity, pending: seq<Op>)

  /** What the system sees: the Xray children alive, every one ever spawned, the ports the bridge's own sockets
      have, and the inbound ports that the adapter, the listener or the system proxy still points at. */
  datatype World = World(alive: set<nat>, spawned: set<nat>, bound: set<nat>, routed: set<nat>)

  datatype State = State(
    phase: Phase,
    process: Option<Child>,
    starting: Option<nat>,
    inbounds: set<nat>,
    life: Lifecycle,
    reconnectTimer: Option<nat>,
    hold: Hold,
    routingGeneration: nat,
    queue: Queue,
    world: World)

  const INITIAL: State := State(
    Disconnected, None, None, {}, Lifecycle(0, false, false, false), None,
    Hold(false, None, 0, {}, {}), 0, Queue(Idle, []), World({}, {}, {}, {}))

  /** A child is spawned on the SOCKS and the HTTP port just reserved for it. */
  datatype Outcome = Done | Spawned(process: nat, socks: nat, http: nat) | Failed(blocked: bool)

  /** `localRulesChanged` says whether the rules Xray reads only at start changed on the proxy path. `RoutingMoves` is
      the progress of an `applySystemRouting` at its awaits, whether or not its session has been overtaken. */
  datatype Event =
    | UserConnect
    | UserDisconnect
    | BeginDisconnect
    | ClearError
    | Dispose
    | ProcessFails(process: nat, gen: nat, closed: bool)
    | ProcessExits(process: nat)
    | ReconnectTimerFires
    | HoldTimerFires
    | Wake
    | RoutingUpdate
    | TunStopped
    | RoutingMoves(routed: set<nat>)
    | BeginNext(localRulesChanged: bool)
    | Resume(outcome: Outcome, localRulesChanged: bool)

  // ----- Small pieces -----

  predicate IsCurrent(s: State, gen: nat) { gen == s.life.generation }

  predicate Has(s: State, process: nat) { s.process.Some? && s.process.value.id == process }

  function Enqueue(s: State, op: Op): State { s.(queue := s.queue.(pending := s.queue.pending + [op])) }

  function Await(s: State, activity: Activity): State { s.(queue := s.queue.(running := activity)) }

  function Settle(s: State): State { Await(s, Idle) }

  function HoldRouting(s: State): State {
    if s.hold.held then s
    else s.(hold := s.hold.(held := true, generation := s.hold.generation + 1, timer := Some(s.hold.generation + 1)))
  }

  /** `stopRouting` up to its first await: the hold ends, and the held ports stay bound. */
  function StopRouting(s: State, next: Next): State {
    Await(s.(hold := Hold(false, None, s.hold.generation + 1, {}, s.hold.ports)), Stopping(next))
  }

  function ScheduleReconnect(s: State, gen: nat): State {
    if s.life.disposed || !IsCurrent(s, gen) || s.life.disconnectRequested || !s.life.hasRequest || s.reconnectTimer.Some? then s
    else s.(phase := Reconnecting, reconnectTimer := Some(gen))
  }

  // ----- Public calls, timers and process events -----

  function StartConnect(s: State, restart: bool): State {
    var gen := s.life.generation + 1;
    Enqueue(s.(phase := Connecting, reconnectTimer := None, routingGeneration := s.routingGeneration + 1,
               life := s.life.(generation := gen, hasRequest := true, disconnectRequested := false)),
            ConnectOp(gen, restart))
  }

  function OnUserConnect(s: State): State { if s.life.disposed then s else StartConnect(s, false) }

  /** One attempt of the automatic restart now. */
  function Restart(s: State): State {
    if !s.life.hasRequest || s.life.disposed || s.life.disconnectRequested then s else StartConnect(s, true)
  }

  function EndSessionNow(s: State): State {
    s.(phase := Disconnecting, reconnectTimer := None,
       life := s.life.(generation := s.life.generation + 1, disconnectRequested := true))
  }

  function OnUserDisconnect(s: State): State {
    if s.life.disposed then s else Enqueue(EndSessionNow(s), DisconnectOp(s.life.generation + 1))
  }

  function OnBeginDisconnect(s: State): State {
    if s.life.disposed || (s.phase != Connecting && s.phase != Reconnecting && s.phase != Connected) then s else EndSessionNow(s)
  }

  function OnClearError(s: State): State {
    if s.life.disposed || s.phase != Error then s
    else
      var cleared := EndSessionNow(s).(phase := Disconnected);
      if s.hold.held then Enqueue(cleared, ClearErrorOp(s.life.generation + 1)) else cleared
  }

  function OnDispose(s: State): State {
    if s.life.disposed then s
    else Enqueue(EndSessionNow(s.(life := s.life.(disposed := true))), DisconnectOp(s.life.generation + 1))
  }

  /** `handleXrayClose` (`closed`) and `handleXrayFailure`: an exit during startup is the startup path's to report. */
  function OnProcessFails(s: State, process: nat, gen: nat, closed: bool): State {
    if s.process != Some(Child(process, gen)) || !IsCurrent(s, gen) || (closed && s.starting == Some(process)) then s
    else
      var lost := s.(
        process := None, inbounds := {}, reconnectTimer := None,
        life := s.life.(generation := s.life.generation + 1),
        hold := if s.hold.held then s.hold else s.hold.(endpoints := s.inbounds));
      Enqueue(HoldRouting(lost).(phase := Error), FailureOp(s.life.generation + 1, process))
  }

  function OnProcessExits(s: State, process: nat): State { s.(world := s.world.(alive := s.world.alive - {process})) }

  /** The ports the `applySystemRouting` in flight was given, if one is. */
  function ApplyingPorts(running: Activity): Option<set<nat>> {
    match running
    case Attempt(_, Applying(_, ports)) => Some(ports)
    case Reapplying(ports) => Some(ports)
    case _ => None
  }

  /** What points at an inbound is moved to the new ports, left where it is or taken down. */
  function OnRoutingMoves(s: State, routed: set<nat>): State {
    var ports := ApplyingPorts(s.queue.running);
    if ports.Some? && routed <= s.world.routed + ports.value then s.(world := s.world.(routed := routed)) else s
  }

  function OnReconnectTimer(s: State): State {
    if s.reconnectTimer.None? then s
    else if IsCurrent(s, s.reconnectTimer.value) then Restart(s.(reconnectTimer := None))
    else s.(reconnectTimer := None)
  }

  function OnWake(s: State): State {
    if s.life.disposed || s.life.disconnectRequested || !s.life.hasRequest || s.reconnectTimer.None? then s
    else Restart(s.(reconnectTimer := None))
  }

  function OnHoldTimer(s: State): State {
    if s.hold.timer.None? then s
    else
      var fired := s.(hold := s.hold.(timer := None));
      if s.hold.timer.value != s.hold.generation || s.life.disposed then fired
      else Enqueue(fired, HoldStopOp(s.hold.timer.value))
  }

  function OnRoutingUpdate(s: State): State {
    if s.life.disposed then s
    else Enqueue(s.(routingGeneration := s.routingGeneration + 1), UpdateOp(s.life.generation, s.routingGeneration + 1))
  }

  // ----- The connect operation -----

  function BeginAttempt(s: State, plan: Plan): State {
    if !IsCurrent(s, plan.gen) then Settle(s)
    else if plan.restart && s.hold.held then EndPrevious(s, plan)
    else StopRouting(s, Begin(plan))
  }

  function EndPrevious(s: State, plan: Plan): State {
    if !IsCurrent(s, plan.gen) then Settle(s)
    else Await(s.(process := None), Attempt(plan, StoppingProcess(if s.process.Some? then Some(s.process.value.id) else None)))
  }

  function Terminated(s: State, process: Option<nat>): State {
    if process.Some? then s.(world := s.world.(alive := s.world.alive - {process.value})) else s
  }

  function PreviousEnded(s: State, plan: Plan): State {
    if !IsCurrent(s, plan.gen) then Settle(s)
    else if plan.restart && MayOccupy(s) then Await(s, Attempt(plan, OccupyingFirst))
    else Await(s, Attempt(plan, CheckingRuntime))
  }

  /** `occupyHeldPorts` has something to do: routing is held on ports the bridge has no handle on. */
  predicate MayOccupy(s: State) { s.hold.held && s.hold.ports == {} && s.hold.endpoints != {} }

  /** `holdInboundPorts` succeeded: the endpoints are bound and the handle is kept. */
  function PortsTaken(s: State): State {
    s.(hold := s.hold.(ports := s.hold.endpoints), world := s.world.(bound := s.hold.endpoints))
  }

  function GoOnAfterOccupying(s: State, plan: Plan): State {
    if !IsCurrent(s, plan.gen) then Settle(s) else Await(s, Attempt(plan, CheckingRuntime))
  }

  function Spawn(s: State, plan: Plan, process: nat, ports: set<nat>): State {
    Await(s.(process := Some(Child(process, plan.gen)), starting := Some(process),
             world := s.world.(alive := s.world.alive + {process}, spawned := s.world.spawned + {process})),
          Attempt(plan, Starting(process, ports)))
  }

  /** No longer track a child if it is this one. */
  function Forget(s: State, process: Option<nat>): State {
    if (process.None? && s.process.None?) || (process.Some? && Has(s, process.value)) then s.(process := None) else s
  }

  /** `cleanupProcessResources` up to the end of the process it names. */
  function CleanUp(s: State, process: Option<nat>, next: Next, after: Activity): State {
    var left := Forget(s, process);
    if s.hold.held then Await(left.(inbounds := {}), after) else StopRouting(left, next)
  }

  function Superseded(s: State, plan: Plan, process: nat): State {
    CleanUp(s, Some(process), EndSuperseded(plan, process), Attempt(plan, EndingSuperseded(process)))
  }

  function AttemptFailed(s: State, plan: Plan, acquired: Option<nat>, blocked: bool): State {
    CleanUp(s, acquired, EndFailed(plan, acquired, blocked), Attempt(plan, EndingFailed(acquired, blocked)))
  }

  function Started(s: State, plan: Plan, process: nat, ports: set<nat>): State {
    if !IsCurrent(s, plan.gen) || !Has(s, process) then Superseded(s, plan, process)
    else Await(s.(inbounds := ports), Attempt(plan, Applying(process, ports)))
  }

  function Applied(s: State, plan: Plan, process: nat): State {
    if !IsCurrent(s, plan.gen) || !Has(s, process) then Superseded(s, plan, process)
    else Settle(s.(phase := Connected, hold := Hold(false, None, s.hold.generation + 1, {}, s.hold.ports)))
  }

  /** The rest of the catch block once the failed attempt's process is gone. */
  function ConcludeFailure(s: State, plan: Plan, blocked: bool): State {
    if !IsCurrent(s, plan.gen) then Settle(s)
    else if plan.restart && !s.life.disconnectRequested && !blocked then
      if MayOccupy(s) then Await(s, Attempt(plan, OccupyingAgain))
      else Settle(ScheduleReconnect(s, plan.gen))
    else if plan.restart && s.hold.held then StopRouting(s, GiveUp(plan))
    else Settle(s.(phase := Error))
  }

  function ResumeAttempt(s: State, plan: Plan, at: ConnectPoint, outcome: Outcome): State {
    match at
    case StoppingProcess(previous) => PreviousEnded(Terminated(s, previous), plan)
    case OccupyingFirst =>
      if outcome.Failed? then StopRouting(s, LostPortsFirst(plan)) else GoOnAfterOccupying(PortsTaken(s), plan)
    case CheckingRuntime =>
      if outcome.Failed? then AttemptFailed(s, plan, None, outcome.blocked)
      else if !IsCurrent(s, plan.gen) then Settle(s)
      else Await(s.(hold := s.hold.(ports := {})), Attempt(plan, ReleasingPorts))
    case ReleasingPorts => Await(s.(world := s.world.(bound := {})), Attempt(plan, ReservingPorts))
    case ReservingPorts =>
      (match outcome
       case Failed(blocked) => AttemptFailed(s, plan, None, blocked)
       case Spawned(process, socks, http) =>
         if !IsCurrent(s, plan.gen) then Settle(s)
         else if process in s.world.spawned then s
         else Spawn(s, plan, process, {socks, http})
       case Done => s)
    case Starting(process, ports) =>
      var ready := s.(starting := if s.starting == Some(process) then None else s.starting);
      if outcome.Failed? then AttemptFailed(ready, plan, Some(process), false) else Started(ready, plan, process, ports)
    case Applying(process, _) =>
      if outcome.Failed? then AttemptFailed(s, plan, Some(process), false) else Applied(s, plan, process)
    case EndingSuperseded(process) => Settle(Terminated(s, Some(process)))
    case EndingFailed(acquired, blocked) => ConcludeFailure(Terminated(s, acquired), plan, blocked)
    case OccupyingAgain =>
      if outcome.Failed? then StopRouting(s, LostPortsAgain(plan)) else Settle(ScheduleReconnect(PortsTaken(s), plan.gen))
  }

  // ----- After a stopRouting -----

  /** The tail of `stopRouting`: routing was down before the ports were let go, and no inbound is left to point at. */
  function PortsFree(s: State, next: Next): State {
    Continue(s.(inbounds := {}, world := s.world.(bound := {})), next)
  }

  function Continue(s: State, next: Next): State {
    match next
    case Begin(plan) => EndPrevious(s, plan)
    case LostPortsFirst(plan) => GoOnAfterOccupying(s, plan)
    case LostPortsAgain(plan) => Settle(ScheduleReconnect(s, plan.gen))
    case EndFailed(plan, acquired, blocked) => Await(s, Attempt(plan, EndingFailed(acquired, blocked)))
    case EndSuperseded(plan, process) => Await(s, Attempt(plan, EndingSuperseded(process)))
    case GiveUp(plan) => Settle(s.(phase := Error))
    case EndFailure(gen, process) => Await(s, EndingFailure(gen, process))
    case LostPortsAfterFailure(gen) => FinishFailure(s, gen)
    case EndSession(gen, process) => Await(s, EndingSession(gen, process))
    case Nothing => Settle(s)
  }

  // ----- The other operations -----

  function BeginFailure(s: State, gen: nat, process: nat): State {
    if s.hold.held then Await(s, EndingFailure(gen, process)) else StopRouting(s, EndFailure(gen, process))
  }

  function FailureEnded(s: State, gen: nat, process: nat): State {
    var ended := Terminated(s, Some(process));
    if MayOccupy(s) && !s.life.disposed then Await(ended, OccupyingAfterFailure(gen))
    else FinishFailure(ended, gen)
  }

  function FinishFailure(s: State, gen: nat): State {
    if !IsCurrent(s, gen) || s.life.disconnectRequested then Settle(s) else Settle(ScheduleReconnect(s, gen))
  }

  function BeginDisconnectOp(s: State, gen: nat): State {
    if !IsCurrent(s, gen) then Settle(s)
    else StopRouting(s.(process := None), EndSession(gen, if s.process.Some? then Some(s.process.value.id) else None))
  }

  function FinishSession(s: State, gen: nat, process: Option<nat>): State {
    var ended := Terminated(s, process);
    if !IsCurrent(s, gen) then Settle(ended) else Settle(ended.(phase := Disconnected))
  }

  /** `restartForLocalRuleChange`: hold routing over the running process and restart it. */
  function RestartForRules(s: State, localRulesChanged: bool): (bool, State) {
    if s.process.None? || s.phase != Connected || !localRulesChanged then (false, s)
    else
      var pointed := if s.hold.held then s else s.(hold := s.hold.(endpoints := s.inbounds));
      (true, Restart(HoldRouting(pointed)))
  }

  function BeginUpdate(s: State, gen: nat, routingGen: nat, localRulesChanged: bool): State {
    if s.life.disposed || !IsCurrent(s, gen) || routingGen != s.routingGeneration then Settle(s)
    else if s.phase == Connected && s.life.hasRequest && s.inbounds != {} then
      var (restarted, next) := RestartForRules(s, localRulesChanged);
      if restarted then Settle(next) else Await(s, Reapplying(s.inbounds))
    else Settle(s)
  }

  function BeginTunStop(s: State, gen: nat): State {
    if s.life.disposed || !IsCurrent(s, gen) then Settle(s)
    else if s.hold.held then StopRouting(s, Nothing)
    else if s.phase != Connected || !s.life.hasRequest || s.inbounds == {} then Settle(s)
    else Await(s, Reapplying(s.inbounds))
  }

  function TakeHead(s: State): State
    requires s.queue.pending != []
  {
    s.(queue := s.queue.(pending := s.queue.pending[1..]))
  }

  function BeginOp(s: State, op: Op, localRulesChanged: bool): State {
    match op
    case ConnectOp(gen, restart) => BeginAttempt(s, Plan(gen, restart))
    case FailureOp(gen, process) => BeginFailure(s, gen, process)
    case DisconnectOp(gen) => BeginDisconnectOp(s, gen)
    case ClearErrorOp(gen) => if IsCurrent(s, gen) && s.hold.held then StopRouting(s, Nothing) else Settle(s)
    case HoldStopOp(holdGen) =>
      if holdGen != s.hold.generation || s.life.disposed || !s.hold.held then Settle(s) else StopRouting(s, Nothing)
    case UpdateOp(gen, routingGen) => BeginUpdate(s, gen, routingGen, localRulesChanged)
    case TunStopOp(gen) => BeginTunStop(s, gen)
  }

  function OnBeginNext(s: State, localRulesChanged: bool): State {
    if !s.queue.running.Idle? || s.queue.pending == [] then s
    else BeginOp(TakeHead(s), s.queue.pending[0], localRulesChanged)
  }

  function OnResume(s: State, outcome: Outcome, localRulesChanged: bool): State {
    match s.queue.running
    case Idle => s
    case Stopping(next) => Await(s.(hold := s.hold.(ports := {}), world := s.world.(routed := {})), LettingPortsGo(next))
    case LettingPortsGo(next) => PortsFree(s, next)
    case Attempt(plan, at) => ResumeAttempt(s, plan, at, outcome)
    case EndingFailure(gen, process) => FailureEnded(s, gen, process)
    case OccupyingAfterFailure(gen) =>
      if outcome.Failed? then StopRouting(s, LostPortsAfterFailure(gen)) else FinishFailure(PortsTaken(s), gen)
    case EndingSession(gen, process) => FinishSession(s, gen, process)
    case Reapplying(_) => Settle(RestartForRules(s, localRulesChanged).1)
  }

  // ----- Turns and runs -----

  function Step(s: State, e: Event): State {
    match e
    case UserConnect => OnUserConnect(s)
    case UserDisconnect => OnUserDisconnect(s)
    case BeginDisconnect => OnBeginDisconnect(s)
    case ClearError => OnClearError(s)
    case Dispose => OnDispose(s)
    case ProcessFails(process, gen, closed) => OnProcessFails(s, process, gen, closed)
    case ProcessExits(process) => OnProcessExits(s, process)
    case ReconnectTimerFires => OnReconnectTimer(s)
    case HoldTimerFires => OnHoldTimer(s)
    case Wake => OnWake(s)
    case RoutingUpdate => OnRoutingUpdate(s)
    case TunStopped => if s.life.disposed then s else Enqueue(s, TunStopOp(s.life.generation))
    case RoutingMoves(routed) => OnRoutingMoves(s, routed)
    case BeginNext(localRulesChanged) => OnBeginNext(s, localRulesChanged)
    case Resume(outcome, localRulesChanged) => OnResume(s, outcome, localRulesChanged)
  }

  function Run(s: State, turns: seq<Event>): State
    decreases |turns|
  {
    if turns == [] then s else Run(Step(s, turns[0]), turns[1..])
  }
}
