/**
 The clock on a hold, and that held routing never points at ports nobody
 answers for; then what holds of every run of the Xray bridge.
 */
module XrayHold {
  import opened Prelude
  import opened XraySupervisor
  import opened XrayHeldPorts

  // ----- The deadline of a hold -----

  /** Held routing has a timer of its own hold running, or that hold's stop is queued. */
  predicate HoldInv(s: State) {
    && (s.hold.timer.Some? ==> s.hold.timer.value == s.hold.generation)
    && (s.hold.held && !s.life.disposed ==> s.hold.timer.Some? || HoldStopOp(s.hold.generation) in s.queue.pending)
  }

  /** The hold is left alone, is over, or is a new one with its timer running; queued work stays queued. */
  predicate HoldStep(s: State, s': State) {
    && s.queue.pending <= s'.queue.pending
    && (s.life.disposed ==> s'.life.disposed)
    && (|| (s'.hold.timer == s.hold.timer && s'.hold.generation == s.hold.generation && s'.hold.held == s.hold.held)
        || (s'.hold.timer.None? && !s'.hold.held)
        || s'.hold.timer == Some(s'.hold.generation))
  }

  lemma HoldStepKeeps(s: State, s': State)
    requires HoldInv(s) && HoldStep(s, s')
    ensures HoldInv(s')
  {
    if HoldStopOp(s.hold.generation) in s.queue.pending {
      var i :| 0 <= i < |s.queue.pending| && s.queue.pending[i] == HoldStopOp(s.hold.generation);
      assert s'.queue.pending[i] == s.queue.pending[i];
    }
  }

  lemma AttemptHoldSteps(s: State, plan: Plan, at: ConnectPoint, outcome: Outcome)
    ensures HoldStep(s, ResumeAttempt(s, plan, at, outcome))
  {
    match at
    case StoppingProcess(previous) =>
    case OccupyingFirst =>
    case CheckingRuntime =>
    case ReleasingPorts =>
    case ReservingPorts =>
    case Starting(process, ports) =>
      var ready := s.(starting := if s.starting == Some(process) then None else s.starting);
      assert HoldStep(s, Started(ready, plan, process, ports));
    case Applying(process, _) =>
    case EndingSuperseded(process) =>
    case EndingFailed(acquired, blocked) => ConcludeHoldSteps(s, plan, acquired, blocked);
    case OccupyingAgain =>
  }

  lemma ConcludeHoldSteps(s: State, plan: Plan, acquired: Option<nat>, blocked: bool)
    ensures HoldStep(s, ConcludeFailure(Terminated(s, acquired), plan, blocked))
  {}

  lemma RestartHoldSteps(s: State, localRulesChanged: bool)
    ensures HoldStep(s, RestartForRules(s, localRulesChanged).1)
  {}

  lemma ContinueHoldSteps(s: State, next: Next)
    ensures HoldStep(s, PortsFree(s, next))
  {}

  lemma ResumeHoldSteps(s: State, outcome: Outcome, localRulesChanged: bool)
    ensures HoldStep(s, OnResume(s, outcome, localRulesChanged))
  {
    match s.queue.running
    case LettingPortsGo(next) => ContinueHoldSteps(s, next);
    case Attempt(plan, at) => AttemptHoldSteps(s, plan, at, outcome);
    case Reapplying(_) => RestartHoldSteps(s, localRulesChanged);
    case _ =>
  }

  lemma BeginHoldSteps(s: State, op: Op, localRulesChanged: bool)
    ensures HoldStep(s, BeginOp(s, op, localRulesChanged))
  {
    match op
    case ConnectOp(gen, restart) =>
    case UpdateOp(gen, routingGen) => RestartHoldSteps(s, localRulesChanged);
    case _ =>
  }

  /** The head of the queue is the stop this very hold's timer queued, and it ends the hold; or it is not needed. */
  lemma BeginNextKeepsHold(s: State, localRulesChanged: bool)
    requires HoldInv(s)
    ensures HoldInv(OnBeginNext(s, localRulesChanged))
  {
    if s.queue.running.Idle? && s.queue.pending != [] {
      var op, t := s.queue.pending[0], TakeHead(s);
      if op != HoldStopOp(s.hold.generation) {
        assert HoldStopOp(s.hold.generation) in s.queue.pending ==> HoldStopOp(s.hold.generation) in t.queue.pending;
        BeginHoldSteps(t, op, localRulesChanged);
        HoldStepKeeps(t, BeginOp(t, op, localRulesChanged));
      }
    }
  }

  lemma HoldTimerKeepsHold(s: State)
    requires HoldInv(s)
    ensures HoldInv(OnHoldTimer(s))
  {}

  lemma StepKeepsHold(s: State, e: Event)
    requires HoldInv(s)
    ensures HoldInv(Step(s, e))
  {
    match e
    case HoldTimerFires => HoldTimerKeepsHold(s);
    case BeginNext(localRulesChanged) => BeginNextKeepsHold(s, localRulesChanged);
    case Resume(outcome, localRulesChanged) =>
      ResumeHoldSteps(s, outcome, localRulesChanged);
      HoldStepKeeps(s, OnResume(s, outcome, localRulesChanged));
    case _ =>
      OtherHoldSteps(s, e);
      HoldStepKeeps(s, Step(s, e));
  }

  lemma OtherHoldSteps(s: State, e: Event)
    requires !e.HoldTimerFires? && !e.BeginNext? && !e.Resume?
    ensures HoldStep(s, Step(s, e))
  {
    match e
    case ProcessFails(process, gen, closed) =>
    case _ =>
  }

  // ----- Held routing always has someone answering for its ports -----

  function NextPlan(next: Next): Option<Plan> {
    match next
    case Begin(plan) => Some(plan)
    case LostPortsFirst(plan) => Some(plan)
    case LostPortsAgain(plan) => Some(plan)
    case EndFailed(plan, _, _) => Some(plan)
    case EndSuperseded(plan, _) => Some(plan)
    case GiveUp(plan) => Some(plan)
    case _ => None
  }

  /** The attempt the running operation is part of. */
  function RunningPlan(running: Activity): Option<Plan> {
    match running
    case Stopping(next) => NextPlan(next)
    case LettingPortsGo(next) => NextPlan(next)
    case Attempt(plan, _) => Some(plan)
    case _ => None
  }

  predicate Wanted(life: Lifecycle) { life.hasRequest && !life.disconnectRequested }

  predicate LivePlan(s: State, plan: Plan) { plan.gen == s.life.generation }

  predicate LiveOp(op: Op, generation: nat) { op.ConnectOp? && op.gen == generation }

  /** An attempt that spawned a child and is not overtaken still tracks it, and one that took the way out is. */
  predicate TrackInv(s: State) {
    match s.queue.running
    case Attempt(plan, at) =>
      LivePlan(s, plan) ==> !at.EndingSuperseded? && (at.Starting? || at.Applying? ==> Has(s, at.process))
    case Stopping(next) => next.EndSuperseded? ==> !LivePlan(s, next.plan)
    case LettingPortsGo(next) => next.EndSuperseded? ==> !LivePlan(s, next.plan)
    case _ => true
  }

  /** Someone still wants the session an attempt is for, and an attempt the user asked for has ended any hold. */
  ghost predicate WantInv(s: State) {
    && (s.life.disposed ==> s.life.disconnectRequested)
    && (s.phase == Connected ==> Wanted(s.life))
    && TrackInv(s)
    && (forall op :: op in s.queue.pending && LiveOp(op, s.life.generation) ==> Wanted(s.life))
    && (RunningPlan(s.queue.running).Some? && LivePlan(s, RunningPlan(s.queue.running).value) ==>
          Wanted(s.life) && (RunningPlan(s.queue.running).value.restart || !s.hold.held))
  }

  predicate FailureWork(running: Activity) { running.EndingFailure? || running.OccupyingAfterFailure? }

  /** The bridge has the ports and is not letting them go, or the running operation takes them or gives the hold up. */
  predicate Working(s: State) {
    || (s.hold.ports != {} && !s.queue.running.Stopping? && !s.queue.running.LettingPortsGo?)
    || (s.queue.running.Attempt? && LivePlan(s, s.queue.running.plan))
    || FailureWork(s.queue.running)
  }

  ghost predicate Answered(s: State) {
    Working(s) || exists op :: op in s.queue.pending && (op.FailureOp? || LiveOp(op, s.life.generation))
  }

  ghost predicate CoverInv(s: State) {
    WantInv(s) && (s.hold.held && s.hold.endpoints != {} && !s.life.disconnectRequested ==> Answered(s))
  }

  /** The hold and the lifecycle as they were, and queued work still queued. */
  lemma CoverFrame(s: State, s': State)
    requires CoverInv(s) && s.queue.pending <= s'.queue.pending
    requires s'.life == s.life && s'.queue.running == s.queue.running && s'.process == s.process
    requires s'.phase == Connected ==> s.phase == Connected
    requires s'.hold.held ==> s.hold.held
    requires s'.hold.endpoints == s.hold.endpoints && s'.hold.ports == s.hold.ports
    requires forall op :: op in s'.queue.pending && LiveOp(op, s.life.generation) ==> op in s.queue.pending
    ensures CoverInv(s')
  {
    AnsweredFrame(s, s');
  }

  lemma AnsweredFrame(s: State, s': State)
    requires s.queue.pending <= s'.queue.pending
    ensures forall op :: op in s.queue.pending ==> op in s'.queue.pending
  {
    forall op | op in s.queue.pending ensures op in s'.queue.pending {
      var i :| 0 <= i < |s.queue.pending| && s.queue.pending[i] == op;
      assert s'.queue.pending[i] == op;
    }
  }

  /** A new lifecycle for which an attempt is queued at once. */
  lemma StartKeepsCover(s: State, restart: bool)
    requires PortsInv(s) && !s.life.disposed
    ensures CoverInv(StartConnect(s, restart))
  {
    var s' := StartConnect(s, restart);
    var op := ConnectOp(s.life.generation + 1, restart);
    assert s'.queue.pending[|s.queue.pending|] == op;
    assert op in s'.queue.pending && LiveOp(op, s'.life.generation);
  }

  /** A lifecycle that ends because the session was given up. */
  lemma EndKeepsCover(s: State, s': State)
    requires PortsInv(s) && s'.queue.running == s.queue.running
    requires s'.life.generation == s.life.generation + 1 && s'.life.disconnectRequested && s'.phase != Connected
    requires forall op :: op in s'.queue.pending && op.ConnectOp? ==> op in s.queue.pending
    ensures CoverInv(s')
  {
    forall op | op in s'.queue.pending && op.ConnectOp? ensures !LiveOp(op, s'.life.generation) {
      assert op in s.queue.pending && OpKnown(op, s.life.generation);
    }
  }

  lemma ProcessFailsKeepsCover(s: State, process: nat, gen: nat, closed: bool)
    requires PortsInv(s) && CoverInv(s)
    ensures CoverInv(OnProcessFails(s, process, gen, closed))
  {
    var s' := OnProcessFails(s, process, gen, closed);
    if s' != s {
      assert s'.queue.pending[|s.queue.pending|] == FailureOp(s.life.generation + 1, process);
      forall op | op in s'.queue.pending ensures !LiveOp(op, s'.life.generation) {
        assert op in s.queue.pending ==> OpKnown(op, s.life.generation);
      }
    }
  }

  lemma RestartKeepsCover(s: State)
    requires PortsInv(s) && CoverInv(s)
    ensures CoverInv(Restart(s))
  {
    if Restart(s) != s { StartKeepsCover(s, true); }
  }

  /** A connected session is wanted, so its restart really starts and answers for the hold begun with it. */
  lemma RulesKeepCover(s: State, localRulesChanged: bool)
    requires PortsInv(s) && CoverInv(s)
    ensures CoverInv(RestartForRules(s, localRulesChanged).1)
  {
    if RestartForRules(s, localRulesChanged).0 {
      var pointed := if s.hold.held then s else s.(hold := s.hold.(endpoints := s.inbounds));
      var t := HoldRouting(pointed);
      PortsFrame(s, t);
      StartKeepsCover(t, true);
    }
  }

  lemma CallKeepsCover(s: State, e: Event)
    requires PortsInv(s) && CoverInv(s)
    requires e.UserConnect? || e.UserDisconnect? || e.BeginDisconnect? || e.ClearError? || e.Dispose?
    ensures CoverInv(Step(s, e))
  {
    if Step(s, e) != s {
      match e
      case UserConnect => StartKeepsCover(s, false);
      case _ => EndKeepsCover(s, Step(s, e));
    }
  }

  lemma TimersKeepCover(s: State, e: Event)
    requires PortsInv(s) && CoverInv(s)
    requires e.ProcessExits? || e.ReconnectTimerFires? || e.HoldTimerFires? || e.Wake? || e.RoutingUpdate?
              || e.TunStopped? || e.RoutingMoves?
    ensures CoverInv(Step(s, e))
  {
    match e
    case ReconnectTimerFires => TimerKeepsCover(s);
    case Wake => TimerKeepsCover(s);
    case _ => CoverFrame(s, Step(s, e));
  }

  lemma TimerKeepsCover(s: State)
    requires PortsInv(s) && CoverInv(s)
    ensures CoverInv(OnReconnectTimer(s)) && CoverInv(OnWake(s))
  {
    var t := s.(reconnectTimer := None);
    PortsFrame(s, t);
    CoverFrame(s, t);
    RestartKeepsCover(t);
  }

  // ----- Turns of the queue -----

  /** The operation moves on within its attempt, ends it with the hold over, or was not answering. */
  lemma CoverMove(s: State, s': State)
    requires CoverInv(s) && s'.queue.pending == s.queue.pending && s'.life == s.life
    requires s'.phase == Connected ==> s.phase == Connected || Wanted(s.life)
    requires TrackInv(s')
    requires s'.hold.held ==> s.hold.held && s'.hold.endpoints == s.hold.endpoints
    requires RunningPlan(s'.queue.running).Some? ==> RunningPlan(s'.queue.running) == RunningPlan(s.queue.running)
    requires s'.hold.held && s'.hold.endpoints != {} && !s.life.disconnectRequested && Working(s) ==> Working(s')
    ensures CoverInv(s')
  {}

  lemma StoppedKeepsCover(s: State, plan: Plan, previous: Option<nat>)
    requires CoverInv(s) && s.queue.running == Attempt(plan, StoppingProcess(previous))
    ensures CoverInv(PreviousEnded(Terminated(s, previous), plan))
  {
    CoverMove(s, PreviousEnded(Terminated(s, previous), plan));
  }

  lemma EarlyPointKeepsCover(s: State, plan: Plan, at: ConnectPoint, outcome: Outcome)
    requires CoverInv(s) && s.queue.running == Attempt(plan, at)
    requires at.OccupyingFirst? || at.CheckingRuntime? || at.ReleasingPorts?
    ensures CoverInv(ResumeAttempt(s, plan, at, outcome))
  {
    CoverMove(s, ResumeAttempt(s, plan, at, outcome));
  }

  lemma ReservedKeepsCover(s: State, plan: Plan, outcome: Outcome)
    requires CoverInv(s) && s.queue.running == Attempt(plan, ReservingPorts)
    ensures CoverInv(ResumeAttempt(s, plan, ReservingPorts, outcome))
  {
    CoverMove(s, ResumeAttempt(s, plan, ReservingPorts, outcome));
  }

  lemma StartedKeepsCover(s: State, plan: Plan, process: nat, ports: set<nat>, outcome: Outcome)
    requires CoverInv(s) && s.queue.running == Attempt(plan, Starting(process, ports))
    ensures CoverInv(ResumeAttempt(s, plan, Starting(process, ports), outcome))
  {
    CoverMove(s, ResumeAttempt(s, plan, Starting(process, ports), outcome));
  }

  lemma AppliedKeepsCover(s: State, plan: Plan, process: nat, ports: set<nat>, outcome: Outcome)
    requires CoverInv(s) && s.queue.running == Attempt(plan, Applying(process, ports))
    ensures CoverInv(ResumeAttempt(s, plan, Applying(process, ports), outcome))
  {
    CoverMove(s, ResumeAttempt(s, plan, Applying(process, ports), outcome));
  }

  lemma ConcludeKeepsCover(s: State, plan: Plan, acquired: Option<nat>, blocked: bool)
    requires CoverInv(s) && s.queue.running == Attempt(plan, EndingFailed(acquired, blocked))
    ensures CoverInv(ConcludeFailure(Terminated(s, acquired), plan, blocked))
  {
    CoverMove(s, ConcludeFailure(Terminated(s, acquired), plan, blocked));
  }

  lemma LastPointKeepsCover(s: State, plan: Plan, at: ConnectPoint, outcome: Outcome)
    requires CoverInv(s) && s.queue.running == Attempt(plan, at)
    requires at.EndingSuperseded? || at.OccupyingAgain?
    ensures CoverInv(ResumeAttempt(s, plan, at, outcome))
  {
    CoverMove(s, ResumeAttempt(s, plan, at, outcome));
  }

  lemma AttemptKeepsCover(s: State, plan: Plan, at: ConnectPoint, outcome: Outcome)
    requires CoverInv(s) && s.queue.running == Attempt(plan, at)
    ensures CoverInv(ResumeAttempt(s, plan, at, outcome))
  {
    match at
    case StoppingProcess(previous) => StoppedKeepsCover(s, plan, previous);
    case ReservingPorts => ReservedKeepsCover(s, plan, outcome);
    case Starting(process, ports) => StartedKeepsCover(s, plan, process, ports, outcome);
    case Applying(process, ports) => AppliedKeepsCover(s, plan, process, ports, outcome);
    case EndingFailed(acquired, blocked) => ConcludeKeepsCover(s, plan, acquired, blocked);
    case EndingSuperseded(process) => LastPointKeepsCover(s, plan, at, outcome);
    case OccupyingAgain => LastPointKeepsCover(s, plan, at, outcome);
    case _ => EarlyPointKeepsCover(s, plan, at, outcome);
  }

  lemma ContinueKeepsCover(s: State, next: Next)
    requires CoverInv(s) && s.queue.running == LettingPortsGo(next) && s.hold.ports == {}
    ensures CoverInv(PortsFree(s, next))
  {
    CoverMove(s, PortsFree(s, next));
  }

  lemma FailureKeepsCover(s: State, outcome: Outcome, localRulesChanged: bool)
    requires CoverInv(s) && FailureWork(s.queue.running)
    ensures CoverInv(OnResume(s, outcome, localRulesChanged))
  {
    CoverMove(s, OnResume(s, outcome, localRulesChanged));
  }

  lemma ResumeKeepsCover(s: State, outcome: Outcome, localRulesChanged: bool)
    requires PortsInv(s) && CoverInv(s)
    ensures CoverInv(OnResume(s, outcome, localRulesChanged))
  {
    match s.queue.running
    case Idle =>
    case Stopping(next) => CoverMove(s, OnResume(s, outcome, localRulesChanged));
    case LettingPortsGo(next) => ContinueKeepsCover(s, next);
    case Attempt(plan, at) => AttemptKeepsCover(s, plan, at, outcome);
    case EndingFailure(gen, process) => FailureKeepsCover(s, outcome, localRulesChanged);
    case OccupyingAfterFailure(gen) => FailureKeepsCover(s, outcome, localRulesChanged);
    case EndingSession(gen, captured) => SessionEndKeepsCover(s, gen, captured);
    case Reapplying(_) => ReappliedKeepsCover(s, localRulesChanged);
  }

  lemma SessionEndKeepsCover(s: State, gen: nat, captured: Option<nat>)
    requires CoverInv(s) && s.queue.running == EndingSession(gen, captured)
    ensures CoverInv(FinishSession(s, gen, captured))
  {
    CoverMove(s, FinishSession(s, gen, captured));
  }

  lemma ReappliedKeepsCover(s: State, localRulesChanged: bool)
    requires PortsInv(s) && CoverInv(s) && s.queue.running.Reapplying?
    ensures CoverInv(Settle(RestartForRules(s, localRulesChanged).1))
  {
    RulesKeepCover(s, localRulesChanged);
    var next := RestartForRules(s, localRulesChanged).1;
    CoverMove(next, Settle(next));
  }

  /** The head either no longer counts, or goes on as the running operation. */
  lemma TakeKeepsCover(s: State, s': State)
    requires CoverInv(s) && s.queue.running.Idle? && s.queue.pending != []
    requires s'.queue.pending == s.queue.pending[1..] && s'.life == s.life
    requires s'.phase == Connected ==> s.phase == Connected
    requires s'.hold.held ==> s.hold.held && s'.hold.endpoints == s.hold.endpoints && s'.hold.ports == s.hold.ports
    requires RunningPlan(s'.queue.running).Some? ==> LiveOp(s.queue.pending[0], RunningPlan(s'.queue.running).value.gen)
    requires RunningPlan(s'.queue.running).Some? ==> RunningPlan(s'.queue.running).value.restart || !s'.hold.held
    requires TrackInv(s')
    requires Working(s) || s.queue.pending[0].FailureOp? || LiveOp(s.queue.pending[0], s.life.generation) ==>
               Working(s') || !s'.hold.held
    ensures CoverInv(s')
  {
    var pending := s.queue.pending;
    assert forall op :: op in pending[1..] ==> op in pending;
    assert pending[0] in pending;
    if s'.hold.held && s.hold.endpoints != {} && !s.life.disconnectRequested && !Working(s') {
      var op :| op in pending && (op.FailureOp? || LiveOp(op, s.life.generation));
      assert op in pending[1..];
    }
  }

  lemma BeginUpdateKeepsCover(s: State, localRulesChanged: bool)
    requires PortsInv(s) && CoverInv(s) && s.queue.running.Idle? && s.queue.pending != [] && s.queue.pending[0].UpdateOp?
    ensures CoverInv(BeginOp(TakeHead(s), s.queue.pending[0], localRulesChanged))
  {
    var t := TakeHead(s);
    TakeKeepsCover(s, t);
    TakeHeadKeepsPorts(s);
    RulesKeepCover(t, localRulesChanged);
    var next := RestartForRules(t, localRulesChanged).1;
    assert Settle(next) == next && Settle(t) == t;
    CoverMove(t, Await(t, Reapplying(t.inbounds)));
  }

  lemma BeginConnectKeepsCover(s: State)
    requires CoverInv(s) && s.queue.running.Idle? && s.queue.pending != [] && s.queue.pending[0].ConnectOp?
    ensures CoverInv(BeginOp(TakeHead(s), s.queue.pending[0], false))
  {
    TakeKeepsCover(s, BeginOp(TakeHead(s), s.queue.pending[0], false));
  }

  lemma BeginOtherKeepsCover(s: State, localRulesChanged: bool)
    requires CoverInv(s) && s.queue.running.Idle? && s.queue.pending != []
    requires !s.queue.pending[0].ConnectOp? && !s.queue.pending[0].UpdateOp?
    ensures CoverInv(BeginOp(TakeHead(s), s.queue.pending[0], localRulesChanged))
  {
    TakeKeepsCover(s, BeginOp(TakeHead(s), s.queue.pending[0], localRulesChanged));
  }

  lemma BeginNextKeepsCover(s: State, localRulesChanged: bool)
    requires PortsInv(s) && CoverInv(s)
    ensures CoverInv(OnBeginNext(s, localRulesChanged))
  {
    if s.queue.running.Idle? && s.queue.pending != [] {
      if s.queue.pending[0].UpdateOp? {
        BeginUpdateKeepsCover(s, localRulesChanged);
      } else if s.queue.pending[0].ConnectOp? {
        BeginConnectKeepsCover(s);
      } else {
        BeginOtherKeepsCover(s, localRulesChanged);
      }
    }
  }

  lemma StepKeepsCover(s: State, e: Event)
    requires PortsInv(s) && CoverInv(s)
    ensures CoverInv(Step(s, e))
  {
    match e
    case ProcessFails(process, gen, closed) => ProcessFailsKeepsCover(s, process, gen, closed);
    case BeginNext(localRulesChanged) => BeginNextKeepsCover(s, localRulesChanged);
    case Resume(outcome, localRulesChanged) => ResumeKeepsCover(s, outcome, localRulesChanged);
    case UserConnect => CallKeepsCover(s, e);
    case UserDisconnect => CallKeepsCover(s, e);
    case BeginDisconnect => CallKeepsCover(s, e);
    case ClearError => CallKeepsCover(s, e);
    case Dispose => CallKeepsCover(s, e);
    case _ => TimersKeepCover(s, e);
  }

  // ----- Whole runs -----

  ghost predicate HeldInv(s: State) { PortsInv(s) && HoldInv(s) && CoverInv(s) }

  lemma {:induction false} RunKeeps(s: State, turns: seq<Event>)
    requires HeldInv(s)
    ensures HeldInv(Run(s, turns))
    decreases |turns|
  {
    if turns != [] {
      StepKeepsPorts(s, turns[0]);
      StepKeepsHold(s, turns[0]);
      StepKeepsCover(s, turns[0]);
      RunKeeps(Step(s, turns[0]), turns[1..]);
    }
  }

  /** In no run do the bridge and an Xray child it spawned have the held inbound ports at once. */
  lemma PortsAreExclusive(turns: seq<Event>)
    ensures Run(INITIAL, turns).world.bound != {} ==> Run(INITIAL, turns).world.alive == {}
  {
    RunKeeps(INITIAL, turns);
  }

  /** Held routing always has a deadline ahead of it: its own timer, or the stop that timer queued. */
  lemma HoldHasADeadline(turns: seq<Event>)
    ensures var s := Run(INITIAL, turns);
      s.hold.held && !s.life.disposed ==>
        s.hold.timer == Some(s.hold.generation) || HoldStopOp(s.hold.generation) in s.queue.pending
  {
    RunKeeps(INITIAL, turns);
  }

  /** With nothing pending and no disconnect asked for, the ports the bridge itself has are exactly those the hold is
      about, and no Xray child is alive to have them. */
  lemma HeldPortsAreBound(turns: seq<Event>)
    ensures var s := Run(INITIAL, turns);
      s.hold.held && s.hold.endpoints != {} && !s.life.disconnectRequested && s.queue.running.Idle? && s.queue.pending == [] ==>
        s.world.bound == s.hold.endpoints == s.hold.ports && s.world.alive == {}
  {
    RunKeeps(INITIAL, turns);
  }

  /** No Xray child outlives what answers for it: once the queue is quiet, the only one alive is the tracked one. */
  lemma NoChildIsLost(turns: seq<Event>, process: nat)
    ensures var s := Run(INITIAL, turns);
      s.queue.running.Idle? && s.queue.pending == [] && process in s.world.alive ==> Has(s, process)
  {
    RunKeeps(INITIAL, turns);
    var s := Run(INITIAL, turns);
    if process in s.world.alive { assert Owned(s, process); }
  }

  lemma {:induction false} RunLast(s: State, turns: seq<Event>, last: Event)
    ensures Run(s, turns + [last]) == Step(Run(s, turns), last)
    decreases |turns|
  {
    if turns == [] {
      assert turns + [last] == [last] && [last][1..] == [];
    } else {
      assert (turns + [last])[1..] == turns[1..] + [last];
      RunLast(Step(s, turns[0]), turns[1..], last);
    }
  }
}
