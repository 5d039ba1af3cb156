/**
 The Xray bridge never stalls: while a session is wanted there is always a
 child of its lifecycle, a timer that will start an attempt, or work on one -
 or an attempt that no restart could help has ended in Error.
 */
module XrayNoStall {
  import opened Prelude
  import opened XraySupervisor
  import opened XrayHeldPorts
  import opened XrayHold

  // ----- No stall -----

  function NextGen(next: Next): Option<nat> {
    match next
    case EndFailure(gen, _) => Some(gen)
    case LostPortsAfterFailure(gen) => Some(gen)
    case _ => if NextPlan(next).Some? then Some(NextPlan(next).value.gen) else None
  }

  /** The lifecycle whose attempt or clean-up is running. */
  function RunningGen(running: Activity): Option<nat> {
    match running
    case Stopping(next) => NextGen(next)
    case LettingPortsGo(next) => NextGen(next)
    case Attempt(plan, _) => Some(plan.gen)
    case EndingFailure(gen, _) => Some(gen)
    case OccupyingAfterFailure(gen) => Some(gen)
    case _ => None
  }

  predicate LiveRunning(s: State) { RunningGen(s.queue.running) == Some(s.life.generation) }

  predicate LiveQueued(op: Op, generation: nat) { (op.ConnectOp? || op.FailureOp?) && op.gen == generation }

  ghost predicate LiveWork(s: State) { LiveRunning(s) || exists op :: op in s.queue.pending && LiveQueued(op, s.life.generation) }

  predicate LiveChild(s: State) { s.process.Some? && s.process.value.gen == s.life.generation }

  /** A child of this lifecycle, a timer that will start an attempt, or work on one. */
  ghost predicate Alive(s: State) { LiveChild(s) || s.reconnectTimer == Some(s.life.generation) || LiveWork(s) }

  predicate DisconnectKnown(op: Op, life: Lifecycle) {
    op.DisconnectOp? ==> op.gen <= life.generation && (op.gen == life.generation ==> life.disconnectRequested)
  }

  function EndingGen(running: Activity): Option<nat> {
    match running
    case Stopping(EndSession(gen, _)) => Some(gen)
    case LettingPortsGo(EndSession(gen, _)) => Some(gen)
    case EndingSession(gen, _) => Some(gen)
    case _ => None
  }

  predicate EndingKnown(s: State) {
    EndingGen(s.queue.running).Some? ==>
      && EndingGen(s.queue.running).value <= s.life.generation
      && (EndingGen(s.queue.running).value == s.life.generation ==> s.life.disconnectRequested)
  }

  /** The child an attempt spawned is of its lifecycle. */
  predicate OwnChild(s: State) {
    match s.queue.running
    case Attempt(plan, Starting(process, _)) => Has(s, process) ==> s.process.value.gen == plan.gen
    case Attempt(plan, Applying(process, _)) => Has(s, process) ==> s.process.value.gen == plan.gen
    case _ => true
  }

  /** No lifecycle has two operations. */
  ghost predicate OneLive(s: State) {
    && (forall i, j :: 0 <= i < j < |s.queue.pending| ==>
          !(LiveQueued(s.queue.pending[i], s.life.generation) && LiveQueued(s.queue.pending[j], s.life.generation)))
    && (LiveRunning(s) ==> forall op :: op in s.queue.pending ==> !LiveQueued(op, s.life.generation))
  }

  /** A session has something at work on it or ended in Error, and work is for a session that is wanted. */
  ghost predicate StallInv(s: State) {
    && (Wanted(s.life) ==> Alive(s) || s.phase == Error)
    && (LiveWork(s) || LiveChild(s) ==> Wanted(s.life))
    && (RunningGen(s.queue.running).Some? ==> RunningGen(s.queue.running).value <= s.life.generation)
    && (s.reconnectTimer.Some? ==> s.reconnectTimer.value == s.life.generation && Wanted(s.life) && !LiveWork(s) && s.phase != Connected)
    && (s.process.Some? ==> s.process.value.gen <= s.life.generation && s.life.hasRequest)
    && (s.phase == Connected ==> LiveChild(s) && !LiveWork(s) && RunningPlan(s.queue.running).None?)
    && OneLive(s)
    && OwnChild(s) && EndingKnown(s)
    && (forall op :: op in s.queue.pending ==> DisconnectKnown(op, s.life))
  }

  lemma QueuedStays(pending: seq<Op>, longer: seq<Op>, generation: nat)
    requires pending <= longer
    ensures forall op :: op in pending ==> op in longer
  {
    forall op | op in pending ensures op in longer {
      var i :| 0 <= i < |pending| && pending[i] == op;
      assert longer[i] == op;
    }
  }

  /** A new lifecycle that has its attempt queued at once. */
  lemma StartNeverStalls(s: State, restart: bool)
    requires PortsInv(s) && StallInv(s)
    ensures StallInv(StartConnect(s, restart))
  {
    var s' := StartConnect(s, restart);
    var op := ConnectOp(s.life.generation + 1, restart);
    assert s'.queue.pending[|s.queue.pending|] == op;
    assert op in s'.queue.pending && LiveQueued(op, s'.life.generation);
    assert forall i :: 0 <= i < |s.queue.pending| ==> s'.queue.pending[i] == s.queue.pending[i] && s.queue.pending[i] in s.queue.pending;
  }

  /** A lifecycle that ends because the session was given up. */
  lemma EndNeverStalls(s: State, e: Event)
    requires PortsInv(s) && StallInv(s) && (e.UserDisconnect? || e.BeginDisconnect? || e.ClearError? || e.Dispose?)
    ensures StallInv(Step(s, e))
  {
    var s' := Step(s, e);
    if s' != s {
      assert forall i :: 0 <= i < |s'.queue.pending| ==> s'.queue.pending[i] in s'.queue.pending;
      forall op | op in s'.queue.pending ensures !LiveQueued(op, s'.life.generation) && DisconnectKnown(op, s'.life) {
        assert op in s.queue.pending ==> OpKnown(op, s.life.generation) && DisconnectKnown(op, s.life);
      }
    }
  }

  lemma ProcessFailsNeverStalls(s: State, process: nat, gen: nat, closed: bool)
    requires PortsInv(s) && StallInv(s) && WantInv(s)
    ensures StallInv(OnProcessFails(s, process, gen, closed))
  {
    var s' := OnProcessFails(s, process, gen, closed);
    if s' != s {
      var op := FailureOp(s.life.generation + 1, process);
      assert s'.queue.pending[|s.queue.pending|] == op;
      assert op in s'.queue.pending && LiveQueued(op, s'.life.generation);
      assert forall i :: 0 <= i < |s.queue.pending| ==> s'.queue.pending[i] == s.queue.pending[i] && s.queue.pending[i] in s.queue.pending;
    }
  }

  lemma TimerNeverStalls(s: State)
    requires PortsInv(s) && StallInv(s) && WantInv(s)
    ensures StallInv(OnReconnectTimer(s)) && StallInv(OnWake(s))
  {
    RestartStarts(s);
  }

  /** A restart clears the timer anyway, so the timer that started it makes no difference. */
  lemma RestartStarts(s: State)
    requires PortsInv(s) && StallInv(s)
    ensures Restart(s.(reconnectTimer := None)) != s.(reconnectTimer := None) ==> StallInv(Restart(s.(reconnectTimer := None)))
    ensures Restart(s) != s ==> StallInv(Restart(s))
  {
    StartNeverStalls(s, true);
    assert StartConnect(s.(reconnectTimer := None), true) == StartConnect(s, true);
  }

  /** Something other than an attempt or a clean-up is queued. */
  lemma OtherQueued(s: State, s': State, op: Op)
    requires StallInv(s) && !op.ConnectOp? && !op.FailureOp? && !op.DisconnectOp?
    requires s'.queue == Queue(s.queue.running, s.queue.pending + [op])
    requires s'.life == s.life && s'.process == s.process && s'.phase == s.phase && s'.reconnectTimer == s.reconnectTimer
    ensures StallInv(s')
  {
    QueuedStays(s.queue.pending, s'.queue.pending, s.life.generation);
    forall other | other in s'.queue.pending ensures other in s.queue.pending || other == op {}
    assert forall i :: 0 <= i < |s.queue.pending| ==> s'.queue.pending[i] == s.queue.pending[i];
  }

  lemma OtherEventNeverStalls(s: State, e: Event)
    requires PortsInv(s) && StallInv(s)
    requires e.ProcessExits? || e.HoldTimerFires? || e.RoutingUpdate? || e.TunStopped? || e.RoutingMoves?
    ensures StallInv(Step(s, e))
  {
    match e
    case HoldTimerFires => if Step(s, e).queue != s.queue { OtherQueued(s, Step(s, e), HoldStopOp(s.hold.timer.value)); }
    case RoutingUpdate => if !s.life.disposed { OtherQueued(s, Step(s, e), UpdateOp(s.life.generation, s.routingGeneration + 1)); }
    case TunStopped => if !s.life.disposed { OtherQueued(s, Step(s, e), TunStopOp(s.life.generation)); }
    case _ =>
  }

  // ----- Turns of the queue -----

  /** The running operation goes on: live work stays live or leaves a timer or an Error, and what was not live stays so. */
  lemma WorkMoves(s: State, s': State)
    requires StallInv(s) && s'.queue.pending == s.queue.pending && s'.life == s.life
    requires LiveRunning(s') ==> LiveRunning(s)
    requires RunningGen(s'.queue.running).Some? ==> RunningGen(s'.queue.running).value <= s.life.generation
    requires LiveRunning(s) ==> LiveRunning(s') || s'.reconnectTimer == Some(s.life.generation) || s'.phase == Error || LiveChild(s')
    requires LiveChild(s') ==> LiveChild(s) || Wanted(s.life)
    requires LiveChild(s) && !LiveRunning(s) && Wanted(s.life) ==> LiveChild(s')
    requires s'.reconnectTimer == s.reconnectTimer || (s'.reconnectTimer == Some(s.life.generation) && LiveRunning(s))
    requires s'.reconnectTimer.Some? ==> !LiveRunning(s') && s'.phase != Connected
    requires s'.phase == s.phase || s'.phase == Error || s'.reconnectTimer.Some? || (s'.phase == Connected && LiveChild(s')) || !Wanted(s.life)
    requires s'.phase == Connected ==> LiveChild(s') && RunningPlan(s'.queue.running).None? && !LiveRunning(s') && (s.phase == Connected || LiveRunning(s))
    requires s'.process.Some? ==> s'.process.value.gen <= s.life.generation && s.life.hasRequest
    requires OwnChild(s') && EndingKnown(s')
    ensures StallInv(s')
  {}

  /** The head of the queue starts; if it was live it goes on as the running operation. */
  lemma TakeMoves(s: State, s': State)
    requires StallInv(s) && s.queue.running.Idle? && s.queue.pending != [] && s'.queue.pending == s.queue.pending[1..]
    requires s'.life == s.life && s'.phase == s.phase && s'.reconnectTimer == s.reconnectTimer
    requires LiveRunning(s') ==> LiveQueued(s.queue.pending[0], s.life.generation)
    requires RunningGen(s'.queue.running).Some? ==> RunningGen(s'.queue.running).value <= s.life.generation
    requires RunningPlan(s'.queue.running).Some? ==> LiveRunning(s')
    requires LiveQueued(s.queue.pending[0], s.life.generation) ==> LiveRunning(s')
    requires s'.process == s.process || (s'.process.None? && (LiveRunning(s') || !Wanted(s.life)))
    requires OwnChild(s') && EndingKnown(s')
    ensures StallInv(s')
  {
    var pending := s.queue.pending;
    assert forall op :: op in pending[1..] ==> op in pending;
    assert pending[0] in pending;
    assert forall i :: 0 <= i < |pending[1..]| ==> pending[1..][i] == pending[i + 1];
    if Wanted(s.life) && !LiveRunning(s') && !LiveChild(s') && s.reconnectTimer.None? && s.phase != Error {
      var op :| op in pending && LiveQueued(op, s.life.generation);
      assert op in pending[1..];
    }
  }

  lemma BeginConnectNeverStalls(s: State)
    requires PortsInv(s) && StallInv(s) && s.queue.running.Idle? && s.queue.pending != [] && s.queue.pending[0].ConnectOp?
    ensures StallInv(BeginOp(TakeHead(s), s.queue.pending[0], false))
  {
    assert s.queue.pending[0] in s.queue.pending && OpKnown(s.queue.pending[0], s.life.generation);
    TakeMoves(s, BeginOp(TakeHead(s), s.queue.pending[0], false));
  }

  lemma BeginFailureNeverStalls(s: State)
    requires PortsInv(s) && StallInv(s) && s.queue.running.Idle? && s.queue.pending != [] && s.queue.pending[0].FailureOp?
    ensures StallInv(BeginOp(TakeHead(s), s.queue.pending[0], false))
  {
    assert s.queue.pending[0] in s.queue.pending && OpKnown(s.queue.pending[0], s.life.generation);
    TakeMoves(s, BeginOp(TakeHead(s), s.queue.pending[0], false));
  }

  lemma BeginOtherNeverStalls(s: State, localRulesChanged: bool)
    requires PortsInv(s) && StallInv(s) && s.queue.running.Idle? && s.queue.pending != []
    requires !s.queue.pending[0].ConnectOp? && !s.queue.pending[0].UpdateOp? && !s.queue.pending[0].FailureOp?
    ensures StallInv(BeginOp(TakeHead(s), s.queue.pending[0], localRulesChanged))
  {
    if s.queue.pending[0].DisconnectOp? {
      BeginDisconnectNeverStalls(s, localRulesChanged);
    } else {
      TakeMoves(s, BeginOp(TakeHead(s), s.queue.pending[0], localRulesChanged));
    }
  }

  lemma BeginDisconnectNeverStalls(s: State, localRulesChanged: bool)
    requires StallInv(s) && s.queue.running.Idle? && s.queue.pending != [] && s.queue.pending[0].DisconnectOp?
    ensures StallInv(BeginOp(TakeHead(s), s.queue.pending[0], localRulesChanged))
  {
    assert s.queue.pending[0] in s.queue.pending;
    assert DisconnectKnown(s.queue.pending[0], s.life);
    TakeMoves(s, BeginOp(TakeHead(s), s.queue.pending[0], localRulesChanged));
  }

  lemma RulesNeverStall(s: State, localRulesChanged: bool)
    requires PortsInv(s) && StallInv(s)
    ensures StallInv(RestartForRules(s, localRulesChanged).1)
  {
    if RestartForRules(s, localRulesChanged).0 {
      var pointed := if s.hold.held then s else s.(hold := s.hold.(endpoints := s.inbounds));
      var t := HoldRouting(pointed);
      PortsFrame(s, t);
      assert StallInv(t);
      RestartStarts(t);
    }
  }

  lemma BeginUpdateNeverStalls(s: State, localRulesChanged: bool)
    requires PortsInv(s) && StallInv(s) && s.queue.running.Idle? && s.queue.pending != [] && s.queue.pending[0].UpdateOp?
    ensures StallInv(BeginOp(TakeHead(s), s.queue.pending[0], localRulesChanged))
  {
    var t := TakeHead(s);
    TakeMoves(s, t);
    TakeHeadKeepsPorts(s);
    RulesNeverStall(t, localRulesChanged);
    var next := RestartForRules(t, localRulesChanged).1;
    assert Settle(next) == next && Settle(t) == t;
    WorkMoves(t, Await(t, Reapplying(t.inbounds)));
  }

  lemma BeginNeverStalls(s: State, localRulesChanged: bool)
    requires PortsInv(s) && StallInv(s)
    ensures StallInv(OnBeginNext(s, localRulesChanged))
  {
    if s.queue.running.Idle? && s.queue.pending != [] {
      match s.queue.pending[0]
      case ConnectOp(_, _) => BeginConnectNeverStalls(s);
      case FailureOp(_, _) => BeginFailureNeverStalls(s);
      case UpdateOp(_, _) => BeginUpdateNeverStalls(s, localRulesChanged);
      case _ => BeginOtherNeverStalls(s, localRulesChanged);
    }
  }

  // ----- Awaits of the running operation -----

  lemma EarlyPointNeverStalls(s: State, plan: Plan, at: ConnectPoint, outcome: Outcome)
    requires StallInv(s) && TrackInv(s) && MayTrack(s) && s.queue.running == Attempt(plan, at)
    requires at.StoppingProcess? || at.OccupyingFirst? || at.CheckingRuntime? || at.ReleasingPorts? || at.ReservingPorts?
    ensures StallInv(ResumeAttempt(s, plan, at, outcome))
  {
    WorkMoves(s, ResumeAttempt(s, plan, at, outcome));
  }

  lemma StartedNeverStalls(s: State, plan: Plan, at: ConnectPoint, outcome: Outcome)
    requires StallInv(s) && TrackInv(s) && MayTrack(s) && s.queue.running == Attempt(plan, at)
    requires at.Starting? || at.Applying?
    ensures StallInv(ResumeAttempt(s, plan, at, outcome))
  {
    WorkMoves(s, ResumeAttempt(s, plan, at, outcome));
  }

  lemma LastPointNeverStalls(s: State, plan: Plan, at: ConnectPoint, outcome: Outcome)
    requires StallInv(s) && WantInv(s) && MayTrack(s) && s.queue.running == Attempt(plan, at)
    requires at.EndingSuperseded? || at.EndingFailed? || at.OccupyingAgain?
    ensures StallInv(ResumeAttempt(s, plan, at, outcome))
  {
    WorkMoves(s, ResumeAttempt(s, plan, at, outcome));
  }

  lemma PortsFreeNeverStalls(s: State, next: Next)
    requires StallInv(s) && WantInv(s) && MayTrack(s) && s.queue.running == LettingPortsGo(next)
    ensures StallInv(PortsFree(s, next))
  {
    WorkMoves(s, PortsFree(s, next));
  }

  lemma OtherResumeNeverStalls(s: State, outcome: Outcome, localRulesChanged: bool)
    requires StallInv(s) && WantInv(s) && MayTrack(s)
    requires !s.queue.running.Attempt? && !s.queue.running.LettingPortsGo? && !s.queue.running.Reapplying?
    ensures StallInv(OnResume(s, outcome, localRulesChanged))
  {
    WorkMoves(s, OnResume(s, outcome, localRulesChanged));
  }

  lemma ResumeNeverStalls(s: State, outcome: Outcome, localRulesChanged: bool)
    requires PortsInv(s) && StallInv(s) && WantInv(s)
    ensures StallInv(OnResume(s, outcome, localRulesChanged))
  {
    match s.queue.running
    case Attempt(plan, at) =>
      if at.Starting? || at.Applying? {
        StartedNeverStalls(s, plan, at, outcome);
      } else if at.EndingSuperseded? || at.EndingFailed? || at.OccupyingAgain? {
        LastPointNeverStalls(s, plan, at, outcome);
      } else {
        EarlyPointNeverStalls(s, plan, at, outcome);
      }
    case LettingPortsGo(next) => PortsFreeNeverStalls(s, next);
    case Reapplying(_) =>
      RulesNeverStall(s, localRulesChanged);
      var next := RestartForRules(s, localRulesChanged).1;
      WorkMoves(next, Settle(next));
    case _ => OtherResumeNeverStalls(s, outcome, localRulesChanged);
  }

  lemma StepNeverStalls(s: State, e: Event)
    requires PortsInv(s) && StallInv(s) && WantInv(s)
    ensures StallInv(Step(s, e))
  {
    match e
    case UserConnect => StartNeverStalls(s, false);
    case ProcessFails(process, gen, closed) => ProcessFailsNeverStalls(s, process, gen, closed);
    case ReconnectTimerFires => TimerNeverStalls(s);
    case Wake => TimerNeverStalls(s);
    case BeginNext(localRulesChanged) => BeginNeverStalls(s, localRulesChanged);
    case Resume(outcome, localRulesChanged) => ResumeNeverStalls(s, outcome, localRulesChanged);
    case UserDisconnect => EndNeverStalls(s, e);
    case BeginDisconnect => EndNeverStalls(s, e);
    case ClearError => EndNeverStalls(s, e);
    case Dispose => EndNeverStalls(s, e);
    case _ => OtherEventNeverStalls(s, e);
  }

  lemma {:induction false} RunNeverStalls(s: State, turns: seq<Event>)
    requires HeldInv(s) && StallInv(s)
    ensures HeldInv(Run(s, turns)) && StallInv(Run(s, turns))
    decreases |turns|
  {
    if turns != [] {
      StepKeepsPorts(s, turns[0]);
      StepKeepsHold(s, turns[0]);
      StepKeepsCover(s, turns[0]);
      StepNeverStalls(s, turns[0]);
      RunNeverStalls(Step(s, turns[0]), turns[1..]);
    }
  }

  /** In every run, while a session is wanted there is a child of its lifecycle, a timer that will start an attempt or work
      on one; or it ended in Error. */
  lemma NeverStalls(turns: seq<Event>)
    ensures var s := Run(INITIAL, turns); Wanted(s.life) ==> Alive(s) || s.phase == Error
  {
    RunNeverStalls(INITIAL, turns);
  }
}
