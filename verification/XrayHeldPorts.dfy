/**
 Who answers for an Xray child, and who has the held inbound ports.

 `PortsInv` is kept by every turn: each live child is tracked or about to be
 ended, a clean-up waits only while nothing is tracked, and the bridge has the
 ports only while no child is alive.
 */
module XrayHeldPorts {
  import opened Prelude
  import opened XraySupervisor

  function Single(process: Option<nat>): set<nat> { if process.Some? then {process.value} else {} }

  // ----- Who answers for an Xray child -----

  /** The child a stopRouting's continuation will end. */
  function NextEnds(next: Next): set<nat> {
    match next
    case EndFailed(_, acquired, _) => Single(acquired)
    case EndSuperseded(_, process) => {process}
    case EndFailure(_, process) => {process}
    case EndSession(_, captured) => Single(captured)
    case _ => {}
  }

  function PointEnds(at: ConnectPoint): set<nat> {
    match at
    case StoppingProcess(previous) => Single(previous)
    case Starting(process, _) => {process}
    case Applying(process, _) => {process}
    case EndingSuperseded(process) => {process}
    case EndingFailed(acquired, _) => Single(acquired)
    case _ => {}
  }

  function Ends(running: Activity): set<nat> {
    match running
    case Stopping(next) => NextEnds(next)
    case LettingPortsGo(next) => NextEnds(next)
    case Attempt(_, at) => PointEnds(at)
    case EndingFailure(_, process) => {process}
    case EndingSession(_, captured) => Single(captured)
    case _ => {}
  }

  /** Every live child is the tracked one, one the running operation ends, or one a queued clean-up ends. */
  ghost predicate Owned(s: State, process: nat) {
    || Has(s, process)
    || process in Ends(s.queue.running)
    || exists i :: 0 <= i < |s.queue.pending| && s.queue.pending[i].FailureOp? && s.queue.pending[i].process == process
  }

  // ----- Points where no child is tracked -----

  predicate NextMayTrack(next: Next) { next.Begin? || next.GiveUp? || next.Nothing? }

  /** Whether a child may be tracked while the operation is here. */
  predicate MayTrack(s: State) {
    s.process.Some? ==>
      match s.queue.running
      case Stopping(next) => NextMayTrack(next)
      case LettingPortsGo(next) => NextMayTrack(next)
      case Attempt(_, at) => (at.Starting? || at.Applying?) && at.process == s.process.value.id
      case Idle => true
      case Reapplying(_) => true
      case _ => false
  }

  predicate NextClear(next: Next) {
    next.LostPortsFirst? || next.LostPortsAgain? || next.EndFailure? || next.LostPortsAfterFailure?
  }

  /** Points at which no clean-up can be waiting: nothing could have failed since the operation began. */
  predicate Clear(running: Activity) {
    match running
    case Stopping(next) => NextClear(next)
    case LettingPortsGo(next) => NextClear(next)
    case Attempt(_, at) =>
      at.StoppingProcess? || at.OccupyingFirst? || at.CheckingRuntime? || at.ReleasingPorts? || at.ReservingPorts? || at.OccupyingAgain?
    case EndingFailure(_, _) => true
    case OccupyingAfterFailure(_) => true
    case _ => false
  }

  predicate NoFailureQueued(pending: seq<Op>) { forall op :: op in pending ==> !op.FailureOp? }

  // ----- The order of the queue -----

  predicate PlanBefore(plan: Plan, gen: nat) { plan.gen < gen }

  predicate NextBefore(next: Next, gen: nat) {
    match next
    case Begin(plan) => plan.gen < gen
    case LostPortsFirst(plan) => plan.gen < gen
    case LostPortsAgain(plan) => plan.gen < gen
    case EndFailed(plan, _, _) => plan.gen < gen
    case EndSuperseded(plan, _) => plan.gen < gen
    case GiveUp(plan) => plan.gen < gen
    case _ => true
  }

  predicate RunningBefore(running: Activity, gen: nat) {
    match running
    case Stopping(next) => NextBefore(next, gen)
    case LettingPortsGo(next) => NextBefore(next, gen)
    case Attempt(plan, _) => plan.gen < gen
    case _ => true
  }

  /** An attempt queued before a clean-up is of an earlier lifecycle, and no two clean-ups wait at once. */
  predicate Before(op: Op, gen: nat) {
    match op
    case ConnectOp(earlier, _) => earlier < gen
    case FailureOp(_, _) => false
    case _ => true
  }

  predicate OpKnown(op: Op, generation: nat) { (op.ConnectOp? || op.FailureOp?) ==> op.gen <= generation }

  ghost predicate OrderInv(s: State) {
    && RunningBefore(s.queue.running, s.life.generation + 1)
    && (forall op :: op in s.queue.pending ==> OpKnown(op, s.life.generation))
    && (forall op :: op in s.queue.pending && op.FailureOp? ==> RunningBefore(s.queue.running, op.gen))
    && (forall i, j :: 0 <= i < j < |s.queue.pending| && s.queue.pending[j].FailureOp? ==>
          Before(s.queue.pending[i], s.queue.pending[j].gen))
  }

  ghost predicate ChildInv(s: State) {
    && (forall process :: process in s.world.alive ==> Owned(s, process))
    && MayTrack(s)
    && (!NoFailureQueued(s.queue.pending) ==> s.process.None? && !Clear(s.queue.running))
  }

  predicate Releasing(running: Activity) { running.LettingPortsGo? || (running.Attempt? && running.at.ReleasingPorts?) }

  /** The bridge and a child never have the ports at once, and bound ports are ports the bridge knows it has. */
  predicate ExclusiveInv(s: State) {
    && (s.world.bound != {} ==> s.world.alive == {})
    && s.hold.ports <= s.world.bound
    && (s.world.bound != {} ==> s.hold.ports == s.world.bound || Releasing(s.queue.running))
    && (s.world.bound != {} ==> !(s.queue.running.Attempt? && s.queue.running.at.ReservingPorts?))
    && (Releasing(s.queue.running) ==> s.hold.ports == {})
    && HandleInv(s)
  }

  /** The handle is on the very ports the hold is about, and is taken only with no child tracked. */
  predicate HandleInv(s: State) {
    s.hold.ports != {} ==> s.process.None? && (s.hold.held ==> s.hold.ports == s.hold.endpoints)
  }

  ghost predicate PortsInv(s: State) { OrderInv(s) && ChildInv(s) && ExclusiveInv(s) }

  // ----- Turns outside the queue -----

  /** Queueing anything but a clean-up. */
  lemma EnqueueKeepsPorts(s: State, op: Op)
    requires PortsInv(s) && !op.FailureOp? && OpKnown(op, s.life.generation)
    ensures PortsInv(Enqueue(s, op))
  {
    var s' := Enqueue(s, op);
    forall process | process in s'.world.alive ensures Owned(s', process) { KeepOwned(s, s', process); }
  }

  lemma KeepOwned(s: State, s': State, process: nat)
    requires Owned(s, process)
    requires s'.process == s.process && Ends(s'.queue.running) == Ends(s.queue.running)
    requires s.queue.pending <= s'.queue.pending
    ensures Owned(s', process)
  {
    if !Has(s, process) && process !in Ends(s.queue.running) {
      var i :| 0 <= i < |s.queue.pending| && s.queue.pending[i].FailureOp? && s.queue.pending[i].process == process;
      assert s'.queue.pending[i] == s.queue.pending[i];
    }
  }

  /** A turn that changes neither the children, the queue nor the ports, begins no hold over a handle, and only moves
      the lifecycle on. */
  lemma PortsFrame(s: State, s': State)
    requires PortsInv(s)
    requires s'.process == s.process && s'.queue == s.queue && s'.world == s.world && s'.hold.ports == s.hold.ports
    requires s.process.Some? || (s'.hold.held ==> s.hold.held && s'.hold.endpoints == s.hold.endpoints)
    requires s.life.generation <= s'.life.generation
    ensures PortsInv(s')
  {
    forall process | process in s'.world.alive ensures Owned(s', process) { KeepOwned(s, s', process); }
  }

  lemma ProcessFailsKeepsPorts(s: State, process: nat, gen: nat, closed: bool)
    requires PortsInv(s)
    ensures PortsInv(OnProcessFails(s, process, gen, closed))
  {
    var s' := OnProcessFails(s, process, gen, closed);
    if s' != s {
      forall other | other in s'.world.alive ensures Owned(s', other) {
        assert Owned(s, other);
        assert s'.queue.pending[|s.queue.pending|] == FailureOp(s.life.generation + 1, process);
      }
      assert NoFailureQueued(s.queue.pending);
      forall i | 0 <= i < |s.queue.pending| ensures Before(s.queue.pending[i], s.life.generation + 1) {
        assert s.queue.pending[i] in s.queue.pending;
      }
    }
  }

  // ----- Turns of the queue -----

  ghost predicate Tracks(s: State, process: nat) { Has(s, process) || process in Ends(s.queue.running) }

  /** The running operation moves on, and the children it drops are dead or still answered for. */
  lemma MoveOn(s: State, s': State)
    requires PortsInv(s)
    requires s'.queue.pending == s.queue.pending && s.life.generation <= s'.life.generation
    requires s'.world.alive <= s.world.alive
    requires forall process :: process in s'.world.alive && Tracks(s, process) ==> Tracks(s', process)
    requires forall gen :: RunningBefore(s.queue.running, gen) ==> RunningBefore(s'.queue.running, gen)
    requires MayTrack(s') && (!NoFailureQueued(s.queue.pending) ==> s'.process.None? && !Clear(s'.queue.running))
    requires ExclusiveInv(s')
    ensures PortsInv(s')
  {
    forall process | process in s'.world.alive ensures Owned(s', process) {
      assert Owned(s, process);
      if !Tracks(s', process) {
        assert !Tracks(s, process);
        var i :| 0 <= i < |s.queue.pending| && s.queue.pending[i].FailureOp? && s.queue.pending[i].process == process;
        assert s'.queue.pending[i] == s.queue.pending[i];
      }
    }
  }

  /** A live attempt has no clean-up waiting behind it. */
  lemma LiveMeansNoFailure(s: State)
    requires OrderInv(s) && !RunningBefore(s.queue.running, s.life.generation)
    ensures NoFailureQueued(s.queue.pending)
  {
    forall op | op in s.queue.pending ensures !op.FailureOp? {
      assert OpKnown(op, s.life.generation);
    }
  }

  lemma NothingAlive(s: State)
    requires ChildInv(s) && s.process.None? && NoFailureQueued(s.queue.pending) && Ends(s.queue.running) == {}
    ensures s.world.alive == {}
  {
    assert forall i :: 0 <= i < |s.queue.pending| ==> s.queue.pending[i] in s.queue.pending;
    assert forall process :: process in s.world.alive ==> Owned(s, process);
  }

  lemma SettleKeepsPorts(s: State)
    requires PortsInv(s) && Ends(s.queue.running) == {} && !Releasing(s.queue.running)
    ensures PortsInv(Settle(s))
  {
    MoveOn(s, Settle(s));
  }

  lemma StopRoutingKeepsPorts(s: State, next: Next)
    requires PortsInv(s) && !Releasing(s.queue.running)
    requires Ends(s.queue.running) <= NextEnds(next)
    requires forall gen :: RunningBefore(s.queue.running, gen) ==> NextBefore(next, gen)
    requires s.process.None? || NextMayTrack(next)
    requires NoFailureQueued(s.queue.pending) || !NextClear(next)
    ensures PortsInv(StopRouting(s, next))
  {
    MoveOn(s, StopRouting(s, next));
  }

  lemma TakeHeadKeepsPorts(s: State)
    requires PortsInv(s) && s.queue.running.Idle? && s.queue.pending != [] && !s.queue.pending[0].FailureOp?
    ensures PortsInv(TakeHead(s))
  {
    var s', pending := TakeHead(s), s.queue.pending;
    assert forall op :: op in pending[1..] ==> op in pending;
    assert pending[0] in pending;
    forall process | process in s'.world.alive ensures Owned(s', process) {
      assert Owned(s, process);
      if !Has(s, process) {
        var i :| 0 <= i < |pending| && pending[i].FailureOp? && pending[i].process == process;
        assert s'.queue.pending[i - 1] == pending[i];
      }
    }
  }

  /** Taking a clean-up off the queue hands its child to the running operation. */
  lemma TakeFailureKeepsPorts(s: State)
    requires PortsInv(s) && s.queue.running.Idle? && s.queue.pending != [] && s.queue.pending[0].FailureOp?
    ensures PortsInv(Await(TakeHead(s), EndingFailure(s.queue.pending[0].gen, s.queue.pending[0].process)))
  {
    var pending := s.queue.pending;
    var s' := Await(TakeHead(s), EndingFailure(pending[0].gen, pending[0].process));
    assert forall op :: op in pending[1..] ==> op in pending;
    assert pending[0] in pending && s.process.None?;
    forall op | op in s'.queue.pending ensures !op.FailureOp? {
      var j :| 0 <= j < |pending[1..]| && pending[1..][j] == op;
      assert op.FailureOp? ==> pending[j + 1] == op && Before(pending[0], op.gen);
    }
    assert forall i :: 1 <= i < |pending| ==> pending[i] == pending[1..][i - 1] && pending[i] in s'.queue.pending;
    forall process | process in s'.world.alive ensures Owned(s', process) {
      assert Owned(s, process);
      var i :| 0 <= i < |pending| && pending[i].FailureOp? && pending[i].process == process;
    }
  }

  lemma EndPreviousKeepsPorts(s: State, plan: Plan)
    requires PortsInv(s)
    requires s.queue.running == LettingPortsGo(Begin(plan)) && s.world.bound == {}
    ensures PortsInv(EndPrevious(s, plan))
  {
    if IsCurrent(s, plan.gen) { LiveMeansNoFailure(s); }
    MoveOn(s, EndPrevious(s, plan));
  }

  /** The head of the queue starts; a live attempt is put at a point that stands for its start. */
  lemma BeginAttemptKeepsPorts(s: State, plan: Plan)
    requires s.queue.running.Idle? && s.queue.pending != [] && s.queue.pending[0] == ConnectOp(plan.gen, plan.restart)
    requires PortsInv(s)
    ensures PortsInv(BeginAttempt(TakeHead(s), plan))
  {
    var t := TakeHead(s);
    TakeHeadKeepsPorts(s);
    var pending := s.queue.pending;
    assert pending[0] in pending;
    forall op | op in t.queue.pending && op.FailureOp? ensures plan.gen < op.gen {
      var j :| 0 <= j < |pending[1..]| && pending[1..][j] == op;
      assert pending[j + 1] == op && Before(pending[0], op.gen);
    }
    if IsCurrent(t, plan.gen) {
      forall op | op in t.queue.pending ensures !op.FailureOp? { assert op in pending && OpKnown(op, s.life.generation); }
      StartKeepsPorts(t, plan);
    } else {
      assert Settle(t) == t;
    }
  }

  lemma StartKeepsPorts(s: State, plan: Plan)
    requires PortsInv(s) && s.queue.running.Idle? && IsCurrent(s, plan.gen) && NoFailureQueued(s.queue.pending)
    ensures PortsInv(BeginAttempt(s, plan))
  {
    var s' := BeginAttempt(s, plan);
    forall process | process in s'.world.alive ensures Owned(s', process) {
      assert Owned(s, process);
      assert forall i :: 0 <= i < |s.queue.pending| ==> s.queue.pending[i] in s.queue.pending;
    }
  }

  lemma BeginFailureKeepsPorts(s: State)
    requires PortsInv(s) && s.queue.running.Idle? && s.queue.pending != [] && s.queue.pending[0].FailureOp?
    ensures PortsInv(BeginOp(TakeHead(s), s.queue.pending[0], false))
  {
    var gen, process := s.queue.pending[0].gen, s.queue.pending[0].process;
    TakeFailureKeepsPorts(s);
    var t := Await(TakeHead(s), EndingFailure(gen, process));
    if !s.hold.held { StopRoutingKeepsPorts(t, EndFailure(gen, process)); }
  }

  lemma BeginDisconnectOpKeepsPorts(s: State, gen: nat)
    requires PortsInv(s) && s.queue.running.Idle?
    ensures PortsInv(BeginDisconnectOp(s, gen))
  {
    assert IsCurrent(s, gen) || Settle(s) == s;
    if IsCurrent(s, gen) { MoveOn(s, BeginDisconnectOp(s, gen)); }
  }

  lemma RestartKeepsPorts(s: State)
    requires PortsInv(s)
    ensures PortsInv(Restart(s))
  {
    if Restart(s) != s {
      var t := s.(life := s.life.(generation := s.life.generation + 1, disconnectRequested := false));
      PortsFrame(s, t);
      EnqueueKeepsPorts(t, ConnectOp(t.life.generation, true));
      PortsFrame(Enqueue(t, ConnectOp(t.life.generation, true)), Restart(s));
    }
  }

  lemma RestartForRulesKeepsPorts(s: State, localRulesChanged: bool)
    requires PortsInv(s)
    ensures PortsInv(RestartForRules(s, localRulesChanged).1)
  {
    if RestartForRules(s, localRulesChanged).0 {
      var pointed := if s.hold.held then s else s.(hold := s.hold.(endpoints := s.inbounds));
      PortsFrame(s, HoldRouting(pointed));
      RestartKeepsPorts(HoldRouting(pointed));
    }
  }

  lemma BeginOtherKeepsPorts(s: State, op: Op, localRulesChanged: bool)
    requires PortsInv(s) && s.queue.running.Idle? && !op.ConnectOp? && !op.FailureOp?
    ensures PortsInv(BeginOp(s, op, localRulesChanged))
  {
    match op
    case DisconnectOp(gen) => BeginDisconnectOpKeepsPorts(s, gen);
    case ClearErrorOp(gen) => StopNothingKeepsPorts(s);
    case HoldStopOp(holdGen) => StopNothingKeepsPorts(s);
    case UpdateOp(gen, routingGen) => BeginUpdateKeepsPorts(s, gen, routingGen, localRulesChanged);
    case TunStopOp(gen) =>
      StopNothingKeepsPorts(s);
      MoveOn(s, Await(s, Reapplying(s.inbounds)));
  }

  lemma StopNothingKeepsPorts(s: State)
    requires PortsInv(s) && s.queue.running.Idle?
    ensures PortsInv(StopRouting(s, Nothing)) && PortsInv(Settle(s))
  {
    StopRoutingKeepsPorts(s, Nothing);
    SettleKeepsPorts(s);
  }

  lemma BeginUpdateKeepsPorts(s: State, gen: nat, routingGen: nat, localRulesChanged: bool)
    requires PortsInv(s) && s.queue.running.Idle?
    ensures PortsInv(BeginUpdate(s, gen, routingGen, localRulesChanged))
  {
    RestartForRulesKeepsPorts(s, localRulesChanged);
    var next := RestartForRules(s, localRulesChanged).1;
    assert Settle(next) == next && Settle(s) == s;
    MoveOn(s, Await(s, Reapplying(s.inbounds)));
  }

  lemma BeginNextKeepsPorts(s: State, localRulesChanged: bool)
    requires PortsInv(s)
    ensures PortsInv(OnBeginNext(s, localRulesChanged))
  {
    if s.queue.running.Idle? && s.queue.pending != [] {
      var op := s.queue.pending[0];
      if op.ConnectOp? {
        BeginAttemptKeepsPorts(s, Plan(op.gen, op.restart));
      } else if op.FailureOp? {
        BeginFailureKeepsPorts(s);
      } else {
        TakeHeadKeepsPorts(s);
        BeginOtherKeepsPorts(TakeHead(s), op, localRulesChanged);
      }
    }
  }

  // ----- Awaits of the running operation -----

  /** A ScheduleReconnect touches nothing the ports depend on. */
  lemma ScheduleKeepsPorts(s: State, gen: nat)
    requires PortsInv(s)
    ensures PortsInv(ScheduleReconnect(s, gen))
  {
    PortsFrame(s, ScheduleReconnect(s, gen));
  }

  lemma SettleScheduledKeepsPorts(s: State, gen: nat)
    requires PortsInv(s) && Ends(s.queue.running) == {} && !Releasing(s.queue.running)
    ensures PortsInv(Settle(ScheduleReconnect(s, gen)))
  {
    ScheduleKeepsPorts(s, gen);
    SettleKeepsPorts(ScheduleReconnect(s, gen));
  }

  lemma PortsFreeKeepsPorts(s: State, next: Next)
    requires PortsInv(s) && s.queue.running == LettingPortsGo(next)
    ensures PortsInv(PortsFree(s, next))
  {
    var t := s.(inbounds := {}, world := s.world.(bound := {}));
    MoveOn(s, t);
    match next
    case Begin(plan) => EndPreviousKeepsPorts(t, plan);
    case LostPortsAgain(plan) => RetryWithoutPorts(t, plan.gen);
    case LostPortsAfterFailure(gen) => RetryWithoutPorts(t, gen);
    case _ => MoveOn(t, Continue(t, next));
  }

  lemma RetryWithoutPorts(s: State, gen: nat)
    requires PortsInv(s) && s.queue.running.LettingPortsGo? && Ends(s.queue.running) == {} && s.world.bound == {}
    ensures PortsInv(Settle(s)) && PortsInv(Settle(ScheduleReconnect(s, gen)))
  {
    MoveOn(s, Settle(s));
    ScheduleKeepsPorts(Settle(s), gen);
    assert Settle(ScheduleReconnect(s, gen)) == ScheduleReconnect(Settle(s), gen);
  }

  /** The bridge binds the ports where nothing is tracked and no clean-up waits, so no child is alive. */
  lemma PortsTakenKeepsPorts(s: State)
    requires PortsInv(s)
    requires s.queue.running.OccupyingAfterFailure?
             || (s.queue.running.Attempt? && (s.queue.running.at.OccupyingFirst? || s.queue.running.at.OccupyingAgain?))
    ensures PortsInv(PortsTaken(s))
  {
    NothingAlive(s);
    MoveOn(s, PortsTaken(s));
  }

  lemma StoppedKeepsPorts(s: State, plan: Plan, previous: Option<nat>)
    requires PortsInv(s) && s.queue.running == Attempt(plan, StoppingProcess(previous))
    ensures PortsInv(PreviousEnded(Terminated(s, previous), plan))
  {
    MoveOn(s, PreviousEnded(Terminated(s, previous), plan));
  }

  lemma OccupyingKeepsPorts(s: State, plan: Plan, outcome: Outcome)
    requires PortsInv(s) && s.queue.running == Attempt(plan, OccupyingFirst)
    ensures PortsInv(ResumeAttempt(s, plan, OccupyingFirst, outcome))
  {
    if outcome.Failed? {
      StopRoutingKeepsPorts(s, LostPortsFirst(plan));
    } else {
      PortsTakenKeepsPorts(s);
      MoveOn(PortsTaken(s), GoOnAfterOccupying(PortsTaken(s), plan));
    }
  }

  lemma CleanUpKeepsPorts(s: State, plan: Plan, process: Option<nat>, next: Next, after: Activity)
    requires PortsInv(s) && s.queue.running.Attempt? && s.queue.running.plan == plan && !Releasing(s.queue.running)
    requires MayTrack(s) && PointEnds(s.queue.running.at) == Single(process)
    requires after.Attempt? && after.plan == plan && (after.at.EndingFailed? || after.at.EndingSuperseded?)
    requires (next.EndFailed? || next.EndSuperseded?) && next.plan == plan
    requires PointEnds(after.at) == Single(process) == NextEnds(next)
    ensures PortsInv(CleanUp(s, process, next, after))
  {
    MoveOn(s, CleanUp(s, process, next, after));
  }

  lemma SupersededKeepsPorts(s: State, plan: Plan, process: nat, ports: set<nat>)
    requires PortsInv(s)
    requires s.queue.running == Attempt(plan, Starting(process, ports)) || s.queue.running == Attempt(plan, Applying(process, ports))
    ensures PortsInv(Superseded(s, plan, process))
  {
    CleanUpKeepsPorts(s, plan, Some(process), EndSuperseded(plan, process), Attempt(plan, EndingSuperseded(process)));
  }

  lemma AttemptFailedKeepsPorts(s: State, plan: Plan, acquired: Option<nat>, blocked: bool)
    requires PortsInv(s) && s.queue.running.Attempt? && s.queue.running.plan == plan && !Releasing(s.queue.running)
    requires PointEnds(s.queue.running.at) == Single(acquired)
    ensures PortsInv(AttemptFailed(s, plan, acquired, blocked))
  {
    CleanUpKeepsPorts(s, plan, acquired, EndFailed(plan, acquired, blocked), Attempt(plan, EndingFailed(acquired, blocked)));
  }

  lemma CheckedKeepsPorts(s: State, plan: Plan, outcome: Outcome)
    requires PortsInv(s) && s.queue.running == Attempt(plan, CheckingRuntime)
    ensures PortsInv(ResumeAttempt(s, plan, CheckingRuntime, outcome))
  {
    if outcome.Failed? {
      AttemptFailedKeepsPorts(s, plan, None, outcome.blocked);
    } else {
      MoveOn(s, ResumeAttempt(s, plan, CheckingRuntime, outcome));
    }
  }

  lemma SpawnKeepsPorts(s: State, plan: Plan, process: nat, ports: set<nat>)
    requires PortsInv(s) && s.queue.running == Attempt(plan, ReservingPorts)
    ensures PortsInv(Spawn(s, plan, process, ports))
  {
    NothingAlive(s);
    var s' := Spawn(s, plan, process, ports);
    assert s'.world.alive == {process};
    forall other | other in s'.world.alive ensures Owned(s', other) {}
  }

  lemma ReservedKeepsPorts(s: State, plan: Plan, outcome: Outcome)
    requires PortsInv(s) && s.queue.running == Attempt(plan, ReservingPorts)
    ensures PortsInv(ResumeAttempt(s, plan, ReservingPorts, outcome))
  {
    match outcome
    case Failed(blocked) => AttemptFailedKeepsPorts(s, plan, None, blocked);
    case Spawned(process, socks, http) =>
      SettleKeepsPorts(s);
      SpawnKeepsPorts(s, plan, process, {socks, http});
    case Done =>
  }

  lemma StartedKeepsPorts(s: State, plan: Plan, process: nat, ports: set<nat>, outcome: Outcome)
    requires PortsInv(s) && s.queue.running == Attempt(plan, Starting(process, ports))
    ensures PortsInv(ResumeAttempt(s, plan, Starting(process, ports), outcome))
  {
    var ready := s.(starting := if s.starting == Some(process) then None else s.starting);
    PortsFrame(s, ready);
    if outcome.Failed? {
      AttemptFailedKeepsPorts(ready, plan, Some(process), false);
    } else if !IsCurrent(ready, plan.gen) || !Has(ready, process) {
      SupersededKeepsPorts(ready, plan, process, ports);
    } else {
      MoveOn(ready, Started(ready, plan, process, ports));
    }
  }

  lemma AppliedKeepsPorts(s: State, plan: Plan, process: nat, ports: set<nat>, outcome: Outcome)
    requires PortsInv(s) && s.queue.running == Attempt(plan, Applying(process, ports))
    ensures PortsInv(ResumeAttempt(s, plan, Applying(process, ports), outcome))
  {
    if outcome.Failed? {
      AttemptFailedKeepsPorts(s, plan, Some(process), false);
    } else if !IsCurrent(s, plan.gen) || !Has(s, process) {
      SupersededKeepsPorts(s, plan, process, ports);
    } else {
      MoveOn(s, Applied(s, plan, process));
    }
  }

  lemma ConcludeKeepsPorts(s: State, plan: Plan, acquired: Option<nat>, blocked: bool)
    requires PortsInv(s) && s.queue.running == Attempt(plan, EndingFailed(acquired, blocked))
    ensures PortsInv(ConcludeFailure(Terminated(s, acquired), plan, blocked))
  {
    var t := Await(Terminated(s, acquired), Attempt(plan, EndingFailed(None, blocked)));
    MoveOn(s, t);
    ConcludedKeepsPorts(t, plan, blocked);
    assert ConcludeFailure(Terminated(s, acquired), plan, blocked) == ConcludeFailure(t, plan, blocked);
  }

  lemma ConcludedKeepsPorts(s: State, plan: Plan, blocked: bool)
    requires PortsInv(s) && s.queue.running == Attempt(plan, EndingFailed(None, blocked))
    ensures PortsInv(ConcludeFailure(s, plan, blocked))
  {
    SettleKeepsPorts(s);
    if IsCurrent(s, plan.gen) {
      LiveMeansNoFailure(s);
      MoveOn(s, Await(s, Attempt(plan, OccupyingAgain)));
      SettleScheduledKeepsPorts(s, plan.gen);
      StopRoutingKeepsPorts(s, GiveUp(plan));
      PortsFrame(Settle(s), Settle(s.(phase := Error)));
    }
  }

  lemma OccupiedAgainKeepsPorts(s: State, plan: Plan, outcome: Outcome)
    requires PortsInv(s) && s.queue.running == Attempt(plan, OccupyingAgain)
    ensures PortsInv(ResumeAttempt(s, plan, OccupyingAgain, outcome))
  {
    if outcome.Failed? {
      StopRoutingKeepsPorts(s, LostPortsAgain(plan));
    } else {
      PortsTakenKeepsPorts(s);
      SettleScheduledKeepsPorts(PortsTaken(s), plan.gen);
    }
  }

  lemma ResumeAttemptKeepsPorts(s: State, plan: Plan, at: ConnectPoint, outcome: Outcome)
    requires PortsInv(s) && s.queue.running == Attempt(plan, at)
    ensures PortsInv(ResumeAttempt(s, plan, at, outcome))
  {
    match at
    case StoppingProcess(previous) => StoppedKeepsPorts(s, plan, previous);
    case OccupyingFirst => OccupyingKeepsPorts(s, plan, outcome);
    case CheckingRuntime => CheckedKeepsPorts(s, plan, outcome);
    case ReleasingPorts => MoveOn(s, ResumeAttempt(s, plan, at, outcome));
    case ReservingPorts => ReservedKeepsPorts(s, plan, outcome);
    case Starting(process, ports) => StartedKeepsPorts(s, plan, process, ports, outcome);
    case Applying(process, ports) => AppliedKeepsPorts(s, plan, process, ports, outcome);
    case EndingSuperseded(process) => MoveOn(s, ResumeAttempt(s, plan, at, outcome));
    case EndingFailed(acquired, blocked) => ConcludeKeepsPorts(s, plan, acquired, blocked);
    case OccupyingAgain => OccupiedAgainKeepsPorts(s, plan, outcome);
  }

  lemma FailureEndedKeepsPorts(s: State, gen: nat, process: nat)
    requires PortsInv(s) && s.queue.running == EndingFailure(gen, process)
    ensures PortsInv(FailureEnded(s, gen, process))
  {
    var ended := Terminated(s, Some(process));
    var t := Await(ended, OccupyingAfterFailure(gen));
    MoveOn(s, t);
    FinishFailureKeepsPorts(t, gen);
    assert FinishFailure(ended, gen) == FinishFailure(t, gen);
  }

  lemma FinishFailureKeepsPorts(s: State, gen: nat)
    requires PortsInv(s) && s.queue.running == OccupyingAfterFailure(gen)
    ensures PortsInv(FinishFailure(s, gen))
  {
    SettleKeepsPorts(s);
    SettleScheduledKeepsPorts(s, gen);
  }

  lemma FinishSessionKeepsPorts(s: State, gen: nat, captured: Option<nat>)
    requires PortsInv(s) && s.queue.running == EndingSession(gen, captured)
    ensures PortsInv(FinishSession(s, gen, captured))
  {
    MoveOn(s, FinishSession(s, gen, captured));
  }

  lemma ResumeKeepsPorts(s: State, outcome: Outcome, localRulesChanged: bool)
    requires PortsInv(s)
    ensures PortsInv(OnResume(s, outcome, localRulesChanged))
  {
    match s.queue.running
    case Idle =>
    case Stopping(next) => MoveOn(s, OnResume(s, outcome, localRulesChanged));
    case LettingPortsGo(next) => PortsFreeKeepsPorts(s, next);
    case Attempt(plan, at) => ResumeAttemptKeepsPorts(s, plan, at, outcome);
    case EndingFailure(gen, process) => FailureEndedKeepsPorts(s, gen, process);
    case OccupyingAfterFailure(gen) =>
      if outcome.Failed? {
        StopRoutingKeepsPorts(s, LostPortsAfterFailure(gen));
      } else {
        PortsTakenKeepsPorts(s);
        FinishFailureKeepsPorts(PortsTaken(s), gen);
      }
    case EndingSession(gen, captured) => FinishSessionKeepsPorts(s, gen, captured);
    case Reapplying(_) => ReappliedKeepsPorts(s, localRulesChanged);
  }

  lemma ReappliedKeepsPorts(s: State, localRulesChanged: bool)
    requires PortsInv(s) && s.queue.running.Reapplying?
    ensures PortsInv(Settle(RestartForRules(s, localRulesChanged).1))
  {
    RestartForRulesKeepsPorts(s, localRulesChanged);
    SettleKeepsPorts(RestartForRules(s, localRulesChanged).1);
  }

  // ----- Every turn -----

  lemma CallKeepsPorts(s: State, e: Event)
    requires PortsInv(s) && (e.UserConnect? || e.UserDisconnect? || e.BeginDisconnect? || e.ClearError? || e.Dispose?)
    ensures PortsInv(Step(s, e))
  {
    var t := s.(life := s.life.(generation := s.life.generation + 1));
    PortsFrame(s, t);
    EnqueueKeepsPorts(t, ConnectOp(t.life.generation, false));
    EnqueueKeepsPorts(t, DisconnectOp(t.life.generation));
    EnqueueKeepsPorts(t, ClearErrorOp(t.life.generation));
    match e
    case UserConnect => if !s.life.disposed { PortsFrame(Enqueue(t, ConnectOp(t.life.generation, false)), OnUserConnect(s)); }
    case UserDisconnect => if !s.life.disposed { PortsFrame(Enqueue(t, DisconnectOp(t.life.generation)), OnUserDisconnect(s)); }
    case BeginDisconnect => PortsFrame(s, OnBeginDisconnect(s));
    case ClearError => ClearErrorKeepsPorts(s, t);
    case Dispose => if !s.life.disposed { PortsFrame(Enqueue(t, DisconnectOp(t.life.generation)), OnDispose(s)); }
  }

  lemma ClearErrorKeepsPorts(s: State, t: State)
    requires PortsInv(s) && t == s.(life := s.life.(generation := s.life.generation + 1))
    requires PortsInv(Enqueue(t, ClearErrorOp(t.life.generation)))
    ensures PortsInv(OnClearError(s))
  {
    if !s.life.disposed && s.phase == Error {
      if s.hold.held {
        PortsFrame(Enqueue(t, ClearErrorOp(t.life.generation)), OnClearError(s));
      } else {
        PortsFrame(s, OnClearError(s));
      }
    }
  }

  lemma ReconnectKeepsPorts(s: State)
    requires PortsInv(s)
    ensures PortsInv(OnReconnectTimer(s)) && PortsInv(OnWake(s))
  {
    PortsFrame(s, s.(reconnectTimer := None));
    RestartKeepsPorts(s.(reconnectTimer := None));
  }

  lemma HoldTimerKeepsPorts(s: State)
    requires PortsInv(s)
    ensures PortsInv(OnHoldTimer(s))
  {
    var fired := s.(hold := s.hold.(timer := None));
    PortsFrame(s, fired);
    EnqueueKeepsPorts(fired, HoldStopOp(if s.hold.timer.Some? then s.hold.timer.value else 0));
  }

  lemma TimersKeepPorts(s: State, e: Event)
    requires PortsInv(s) && (e.ReconnectTimerFires? || e.HoldTimerFires? || e.Wake? || e.RoutingUpdate? || e.TunStopped?)
    ensures PortsInv(Step(s, e))
  {
    match e
    case ReconnectTimerFires => ReconnectKeepsPorts(s);
    case HoldTimerFires => HoldTimerKeepsPorts(s);
    case Wake => ReconnectKeepsPorts(s);
    case RoutingUpdate =>
      var t := s.(routingGeneration := s.routingGeneration + 1);
      PortsFrame(s, t);
      EnqueueKeepsPorts(t, UpdateOp(s.life.generation, s.routingGeneration + 1));
    case TunStopped => EnqueueKeepsPorts(s, TunStopOp(s.life.generation));
  }

  lemma StepKeepsPorts(s: State, e: Event)
    requires PortsInv(s)
    ensures PortsInv(Step(s, e))
  {
    match e
    case ProcessFails(process, gen, closed) => ProcessFailsKeepsPorts(s, process, gen, closed);
    case ProcessExits(process) => MoveOn(s, OnProcessExits(s, process));
    case RoutingMoves(routed) => MoveOn(s, OnRoutingMoves(s, routed));
    case BeginNext(localRulesChanged) => BeginNextKeepsPorts(s, localRulesChanged);
    case Resume(outcome, localRulesChanged) => ResumeKeepsPorts(s, outcome, localRulesChanged);
    case ReconnectTimerFires => TimersKeepPorts(s, e);
    case HoldTimerFires => TimersKeepPorts(s, e);
    case Wake => TimersKeepPorts(s, e);
    case RoutingUpdate => TimersKeepPorts(s, e);
    case TunStopped => TimersKeepPorts(s, e);
    case _ => CallKeepsPorts(s, e);
  }
}
