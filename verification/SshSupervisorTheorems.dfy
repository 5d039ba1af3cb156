/** What holds over every run of the SSH supervisor. */
module SshSupervisorTheorems {
  import opened Prelude
  import opened SshSupervisor
  import opened SshSupervisorInvariant
  import opened SshSupervisorRouting

  ghost predicate SupervisorInv(s: State) { CoreInv(s) && HoldInv(s) && StopsFollowed(s) }

  lemma StepKeepsSupervisor(s: State, e: Event, env: Env)
    requires SupervisorInv(s)
    ensures SupervisorInv(Step(s, e, env))
  {
    StepKeepsCore(s, e, env);
    StepKeepsHold(s, e, env);
    StepKeepsStops(s, e, env);
  }

  lemma {:induction false} RunKeepsSupervisor(s: State, turns: seq<Turn>)
    requires SupervisorInv(s)
    ensures SupervisorInv(Run(s, turns))
    decreases |turns|
  {
    if turns != [] {
      StepKeepsSupervisor(s, turns[0].event, turns[0].env);
      RunKeepsSupervisor(Step(s, turns[0].event, turns[0].env), turns[1..]);
    }
  }

  lemma Reached(turns: seq<Turn>)
    ensures SupervisorInv(Run(INITIAL, turns))
  {
    RunKeepsSupervisor(INITIAL, turns);
  }

  // ----- No stall -----

  /** In every run, while a session is wanted there is one, or a timer or an operation that is bringing it. */
  lemma NeverStalls(turns: seq<Turn>)
    ensures var s := Run(INITIAL, turns);
            Wanted(s) ==>
              || (s.client.Some? && s.client.value.gen == s.life.generation)
              || (s.retry.timer.Some? && s.retry.timer.value.gen == s.life.generation)
              || RunningLive(s.queue.running, s.life.generation)
              || HasLive(s.queue.pending, s.life.generation)
  {
    Reached(turns);
  }

  /** The watchdog finds nothing to repair, and neither does a wake: the repair branch is dead code. */
  lemma WatchdogNeverRepairs(turns: seq<Turn>, env: Env)
    ensures var s := Run(INITIAL, turns);
            !LooksStalled(s) && OnWatchdog(s, env) == s
  {
    Reached(turns);
  }

  /** Connected always means a session of the current lifecycle and nothing else at work on it. */
  lemma ConnectedMeansSession(turns: seq<Turn>)
    ensures var s := Run(INITIAL, turns);
            s.phase == Connected ==> LiveClient(s) && !LiveWork(s) && s.retry.timer.None? && Wanted(s)
  {
    Reached(turns);
  }

  // ----- Stale work -----

  /** What an operation of a superseded lifecycle leaves alone: the status, the lifecycle and the retry. Of the session
      it can only let go of the one it acquired itself. */
  ghost predicate Inert(s: State, s': State) {
    && s'.phase == s.phase && s'.life == s.life && s'.retry == s.retry && s'.queue.pending == s.queue.pending
    && (s'.client == s.client ||
          (s'.client.None? && s.client.Some? && s'.queue.running.Attempt?
           && s'.queue.running.at.DroppingSession? && s'.queue.running.at.session == s.client.value.id))
  }

  lemma StaleAttemptIsInert(s: State, outcome: Outcome, tunUp: bool, env: Env)
    requires s.queue.running.Attempt? && s.queue.running.plan.gen != s.life.generation
    ensures Inert(s, OnResume(s, outcome, tunUp, env))
  {
    var plan := s.queue.running.plan;
    match s.queue.running.at
    case Dialling => if outcome.Failed? { StaleFailureSettles(CountRejection(s, outcome.failure), plan, outcome.failure, env); }
    case DroppingSession(session, failure) => StaleFailureSettles(Close(s, session), plan, failure, env);
    case ReleasingTun(failure) => StaleFailureSettles(s, plan, failure, env);
    case _ =>
  }

  lemma StaleFailureSettles(s: State, plan: Plan, failure: Failure, env: Env)
    requires plan.gen != s.life.generation
    ensures AfterDrop(s, plan, failure, env) == Settle(s) == ConcludeFailure(s, plan, failure, env)
  {
  }

  lemma StaleCleanupIsInert(s: State, outcome: Outcome, tunUp: bool, env: Env)
    requires s.queue.running.CleaningUp? && s.queue.running.gen != s.life.generation
    ensures Inert(s, OnResume(s, outcome, tunUp, env))
  {
  }

  /** A superseded operation that has not begun yet only leaves the queue. */
  lemma StaleOpOnlyLeaves(s: State, tunUp: bool, env: Env)
    requires Ready(s)
    requires s.queue.pending[0].ConnectOp? || s.queue.pending[0].DisconnectOp?
    requires s.queue.pending[0].gen != s.life.generation
    ensures OnBeginNext(s, tunUp, env) == Settle(TakeHead(s))
  {
  }

  // ----- Routing -----

  /** The turns at which `applySystemRouting` is entered for a session that failed while the adapter was rebuilt. */
  predicate NeverOvertaken(s: State, turns: seq<Turn>)
    decreases |turns|
  {
    turns != [] ==>
      !RebuildOvertaken(s, turns[0].event) && NeverOvertaken(Step(s, turns[0].event, turns[0].env), turns[1..])
  }

  lemma {:induction false} RunCovers(s: State, turns: seq<Turn>)
    requires SupervisorInv(s) && Covered(s) && NeverOvertaken(s, turns)
    ensures Covered(Run(s, turns))
    decreases |turns|
  {
    if turns != [] {
      StepCoversExactly(s, turns[0].event, turns[0].env);
      StepKeepsSupervisor(s, turns[0].event, turns[0].env);
      RunCovers(Step(s, turns[0].event, turns[0].env), turns[1..]);
    }
  }

  /** In every run without such a turn, routing with no session behind it has a deadline or an operation that takes it. */
  lemma RoutingNeverStranded(turns: seq<Turn>)
    requires NeverOvertaken(INITIAL, turns)
    ensures Covered(Run(INITIAL, turns))
  {
    RunCovers(INITIAL, turns);
  }

  /** Even an overtaken rebuild leaves a retry on its way, and only that. */
  lemma OvertakenRebuildStrands(s: State, e: Event, env: Env)
    requires SupervisorInv(s) && Covered(s)
    requires RebuildOvertaken(s, e)
    ensures var s' := Step(s, e, env);
            && s'.hold.applied && s'.client.None? && s'.hold.timer.None? && !s'.hold.stopQueued
            && !Covered(s') && Wanted(s') && HasLive(s'.queue.pending, s'.life.generation)
  {
    StepCoversExactly(s, e, env);
    var g := s.life.generation;
    var i :| 0 <= i < |s.queue.pending| && s.queue.pending[i].CleanupOp? && s.queue.pending[i].gen == g && s.queue.pending[i].retryable;
    assert IsLive(s.queue.pending[i], g);
  }

  // ----- The hold's deadline -----

  /** Once a hold has expired, no turn arms another before its stop has begun or the routing was settled otherwise. */
  lemma ExpiredHoldNotRearmed(s: State, e: Event, env: Env)
    requires HoldInv(s) && s.hold.stopQueued
    ensures Step(s, e, env).hold.timer.None?
  {
    match e
    case BeginNext(tunUp) => if Ready(s) && !s.queue.pending[0].HoldStopOp? { BeginOtherStep(s, tunUp, env); }
    case HoldTimerFires =>
    case Resume(outcome, tunUp) => ResumeQueueStep(s, outcome, tunUp, env);
    case _ => EventQueueStep(s, e, env);
  }

  lemma {:induction false} HoldGenerationGrows(s: State, turns: seq<Turn>)
    ensures Run(s, turns).hold.generation >= s.hold.generation
    decreases |turns|
  {
    if turns != [] {
      StepGrowsHold(s, turns[0].event, turns[0].env);
      HoldGenerationGrows(Step(s, turns[0].event, turns[0].env), turns[1..]);
    }
  }

  lemma StepGrowsHold(s: State, e: Event, env: Env)
    ensures Step(s, e, env).hold.generation >= s.hold.generation
  {
    match e
    case BeginNext(tunUp) => if Ready(s) && !s.queue.pending[0].HoldStopOp? { BeginOtherStep(s, tunUp, env); }
    case HoldTimerFires =>
    case Resume(outcome, tunUp) => ResumeQueueStep(s, outcome, tunUp, env);
    case _ => EventQueueStep(s, e, env);
  }

  /** Only an attempt that opened its listener or applied its routing reaches Connected, and it ends the hold. */
  lemma ConnectingEndsHold(s: State, e: Event, env: Env)
    requires s.phase != Connected && Step(s, e, env).phase == Connected
    ensures e.Resume? && s.queue.running.Attempt?
    ensures Step(s, e, env).hold == Hold(true, None, s.hold.generation + 1, false, false)
  {
    match e
    case Resume(outcome, tunUp) => ResumeConnects(s, outcome, tunUp, env);
    case _ =>
  }

  lemma ResumeConnects(s: State, outcome: Outcome, tunUp: bool, env: Env)
    requires s.phase != Connected && OnResume(s, outcome, tunUp, env).phase == Connected
    ensures s.queue.running.Attempt?
    ensures OnResume(s, outcome, tunUp, env).hold == Hold(true, None, s.hold.generation + 1, false, false)
  {
    if s.queue.running.Attempt? {
      var plan := s.queue.running.plan;
      match s.queue.running.at
      case Dialling => if outcome.Failed? { FailureIsNotConnected(CountRejection(s, outcome.failure), plan, outcome.failure, env); }
      case DroppingSession(session, failure) => FailureIsNotConnected(Close(s, session), plan, failure, env);
      case ReleasingTun(failure) => FailureIsNotConnected(s, plan, failure, env);
      case _ =>
    }
  }

  lemma FailureIsNotConnected(s: State, plan: Plan, failure: Failure, env: Env)
    requires s.phase != Connected
    ensures AfterDrop(s, plan, failure, env).phase != Connected
    ensures ConcludeFailure(s, plan, failure, env).phase != Connected
  {
  }

  /** A hold stop queued before a session came back never touches that session's routing, however long it waits. */
  lemma QueuedStopSparesRestoredSession(s: State, e: Event, env: Env, turns: seq<Turn>, holdGen: nat)
    requires HoldInv(s) && HoldStopOp(holdGen) in s.queue.pending
    requires s.phase != Connected && Step(s, e, env).phase == Connected
    ensures var later := Run(Step(s, e, env), turns);
            BeginHoldStop(later, holdGen) == Settle(later)
  {
    ConnectingEndsHold(s, e, env);
    HoldGenerationGrows(Step(s, e, env), turns);
    var i :| 0 <= i < |s.queue.pending| && s.queue.pending[i] == HoldStopOp(holdGen);
    assert s.queue.pending[i].holdGen <= s.hold.generation;
  }

  // ----- A run in which routing is stranded -----

  const CALM := Env(0, 0.0)

  lemma {:induction false} RunLast(s: State, turns: seq<Turn>, last: Turn)
    ensures Run(s, turns + [last]) == Step(Run(s, turns), last.event, last.env)
    decreases |turns|
  {
    if turns == [] {
      assert ([last])[1..] == [];
      assert turns + [last] == [last];
    } else {
      assert (turns + [last])[1..] == turns[1..] + [last];
      RunLast(Step(s, turns[0].event, turns[0].env), turns[1..], last);
    }
  }

  lemma Then(turns: seq<Turn>, e: Event) returns (longer: seq<Turn>)
    ensures Run(INITIAL, longer) == Step(Run(INITIAL, turns), e, CALM)
  {
    longer := turns + [Turn(e, CALM)];
    RunLast(INITIAL, turns, Turn(e, CALM));
  }

  const FIRST_SESSION := State(
    Connected, Some(Session(0, 1)), Lifecycle(1, true, false, false, false),
    Retry(None, 0, 0, 0, 0, false, 0, true, true), Hold(true, None, 2, false, false), true, 1,
    Parking({}, map[]), Queue(Idle, [], 0), World({0}, {}, 0))

  const SESSION_LOST := State(
    Reconnecting, None, Lifecycle(2, true, false, false, false),
    Retry(None, 0, 0, 0, 0, false, 0, true, true), Hold(true, Some(3), 3, false, false), true, 2,
    Parking({}, map[]), Queue(Idle, [CleanupOp(2, 0, true), UpdateOp(2, 2)], 2), World({0}, {}, 0))

  const RECONNECTING: State := State(
    Reconnecting, None, Lifecycle(3, true, false, false, false),
    Retry(None, 1, 1, 0, 0, false, 0, true, true), Hold(true, Some(3), 3, false, true), true, 3,
    Parking({}, map[]), Queue(Attempt(Plan(3, Automatic, true, false), Dialling), [], 1), World({0}, {0}, 0))

  const REBUILDING := RECONNECTING.(
    client := Some(Session(1, 3)),
    hold := Hold(false, None, 4, false, true),
    queue := Queue(Attempt(Plan(3, Automatic, true, false), RebuildingRouting(1)), [], 1),
    world := World({0, 1}, {0}, 0))

  const RETRY_ARMED := RULES_CHANGED.(
    hold := Hold(true, Some(3), 3, false, false),
    queue := Queue(Idle, [UpdateOp(2, 2)], 1))

  const RULES_CHANGED: State := State(
    Reconnecting, None, Lifecycle(2, true, false, false, false),
    Retry(Some(ReconnectTimer(2, 0, 1000)), 1, 1, 0, 0, false, 0, true, true), Hold(true, Some(3), 3, false, true), true, 2,
    Parking({}, map[]), Queue(Idle, [], 0), World({0}, {0}, 0))

  lemma ReachFirstSession() returns (turns: seq<Turn>)
    ensures Run(INITIAL, turns) == FIRST_SESSION
  {
    turns := Then([], UserConnect);
    turns := Then(turns, BeginNext(false));
    turns := Then(turns, Resume(Done, false));
    turns := Then(turns, Resume(Opened(0), false));
    turns := Then(turns, Resume(Done, false));
    turns := Then(turns, Resume(Done, false));
    assert Run(INITIAL, turns).parking == Parking({}, map[]);
  }

  /** The session drops, and the rules change before it is back. */
  lemma ReachSessionLost() returns (turns: seq<Turn>)
    ensures Run(INITIAL, turns) == SESSION_LOST
  {
    turns := ReachFirstSession();
    turns := Then(turns, ClientFailure(0, 1, true));
    turns := Then(turns, RoutingUpdate);
    assert Run(INITIAL, turns).queue.pending == [CleanupOp(2, 0, true), UpdateOp(2, 2)];
  }

  lemma ReachRetryArmed() returns (turns: seq<Turn>)
    ensures Run(INITIAL, turns) == RETRY_ARMED
  {
    turns := ReachSessionLost();
    turns := Then(turns, BeginNext(false));
    turns := Then(turns, Resume(Done, false));
    assert Run(INITIAL, turns).queue.pending == [UpdateOp(2, 2)];
  }

  lemma ReachRulesChanged() returns (turns: seq<Turn>)
    ensures Run(INITIAL, turns) == RULES_CHANGED
  {
    turns := ReachRetryArmed();
    turns := Then(turns, BeginNext(false));
  }

  lemma ReachReconnecting() returns (turns: seq<Turn>)
    ensures Run(INITIAL, turns) == RECONNECTING
  {
    turns := ReachRulesChanged();
    turns := Then(turns, ReconnectTimerFires);
    turns := Then(turns, BeginNext(true));
  }

  lemma ReachRebuilding() returns (turns: seq<Turn>)
    ensures Run(INITIAL, turns) == REBUILDING
  {
    turns := ReachReconnecting();
    turns := Then(turns, Resume(Opened(1), true));
    turns := Then(turns, Resume(Done, true));
  }

  /** The reconnect rebuilds the adapter, the new session drops during it, and routing stays up with no hold. */
  lemma RoutingCanBeStranded() returns (turns: seq<Turn>)
    ensures !Covered(Run(INITIAL, turns))
  {
    turns := ReachRebuilding();
    turns := Then(turns, ClientFailure(1, 3, true));
    assert Run(INITIAL, turns).queue == Queue(Attempt(Plan(3, Automatic, true, false), RebuildingRouting(1)), [CleanupOp(4, 1, true)], 2);
    turns := Then(turns, Resume(Done, true));
    assert Run(INITIAL, turns).queue.pending == [CleanupOp(4, 1, true)];
  }
}
