/**
 What the status shows of an attempt. `applySystemRouting` goes on only while
 it reads Connecting or Connected, so an attempt under way had better show as
 Connecting. It does, except after one turn.
 */
module XrayStatus {
  import opened Prelude
  import opened XraySupervisor
  import opened XrayHeldPorts
  import opened XrayHold
  import opened XrayNoStall
  import opened XrayDecisions
  import opened XrayRouting

  ghost predicate AttemptQueued(s: State) { exists op :: op in s.queue.pending && LiveOp(op, s.life.generation) }

  predicate AttemptRunning(s: State) {
    RunningPlan(s.queue.running).Some? && RunningPlan(s.queue.running).value.gen == s.life.generation
  }

  /** An attempt of the current lifecycle, queued or running, shows as Connecting. */
  ghost predicate Shown(s: State) { AttemptRunning(s) || AttemptQueued(s) ==> s.phase == Connecting }

  /** A restart that gives up has been overtaken while routing was taken down: it sets Error without asking. */
  ghost predicate OvertakenGiveUp(s: State, e: Event) {
    e.Resume? && s.queue.running.LettingPortsGo? && s.queue.running.next.GiveUp? && AttemptQueued(s)
  }

  lemma CallShows(s: State, e: Event)
    requires PortsInv(s) && StallInv(s) && WantInv(s) && Shown(s) && !e.BeginNext? && !e.Resume?
    ensures Shown(Step(s, e))
  {
    var s' := Step(s, e);
    forall op | op in s'.queue.pending && LiveOp(op, s'.life.generation) ensures s'.phase == Connecting {
      assert op in s.queue.pending ==> OpKnown(op, s.life.generation);
    }
  }

  lemma TakeShows(s: State, s': State)
    requires Shown(s) && s.queue.running.Idle? && s.queue.pending != [] && s'.queue.pending == s.queue.pending[1..]
    requires s'.life == s.life && s'.phase == s.phase
    requires AttemptRunning(s') ==> LiveOp(s.queue.pending[0], s.life.generation)
    ensures Shown(s')
  {
    assert forall op :: op in s.queue.pending[1..] ==> op in s.queue.pending;
    assert s.queue.pending[0] in s.queue.pending;
  }

  lemma BeginUpdateShows(s: State, localRulesChanged: bool)
    requires Shown(s) && StallInv(s) && s.queue.running.Idle? && s.queue.pending != [] && s.queue.pending[0].UpdateOp?
    ensures Shown(BeginOp(TakeHead(s), s.queue.pending[0], localRulesChanged))
  {
    TakeShows(s, TakeHead(s));
    TakeShows(s, Await(TakeHead(s), Reapplying(s.inbounds)));
    RulesShow(TakeHead(s), localRulesChanged);
  }

  lemma RulesShow(s: State, localRulesChanged: bool)
    requires Shown(s) && (s.phase == Connected ==> LiveChild(s) && RunningPlan(s.queue.running).None?)
    ensures Shown(RestartForRules(s, localRulesChanged).1) && Shown(Settle(RestartForRules(s, localRulesChanged).1))
  {}

  lemma BeginShows(s: State, localRulesChanged: bool)
    requires StallInv(s) && Shown(s)
    ensures Shown(OnBeginNext(s, localRulesChanged))
  {
    if s.queue.running.Idle? && s.queue.pending != [] {
      match s.queue.pending[0]
      case UpdateOp(_, _) => BeginUpdateShows(s, localRulesChanged);
      case _ => TakeShows(s, OnBeginNext(s, localRulesChanged));
    }
  }

  /** The running operation goes on; only the current attempt changes what the status shows, and nothing waits behind it. */
  lemma ShowsMove(s: State, s': State)
    requires StallInv(s) && Shown(s) && s'.queue.pending == s.queue.pending && s'.life == s.life
    requires AttemptRunning(s') ==> AttemptRunning(s) && s'.phase == s.phase
    requires s'.phase == s.phase || AttemptRunning(s)
    ensures Shown(s')
  {
    if AttemptRunning(s) { assert !AttemptQueued(s); }
  }

  lemma AttemptPhase(s: State, plan: Plan, at: ConnectPoint, outcome: Outcome)
    requires s.queue.running == Attempt(plan, at)
    ensures var s' := ResumeAttempt(s, plan, at, outcome);
      && s'.queue.pending == s.queue.pending && s'.life == s.life
      && (AttemptRunning(s') ==> AttemptRunning(s) && s'.phase == s.phase)
      && (s'.phase == s.phase || AttemptRunning(s))
  {
    match at
    case EndingFailed(acquired, blocked) => ConcludePhase(Terminated(s, acquired), plan, blocked);
    case _ =>
  }

  lemma ConcludePhase(s: State, plan: Plan, blocked: bool)
    ensures var s' := ConcludeFailure(s, plan, blocked);
      && s'.queue.pending == s.queue.pending && s'.life == s.life
      && (AttemptRunning(s') ==> IsCurrent(s, plan.gen) && s'.phase == s.phase)
      && (s'.phase == s.phase || IsCurrent(s, plan.gen))
  {}

  lemma AttemptShows(s: State, outcome: Outcome)
    requires StallInv(s) && Shown(s) && s.queue.running.Attempt?
    ensures Shown(ResumeAttempt(s, s.queue.running.plan, s.queue.running.at, outcome))
  {
    AttemptPhase(s, s.queue.running.plan, s.queue.running.at, outcome);
    ShowsMove(s, ResumeAttempt(s, s.queue.running.plan, s.queue.running.at, outcome));
  }

  lemma TakenDownShows(s: State, e: Event)
    requires StallInv(s) && WantInv(s) && Shown(s) && e.Resume? && s.queue.running.LettingPortsGo?
    ensures Shown(Step(s, e)) <==> !OvertakenGiveUp(s, e)
  {
    var s' := Step(s, e);
    assert s'.queue.pending == s.queue.pending && s'.life == s.life;
    if AttemptRunning(s) { assert !AttemptQueued(s) && !AttemptQueued(s'); }
  }

  lemma OtherResumeShows(s: State, outcome: Outcome, localRulesChanged: bool)
    requires PortsInv(s) && StallInv(s) && WantInv(s) && Shown(s)
    requires !s.queue.running.Attempt? && !s.queue.running.LettingPortsGo?
    ensures Shown(OnResume(s, outcome, localRulesChanged))
  {
    var s' := OnResume(s, outcome, localRulesChanged);
    if s'.life == s.life { assert s'.queue.pending == s.queue.pending; }
  }

  /** After a turn an attempt under way shows as Connecting, if and only if the turn was not the end of a restart that gave
      up and had been overtaken by that attempt meanwhile. */
  lemma StepShowsExactly(s: State, e: Event)
    requires PortsInv(s) && StallInv(s) && WantInv(s) && Shown(s)
    ensures Shown(Step(s, e)) <==> !OvertakenGiveUp(s, e)
  {
    match e
    case BeginNext(localRulesChanged) => BeginShows(s, localRulesChanged);
    case Resume(outcome, localRulesChanged) =>
      if s.queue.running.Attempt? {
        AttemptShows(s, outcome);
      } else if s.queue.running.LettingPortsGo? {
        TakenDownShows(s, e);
      } else {
        OtherResumeShows(s, outcome, localRulesChanged);
      }
    case _ => CallShows(s, e);
  }

  ghost predicate NeverOvertaken(s: State, turns: seq<Event>)
    decreases |turns|
  {
    turns != [] ==> !OvertakenGiveUp(s, turns[0]) && NeverOvertaken(Step(s, turns[0]), turns[1..])
  }

  lemma {:induction false} RunShows(s: State, turns: seq<Event>)
    requires HeldInv(s) && StallInv(s) && Shown(s) && NeverOvertaken(s, turns)
    ensures Shown(Run(s, turns))
    decreases |turns|
  {
    if turns != [] {
      StepShowsExactly(s, turns[0]);
      RunNeverStalls(s, [turns[0]]);
      assert Run(s, [turns[0]]) == Step(s, turns[0]) by { assert [turns[0]][1..] == []; }
      RunShows(Step(s, turns[0]), turns[1..]);
    }
  }

  /** In every run without such a turn an attempt under way shows as Connecting. */
  lemma AttemptsShow(turns: seq<Event>)
    requires NeverOvertaken(INITIAL, turns)
    ensures Shown(Run(INITIAL, turns))
  {
    RunShows(INITIAL, turns);
  }

  // ----- A run in which one does not -----

  /** The restart has ended what ran before and looks for its runtime. */
  const RESTARTING: State := HELD.(
    phase := Connecting, life := Lifecycle(3, true, false, false), reconnectTimer := None, routingGeneration := 2,
    queue := Queue(Attempt(Plan(3, true), CheckingRuntime), []))

  /** The restart was refused for good, and routing is being taken down. */
  const GIVING_UP: State := HELD.(
    phase := Connecting, life := Lifecycle(3, true, false, false), reconnectTimer := None, hold := Hold(false, None, 4, {}, {1, 2}),
    routingGeneration := 2, queue := Queue(Stopping(GiveUp(Plan(3, true))), []))

  /** The user's Connect is queued behind it, and shows Error. */
  const SHOWN_AS_ERROR: State := GIVING_UP.(
    phase := Error, life := Lifecycle(4, true, false, false), hold := Hold(false, None, 4, {}, {}), routingGeneration := 3,
    queue := Queue(Idle, [ConnectOp(4, false)]), world := World({}, {7}, {}, {}))

  const RESERVING_AS_ERROR: State := SHOWN_AS_ERROR.(
    hold := Hold(false, None, 5, {}, {}), queue := Queue(Attempt(Plan(4, false), ReservingPorts), []))

  lemma ReachRestarting() returns (turns: seq<Event>)
    ensures Run(INITIAL, turns) == RESTARTING
  {
    turns := ReachHeld();
    turns := Then(turns, ReconnectTimerFires);
    turns := Then(turns, BeginNext(false));
    turns := Then(turns, Resume(Done, false));
  }

  lemma ReachGivingUp() returns (turns: seq<Event>)
    ensures Run(INITIAL, turns) == GIVING_UP
  {
    turns := ReachRestarting();
    turns := Then(turns, Resume(Failed(true), false));
    turns := Then(turns, Resume(Done, false));
  }

  lemma ReachShownAsError() returns (turns: seq<Event>)
    ensures Run(INITIAL, turns) == SHOWN_AS_ERROR
  {
    turns := ReachGivingUp();
    turns := Then(turns, UserConnect);
    turns := Then(turns, Resume(Done, false));
    turns := Then(turns, Resume(Done, false));
  }

  lemma ReachReservingAsError() returns (turns: seq<Event>)
    ensures Run(INITIAL, turns) == RESERVING_AS_ERROR
  {
    turns := ReachShownAsError();
    turns := Then(turns, BeginNext(false));
    turns := Then(turns, Resume(Done, false));
    turns := Then(turns, Resume(Done, false));
    turns := Then(turns, Resume(Done, false));
    turns := Then(turns, Resume(Done, false));
    turns := Then(turns, Resume(Done, false));
  }

  /** The user connects while a restart gives up: the new attempt gets as far as applying routing with the status at Error. */
  lemma AttemptCanShowError() returns (turns: seq<Event>)
    ensures var s := Run(INITIAL, turns); CurrentAttempt(s) && s.queue.running.at.Applying? && s.phase == Error && !Shown(s)
  {
    turns := ReachReservingAsError();
    turns := Then(turns, Resume(Spawned(8, 3, 4), false));
    turns := Then(turns, Resume(Done, false));
  }
}
