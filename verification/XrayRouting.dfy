/**
 Where the machine's routing points, and whether somebody answers there.

 While a hold lasts, the bridge has the ports the hold is about. A restart may
 come up on other ports, though, and `applySystemRouting` then moves routing to
 them before the restart is through. `StepAlignsExactly` says at which turn
 routing ends up on ports that nobody has.
 */
module XrayRouting {
  import opened Prelude
  import opened XraySupervisor
  import opened XrayHeldPorts
  import opened XrayHold

  /** The ports routing should be on: those of the hold, or Xray's own. */
  function Target(s: State): set<nat> { if s.hold.held then s.hold.endpoints else s.inbounds }

  /** Routing points nowhere else, being taken down or moved apart. */
  predicate Aligned(s: State) {
    match s.queue.running
    case Stopping(_) => true
    case Attempt(_, Applying(_, ports)) => s.world.routed <= Target(s) + ports
    case _ => s.world.routed <= Target(s)
  }

  /** The attempt about to conclude is that of the session still wanted, and its child still runs. */
  predicate StillCurrent(s: State, plan: Plan, process: nat) { IsCurrent(s, plan.gen) && Has(s, process) }

  /** An attempt that takes held routing over fails or is overtaken with routing on other ports than the held ones, or
      comes up with routing on other ports than its own. */
  predicate Misdirects(s: State, e: Event) {
    match s.queue.running
    case Attempt(plan, Applying(process, ports)) =>
      && e.Resume? && s.hold.held
      && !(s.world.routed <= if e.outcome.Failed? || !StillCurrent(s, plan, process) then s.hold.endpoints else ports)
    case _ => false
  }

  /** What the operation in flight knows of where routing is. */
  predicate RouteInv(s: State) {
    && (s.phase == Connected ==> !s.hold.held)
    && match s.queue.running
       case Attempt(_, Applying(process, ports)) => !s.hold.held || Has(s, process) ==> s.inbounds == ports
       case Attempt(_, _) => s.hold.held || s.world.routed == {}
       case LettingPortsGo(_) => s.world.routed == {}
       case Reapplying(ports) => Target(s) == ports
       case _ => true
  }

  // ----- Turns outside the queue -----

  /** A hold that begins holds the inbounds there were. */
  lemma CallKeepsRoute(s: State, e: Event)
    requires RouteInv(s) && Aligned(s) && !e.BeginNext? && !e.Resume?
    ensures RouteInv(Step(s, e)) && Aligned(Step(s, e))
  {
    match e
    case ProcessFails(process, gen, closed) =>
    case RoutingMoves(routed) =>
    case _ =>
  }

  // ----- Turns of the queue -----

  lemma RulesKeepRoute(s: State, localRulesChanged: bool)
    requires WantInv(s) && s.world.routed <= Target(s) && (s.phase == Connected ==> !s.hold.held)
    ensures var next := RestartForRules(s, localRulesChanged).1;
      next.world.routed <= Target(next) && (next.phase == Connected ==> !next.hold.held)
  {}

  lemma BeginKeepsRoute(s: State, localRulesChanged: bool)
    requires WantInv(s) && RouteInv(s) && Aligned(s)
    ensures RouteInv(OnBeginNext(s, localRulesChanged)) && Aligned(OnBeginNext(s, localRulesChanged))
  {
    if s.queue.running.Idle? && s.queue.pending != [] {
      match s.queue.pending[0]
      case UpdateOp(gen, routingGen) => RulesKeepRoute(TakeHead(s), localRulesChanged);
      case _ =>
    }
  }

  lemma AttemptMovesRoute(s: State, plan: Plan, at: ConnectPoint, outcome: Outcome)
    requires RouteInv(s) && Aligned(s) && s.queue.running == Attempt(plan, at) && !at.Applying?
    ensures RouteInv(ResumeAttempt(s, plan, at, outcome)) && Aligned(ResumeAttempt(s, plan, at, outcome))
  {
    match at
    case StoppingProcess(previous) =>
    case Starting(process, ports) =>
    case EndingFailed(acquired, blocked) =>
    case _ =>
  }

  lemma AppliedAlignsExactly(s: State, plan: Plan, process: nat, ports: set<nat>, outcome: Outcome)
    requires RouteInv(s) && Aligned(s) && s.queue.running == Attempt(plan, Applying(process, ports))
    ensures var s' := ResumeAttempt(s, plan, Applying(process, ports), outcome);
      RouteInv(s') && (Aligned(s') <==>
        s.hold.held ==> s.world.routed <= if outcome.Failed? || !StillCurrent(s, plan, process) then s.hold.endpoints else ports)
  {}

  /** Neither an attempt nor an update: routing is taken down before anything is let go, or is left alone. */
  lemma OtherResumeKeepsRoute(s: State, outcome: Outcome, localRulesChanged: bool)
    requires WantInv(s) && RouteInv(s) && Aligned(s) && !s.queue.running.Attempt? && !s.queue.running.Reapplying?
    ensures RouteInv(OnResume(s, outcome, localRulesChanged)) && Aligned(OnResume(s, outcome, localRulesChanged))
  {}

  lemma ResumeAlignsExactly(s: State, outcome: Outcome, localRulesChanged: bool)
    requires WantInv(s) && RouteInv(s) && Aligned(s)
    ensures var s' := OnResume(s, outcome, localRulesChanged);
      RouteInv(s') && (Aligned(s') <==> !Misdirects(s, Resume(outcome, localRulesChanged)))
  {
    match s.queue.running
    case Attempt(plan, Applying(process, ports)) => AppliedAlignsExactly(s, plan, process, ports, outcome);
    case Attempt(plan, at) => AttemptMovesRoute(s, plan, at, outcome);
    case Reapplying(_) => RulesKeepRoute(s, localRulesChanged);
    case _ => OtherResumeKeepsRoute(s, outcome, localRulesChanged);
  }

  /** After any turn routing points at the held ports or at Xray's own, unless that turn misdirects it. */
  lemma StepAlignsExactly(s: State, e: Event)
    requires WantInv(s) && RouteInv(s) && Aligned(s)
    ensures RouteInv(Step(s, e)) && (Aligned(Step(s, e)) <==> !Misdirects(s, e))
  {
    match e
    case BeginNext(localRulesChanged) => BeginKeepsRoute(s, localRulesChanged);
    case Resume(outcome, localRulesChanged) => ResumeAlignsExactly(s, outcome, localRulesChanged);
    case _ => CallKeepsRoute(s, e);
  }

  // ----- When it can happen -----

  /** An attempt can still misdirect held routing if and only if it has ports that are not the held ones, or has left
      routing off its own. A restart that gets the held ports back cannot. */
  lemma MisdirectsOnlyElsewhere(s: State, plan: Plan, process: nat, ports: set<nat>)
    requires Aligned(s) && s.hold.held && s.queue.running == Attempt(plan, Applying(process, ports))
    ensures (exists routed, e :: Misdirects(Step(s, RoutingMoves(routed)), e)) <==>
      !(ports <= s.hold.endpoints) || (StillCurrent(s, plan, process) && !(s.world.routed <= ports))
  {
    if !(ports <= s.hold.endpoints) {
      assert Misdirects(Step(s, RoutingMoves(ports)), Resume(Failed(false), false));
    } else if StillCurrent(s, plan, process) && !(s.world.routed <= ports) {
      assert Misdirects(Step(s, RoutingMoves(s.world.routed)), Resume(Done, false));
    }
  }

  // ----- Whole runs -----

  predicate NeverMisdirected(s: State, turns: seq<Event>)
    decreases |turns|
  {
    turns != [] ==> !Misdirects(s, turns[0]) && NeverMisdirected(Step(s, turns[0]), turns[1..])
  }

  lemma {:induction false} RunAligns(s: State, turns: seq<Event>)
    requires HeldInv(s) && RouteInv(s) && Aligned(s) && NeverMisdirected(s, turns)
    ensures Aligned(Run(s, turns))
    decreases |turns|
  {
    if turns != [] {
      StepAlignsExactly(s, turns[0]);
      StepKeepsPorts(s, turns[0]);
      StepKeepsHold(s, turns[0]);
      StepKeepsCover(s, turns[0]);
      RunAligns(Step(s, turns[0]), turns[1..]);
    }
  }

  /** No attempt that takes held routing over applies it to other ports than the held ones. */
  predicate PortsKept(s: State, turns: seq<Event>)
    decreases |turns|
  {
    turns != [] ==>
      && (s.hold.held && s.queue.running.Attempt? && s.queue.running.at.Applying? ==> s.queue.running.at.ports == s.hold.endpoints)
      && PortsKept(Step(s, turns[0]), turns[1..])
  }

  /** Routing is misdirected only by restarts that came up on other ports. */
  lemma {:induction false} KeptPortsNeverMisdirect(s: State, turns: seq<Event>)
    requires HeldInv(s) && RouteInv(s) && Aligned(s) && PortsKept(s, turns)
    ensures NeverMisdirected(s, turns)
    decreases |turns|
  {
    if turns != [] {
      StepAlignsExactly(s, turns[0]);
      StepKeepsPorts(s, turns[0]);
      StepKeepsHold(s, turns[0]);
      StepKeepsCover(s, turns[0]);
      KeptPortsNeverMisdirect(Step(s, turns[0]), turns[1..]);
    }
  }

  /** Nothing is running or waiting, no disconnect was asked for and routing is held. */
  predicate QuietlyHeld(s: State) {
    s.hold.held && !s.life.disconnectRequested && s.queue.running.Idle? && s.queue.pending == []
  }

  /** In a quiet hold, routing points at ports the bridge has if and only if it is aligned with the hold. */
  lemma AlignedMeansAnswered(turns: seq<Event>)
    requires QuietlyHeld(Run(INITIAL, turns))
    ensures Run(INITIAL, turns).world.routed <= Run(INITIAL, turns).world.bound <==> Aligned(Run(INITIAL, turns))
  {
    HeldPortsAreBound(turns);
    RunKeeps(INITIAL, turns);
  }

  /** In every run without such a turn, quietly held routing points only at ports the bridge itself has. */
  lemma HeldRoutingIsAnswered(turns: seq<Event>)
    requires NeverMisdirected(INITIAL, turns) && QuietlyHeld(Run(INITIAL, turns))
    ensures Run(INITIAL, turns).world.routed <= Run(INITIAL, turns).world.bound
  {
    RunAligns(INITIAL, turns);
    AlignedMeansAnswered(turns);
  }

  // ----- A run in which it does happen -----

  lemma Then(turns: seq<Event>, e: Event) returns (longer: seq<Event>)
    ensures Run(INITIAL, longer) == Step(Run(INITIAL, turns), e)
  {
    longer := turns + [e];
    RunLast(INITIAL, turns, e);
  }

  /** A first session on ports 1 and 2, the system proxy on the HTTP port. */
  const FIRST_SESSION: State := State(
    Connected, Some(Child(7, 1)), None, {1, 2}, Lifecycle(1, true, false, false), None,
    Hold(false, None, 2, {}, {}), 1, Queue(Idle, []), World({7}, {7}, {}, {2}))

  const FIRST_APPLYING: State := FIRST_SESSION.(
    phase := Connecting, hold := Hold(false, None, 1, {}, {}),
    queue := Queue(Attempt(Plan(1, false), Applying(7, {1, 2})), []), world := World({7}, {7}, {}, {}))

  const FIRST_RESERVING: State := FIRST_APPLYING.(
    process := None, inbounds := {}, queue := Queue(Attempt(Plan(1, false), ReservingPorts), []), world := World({}, {}, {}, {}))

  /** Xray is gone; the bridge has the ports and a restart is on its way. */
  const HELD: State := State(
    Reconnecting, None, None, {}, Lifecycle(2, true, false, false), Some(2),
    Hold(true, Some(3), 3, {1, 2}, {1, 2}), 1, Queue(Idle, []), World({}, {7}, {1, 2}, {2}))

  /** The restart is up on ports 3 and 4, and routing is being applied to them. */
  const APPLYING_ELSEWHERE: State := State(
    Connecting, Some(Child(8, 3)), None, {3, 4}, Lifecycle(3, true, false, false), None,
    Hold(true, Some(3), 3, {1, 2}, {}), 2,
    Queue(Attempt(Plan(3, true), Applying(8, {3, 4})), []), World({8}, {7, 8}, {}, {2}))

  const RESERVING_AGAIN: State := APPLYING_ELSEWHERE.(
    process := None, inbounds := {}, queue := Queue(Attempt(Plan(3, true), ReservingPorts), []), world := World({}, {7}, {}, {2}))

  /** The restarted child died while routing moved to its HTTP port. */
  const DIED_APPLYING: State := APPLYING_ELSEWHERE.(
    phase := Error, process := None, inbounds := {}, life := Lifecycle(4, true, false, false),
    queue := Queue(Attempt(Plan(3, true), Applying(8, {3, 4})), [FailureOp(4, 8)]), world := World({8}, {7, 8}, {}, {4}))

  const DIED: State := DIED_APPLYING.(queue := Queue(Idle, [FailureOp(4, 8)]), world := World({}, {7, 8}, {}, {4}))

  /** Back to a quiet hold of ports 1 and 2, with the system proxy on port 4. */
  const MISDIRECTED: State := State(
    Reconnecting, None, None, {}, Lifecycle(4, true, false, false), Some(4),
    Hold(true, Some(3), 3, {1, 2}, {1, 2}), 2, Queue(Idle, []), World({}, {7, 8}, {1, 2}, {4}))

  lemma ReachFirstReserving() returns (turns: seq<Event>)
    ensures Run(INITIAL, turns) == FIRST_RESERVING
  {
    turns := Then([], UserConnect);
    turns := Then(turns, BeginNext(false));
    turns := Then(turns, Resume(Done, false));
    turns := Then(turns, Resume(Done, false));
    turns := Then(turns, Resume(Done, false));
    turns := Then(turns, Resume(Done, false));
    turns := Then(turns, Resume(Done, false));
  }

  lemma ReachFirstSession() returns (turns: seq<Event>)
    ensures Run(INITIAL, turns) == FIRST_SESSION
  {
    turns := ReachFirstReserving();
    turns := Then(turns, Resume(Spawned(7, 1, 2), false));
    turns := Then(turns, Resume(Done, false));
    assert Run(INITIAL, turns) == FIRST_APPLYING;
    turns := Then(turns, RoutingMoves({2}));
    turns := Then(turns, Resume(Done, false));
  }

  lemma ReachHeld() returns (turns: seq<Event>)
    ensures Run(INITIAL, turns) == HELD
  {
    turns := ReachFirstSession();
    turns := Then(turns, ProcessExits(7));
    turns := Then(turns, ProcessFails(7, 1, true));
    turns := Then(turns, BeginNext(false));
    turns := Then(turns, Resume(Done, false));
    turns := Then(turns, Resume(Done, false));
  }

  lemma ReachReservingAgain() returns (turns: seq<Event>)
    ensures Run(INITIAL, turns) == RESERVING_AGAIN
  {
    turns := ReachHeld();
    turns := Then(turns, ReconnectTimerFires);
    turns := Then(turns, BeginNext(false));
    turns := Then(turns, Resume(Done, false));
    turns := Then(turns, Resume(Done, false));
    turns := Then(turns, Resume(Done, false));
  }

  lemma ReachDiedApplying() returns (turns: seq<Event>)
    ensures Run(INITIAL, turns) == DIED_APPLYING
  {
    turns := ReachReservingAgain();
    turns := Then(turns, Resume(Spawned(8, 3, 4), false));
    turns := Then(turns, Resume(Done, false));
    assert Run(INITIAL, turns) == APPLYING_ELSEWHERE;
    turns := Then(turns, RoutingMoves({4}));
    turns := Then(turns, ProcessFails(8, 3, true));
  }

  lemma ReachDied() returns (turns: seq<Event>)
    ensures Run(INITIAL, turns) == DIED
  {
    turns := ReachDiedApplying();
    turns := Then(turns, Resume(Done, false));
    turns := Then(turns, Resume(Done, false));
  }

  /** The restart dies once routing was moved to its ports: the bridge binds the old ones again and routing points at
      a port that nobody has. */
  lemma RoutingCanBeMisdirected() returns (turns: seq<Event>)
    ensures var s := Run(INITIAL, turns);
      QuietlyHeld(s) && s.world.bound == s.hold.endpoints == {1, 2} && s.world.routed == {4} && s.world.alive == {}
  {
    turns := ReachDied();
    turns := Then(turns, BeginNext(false));
    turns := Then(turns, Resume(Done, false));
    turns := Then(turns, Resume(Done, false));
    assert Run(INITIAL, turns) == MISDIRECTED;
  }
}
