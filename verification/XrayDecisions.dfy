/**
 What a turn of the Xray bridge decides: whether a restart that fails is tried
 again, when a hold begins and ends, when a session is Connected, and what the
 status shows of an attempt. Each is said of a whole turn, from what could be
 seen before it, and in both directions.
 */
module XrayDecisions {
  import opened Prelude
  import opened XraySupervisor
  import opened XrayHeldPorts
  import opened XrayHold
  import opened XrayNoStall

  // ----- Retry or give up -----

  predicate CurrentAttempt(s: State) { s.queue.running.Attempt? && s.queue.running.plan.gen == s.life.generation }

  /** A failed current attempt whose process is about to be gone. */
  predicate Fails(s: State, e: Event) { e.Resume? && CurrentAttempt(s) && s.queue.running.at.EndingFailed? }

  /** A restart is worth another try: no retry helps where the runtime is gone or the configuration is refused, and a user's
      attempt is the user's to repeat. */
  predicate WorthRetrying(s: State, e: Event)
    requires Fails(s, e)
  {
    s.queue.running.plan.restart && !s.queue.running.at.blocked
  }

  /** A failed restart worth another try keeps its hold, of the same generation, and takes the held ports back first, if it
      has to; then a timer is set. Any other failed attempt gives held routing back and ends in Error. */
  lemma FailedAttemptDecides(s: State, e: Event)
    requires PortsInv(s) && StallInv(s) && WantInv(s) && Fails(s, e)
    ensures var s' := Step(s, e);
      if WorthRetrying(s, e) then
        && s'.hold == s.hold
        && if MayOccupy(s) then s'.queue.running == Attempt(s.queue.running.plan, OccupyingAgain)
           else s'.queue.running.Idle? && s'.phase == Reconnecting && s'.reconnectTimer == Some(s.life.generation)
      else if s.hold.held then !s'.hold.held && s'.queue.running == Stopping(GiveUp(s.queue.running.plan))
      else s'.queue.running.Idle? && s'.phase == Error
  {}

  /** Once the ports are taken back the timer is set; where they cannot be, routing is taken down first. */
  lemma OccupyingDecides(s: State, e: Event)
    requires StallInv(s) && WantInv(s) && e.Resume? && CurrentAttempt(s) && s.queue.running.at.OccupyingAgain?
    ensures var s' := Step(s, e);
      if e.outcome.Failed? then !s'.hold.held && s'.queue.running == Stopping(LostPortsAgain(s.queue.running.plan))
      else && s'.hold == s.hold.(ports := s.hold.endpoints) && s'.world.bound == s.hold.endpoints
           && s'.queue.running.Idle? && s'.phase == Reconnecting && s'.reconnectTimer == Some(s.life.generation)
  {}

  /** After a stopRouting nothing of the inbounds is pointed at, bound or known; a lost hold goes on to its retry, and a
      given-up restart ends in Error. */
  lemma TakenDownDecides(s: State, e: Event)
    requires StallInv(s) && WantInv(s) && e.Resume? && s.queue.running.LettingPortsGo? && s.world.routed == {}
    ensures var s', next := Step(s, e), s.queue.running.next;
      && s'.world.routed == {} && s'.world.bound == {} && s'.inbounds == {} && s'.hold == s.hold
      && (next.GiveUp? ==> s'.queue.running.Idle? && s'.phase == Error)
      && ((next.LostPortsAgain? && next.plan.gen == s.life.generation) || (next.LostPortsAfterFailure? && next.gen == s.life.generation) ==>
            s'.queue.running.Idle? && s'.phase == Reconnecting && s'.reconnectTimer == Some(s.life.generation))
  {}

  /** A clean-up of a stopped child ends it, takes the held ports if it has to, and sets the timer of its lifecycle. */
  lemma CleanupDecides(s: State, e: Event)
    requires StallInv(s) && WantInv(s) && e.Resume? && FailureWork(s.queue.running)
    ensures var s' := Step(s, e);
      match s.queue.running
      case EndingFailure(gen, process) =>
        && process !in s'.world.alive && s'.hold == s.hold
        && if MayOccupy(s) && !s.life.disposed then s'.queue.running == OccupyingAfterFailure(gen)
           else s'.queue.running.Idle? && (gen == s.life.generation ==> s'.phase == Reconnecting && s'.reconnectTimer == Some(gen))
      case OccupyingAfterFailure(gen) =>
        if e.outcome.Failed? then !s'.hold.held && s'.queue.running == Stopping(LostPortsAfterFailure(gen))
        else && s'.world.bound == s.hold.endpoints && s'.queue.running.Idle?
             && (gen == s.life.generation ==> s'.phase == Reconnecting && s'.reconnectTimer == Some(gen))
      case _ => true
  {}

  /** Whether a failure is blocked, and which child it leaves, is told by the attempt that failed, and carried to the end of
      its clean-up; the child is ended there. */
  lemma FailureIsCarried(s: State, e: Event)
    requires e.Resume? && (s.queue.running.Attempt? || (s.queue.running.LettingPortsGo? && s.queue.running.next.EndFailed?))
    ensures var s' := Step(s, e);
      match s.queue.running
      case Attempt(plan, at) =>
        && ((at.CheckingRuntime? || at.ReservingPorts?) && e.outcome.Failed? ==> Carries(s', plan, None, e.outcome.blocked))
        && ((at.Starting? || at.Applying?) && e.outcome.Failed? ==> Carries(s', plan, Some(at.process), false))
        && (at.EndingFailed? ==> s'.world.alive == if at.acquired.Some? then s.world.alive - {at.acquired.value} else s.world.alive)
      case LettingPortsGo(EndFailed(plan, acquired, blocked)) => Carries(s', plan, acquired, blocked)
      case _ => true
  {}

  predicate Carries(s: State, plan: Plan, acquired: Option<nat>, blocked: bool) {
    || s.queue.running == Stopping(EndFailed(plan, acquired, blocked))
    || s.queue.running == Attempt(plan, EndingFailed(acquired, blocked))
  }

  // ----- The timer -----

  /** The turns that end work on a session with a timer for another attempt. */
  predicate Retries(s: State, e: Event) {
    && e.Resume?
    && match s.queue.running
       case Attempt(plan, EndingFailed(_, _)) => CurrentAttempt(s) && WorthRetrying(s, e) && !MayOccupy(s)
       case Attempt(plan, OccupyingAgain) => CurrentAttempt(s) && !e.outcome.Failed?
       case LettingPortsGo(LostPortsAgain(plan)) => plan.gen == s.life.generation
       case LettingPortsGo(LostPortsAfterFailure(gen)) => gen == s.life.generation
       case EndingFailure(gen, _) => gen == s.life.generation && !(MayOccupy(s) && !s.life.disposed)
       case OccupyingAfterFailure(gen) => gen == s.life.generation && !e.outcome.Failed?
       case _ => false
  }

  lemma ResumeRetries(s: State, outcome: Outcome, localRulesChanged: bool)
    requires StallInv(s) && WantInv(s) && s.reconnectTimer.None?
    ensures OnResume(s, outcome, localRulesChanged).reconnectTimer.Some? <==> Retries(s, Resume(outcome, localRulesChanged))
  {
    match s.queue.running
    case Attempt(plan, at) => AttemptRetries(s, outcome, localRulesChanged);
    case LettingPortsGo(next) => TakenDownRetries(s, outcome, localRulesChanged);
    case _ =>
  }

  lemma AttemptRetries(s: State, outcome: Outcome, localRulesChanged: bool)
    requires StallInv(s) && WantInv(s) && s.reconnectTimer.None? && s.queue.running.Attempt?
    ensures OnResume(s, outcome, localRulesChanged).reconnectTimer.Some? <==> Retries(s, Resume(outcome, localRulesChanged))
  {}

  lemma TakenDownRetries(s: State, outcome: Outcome, localRulesChanged: bool)
    requires StallInv(s) && WantInv(s) && s.reconnectTimer.None? && s.queue.running.LettingPortsGo?
    ensures OnResume(s, outcome, localRulesChanged).reconnectTimer.Some? <==> Retries(s, Resume(outcome, localRulesChanged))
  {}

  /** Where none is set, a timer is set by exactly these turns; one that is set fires, or goes with its lifecycle. */
  lemma RetriesExactly(s: State, e: Event)
    requires StallInv(s) && WantInv(s) && s.reconnectTimer.None?
    ensures Step(s, e).reconnectTimer.Some? <==> Retries(s, e)
  {
    match e
    case Resume(outcome, localRulesChanged) => ResumeRetries(s, outcome, localRulesChanged);
    case _ =>
  }

  /** The timer, a wake while it runs and a user Connect start attempts of a new lifecycle; the first two of them restarts. */
  lemma AttemptsStart(s: State, e: Event)
    requires StallInv(s) && WantInv(s)
    requires (e.UserConnect? && !s.life.disposed) || ((e.ReconnectTimerFires? || e.Wake?) && s.reconnectTimer.Some?)
    ensures var s' := Step(s, e);
      && s'.queue.pending == s.queue.pending + [ConnectOp(s'.life.generation, !e.UserConnect?)]
      && s'.life == s.life.(generation := s.life.generation + 1, hasRequest := true, disconnectRequested := false)
      && s'.phase == Connecting && s'.reconnectTimer.None? && s'.hold == s.hold && s'.process == s.process
  {}

  /** Disconnecting and disposing end the lifecycle and queue the teardown, beginDisconnect queues none, and dismissing an
      error queues the end of a hold; the last two need a session on its way and an error. */
  lemma SessionsEnd(s: State, e: Event)
    requires e.UserDisconnect? || e.Dispose? || e.BeginDisconnect? || e.ClearError?
    ensures var s' := Step(s, e);
      if s.life.disposed || (e.ClearError? && s.phase != Error)
         || (e.BeginDisconnect? && s.phase != Connecting && s.phase != Reconnecting && s.phase != Connected)
      then s' == s
      else && s'.life == s.life.(generation := s.life.generation + 1, disconnectRequested := true, disposed := e.Dispose?)
           && s'.reconnectTimer.None? && s'.hold == s.hold && s'.process == s.process && s'.world == s.world
           && s'.phase == (if e.ClearError? then Disconnected else Disconnecting)
           && s'.queue.pending == s.queue.pending
                + (if e.UserDisconnect? || e.Dispose? then [DisconnectOp(s'.life.generation)]
                   else if e.ClearError? && s.hold.held then [ClearErrorOp(s'.life.generation)] else [])
  {}

  // ----- Connected -----

  predicate Connects(s: State, e: Event) {
    && e.Resume? && CurrentAttempt(s) && s.queue.running.at.Applying? && !e.outcome.Failed?
  }

  /** The bridge takes notice of the failure of its current child only, and of its end during startup not at all. */
  predicate TellsFailure(s: State, e: Event) {
    && e.ProcessFails? && s.process == Some(Child(e.process, s.life.generation)) && e.gen == s.life.generation
    && !(e.closed && s.starting == Some(e.process))
  }

  /** The rules Xray reads only at start have changed under a session that is up, as a current update or an apply ends. */
  predicate RestartsForRules(s: State, e: Event) {
    && s.phase == Connected
    && match e
       case BeginNext(localRulesChanged) =>
         && localRulesChanged && s.queue.running.Idle? && s.queue.pending != [] && s.queue.pending[0].UpdateOp? && s.inbounds != {}
         && s.queue.pending[0].gen == s.life.generation && s.queue.pending[0].routingGen == s.routingGeneration
       case Resume(_, localRulesChanged) => localRulesChanged && s.queue.running.Reapplying?
       case _ => false
  }

  predicate Leaves(s: State, e: Event) {
    || e.UserConnect? || e.UserDisconnect? || e.BeginDisconnect? || e.Dispose? || TellsFailure(s, e) || RestartsForRules(s, e)
  }

  lemma AttemptConnects(s: State, outcome: Outcome)
    requires StallInv(s) && WantInv(s) && s.queue.running.Attempt?
    ensures ResumeAttempt(s, s.queue.running.plan, s.queue.running.at, outcome).phase == Connected <==> Connects(s, Resume(outcome, false))
  {}

  lemma OtherResumeConnects(s: State, outcome: Outcome, localRulesChanged: bool)
    requires StallInv(s) && WantInv(s) && !s.queue.running.Attempt?
    ensures OnResume(s, outcome, localRulesChanged).phase == Connected <==>
      s.phase == Connected && !RestartsForRules(s, Resume(outcome, localRulesChanged))
  {}

  lemma BeginConnects(s: State, localRulesChanged: bool)
    requires StallInv(s) && WantInv(s)
    ensures OnBeginNext(s, localRulesChanged).phase == Connected <==> s.phase == Connected && !RestartsForRules(s, BeginNext(localRulesChanged))
  {
    if s.queue.running.Idle? && s.queue.pending != [] { assert s.queue.pending[0] in s.queue.pending; }
  }

  /** The status is Connected after exactly these turns. */
  lemma ConnectsExactly(s: State, e: Event)
    requires StallInv(s) && WantInv(s)
    ensures Step(s, e).phase == Connected <==> Connects(s, e) || (s.phase == Connected && !Leaves(s, e))
  {
    match e
    case BeginNext(localRulesChanged) => BeginConnects(s, localRulesChanged);
    case Resume(outcome, localRulesChanged) =>
      if s.queue.running.Attempt? { AttemptConnects(s, outcome); } else { OtherResumeConnects(s, outcome, localRulesChanged); }
    case _ =>
  }

  // ----- The hold -----

  predicate HoldBegins(s: State, e: Event) { TellsFailure(s, e) || RestartsForRules(s, e) }

  /** The operation that starts takes held routing down. */
  predicate BeginsTakingDown(s: State, op: Op) {
    match op
    case ConnectOp(gen, restart) => gen == s.life.generation && !restart
    case DisconnectOp(gen) => gen == s.life.generation
    case ClearErrorOp(gen) => gen == s.life.generation
    case HoldStopOp(holdGen) => holdGen == s.hold.generation && !s.life.disposed
    case TunStopOp(gen) => gen == s.life.generation && !s.life.disposed
    case _ => false
  }

  predicate HoldEnds(s: State, e: Event) {
    match e
    case BeginNext(_) => s.queue.running.Idle? && s.queue.pending != [] && BeginsTakingDown(s, s.queue.pending[0])
    case Resume(outcome, _) =>
      || Connects(s, e)
      || (Fails(s, e) && !WorthRetrying(s, e) && s.queue.running.plan.restart)
      || (outcome.Failed? &&
            (s.queue.running.OccupyingAfterFailure?
             || (s.queue.running.Attempt? && (s.queue.running.at.OccupyingFirst? || s.queue.running.at.OccupyingAgain?))))
    case _ => false
  }

  lemma AttemptHolds(s: State, outcome: Outcome)
    requires StallInv(s) && WantInv(s) && s.queue.running.Attempt?
    ensures ResumeAttempt(s, s.queue.running.plan, s.queue.running.at, outcome).hold.held <==>
      s.hold.held && !HoldEnds(s, Resume(outcome, false))
  {
    var plan := s.queue.running.plan;
    match s.queue.running.at
    case Starting(_, _) => ChildHolds(s, outcome);
    case Applying(_, _) => ChildHolds(s, outcome);
    case CheckingRuntime => StartingHolds(s, outcome);
    case ReservingPorts => StartingHolds(s, outcome);
    case OccupyingFirst => OccupyingHolds(s, outcome);
    case OccupyingAgain => OccupyingHolds(s, outcome);
    case EndingFailed(acquired, blocked) => ConcludeHolds(Terminated(s, acquired), plan, blocked);
    case _ =>
  }

  lemma StartingHolds(s: State, outcome: Outcome)
    requires StallInv(s) && WantInv(s) && s.queue.running.Attempt?
    requires s.queue.running.at.CheckingRuntime? || s.queue.running.at.ReservingPorts?
    ensures ResumeAttempt(s, s.queue.running.plan, s.queue.running.at, outcome).hold.held <==>
      s.hold.held && !HoldEnds(s, Resume(outcome, false))
  {}

  lemma OccupyingHolds(s: State, outcome: Outcome)
    requires StallInv(s) && WantInv(s) && s.queue.running.Attempt?
    requires s.queue.running.at.OccupyingFirst? || s.queue.running.at.OccupyingAgain?
    ensures ResumeAttempt(s, s.queue.running.plan, s.queue.running.at, outcome).hold.held <==>
      s.hold.held && !HoldEnds(s, Resume(outcome, false))
  {}

  lemma ChildHolds(s: State, outcome: Outcome)
    requires StallInv(s) && WantInv(s) && s.queue.running.Attempt? && (s.queue.running.at.Starting? || s.queue.running.at.Applying?)
    ensures ResumeAttempt(s, s.queue.running.plan, s.queue.running.at, outcome).hold.held <==>
      s.hold.held && !HoldEnds(s, Resume(outcome, false))
  {}

  lemma ConcludeHolds(s: State, plan: Plan, blocked: bool)
    ensures ConcludeFailure(s, plan, blocked).hold.held <==>
      s.hold.held && !(IsCurrent(s, plan.gen) && plan.restart && (blocked || s.life.disconnectRequested))
  {}

  lemma OtherResumeHolds(s: State, outcome: Outcome, localRulesChanged: bool)
    requires StallInv(s) && WantInv(s) && !s.queue.running.Attempt?
    ensures var e := Resume(outcome, localRulesChanged);
      OnResume(s, outcome, localRulesChanged).hold.held <==> HoldBegins(s, e) || (s.hold.held && !HoldEnds(s, e))
  {}

  lemma BeginHolds(s: State, localRulesChanged: bool)
    requires StallInv(s) && WantInv(s)
    ensures var e := BeginNext(localRulesChanged);
      OnBeginNext(s, localRulesChanged).hold.held <==> HoldBegins(s, e) || (s.hold.held && !HoldEnds(s, e))
  {}

  /** Routing is held after a turn if and only if the turn began a hold, or it was and the turn did not end it. */
  lemma HoldsExactly(s: State, e: Event)
    requires StallInv(s) && WantInv(s)
    ensures Step(s, e).hold.held <==> HoldBegins(s, e) || (s.hold.held && !HoldEnds(s, e))
  {
    match e
    case BeginNext(localRulesChanged) => BeginHolds(s, localRulesChanged);
    case Resume(outcome, localRulesChanged) =>
      if s.queue.running.Attempt? { AttemptHolds(s, outcome); } else { OtherResumeHolds(s, outcome, localRulesChanged); }
    case _ =>
  }

  /** A new hold is for the inbounds there are, with a clock of its own; one in force keeps its endpoints and its clock. */
  lemma HoldIsForItsInbounds(s: State, e: Event)
    requires StallInv(s) && WantInv(s) && HoldBegins(s, e)
    ensures var s' := Step(s, e);
      if s.hold.held then s'.hold == s.hold
      else s'.hold == Hold(true, Some(s.hold.generation + 1), s.hold.generation + 1, s.inbounds, s.hold.ports)
  {}

  /** The clock runs out into a queued stop, of its own hold. */
  lemma HoldExpires(s: State)
    requires HoldInv(s) && s.hold.timer.Some?
    ensures var s' := Step(s, HoldTimerFires);
      && s'.hold == s.hold.(timer := None)
      && s'.queue.pending == s.queue.pending + if s.life.disposed then [] else [HoldStopOp(s.hold.generation)]
  {}

  // ----- The steps of an attempt -----

  /** An attempt goes from one await to the next in this order, the child on the ports just reserved for it; it ends quietly
      where it is overtaken with nothing acquired. */
  lemma AttemptGoesOn(s: State, e: Event)
    requires PortsInv(s) && WantInv(s) && e.Resume? && CurrentAttempt(s) && !e.outcome.Failed?
    ensures var plan, s' := s.queue.running.plan, Step(s, e);
      match s.queue.running.at
      case StoppingProcess(previous) =>
        && s'.queue.running == Attempt(plan, if plan.restart && MayOccupy(s) then OccupyingFirst else CheckingRuntime)
        && (previous.Some? ==> previous.value !in s'.world.alive)
      case OccupyingFirst => s'.queue.running == Attempt(plan, CheckingRuntime) && s'.hold.ports == s'.world.bound == s.hold.endpoints
      case CheckingRuntime => s'.queue.running == Attempt(plan, ReleasingPorts) && s'.hold.ports == {}
      case ReleasingPorts => s'.queue.running == Attempt(plan, ReservingPorts) && s'.world.bound == {}
      case ReservingPorts =>
        e.outcome.Spawned? && e.outcome.process !in s.world.spawned ==>
          && s'.queue.running == Attempt(plan, Starting(e.outcome.process, {e.outcome.socks, e.outcome.http}))
          && s'.process == Some(Child(e.outcome.process, plan.gen)) && s'.starting == Some(e.outcome.process)
          && e.outcome.process in s'.world.alive
      case Starting(process, ports) =>
        s'.queue.running == Attempt(plan, Applying(process, ports)) && s'.inbounds == ports && s'.starting != Some(process)
      case Applying(process, ports) => s'.queue.running.Idle? && Has(s', process) && s'.hold.endpoints == {} && s'.hold.timer.None?
      case _ => true
  {}

  /** A restart takes held routing over as it is; any other attempt takes routing down first, and then ends what runs. */
  lemma AttemptBegins(s: State, localRulesChanged: bool)
    requires s.queue.running.Idle? && s.queue.pending != [] && s.queue.pending[0].ConnectOp?
    requires s.queue.pending[0].gen == s.life.generation
    ensures var op, s' := s.queue.pending[0], OnBeginNext(s, localRulesChanged);
      if op.restart && s.hold.held
      then && s'.queue.running == Attempt(Plan(op.gen, true), StoppingProcess(if s.process.Some? then Some(s.process.value.id) else None))
           && s'.process.None? && s'.hold == s.hold
      else s'.queue.running == Stopping(Begin(Plan(op.gen, op.restart))) && !s'.hold.held
  {}

  /** An attempt that was overtaken changes neither status, lifecycle nor timer, and spawns nothing. It is over at its next
      await, unless it has to let the held ports go, or has a child: that one it ends first. */
  lemma OvertakenAttemptEnds(s: State, e: Event)
    requires e.Resume? && s.queue.running.Attempt? && !CurrentAttempt(s) && !e.outcome.Failed?
    requires s.queue.running.at.ReservingPorts? ==> e.outcome.Spawned?
    ensures var plan, s' := s.queue.running.plan, Step(s, e);
      && s'.phase == s.phase && s'.life == s.life && s'.reconnectTimer == s.reconnectTimer && s'.queue.pending == s.queue.pending
      && s'.world.spawned == s.world.spawned
      && match s.queue.running.at
         case ReleasingPorts => s'.queue.running == Attempt(plan, ReservingPorts) && s'.world.bound == {}
         case Starting(process, _) => EndsChild(s, s', plan, process)
         case Applying(process, _) => EndsChild(s, s', plan, process)
         case EndingSuperseded(process) => s'.queue.running.Idle? && s'.world.alive == s.world.alive - {process}
         case _ => s'.queue.running.Idle?
  {}

  /** The child is no longer the bridge's own; it is ended once routing is down, which it stays up for under a hold only. */
  predicate EndsChild(s: State, s': State, plan: Plan, process: nat) {
    && !Has(s', process) && (s'.process == s.process || Has(s, process))
    && s'.queue.running ==
         if s.hold.held then Attempt(plan, EndingSuperseded(process)) else Stopping(EndSuperseded(plan, process))
  }

  // ----- The other operations -----

  function Tracked(s: State): Option<nat> { if s.process.Some? then Some(s.process.value.id) else None }

  /** A teardown takes the tracked child over; it and the clean-up of a child that stopped take routing down, unless the
      clean-up finds it held. One that was overtaken before it began only leaves the queue. */
  lemma TeardownBegins(s: State, localRulesChanged: bool)
    requires s.queue.running.Idle? && s.queue.pending != []
    ensures var s' := OnBeginNext(s, localRulesChanged);
      match s.queue.pending[0]
      case DisconnectOp(gen) =>
        if gen == s.life.generation then s'.queue.running == Stopping(EndSession(gen, Tracked(s))) && s'.process.None?
        else s'.queue.running.Idle? && s'.process == s.process
      case FailureOp(gen, process) =>
        s'.queue.running == if s.hold.held then EndingFailure(gen, process) else Stopping(EndFailure(gen, process))
      case _ => true
  {}

  /** Routing is down before the ports are let go, and whoever asked for it goes on only then: an attempt with ending the
      child there was, a teardown with ending the one it took over; that one then shows Disconnected, unless overtaken. */
  lemma TeardownGoesOn(s: State, e: Event)
    requires e.Resume?
    ensures var s' := Step(s, e);
      match s.queue.running
      case Stopping(next) => s'.queue.running == LettingPortsGo(next) && s'.world.routed == {} && s'.hold.ports == {}
      case LettingPortsGo(Begin(plan)) =>
        if plan.gen == s.life.generation then s'.queue.running == Attempt(plan, StoppingProcess(Tracked(s))) && s'.process.None?
        else s'.queue.running.Idle? && s'.process == s.process
      case LettingPortsGo(EndSession(gen, process)) => s'.queue.running == EndingSession(gen, process)
      case LettingPortsGo(EndFailure(gen, process)) => s'.queue.running == EndingFailure(gen, process)
      case LettingPortsGo(EndSuperseded(plan, process)) => s'.queue.running == Attempt(plan, EndingSuperseded(process))
      case LettingPortsGo(LostPortsFirst(plan)) =>
        s'.queue.running == if plan.gen == s.life.generation then Attempt(plan, CheckingRuntime) else Idle
      case EndingSession(gen, process) =>
        && s'.queue.running.Idle? && s'.world.alive == (if process.Some? then s.world.alive - {process.value} else s.world.alive)
        && s'.phase == if gen == s.life.generation then Disconnected else s.phase
      case _ => true
  {}

  // ----- Routing updates -----

  /** An update is queued as the latest, and applied to the inbounds of a session that is up, unless a newer one or another
      lifecycle came first; after the adapter stopped by itself routing is applied again, or a hold is over. */
  lemma UpdateIsApplied(s: State, localRulesChanged: bool)
    requires StallInv(s) && WantInv(s)
    ensures !s.life.disposed ==>
      var s' := Step(s, RoutingUpdate);
      s'.queue.pending == s.queue.pending + [UpdateOp(s'.life.generation, s'.routingGeneration)] && s'.routingGeneration > s.routingGeneration
    ensures !s.life.disposed ==> Step(s, TunStopped).queue.pending == s.queue.pending + [TunStopOp(s.life.generation)]
    ensures s.queue.running.Idle? && s.queue.pending != [] && (s.queue.pending[0].UpdateOp? || s.queue.pending[0].TunStopOp?) ==>
      var op, s' := s.queue.pending[0], OnBeginNext(s, localRulesChanged);
      var applies :=
        && !s.life.disposed && op.gen == s.life.generation && s.phase == Connected && s.inbounds != {}
        && if op.UpdateOp? then op.routingGen == s.routingGeneration && !localRulesChanged else !s.hold.held;
      if applies then s'.queue.running == Reapplying(s.inbounds) else !s'.queue.running.Reapplying?
  {}
}
