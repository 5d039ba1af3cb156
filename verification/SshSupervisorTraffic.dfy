/**
 What the SSH supervisor does to traffic: the answer each parked connection
 gets, and the turns at which system routing and its hold go up and come down.
 */
module SshSupervisorTraffic {
  import opened Prelude
  import opened SshSupervisor
  import opened SshSupervisorInvariant
  import opened SshSupervisorRouting
  import opened SshSupervisorTheorems
  import opened SshSupervisorSessions
  import opened SshSupervisorDecisions

  // ----- Parked connections -----

  /** The turns at which `stopLocalListener` is entered: after system routing came down for a teardown or a halt. */
  predicate StopsListener(s: State, e: Event) {
    && e.Resume?
    && (|| (s.queue.running.Teardown? && s.queue.running.stop == AtSystemRouting)
        || s.queue.running == RoutingStopping(AtSystemRouting))
  }

  /** The answer a waiting connection gets at this turn, if any. */
  function Answer(s: State, e: Event, waiter: nat): Option<Settlement>
    requires Connects(s, e) ==> s.client.Some?
  {
    if Connects(s, e) then Some(Resolved(s.client.value.id))
    else if StopsListener(s, e) then Some(Refused)
    else if e == ParkTimeout(waiter) then Some(TimedOut)
    else if e == ParkAbort(waiter) then Some(Aborted)
    else None
  }

  lemma ConnectsWithSession(s: State, e: Event)
    requires CoreInv(s) && Connects(s, e)
    ensures s.client == Some(Session(s.queue.running.at.session, s.life.generation))
  {}

  lemma AttemptAnswers(s: State, outcome: Outcome, tunUp: bool, env: Env)
    requires CoreInv(s) && s.queue.running.Attempt?
    ensures OnResume(s, outcome, tunUp, env).parking ==
      if Connects(s, Resume(outcome, tunUp)) then SettleAll(s.parking, Resolved(s.queue.running.at.session)) else s.parking
  {
    var plan := s.queue.running.plan;
    match s.queue.running.at
    case Dialling => if outcome.Failed? { FailureAnswers(CountRejection(s, outcome.failure), plan, outcome.failure, env); }
    case DroppingSession(session, failure) => FailureAnswers(Close(s, session), plan, failure, env);
    case ReleasingTun(failure) => FailureAnswers(s, plan, failure, env);
    case _ =>
  }

  lemma OtherResumeAnswersExactly(s: State, outcome: Outcome, tunUp: bool, env: Env)
    requires !s.queue.running.Attempt?
    ensures OnResume(s, outcome, tunUp, env).parking ==
      if StopsListener(s, Resume(outcome, tunUp)) then SettleAll(s.parking, Refused) else s.parking
  {}

  lemma BeginLeavesParked(s: State, tunUp: bool, env: Env)
    ensures OnBeginNext(s, tunUp, env).parking == s.parking
  {}

  lemma EventAnswersExactly(s: State, e: Event, env: Env, waiter: nat)
    requires ParkInv(s) && waiter in s.parking.waiters && !e.Resume? && !e.BeginNext?
    ensures var s' := Step(s, e, env);
      if e == ParkTimeout(waiter) || e == ParkAbort(waiter)
      then waiter !in s'.parking.waiters && waiter in s'.parking.settled
           && s'.parking.settled[waiter] == (if e.ParkTimeout? then TimedOut else Aborted)
      else waiter in s'.parking.waiters && waiter !in s'.parking.settled
  {}

  /** A connection that waits gets exactly that answer: the session that becomes Connected, a refusal when the listener is
      stopped, its own timeout or its own abort; and goes on waiting at every other turn. */
  lemma WaiterIsAnswered(s: State, e: Event, env: Env, waiter: nat)
    requires CoreInv(s) && ParkInv(s) && waiter in s.parking.waiters
    ensures Connects(s, e) ==> s.client.Some?
    ensures var s', answer := Step(s, e, env), Answer(s, e, waiter);
      if answer.Some? then waiter in s'.parking.settled && s'.parking.settled[waiter] == answer.value && waiter !in s'.parking.waiters
      else waiter in s'.parking.waiters && waiter !in s'.parking.settled
  {
    if Connects(s, e) { ConnectsWithSession(s, e); }
    match e
    case BeginNext(tunUp) => BeginLeavesParked(s, tunUp, env);
    case Resume(outcome, tunUp) =>
      if s.queue.running.Attempt? { AttemptAnswers(s, outcome, tunUp, env); } else { OtherResumeAnswersExactly(s, outcome, tunUp, env); }
    case _ => EventAnswersExactly(s, e, env, waiter);
  }

  /** A new connection gets the session where one is Connected, is refused where none is wanted, and otherwise waits,
      unless it was aborted before. */
  lemma ArrivalIsAnswered(s: State, env: Env, waiter: nat, aborted: bool)
    requires CoreInv(s) && ParkInv(s) && waiter !in s.parking.waiters && waiter !in s.parking.settled
    ensures var parking := Step(s, Park(waiter, aborted), env).parking;
      if s.phase == Connected then s.client.Some? && parking == Parking(s.parking.waiters, s.parking.settled[waiter := Resolved(s.client.value.id)])
      else if !Wanted(s) then parking == Parking(s.parking.waiters, s.parking.settled[waiter := Refused])
      else if aborted then parking == Parking(s.parking.waiters, s.parking.settled[waiter := Aborted])
      else parking == Parking(s.parking.waiters + {waiter}, s.parking.settled)
  {}

  /** Over every run: when the status becomes Connected, every connection that waits gets that very session. */
  lemma ConnectingServesEveryone(turns: seq<Turn>, e: Event, env: Env, waiter: nat)
    requires var s := Run(INITIAL, turns);
      s.phase != Connected && Step(s, e, env).phase == Connected && waiter in s.parking.waiters
    ensures var s' := Step(Run(INITIAL, turns), e, env);
      s'.client.Some? && waiter in s'.parking.settled && s'.parking.settled[waiter] == Resolved(s'.client.value.id)
  {
    var s := Run(INITIAL, turns);
    Reached(turns);
    RunKeepsSessions(INITIAL, turns);
    ConnectsExactly(s, e, env);
    AttemptConnects(s, e.outcome, e.tunUp, env);
    WaiterIsAnswered(s, e, env, waiter);
  }

  // ----- System routing -----

  /** What an attempt keeps: an automatic one the routing in force, while the listener is up; and of that an adapter that
      still runs, while no rule has changed. */
  predicate KeepsRouting(s: State, trigger: Trigger) { trigger == Automatic && s.hold.applied && s.listenerUp }

  predicate KeepsAdapter(s: State, trigger: Trigger, tunUp: bool) { KeepsRouting(s, trigger) && tunUp && !s.hold.changedWhileDown }

  lemma AttemptBegins(s: State, tunUp: bool, env: Env)
    requires Ready(s) && s.queue.pending[0].ConnectOp? && s.queue.pending[0].gen == s.life.generation
    ensures var trigger, s' := s.queue.pending[0].trigger, OnBeginNext(s, tunUp, env);
      var plan := Plan(s.life.generation, trigger, KeepsRouting(s, trigger), KeepsAdapter(s, trigger, tunUp));
      && s'.retry.lastAttemptAt == env.now && s'.queue.pending == s.queue.pending[1..]
      && s'.queue.running == Attempt(plan,
           if !KeepsRouting(s, trigger) then StoppingRouting
           else if s.client.Some? then ReplacingSession(s.client.value.id) else Dialling)
  {}

  predicate BeginsTakingDown(s: State, op: Op) {
    match op
    case ConnectOp(gen, trigger) => gen == s.life.generation && !KeepsRouting(s, trigger)
    case DisconnectOp(gen) => gen == s.life.generation
    case StopRoutingOp => true
    case HoldStopOp(holdGen) => holdGen == s.hold.generation && s.client.None? && !s.life.disconnectRequested
    case _ => false
  }

  /** The adapter is rebuilt for a session that is up, or released because the session it was kept for did not come. */
  predicate AttemptTakesDown(s: State, outcome: Outcome, tunUp: bool) {
    && CurrentAttempt(s)
    && match s.queue.running.at
       case OpeningListener(_) => !outcome.Failed? && s.queue.running.plan.holdRouting && !s.queue.running.plan.holdTun && tunUp
       case Dialling => outcome.Failed? && s.queue.running.plan.holdTun
       case DroppingSession(_, _) => s.queue.running.plan.holdTun
       case _ => false
  }

  predicate TakesRoutingDown(s: State, e: Event) {
    match e
    case BeginNext(_) => Ready(s) && BeginsTakingDown(s, s.queue.pending[0])
    case Resume(outcome, tunUp) => AttemptTakesDown(s, outcome, tunUp)
    case _ => false
  }

  /** Routing is about to be applied, for a session the bridge owns or for one it lost during the rebuild. */
  predicate PutsRoutingUp(s: State, e: Event) {
    && e.Resume? && s.queue.running.Attempt?
    && match s.queue.running.at
       case OpeningListener(_) =>
         && CurrentAttempt(s) && !e.outcome.Failed?
         && (s.queue.running.plan.holdTun || !(s.queue.running.plan.holdRouting && e.tunUp))
       case RebuildingRouting(_) => true
       case ApplyingRouting(_) => Connects(s, e)
       case _ => false
  }

  lemma FailureRouting(s: State, plan: Plan, failure: Failure, env: Env)
    ensures ConcludeFailure(s, plan, failure, env).hold.applied == s.hold.applied
    ensures AfterDrop(s, plan, failure, env).hold.applied == (s.hold.applied && !(plan.holdTun && IsCurrent(s, plan.gen)))
  {}

  lemma AttemptRouting(s: State, outcome: Outcome, tunUp: bool, env: Env)
    requires CoreInv(s) && s.queue.running.Attempt?
    ensures OnResume(s, outcome, tunUp, env).hold.applied <==>
      PutsRoutingUp(s, Resume(outcome, tunUp)) || (s.hold.applied && !AttemptTakesDown(s, outcome, tunUp))
  {
    var plan := s.queue.running.plan;
    match s.queue.running.at
    case Dialling => if outcome.Failed? { FailureRouting(CountRejection(s, outcome.failure), plan, outcome.failure, env); }
    case DroppingSession(session, failure) => FailureRouting(Close(s, session), plan, failure, env);
    case ReleasingTun(failure) => FailureRouting(s, plan, failure, env);
    case _ =>
  }

  lemma EventsLeaveRouting(s: State, e: Event, env: Env)
    requires !e.Resume? && !e.BeginNext?
    ensures Step(s, e, env).hold.applied == s.hold.applied && Step(s, e, env).hold.changedWhileDown == s.hold.changedWhileDown
    ensures Step(s, e, env).listenerUp == s.listenerUp
  {}

  lemma BeginOpRouting(s: State, op: Op, tunUp: bool, env: Env)
    requires s.life.disposed ==> s.life.disconnectRequested
    ensures BeginOp(s, op, tunUp, env).hold.applied <==> s.hold.applied && !BeginsTakingDown(s, op)
  {}

  lemma BeginRouting(s: State, tunUp: bool, env: Env)
    requires CoreInv(s)
    ensures OnBeginNext(s, tunUp, env).hold.applied <==> s.hold.applied && !TakesRoutingDown(s, BeginNext(tunUp))
  {
    if Ready(s) { BeginOpRouting(TakeHead(s), s.queue.pending[0], tunUp, env); }
  }

  lemma OtherResumeLeavesRouting(s: State, outcome: Outcome, tunUp: bool, env: Env)
    requires !s.queue.running.Attempt?
    ensures OnResume(s, outcome, tunUp, env).hold.applied == s.hold.applied
    ensures OnResume(s, outcome, tunUp, env).hold.timer == s.hold.timer
  {}

  /** System routing is applied after a turn if and only if the turn put it up, or it was and the turn did not take it down. */
  lemma RoutingMovesExactly(s: State, e: Event, env: Env)
    requires CoreInv(s)
    ensures Step(s, e, env).hold.applied <==> PutsRoutingUp(s, e) || (s.hold.applied && !TakesRoutingDown(s, e))
  {
    match e
    case BeginNext(tunUp) => BeginRouting(s, tunUp, env);
    case Resume(outcome, tunUp) =>
      if s.queue.running.Attempt? { AttemptRouting(s, outcome, tunUp, env); } else { OtherResumeLeavesRouting(s, outcome, tunUp, env); }
    case _ => EventsLeaveRouting(s, e, env);
  }

  /** The listener comes up with a session's, and is stopped with nothing else but a teardown or a halt. */
  lemma ListenerMovesExactly(s: State, e: Event, env: Env)
    requires CoreInv(s)
    ensures Step(s, e, env).listenerUp <==>
      || (e.Resume? && s.queue.running.Attempt? && s.queue.running.at.OpeningListener? && !e.outcome.Failed?)
      || (s.listenerUp && !StopsListener(s, e))
  {
    match e
    case BeginNext(tunUp) => BeginLeavesListener(s, tunUp, env);
    case Resume(outcome, tunUp) => ResumeMovesListener(s, outcome, tunUp, env);
    case _ => EventsLeaveRouting(s, e, env);
  }

  lemma BeginLeavesListener(s: State, tunUp: bool, env: Env)
    ensures OnBeginNext(s, tunUp, env).listenerUp == s.listenerUp
  {}

  lemma ResumeMovesListener(s: State, outcome: Outcome, tunUp: bool, env: Env)
    requires CoreInv(s)
    ensures OnResume(s, outcome, tunUp, env).listenerUp <==>
      || (s.queue.running.Attempt? && s.queue.running.at.OpeningListener? && !outcome.Failed?)
      || (s.listenerUp && !StopsListener(s, Resume(outcome, tunUp)))
  {
    if s.queue.running.Attempt? { AttemptMovesListener(s, outcome, tunUp, env); } else { OtherResumeMovesListener(s, outcome, tunUp, env); }
  }

  lemma AttemptMovesListener(s: State, outcome: Outcome, tunUp: bool, env: Env)
    requires CoreInv(s) && s.queue.running.Attempt?
    ensures OnResume(s, outcome, tunUp, env).listenerUp <==> (s.queue.running.at.OpeningListener? && !outcome.Failed?) || s.listenerUp
  {
    var plan := s.queue.running.plan;
    match s.queue.running.at
    case Dialling => if outcome.Failed? { FailureLeavesListener(CountRejection(s, outcome.failure), plan, outcome.failure, env); }
    case DroppingSession(session, failure) => FailureLeavesListener(Close(s, session), plan, failure, env);
    case ReleasingTun(failure) => FailureLeavesListener(s, plan, failure, env);
    case _ =>
  }

  lemma OtherResumeMovesListener(s: State, outcome: Outcome, tunUp: bool, env: Env)
    requires !s.queue.running.Attempt?
    ensures OnResume(s, outcome, tunUp, env).listenerUp <==> s.listenerUp && !StopsListener(s, Resume(outcome, tunUp))
  {}

  lemma FailureLeavesListener(s: State, plan: Plan, failure: Failure, env: Env)
    ensures ConcludeFailure(s, plan, failure, env).listenerUp == s.listenerUp
    ensures AfterDrop(s, plan, failure, env).listenerUp == s.listenerUp
  {}

  predicate Ends(s: State, gen: nat, s': State) {
    if gen == s.life.generation then s'.phase == Disconnected && s'.retry.attempt == 0
    else s'.phase == s.phase && s'.retry == s.retry
  }

  /** A teardown takes routing down, stops the listener, closes the session it took over and then shows Disconnected, unless
      it was overtaken; the stop after a halt does the first two. */
  lemma TeardownGoesOn(s: State, outcome: Outcome, tunUp: bool, env: Env)
    requires s.queue.running.Teardown? || s.queue.running.RoutingStopping?
    ensures var s' := OnResume(s, outcome, tunUp, env);
      match s.queue.running
      case Teardown(gen, captured, AtSystemRouting) => s'.queue.running == Teardown(gen, captured, AtListener)
      case Teardown(gen, captured, AtListener) =>
        if captured.Some? then s'.queue.running == Teardown(gen, captured, AtSession)
        else s'.queue.running.Idle? && Ends(s, gen, s')
      case Teardown(gen, captured, AtSession) =>
        && s'.queue.running.Idle? && (captured.Some? ==> captured.value in s'.world.closed) && Ends(s, gen, s')
      case RoutingStopping(stop) => s'.queue.running == if stop == AtSystemRouting then RoutingStopping(AtListener) else Idle
      case _ => true
  {}

  lemma TeardownBegins(s: State, tunUp: bool, env: Env)
    requires Ready(s) && (s.queue.pending[0].DisconnectOp? || s.queue.pending[0].StopRoutingOp?)
    ensures var op, s' := s.queue.pending[0], OnBeginNext(s, tunUp, env);
      if op.StopRoutingOp? then s'.queue.running == RoutingStopping(AtSystemRouting) && s'.client == s.client
      else if op.gen != s.life.generation then s'.queue.running.Idle? && s'.client == s.client
      else && s'.queue.running == Teardown(op.gen, if s.client.Some? then Some(s.client.value.id) else None, AtSystemRouting)
           && s'.client.None?
  {}

  // ----- The hold -----

  /** The session is gone, or an attempt at it has failed, with routing in force. */
  predicate Interrupts(s: State, e: Event) {
    || (e.ClientFailure? && e.retryable && s.client == Some(Session(e.session, e.gen)) && e.gen == s.life.generation)
    || EndsWith(s, e).Some?
  }

  lemma FailureHolds(s: State, plan: Plan, failure: Failure, env: Env)
    requires plan.gen == s.life.generation
    ensures ConcludeFailure(s, plan, failure, env).hold == SuspendTunnel(s).hold
  {}

  lemma AttemptHolds(s: State, outcome: Outcome, tunUp: bool, env: Env)
    requires CoreInv(s) && s.queue.running.Attempt? && s.hold.timer.None?
    ensures OnResume(s, outcome, tunUp, env).hold.timer.Some? <==>
      EndsWith(s, Resume(outcome, tunUp)).Some? && s.hold.applied && !s.hold.stopQueued
  {
    if EndsWith(s, Resume(outcome, tunUp)).Some? {
      var plan, failure := s.queue.running.plan, EndsWith(s, Resume(outcome, tunUp)).value;
      match s.queue.running.at
      case Dialling => FailureHolds(CountRejection(s, failure), plan, failure, env);
      case DroppingSession(session, _) => FailureHolds(Close(s, session), plan, failure, env);
      case ReleasingTun(_) => FailureHolds(s, plan, failure, env);
    } else if !CurrentAttempt(s) {
      StaleHolds(s, outcome, tunUp, env);
    }
  }

  lemma StaleHolds(s: State, outcome: Outcome, tunUp: bool, env: Env)
    requires s.queue.running.Attempt? && !CurrentAttempt(s)
    ensures OnResume(s, outcome, tunUp, env).hold.timer == s.hold.timer
  {
    var plan := s.queue.running.plan;
    match s.queue.running.at
    case Dialling => if outcome.Failed? { StaleFailureSettles(CountRejection(s, outcome.failure), plan, outcome.failure, env); }
    case DroppingSession(session, failure) => StaleFailureSettles(Close(s, session), plan, failure, env);
    case ReleasingTun(failure) => StaleFailureSettles(s, plan, failure, env);
    case _ =>
  }

  lemma EventsHold(s: State, e: Event, env: Env)
    requires CoreInv(s) && s.hold.timer.None? && !e.Resume? && !e.BeginNext?
    ensures Step(s, e, env).hold.timer.Some? <==> Interrupts(s, e) && s.hold.applied && !s.hold.stopQueued
  {}

  lemma BeginHolds(s: State, tunUp: bool, env: Env)
    requires s.hold.timer.None?
    ensures OnBeginNext(s, tunUp, env).hold.timer.None?
  {}

  /** Where none runs, the clock of a hold starts if and only if the turn interrupts a session with routing in force and no
      stop of an expired hold is queued. */
  lemma HoldStartsExactly(s: State, e: Event, env: Env)
    requires CoreInv(s) && s.hold.timer.None?
    ensures Step(s, e, env).hold.timer.Some? <==> Interrupts(s, e) && s.hold.applied && !s.hold.stopQueued
  {
    match e
    case BeginNext(tunUp) => BeginHolds(s, tunUp, env);
    case Resume(outcome, tunUp) =>
      if s.queue.running.Attempt? { AttemptHolds(s, outcome, tunUp, env); } else { OtherResumeLeavesRouting(s, outcome, tunUp, env); }
    case _ => EventsHold(s, e, env);
  }

  /** The clock runs out into a queued stop if no session came back meanwhile and one is still wanted. */
  lemma HoldExpires(s: State, env: Env)
    requires CoreInv(s) && s.hold.timer.Some?
    ensures var s' := Step(s, HoldTimerFires, env);
      && s'.hold.timer.None? && s'.hold.applied == s.hold.applied
      && if s.client.None? && !s.life.disconnectRequested && s.hold.applied
         then s'.hold.stopQueued && s'.queue.pending == s.queue.pending + [HoldStopOp(s.hold.timer.value)]
         else s'.hold.stopQueued == s.hold.stopQueued && s'.queue == s.queue
  {}

  // ----- Rules that change while the session is down -----

  /** A routing update that is still the latest, or an apply overtaken by the loss of its session with an adapter up, finds
      routing in force that it cannot change now. */
  predicate FindsRulesChanged(s: State, e: Event) {
    && s.hold.applied && s.life.hasRequest && !s.life.disconnectRequested
    && match e
       case BeginNext(_) =>
         && Ready(s) && s.queue.pending[0].UpdateOp? && s.queue.pending[0].gen == s.life.generation
         && s.queue.pending[0].routingGen == s.routingGeneration && !(s.phase == Connected && s.listenerUp)
       case Resume(outcome, tunUp) =>
         && tunUp
         && (|| (s.queue.running.Reapplying? && s.phase != Connected)
             || (s.queue.running.Attempt? && s.queue.running.at.ApplyingRouting? && !outcome.Failed? && s.phase == Error))
       case _ => false
  }

  lemma AttemptFindsRules(s: State, outcome: Outcome, tunUp: bool, env: Env)
    requires CoreInv(s) && s.queue.running.Attempt?
    ensures OnResume(s, outcome, tunUp, env).hold.changedWhileDown <==>
      FindsRulesChanged(s, Resume(outcome, tunUp)) || (s.hold.changedWhileDown && !Connects(s, Resume(outcome, tunUp)))
  {
    var plan := s.queue.running.plan;
    match s.queue.running.at
    case Dialling => if outcome.Failed? { FailureKeepsRules(CountRejection(s, outcome.failure), plan, outcome.failure, env); }
    case DroppingSession(session, failure) => FailureKeepsRules(Close(s, session), plan, failure, env);
    case ReleasingTun(failure) => FailureKeepsRules(s, plan, failure, env);
    case _ =>
  }

  lemma FailureKeepsRules(s: State, plan: Plan, failure: Failure, env: Env)
    ensures ConcludeFailure(s, plan, failure, env).hold.changedWhileDown == s.hold.changedWhileDown
    ensures AfterDrop(s, plan, failure, env).hold.changedWhileDown == s.hold.changedWhileDown
  {}

  lemma BeginFindsRules(s: State, tunUp: bool, env: Env)
    requires CoreInv(s)
    ensures OnBeginNext(s, tunUp, env).hold.changedWhileDown <==> FindsRulesChanged(s, BeginNext(tunUp)) || s.hold.changedWhileDown
  {}

  lemma OtherResumeFindsRules(s: State, outcome: Outcome, tunUp: bool, env: Env)
    requires CoreInv(s) && !s.queue.running.Attempt?
    ensures OnResume(s, outcome, tunUp, env).hold.changedWhileDown <==>
      FindsRulesChanged(s, Resume(outcome, tunUp)) || s.hold.changedWhileDown
  {}

  /** The adapter is marked for a rebuild by exactly these turns, until a session is Connected. */
  lemma RulesChangeIsNoticed(s: State, e: Event, env: Env)
    requires CoreInv(s)
    ensures Step(s, e, env).hold.changedWhileDown <==>
      FindsRulesChanged(s, e) || (s.hold.changedWhileDown && !Connects(s, e))
  {
    match e
    case BeginNext(tunUp) => BeginFindsRules(s, tunUp, env);
    case Resume(outcome, tunUp) =>
      if s.queue.running.Attempt? { AttemptFindsRules(s, outcome, tunUp, env); } else { OtherResumeFindsRules(s, outcome, tunUp, env); }
    case _ => EventsLeaveRouting(s, e, env);
  }

  /** A current, undisposed update is queued under a new number, and re-applied where a session and the listener are up. */
  lemma UpdateIsApplied(s: State, tunUp: bool, env: Env)
    requires CoreInv(s)
    ensures !s.life.disposed ==> Step(s, RoutingUpdate, env).queue.pending == s.queue.pending + [UpdateOp(s.life.generation, s.routingGeneration + 1)]
    ensures !s.life.disposed ==> Step(s, RoutingUpdate, env).routingGeneration == s.routingGeneration + 1
    ensures !s.life.disposed ==> Step(s, TunStopped, env).queue.pending == s.queue.pending + [ReapplyOp(s.life.generation)]
    ensures Ready(s) && (s.queue.pending[0].UpdateOp? || s.queue.pending[0].ReapplyOp?) ==>
      (OnBeginNext(s, tunUp, env).queue.running.Reapplying? <==>
        && !s.life.disposed && s.queue.pending[0].gen == s.life.generation && s.phase == Connected && s.listenerUp
        && (if s.queue.pending[0].UpdateOp? then s.queue.pending[0].routingGen == s.routingGeneration else s.hold.applied))
  {}
}
