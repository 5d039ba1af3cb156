/** No SSH session leaks, and every parked connection is answered once. */
module SshSupervisorSessions {
  import opened Prelude
  import opened SshSupervisor
  import opened SshSupervisorInvariant
  import opened SshSupervisorRouting
  import opened SshSupervisorTheorems

  // ----- Sessions -----

  /** The session a stopped operation disconnects before it ends. */
  predicate Holds(running: Activity, session: nat) {
    match running
    case Attempt(_, ReplacingSession(x)) => x == session
    case Attempt(_, DiscardingSession(x)) => x == session
    case Attempt(_, OpeningListener(x)) => x == session
    case Attempt(_, RebuildingRouting(x)) => x == session
    case Attempt(_, ApplyingRouting(x)) => x == session
    case Attempt(_, DroppingSession(x, _)) => x == session
    case CleaningUp(_, x, _) => x == session
    case Teardown(_, captured, _) => captured == Some(session)
    case _ => false
  }

  predicate HasCleanup(pending: seq<Op>, session: nat) {
    exists i :: 0 <= i < |pending| && pending[i].CleanupOp? && pending[i].session == session
  }

  predicate AccountedFor(s: State, session: nat) {
    || session in s.world.closed
    || Owns(s, session)
    || Holds(s.queue.running, session)
    || HasCleanup(s.queue.pending, session)
  }

  /** Every session ever handed out is the bridge's, closed, or held by an operation that closes it. */
  predicate NoLeak(s: State) {
    forall x :: x in s.world.obtained ==> AccountedFor(s, x)
  }

  lemma CleanupAfterAppend(pending: seq<Op>, op: Op, session: nat)
    ensures HasCleanup(pending + [op], session) <==> HasCleanup(pending, session) || (op.CleanupOp? && op.session == session)
  {
    var longer := pending + [op];
    if HasCleanup(pending, session) {
      var i :| 0 <= i < |pending| && pending[i].CleanupOp? && pending[i].session == session;
      assert longer[i] == pending[i];
    }
    assert longer[|pending|] == op;
  }

  lemma CleanupAfterTake(pending: seq<Op>, session: nat)
    requires pending != []
    ensures HasCleanup(pending, session) ==> HasCleanup(pending[1..], session) || (pending[0].CleanupOp? && pending[0].session == session)
  {
    if HasCleanup(pending, session) {
      var i :| 0 <= i < |pending| && pending[i].CleanupOp? && pending[i].session == session;
      assert i > 0 ==> pending[1..][i - 1] == pending[i];
    }
  }

  lemma EventKeepsSession(s: State, e: Event, env: Env, session: nat)
    requires AccountedFor(s, session) && !e.BeginNext? && !e.Resume?
    ensures AccountedFor(Step(s, e, env), session)
    ensures Step(s, e, env).world.obtained == s.world.obtained
  {
    var s' := Step(s, e, env);
    if |s'.queue.pending| == |s.queue.pending| + 1 {
      CleanupAfterAppend(s.queue.pending, s'.queue.pending[|s.queue.pending|], session);
    }
  }

  lemma BeginKeepsSession(s: State, tunUp: bool, env: Env, session: nat)
    requires AccountedFor(s, session)
    ensures AccountedFor(OnBeginNext(s, tunUp, env), session)
    ensures OnBeginNext(s, tunUp, env).world.obtained == s.world.obtained
  {
    if Ready(s) { CleanupAfterTake(s.queue.pending, session); }
  }

  lemma FailureKeepsSession(s: State, plan: Plan, failure: Failure, env: Env, session: nat)
    requires s.queue.running.Attempt?
    requires session in s.world.closed || Owns(s, session) || HasCleanup(s.queue.pending, session)
    ensures AccountedFor(AfterDrop(s, plan, failure, env), session)
    ensures AccountedFor(ConcludeFailure(s, plan, failure, env), session)
    ensures AfterDrop(s, plan, failure, env).world == s.world == ConcludeFailure(s, plan, failure, env).world
  {
    CleanupAfterAppend(s.queue.pending, StopRoutingOp, session);
  }

  lemma DialKeepsSession(s: State, outcome: Outcome, tunUp: bool, env: Env, session: nat)
    requires s.queue.running.Attempt? && s.queue.running.at.Dialling?
    requires IsCurrent(s, s.queue.running.plan.gen) ==> s.client.None?
    requires session in OnResume(s, outcome, tunUp, env).world.obtained
    requires session in s.world.obtained ==> AccountedFor(s, session)
    ensures AccountedFor(OnResume(s, outcome, tunUp, env), session)
  {
    if outcome.Failed? {
      FailureKeepsSession(CountRejection(s, outcome.failure), s.queue.running.plan, outcome.failure, env, session);
    }
  }

  lemma AttemptFailsKeepsSession(s: State, outcome: Outcome, tunUp: bool, env: Env, session: nat)
    requires s.queue.running.Attempt? && CanFail(s.queue.running.at)
    requires IsCurrent(s, s.queue.running.plan.gen) ==> s.client.None?
    requires session in OnResume(s, outcome, tunUp, env).world.obtained
    requires session in s.world.obtained ==> AccountedFor(s, session)
    ensures AccountedFor(OnResume(s, outcome, tunUp, env), session)
  {
    var plan := s.queue.running.plan;
    match s.queue.running.at
    case Dialling => DialKeepsSession(s, outcome, tunUp, env, session);
    case DroppingSession(x, failure) => FailureKeepsSession(Close(s, x), plan, failure, env, session);
    case ReleasingTun(failure) => FailureKeepsSession(s, plan, failure, env, session);
  }

  lemma AttemptMovesKeepsSession(s: State, outcome: Outcome, tunUp: bool, env: Env, session: nat)
    requires s.queue.running.Attempt? && !CanFail(s.queue.running.at)
    requires session in OnResume(s, outcome, tunUp, env).world.obtained
    requires session in s.world.obtained ==> AccountedFor(s, session)
    ensures AccountedFor(OnResume(s, outcome, tunUp, env), session)
  {
  }

  lemma OtherResumeKeepsSession(s: State, outcome: Outcome, tunUp: bool, env: Env, session: nat)
    requires !s.queue.running.Attempt?
    requires AccountedFor(s, session)
    ensures AccountedFor(OnResume(s, outcome, tunUp, env), session)
    ensures OnResume(s, outcome, tunUp, env).world.obtained == s.world.obtained
  {
    CleanupAfterAppend(s.queue.pending, StopRoutingOp, session);
  }

  lemma StepKeepsSession(s: State, e: Event, env: Env, session: nat)
    requires CoreInv(s) && session in Step(s, e, env).world.obtained
    requires session in s.world.obtained ==> AccountedFor(s, session)
    ensures AccountedFor(Step(s, e, env), session)
  {
    match e
    case BeginNext(tunUp) => BeginKeepsSession(s, tunUp, env, session);
    case Resume(outcome, tunUp) =>
      if !s.queue.running.Attempt? {
        OtherResumeKeepsSession(s, outcome, tunUp, env, session);
      } else if CanFail(s.queue.running.at) {
        AttemptFailsKeepsSession(s, outcome, tunUp, env, session);
      } else {
        AttemptMovesKeepsSession(s, outcome, tunUp, env, session);
      }
    case _ => EventKeepsSession(s, e, env, session);
  }

  lemma StepLeaksNothing(s: State, e: Event, env: Env)
    requires CoreInv(s) && NoLeak(s)
    ensures NoLeak(Step(s, e, env))
  {
    forall x | x in Step(s, e, env).world.obtained ensures AccountedFor(Step(s, e, env), x) {
      StepKeepsSession(s, e, env, x);
    }
  }

  // ----- Parked connections -----

  predicate ParkInv(s: State) {
    && s.parking.waiters !! s.parking.settled.Keys
    && (s.phase == Connected ==> s.parking.waiters == {})
  }

  /** A connection once answered keeps its answer, one that waited still waits or was answered now,
      and one resolved now got the session that is Connected. */
  ghost predicate Answers(s: State, s': State) {
    && (forall w :: w in s.parking.settled ==> w in s'.parking.settled && s'.parking.settled[w] == s.parking.settled[w])
    && (forall w :: w in s.parking.waiters ==> w in s'.parking.waiters || w in s'.parking.settled)
    && (forall w :: w in s'.parking.settled && w !in s.parking.settled && s'.parking.settled[w].Resolved? ==>
          s'.phase == Connected && Owns(s', s'.parking.settled[w].session))
  }

  lemma EventAnswers(s: State, e: Event, env: Env)
    requires CoreInv(s) && ParkInv(s) && !e.Resume? && !e.BeginNext?
    ensures ParkInv(Step(s, e, env)) && Answers(s, Step(s, e, env))
  {
  }

  lemma BeginAnswers(s: State, tunUp: bool, env: Env)
    requires ParkInv(s)
    ensures ParkInv(OnBeginNext(s, tunUp, env)) && Answers(s, OnBeginNext(s, tunUp, env))
  {
    assert OnBeginNext(s, tunUp, env).parking == s.parking;
    assert OnBeginNext(s, tunUp, env).phase == s.phase;
  }

  lemma SucceedAnswers(s: State, session: nat)
    requires ParkInv(s) && Owns(s, session)
    ensures ParkInv(Succeed(s, session)) && Answers(s, Succeed(s, session))
  {
  }

  lemma FailureAnswers(s: State, plan: Plan, failure: Failure, env: Env)
    ensures AfterDrop(s, plan, failure, env).parking == s.parking == ConcludeFailure(s, plan, failure, env).parking
  {
  }

  lemma AttemptMovesAnswers(s: State, outcome: Outcome, tunUp: bool, env: Env)
    requires CoreInv(s) && ParkInv(s) && s.queue.running.Attempt? && !CanFail(s.queue.running.at)
    ensures ParkInv(OnResume(s, outcome, tunUp, env)) && Answers(s, OnResume(s, outcome, tunUp, env))
  {
    var plan := s.queue.running.plan;
    match s.queue.running.at
    case OpeningListener(session) =>
      if !outcome.Failed? && !Overtaken(s, plan, session) { SucceedAnswers(s.(listenerUp := true), session); }
    case ApplyingRouting(session) =>
      if !outcome.Failed? && !Overtaken(s, plan, session) { SucceedAnswers(NoteOvertakenApply(s, tunUp, true), session); }
    case _ =>
  }

  lemma AttemptFailsAnswers(s: State, outcome: Outcome, tunUp: bool, env: Env)
    requires CoreInv(s) && ParkInv(s) && s.queue.running.Attempt? && CanFail(s.queue.running.at)
    ensures ParkInv(OnResume(s, outcome, tunUp, env)) && Answers(s, OnResume(s, outcome, tunUp, env))
  {
    match s.queue.running.at
    case Dialling =>
      if outcome.Failed? { AttemptFailureAnswers(s, CountRejection(s, outcome.failure), outcome.failure, env); }
    case DroppingSession(session, failure) => AttemptFailureAnswers(s, Close(s, session), failure, env);
    case ReleasingTun(failure) => AttemptFailureAnswers(s, s, failure, env);
  }

  /** A failed attempt answers nobody: the connections keep waiting for the retry. */
  lemma AttemptFailureAnswers(s: State, told: State, failure: Failure, env: Env)
    requires s.queue.running.Attempt? && s.phase != Connected && ParkInv(s)
    requires told.parking == s.parking && told.phase == s.phase
    ensures var plan := s.queue.running.plan;
            && ParkInv(AfterDrop(told, plan, failure, env)) && Answers(s, AfterDrop(told, plan, failure, env))
            && ParkInv(ConcludeFailure(told, plan, failure, env)) && Answers(s, ConcludeFailure(told, plan, failure, env))
  {
    FailureAnswers(told, s.queue.running.plan, failure, env);
    FailureIsNotConnected(told, s.queue.running.plan, failure, env);
  }

  lemma OtherResumeAnswers(s: State, outcome: Outcome, tunUp: bool, env: Env)
    requires ParkInv(s) && !s.queue.running.Attempt?
    ensures ParkInv(OnResume(s, outcome, tunUp, env)) && Answers(s, OnResume(s, outcome, tunUp, env))
  {
  }

  lemma StepAnswers(s: State, e: Event, env: Env)
    requires CoreInv(s) && ParkInv(s)
    ensures ParkInv(Step(s, e, env)) && Answers(s, Step(s, e, env))
  {
    match e
    case BeginNext(tunUp) => BeginAnswers(s, tunUp, env);
    case Resume(outcome, tunUp) =>
      if !s.queue.running.Attempt? {
        OtherResumeAnswers(s, outcome, tunUp, env);
      } else if CanFail(s.queue.running.at) {
        AttemptFailsAnswers(s, outcome, tunUp, env);
      } else {
        AttemptMovesAnswers(s, outcome, tunUp, env);
      }
    case _ => EventAnswers(s, e, env);
  }

  // ----- Over whole runs -----

  lemma {:induction false} RunKeepsSessions(s: State, turns: seq<Turn>)
    requires SupervisorInv(s) && NoLeak(s) && ParkInv(s)
    ensures NoLeak(Run(s, turns)) && ParkInv(Run(s, turns))
    decreases |turns|
  {
    if turns != [] {
      var e, env := turns[0].event, turns[0].env;
      StepKeepsSupervisor(s, e, env);
      StepLeaksNothing(s, e, env);
      StepAnswers(s, e, env);
      RunKeepsSessions(Step(s, e, env), turns[1..]);
    }
  }

  /** In every run, each session that was ever opened is the bridge's own, closed, or about to be closed by queued work. */
  lemma NoSessionLeaks(turns: seq<Turn>, session: nat)
    requires session in Run(INITIAL, turns).world.obtained
    ensures AccountedFor(Run(INITIAL, turns), session)
  {
    RunKeepsSessions(INITIAL, turns);
  }

  /** Connected leaves nobody waiting. */
  lemma ConnectedLeavesNobodyParked(turns: seq<Turn>)
    requires Run(INITIAL, turns).phase == Connected
    ensures Run(INITIAL, turns).parking.waiters == {}
  {
    RunKeepsSessions(INITIAL, turns);
  }

  lemma {:induction false} AnswerIsFinal(s: State, turns: seq<Turn>, waiter: nat)
    requires SupervisorInv(s) && ParkInv(s) && waiter in s.parking.settled
    ensures waiter in Run(s, turns).parking.settled && waiter !in Run(s, turns).parking.waiters
    ensures Run(s, turns).parking.settled[waiter] == s.parking.settled[waiter]
    decreases |turns|
  {
    if turns != [] {
      var e, env := turns[0].event, turns[0].env;
      StepKeepsSupervisor(s, e, env);
      StepAnswers(s, e, env);
      AnswerIsFinal(Step(s, e, env), turns[1..], waiter);
    }
  }
}
