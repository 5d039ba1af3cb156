/** The routing hold: system routing is never left pointing at a tunnel nobody is bringing back. */
module SshSupervisorRouting {
  import opened Prelude
  import opened SshSupervisor
  import opened SshSupervisorInvariant

  // ----- The hold and the stop it queues -----

  predicate IsStop(op: Op, holdGen: nat) { op == HoldStopOp(holdGen) }

  ghost predicate StopsOk(hold: Hold, pending: seq<Op>) {
    && (hold.timer.Some? ==> hold.timer.value == hold.generation && hold.applied && !hold.stopQueued)
    && (hold.stopQueued ==> hold.applied && exists i :: 0 <= i < |pending| && IsStop(pending[i], hold.generation))
    && (forall i :: 0 <= i < |pending| && pending[i].HoldStopOp? ==>
          pending[i].holdGen <= hold.generation && (IsStop(pending[i], hold.generation) ==> hold.stopQueued))
    && (forall i, j :: 0 <= i < j < |pending| ==>
          !(IsStop(pending[i], hold.generation) && IsStop(pending[j], hold.generation)))
  }

  ghost predicate HoldInv(s: State) {
    && StopsOk(s.hold, s.queue.pending)
    && (s.queue.running.Attempt? && s.queue.running.at.RebuildingRouting? ==> !s.hold.applied)
  }

  /** How one turn may change the hold, expiry and the start of its stop aside. */
  predicate HoldStep(hold: Hold, hold': Hold) {
    if hold'.generation == hold.generation
    then hold'.timer == hold.timer && hold'.stopQueued == hold.stopQueued && (hold.applied ==> hold'.applied)
    else
      && hold'.generation > hold.generation
      && !hold'.stopQueued
      && (hold'.timer.Some? ==> hold'.timer.value == hold'.generation && hold'.applied && !hold.stopQueued)
  }

  lemma StopsAfterStep(hold: Hold, hold': Hold, pending: seq<Op>, pending': seq<Op>)
    requires StopsOk(hold, pending) && HoldStep(hold, hold')
    requires pending <= pending' && |pending'| <= |pending| + 1
    requires |pending'| > |pending| ==> !pending'[|pending|].HoldStopOp?
    ensures StopsOk(hold', pending')
  {
    if hold'.stopQueued {
      var i :| 0 <= i < |pending| && IsStop(pending[i], hold.generation);
      assert IsStop(pending'[i], hold'.generation);
    }
  }

  lemma StopsAfterExpiry(hold: Hold, pending: seq<Op>)
    requires StopsOk(hold, pending) && hold.timer.Some?
    ensures StopsOk(hold.(timer := None, stopQueued := true), pending + [HoldStopOp(hold.timer.value)])
    ensures StopsOk(hold.(timer := None), pending)
  {
    assert IsStop((pending + [HoldStopOp(hold.timer.value)])[|pending|], hold.generation);
  }

  lemma StopsAfterTake(hold: Hold, pending: seq<Op>)
    requires StopsOk(hold, pending) && pending != []
    ensures !IsStop(pending[0], hold.generation) ==> StopsOk(hold, pending[1..])
    ensures IsStop(pending[0], hold.generation) ==> StopsOk(hold.(stopQueued := false), pending[1..])
  {
    if hold.stopQueued && !IsStop(pending[0], hold.generation) {
      var i :| 0 <= i < |pending| && IsStop(pending[i], hold.generation);
      assert IsStop(pending[1..][i - 1], hold.generation);
    }
  }

  /** A turn queues at most one operation, and only an expiring hold queues a hold stop. */
  predicate QueueStep(s: State, s': State) {
    && s.queue.pending <= s'.queue.pending
    && |s'.queue.pending| <= |s.queue.pending| + 1
    && (|s'.queue.pending| > |s.queue.pending| ==> !s'.queue.pending[|s.queue.pending|].HoldStopOp?)
  }

  /** A resumed operation only ever halts reconnecting, and queues a routing stop only when it does. */
  predicate ResumeStep(s: State, s': State) {
    && QueueStep(s, s')
    && HoldStep(s.hold, s'.hold)
    && (s'.life == s.life || s'.life == s.life.(reconnectHalted := true))
    && (|s'.queue.pending| > |s.queue.pending| ==> s'.life.reconnectHalted)
  }

  predicate RebuildOk(s: State) {
    s.queue.running.Attempt? && s.queue.running.at.RebuildingRouting? ==> !s.hold.applied
  }

  lemma EventQueueStep(s: State, e: Event, env: Env)
    requires !e.BeginNext? && !e.HoldTimerFires? && !e.Resume?
    ensures QueueStep(s, Step(s, e, env)) && HoldStep(s.hold, Step(s, e, env).hold)
    ensures RebuildOk(s) ==> RebuildOk(Step(s, e, env))
  {
  }

  lemma FailureQueueStep(s: State, plan: Plan, failure: Failure, env: Env)
    ensures ResumeStep(s, ConcludeFailure(s, plan, failure, env))
    ensures ConcludeFailure(s, plan, failure, env).queue.running.Idle?
  {
    var told := SuspendTunnel(s).(phase := if plan.trigger == User then Error else Reconnecting);
    assert HoldStep(s.hold, told.hold);
    assert ResumeStep(told, HandleConnectFailure(told, failure, plan.gen, plan.trigger, env));
  }

  lemma AfterDropQueueStep(s: State, plan: Plan, failure: Failure, env: Env)
    ensures ResumeStep(s, AfterDrop(s, plan, failure, env))
    ensures RebuildOk(AfterDrop(s, plan, failure, env))
  {
    FailureQueueStep(s, plan, failure, env);
  }

  predicate CanFail(at: ConnectPoint) { at.Dialling? || at.DroppingSession? || at.ReleasingTun? }

  lemma AttemptFailsQueueStep(s: State, outcome: Outcome, tunUp: bool, env: Env)
    requires s.queue.running.Attempt? && CanFail(s.queue.running.at)
    ensures ResumeStep(s, OnResume(s, outcome, tunUp, env))
    ensures RebuildOk(OnResume(s, outcome, tunUp, env))
  {
    var plan := s.queue.running.plan;
    match s.queue.running.at
    case Dialling => if outcome.Failed? { AfterDropQueueStep(CountRejection(s, outcome.failure), plan, outcome.failure, env); }
    case DroppingSession(session, failure) => AfterDropQueueStep(Close(s, session), plan, failure, env);
    case ReleasingTun(failure) => FailureQueueStep(s, plan, failure, env);
  }

  lemma AttemptMovesQueueStep(s: State, outcome: Outcome, tunUp: bool, env: Env)
    requires s.queue.running.Attempt? && !CanFail(s.queue.running.at)
    ensures ResumeStep(s, OnResume(s, outcome, tunUp, env))
    ensures RebuildOk(OnResume(s, outcome, tunUp, env))
  {
  }

  lemma ResumeQueueStep(s: State, outcome: Outcome, tunUp: bool, env: Env)
    ensures ResumeStep(s, OnResume(s, outcome, tunUp, env))
    ensures RebuildOk(OnResume(s, outcome, tunUp, env))
  {
    if s.queue.running.Attempt? {
      if CanFail(s.queue.running.at) {
        AttemptFailsQueueStep(s, outcome, tunUp, env);
      } else {
        AttemptMovesQueueStep(s, outcome, tunUp, env);
      }
    }
  }

  lemma BeginStopStep(s: State, holdGen: nat)
    requires HoldInv(s) && Ready(s) && s.queue.pending[0] == HoldStopOp(holdGen)
    ensures HoldInv(BeginHoldStop(TakeHead(s), holdGen))
  {
    StopsAfterTake(s.hold, s.queue.pending);
    if holdGen == s.hold.generation {
      var s' := BeginHoldStop(TakeHead(s), holdGen);
      StopsAfterStep(s.hold.(stopQueued := false), s'.hold, s'.queue.pending, s'.queue.pending);
    }
  }

  lemma BeginOtherStep(s: State, tunUp: bool, env: Env)
    requires Ready(s) && !s.queue.pending[0].HoldStopOp?
    ensures HoldStep(s.hold, OnBeginNext(s, tunUp, env).hold) && RebuildOk(OnBeginNext(s, tunUp, env))
    ensures OnBeginNext(s, tunUp, env).queue.pending == s.queue.pending[1..]
  {
  }

  lemma StepKeepsHold(s: State, e: Event, env: Env)
    requires HoldInv(s)
    ensures HoldInv(Step(s, e, env))
  {
    var s' := Step(s, e, env);
    match e
    case BeginNext(tunUp) =>
      if Ready(s) {
        if s.queue.pending[0].HoldStopOp? {
          BeginStopStep(s, s.queue.pending[0].holdGen);
        } else {
          BeginOtherStep(s, tunUp, env);
          StopsAfterTake(s.hold, s.queue.pending);
          StopsAfterStep(s.hold, s'.hold, s.queue.pending[1..], s'.queue.pending);
        }
      }
    case HoldTimerFires => if s.hold.timer.Some? { StopsAfterExpiry(s.hold, s.queue.pending); }
    case Resume(outcome, tunUp) =>
      ResumeQueueStep(s, outcome, tunUp, env);
      StopsAfterStep(s.hold, s'.hold, s.queue.pending, s'.queue.pending);
    case _ =>
      EventQueueStep(s, e, env);
      StopsAfterStep(s.hold, s'.hold, s.queue.pending, s'.queue.pending);
  }

  // ----- Routing is never stranded -----

  /** A queued operation that will take routing down, or take it over for a session. */
  predicate Relieves(op: Op, gen: nat) {
    match op
    case StopRoutingOp => true
    case ConnectOp(g, _) => g == gen
    case CleanupOp(g, _, retryable) => g == gen && !retryable
    case _ => false
  }

  predicate HasRelief(pending: seq<Op>, gen: nat) {
    exists i :: 0 <= i < |pending| && Relieves(pending[i], gen)
  }

  predicate RunningRelief(running: Activity, gen: nat) {
    RunningLive(running, gen) && (running.CleaningUp? ==> !running.retryable)
  }

  /** Routing applied with no session behind it has a deadline, or an operation that answers for it. */
  predicate Covered(s: State) {
    !s.life.disposed && !s.life.disconnectRequested && s.hold.applied && s.client.None? ==>
      || s.hold.timer.Some?
      || s.hold.stopQueued
      || RunningRelief(s.queue.running, s.life.generation)
      || HasRelief(s.queue.pending, s.life.generation)
  }

  /** A routing stop left in the queue belongs to a session given up, or is followed by the Connect that replaced it. */
  ghost predicate StopsFollowed(s: State) {
    forall j :: 0 <= j < |s.queue.pending| && s.queue.pending[j].StopRoutingOp? ==>
      s.life.reconnectHalted || s.life.disconnectRequested || ConnectBehind(s.queue.pending, j, s.life.generation)
  }

  predicate ConnectBehind(pending: seq<Op>, j: int, gen: nat) {
    exists i :: j < i < |pending| && 0 <= i && pending[i].ConnectOp? && IsLive(pending[i], gen)
  }

  lemma ReliefAfterAppend(pending: seq<Op>, op: Op, gen: nat)
    ensures HasRelief(pending + [op], gen) <==> HasRelief(pending, gen) || Relieves(op, gen)
  {
    var longer := pending + [op];
    if HasRelief(pending, gen) {
      var i :| 0 <= i < |pending| && Relieves(pending[i], gen);
      assert Relieves(longer[i], gen);
    }
    assert longer[|pending|] == op;
  }

  lemma ReliefAfterTake(pending: seq<Op>, gen: nat)
    requires pending != []
    ensures HasRelief(pending, gen) <==> HasRelief(pending[1..], gen) || Relieves(pending[0], gen)
  {
    if HasRelief(pending, gen) {
      var i :| 0 <= i < |pending| && Relieves(pending[i], gen);
      assert i > 0 ==> Relieves(pending[1..][i - 1], gen);
    }
  }

  /** Live work that is a Connect is relief. */
  lemma LiveConnectRelieves(s: State)
    requires CoreInv(s) && LiveWork(s) && s.client.Some?
    ensures RunningRelief(s.queue.running, s.life.generation) || HasRelief(s.queue.pending, s.life.generation)
  {
    if HasLive(s.queue.pending, s.life.generation) {
      var i :| 0 <= i < |s.queue.pending| && IsLive(s.queue.pending[i], s.life.generation);
      assert Relieves(s.queue.pending[i], s.life.generation);
    }
  }

  lemma EventsKeepCovered(s: State, e: Event, env: Env)
    requires CoreInv(s) && Covered(s)
    requires !e.BeginNext? && !e.Resume?
    ensures Covered(Step(s, e, env))
  {
    var s' := Step(s, e, env);
    if |s'.queue.pending| == |s.queue.pending| + 1 {
      ReliefAfterAppend(s.queue.pending, s'.queue.pending[|s.queue.pending|], s'.life.generation);
    }
  }

  lemma BeginKeepsCovered(s: State, tunUp: bool, env: Env)
    requires CoreInv(s) && Covered(s)
    ensures Covered(OnBeginNext(s, tunUp, env))
  {
    if Ready(s) {
      ReliefAfterTake(s.queue.pending, s.life.generation);
    }
  }

  /** An attempt that was rebuilding the adapter when its session failed, with only a retry queued behind it. */
  predicate RebuildOvertaken(s: State, e: Event) {
    && e.Resume?
    && s.queue.running.Attempt?
    && s.queue.running.at.RebuildingRouting?
    && RetryQueued(s.queue.pending, s.life.generation)
  }

  predicate RetryQueued(pending: seq<Op>, gen: nat) {
    exists i :: 0 <= i < |pending| && pending[i].CleanupOp? && pending[i].gen == gen && pending[i].retryable
  }

  lemma FailureKeepsCovered(s: State, plan: Plan, failure: Failure, env: Env)
    requires CoreInv(s) && Covered(s) && s.queue.running.Attempt? && s.queue.running.plan == plan
    ensures Covered(AfterDrop(s, plan, failure, env))
    ensures Covered(ConcludeFailure(s, plan, failure, env))
  {
    ReliefAfterAppend(s.queue.pending, StopRoutingOp, s.life.generation);
  }

  lemma DropKeepsCovered(s: State, plan: Plan, session: nat, failure: Failure)
    requires CoreInv(s) && Covered(s) && s.queue.running.Attempt? && s.queue.running.plan == plan
    requires SessionPoint(s.queue.running.at, session)
    ensures Covered(DropSession(s, plan, session, failure))
  {
    if Wanted(s) && s.client.Some? && !LiveClient(s) {
      LiveConnectRelieves(s);
    }
  }

  predicate SessionPoint(at: ConnectPoint, session: nat) {
    at == OpeningListener(session) || at == RebuildingRouting(session) || at == ApplyingRouting(session)
  }

  lemma CleanupKeepsCovered(s: State, outcome: Outcome, tunUp: bool, env: Env)
    requires CoreInv(s) && Covered(s) && s.queue.running.CleaningUp?
    ensures Covered(OnResume(s, outcome, tunUp, env))
  {
    ReliefAfterAppend(s.queue.pending, StopRoutingOp, s.life.generation);
  }

  lemma OtherResumeKeepsCovered(s: State, outcome: Outcome, tunUp: bool, env: Env)
    requires Covered(s) && !s.queue.running.Attempt? && !s.queue.running.CleaningUp?
    ensures Covered(OnResume(s, outcome, tunUp, env))
  {
  }

  lemma RebuildCoversExactly(s: State, plan: Plan, session: nat)
    requires CoreInv(s) && StopsFollowed(s) && HoldInv(s)
    requires s.queue.running == Attempt(plan, RebuildingRouting(session))
    ensures Covered(ApplyRouting(s, plan, session)) <==> !RetryQueued(s.queue.pending, s.life.generation)
  {
    var pending, g := s.queue.pending, s.life.generation;
    if RetryQueued(pending, g) {
      var r :| 0 <= r < |pending| && pending[r].CleanupOp? && pending[r].gen == g && pending[r].retryable;
      assert IsLive(pending[r], g);
      forall i | 0 <= i < |pending| ensures !Relieves(pending[i], g) {
        if IsLive(pending[i], g) { LiveUnique(s, i, r); }
      }
    } else if HasLive(pending, g) {
      var i :| 0 <= i < |pending| && IsLive(pending[i], g);
      assert Relieves(pending[i], g);
    }
  }

  lemma AttemptFailsCovered(s: State, outcome: Outcome, tunUp: bool, env: Env)
    requires CoreInv(s) && Covered(s) && s.queue.running.Attempt? && CanFail(s.queue.running.at)
    ensures Covered(OnResume(s, outcome, tunUp, env))
  {
    var plan := s.queue.running.plan;
    match s.queue.running.at
    case Dialling =>
      if outcome.Failed? {
        CountKeepsCore(s, outcome.failure);
        FailureKeepsCovered(CountRejection(s, outcome.failure), plan, outcome.failure, env);
      }
    case DroppingSession(session, failure) =>
      CoreFrame(s, Close(s, session));
      FailureKeepsCovered(Close(s, session), plan, failure, env);
    case ReleasingTun(failure) => FailureKeepsCovered(s, plan, failure, env);
  }

  lemma AttemptMovesCovered(s: State, outcome: Outcome, tunUp: bool, env: Env)
    requires CoreInv(s) && Covered(s) && s.queue.running.Attempt?
    requires !CanFail(s.queue.running.at) && !s.queue.running.at.RebuildingRouting?
    ensures Covered(OnResume(s, outcome, tunUp, env))
  {
    var plan := s.queue.running.plan;
    if outcome.Failed? && (s.queue.running.at.OpeningListener? || s.queue.running.at.ApplyingRouting?) {
      DropKeepsCovered(s, plan, s.queue.running.at.session, outcome.failure);
    }
  }

  /** One turn leaves routing covered, except for the one that is overtaken while it rebuilds the adapter. */
  lemma StepCoversExactly(s: State, e: Event, env: Env)
    requires CoreInv(s) && HoldInv(s) && StopsFollowed(s) && Covered(s)
    ensures Covered(Step(s, e, env)) <==> !RebuildOvertaken(s, e)
  {
    match e
    case BeginNext(tunUp) => BeginKeepsCovered(s, tunUp, env);
    case Resume(outcome, tunUp) =>
      if s.queue.running.Attempt? {
        if CanFail(s.queue.running.at) {
          AttemptFailsCovered(s, outcome, tunUp, env);
        } else if s.queue.running.at.RebuildingRouting? {
          RebuildCoversExactly(s, s.queue.running.plan, s.queue.running.at.session);
        } else {
          AttemptMovesCovered(s, outcome, tunUp, env);
        }
      } else if s.queue.running.CleaningUp? {
        CleanupKeepsCovered(s, outcome, tunUp, env);
      } else {
        OtherResumeKeepsCovered(s, outcome, tunUp, env);
      }
    case _ => EventsKeepCovered(s, e, env);
  }

  // ----- Routing stops left in the queue -----

  lemma StopsMove(s: State, s': State)
    requires StopsFollowed(s)
    requires s.queue.pending <= s'.queue.pending && |s'.queue.pending| <= |s.queue.pending| + 1
    requires
      || s'.life.disconnectRequested
      || (|s'.queue.pending| > |s.queue.pending| && s'.queue.pending[|s.queue.pending|].ConnectOp?
          && s'.queue.pending[|s.queue.pending|].gen == s'.life.generation)
      || (&& s'.life.generation == s.life.generation
          && (s.life.reconnectHalted ==> s'.life.reconnectHalted)
          && !s.life.disconnectRequested
          && (|s'.queue.pending| > |s.queue.pending| && s'.queue.pending[|s.queue.pending|].StopRoutingOp? ==>
                s'.life.reconnectHalted))
    ensures StopsFollowed(s')
  {
  }

  /** A session that fails has no routing stop queued behind it. */
  lemma FailureKeepsStops(s: State, session: nat, gen: nat, retryable: bool)
    requires CoreInv(s) && StopsFollowed(s)
    ensures StopsFollowed(OnClientFailure(s, session, gen, retryable))
  {
    var pending, g := s.queue.pending, s.life.generation;
    if LiveClient(s) {
      forall j | 0 <= j < |pending| ensures !pending[j].StopRoutingOp? {
      }
    }
  }

  lemma EventsKeepStops(s: State, e: Event, env: Env)
    requires CoreInv(s) && StopsFollowed(s) && !e.BeginNext? && !e.Resume? && !e.ClientFailure?
    ensures StopsFollowed(Step(s, e, env))
  {
    StopsMove(s, Step(s, e, env));
  }

  lemma BeginKeepsStops(s: State, tunUp: bool, env: Env)
    requires CoreInv(s) && StopsFollowed(s)
    ensures StopsFollowed(OnBeginNext(s, tunUp, env))
  {
    if Ready(s) {
      var pending, g := s.queue.pending, s.life.generation;
      forall j | 0 <= j < |pending[1..]| && pending[1..][j].StopRoutingOp?
        ensures s.life.reconnectHalted || s.life.disconnectRequested || ConnectBehind(pending[1..], j, g)
      {
        if ConnectBehind(pending, j + 1, g) {
          var i :| j + 1 < i < |pending| && 0 <= i && pending[i].ConnectOp? && IsLive(pending[i], g);
          assert pending[1..][i - 1] == pending[i];
        }
      }
      assert StopsFollowed(TakeHead(s));
    }
  }

  lemma ResumeKeepsStops(s: State, outcome: Outcome, tunUp: bool, env: Env)
    requires StopsFollowed(s)
    ensures StopsFollowed(OnResume(s, outcome, tunUp, env))
  {
    ResumeQueueStep(s, outcome, tunUp, env);
    StopsMove(s, OnResume(s, outcome, tunUp, env));
  }

  lemma StepKeepsStops(s: State, e: Event, env: Env)
    requires CoreInv(s) && StopsFollowed(s)
    ensures StopsFollowed(Step(s, e, env))
  {
    match e
    case BeginNext(tunUp) => BeginKeepsStops(s, tunUp, env);
    case Resume(outcome, tunUp) => ResumeKeepsStops(s, outcome, tunUp, env);
    case ClientFailure(session, gen, retryable) => FailureKeepsStops(s, session, gen, retryable);
    case _ => EventsKeepStops(s, e, env);
  }
}
