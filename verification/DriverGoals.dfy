/** What a goal's thread does from the acceptance of the goal to its outcome. */
module DriverGoals {
  import opened Crc
  import opened Device
  import opened Engine
  import opened EngineInvariant
  import EngineEffects
  import opened Driver
  import opened DriverInvariant
  import DriverSteps
  import DriverTheorems
  import opened DriverStops

  // ----- the commands before the motion -----

  /** `r` sets the acceleration or the force a goal asks for. */
  predicate Sets(r: Request, o: Options, id: Id, value: seq<byte>) {
    && r.id == id && r.payload == value && r.timeout == o.responseTimeout && r.allowPending && !r.priority
    && !r.internal
  }

  /** Some command that sets the value has succeeded. */
  predicate Set(resolved: map<Request, Reply>, o: Options, id: Id, value: seq<byte>) {
    exists r :: r in resolved && Sets(r, o, id, value) && resolved[r].transportOk && resolved[r].status == 0
  }

  /** What has been set by the time the goal is where it is. */
  predicate Prepared(j: Job, o: Options, resolved: map<Request, Reply>) {
    var (accelerated, forced) := (Set(resolved, o, 0x30, j.goal.acceleration), Set(resolved, o, 0x32, j.goal.force));
    && (j.motions != [] ==> accelerated && forced)
    && match j.place {
         case AwaitAcceleration(r) => Sets(r, o, 0x30, j.goal.acceleration)
         case SendForce => accelerated
         case AwaitForce(r) => accelerated && Sets(r, o, 0x32, j.goal.force)
         case SendMotion => accelerated && forced
         case _ => true
       }
  }

  lemma SetStays(before: map<Request, Reply>, after: map<Request, Reply>, o: Options, id: Id, value: seq<byte>)
    requires EngineEffects.KeepsResolutions(before, after) && Set(before, o, id, value)
    ensures Set(after, o, id, value)
  {
    var r :| r in before && Sets(r, o, id, value) && before[r].transportOk && before[r].status == 0;
    assert r in after && after[r] == before[r];
  }

  lemma PreparedStays(j: Job, k: Job, o: Options, before: map<Request, Reply>, after: map<Request, Reply>)
    requires EngineEffects.KeepsResolutions(before, after) && Prepared(j, o, before)
    requires k.place == j.place && k.motions == j.motions && k.goal == j.goal
    ensures Prepared(k, o, after)
  {
    hide EngineEffects.KeepsResolutions, Set, Sets;
    if Set(before, o, 0x30, j.goal.acceleration) {
      SetStays(before, after, o, 0x30, j.goal.acceleration);
    }
    if Set(before, o, 0x32, j.goal.force) {
      SetStays(before, after, o, 0x32, j.goal.force);
    }
  }

  lemma SetBy(resolved: map<Request, Reply>, r: Request, o: Options, id: Id, value: seq<byte>)
    requires r in resolved && Sets(r, o, id, value) && Success(resolved[r])
    ensures Set(resolved, o, id, value)
  {
  }

  lemma SendPrepares(s: System, n: nat, j: Job, a: Action)
    requires CanAct(s, j, a) && Sends(j.place) && Prepared(j, s.options, s.engine.resolved)
    ensures Prepared(NextJob(s, n, j, a), s.options, s.engine.resolved)
  {
    hide Set, MotionOrder;
  }

  lemma ReceivePrepares(s: System, n: nat, j: Job, a: Action)
    requires CanAct(s, j, a) && (j.place.AwaitAcceleration? || j.place.AwaitForce?)
    requires Prepared(j, s.options, s.engine.resolved)
    ensures Prepared(NextJob(s, n, j, a), s.options, s.engine.resolved)
  {
    var (id, value) := if j.place.AwaitForce? then (0x32, j.goal.force) else (0x30, j.goal.acceleration);
    if Success(ReplyOf(s.engine, j.place.request)) {
      SetBy(s.engine.resolved, j.place.request, s.options, id, value);
    }
    hide Set, Sets, Engine.Success;
  }

  lemma OtherPrepares(s: System, n: nat, j: Job, a: Action)
    requires CanAct(s, j, a) && !Sends(j.place) && !j.place.AwaitAcceleration? && !j.place.AwaitForce?
    requires Prepared(j, s.options, s.engine.resolved)
    ensures Prepared(NextJob(s, n, j, a), s.options, s.engine.resolved)
  {
    hide Set, Sets, Engine.Success, Fulfilled, Unsettled, HasReturned, IsResolved;
  }

  lemma ActPrepares(s: System, n: nat, j: Job, a: Action)
    requires CanAct(s, j, a) && Prepared(j, s.options, s.engine.resolved)
    ensures Prepared(NextJob(s, n, j, a), s.options, s.engine.resolved)
  {
    hide CanAct, NextJob, Prepared;
    if Sends(j.place) {
      SendPrepares(s, n, j, a);
    } else if j.place.AwaitAcceleration? || j.place.AwaitForce? {
      ReceivePrepares(s, n, j, a);
    } else {
      OtherPrepares(s, n, j, a);
    }
  }

  lemma ResolutionsStay(s: System, l: Label)
    requires Can(s, l)
    ensures EngineEffects.KeepsResolutions(s.engine.resolved, Advance(s, l).engine.resolved)
  {
    DriverTheorems.EngineIsEmbedded(s, l);
    hide Can, Advance, Enabled, Apply, DriverTheorems.EngineStep, EngineEffects.KeepsResolutions;
    if DriverTheorems.EngineStep(l).Some? {
      EngineEffects.StepEvolves(s.engine, DriverTheorems.EngineStep(l).value);
    } else {
      EngineEffects.Unchanged(s.engine);
    }
  }

  lemma FollowerPrepares(s: System, l: Label, t: System, n: nat)
    requires n in s.motion.jobs && Follows(s, l, t, n)
    requires EngineEffects.KeepsResolutions(s.engine.resolved, t.engine.resolved)
    requires Prepared(s.motion.jobs[n], s.options, s.engine.resolved)
    ensures Prepared(t.motion.jobs[n], s.options, t.engine.resolved)
  {
    hide CanAct, NextJob, Prepared, EngineEffects.KeepsResolutions;
    var j, k := s.motion.jobs[n], t.motion.jobs[n];
    if Owns(l, n) {
      ActPrepares(s, n, j, l.action);
      PreparedStays(k, k, s.options, s.engine.resolved, t.engine.resolved);
    } else {
      PreparedStays(j, k, s.options, s.engine.resolved, t.engine.resolved);
    }
  }

  lemma NewIsPrepared(g: Goal, o: Options, resolved: map<Request, Reply>)
    ensures Prepared(NewJob(g), o, resolved)
  {
  }

  lemma {:induction false} PreparedRun(h: History, o: Options, k: nat, n: nat)
    requires ValidHistory(h, o) && k < |h.states| && n in h.states[k].motion.jobs
    ensures Prepared(h.states[k].motion.jobs[n], o, h.states[k].engine.resolved)
    decreases k
  {
    hide Can, Advance, Follows, Prepared, NewJob, EngineEffects.KeepsResolutions;
    if k == 0 {
      NoJobAtFirst(h, o, n);
    } else if n !in h.states[k - 1].motion.jobs {
      BeginsFresh(h.states[k - 1], h.labels[k - 1], n);
      NewIsPrepared(h.labels[k - 1].goal, o, h.states[k].engine.resolved);
    } else {
      PreparedRun(h, o, k - 1, n);
      DriverTheorems.OptionsStay(h, o, k - 1);
      FollowsIn(h, o, k - 1, n);
      ResolutionsStay(h.states[k - 1], h.labels[k - 1]);
      FollowerPrepares(h.states[k - 1], h.labels[k - 1], h.states[k], n);
    }
  }

  /** The motion command a goal sends: its id, and the bytes of the width and the speed in their places. */
  predicate IsMotion(r: Request, o: Options, g: Goal) {
    && r.timeout == o.motionTimeout && r.allowPending && !r.priority && !r.internal
    && match g.mode {
         case Move =>
           r.id == 0x21 && r.payload == [if g.stopOnBlock then 2 else 0] + (g.widthBytes + g.speedBytes)
         case Grasp => r.id == 0x25 && r.payload == g.widthBytes + g.speedBytes
         case Release => r.id == 0x26 && r.payload == g.widthBytes + g.speedBytes
       }
  }

  lemma CarriedIsMotion(r: Request, o: Options, g: Goal)
    requires Carries(r, MotionOrder(o, g))
    ensures IsMotion(r, o, g)
  {
    assert [if g.stopOnBlock then 2 else 0] + g.widthBytes + g.speedBytes ==
           [if g.stopOnBlock then 2 else 0] + (g.widthBytes + g.speedBytes);
  }

  /** A goal sends its motion only after the acceleration and the force it asks for have been set with success; and the
      motion is the one it asks for. */
  lemma MotionIsPrepared(h: History, o: Options, k: nat, n: nat)
    requires ValidHistory(h, o) && k < |h.states| && n in h.states[k].motion.jobs
    requires h.states[k].motion.jobs[n].motions != []
    ensures var s, j := h.states[k], h.states[k].motion.jobs[n];
            && |j.motions| == 1 && IsMotion(j.motions[0], o, j.goal)
            && Set(s.engine.resolved, o, 0x30, j.goal.acceleration) && Set(s.engine.resolved, o, 0x32, j.goal.force)
  {
    PreparedRun(h, o, k, n);
    DriverTheorems.AtMostOneStop(h, o, k, n);
    var j := h.states[k].motion.jobs[n];
    assert j.motions[0] in j.motions;
    CarriedIsMotion(j.motions[0], o, j.goal);
    hide ValidHistory, Set, Carries, MotionOrder, IsMotion;
  }

  // ----- the outcome -----

  /** The goal has decided on the outcome `x`, or had it. */
  predicate Decided(j: Job, x: Outcome) {
    (j.place == Concluding(x) && j.outcomes == []) || (Ended(j.place) && j.outcomes == [x])
  }

  lemma DecisionStands(s: System, l: Label, t: System, n: nat, x: Outcome)
    requires n in s.motion.jobs && Follows(s, l, t, n) && Decided(s.motion.jobs[n], x)
    ensures Decided(t.motion.jobs[n], x)
  {
    hide Engine.Success, Fulfilled, Unsettled, HasReturned, IsResolved, Driver.Fresh;
  }

  lemma {:induction false} DecidedForGood(h: History, o: Options, i: nat, k: nat, n: nat, x: Outcome)
    requires ValidHistory(h, o) && i <= k < |h.states| && n in h.states[i].motion.jobs
    requires Decided(h.states[i].motion.jobs[n], x)
    ensures n in h.states[k].motion.jobs && Decided(h.states[k].motion.jobs[n], x)
    decreases k
  {
    hide Can, Advance, Follows, Decided;
    if i < k {
      DecidedForGood(h, o, i, k - 1, n, x);
      FollowsIn(h, o, k - 1, n);
      StillThere(h.states[k - 1], h.labels[k - 1], h.states[k], n);
      DecisionStands(h.states[k - 1], h.labels[k - 1], h.states[k], n, x);
    }
  }

  function Abs(x: real): real { if x < 0.0 then -x else x }

  /** The fingers are within tolerance of the target; the device shows millimetres. */
  predicate Near(o: Options, g: Goal, d: DeviceState) {
    match Number(d.opening)
    case None => false
    case Some(mm) => Abs(mm / 1000.0 - g.width) <= o.tolerance
  }

  /** What a goal needs to succeed: its motion command succeeded, or blocked the axis while grasping, and the fingers
      are near the target or, while grasping, stalled. */
  predicate Meets(o: Options, g: Goal, r: Reply, d: DeviceState) {
    && ((r.transportOk && r.status == 0) || (g.mode == Grasp && r.status == 29))
    && (Near(o, g, d) || (g.mode == Grasp && (d.stalled || r.status == 29)))
  }

  lemma MeetsIsFulfilled(o: Options, g: Goal, r: Reply, d: DeviceState)
    ensures Meets(o, g, r, d) <==> Fulfilled(o, g, r, d)
  {
    hide Number;
  }

  lemma Judges(s: System, l: Label, t: System, n: nat)
    requires n in s.motion.jobs && Follows(s, l, t, n) && l == GoalActs(n, ReadGeneration)
    requires s.motion.jobs[n].place == JudgeGeneration && OutcomesOk(s.motion.jobs[n])
    ensures var j := s.motion.jobs[n];
            Decided(t.motion.jobs[n],
                    if n == s.motion.generation && Fulfilled(s.options, j.goal, j.reply, j.seen) then Succeeded
                    else Aborted)
  {
    hide Fulfilled;
  }

  lemma OutcomesHold(s: System, n: nat)
    requires DriverInv(s) && n in s.motion.jobs
    ensures JobOk(s.motion.jobs[n], s.options, s.engine.resolved, s.engine.submitted)
  {
    hide Inv, InitOk, LockOk, ClientsOk, JobOk;
  }

  lemma OutcomesAt(h: History, o: Options, i: nat, n: nat)
    requires ValidHistory(h, o) && i < |h.states| && n in h.states[i].motion.jobs
    ensures OutcomesOk(h.states[i].motion.jobs[n])
  {
    DriverSteps.DriverRun(h, o, i);
    OutcomesHold(h.states[i], n);
    hide ValidHistory, DriverInv, MotionsOk, StopsOk, WaitsOk, RepliesOk, OutcomesOk;
  }

  lemma DecidedOutcome(j: Job, x: Outcome)
    requires Decided(j, x) && j.outcomes != []
    ensures j.outcomes == [x]
  {
  }

  /** A goal that comes to its verdict without being canceled succeeds if and only if it is still the newest one and
      meets what success needs, by the reply to its motion and the fingers it has seen; otherwise it is aborted. */
  lemma VerdictIsExact(h: History, o: Options, i: nat, k: nat, n: nat)
    requires ValidHistory(h, o) && i < k < |h.states| && n in h.states[i].motion.jobs
    requires h.labels[i] == GoalActs(n, ReadGeneration) && h.states[i].motion.jobs[n].place == JudgeGeneration
    requires n in h.states[k].motion.jobs && h.states[k].motion.jobs[n].outcomes != []
    ensures var s, j := h.states[i], h.states[i].motion.jobs[n];
            h.states[k].motion.jobs[n].outcomes ==
              [if n == s.motion.generation && Meets(o, j.goal, j.reply, j.seen) then Succeeded else Aborted]
  {
    var j := h.states[i].motion.jobs[n];
    OutcomesAt(h, o, i, n);
    DriverTheorems.OptionsStay(h, o, i);
    FollowsIn(h, o, i, n);
    StillThere(h.states[i], h.labels[i], h.states[i + 1], n);
    MeetsIsFulfilled(o, j.goal, j.reply, j.seen);
    hide OutcomesOk, Follows, Fulfilled, Meets, Decided;
    Judges(h.states[i], h.labels[i], h.states[i + 1], n);
    var x := if n == h.states[i].motion.generation && Fulfilled(o, j.goal, j.reply, j.seen) then Succeeded else Aborted;
    DecidedForGood(h, o, i + 1, k, n, x);
    hide ValidHistory;
    DecidedOutcome(h.states[k].motion.jobs[n], x);
  }

  /** Canceled, and the thread will still read so before it decides. */
  predicate WillReport(j: Job) {
    || Decided(j, Canceled)
    || (j.handle == Canceling && j.outcomes == [] &&
        (InMotion(j.place) || j.place.Looking? || j.place.Looked? || j.place == JudgeCanceling || j.place == Refused))
  }

  lemma ReportStep(s: System, l: Label, t: System, n: nat)
    requires n in s.motion.jobs && Follows(s, l, t, n) && WillReport(s.motion.jobs[n])
    ensures WillReport(t.motion.jobs[n])
  {
    if Decided(s.motion.jobs[n], Canceled) {
      DecisionStands(s, l, t, n, Canceled);
    }
    hide Engine.Success, Fulfilled, Unsettled, HasReturned, IsResolved, Driver.Fresh, Carries;
  }

  lemma {:induction false} ReportsInTheEnd(h: History, o: Options, i: nat, k: nat, n: nat)
    requires ValidHistory(h, o) && i <= k < |h.states| && n in h.states[i].motion.jobs
    requires WillReport(h.states[i].motion.jobs[n])
    ensures n in h.states[k].motion.jobs && WillReport(h.states[k].motion.jobs[n])
    decreases k
  {
    hide Can, Advance, Follows, WillReport;
    if i < k {
      ReportsInTheEnd(h, o, i, k - 1, n);
      FollowsIn(h, o, k - 1, n);
      StillThere(h.states[k - 1], h.labels[k - 1], h.states[k], n);
      ReportStep(h.states[k - 1], h.labels[k - 1], h.states[k], n);
    }
  }

  /** The thread will still read whether the goal is being canceled. */
  predicate WillRead(p: Place) {
    InMotion(p) || p.Looking? || p.Looked? || p == JudgeCanceling || p == Refused
  }

  lemma CancelReaches(s: System, t: System, n: nat)
    requires n in s.motion.jobs && Follows(s, CancelGoal(n), t, n)
    ensures n in t.motion.jobs && t.motion.jobs[n].handle == Canceling
    ensures t.motion.jobs[n].place == s.motion.jobs[n].place && t.motion.jobs[n].outcomes == s.motion.jobs[n].outcomes
  {
  }

  /** A goal that is canceled while its motion is under way, while the fingers settle, or after it has been turned
      away, is reported as canceled and as nothing else. */
  lemma CanceledIsReported(h: History, o: Options, i: nat, k: nat, n: nat)
    requires ValidHistory(h, o) && i < k < |h.states| && n in h.states[i].motion.jobs
    requires WillRead(h.states[i].motion.jobs[n].place)
    requires h.states[i].motion.jobs[n].handle == Canceling || h.labels[i] == CancelGoal(n)
    ensures n in h.states[k].motion.jobs
    ensures h.states[k].motion.jobs[n].outcomes == [] || h.states[k].motion.jobs[n].outcomes == [Canceled]
  {
    OutcomesAt(h, o, i, n);
    if h.labels[i] == CancelGoal(n) {
      FollowsIn(h, o, i, n);
      hide ValidHistory, Follows;
      CancelReaches(h.states[i], h.states[i + 1], n);
      ReportsInTheEnd(h, o, i + 1, k, n);
    } else {
      hide ValidHistory;
      ReportsInTheEnd(h, o, i, k, n);
    }
  }

  // ----- what it has seen -----

  /** The goal judges, or has judged, by what it has seen. */
  predicate HasLooked(j: Job) {
    || j.place.Looked? || j.place == JudgeCanceling || j.place == JudgeGeneration
    || ((j.place.Concluding? || Ended(j.place)) && j.motions != [])
  }

  lemma LooksNow(s: System, l: Label, t: System, n: nat)
    requires n in s.motion.jobs && Follows(s, l, t, n) && HasLooked(t.motion.jobs[n])
    requires BeforeMotion(s.motion.jobs[n].place) ==> s.motion.jobs[n].motions == []
    ensures if l == GoalActs(n, Look) then t.motion.jobs[n].seen == s.engine.device && s.motion.jobs[n].place.Looking?
            else HasLooked(s.motion.jobs[n]) && t.motion.jobs[n].seen == s.motion.jobs[n].seen
  {
    hide Engine.Success, Fulfilled, Unsettled, HasReturned, IsResolved, Driver.Fresh, Carries;
  }

  lemma NewHasNotLooked(g: Goal)
    ensures !HasLooked(NewJob(g))
  {
  }

  lemma NoMotionYet(h: History, o: Options, i: nat, n: nat)
    requires ValidHistory(h, o) && i < |h.states| && n in h.states[i].motion.jobs
    requires BeforeMotion(h.states[i].motion.jobs[n].place)
    ensures h.states[i].motion.jobs[n].motions == []
  {
    DriverSteps.DriverRun(h, o, i);
    OutcomesHold(h.states[i], n);
    hide ValidHistory, DriverInv, OutcomesOk, StopsOk, WaitsOk, RepliesOk;
  }

  /** What a goal judges by is the published state at a moment after it has collected the reply to its motion. */
  lemma {:induction false} SeenWasShown(h: History, o: Options, k: nat, n: nat) returns (i: nat)
    requires ValidHistory(h, o) && k < |h.states| && n in h.states[k].motion.jobs
    requires HasLooked(h.states[k].motion.jobs[n])
    ensures i < k && h.labels[i] == GoalActs(n, Look) && n in h.states[i].motion.jobs
    ensures h.states[i].motion.jobs[n].place.Looking?
    ensures h.states[i].engine.device == h.states[k].motion.jobs[n].seen
    decreases k
  {
    hide Can, Advance, Follows, HasLooked, DriverInv, NewJob, BeforeMotion;
    if k == 0 {
      NoJobAtFirst(h, o, n);
    } else if n !in h.states[k - 1].motion.jobs {
      BeginsFresh(h.states[k - 1], h.labels[k - 1], n);
      NewHasNotLooked(h.labels[k - 1].goal);
    } else {
      FollowsIn(h, o, k - 1, n);
      if BeforeMotion(h.states[k - 1].motion.jobs[n].place) {
        NoMotionYet(h, o, k - 1, n);
      }
      LooksNow(h.states[k - 1], h.labels[k - 1], h.states[k], n);
      if h.labels[k - 1] == GoalActs(n, Look) {
        i := k - 1;
      } else {
        i := SeenWasShown(h, o, k - 1, n);
      }
    }
  }

  // ----- after shutdown -----

  /** The goal will send nothing: it has been turned away, or will be. */
  predicate Barred(j: Job) {
    && j.motions == [] && j.stops == []
    && (j.place == WantLock || j.place == CheckGeneration || j.place == CheckShutdown || j.place == Refused ||
        Ended(j.place) || (j.place.Concluding? && j.place.outcome != Succeeded))
  }

  lemma BarredStep(s: System, l: Label, t: System, n: nat)
    requires n in s.motion.jobs && Follows(s, l, t, n) && Barred(s.motion.jobs[n]) && s.shuttingDown
    ensures Barred(t.motion.jobs[n]) && t.shuttingDown && (Owns(l, n) ==> !l.action.Send?)
  {
  }

  lemma {:induction false} BarredForGood(h: History, o: Options, i: nat, k: nat, n: nat)
    requires ValidHistory(h, o) && i <= k < |h.states| && n in h.states[i].motion.jobs
    requires h.states[i].shuttingDown && Barred(h.states[i].motion.jobs[n])
    ensures n in h.states[k].motion.jobs && h.states[k].shuttingDown && Barred(h.states[k].motion.jobs[n])
    decreases k
  {
    hide Can, Advance, Follows, Barred;
    if i < k {
      BarredForGood(h, o, i, k - 1, n);
      FollowsIn(h, o, k - 1, n);
      StillThere(h.states[k - 1], h.labels[k - 1], h.states[k], n);
      BarredStep(h.states[k - 1], h.labels[k - 1], h.states[k], n);
    }
  }

  lemma BarredAtFirst(j: Job, o: Options, submitted: set<Request>)
    requires j.place == WantLock || j.place == CheckGeneration || j.place == CheckShutdown
    requires MotionsOk(j, o, submitted) && StopsOk(j, o, submitted)
    ensures Barred(j)
  {
    hide Carries;
  }

  /** A goal that has not passed its check of the shutdown when the node shuts down sends nothing at all, and does not
      succeed. */
  lemma NothingSentAfterShutdown(h: History, o: Options, i: nat, k: nat, n: nat)
    requires ValidHistory(h, o) && i <= k < |h.labels| && n in h.states[i].motion.jobs && h.states[i].shuttingDown
    requires var p := h.states[i].motion.jobs[n].place; p == WantLock || p == CheckGeneration || p == CheckShutdown
    ensures h.states[k].shuttingDown && n in h.states[k].motion.jobs
    ensures var j := h.states[k].motion.jobs[n];
            j.motions == [] && j.stops == [] && (j.outcomes != [] ==> j.outcomes[0] != Succeeded)
    ensures Owns(h.labels[k], n) ==> !h.labels[k].action.Send?
  {
    DriverSteps.DriverRun(h, o, i);
    OutcomesHold(h.states[i], n);
    BarredAtFirst(h.states[i].motion.jobs[n], o, h.states[i].engine.submitted);
    BarredForGood(h, o, i, k, n);
    FollowsIn(h, o, k, n);
    DriverSteps.DriverRun(h, o, k);
    OutcomesHold(h.states[k], n);
    hide ValidHistory, DriverInv, Follows;
    BarredStep(h.states[k], h.labels[k], h.states[k + 1], n);
  }

  lemma ShutdownReaches(s: System, n: nat)
    requires Can(s, ShutDown) && n in s.motion.jobs
    ensures Advance(s, ShutDown).shuttingDown && Advance(s, ShutDown).motion == s.motion
  {
  }

  /** The same from the step on that shuts the node down. */
  lemma NothingSentOnceShutDown(h: History, o: Options, i: nat, k: nat, n: nat)
    requires ValidHistory(h, o) && i < k < |h.labels| && n in h.states[i].motion.jobs && h.labels[i] == ShutDown
    requires var p := h.states[i].motion.jobs[n].place; p == WantLock || p == CheckGeneration || p == CheckShutdown
    ensures h.states[k].shuttingDown && n in h.states[k].motion.jobs
    ensures var j := h.states[k].motion.jobs[n];
            j.motions == [] && j.stops == [] && (j.outcomes != [] ==> j.outcomes[0] != Succeeded)
    ensures Owns(h.labels[k], n) ==> !h.labels[k].action.Send?
  {
    assert Can(h.states[i], h.labels[i]) && h.states[i + 1] == Advance(h.states[i], h.labels[i]);
    ShutdownReaches(h.states[i], n);
    hide Can, Advance;
    NothingSentAfterShutdown(h, o, i + 1, k, n);
  }
}
