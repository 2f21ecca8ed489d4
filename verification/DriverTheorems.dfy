/** What the driver's protocol guarantees, over all its runs. */
module DriverTheorems {
  import opened Device
  import opened Engine
  import opened EngineInvariant
  import opened EngineEffects
  import opened EngineTheorems
  import opened EngineDrain
  import EngineDelay
  import opened EngineLane
  import opened EnginePriority
  import opened Driver
  import opened DriverInvariant
  import opened DriverSteps

  // ----- initialisation -----

  lemma OptionsStep(s: System, l: Label)
    requires Can(s, l)
    ensures Advance(s, l).options == s.options
  {
    hide Enabled, Apply, CanAct, CanTimer, CanInit, IsService, Driver.Fresh, Plan;
  }

  lemma {:induction false} OptionsStay(h: History, o: Options, k: nat)
    requires ValidHistory(h, o) && k < |h.states|
    ensures h.states[k].options == o
    decreases k
  {
    hide Can, Advance;
    if k > 0 {
      OptionsStay(h, o, k - 1);
      OptionsStep(h.states[k - 1], h.labels[k - 1]);
    }
  }

  lemma AnsweredSince(e: State)
    requires Inv(e)
    ensures forall r :: r in e.resolved && Success(e.resolved[r]) ==>
              r in e.acceptedOn && r.createdOn <= e.acceptedOn[r] <= Generation(e)
  {
    hide Conserved, Linked, Coherent, Ordered, Guarded, Tracked;
  }

  /** If the readiness check has returned true for a snapshot of generation `g`, every planned command succeeded,
      having been made and accepted on generation `g` or later. */
  lemma ReadyMeansPerformed(s: System, g: nat)
    requires DriverInv(s) && s.callback == Ready(g)
    ensures |s.init.performed| == |Plan(s.options)|
    ensures forall c :: 0 <= c < |s.init.performed| ==>
              var r := s.init.performed[c];
              && Carries(r, Plan(s.options)[c])
              && r in s.engine.resolved && Success(s.engine.resolved[r])
              && r in s.engine.acceptedOn && g <= r.createdOn <= s.engine.acceptedOn[r] <= Generation(s.engine)
  {
    hide JobsOk, LockOk, ClientsOk, Carries, Plan;
    AnsweredSince(s.engine);
    hide Inv;
    forall c | 0 <= c < |s.init.performed|
      ensures g <= s.init.performed[c].createdOn
    {
      assert s.init.performed[c] in s.init.performed;
    }
  }

  /** The commands of an initialisation: acceleration, force, and, where configured, acknowledge and home. */
  predicate IsPlanned(rs: seq<Request>, o: Options) {
    && |rs| == 2 + Count(o.autoAcknowledge) + Count(o.autoHome)
    && rs[0].id == 0x30 && rs[0].payload == o.defaultAcceleration && rs[0].timeout == o.responseTimeout
    && rs[1].id == 0x32 && rs[1].payload == o.defaultForce && rs[1].timeout == o.responseTimeout
    && (o.autoAcknowledge ==>
          rs[2].id == 0x24 && rs[2].payload == [0x61, 0x63, 0x6b] && rs[2].timeout == o.responseTimeout)
    && (o.autoHome ==>
          var r := rs[|rs| - 1]; r.id == 0x20 && r.payload == [0] && r.timeout == o.motionTimeout)
  }

  lemma CarriedIsPlanned(o: Options, rs: seq<Request>)
    requires |rs| == |Plan(o)| && forall c :: 0 <= c < |rs| ==> Carries(rs[c], Plan(o)[c])
    ensures IsPlanned(rs, o)
  {
    assert Carries(rs[0], Plan(o)[0]) && Carries(rs[1], Plan(o)[1]);
    if o.autoAcknowledge {
      assert Carries(rs[2], Plan(o)[2]);
    }
    if o.autoHome {
      assert Carries(rs[|rs| - 1], Plan(o)[|rs| - 1]);
    }
  }

  lemma EngineGenerations(s: System, l: Label)
    requires Can(s, l)
    ensures var n := Advance(s, l);
            && Generation(n.engine) >= Generation(s.engine)
            && (Generation(n.engine) == Generation(s.engine) && n.engine.device.connected ==> s.engine.device.connected)
  {
    hide Enabled, Apply, CanAct, CanTimer, CanInit, CanHome, IsService, Driver.Fresh, Plan, NextJob, TimerInit,
        NextInit;
    if l.EngineMoves? {
      GenerationStep(s.engine, l.step);
    }
  }

  /** A generation that is connected at the end of a stretch was connected all through it. */
  lemma {:induction false} UnbrokenUpTo(h: History, o: Options, m: nat, k: nat)
    requires ValidHistory(h, o) && m <= k < |h.states|
    ensures Generation(h.states[m].engine) <= Generation(h.states[k].engine)
    ensures Generation(h.states[m].engine) == Generation(h.states[k].engine) && h.states[k].engine.device.connected ==>
              h.states[m].engine.device.connected
    decreases k - m
  {
    hide Can, Advance;
    if m < k {
      EngineGenerations(h.states[k - 1], h.labels[k - 1]);
      UnbrokenUpTo(h, o, m, k - 1);
    }
  }

  /** Readiness is tied to the live connection: when the check has returned true for a snapshot of generation `g`
      and `g` is still connected, the acceleration, the force and the configured acknowledge and home commands all
      succeeded, in order, on generation `g`, whose connection has not been interrupted since. */
  lemma InitialisedOnThisConnection(h: History, o: Options, k: nat, g: nat)
    requires ValidHistory(h, o) && k < |h.states| && h.states[k].callback == Ready(g)
    requires h.states[k].engine.device.connected && Generation(h.states[k].engine) == g
    ensures var s := h.states[k];
            && |s.init.performed| == |Plan(o)|
            && forall c :: 0 <= c < |Plan(o)| ==>
                 var r := s.init.performed[c];
                 && Carries(r, Plan(o)[c]) && r in s.engine.resolved && Success(s.engine.resolved[r])
                 && r in s.engine.acceptedOn && s.engine.acceptedOn[r] == g
    ensures IsPlanned(h.states[k].init.performed, o)
    ensures forall m :: 0 <= m <= k && Generation(h.states[m].engine) == g ==> h.states[m].engine.device.connected
  {
    DriverRun(h, o, k);
    OptionsStay(h, o, k);
    hide DriverInv, Carries, Plan, ValidHistory, IsPlanned;
    ReadyMeansPerformed(h.states[k], g);
    CarriedIsPlanned(o, h.states[k].init.performed);
    forall m | 0 <= m <= k && Generation(h.states[m].engine) == g
      ensures h.states[m].engine.device.connected
    {
      UnbrokenUpTo(h, o, m, k);
    }
  }

  // ----- goals -----

  lemma JobHolds(h: History, o: Options, k: nat, n: nat)
    requires ValidHistory(h, o) && k < |h.states| && n in h.states[k].motion.jobs
    ensures var s := h.states[k];
            JobOk(s.motion.jobs[n], o, s.engine.resolved, s.engine.submitted)
  {
    DriverRun(h, o, k);
    OptionsStay(h, o, k);
    hide Inv, InitOk, LockOk, ClientsOk, JobOk, ValidHistory;
  }

  /** A goal makes exactly one terminal transition, in its last step but one; the transition is one the action server
      allows: only a goal that is being canceled is reported as canceled. */
  lemma OneTerminalTransition(h: History, o: Options, k: nat, n: nat)
    requires ValidHistory(h, o) && k < |h.states| && n in h.states[k].motion.jobs
    ensures var j := h.states[k].motion.jobs[n];
            && |j.outcomes| == (if Ended(j.place) then 1 else 0)
            && (j.handle.Terminal? <==> j.outcomes != [])
            && (j.outcomes != [] ==> j.handle == Terminal(j.outcomes[0]))
            && (j.place.Concluding? ==> j.handle == Canceling || (j.handle == Executing && j.place.outcome != Canceled))
  {
    JobHolds(h, o, k, n);
    hide MotionsOk, StopsOk, WaitsOk, RepliesOk, ValidHistory;
  }

  lemma AtMostOne(j: Job, o: Options, submitted: set<Request>)
    requires MotionsOk(j, o, submitted) && StopsOk(j, o, submitted)
    ensures |j.stops| <= 1 && |j.motions| <= 1 && (j.stops != [] ==> j.motions != [])
    ensures forall r :: r in j.stops ==> Carries(r, StopOrder(o))
    ensures forall r :: r in j.motions ==> Carries(r, MotionOrder(o, j.goal))
  {
    hide Carries, StopOrder, MotionOrder;
  }

  /** A goal sends at most one motion command and at most one stop, and a stop only after its motion command. */
  lemma AtMostOneStop(h: History, o: Options, k: nat, n: nat)
    requires ValidHistory(h, o) && k < |h.states| && n in h.states[k].motion.jobs
    ensures var j := h.states[k].motion.jobs[n];
            && |j.stops| <= 1 && |j.motions| <= 1 && (j.stops != [] ==> j.motions != [])
            && (forall r :: r in j.stops ==> Carries(r, StopOrder(o)))
            && (forall r :: r in j.motions ==> Carries(r, MotionOrder(o, j.goal)))
  {
    JobHolds(h, o, k, n);
    hide ValidHistory, MotionsOk, StopsOk, OutcomesOk, WaitsOk, RepliesOk, Carries, StopOrder, MotionOrder;
    AtMostOne(h.states[k].motion.jobs[n], o, h.states[k].engine.submitted);
  }

  /** A goal that succeeds had a motion command that succeeded, or ended on a blocked axis while grasping, and then
      saw the fingers within tolerance of the target or, while grasping, stalled. */
  lemma SuccessIsEarned(h: History, o: Options, k: nat, n: nat)
    requires ValidHistory(h, o) && k < |h.states| && n in h.states[k].motion.jobs
    requires h.states[k].motion.jobs[n].outcomes == [Succeeded]
    ensures var s := h.states[k];
            var j := s.motion.jobs[n];
            && |j.motions| == 1 && Carries(j.motions[0], MotionOrder(o, j.goal)) && j.motions[0] in s.engine.resolved
            && var reply := s.engine.resolved[j.motions[0]];
               && MotionOk(j.goal, reply)
               && (WithinTolerance(o, j.goal, j.seen) || (j.goal.mode == Grasp && ResultStalled(j.goal, reply, j.seen)))
  {
    JobHolds(h, o, k, n);
    AtMostOneStop(h, o, k, n);
    hide ValidHistory, MotionsOk, StopsOk, OutcomesOk, WaitsOk, Carries, MotionOrder, MotionOk, WithinTolerance;
    var j := h.states[k].motion.jobs[n];
    assert j.motions[0] in j.motions;
  }

  // ----- preemption -----

  /** Where a goal can be that was already superseded when it looked for newer goals. */
  predicate TurnedAway(j: Job) {
    && (j.place == WantLock || j.place == CheckGeneration || j.place == Refused || Ended(j.place) ||
        (j.place.Concluding? && j.place.outcome != Succeeded))
    && j.motions == [] && j.stops == []
  }

  predicate DecidedSuccess(j: Job) {
    j.place == Concluding(Succeeded) || (j.outcomes != [] && j.outcomes[0] == Succeeded)
  }

  lemma TurnedAwayStep(s: System, n: nat, j: Job, a: Action)
    requires CanAct(s, j, a) && n < s.motion.generation && TurnedAway(j)
    ensures TurnedAway(NextJob(s, n, j, a)) && !a.Send?
  {
    hide Engine.Success, Fulfilled, Unsettled, HasReturned, Carries, MotionOrder, StopOrder, Driver.Fresh, IsResolved,
        ReplyOf;
  }

  lemma DecidedBefore(s: System, n: nat, j: Job, a: Action)
    requires CanAct(s, j, a) && n < s.motion.generation && DecidedSuccess(NextJob(s, n, j, a))
    ensures DecidedSuccess(j)
  {
    hide Engine.Success, Fulfilled, Unsettled, HasReturned, Carries, MotionOrder, StopOrder, Driver.Fresh, IsResolved,
        ReplyOf;
  }

  lemma SupersededStep(s: System, n: nat, j: Job, a: Action)
    requires CanAct(s, j, a) && n < s.motion.generation
    ensures TurnedAway(j) ==> TurnedAway(NextJob(s, n, j, a)) && !a.Send?
    ensures DecidedSuccess(NextJob(s, n, j, a)) ==> DecidedSuccess(j)
  {
    hide CanAct, NextJob, TurnedAway, DecidedSuccess;
    if TurnedAway(j) {
      TurnedAwayStep(s, n, j, a);
    }
    if DecidedSuccess(NextJob(s, n, j, a)) {
      DecidedBefore(s, n, j, a);
    }
  }

  /** What one step leaves of a superseded goal. */
  predicate StillSuperseded(before: Job, after: Job) {
    (TurnedAway(before) ==> TurnedAway(after)) && (DecidedSuccess(after) ==> DecidedSuccess(before))
  }

  lemma CancelKeeps(j: Job)
    ensures StillSuperseded(j, j.(handle := Canceling))
  {
  }

  lemma SupersededStays(s: System, l: Label, n: nat)
    requires DriverInv(s) && Can(s, l) && n in s.motion.jobs && n < s.motion.generation
    ensures var m := Advance(s, l).motion;
            n in m.jobs && n < m.generation && StillSuperseded(s.motion.jobs[n], m.jobs[n])
  {
    hide DriverInv, Enabled, Apply, CanAct, CanTimer, CanInit, CanHome, IsService, Driver.Fresh, Plan, NextJob,
        TimerInit, NextInit;
    hide TurnedAway, DecidedSuccess, EngineAfter;
    var j := s.motion.jobs[n];
    if l.GoalActs? && l.n == n {
      SupersededStep(s, n, j, l.action);
    } else if l.CancelGoal? && l.n == n {
      CancelKeeps(j);
    }
  }

  lemma {:induction false} SupersededForGood(h: History, o: Options, i: nat, k: nat, n: nat)
    requires ValidHistory(h, o) && i <= k < |h.states|
    requires n in h.states[i].motion.jobs && n < h.states[i].motion.generation
    ensures n in h.states[k].motion.jobs && n < h.states[k].motion.generation
    ensures var was, now := h.states[i].motion.jobs[n], h.states[k].motion.jobs[n];
            StillSuperseded(was, now)
    decreases k - i
  {
    hide Can, Advance, DriverInv;
    if i < k {
      SupersededForGood(h, o, i, k - 1, n);
      DriverRun(h, o, k - 1);
      SupersededStays(h.states[k - 1], h.labels[k - 1], n);
    }
  }

  /** Once a newer goal has been accepted, no older goal decides on success. */
  lemma NoSuccessOnceSuperseded(h: History, o: Options, i: nat, k: nat, n: nat)
    requires ValidHistory(h, o) && i <= k < |h.states|
    requires n in h.states[i].motion.jobs && n < h.states[i].motion.generation
    ensures n in h.states[k].motion.jobs
    ensures DecidedSuccess(h.states[k].motion.jobs[n]) ==> DecidedSuccess(h.states[i].motion.jobs[n])
  {
    SupersededForGood(h, o, i, k, n);
    hide ValidHistory, DecidedSuccess, TurnedAway;
  }

  lemma ActsNow(h: History, o: Options, k: nat)
    requires ValidHistory(h, o) && k < |h.labels| && h.labels[k].GoalActs?
    ensures h.labels[k].n in h.states[k].motion.jobs
    ensures CanAct(h.states[k], h.states[k].motion.jobs[h.labels[k].n], h.labels[k].action)
  {
    hide CanAct, Advance, Enabled;
    assert Can(h.states[k], h.labels[k]);
  }

  lemma StartsEmpty(h: History, o: Options, i: nat, n: nat)
    requires ValidHistory(h, o) && i < |h.states| && n in h.states[i].motion.jobs
    requires h.states[i].motion.jobs[n].place == WantLock || h.states[i].motion.jobs[n].place == CheckGeneration
    ensures h.states[i].motion.jobs[n].motions == [] && h.states[i].motion.jobs[n].stops == []
  {
    JobHolds(h, o, i, n);
    hide OutcomesOk, WaitsOk, RepliesOk, ValidHistory, Carries, StopOrder, MotionOrder;
  }

  /** A goal that is superseded while it waits for the mutex, or before it has looked for newer goals, never sends
      anything: no motion, no stop, and no other command either. */
  lemma SupersededGoalSendsNothing(h: History, o: Options, i: nat, k: nat, n: nat)
    requires ValidHistory(h, o) && i <= k < |h.states|
    requires n in h.states[i].motion.jobs && n < h.states[i].motion.generation
    requires h.states[i].motion.jobs[n].place == WantLock || h.states[i].motion.jobs[n].place == CheckGeneration
    ensures n in h.states[k].motion.jobs
    ensures h.states[k].motion.jobs[n].motions == [] && h.states[k].motion.jobs[n].stops == []
    ensures k < |h.labels| && h.labels[k].GoalActs? && h.labels[k].n == n ==> !h.labels[k].action.Send?
  {
    SupersededForGood(h, o, i, k, n);
    StartsEmpty(h, o, i, n);
    hide DecidedSuccess;
    if k < |h.labels| && h.labels[k].GoalActs? && h.labels[k].n == n {
      ActsNow(h, o, k);
      hide Can, CanAct, NextJob, ValidHistory;
      SupersededStep(h.states[k], n, h.states[k].motion.jobs[n], h.labels[k].action);
    }
  }

  // ----- one motion at a time -----

  /** The motion command of the goal or of the home service is not resolved. */
  predicate Moving(s: System, n: nat) {
    n in s.motion.jobs && s.motion.jobs[n].motions != [] && s.motion.jobs[n].motions[0] !in s.engine.resolved
  }

  lemma MovingIsInside(s: System, n: nat)
    requires DriverInv(s) && Moving(s, n)
    ensures s.motion.lock == ByGoal(n)
  {
    hide Inv, InitOk, ClientsOk, OutcomesOk, WaitsOk, StopsOk, Fulfilled, Carries, MotionOrder;
  }

  /** Two goals never have unresolved motion commands at once, nor a goal and the home service. */
  lemma OneMotionAtATime(h: History, o: Options, k: nat, n: nat, m: nat)
    requires ValidHistory(h, o) && k < |h.states| && Moving(h.states[k], n)
    ensures Moving(h.states[k], m) ==> n == m
    ensures !h.states[k].callback.HomeAwaiting?
  {
    DriverRun(h, o, k);
    var s := h.states[k];
    MovingIsInside(s, n);
    if Moving(s, m) {
      MovingIsInside(s, m);
    }
    hide Inv, InitOk, ClientsOk, JobsOk, Moving, ValidHistory;
  }

  predicate OnlyStopsHurry(rs: set<Request>) {
    forall r :: r in rs && r.priority ==> r.id == COMMAND_STOP
  }

  lemma SentHurries(s: System, j: Job, a: Action)
    requires CanAct(s, j, a) && a.Send?
    ensures a.request.priority ==> a.request.id == COMMAND_STOP
  {
    hide Engine.Success, Fulfilled, Unsettled, HasReturned, IsResolved;
  }

  lemma HurryStep(s: System, l: Label)
    requires Can(s, l) && OnlyStopsHurry(s.engine.submitted)
    ensures OnlyStopsHurry(Advance(s, l).engine.submitted)
  {
    hide Enabled, Apply, CanAct, CanTimer, CanInit, CanHome, NextJob, TimerInit, NextInit;
    if l.EngineMoves? {
      StepEvolves(s.engine, l.step);
    } else if l.GoalActs? && l.action.Send? {
      SentHurries(s, s.motion.jobs[l.n], l.action);
    }
  }

  lemma {:induction false} OnlyStopsHaveHurried(h: History, o: Options, k: nat)
    requires ValidHistory(h, o) && k < |h.states|
    ensures OnlyStopsHurry(h.states[k].engine.submitted)
    decreases k
  {
    hide Can, Advance;
    if k > 0 {
      OnlyStopsHaveHurried(h, o, k - 1);
      HurryStep(h.states[k - 1], h.labels[k - 1]);
    }
  }

  lemma OrdinaryAlone(e: State, id: Id, id': Id)
    requires Inv(e) && OnlyStopsHurry(e.submitted) && id in e.inFlight && id' in e.inFlight
    requires id != COMMAND_STOP && id' != COMMAND_STOP
    ensures id == id'
  {
    hide Linked, Coherent, Dated, Guarded, Tracked;
    assert InFlight(e.inFlight, e.inFlight[id]) && InFlight(e.inFlight, e.inFlight[id']);
    EngineSteps.OnePlace(e, e.inFlight[id]);
    EngineSteps.OnePlace(e, e.inFlight[id']);
  }

  /** At most one command other than a stop awaits its reply; so home, move, grasp and release never do so together,
      even though the automatic home does not take the motion mutex. */
  lemma MotionsNeverOverlap(h: History, o: Options, k: nat, id: Id, id': Id)
    requires ValidHistory(h, o) && k < |h.states|
    requires id in h.states[k].engine.inFlight && id' in h.states[k].engine.inFlight
    requires id != COMMAND_STOP && id' != COMMAND_STOP
    ensures id == id'
  {
    DriverRun(h, o, k);
    OnlyStopsHaveHurried(h, o, k);
    hide InitOk, LockOk, JobsOk, ClientsOk, ValidHistory;
    OrdinaryAlone(h.states[k].engine, id, id');
  }

  // ----- the engine inside the driver -----

  /** The engine's step in a step of the driver, if there is one. */
  function EngineStep(l: Label): Option<Step> {
    match l
    case EngineMoves(step) => Some(step)
    case ServiceCalls(r) => Some(Submit(r))
    case HomeSends(r) => Some(Submit(r))
    case InitSends(r) => Some(Submit(r))
    case GoalActs(_, Send(r)) => Some(Submit(r))
    case _ => None
  }

  lemma SendIsSubmit(s: System, j: Job, a: Action)
    requires CanAct(s, j, a) && a.Send?
    ensures Enabled(s.engine, Submit(a.request))
  {
    hide Engine.Success, Fulfilled, Unsettled, HasReturned, IsResolved, MotionOrder;
  }

  lemma SubmitApplies(e: State, r: Request)
    requires Enabled(e, Submit(r))
    ensures Apply(e, Submit(r)) == Submitted(e, r)
  {
    hide Submitted;
  }

  lemma GoalIsEmbedded(s: System, n: nat, a: Action)
    requires Can(s, GoalActs(n, a))
    ensures var e := Acted(s, n, a).engine;
            if a.Send? then Enabled(s.engine, Submit(a.request)) && e == Apply(s.engine, Submit(a.request))
            else e == s.engine
  {
    hide CanAct, NextJob, Submitted;
    if a.Send? {
      SendIsSubmit(s, s.motion.jobs[n], a);
      SubmitApplies(s.engine, a.request);
    }
  }

  lemma NewIsEmbedded(s: System, l: Label)
    requires Can(s, l) && (l.ServiceCalls? || l.HomeSends? || l.InitSends?)
    ensures Enabled(s.engine, Submit(l.request)) && Advance(s, l).engine == Apply(s.engine, Submit(l.request))
  {
    hide Plan, StopOrder, HomeOrder, Submitted;
    SubmitApplies(s.engine, l.request);
  }

  /** Seen from the engine, a step of the driver is one of its own steps or none. */
  lemma EngineIsEmbedded(s: System, l: Label)
    requires Can(s, l)
    ensures EngineStep(l).None? ==> Advance(s, l).engine == s.engine
    ensures EngineStep(l).Some? ==>
              && Enabled(s.engine, EngineStep(l).value)
              && Advance(s, l).engine == Apply(s.engine, EngineStep(l).value)
  {
    if l.GoalActs? {
      hide Enabled, Apply, CanAct, Acted;
      GoalIsEmbedded(s, l.n, l.action);
    } else if l.ServiceCalls? || l.HomeSends? || l.InitSends? {
      hide Can, Advance, Enabled, Apply;
      NewIsEmbedded(s, l);
    } else {
      hide Enabled, Apply, CanAct, CanTimer, CanInit, CanHome, Acted, TimerInit, TimerCallback, NextInit, Submitted;
    }
  }

  lemma EngineIsSound(s: System)
    requires DriverInv(s)
    ensures Inv(s.engine)
  {
    hide Inv, InitOk, JobsOk, LockOk, ClientsOk;
  }

  /** `run` is what the first `k` steps of the driver are to the engine; `at` says where. */
  ghost predicate Embeds(h: History, k: nat, run: Run, at: seq<nat>) {
    && ValidRun(run) && |at| == k + 1 <= |h.states| && at[0] == 0 && at[k] + 1 == |run.states|
    && (forall m :: 0 <= m < k ==> at[m] <= at[m + 1] <= at[m] + 1)
    && (forall m :: 0 <= m <= k ==> at[m] < |run.states| && run.states[at[m]] == h.states[m].engine)
  }

  lemma EmbedsFirst(h: History, o: Options) returns (run: Run, at: seq<nat>)
    requires ValidHistory(h, o)
    ensures Embeds(h, 0, run, at)
  {
    hide Can, Advance;
    run, at := Run([Initially(o.maxPayload)], []), [0];
  }

  lemma EmbedsSame(h: History, k: nat, run: Run, at: seq<nat>)
    requires Embeds(h, k, run, at) && k + 1 < |h.states| && h.states[k + 1].engine == h.states[k].engine
    ensures Embeds(h, k + 1, run, at + [at[k]])
  {
    hide ValidRun;
  }

  lemma EmbedsNext(h: History, k: nat, run: Run, at: seq<nat>, next: Run)
    requires Embeds(h, k, run, at) && k + 1 < |h.states| && ValidRun(next)
    requires next.states == run.states + [h.states[k + 1].engine]
    ensures Embeds(h, k + 1, next, at + [at[k] + 1])
  {
    hide ValidRun;
  }

  lemma EmbeddedEnd(h: History, k: nat, run: Run, at: seq<nat>)
    requires Embeds(h, k, run, at)
    ensures ValidRun(run) && |at| == k + 1 <= |h.states| && EngineDelay.Last(run) == h.states[k].engine
  {
    hide ValidRun;
  }

  /** Seen from the engine, a history of the driver is a run. */
  lemma {:induction false} EngineRunOf(h: History, o: Options, k: nat) returns (run: Run, at: seq<nat>)
    requires ValidHistory(h, o) && k < |h.states|
    ensures Embeds(h, k, run, at)
    decreases k
  {
    hide Can, Advance, Enabled, Apply, Embeds, EngineStep;
    if k == 0 {
      run, at := EmbedsFirst(h, o);
    } else {
      var before, places := EngineRunOf(h, o, k - 1);
      EngineIsEmbedded(h.states[k - 1], h.labels[k - 1]);
      EmbeddedEnd(h, k - 1, before, places);
      if EngineStep(h.labels[k - 1]).Some? {
        run := EngineDelay.Extend(before, EngineStep(h.labels[k - 1]).value);
        EmbedsNext(h, k - 1, before, places, run);
        at := places + [places[k - 1] + 1];
      } else {
        EmbedsSame(h, k - 1, before, places);
        run, at := before, places + [places[k - 1]];
      }
    }
  }

  lemma {:induction false} EmbeddedInOrder(h: History, k: nat, run: Run, at: seq<nat>, i: nat, j: nat)
    requires Embeds(h, k, run, at) && i <= j <= k
    ensures at[i] <= at[j] < |run.states|
    decreases j
  {
    hide ValidRun;
    if i < j {
      EmbeddedInOrder(h, k, run, at, i, j - 1);
    }
  }

  /** No state of the run is left out. */
  lemma {:induction false} Covered(h: History, k: nat, run: Run, at: seq<nat>, i: nat, j: nat, x: nat) returns (m: nat)
    requires Embeds(h, k, run, at) && i <= j <= k && at[i] <= x <= at[j]
    ensures i <= m <= j && at[m] == x
    decreases j
  {
    hide ValidRun;
    if x == at[j] {
      m := j;
    } else {
      m := Covered(h, k, run, at, i, j - 1, x);
    }
  }

  lemma HeadIsUrgent(e: State, r: Request)
    requires Inv(e) && Heads(e, r)
    ensures r.priority && r in e.submitted
  {
    hide Linked, Coherent, Dated, Ordered, Guarded, Tracked, Down;
    EngineSteps.OnePlace(e, r);
  }

  /** A stop at the head of the priority lane goes out or is failed within the rest of the worker's iteration, or one
      more iteration, unless another stop is in flight: a motion in flight, waiting commands, other stops and
      everything the driver does meanwhile do not delay it. */
  lemma StopGoesOut(h: History, o: Options, i: nat, j: nat, r: Request, d: nat)
    requires ValidHistory(h, o) && i <= j < |h.states| && COMMAND_STOP !in h.states[i].engine.inFlight
    requires Heads(h.states[i].engine, r) && r in h.states[j].engine.priorityQueue
    requires forall k :: i <= k <= j ==> Paced(h.states[k].engine, d)
    ensures r.id == COMMAND_STOP
    ensures h.states[j].engine.clock - h.states[i].engine.clock <= Lead(h.states[i].engine, d, false)
  {
    DriverRun(h, o, i);
    EngineIsSound(h.states[i]);
    HeadIsUrgent(h.states[i].engine, r);
    OnlyStopsHaveHurried(h, o, i);
    var run, at := EngineRunOf(h, o, j);
    EmbeddedInOrder(h, j, run, at, i, j);
    hide ValidHistory, DriverInv, Heads, Paced, LeadTime, ValidRun;
    forall x | at[i] <= x <= at[j]
      ensures Paced(run.states[x], d)
    {
      var m := Covered(h, j, run, at, i, j, x);
    }
    PriorityGoesOut(run, at[i], at[j], r, d);
  }
}
