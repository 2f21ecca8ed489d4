/** Shutting down terminates. From the moment the node has set `shutting_down_` and cleared `running_`, with the
    executor running no more callbacks, the transport's worker, the goal threads and the initialisation thread have
    finitely many steps left, however time passes in between, and until all have ended one of them can go on; so
    every join of the destructor completes. */
module DriverShutdown {
  import opened Device
  import opened Engine
  import opened EngineInvariant
  import opened EngineEffects
  import opened EngineShutdown
  import opened EngineSteps
  import opened Driver
  import opened DriverInvariant
  import DriverSteps

  predicate ShutsDown(s: System) {
    s.shuttingDown && !s.engine.running && s.callback == Idle
  }

  /** The steps of the threads the destructor joins, and of their `command` calls. */
  predicate IsThreadStep(l: Label) {
    || l.GoalActs? || l.InitSends? || l.InitGoes?
    || (l.EngineMoves? && (IsWorkerStep(l.step) || l.step.CallLock? || l.step.CallUnlock? || l.step.CallFail?))
  }

  /** What may happen besides: time passes, goals are being canceled, the timer fires in vain, the flags are cleared
      again. */
  predicate IsIdleStep(l: Label) {
    l.ShutDown? || l.TimerFires? || l.CancelGoal? || (l.EngineMoves? && (l.step.Tick? || l.step.Stop?))
  }

  predicate AllJoined(s: System) {
    && s.engine.worker == Exited
    && !Active(s.init.thread)
    && forall n :: n in s.motion.jobs ==> s.motion.jobs[n].place == Gone
  }

  // ----- the measure -----

  function PlaceRank(p: Place, polls: nat): nat {
    match p
    case Gone => 0
    case Unlocking => 1
    case Concluding(_) => 2
    case Refused => 3
    case JudgeGeneration => 3
    case JudgeCanceling => 4
    case Looked(k) => 5 + 2 * k
    case Looking(k) => 6 + 2 * k
    case Collecting => 7 + 2 * polls
    case WatchShutdown(_) => 8 + 2 * polls
    case Watching(_) => 9 + 2 * polls
    case AwaitStop(_) => 10 + 2 * polls
    case SendStop => 15 + 2 * polls
    case WatchGeneration => 16 + 2 * polls
    case WatchCanceling => 17 + 2 * polls
    case SendMotion => 18 + 2 * polls
    case AwaitForce(_) => 19 + 2 * polls
    case SendForce => 24 + 2 * polls
    case AwaitAcceleration(_) => 25 + 2 * polls
    case SendAcceleration => 30 + 2 * polls
    case CheckShutdown => 31 + 2 * polls
    case CheckGeneration => 32 + 2 * polls
    case WantLock => 33 + 2 * polls
  }

  function WaitRank(j: Job, calls: map<Request, Call>): nat {
    match j.place
    case AwaitAcceleration(r) => CallRank(calls, r)
    case AwaitForce(r) => CallRank(calls, r)
    case AwaitStop(r) => CallRank(calls, r)
    case Watching(stopSent) => if stopSent then 0 else CallRank(calls, MotionRequest(j))
    case _ => 0
  }

  function JobRank(j: Job, polls: nat, calls: map<Request, Call>): nat {
    PlaceRank(j.place, polls) + WaitRank(j, calls)
  }

  function JobsRank(jobs: map<nat, Job>, polls: nat, calls: map<Request, Call>, k: nat): nat {
    if k == 0 then 0
    else (if k in jobs then JobRank(jobs[k], polls, calls) else 0) + JobsRank(jobs, polls, calls, k - 1)
  }

  function InitRank(i: Init, o: Options, calls: map<Request, Call>): nat {
    var rest := if |i.performed| < |Plan(o)| then |Plan(o)| - |i.performed| else 0;
    match i.thread
    case Absent => 0
    case Finished => 0
    case Lowering => 1
    case Reporting(_, _) => 2
    case Storing(_, _) => 3
    case Asking(_) => 5 + 6 * rest
    case Awaiting(_, r) => 6 * rest + CallRank(calls, r)
  }

  /** A bound on the steps of the node's own threads. */
  function ThreadsRank(s: System): nat {
    InitRank(s.init, s.options, s.engine.calls) +
    JobsRank(s.motion.jobs, s.options.settlePolls, s.engine.calls, s.motion.generation)
  }

  /** A bound on the steps all threads have left. */
  function Rank(s: System): nat { ThreadsRank(s) + Remaining(s.engine) }

  // ----- one step -----

  lemma {:induction false} RankDrops(jobs: map<nat, Job>, jobs': map<nat, Job>, polls: nat, calls: map<Request, Call>,
                                     calls': map<Request, Call>, k: nat, n: nat, more: nat)
    requires forall m :: m in jobs' <==> m in jobs
    requires forall m :: m in jobs ==> JobRank(jobs'[m], polls, calls') <= JobRank(jobs[m], polls, calls)
    ensures JobsRank(jobs', polls, calls', k) <= JobsRank(jobs, polls, calls, k)
    ensures n in jobs && 1 <= n <= k && JobRank(jobs'[n], polls, calls') + more < JobRank(jobs[n], polls, calls) ==>
              JobsRank(jobs', polls, calls', k) + more < JobsRank(jobs, polls, calls, k)
    decreases k
  {
    hide JobRank;
    if k > 0 {
      RankDrops(jobs, jobs', polls, calls, calls', k - 1, n, more);
    }
  }

  /** From `p` to `q` the rank drops by more than a new call adds. */
  predicate Drops(p: Place, q: Place, a: Action, polls: nat) {
    && (a.Send? || q == Watching(false) ==> PlaceRank(q, polls) + 4 < PlaceRank(p, polls))
    && PlaceRank(q, polls) < PlaceRank(p, polls)
    && (!a.Send? ==> !q.AwaitAcceleration? && !q.AwaitForce? && !q.AwaitStop?)
  }

  lemma DropsBefore(s: System, n: nat, j: Job, a: Action)
    requires CanAct(s, j, a) && s.shuttingDown && BeforeMotion(j.place)
    ensures Drops(j.place, NextPlace(s, n, j, a), a, s.options.settlePolls)
  {
    hide Engine.Success, Fulfilled, Unsettled, HasReturned, Carries, MotionOrder, StopOrder, Driver.Fresh, IsResolved,
        ReplyOf;
  }

  lemma DropsWithin(s: System, n: nat, j: Job, a: Action)
    requires CanAct(s, j, a) && s.shuttingDown && InMotion(j.place)
    ensures Drops(j.place, NextPlace(s, n, j, a), a, s.options.settlePolls)
  {
    hide Engine.Success, Fulfilled, Unsettled, HasReturned, Carries, MotionOrder, StopOrder, Driver.Fresh, IsResolved,
        ReplyOf;
  }

  lemma DropsAfter(s: System, n: nat, j: Job, a: Action)
    requires CanAct(s, j, a) && s.shuttingDown && !BeforeMotion(j.place) && !InMotion(j.place)
    ensures Drops(j.place, NextPlace(s, n, j, a), a, s.options.settlePolls)
  {
    hide Engine.Success, Fulfilled, Unsettled, HasReturned, Carries, MotionOrder, StopOrder, Driver.Fresh, IsResolved,
        ReplyOf;
  }

  /** A goal thread's step brings it down. */
  lemma ActionDrops(s: System, n: nat, j: Job, a: Action)
    requires CanAct(s, j, a) && s.shuttingDown
    ensures Drops(j.place, NextPlace(s, n, j, a), a, s.options.settlePolls)
  {
    hide CanAct, NextPlace, Drops;
    if BeforeMotion(j.place) {
      DropsBefore(s, n, j, a);
    } else if InMotion(j.place) {
      DropsWithin(s, n, j, a);
    } else {
      DropsAfter(s, n, j, a);
    }
  }

  lemma CallRankBound(calls: map<Request, Call>, r: Request)
    ensures CallRank(calls, r) <= 3
  {
  }

  lemma JobDrops(s: System, n: nat, j: Job, a: Action, calls: map<Request, Call>)
    requires CanAct(s, j, a) && s.shuttingDown
    ensures JobRank(NextJob(s, n, j, a), s.options.settlePolls, DriverSteps.CallsAfter(calls, a)) + Count(a.Send?) <
              JobRank(j, s.options.settlePolls, calls)
  {
    ActionDrops(s, n, j, a);
    DriverSteps.NextPlaced(s, n, j, a);
    hide CanAct, NextJob, NextPlace, CallRank, PlaceRank, DriverSteps.CallsAfter;
    var next := NextJob(s, n, j, a);
    var calls' := DriverSteps.CallsAfter(calls, a);
    match next.place
    case AwaitAcceleration(r) => CallRankBound(calls', r);
    case AwaitForce(r) => CallRankBound(calls', r);
    case AwaitStop(r) => CallRankBound(calls', r);
    case Watching(stopSent) => CallRankBound(calls', MotionRequest(next));
    case _ =>
  }

  /** A new request changes nothing for the other threads. */
  lemma OthersKeepRank(j: Job, o: Options, resolved: map<Request, Reply>, submitted: set<Request>, polls: nat,
                       calls: map<Request, Call>, r: Request)
    requires JobOk(j, o, resolved, submitted) && r !in submitted
    ensures JobRank(j, polls, calls[r := Created]) == JobRank(j, polls, calls)
  {
    hide PlaceRank, OutcomesOk, RepliesOk, Carries, MotionOrder, StopOrder;
  }

  lemma InitKeepsRank(i: Init, o: Options, submitted: set<Request>, generation: nat, calls: map<Request, Call>,
                      r: Request)
    requires ThreadOk(i, o, submitted, generation) && r !in submitted
    ensures InitRank(i, o, calls[r := Created]) == InitRank(i, o, calls)
  {
    hide Plan, Carries, Complete, CreatedSince;
  }

  // ----- the threads' steps -----

  lemma SubmittedRemains(e: State, r: Request)
    ensures Remaining(Submitted(e, r)) <= Remaining(e) + 1
  {
    OneMoreUnresolved(e.submitted, e.resolved, r);
    hide Unresolved, WorkerRank;
  }

  lemma SendRemains(e: State, a: Action)
    ensures Remaining(EngineAfter(e, a)) <= Remaining(e) + Count(a.Send?)
  {
    hide Remaining;
    if a.Send? {
      SubmittedRemains(e, a.request);
    }
  }

  lemma GoalThreadsDrop(s: System, n: nat, a: Action)
    requires DriverInv(s) && ShutsDown(s) && n in s.motion.jobs && CanAct(s, s.motion.jobs[n], a)
    ensures ThreadsRank(Acted(s, n, a)) + Count(a.Send?) < ThreadsRank(s)
  {
    var j, calls, polls := s.motion.jobs[n], s.engine.calls, s.options.settlePolls;
    if a.Send? {
      DriverSteps.SendIsFresh(s, j, a);
    }
    DriverSteps.EngineParts(s.engine, a);
    JobDrops(s, n, j, a, calls);
    hide Inv, LockOk, ClientsOk, CanAct, NextJob, JobRank, InitRank, EngineAfter, JobOk, Performed, TimerOk;
    var calls' := DriverSteps.CallsAfter(calls, a);
    var jobs' := s.motion.jobs[n := NextJob(s, n, j, a)];
    forall m | m in s.motion.jobs
      ensures JobRank(jobs'[m], polls, calls') <= JobRank(s.motion.jobs[m], polls, calls)
    {
      if m != n && a.Send? {
        OthersKeepRank(s.motion.jobs[m], s.options, s.engine.resolved, s.engine.submitted, polls, calls, a.request);
      }
    }
    RankDrops(s.motion.jobs, jobs', polls, calls, calls', s.motion.generation, n, Count(a.Send?));
    if a.Send? {
      InitKeepsRank(s.init, s.options, s.engine.submitted, Generation(s.engine), calls, a.request);
    }
  }

  lemma GoalStepDrops(s: System, n: nat, a: Action)
    requires DriverInv(s) && ShutsDown(s) && n in s.motion.jobs && CanAct(s, s.motion.jobs[n], a)
    ensures Rank(Acted(s, n, a)) < Rank(s) && Acted(s, n, a).engine.running == s.engine.running
  {
    GoalThreadsDrop(s, n, a);
    SendRemains(s.engine, a);
    hide DriverInv, CanAct, NextJob, ThreadsRank, Remaining;
  }

  lemma ThreadDrops(s: System, calls: map<Request, Call>)
    requires CanInit(s) && ThreadOk(s.init, s.options, s.engine.submitted, Generation(s.engine))
    ensures InitRank(NextInit(s), s.options, calls) < InitRank(s.init, s.options, calls)
  {
    hide Plan, Carries, Complete, CreatedSince, Engine.Success, IsResolved, ReplyOf;
  }

  lemma AskDrops(i: Init, o: Options, calls: map<Request, Call>, r: Request)
    requires i.thread.Asking?
    ensures InitRank(i.(thread := Awaiting(i.thread.generation, r)), o, calls[r := Created]) + 1 < InitRank(i, o, calls)
  {
    hide Plan;
  }

  lemma InitStepDrops(s: System)
    requires DriverInv(s) && CanInit(s)
    ensures Rank(s.(init := NextInit(s))) < Rank(s)
  {
    hide Inv, LockOk, ClientsOk, JobsOk, CanInit, NextInit, InitRank, Performed, TimerOk, Remaining;
    ThreadDrops(s, s.engine.calls);
  }

  lemma InitSendThreadsDrop(s: System, r: Request)
    requires DriverInv(s) && s.init.thread.Asking? && r !in s.engine.submitted
    ensures ThreadsRank(s.(init := s.init.(thread := Awaiting(s.init.thread.generation, r)),
                           engine := Submitted(s.engine, r))) + 1 <
              ThreadsRank(s)
  {
    var calls, polls := s.engine.calls, s.options.settlePolls;
    AskDrops(s.init, s.options, calls, r);
    hide Inv, LockOk, ClientsOk, InitOk, JobRank, InitRank, JobOk;
    forall m | m in s.motion.jobs
      ensures JobRank(s.motion.jobs[m], polls, calls[r := Created]) <= JobRank(s.motion.jobs[m], polls, calls)
    {
      OthersKeepRank(s.motion.jobs[m], s.options, s.engine.resolved, s.engine.submitted, polls, calls, r);
    }
    RankDrops(s.motion.jobs, s.motion.jobs, polls, calls, calls[r := Created], s.motion.generation, 0, 0);
  }

  lemma InitSendDrops(s: System, r: Request)
    requires DriverInv(s) && Can(s, InitSends(r))
    ensures Rank(Advance(s, InitSends(r))) < Rank(s)
  {
    hide DriverInv, ThreadsRank, Remaining, Plan, Carries;
    InitSendThreadsDrop(s, r);
    SubmittedRemains(s.engine, r);
  }

  // ----- the engine's steps -----

  lemma JobDown(j: Job, polls: nat, calls: map<Request, Call>, calls': map<Request, Call>, r: Request)
    requires Settles(calls, calls')
    ensures JobRank(j, polls, calls') <= JobRank(j, polls, calls)
    ensures CallRank(calls', r) < CallRank(calls, r) && JobAwaits(j, r) ==>
              JobRank(j, polls, calls') < JobRank(j, polls, calls)
  {
    hide PlaceRank, CallRank;
  }

  lemma InitDown(i: Init, o: Options, calls: map<Request, Call>, calls': map<Request, Call>, r: Request)
    requires Settles(calls, calls')
    ensures InitRank(i, o, calls') <= InitRank(i, o, calls)
    ensures CallRank(calls', r) < CallRank(calls, r) && InitAwaits(i.thread, r) ==>
              InitRank(i, o, calls') < InitRank(i, o, calls)
  {
    hide Plan, CallRank;
  }

  /** When calls get on, no thread's rank rises. */
  lemma CallsKeepRanks(s: System, n: State, r: Request)
    requires Settles(s.engine.calls, n.calls)
    ensures InitRank(s.init, s.options, n.calls) <= InitRank(s.init, s.options, s.engine.calls)
    ensures forall m :: m in s.motion.jobs ==>
              JobRank(s.motion.jobs[m], s.options.settlePolls, n.calls) <=
                JobRank(s.motion.jobs[m], s.options.settlePolls, s.engine.calls)
  {
    hide JobRank, InitRank, Settles;
    InitDown(s.init, s.options, s.engine.calls, n.calls, r);
    forall m | m in s.motion.jobs
      ensures JobRank(s.motion.jobs[m], s.options.settlePolls, n.calls) <=
                JobRank(s.motion.jobs[m], s.options.settlePolls, s.engine.calls)
    {
      JobDown(s.motion.jobs[m], s.options.settlePolls, s.engine.calls, n.calls, r);
    }
  }

  lemma EngineKeepsThreads(s: System, n: State, r: Request)
    requires Settles(s.engine.calls, n.calls)
    ensures ThreadsRank(s.(engine := n)) <= ThreadsRank(s)
  {
    hide JobRank, InitRank, Settles;
    CallsKeepRanks(s, n, r);
    RankDrops(s.motion.jobs, s.motion.jobs, s.options.settlePolls, s.engine.calls, n.calls, s.motion.generation, 0, 0);
  }

  /** The one who waits in the call that gets on comes nearer to its end. */
  lemma CallBringsDown(s: System, n: State, r: Request)
    requires DriverInv(s) && ShutsDown(s) && WithClient(s.engine.calls, r)
    requires Settles(s.engine.calls, n.calls) && CallRank(n.calls, r) < CallRank(s.engine.calls, r)
    ensures ThreadsRank(s.(engine := n)) < ThreadsRank(s)
  {
    var calls, jobs, polls := s.engine.calls, s.motion.jobs, s.options.settlePolls;
    hide Inv, InitOk, LockOk, JobsOk, Settles, CallRank, JobRank, InitRank, JobAwaits, InitAwaits;
    CallsKeepRanks(s, n, r);
    InitDown(s.init, s.options, calls, n.calls, r);
    assert Awaited(s.init.thread, s.callback, jobs, r);
    if InitAwaits(s.init.thread, r) {
      RankDrops(jobs, jobs, polls, calls, n.calls, s.motion.generation, 0, 0);
    } else {
      var m :| m in jobs && JobAwaits(jobs[m], r);
      JobDown(jobs[m], polls, calls, n.calls, r);
      RankDrops(jobs, jobs, polls, calls, n.calls, s.motion.generation, m, 0);
    }
  }

  /** The step moves the call of `r` on and adds nothing to the worker's measure. */
  predicate MovesCall(e: State, n: State, r: Request) {
    && CallRank(n.calls, r) < CallRank(e.calls, r) && WithClient(e.calls, r)
    && n.running == e.running && Remaining(n) <= Remaining(e)
  }

  lemma LockMovesCall(e: State, r: Request)
    requires Enabled(e, CallLock(r))
    ensures MovesCall(e, CallLocked(e, r), r)
  {
    hide WorkerRank, Unresolved;
  }

  lemma CallMovesOn(e: State, n: State, r: Request, c: Call)
    requires IsCall(e, r, Locked) && n.calls == e.calls[r := c] && (c == Returned || c == Unqueued)
    requires n.worker == e.worker && n.unparsed == e.unparsed && n.maxPayload == e.maxPayload
    requires n.submitted == e.submitted && n.resolved == e.resolved && n.running == e.running
    ensures MovesCall(e, n, r)
  {
    hide WorkerRank, Unresolved;
  }

  lemma EnqueueMovesCall(e: State, r: Request, calls: map<Request, Call>)
    requires IsCall(e, r, Locked) && calls == e.calls[r := Returned]
    ensures MovesCall(e, Enqueue(e, r).(mutex := Free, calls := calls), r)
  {
    hide MovesCall;
    CallMovesOn(e, Enqueue(e, r).(mutex := Free, calls := calls), r, Returned);
  }

  lemma UnlockMovesCall(e: State, r: Request)
    requires e.mutex.Owned? && IsCall(e, r, Locked)
    ensures MovesCall(e, CallUnlocked(e, r), r)
  {
    hide MovesCall, Enqueue;
    if e.mutex.sawConnected {
      EnqueueMovesCall(e, r, e.calls[r := Returned]);
    } else {
      CallMovesOn(e, CallUnlocked(e, r), r, Unqueued);
    }
  }

  lemma FailMovesCall(e: State, r: Request)
    requires Enabled(e, CallFail(r))
    ensures MovesCall(e, CallFailed(e, r), r)
  {
    ResolveLeavesFewer(e, r, FAILED);
    hide WorkerRank, Unresolved;
  }

  lemma CallStepMoves(e: State, l: Step)
    requires Enabled(e, l) && (l.CallLock? || l.CallUnlock? || l.CallFail?)
    ensures MovesCall(e, Apply(e, l), l.request)
  {
    hide CallLocked, CallUnlocked, CallFailed, MovesCall;
    if l.CallLock? {
      LockMovesCall(e, l.request);
    } else if l.CallUnlock? {
      UnlockMovesCall(e, l.request);
    } else {
      FailMovesCall(e, l.request);
    }
  }

  lemma EngineStepDrops(s: System, l: Step)
    requires DriverInv(s) && ShutsDown(s) && Enabled(s.engine, l)
    requires IsWorkerStep(l) || l.CallLock? || l.CallUnlock? || l.CallFail?
    ensures Rank(s.(engine := Apply(s.engine, l))) < Rank(s) && !Apply(s.engine, l).running
  {
    var n := Apply(s.engine, l);
    StepEvolves(s.engine, l);
    hide Enabled, Apply, ThreadsRank, Remaining, CallRank, WithClient;
    if IsWorkerStep(l) {
      hide InitOk, JobsOk, LockOk, ClientsOk, Inv;
      WorkerNears(s.engine, l);
      EngineKeepsThreads(s, n, Request(0, 0, [], false, false, 0, false, 0));
    } else {
      CallStepMoves(s.engine, l);
      CallBringsDown(s, n, l.request);
    }
  }

  /** Every step of a thread that is joined, or of its calls, uses up some of the measure. */
  lemma ThreadStepDrops(s: System, l: Label)
    requires DriverInv(s) && ShutsDown(s) && IsThreadStep(l) && Can(s, l)
    ensures ShutsDown(Advance(s, l)) && Rank(Advance(s, l)) < Rank(s)
  {
    hide DriverInv, Rank, Enabled, Apply, CanAct, CanInit, NextInit, NextJob, Driver.Fresh, Plan, IsWorkerStep;
    if l.GoalActs? {
      GoalStepDrops(s, l.n, l.action);
    } else if l.InitSends? {
      InitSendDrops(s, l.request);
    } else if l.InitGoes? {
      InitStepDrops(s);
    } else {
      EngineStepDrops(s, l.step);
    }
  }

  // ----- what does not count -----

  lemma CancelKeepsRank(s: System, n: nat)
    requires n in s.motion.jobs
    ensures Rank(s.(motion := s.motion.(jobs := s.motion.jobs[n := s.motion.jobs[n].(handle := Canceling)]))) == Rank(s)
  {
    var jobs' := s.motion.jobs[n := s.motion.jobs[n].(handle := Canceling)];
    hide Remaining, InitRank, PlaceRank, CallRank;
    assert forall m :: m in s.motion.jobs ==>
        JobRank(jobs'[m], s.options.settlePolls, s.engine.calls) ==
          JobRank(s.motion.jobs[m], s.options.settlePolls, s.engine.calls);
    hide JobRank;
    RankDrops(s.motion.jobs, jobs', s.options.settlePolls, s.engine.calls, s.engine.calls, s.motion.generation, 0, 0);
    RankDrops(jobs', s.motion.jobs, s.options.settlePolls, s.engine.calls, s.engine.calls, s.motion.generation, 0, 0);
  }

  lemma EngineIdles(s: System, l: Step)
    requires !s.engine.running && (l.Tick? || l.Stop?)
    ensures Rank(s.(engine := Apply(s.engine, l))) == Rank(s) && !Apply(s.engine, l).running
  {
    hide WorkerRank, Unresolved, InitRank, JobsRank;
  }

  lemma IdleStepKeepsRank(s: System, l: Label)
    requires ShutsDown(s) && IsIdleStep(l) && Can(s, l)
    ensures ShutsDown(Advance(s, l)) && Rank(Advance(s, l)) == Rank(s)
  {
    if l.CancelGoal? {
      hide Rank;
      CancelKeepsRank(s, l.n);
    } else if l.EngineMoves? {
      hide Rank;
      EngineIdles(s, l.step);
    } else {
      hide Remaining, InitRank, JobsRank;
    }
  }

  // ----- runs -----

  /** How many of the steps from `i` to `k` are the threads'. */
  function ThreadSteps(labels: seq<Label>, i: nat, k: nat): nat
    requires i <= k <= |labels|
    decreases k
  {
    if i == k then 0 else Count(IsThreadStep(labels[k - 1])) + ThreadSteps(labels, i, k - 1)
  }

  /** From the moment the node shuts down, the threads together take at most `Rank` steps, whatever else happens in
      between. */
  lemma {:induction false} FinitelyManySteps(h: History, o: Options, i: nat, k: nat)
    requires ValidHistory(h, o) && i <= k < |h.states| && ShutsDown(h.states[i])
    requires forall m :: i <= m < k ==> IsThreadStep(h.labels[m]) || IsIdleStep(h.labels[m])
    ensures ThreadSteps(h.labels, i, k) + Rank(h.states[k]) <= Rank(h.states[i]) && ShutsDown(h.states[k])
    decreases k - i
  {
    hide Can, Advance, Rank, DriverInv, ShutsDown, IsThreadStep, IsIdleStep;
    if i < k {
      FinitelyManySteps(h, o, i, k - 1);
      DriverSteps.DriverRun(h, o, k - 1);
      if IsThreadStep(h.labels[k - 1]) {
        ThreadStepDrops(h.states[k - 1], h.labels[k - 1]);
      } else {
        IdleStepKeepsRank(h.states[k - 1], h.labels[k - 1]);
      }
    }
  }

  // ----- progress -----

  /** There is always a new request to make. */
  lemma FreshRequest(e: State, o: Order) returns (r: Request)
    ensures Driver.Fresh(e, r, o)
  {
    var serial := SerialBound(e.submitted);
    r := Request(serial, o.id, o.payload, true, false, o.timeout, o.priority, Generation(e));
  }

  /** Without a worker, an unresolved request is with its client thread. */
  lemma UnresolvedIsCalling(e: State, r: Request)
    requires Inv(e) && e.worker == Exited && r in e.submitted && r !in e.resolved
    ensures WithClient(e.calls, r)
  {
    hide Linked, Coherent, Dated, Ordered, Guarded, Tracked;
    OnePlace(e, r);
  }

  lemma Owner(e: State)
    requires Inv(e) && e.mutex.Owned?
    ensures IsCall(e, e.mutex.owner, Locked)
  {
    hide Conserved, Linked, Coherent, Dated, Ordered, Tracked, Down;
  }

  /** Some call can go on, as long as one is in progress. */
  lemma CallProgress(e: State, r: Request) returns (l: Step)
    requires Inv(e) && Locks(e.calls, e.mutex) && WithClient(e.calls, r)
    ensures (l.CallLock? || l.CallUnlock? || l.CallFail?) && Enabled(e, l)
  {
    if e.mutex.Owned? {
      Owner(e);
      l := CallUnlock(e.mutex.owner);
    } else if e.calls[r] == Created {
      l := CallLock(r);
    } else {
      l := CallFail(r);
    }
  }

  /** The unresolved request that keeps a goal thread where it is, if any. */
  function Blocker(e: State, j: Job): Option<Request> {
    match j.place
    case AwaitAcceleration(r) => if IsResolved(e, r) then None else Some(r)
    case AwaitForce(r) => if IsResolved(e, r) then None else Some(r)
    case AwaitStop(r) => if IsResolved(e, r) then None else Some(r)
    case Collecting => if IsResolved(e, MotionRequest(j)) then None else Some(MotionRequest(j))
    case Watching(_) => if HasReturned(e, MotionRequest(j)) then None else Some(MotionRequest(j))
    case _ => None
  }

  lemma BlockerIsSubmitted(e: State, j: Job, o: Options)
    requires JobOk(j, o, e.resolved, e.submitted) && Blocker(e, j).Some? && !j.place.Watching?
    ensures Blocker(e, j).value in e.submitted && Blocker(e, j).value !in e.resolved
  {
    hide OutcomesOk, RepliesOk, Carries, MotionOrder, StopOrder;
  }

  lemma BlockerIsCalling(s: System, j: Job)
    requires Inv(s.engine) && s.engine.worker == Exited && JobOk(j, s.options, s.engine.resolved, s.engine.submitted)
    requires Blocker(s.engine, j).Some?
    ensures WithClient(s.engine.calls, Blocker(s.engine, j).value)
  {
    var r := Blocker(s.engine, j).value;
    if !j.place.Watching? {
      BlockerIsSubmitted(s.engine, j, s.options);
      UnresolvedIsCalling(s.engine, r);
    }
    hide Inv, JobOk;
  }

  lemma SendAction(s: System, j: Job) returns (a: Action)
    requires Sends(j.place)
    ensures a.Send? && Driver.Fresh(s.engine, a.request, NextOrder(s.options, j))
  {
    var r := FreshRequest(s.engine, NextOrder(s.options, j));
    a := Send(r);
  }

  lemma JobCanAct(s: System, j: Job) returns (a: Action)
    requires Blocker(s.engine, j).None? && j.place != Gone && (j.place == WantLock ==> s.motion.lock == Unlocked)
    ensures CanAct(s, j, a)
  {
    hide Unsettled, NextOrder, Driver.Fresh;
    match j.place
    case WantLock => a := Acquire;
    case CheckGeneration => a := ReadGeneration;
    case CheckShutdown => a := ReadShutdown;
    case Refused => a := ReadCanceling;
    case SendAcceleration => a := SendAction(s, j);
    case AwaitAcceleration(_) => a := Receive;
    case SendForce => a := SendAction(s, j);
    case AwaitForce(_) => a := Receive;
    case SendMotion => a := SendAction(s, j);
    case Watching(_) => a := if IsResolved(s.engine, MotionRequest(j)) then Receive else WaitEnds;
    case WatchShutdown(_) => a := ReadShutdown;
    case WatchCanceling => a := ReadCanceling;
    case WatchGeneration => a := ReadGeneration;
    case SendStop => a := SendAction(s, j);
    case AwaitStop(_) => a := Receive;
    case Collecting => a := Receive;
    case Looking(_) => a := Look;
    case Looked(_) => a := LookEnough;
    case JudgeCanceling => a := ReadCanceling;
    case JudgeGeneration => a := ReadGeneration;
    case Concluding(_) => a := Conclude;
    case Unlocking => a := Unlock;
  }

  lemma GoalProgress(s: System, n: nat) returns (l: Label)
    requires DriverInv(s) && s.engine.worker == Exited && Locks(s.engine.calls, s.engine.mutex)
    requires n in s.motion.jobs && s.motion.jobs[n].place != Gone
    requires s.motion.jobs[n].place == WantLock ==> s.motion.lock == Unlocked
    ensures IsThreadStep(l) && Can(s, l)
  {
    hide Inv, InitOk, LockOk, ClientsOk, JobOk, Blocker, CanAct, Enabled, Locks;
    var j := s.motion.jobs[n];
    if Blocker(s.engine, j).Some? {
      BlockerIsCalling(s, j);
      var step := CallProgress(s.engine, Blocker(s.engine, j).value);
      l := EngineMoves(step);
    } else {
      var a := JobCanAct(s, j);
      l := GoalActs(n, a);
    }
  }

  lemma InitProgress(s: System) returns (l: Label)
    requires DriverInv(s) && s.engine.worker == Exited && Locks(s.engine.calls, s.engine.mutex) && Active(s.init.thread)
    ensures IsThreadStep(l) && Can(s, l)
  {
    hide Inv, LockOk, ClientsOk, JobsOk, Enabled, Locks, Carries, Plan;
    match s.init.thread
    case Asking(_) =>
      var r := FreshRequest(s.engine, Plan(s.options)[|s.init.performed|]);
      l := InitSends(r);
    case Awaiting(_, r) =>
      if IsResolved(s.engine, r) {
        l := InitGoes;
      } else {
        UnresolvedIsCalling(s.engine, r);
        var step := CallProgress(s.engine, r);
        l := EngineMoves(step);
      }
    case _ => l := InitGoes;
  }

  lemma NoSubmission(l: Step)
    requires IsWorkerStep(l)
    ensures !l.Submit?
  {
  }

  lemma OwnerCanUnlock(e: State)
    requires Inv(e) && e.mutex.Owned?
    ensures Enabled(e, CallUnlock(e.mutex.owner))
  {
    Owner(e);
    hide Inv;
  }

  lemma EngineProgress(s: System) returns (l: Label)
    requires DriverInv(s) && ShutsDown(s) && s.engine.worker != Exited
    ensures IsThreadStep(l) && Can(s, l)
  {
    hide InitOk, ClientsOk, JobsOk, LockOk, Enabled;
    if s.engine.mutex.Owned? {
      OwnerCanUnlock(s.engine);
      l := EngineMoves(CallUnlock(s.engine.mutex.owner));
    } else {
      hide Partition, Linked, Coherent, Dated, Ordered, Guarded, Tracked, IsWorkerStep;
      var step := WorkerProgress(s.engine);
      assert !step.Submit? by { NoSubmission(step); }
      l := EngineMoves(step);
    }
  }

  /** Without a worker, as long as some thread has not ended, some thread can go on. */
  lemma ThreadsProgress(s: System) returns (l: Label)
    requires DriverInv(s) && ShutsDown(s) && s.engine.worker == Exited && Locks(s.engine.calls, s.engine.mutex)
    requires !AllJoined(s)
    ensures IsThreadStep(l) && Can(s, l)
  {
    hide Inv, InitOk, ClientsOk, JobsOk, Can, IsThreadStep, Locks;
    if Active(s.init.thread) {
      l := InitProgress(s);
    } else {
      var n :| n in s.motion.jobs && s.motion.jobs[n].place != Gone;
      var m := if s.motion.jobs[n].place == WantLock && s.motion.lock.ByGoal? then s.motion.lock.n else n;
      l := GoalProgress(s, m);
    }
  }

  /** As long as some thread has not ended, some thread can go on. */
  lemma SomeoneCanGoOn(s: System) returns (l: Label)
    requires DriverInv(s) && ShutsDown(s) && Locks(s.engine.calls, s.engine.mutex) && !AllJoined(s)
    ensures IsThreadStep(l) && Can(s, l)
  {
    hide DriverInv, Can, IsThreadStep, Locks, ShutsDown, AllJoined;
    if s.engine.worker == Exited {
      l := ThreadsProgress(s);
    } else {
      l := EngineProgress(s);
    }
  }

  lemma SubmittingKeepsLocks(e: State, r: Request)
    requires Locks(e.calls, e.mutex)
    ensures Locks(Submitted(e, r).calls, Submitted(e, r).mutex)
  {
    LockMoves(e.calls, e.mutex, r, true);
    hide Locks;
  }

  lemma LocksStep(s: System, l: Label)
    requires Can(s, l) && Locks(s.engine.calls, s.engine.mutex)
    ensures Locks(Advance(s, l).engine.calls, Advance(s, l).engine.mutex)
  {
    hide Enabled, Apply, CanAct, CanTimer, CanInit, CanHome, IsService, Driver.Fresh, Plan, NextJob, TimerInit,
        NextInit;
    hide Locks, Submitted;
    if l.EngineMoves? {
      StepEvolves(s.engine, l.step);
    } else if l.GoalActs? && l.action.Send? {
      SubmittingKeepsLocks(s.engine, l.action.request);
    } else if l.ServiceCalls? || l.HomeSends? || l.InitSends? {
      SubmittingKeepsLocks(s.engine, l.request);
    }
  }

  lemma {:induction false} LocksRun(h: History, o: Options, k: nat)
    requires ValidHistory(h, o) && k < |h.states|
    ensures Locks(h.states[k].engine.calls, h.states[k].engine.mutex)
    decreases k
  {
    hide Can, Advance;
    if k > 0 {
      LocksRun(h, o, k - 1);
      LocksStep(h.states[k - 1], h.labels[k - 1]);
    }
  }

  /** Shutting down terminates: from the moment the node has set `shutting_down_` and cleared `running_`, the worker,
      the goal threads and the initialisation thread take finitely many steps, however time passes, and as long as
      one of them has not ended one of them can go on. */
  lemma ShutdownTerminates(h: History, o: Options, i: nat, k: nat) returns (l: Label)
    requires ValidHistory(h, o) && i <= k < |h.states| && ShutsDown(h.states[i])
    requires forall m :: i <= m < k ==> IsThreadStep(h.labels[m]) || IsIdleStep(h.labels[m])
    ensures ThreadSteps(h.labels, i, k) <= Rank(h.states[i])
    ensures AllJoined(h.states[k]) || (IsThreadStep(l) && Can(h.states[k], l))
  {
    FinitelyManySteps(h, o, i, k);
    DriverSteps.DriverRun(h, o, k);
    LocksRun(h, o, k);
    hide ValidHistory, Can, Rank, DriverInv, ShutsDown, AllJoined, Locks, IsThreadStep, IsIdleStep;
    if AllJoined(h.states[k]) {
      l := ShutDown;
    } else {
      l := SomeoneCanGoOn(h.states[k]);
    }
  }
}
