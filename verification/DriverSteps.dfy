/** Every step of the driver keeps its invariant. */
module DriverSteps {
  import opened Device
  import opened Engine
  import opened EngineInvariant
  import opened EngineSteps
  import opened EngineRuns
  import opened EngineEffects
  import opened Driver
  import opened DriverInvariant

  // ----- a goal thread's own step -----

  function Sent(submitted: set<Request>, a: Action): set<Request> {
    if a.Send? then submitted + {a.request} else submitted
  }

  lemma OutcomesStep(s: System, n: nat, j: Job, a: Action)
    requires CanAct(s, j, a) && OutcomesOk(j)
    ensures OutcomesOk(NextJob(s, n, j, a))
  {
    hide Engine.Success, Fulfilled, Unsettled, Driver.Fresh, MotionRequest, ReplyOf, IsResolved, HasReturned;
  }

  lemma MotionsBefore(s: System, n: nat, j: Job, a: Action, submitted: set<Request>)
    requires CanAct(s, j, a) && MotionsOk(j, s.options, submitted) && BeforeMotion(j.place)
    ensures MotionsOk(NextJob(s, n, j, a), s.options, Sent(submitted, a))
  {
    hide Engine.Success, Fulfilled, Unsettled, MotionRequest, ReplyOf, IsResolved, HasReturned, Carries, MotionOrder,
        StopOrder;
  }

  lemma MotionsWithin(s: System, n: nat, j: Job, a: Action, submitted: set<Request>)
    requires CanAct(s, j, a) && MotionsOk(j, s.options, submitted) && InMotion(j.place)
    ensures MotionsOk(NextJob(s, n, j, a), s.options, Sent(submitted, a))
  {
    hide Engine.Success, Fulfilled, Unsettled, MotionRequest, ReplyOf, IsResolved, HasReturned, Carries, MotionOrder,
        StopOrder;
  }

  lemma MotionsAfter(s: System, n: nat, j: Job, a: Action, submitted: set<Request>)
    requires CanAct(s, j, a) && MotionsOk(j, s.options, submitted) && !BeforeMotion(j.place) && !InMotion(j.place)
    ensures MotionsOk(NextJob(s, n, j, a), s.options, Sent(submitted, a))
  {
    hide Engine.Success, Fulfilled, Unsettled, MotionRequest, ReplyOf, IsResolved, HasReturned, Carries, MotionOrder,
        StopOrder;
  }

  lemma MotionsStep(s: System, n: nat, j: Job, a: Action, submitted: set<Request>)
    requires CanAct(s, j, a) && MotionsOk(j, s.options, submitted)
    ensures MotionsOk(NextJob(s, n, j, a), s.options, Sent(submitted, a))
  {
    hide CanAct, NextJob, MotionsOk, Sent;
    if BeforeMotion(j.place) {
      MotionsBefore(s, n, j, a, submitted);
    } else if InMotion(j.place) {
      MotionsWithin(s, n, j, a, submitted);
    } else {
      MotionsAfter(s, n, j, a, submitted);
    }
  }

  lemma StopsBefore(s: System, n: nat, j: Job, a: Action, submitted: set<Request>)
    requires CanAct(s, j, a) && StopsOk(j, s.options, submitted) && BeforeMotion(j.place)
    ensures StopsOk(NextJob(s, n, j, a), s.options, Sent(submitted, a))
  {
    hide Engine.Success, Fulfilled, Unsettled, MotionRequest, ReplyOf, IsResolved, HasReturned, Carries, MotionOrder,
        StopOrder;
  }

  lemma StopsWithin(s: System, n: nat, j: Job, a: Action, submitted: set<Request>)
    requires CanAct(s, j, a) && StopsOk(j, s.options, submitted) && InMotion(j.place)
    ensures StopsOk(NextJob(s, n, j, a), s.options, Sent(submitted, a))
  {
    hide Engine.Success, Fulfilled, Unsettled, MotionRequest, ReplyOf, IsResolved, HasReturned, Carries, MotionOrder,
        StopOrder;
  }

  lemma StopsAfter(s: System, n: nat, j: Job, a: Action, submitted: set<Request>)
    requires CanAct(s, j, a) && StopsOk(j, s.options, submitted) && !BeforeMotion(j.place) && !InMotion(j.place)
    ensures StopsOk(NextJob(s, n, j, a), s.options, Sent(submitted, a))
  {
    hide Engine.Success, Fulfilled, Unsettled, MotionRequest, ReplyOf, IsResolved, HasReturned, Carries, MotionOrder,
        StopOrder;
  }

  lemma StopsStep(s: System, n: nat, j: Job, a: Action, submitted: set<Request>)
    requires CanAct(s, j, a) && StopsOk(j, s.options, submitted)
    ensures StopsOk(NextJob(s, n, j, a), s.options, Sent(submitted, a))
  {
    hide CanAct, NextJob, StopsOk, Sent;
    if BeforeMotion(j.place) {
      StopsBefore(s, n, j, a, submitted);
    } else if InMotion(j.place) {
      StopsWithin(s, n, j, a, submitted);
    } else {
      StopsAfter(s, n, j, a, submitted);
    }
  }

  lemma WaitsStep(s: System, n: nat, j: Job, a: Action, submitted: set<Request>)
    requires CanAct(s, j, a)
    ensures WaitsOk(NextJob(s, n, j, a).place, Sent(submitted, a))
  {
    hide Engine.Success, Fulfilled, Unsettled, MotionRequest, ReplyOf, IsResolved, HasReturned, Driver.Fresh;
  }

  lemma RepliesAfter(s: System, n: nat, j: Job, a: Action)
    requires CanAct(s, j, a) && OutcomesOk(j) && !BeforeMotion(j.place) && !InMotion(j.place)
    requires |j.motions| <= 1 && RepliesOk(j, s.options, s.engine.resolved)
    ensures RepliesOk(NextJob(s, n, j, a), s.options, s.engine.resolved)
  {
    hide Engine.Success, Fulfilled, Unsettled, HasReturned, Carries, MotionOrder, StopOrder, Driver.Fresh, IsResolved,
        ReplyOf;
  }

  lemma RepliesBefore(s: System, n: nat, j: Job, a: Action)
    requires CanAct(s, j, a) && OutcomesOk(j) && BeforeMotion(j.place) && j.motions == []
    ensures RepliesOk(NextJob(s, n, j, a), s.options, s.engine.resolved)
  {
    hide Engine.Success, Fulfilled, Unsettled, HasReturned, Carries, MotionOrder, StopOrder, Driver.Fresh, IsResolved,
        ReplyOf;
  }

  lemma RepliesWithin(s: System, n: nat, j: Job, a: Action)
    requires CanAct(s, j, a) && OutcomesOk(j) && InMotion(j.place) && |j.motions| == 1
    ensures RepliesOk(NextJob(s, n, j, a), s.options, s.engine.resolved)
  {
    hide Engine.Success, Fulfilled, Unsettled, HasReturned, Carries, MotionOrder, StopOrder, Driver.Fresh;
  }

  lemma RepliesStep(s: System, n: nat, j: Job, a: Action, submitted: set<Request>)
    requires CanAct(s, j, a) && OutcomesOk(j) && MotionsOk(j, s.options, submitted) &&
             RepliesOk(j, s.options, s.engine.resolved)
    ensures RepliesOk(NextJob(s, n, j, a), s.options, s.engine.resolved)
  {
    hide Engine.Success, Fulfilled, Unsettled, HasReturned, Carries, MotionOrder, StopOrder, Driver.Fresh;
    if BeforeMotion(j.place) {
      RepliesBefore(s, n, j, a);
    } else if InMotion(j.place) {
      RepliesWithin(s, n, j, a);
    } else {
      RepliesAfter(s, n, j, a);
    }
  }

  lemma JobStep(s: System, n: nat, j: Job, a: Action, submitted: set<Request>)
    requires CanAct(s, j, a) && JobOk(j, s.options, s.engine.resolved, submitted)
    ensures JobOk(NextJob(s, n, j, a), s.options, s.engine.resolved, Sent(submitted, a))
  {
    hide CanAct, NextJob, OutcomesOk, MotionsOk, StopsOk, WaitsOk, RepliesOk, Sent;
    OutcomesStep(s, n, j, a);
    MotionsStep(s, n, j, a, submitted);
    StopsStep(s, n, j, a, submitted);
    WaitsStep(s, n, j, a, submitted);
    RepliesStep(s, n, j, a, submitted);
  }

  // ----- what other steps leave of a part -----

  lemma JobStays(j: Job, o: Options, resolved: map<Request, Reply>, submitted: set<Request>,
                 resolved': map<Request, Reply>, submitted': set<Request>)
    requires JobOk(j, o, resolved, submitted) && KeepsResolutions(resolved, resolved') && submitted <= submitted'
    ensures JobOk(j, o, resolved', submitted')
  {
    hide OutcomesOk, Fulfilled, Carries, MotionOrder, StopOrder;
  }

  lemma JobsStay(jobs: map<nat, Job>, o: Options, resolved: map<Request, Reply>, submitted: set<Request>,
                 resolved': map<Request, Reply>, submitted': set<Request>)
    requires JobsOk(jobs, o, resolved, submitted) && KeepsResolutions(resolved, resolved') && submitted <= submitted'
    ensures JobsOk(jobs, o, resolved', submitted')
  {
    hide JobOk;
    forall n | n in jobs
      ensures JobOk(jobs[n], o, resolved', submitted')
    {
      JobStays(jobs[n], o, resolved, submitted, resolved', submitted');
    }
  }

  lemma InitStays(i: Init, c: Callback, o: Options, resolved: map<Request, Reply>, submitted: set<Request>,
                  generation: nat,
                  resolved': map<Request, Reply>, submitted': set<Request>, generation': nat)
    requires InitOk(i, c, o, resolved, submitted, generation)
    requires KeepsResolutions(resolved, resolved') && submitted <= submitted' && generation <= generation'
    ensures InitOk(i, c, o, resolved', submitted', generation')
  {
    hide Plan, Carries, CreatedSince, Complete, Active;
  }

  // ----- the mutex -----

  lemma PlaceStep(s: System, n: nat, j: Job, a: Action)
    requires CanAct(s, j, a)
    ensures a == Acquire <==> j.place == WantLock
    ensures a == Acquire ==> s.motion.lock == Unlocked
    ensures a == Unlock <==> j.place == Unlocking
    ensures Inside(NextPlace(s, n, j, a)) <==> a != Unlock
    ensures j.place != Gone
  {
    hide Engine.Success, Fulfilled, Unsettled, HasReturned, Driver.Fresh, IsResolved, ReplyOf;
  }

  lemma LockStep(jobs: map<nat, Job>, lock: Lock, c: Callback, n: nat, j': Job, a: Action)
    requires LockOk(jobs, lock, c) && n in jobs && jobs[n].place != Gone
    requires a == Acquire <==> jobs[n].place == WantLock
    requires a == Acquire ==> lock == Unlocked
    requires Inside(j'.place) <==> a != Unlock
    ensures LockOk(jobs[n := j'], NextLock(lock, n, a), c)
  {
    hide HomeInside;
  }

  // ----- client threads -----

  lemma NotWithClient(s: State, r: Request)
    requires Inv(s) && (IsResolved(s, r) || HasReturned(s, r))
    ensures !WithClient(s.calls, r)
  {
    hide Linked, Coherent, Down, Tracked, Dated, Ordered, Guarded;
    if r in s.resolved {
      OnePlace(s, r);
    }
  }

  lemma AwaitedIsDone(s: System, j: Job, a: Action, r: Request)
    requires CanAct(s, j, a) && JobAwaits(j, r)
    ensures IsResolved(s.engine, r) || HasReturned(s.engine, r)
  {
    hide Engine.Success, Fulfilled, Unsettled, Driver.Fresh;
  }

  lemma SentIsAwaited(s: System, n: nat, j: Job, a: Action, submitted: set<Request>)
    requires CanAct(s, j, a) && a.Send? && MotionsOk(j, s.options, submitted)
    ensures JobAwaits(NextJob(s, n, j, a), a.request)
  {
    hide Engine.Success, Fulfilled, Unsettled, Driver.Fresh, IsResolved, HasReturned, Carries, MotionOrder;
  }

  /** The calls after a goal thread's step. */
  function CallsAfter(calls: map<Request, Call>, a: Action): map<Request, Call> {
    if a.Send? then calls[a.request := Created] else calls
  }

  lemma ClientsStep(s: System, n: nat, a: Action)
    requires DriverInv(s) && n in s.motion.jobs && CanAct(s, s.motion.jobs[n], a)
    ensures ClientsOk(CallsAfter(s.engine.calls, a), s.init.thread, s.callback,
                      s.motion.jobs[n := NextJob(s, n, s.motion.jobs[n], a)])
  {
    hide Inv, InitOk, LockOk, CanAct, NextJob, JobAwaits, InitAwaits, CallbackAwaits;
    var j := s.motion.jobs[n];
    var jobs := s.motion.jobs[n := NextJob(s, n, j, a)];
    forall r | WithClient(CallsAfter(s.engine.calls, a), r)
      ensures Awaited(s.init.thread, s.callback, jobs, r)
    {
      if a.Send? && r == a.request {
        hide MotionsOk;
        assert JobOk(j, s.options, s.engine.resolved, s.engine.submitted);
        SentIsAwaited(s, n, j, a, s.engine.submitted);
        assert JobAwaits(jobs[n], r);
      } else {
        assert Awaited(s.init.thread, s.callback, s.motion.jobs, r);
        if JobAwaits(j, r) {
          AwaitedIsDone(s, j, a, r);
          NotWithClient(s.engine, r);
        } else if !InitAwaits(s.init.thread, r) && !CallbackAwaits(s.callback, r) {
          var m :| m in s.motion.jobs && JobAwaits(s.motion.jobs[m], r);
          assert JobAwaits(jobs[m], r);
        }
      }
    }
  }

  // ----- engine steps -----

  lemma SettledClients(before: map<Request, Call>, after: map<Request, Call>)
    requires Settles(before, after)
    ensures forall r :: WithClient(after, r) ==> WithClient(before, r)
  {
    forall r | WithClient(after, r)
      ensures WithClient(before, r)
    {
      assert CallRank(after, r) <= CallRank(before, r);
    }
  }

  lemma EngineInv(s: System, l: Step)
    requires DriverInv(s) && Enabled(s.engine, l) && !l.Submit?
    ensures DriverInv(s.(engine := Apply(s.engine, l)))
  {
    hide Enabled, Apply, Inv, InitOk, JobsOk, LockOk, Awaited, WithClient;
    var n := Apply(s.engine, l);
    InvStep(s.engine, l);
    StepEvolves(s.engine, l);
    SettledClients(s.engine.calls, n.calls);
    hide KeepsResolutions, Logs, Yields, Settles;
    InitStays(s.init, s.callback, s.options, s.engine.resolved, s.engine.submitted, Generation(s.engine),
              n.resolved, n.submitted, Generation(n));
    JobsStay(s.motion.jobs, s.options, s.engine.resolved, s.engine.submitted, n.resolved, n.submitted);
  }

  // ----- goal threads -----

  lemma SendIsFresh(s: System, j: Job, a: Action)
    requires CanAct(s, j, a) && a.Send?
    ensures a.request !in s.engine.submitted && a.request.createdOn == Generation(s.engine)
  {
    hide Engine.Success, Fulfilled, Unsettled, IsResolved, HasReturned, Carries, MotionOrder;
  }

  lemma JobsStep(s: System, n: nat, a: Action)
    requires n in s.motion.jobs && CanAct(s, s.motion.jobs[n], a)
    requires JobsOk(s.motion.jobs, s.options, s.engine.resolved, s.engine.submitted)
    ensures JobsOk(s.motion.jobs[n := NextJob(s, n, s.motion.jobs[n], a)], s.options, s.engine.resolved,
                   Sent(s.engine.submitted, a))
  {
    hide CanAct, NextJob, JobOk;
    var r := s.engine.resolved;
    JobStep(s, n, s.motion.jobs[n], a, s.engine.submitted);
    forall m | m in s.motion.jobs
      ensures JobOk(s.motion.jobs[m], s.options, r, Sent(s.engine.submitted, a))
    {
      JobStays(s.motion.jobs[m], s.options, r, s.engine.submitted, r, Sent(s.engine.submitted, a));
    }
  }

  lemma InvSend(e: State, a: Action)
    requires Inv(e) && (a.Send? ==> a.request !in e.submitted && a.request.createdOn == Generation(e))
    ensures Inv(EngineAfter(e, a))
  {
    hide Inv;
    if a.Send? {
      InvSubmitted(e, a.request);
    }
  }

  lemma InitAfter(s: System, a: Action)
    requires InitOk(s.init, s.callback, s.options, s.engine.resolved, s.engine.submitted, Generation(s.engine))
    ensures var n := EngineAfter(s.engine, a);
            InitOk(s.init, s.callback, s.options, n.resolved, n.submitted, Generation(n))
  {
    hide InitOk;
    if a.Send? {
      InitStays(s.init, s.callback, s.options, s.engine.resolved, s.engine.submitted, Generation(s.engine),
                s.engine.resolved, s.engine.submitted + {a.request}, Generation(s.engine));
    }
  }

  lemma EngineParts(e: State, a: Action)
    ensures var n := EngineAfter(e, a);
            n.resolved == e.resolved && n.submitted == Sent(e.submitted, a) && n.calls == CallsAfter(e.calls, a)
  {
  }

  lemma NextPlaced(s: System, n: nat, j: Job, a: Action)
    requires CanAct(s, j, a)
    ensures NextJob(s, n, j, a).place == NextPlace(s, n, j, a)
  {
    hide CanAct, NextPlace;
  }

  lemma GoalInv(s: System, n: nat, a: Action)
    requires DriverInv(s) && n in s.motion.jobs && CanAct(s, s.motion.jobs[n], a)
    ensures DriverInv(Acted(s, n, a))
  {
    hide CanAct, NextJob, NextPlace, Inv, InitOk, JobsOk, LockOk, ClientsOk, NextLock, CallsAfter, EngineAfter, Sent;
    var j := s.motion.jobs[n];
    if a.Send? {
      SendIsFresh(s, j, a);
    }
    InvSend(s.engine, a);
    InitAfter(s, a);
    ClientsStep(s, n, a);
    JobsStep(s, n, a);
    PlaceStep(s, n, j, a);
    NextPlaced(s, n, j, a);
    EngineParts(s.engine, a);
    LockStep(s.motion.jobs, s.motion.lock, s.callback, n, NextJob(s, n, j, a), a);
  }

  // ----- callbacks -----

  lemma ClientsElsewhere(calls: map<Request, Call>, t: Thread, c: Callback, jobs: map<nat, Job>, t': Thread,
                         c': Callback)
    requires ClientsOk(calls, t, c, jobs)
    requires forall r :: InitAwaits(t, r) && WithClient(calls, r) ==> InitAwaits(t', r)
    requires forall r :: CallbackAwaits(c, r) && WithClient(calls, r) ==> CallbackAwaits(c', r)
    ensures ClientsOk(calls, t', c', jobs)
  {
    hide InitAwaits, CallbackAwaits, WithClient, JobAwaits;
  }

  /** The callback slot moves on, without touching the mutex or the initialisation. */
  lemma CallbackInv(s: System, c: Callback)
    requires DriverInv(s) && TimerOk(c, s.init, Generation(s.engine)) && (HomeInside(c) <==> HomeInside(s.callback))
    requires forall r :: CallbackAwaits(s.callback, r) ==> !WithClient(s.engine.calls, r)
    ensures DriverInv(s.(callback := c))
  {
    hide Inv, Performed, ThreadOk, TimerOk, JobsOk, ClientsOk, HomeInside;
    ClientsElsewhere(s.engine.calls, s.init.thread, s.callback, s.motion.jobs, s.init.thread, c);
  }

  lemma ReadsOk(s: System, l: Label)
    requires TimerOk(s.callback, s.init, Generation(s.engine)) && Can(s, l)
    requires l.TimerFires? || l.GoalArrives? || l.GoalGoes? || l.GoalRejected? || l.HomeArrives? || l.ServiceReturns?
    ensures var c := Advance(s, l).callback;
            && TimerOk(c, s.init, Generation(s.engine)) && !HomeInside(c) && !HomeInside(s.callback)
            && Advance(s, l) == s.(callback := c)
    ensures forall r :: CallbackAwaits(s.callback, r) ==> l.ServiceReturns? && r == s.callback.request
  {
  }

  lemma TimerHolds(s: System)
    requires DriverInv(s)
    ensures Inv(s.engine) && TimerOk(s.callback, s.init, Generation(s.engine))
  {
    hide Inv, Performed, ThreadOk, TimerOk, JobsOk, LockOk, ClientsOk;
  }

  lemma ReadsInv(s: System, l: Label)
    requires DriverInv(s) && Can(s, l)
    requires l.TimerFires? || l.GoalArrives? || l.GoalGoes? || l.GoalRejected? || l.HomeArrives? || l.ServiceReturns?
    ensures DriverInv(Advance(s, l))
  {
    TimerHolds(s);
    if l.ServiceReturns? {
      NotWithClient(s.engine, s.callback.request);
    }
    hide DriverInv, Inv, TimerOk, Can, Advance, HomeInside, CallbackAwaits, WithClient;
    ReadsOk(s, l);
    CallbackInv(s, Advance(s, l).callback);
  }

  lemma LockElsewhere(jobs: map<nat, Job>, lock: Lock, c: Callback, c': Callback)
    requires LockOk(jobs, lock, c) && (HomeInside(c) <==> HomeInside(c'))
    ensures LockOk(jobs, lock, c')
  {
  }

  lemma TimerElsewhere(s: System)
    requires CanTimer(s) && ClientsOk(s.engine.calls, s.init.thread, s.callback, s.motion.jobs)
    requires TimerOk(s.callback, s.init, Generation(s.engine))
    ensures !HomeInside(s.callback) && !HomeInside(TimerCallback(s))
    ensures ClientsOk(s.engine.calls, TimerInit(s).thread, TimerCallback(s), s.motion.jobs)
  {
    ClientsElsewhere(s.engine.calls, s.init.thread, s.callback, s.motion.jobs, TimerInit(s).thread, TimerCallback(s));
    hide ClientsOk;
  }

  lemma TimerInitOk(s: System)
    requires CanTimer(s)
    requires InitOk(s.init, s.callback, s.options, s.engine.resolved, s.engine.submitted, Generation(s.engine))
    ensures InitOk(TimerInit(s), TimerCallback(s), s.options, s.engine.resolved, s.engine.submitted,
                   Generation(s.engine))
  {
    hide Carries, Engine.Success;
  }

  lemma TimerInv(s: System)
    requires DriverInv(s) && CanTimer(s)
    ensures DriverInv(s.(callback := TimerCallback(s), init := TimerInit(s)))
  {
    hide Inv, JobsOk, LockOk, WithClient;
    TimerInitOk(s);
    TimerElsewhere(s);
    hide ClientsOk, InitOk, CanTimer;
    LockElsewhere(s.motion.jobs, s.motion.lock, s.callback, TimerCallback(s));
  }

  /** The home service takes or gives up the mutex, or goes on to send. */
  lemma HomedLock(s: System)
    requires LockOk(s.motion.jobs, s.motion.lock, s.callback) && CanHome(s)
    ensures LockOk(s.motion.jobs, Homed(s).motion.lock, Homed(s).callback)
  {
    hide Inside, IsResolved;
  }

  lemma HomedElsewhere(s: System)
    requires CanHome(s)
    ensures var n := Homed(s);
            && n.engine == s.engine && n.options == s.options && n.init == s.init
            && n.motion == s.motion.(lock := n.motion.lock)
            && (n.callback == Idle || n.callback == HomeChecking || n.callback == HomeSending)
    ensures !CanTimer(s) && (forall r :: CallbackAwaits(s.callback, r) ==> s.callback == HomeAwaiting(r))
  {
  }

  lemma IdleTimerOk(c: Callback, i: Init, generation: nat)
    requires c == Idle || c == HomeChecking || c == HomeSending
    ensures TimerOk(c, i, generation) && forall r :: !CallbackAwaits(c, r)
  {
  }

  lemma HomeInv(s: System)
    requires DriverInv(s) && CanHome(s)
    ensures DriverInv(Homed(s))
  {
    TimerHolds(s);
    if s.callback.HomeAwaiting? {
      NotWithClient(s.engine, s.callback.request);
    }
    HomedLock(s);
    HomedElsewhere(s);
    IdleTimerOk(Homed(s).callback, s.init, Generation(s.engine));
    hide Inv, JobsOk, Performed, ThreadOk, TimerOk, LockOk, CanHome, Homed, CallbackAwaits, WithClient;
    ClientsElsewhere(s.engine.calls, s.init.thread, s.callback, s.motion.jobs, s.init.thread, Homed(s).callback);
    hide ClientsOk;
  }

  // ----- submitting from elsewhere -----

  /** A new request is awaited by the thread or the callback that makes it. */
  lemma SubmitElsewhere(s: System, r: Request, t: Thread, c: Callback)
    requires ClientsOk(s.engine.calls, s.init.thread, s.callback, s.motion.jobs)
    requires InitAwaits(t, r) || CallbackAwaits(c, r)
    requires t == s.init.thread || !s.init.thread.Awaiting?
    requires c == s.callback || (!s.callback.Serving? && !s.callback.HomeAwaiting?)
    ensures ClientsOk(s.engine.calls[r := Created], t, c, s.motion.jobs)
  {
    hide JobAwaits;
    forall q | WithClient(s.engine.calls[r := Created], q)
      ensures Awaited(t, c, s.motion.jobs, q)
    {
      if q != r {
        assert WithClient(s.engine.calls, q);
      }
    }
  }

  lemma InitSendOk(s: System, r: Request)
    requires InitOk(s.init, s.callback, s.options, s.engine.resolved, s.engine.submitted, Generation(s.engine))
    requires Can(s, InitSends(r))
    ensures InitOk(s.init.(thread := Awaiting(s.init.thread.generation, r)), s.callback, s.options, s.engine.resolved,
                   s.engine.submitted + {r}, Generation(s.engine))
  {
    hide Carries, Plan;
  }

  lemma InitSendInv(s: System, r: Request)
    requires DriverInv(s) && Can(s, InitSends(r))
    ensures DriverInv(Advance(s, InitSends(r)))
  {
    hide Inv, InitOk, JobsOk, LockOk, Carries, ClientsOk, Plan;
    InvSubmitted(s.engine, r);
    SubmitElsewhere(s, r, Awaiting(s.init.thread.generation, r), s.callback);
    InitSendOk(s, r);
    JobsStay(s.motion.jobs, s.options, s.engine.resolved, s.engine.submitted, s.engine.resolved,
             s.engine.submitted + {r});
  }

  lemma CallbackSendOk(s: System, r: Request, c: Callback)
    requires InitOk(s.init, s.callback, s.options, s.engine.resolved, s.engine.submitted, Generation(s.engine))
    requires c.Serving? || c.HomeAwaiting?
    ensures InitOk(s.init, c, s.options, s.engine.resolved, s.engine.submitted + {r}, Generation(s.engine))
  {
    InitStays(s.init, s.callback, s.options, s.engine.resolved, s.engine.submitted, Generation(s.engine),
              s.engine.resolved, s.engine.submitted + {r}, Generation(s.engine));
    hide Performed, ThreadOk;
  }

  lemma CallbackSendInv(s: System, r: Request, c: Callback)
    requires DriverInv(s) && r !in s.engine.submitted && r.createdOn == Generation(s.engine)
    requires c == Serving(r) || c == HomeAwaiting(r)
    requires if c.Serving? then s.callback == Idle else s.callback == HomeSending
    ensures DriverInv(s.(callback := c, engine := Submitted(s.engine, r)))
  {
    hide Inv, InitOk, JobsOk, LockOk, ClientsOk;
    InvSubmitted(s.engine, r);
    SubmitElsewhere(s, r, s.init.thread, c);
    JobsStay(s.motion.jobs, s.options, s.engine.resolved, s.engine.submitted, s.engine.resolved,
             s.engine.submitted + {r});
    CallbackSendOk(s, r, c);
    LockElsewhere(s.motion.jobs, s.motion.lock, s.callback, c);
  }

  lemma SendsInv(s: System, l: Label)
    requires DriverInv(s) && Can(s, l) && (l.ServiceCalls? || l.HomeSends?)
    ensures DriverInv(Advance(s, l))
  {
    hide DriverInv, Carries, HomeOrder, StopOrder;
    CallbackSendInv(s, l.request, if l.ServiceCalls? then Serving(l.request) else HomeAwaiting(l.request));
  }

  // ----- the initialisation thread -----

  lemma InitGoesOk(s: System)
    requires CanInit(s)
    requires InitOk(s.init, s.callback, s.options, s.engine.resolved, s.engine.submitted, Generation(s.engine))
    ensures InitOk(NextInit(s), s.callback, s.options, s.engine.resolved, s.engine.submitted, Generation(s.engine))
  {
    hide Carries, Engine.Success, Plan;
  }

  lemma InitGoesInv(s: System)
    requires DriverInv(s) && CanInit(s)
    ensures DriverInv(s.(init := NextInit(s)))
  {
    if s.init.thread.Awaiting? {
      NotWithClient(s.engine, s.init.thread.request);
    }
    hide Inv, JobsOk, LockOk, WithClient;
    InitGoesOk(s);
    ClientsElsewhere(s.engine.calls, s.init.thread, s.callback, s.motion.jobs, NextInit(s).thread, s.callback);
    hide ClientsOk, InitOk, NextInit, CanInit;
  }

  // ----- goals -----

  lemma NewJobOk(g: Goal, o: Options, resolved: map<Request, Reply>, submitted: set<Request>)
    ensures JobOk(NewJob(g), o, resolved, submitted)
  {
  }

  lemma JobsWith(jobs: map<nat, Job>, o: Options, resolved: map<Request, Reply>, submitted: set<Request>, n: nat,
                 k: Job)
    requires JobsOk(jobs, o, resolved, submitted) && JobOk(k, o, resolved, submitted)
    ensures JobsOk(jobs[n := k], o, resolved, submitted)
  {
    hide JobOk;
  }

  /** A new goal waits for the mutex and for no reply. */
  lemma LockWith(m: Motion, c: Callback, g: Goal)
    requires LockOk(m.jobs, m.lock, c) && Numbered(m) && c.Ready?
    ensures LockOk(Accepted(m, g).jobs, m.lock, Idle) && Numbered(Accepted(m, g))
  {
  }

  lemma ClientsWith(calls: map<Request, Call>, t: Thread, c: Callback, m: Motion, g: Goal)
    requires ClientsOk(calls, t, c, m.jobs) && Numbered(m) && c.Ready?
    ensures ClientsOk(calls, t, Idle, Accepted(m, g).jobs)
  {
    hide WithClient;
    forall r | WithClient(calls, r)
      ensures Awaited(t, Idle, Accepted(m, g).jobs, r)
    {
      assert Awaited(t, c, m.jobs, r);
      if !InitAwaits(t, r) {
        var n :| n in m.jobs && JobAwaits(m.jobs[n], r);
        assert n in Accepted(m, g).jobs && JobAwaits(Accepted(m, g).jobs[n], r);
      }
    }
  }

  lemma AcceptInv(s: System, g: Goal)
    requires DriverInv(s) && s.callback.Ready?
    ensures DriverInv(s.(callback := Idle, motion := Accepted(s.motion, g)))
  {
    hide Inv, Performed, ThreadOk, JobsOk, JobOk, LockOk, ClientsOk, NewJob;
    NewJobOk(g, s.options, s.engine.resolved, s.engine.submitted);
    JobsWith(s.motion.jobs, s.options, s.engine.resolved, s.engine.submitted, s.motion.generation + 1, NewJob(g));
    LockWith(s.motion, s.callback, g);
    ClientsWith(s.engine.calls, s.init.thread, s.callback, s.motion, g);
  }

  lemma CancelOk(j: Job, o: Options, resolved: map<Request, Reply>, submitted: set<Request>)
    requires JobOk(j, o, resolved, submitted) && j.handle == Executing
    ensures JobOk(j.(handle := Canceling), o, resolved, submitted)
  {
    hide Fulfilled, Carries, MotionOrder, StopOrder;
  }

  /** The awaited request of a goal depends on its place and its motion command alone. */
  lemma ClientsSame(calls: map<Request, Call>, t: Thread, c: Callback, jobs: map<nat, Job>, n: nat, k: Job)
    requires ClientsOk(calls, t, c, jobs) && n in jobs && k.place == jobs[n].place && k.motions == jobs[n].motions
    ensures ClientsOk(calls, t, c, jobs[n := k])
  {
    hide WithClient, InitAwaits, CallbackAwaits;
    forall r | WithClient(calls, r)
      ensures Awaited(t, c, jobs[n := k], r)
    {
      assert Awaited(t, c, jobs, r);
      if !InitAwaits(t, r) && !CallbackAwaits(c, r) {
        var m :| m in jobs && JobAwaits(jobs[m], r);
        assert JobAwaits(jobs[n := k][m], r);
      }
    }
  }

  lemma LockSame(jobs: map<nat, Job>, lock: Lock, c: Callback, n: nat, k: Job)
    requires LockOk(jobs, lock, c) && n in jobs && k.place == jobs[n].place
    ensures LockOk(jobs[n := k], lock, c)
  {
    hide HomeInside, Inside;
  }

  lemma JobAt(jobs: map<nat, Job>, o: Options, resolved: map<Request, Reply>, submitted: set<Request>, n: nat)
    requires JobsOk(jobs, o, resolved, submitted) && n in jobs
    ensures JobOk(jobs[n], o, resolved, submitted)
  {
    hide JobOk;
  }

  lemma CancelInv(s: System, n: nat)
    requires DriverInv(s) && n in s.motion.jobs && s.motion.jobs[n].handle == Executing
    ensures DriverInv(s.(motion := s.motion.(jobs := s.motion.jobs[n := s.motion.jobs[n].(handle := Canceling)])))
  {
    hide Inv, InitOk, JobsOk, JobOk, LockOk, ClientsOk;
    var j := s.motion.jobs[n];
    var k := j.(handle := Canceling);
    JobAt(s.motion.jobs, s.options, s.engine.resolved, s.engine.submitted, n);
    CancelOk(j, s.options, s.engine.resolved, s.engine.submitted);
    JobsWith(s.motion.jobs, s.options, s.engine.resolved, s.engine.submitted, n, k);
    LockSame(s.motion.jobs, s.motion.lock, s.callback, n, k);
    ClientsSame(s.engine.calls, s.init.thread, s.callback, s.motion.jobs, n, k);
  }

  // ----- all steps -----

  lemma InitialDriver(o: Options)
    ensures DriverInv(Initial(o))
  {
    InitialState(o.maxPayload);
    hide Inv;
  }

  lemma ShutDownInv(s: System)
    requires DriverInv(s)
    ensures DriverInv(s.(shuttingDown := true))
  {
    hide Inv, InitOk, JobsOk, LockOk, ClientsOk;
  }

  /** Every step of the driver keeps the invariant. */
  lemma DriverStep(s: System, l: Label)
    requires DriverInv(s) && Can(s, l)
    ensures DriverInv(Advance(s, l))
  {
    hide DriverInv, Enabled, Apply, CanAct, Acted, CanTimer, TimerCallback, TimerInit, CanHome, Homed, CanInit,
        NextInit;
    hide Accepted, IsService, Driver.Fresh, Plan;
    match l
    case EngineMoves(step) => EngineInv(s, step);
    case ShutDown => ShutDownInv(s);
    case TimerGoes => TimerInv(s);
    case GoalAccepted(g) => AcceptInv(s, g);
    case CancelGoal(n) => CancelInv(s, n);
    case HomeGoes => HomeInv(s);
    case InitSends(r) => InitSendInv(s, r);
    case InitGoes => InitGoesInv(s);
    case GoalActs(n, a) => GoalInv(s, n, a);
    case ServiceCalls(_) => SendsInv(s, l);
    case HomeSends(_) => SendsInv(s, l);
    case _ => ReadsInv(s, l);
  }

  /** Every state of every run of the driver satisfies the invariant. */
  lemma {:induction false} DriverRun(h: History, o: Options, k: nat)
    requires ValidHistory(h, o) && k < |h.states|
    ensures DriverInv(h.states[k])
    decreases k
  {
    hide DriverInv, Advance, Can;
    if k == 0 {
      InitialDriver(o);
    } else {
      DriverRun(h, o, k - 1);
      DriverStep(h.states[k - 1], h.labels[k - 1]);
    }
  }
}
