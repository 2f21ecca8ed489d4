/** What every step of the driver keeps. Like the engine's, the parts of the invariant are stated on the fields
    they speak of. */
module DriverInvariant {
  import opened Engine
  import opened EngineInvariant
  import opened Driver

  // ----- initialisation -----

  predicate CreatedSince(rs: seq<Request>, generation: nat) {
    forall r :: r in rs ==> generation <= r.createdOn
  }

  /** The performed commands are the first of the plan, and succeeded. */
  predicate Performed(rs: seq<Request>, o: Options, resolved: map<Request, Reply>) {
    && |rs| <= |Plan(o)|
    && forall k :: 0 <= k < |rs| ==> Carries(rs[k], Plan(o)[k]) && rs[k] in resolved && Success(resolved[rs[k]])
  }

  predicate Complete(i: Init, o: Options) {
    |i.performed| == |Plan(o)| && CreatedSince(i.performed, i.initialized)
  }

  predicate Active(t: Thread) { t != Absent && t != Finished }

  predicate ThreadOk(i: Init, o: Options, submitted: set<Request>, generation: nat) {
    match i.thread
    case Absent => !i.successful
    case Asking(g) =>
      i.running && !i.successful && g <= generation && CreatedSince(i.performed, g) && |i.performed| < |Plan(o)|
    case Awaiting(g, r) =>
      && i.running && !i.successful && g <= generation && CreatedSince(i.performed, g)
      && |i.performed| < |Plan(o)| && Carries(r, Plan(o)[|i.performed|]) && g <= r.createdOn && r in submitted
    case Storing(g, success) =>
      i.running && !i.successful && CreatedSince(i.performed, g) && (success ==> |i.performed| == |Plan(o)|)
    case Reporting(g, success) =>
      i.running && !i.successful && i.initialized == g && (success ==> Complete(i, o))
    case Lowering => i.running && (i.successful ==> Complete(i, o))
    case Finished => i.successful ==> Complete(i, o)
  }

  predicate TimerOk(c: Callback, i: Init, generation: nat) {
    match c
    case TimerReading => !i.running
    case TimerComparing(g) => !i.running && g <= generation
    case TimerJoining(g) => !i.running && g <= generation
    case TimerRaising(g) => !i.running && g <= generation
    case TimerLowering(g) => i.running && !Active(i.thread) && g <= generation
    case TimerStarting(g) => i.running && !i.successful && !Active(i.thread) && g <= generation
    case ReadyFlag(g) => g <= generation
    case ReadyGeneration(g) => i.successful && g <= generation
    case Ready(g) => i.successful && i.initialized == g && g <= generation
    case _ => true
  }

  predicate InitOk(i: Init, c: Callback, o: Options, resolved: map<Request, Reply>, submitted: set<Request>,
                   generation: nat)
  {
    && Performed(i.performed, o, resolved)
    && ThreadOk(i, o, submitted, generation)
    && TimerOk(c, i, generation)
  }

  // ----- goals -----

  predicate Inside(p: Place) { p != WantLock && p != Gone }

  predicate BeforeMotion(p: Place) {
    || p == WantLock || p == CheckGeneration || p == CheckShutdown || p == Refused || p == SendAcceleration
    || p.AwaitAcceleration? || p == SendForce || p.AwaitForce? || p == SendMotion
  }

  /** Between sending the motion command and taking its reply. */
  predicate InMotion(p: Place) {
    || p.Watching? || p.WatchShutdown? || p == WatchCanceling || p == WatchGeneration || p == SendStop || p.AwaitStop?
    || p == Collecting
  }

  predicate Judging(p: Place) {
    p.Looking? || p.Looked? || p == JudgeCanceling || p == JudgeGeneration
  }

  predicate Ended(p: Place) { p == Unlocking || p == Gone }

  predicate OutcomesOk(j: Job) {
    if Ended(j.place) then |j.outcomes| == 1 && j.handle == Terminal(j.outcomes[0])
    else j.outcomes == [] && !j.handle.Terminal? && (j.place == Concluding(Canceled) ==> j.handle == Canceling)
  }

  predicate MotionsOk(j: Job, o: Options, submitted: set<Request>) {
    && (BeforeMotion(j.place) ==> j.motions == [])
    && (InMotion(j.place) || Judging(j.place) ==> |j.motions| == 1)
    && |j.motions| <= 1 && (j.stops != [] ==> j.motions != [])
    && forall r :: r in j.motions ==> r in submitted && Carries(r, MotionOrder(o, j.goal))
  }

  predicate StopsOk(j: Job, o: Options, submitted: set<Request>) {
    && match j.place {
         case Watching(stopSent) => |j.stops| == Count(stopSent)
         case WatchShutdown(stopSent) => |j.stops| == Count(stopSent)
         case AwaitStop(r) => j.stops == [r]
         case Collecting => |j.stops| <= 1
         case p => if Judging(p) || p.Concluding? || Ended(p) then |j.stops| <= 1 else j.stops == []
       }
    && forall r :: r in j.stops ==> r in submitted && Carries(r, StopOrder(o))
  }

  predicate WaitsOk(p: Place, submitted: set<Request>) {
    match p
    case AwaitAcceleration(r) => r in submitted
    case AwaitForce(r) => r in submitted
    case _ => true
  }

  /** The reply a goal judges by is the one its motion command got. */
  predicate Answered(j: Job, resolved: map<Request, Reply>) {
    |j.motions| == 1 && j.motions[0] in resolved && j.reply == resolved[j.motions[0]]
  }

  predicate RepliesOk(j: Job, o: Options, resolved: map<Request, Reply>) {
    && (Judging(j.place) ==> Answered(j, resolved))
    && (j.place.Concluding? || Ended(j.place) ==> j.motions == [] || Answered(j, resolved))
    && (j.place == Concluding(Succeeded) || (j.outcomes != [] && j.outcomes[0] == Succeeded) ==>
          Answered(j, resolved) && Fulfilled(o, j.goal, j.reply, j.seen))
  }

  predicate JobOk(j: Job, o: Options, resolved: map<Request, Reply>, submitted: set<Request>) {
    && OutcomesOk(j)
    && MotionsOk(j, o, submitted)
    && StopsOk(j, o, submitted)
    && WaitsOk(j.place, submitted)
    && RepliesOk(j, o, resolved)
  }

  predicate JobsOk(jobs: map<nat, Job>, o: Options, resolved: map<Request, Reply>, submitted: set<Request>) {
    forall n :: n in jobs ==> JobOk(jobs[n], o, resolved, submitted)
  }

  predicate Numbered(m: Motion) {
    forall n :: n in m.jobs ==> 1 <= n <= m.generation
  }

  predicate HomeInside(c: Callback) { c == HomeChecking || c == HomeSending || c.HomeAwaiting? }

  /** Whoever is between locking and unlocking the motion mutex owns it. */
  predicate LockOk(jobs: map<nat, Job>, lock: Lock, c: Callback) {
    && (forall n :: n in jobs ==> (Inside(jobs[n].place) <==> lock == ByGoal(n)))
    && (lock.ByGoal? ==> lock.n in jobs)
    && (HomeInside(c) <==> lock == ByHome)
  }

  // ----- client threads -----

  predicate JobAwaits(j: Job, r: Request) {
    match j.place
    case AwaitAcceleration(q) => q == r
    case AwaitForce(q) => q == r
    case AwaitStop(q) => q == r
    case Watching(false) => j.motions == [r]
    case _ => false
  }

  predicate InitAwaits(t: Thread, r: Request) { t.Awaiting? && t.request == r }

  predicate CallbackAwaits(c: Callback, r: Request) {
    match c
    case Serving(q) => q == r
    case HomeAwaiting(q) => q == r
    case _ => false
  }

  predicate Awaited(t: Thread, c: Callback, jobs: map<nat, Job>, r: Request) {
    InitAwaits(t, r) || CallbackAwaits(c, r) || exists n :: n in jobs && JobAwaits(jobs[n], r)
  }

  /** Every `command` call in progress is one the driver is waiting in. */
  ghost predicate ClientsOk(calls: map<Request, Call>, t: Thread, c: Callback, jobs: map<nat, Job>) {
    forall r :: WithClient(calls, r) ==> Awaited(t, c, jobs, r)
  }

  ghost predicate DriverInv(s: System) {
    && Inv(s.engine)
    && InitOk(s.init, s.callback, s.options, s.engine.resolved, s.engine.submitted, Generation(s.engine))
    && JobsOk(s.motion.jobs, s.options, s.engine.resolved, s.engine.submitted)
    && Numbered(s.motion)
    && LockOk(s.motion.jobs, s.motion.lock, s.callback)
    && ClientsOk(s.engine.calls, s.init.thread, s.callback, s.motion.jobs)
  }
}
