/** The driver node on top of the request engine: the executor's callbacks, the initialisation thread and the goal
    threads. A step is one atomic read or write, one lock operation, one `command` call, or one future becoming
    ready; every caller of `command` in the driver is a part of the state. Callbacks of the default callback group
    do not overlap: there is one callback slot. */
module Driver {
  import opened Crc
  import opened Frames
  import opened Device
  import opened Engine

  const COMMAND_HOME: Id := 0x20
  const COMMAND_MOVE: Id := 0x21
  const COMMAND_STOP: Id := 0x22
  const COMMAND_ACKNOWLEDGE: Id := 0x24
  const COMMAND_GRASP: Id := 0x25
  const COMMAND_RELEASE: Id := 0x26
  const COMMAND_SET_ACCELERATION: Id := 0x30
  const COMMAND_SET_FORCE: Id := 0x32
  const COMMAND_TARE: Id := 0x38

  const ACKNOWLEDGEMENT: seq<byte> := [0x61, 0x63, 0x6b]

  datatype Option<T> = None | Some(value: T)

  /** The node's parameters. Accelerations, forces, widths and speeds are the four bytes of the float sent. */
  datatype Options = Options(
    autoAcknowledge: bool,
    autoHome: bool,
    responseTimeout: nat,
    motionTimeout: nat,
    defaultAcceleration: seq<byte>,
    defaultForce: seq<byte>,
    tolerance: real,
    maxPayload: nat,                // of the transport
    settlePolls: nat)               // how often the settling loop can sleep before its deadline

  /** A command as its caller asks for it. */
  datatype Order = Order(id: Id, payload: seq<byte>, timeout: nat, priority: bool)

  predicate Carries(r: Request, o: Order) {
    && r.id == o.id && r.payload == o.payload && r.timeout == o.timeout && r.priority == o.priority
    && r.allowPending && !r.internal
  }

  // ----- initialisation -----

  /** What `initialize_connection` sends, in order. */
  function Plan(o: Options): seq<Order> {
    [Order(COMMAND_SET_ACCELERATION, o.defaultAcceleration, o.responseTimeout, false),
     Order(COMMAND_SET_FORCE, o.defaultForce, o.responseTimeout, false)] +
    (if o.autoAcknowledge then [Order(COMMAND_ACKNOWLEDGE, ACKNOWLEDGEMENT, o.responseTimeout, false)] else []) +
    (if o.autoHome then [Order(COMMAND_HOME, [0], o.motionTimeout, false)] else [])
  }

  datatype Thread =
    | Absent
    | Asking(generation: nat)                         // about to send the next planned command
    | Awaiting(generation: nat, request: Request)
    | Storing(generation: nat, success: bool)         // before `initialized_generation_` is stored
    | Reporting(generation: nat, success: bool)       // before `initialization_successful_` is stored
    | Lowering                                        // before `initialization_running_` is cleared
    | Finished

  datatype Init = Init(
    running: bool,
    successful: bool,
    initialized: nat,
    thread: Thread,
    performed: seq<Request>)        // history: the commands of the present plan that succeeded

  // ----- goals -----

  datatype Mode = Move | Grasp | Release

  datatype Goal = Goal(
    mode: Mode,
    stopOnBlock: bool,
    width: real,
    widthBytes: seq<byte>,
    speedBytes: seq<byte>,
    acceleration: seq<byte>,
    force: seq<byte>)

  function MotionOrder(o: Options, g: Goal): Order {
    match g.mode
    case Move =>
      Order(COMMAND_MOVE, [if g.stopOnBlock then 2 else 0] + g.widthBytes + g.speedBytes, o.motionTimeout, false)
    case Grasp => Order(COMMAND_GRASP, g.widthBytes + g.speedBytes, o.motionTimeout, false)
    case Release => Order(COMMAND_RELEASE, g.widthBytes + g.speedBytes, o.motionTimeout, false)
  }

  function StopOrder(o: Options): Order { Order(COMMAND_STOP, [], o.responseTimeout, true) }

  datatype Outcome = Succeeded | Aborted | Canceled

  /** The goal handle of the action server. */
  datatype Handle = Executing | Canceling | Terminal(outcome: Outcome)

  /** Where a goal thread is in `execute_standard` or `execute_advanced`. */
  datatype Place =
    | WantLock
    | CheckGeneration
    | CheckShutdown
    | Refused                                // superseded or shutting down, before `is_canceling` is read
    | SendAcceleration
    | AwaitAcceleration(request: Request)
    | SendForce
    | AwaitForce(request: Request)
    | SendMotion
    | Watching(stopSent: bool)               // in `wait_for`
    | WatchShutdown(stopSent: bool)
    | WatchCanceling                         // no stop sent yet
    | WatchGeneration
    | SendStop
    | AwaitStop(request: Request)
    | Collecting                             // in `future.get`
    | Looking(polls: nat)                    // before a snapshot in `wait_for_settled_state`
    | Looked(polls: nat)
    | JudgeCanceling
    | JudgeGeneration
    | Concluding(outcome: Outcome)
    | Unlocking
    | Gone

  datatype Job = Job(
    goal: Goal,
    handle: Handle,
    place: Place,
    reply: Reply,                   // of the motion command, once collected
    seen: DeviceState,              // the last snapshot
    motions: seq<Request>,          // history: the motion commands this goal sent
    stops: seq<Request>,            // history: the stop commands this goal sent
    outcomes: seq<Outcome>)         // history: the terminal transitions this goal made

  datatype Lock = Unlocked | ByGoal(n: nat) | ByHome

  datatype Motion = Motion(
    generation: nat,                // `motion_generation_`
    jobs: map<nat, Job>,
    lock: Lock)                     // `motion_execution_mutex_`

  // ----- the callback slot -----

  datatype Callback =
    | Idle
    // `initialize_connection`
    | TimerEntered
    | TimerReading
    | TimerComparing(generation: nat)
    | TimerJoining(generation: nat)
    | TimerRaising(generation: nat)
    | TimerLowering(generation: nat)
    | TimerStarting(generation: nat)
    // `connection_is_ready`, called when a goal arrives; `generation` is the snapshot's
    | ReadyFlag(generation: nat)
    | ReadyGeneration(generation: nat)
    | Ready(generation: nat)
    // services
    | Serving(request: Request)              // stop, acknowledge, tare
    | HomeWaiting
    | HomeChecking
    | HomeSending
    | HomeAwaiting(request: Request)

  datatype System = System(
    engine: State,
    options: Options,
    shuttingDown: bool,
    callback: Callback,
    init: Init,
    motion: Motion)

  function Initial(o: Options): System {
    System(Initially(o.maxPayload), o, false, Idle, Init(false, false, 0, Absent, []), Motion(0, map[], Unlocked))
  }

  // ----- labels -----

  datatype Action =
    | Acquire
    | ReadGeneration
    | ReadShutdown
    | ReadCanceling
    | Send(request: Request)
    | Receive                                // a future is ready
    | WaitEnds                               // `wait_for` times out
    | Look
    | LookAgain                              // the settling loop goes on
    | LookEnough                             // the settling loop ends
    | Conclude
    | Unlock

  datatype Label =
    | EngineMoves(step: Step)
    | ShutDown
    | TimerFires
    | TimerGoes
    | GoalArrives
    | GoalGoes                               // the next read of `connection_is_ready`
    | GoalRejected
    | GoalAccepted(goal: Goal)
    | CancelGoal(n: nat)
    | ServiceCalls(request: Request)
    | ServiceReturns
    | HomeArrives
    | HomeGoes
    | HomeSends(request: Request)
    | InitSends(request: Request)
    | InitGoes
    | GoalActs(n: nat, action: Action)

  // ----- what the steps read -----

  /** A new request for the order `o`, made now. */
  predicate Fresh(e: State, r: Request, o: Order) {
    r !in e.submitted && Carries(r, o) && r.createdOn == Generation(e)
  }

  predicate IsResolved(e: State, r: Request) { r in e.resolved }

  function ReplyOf(e: State, r: Request): Reply
  {
    if r in e.resolved then e.resolved[r] else FAILED
  }

  /** A client thread goes on only when its own `command` call has returned. */
  predicate HasReturned(e: State, r: Request) { r !in e.calls || e.calls[r] == Returned }

  function MotionRequest(j: Job): Request {
    if j.motions == [] then Request(0, 0, [], false, false, 0, false, 0) else j.motions[0]
  }

  function Power(e: int): real
    decreases if e < 0 then -e else e
  {
    if e == 0 then 1.0 else if e > 0 then 2.0 * Power(e - 1) else Power(e + 1) / 2.0
  }

  /** The IEEE 754 single of these parts, if it is a number. */
  function Single(negative: bool, exponent: nat, mantissa: nat): Option<real> {
    var sign := if negative then -1.0 else 1.0;
    if exponent == 255 then None
    else if exponent == 0 then Some(sign * (mantissa as real) * Power(-149))
    else Some(sign * ((mantissa + 0x800000) as real) * Power(exponent - 150))
  }

  /** The number four bytes encode, lowest byte first, if they encode one. */
  function Number(p: seq<byte>): Option<real> {
    if |p| != 4 then None
    else Single(Value(p[3]) >= 128, Value(p[3]) % 128 * 2 + Value(p[2]) / 128,
                Value(p[2]) % 128 * 0x10000 + Value(p[1]) * 0x100 + Value(p[0]))
  }

  lemma KnownPowers()
    ensures Power(-16) == 1.0 / 65536.0 && Power(-17) == 1.0 / 131072.0 && Power(-23) == 1.0 / 8388608.0
  {
    assert Power(-4) == 0.0625;
    assert Power(-8) == 0.00390625;
    assert Power(-12) == 0.000244140625;
    assert Power(-16) == 0.0000152587890625;
    assert Power(-20) == 0.00000095367431640625;
  }

  lemma KnownSingles()
    ensures Single(false, 133, 0x770000) == Some(123.5) && Single(false, 133, 0x480000) == Some(100.0)
    ensures Single(true, 127, 0) == Some(-1.0) && Single(false, 255, 0) == None
  {
    KnownPowers();
    hide Power;
  }

  /** Some numbers and the bytes they are sent as: 123.5, 100 and -1; and infinity, which is no number. */
  lemma KnownNumbers()
    ensures Number([0, 0, 0xf7, 0x42]) == Some(123.5) && Number([0, 0, 0xc8, 0x42]) == Some(100.0)
    ensures Number([0, 0, 0x80, 0xbf]) == Some(-1.0) && Number([0, 0, 0x80, 0x7f]) == None
  {
    KnownSingles();
    assert Value(0) == 0 && Value(0x80) == 0x80 && Value(0x7f) == 0x7f;
    assert Value(0xf7) == 0xf7 && Value(0x42) == 0x42;
    assert Value(0xc8) == 0xc8 && Value(0xbf) == 0xbf;
    hide Value, Power, Single;
  }

  predicate WithinTolerance(o: Options, g: Goal, d: DeviceState) {
    match Number(d.opening)
    case None => false
    case Some(mm) => -o.tolerance <= mm / 1000.0 - g.width <= o.tolerance
  }

  /** `motion_reached`. */
  predicate Reached(o: Options, g: Goal, d: DeviceState) {
    WithinTolerance(o, g, d) || (g.mode == Grasp && d.stalled)
  }

  predicate MotionOk(g: Goal, r: Reply) {
    Success(r) || (g.mode == Grasp && r.status == STATUS_AXIS_BLOCKED)
  }

  /** `result->stalled`. */
  predicate ResultStalled(g: Goal, r: Reply, d: DeviceState) {
    d.stalled || (g.mode == Grasp && r.status == STATUS_AXIS_BLOCKED)
  }

  /** The condition for success at the end of `execute_standard` and `execute_advanced`. */
  predicate Fulfilled(o: Options, g: Goal, r: Reply, d: DeviceState) {
    MotionOk(g, r) && (Reached(o, g, d) || (g.mode == Grasp && ResultStalled(g, r, d)))
  }

  /** The settling loop's condition, apart from its deadline. */
  predicate Restless(o: Options, g: Goal, r: Reply, d: DeviceState) {
    d.connected && MotionOk(g, r) && (d.moving || !Reached(o, g, d))
  }

  predicate Unsettled(o: Options, j: Job) { Restless(o, j.goal, j.reply, j.seen) }

  /** `wait_for_settled_state`, given what the snapshots it can take before its deadline would show: it stops at the
      first that is settled, or at the last. */
  method WaitForSettledState(o: Options, g: Goal, reply: Reply, snapshots: seq<DeviceState>)
      returns (k: nat, state: DeviceState)
    requires snapshots != []
    ensures k < |snapshots| && state == snapshots[k]
    ensures forall i :: 0 <= i < k ==> Restless(o, g, reply, snapshots[i])
    ensures k < |snapshots| - 1 ==> !Restless(o, g, reply, state)
  {
    k := 0;
    state := snapshots[0];
    var motionOk := MotionOk(g, reply);
    while state.connected && motionOk && (state.moving || !Reached(o, g, state)) && k + 1 < |snapshots|
      invariant k < |snapshots| && state == snapshots[k]
      invariant forall i :: 0 <= i < k ==> Restless(o, g, reply, snapshots[i])
    {
      k := k + 1;
      state := snapshots[k];
    }
  }

  // ----- goal threads -----

  predicate Sends(p: Place) { p == SendAcceleration || p == SendForce || p == SendMotion || p == SendStop }

  /** The command a goal thread is about to send. */
  function NextOrder(o: Options, j: Job): Order
    requires Sends(j.place)
  {
    match j.place
    case SendAcceleration => Order(COMMAND_SET_ACCELERATION, j.goal.acceleration, o.responseTimeout, false)
    case SendForce => Order(COMMAND_SET_FORCE, j.goal.force, o.responseTimeout, false)
    case SendMotion => MotionOrder(o, j.goal)
    case SendStop => StopOrder(o)
  }

  predicate CanAct(s: System, j: Job, a: Action) {
    match j.place
    case WantLock => a == Acquire && s.motion.lock == Unlocked
    case CheckGeneration => a == ReadGeneration
    case CheckShutdown => a == ReadShutdown
    case Refused => a == ReadCanceling
    case SendAcceleration => a.Send? && Fresh(s.engine, a.request, NextOrder(s.options, j))
    case AwaitAcceleration(r) => a == Receive && IsResolved(s.engine, r)
    case SendForce => a.Send? && Fresh(s.engine, a.request, NextOrder(s.options, j))
    case AwaitForce(r) => a == Receive && IsResolved(s.engine, r)
    case SendMotion => a.Send? && Fresh(s.engine, a.request, NextOrder(s.options, j))
    case Watching(_) =>
      var r := MotionRequest(j);
      HasReturned(s.engine, r) && (if IsResolved(s.engine, r) then a == Receive else a == WaitEnds)
    case WatchShutdown(_) => a == ReadShutdown
    case WatchCanceling => a == ReadCanceling
    case WatchGeneration => a == ReadGeneration
    case SendStop => a.Send? && Fresh(s.engine, a.request, NextOrder(s.options, j))
    case AwaitStop(r) => a == Receive && IsResolved(s.engine, r)
    case Collecting => a == Receive && IsResolved(s.engine, MotionRequest(j))
    case Looking(_) => a == Look
    case Looked(polls) => a == LookEnough || (a == LookAgain && polls > 0 && Unsettled(s.options, j))
    case JudgeCanceling => a == ReadCanceling
    case JudgeGeneration => a == ReadGeneration
    case Concluding(_) => a == Conclude
    case Unlocking => a == Unlock
    case Gone => false
  }

  /** Where the action takes goal thread `n`. */
  function NextPlace(s: System, n: nat, j: Job, a: Action): Place
    requires CanAct(s, j, a)
  {
    match j.place
    case WantLock => CheckGeneration
    case CheckGeneration => if n != s.motion.generation then Refused else CheckShutdown
    case CheckShutdown => if s.shuttingDown then Refused else SendAcceleration
    case Refused => Concluding(if j.handle == Canceling then Canceled else Aborted)
    case SendAcceleration => AwaitAcceleration(a.request)
    case AwaitAcceleration(r) => if Success(ReplyOf(s.engine, r)) then SendForce else Concluding(Aborted)
    case SendForce => AwaitForce(a.request)
    case AwaitForce(r) => if Success(ReplyOf(s.engine, r)) then SendMotion else Concluding(Aborted)
    case SendMotion => Watching(false)
    case Watching(stopSent) => if a == Receive then Collecting else WatchShutdown(stopSent)
    case WatchShutdown(stopSent) =>
      if s.shuttingDown then Collecting else if stopSent then Watching(true) else WatchCanceling
    case WatchCanceling => if j.handle == Canceling then SendStop else WatchGeneration
    case WatchGeneration => if n != s.motion.generation then SendStop else Watching(false)
    case SendStop => AwaitStop(a.request)
    case AwaitStop(_) => Watching(true)
    case Collecting => Looking(s.options.settlePolls)
    case Looking(polls) => Looked(polls)
    case Looked(polls) => if a == LookAgain then Looking(polls - 1) else JudgeCanceling
    case JudgeCanceling => if j.handle == Canceling then Concluding(Canceled) else JudgeGeneration
    case JudgeGeneration =>
      if n != s.motion.generation then Concluding(Aborted)
      else Concluding(if Fulfilled(s.options, j.goal, j.reply, j.seen) then Succeeded else Aborted)
    case Concluding(_) => Unlocking
    case Unlocking => Gone
  }

  function NextJob(s: System, n: nat, j: Job, a: Action): Job
    requires CanAct(s, j, a)
  {
    var t := j.(place := NextPlace(s, n, j, a));
    match j.place
    case SendMotion => t.(motions := j.motions + [a.request])
    case SendStop => t.(stops := j.stops + [a.request])
    case Collecting => t.(reply := ReplyOf(s.engine, MotionRequest(j)))
    case Looking(_) => t.(seen := s.engine.device)
    case Concluding(outcome) => t.(handle := Terminal(outcome), outcomes := j.outcomes + [outcome])
    case _ => t
  }

  function NextLock(l: Lock, n: nat, a: Action): Lock {
    if a == Acquire then ByGoal(n) else if a == Unlock then Unlocked else l
  }

  /** A goal thread touches the engine only by calling `command`. */
  function EngineAfter(e: State, a: Action): State {
    if a.Send? then Submitted(e, a.request) else e
  }

  function Acted(s: System, n: nat, a: Action): System
    requires n in s.motion.jobs && CanAct(s, s.motion.jobs[n], a)
  {
    var j := s.motion.jobs[n];
    s.(engine := EngineAfter(s.engine, a),
       motion := s.motion.(jobs := s.motion.jobs[n := NextJob(s, n, j, a)], lock := NextLock(s.motion.lock, n, a)))
  }

  // ----- the initialisation thread -----

  predicate CanInit(s: System) {
    match s.init.thread
    case Awaiting(_, r) => IsResolved(s.engine, r)
    case Storing(_, _) => true
    case Reporting(_, _) => true
    case Lowering => true
    case _ => false
  }

  /** What the thread does with the reply to its last command. */
  function Progress(o: Options, i: Init, generation: nat, r: Request, reply: Reply): Init {
    if !Success(reply) then i.(thread := Storing(generation, false))
    else
      var performed := i.performed + [r];
      i.(performed := performed,
         thread := if |performed| < |Plan(o)| then Asking(generation) else Storing(generation, true))
  }

  function NextInit(s: System): Init
    requires CanInit(s)
  {
    match s.init.thread
    case Awaiting(generation, r) => Progress(s.options, s.init, generation, r, ReplyOf(s.engine, r))
    case Storing(generation, success) =>
      s.init.(initialized := generation, thread := Reporting(generation, success))
    case Reporting(_, success) => s.init.(successful := success, thread := Lowering)
    case Lowering => s.init.(running := false, thread := Finished)
  }

  // ----- callbacks -----

  predicate CanTimer(s: System) {
    match s.callback
    case TimerEntered => true
    case TimerReading => true
    case TimerComparing(_) => true
    case TimerJoining(_) => s.init.thread == Absent || s.init.thread == Finished
    case TimerRaising(_) => true
    case TimerLowering(_) => true
    case TimerStarting(_) => true
    case _ => false
  }

  function TimerCallback(s: System): Callback
    requires CanTimer(s)
  {
    match s.callback
    case TimerEntered => if s.init.running then Idle else TimerReading
    case TimerReading => if s.engine.device.connected then TimerComparing(Generation(s.engine)) else Idle
    case TimerComparing(g) => if g == s.init.initialized then Idle else TimerJoining(g)
    case TimerJoining(g) => TimerRaising(g)
    case TimerRaising(g) => TimerLowering(g)
    case TimerLowering(g) => TimerStarting(g)
    case TimerStarting(_) => Idle
  }

  function TimerInit(s: System): Init
    requires CanTimer(s)
  {
    match s.callback
    case TimerRaising(_) => s.init.(running := true)
    case TimerLowering(_) => s.init.(successful := false)
    case TimerStarting(g) => s.init.(thread := Asking(g), performed := [])
    case _ => s.init
  }

  predicate CanHome(s: System) {
    match s.callback
    case HomeWaiting => s.motion.lock == Unlocked
    case HomeChecking => true
    case HomeAwaiting(r) => IsResolved(s.engine, r)
    case _ => false
  }

  function Homed(s: System): System
    requires CanHome(s)
  {
    match s.callback
    case HomeWaiting => s.(callback := HomeChecking, motion := s.motion.(lock := ByHome))
    case HomeChecking =>
      if s.engine.connected then s.(callback := HomeSending)
      else s.(callback := Idle, motion := s.motion.(lock := Unlocked))
    case HomeAwaiting(_) => s.(callback := Idle, motion := s.motion.(lock := Unlocked))
  }

  function HomeOrder(o: Options): Order { Order(COMMAND_HOME, [0], o.motionTimeout, false) }

  /** Whether `r` is what one of the simple services sends. */
  predicate IsService(e: State, o: Options, r: Request) {
    || Fresh(e, r, StopOrder(o))
    || Fresh(e, r, Order(COMMAND_ACKNOWLEDGE, ACKNOWLEDGEMENT, o.responseTimeout, false))
    || Fresh(e, r, Order(COMMAND_TARE, [], o.responseTimeout, false))
  }

  function NewJob(g: Goal): Job {
    Job(g, Executing, WantLock, FAILED, INITIAL_STATE, [], [], [])
  }

  /** `handle_standard_accepted` and `handle_advanced_accepted`. */
  function Accepted(m: Motion, g: Goal): Motion {
    m.(generation := m.generation + 1, jobs := m.jobs[m.generation + 1 := NewJob(g)])
  }

  // ----- the steps of the system -----

  ghost predicate Can(s: System, l: Label) {
    match l
    case EngineMoves(step) => !step.Submit? && Enabled(s.engine, step)
    case ShutDown => true
    case TimerFires => s.callback == Idle
    case TimerGoes => CanTimer(s)
    case GoalArrives => s.callback == Idle
    case GoalGoes => s.callback.ReadyFlag? || s.callback.ReadyGeneration?
    case GoalRejected => s.callback.Ready?
    case GoalAccepted(_) => s.callback.Ready?
    case CancelGoal(n) => s.callback == Idle && n in s.motion.jobs && s.motion.jobs[n].handle == Executing
    case ServiceCalls(r) => s.callback == Idle && IsService(s.engine, s.options, r)
    case ServiceReturns => s.callback.Serving? && IsResolved(s.engine, s.callback.request)
    case HomeArrives => s.callback == Idle
    case HomeGoes => CanHome(s)
    case HomeSends(r) => s.callback == HomeSending && Fresh(s.engine, r, HomeOrder(s.options))
    case InitSends(r) =>
      && s.init.thread.Asking? && |s.init.performed| < |Plan(s.options)|
      && Fresh(s.engine, r, Plan(s.options)[|s.init.performed|])
    case InitGoes => CanInit(s)
    case GoalActs(n, a) => n in s.motion.jobs && CanAct(s, s.motion.jobs[n], a)
  }

  function ReadyCallback(s: System): Callback
    requires s.callback.ReadyFlag? || s.callback.ReadyGeneration?
  {
    match s.callback
    case ReadyFlag(g) => if s.init.successful then ReadyGeneration(g) else Idle
    case ReadyGeneration(g) => if s.init.initialized == g then Ready(g) else Idle
  }

  function Advance(s: System, l: Label): System
    requires Can(s, l)
  {
    match l
    case EngineMoves(step) => s.(engine := Apply(s.engine, step))
    case ShutDown => s.(shuttingDown := true)
    case TimerFires => s.(callback := if s.shuttingDown then Idle else TimerEntered)
    case TimerGoes => s.(callback := TimerCallback(s), init := TimerInit(s))
    case GoalArrives =>
      var d := s.engine.device;
      s.(callback := if d.connected && d.referenced then ReadyFlag(d.connectionGeneration) else Idle)
    case GoalGoes => s.(callback := ReadyCallback(s))
    case GoalRejected => s.(callback := Idle)
    case GoalAccepted(g) => s.(callback := Idle, motion := Accepted(s.motion, g))
    case CancelGoal(n) =>
      s.(motion := s.motion.(jobs := s.motion.jobs[n := s.motion.jobs[n].(handle := Canceling)]))
    case ServiceCalls(r) => s.(callback := Serving(r), engine := Submitted(s.engine, r))
    case ServiceReturns => s.(callback := Idle)
    case HomeArrives => s.(callback := HomeWaiting)
    case HomeGoes => Homed(s)
    case HomeSends(r) => s.(callback := HomeAwaiting(r), engine := Submitted(s.engine, r))
    case InitSends(r) =>
      s.(init := s.init.(thread := Awaiting(s.init.thread.generation, r)), engine := Submitted(s.engine, r))
    case InitGoes => s.(init := NextInit(s))
    case GoalActs(n, a) => Acted(s, n, a)
  }

  // ----- runs -----

  datatype History = History(states: seq<System>, labels: seq<Label>)

  ghost predicate ValidHistory(h: History, o: Options) {
    && |h.states| == |h.labels| + 1
    && h.states[0] == Initial(o)
    && forall k :: 0 <= k < |h.labels| ==>
         Can(h.states[k], h.labels[k]) && h.states[k + 1] == Advance(h.states[k], h.labels[k])
  }
}
