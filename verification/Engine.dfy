/** The request engine of the transport as a transition system. A step is one lock-protected section, one
    atomic write, or one outcome of the outside world; client threads and the worker interleave freely.

    A request stands for the `shared_ptr` the source passes around: its immutable attributes are in the
    value, its deadline and its promise are in maps of the state. */
module Engine {
  import opened Crc
  import opened Frames
  import opened Device

  datatype Request = Request(
    serial: nat,             // tells apart requests with equal attributes
    id: Id,
    payload: seq<byte>,
    allowPending: bool,
    internal: bool,
    timeout: nat,
    priority: bool,
    createdOn: nat)          // the connection generation when the request was made

  datatype Reply = Reply(transportOk: bool, status: nat, payload: seq<byte>)

  const FAILED: Reply := Reply(false, STATUS_TRANSPORT_ERROR, [])

  predicate Success(r: Reply) { r.transportOk && r.status == STATUS_SUCCESS }

  /** Where a client thread is inside `command`. */
  datatype Call =
    | Created
    | Locked                       // holds the queue mutex and has read `connected_`
    | Unqueued                     // released the mutex without queueing
    | Returned

  /** The queue mutex, as far as client threads hold it; the worker's sections are single steps. */
  datatype Mutex = Free | Owned(owner: Request, sawConnected: bool)

  /** What the worker does after `disconnect`. */
  datatype After = ToLoop | ToFailure(request: Request) | ToExit

  /** Where the worker thread is. */
  datatype Worker =
    | Exited
    | Loop                                                        // at the head of the loop in `run`
    | Dialing                                                     // in `connect_socket`, before it has an outcome
    | Bumped                                                      // in `connect_socket`, before `connected_ = true`
    | Fresh                                                       // connected, before `running_` is read again
    | Subscribing                                                 // before `queue_state_streaming`
    | Dispatching
    | Sending(request: Request)
    | Failing(request: Request)                                   // before the failure section of the dispatch
    | Polling
    | Receiving                                                   // at the head of the loop in `receive_available`
    | InRecv                                                      // in `recv`
    | Parsing                                                     // in `parse_frames`
    | Arrived(id: Id, status: nat, payload: seq<byte>)          // in `handle_frame`, before its locked section
    | Detached(request: Request, status: nat, payload: seq<byte>) // after it
    | Answering(request: Request, reply: Reply)                   // before `set_value`
    | Expiring                                                    // in `expire_requests`, before it reads the clock
    | Checking(now: nat)                                          // before its locked section
    | Closing(after: After)                                       // in `disconnect`, `connected_` cleared
    | Closed(after: After)                                        // socket closed
    | Draining(held: seq<Request>, after: After)                  // containers emptied, failing one by one

  datatype Transmission = Transmission(request: Request, generation: nat)

  datatype State = State(
    running: bool,
    connected: bool,
    socket: bool,
    queue: seq<Request>,
    priorityQueue: seq<Request>,
    inFlight: map<Id, Request>,
    mutex: Mutex,
    deadline: map<Request, nat>,
    resolved: map<Request, Reply>,
    device: DeviceState,
    worker: Worker,
    calls: map<Request, Call>,
    clock: nat,
    maxPayload: nat,                  // `max_payload_size`, fixed
    unparsed: nat,                    // how many frames the last `recv` can still complete
    // history
    submitted: set<Request>,
    acceptedOn: map<Request, nat>,    // generation at which a request entered a queue
    accepted: seq<Request>,           // ordinary requests in the order they entered the queue
    settled: seq<Request>,            // ordinary requests in the order they were resolved
    serving: seq<Request>,            // the ordinary request in flight, if any
    transmitted: seq<Transmission>,
    sampled: nat,                     // when the connection came up, or what the expiry check that last passed read
    broken: bool)                     // a promise was set twice where the source does not catch it

  function Initially(maxPayload: nat): State {
    State(false, false, false, [], [], map[], Free, map[], map[], INITIAL_STATE, Exited, map[], 0, maxPayload, 0,
          {}, map[], [], [], [], [], 0, false)
  }

  function Generation(s: State): nat { s.device.connectionGeneration }

  // ----- steps -----

  datatype Step =
    | Start
    | Stop
    | Tick(elapsed: nat)
    // client threads
    | Submit(request: Request)
    | CallLock(request: Request)
    | CallUnlock(request: Request)
    | CallFail(request: Request)
    // the worker's loop
    | Dial
    | ConnectFails
    | Connect
    | Announce
    | Proceed
    | Stream(requests: seq<Request>)
    | Serve
    | Leave
    | Dispatch
    | SendDone
    | SendRefused                         // the payload does not fit a frame, or the transport is stopping
    | SendBroken
    | FailSend
    | PollQuiet
    | PollData
    | PollLost
    | Recv
    | Data(frames: nat)
    | Frame(id: Id, payload: seq<byte>)
    | Lookup
    | Note
    | Answer
    | ParseDone
    | Interrupted
    | ReceiveDone
    | ReceiveStopped
    | ReceiveLost
    | Sample
    | Expire
    // `disconnect`
    | CloseSocket
    | TakeAll(order: seq<Request>)
    | FailNext
    | ClearState

  predicate NoDup(rs: seq<Request>) {
    forall i, j :: 0 <= i < j < |rs| ==> rs[i] != rs[j]
  }

  predicate InFlight(flight: map<Id, Request>, r: Request) {
    r.id in flight && flight[r.id] == r
  }

  /** `order` visits every request in flight once. The source visits them in the order of their ids; nothing
      below depends on which order it is. */
  ghost predicate Visits(order: seq<Request>, flight: map<Id, Request>) {
    && NoDup(order)
    && forall r :: r in order <==> InFlight(flight, r)
  }

  predicate Expired(s: State, now: nat) {
    exists id :: id in s.inFlight && s.inFlight[id] in s.deadline && now >= s.deadline[s.inFlight[id]]
  }

  const STREAM_IDS: seq<Id> := [0x40, 0x41, 0x43, 0x44, 0x45]

  predicate IsStream(s: State, rs: seq<Request>) {
    && |rs| == |STREAM_IDS| && NoDup(rs)
    && forall k :: 0 <= k < |rs| ==>
         && rs[k] !in s.submitted && rs[k].id == STREAM_IDS[k] && rs[k].internal
         && |rs[k].payload| == 3 && !rs[k].priority && !rs[k].allowPending && rs[k].createdOn == Generation(s)
  }

  predicate IsCall(s: State, r: Request, c: Call) {
    r in s.calls && s.calls[r] == c
  }

  ghost predicate Enabled(s: State, l: Step) {
    match l
    case Start => s.worker == Exited && !s.running
    case Stop => true
    case Tick(_) => true
    case Submit(r) => r !in s.submitted && !r.internal && r.createdOn == Generation(s)
    case CallLock(r) => IsCall(s, r, Created) && s.mutex == Free
    case CallUnlock(r) => IsCall(s, r, Locked) && s.mutex.Owned? && s.mutex.owner == r
    case CallFail(r) => IsCall(s, r, Unqueued)
    case Dial => s.worker == Loop && s.running && !s.socket
    case ConnectFails => s.worker == Dialing
    case Connect => s.worker == Dialing
    case Announce => s.worker == Bumped
    case Proceed => s.worker == Fresh && s.running
    case Stream(rs) => s.worker == Subscribing && s.mutex == Free && IsStream(s, rs)
    case Serve => s.worker == Loop && s.running && s.socket
    case Leave => (s.worker == Loop || s.worker == Fresh) && !s.running
    case Dispatch => s.worker == Dispatching && s.mutex == Free
    case SendDone => s.worker.Sending? && |s.worker.request.payload| <= MAX_SIZE
    case SendRefused => s.worker.Sending? && (|s.worker.request.payload| > MAX_SIZE || !s.running)
    case SendBroken => s.worker.Sending? && |s.worker.request.payload| <= MAX_SIZE
    case FailSend => s.worker.Failing? && s.mutex == Free
    case PollQuiet => s.worker == Polling
    case PollData => s.worker == Polling && s.socket
    case PollLost => s.worker == Polling
    case Recv => s.worker == Receiving && s.running
    case Data(frames) => s.worker == InRecv && frames <= FramesPerRecv(s.maxPayload)
    case Frame(_, _) => s.worker == Parsing && s.unparsed > 0
    case Lookup => s.worker.Arrived? && s.mutex == Free
    case Note => s.worker.Detached?
    case Answer => s.worker.Answering?
    case ParseDone => s.worker == Parsing
    case Interrupted => s.worker == InRecv
    case ReceiveDone => s.worker == InRecv
    case ReceiveStopped => s.worker == Receiving && !s.running
    case ReceiveLost => s.worker == InRecv
    case Sample => s.worker == Expiring
    case Expire => s.worker.Checking? && s.mutex == Free
    case CloseSocket => s.worker.Closing?
    case TakeAll(order) => s.worker.Closed? && s.mutex == Free && Visits(order, s.inFlight)
    case FailNext => s.worker.Draining? && s.worker.held != []
    case ClearState => s.worker.Draining? && s.worker.held == []
  }

  /** A promise keeps the first value it is given; the order of the first values is recorded. */
  function Resolve(s: State, r: Request, reply: Reply): State {
    if r in s.resolved then s
    else s.(resolved := s.resolved[r := reply],
            settled := if r in s.acceptedOn && !r.priority then s.settled + [r] else s.settled)
  }

  /** Taking a request out of `in_flight_`. */
  function Remove(s: State, r: Request): State {
    s.(inFlight := s.inFlight - {r.id}, serving := if s.serving == [r] then [] else s.serving)
  }

  /** The first statement of `disconnect`. */
  function Drop(s: State, after: After): State {
    s.(connected := false, worker := Closing(after))
  }

  /** A request enters its queue. */
  function Enqueue(s: State, r: Request): State {
    var t := s.(acceptedOn := s.acceptedOn[r := Generation(s)]);
    if r.priority then t.(priorityQueue := s.priorityQueue + [r])
    else t.(queue := s.queue + [r], accepted := s.accepted + [r])
  }

  // ----- the effect of each step -----

  function Submitted(s: State, r: Request): State {
    s.(submitted := s.submitted + {r}, calls := s.calls[r := Created])
  }

  function CallLocked(s: State, r: Request): State {
    s.(mutex := Owned(r, s.connected), calls := s.calls[r := Locked])
  }

  /** The rest of the locked section of `command`. */
  function CallUnlocked(s: State, r: Request): State
    requires s.mutex.Owned?
  {
    if s.mutex.sawConnected then Enqueue(s, r).(mutex := Free, calls := s.calls[r := Returned])
    else s.(mutex := Free, calls := s.calls[r := Unqueued])
  }

  function CallFailed(s: State, r: Request): State {
    Resolve(s, r, FAILED).(calls := s.calls[r := Returned])
  }

  /** `queue_state_streaming`. */
  function Streaming(s: State, rs: seq<Request>): State {
    s.(submitted := s.submitted + (set r | r in rs),
       acceptedOn := s.acceptedOn + (map r | r in rs :: Generation(s)),
       queue := s.queue + rs,
       accepted := s.accepted + rs,
       worker := Dispatching)
  }

  function Launched(s: State, r: Request): State {
    s.(inFlight := s.inFlight[r.id := r],
       deadline := s.deadline[r := s.clock + r.timeout],
       worker := Sending(r))
  }

  /** The locked section of `dispatch_requests`. */
  function Dispatched(s: State): State {
    if s.priorityQueue != [] then
      var r := s.priorityQueue[0];
      if r.id in s.inFlight then s.(worker := Polling)
      else Launched(s.(priorityQueue := s.priorityQueue[1..]), r)
    else if s.inFlight == map[] && s.queue != [] then
      var r := s.queue[0];
      Launched(s.(queue := s.queue[1..], serving := [r]), r)
    else s.(worker := Polling)
  }

  function Sent(s: State, r: Request): seq<Transmission> {
    s.transmitted + [Transmission(r, Generation(s))]
  }

  /** The failure section of `dispatch_requests`. */
  function SendFailed(s: State, r: Request): State {
    Resolve(Remove(s, r), r, FAILED).(worker := Polling)
  }

  /** The locked section of `handle_frame`. */
  function LookedUp(s: State, id: Id, status: nat, payload: seq<byte>): State {
    if id !in s.inFlight then s.(worker := Parsing)
    else
      var r := s.inFlight[id];
      if r.allowPending && status == STATUS_COMMAND_PENDING then
        s.(deadline := s.deadline[r := s.clock + r.timeout], worker := Parsing)
      else Remove(s, r).(worker := Detached(r, status, payload))
  }

  function Answered(s: State, r: Request, reply: Reply): State {
    Resolve(s, r, reply).(broken := s.broken || r in s.resolved, worker := Parsing)
  }

  /** The locked section of `fail_all`. */
  function Taken(s: State, order: seq<Request>, after: After): State {
    s.(inFlight := map[], queue := [], priorityQueue := [], serving := [],
       worker := Draining(order + s.queue + s.priorityQueue, after))
  }

  function OneFailed(s: State, held: seq<Request>, after: After): State
    requires held != []
  {
    Resolve(s, held[0], FAILED).(worker := Draining(held[1..], after))
  }

  /** The end of `expire_requests`; `now` is when it read the clock. */
  function Examined(s: State, now: nat): State {
    if Expired(s, now) then Drop(s, ToLoop) else s.(sampled := now, worker := Loop)
  }

  function Resumed(s: State, after: After): State {
    match after
    case ToLoop => s.(worker := Loop)
    case ToFailure(r) => s.(worker := Failing(r))
    case ToExit => s.(worker := Exited)
  }

  function Apply(s: State, l: Step): State
    requires Enabled(s, l)
  {
    match l
    case Start => s.(running := true, worker := Loop)
    case Stop => s.(running := false)
    case Tick(n) => s.(clock := s.clock + n)
    case Submit(r) => Submitted(s, r)
    case CallLock(r) => CallLocked(s, r)
    case CallUnlock(r) => CallUnlocked(s, r)
    case CallFail(r) => CallFailed(s, r)
    case Dial => s.(worker := Dialing)
    case ConnectFails => s.(worker := Loop)
    case Connect => s.(socket := true, device := Connected(s.device), worker := Bumped)
    case Announce => s.(connected := true, sampled := s.clock, worker := Fresh)
    case Proceed => s.(worker := Subscribing)
    case Stream(rs) => Streaming(s, rs)
    case Serve => s.(worker := Dispatching)
    case Leave => Drop(s, ToExit)
    case Dispatch => Dispatched(s)
    case SendDone => s.(transmitted := Sent(s, s.worker.request), worker := Polling)
    case SendRefused =>
      // A transport that stops in the middle of a frame may have written part of it.
      s.(transmitted := if |s.worker.request.payload| > MAX_SIZE then s.transmitted else Sent(s, s.worker.request),
         worker := Failing(s.worker.request))
    case SendBroken =>
      Drop(s.(transmitted := Sent(s, s.worker.request)), ToFailure(s.worker.request))
    case FailSend => SendFailed(s, s.worker.request)
    case PollQuiet => s.(worker := Expiring)
    case PollData => s.(worker := Receiving)
    case PollLost => Drop(s, ToLoop)
    case Recv => s.(worker := InRecv)
    case Data(frames) => s.(unparsed := frames, worker := Parsing)
    case Frame(id, payload) =>
      var t := s.(unparsed := s.unparsed - 1);
      if |payload| < 2 then t
      else t.(device := Updated(s.device, id, Status(payload), payload),
              worker := Arrived(id, Status(payload), payload))
    case Lookup => LookedUp(s, s.worker.id, s.worker.status, s.worker.payload)
    case Note =>
      var Detached(r, status, payload) := s.worker;
      s.(device := s.device.(lastStatus := status), worker := Answering(r, Reply(true, status, payload)))
    case Answer => Answered(s, s.worker.request, s.worker.reply)
    case ParseDone => s.(worker := Receiving)
    case Interrupted => s.(worker := Receiving)
    case ReceiveDone => s.(worker := Expiring)
    case ReceiveStopped => s.(worker := Loop)
    case ReceiveLost => Drop(s, ToLoop)
    case Sample => s.(worker := Checking(s.clock))
    case Expire => Examined(s, s.worker.now)
    case CloseSocket => s.(socket := false, worker := Closed(s.worker.after))
    case TakeAll(order) => Taken(s, order, s.worker.after)
    case FailNext => OneFailed(s, s.worker.held, s.worker.after)
    case ClearState => Resumed(s.(device := Disconnected(s.device)), s.worker.after)
  }

  // ----- runs -----

  datatype Run = Run(states: seq<State>, steps: seq<Step>)

  ghost predicate ValidRun(run: Run) {
    && |run.states| == |run.steps| + 1
    && run.states[0] == Initially(run.states[0].maxPayload)
    && forall k :: 0 <= k < |run.steps| ==>
         Enabled(run.states[k], run.steps[k]) && run.states[k + 1] == Apply(run.states[k], run.steps[k])
  }
}
