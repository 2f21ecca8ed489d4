/** What a working connection does for a command that is made on it: the command is accepted, and only the device can
    fail it. */
module EngineConnection {
  import opened Crc
  import opened Frames
  import opened Device
  import opened Engine
  import opened EngineInvariant
  import opened EngineRuns
  import EngineEffects

  // ----- steps that leave calls and promises alone -----

  /** Nothing is resolved or accepted, the worker takes up nothing to resolve, and `connected_` only falls. */
  predicate Quiet(s: State, n: State) {
    && n.submitted == s.submitted && n.calls == s.calls && n.mutex == s.mutex && n.resolved == s.resolved
    && n.acceptedOn == s.acceptedOn && n.running == s.running
    && (n.connected == s.connected || (!n.connected && n.worker.Closing?))
    && (n.worker == s.worker || !(n.worker.Failing? || n.worker.Answering? || n.worker == Bumped))
  }

  lemma MoveIsQuiet(s: State, connected: bool, socket: bool, w: Worker, transmitted: seq<Transmission>, sampled: nat)
    requires connected == s.connected || (!connected && w.Closing?)
    requires !(w.Failing? || w.Answering? || w == Bumped)
    ensures Quiet(s, s.(connected := connected, socket := socket, worker := w, transmitted := transmitted,
                        sampled := sampled))
  {
  }

  lemma SendIsQuiet(s: State, l: Step)
    requires Enabled(s, l) && InSend(l) && !l.SendRefused?
    ensures Quiet(s, Apply(s, l))
  {
    hide Quiet, Engine.Sent;
    match l
    case SendDone => MoveIsQuiet(s, s.connected, s.socket, Polling, Engine.Sent(s, s.worker.request), s.sampled);
    case SendBroken =>
      var r := s.worker.request;
      MoveIsQuiet(s, false, s.socket, Closing(ToFailure(r)), Engine.Sent(s, r), s.sampled);
    case PollQuiet => MoveIsQuiet(s, s.connected, s.socket, Expiring, s.transmitted, s.sampled);
    case PollData => MoveIsQuiet(s, s.connected, s.socket, Receiving, s.transmitted, s.sampled);
    case PollLost => MoveIsQuiet(s, false, s.socket, Closing(ToLoop), s.transmitted, s.sampled);
  }

  lemma ParserIsQuiet(s: State, unparsed: nat, device: DeviceState, w: Worker)
    requires w == Parsing || w.Arrived?
    ensures Quiet(s, s.(unparsed := unparsed, worker := w))
    ensures Quiet(s, s.(unparsed := unparsed)) && Quiet(s, s.(unparsed := unparsed, device := device, worker := w))
  {
  }

  lemma FrameIsQuiet(s: State, id: Id, p: seq<byte>)
    requires Enabled(s, Step.Frame(id, p))
    ensures Quiet(s, Apply(s, Step.Frame(id, p)))
  {
    hide Quiet, Updated, Status;
    if |p| < 2 {
      ParserIsQuiet(s, s.unparsed - 1, s.device, Parsing);
    } else {
      ParserIsQuiet(s, s.unparsed - 1, Updated(s.device, id, Status(p), p), Arrived(id, Status(p), p));
    }
  }

  lemma DataIsQuiet(s: State, frames: nat)
    requires Enabled(s, Data(frames))
    ensures Quiet(s, Apply(s, Data(frames)))
  {
    hide Quiet, FramesPerRecv;
    ParserIsQuiet(s, frames, s.device, Parsing);
  }

  lemma ReceiveIsQuiet(s: State, l: Step)
    requires Enabled(s, l) && InReceive(l) && !l.Note?
    ensures Quiet(s, Apply(s, l))
  {
    hide Quiet, Updated, Status, FramesPerRecv;
    if l.Frame? {
      hide Enabled, Apply;
      FrameIsQuiet(s, l.id, l.payload);
    } else if l.Data? {
      hide Apply;
      DataIsQuiet(s, l.frames);
    } else {
      var w := if l.Recv? then InRecv else if l.ReceiveDone? then Expiring else if l.ReceiveStopped? then Loop
               else if l.ReceiveLost? then Closing(ToLoop) else Receiving;
      MoveIsQuiet(s, s.connected && !l.ReceiveLost?, s.socket, w, s.transmitted, s.sampled);
    }
  }

  lemma CloseIsQuiet(s: State, l: Step)
    requires Enabled(s, l) && InClose(l) && !l.ClearState?
    ensures Quiet(s, Apply(s, l))
  {
    hide Quiet, Expired;
    match l
    case Sample => MoveIsQuiet(s, s.connected, s.socket, Checking(s.clock), s.transmitted, s.sampled);
    case Expire =>
      MoveIsQuiet(s, false, s.socket, Closing(ToLoop), s.transmitted, s.sampled);
      MoveIsQuiet(s, s.connected, s.socket, Loop, s.transmitted, s.worker.now);
    case CloseSocket => MoveIsQuiet(s, s.connected, false, Closed(s.worker.after), s.transmitted, s.sampled);
  }

  lemma LaunchIsQuiet(s: State, queue: seq<Request>, priorityQueue: seq<Request>, serving: seq<Request>, r: Request)
    ensures Quiet(s, Launched(s.(queue := queue, priorityQueue := priorityQueue, serving := serving), r))
  {
  }

  lemma DispatchIsQuiet(s: State)
    ensures Quiet(s, Dispatched(s))
  {
    hide Launched, Quiet;
    MoveIsQuiet(s, s.connected, s.socket, Polling, s.transmitted, s.sampled);
    if s.priorityQueue != [] {
      LaunchIsQuiet(s, s.queue, s.priorityQueue[1..], s.serving, s.priorityQueue[0]);
    } else if s.queue != [] {
      LaunchIsQuiet(s, s.queue[1..], s.priorityQueue, [s.queue[0]], s.queue[0]);
    }
  }

  lemma PostponeIsQuiet(s: State, deadline: map<Request, nat>)
    ensures Quiet(s, s.(deadline := deadline, worker := Parsing))
  {
  }

  lemma DetachIsQuiet(s: State, r: Request, w: Worker)
    requires w.Detached?
    ensures Quiet(s, Remove(s, r).(worker := w))
  {
  }

  lemma LookupIsQuiet(s: State, id: Id, status: nat, payload: seq<byte>)
    ensures Quiet(s, LookedUp(s, id, status, payload))
  {
    hide Quiet, Remove;
    MoveIsQuiet(s, s.connected, s.socket, Parsing, s.transmitted, s.sampled);
    if id in s.inFlight {
      var r := s.inFlight[id];
      PostponeIsQuiet(s, s.deadline[r := s.clock + r.timeout]);
      DetachIsQuiet(s, r, Detached(r, status, payload));
    }
  }

  lemma TakeIsQuiet(s: State, order: seq<Request>, after: After)
    ensures Quiet(s, Taken(s, order, after))
  {
  }

  /** The worker's steps apart from those that resolve something and those between connections. */
  predicate Passes(l: Step) {
    || (InSend(l) && !l.SendRefused?) || (InReceive(l) && !l.Note?) || (InClose(l) && !l.ClearState?)
    || l.Dispatch? || l.Lookup? || l.TakeAll?
  }

  lemma PassingIsQuiet(s: State, l: Step)
    requires Enabled(s, l) && Passes(l)
    ensures Quiet(s, Apply(s, l))
  {
    hide Quiet;
    if InSend(l) {
      hide Enabled, Apply;
      SendIsQuiet(s, l);
    } else if InReceive(l) {
      hide Enabled, Apply;
      ReceiveIsQuiet(s, l);
    } else if InClose(l) {
      hide Enabled, Apply;
      CloseIsQuiet(s, l);
    } else {
      hide Visits, Dispatched, LookedUp, Taken;
      match l
      case Dispatch => DispatchIsQuiet(s);
      case Lookup => LookupIsQuiet(s, s.worker.id, s.worker.status, s.worker.payload);
      case TakeAll(order) => TakeIsQuiet(s, order, s.worker.after);
    }
  }

  // ----- how long a connection works -----

  /** Generation `g` takes commands, and the transport is not stopping. */
  predicate Working(e: State, g: nat) {
    Generation(e) == g && e.connected && e.running
  }

  /** Generation `g` will not take commands again, or is being stopped. */
  predicate Over(e: State, g: nat) {
    Generation(e) > g || (Generation(e) == g && (!e.running || (!e.connected && e.worker != Bumped)))
  }

  /** What a step does to the flags and to the place before the announcement. */
  predicate FlagsMove(s: State, l: Step, n: State) {
    && (n.running && !s.running ==> l == Start && s.worker == Exited && n.connected == s.connected)
    && (n.connected && !s.connected ==> l == Announce && s.worker == Bumped)
    && (!n.connected && s.connected ==> n.worker.Closing?)
    && (n.worker == Bumped && s.worker != Bumped ==> l == Connect)
  }

  lemma QuietFlags(s: State, l: Step, n: State)
    requires Quiet(s, n)
    ensures FlagsMove(s, l, n)
  {
  }

  lemma StreamFlags(s: State, rs: seq<Request>)
    requires Enabled(s, Stream(rs))
    ensures FlagsMove(s, Stream(rs), Streaming(s, rs))
  {
    hide IsStream;
  }

  lemma MoveFlags(s: State, l: Step, connected: bool, w: Worker)
    requires connected == s.connected || (!connected && w.Closing?)
    requires w != Bumped
    ensures FlagsMove(s, l, s.(connected := connected, worker := w))
  {
  }

  lemma PassageFlags(s: State, l: Step)
    requires Enabled(s, l) && (l.Dial? || l.ConnectFails? || l.Proceed? || l.Serve? || l.Leave?)
    ensures FlagsMove(s, l, Apply(s, l))
  {
    hide FlagsMove;
    match l
    case Dial => MoveFlags(s, l, s.connected, Dialing);
    case ConnectFails => MoveFlags(s, l, s.connected, Loop);
    case Proceed => MoveFlags(s, l, s.connected, Subscribing);
    case Serve => MoveFlags(s, l, s.connected, Dispatching);
    case Leave => MoveFlags(s, l, false, Closing(ToExit));
  }

  lemma LoopFlags(s: State, l: Step)
    requires Enabled(s, l) && InLoop(l)
    ensures FlagsMove(s, l, Apply(s, l))
  {
    hide Connected;
    if l.Dial? || l.ConnectFails? || l.Proceed? || l.Serve? || l.Leave? {
      hide FlagsMove;
      PassageFlags(s, l);
    }
  }

  lemma ResolveFlags(s: State, r: Request, reply: Reply)
    ensures var n := Resolve(s, r, reply);
            && n.running == s.running && n.connected == s.connected && n.worker == s.worker && n.calls == s.calls
            && n.mutex == s.mutex && n.submitted == s.submitted && n.acceptedOn == s.acceptedOn
  {
  }

  lemma EnqueueFlags(s: State, r: Request)
    ensures var n := Enqueue(s, r); n.running == s.running && n.connected == s.connected && n.worker == s.worker
  {
  }

  lemma UnlockFlags(s: State, r: Request)
    requires s.mutex.Owned?
    ensures FlagsMove(s, CallUnlock(r), CallUnlocked(s, r))
  {
    EnqueueFlags(s, r);
    hide Enqueue;
  }

  lemma CallFailFlags(s: State, r: Request)
    ensures FlagsMove(s, CallFail(r), CallFailed(s, r))
  {
    ResolveFlags(s, r, FAILED);
    hide Resolve;
  }

  lemma CallFlags(s: State, l: Step)
    requires Enabled(s, l) && (l.Submit? || l.CallLock? || l.CallUnlock? || l.CallFail?)
    ensures FlagsMove(s, l, Apply(s, l))
  {
    if l.CallUnlock? {
      hide FlagsMove, CallUnlocked;
      UnlockFlags(s, l.request);
    } else if l.CallFail? {
      hide FlagsMove, CallFailed;
      CallFailFlags(s, l.request);
    }
  }

  lemma SendFailedFlags(s: State, r: Request)
    ensures FlagsMove(s, FailSend, SendFailed(s, r))
  {
    ResolveFlags(Remove(s, r), r, FAILED);
    hide Resolve;
  }

  lemma OneFailedFlags(s: State, held: seq<Request>, after: After)
    requires held != []
    ensures FlagsMove(s, FailNext, OneFailed(s, held, after))
  {
    ResolveFlags(s, held[0], FAILED);
    hide Resolve;
  }

  lemma AnswerFlags(s: State, r: Request, reply: Reply)
    ensures FlagsMove(s, Answer, Answered(s, r, reply))
  {
    ResolveFlags(s, r, reply);
    hide Resolve;
  }

  lemma ResumedFlags(s: State, d: DeviceState, after: After)
    ensures FlagsMove(s, ClearState, Resumed(s.(device := d), after))
  {
  }

  /** The worker's steps that resolve something, or take it into the worker's hands to be resolved. */
  predicate Resolves(l: Step) {
    l.SendRefused? || l.FailSend? || l.Note? || l.Answer? || l.FailNext? || l.ClearState?
  }

  lemma PlaceFlags(s: State, l: Step)
    requires Enabled(s, l) && (l.SendRefused? || l.Note?)
    ensures FlagsMove(s, l, Apply(s, l))
  {
    hide Engine.Sent;
  }

  lemma ResolvingFlags(s: State, l: Step)
    requires Enabled(s, l) && Resolves(l)
    ensures FlagsMove(s, l, Apply(s, l))
  {
    hide SendFailed, Answered, OneFailed, Resumed, Disconnected, FlagsMove;
    if l.SendRefused? || l.Note? {
      hide Apply;
      PlaceFlags(s, l);
    } else if l.FailSend? {
      SendFailedFlags(s, s.worker.request);
    } else if l.Answer? {
      AnswerFlags(s, s.worker.request, s.worker.reply);
    } else if l.FailNext? {
      OneFailedFlags(s, s.worker.held, s.worker.after);
    } else if l.ClearState? {
      ResumedFlags(s, Disconnected(s.device), s.worker.after);
    }
  }

  lemma FlagsStep(s: State, l: Step)
    requires Enabled(s, l)
    ensures FlagsMove(s, l, Apply(s, l))
  {
    if l.Stream? {
      hide Streaming, FlagsMove;
      StreamFlags(s, l.requests);
    } else {
      hide Enabled, Apply, FlagsMove;
      if Passes(l) {
        PassingIsQuiet(s, l);
        QuietFlags(s, l, Apply(s, l));
      } else if InLoop(l) {
        LoopFlags(s, l);
      } else if Resolves(l) {
        ResolvingFlags(s, l);
      } else {
        CallFlags(s, l);
      }
    }
  }

  lemma ConnectedIsLinked(s: State)
    requires Inv(s)
    ensures s.worker == Exited || s.worker == Dialing ==> !s.connected
  {
    hide Conserved, Coherent, Dated, Ordered, Guarded, Tracked, Down;
  }

  lemma GenerationMoves(s: State, l: Step)
    requires Enabled(s, l)
    ensures Generation(Apply(s, l)) == (if l == Connect then Generation(s) + 1 else Generation(s))
    ensures l == Connect ==> s.worker == Dialing
  {
    hide Apply;
    EngineEffects.StepEvolves(s, l);
    hide EngineEffects.KeepsResolutions, EngineEffects.Logs, EngineEffects.Yields, EngineEffects.Settles,
        EngineEffects.Locks, EngineEffects.Brings;
  }

  lemma FlagsDecide(s: State, l: Step, n: State, g: nat)
    requires FlagsMove(s, l, n) && (s.worker == Exited || s.worker == Dialing ==> !s.connected)
    requires Generation(n) == (if l == Connect then Generation(s) + 1 else Generation(s))
    requires l == Connect ==> s.worker == Dialing
    ensures Working(s, g) ==> Working(n, g) || Over(n, g)
    ensures Over(s, g) ==> Over(n, g)
  {
  }

  /** A connection that works goes on working or is over for good. */
  lemma ConnectionStep(s: State, l: Step, g: nat)
    requires Inv(s) && Enabled(s, l)
    ensures Working(s, g) ==> Working(Apply(s, l), g) || Over(Apply(s, l), g)
    ensures Over(s, g) ==> Over(Apply(s, l), g)
  {
    hide Inv, Enabled, Apply, FlagsMove, Working, Over, Generation;
    ConnectedIsLinked(s);
    FlagsStep(s, l);
    GenerationMoves(s, l);
    FlagsDecide(s, l, Apply(s, l), g);
  }

  // ----- what becomes of a command -----

  /** Where a call can be that reads `connected_` as set; the command was accepted on `g` when it has returned. */
  predicate HeardCall(c: Call, mutex: Mutex, acceptedOn: map<Request, nat>, r: Request, g: nat) {
    match c
    case Created => true
    case Locked => mutex == Owned(r, true)
    case Unqueued => false
    case Returned => r in acceptedOn && acceptedOn[r] == g
  }

  /** The worker is not about to fail the request. */
  predicate Spares(w: Worker, r: Request) {
    w != Failing(r) && (w.Answering? && w.request == r ==> w.reply.transportOk)
  }

  /** The command fits a frame, its call is one that is accepted on `g`, and if it is resolved, then by the device. */
  predicate Heard(e: State, r: Request, g: nat) {
    && r in e.submitted && r in e.calls && |r.payload| <= MAX_SIZE
    && HeardCall(e.calls[r], e.mutex, e.acceptedOn, r, g)
    && (r in e.resolved ==> e.resolved[r].transportOk) && Spares(e.worker, r)
  }

  lemma HeardAtFirst(e: State, r: Request, g: nat)
    requires Inv(e) && r !in e.submitted && |r.payload| <= MAX_SIZE
    ensures Heard(Submitted(e, r), r, g)
  {
    EngineSteps.OnePlace(e, r);
    hide Conserved, Linked, Coherent, Dated, Ordered, Guarded, Down;
  }

  lemma HeardInSubmit(s: State, q: Request, r: Request, g: nat)
    requires q !in s.submitted && Heard(s, r, g)
    ensures Heard(Submitted(s, q), r, g)
  {
  }

  lemma HeardInLock(s: State, q: Request, r: Request, g: nat)
    requires s.mutex == Free && Heard(s, r, g) && s.connected
    ensures Heard(CallLocked(s, q), r, g)
  {
  }

  lemma EnqueueAccepts(s: State, r: Request)
    ensures var n := Enqueue(s, r);
            && n.acceptedOn == s.acceptedOn[r := Generation(s)] && n.submitted == s.submitted && n.calls == s.calls
            && n.resolved == s.resolved && n.worker == s.worker
  {
  }

  lemma UnlockAccepts(s: State, r: Request)
    requires s.mutex.Owned?
    ensures var n := CallUnlocked(s, r);
            && n.submitted == s.submitted && n.resolved == s.resolved && n.worker == s.worker
            && n.calls == s.calls[r := if s.mutex.sawConnected then Returned else Unqueued]
            && n.acceptedOn == if s.mutex.sawConnected then s.acceptedOn[r := Generation(s)] else s.acceptedOn
  {
    EnqueueAccepts(s, r);
    hide Enqueue;
  }

  lemma HeardUnlocked(s: State, n: State, q: Request, r: Request, g: nat)
    requires s.mutex.Owned? && s.mutex.owner == q && IsCall(s, q, Locked) && Heard(s, r, g)
    requires n.submitted == s.submitted && n.resolved == s.resolved && n.worker == s.worker
    requires n.calls == s.calls[q := if s.mutex.sawConnected then Returned else Unqueued]
    requires n.acceptedOn == if s.mutex.sawConnected then s.acceptedOn[q := g] else s.acceptedOn
    ensures Heard(n, r, g)
  {
    hide Spares;
  }

  lemma HeardInUnlock(s: State, q: Request, r: Request, g: nat)
    requires s.mutex.Owned? && s.mutex.owner == q && IsCall(s, q, Locked) && Heard(s, r, g) && Generation(s) == g
    ensures Heard(CallUnlocked(s, q), r, g)
  {
    hide CallUnlocked, Heard;
    UnlockAccepts(s, q);
    HeardUnlocked(s, CallUnlocked(s, q), q, r, g);
  }

  /** Resolving something else, or this by the device. */
  lemma HeardInResolve(s: State, q: Request, reply: Reply, r: Request, g: nat)
    requires Heard(s, r, g) && (q != r || reply.transportOk)
    ensures Heard(Resolve(s, q, reply), r, g)
  {
    ResolveFlags(s, q, reply);
  }

  lemma HeardInFail(s: State, q: Request, r: Request, g: nat)
    requires IsCall(s, q, Unqueued) && Heard(s, r, g)
    ensures Heard(CallFailed(s, q), r, g)
  {
    HeardInResolve(s, q, FAILED, r, g);
    ResolveFlags(s, q, FAILED);
    hide Resolve;
  }

  lemma HeardInCalls(s: State, l: Step, r: Request, g: nat)
    requires Enabled(s, l) && Heard(s, r, g) && Working(s, g)
    requires l.Submit? || l.CallLock? || l.CallUnlock? || l.CallFail?
    ensures Heard(Apply(s, l), r, g)
  {
    hide Heard, Submitted, CallLocked, CallUnlocked, CallFailed;
    match l
    case Submit(q) => HeardInSubmit(s, q, r, g);
    case CallLock(q) => HeardInLock(s, q, r, g);
    case CallUnlock(q) => HeardInUnlock(s, q, r, g);
    case CallFail(q) => HeardInFail(s, q, r, g);
  }

  /** With the calls, the mutex, the acceptances and the resolutions as they were. */
  lemma HeardElsewhere(s: State, n: State, r: Request, g: nat)
    requires Heard(s, r, g) && s.submitted <= n.submitted && n.calls == s.calls && n.mutex == s.mutex
    requires r in s.acceptedOn ==> r in n.acceptedOn && n.acceptedOn[r] == s.acceptedOn[r]
    requires n.resolved == s.resolved && Spares(n.worker, r)
    ensures Heard(n, r, g)
  {
    hide Spares;
  }

  lemma HeardInQuiet(s: State, n: State, r: Request, g: nat)
    requires Heard(s, r, g) && Quiet(s, n)
    ensures Heard(n, r, g)
  {
    HeardElsewhere(s, n, r, g);
  }

  lemma HeardInStream(s: State, rs: seq<Request>, r: Request, g: nat)
    requires Heard(s, r, g) && IsStream(s, rs)
    ensures Heard(Streaming(s, rs), r, g)
  {
    HeardElsewhere(s, Streaming(s, rs), r, g);
  }

  /** The worker moves on between connections. */
  lemma HeardMoves(s: State, running: bool, connected: bool, socket: bool, d: DeviceState, w: Worker, clock: nat,
                   sampled: nat, r: Request, g: nat)
    requires Heard(s, r, g) && Spares(w, r)
    ensures Heard(s.(running := running, connected := connected, socket := socket, device := d, worker := w,
                     clock := clock, sampled := sampled), r, g)
  {
    hide Spares, HeardCall;
  }

  lemma HeardInPassage(s: State, l: Step, r: Request, g: nat)
    requires Enabled(s, l) && Heard(s, r, g)
    requires l.Dial? || l.ConnectFails? || l.Connect? || l.Announce? || l.Proceed? || l.Serve? || l.Leave?
    ensures Heard(Apply(s, l), r, g)
  {
    hide Heard, Connected;
    var d := s.device;
    match l
    case Dial => HeardMoves(s, s.running, s.connected, s.socket, d, Dialing, s.clock, s.sampled, r, g);
    case ConnectFails => HeardMoves(s, s.running, s.connected, s.socket, d, Loop, s.clock, s.sampled, r, g);
    case Connect => HeardMoves(s, s.running, s.connected, true, Connected(d), Bumped, s.clock, s.sampled, r, g);
    case Announce => HeardMoves(s, s.running, true, s.socket, d, Worker.Fresh, s.clock, s.clock, r, g);
    case Proceed => HeardMoves(s, s.running, s.connected, s.socket, d, Subscribing, s.clock, s.sampled, r, g);
    case Serve => HeardMoves(s, s.running, s.connected, s.socket, d, Dispatching, s.clock, s.sampled, r, g);
    case Leave => HeardMoves(s, s.running, false, s.socket, d, Closing(ToExit), s.clock, s.sampled, r, g);
  }

  lemma HeardSpares(s: State, r: Request, g: nat)
    requires Heard(s, r, g)
    ensures Spares(s.worker, r)
  {
  }

  lemma HeardInLoop(s: State, l: Step, r: Request, g: nat)
    requires Enabled(s, l) && InLoop(l) && Heard(s, r, g)
    ensures Heard(Apply(s, l), r, g)
  {
    HeardSpares(s, r, g);
    hide Heard;
    match l
    case Start => HeardMoves(s, true, s.connected, s.socket, s.device, Loop, s.clock, s.sampled, r, g);
    case Stop => HeardMoves(s, false, s.connected, s.socket, s.device, s.worker, s.clock, s.sampled, r, g);
    case Tick(n) =>
      HeardMoves(s, s.running, s.connected, s.socket, s.device, s.worker, s.clock + n, s.sampled, r, g);
    case _ =>
      hide Enabled, Apply;
      HeardInPassage(s, l, r, g);
  }

  lemma HeardInRefusal(s: State, r: Request, g: nat)
    requires Enabled(s, SendRefused) && Heard(s, r, g) && s.running
    ensures Heard(Apply(s, SendRefused), r, g)
  {
    HeardElsewhere(s, Apply(s, SendRefused), r, g);
  }

  lemma HeardInFailSend(s: State, q: Request, r: Request, g: nat)
    requires s.worker == Failing(q) && Heard(s, r, g)
    ensures Heard(SendFailed(s, q), r, g)
  {
    HeardElsewhere(s, Remove(s, q), r, g);
    HeardInResolve(Remove(s, q), q, FAILED, r, g);
    hide Resolve, Heard;
    HeardElsewhere(Resolve(Remove(s, q), q, FAILED), SendFailed(s, q), r, g);
  }

  lemma HeardInNote(s: State, r: Request, g: nat)
    requires s.worker.Detached? && Heard(s, r, g)
    ensures Heard(Apply(s, Note), r, g)
  {
    HeardElsewhere(s, Apply(s, Note), r, g);
    hide Heard;
  }

  lemma HeardInAnswer(s: State, q: Request, reply: Reply, r: Request, g: nat)
    requires s.worker == Answering(q, reply) && Heard(s, r, g)
    ensures Heard(Answered(s, q, reply), r, g)
  {
    HeardInResolve(s, q, reply, r, g);
    hide Resolve, Heard;
    HeardElsewhere(Resolve(s, q, reply), Answered(s, q, reply), r, g);
  }

  lemma NotClosing(s: State, l: Step)
    requires Inv(s) && s.connected && Enabled(s, l)
    ensures !l.FailNext? && !l.ClearState?
  {
    hide Conserved, Coherent, Dated, Ordered, Guarded, Tracked, Down;
  }

  lemma HeardInWorker(s: State, l: Step, r: Request, g: nat)
    requires Enabled(s, l) && Heard(s, r, g) && Working(s, g) && Resolves(l) && !l.FailNext? && !l.ClearState?
    ensures Heard(Apply(s, l), r, g)
  {
    hide Heard, SendFailed, Answered;
    if l.SendRefused? {
      hide Apply;
      HeardInRefusal(s, r, g);
    } else if l.FailSend? {
      HeardInFailSend(s, s.worker.request, r, g);
    } else if l.Note? {
      hide Apply;
      HeardInNote(s, r, g);
    } else {
      HeardInAnswer(s, s.worker.request, s.worker.reply, r, g);
    }
  }

  /** While the connection works, every step keeps a command heard. */
  lemma HeardStep(s: State, l: Step, r: Request, g: nat)
    requires Inv(s) && Enabled(s, l) && Heard(s, r, g) && Working(s, g)
    ensures Heard(Apply(s, l), r, g)
  {
    NotClosing(s, l);
    hide Inv, Heard;
    if l.Stream? {
      hide Streaming, IsStream;
      HeardInStream(s, l.requests, r, g);
    } else {
      hide Enabled, Apply;
      if Passes(l) {
        PassingIsQuiet(s, l);
        HeardInQuiet(s, Apply(s, l), r, g);
      } else if InLoop(l) {
        HeardInLoop(s, l, r, g);
      } else if Resolves(l) {
        HeardInWorker(s, l, r, g);
      } else {
        HeardInCalls(s, l, r, g);
      }
    }
  }
}
