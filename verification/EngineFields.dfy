/** Which steps change which fields, and which take the worker to the places where it has a request in hand. */
module EngineFields {
  import opened Crc
  import opened Frames
  import opened Device
  import opened Engine
  import opened EngineRuns

  predicate Sends(l: Step) { l.SendDone? || l.SendRefused? || l.SendBroken? }

  /** The worker takes a request in hand, and lets go of it, and begins to disconnect, only by the steps meant for
      that. */
  predicate Hands(w: Worker, l: Step, w': Worker) {
    w' != w ==>
      && (w'.Sending? ==> l.Dispatch?) && (w.Sending? ==> Sends(l))
      && (w'.Failing? ==> l.SendRefused? || l.ClearState?) && (w.Failing? ==> l.FailSend?)
      && (w'.Arrived? ==> l.Frame?) && (w.Arrived? ==> l.Lookup?)
      && (w'.Detached? ==> l.Lookup?) && (w.Detached? ==> l.Note?)
      && (w'.Answering? ==> l.Note?) && (w.Answering? ==> l.Answer?)
      && (w'.Closing? ==> l.SendBroken? || l.PollLost? || l.ReceiveLost? || l.Expire? || l.Leave?)
  }

  predicate Keeps(s: State, l: Step, n: State) {
    && Hands(s.worker, l, n.worker)
    && (!l.CallUnlock? && !l.Dispatch? && !l.TakeAll? ==> n.priorityQueue == s.priorityQueue)
    && (!l.CallUnlock? && !l.Stream? && !l.Dispatch? && !l.TakeAll? ==> n.queue == s.queue)
    && (!l.Dispatch? && !l.FailSend? && !l.Lookup? && !l.TakeAll? ==> n.inFlight == s.inFlight)
    && (!l.CallFail? && !l.FailSend? && !l.Answer? && !l.FailNext? ==> n.resolved == s.resolved)
    && (!l.CallUnlock? && !l.Stream? ==> n.acceptedOn == s.acceptedOn)
    && (!Sends(l) ==> n.transmitted == s.transmitted)
    && (!l.Connect? && !l.Frame? && !l.Note? && !l.ClearState? ==> n.device == s.device)
    && (!l.Submit? && !l.Stream? ==> n.submitted == s.submitted)
    && (!l.Dispatch? && !l.Lookup? ==> n.deadline == s.deadline)
    && (if l.Tick? then n.clock == s.clock + l.elapsed else n.clock == s.clock)
  }

  lemma MoveKeeps(s: State, l: Step, running: bool, connected: bool, socket: bool, w: Worker, clock: nat, sampled: nat,
                  unparsed: nat)
    requires Hands(s.worker, l, w) && clock == (if l.Tick? then s.clock + l.elapsed else s.clock)
    ensures Keeps(s, l, s.(running := running, connected := connected, socket := socket, worker := w, clock := clock,
                           sampled := sampled, unparsed := unparsed))
  {
    hide Hands;
  }

  /** The worker alone moves. */
  lemma WorkerKeeps(s: State, l: Step, w: Worker)
    requires Hands(s.worker, l, w) && !l.Tick?
    ensures Keeps(s, l, s.(worker := w))
  {
    hide Hands, Keeps;
    MoveKeeps(s, l, s.running, s.connected, s.socket, w, s.clock, s.sampled, s.unparsed);
  }

  lemma DropKeeps(s: State, l: Step, after: After)
    requires Hands(s.worker, l, Closing(after)) && !l.Tick?
    ensures Keeps(s, l, Drop(s, after))
  {
    hide Hands, Keeps;
    MoveKeeps(s, l, s.running, false, s.socket, Closing(after), s.clock, s.sampled, s.unparsed);
  }

  lemma DeviceKeeps(s: State, l: Step, socket: bool, d: DeviceState, w: Worker, unparsed: nat)
    requires Hands(s.worker, l, w) && (l.Connect? || l.Frame? || l.Note? || l.ClearState?)
    ensures Keeps(s, l, s.(socket := socket, device := d, worker := w, unparsed := unparsed))
  {
    hide Hands;
  }

  lemma SentKeeps(s: State, l: Step, connected: bool, w: Worker, transmitted: seq<Transmission>)
    requires Hands(s.worker, l, w) && Sends(l)
    ensures Keeps(s, l, s.(connected := connected, worker := w, transmitted := transmitted))
  {
    hide Hands;
  }

  lemma ResolvedKeeps(s: State, l: Step, r: Request, reply: Reply)
    requires l.CallFail? || l.FailSend? || l.Answer? || l.FailNext?
    ensures Keeps(s, l, Resolve(s, r, reply))
  {
  }

  // ----- client threads -----

  lemma CallFailKeeps(s: State, r: Request)
    ensures Keeps(s, CallFail(r), CallFailed(s, r))
  {
    ResolvedKeeps(s, CallFail(r), r, FAILED);
    hide Resolve;
  }

  lemma EnqueueKeeps(s: State, r: Request)
    ensures Keeps(s, CallUnlock(r), Enqueue(s, r))
  {
  }

  lemma ReturnKeeps(s: State, n: State, l: Step, calls: map<Request, Call>)
    requires Keeps(s, l, n)
    ensures Keeps(s, l, n.(mutex := Free, calls := calls))
  {
    hide Hands;
  }

  lemma CallUnlockKeeps(s: State, r: Request)
    requires s.mutex.Owned?
    ensures Keeps(s, CallUnlock(r), CallUnlocked(s, r))
  {
    hide Keeps, Enqueue;
    if s.mutex.sawConnected {
      EnqueueKeeps(s, r);
      ReturnKeeps(s, Enqueue(s, r), CallUnlock(r), s.calls[r := Returned]);
    } else {
      WorkerKeeps(s, CallUnlock(r), s.worker);
      ReturnKeeps(s, s, CallUnlock(r), s.calls[r := Unqueued]);
    }
  }

  lemma ClientKeeps(s: State, l: Step)
    requires Enabled(s, l) && (l.Submit? || l.CallLock? || l.CallUnlock? || l.CallFail?)
    ensures Keeps(s, l, Apply(s, l))
  {
    if l.CallUnlock? {
      hide Keeps, CallUnlocked;
      CallUnlockKeeps(s, l.request);
    } else if l.CallFail? {
      hide Keeps, CallFailed;
      CallFailKeeps(s, l.request);
    }
  }

  // ----- the worker -----

  lemma LoopKeeps(s: State, l: Step)
    requires Enabled(s, l) && InLoop(l)
    ensures Keeps(s, l, Apply(s, l))
  {
    hide Keeps, Connected;
    match l
    case Start => MoveKeeps(s, l, true, s.connected, s.socket, Loop, s.clock, s.sampled, s.unparsed);
    case Stop => MoveKeeps(s, l, false, s.connected, s.socket, s.worker, s.clock, s.sampled, s.unparsed);
    case Tick(n) => MoveKeeps(s, l, s.running, s.connected, s.socket, s.worker, s.clock + n, s.sampled, s.unparsed);
    case Dial => WorkerKeeps(s, l, Dialing);
    case ConnectFails => WorkerKeeps(s, l, Loop);
    case Connect => DeviceKeeps(s, l, true, Connected(s.device), Bumped, s.unparsed);
    case Announce => MoveKeeps(s, l, s.running, true, s.socket, Fresh, s.clock, s.clock, s.unparsed);
    case Proceed => WorkerKeeps(s, l, Subscribing);
    case Serve => WorkerKeeps(s, l, Dispatching);
    case Leave => DropKeeps(s, l, ToExit);
  }

  lemma SendKeeps(s: State, l: Step)
    requires Enabled(s, l) && InSend(l)
    ensures Keeps(s, l, Apply(s, l))
  {
    hide Keeps, Sent;
    match l
    case SendDone => SentKeeps(s, l, s.connected, Polling, Sent(s, s.worker.request));
    case SendRefused =>
      var r := s.worker.request;
      SentKeeps(s, l, s.connected, Failing(r), if |r.payload| > MAX_SIZE then s.transmitted else Sent(s, r));
    case SendBroken =>
      var r := s.worker.request;
      SentKeeps(s, l, false, Closing(ToFailure(r)), Sent(s, r));
    case PollQuiet => WorkerKeeps(s, l, Expiring);
    case PollData => WorkerKeeps(s, l, Receiving);
    case PollLost => DropKeeps(s, l, ToLoop);
  }

  lemma FrameKeeps(s: State, id: Id, p: seq<byte>)
    requires Enabled(s, Step.Frame(id, p))
    ensures Keeps(s, Step.Frame(id, p), Apply(s, Step.Frame(id, p)))
  {
    hide Keeps, Updated, Status;
    if |p| < 2 {
      MoveKeeps(s, Step.Frame(id, p), s.running, s.connected, s.socket, s.worker, s.clock, s.sampled, s.unparsed - 1);
    } else {
      DeviceKeeps(s, Step.Frame(id, p), s.socket, Updated(s.device, id, Status(p), p), Arrived(id, Status(p), p),
                  s.unparsed - 1);
    }
  }

  lemma NoteKeeps(s: State, r: Request, status: nat, payload: seq<byte>)
    requires s.worker == Detached(r, status, payload)
    ensures Keeps(s, Note, s.(device := s.device.(lastStatus := status),
                              worker := Answering(r, Reply(true, status, payload))))
  {
    hide Keeps;
    DeviceKeeps(s, Note, s.socket, s.device.(lastStatus := status), Answering(r, Reply(true, status, payload)),
                s.unparsed);
  }

  lemma StopsReceivingKeeps(s: State, l: Step)
    requires Enabled(s, l) && (l.Interrupted? || l.ReceiveDone? || l.ReceiveStopped? || l.ReceiveLost?)
    ensures Keeps(s, l, Apply(s, l))
  {
    hide Keeps;
    match l
    case Interrupted => WorkerKeeps(s, l, Receiving);
    case ReceiveDone => WorkerKeeps(s, l, Expiring);
    case ReceiveStopped => WorkerKeeps(s, l, Loop);
    case ReceiveLost => DropKeeps(s, l, ToLoop);
  }

  lemma ReceivesKeeps(s: State, l: Step)
    requires Enabled(s, l) && (l.Recv? || l.Data? || l.ParseDone?)
    ensures Keeps(s, l, Apply(s, l))
  {
    hide Keeps, FramesPerRecv;
    match l
    case Recv => WorkerKeeps(s, l, InRecv);
    case Data(frames) =>
      MoveKeeps(s, l, s.running, s.connected, s.socket, Parsing, s.clock, s.sampled, frames);
    case ParseDone => WorkerKeeps(s, l, Receiving);
  }

  lemma ReceiveKeeps(s: State, l: Step)
    requires Enabled(s, l) && InReceive(l)
    ensures Keeps(s, l, Apply(s, l))
  {
    hide Keeps;
    if l.Note? {
      NoteKeeps(s, s.worker.request, s.worker.status, s.worker.payload);
    } else {
      hide Enabled, Apply;
      if l.Frame? {
        FrameKeeps(s, l.id, l.payload);
      } else if l.Interrupted? || l.ReceiveDone? || l.ReceiveStopped? || l.ReceiveLost? {
        StopsReceivingKeeps(s, l);
      } else {
        ReceivesKeeps(s, l);
      }
    }
  }

  lemma ExamineKeeps(s: State, now: nat)
    requires s.worker == Checking(now)
    ensures Keeps(s, Expire, Examined(s, now))
  {
    hide Keeps, Expired;
    DropKeeps(s, Expire, ToLoop);
    MoveKeeps(s, Expire, s.running, s.connected, s.socket, Loop, s.clock, now, s.unparsed);
  }

  lemma ClearKeeps(s: State, d: DeviceState, after: After)
    requires s.worker == Draining([], after)
    ensures Keeps(s, ClearState, Resumed(s.(device := d), after))
  {
    hide Keeps;
    var w := match after case ToLoop => Loop case ToFailure(r) => Failing(r) case ToExit => Exited;
    DeviceKeeps(s, ClearState, s.socket, d, w, s.unparsed);
  }

  lemma CloseKeeps(s: State, l: Step)
    requires Enabled(s, l) && InClose(l)
    ensures Keeps(s, l, Apply(s, l))
  {
    hide Keeps, Examined, Resumed, Disconnected;
    match l
    case Sample => WorkerKeeps(s, l, Checking(s.clock));
    case Expire => ExamineKeeps(s, s.worker.now);
    case CloseSocket =>
      MoveKeeps(s, l, s.running, s.connected, false, Closed(s.worker.after), s.clock, s.sampled, s.unparsed);
    case ClearState => ClearKeeps(s, Disconnected(s.device), s.worker.after);
  }

  // ----- the containers -----

  lemma StreamKeeps(s: State, rs: seq<Request>)
    requires s.worker == Subscribing
    ensures Keeps(s, Stream(rs), Streaming(s, rs))
  {
  }

  lemma LaunchKeeps(s: State, queue: seq<Request>, priorityQueue: seq<Request>, serving: seq<Request>, r: Request)
    requires s.worker == Dispatching
    ensures Keeps(s, Dispatch,
                  Launched(s.(queue := queue, priorityQueue := priorityQueue, serving := serving), r))
  {
  }

  lemma DispatchKeeps(s: State)
    requires s.worker == Dispatching
    ensures Keeps(s, Dispatch, Dispatched(s))
  {
    hide Keeps, Launched;
    WorkerKeeps(s, Dispatch, Polling);
    if s.priorityQueue != [] {
      LaunchKeeps(s, s.queue, s.priorityQueue[1..], s.serving, s.priorityQueue[0]);
    } else if s.queue != [] {
      LaunchKeeps(s, s.queue[1..], s.priorityQueue, [s.queue[0]], s.queue[0]);
    }
  }

  lemma RemoveKeeps(s: State, l: Step, r: Request, w: Worker)
    requires (l.FailSend? || l.Lookup?) && Hands(s.worker, l, w)
    ensures Keeps(s, l, Remove(s, r).(worker := w))
  {
    hide Hands;
  }

  lemma FailSendKeeps(s: State, r: Request)
    requires s.worker == Failing(r)
    ensures Keeps(s, FailSend, SendFailed(s, r))
  {
    ResolvedKeeps(Remove(s, r), FailSend, r, FAILED);
    hide Resolve;
  }

  lemma PostponeKeeps(s: State, deadline: map<Request, nat>)
    requires s.worker.Arrived?
    ensures Keeps(s, Lookup, s.(deadline := deadline, worker := Parsing))
  {
  }

  lemma LookupKeeps(s: State, id: Id, status: nat, payload: seq<byte>)
    requires s.worker == Arrived(id, status, payload)
    ensures Keeps(s, Lookup, LookedUp(s, id, status, payload))
  {
    hide Keeps, Remove;
    WorkerKeeps(s, Lookup, Parsing);
    if id in s.inFlight {
      var r := s.inFlight[id];
      PostponeKeeps(s, s.deadline[r := s.clock + r.timeout]);
      RemoveKeeps(s, Lookup, r, Detached(r, status, payload));
    }
  }

  lemma AnswerKeeps(s: State, r: Request, reply: Reply)
    requires s.worker == Answering(r, reply)
    ensures Keeps(s, Answer, Answered(s, r, reply))
  {
    ResolvedKeeps(s, Answer, r, reply);
    hide Resolve;
  }

  lemma TakeKeeps(s: State, order: seq<Request>, after: After)
    requires s.worker == Closed(after)
    ensures Keeps(s, TakeAll(order), Taken(s, order, after))
  {
  }

  lemma FailNextKeeps(s: State, held: seq<Request>, after: After)
    requires s.worker == Draining(held, after) && held != []
    ensures Keeps(s, FailNext, OneFailed(s, held, after))
  {
    ResolvedKeeps(s, FailNext, held[0], FAILED);
    hide Resolve;
  }

  lemma ContainerKeeps(s: State, l: Step)
    requires Enabled(s, l)
    requires l.Stream? || l.Dispatch? || l.FailSend? || l.Lookup? || l.Answer? || l.TakeAll? || l.FailNext?
    ensures Keeps(s, l, Apply(s, l))
  {
    hide Keeps, IsStream, Visits, Streaming, Dispatched, SendFailed, LookedUp, Answered, Taken, OneFailed;
    match l
    case Stream(rs) => StreamKeeps(s, rs);
    case Dispatch => DispatchKeeps(s);
    case FailSend => FailSendKeeps(s, s.worker.request);
    case Lookup => LookupKeeps(s, s.worker.id, s.worker.status, s.worker.payload);
    case Answer => AnswerKeeps(s, s.worker.request, s.worker.reply);
    case TakeAll(order) => TakeKeeps(s, order, s.worker.after);
    case FailNext => FailNextKeeps(s, s.worker.held, s.worker.after);
  }

  lemma StepKeeps(s: State, l: Step)
    requires Enabled(s, l)
    ensures Keeps(s, l, Apply(s, l))
  {
    hide Keeps, Enabled, Apply;
    if l.Submit? || l.CallLock? || l.CallUnlock? || l.CallFail? {
      ClientKeeps(s, l);
    } else if InLoop(l) {
      LoopKeeps(s, l);
    } else if InSend(l) {
      SendKeeps(s, l);
    } else if InReceive(l) {
      ReceiveKeeps(s, l);
    } else if InClose(l) {
      CloseKeeps(s, l);
    } else {
      ContainerKeeps(s, l);
    }
  }
}
