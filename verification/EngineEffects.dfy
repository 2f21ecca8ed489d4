/** What one step can do to the histories of the engine, whatever state it starts from. */
module EngineEffects {
  import opened Crc
  import opened Frames
  import opened Device
  import opened Engine
  import opened EngineInvariant

  /** Resolutions are final. */
  predicate KeepsResolutions(before: map<Request, Reply>, after: map<Request, Reply>) {
    forall r :: r in before ==> r in after && after[r] == before[r]
  }

  /** The step accepts ordinary requests, or settles one, but not both. */
  predicate Logs(accepted: seq<Request>, settled: seq<Request>, accepted': seq<Request>, settled': seq<Request>) {
    || (settled' == settled && accepted <= accepted')
    || (|settled'| == |settled| + 1 && settled <= settled' && accepted' == accepted)
  }

  /** While priority requests wait, no ordinary request enters flight. */
  predicate Yields(priorityQueue: seq<Request>, serving: seq<Request>, serving': seq<Request>) {
    priorityQueue != [] ==> forall q :: q in serving' ==> q in serving
  }

  /** Only connecting starts a generation or publishes a connection. */
  predicate Published(d: DeviceState, d': DeviceState, connects: bool) {
    if connects then d'.connectionGeneration == d.connectionGeneration + 1 && d'.connected
    else d'.connectionGeneration == d.connectionGeneration && (d'.connected ==> d.connected)
  }

  /** Apart from submissions, `command` calls only get on. */
  ghost predicate Settles(before: map<Request, Call>, after: map<Request, Call>) {
    forall r :: CallRank(after, r) <= CallRank(before, r)
  }

  /** A call that is between locking and unlocking the queue mutex owns it. */
  predicate Locks(calls: map<Request, Call>, mutex: Mutex) {
    forall r :: r in calls && calls[r] == Locked ==> mutex.Owned? && mutex.owner == r
  }

  /** Apart from submissions, only the worker's own requests are new, and they are ordinary. */
  predicate Brings(before: set<Request>, after: set<Request>) {
    forall r :: r in after && r !in before ==> r.internal && !r.priority
  }

  ghost predicate Evolves(s: State, n: State, connects: bool, submits: bool) {
    && KeepsResolutions(s.resolved, n.resolved)
    && Logs(s.accepted, s.settled, n.accepted, n.settled)
    && Yields(s.priorityQueue, s.serving, n.serving)
    && Published(s.device, n.device, connects)
    && s.submitted <= n.submitted
    && (!submits ==> Settles(s.calls, n.calls) && Brings(s.submitted, n.submitted))
    && (Locks(s.calls, s.mutex) ==> Locks(n.calls, n.mutex))
  }

  lemma Unchanged(s: State)
    ensures KeepsResolutions(s.resolved, s.resolved) && Logs(s.accepted, s.settled, s.accepted, s.settled)
    ensures Yields(s.priorityQueue, s.serving, s.serving) && Published(s.device, s.device, false)
    ensures forall r :: s.submitted <= s.submitted + {r}
    ensures s.submitted <= s.submitted && Settles(s.calls, s.calls) && Brings(s.submitted, s.submitted)
  {
  }

  lemma CallMoves(calls: map<Request, Call>, r: Request, c: Call)
    requires CallRank(map[r := c], r) <= CallRank(calls, r)
    ensures Settles(calls, calls[r := c])
  {
  }

  lemma LockMoves(calls: map<Request, Call>, mutex: Mutex, r: Request, sawConnected: bool)
    requires Locks(calls, mutex)
    ensures mutex == Free ==> Locks(calls[r := Locked], Owned(r, sawConnected))
    ensures mutex.Owned? && mutex.owner == r ==> Locks(calls[r := Returned], Free) && Locks(calls[r := Unqueued], Free)
    ensures Locks(calls[r := Returned], mutex) && Locks(calls[r := Created], mutex)
  {
  }

  lemma OneMore(resolved: map<Request, Reply>, r: Request, reply: Reply, accepted: seq<Request>, settled: seq<Request>)
    ensures r !in resolved ==> KeepsResolutions(resolved, resolved[r := reply])
    ensures Logs(accepted, settled, accepted, settled + [r])
  {
    assert settled <= settled + [r];
  }

  lemma ResolveEvolves(s: State, r: Request, reply: Reply)
    ensures var n := Resolve(s, r, reply);
            && KeepsResolutions(s.resolved, n.resolved) && Logs(s.accepted, s.settled, n.accepted, n.settled)
            && n.priorityQueue == s.priorityQueue && n.serving == s.serving && n.device == s.device
            && n.submitted == s.submitted && n.calls == s.calls && n.mutex == s.mutex
  {
    Unchanged(s);
    OneMore(s.resolved, r, reply, s.accepted, s.settled);
    hide KeepsResolutions, Logs, Yields, Published, Settles, Brings, Locks;
  }

  lemma RemoveEvolves(s: State, r: Request)
    ensures Yields(s.priorityQueue, s.serving, Remove(s, r).serving)
  {
  }

  lemma LogsAppend(accepted: seq<Request>, settled: seq<Request>, r: Request)
    ensures Logs(accepted, settled, accepted + [r], settled) && Logs(accepted, settled, accepted, settled)
  {
  }

  lemma AcceptEvolves(s: State, acceptedOn: map<Request, nat>, queue: seq<Request>, priorityQueue: seq<Request>,
                      accepted: seq<Request>, calls: map<Request, Call>)
    requires Logs(s.accepted, s.settled, accepted, s.settled) && Settles(s.calls, calls)
    requires Locks(s.calls, s.mutex) ==> Locks(calls, Free)
    ensures Evolves(s, s.(acceptedOn := acceptedOn, queue := queue, priorityQueue := priorityQueue,
                          accepted := accepted,
                          mutex := Free, calls := calls), false, false)
  {
    hide KeepsResolutions, Logs, Yields, Published, Settles, Brings, Locks;
    Unchanged(s);
  }

  lemma PrioritizedEvolves(s: State, r: Request, calls: map<Request, Call>)
    requires r.priority && Logs(s.accepted, s.settled, s.accepted, s.settled) && Settles(s.calls, calls)
    requires Locks(s.calls, s.mutex) ==> Locks(calls, Free)
    ensures Evolves(s, Enqueue(s, r).(mutex := Free, calls := calls), false, false)
  {
    hide Evolves, Logs, Settles, Locks;
    AcceptEvolves(s, s.acceptedOn[r := Generation(s)], s.queue, s.priorityQueue + [r], s.accepted, calls);
  }

  lemma QueuedEvolves(s: State, r: Request, calls: map<Request, Call>)
    requires !r.priority && Logs(s.accepted, s.settled, s.accepted + [r], s.settled) && Settles(s.calls, calls)
    requires Locks(s.calls, s.mutex) ==> Locks(calls, Free)
    ensures Evolves(s, Enqueue(s, r).(mutex := Free, calls := calls), false, false)
  {
    hide Evolves, Logs, Settles, Locks;
    AcceptEvolves(s, s.acceptedOn[r := Generation(s)], s.queue + [r], s.priorityQueue, s.accepted + [r], calls);
  }

  lemma EnqueuedEvolves(s: State, r: Request)
    requires s.mutex.Owned? && s.mutex.owner == r && IsCall(s, r, Locked)
    ensures Evolves(s, Enqueue(s, r).(mutex := Free, calls := s.calls[r := Returned]), false, false)
  {
    CallMoves(s.calls, r, Returned);
    hide Evolves, Enqueue, Logs, Settles, Locks, CallRank;
    if Locks(s.calls, s.mutex) {
      LockMoves(s.calls, s.mutex, r, true);
    }
    LogsAppend(s.accepted, s.settled, r);
    if r.priority {
      PrioritizedEvolves(s, r, s.calls[r := Returned]);
    } else {
      QueuedEvolves(s, r, s.calls[r := Returned]);
    }
  }

  lemma UnqueuedEvolves(s: State, r: Request)
    requires s.mutex.Owned? && s.mutex.owner == r && IsCall(s, r, Locked)
    ensures Evolves(s, s.(mutex := Free, calls := s.calls[r := Unqueued]), false, false)
  {
    hide KeepsResolutions, Logs, Yields, Published, Settles, Brings, Locks;
    Unchanged(s);
    CallMoves(s.calls, r, Unqueued);
    if Locks(s.calls, s.mutex) {
      LockMoves(s.calls, s.mutex, r, true);
    }
  }

  lemma CallUnlockedEvolves(s: State, r: Request)
    requires s.mutex.Owned? && s.mutex.owner == r && IsCall(s, r, Locked)
    ensures Evolves(s, CallUnlocked(s, r), false, false)
  {
    hide Evolves, Enqueue;
    if s.mutex.sawConnected {
      EnqueuedEvolves(s, r);
    } else {
      UnqueuedEvolves(s, r);
    }
  }

  lemma StreamBrings(s: State, rs: seq<Request>)
    requires IsStream(s, rs)
    ensures Brings(s.submitted, s.submitted + (set r | r in rs))
  {
  }

  lemma StreamingEvolves(s: State, rs: seq<Request>)
    requires IsStream(s, rs)
    ensures Evolves(s, Streaming(s, rs), false, false)
  {
    hide KeepsResolutions, Yields, Published, Settles, Brings, Locks, IsStream;
    Unchanged(s);
    StreamBrings(s, rs);
  }

  lemma LaunchedEvolves(s: State, t: State, r: Request)
    requires t == s.(queue := t.queue, priorityQueue := t.priorityQueue, serving := t.serving)
    requires Yields(s.priorityQueue, s.serving, t.serving)
    ensures Evolves(s, Launched(t, r), false, false)
  {
    hide KeepsResolutions, Logs, Published, Yields, Settles, Brings, Locks;
    Unchanged(s);
  }

  /** A step that leaves the queues' histories alone. */
  lemma IdleEvolves(s: State, running: bool, connected: bool, socket: bool, w: Worker, clock: nat,
                    transmitted: seq<Transmission>, sampled: nat)
    ensures Evolves(s, s.(running := running, connected := connected, socket := socket, worker := w, clock := clock,
                          transmitted := transmitted, sampled := sampled), false, false)
  {
    hide KeepsResolutions, Logs, Yields, Published, Settles, Brings, Locks;
    Unchanged(s);
  }

  lemma MoveEvolves(s: State, running: bool, connected: bool, w: Worker)
    ensures Evolves(s, s.(running := running, connected := connected, worker := w), false, false)
  {
    hide Evolves;
    IdleEvolves(s, running, connected, s.socket, w, s.clock, s.transmitted, s.sampled);
  }

  lemma DispatchedEvolves(s: State)
    ensures Evolves(s, Dispatched(s), false, false)
  {
    Unchanged(s);
    hide KeepsResolutions, Logs, Published, Evolves, Launched;
    if s.priorityQueue != [] && s.priorityQueue[0].id !in s.inFlight {
      LaunchedEvolves(s, s.(priorityQueue := s.priorityQueue[1..]), s.priorityQueue[0]);
    } else if s.priorityQueue == [] && s.inFlight == map[] && s.queue != [] {
      LaunchedEvolves(s, s.(queue := s.queue[1..], serving := [s.queue[0]]), s.queue[0]);
    } else {
      MoveEvolves(s, s.running, s.connected, Polling);
    }
  }

  lemma SendFailedEvolves(s: State, r: Request)
    ensures Evolves(s, SendFailed(s, r), false, false)
  {
    hide KeepsResolutions, Logs, Yields, Published, Settles, Brings, Locks, Resolve;
    Unchanged(s);
    RemoveEvolves(s, r);
    ResolveEvolves(Remove(s, r), r, FAILED);
  }

  lemma DetachedEvolves(s: State, r: Request, w: Worker)
    ensures Evolves(s, Remove(s, r).(worker := w), false, false)
  {
    hide KeepsResolutions, Logs, Yields, Published, Settles, Brings, Locks;
    Unchanged(s);
    RemoveEvolves(s, r);
  }

  lemma PostponedEvolves(s: State, deadline: map<Request, nat>)
    ensures Evolves(s, s.(deadline := deadline, worker := Parsing), false, false)
  {
    hide KeepsResolutions, Logs, Yields, Published, Settles, Brings, Locks;
    Unchanged(s);
  }

  lemma LookedUpEvolves(s: State, id: Id, status: nat, payload: seq<byte>)
    ensures Evolves(s, LookedUp(s, id, status, payload), false, false)
  {
    hide Evolves;
    if id !in s.inFlight {
      MoveEvolves(s, s.running, s.connected, Parsing);
    } else {
      var r := s.inFlight[id];
      if r.allowPending && status == STATUS_COMMAND_PENDING {
        PostponedEvolves(s, s.deadline[r := s.clock + r.timeout]);
      } else {
        DetachedEvolves(s, r, Detached(r, status, payload));
      }
    }
  }

  lemma CallFailedEvolves(s: State, r: Request)
    ensures Evolves(s, CallFailed(s, r), false, false)
  {
    hide KeepsResolutions, Logs, Yields, Published, Settles, Brings, Locks, Resolve;
    Unchanged(s);
    if Locks(s.calls, s.mutex) {
      LockMoves(s.calls, s.mutex, r, true);
    }
    CallMoves(s.calls, r, Returned);
    ResolveEvolves(s, r, FAILED);
  }

  lemma AnsweredEvolves(s: State, r: Request, reply: Reply)
    ensures Evolves(s, Answered(s, r, reply), false, false)
  {
    hide KeepsResolutions, Logs, Yields, Published, Settles, Brings, Locks, Resolve;
    Unchanged(s);
    ResolveEvolves(s, r, reply);
  }

  lemma OneFailedEvolves(s: State, held: seq<Request>, after: After)
    requires held != []
    ensures Evolves(s, OneFailed(s, held, after), false, false)
  {
    hide KeepsResolutions, Logs, Yields, Published, Settles, Brings, Locks, Resolve;
    Unchanged(s);
    ResolveEvolves(s, held[0], FAILED);
  }

  lemma TakenEvolves(s: State, order: seq<Request>, after: After)
    ensures Evolves(s, Taken(s, order, after), false, false)
  {
    hide KeepsResolutions, Logs, Published, Settles, Brings, Locks;
    Unchanged(s);
  }

  lemma ContainerStepEvolves(s: State, l: Step)
    requires Enabled(s, l)
    requires l.CallUnlock? || l.CallFail? || l.Stream? || l.Dispatch? || l.FailSend? || l.Lookup? || l.Answer? ||
             l.TakeAll? || l.FailNext?
    ensures Evolves(s, Apply(s, l), false, false)
  {
    hide Evolves, CallUnlocked, CallFailed, Streaming, Dispatched, SendFailed, LookedUp, Answered, Taken, OneFailed;
    hide Expired, Visits, IsStream, Examined;
    match l
    case CallUnlock(r) => CallUnlockedEvolves(s, r);
    case CallFail(r) => CallFailedEvolves(s, r);
    case Stream(rs) => StreamingEvolves(s, rs);
    case Dispatch => DispatchedEvolves(s);
    case FailSend => SendFailedEvolves(s, s.worker.request);
    case Lookup => LookedUpEvolves(s, s.worker.id, s.worker.status, s.worker.payload);
    case Answer => AnsweredEvolves(s, s.worker.request, s.worker.reply);
    case TakeAll(order) => TakenEvolves(s, order, s.worker.after);
    case FailNext => OneFailedEvolves(s, s.worker.held, s.worker.after);
  }

  lemma DeviceEvolves(s: State, d: DeviceState, socket: bool, w: Worker, connects: bool)
    requires Published(s.device, d, connects)
    ensures Evolves(s, s.(device := d, socket := socket, worker := w), connects, false)
  {
    hide KeepsResolutions, Logs, Yields, Published, Settles, Brings, Locks;
    Unchanged(s);
  }

  lemma UpdatedPublishes(d: DeviceState, d': DeviceState)
    requires d'.connected == d.connected && d'.connectionGeneration == d.connectionGeneration
    ensures Published(d, d', false)
  {
  }

  lemma FrameEvolves(s: State, id: Id, p: seq<byte>)
    requires |p| >= 2 && s.unparsed > 0
    ensures Evolves(s, s.(unparsed := s.unparsed - 1, device := Updated(s.device, id, Status(p), p),
                          worker := Arrived(id, Status(p), p)), false, false)
  {
    hide KeepsResolutions, Logs, Yields, Published, Settles, Brings, Locks, Updated, Status;
    Unchanged(s);
    UpdatedKeeps(s.device, id, Status(p), p);
    UpdatedPublishes(s.device, Updated(s.device, id, Status(p), p));
  }

  lemma ParsingEvolves(s: State, unparsed: nat, w: Worker)
    ensures Evolves(s, s.(unparsed := unparsed, worker := w), false, false)
  {
    hide KeepsResolutions, Logs, Yields, Published, Settles, Brings, Locks;
    Unchanged(s);
  }

  lemma PublishedBasics(d: DeviceState)
    ensures Published(d, Connected(d), true) && Published(d, Disconnected(d), false)
  {
  }

  lemma PublishedStatus(d: DeviceState, status: nat)
    ensures Published(d, d.(lastStatus := status), false)
  {
  }

  lemma ClientStepEvolves(s: State, l: Step)
    requires Enabled(s, l) && (l.Submit? || l.CallLock?)
    ensures Evolves(s, Apply(s, l), false, l.Submit?)
  {
    hide KeepsResolutions, Logs, Yields, Published, Settles, Brings, Locks;
    Unchanged(s);
    if Locks(s.calls, s.mutex) {
      LockMoves(s.calls, s.mutex, l.request, s.connected);
    }
    if l.CallLock? {
      CallMoves(s.calls, l.request, Locked);
    }
  }

  lemma ClearStateEvolves(s: State, after: After)
    ensures Evolves(s, Resumed(s.(device := Disconnected(s.device)), after), false, false)
  {
    hide Evolves, Published, Disconnected;
    PublishedBasics(s.device);
    var d := Disconnected(s.device);
    match after
    case ToLoop => DeviceEvolves(s, d, s.socket, Loop, false);
    case ToFailure(r) => DeviceEvolves(s, d, s.socket, Failing(r), false);
    case ToExit => DeviceEvolves(s, d, s.socket, Exited, false);
  }

  lemma FrameStepEvolves(s: State, id: Id, p: seq<byte>)
    requires Enabled(s, Step.Frame(id, p))
    ensures Evolves(s, Apply(s, Step.Frame(id, p)), false, false)
  {
    hide Evolves, Updated, Status;
    if |p| < 2 {
      ParsingEvolves(s, s.unparsed - 1, s.worker);
    } else {
      FrameEvolves(s, id, p);
    }
  }

  lemma NoteEvolves(s: State, r: Request, status: nat, payload: seq<byte>)
    ensures Evolves(s, s.(device := s.device.(lastStatus := status),
                          worker := Answering(r, Reply(true, status, payload))), false, false)
  {
    hide Evolves, Published;
    PublishedStatus(s.device, status);
    DeviceEvolves(s, s.device.(lastStatus := status), s.socket, Answering(r, Reply(true, status, payload)), false);
  }

  lemma ConnectEvolves(s: State)
    ensures Evolves(s, s.(socket := true, device := Connected(s.device), worker := Bumped), true, false)
  {
    hide Evolves, Published, Connected;
    PublishedBasics(s.device);
    DeviceEvolves(s, Connected(s.device), true, Bumped, true);
  }

  lemma DeviceStepEvolves(s: State, l: Step)
    requires Enabled(s, l) && (l.Connect? || l.Frame? || l.Note? || l.ClearState?)
    ensures Evolves(s, Apply(s, l), l.Connect?, false)
  {
    hide Evolves, Updated, Status, Disconnected, Connected, Resumed;
    match l
    case Connect => ConnectEvolves(s);
    case Frame(id, p) =>
      hide Apply;
      FrameStepEvolves(s, id, p);
    case Note =>
      var Detached(r, status, payload) := s.worker;
      NoteEvolves(s, r, status, payload);
    case ClearState => ClearStateEvolves(s, s.worker.after);
  }

  lemma LoopStepEvolves(s: State, l: Step)
    requires Enabled(s, l)
    requires l.Start? || l.Stop? || l.Tick? || l.Dial? || l.ConnectFails? || l.Announce? || l.Proceed? || l.Serve? ||
             l.Leave? || l.PollQuiet? || l.PollData? || l.PollLost?
    ensures Evolves(s, Apply(s, l), false, false)
  {
    hide Evolves;
    match l
    case Start => MoveEvolves(s, true, s.connected, Loop);
    case Stop => MoveEvolves(s, false, s.connected, s.worker);
    case Tick(n) => IdleEvolves(s, s.running, s.connected, s.socket, s.worker, s.clock + n, s.transmitted, s.sampled);
    case Dial => MoveEvolves(s, s.running, s.connected, Dialing);
    case ConnectFails => MoveEvolves(s, s.running, s.connected, Loop);
    case Announce => IdleEvolves(s, s.running, true, s.socket, Fresh, s.clock, s.transmitted, s.clock);
    case Proceed => MoveEvolves(s, s.running, s.connected, Subscribing);
    case Serve => MoveEvolves(s, s.running, s.connected, Dispatching);
    case Leave => MoveEvolves(s, s.running, false, Closing(ToExit));
    case PollQuiet => MoveEvolves(s, s.running, s.connected, Expiring);
    case PollData => MoveEvolves(s, s.running, s.connected, Receiving);
    case PollLost => MoveEvolves(s, s.running, false, Closing(ToLoop));
  }

  lemma ReceiveStepEvolves(s: State, l: Step)
    requires Enabled(s, l)
    requires l.Recv? || l.Data? || l.ParseDone? || l.Interrupted? || l.ReceiveDone? || l.ReceiveStopped? ||
             l.ReceiveLost?
    ensures Evolves(s, Apply(s, l), false, false)
  {
    hide Evolves;
    match l
    case Recv => MoveEvolves(s, s.running, s.connected, InRecv);
    case Data(frames) => ParsingEvolves(s, frames, Parsing);
    case ParseDone => MoveEvolves(s, s.running, s.connected, Receiving);
    case Interrupted => MoveEvolves(s, s.running, s.connected, Receiving);
    case ReceiveDone => MoveEvolves(s, s.running, s.connected, Expiring);
    case ReceiveStopped => MoveEvolves(s, s.running, s.connected, Loop);
    case ReceiveLost => MoveEvolves(s, s.running, false, Closing(ToLoop));
  }

  lemma ExaminedEvolves(s: State, now: nat)
    ensures Evolves(s, Examined(s, now), false, false)
  {
    hide Evolves, Expired;
    MoveEvolves(s, s.running, false, Closing(ToLoop));
    IdleEvolves(s, s.running, s.connected, s.socket, Loop, s.clock, s.transmitted, now);
  }

  lemma SendStepEvolves(s: State, l: Step)
    requires Enabled(s, l)
    requires l.SendDone? || l.SendRefused? || l.SendBroken? || l.Sample? || l.Expire? || l.CloseSocket?
    ensures Evolves(s, Apply(s, l), false, false)
  {
    hide Evolves, Examined;
    match l
    case SendDone =>
      IdleEvolves(s, s.running, s.connected, s.socket, Polling, s.clock, Sent(s, s.worker.request), s.sampled);
    case SendRefused =>
      var r := s.worker.request;
      IdleEvolves(s, s.running, s.connected, s.socket, Failing(r), s.clock,
                  if |r.payload| > MAX_SIZE then s.transmitted else Sent(s, r), s.sampled);
    case SendBroken =>
      IdleEvolves(s, s.running, false, s.socket, Closing(ToFailure(s.worker.request)), s.clock,
                  Sent(s, s.worker.request), s.sampled);
    case Sample => MoveEvolves(s, s.running, s.connected, Checking(s.clock));
    case Expire => ExaminedEvolves(s, s.worker.now);
    case CloseSocket =>
      IdleEvolves(s, s.running, s.connected, false, Closed(s.worker.after), s.clock, s.transmitted, s.sampled);
  }

  lemma StepEvolves(s: State, l: Step)
    requires Enabled(s, l)
    ensures Evolves(s, Apply(s, l), l.Connect?, l.Submit?)
  {
    hide Evolves, Enabled, Apply;
    if l.Submit? || l.CallLock? { ClientStepEvolves(s, l); }
    else if l.Connect? || l.Frame? || l.Note? || l.ClearState? { DeviceStepEvolves(s, l); }
    else if l.Start? || l.Stop? || l.Tick? || l.Dial? || l.ConnectFails? || l.Announce? || l.Proceed? || l.Serve? ||
            l.Leave? || l.PollQuiet? || l.PollData? || l.PollLost? { LoopStepEvolves(s, l); }
    else if l.SendDone? || l.SendRefused? || l.SendBroken? || l.Sample? || l.Expire? || l.CloseSocket? {
      SendStepEvolves(s, l);
    }
    else if l.Recv? || l.Data? || l.ParseDone? || l.Interrupted? || l.ReceiveDone? || l.ReceiveStopped? ||
            l.ReceiveLost? { ReceiveStepEvolves(s, l); }
    else { ContainerStepEvolves(s, l); }
  }
}
