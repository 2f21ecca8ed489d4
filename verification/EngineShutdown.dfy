/** The worker's way out: once `running_` is cleared, every step of the worker brings it nearer to the end of `run`,
    until it is there. */
module EngineShutdown {
  import opened Crc
  import opened Frames
  import opened Device
  import opened Engine
  import opened EngineInvariant
  import opened EngineRuns
  import opened EngineSteps

  // ----- the measure -----

  /** The requests whose promises are not set. */
  function Unresolved(submitted: set<Request>, resolved: map<Request, Reply>): set<Request> {
    submitted - resolved.Keys
  }

  /** How many steps the worker can still take from where it is, apart from failing requests. */
  function WorkerRank(w: Worker, unparsed: nat, maxPayload: nat): nat {
    match w
    case Exited => 0
    case Draining(_, after) => if after == ToExit then 1 else if after == ToLoop then 5 else 12
    case Closed(after) => if after == ToExit then 2 else if after == ToLoop then 6 else 13
    case Closing(after) => if after == ToExit then 3 else if after == ToLoop then 7 else 14
    case Loop => 4
    case Checking(_) => 8
    case Expiring => 9
    case Receiving => 9
    case Polling => 10
    case Parsing => 10 + 4 * unparsed
    case Answering(_, _) => 11 + 4 * unparsed
    case Detached(_, _, _) => 12 + 4 * unparsed
    case Arrived(_, _, _) => 13 + 4 * unparsed
    case InRecv => 11 + 4 * FramesPerRecv(maxPayload)
    case Failing(_) => 11
    case Sending(_) => 15
    case Dispatching => 16
    case Subscribing => 22
    case Fresh => 23
    case Bumped => 24
    case Dialing => 25
  }

  /** A bound on the worker's steps. */
  function Remaining(s: State): nat {
    WorkerRank(s.worker, s.unparsed, s.maxPayload) + |Unresolved(s.submitted, s.resolved)|
  }

  /** The steps of the worker thread. */
  predicate IsWorkerStep(l: Step) {
    !(l.Start? || l.Stop? || l.Tick? || l.Submit? || l.CallLock? || l.CallUnlock? || l.CallFail?)
  }

  // ----- counting requests -----

  lemma FewerUnresolved(submitted: set<Request>, resolved: map<Request, Reply>, r: Request, reply: Reply)
    ensures |Unresolved(submitted, resolved[r := reply])| <= |Unresolved(submitted, resolved)|
    ensures r in submitted && r !in resolved ==>
              |Unresolved(submitted, resolved[r := reply])| < |Unresolved(submitted, resolved)|
  {
    var before, after := Unresolved(submitted, resolved), Unresolved(submitted, resolved[r := reply]);
    assert after == before - {r};
  }

  lemma ResolveLeavesFewer(s: State, r: Request, reply: Reply)
    ensures var n := Resolve(s, r, reply);
            && |Unresolved(n.submitted, n.resolved)| <= |Unresolved(s.submitted, s.resolved)|
            && (r in s.submitted && r !in s.resolved ==>
                  |Unresolved(n.submitted, n.resolved)| < |Unresolved(s.submitted, s.resolved)|)
  {
    FewerUnresolved(s.submitted, s.resolved, r, reply);
    hide Unresolved;
  }

  lemma {:induction false} Smaller(a: set<Request>, b: set<Request>)
    requires a <= b
    ensures |a| <= |b|
    decreases a
  {
    if a != {} {
      var r :| r in a;
      Smaller(a - {r}, b - {r});
    }
  }

  lemma OneMoreUnresolved(submitted: set<Request>, resolved: map<Request, Reply>, r: Request)
    ensures |Unresolved(submitted + {r}, resolved)| <= |Unresolved(submitted, resolved)| + 1
  {
    var before, after := Unresolved(submitted, resolved), Unresolved(submitted + {r}, resolved);
    assert after <= before + {r};
    Smaller(after, before + {r});
  }

  lemma {:induction false} MoreUnresolved(submitted: set<Request>, resolved: map<Request, Reply>, rs: seq<Request>)
    ensures |Unresolved(submitted + (set r | r in rs), resolved)| <= |Unresolved(submitted, resolved)| + |rs|
    decreases |rs|
  {
    hide Unresolved;
    if rs == [] {
      assert submitted + (set r | r in rs) == submitted;
    } else {
      MoreUnresolved(submitted + {rs[0]}, resolved, rs[1..]);
      OneMoreUnresolved(submitted, resolved, rs[0]);
      assert submitted + (set r | r in rs) == submitted + {rs[0]} + (set r | r in rs[1..]);
    }
  }

  // ----- the worker's steps -----

  /** The worker's step uses up some of its measure and leaves `running_` and the limit alone. */
  predicate Nears(s: State, n: State) {
    Remaining(n) < Remaining(s) && n.running == s.running
  }

  lemma PlaceNears(s: State, n: State)
    requires WorkerRank(n.worker, n.unparsed, n.maxPayload) < WorkerRank(s.worker, s.unparsed, s.maxPayload)
    requires n.submitted == s.submitted && n.resolved == s.resolved && n.running == s.running
    ensures Nears(s, n)
  {
    hide WorkerRank, Unresolved;
  }

  lemma MoveNears(s: State, connected: bool, socket: bool, device: DeviceState, w: Worker,
                  transmitted: seq<Transmission>,
                  sampled: nat)
    requires WorkerRank(w, s.unparsed, s.maxPayload) < WorkerRank(s.worker, s.unparsed, s.maxPayload)
    ensures Nears(s, Adjust(s, s.running, connected, socket, device, w, s.deadline, s.clock, transmitted, sampled))
  {
    hide WorkerRank, Nears;
    PlaceNears(s, Adjust(s, s.running, connected, socket, device, w, s.deadline, s.clock, transmitted, sampled));
  }

  lemma LoopNears(s: State, l: Step)
    requires Enabled(s, l) && !s.running && InLoop(l) && IsWorkerStep(l)
    ensures Nears(s, Apply(s, l))
  {
    hide Nears, Connected;
    var d, t := s.device, s.transmitted;
    if l.ConnectFails? {
      MoveNears(s, s.connected, s.socket, d, Loop, t, s.sampled);
    } else if l.Connect? {
      MoveNears(s, s.connected, true, Connected(d), Bumped, t, s.sampled);
    } else if l.Announce? {
      MoveNears(s, true, s.socket, d, Fresh, t, s.clock);
    } else {
      MoveNears(s, false, s.socket, d, Closing(ToExit), t, s.sampled);
    }
  }

  lemma LostNears(s: State)
    requires s.worker == InRecv || s.worker == Polling
    ensures Nears(s, Drop(s, ToLoop))
  {
    hide Nears, FramesPerRecv;
    MoveNears(s, false, s.socket, s.device, Closing(ToLoop), s.transmitted, s.sampled);
  }

  lemma SentNears(s: State, connected: bool, w: Worker, transmitted: seq<Transmission>)
    requires s.worker.Sending?
    requires w == Polling || w == Failing(s.worker.request) || w == Closing(ToFailure(s.worker.request))
    ensures Nears(s, s.(connected := connected, transmitted := transmitted, worker := w))
  {
    hide Nears;
    MoveNears(s, connected, s.socket, s.device, w, transmitted, s.sampled);
  }

  lemma PollNears(s: State, w: Worker)
    requires s.worker == Polling && (w == Expiring || w == Receiving)
    ensures Nears(s, s.(worker := w))
  {
    hide Nears;
    MoveNears(s, s.connected, s.socket, s.device, w, s.transmitted, s.sampled);
  }

  lemma SendNears(s: State, l: Step)
    requires Enabled(s, l) && InSend(l)
    ensures Nears(s, Apply(s, l))
  {
    hide Nears, Sent;
    match l
    case SendDone => SentNears(s, s.connected, Polling, Sent(s, s.worker.request));
    case SendRefused =>
      var r := s.worker.request;
      SentNears(s, s.connected, Failing(r), if |r.payload| > MAX_SIZE then s.transmitted else Sent(s, r));
    case SendBroken =>
      var r := s.worker.request;
      SentNears(s, false, Closing(ToFailure(r)), Sent(s, r));
    case PollQuiet => PollNears(s, Expiring);
    case PollData => PollNears(s, Receiving);
    case PollLost => LostNears(s);
  }

  lemma FrameNears(s: State, id: Id, p: seq<byte>)
    requires Enabled(s, Step.Frame(id, p))
    ensures Nears(s, Apply(s, Step.Frame(id, p)))
  {
    hide Nears, Updated, Status;
    if |p| < 2 {
      PlaceNears(s, s.(unparsed := s.unparsed - 1));
    } else {
      PlaceNears(s, s.(unparsed := s.unparsed - 1, device := Updated(s.device, id, Status(p), p),
                       worker := Arrived(id, Status(p), p)));
    }
  }

  lemma DataNears(s: State, frames: nat)
    requires s.worker == InRecv && frames <= FramesPerRecv(s.maxPayload)
    ensures Nears(s, s.(unparsed := frames, worker := Parsing))
  {
    hide Nears, FramesPerRecv;
    PlaceNears(s, s.(unparsed := frames, worker := Parsing));
  }

  lemma NoteNears(s: State)
    requires s.worker.Detached?
    ensures Nears(s, Apply(s, Note))
  {
    hide Nears;
    var Detached(r, status, payload) := s.worker;
    MoveNears(s, s.connected, s.socket, s.device.(lastStatus := status), Answering(r, Reply(true, status, payload)),
              s.transmitted, s.sampled);
  }

  /** The worker moves on in `receive_available`, or out of it. */
  lemma ReceivesNears(s: State, w: Worker)
    requires (s.worker == InRecv && (w == Receiving || w == Expiring)) || (s.worker == Parsing && w == Receiving) ||
             (s.worker == Receiving && w == Loop)
    ensures Nears(s, s.(worker := w))
  {
    hide Nears, FramesPerRecv;
    MoveNears(s, s.connected, s.socket, s.device, w, s.transmitted, s.sampled);
  }

  lemma ReceiveNears(s: State, l: Step)
    requires Enabled(s, l) && !s.running && InReceive(l)
    ensures Nears(s, Apply(s, l))
  {
    hide Nears, FramesPerRecv, Updated, Status;
    match l
    case Frame(id, p) => FrameNears(s, id, p);
    case Data(frames) => DataNears(s, frames);
    case Note => NoteNears(s);
    case ParseDone => ReceivesNears(s, Receiving);
    case Interrupted => ReceivesNears(s, Receiving);
    case ReceiveDone => ReceivesNears(s, Expiring);
    case ReceiveStopped => ReceivesNears(s, Loop);
    case ReceiveLost => LostNears(s);
  }

  lemma ExamineNears(s: State, now: nat)
    requires s.worker == Checking(now)
    ensures Nears(s, Examined(s, now))
  {
    hide Nears, Expired;
    MoveNears(s, false, s.socket, s.device, Closing(ToLoop), s.transmitted, s.sampled);
    MoveNears(s, s.connected, s.socket, s.device, Loop, s.transmitted, now);
  }

  lemma ClosedNears(s: State, after: After)
    requires s.worker == Closing(after)
    ensures Nears(s, s.(socket := false, worker := Closed(after)))
  {
    hide Nears;
    MoveNears(s, s.connected, false, s.device, Closed(after), s.transmitted, s.sampled);
  }

  lemma ResumeNears(s: State, d: DeviceState, after: After)
    requires s.worker == Draining([], after)
    ensures Nears(s, Resumed(s.(device := d), after))
  {
    hide Nears;
    var w := match after case ToLoop => Loop case ToFailure(r) => Failing(r) case ToExit => Exited;
    MoveNears(s, s.connected, s.socket, d, w, s.transmitted, s.sampled);
  }

  lemma SampleNears(s: State)
    requires s.worker == Expiring
    ensures Nears(s, s.(worker := Checking(s.clock)))
  {
    hide Nears;
    MoveNears(s, s.connected, s.socket, s.device, Checking(s.clock), s.transmitted, s.sampled);
  }

  lemma CloseNears(s: State, l: Step)
    requires Enabled(s, l) && InClose(l)
    ensures Nears(s, Apply(s, l))
  {
    hide Nears, Examined, Resumed, Disconnected;
    match l
    case Sample => SampleNears(s);
    case Expire => ExamineNears(s, s.worker.now);
    case CloseSocket => ClosedNears(s, s.worker.after);
    case ClearState => ResumeNears(s, Disconnected(s.device), s.worker.after);
  }

  lemma StreamNears(s: State, rs: seq<Request>)
    requires s.worker == Subscribing && |rs| == 5
    ensures Nears(s, Streaming(s, rs))
  {
    hide Unresolved;
    MoreUnresolved(s.submitted, s.resolved, rs);
  }

  lemma LaunchNears(s: State, queue: seq<Request>, priorityQueue: seq<Request>, serving: seq<Request>, r: Request)
    requires s.worker == Dispatching
    ensures Nears(s, Launched(s.(queue := queue, priorityQueue := priorityQueue, serving := serving), r))
  {
    hide Nears;
    PlaceNears(s, Launched(s.(queue := queue, priorityQueue := priorityQueue, serving := serving), r));
  }

  lemma DispatchNears(s: State)
    requires s.worker == Dispatching
    ensures Nears(s, Dispatched(s))
  {
    hide Nears, Launched;
    if s.priorityQueue != [] {
      LaunchNears(s, s.queue, s.priorityQueue[1..], s.serving, s.priorityQueue[0]);
    } else if s.queue != [] {
      LaunchNears(s, s.queue[1..], s.priorityQueue, [s.queue[0]], s.queue[0]);
    }
    MoveNears(s, s.connected, s.socket, s.device, Polling, s.transmitted, s.sampled);
  }

  lemma FailSendNears(s: State, r: Request)
    requires s.worker == Failing(r)
    ensures Nears(s, SendFailed(s, r))
  {
    ResolveLeavesFewer(Remove(s, r), r, FAILED);
    hide Unresolved;
  }

  lemma RemoveNears(s: State, r: Request, w: Worker)
    requires s.worker.Arrived? && w.Detached?
    ensures Nears(s, Remove(s, r).(worker := w))
  {
    hide Nears;
    PlaceNears(s, Remove(s, r).(worker := w));
  }

  lemma LookupNears(s: State, id: Id, status: nat, payload: seq<byte>)
    requires s.worker == Arrived(id, status, payload)
    ensures Nears(s, LookedUp(s, id, status, payload))
  {
    hide Nears, Remove;
    PlaceNears(s, s.(worker := Parsing));
    if id in s.inFlight {
      var r := s.inFlight[id];
      PlaceNears(s, s.(deadline := s.deadline[r := s.clock + r.timeout], worker := Parsing));
      RemoveNears(s, r, Detached(r, status, payload));
    }
  }

  lemma AnswerNears(s: State, r: Request, reply: Reply)
    requires s.worker.Answering?
    ensures Nears(s, Answered(s, r, reply))
  {
    ResolveLeavesFewer(s, r, reply);
    hide Unresolved;
  }

  lemma TakeNears(s: State, order: seq<Request>)
    requires s.worker.Closed?
    ensures Nears(s, Taken(s, order, s.worker.after))
  {
    hide Nears;
    PlaceNears(s, Taken(s, order, s.worker.after));
  }

  lemma ResolveKeepsPlace(s: State, r: Request, reply: Reply)
    ensures var n := Resolve(s, r, reply);
            n.running == s.running && n.unparsed == s.unparsed && n.maxPayload == s.maxPayload
  {
  }

  lemma HeldIsUnresolved(s: State, r: Request)
    requires Conserved(s) && r in Held(s.worker)
    ensures r in s.submitted && r !in s.resolved
  {
    OnePlace(s, r);
  }

  lemma FailNears(s: State)
    requires Conserved(s) && s.worker.Draining? && s.worker.held != []
    ensures Nears(s, OneFailed(s, s.worker.held, s.worker.after))
  {
    hide Conserved, Unresolved, Resolve;
    var r := s.worker.held[0];
    HeldIsUnresolved(s, r);
    ResolveLeavesFewer(s, r, FAILED);
    ResolveKeepsPlace(s, r, FAILED);
  }

  lemma ContainerNears(s: State, l: Step)
    requires Conserved(s) && Enabled(s, l)
    requires l.Stream? || l.Dispatch? || l.FailSend? || l.Lookup? || l.Answer? || l.TakeAll? || l.FailNext?
    ensures Nears(s, Apply(s, l))
  {
    hide Conserved, Nears, Visits, Streaming, Dispatched, SendFailed, LookedUp, Answered, Taken, OneFailed;
    if l.Stream? {
      StreamNears(s, l.requests);
    } else if l.Dispatch? {
      DispatchNears(s);
    } else if l.FailSend? {
      FailSendNears(s, s.worker.request);
    } else if l.Lookup? {
      LookupNears(s, s.worker.id, s.worker.status, s.worker.payload);
    } else if l.Answer? {
      AnswerNears(s, s.worker.request, s.worker.reply);
    } else if l.TakeAll? {
      TakeNears(s, l.order);
    } else {
      FailNears(s);
    }
  }

  /** Once `running_` is cleared, every step of the worker uses up some of its measure. */
  lemma WorkerNears(s: State, l: Step)
    requires Inv(s) && Enabled(s, l) && !s.running && IsWorkerStep(l)
    ensures Nears(s, Apply(s, l))
  {
    hide Conserved, Partition, Nears, Enabled, Apply;
    if InLoop(l) {
      LoopNears(s, l);
    } else if InSend(l) {
      SendNears(s, l);
    } else if InReceive(l) {
      ReceiveNears(s, l);
    } else if InClose(l) {
      CloseNears(s, l);
    } else {
      ContainerNears(s, l);
    }
  }

  // ----- progress -----

  lemma {:induction false} SerialBound(rs: set<Request>) returns (bound: nat)
    ensures forall r :: r in rs ==> r.serial < bound
    decreases rs
  {
    if rs == {} {
      bound := 0;
    } else {
      var r :| r in rs;
      var rest := SerialBound(rs - {r});
      bound := Max(rest, r.serial + 1);
    }
  }

  /** There are always new requests to make. */
  lemma SomeStream(s: State) returns (rs: seq<Request>)
    ensures IsStream(s, rs)
  {
    var n := SerialBound(s.submitted);
    rs := seq(5, (k: int) requires 0 <= k < 5 =>
      Request(n + k, STREAM_IDS[k], [0, 0, 0], false, true, 0, false, Generation(s)));
  }

  lemma {:induction false} SomeOrder(flight: map<Id, Request>, ids: set<Id>) returns (order: seq<Request>)
    requires ids <= flight.Keys && forall id :: id in flight ==> flight[id].id == id
    ensures NoDup(order) && forall r :: r in order <==> r.id in ids && flight[r.id] == r
    decreases ids
  {
    if ids == {} {
      order := [];
    } else {
      var id :| id in ids;
      var rest := SomeOrder(flight, ids - {id});
      order := [flight[id]] + rest;
    }
  }

  lemma SomeVisit(s: State) returns (order: seq<Request>)
    requires Conserved(s)
    ensures Visits(order, s.inFlight)
  {
    order := SomeOrder(s.inFlight, s.inFlight.Keys);
  }

  lemma ReceiveProgress(s: State) returns (l: Step)
    requires !s.running && s.mutex == Free
    requires s.worker == Receiving || s.worker == InRecv || s.worker == Parsing || s.worker.Arrived? ||
             s.worker.Detached? || s.worker.Answering?
    ensures IsWorkerStep(l) && Enabled(s, l)
  {
    match s.worker
    case Receiving => l := ReceiveStopped;
    case InRecv => l := ReceiveDone;
    case Parsing => l := ParseDone;
    case Arrived(_, _, _) => l := Lookup;
    case Detached(_, _, _) => l := Note;
    case Answering(_, _) => l := Answer;
  }

  lemma CloseProgress(s: State) returns (l: Step)
    requires Conserved(s) && s.mutex == Free && (s.worker.Closing? || s.worker.Closed? || s.worker.Draining?)
    ensures IsWorkerStep(l) && Enabled(s, l)
  {
    hide Conserved, Visits;
    if s.worker.Closing? {
      l := CloseSocket;
    } else if s.worker.Closed? {
      var order := SomeVisit(s);
      l := TakeAll(order);
    } else {
      l := if s.worker.held == [] then ClearState else FailNext;
    }
  }

  /** Without `running_` and with the queue mutex free the worker can always go on, until `run` has ended. */
  lemma WorkerProgress(s: State) returns (l: Step)
    requires Conserved(s) && !s.running && s.mutex == Free && s.worker != Exited
    ensures IsWorkerStep(l) && Enabled(s, l)
  {
    hide Conserved, IsStream;
    match s.worker
    case Loop => l := Leave;
    case Dialing => l := ConnectFails;
    case Bumped => l := Announce;
    case Fresh => l := Leave;
    case Subscribing =>
      var rs := SomeStream(s);
      l := Stream(rs);
    case Dispatching => l := Dispatch;
    case Sending(_) => l := SendRefused;
    case Failing(_) => l := FailSend;
    case Polling => l := PollQuiet;
    case Expiring => l := Sample;
    case Checking(_) => l := Expire;
    case Closing(_) => l := CloseProgress(s);
    case Closed(_) => l := CloseProgress(s);
    case Draining(_, _) => l := CloseProgress(s);
    case _ => l := ReceiveProgress(s);
  }
}
