/** The invariant over whole steps and whole runs. */
module EngineRuns {
  import opened Crc
  import opened Frames
  import opened Device
  import opened Engine
  import opened EngineInvariant
  import opened EngineSteps

  predicate InLoop(l: Step) {
    l.Start? || l.Stop? || l.Tick? || l.Dial? || l.ConnectFails? || l.Connect? || l.Announce? || l.Proceed? ||
    l.Serve? || l.Leave?
  }

  predicate InSend(l: Step) {
    l.SendDone? || l.SendRefused? || l.SendBroken? || l.PollQuiet? || l.PollData? || l.PollLost?
  }

  predicate InReceive(l: Step) {
    l.Recv? || l.Data? || l.Frame? || l.Note? || l.ParseDone? || l.Interrupted? || l.ReceiveDone? ||
      l.ReceiveStopped? ||
    l.ReceiveLost?
  }

  predicate InClose(l: Step) {
    l.Sample? || l.Expire? || l.CloseSocket? || l.ClearState?
  }

  lemma SentSoFar(s: State)
    requires Inv(s)
    ensures SentWhenAccepted(s.transmitted, s.acceptedOn)
  {
    hide Conserved, Coherent, Ordered;
  }

  lemma InvFlagStep(s: State, l: Step)
    requires Inv(s) && Enabled(s, l) && (l.Start? || l.Stop? || l.Tick? || l.Announce?)
    ensures Inv(Apply(s, l))
  {
    hide Conserved, Coherent, Dated, Ordered;
    SentSoFar(s);
    match l
    case Start =>
      InvQuiet(s, true, s.connected, s.socket, s.device, Loop, s.deadline, s.clock, s.transmitted, s.sampled);
    case Stop =>
      InvQuiet(s, false, s.connected, s.socket, s.device, s.worker, s.deadline, s.clock, s.transmitted, s.sampled);
    case Tick(n) =>
      InvQuiet(s, s.running, s.connected, s.socket, s.device, s.worker, s.deadline, s.clock + n, s.transmitted,
               s.sampled);
    case Announce =>
      InvQuiet(s, s.running, true, s.socket, s.device, Fresh, s.deadline, s.clock, s.transmitted, s.clock);
  }

  /** `disconnect` begins. */
  lemma InvDropped(s: State, after: After, transmitted: seq<Transmission>)
    requires Inv(s) && Held(s.worker) == [] && SentWhenAccepted(transmitted, s.acceptedOn)
    requires after == ToExit ==> !s.running
    requires after.ToFailure? ==> InFlight(s.inFlight, after.request)
    ensures Inv(Drop(s.(transmitted := transmitted), after))
  {
    hide Conserved, Coherent, Dated, Ordered;
    InvQuiet(s, s.running, false, s.socket, s.device, Closing(after), s.deadline, s.clock, transmitted, s.sampled);
  }

  lemma InvPassage(s: State, l: Step)
    requires Inv(s) && Enabled(s, l)
    requires l.Dial? || l.ConnectFails? || l.Connect? || l.Proceed? || l.Serve? || l.Leave?
    ensures Inv(Apply(s, l))
  {
    hide Conserved, Coherent, Dated, Ordered, Connected;
    SentSoFar(s);
    match l
    case Dial => InvWorker(s, Dialing);
    case ConnectFails => InvWorker(s, Loop);
    case Connect => InvConnected(s);
    case Proceed => InvWorker(s, Subscribing);
    case Serve => InvWorker(s, Dispatching);
    case Leave => InvDropped(s, ToExit, s.transmitted);
  }

  lemma InvLoopStep(s: State, l: Step)
    requires Inv(s) && Enabled(s, l) && InLoop(l)
    ensures Inv(Apply(s, l))
  {
    if l.Start? || l.Stop? || l.Tick? || l.Announce? {
      InvFlagStep(s, l);
    } else {
      InvPassage(s, l);
    }
  }

  lemma SentStaysDated(s: State, r: Request)
    requires Inv(s) && s.worker == Sending(r)
    ensures InFlight(s.inFlight, r) && SentWhenAccepted(Sent(s, r), s.acceptedOn)
  {
    hide Conserved, Coherent, Ordered;
    assert s.acceptedOn[r] == Generation(s);
  }

  /** The worker is done with the request it was sending, or gives it up. */
  lemma InvSentOn(s: State, w: Worker, transmitted: seq<Transmission>)
    requires Inv(s) && s.worker.Sending? && (w == Polling || w == Failing(s.worker.request))
    requires SentWhenAccepted(transmitted, s.acceptedOn)
    ensures Inv(s.(transmitted := transmitted, worker := w))
  {
    hide Conserved, Coherent, Dated, Ordered;
    InvQuiet(s, s.running, s.connected, s.socket, s.device, w, s.deadline, s.clock, transmitted, s.sampled);
  }

  lemma InvSending(s: State, l: Step)
    requires Inv(s) && Enabled(s, l) && (l.SendDone? || l.SendRefused? || l.SendBroken?)
    ensures Inv(Apply(s, l))
  {
    hide Inv, Sent;
    var r := s.worker.request;
    SentStaysDated(s, r);
    SentSoFar(s);
    match l
    case SendDone => InvSentOn(s, Polling, Sent(s, r));
    case SendRefused => InvSentOn(s, Failing(r), if |r.payload| > MAX_SIZE then s.transmitted else Sent(s, r));
    case SendBroken => InvDropped(s, ToFailure(r), Sent(s, r));
  }

  lemma InvPolls(s: State, w: Worker)
    requires Inv(s) && s.worker == Polling && (w == Expiring || (w == Receiving && s.socket))
    ensures Inv(s.(worker := w))
  {
    hide Conserved, Coherent, Dated, Ordered;
    InvWorker(s, w);
  }

  /** The connection turns out to be lost. */
  lemma InvLost(s: State)
    requires Inv(s) && (s.worker == Polling || s.worker == InRecv)
    ensures Inv(Drop(s, ToLoop))
  {
    SentSoFar(s);
    hide Inv;
    InvDropped(s, ToLoop, s.transmitted);
  }

  lemma InvPolled(s: State, l: Step)
    requires Inv(s) && Enabled(s, l) && (l.PollQuiet? || l.PollData? || l.PollLost?)
    ensures Inv(Apply(s, l))
  {
    hide Inv;
    match l
    case PollQuiet => InvPolls(s, Expiring);
    case PollData => InvPolls(s, Receiving);
    case PollLost => InvLost(s);
  }

  lemma InvSendStep(s: State, l: Step)
    requires Inv(s) && Enabled(s, l) && InSend(l)
    ensures Inv(Apply(s, l))
  {
    hide Inv, Enabled, Apply;
    if l.SendDone? || l.SendRefused? || l.SendBroken? {
      InvSending(s, l);
    } else {
      InvPolled(s, l);
    }
  }

  lemma InvUnparsed(s: State, unparsed: nat)
    requires Inv(s)
    ensures Inv(s.(unparsed := unparsed))
  {
    hide Partition, Linked, Coherent, Down, Guarded, Tracked, Ordinary, OneServed;
    hide Since, SinceFlight, SentWhenAccepted, AcceptedLater, AcceptedLeftClient, AnsweredWereAccepted;
  }

  lemma InvParsing(s: State, frames: nat)
    requires Inv(s) && s.worker == InRecv
    ensures Inv(s.(unparsed := frames, worker := Parsing))
  {
    InvUnparsed(s, frames);
    hide Conserved, Coherent, Dated, Ordered;
    InvWorker(s.(unparsed := frames), Parsing);
  }

  lemma InvFrame(s: State, id: Id, p: seq<byte>)
    requires Inv(s) && s.worker == Parsing && |p| >= 2
    ensures Inv(s.(device := Updated(s.device, id, Status(p), p), worker := Arrived(id, Status(p), p)))
  {
    hide Conserved, Coherent, Dated, Ordered, Updated, Status;
    SentSoFar(s);
    var d := Updated(s.device, id, Status(p), p);
    UpdateStaysCoherent(s.device, id, Status(p), p);
    InvQuiet(s, s.running, s.connected, s.socket, d, Arrived(id, Status(p), p), s.deadline, s.clock, s.transmitted,
             s.sampled);
  }

  lemma InvNote(s: State, r: Request, status: nat, payload: seq<byte>)
    requires Inv(s) && s.worker == Detached(r, status, payload)
    ensures Inv(s.(device := s.device.(lastStatus := status), worker := Answering(r, Reply(true, status, payload))))
  {
    hide Conserved, Coherent, Dated, Ordered;
    SentSoFar(s);
    var d := s.device.(lastStatus := status);
    SameFlags(s.device, d);
    InvQuiet(s, s.running, s.connected, s.socket, d, Answering(r, Reply(true, status, payload)), s.deadline, s.clock,
             s.transmitted, s.sampled);
  }

  /** The worker moves on within `receive_available`, or out of it. */
  lemma InvReceives(s: State, w: Worker)
    requires Inv(s) && (s.worker == Receiving || s.worker == InRecv || s.worker == Parsing)
    requires w == Receiving || w == InRecv || w == Expiring || w == Loop
    ensures Inv(s.(worker := w))
  {
    hide Conserved, Coherent, Dated, Ordered;
    InvWorker(s, w);
  }

  lemma InvReceiveEnds(s: State, l: Step)
    requires Inv(s) && Enabled(s, l)
    requires l.Recv? || l.ParseDone? || l.Interrupted? || l.ReceiveDone? || l.ReceiveStopped? || l.ReceiveLost?
    ensures Inv(Apply(s, l))
  {
    hide Inv;
    match l
    case Recv => InvReceives(s, InRecv);
    case ParseDone => InvReceives(s, Receiving);
    case Interrupted => InvReceives(s, Receiving);
    case ReceiveDone => InvReceives(s, Expiring);
    case ReceiveStopped => InvReceives(s, Loop);
    case ReceiveLost => InvLost(s);
  }

  lemma InvReceiveStep(s: State, l: Step)
    requires Inv(s) && Enabled(s, l) && InReceive(l)
    ensures Inv(Apply(s, l))
  {
    hide Inv, Expired, Visits, IsStream, IsCall, Updated, Status;
    match l
    case Data(frames) => InvParsing(s, frames);
    case Frame(id, p) =>
      InvUnparsed(s, s.unparsed - 1);
      if |p| >= 2 { InvFrame(s.(unparsed := s.unparsed - 1), id, p); }
    case Note => InvNote(s, s.worker.request, s.worker.status, s.worker.payload);
    case _ => InvReceiveEnds(s, l);
  }

  /** `disconnect` ends. */
  lemma InvCleared(s: State, after: After)
    requires Inv(s) && s.worker == Draining([], after)
    ensures Inv(Resumed(s.(device := Disconnected(s.device)), after))
  {
    hide Conserved, Coherent, Dated, Ordered;
    TransitionsStayCoherent(s.device);
    SentSoFar(s);
    var d := Disconnected(s.device);
    var w := match after case ToLoop => Loop case ToFailure(r) => Failing(r) case ToExit => Exited;
    InvQuiet(s, s.running, s.connected, s.socket, d, w, s.deadline, s.clock, s.transmitted, s.sampled);
  }

  lemma InvExamined(s: State, now: nat)
    requires Inv(s) && s.worker == Checking(now)
    ensures Inv(Examined(s, now))
  {
    hide Conserved, Coherent, Dated, Ordered, Expired;
    SentSoFar(s);
    if Expired(s, now) {
      InvDropped(s, ToLoop, s.transmitted);
    } else {
      InvQuiet(s, s.running, s.connected, s.socket, s.device, Loop, s.deadline, s.clock, s.transmitted, now);
    }
  }

  lemma InvSampled(s: State)
    requires Inv(s) && s.worker == Expiring
    ensures Inv(s.(worker := Checking(s.clock)))
  {
    hide Conserved, Coherent, Dated, Ordered;
    InvWorker(s, Checking(s.clock));
  }

  lemma InvClosed(s: State, after: After)
    requires Inv(s) && s.worker == Closing(after)
    ensures Inv(s.(socket := false, worker := Closed(after)))
  {
    hide Conserved, Coherent, Dated, Ordered;
    SentSoFar(s);
    InvQuiet(s, s.running, s.connected, false, s.device, Closed(after), s.deadline, s.clock, s.transmitted, s.sampled);
  }

  lemma InvCloseStep(s: State, l: Step)
    requires Inv(s) && Enabled(s, l) && InClose(l)
    ensures Inv(Apply(s, l))
  {
    hide Inv, Examined, Resumed, Disconnected;
    match l
    case Sample => InvSampled(s);
    case Expire => InvExamined(s, s.worker.now);
    case CloseSocket => InvClosed(s, s.worker.after);
    case ClearState => InvCleared(s, s.worker.after);
  }

  lemma InvFailSend(s: State, r: Request)
    requires Inv(s) && s.worker == Failing(r)
    ensures Inv(SendFailed(s, r))
  {
    if InFlight(s.inFlight, r) {
      InvSendFailed(s, r);
    } else {
      InvSendFailedLate(s, r);
    }
  }

  lemma InvContainerStep(s: State, l: Step)
    requires Inv(s) && Enabled(s, l) && !InLoop(l) && !InSend(l) && !InReceive(l) && !InClose(l)
    ensures Inv(Apply(s, l))
  {
    match l
    case Submit(r) => InvSubmitted(s, r);
    case CallLock(r) => InvCallLocked(s, r);
    case CallUnlock(r) => if s.mutex.sawConnected { InvEnqueued(s, r); } else { InvUnqueued(s, r); }
    case CallFail(r) => InvCallFailed(s, r);
    case Stream(rs) => InvStreaming(s, rs);
    case Dispatch => InvDispatched(s);
    case FailSend => InvFailSend(s, s.worker.request);
    case Lookup => InvLookedUp(s, s.worker.id, s.worker.status, s.worker.payload);
    case Answer => InvAnswered(s, s.worker.request, s.worker.reply);
    case TakeAll(order) => InvTaken(s, order, s.worker.after);
    case FailNext => InvOneFailed(s, s.worker.held, s.worker.after);
  }

  /** Every step keeps the invariant. */
  lemma InvStep(s: State, l: Step)
    requires Inv(s) && Enabled(s, l)
    ensures Inv(Apply(s, l))
  {
    if InLoop(l) { InvLoopStep(s, l); }
    else if InSend(l) { InvSendStep(s, l); }
    else if InReceive(l) { InvReceiveStep(s, l); }
    else if InClose(l) { InvCloseStep(s, l); }
    else { InvContainerStep(s, l); }
  }

  /** Every state of every run satisfies the invariant. */
  lemma {:induction false} InvRun(run: Run, k: nat)
    requires ValidRun(run) && k < |run.states|
    ensures Inv(run.states[k])
    decreases k
  {
    hide Inv, Apply, Enabled;
    if k == 0 {
      InitialState(run.states[0].maxPayload);
    } else {
      InvRun(run, k - 1);
      InvStep(run.states[k - 1], run.steps[k - 1]);
    }
  }
}
