/** How soon a priority request goes out, and how soon a stopped transport has resolved everything. */
module EnginePriority {
  import opened Crc
  import opened Frames
  import opened Device
  import opened Engine
  import opened EngineInvariant
  import opened EngineRuns
  import opened EngineSteps
  import opened EngineConnection
  import opened EngineDrain
  import opened EngineLane

  /** What is watched: of a stopped transport the end of whatever waits, of another the next dispatch while no request
      with the id `id` is in flight; and the worker's pace. */
  datatype Watch = Watch(id: Id, d: nat, stopped: bool)

  /** Before its iteration ends, the worker dispatches or fails what waits; a stopped one leaves its loop to fail it.
      */
  predicate Prompt(w: Worker, stopped: bool) {
    InDisconnect(w) || (if stopped then w == Loop || w == Fresh || w.Checking? else BeforeDispatch(w))
  }

  /** What is left of this iteration, and a whole one if the worker is not prompt in this one. */
  function LeadTime(w: Worker, clock: nat, sampled: nat, d: nat, stopped: bool): int {
    Began(w, sampled) + d - clock + (if Prompt(w, stopped) then 0 else d)
  }

  function Lead(s: State, d: nat, stopped: bool): int { LeadTime(s.worker, s.clock, s.sampled, d, stopped) }

  /** The step takes no more time than it uses up. Of a transport that is not stopped, it lets no request with the
      watched id into flight. */
  predicate Hastens(s: State, n: State, v: Watch) {
    && n.clock >= s.clock && Lead(n, v.d, v.stopped) + (n.clock - s.clock) <= Lead(s, v.d, v.stopped)
    && (!v.stopped && v.id !in s.inFlight ==> v.id !in n.inFlight)
  }

  lemma PlaceHastens(s: State, n: State, v: Watch)
    requires n.clock == s.clock && n.sampled == s.sampled
    requires Prompt(s.worker, v.stopped) ==> Prompt(n.worker, v.stopped)
    requires n.worker.Checking? ==> n.worker == s.worker
    requires !v.stopped && v.id !in s.inFlight ==> v.id !in n.inFlight
    ensures Hastens(s, n, v)
  {
  }

  lemma MoveHastens(s: State, running: bool, connected: bool, socket: bool, device: DeviceState, w: Worker,
                    transmitted: seq<Transmission>, v: Watch)
    requires (Prompt(s.worker, v.stopped) ==> Prompt(w, v.stopped)) && !w.Checking?
    ensures Hastens(s, Adjust(s, running, connected, socket, device, w, s.deadline, s.clock, transmitted, s.sampled),
                    v)
  {
    hide Prompt;
    PlaceHastens(s, Adjust(s, running, connected, socket, device, w, s.deadline, s.clock, transmitted, s.sampled), v);
  }

  lemma CallHastens(s: State, l: Step, v: Watch)
    requires Enabled(s, l) && (l.Stop? || l.Submit? || l.CallLock?)
    ensures Hastens(s, Apply(s, l), v)
  {
    hide Prompt, Hastens;
    PlaceHastens(s, Apply(s, l), v);
  }

  lemma EnqueueKeeps(s: State, r: Request)
    ensures var n := Enqueue(s, r);
            n.clock == s.clock && n.sampled == s.sampled && n.worker == s.worker && n.inFlight == s.inFlight
  {
  }

  lemma UnlockHastens(s: State, r: Request, v: Watch)
    requires s.mutex.Owned?
    ensures Hastens(s, CallUnlocked(s, r), v)
  {
    hide Prompt, Hastens, Enqueue;
    EnqueueKeeps(s, r);
    if s.mutex.sawConnected {
      PlaceHastens(s, Enqueue(s, r).(mutex := Free, calls := s.calls[r := Returned]), v);
    } else {
      PlaceHastens(s, s.(mutex := Free, calls := s.calls[r := Unqueued]), v);
    }
  }

  lemma CallFailHastens(s: State, r: Request, v: Watch)
    ensures Hastens(s, CallFailed(s, r), v)
  {
    hide Prompt, Hastens;
    PlaceHastens(s, CallFailed(s, r), v);
  }

  lemma SubscribingTogether(stopped: bool)
    ensures Prompt(Subscribing, stopped) == Prompt(Dispatching, stopped)
  {
  }

  lemma StreamHastens(s: State, rs: seq<Request>, v: Watch)
    requires s.worker == Subscribing
    ensures Hastens(s, Streaming(s, rs), v)
  {
    SubscribingTogether(v.stopped);
    hide Prompt, Hastens;
    PlaceHastens(s, Streaming(s, rs), v);
  }

  lemma TickHastens(s: State, elapsed: nat, v: Watch)
    ensures Hastens(s, s.(clock := s.clock + elapsed), v)
  {
    hide Prompt;
  }

  lemma ClientHastens(s: State, l: Step, v: Watch)
    requires Enabled(s, l)
    requires l.Stop? || l.Submit? || l.CallLock? || l.CallFail? || l.CallUnlock? || l.Stream? || l.Tick?
    ensures Hastens(s, Apply(s, l), v)
  {
    hide IsStream, Hastens, CallUnlocked, CallFailed, Streaming;
    if l.Stream? {
      StreamHastens(s, l.requests, v);
    } else if l.Tick? {
      TickHastens(s, l.elapsed, v);
    } else if l.CallUnlock? {
      UnlockHastens(s, l.request, v);
    } else if l.CallFail? {
      CallFailHastens(s, l.request, v);
    } else {
      CallHastens(s, l, v);
    }
  }

  lemma LoopHastens(s: State, l: Step, v: Watch)
    requires Inv(s) && Outstanding(s) && Enabled(s, l) && InLoop(l) && !l.Stop? && !l.Tick?
    requires v.stopped ==> !s.running
    ensures Hastens(s, Apply(s, l), v)
  {
    BusyIsLinked(s);
    hide Inv, Hastens, Outstanding;
    if l.Serve? {
      MoveHastens(s, s.running, s.connected, s.socket, s.device, Dispatching, s.transmitted, v);
    } else if l.Proceed? {
      MoveHastens(s, s.running, s.connected, s.socket, s.device, Subscribing, s.transmitted, v);
    } else if l.Leave? {
      MoveHastens(s, s.running, false, s.socket, s.device, Closing(ToExit), s.transmitted, v);
    } else {
      assert false;
    }
  }

  lemma SendHastens(s: State, l: Step, v: Watch)
    requires Enabled(s, l) && InSend(l)
    ensures Hastens(s, Apply(s, l), v)
  {
    hide Hastens, Engine.Sent;
    if l.SendDone? {
      MoveHastens(s, s.running, s.connected, s.socket, s.device, Polling, Engine.Sent(s, s.worker.request), v);
    } else if l.SendRefused? {
      var r := s.worker.request;
      MoveHastens(s, s.running, s.connected, s.socket, s.device, Failing(r),
                  if |r.payload| > MAX_SIZE then s.transmitted else Engine.Sent(s, r), v);
    } else if l.SendBroken? {
      var r := s.worker.request;
      MoveHastens(s, s.running, false, s.socket, s.device, Closing(ToFailure(r)), Engine.Sent(s, r), v);
    } else if l.PollLost? {
      MoveHastens(s, s.running, false, s.socket, s.device, Closing(ToLoop), s.transmitted, v);
    } else {
      var w := if l.PollQuiet? then Expiring else Receiving;
      MoveHastens(s, s.running, s.connected, s.socket, s.device, w, s.transmitted, v);
    }
  }

  lemma ParserHastens(s: State, id: Id, p: seq<byte>, v: Watch)
    requires Enabled(s, Step.Frame(id, p)) && !Prompt(s.worker, v.stopped)
    ensures Hastens(s, Apply(s, Step.Frame(id, p)), v)
  {
    hide Hastens, Updated, Status, Prompt;
    if |p| < 2 {
      PlaceHastens(s, s.(unparsed := s.unparsed - 1), v);
    } else {
      PlaceHastens(s, s.(unparsed := s.unparsed - 1, device := Updated(s.device, id, Status(p), p),
                         worker := Arrived(id, Status(p), p)), v);
    }
  }

  lemma FrameHastens(s: State, l: Step, v: Watch)
    requires Enabled(s, l) && (l.Frame? || l.Data? || l.Note?) && !Prompt(s.worker, v.stopped)
    ensures Hastens(s, Apply(s, l), v)
  {
    hide Hastens, Prompt;
    if l.Frame? {
      hide Apply;
      ParserHastens(s, l.id, l.payload, v);
    } else if l.Data? {
      PlaceHastens(s, s.(unparsed := l.frames, worker := Parsing), v);
    } else {
      var Detached(r, status, payload) := s.worker;
      PlaceHastens(s, s.(device := s.device.(lastStatus := status),
                         worker := Answering(r, Reply(true, status, payload))), v);
    }
  }

  lemma ReceivingIsLate(s: State, l: Step, stopped: bool)
    requires Enabled(s, l) && InReceive(l)
    ensures !Prompt(s.worker, stopped)
  {
  }

  lemma DropHastens(s: State, v: Watch)
    ensures Hastens(s, Drop(s, ToLoop), v)
  {
    hide Hastens;
    MoveHastens(s, s.running, false, s.socket, s.device, Closing(ToLoop), s.transmitted, v);
  }

  /** The worker moves on within the iteration, which is not a prompt one. */
  lemma LateHastens(s: State, w: Worker, v: Watch)
    requires !Prompt(s.worker, v.stopped) && !w.Checking?
    ensures Hastens(s, s.(worker := w), v)
  {
    hide Hastens, Prompt;
    MoveHastens(s, s.running, s.connected, s.socket, s.device, w, s.transmitted, v);
  }

  lemma ReceiveHastens(s: State, l: Step, v: Watch)
    requires Enabled(s, l) && InReceive(l)
    ensures Hastens(s, Apply(s, l), v)
  {
    hide Hastens, Updated, Status, Prompt;
    ReceivingIsLate(s, l, v.stopped);
    match l
    case Recv => LateHastens(s, InRecv, v);
    case ParseDone => LateHastens(s, Receiving, v);
    case Interrupted => LateHastens(s, Receiving, v);
    case ReceiveDone => LateHastens(s, Expiring, v);
    case ReceiveStopped => LateHastens(s, Loop, v);
    case ReceiveLost => DropHastens(s, v);
    case _ =>
      hide Enabled, Apply;
      FrameHastens(s, l, v);
  }

  lemma SampleHastens(s: State, v: Watch)
    requires Paced(s, v.d) && s.worker == Expiring
    ensures Hastens(s, s.(worker := Checking(s.clock)), v)
  {
  }

  lemma PassHastens(s: State, now: nat, v: Watch)
    requires s.worker == Checking(now)
    ensures Hastens(s, s.(sampled := now, worker := Loop), v)
  {
  }

  lemma ExamineHastens(s: State, now: nat, v: Watch)
    requires s.worker == Checking(now)
    ensures Hastens(s, Examined(s, now), v)
  {
    hide Expired, Hastens;
    PassHastens(s, now, v);
    DropHastens(s, v);
  }

  lemma ClosedHastens(s: State, after: After, v: Watch)
    requires s.worker == Closing(after)
    ensures Hastens(s, s.(socket := false, worker := Closed(after)), v)
  {
    hide Hastens;
    MoveHastens(s, s.running, s.connected, false, s.device, Closed(after), s.transmitted, v);
  }

  lemma CloseHastens(s: State, l: Step, v: Watch)
    requires Inv(s) && Outstanding(s) && Enabled(s, l) && InClose(l) && Paced(s, v.d)
    ensures Hastens(s, Apply(s, l), v)
  {
    hide Inv, Outstanding, Examined, Resumed, Disconnected, Hastens, Paced;
    match l
    case Sample => SampleHastens(s, v);
    case Expire => ExamineHastens(s, s.worker.now, v);
    case CloseSocket => ClosedHastens(s, s.worker.after, v);
    case ClearState =>
      BusyIsLinked(s);
      assert false;
  }

  lemma FailSendHastens(s: State, r: Request, v: Watch)
    requires s.worker == Failing(r)
    ensures Hastens(s, SendFailed(s, r), v)
  {
    hide Hastens;
    PlaceHastens(s, SendFailed(s, r), v);
  }

  lemma RemoveHastens(s: State, r: Request, w: Worker, v: Watch)
    requires s.worker.Arrived? && !w.Checking?
    ensures Hastens(s, Remove(s, r).(worker := w), v)
  {
    hide Hastens;
    PlaceHastens(s, Remove(s, r).(worker := w), v);
  }

  lemma PostponeHastens(s: State, r: Request, v: Watch)
    requires s.worker.Arrived?
    ensures Hastens(s, s.(deadline := s.deadline[r := s.clock + r.timeout], worker := Parsing), v)
  {
    hide Hastens;
    PlaceHastens(s, s.(deadline := s.deadline[r := s.clock + r.timeout], worker := Parsing), v);
  }

  lemma MissHastens(s: State, v: Watch)
    requires s.worker.Arrived?
    ensures Hastens(s, s.(worker := Parsing), v)
  {
    hide Hastens;
    PlaceHastens(s, s.(worker := Parsing), v);
  }

  lemma LookupHastens(s: State, id: Id, status: nat, payload: seq<byte>, v: Watch)
    requires s.worker.Arrived?
    ensures Hastens(s, LookedUp(s, id, status, payload), v)
  {
    hide Hastens, Remove;
    MissHastens(s, v);
    if id in s.inFlight {
      PostponeHastens(s, s.inFlight[id], v);
      RemoveHastens(s, s.inFlight[id], Detached(s.inFlight[id], status, payload), v);
    }
  }

  lemma AnswerHastens(s: State, r: Request, reply: Reply, v: Watch)
    requires s.worker.Answering?
    ensures Hastens(s, Answered(s, r, reply), v)
  {
    hide Hastens;
    PlaceHastens(s, Answered(s, r, reply), v);
  }

  lemma TakeHastens(s: State, order: seq<Request>, v: Watch)
    requires s.worker.Closed?
    ensures Hastens(s, Taken(s, order, s.worker.after), v)
  {
    hide Hastens;
    PlaceHastens(s, Taken(s, order, s.worker.after), v);
  }

  lemma FailHastens(s: State, v: Watch)
    requires s.worker.Draining? && s.worker.held != []
    ensures Hastens(s, OneFailed(s, s.worker.held, s.worker.after), v)
  {
    hide Hastens;
    PlaceHastens(s, OneFailed(s, s.worker.held, s.worker.after), v);
  }

  lemma ContainerHastens(s: State, l: Step, v: Watch)
    requires Enabled(s, l) && (l.FailSend? || l.Lookup? || l.Answer? || l.TakeAll? || l.FailNext?)
    ensures Hastens(s, Apply(s, l), v)
  {
    hide Visits, Hastens, SendFailed, LookedUp, Answered, Taken, OneFailed;
    if l.FailSend? {
      FailSendHastens(s, s.worker.request, v);
    } else if l.Lookup? {
      LookupHastens(s, s.worker.id, s.worker.status, s.worker.payload, v);
    } else if l.Answer? {
      AnswerHastens(s, s.worker.request, s.worker.reply, v);
    } else if l.TakeAll? {
      TakeHastens(s, l.order, v);
    } else {
      FailHastens(s, v);
    }
  }

  /** A dispatch takes the head of the priority lane unless its id is in flight. */
  lemma DispatchTakesHead(s: State, r: Request)
    requires Conserved(s) && Heads(s, r) && r.id !in s.inFlight
    ensures !Heads(Dispatched(s), r)
  {
  }

  lemma HeadTaken(s: State, r: Request)
    requires Inv(s) && Enabled(s, Dispatch) && Heads(s, r) && r.id !in s.inFlight
    ensures !Heads(Apply(s, Dispatch), r)
  {
    DispatchTakesHead(s, r);
    hide Conserved, Dispatched, Heads;
  }

  /** Every step but a dispatch. */
  lemma StepHastens(s: State, l: Step, v: Watch)
    requires Inv(s) && Enabled(s, l) && Outstanding(s) && Paced(s, v.d) && l != Dispatch && (v.stopped ==> !s.running)
    ensures Hastens(s, Apply(s, l), v)
  {
    hide Inv, Enabled, Apply, Hastens, Outstanding, Paced;
    if l.Stop? || l.Submit? || l.CallLock? || l.CallFail? || l.CallUnlock? || l.Stream? || l.Tick? {
      ClientHastens(s, l, v);
    } else if InLoop(l) {
      LoopHastens(s, l, v);
    } else if InSend(l) {
      SendHastens(s, l, v);
    } else if InReceive(l) {
      ReceiveHastens(s, l, v);
    } else if InClose(l) {
      CloseHastens(s, l, v);
    } else {
      ContainerHastens(s, l, v);
    }
  }

  lemma HeadStep(s: State, l: Step, r: Request, d: nat)
    requires Inv(s) && Enabled(s, l) && Heads(s, r) && r.id !in s.inFlight && Paced(s, d) && Heads(Apply(s, l), r)
    ensures Hastens(s, Apply(s, l), Watch(r.id, d, false))
  {
    if l == Dispatch {
      HeadTaken(s, r);
    } else {
      assert Outstanding(s);
      hide Inv, Enabled, Apply, Hastens, Outstanding, Paced, Heads;
      StepHastens(s, l, Watch(r.id, d, false));
    }
  }

  lemma {:induction false} HeadOverRun(run: Run, i: nat, j: nat, r: Request, d: nat)
    requires ValidRun(run) && i <= j < |run.states| && r.id !in run.states[i].inFlight
    requires forall k :: i <= k <= j ==> Heads(run.states[k], r) && Paced(run.states[k], d)
    ensures r.id !in run.states[j].inFlight
    ensures Lead(run.states[j], d, false) + (run.states[j].clock - run.states[i].clock) <= Lead(run.states[i], d, false)
    decreases j
  {
    hide Inv, Enabled, Apply, Heads, Paced, LeadTime;
    if i < j {
      HeadOverRun(run, i, j - 1, r, d);
      InvRun(run, j - 1);
      assert Heads(run.states[j - 1], r) && Heads(run.states[j], r);
      HeadStep(run.states[j - 1], run.steps[j - 1], r, d);
    }
  }

  lemma LeadIsNat(s: State, d: nat, stopped: bool)
    requires Paced(s, d)
    ensures Lead(s, d, stopped) >= 0
  {
  }

  /** A request at the head of the priority lane is dispatched or failed within the rest of the iteration, or one more
      iteration if this one's dispatch is over, unless a request with its own id is in flight; what else is in flight
      or waits, and what joins the lane, does not matter. */
  lemma PriorityGoesOut(run: Run, i: nat, j: nat, r: Request, d: nat)
    requires ValidRun(run) && i <= j < |run.states| && r.id !in run.states[i].inFlight
    requires Heads(run.states[i], r) && r in run.states[j].priorityQueue
    requires forall k :: i <= k <= j ==> Paced(run.states[k], d)
    ensures run.states[j].clock - run.states[i].clock <= Lead(run.states[i], d, false)
  {
    HeadStays(run, i, j, r);
    HeadOverRun(run, i, j, r, d);
    LeadIsNat(run.states[j], d, false);
    hide ValidRun, Heads, Paced, LeadTime;
  }

  // ----- a stopped transport -----

  /** The worker is past the dispatch, at the same time. */
  predicate Dispatches(s: State, n: State) {
    (n.worker == Polling || n.worker.Sending?) && n.clock == s.clock && n.sampled == s.sampled
  }

  lemma LaunchDispatches(s: State, queue: seq<Request>, priorityQueue: seq<Request>, serving: seq<Request>, r: Request)
    ensures Dispatches(s, Launched(s.(queue := queue, priorityQueue := priorityQueue, serving := serving), r))
  {
  }

  lemma PollingDispatches(s: State)
    ensures Dispatches(s, s.(worker := Polling))
  {
  }

  lemma DispatchedDispatches(s: State)
    ensures Dispatches(s, Dispatched(s))
  {
    hide Launched, Dispatches;
    PollingDispatches(s);
    if s.priorityQueue != [] {
      LaunchDispatches(s, s.queue, s.priorityQueue[1..], s.serving, s.priorityQueue[0]);
    } else if s.queue != [] {
      LaunchDispatches(s, s.queue[1..], s.priorityQueue, [s.queue[0]], s.queue[0]);
    }
  }

  lemma DispatchStopped(s: State, v: Watch)
    requires s.worker == Dispatching && v.stopped
    ensures Hastens(s, Dispatched(s), v)
  {
    DispatchedDispatches(s);
    hide Dispatched;
  }

  /** Nothing restarts the transport while something is outstanding. */
  lemma StaysStopped(s: State, l: Step)
    requires Inv(s) && Enabled(s, l) && Outstanding(s) && !s.running
    ensures !Apply(s, l).running
  {
    BusyIsLinked(s);
    FlagsStep(s, l);
    hide Inv, Outstanding, Enabled, Apply;
  }

  lemma StoppedStep(s: State, l: Step, d: nat)
    requires Inv(s) && Enabled(s, l) && Outstanding(s) && Paced(s, d) && !s.running
    ensures Hastens(s, Apply(s, l), Watch(0, d, true)) && !Apply(s, l).running
  {
    StaysStopped(s, l);
    if l == Dispatch {
      hide Inv, Outstanding, Paced, Hastens, Dispatched;
      DispatchStopped(s, Watch(0, d, true));
    } else {
      hide Inv, Enabled, Apply, Hastens, Outstanding, Paced;
      StepHastens(s, l, Watch(0, d, true));
    }
  }

  lemma {:induction false} StoppedOverRun(run: Run, i: nat, j: nat, d: nat)
    requires ValidRun(run) && i <= j < |run.states| && !run.states[i].running
    requires forall k :: i <= k <= j ==> Outstanding(run.states[k]) && Paced(run.states[k], d)
    ensures !run.states[j].running
    ensures Lead(run.states[j], d, true) + (run.states[j].clock - run.states[i].clock) <= Lead(run.states[i], d, true)
    decreases j
  {
    hide Inv, Enabled, Apply, Outstanding, Paced, LeadTime;
    if i < j {
      StoppedOverRun(run, i, j - 1, d);
      InvRun(run, j - 1);
      StoppedStep(run.states[j - 1], run.steps[j - 1], d);
    }
  }

  /** Once the transport is stopped, everything outstanding is resolved within what is left of the worker's iteration
      and one more, whatever waits and whatever the peer does. */
  lemma StopEndsSoon(run: Run, i: nat, j: nat, d: nat)
    requires ValidRun(run) && i <= j < |run.states| && !run.states[i].running
    requires forall k :: i <= k <= j ==> Outstanding(run.states[k]) && Paced(run.states[k], d)
    ensures run.states[j].clock - run.states[i].clock <= Lead(run.states[i], d, true) <= 2 * d
  {
    StoppedOverRun(run, i, j, d);
    LeadIsNat(run.states[j], d, true);
    var horizon := DeadlinesAhead(run, i);
    hide ValidRun, Outstanding, Paced, Due;
  }
}
