/** What is sent: a request goes out once, before it can be answered, and nothing goes out that still waits. */
module EngineTransmission {
  import opened Crc
  import opened Frames
  import opened Device
  import opened Engine
  import opened EngineInvariant
  import opened EngineRuns
  import opened EngineFields
  import EngineSteps

  /** No request has been transmitted twice. */
  predicate Once(ts: seq<Transmission>) {
    forall i, j :: 0 <= i < j < |ts| ==> ts[i].request != ts[j].request
  }

  predicate WasSent(ts: seq<Transmission>, r: Request) {
    exists i :: 0 <= i < |ts| && ts[i].request == r
  }

  /** Not sent yet: in a queue, or just dispatched. */
  predicate Waits(queue: seq<Request>, priorityQueue: seq<Request>, w: Worker, r: Request) {
    r in queue || r in priorityQueue || w == Sending(r)
  }

  /** Sent: in flight, once the worker is done with sending it and has not given it up; answered; or in between. */
  predicate Out(flight: map<Id, Request>, w: Worker, resolved: map<Request, Reply>, r: Request) {
    || (InFlight(flight, r) && w != Sending(r) && w != Failing(r))
    || ((w.Detached? || w.Answering?) && w.request == r)
    || (r in resolved && resolved[r].transportOk)
  }

  ghost predicate Ledger(s: State) {
    && Once(s.transmitted)
    && (forall r :: Waits(s.queue, s.priorityQueue, s.worker, r) ==> !WasSent(s.transmitted, r))
    && (forall r :: Out(s.inFlight, s.worker, s.resolved, r) ==> WasSent(s.transmitted, r))
  }

  lemma SentAppend(ts: seq<Transmission>, t: Transmission, r: Request)
    ensures WasSent(ts + [t], r) <==> WasSent(ts, r) || t.request == r
    ensures Once(ts) && !WasSent(ts, t.request) ==> Once(ts + [t])
  {
    if WasSent(ts, r) {
      var i :| 0 <= i < |ts| && ts[i].request == r;
      assert (ts + [t])[i].request == r;
    }
    if t.request == r {
      assert (ts + [t])[|ts|].request == r;
    }
  }

  // ----- who waits -----

  predicate WaitsIn(s: State, r: Request) { Waits(s.queue, s.priorityQueue, s.worker, r) }

  lemma EnqueueWaits(s: State, q: Request, r: Request)
    requires WaitsIn(Enqueue(s, q), r)
    ensures WaitsIn(s, r) || r == q
  {
  }

  lemma UnlockWaits(s: State, q: Request, r: Request)
    requires s.mutex.Owned? && WaitsIn(CallUnlocked(s, q), r)
    ensures WaitsIn(s, r) || r == q
  {
    if s.mutex.sawConnected && WaitsIn(Enqueue(s, q), r) {
      EnqueueWaits(s, q, r);
    }
    hide Enqueue;
  }

  lemma StreamWaits(s: State, rs: seq<Request>, r: Request)
    requires s.worker == Subscribing && WaitsIn(Streaming(s, rs), r)
    ensures WaitsIn(s, r) || r in rs
  {
  }

  lemma LaunchWaits(s: State, queue: seq<Request>, priorityQueue: seq<Request>, serving: seq<Request>, q: Request,
                    r: Request)
    requires forall p :: p in queue || p in priorityQueue || p == q ==> p in s.queue || p in s.priorityQueue
    requires WaitsIn(Launched(s.(queue := queue, priorityQueue := priorityQueue, serving := serving), q), r)
    ensures WaitsIn(s, r)
  {
  }

  lemma PollingWaits(s: State, r: Request)
    requires WaitsIn(s.(worker := Polling), r)
    ensures WaitsIn(s, r)
  {
  }

  lemma DispatchWaits(s: State, r: Request)
    requires s.worker == Dispatching && WaitsIn(Dispatched(s), r)
    ensures WaitsIn(s, r)
  {
    hide Launched, WaitsIn;
    if s.priorityQueue != [] && s.priorityQueue[0].id !in s.inFlight {
      LaunchWaits(s, s.queue, s.priorityQueue[1..], s.serving, s.priorityQueue[0], r);
    } else if s.priorityQueue == [] && s.inFlight == map[] && s.queue != [] {
      LaunchWaits(s, s.queue[1..], s.priorityQueue, [s.queue[0]], s.queue[0], r);
    } else {
      PollingWaits(s, r);
    }
  }

  lemma TakeWaits(s: State, order: seq<Request>, after: After, r: Request)
    ensures !WaitsIn(Taken(s, order, after), r)
  {
  }

  lemma NotAcceptedBefore(s: State, r: Request)
    requires Inv(s) && IsCall(s, r, Locked)
    ensures r !in s.acceptedOn
  {
    hide Conserved, Linked, Coherent, Ordered, Guarded, Tracked, Down;
  }

  lemma StreamIsNew(s: State, rs: seq<Request>, r: Request)
    requires Inv(s) && IsStream(s, rs) && r in rs
    ensures r !in s.acceptedOn
  {
    hide Conserved, Linked, Coherent, Ordered, Guarded, Tracked, Down;
  }

  /** Whoever the step brings to waiting. */
  predicate Enters(l: Step, r: Request) {
    (l.CallUnlock? && r == l.request) || (l.Stream? && r in l.requests)
  }

  lemma ContainerWaits(s: State, l: Step, r: Request)
    requires Enabled(s, l) && (l.CallUnlock? || l.Stream? || l.Dispatch? || l.TakeAll?) && WaitsIn(Apply(s, l), r)
    ensures WaitsIn(s, r) || Enters(l, r)
  {
    hide CallUnlocked, Streaming, Dispatched, Taken, IsStream, Visits, WaitsIn;
    match l
    case CallUnlock(q) => UnlockWaits(s, q, r);
    case Stream(rs) => StreamWaits(s, rs, r);
    case Dispatch => DispatchWaits(s, r);
    case TakeAll(order) => TakeWaits(s, order, s.worker.after, r);
  }

  lemma EntersNew(s: State, l: Step, r: Request)
    requires Inv(s) && Enabled(s, l) && Enters(l, r)
    ensures r !in s.acceptedOn
  {
    hide Inv, IsStream;
    if l.CallUnlock? {
      NotAcceptedBefore(s, r);
    } else {
      StreamIsNew(s, l.requests, r);
    }
  }

  /** Whoever begins to wait has just been accepted. */
  lemma WaitsStep(s: State, l: Step, r: Request)
    requires Inv(s) && Enabled(s, l) && WaitsIn(Apply(s, l), r) && !WaitsIn(s, r)
    ensures r !in s.acceptedOn
  {
    hide Inv, Enabled, Apply, Enters;
    if l.CallUnlock? || l.Stream? || l.Dispatch? || l.TakeAll? {
      hide WaitsIn;
      ContainerWaits(s, l, r);
      EntersNew(s, l, r);
    } else {
      StepKeeps(s, l);
    }
  }

  // ----- who is out -----

  predicate OutIn(s: State, r: Request) { Out(s.inFlight, s.worker, s.resolved, r) }

  lemma ResolveOut(s: State, q: Request, reply: Reply, r: Request)
    requires OutIn(Resolve(s, q, reply), r)
    ensures OutIn(s, r) || (r == q && reply.transportOk)
  {
  }

  lemma CallFailOut(s: State, q: Request, r: Request)
    requires OutIn(CallFailed(s, q), r)
    ensures OutIn(s, r)
  {
    assert OutIn(Resolve(s, q, FAILED), r) by { hide Resolve; }
    ResolveOut(s, q, FAILED, r);
    hide Resolve;
  }

  lemma LaunchOut(s: State, queue: seq<Request>, priorityQueue: seq<Request>, serving: seq<Request>, q: Request,
                  r: Request)
    requires s.worker == Dispatching
    requires OutIn(Launched(s.(queue := queue, priorityQueue := priorityQueue, serving := serving), q), r)
    ensures OutIn(s, r)
  {
  }

  lemma PollingOut(s: State, r: Request)
    requires s.worker == Dispatching && OutIn(s.(worker := Polling), r)
    ensures OutIn(s, r)
  {
  }

  lemma DispatchOut(s: State, r: Request)
    requires s.worker == Dispatching && OutIn(Dispatched(s), r)
    ensures OutIn(s, r)
  {
    hide Launched, OutIn;
    if s.priorityQueue != [] && s.priorityQueue[0].id !in s.inFlight {
      LaunchOut(s, s.queue, s.priorityQueue[1..], s.serving, s.priorityQueue[0], r);
    } else if s.priorityQueue == [] && s.inFlight == map[] && s.queue != [] {
      LaunchOut(s, s.queue[1..], s.priorityQueue, [s.queue[0]], s.queue[0], r);
    } else {
      PollingOut(s, r);
    }
  }

  lemma ResolveParts(s: State, q: Request, reply: Reply)
    ensures var n := Resolve(s, q, reply);
            && n.inFlight == s.inFlight && n.worker == s.worker
            && n.resolved == if q in s.resolved then s.resolved else s.resolved[q := reply]
  {
  }

  lemma FailSendParts(s: State, q: Request)
    ensures var n := SendFailed(s, q);
            && n.inFlight == s.inFlight - {q.id} && n.worker == Polling
            && n.resolved == if q in s.resolved then s.resolved else s.resolved[q := FAILED]
  {
    ResolveParts(Remove(s, q), q, FAILED);
    hide Resolve;
  }

  lemma FailSendOut(s: State, q: Request, r: Request)
    requires s.worker == Failing(q) && OutIn(SendFailed(s, q), r)
    ensures OutIn(s, r)
  {
    FailSendParts(s, q);
    hide SendFailed;
  }

  lemma PlaceOut(s: State, deadline: map<Request, nat>, r: Request)
    requires OutIn(s.(worker := Parsing), r) || OutIn(s.(deadline := deadline, worker := Parsing), r)
    requires s.worker.Arrived?
    ensures OutIn(s, r)
  {
  }

  lemma DetachOut(s: State, q: Request, w: Worker, r: Request)
    requires s.worker.Arrived? && InFlight(s.inFlight, q) && w.Detached? && w.request == q
    requires OutIn(Remove(s, q).(worker := w), r)
    ensures OutIn(s, r)
  {
  }

  lemma LookupOut(s: State, id: Id, status: nat, payload: seq<byte>, r: Request)
    requires s.worker == Arrived(id, status, payload) && (id in s.inFlight ==> s.inFlight[id].id == id)
    requires OutIn(LookedUp(s, id, status, payload), r)
    ensures OutIn(s, r)
  {
    hide OutIn, Remove;
    if id !in s.inFlight {
      PlaceOut(s, s.deadline, r);
    } else {
      var q := s.inFlight[id];
      if q.allowPending && status == STATUS_COMMAND_PENDING {
        PlaceOut(s, s.deadline[q := s.clock + q.timeout], r);
      } else {
        DetachOut(s, q, Detached(q, status, payload), r);
      }
    }
  }

  lemma AnswerOut(s: State, q: Request, reply: Reply, r: Request)
    requires s.worker == Answering(q, reply) && OutIn(Answered(s, q, reply), r)
    ensures OutIn(s, r)
  {
    if r != q {
      ResolveOut(s, q, reply, r) by { hide Resolve; }
    }
  }

  lemma TakeOut(s: State, order: seq<Request>, after: After, r: Request)
    requires OutIn(Taken(s, order, after), r)
    ensures OutIn(s, r)
  {
  }

  lemma DrainsOut(s: State, held: seq<Request>, after: After, r: Request)
    requires s.worker.Draining? && OutIn(s.(worker := Draining(held, after)), r)
    ensures OutIn(s, r)
  {
  }

  lemma FailNextOut(s: State, held: seq<Request>, after: After, r: Request)
    requires s.worker == Draining(held, after) && held != [] && OutIn(OneFailed(s, held, after), r)
    ensures OutIn(s, r)
  {
    assert Resolve(s, held[0], FAILED).worker.Draining?;
    hide Resolve, OutIn;
    DrainsOut(Resolve(s, held[0], FAILED), held[1..], after, r);
    ResolveOut(s, held[0], FAILED, r);
  }

  lemma NoteOut(s: State, r: Request)
    requires s.worker.Detached? && OutIn(Apply(s, Note), r)
    ensures OutIn(s, r)
  {
  }

  lemma SectionOut(s: State, l: Step, r: Request)
    requires forall id :: id in s.inFlight ==> s.inFlight[id].id == id
    requires Enabled(s, l) && OutIn(Apply(s, l), r) && (l.Dispatch? || l.FailSend? || l.Lookup? || l.TakeAll?)
    ensures OutIn(s, r)
  {
    hide OutIn, Visits, Dispatched, SendFailed, LookedUp, Taken;
    match l
    case Dispatch => DispatchOut(s, r);
    case FailSend => FailSendOut(s, s.worker.request, r);
    case Lookup => LookupOut(s, s.worker.id, s.worker.status, s.worker.payload, r);
    case TakeAll(order) => TakeOut(s, order, s.worker.after, r);
  }

  lemma ContainerOut(s: State, l: Step, r: Request)
    requires forall id :: id in s.inFlight ==> s.inFlight[id].id == id
    requires Enabled(s, l) && OutIn(Apply(s, l), r)
    requires l.Dispatch? || l.FailSend? || l.Lookup? || l.TakeAll? || l.CallFail? || l.Answer? || l.FailNext? || l.Note?
    ensures OutIn(s, r)
  {
    if l.Note? {
      hide Apply, OutIn;
      NoteOut(s, r);
    } else if l.Dispatch? || l.FailSend? || l.Lookup? || l.TakeAll? {
      hide Enabled, Apply, OutIn;
      SectionOut(s, l, r);
    } else {
      hide OutIn, CallFailed, Answered, OneFailed;
      match l
      case CallFail(q) => CallFailOut(s, q, r);
      case Answer => AnswerOut(s, s.worker.request, s.worker.reply, r);
      case FailNext => FailNextOut(s, s.worker.held, s.worker.after, r);
    }
  }

  lemma OutOfHands(s: State, l: Step, n: State, r: Request)
    requires Keeps(s, l, n) && OutIn(n, r) && !OutIn(s, r)
    requires !l.Dispatch? && !l.FailSend? && !l.Lookup? && !l.TakeAll? && !l.CallFail? && !l.Answer? && !l.FailNext?
    requires !l.Note?
    ensures Sends(l) && s.worker == Sending(r)
  {
  }

  /** Only a transmission puts a request out. */
  lemma OutStep(s: State, l: Step, r: Request)
    requires Inv(s) && Enabled(s, l) && OutIn(Apply(s, l), r) && !OutIn(s, r)
    ensures Sends(l) && s.worker == Sending(r)
  {
    EngineSteps.KeyedById(s) by { hide Linked, Coherent, Dated, Ordered, Guarded, Tracked, Down; }
    hide Inv;
    if l.Dispatch? || l.FailSend? || l.Lookup? || l.TakeAll? || l.CallFail? || l.Answer? || l.FailNext? || l.Note? {
      ContainerOut(s, l, r);
    } else {
      hide Enabled, Apply, Keeps, OutIn, Sends;
      StepKeeps(s, l);
      OutOfHands(s, l, Apply(s, l), r);
    }
  }

  // ----- transmissions -----

  /** What the step transmits. */
  function Transmits(s: State, l: Step): seq<Transmission> {
    if s.worker.Sending? && (l.SendDone? || l.SendBroken? || (l.SendRefused? && |s.worker.request.payload| <= MAX_SIZE))
    then [Transmission(s.worker.request, Generation(s))] else []
  }

  lemma TransmitsOne(s: State, l: Step)
    ensures Transmits(s, l) != [] ==> Transmits(s, l) == [Transmits(s, l)[0]]
  {
  }

  lemma TransmissionStep(s: State, l: Step)
    requires Enabled(s, l)
    ensures Apply(s, l).transmitted == s.transmitted + Transmits(s, l)
  {
    if !Sends(l) {
      hide Enabled, Apply;
      StepKeeps(s, l);
    }
  }

  /** Refused for its size, a request is given up and not out. */
  lemma RefusedIsNotOut(s: State, r: Request)
    requires Enabled(s, SendRefused) && s.worker == Sending(r) && !OutIn(s, r)
    ensures !OutIn(Apply(s, SendRefused), r)
  {
  }

  lemma SendingIsNew(s: State)
    requires Inv(s) && Ledger(s) && s.worker.Sending?
    ensures !WasSent(s.transmitted, s.worker.request)
    ensures s.worker.request !in s.queue && s.worker.request !in s.priorityQueue
  {
    var r := s.worker.request;
    assert Waits(s.queue, s.priorityQueue, s.worker, r);
    EngineSteps.OnePlace(s, r);
    hide Coherent, Dated, Ordered, Guarded, Down;
  }

  lemma SentIsAccepted(ts: seq<Transmission>, acceptedOn: map<Request, nat>, r: Request)
    requires SentWhenAccepted(ts, acceptedOn) && WasSent(ts, r)
    ensures r in acceptedOn
  {
    var i :| 0 <= i < |ts| && ts[i].request == r;
    assert ts[i] in ts;
  }

  lemma UnacceptedIsUnsent(s: State, r: Request)
    requires Inv(s) && r !in s.acceptedOn
    ensures !WasSent(s.transmitted, r)
  {
    SentSoFar(s);
    hide Inv;
    if WasSent(s.transmitted, r) {
      SentIsAccepted(s.transmitted, s.acceptedOn, r);
    }
  }

  lemma LedgerSays(s: State, r: Request)
    requires Ledger(s)
    ensures Once(s.transmitted)
    ensures WaitsIn(s, r) ==> !WasSent(s.transmitted, r)
    ensures OutIn(s, r) ==> WasSent(s.transmitted, r)
  {
    hide Once, WasSent, Waits, Out;
  }

  lemma SendLeaves(s: State, l: Step)
    requires Enabled(s, l) && Sends(l)
    ensures !Apply(s, l).worker.Sending?
  {
    hide Engine.Sent;
  }

  /** Waiting before and after a transmission is no transmission of one's own. */
  lemma TransmitsOther(s: State, l: Step, r: Request)
    requires Inv(s) && Ledger(s) && Enabled(s, l) && Transmits(s, l) != [] && WaitsIn(Apply(s, l), r)
    ensures Transmits(s, l)[0].request != r
  {
    hide Inv, Ledger, Enabled, Apply;
    SendingIsNew(s);
    SendLeaves(s, l);
    StepKeeps(s, l);
  }

  lemma LedgerWaits(s: State, l: Step, r: Request)
    requires Inv(s) && Enabled(s, l) && Ledger(s) && WaitsIn(Apply(s, l), r)
    ensures !WasSent(Apply(s, l).transmitted, r)
  {
    hide Inv, Ledger, Enabled, Apply, WasSent, Once, WaitsIn, OutIn, Transmits;
    TransmissionStep(s, l);
    LedgerSays(s, r);
    if !WaitsIn(s, r) {
      WaitsStep(s, l, r);
      UnacceptedIsUnsent(s, r);
    }
    if Transmits(s, l) != [] {
      TransmitsOther(s, l, r);
      TransmitsOne(s, l);
      SentAppend(s.transmitted, Transmits(s, l)[0], r);
    } else {
      assert s.transmitted + [] == s.transmitted;
    }
  }

  /** A request that a step puts out is the one it transmits. */
  lemma OutTransmits(s: State, l: Step, r: Request)
    requires Inv(s) && Enabled(s, l) && OutIn(Apply(s, l), r) && !OutIn(s, r)
    ensures Transmits(s, l) != [] && Transmits(s, l)[0].request == r
  {
    OutStep(s, l, r);
    hide Inv, OutIn;
    if l.SendRefused? {
      RefusedIsNotOut(s, r);
    }
    hide Apply;
  }

  lemma LedgerOut(s: State, l: Step, r: Request)
    requires Inv(s) && Enabled(s, l) && Ledger(s) && OutIn(Apply(s, l), r)
    ensures WasSent(Apply(s, l).transmitted, r)
  {
    hide Inv, Ledger, Enabled, Apply, WasSent, Once, WaitsIn, OutIn, Transmits;
    TransmissionStep(s, l);
    LedgerSays(s, r);
    if !OutIn(s, r) {
      OutTransmits(s, l, r);
    }
    if Transmits(s, l) != [] {
      TransmitsOne(s, l);
      SentAppend(s.transmitted, Transmits(s, l)[0], r);
    } else {
      assert s.transmitted + [] == s.transmitted;
    }
  }

  lemma LedgerOnce(s: State, l: Step)
    requires Inv(s) && Enabled(s, l) && Ledger(s)
    ensures Once(Apply(s, l).transmitted)
  {
    TransmissionStep(s, l);
    if Transmits(s, l) != [] {
      SendingIsNew(s);
      SentAppend(s.transmitted, Transmits(s, l)[0], s.worker.request);
    }
    hide Inv, Enabled, Apply, WasSent, Once;
  }

  lemma LedgerStep(s: State, l: Step)
    requires Inv(s) && Enabled(s, l) && Ledger(s)
    ensures Ledger(Apply(s, l))
  {
    hide Inv, Enabled, Apply, Once, WasSent, Waits, Out;
    var n := Apply(s, l);
    LedgerOnce(s, l);
    forall r | Waits(n.queue, n.priorityQueue, n.worker, r)
      ensures !WasSent(n.transmitted, r)
    {
      LedgerWaits(s, l, r);
    }
    forall r | Out(n.inFlight, n.worker, n.resolved, r)
      ensures WasSent(n.transmitted, r)
    {
      LedgerOut(s, l, r);
    }
  }

  lemma LedgerAtFirst(maxPayload: nat)
    ensures Ledger(Initially(maxPayload))
  {
  }

  lemma {:induction false} LedgerRun(run: Run, k: nat)
    requires ValidRun(run) && k < |run.states|
    ensures Ledger(run.states[k])
    decreases k
  {
    hide Inv, Ledger, Enabled, Apply;
    if k == 0 {
      LedgerAtFirst(run.states[0].maxPayload);
    } else {
      LedgerRun(run, k - 1);
      InvRun(run, k - 1);
      LedgerStep(run.states[k - 1], run.steps[k - 1]);
    }
  }

  /** `r` was transmitted exactly once, on generation `g`. */
  predicate SentOnceOn(ts: seq<Transmission>, r: Request, g: nat) {
    exists i ::
      0 <= i < |ts| && ts[i] == Transmission(r, g) && forall j :: 0 <= j < |ts| && j != i ==> ts[j].request != r
  }

  lemma SentExactly(s: State, r: Request)
    requires Inv(s) && Ledger(s) && WasSent(s.transmitted, r)
    ensures r in s.acceptedOn && SentOnceOn(s.transmitted, r, s.acceptedOn[r])
  {
    var ts := s.transmitted;
    var i :| 0 <= i < |ts| && ts[i].request == r;
    assert ts[i] in ts;
    assert ts[i] == Transmission(r, s.acceptedOn[r]) by {
      hide Conserved, Linked, Coherent, Ordered, Guarded, Tracked, Down;
    }
    hide Inv;
  }

  /** What has been dispatched is sent, exactly once, on the connection it was accepted on: a request in flight, once
      the worker is done with sending it and has not given it up; and a request that the device has answered. What
      still waits has not been sent. */
  lemma TransmittedOnce(run: Run, k: nat, r: Request)
    requires ValidRun(run) && k < |run.states|
    ensures var s := run.states[k];
            && (InFlight(s.inFlight, r) && s.worker != Sending(r) && s.worker != Failing(r) ==>
                  r in s.acceptedOn && SentOnceOn(s.transmitted, r, s.acceptedOn[r]))
            && (r in s.resolved && s.resolved[r].transportOk ==>
                  r in s.acceptedOn && SentOnceOn(s.transmitted, r, s.acceptedOn[r]))
            && (r in s.queue || r in s.priorityQueue ==> forall t :: t in s.transmitted ==> t.request != r)
  {
    var s := run.states[k];
    LedgerRun(run, k);
    InvRun(run, k);
    if WasSent(s.transmitted, r) {
      SentExactly(s, r);
    }
    hide ValidRun, Inv, SentOnceOn;
    assert Out(s.inFlight, s.worker, s.resolved, r) ==> WasSent(s.transmitted, r);
    assert Waits(s.queue, s.priorityQueue, s.worker, r) ==> !WasSent(s.transmitted, r);
  }
}
