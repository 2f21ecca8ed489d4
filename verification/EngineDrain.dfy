/** How long accepted requests can stay unresolved. Time passes only in `Tick` steps; the assumption is that at
    most `d` passes between the start of a worker iteration (the connection coming up, or the moment an expiry check
    that passes read the clock) and the next one, or the end of the `disconnect` it runs into. */
module EngineDrain {
  import opened Crc
  import opened Frames
  import opened Device
  import opened Engine
  import opened EngineInvariant
  import opened EngineRuns
  import opened EngineSteps

  /** How long a waiting request can hold up the others: it is dispatched within an iteration of its turn, the expiry
      check passes for the last time one tick before its deadline, and what ends it ends within another iteration. */
  function Share(r: Request, d: nat): nat { Max(r.timeout, 1) + 2 * d - 1 }

  function Waiting(rs: seq<Request>, d: nat): nat
    decreases |rs|
  {
    if rs == [] then 0 else Share(rs[0], d) + Waiting(rs[1..], d)
  }

  /** Some accepted request is not resolved yet. */
  predicate Outstanding(s: State) {
    s.queue != [] || s.priorityQueue != [] || s.inFlight != map[] || Held(s.worker) != []
  }

  predicate InDisconnect(w: Worker) {
    w.Closing? || w.Closed? || w.Draining?
  }

  /** The worker dispatches once more in this iteration, or starts the next by an expiry check that passes. */
  predicate BeforeDispatch(w: Worker) {
    w == Loop || w == Fresh || w == Subscribing || w == Dispatching || w.Checking?
  }

  predicate Due(w: Worker, flight: map<Id, Request>, deadline: map<Request, nat>, from: nat, clock: nat, horizon: nat) {
    !InDisconnect(w) ==>
      forall id :: id in flight ==>
        && flight[id] in deadline && from <= deadline[flight[id]] <= horizon
        && deadline[flight[id]] <= clock + flight[id].timeout
  }

  /** `horizon` is an upper bound of the deadlines in flight; none lies before the present iteration, nor further
      ahead than its timeout. */
  predicate Timed(s: State, horizon: nat) {
    && s.sampled <= s.clock && (s.worker.Checking? ==> s.worker.now <= s.clock)
    && Due(s.worker, s.inFlight, s.deadline, s.sampled, s.clock, horizon)
  }

  /** The worker keeps its pace. */
  predicate Paced(s: State, d: nat) { s.clock <= s.sampled + d }

  /** When the iteration began; an expiry check under way begins the next one if it passes. */
  function Began(w: Worker, sampled: nat): nat { if w.Checking? then Max(w.now, sampled) else sampled }

  /** When the expiry check can pass for the last time while a request due at `horizon` is in flight. */
  function LastPass(horizon: nat, sampled: nat): nat { if horizon > sampled then horizon - 1 else sampled }

  function Rest(flight: map<Id, Request>, w: Worker, clock: nat, sampled: nat, horizon: nat, d: nat): int {
    if flight != map[] then LastPass(horizon, sampled) + d - clock
    else Began(w, sampled) - clock + (if BeforeDispatch(w) then 0 else d)
  }

  function BoundOf(queue: seq<Request>, priorityQueue: seq<Request>, flight: map<Id, Request>, w: Worker, clock: nat,
                   sampled: nat, horizon: nat, d: nat): int
  {
    if InDisconnect(w) then sampled + d - clock
    else Waiting(queue, d) + Waiting(priorityQueue, d) + Rest(flight, w, clock, sampled, horizon, d)
  }

  /** How long something can stay outstanding from `s` on. */
  function Bound(s: State, horizon: nat, d: nat): int {
    BoundOf(s.queue, s.priorityQueue, s.inFlight, s.worker, s.clock, s.sampled, horizon, d)
  }

  /** By how much a pending reply that arrives now moves the deadline of `r`. */
  function Extension(s: State, r: Request): nat {
    if r in s.deadline && s.deadline[r] <= s.clock + r.timeout then s.clock + r.timeout - s.deadline[r] else r.timeout
  }

  /** What a step adds: the share of a request it accepts, or what a pending reply adds to the deadline. */
  function Granted(s: State, l: Step, d: nat): nat {
    match l
    case CallUnlock(r) => if s.mutex.Owned? && s.mutex.sawConnected then Share(r, d) else 0
    case Stream(rs) => Waiting(rs, d)
    case Lookup =>
      if s.worker.Arrived? && s.worker.id in s.inFlight && s.inFlight[s.worker.id].allowPending &&
         s.worker.status == STATUS_COMMAND_PENDING
      then Extension(s, s.inFlight[s.worker.id]) else 0
    case _ => 0
  }

  lemma {:induction false} WaitingAppend(rs: seq<Request>, ts: seq<Request>, d: nat)
    ensures Waiting(rs + ts, d) == Waiting(rs, d) + Waiting(ts, d)
    decreases |rs|
  {
    if rs == [] {
      assert rs + ts == ts;
    } else {
      assert (rs + ts)[1..] == rs[1..] + ts;
      WaitingAppend(rs[1..], ts, d);
    }
  }

  lemma WaitingOne(r: Request, d: nat)
    ensures Waiting([r], d) == Share(r, d)
  {
    assert [r][1..] == [];
  }

  lemma SomeInFlight(flight: map<Id, Request>) returns (id: Id)
    requires flight != map[]
    ensures id in flight
  {
    assert flight.Keys != {};
    id :| id in flight.Keys;
  }

  /** Something in flight is due no earlier than the iteration began. */
  lemma HorizonAhead(s: State, horizon: nat)
    requires Timed(s, horizon) && s.inFlight != map[] && !InDisconnect(s.worker)
    ensures horizon >= s.sampled
  {
    var id := SomeInFlight(s.inFlight);
    assert s.sampled <= s.deadline[s.inFlight[id]];
  }

  // ----- one step -----

  lemma SomethingWaits(s: State, d: nat)
    ensures s.queue != [] || s.priorityQueue != [] ==> Waiting(s.queue, d) + Waiting(s.priorityQueue, d) >= 2 * d
  {
  }

  /** The containers stay; the worker moves on within the iteration or into `disconnect`. */
  lemma QuietPasses(s: State, n: State, horizon: nat, d: nat)
    requires Timed(s, horizon) && Paced(s, d)
    requires n.queue == s.queue && n.priorityQueue == s.priorityQueue && n.inFlight == s.inFlight &&
             n.deadline == s.deadline
    requires n.clock == s.clock && n.sampled == s.sampled
    requires InDisconnect(s.worker) ==> InDisconnect(n.worker)
    requires InDisconnect(n.worker) || s.inFlight != map[] || (BeforeDispatch(s.worker) ==> BeforeDispatch(n.worker))
    requires InDisconnect(n.worker) && BeforeDispatch(s.worker) ==> Outstanding(s)
    requires n.worker.Checking? ==>
               n.worker == s.worker || (n.worker == Checking(s.clock) && !BeforeDispatch(s.worker))
    requires s.worker.Checking? ==> n.worker == s.worker || s.inFlight != map[]
    ensures Timed(n, horizon) && Bound(n, horizon, d) <= Bound(s, horizon, d)
  {
    SomethingWaits(s, d);
    if s.inFlight != map[] && !InDisconnect(s.worker) {
      HorizonAhead(s, horizon);
    }
  }

  lemma TickPasses(s: State, elapsed: nat, horizon: nat, d: nat)
    requires Timed(s, horizon)
    ensures var n := s.(clock := s.clock + elapsed);
            Timed(n, horizon) && Bound(n, horizon, d) + elapsed == Bound(s, horizon, d)
  {
  }

  lemma ExpirePasses(s: State, now: nat, horizon: nat, d: nat)
    requires Timed(s, horizon) && Paced(s, d) && s.worker == Checking(now) && !Expired(s, now)
    ensures var n := s.(sampled := now, worker := Loop);
            Timed(n, horizon) && Bound(n, horizon, d) <= Bound(s, horizon, d)
  {
    forall id | id in s.inFlight
      ensures now < s.deadline[s.inFlight[id]]
    {
    }
    if s.inFlight != map[] {
      var id := SomeInFlight(s.inFlight);
    }
  }

  lemma AcceptPasses(s: State, r: Request, horizon: nat, d: nat)
    requires Timed(s, horizon)
    ensures var n := Enqueue(s, r);
            Timed(n, horizon) && Bound(n, horizon, d) <= Bound(s, horizon, d) + Share(r, d) && n.clock == s.clock
  {
    WaitingOne(r, d);
    WaitingAppend(s.queue, [r], d);
    WaitingAppend(s.priorityQueue, [r], d);
  }

  lemma StreamPasses(s: State, rs: seq<Request>, horizon: nat, d: nat)
    requires Timed(s, horizon) && s.worker == Subscribing
    ensures var n := Streaming(s, rs);
            Timed(n, horizon) && Bound(n, horizon, d) <= Bound(s, horizon, d) + Waiting(rs, d) && n.clock == s.clock
  {
    WaitingAppend(s.queue, rs, d);
  }

  lemma DueLaunched(w: Worker, flight: map<Id, Request>, deadline: map<Request, nat>, from: nat, clock: nat, r: Request,
                    horizon: nat)
    requires from <= clock && !InDisconnect(w) && Due(w, flight, deadline, from, clock, horizon)
    ensures var horizon' := if flight == map[] then clock + r.timeout else Max(horizon, clock + r.timeout);
            Due(Sending(r), flight[r.id := r], deadline[r := clock + r.timeout], from, clock, horizon')
  {
  }

  lemma BoundLaunched(queue: seq<Request>, priorityQueue: seq<Request>, was: int, flight: map<Id, Request>, clock: nat,
                      sampled: nat, horizon: nat, d: nat, r: Request)
    requires sampled <= clock <= sampled + d && (flight != map[] ==> sampled <= horizon)
    requires Waiting(queue, d) + Waiting(priorityQueue, d) + Share(r, d) == was
    ensures var horizon' := if flight == map[] then clock + r.timeout else Max(horizon, clock + r.timeout);
            BoundOf(queue, priorityQueue, flight[r.id := r], Sending(r), clock, sampled, horizon', d) <=
              was + Rest(flight, Dispatching, clock, sampled, horizon, d)
  {
    hide Waiting;
    assert flight[r.id := r] != map[] by {
      assert r.id in flight[r.id := r];
    }
  }

  lemma AtDispatch(s: State, horizon: nat, d: nat)
    requires Timed(s, horizon) && s.worker == Dispatching
    ensures Bound(s, horizon, d) ==
              Waiting(s.queue, d) + Waiting(s.priorityQueue, d) + Rest(s.inFlight, Dispatching, s.clock, s.sampled,
                  horizon, d)
    ensures s.sampled <= s.clock && !InDisconnect(s.worker)
    ensures s.inFlight != map[] ==> s.sampled <= horizon
  {
    if s.inFlight != map[] {
      HorizonAhead(s, horizon);
    }
  }

  lemma LaunchPasses(s: State, queue: seq<Request>, priorityQueue: seq<Request>, serving: seq<Request>, r: Request,
                     horizon: nat, d: nat)
    requires Timed(s, horizon) && Paced(s, d) && s.worker == Dispatching
    requires Waiting(queue, d) + Waiting(priorityQueue, d) + Share(r, d) ==
             Waiting(s.queue, d) + Waiting(s.priorityQueue, d)
    ensures var n := Launched(s.(queue := queue, priorityQueue := priorityQueue, serving := serving), r);
            var horizon' := if s.inFlight == map[] then s.clock + r.timeout else Max(horizon, s.clock + r.timeout);
            Timed(n, horizon') && Bound(n, horizon', d) <= Bound(s, horizon, d) && n.clock == s.clock
  {
    hide Waiting, Rest, Max, Due;
    AtDispatch(s, horizon, d);
    hide BoundOf, InDisconnect;
    DueLaunched(s.worker, s.inFlight, s.deadline, s.sampled, s.clock, r, horizon);
    var was := Waiting(s.queue, d) + Waiting(s.priorityQueue, d);
    BoundLaunched(queue, priorityQueue, was, s.inFlight, s.clock, s.sampled, horizon, d, r);
  }

  /** Nothing can be dispatched, because something is in flight. */
  lemma WaitPasses(s: State, horizon: nat, d: nat)
    requires Timed(s, horizon) && Paced(s, d) && s.worker == Dispatching && Outstanding(s)
    requires s.priorityQueue != [] ==> s.priorityQueue[0].id in s.inFlight
    requires s.priorityQueue == [] ==> s.inFlight != map[] || s.queue == []
    ensures var n := s.(worker := Polling); Timed(n, horizon) && Bound(n, horizon, d) <= Bound(s, horizon, d)
  {
    QuietPasses(s, s.(worker := Polling), horizon, d);
  }

  lemma DispatchPasses(s: State, horizon: nat, d: nat) returns (horizon': nat)
    requires Timed(s, horizon) && Paced(s, d) && s.worker == Dispatching && Outstanding(s)
    ensures var n := Dispatched(s);
            Timed(n, horizon') && Bound(n, horizon', d) <= Bound(s, horizon, d) && n.clock == s.clock
  {
    hide Timed, Launched, Bound;
    horizon' := horizon;
    if s.priorityQueue != [] && s.priorityQueue[0].id !in s.inFlight {
      var r := s.priorityQueue[0];
      horizon' := if s.inFlight == map[] then s.clock + r.timeout else Max(horizon, s.clock + r.timeout);
      LaunchPasses(s, s.queue, s.priorityQueue[1..], s.serving, r, horizon, d);
    } else if s.priorityQueue == [] && s.inFlight == map[] && s.queue != [] {
      var r := s.queue[0];
      horizon' := s.clock + r.timeout;
      LaunchPasses(s, s.queue[1..], s.priorityQueue, [r], r, horizon, d);
    } else {
      WaitPasses(s, horizon, d);
    }
  }

  /** A request leaves the in-flight table. */
  lemma RemovePasses(s: State, n: State, r: Request, horizon: nat, d: nat)
    requires Timed(s, horizon) && Paced(s, d) && s.inFlight != map[]
    requires !InDisconnect(s.worker) && !InDisconnect(n.worker) && !n.worker.Checking?
    requires n.queue == s.queue && n.priorityQueue == s.priorityQueue && n.deadline == s.deadline
    requires n.clock == s.clock && n.sampled == s.sampled && n.inFlight == s.inFlight - {r.id}
    ensures Timed(n, horizon) && Bound(n, horizon, d) <= Bound(s, horizon, d)
  {
    HorizonAhead(s, horizon);
  }

  /** What the bound loses in a step covers the time that passes, up to what the step grants. */
  predicate Pays(s: State, n: State, horizon: nat, horizon': nat, d: nat, granted: nat) {
    Timed(n, horizon') && n.clock >= s.clock && Bound(n, horizon', d) + (n.clock - s.clock) <=
      Bound(s, horizon, d) + granted
  }

  /** While something is outstanding, the worker is not between connections. */
  lemma BusyIsLinked(s: State)
    requires Inv(s) && Outstanding(s)
    ensures s.worker != Exited && s.worker != Bumped && s.worker != Dialing
    ensures s.worker == Loop ==> s.socket
    ensures s.worker.Draining? ==> s.worker.held != []
    ensures s.worker.Sending? ==> s.inFlight != map[]
  {
    hide Conserved, Coherent, Dated, Ordered, Guarded;
  }

  lemma SameBound(s: State, n: State, horizon: nat, d: nat)
    requires n.queue == s.queue && n.priorityQueue == s.priorityQueue && n.inFlight == s.inFlight &&
             n.deadline == s.deadline
    requires n.clock == s.clock && n.sampled == s.sampled && n.worker == s.worker
    ensures Bound(n, horizon, d) == Bound(s, horizon, d) && Timed(n, horizon) == Timed(s, horizon)
  {
    hide Waiting, Rest, Due, InDisconnect;
  }

  lemma UnlockPasses(s: State, r: Request, horizon: nat, d: nat)
    requires Timed(s, horizon) && Paced(s, d) && s.mutex.Owned?
    ensures Pays(s, CallUnlocked(s, r), horizon, horizon, d, if s.mutex.sawConnected then Share(r, d) else 0)
  {
    var n := CallUnlocked(s, r);
    if s.mutex.sawConnected {
      AcceptPasses(s, r, horizon, d);
      SameBound(Enqueue(s, r), n, horizon, d);
    } else {
      SameBound(s, n, horizon, d);
    }
    hide Bound, Timed, CallUnlocked, Enqueue;
  }

  lemma ClientDrain(s: State, l: Step, horizon: nat, d: nat)
    requires Timed(s, horizon) && Paced(s, d) && Enabled(s, l)
    requires l.Stop? || l.Submit? || l.CallLock? || l.CallFail? || l.Tick? || l.CallUnlock? || l.Stream?
    ensures Pays(s, Apply(s, l), horizon, horizon, d, Granted(s, l, d))
  {
    hide Timed, Paced, Bound, Streaming, Enqueue, Waiting, IsStream;
    if l.Tick? {
      TickPasses(s, l.elapsed, horizon, d);
    } else if l.CallUnlock? {
      UnlockPasses(s, l.request, horizon, d);
    } else if l.Stream? {
      StreamPasses(s, l.requests, horizon, d);
    } else {
      QuietPasses(s, Apply(s, l), horizon, d);
    }
  }

  /** The worker moves on; the containers stay. */
  lemma MovePasses(s: State, running: bool, connected: bool, socket: bool, device: DeviceState, w: Worker,
                   transmitted: seq<Transmission>, horizon: nat, d: nat)
    requires Timed(s, horizon) && Paced(s, d) && (InDisconnect(s.worker) ==> InDisconnect(w))
    requires InDisconnect(w) || s.inFlight != map[] || !BeforeDispatch(s.worker) || BeforeDispatch(w)
    requires InDisconnect(w) && BeforeDispatch(s.worker) ==> Outstanding(s)
    requires w.Checking? ==> w == Checking(s.clock) && !BeforeDispatch(s.worker)
    requires s.worker.Checking? ==> s.inFlight != map[]
    ensures Pays(s, Adjust(s, running, connected, socket, device, w, s.deadline, s.clock, transmitted, s.sampled),
                 horizon, horizon, d, 0)
  {
    hide Timed, Paced, Bound, InDisconnect, BeforeDispatch, Outstanding;
    QuietPasses(s, Adjust(s, running, connected, socket, device, w, s.deadline, s.clock, transmitted, s.sampled),
                horizon, d);
  }

  /** Starting, connecting and the end of `disconnect` are out of reach while something is outstanding. */
  lemma LoopDrain(s: State, l: Step, horizon: nat, d: nat)
    requires Inv(s) && Outstanding(s) && Timed(s, horizon) && Paced(s, d) && Enabled(s, l)
    requires InLoop(l) && !l.Stop? && !l.Tick?
    ensures Pays(s, Apply(s, l), horizon, horizon, d, 0)
  {
    BusyIsLinked(s);
    hide Inv, Pays, Outstanding, Timed, Paced;
    if l.Serve? {
      MovePasses(s, s.running, s.connected, s.socket, s.device, Dispatching, s.transmitted, horizon, d);
    } else if l.Proceed? {
      MovePasses(s, s.running, s.connected, s.socket, s.device, Subscribing, s.transmitted, horizon, d);
    } else if l.Leave? {
      MovePasses(s, s.running, false, s.socket, s.device, Closing(ToExit), s.transmitted, horizon, d);
    } else {
      assert false;
    }
  }

  /** The worker moves on past the dispatch of its iteration. */
  lemma LaterPasses(s: State, connected: bool, w: Worker, transmitted: seq<Transmission>, horizon: nat, d: nat)
    requires Timed(s, horizon) && Paced(s, d) && !BeforeDispatch(s.worker) && !InDisconnect(s.worker) && !w.Checking?
    ensures Pays(s, Adjust(s, s.running, connected, s.socket, s.device, w, s.deadline, s.clock, transmitted, s.sampled),
                 horizon, horizon, d, 0)
  {
    hide Timed, Paced, Pays, Outstanding;
    MovePasses(s, s.running, connected, s.socket, s.device, w, transmitted, horizon, d);
  }

  lemma SendingIsLater(s: State, l: Step)
    requires Enabled(s, l) && InSend(l)
    ensures !BeforeDispatch(s.worker) && !InDisconnect(s.worker)
  {
  }

  lemma ReceivingIsLater(s: State, l: Step)
    requires Enabled(s, l) && InReceive(l)
    ensures !BeforeDispatch(s.worker) && !InDisconnect(s.worker)
  {
    hide FramesPerRecv;
  }

  lemma SendDrain(s: State, l: Step, horizon: nat, d: nat)
    requires Timed(s, horizon) && Paced(s, d) && Enabled(s, l) && InSend(l)
    ensures Pays(s, Apply(s, l), horizon, horizon, d, 0)
  {
    SendingIsLater(s, l);
    hide Pays, Timed, Paced, Sent, BeforeDispatch, InDisconnect;
    match l
    case SendDone => LaterPasses(s, s.connected, Polling, Sent(s, s.worker.request), horizon, d);
    case SendRefused =>
      var r := s.worker.request;
      LaterPasses(s, s.connected, Failing(r), if |r.payload| > MAX_SIZE then s.transmitted else Sent(s, r), horizon, d);
    case SendBroken =>
      var r := s.worker.request;
      LaterPasses(s, false, Closing(ToFailure(r)), Sent(s, r), horizon, d);
    case PollQuiet => LaterPasses(s, s.connected, Expiring, s.transmitted, horizon, d);
    case PollData => LaterPasses(s, s.connected, Receiving, s.transmitted, horizon, d);
    case PollLost => LaterPasses(s, false, Closing(ToLoop), s.transmitted, horizon, d);
  }

  lemma AnswerPasses(s: State, n: State, horizon: nat, d: nat)
    requires Timed(s, horizon) && Paced(s, d) && !BeforeDispatch(s.worker) &&
             (InDisconnect(s.worker) ==> InDisconnect(n.worker)) && !n.worker.Checking?
    requires n.queue == s.queue && n.priorityQueue == s.priorityQueue && n.inFlight == s.inFlight &&
             n.deadline == s.deadline
    requires n.clock == s.clock && n.sampled == s.sampled
    ensures Pays(s, n, horizon, horizon, d, 0)
  {
    QuietPasses(s, n, horizon, d);
  }

  lemma FrameDrain(s: State, id: Id, p: seq<byte>, horizon: nat, d: nat)
    requires Timed(s, horizon) && Paced(s, d) && s.worker == Parsing && s.unparsed > 0
    ensures Pays(s, s.(unparsed := s.unparsed - 1), horizon, horizon, d, 0)
    ensures |p| >= 2 ==>
              Pays(s, s.(unparsed := s.unparsed - 1, device := Updated(s.device, id, Status(p), p),
                         worker := Arrived(id, Status(p), p)), horizon, horizon, d, 0)
  {
    hide Pays, Timed, Paced, Updated, Status;
    AnswerPasses(s, s.(unparsed := s.unparsed - 1), horizon, d);
    if |p| >= 2 {
      AnswerPasses(s, s.(unparsed := s.unparsed - 1, device := Updated(s.device, id, Status(p), p),
                         worker := Arrived(id, Status(p), p)), horizon, d);
    }
  }

  lemma DataDrain(s: State, frames: nat, horizon: nat, d: nat)
    requires Timed(s, horizon) && Paced(s, d) && s.worker == InRecv
    ensures Pays(s, s.(unparsed := frames, worker := Parsing), horizon, horizon, d, 0)
  {
    hide Pays, Timed, Paced;
    AnswerPasses(s, s.(unparsed := frames, worker := Parsing), horizon, d);
  }

  lemma NoteDrain(s: State, horizon: nat, d: nat)
    requires Timed(s, horizon) && Paced(s, d) && s.worker.Detached?
    ensures Pays(s, Apply(s, Note), horizon, horizon, d, 0)
  {
    hide Pays, Timed, Paced;
    AnswerPasses(s, Apply(s, Note), horizon, d);
  }

  lemma ReceiveMoves(s: State, l: Step, horizon: nat, d: nat)
    requires Timed(s, horizon) && Paced(s, d) && Enabled(s, l) && InReceive(l) && !l.Frame? && !l.Data? && !l.Note?
    ensures Pays(s, Apply(s, l), horizon, horizon, d, 0)
  {
    hide Pays, Timed, Paced, BeforeDispatch, InDisconnect;
    ReceivingIsLater(s, l);
    match l
    case Recv => LaterPasses(s, s.connected, InRecv, s.transmitted, horizon, d);
    case ParseDone => LaterPasses(s, s.connected, Receiving, s.transmitted, horizon, d);
    case Interrupted => LaterPasses(s, s.connected, Receiving, s.transmitted, horizon, d);
    case ReceiveDone => LaterPasses(s, s.connected, Expiring, s.transmitted, horizon, d);
    case ReceiveStopped => LaterPasses(s, s.connected, Loop, s.transmitted, horizon, d);
    case ReceiveLost => LaterPasses(s, false, Closing(ToLoop), s.transmitted, horizon, d);
  }

  lemma ReceiveDrain(s: State, l: Step, horizon: nat, d: nat)
    requires Timed(s, horizon) && Paced(s, d) && Enabled(s, l) && InReceive(l)
    ensures Pays(s, Apply(s, l), horizon, horizon, d, 0)
  {
    hide Pays, Timed, Paced, Updated, Status;
    match l
    case Frame(id, p) => FrameDrain(s, id, p, horizon, d);
    case Data(frames) => DataDrain(s, frames, horizon, d);
    case Note => NoteDrain(s, horizon, d);
    case _ =>
      hide Enabled, Apply;
      ReceiveMoves(s, l, horizon, d);
  }

  lemma PassPays(s: State, now: nat, horizon: nat, d: nat)
    requires Timed(s, horizon) && Paced(s, d) && s.worker == Checking(now) && !Expired(s, now)
    ensures Pays(s, s.(sampled := now, worker := Loop), horizon, horizon, d, 0)
  {
    hide Timed, Paced, Bound, Expired;
    ExpirePasses(s, now, horizon, d);
  }

  lemma ExpiredInFlight(s: State, now: nat)
    ensures Expired(s, now) ==> s.inFlight != map[]
  {
  }

  lemma ExamineDrain(s: State, now: nat, horizon: nat, d: nat)
    requires Timed(s, horizon) && Paced(s, d) && Outstanding(s) && s.worker == Checking(now)
    ensures Pays(s, Examined(s, now), horizon, horizon, d, 0)
  {
    ExpiredInFlight(s, now);
    hide Outstanding, Timed, Paced, Expired, Bound, Pays;
    if Expired(s, now) {
      MovePasses(s, s.running, false, s.socket, s.device, Closing(ToLoop), s.transmitted, horizon, d);
    } else {
      PassPays(s, now, horizon, d);
    }
  }

  lemma CloseDrain(s: State, l: Step, horizon: nat, d: nat)
    requires Inv(s) && Outstanding(s) && Timed(s, horizon) && Paced(s, d) && Enabled(s, l) && InClose(l)
    ensures Pays(s, Apply(s, l), horizon, horizon, d, 0)
  {
    hide Inv, Outstanding, Timed, Paced, Examined, Resumed, Disconnected, Bound, Pays;
    match l
    case Sample =>
      MovePasses(s, s.running, s.connected, s.socket, s.device, Checking(s.clock), s.transmitted, horizon, d);
    case Expire => ExamineDrain(s, s.worker.now, horizon, d);
    case CloseSocket =>
      MovePasses(s, s.running, s.connected, false, s.device, Closed(s.worker.after), s.transmitted, horizon, d);
    case ClearState =>
      BusyIsLinked(s);
      assert false;
  }

  lemma RemovalPays(s: State, n: State, r: Request, horizon: nat, d: nat)
    requires Timed(s, horizon) && Paced(s, d) && InFlight(s.inFlight, r)
    requires !InDisconnect(s.worker) && !InDisconnect(n.worker) && !n.worker.Checking?
    requires n.queue == s.queue && n.priorityQueue == s.priorityQueue && n.deadline == s.deadline
    requires n.clock == s.clock && n.sampled == s.sampled && n.inFlight == s.inFlight - {r.id}
    ensures Pays(s, n, horizon, horizon, d, 0)
  {
    assert s.inFlight != map[];
    RemovePasses(s, n, r, horizon, d);
  }

  lemma PendingPays(s: State, r: Request, horizon: nat, d: nat)
    requires Timed(s, horizon) && Paced(s, d) && InFlight(s.inFlight, r) && s.worker.Arrived?
    ensures Pays(s, s.(deadline := s.deadline[r := s.clock + r.timeout], worker := Parsing), horizon,
                 Max(horizon, s.clock + r.timeout), d, Extension(s, r))
  {
    hide Waiting;
    assert s.inFlight != map[];
    HorizonAhead(s, horizon);
  }

  lemma FailSendPays(s: State, r: Request, horizon: nat, d: nat)
    requires Inv(s) && Timed(s, horizon) && Paced(s, d) && s.worker == Failing(r)
    ensures Pays(s, SendFailed(s, r), horizon, horizon, d, 0)
  {
    hide Conserved, Dated, Ordered, Coherent, Linked, Guarded, Pays, Timed, Paced;
    if InFlight(s.inFlight, r) {
      RemovalPays(s, SendFailed(s, r), r, horizon, d);
    } else {
      assert s.inFlight - {r.id} == s.inFlight;
      AnswerPasses(s, SendFailed(s, r), horizon, d);
    }
  }

  lemma DetachPays(s: State, r: Request, status: nat, payload: seq<byte>, horizon: nat, d: nat)
    requires Timed(s, horizon) && Paced(s, d) && s.worker.Arrived? && InFlight(s.inFlight, r)
    ensures Pays(s, Remove(s, r).(worker := Detached(r, status, payload)), horizon, horizon, d, 0)
  {
    hide Timed, Paced, Pays;
    RemovalPays(s, Remove(s, r).(worker := Detached(r, status, payload)), r, horizon, d);
  }

  lemma LookupDone(s: State, id: Id, status: nat, payload: seq<byte>, horizon: nat, d: nat)
    requires Timed(s, horizon) && Paced(s, d) && s.worker == Arrived(id, status, payload) && id in s.inFlight
    requires s.inFlight[id].id == id && !(s.inFlight[id].allowPending && status == STATUS_COMMAND_PENDING)
    ensures Pays(s, LookedUp(s, id, status, payload), horizon, horizon, d, Granted(s, Lookup, d))
  {
    hide Timed, Paced, Pays;
    DetachPays(s, s.inFlight[id], status, payload, horizon, d);
  }

  lemma LookupPending(s: State, id: Id, status: nat, payload: seq<byte>, horizon: nat, d: nat)
    requires Timed(s, horizon) && Paced(s, d) && s.worker == Arrived(id, status, payload) && id in s.inFlight
    requires s.inFlight[id].id == id && s.inFlight[id].allowPending && status == STATUS_COMMAND_PENDING
    ensures Pays(s, LookedUp(s, id, status, payload), horizon, Max(horizon, s.clock + s.inFlight[id].timeout), d,
                 Granted(s, Lookup, d))
  {
    hide Timed, Paced, Pays, Max;
    PendingPays(s, s.inFlight[id], horizon, d);
  }

  lemma LookupUnknown(s: State, id: Id, status: nat, payload: seq<byte>, horizon: nat, d: nat)
    requires Timed(s, horizon) && Paced(s, d) && s.worker == Arrived(id, status, payload) && id !in s.inFlight
    ensures Pays(s, LookedUp(s, id, status, payload), horizon, horizon, d, Granted(s, Lookup, d))
  {
    hide Timed, Paced, Pays;
    AnswerPasses(s, s.(worker := Parsing), horizon, d);
  }

  lemma LookupPays(s: State, id: Id, status: nat, payload: seq<byte>, horizon: nat, d: nat) returns (horizon': nat)
    requires Conserved(s) && Timed(s, horizon) && Paced(s, d) && s.worker == Arrived(id, status, payload)
    ensures Pays(s, LookedUp(s, id, status, payload), horizon, horizon', d, Granted(s, Lookup, d))
  {
    KeyedById(s);
    hide Conserved, Timed, Paced, Pays, LookedUp, Granted;
    horizon' := horizon;
    if id !in s.inFlight {
      LookupUnknown(s, id, status, payload, horizon, d);
    } else if s.inFlight[id].allowPending && status == STATUS_COMMAND_PENDING {
      horizon' := Max(horizon, s.clock + s.inFlight[id].timeout);
      LookupPending(s, id, status, payload, horizon, d);
    } else {
      LookupDone(s, id, status, payload, horizon, d);
    }
  }

  lemma DisconnectPays(s: State, n: State, horizon: nat, d: nat)
    requires Timed(s, horizon) && Paced(s, d) && InDisconnect(s.worker) && InDisconnect(n.worker)
    requires n.clock == s.clock && n.sampled == s.sampled
    ensures Pays(s, n, horizon, horizon, d, 0)
  {
  }

  lemma TakenPays(s: State, order: seq<Request>, horizon: nat, d: nat)
    requires Timed(s, horizon) && Paced(s, d) && s.worker.Closed?
    ensures Pays(s, Taken(s, order, s.worker.after), horizon, horizon, d, 0)
  {
    hide Pays, Timed, Paced;
    DisconnectPays(s, Taken(s, order, s.worker.after), horizon, d);
  }

  lemma OneFailedPays(s: State, horizon: nat, d: nat)
    requires Timed(s, horizon) && Paced(s, d) && s.worker.Draining? && s.worker.held != []
    ensures Pays(s, OneFailed(s, s.worker.held, s.worker.after), horizon, horizon, d, 0)
  {
    hide Pays, Timed, Paced;
    DisconnectPays(s, OneFailed(s, s.worker.held, s.worker.after), horizon, d);
  }

  lemma HasPlace(s: State)
    requires Inv(s)
    ensures Conserved(s)
  {
  }

  lemma AnsweredPays(s: State, r: Request, reply: Reply, horizon: nat, d: nat)
    requires Timed(s, horizon) && Paced(s, d) && s.worker.Answering?
    ensures Pays(s, Answered(s, r, reply), horizon, horizon, d, 0)
  {
    hide Timed, Paced, Pays;
    AnswerPasses(s, Answered(s, r, reply), horizon, d);
  }

  lemma DispatchCovers(s: State, horizon: nat, horizon': nat, d: nat)
    requires var n := Dispatched(s);
             Timed(n, horizon') && Bound(n, horizon', d) <= Bound(s, horizon, d) && n.clock == s.clock
    ensures Pays(s, Dispatched(s), horizon, horizon', d, 0)
  {
    hide Dispatched, Bound, Timed;
  }

  lemma DispatchPays(s: State, horizon: nat, d: nat) returns (horizon': nat)
    requires Timed(s, horizon) && Paced(s, d) && s.worker == Dispatching && Outstanding(s)
    ensures Pays(s, Dispatched(s), horizon, horizon', d, 0)
  {
    hide Timed, Paced, Bound, Dispatched, Outstanding, Pays;
    horizon' := DispatchPasses(s, horizon, d);
    DispatchCovers(s, horizon, horizon', d);
  }

  lemma ResolutionDrain(s: State, l: Step, horizon: nat, d: nat)
    requires Timed(s, horizon) && Paced(s, d) && Enabled(s, l) && (l.Answer? || l.TakeAll? || l.FailNext?)
    ensures Pays(s, Apply(s, l), horizon, horizon, d, 0)
  {
    hide Timed, Paced, Bound, Visits, Answered, Taken, OneFailed, Pays;
    if l.Answer? {
      AnsweredPays(s, s.worker.request, s.worker.reply, horizon, d);
    } else if l.TakeAll? {
      TakenPays(s, l.order, horizon, d);
    } else {
      OneFailedPays(s, horizon, d);
    }
  }

  lemma ContainerDrain(s: State, l: Step, horizon: nat, d: nat) returns (horizon': nat)
    requires Inv(s) && Outstanding(s) && Timed(s, horizon) && Paced(s, d) && Enabled(s, l)
    requires l.Dispatch? || l.FailSend? || l.Lookup? || l.Answer? || l.TakeAll? || l.FailNext?
    ensures Pays(s, Apply(s, l), horizon, horizon', d, Granted(s, l, d))
  {
    HasPlace(s);
    hide Inv, Outstanding, Timed, Paced, Bound, Dispatched, SendFailed, LookedUp, Conserved, Pays;
    horizon' := horizon;
    if l.Dispatch? {
      horizon' := DispatchPays(s, horizon, d);
    } else if l.FailSend? {
      FailSendPays(s, s.worker.request, horizon, d);
    } else if l.Lookup? {
      horizon' := LookupPays(s, s.worker.id, s.worker.status, s.worker.payload, horizon, d);
    } else {
      hide Apply, Enabled;
      ResolutionDrain(s, l, horizon, d);
    }
  }

  /** One step, whatever it is. */
  lemma DrainStep(s: State, l: Step, horizon: nat, d: nat) returns (horizon': nat)
    requires Inv(s) && Outstanding(s) && Timed(s, horizon) && Paced(s, d) && Enabled(s, l)
    ensures Pays(s, Apply(s, l), horizon, horizon', d, Granted(s, l, d))
  {
    hide Inv, Outstanding, Timed, Paced, Enabled, Apply, Pays, Waiting;
    horizon' := horizon;
    if l.Stop? || l.Submit? || l.CallLock? || l.CallFail? || l.Tick? || l.CallUnlock? || l.Stream? {
      ClientDrain(s, l, horizon, d);
    } else if InLoop(l) {
      LoopDrain(s, l, horizon, d);
    } else if InSend(l) {
      SendDrain(s, l, horizon, d);
    } else if InReceive(l) {
      ReceiveDrain(s, l, horizon, d);
    } else if InClose(l) {
      CloseDrain(s, l, horizon, d);
    } else {
      horizon' := ContainerDrain(s, l, horizon, d);
    }
  }

  // ----- deadlines over all runs -----

  predicate Nothing(flight: map<Id, Request>) { flight == map[] }

  predicate Idle(s: State) {
    Nothing(s.inFlight) && s.sampled <= s.clock && (s.worker.Checking? ==> s.worker.now <= s.clock)
  }

  lemma IdleElsewhere(s: State, running: bool, connected: bool, socket: bool, device: DeviceState, w: Worker,
                      transmitted: seq<Transmission>, sampled: nat)
    requires Idle(s) && sampled <= s.clock && (w.Checking? ==> w.now <= s.clock)
    ensures Idle(Adjust(s, running, connected, socket, device, w, s.deadline, s.clock, transmitted, sampled))
  {
    hide Nothing;
  }

  lemma LoopStaysIdle(s: State, l: Step)
    requires Enabled(s, l) && Idle(s) && s.sampled <= s.clock && InLoop(l) && !l.Stop? && !l.Tick?
    ensures Idle(Apply(s, l))
  {
    var sampled := s.sampled;
    hide Idle, Connected;
    if l.Dial? || l.ConnectFails? || l.Proceed? {
      var w := if l.Dial? then Dialing else if l.Proceed? then Subscribing else Loop;
      IdleElsewhere(s, s.running, s.connected, s.socket, s.device, w, s.transmitted, sampled);
    } else if l.Start? {
      IdleElsewhere(s, true, s.connected, s.socket, s.device, Loop, s.transmitted, sampled);
    } else if l.Connect? {
      IdleElsewhere(s, s.running, s.connected, true, Connected(s.device), Bumped, s.transmitted, sampled);
    } else if l.Announce? {
      IdleElsewhere(s, s.running, true, s.socket, s.device, Fresh, s.transmitted, s.clock);
    } else if l.Serve? {
      IdleElsewhere(s, s.running, s.connected, s.socket, s.device, Dispatching, s.transmitted, sampled);
    } else if l.Leave? {
      IdleElsewhere(s, s.running, false, s.socket, s.device, Closing(ToExit), s.transmitted, sampled);
    }
  }

  lemma ExamineStaysIdle(s: State, now: nat)
    requires Idle(s) && s.worker == Checking(now)
    ensures Idle(Examined(s, now))
  {
    assert now <= s.clock;
    hide Idle, Expired;
    IdleElsewhere(s, s.running, false, s.socket, s.device, Closing(ToLoop), s.transmitted, s.sampled);
    IdleElsewhere(s, s.running, s.connected, s.socket, s.device, Loop, s.transmitted, now);
  }

  lemma ClearStaysIdle(s: State, after: After)
    requires Idle(s) && s.sampled <= s.clock
    ensures Idle(Resumed(s.(device := Disconnected(s.device)), after))
  {
    hide Idle, Disconnected;
    var w := match after case ToLoop => Loop case ToFailure(r) => Failing(r) case ToExit => Exited;
    IdleElsewhere(s, s.running, s.connected, s.socket, Disconnected(s.device), w, s.transmitted, s.sampled);
  }

  lemma CloseStaysIdle(s: State, l: Step)
    requires Enabled(s, l) && Idle(s) && s.sampled <= s.clock && InClose(l)
    ensures Idle(Apply(s, l))
  {
    hide Idle, Examined, Resumed, Disconnected;
    match l
    case Sample =>
      IdleElsewhere(s, s.running, s.connected, s.socket, s.device, Checking(s.clock), s.transmitted, s.sampled);
    case Expire => ExamineStaysIdle(s, s.worker.now);
    case CloseSocket =>
      IdleElsewhere(s, s.running, s.connected, false, s.device, Closed(s.worker.after), s.transmitted, s.sampled);
    case ClearState => ClearStaysIdle(s, s.worker.after);
  }

  lemma SendStaysIdle(s: State, l: Step)
    requires Enabled(s, l) && Idle(s) && InSend(l)
    ensures Idle(Apply(s, l))
  {
    assert s.sampled <= s.clock;
    hide Idle, Sent;
    var sampled := s.sampled;
    match l
    case SendDone =>
      IdleElsewhere(s, s.running, s.connected, s.socket, s.device, Polling, Sent(s, s.worker.request), sampled);
    case SendRefused =>
      var r := s.worker.request;
      IdleElsewhere(s, s.running, s.connected, s.socket, s.device, Failing(r),
                    if |r.payload| > MAX_SIZE then s.transmitted else Sent(s, r), sampled);
    case SendBroken =>
      var r := s.worker.request;
      IdleElsewhere(s, s.running, false, s.socket, s.device, Closing(ToFailure(r)), Sent(s, r), sampled);
    case PollQuiet =>
      IdleElsewhere(s, s.running, s.connected, s.socket, s.device, Expiring, s.transmitted, sampled);
    case PollData =>
      IdleElsewhere(s, s.running, s.connected, s.socket, s.device, Receiving, s.transmitted, sampled);
    case PollLost =>
      IdleElsewhere(s, s.running, false, s.socket, s.device, Closing(ToLoop), s.transmitted, sampled);
  }

  /** With nothing in flight before and after, at the same time. */
  lemma IdleStays(s: State, n: State)
    requires Idle(s) && n.clock == s.clock && n.sampled == s.sampled && n.inFlight == map[] && !n.worker.Checking?
    ensures Idle(n)
  {
  }

  lemma ResolveStaysIdle(s: State, r: Request, reply: Reply)
    requires Idle(s)
    ensures Idle(Resolve(s, r, reply))
  {
    hide Nothing;
  }

  lemma PlaceStaysIdle(s: State, w: Worker, broken: bool)
    requires Idle(s) && !w.Checking?
    ensures Idle(s.(worker := w)) && Idle(s.(broken := broken, worker := w))
  {
    hide Nothing;
  }

  lemma FailSendStaysIdle(s: State, r: Request)
    requires Idle(s)
    ensures Idle(SendFailed(s, r))
  {
    assert s.inFlight - {r.id} == map[];
    IdleStays(s, Remove(s, r).(worker := Polling));
    ResolveStaysIdle(Remove(s, r).(worker := Polling), r, FAILED);
    hide Idle;
  }

  lemma AnswerStaysIdle(s: State, r: Request, reply: Reply)
    requires Idle(s)
    ensures Idle(Answered(s, r, reply))
  {
    hide Idle, Resolve;
    ResolveStaysIdle(s, r, reply);
    PlaceStaysIdle(Resolve(s, r, reply), Parsing, s.broken || r in s.resolved);
  }

  lemma OneFailedStaysIdle(s: State, held: seq<Request>, after: After)
    requires Idle(s) && held != []
    ensures Idle(OneFailed(s, held, after))
  {
    hide Idle, Resolve;
    ResolveStaysIdle(s, held[0], FAILED);
    PlaceStaysIdle(Resolve(s, held[0], FAILED), Draining(held[1..], after), false);
  }

  lemma TakenStaysIdle(s: State, order: seq<Request>, after: After)
    requires Idle(s)
    ensures Idle(Taken(s, order, after))
  {
    IdleStays(s, Taken(s, order, after));
    hide Idle;
  }

  lemma DispatchStaysIdle(s: State)
    requires Idle(s) && s.queue == [] && s.priorityQueue == []
    ensures Idle(Dispatched(s))
  {
    hide Idle, Launched;
    PlaceStaysIdle(s, Polling, s.broken);
  }

  lemma LookupStaysIdle(s: State, id: Id, status: nat, payload: seq<byte>)
    requires Idle(s)
    ensures Idle(LookedUp(s, id, status, payload))
  {
    assert id !in s.inFlight;
    hide Idle;
    PlaceStaysIdle(s, Parsing, s.broken);
  }

  lemma ContainerStaysIdle(s: State, l: Step)
    requires Enabled(s, l) && Idle(s) && s.queue == [] && s.priorityQueue == []
    requires l.Dispatch? || l.FailSend? || l.Lookup? || l.Answer? || l.TakeAll? || l.FailNext?
    ensures Idle(Apply(s, l))
  {
    hide Visits, Idle, Dispatched, SendFailed, LookedUp, Answered, Taken, OneFailed;
    match l
    case Dispatch => DispatchStaysIdle(s);
    case FailSend => FailSendStaysIdle(s, s.worker.request);
    case Lookup => LookupStaysIdle(s, s.worker.id, s.worker.status, s.worker.payload);
    case Answer => AnswerStaysIdle(s, s.worker.request, s.worker.reply);
    case TakeAll(order) => TakenStaysIdle(s, order, s.worker.after);
    case FailNext => OneFailedStaysIdle(s, s.worker.held, s.worker.after);
  }

  lemma NothingDue(s: State, horizon: nat)
    requires s.inFlight == map[] && s.sampled <= s.clock && (s.worker.Checking? ==> s.worker.now <= s.clock)
    ensures Timed(s, horizon)
  {
  }

  lemma TimedStep(s: State, l: Step, horizon: nat) returns (horizon': nat)
    requires Inv(s) && Enabled(s, l) && Timed(s, horizon)
    ensures Timed(Apply(s, l), horizon')
  {
    var d := s.clock - s.sampled;
    hide Inv, Enabled, Apply, Bound, Granted, Due;
    horizon' := horizon;
    if Outstanding(s) {
      horizon' := DrainStep(s, l, horizon, d);
    } else if l.Stop? || l.Submit? || l.CallLock? || l.CallFail? || l.Tick? || l.CallUnlock? || l.Stream? {
      ClientDrain(s, l, horizon, d);
    } else if InReceive(l) {
      ReceiveDrain(s, l, horizon, d);
    } else {
      if InLoop(l) {
        LoopStaysIdle(s, l);
      } else if InClose(l) {
        CloseStaysIdle(s, l);
      } else if InSend(l) {
        SendStaysIdle(s, l);
      } else {
        ContainerStaysIdle(s, l);
      }
      NothingDue(Apply(s, l), horizon);
    }
  }

  /** In every reachable state outside `disconnect`, every request in flight has a deadline, and none that the last
      expiry check has not seen. */
  lemma {:induction false} DeadlinesAhead(run: Run, k: nat) returns (horizon: nat)
    requires ValidRun(run) && k < |run.states|
    ensures Timed(run.states[k], horizon)
    decreases k
  {
    hide Inv, Enabled, Apply, Timed;
    if k == 0 {
      horizon := 0;
      NothingDue(run.states[0], 0);
    } else {
      InvRun(run, k - 1);
      var before := DeadlinesAhead(run, k - 1);
      horizon := TimedStep(run.states[k - 1], run.steps[k - 1], before);
    }
  }

  // ----- the drain bound -----

  /** What the steps from `i` to `j` grant. */
  function GrantedBetween(run: Run, i: nat, j: nat, d: nat): nat
    requires i <= j <= |run.steps| <= |run.states|
    decreases j - i
  {
    if i == j then 0 else Granted(run.states[i], run.steps[i], d) + GrantedBetween(run, i + 1, j, d)
  }

  lemma BoundCovers(s: State, horizon: nat, d: nat)
    requires Timed(s, horizon) && Paced(s, d) && Outstanding(s)
    ensures Bound(s, horizon, d) >= 0
  {
    SomethingWaits(s, d);
    if s.inFlight != map[] && !InDisconnect(s.worker) {
      HorizonAhead(s, horizon);
    }
  }

  lemma {:induction false} BoundOverRun(run: Run, i: nat, j: nat, horizon: nat, d: nat)
    requires ValidRun(run) && i <= j < |run.states| && Timed(run.states[i], horizon)
    requires forall k :: i <= k <= j ==> Outstanding(run.states[k]) && Paced(run.states[k], d)
    ensures run.states[j].clock - run.states[i].clock <= Bound(run.states[i], horizon, d) + GrantedBetween(run, i, j, d)
    decreases j - i
  {
    hide Inv, Outstanding, Timed, Paced, Enabled, Apply, Bound, Granted;
    var s := run.states[i];
    InvRun(run, i);
    if i < j {
      var horizon' := DrainStep(s, run.steps[i], horizon, d);
      BoundOverRun(run, i + 1, j, horizon', d);
    } else {
      BoundCovers(s, horizon, d);
    }
  }

  /** No deadline in flight lies after `horizon`. */
  predicate DueBy(s: State, horizon: nat) {
    forall id :: id in s.inFlight && s.inFlight[id] in s.deadline ==> s.deadline[s.inFlight[id]] <= horizon
  }

  lemma Retimed(s: State, before: nat, horizon: nat)
    requires Timed(s, before) && DueBy(s, horizon)
    ensures Timed(s, horizon)
  {
  }

  /** The drain bound. While something stays outstanding, no more time passes than `Bound` says of the start: the
      shares of the waiting requests and what is left of the requests in flight or of the present iteration. What is
      accepted on the way adds its share, and a pending reply what it adds to a deadline. */
  lemma DrainBound(run: Run, i: nat, j: nat, horizon: nat, d: nat)
    requires ValidRun(run) && i <= j < |run.states| && DueBy(run.states[i], horizon)
    requires forall k :: i <= k <= j ==> Outstanding(run.states[k]) && Paced(run.states[k], d)
    ensures run.states[j].clock - run.states[i].clock <= Bound(run.states[i], horizon, d) + GrantedBetween(run, i, j, d)
  {
    hide Inv, Outstanding, Enabled, Apply, Bound, Granted, Timed, DueBy;
    var before := DeadlinesAhead(run, i);
    Retimed(run.states[i], before, horizon);
    BoundOverRun(run, i, j, horizon, d);
  }

  // ----- the sum of the timeouts, with two iterations each -----

  function Sum(rs: seq<Request>, d: nat): nat
    decreases |rs|
  {
    if rs == [] then 0 else rs[0].timeout + 2 * d + Sum(rs[1..], d)
  }

  /** How many of the requests have a timeout at all. */
  function Positive(rs: seq<Request>): nat
    decreases |rs|
  {
    if rs == [] then 0 else (if rs[0].timeout > 0 then 1 else 0) + Positive(rs[1..])
  }

  lemma {:induction false} SharesAndSum(rs: seq<Request>, d: nat)
    ensures Waiting(rs, d) + Positive(rs) == Sum(rs, d)
    decreases |rs|
  {
    if rs != [] {
      SharesAndSum(rs[1..], d);
    }
  }

  lemma {:induction false} OneOfSum(rs: seq<Request>, r: Request, d: nat)
    requires r in rs
    ensures Sum(rs, d) >= r.timeout + 2 * d
    decreases |rs|
  {
    if r != rs[0] {
      OneOfSum(rs[1..], r, d);
    }
  }

  lemma NonEmptySum(rs: seq<Request>, d: nat)
    ensures rs != [] ==> Sum(rs, d) >= 2 * d
  {
  }

  /** The sum over everything outstanding; `order` lists the requests in flight. */
  function PlainSum(s: State, order: seq<Request>, d: nat): nat {
    Sum(Held(s.worker), d) + Sum(order, d) + Sum(s.queue, d) + Sum(s.priorityQueue, d)
  }

  /** What is left of the present iteration. */
  function Left(s: State, d: nat): int { s.sampled + d - s.clock }

  /** Something is in flight or in the worker's hands, or the present iteration has its dispatch ahead or is being
      ended by an expiry check, or no more of it is left than there are requests waiting with a timeout. */
  predicate SumSuffices(s: State, d: nat) {
    || Held(s.worker) != [] || s.inFlight != map[] || InDisconnect(s.worker) || BeforeDispatch(s.worker)
    || Left(s, d) <= Positive(s.queue) + Positive(s.priorityQueue)
  }

  /** The one of `order` with the latest deadline. */
  lemma {:induction false} Latest(order: seq<Request>, deadline: map<Request, nat>) returns (last: Request)
    requires order != [] && forall r :: r in order ==> r in deadline
    ensures last in order && forall r :: r in order ==> deadline[r] <= deadline[last]
    decreases |order|
  {
    if |order| == 1 {
      last := order[0];
    } else {
      last := Latest(order[1..], deadline);
      assert forall r :: r in order ==> r == order[0] || r in order[1..];
      if deadline[last] < deadline[order[0]] {
        last := order[0];
      }
    }
  }

  lemma FlightWithinSum(s: State, order: seq<Request>, horizon: nat, d: nat) returns (horizon': nat)
    requires Timed(s, horizon) && Visits(order, s.inFlight) && s.inFlight != map[] && !InDisconnect(s.worker)
    requires forall id :: id in s.inFlight ==> s.inFlight[id].id == id
    ensures Timed(s, horizon') && Rest(s.inFlight, s.worker, s.clock, s.sampled, horizon', d) <= Sum(order, d)
  {
    var id := SomeInFlight(s.inFlight);
    assert InFlight(s.inFlight, s.inFlight[id]);
    assert forall r :: r in order ==> r in s.deadline;
    var last := Latest(order, s.deadline);
    OneOfSum(order, last, d);
    assert InFlight(s.inFlight, last);
    horizon' := s.deadline[last];
    assert forall i :: i in s.inFlight ==> InFlight(s.inFlight, s.inFlight[i]);
    hide Sum;
  }

  lemma VisitsAll(order: seq<Request>, flight: map<Id, Request>)
    requires Visits(order, flight) && flight != map[] && forall id :: id in flight ==> flight[id].id == id
    ensures order != []
  {
    var id := SomeInFlight(flight);
    assert InFlight(flight, flight[id]);
  }

  /** The bound of the present deadlines lies within the sum. */
  lemma BoundWithinSum(s: State, order: seq<Request>, horizon: nat, d: nat) returns (horizon': nat)
    requires Timed(s, horizon) && Outstanding(s) && Visits(order, s.inFlight) && SumSuffices(s, d)
    requires forall id :: id in s.inFlight ==> s.inFlight[id].id == id
    ensures Timed(s, horizon') && Bound(s, horizon', d) <= PlainSum(s, order, d)
  {
    horizon' := horizon;
    NonEmptySum(Held(s.worker), d);
    SharesAndSum(s.queue, d);
    SharesAndSum(s.priorityQueue, d);
    if InDisconnect(s.worker) {
      NonEmptySum(s.queue, d);
      NonEmptySum(s.priorityQueue, d);
      NonEmptySum(order, d);
      if s.inFlight != map[] {
        VisitsAll(order, s.inFlight);
      }
    } else if s.inFlight != map[] {
      horizon' := FlightWithinSum(s, order, horizon, d);
    }
    hide Due, Visits, Waiting, Sum, Positive;
  }

  lemma {:induction false} NothingGranted(run: Run, i: nat, j: nat, d: nat)
    requires i <= j <= |run.steps| <= |run.states|
    requires forall k :: i <= k < j ==> Granted(run.states[k], run.steps[k], d) == 0
    ensures GrantedBetween(run, i, j, d) == 0
    decreases j - i
  {
    hide Granted;
    if i < j {
      NothingGranted(run, i + 1, j, d);
    }
  }

  /** Where `SumSuffices`, the sum over everything outstanding of its timeout and two iterations bounds the time, with
      nothing accepted and no pending reply on the way. */
  lemma DrainsWithinSum(run: Run, i: nat, j: nat, order: seq<Request>, d: nat)
    requires ValidRun(run) && i <= j < |run.states| && Visits(order, run.states[i].inFlight)
    requires forall k :: i <= k <= j ==> Outstanding(run.states[k]) && Paced(run.states[k], d)
    requires forall k :: i <= k < j ==> Granted(run.states[k], run.steps[k], d) == 0
    requires SumSuffices(run.states[i], d)
    ensures run.states[j].clock - run.states[i].clock <= PlainSum(run.states[i], order, d)
  {
    hide Inv, Conserved, Outstanding, Enabled, Apply, Bound, Granted, Timed, Visits, PlainSum, SumSuffices, Paced;
    var horizon := DeadlinesAhead(run, i);
    InvRun(run, i);
    HasPlace(run.states[i]);
    KeyedById(run.states[i]);
    horizon := BoundWithinSum(run.states[i], order, horizon, d);
    BoundOverRun(run, i, j, horizon, d);
    NothingGranted(run, i, j, d);
  }

  // ----- pending replies -----

  /** A pending reply no later than the deadline it extends adds at most its request's timeout; a late one adds the
      timeout and the delay. */
  lemma PendingAdds(run: Run, k: nat, d: nat)
    requires ValidRun(run) && k < |run.steps| && run.steps[k].Lookup? && !InDisconnect(run.states[k].worker)
    requires run.states[k].worker.Arrived? && run.states[k].worker.id in run.states[k].inFlight
    requires run.states[k].inFlight[run.states[k].worker.id].allowPending
    requires run.states[k].worker.status == STATUS_COMMAND_PENDING
    ensures var s, r := run.states[k], run.states[k].inFlight[run.states[k].worker.id];
            && r in s.deadline
            && Granted(s, Lookup, d) == r.timeout + s.clock - s.deadline[r]
            && (s.clock <= s.deadline[r] <==> Granted(s, Lookup, d) <= r.timeout)
  {
    var horizon := DeadlinesAhead(run, k);
    hide ValidRun, Inv;
  }
}
