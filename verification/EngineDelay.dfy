/** The drain bound is reached: wherever nothing is in flight and the dispatch of the present iteration is over,
    there is a way to go on that takes all the time the bound allows. So the sum of timeouts with two iterations each
    is exceeded exactly where `SumSuffices` does not hold. */
module EngineDelay {
  import opened Crc
  import opened Frames
  import opened Device
  import opened Engine
  import opened EngineInvariant
  import opened EngineRuns
  import opened EngineDrain
  import EnginePriority

  // ----- extending runs -----

  function Last(run: Run): State {
    if run.states == [] then Initially(0) else run.states[|run.states| - 1]
  }

  lemma Extend(run: Run, l: Step) returns (next: Run)
    requires ValidRun(run) && Enabled(Last(run), l)
    ensures ValidRun(next) && Last(next) == Apply(Last(run), l)
    ensures next.states == run.states + [Last(next)] && next.steps == run.steps + [l]
  {
    hide Enabled, Apply;
    var n := Apply(Last(run), l);
    next := Run(run.states + [n], run.steps + [l]);
    forall k | 0 <= k < |next.steps|
      ensures Enabled(next.states[k], next.steps[k]) && next.states[k + 1] == Apply(next.states[k], next.steps[k])
    {
      if k < |run.steps| {
        assert next.states[k] == run.states[k] && next.states[k + 1] == run.states[k + 1];
      }
    }
  }

  /** Where a stretch of a run begins, at what pace it runs, and which of its steps may grant time. */
  datatype Tail = Tail(start: nat, d: nat, late: int)

  /** From its start on the run keeps its pace with something outstanding all along, and nothing is granted, except
      possibly by step `late`. */
  ghost predicate Drawn(run: Run, t: Tail) {
    && ValidRun(run) && t.start < |run.states|
    && (forall k :: t.start <= k < |run.states| ==> Outstanding(run.states[k]) && Paced(run.states[k], t.d))
    && (forall k :: t.start <= k < |run.steps| && k != t.late ==> Granted(run.states[k], run.steps[k], t.d) == 0)
  }

  /** `next` goes on from `run`. */
  predicate Continues(run: Run, next: Run) {
    run.states <= next.states && run.steps <= next.steps
  }

  lemma GoesOn(run: Run, middle: Run, next: Run)
    requires Continues(run, middle) && Continues(middle, next)
    ensures Continues(run, next)
  {
  }

  lemma LengthsFit(run: Run)
    requires ValidRun(run)
    ensures |run.states| == |run.steps| + 1
  {
  }

  lemma DrawOn(run: Run, t: Tail, l: Step) returns (next: Run)
    requires Drawn(run, t) && Enabled(Last(run), l)
    requires Outstanding(Apply(Last(run), l)) && Paced(Apply(Last(run), l), t.d)
    requires |run.steps| != t.late ==> Granted(Last(run), l, t.d) == 0
    ensures Drawn(next, t) && Last(next) == Apply(Last(run), l)
    ensures Continues(run, next) && next.steps == run.steps + [l]
  {
    hide Enabled, Apply, Outstanding, Paced, Granted, ValidRun;
    next := Extend(run, l);
    LengthsFit(run);
    LengthsFit(next);
    forall k | t.start <= k < |next.states|
      ensures Outstanding(next.states[k]) && Paced(next.states[k], t.d)
    {
      if k < |run.states| {
        assert next.states[k] == run.states[k];
      }
    }
    forall k | t.start <= k < |next.steps| && k != t.late
      ensures Granted(next.states[k], next.steps[k], t.d) == 0
    {
      assert next.states[k] == run.states[k];
    }
  }

  // ----- what the construction looks at -----

  /** The clocks, the containers, and when everything in flight is due. */
  datatype Scene = Scene(
    clock: nat,
    sampled: nat,
    queue: seq<Request>,
    priorityQueue: seq<Request>,
    flight: map<Id, Request>,
    due: nat)

  predicate DueAt(flight: map<Id, Request>, deadline: map<Request, nat>, due: nat) {
    forall id :: id in flight ==> flight[id] in deadline && deadline[flight[id]] == due
  }

  predicate At(s: State, w: Worker, c: Scene) {
    && s.worker == w && s.clock == c.clock && s.sampled == c.sampled
    && s.queue == c.queue && s.priorityQueue == c.priorityQueue && s.inFlight == c.flight
    && s.mutex == Free && s.running && s.socket
    && DueAt(s.inFlight, s.deadline, c.due)
  }

  /** Something is outstanding, and the pace is kept. */
  predicate Lively(w: Worker, c: Scene, d: nat) {
    && (c.queue != [] || c.priorityQueue != [] || c.flight != map[] || Held(w) != [])
    && c.clock <= c.sampled + d
  }

  lemma DrawTo(run: Run, t: Tail, l: Step, w: Worker, c: Scene) returns (next: Run)
    requires Drawn(run, t) && Enabled(Last(run), l) && At(Apply(Last(run), l), w, c) && Lively(w, c, t.d)
    requires |run.steps| != t.late ==> Granted(Last(run), l, t.d) == 0
    ensures Drawn(next, t) && At(Last(next), w, c) && Continues(run, next) && |next.steps| == |run.steps| + 1
    ensures Last(next) == Apply(Last(run), l) && next.steps == run.steps + [l]
  {
    hide Enabled, Apply, Drawn, Granted, DueAt;
    next := DrawOn(run, t, l);
  }

  /** Steps that leave the scene as it is. */
  predicate Moves(w: Worker, l: Step, w': Worker) {
    match l
    case Serve => w == Loop && w' == Dispatching
    case PollQuiet => w == Polling && w' == Expiring
    case PollData => w == Polling && w' == Receiving
    case Recv => w == Receiving && w' == InRecv
    case ParseDone => w == Parsing && w' == Receiving
    case ReceiveDone => w == InRecv && w' == Expiring
    case SendDone => w.Sending? && |w.request.payload| <= MAX_SIZE && w' == Polling
    case Note => w.Detached? && w' == Answering(w.request, Reply(true, w.status, w.payload))
    case Answer => w.Answering? && w' == Parsing
    case _ => false
  }

  predicate InReply(l: Step) { l.PollData? || l.Recv? || l.ParseDone? || l.ReceiveDone? }

  lemma MovesInReply(s: State, l: Step, w: Worker, w': Worker, c: Scene)
    requires At(s, w, c) && Moves(w, l, w') && InReply(l)
    ensures Enabled(s, l) && At(Apply(s, l), w', c) && forall d :: Granted(s, l, d) == 0
  {
    hide DueAt;
  }

  lemma MovesElsewhere(s: State, l: Step, w: Worker, w': Worker, c: Scene)
    requires At(s, w, c) && Moves(w, l, w') && !InReply(l)
    ensures Enabled(s, l) && At(Apply(s, l), w', c) && forall d :: Granted(s, l, d) == 0
  {
    hide Sent, DueAt;
  }

  lemma MovesAt(s: State, l: Step, w: Worker, w': Worker, c: Scene)
    requires At(s, w, c) && Moves(w, l, w')
    ensures Enabled(s, l) && At(Apply(s, l), w', c) && forall d :: Granted(s, l, d) == 0
  {
    hide Enabled, Apply, Granted, At, Moves;
    if InReply(l) {
      MovesInReply(s, l, w, w', c);
    } else {
      MovesElsewhere(s, l, w, w', c);
    }
  }

  lemma Go(run: Run, t: Tail, l: Step, w: Worker, w': Worker, c: Scene) returns (next: Run)
    requires Drawn(run, t) && At(Last(run), w, c) && Moves(w, l, w') && Lively(w', c, t.d)
    ensures Drawn(next, t) && At(Last(next), w', c) && Continues(run, next) && |next.steps| == |run.steps| + 1
  {
    MovesAt(Last(run), l, w, w', c);
    hide Enabled, Apply, Drawn, Granted, At, Moves, Lively, Last;
    next := DrawTo(run, t, l, w', c);
  }

  lemma Wait(run: Run, t: Tail, elapsed: nat, w: Worker, c: Scene) returns (next: Run)
    requires Drawn(run, t) && At(Last(run), w, c) && Lively(w, c.(clock := c.clock + elapsed), t.d)
    ensures Drawn(next, t) && At(Last(next), w, c.(clock := c.clock + elapsed)) && Continues(run, next)
  {
    hide Drawn, DueAt;
    next := DrawTo(run, t, Tick(elapsed), w, c.(clock := c.clock + elapsed));
  }

  lemma AtSample(s: State, c: Scene)
    requires At(s, Expiring, c)
    ensures Enabled(s, Sample) && At(Apply(s, Sample), Checking(c.clock), c) && forall d :: Granted(s, Sample, d) == 0
  {
    hide DueAt;
  }

  lemma AtExpire(s: State, c: Scene)
    requires At(s, Checking(c.clock), c) && (c.flight != map[] ==> c.clock < c.due)
    ensures Enabled(s, Expire) && At(Apply(s, Expire), Loop, c.(sampled := c.clock))
    ensures forall d :: Granted(s, Expire, d) == 0
  {
    assert !Expired(s, c.clock);
  }

  /** The expiry check passes. */
  lemma Pass(run: Run, t: Tail, c: Scene) returns (next: Run)
    requires Drawn(run, t) && At(Last(run), Expiring, c) && (c.flight != map[] ==> c.clock < c.due)
    requires Lively(Expiring, c, t.d)
    ensures Drawn(next, t) && At(Last(next), Loop, c.(sampled := c.clock)) && Continues(run, next)
  {
    hide Expired, At, Drawn, Enabled, Apply, Granted, Last, Continues;
    AtSample(Last(run), c);
    var sampled := DrawTo(run, t, Sample, Checking(c.clock), c);
    AtExpire(Last(sampled), c);
    next := DrawTo(sampled, t, Expire, Loop, c.(sampled := c.clock));
    GoesOn(run, sampled, next);
  }

  // ----- dispatching -----

  /** The request the next dispatch takes. */
  function Head(c: Scene): Request
    requires c.queue != [] || c.priorityQueue != []
  {
    if c.priorityQueue != [] then c.priorityQueue[0] else c.queue[0]
  }

  /** The scene once it is in flight. */
  function Airborne(c: Scene): Scene
    requires c.queue != [] || c.priorityQueue != []
  {
    var r := Head(c);
    c.(queue := if c.priorityQueue == [] then c.queue[1..] else c.queue,
       priorityQueue := if c.priorityQueue == [] then [] else c.priorityQueue[1..],
       flight := map[r.id := r], due := c.clock + r.timeout)
  }

  lemma Launches(s: State, queue: seq<Request>, priorityQueue: seq<Request>, serving: seq<Request>, r: Request,
                 c: Scene)
    requires At(s, Dispatching, c) && c.flight == map[]
    ensures At(Launched(s.(queue := queue, priorityQueue := priorityQueue, serving := serving), r), Sending(r),
               c.(queue := queue, priorityQueue := priorityQueue, flight := map[r.id := r], due := c.clock + r.timeout))
  {
  }

  lemma TakesOff(s: State, c: Scene)
    requires At(s, Dispatching, c) && c.flight == map[] && (c.queue != [] || c.priorityQueue != [])
    ensures At(Dispatched(s), Sending(Head(c)), Airborne(c))
  {
    assert s.queue == c.queue && s.priorityQueue == c.priorityQueue && s.inFlight == map[];
    hide At, Launched;
    if c.priorityQueue != [] {
      Launches(s, c.queue, c.priorityQueue[1..], s.serving, c.priorityQueue[0], c);
    } else {
      Launches(s, c.queue[1..], c.priorityQueue, [c.queue[0]], c.queue[0], c);
    }
  }

  lemma AtTakeOff(s: State, c: Scene)
    requires At(s, Dispatching, c) && c.flight == map[] && (c.queue != [] || c.priorityQueue != [])
    ensures Enabled(s, Dispatch) && At(Apply(s, Dispatch), Sending(Head(c)), Airborne(c))
    ensures forall d :: Granted(s, Dispatch, d) == 0
  {
    TakesOff(s, c);
    hide DueAt, Dispatched, Head, Airborne;
  }

  lemma AirborneIs(c: Scene)
    requires c.queue != [] || c.priorityQueue != []
    ensures var up := Airborne(c);
            up.flight != map[] && up.clock == c.clock && up.sampled == c.sampled && up.due == c.clock + Head(c).timeout
  {
    assert Head(c).id in Airborne(c).flight;
  }

  lemma TakeOff(run: Run, t: Tail, c: Scene) returns (next: Run)
    requires Drawn(run, t) && At(Last(run), Dispatching, c) && c.flight == map[] &&
             (c.queue != [] || c.priorityQueue != [])
    requires c.clock <= c.sampled + t.d
    ensures Drawn(next, t) && At(Last(next), Sending(Head(c)), Airborne(c)) && Continues(run, next)
  {
    hide Drawn, At, Last, Airborne, Head, Enabled, Apply, Granted;
    AtTakeOff(Last(run), c);
    AirborneIs(c);
    next := DrawTo(run, t, Dispatch, Sending(Head(c)), Airborne(c));
  }

  /** Whatever waits in the priority lane has the id of what is in flight. */
  predicate Blocked(c: Scene) {
    c.flight != map[] && (c.priorityQueue != [] ==> c.priorityQueue[0].id in c.flight)
  }

  lemma Linger(run: Run, t: Tail, c: Scene) returns (next: Run)
    requires Drawn(run, t) && At(Last(run), Dispatching, c) && Blocked(c) && c.clock <= c.sampled + t.d
    ensures Drawn(next, t) && At(Last(next), Polling, c) && Continues(run, next)
  {
    hide Drawn, DueAt, Launched;
    next := DrawTo(run, t, Dispatch, Polling, c);
  }

  // ----- one request -----

  /** From just after the dispatch of a request to the loop's head. */
  lemma Settle(run: Run, t: Tail, r: Request, c: Scene) returns (next: Run)
    requires Drawn(run, t) && At(Last(run), Sending(r), c) && |r.payload| <= MAX_SIZE
    requires c.flight != map[] && c.clock < c.due && c.clock <= c.sampled + t.d
    ensures Drawn(next, t) && At(Last(next), Loop, c.(sampled := c.clock)) && Continues(run, next)
  {
    hide Drawn, At;
    next := Go(run, t, SendDone, Sending(r), Polling, c);
    next := Go(next, t, PollQuiet, Polling, Expiring, c);
    next := Pass(next, t, c);
  }

  /** One iteration with something in flight, up to the expiry check. */
  lemma Iterate(run: Run, t: Tail, elapsed: nat, c: Scene) returns (next: Run)
    requires Drawn(run, t) && At(Last(run), Loop, c) && Blocked(c) && c.clock + elapsed <= c.sampled + t.d
    ensures Drawn(next, t) && At(Last(next), Polling, c.(clock := c.clock + elapsed)) && Continues(run, next)
  {
    hide Drawn, At;
    next := Go(run, t, Serve, Loop, Dispatching, c);
    next := Linger(next, t, c);
    next := Wait(next, t, elapsed, Polling, c);
  }

  /** Iterations until the last tick before the deadline. */
  lemma {:induction false} Hover(run: Run, t: Tail, c: Scene) returns (next: Run)
    requires Drawn(run, t) && At(Last(run), Loop, c) && Blocked(c) && c.clock == c.sampled < c.due && t.d >= 1
    ensures Drawn(next, t) && At(Last(next), Loop, c.(clock := c.due - 1, sampled := c.due - 1)) && Continues(run, next)
    decreases c.due - c.clock
  {
    hide Drawn, At;
    if c.clock == c.due - 1 {
      next := run;
    } else {
      var elapsed := if t.d < c.due - 1 - c.clock then t.d else c.due - 1 - c.clock;
      var later := c.(clock := c.clock + elapsed);
      next := Iterate(run, t, elapsed, c);
      next := Go(next, t, PollQuiet, Polling, Expiring, later);
      next := Pass(next, t, later);
      next := Hover(next, t, later.(sampled := later.clock));
    }
  }

  /** The scene one iteration after the last tick before the deadline. */
  function Latest(c: Scene, d: nat): Scene
    requires c.due > 0
  {
    c.(clock := c.due - 1 + d, sampled := c.due - 1)
  }

  /** From the loop's head, with something in flight, to the latest moment. */
  lemma Outlast(run: Run, t: Tail, c: Scene) returns (next: Run)
    requires Drawn(run, t) && At(Last(run), Loop, c) && Blocked(c) && c.clock == c.sampled < c.due && t.d >= 1
    ensures Drawn(next, t) && At(Last(next), Polling, Latest(c, t.d)) && Continues(run, next)
  {
    hide Drawn, At;
    next := Hover(run, t, c);
    next := Iterate(next, t, t.d, c.(clock := c.due - 1, sampled := c.due - 1));
  }

  /** The scene at the end of the iteration that begins now. */
  function AfterPass(c: Scene, d: nat): Scene { c.(clock := c.clock + d, sampled := c.clock) }

  lemma LaunchLate(run: Run, t: Tail, c: Scene) returns (next: Run)
    requires Drawn(run, t) && At(Last(run), Expiring, c) && c.flight == map[] &&
             (c.queue != [] || c.priorityQueue != [])
    requires c.clock <= c.sampled + t.d
    ensures var later := AfterPass(c, t.d);
            && (later.queue != [] || later.priorityQueue != [])
            && Drawn(next, t) && At(Last(next), Sending(Head(later)), Airborne(later)) && Continues(run, next)
  {
    hide Drawn, At, Last, Head, Airborne, Continues;
    var now := c.(sampled := c.clock);
    var passed := Pass(run, t, c);
    var served := Go(passed, t, Serve, Loop, Dispatching, now);
    GoesOn(run, passed, served);
    var waited := Wait(served, t, t.d, Dispatching, now);
    GoesOn(run, served, waited);
    next := TakeOff(waited, t, now.(clock := now.clock + t.d));
    GoesOn(run, waited, next);
  }

  lemma OutlastFrom(run: Run, t: Tail, r: Request, up: Scene) returns (next: Run)
    requires Drawn(run, t) && At(Last(run), Sending(r), up) && |r.payload| <= MAX_SIZE
    requires Blocked(up) && up.clock < up.due && up.clock <= up.sampled + t.d && t.d >= 1
    ensures Drawn(next, t) && At(Last(next), Polling, Latest(up, t.d)) && Continues(run, next)
  {
    hide Drawn, At, Last, Continues;
    var settled := Settle(run, t, r, up);
    next := Outlast(settled, t, up.(sampled := up.clock));
    GoesOn(run, settled, next);
  }

  lemma AfterPassFlies(c: Scene, d: nat)
    requires (c.queue != [] || c.priorityQueue != []) && Head(c).timeout >= 1
    requires |c.priorityQueue| >= 2 ==> c.priorityQueue[1].id == c.priorityQueue[0].id
    ensures var later, up := AfterPass(c, d), Airborne(c.(clock := c.clock + d));
            && (later.queue != [] || later.priorityQueue != []) && Head(later) == Head(c)
            && Blocked(Airborne(later)) && up.due > 0 && Latest(Airborne(later), d) == Latest(up, d)
            && Airborne(later).clock < Airborne(later).due && Airborne(later).clock <= Airborne(later).sampled + d
  {
    AirborneIs(AfterPass(c, d));
  }

  /** From an expiry check that passes, through the dispatch as late as possible, to the latest moment. */
  lemma Fly(run: Run, t: Tail, c: Scene) returns (next: Run)
    requires Drawn(run, t) && At(Last(run), Expiring, c) && c.flight == map[] &&
             (c.queue != [] || c.priorityQueue != [])
    requires c.clock <= c.sampled + t.d && t.d >= 1 && Head(c).timeout >= 1 && |Head(c).payload| <= MAX_SIZE
    requires |c.priorityQueue| >= 2 ==> c.priorityQueue[1].id == c.priorityQueue[0].id
    ensures var up := Airborne(c.(clock := c.clock + t.d));
            up.due > 0 && Drawn(next, t) && At(Last(next), Polling, Latest(up, t.d)) && Continues(run, next)
  {
    hide Drawn, At, Last, Continues, Head, Airborne, Latest, Blocked, AfterPass;
    AfterPassFlies(c, t.d);
    var later := AfterPass(c, t.d);
    var up := LaunchLate(run, t, c);
    next := OutlastFrom(up, t, Head(later), Airborne(later));
    GoesOn(run, up, next);
  }

  // ----- replies -----

  /** A frame with status `status` and nothing else. */
  function StatusFrame(status: nat): seq<byte>
    requires status < 256
  {
    [ToByte(status), 0]
  }

  lemma StatusOf(status: nat)
    requires status < 256
    ensures |StatusFrame(status)| == 2 && Status(StatusFrame(status)) == status
  {
    ByteRoundTrip(status);
    ValueBounds();
    hide Value, ToByte;
  }

  lemma AtFrame(s: State, id: Id, p: seq<byte>, c: Scene)
    requires At(s, Parsing, c) && s.unparsed > 0 && |p| >= 2
    ensures Enabled(s, Step.Frame(id, p)) && At(Apply(s, Step.Frame(id, p)), Arrived(id, Status(p), p), c)
    ensures forall d :: Granted(s, Step.Frame(id, p), d) == 0
  {
    hide Updated, Status, DueAt;
  }

  lemma AtData(s: State, c: Scene)
    requires At(s, InRecv, c)
    ensures Enabled(s, Data(1)) && At(Apply(s, Data(1)), Parsing, c) && Apply(s, Data(1)).unparsed == 1
    ensures forall d :: Granted(s, Data(1), d) == 0
  {
    hide DueAt;
  }

  lemma Open(run: Run, t: Tail, c: Scene) returns (next: Run)
    requires Drawn(run, t) && At(Last(run), Polling, c) && c.flight != map[] && c.clock <= c.sampled + t.d
    ensures Drawn(next, t) && At(Last(next), Parsing, c) && Last(next).unparsed == 1 && Continues(run, next)
    ensures |next.steps| == |run.steps| + 3
  {
    hide Drawn, At;
    next := Go(run, t, PollData, Polling, Receiving, c);
    next := Go(next, t, Recv, Receiving, InRecv, c);
    AtData(Last(next), c);
    hide Enabled, Apply, Granted;
    next := DrawTo(next, t, Data(1), Parsing, c);
  }

  /** Data arrives that completes one frame, with the given status. */
  lemma Arrive(run: Run, t: Tail, id: Id, status: nat, c: Scene) returns (next: Run)
    requires Drawn(run, t) && At(Last(run), Polling, c) && c.flight != map[] && c.clock <= c.sampled + t.d &&
             status < 256
    ensures Drawn(next, t) && At(Last(next), Arrived(id, status, StatusFrame(status)), c) && Continues(run, next)
    ensures |next.steps| == |run.steps| + 4
  {
    hide Drawn, At, StatusFrame;
    StatusOf(status);
    next := Open(run, t, c);
    AtFrame(Last(next), id, StatusFrame(status), c);
    hide Status, Enabled, Apply, Granted;
    next := DrawTo(next, t, Step.Frame(id, StatusFrame(status)), Arrived(id, status, StatusFrame(status)), c);
  }

  /** The scene with nothing in flight. */
  function Grounded(c: Scene): Scene { c.(flight := map[]) }

  lemma AtLookup(s: State, r: Request, status: nat, p: seq<byte>, c: Scene)
    requires At(s, Arrived(r.id, status, p), c) && c.flight == map[r.id := r]
    requires !(r.allowPending && status == STATUS_COMMAND_PENDING)
    ensures Enabled(s, Lookup) && At(Apply(s, Lookup), Detached(r, status, p), Grounded(c))
    ensures forall d :: Granted(s, Lookup, d) == 0
  {
    assert map[r.id := r] - {r.id} == map[];
  }

  lemma GroundedIs(c: Scene)
    ensures Grounded(c).queue == c.queue && Grounded(c).priorityQueue == c.priorityQueue
    ensures Grounded(c).clock == c.clock && Grounded(c).sampled == c.sampled && Grounded(c).flight == map[]
  {
  }

  /** The request is found and taken out of flight. */
  lemma Match(run: Run, t: Tail, r: Request, status: nat, p: seq<byte>, c: Scene) returns (next: Run)
    requires Drawn(run, t) && At(Last(run), Arrived(r.id, status, p), c) && c.flight == map[r.id := r]
    requires !(r.allowPending && status == STATUS_COMMAND_PENDING) && c.clock <= c.sampled + t.d
    ensures Drawn(next, t) && At(Last(next), Detached(r, status, p), Grounded(c)) && Continues(run, next)
  {
    AtLookup(Last(run), r, status, p, c);
    hide Drawn, At, Enabled, Apply, Granted;
    next := DrawTo(run, t, Lookup, Detached(r, status, p), Grounded(c));
  }

  /** From the parser to the expiry check. */
  lemma Finish(run: Run, t: Tail, g: Scene) returns (next: Run)
    requires Drawn(run, t) && At(Last(run), Parsing, g) && Lively(Expiring, g, t.d)
    ensures Drawn(next, t) && At(Last(next), Expiring, g) && Continues(run, next)
  {
    hide Drawn, At;
    next := Go(run, t, ParseDone, Parsing, Receiving, g);
    next := Go(next, t, Recv, Receiving, InRecv, g);
    next := Go(next, t, ReceiveDone, InRecv, Expiring, g);
  }

  lemma Report(run: Run, t: Tail, r: Request, status: nat, p: seq<byte>, g: Scene) returns (next: Run)
    requires Drawn(run, t) && At(Last(run), Detached(r, status, p), g) && g.clock <= g.sampled + t.d
    requires g.queue != [] || g.priorityQueue != []
    ensures Drawn(next, t) && At(Last(next), Expiring, g) && Continues(run, next)
  {
    hide Drawn, At;
    var answering := Answering(r, Reply(true, status, p));
    next := Go(run, t, Note, Detached(r, status, p), answering, g);
    next := Go(next, t, Answer, answering, Parsing, g);
    next := Finish(next, t, g);
  }

  /** A final reply takes the request out of flight, and the iteration goes on to the expiry check. */
  lemma Land(run: Run, t: Tail, r: Request, c: Scene) returns (next: Run)
    requires Drawn(run, t) && At(Last(run), Polling, c) && c.flight == map[r.id := r] && c.clock <= c.sampled + t.d
    requires c.queue != [] || c.priorityQueue != []
    ensures Drawn(next, t) && At(Last(next), Expiring, Grounded(c)) && Continues(run, next)
  {
    assert r.id in c.flight;
    GroundedIs(c);
    hide Drawn, At, StatusFrame, Last, Grounded, Continues;
    var p := StatusFrame(STATUS_SUCCESS);
    var arrived := Arrive(run, t, r.id, STATUS_SUCCESS, c);
    var matched := Match(arrived, t, r, STATUS_SUCCESS, p, c);
    GoesOn(run, arrived, matched);
    next := Report(matched, t, r, STATUS_SUCCESS, p, Grounded(c));
    GoesOn(run, matched, next);
  }

  // ----- everything that waits -----

  /** The request can be encoded and has a timeout. */
  predicate Fit(r: Request) { r.timeout >= 1 && |r.payload| <= MAX_SIZE }

  /** Every waiting request is fit, and the priority lane serves one command, as the driver's does. */
  predicate Uniform(queue: seq<Request>, priorityQueue: seq<Request>) {
    && (forall r :: r in queue ==> Fit(r)) && (forall r :: r in priorityQueue ==> Fit(r))
    && (forall r :: r in priorityQueue ==> r.id == priorityQueue[0].id)
  }

  /** The latest moment of the request dispatched next. */
  function Peak(c: Scene, d: nat): Scene
    requires c.queue != [] || c.priorityQueue != []
    requires Head(c).timeout >= 1
  {
    Latest(Airborne(c.(clock := c.clock + d)), d)
  }

  lemma PeakIs(c: Scene, d: nat)
    requires (c.queue != [] || c.priorityQueue != []) && Uniform(c.queue, c.priorityQueue)
    ensures Fit(Head(c))
    ensures var r, p := Head(c), Peak(c, d);
            && p.flight == map[r.id := r] && p.clock == c.clock + Share(r, d) && p.clock == p.sampled + d
            && Waiting(p.queue, d) + Waiting(p.priorityQueue, d) + Share(r, d) ==
                 Waiting(c.queue, d) + Waiting(c.priorityQueue, d)
            && |p.queue| + |p.priorityQueue| + 1 == |c.queue| + |c.priorityQueue|
            && Uniform(p.queue, p.priorityQueue)
            && (p.queue == [] && p.priorityQueue == [] ==> Waiting(p.queue, d) + Waiting(p.priorityQueue, d) == 0)
  {
    assert Head(c) in c.queue || Head(c) in c.priorityQueue;
  }

  lemma SecondIsLikeFirst(queue: seq<Request>, priorityQueue: seq<Request>)
    requires Uniform(queue, priorityQueue)
    ensures |priorityQueue| >= 2 ==> priorityQueue[1].id == priorityQueue[0].id
  {
  }

  lemma FlyToPeak(run: Run, t: Tail, c: Scene) returns (next: Run)
    requires Drawn(run, t) && At(Last(run), Expiring, c) && c.flight == map[] &&
             (c.queue != [] || c.priorityQueue != [])
    requires c.clock <= c.sampled + t.d && t.d >= 1 && Uniform(c.queue, c.priorityQueue) && Fit(Head(c))
    ensures Drawn(next, t) && At(Last(next), Polling, Peak(c, t.d)) && Continues(run, next)
  {
    hide Drawn, At, Last;
    SecondIsLikeFirst(c.queue, c.priorityQueue);
    next := Fly(run, t, c);
  }

  lemma AtClock(s: State, w: Worker, c: Scene)
    requires At(s, w, c)
    ensures s.clock == c.clock
  {
  }

  /** All waiting requests, one after another, each as late as possible. */
  lemma {:induction false} Exhaust(run: Run, t: Tail, c: Scene) returns (next: Run)
    requires Drawn(run, t) && At(Last(run), Expiring, c) && c.flight == map[] &&
             (c.queue != [] || c.priorityQueue != [])
    requires c.clock <= c.sampled + t.d && t.d >= 1 && Uniform(c.queue, c.priorityQueue)
    ensures Drawn(next, t) && Continues(run, next)
    ensures Last(next).clock == c.clock + Waiting(c.queue, t.d) + Waiting(c.priorityQueue, t.d)
    decreases |c.queue| + |c.priorityQueue|
  {
    PeakIs(c, t.d);
    var p := Peak(c, t.d);
    next := FlyToPeak(run, t, c);
    AtClock(Last(next), Polling, p);
    hide Drawn, Fit, Peak, Uniform, Waiting, Share, At, Last, Continues;
    if p.queue != [] || p.priorityQueue != [] {
      GroundedIs(p);
      hide Grounded;
      var landed := Land(next, t, Head(c), p);
      GoesOn(run, next, landed);
      next := Exhaust(landed, t, Grounded(p));
      GoesOn(run, landed, next);
    }
  }

  // ----- from anywhere past the dispatch -----

  /** Something waits, but nothing is in flight or in the worker's hands, and this iteration's dispatch is over. */
  predicate Adrift(s: State) {
    && s.inFlight == map[] && Held(s.worker) == [] && !InDisconnect(s.worker) && !BeforeDispatch(s.worker)
    && (s.queue != [] || s.priorityQueue != [])
  }

  /** The transport runs, no client holds the queue mutex, and the waiting requests are uniform. */
  predicate Tame(s: State) {
    s.running && s.mutex == Free && Uniform(s.queue, s.priorityQueue)
  }

  predicate PastDispatch(w: Worker) {
    w == Polling || w == Receiving || w == InRecv || w == Parsing || w.Arrived? || w == Expiring || w.Failing?
  }

  lemma AdriftIsPastDispatch(s: State)
    requires Inv(s) && Adrift(s)
    ensures PastDispatch(s.worker) && s.socket
  {
    BusyIsLinked(s);
    hide Conserved, Coherent, Dated, Ordered, Guarded;
  }

  lemma AtStray(s: State, w: Worker, c: Scene)
    requires At(s, w, c) && w.Arrived? && c.flight == map[]
    ensures Enabled(s, Lookup) && At(Apply(s, Lookup), Parsing, c) && forall d :: Granted(s, Lookup, d) == 0
  {
  }

  lemma AtFailing(s: State, w: Worker, c: Scene)
    requires At(s, w, c) && w.Failing? && c.flight == map[]
    ensures Enabled(s, FailSend) && At(Apply(s, FailSend), Polling, c) && forall d :: Granted(s, FailSend, d) == 0
  {
    assert s.inFlight - {w.request.id} == map[];
  }

  lemma DriftFromFrame(run: Run, t: Tail, w: Worker, c: Scene) returns (next: Run)
    requires Drawn(run, t) && At(Last(run), w, c) && w.Arrived? && c.flight == map[] && Lively(Parsing, c, t.d)
    ensures Drawn(next, t) && At(Last(next), Expiring, c) && Continues(run, next)
  {
    AtStray(Last(run), w, c);
    hide Drawn, At, Enabled, Apply, Granted;
    next := DrawTo(run, t, Lookup, Parsing, c);
    next := Finish(next, t, c);
  }

  lemma DriftFromFailure(run: Run, t: Tail, w: Worker, c: Scene) returns (next: Run)
    requires Drawn(run, t) && At(Last(run), w, c) && w.Failing? && c.flight == map[]
    requires Lively(Polling, c, t.d) && Lively(Expiring, c, t.d)
    ensures Drawn(next, t) && At(Last(next), Expiring, c) && Continues(run, next)
  {
    hide Drawn, At, Enabled, Apply, Granted, Lively, Last, Continues;
    AtFailing(Last(run), w, c);
    var failed := DrawTo(run, t, FailSend, Polling, c);
    next := Go(failed, t, PollQuiet, Polling, Expiring, c);
    GoesOn(run, failed, next);
  }

  lemma DriftFromRecv(run: Run, t: Tail, w: Worker, c: Scene) returns (next: Run)
    requires Drawn(run, t) && At(Last(run), w, c) && (w == Receiving || w == InRecv) && Lively(Polling, c, t.d)
    ensures Drawn(next, t) && At(Last(next), Expiring, c) && Continues(run, next)
  {
    hide Drawn, At;
    next := run;
    if w == Receiving {
      next := Go(next, t, Recv, Receiving, InRecv, c);
    }
    next := Go(next, t, ReceiveDone, InRecv, Expiring, c);
  }

  lemma SameRun(run: Run)
    ensures Continues(run, run)
  {
  }

  /** From anywhere past the dispatch to the expiry check, without a tick. */
  lemma Drift(run: Run, t: Tail, w: Worker, c: Scene) returns (next: Run)
    requires Drawn(run, t) && At(Last(run), w, c) && PastDispatch(w) && c.flight == map[]
    requires (c.queue != [] || c.priorityQueue != []) && c.clock <= c.sampled + t.d
    ensures Drawn(next, t) && At(Last(next), Expiring, c) && Continues(run, next)
  {
    hide Drawn, At;
    assert Lively(Polling, c, t.d) && Lively(Parsing, c, t.d) && Lively(Expiring, c, t.d);
    hide Lively, Last, Continues;
    if w == Polling {
      next := Go(run, t, PollQuiet, Polling, Expiring, c);
    } else if w.Failing? {
      next := DriftFromFailure(run, t, w, c);
    } else if w == InRecv || w == Receiving {
      next := DriftFromRecv(run, t, w, c);
    } else if w == Parsing {
      next := Finish(run, t, c);
    } else if w.Arrived? {
      next := DriftFromFrame(run, t, w, c);
    } else {
      next := run;
      SameRun(run);
    }
  }

  lemma DrawnAtEnd(run: Run, d: nat)
    requires ValidRun(run) && Outstanding(Last(run)) && Paced(Last(run), d)
    ensures Drawn(run, Tail(|run.states| - 1, d, -1))
  {
    hide Outstanding, Paced, Enabled, Apply;
  }

  lemma FromLater(run: Run, start: Run, t: Tail, w: Worker, c: Scene) returns (longer: Run)
    requires Continues(run, start) && Drawn(start, t) && At(Last(start), w, c) && PastDispatch(w) && c.flight == map[]
    requires (c.queue != [] || c.priorityQueue != []) && Uniform(c.queue, c.priorityQueue)
    requires c.clock <= c.sampled + t.d && t.d >= 1
    ensures Drawn(longer, t) && Continues(run, longer)
    ensures Last(longer).clock == c.clock + Waiting(c.queue, t.d) + Waiting(c.priorityQueue, t.d)
  {
    hide Drawn, At, Uniform, Waiting, Last;
    longer := Drift(start, t, w, c);
    longer := Exhaust(longer, t, c);
  }

  lemma SampledBefore(run: Run)
    requires ValidRun(run)
    ensures Last(run).sampled <= Last(run).clock
  {
    var horizon := DeadlinesAhead(run, |run.states| - 1);
  }

  /** The drain bound is exact: wherever something waits, nothing is in flight and the dispatch is over, there is a
      way to go on that keeps the pace and takes all the time the bound allows. */
  lemma BoundIsReached(run: Run, d: nat) returns (longer: Run)
    requires ValidRun(run) && Adrift(Last(run)) && Tame(Last(run)) && Paced(Last(run), d) && d >= 1
    ensures Drawn(longer, Tail(|run.states| - 1, d, -1)) && Continues(run, longer)
    ensures Last(longer).clock - Last(run).clock == Bound(Last(run), 0, d)
  {
    var s, t := Last(run), Tail(|run.states| - 1, d, -1);
    InvRun(run, |run.states| - 1);
    AdriftIsPastDispatch(s);
    SampledBefore(run);
    DrawnAtEnd(run, d);
    var c := Scene(s.clock, s.sampled, s.queue, s.priorityQueue, map[], 0);
    hide Inv, Drawn, ValidRun, Uniform, Continues;
    longer := Wait(run, t, s.sampled + d - s.clock, s.worker, c);
    var later := c.(clock := s.sampled + d);
    longer := FromLater(run, longer, t, s.worker, later);
  }

  /** Where `SumSuffices` does not hold, the sum over everything outstanding is exceeded. */
  lemma SumIsExceeded(run: Run, d: nat) returns (longer: Run)
    requires ValidRun(run) && Outstanding(Last(run)) && Tame(Last(run)) && Paced(Last(run), d)
    requires !SumSuffices(Last(run), d)
    ensures Drawn(longer, Tail(|run.states| - 1, d, -1)) && Continues(run, longer)
    ensures Last(longer).clock - Last(run).clock > PlainSum(Last(run), [], d)
  {
    var s := Last(run);
    SampledBefore(run);
    SharesAndSum(s.queue, d);
    SharesAndSum(s.priorityQueue, d);
    hide ValidRun, Uniform, Waiting, Sum, Positive;
    longer := BoundIsReached(run, d);
  }

  lemma DrawnFrom(run: Run, longer: Run, d: nat)
    requires ValidRun(run) && Drawn(longer, Tail(|run.states| - 1, d, -1)) && Continues(run, longer)
    ensures ValidRun(longer) && |longer.steps| + 1 == |longer.states| && 0 < |run.states| <= |longer.states|
    ensures longer.states[|run.states| - 1] == Last(run) && longer.states[|longer.states| - 1] == Last(longer)
    ensures forall k :: |run.states| - 1 <= k < |longer.states| ==>
              Outstanding(longer.states[k]) && Paced(longer.states[k], d)
    ensures forall k :: |run.states| - 1 <= k < |longer.steps| ==> Granted(longer.states[k], longer.steps[k], d) == 0
  {
    hide Enabled, Apply, Outstanding, Paced, Granted;
  }

  lemma SumHolds(run: Run, longer: Run, order: seq<Request>, d: nat)
    requires ValidRun(run) && Visits(order, Last(run).inFlight) && SumSuffices(Last(run), d)
    requires Drawn(longer, Tail(|run.states| - 1, d, -1)) && Continues(run, longer)
    ensures Last(longer).clock - Last(run).clock <= PlainSum(Last(run), order, d)
  {
    DrawnFrom(run, longer, d);
    hide ValidRun, Drawn, Continues, Last, Outstanding, Paced, Granted, PlainSum, SumSuffices, Visits;
    DrainsWithinSum(longer, |run.states| - 1, |longer.states| - 1, order, d);
  }

  /** The sum bounds every way to go on that keeps the pace, with nothing accepted and no pending reply. */
  ghost predicate SumBounds(run: Run, order: seq<Request>, d: nat)
    requires run.states != []
  {
    forall longer :: Drawn(longer, Tail(|run.states| - 1, d, -1)) && Continues(run, longer) ==>
      Last(longer).clock - Last(run).clock <= PlainSum(Last(run), order, d)
  }

  lemma SumIsEnough(run: Run, order: seq<Request>, d: nat)
    requires ValidRun(run) && Visits(order, Last(run).inFlight) && SumSuffices(Last(run), d)
    ensures SumBounds(run, order, d)
  {
    hide Drawn, Continues, SumSuffices, Visits, PlainSum, Last;
    forall longer | Drawn(longer, Tail(|run.states| - 1, d, -1)) && Continues(run, longer)
      ensures Last(longer).clock - Last(run).clock <= PlainSum(Last(run), order, d)
    {
      SumHolds(run, longer, order, d);
    }
  }

  lemma VisitedIsInFlight(order: seq<Request>, flight: map<Id, Request>)
    requires Visits(order, flight) && order != []
    ensures flight != map[]
  {
    assert InFlight(flight, order[0]);
  }

  lemma NothingToVisit(order: seq<Request>, s: State, d: nat)
    requires Visits(order, s.inFlight) && !SumSuffices(s, d)
    ensures order == []
  {
    if order != [] {
      VisitedIsInFlight(order, s.inFlight);
    }
  }

  lemma TwoIterations(s: State, order: seq<Request>, d: nat)
    requires Outstanding(s) && Visits(order, s.inFlight) && Conserved(s)
    ensures PlainSum(s, order, d) >= 2 * d
  {
    NonEmptySum(Held(s.worker), d);
    NonEmptySum(order, d);
    NonEmptySum(s.queue, d);
    NonEmptySum(s.priorityQueue, d);
    if s.inFlight != map[] {
      VisitsAll(order, s.inFlight);
    }
    hide Visits, Sum;
  }

  lemma EndIsConserved(run: Run)
    requires ValidRun(run)
    ensures Conserved(Last(run))
  {
    InvRun(run, |run.states| - 1);
    HasPlace(Last(run));
    hide ValidRun, Inv, Conserved;
  }

  lemma StoppedSumHolds(run: Run, longer: Run, order: seq<Request>, d: nat)
    requires ValidRun(run) && !Last(run).running && Visits(order, Last(run).inFlight) && Outstanding(Last(run))
    requires Drawn(longer, Tail(|run.states| - 1, d, -1)) && Continues(run, longer)
    ensures Last(longer).clock - Last(run).clock <= PlainSum(Last(run), order, d)
  {
    DrawnFrom(run, longer, d);
    EndIsConserved(run);
    hide ValidRun, Drawn, Continues, Last, Conserved, Outstanding, Paced, Granted, PlainSum, Visits;
    TwoIterations(Last(run), order, d);
    EnginePriority.StopEndsSoon(longer, |run.states| - 1, |longer.states| - 1, d);
  }

  lemma StoppedSumIsEnough(run: Run, order: seq<Request>, d: nat)
    requires ValidRun(run) && !Last(run).running && Visits(order, Last(run).inFlight) && Outstanding(Last(run))
    ensures SumBounds(run, order, d)
  {
    hide Drawn, Continues, Outstanding, Visits, PlainSum, Last;
    forall longer | Drawn(longer, Tail(|run.states| - 1, d, -1)) && Continues(run, longer)
      ensures Last(longer).clock - Last(run).clock <= PlainSum(Last(run), order, d)
    {
      StoppedSumHolds(run, longer, order, d);
    }
  }

  lemma SumIsTooLittle(run: Run, order: seq<Request>, d: nat)
    requires ValidRun(run) && Outstanding(Last(run)) && Tame(Last(run)) && Paced(Last(run), d)
    requires Visits(order, Last(run).inFlight) && !SumSuffices(Last(run), d)
    ensures !SumBounds(run, order, d)
  {
    NothingToVisit(order, Last(run), d);
    hide Drawn, Continues, Outstanding, Paced, Tame, SumSuffices, Visits, PlainSum, Last;
    var longer := SumIsExceeded(run, d);
    assert Drawn(longer, Tail(|run.states| - 1, d, -1)) && Continues(run, longer);
  }

  /** Of a tame state, and of any state of a stopped transport: the sum over everything outstanding of its timeout and
      two iterations bounds every way to go on that keeps the pace, with nothing accepted and no pending reply, if and
      only if the transport is stopped or `SumSuffices`. */
  lemma SumIsExact(run: Run, order: seq<Request>, d: nat)
    requires ValidRun(run) && Outstanding(Last(run)) && Paced(Last(run), d) && Visits(order, Last(run).inFlight)
    requires !Last(run).running || Tame(Last(run))
    ensures !Last(run).running || SumSuffices(Last(run), d) <==> SumBounds(run, order, d)
  {
    hide ValidRun, Drawn, Continues, Outstanding, Paced, Tame, SumSuffices, Visits, PlainSum, Last, SumBounds;
    if !Last(run).running {
      StoppedSumIsEnough(run, order, d);
    } else if SumSuffices(Last(run), d) {
      SumIsEnough(run, order, d);
    } else {
      SumIsTooLittle(run, order, d);
    }
  }
}
