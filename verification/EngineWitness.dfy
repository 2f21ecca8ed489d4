/** Runs from the initial state that show where the drain bound cannot be simpler. */
module EngineWitness {
  import opened Crc
  import opened Device
  import opened Engine
  import opened EngineDrain
  import opened EngineDelay

  /** The worker's own requests on the first connection, with timeout 1. */
  function StreamRequest(k: nat): Request
    requires k < 5
  {
    Request(k, STREAM_IDS[k], [1, 0, 0], false, true, 1, false, 1)
  }

  const STREAM: seq<Request> :=
    [StreamRequest(0), StreamRequest(1), StreamRequest(2), StreamRequest(3), StreamRequest(4)]

  /** A homing command with timeout 1, made on the first connection. */
  const HOMING: Request := Request(5, 0x20, [0], true, false, 1, false, 1)

  /** Connected for the first time, with the given requests accepted. */
  predicate Booted(s: State, w: Worker, queue: seq<Request>) {
    && At(s, w, Scene(0, 0, queue, [], map[], 0)) && s.connected && Generation(s) == 1
    && (forall r :: r in s.submitted ==> r in queue)
  }

  lemma Boot(maxPayload: nat) returns (run: Run)
    ensures ValidRun(run) && Booted(Last(run), Fresh, [])
  {
    run := Run([Initially(maxPayload)], []);
    run := Extend(run, Start);
    run := Extend(run, Dial);
    hide ValidRun;
    run := Extend(run, Connect);
    run := Extend(run, Announce);
  }

  lemma BootedProceeds(s: State, queue: seq<Request>)
    requires Booted(s, Fresh, queue)
    ensures Enabled(s, Proceed) && Booted(Apply(s, Proceed), Subscribing, queue)
  {
    hide DueAt;
  }

  lemma StreamIsNew(s: State, queue: seq<Request>)
    requires Booted(s, Subscribing, queue) && forall k | 0 <= k < 5 :: StreamRequest(k) !in queue
    ensures IsStream(s, STREAM)
  {
    hide At;
  }

  lemma BootedStreams(s: State, queue: seq<Request>)
    requires Booted(s, Subscribing, queue) && forall k | 0 <= k < 5 :: StreamRequest(k) !in queue
    ensures Enabled(s, Stream(STREAM))
    ensures At(Apply(s, Stream(STREAM)), Dispatching, Scene(0, 0, queue + STREAM, [], map[], 0))
  {
    StreamIsNew(s, queue);
    hide DueAt, IsStream, STREAM;
  }

  /** The worker has queued its own requests behind `queue`. */
  lemma Subscribe(run: Run, queue: seq<Request>) returns (next: Run)
    requires ValidRun(run) && Booted(Last(run), Fresh, queue) && forall k | 0 <= k < 5 :: StreamRequest(k) !in queue
    ensures ValidRun(next) && At(Last(next), Dispatching, Scene(0, 0, queue + STREAM, [], map[], 0))
  {
    BootedProceeds(Last(run), queue);
    hide ValidRun, Enabled, Apply, Booted, STREAM;
    next := Extend(run, Proceed);
    BootedStreams(Last(next), queue);
    next := Extend(next, Stream(STREAM));
  }

  lemma StreamIsFit()
    ensures |STREAM| == 5 && Uniform(STREAM, []) && Uniform(STREAM[1..], [])
    ensures forall r :: r in STREAM ==> r.timeout == 1 && r.id != 0x20
    ensures |STREAM[0].payload| == 3
  {
  }

  lemma {:induction false} UnitTimeouts(rs: seq<Request>, d: nat)
    requires forall r :: r in rs ==> r.timeout == 1
    ensures Sum(rs, d) == |rs| * (1 + 2 * d) && Waiting(rs, d) == |rs| * 2 * d && Positive(rs) == |rs|
    decreases |rs|
  {
    if rs != [] {
      UnitTimeouts(rs[1..], d);
      var n := |rs| - 1;
      assert |rs| * (1 + 2 * d) == n * (1 + 2 * d) + (1 + 2 * d);
      assert |rs| * 2 * d == n * 2 * d + 2 * d;
    }
  }

  lemma AnswerFirst(run: Run, t: Tail, r: Request, queue: seq<Request>) returns (next: Run)
    requires Drawn(run, t) && At(Last(run), Sending(r), Scene(0, 0, queue, [], map[r.id := r], 1))
    requires queue != [] && |r.payload| == 3
    ensures Drawn(next, t) && At(Last(next), Expiring, Scene(0, 0, queue, [], map[], 1))
  {
    hide Drawn, At, Last, Continues;
    var up := Scene(0, 0, queue, [], map[r.id := r], 1);
    assert r.id in up.flight;
    next := Go(run, t, SendDone, Sending(r), Polling, up);
    next := Land(next, t, r, up);
  }

  lemma DrawnIsValid(run: Run, t: Tail)
    requires Drawn(run, t)
    ensures ValidRun(run)
  {
  }

  lemma FirstAnswered(run: Run) returns (next: Run)
    requires ValidRun(run) && At(Last(run), Dispatching, Scene(0, 0, [] + STREAM, [], map[], 0))
    requires |STREAM| == 5 && |STREAM[0].payload| == 3 && forall r :: r in STREAM ==> r.timeout == 1
    ensures ValidRun(next) && At(Last(next), Expiring, Scene(0, 0, STREAM[1..], [], map[], 1))
  {
    hide STREAM;
    assert [] + STREAM == STREAM;
    var r, t := STREAM[0], Tail(|run.states| - 1, 5, -1);
    DrawnAtEnd(run, 5);
    next := TakeOff(run, t, Scene(0, 0, STREAM, [], map[], 0));
    next := AnswerFirst(next, t, r, STREAM[1..]);
    assert ValidRun(next) by { DrawnIsValid(next, t); }
  }

  /** The first telemetry request has been answered; four wait, and this iteration's dispatch is over. */
  lemma FourWait(maxPayload: nat) returns (run: Run)
    ensures ValidRun(run) && At(Last(run), Expiring, Scene(0, 0, STREAM[1..], [], map[], 1))
  {
    StreamIsFit();
    hide ValidRun, At, Drawn, Booted, STREAM;
    run := Boot(maxPayload);
    run := Subscribe(run, []);
    run := FirstAnswered(run);
  }

  lemma FourAreAdrift(s: State)
    requires At(s, Expiring, Scene(0, 0, STREAM[1..], [], map[], 1)) && |STREAM| == 5
    requires Uniform(STREAM[1..], []) && Positive(STREAM[1..]) == 4
    ensures Outstanding(s) && Tame(s) && Paced(s, 5) && !SumSuffices(s, 5) && s.inFlight == map[]
  {
    hide Uniform, STREAM, DueAt;
  }

  /** What is left of an iteration counts: a run from the initial state after which the requests that wait take longer
      than their timeouts and two iterations each. */
  lemma OneIterationMore(maxPayload: nat) returns (run: Run, longer: Run)
    ensures ValidRun(run) && Continues(run, longer) && Drawn(longer, Tail(|run.states| - 1, 5, -1))
    ensures Last(run).inFlight == map[] && Outstanding(Last(run))
    ensures Last(longer).clock - Last(run).clock > PlainSum(Last(run), [], 5)
  {
    StreamIsFit();
    UnitTimeouts(STREAM[1..], 5);
    hide ValidRun, Drawn, Sum, Waiting, STREAM, At, Last, Outstanding, Tame, Paced, SumSuffices, Uniform, PlainSum;
    run := FourWait(maxPayload);
    FourAreAdrift(Last(run));
    longer := SumIsExceeded(run, 5);
  }

  // ----- a late pending reply -----

  lemma HomingAccepted(e0: State)
    requires Booted(e0, Fresh, [])
    ensures Enabled(e0, Submit(HOMING))
    ensures var e1 := Apply(e0, Submit(HOMING));
            Enabled(e1, CallLock(HOMING)) &&
            var e2 := Apply(e1, CallLock(HOMING));
            Enabled(e2, CallUnlock(HOMING)) && Booted(Apply(e2, CallUnlock(HOMING)), Fresh, [HOMING])
  {
    hide DueAt;
  }

  /** The homing command is accepted before the worker's own requests. */
  lemma AcceptHoming(run: Run) returns (next: Run)
    requires ValidRun(run) && Booted(Last(run), Fresh, [])
    ensures ValidRun(next) && Booted(Last(next), Fresh, [HOMING])
  {
    var e0 := Last(run);
    HomingAccepted(e0);
    hide ValidRun, Enabled, Apply, Booted, HOMING;
    next := Extend(run, Submit(HOMING));
    next := Extend(next, CallLock(HOMING));
    next := Extend(next, CallUnlock(HOMING));
  }

  lemma AtPending(s: State, r: Request, p: seq<byte>, c: Scene, d: nat)
    requires At(s, Arrived(r.id, STATUS_COMMAND_PENDING, p), c) && c.flight == map[r.id := r] && r.allowPending
    requires c.due <= c.clock + r.timeout
    ensures Enabled(s, Lookup) && At(Apply(s, Lookup), Parsing, c.(due := c.clock + r.timeout))
    ensures Granted(s, Lookup, d) == c.clock + r.timeout - c.due
  {
  }

  /** Step `late` of `run` is the lookup of a pending reply that adds `added` to a deadline. */
  predicate Adds(run: Run, late: int, d: nat, added: int) {
    && 0 <= late < |run.steps| && |run.states| == |run.steps| + 1 && run.steps[late] == Lookup
    && Granted(run.states[late], Lookup, d) == added
  }

  lemma AddsStays(run: Run, next: Run, late: int, d: nat, added: int)
    requires Adds(run, late, d, added) && Continues(run, next) && |next.states| == |next.steps| + 1
    ensures Adds(next, late, d, added)
  {
    hide Granted;
    assert next.states[late] == run.states[late];
  }

  lemma AddsLast(run: Run, next: Run, d: nat, added: int)
    requires |run.states| == |run.steps| + 1 && |next.states| == |next.steps| + 1 && |next.steps| == |run.steps| + 1
    requires Continues(run, next) && next.steps[|run.steps|] == Lookup && Granted(Last(run), Lookup, d) == added
    ensures Adds(next, |run.steps|, d, added)
  {
    hide Granted;
    assert next.states[|run.steps|] == run.states[|run.steps|];
  }

  lemma Relabelled(run: Run, t: Tail, late: Tail)
    requires Drawn(run, t) && (t.late == -1 || t.late == late.late) && late == t.(late := late.late)
    ensures Drawn(run, late) && t.start <= |run.steps| && |run.states| == |run.steps| + 1
  {
    hide Outstanding, Paced, Granted, Enabled, Apply;
  }

  /** The scene with the deadline moved. */
  function Deferred(c: Scene, r: Request): Scene { c.(due := c.clock + r.timeout) }

  lemma DeferredIs(c: Scene, r: Request)
    requires c.flight == map[r.id := r]
    ensures var d := Deferred(c, r);
            && d.flight != map[] && d.clock == c.clock && d.sampled == c.sampled && d.due == c.clock + r.timeout
  {
    assert r.id in c.flight;
  }

  lemma PendingLooked(arrived: Run, late: Tail, r: Request, p: seq<byte>, c: Scene) returns (next: Run)
    requires Drawn(arrived, late) && late.late == |arrived.steps| && c.flight == map[r.id := r] && r.allowPending
    requires At(Last(arrived), Arrived(r.id, STATUS_COMMAND_PENDING, p), c)
    requires c.due <= c.clock + r.timeout && c.clock <= c.sampled + late.d
    ensures Drawn(next, late) && At(Last(next), Parsing, Deferred(c, r)) && Continues(arrived, next)
    ensures |arrived.states| == |arrived.steps| + 1 && |next.states| == |next.steps| + 1
    ensures Adds(next, late.late, late.d, c.clock + r.timeout - c.due)
  {
    DeferredIs(c, r);
    AtPending(Last(arrived), r, p, c, late.d);
    hide Drawn, At, Enabled, Apply, Granted, Adds, Last;
    next := DrawTo(arrived, late, Lookup, Parsing, Deferred(c, r));
    Relabelled(arrived, late, late);
    Relabelled(next, late, late);
    AddsLast(arrived, next, late.d, c.clock + r.timeout - c.due);
  }

  lemma Postpone(run: Run, t: Tail, r: Request, c: Scene) returns (next: Run, late: Tail)
    requires Drawn(run, t) && t.late == -1 && At(Last(run), Polling, c) && c.flight == map[r.id := r] && r.allowPending
    requires c.due <= c.clock + r.timeout && c.clock <= c.sampled + t.d
    ensures late == t.(late := late.late) && Drawn(next, late) && Continues(run, next)
    ensures At(Last(next), Parsing, Deferred(c, r)) && late.late >= t.start
    ensures Adds(next, late.late, t.d, c.clock + r.timeout - c.due)
  {
    assert r.id in c.flight;
    hide Drawn, At, StatusFrame, Adds, Last, Continues, Deferred;
    var arrived := Arrive(run, t, r.id, STATUS_COMMAND_PENDING, c);
    late := t.(late := |arrived.steps|);
    Relabelled(arrived, t, late);
    next := PendingLooked(arrived, late, r, StatusFrame(STATUS_COMMAND_PENDING), c);
    GoesOn(run, arrived, next);
  }

  /** From the parser to the loop's head, with something in flight. */
  lemma Round(run: Run, t: Tail, c: Scene) returns (next: Run)
    requires Drawn(run, t) && At(Last(run), Parsing, c) && c.flight != map[] && c.clock < c.due &&
             c.clock <= c.sampled + t.d
    ensures Drawn(next, t) && At(Last(next), Loop, c.(sampled := c.clock)) && Continues(run, next)
  {
    hide Drawn, At, Continues, Last;
    var finished := Finish(run, t, c);
    next := Pass(finished, t, c);
    GoesOn(run, finished, next);
  }

  lemma RoundAdding(run: Run, postponed: Run, t: Tail, c: Scene, added: int) returns (next: Run)
    requires Drawn(postponed, t) && At(Last(postponed), Parsing, c) && Continues(run, postponed)
    requires c.flight != map[] && c.clock < c.due && c.clock <= c.sampled + t.d
    requires Adds(postponed, t.late, t.d, added)
    ensures Drawn(next, t) && At(Last(next), Loop, c.(sampled := c.clock)) && Continues(run, next)
    ensures Adds(next, t.late, t.d, added)
  {
    hide Drawn, At, Continues, Adds, Last;
    next := Round(postponed, t, c);
    GoesOn(run, postponed, next);
    Relabelled(next, t, t);
    AddsStays(postponed, next, t.late, t.d, added);
  }

  /** A pending reply at the latest moment, and the rest of the iteration. */
  lemma Defer(run: Run, t: Tail, r: Request, c: Scene) returns (next: Run, late: Tail)
    requires Drawn(run, t) && t.late == -1 && At(Last(run), Polling, c) && c.flight == map[r.id := r] && r.allowPending
    requires c.due <= c.clock + r.timeout && c.clock <= c.sampled + t.d && r.timeout > 0
    ensures late == t.(late := late.late) && Drawn(next, late) && Continues(run, next)
    ensures At(Last(next), Loop, Deferred(c, r).(sampled := c.clock)) && late.late >= t.start
    ensures Adds(next, late.late, t.d, c.clock + r.timeout - c.due)
  {
    DeferredIs(c, r);
    hide Drawn, At, Continues, Adds, Last, Deferred;
    var postponed, l := Postpone(run, t, r, c);
    late := l;
    next := RoundAdding(run, postponed, l, Deferred(c, r), c.clock + r.timeout - c.due);
  }

  /** The homing command alone is in flight, the worker's requests wait behind it. */
  function Homing(clock: nat, sampled: nat, due: nat): Scene {
    Scene(clock, sampled, STREAM, [], map[0x20 := HOMING], due)
  }

  /** Homing goes out a full iteration after its acceptance and is answered at the latest moment. */
  lemma HomingUp(run: Run, t: Tail) returns (next: Run)
    requires Drawn(run, t) && At(Last(run), Dispatching, Scene(0, 0, [HOMING] + STREAM, [], map[], 0)) && t.d == 8
    ensures Drawn(next, t) && At(Last(next), Polling, Homing(16, 8, 9)) && Continues(run, next)
  {
    var c := Scene(0, 0, [HOMING] + STREAM, [], map[], 0);
    var up := Homing(8, 0, 9);
    assert Airborne(c.(clock := 8)) == up by {
      assert ([HOMING] + STREAM)[1..] == STREAM;
    }
    assert up.flight != map[] by {
      assert 0x20 in up.flight;
    }
    hide Drawn, At, Continues, Last, Airborne, STREAM;
    var waited := Wait(run, t, 8, Dispatching, c);
    var taken := TakeOff(waited, t, c.(clock := 8));
    GoesOn(run, waited, taken);
    var settled := Settle(taken, t, HOMING, up);
    GoesOn(run, taken, settled);
    next := Outlast(settled, t, Homing(8, 8, 9));
    GoesOn(run, settled, next);
  }

  lemma StreamDown(run: Run, t: Tail, c: Scene) returns (next: Run)
    requires Drawn(run, t) && At(Last(run), Expiring, c) && t.d == 8
    requires c.queue == STREAM && c.priorityQueue == [] && c.flight == map[] && c.clock == 24 && c.sampled == 16
    ensures Drawn(next, t) && Continues(run, next) && Last(next).clock == 104
  {
    StreamIsFit();
    UnitTimeouts(STREAM, 8);
    hide Drawn, At, Continues, Last, STREAM;
    next := Exhaust(run, t, c);
  }

  /** After the late pending reply: the final reply at the latest moment, and then the worker's requests. */
  lemma HomingDown(run: Run, t: Tail) returns (next: Run)
    requires Drawn(run, t) && At(Last(run), Loop, Homing(16, 16, 17)) && t.d == 8
    ensures Drawn(next, t) && Continues(run, next) && Last(next).clock == 104
  {
    var up := Homing(16, 16, 17);
    assert up.flight != map[] by {
      assert 0x20 in up.flight;
    }
    StreamIsFit();
    hide Drawn, At, Continues, Last, STREAM;
    var peak := Outlast(run, t, up);
    var landed := Land(peak, t, HOMING, Homing(24, 16, 17));
    GoesOn(run, peak, landed);
    next := StreamDown(landed, t, Grounded(Homing(24, 16, 17)));
    GoesOn(run, landed, next);
  }

  lemma SixWait(s: State)
    requires At(s, Dispatching, Scene(0, 0, [HOMING] + STREAM, [], map[], 0)) && Sum([HOMING] + STREAM, 8) == 102
    ensures Outstanding(s) && Paced(s, 8) && SumSuffices(s, 8)
    ensures s.inFlight == map[] && s.clock == 0 && PlainSum(s, [], 8) == 102
  {
    hide STREAM, DueAt, Positive;
  }

  lemma HomingWaits(maxPayload: nat) returns (run: Run)
    ensures ValidRun(run) && At(Last(run), Dispatching, Scene(0, 0, [HOMING] + STREAM, [], map[], 0))
    ensures Outstanding(Last(run)) && Paced(Last(run), 8) && SumSuffices(Last(run), 8)
    ensures Last(run).inFlight == map[] && Last(run).clock == 0 && PlainSum(Last(run), [], 8) == 102
  {
    StreamIsFit();
    UnitTimeouts([HOMING] + STREAM, 8);
    hide ValidRun, Booted, STREAM, Sum, At, Last, Outstanding, Paced, SumSuffices, PlainSum;
    run := Boot(maxPayload);
    run := AcceptHoming(run);
    run := Subscribe(run, [HOMING]);
    SixWait(Last(run));
  }

  /** A pending reply that comes after the deadline it extends adds more than its request's timeout: a run from the
      initial state with one pending reply that takes longer than the sum over everything outstanding and that
      timeout. */
  lemma LatePendingReply(maxPayload: nat) returns (run: Run, longer: Run, late: nat)
    ensures ValidRun(run) && Continues(run, longer) && Drawn(longer, Tail(|run.states| - 1, 8, late))
    ensures SumSuffices(Last(run), 8) && Last(run).inFlight == map[]
    ensures Adds(longer, late, 8, HOMING.timeout + 7) && late >= |run.states| - 1
    ensures Last(longer).clock - Last(run).clock > PlainSum(Last(run), [], 8) + HOMING.timeout
  {
    run := HomingWaits(maxPayload);
    hide ValidRun, Drawn, STREAM, Sum, Continues, Adds;
    var t := Tail(|run.states| - 1, 8, -1);
    assert Drawn(run, t) by { DrawnAtEnd(run, 8); }
    hide At, Last;
    var up := HomingUp(run, t);
    var deferred, l := Defer(up, t, HOMING, Homing(16, 8, 9));
    GoesOn(run, up, deferred);
    late := l.late;
    longer := HomingDown(deferred, l);
    GoesOn(run, deferred, longer);
    Relabelled(longer, l, l);
    AddsStays(deferred, longer, late, 8, 8);
  }
}
