/** The order in which the transport publishes a new connection: `state_.connected` is set before `connected_`. An
    initialisation whose timer reads the new generation in between can be refused, and only such a one can. */
module DriverRace {
  import opened Device
  import opened Engine
  import opened EngineInvariant
  import opened EngineConnection
  import EngineShutdown
  import EngineSteps
  import opened Driver
  import opened DriverInvariant
  import opened DriverAttempts

  // ----- extending histories -----

  function End(h: History, o: Options): System {
    if h.states == [] then Initial(o) else h.states[|h.states| - 1]
  }

  /** `next` goes on from `h`. */
  predicate Extends(h: History, next: History) {
    h.states <= next.states && h.labels <= next.labels
  }

  lemma ExtendsOn(h: History, middle: History, next: History)
    requires Extends(h, middle) && Extends(middle, next)
    ensures Extends(h, next)
  {
  }

  lemma ExtendsItself(h: History)
    ensures Extends(h, h)
  {
  }

  lemma GoOn(h: History, o: Options, l: Label) returns (next: History)
    requires ValidHistory(h, o) && Can(End(h, o), l)
    ensures ValidHistory(next, o) && End(next, o) == Advance(End(h, o), l) && Extends(h, next)
    ensures |next.labels| == |h.labels| + 1 && next.labels[|h.labels|] == l && next.states[|h.labels|] == End(h, o)
  {
    hide Can, Advance, Initial;
    var n := Advance(End(h, o), l);
    next := History(h.states + [n], h.labels + [l]);
    forall k | 0 <= k < |next.labels|
      ensures Can(next.states[k], next.labels[k]) && next.states[k + 1] == Advance(next.states[k], next.labels[k])
    {
      if k < |h.labels| {
        assert next.states[k] == h.states[k] && next.states[k + 1] == h.states[k + 1];
      }
    }
  }

  // ----- a generation published but not announced -----

  /** Generation `g` is published, and `connected_` is still to be set. */
  predicate Unannounced(e: State, g: nat) {
    e.worker == Bumped && e.running && !e.connected && e.device.connected && Generation(e) == g
  }

  lemma BumpedIsUnannounced(e: State)
    requires Inv(e) && e.worker == Bumped && e.running
    ensures Unannounced(e, Generation(e))
    ensures e.mutex.Owned? ==> IsCall(e, e.mutex.owner, Locked) && !e.mutex.sawConnected
  {
    hide Conserved, Coherent, Dated, Ordered, Tracked, Down;
  }

  /** The timer is on its way to an attempt for `g`, or has started it. */
  predicate Stands(s: System, c: Callback, g: nat) {
    && s.callback == c && s.init.initialized != g && Unannounced(s.engine, g) && s.engine.mutex == Free
    && (if c == Idle then s.init.thread == Asking(g) && s.init.performed == [] else !Active(s.init.thread))
    && (c == TimerStarting(g) || c == Idle ==> !s.init.successful)
  }

  /** The timer's places from the snapshot to the start of the thread. */
  function TimerNext(c: Callback, g: nat): Callback {
    match c
    case TimerReading => TimerComparing(g)
    case TimerComparing(_) => TimerJoining(g)
    case TimerJoining(_) => TimerRaising(g)
    case TimerRaising(_) => TimerLowering(g)
    case TimerLowering(_) => TimerStarting(g)
    case _ => Idle
  }

  function TimerRank(c: Callback, g: nat): nat {
    if c == TimerReading then 6
    else if c == TimerComparing(g) then 5
    else if c == TimerJoining(g) then 4
    else if c == TimerRaising(g) then 3
    else if c == TimerLowering(g) then 2
    else if c == TimerStarting(g) then 1
    else 0
  }

  lemma ReadingRanks(g: nat)
    ensures TimerRank(TimerReading, g) > 0
  {
  }

  lemma TimerRanks(c: Callback, g: nat)
    requires TimerRank(c, g) > 0
    ensures TimerRank(TimerNext(c, g), g) < TimerRank(c, g)
    ensures TimerRank(TimerNext(c, g), g) == 0 ==> c == TimerStarting(g)
  {
  }

  lemma TimerMoves(s: System, c: Callback, g: nat)
    requires Stands(s, c, g) && TimerRank(c, g) > 0
    ensures Can(s, TimerGoes) && Stands(Advance(s, TimerGoes), TimerNext(c, g), g)
  {
    assert c == TimerReading ==> s.engine.device.connected && Generation(s.engine) == g;
    hide Unannounced;
  }

  /** The timer starts the attempt. */
  lemma {:induction false} Capture(h: History, o: Options, c: Callback, g: nat) returns (next: History)
    requires ValidHistory(h, o) && Stands(End(h, o), c, g) && TimerRank(c, g) > 0
    ensures ValidHistory(next, o) && Stands(End(next, o), Idle, g) && Extends(h, next)
    decreases TimerRank(c, g)
  {
    TimerMoves(End(h, o), c, g);
    TimerRanks(c, g);
    var t := TimerNext(c, g);
    hide ValidHistory, Stands, Can, Advance, End, Extends, TimerRank;
    next := GoOn(h, o, TimerGoes);
    if c != TimerStarting(g) {
      var moved := next;
      next := Capture(moved, o, t, g);
      ExtendsOn(h, moved, next);
    }
  }

  /** The timer has read generation `g` of a connection that is not announced yet, and will take it up. */
  predicate Reads(s: System, g: nat) {
    s.callback == TimerReading && s.init.initialized != g && Unannounced(s.engine, g)
  }

  lemma ReadsStands(s: System, g: nat)
    requires Reads(s, g) && s.engine.mutex == Free && !Active(s.init.thread)
    ensures Stands(s, TimerReading, g)
  {
  }

  lemma UnlockFrees(s: System, g: nat)
    requires Reads(s, g) && s.engine.mutex.Owned? && !s.engine.mutex.sawConnected && !Active(s.init.thread)
    requires IsCall(s.engine, s.engine.mutex.owner, Locked)
    ensures var l := EngineMoves(CallUnlock(s.engine.mutex.owner)); Can(s, l) && Stands(Advance(s, l), TimerReading, g)
  {
    hide Enqueue;
  }

  /** Whoever holds the queue mutex has seen no connection and lets go of it. */
  lemma Release(h: History, o: Options, g: nat) returns (next: History)
    requires ValidHistory(h, o) && Reads(End(h, o), g)
    ensures ValidHistory(next, o) && Stands(End(next, o), TimerReading, g) && Extends(h, next)
  {
    var s := End(h, o);
    DriverSteps.DriverRun(h, o, |h.states| - 1);
    DriverTheorems.EngineIsSound(s);
    ReadingIsIdle(s);
    BumpedIsUnannounced(s.engine);
    hide ValidHistory, DriverInv, Inv, Can, Advance, Extends, Stands, Active;
    if s.engine.mutex == Free {
      ReadsStands(s, g);
      next := h;
      ExtendsItself(h);
    } else {
      UnlockFrees(s, g);
      next := GoOn(h, o, EngineMoves(CallUnlock(s.engine.mutex.owner)));
    }
  }

  // ----- the first command is refused -----

  /** Where the first command of the attempt is in its call. */
  predicate Calls(e: State, r: Request, c: Call, g: nat) {
    && Unannounced(e, g) && IsCall(e, r, c)
    && (if c == Returned then r in e.resolved && e.resolved[r] == FAILED else r !in e.resolved)
    && e.mutex == (if c == Locked then Owned(r, false) else Free)
  }

  predicate Tries(s: System, t: Thread, r: Request, c: Call, g: nat) {
    s.init.thread == t && !s.init.successful && s.init.initialized != g && Calls(s.engine, r, c, g)
  }

  lemma NewIsUnresolved(e: State, r: Request)
    requires Inv(e) && r !in e.submitted
    ensures r !in e.resolved
  {
    EngineSteps.OnePlace(e, r);
    hide Linked, Coherent, Dated, Ordered, Guarded, Tracked, Down;
  }

  lemma Asks(s: System, r: Request, g: nat)
    requires Stands(s, Idle, g) && Driver.Fresh(s.engine, r, Plan(s.options)[0]) && r !in s.engine.resolved
    ensures Can(s, InitSends(r)) && Tries(Advance(s, InitSends(r)), Awaiting(g, r), r, Created, g)
  {
    hide Carries;
  }

  lemma LockRefused(e: State, r: Request, g: nat)
    requires Calls(e, r, Created, g)
    ensures Enabled(e, CallLock(r)) && Calls(Apply(e, CallLock(r)), r, Locked, g)
  {
  }

  lemma UnlockRefused(e: State, r: Request, g: nat)
    requires Calls(e, r, Locked, g)
    ensures Enabled(e, CallUnlock(r)) && Calls(Apply(e, CallUnlock(r)), r, Unqueued, g)
  {
  }

  lemma FailRefused(e: State, r: Request, g: nat)
    requires Calls(e, r, Unqueued, g)
    ensures Enabled(e, CallFail(r)) && Calls(Apply(e, CallFail(r)), r, Returned, g)
  {
  }

  lemma CallMoves(s: System, step: Step, t: Thread, r: Request, c: Call, c': Call, g: nat)
    requires Tries(s, t, r, c, g) && Enabled(s.engine, step) && !step.Submit? && Calls(Apply(s.engine, step), r, c', g)
    ensures Can(s, EngineMoves(step)) && Tries(Advance(s, EngineMoves(step)), t, r, c', g)
  {
    hide Enabled, Apply, Calls;
  }

  lemma RefusedStep(h: History, o: Options, step: Step, r: Request, c: Call, c': Call, g: nat) returns (next: History)
    requires ValidHistory(h, o) && Tries(End(h, o), Awaiting(g, r), r, c, g)
    requires match c
             case Created => step == CallLock(r) && c' == Locked
             case Locked => step == CallUnlock(r) && c' == Unqueued
             case Unqueued => step == CallFail(r) && c' == Returned
             case Returned => false
    ensures ValidHistory(next, o) && Tries(End(next, o), Awaiting(g, r), r, c', g) && Extends(h, next)
  {
    match c {
      case Created => LockRefused(End(h, o).engine, r, g);
      case Locked => UnlockRefused(End(h, o).engine, r, g);
      case Unqueued => FailRefused(End(h, o).engine, r, g);
    }
    hide ValidHistory, Can, Advance, End, Calls, Enabled, Apply, Extends;
    CallMoves(End(h, o), step, Awaiting(g, r), r, c, c', g);
    next := GoOn(h, o, EngineMoves(step));
  }

  /** A new request for the first order of the plan. */
  lemma FirstRequest(s: System) returns (r: Request)
    requires DriverInv(s)
    ensures Driver.Fresh(s.engine, r, Plan(s.options)[0]) && r !in s.engine.resolved
  {
    var order := Plan(s.options)[0];
    var n := EngineShutdown.SerialBound(s.engine.submitted);
    r := Request(n, order.id, order.payload, true, false, order.timeout, order.priority, Generation(s.engine));
    DriverTheorems.EngineIsSound(s);
    NewIsUnresolved(s.engine, r);
    hide DriverInv, Inv, Plan;
  }

  /** The first command is refused, because the connection has not been announced. */
  lemma Refuse(h: History, o: Options, g: nat) returns (next: History, r: Request)
    requires ValidHistory(h, o) && Stands(End(h, o), Idle, g)
    ensures ValidHistory(next, o) && Tries(End(next, o), Awaiting(g, r), r, Returned, g) && Extends(h, next)
  {
    DriverSteps.DriverRun(h, o, |h.states| - 1);
    hide DriverInv;
    r := FirstRequest(End(h, o));
    hide ValidHistory, Stands, Can, Advance, End, Tries, Calls, Enabled, Apply, Plan, Extends;
    Asks(End(h, o), r, g);
    var asked := GoOn(h, o, InitSends(r));
    var locked := RefusedStep(asked, o, CallLock(r), r, Created, Locked, g);
    ExtendsOn(h, asked, locked);
    var unlocked := RefusedStep(locked, o, CallUnlock(r), r, Locked, Unqueued, g);
    ExtendsOn(h, locked, unlocked);
    next := RefusedStep(unlocked, o, CallFail(r), r, Unqueued, Returned, g);
    ExtendsOn(h, unlocked, next);
  }

  // ----- the failure is stored, and the connection announced -----

  /** The attempt for `g` takes a reply that no device gave. */
  predicate Refused(s: System, l: Label, g: nat) {
    TakesFailure(s, l, g) && !s.engine.resolved[s.init.thread.request].transportOk
  }

  lemma TakesRefusal(s: System, r: Request, g: nat)
    requires Tries(s, Awaiting(g, r), r, Returned, g)
    ensures Can(s, InitGoes) && Refused(s, InitGoes, g)
    ensures var n := Advance(s, InitGoes);
            n.init.thread == Storing(g, false) && !n.init.successful && n.engine == s.engine
  {
    hide Plan;
  }

  lemma StoresFailure(s: System, g: nat)
    requires s.init.thread == Storing(g, false) && !s.init.successful
    ensures Can(s, InitGoes)
    ensures var n := Advance(s, InitGoes); Missed(n.init, g) && n.engine == s.engine
  {
  }

  lemma Announces(s: System, g: nat)
    requires Unannounced(s.engine, g)
    ensures Can(s, EngineMoves(Announce))
    ensures var n := Advance(s, EngineMoves(Announce));
            Working(n.engine, g) && n.engine.device.connected && n.init == s.init
  {
  }

  lemma TriesUnannounced(s: System, t: Thread, r: Request, c: Call, g: nat)
    requires Tries(s, t, r, c, g)
    ensures Unannounced(s.engine, g)
  {
  }

  /** `next` goes on from `h` to where generation `g` takes commands, although the attempt for it has been stored as
      failed, having taken a reply that no device gave. */
  ghost predicate Misses(h: History, next: History, o: Options, g: nat) {
    && Extends(h, next) && Working(End(next, o).engine, g) && Missed(End(next, o).init, g)
    && exists m :: |h.labels| <= m < |next.labels| < |next.states| && Refused(next.states[m], next.labels[m], g)
  }

  lemma MissesWith(h: History, next: History, o: Options, g: nat, m: nat)
    requires Extends(h, next) && Working(End(next, o).engine, g) && Missed(End(next, o).init, g)
    requires |h.labels| <= m < |next.labels| < |next.states| && Refused(next.states[m], next.labels[m], g)
    ensures Misses(h, next, o, g)
  {
    hide Extends, Working, Missed, End, Refused;
  }

  lemma RefusalStays(h: History, next: History, m: nat, g: nat)
    requires Extends(h, next) && m < |h.labels| < |h.states| && Refused(h.states[m], h.labels[m], g)
    ensures m < |next.labels| && m < |next.states| && Refused(next.states[m], next.labels[m], g)
  {
    hide Refused;
    assert next.states[m] == h.states[m] && next.labels[m] == h.labels[m];
  }

  lemma LengthsFit(h: History, o: Options)
    requires ValidHistory(h, o)
    ensures |h.states| == |h.labels| + 1
  {
    hide Can, Advance;
  }

  /** The refused reply is taken and stored, and then the connection is announced. */
  lemma StoreAndAnnounce(h: History, o: Options, r: Request, g: nat) returns (next: History)
    requires ValidHistory(h, o) && Tries(End(h, o), Awaiting(g, r), r, Returned, g)
    ensures ValidHistory(next, o) && Misses(h, next, o, g) && End(next, o).engine.device.connected
  {
    TriesUnannounced(End(h, o), Awaiting(g, r), r, Returned, g);
    TakesRefusal(End(h, o), r, g);
    LengthsFit(h, o);
    hide ValidHistory, Can, Advance, End, Tries, Missed, Misses, Refused, Extends, Unannounced, Working;
    var taken := GoOn(h, o, InitGoes);
    StoresFailure(End(taken, o), g);
    var stored := GoOn(taken, o, InitGoes);
    ExtendsOn(h, taken, stored);
    Announces(End(stored, o), g);
    next := GoOn(stored, o, EngineMoves(Announce));
    LengthsFit(taken, o);
    LengthsFit(next, o);
    ExtendsOn(h, stored, next);
    ExtendsOn(taken, stored, next);
    RefusalStays(taken, next, |h.labels|, g);
    MissesWith(h, next, o, g, |h.labels|);
  }

  lemma MissesFromLater(h: History, middle: History, next: History, o: Options, g: nat)
    requires Extends(h, middle) && Misses(middle, next, o, g)
    ensures Misses(h, next, o, g)
  {
    hide Working, Missed, End, Refused;
    var m :| |middle.labels| <= m < |next.labels| < |next.states| && Refused(next.states[m], next.labels[m], g);
    assert |h.labels| <= m;
  }

  /** From every reachable state in which the timer reads a new generation that is published but not announced, there
      is a way to go on that refuses the attempt, stores it as failed, and then announces the connection. */
  lemma UnannouncedMayBeMissed(h: History, o: Options, g: nat) returns (next: History)
    requires ValidHistory(h, o) && Reads(End(h, o), g)
    ensures ValidHistory(next, o) && Misses(h, next, o, g) && End(next, o).engine.device.connected
  {
    hide ValidHistory, Reads, Stands, Tries, Misses, Extends, End, TimerRank;
    var released := Release(h, o, g);
    assert TimerRank(TimerReading, g) > 0 by { ReadingRanks(g); }
    var captured := Capture(released, o, TimerReading, g);
    ExtendsOn(h, released, captured);
    var refused, r := Refuse(captured, o, g);
    ExtendsOn(h, captured, refused);
    next := StoreAndAnnounce(refused, o, r, g);
    MissesFromLater(h, refused, next, o, g);
  }

  // ----- exactly then -----

  /** The timer is about to take up generation `g`: what it reads shows a connection that has had no attempt. */
  predicate TakesUp(s: System, g: nat) {
    && s.callback == TimerReading && s.init.initialized != g
    && s.engine.device.connected && Generation(s.engine) == g
  }

  lemma TakesUpCases(s: System, g: nat)
    requires TakesUp(s, g)
    ensures Unannounced(s.engine, g) ==> Reads(s, g)
    ensures Working(s.engine, g) || Over(s.engine, g) || (s.engine.worker == Bumped && s.engine.running)
  {
  }

  lemma HeardIsNotRefused(s: System, l: Label, g: nat)
    requires AttemptHeard(s.init.thread, s.engine, g)
    ensures !Refused(s, l, g)
  {
    if s.init.thread.Awaiting? {
      HeardMeans(s.engine, s.init.thread.request, g);
    }
    hide Heard;
  }

  /** Of a connection that takes commands when the timer reads it and at the end, no attempt is refused. */
  lemma NothingRefused(h: History, o: Options, i: nat, g: nat, m: nat)
    requires ValidHistory(h, o) && i <= m < |h.labels| && Modest(o) && TakesUp(h.states[i], g)
    requires Working(h.states[i].engine, g) && Working(End(h, o).engine, g)
    ensures !Refused(h.states[m], h.labels[m], g)
  {
    hide DriverInv, AttemptHeard, Refused, Working, Modest;
    var k := |h.states| - 1;
    DriverSteps.DriverRun(h, o, i);
    ReadingIsIdle(h.states[i]);
    WorksThroughout(h, o, i, m, k, g);
    HeardOverHistory(h, o, i, m, g);
    hide ValidHistory;
    HeardIsNotRefused(h.states[m], h.labels[m], g);
  }

  lemma SameEnd(h: History, next: History, o: Options)
    requires ValidHistory(h, o) && ValidHistory(next, o) && Extends(h, next)
    ensures |h.labels| < |next.states| && next.states[|h.labels|] == End(h, o)
  {
    LengthsFit(h, o);
    hide ValidHistory;
  }

  lemma NotOverYet(h: History, next: History, o: Options, g: nat)
    requires ValidHistory(h, o) && ValidHistory(next, o) && Extends(h, next) && Working(End(next, o).engine, g)
    ensures !Over(End(h, o).engine, g)
  {
    SameEnd(h, next, o);
    LengthsFit(next, o);
    WorksOrIsOver(next, o, |h.labels|, |next.states| - 1, g);
    NotBoth(End(next, o).engine, g);
    hide ValidHistory, Working, Over;
  }

  lemma NotWorkingYet(h: History, next: History, o: Options, g: nat)
    requires ValidHistory(h, o) && ValidHistory(next, o) && Modest(o) && TakesUp(End(h, o), g) && Misses(h, next, o, g)
    ensures !Working(End(h, o).engine, g)
  {
    SameEnd(h, next, o);
    hide ValidHistory, Modest, TakesUp, Working, Refused, Extends, Missed, End;
    var m :| |h.labels| <= m < |next.labels| < |next.states| && Refused(next.states[m], next.labels[m], g);
    if Working(End(h, o).engine, g) {
      NothingRefused(next, o, |h.labels|, g, m);
    }
  }

  lemma ReachableIsSound(h: History, o: Options)
    requires ValidHistory(h, o)
    ensures Inv(End(h, o).engine)
  {
    DriverSteps.DriverRun(h, o, |h.states| - 1);
    DriverTheorems.EngineIsSound(End(h, o));
    hide ValidHistory, DriverInv, Inv;
  }

  lemma MissedOnlyIfUnannounced(h: History, next: History, o: Options, g: nat)
    requires ValidHistory(h, o) && ValidHistory(next, o) && Modest(o) && TakesUp(End(h, o), g) && Misses(h, next, o, g)
    ensures Unannounced(End(h, o).engine, g)
  {
    hide ValidHistory, Inv, Modest, Working, Over, Missed, Refused, End, Extends;
    NotOverYet(h, next, o, g);
    NotWorkingYet(h, next, o, g);
    TakesUpCases(End(h, o), g);
    ReachableIsSound(h, o);
    BumpedIsUnannounced(End(h, o).engine);
  }

  /** Exactly when an attempt can be refused on a connection that then goes on working: if and only if the timer reads
      the new generation before the worker, which is not being stopped, has set `connected_`. */
  lemma MissedExactlyIfUnannounced(h: History, o: Options, g: nat)
    requires ValidHistory(h, o) && Modest(o) && TakesUp(End(h, o), g)
    ensures Unannounced(End(h, o).engine, g) <==> exists next :: ValidHistory(next, o) && Misses(h, next, o, g)
  {
    TakesUpCases(End(h, o), g);
    hide ValidHistory, Modest, TakesUp, Misses, Unannounced, End, Reads;
    if Unannounced(End(h, o).engine, g) {
      var next := UnannouncedMayBeMissed(h, o, g);
    }
    forall next | ValidHistory(next, o) && Misses(h, next, o, g)
      ensures Unannounced(End(h, o).engine, g)
    {
      MissedOnlyIfUnannounced(h, next, o, g);
    }
  }

  // ----- from the initial state -----

  /** Nothing has happened in the driver yet. */
  predicate Untouched(s: System) {
    s.callback == Idle && !s.shuttingDown && !s.init.running && s.init.initialized == 0
  }

  lemma EngineGoes(s: System, l: Step)
    requires Untouched(s) && Enabled(s.engine, l) && !l.Submit?
    ensures Can(s, EngineMoves(l))
    ensures var n := Advance(s, EngineMoves(l)); Untouched(n) && n.engine == Apply(s.engine, l)
  {
    hide Enabled, Apply;
  }

  lemma GoOnEngine(h: History, o: Options, l: Step) returns (next: History)
    requires ValidHistory(h, o) && Untouched(End(h, o)) && Enabled(End(h, o).engine, l) && !l.Submit?
    ensures ValidHistory(next, o) && Untouched(End(next, o)) && End(next, o).engine == Apply(End(h, o).engine, l)
  {
    EngineGoes(End(h, o), l);
    hide ValidHistory, Can, Advance, Enabled, Apply, End, Untouched;
    next := GoOn(h, o, EngineMoves(l));
  }

  lemma FirstPublished(e: State)
    requires e == Initially(e.maxPayload)
    ensures Enabled(e, Start) && Enabled(Apply(e, Start), Dial) && Enabled(Apply(Apply(e, Start), Dial), Connect)
    ensures Unannounced(Apply(Apply(Apply(e, Start), Dial), Connect), 1)
  {
  }

  lemma AtFirst(o: Options) returns (h: History)
    ensures ValidHistory(h, o) && Untouched(End(h, o)) && End(h, o).engine == Initially(o.maxPayload)
  {
    h := History([Initial(o)], []);
  }

  lemma Published(o: Options) returns (h: History)
    ensures ValidHistory(h, o) && Untouched(End(h, o)) && Unannounced(End(h, o).engine, 1)
  {
    h := AtFirst(o);
    FirstPublished(Initially(o.maxPayload));
    hide ValidHistory, End, Enabled, Apply, Can, Advance, Unannounced, Untouched;
    h := GoOnEngine(h, o, Start);
    h := GoOnEngine(h, o, Dial);
    h := GoOnEngine(h, o, Connect);
  }

  lemma TimerReads(s: System)
    requires Untouched(s) && Unannounced(s.engine, 1)
    ensures Can(s, TimerFires) && Can(Advance(s, TimerFires), TimerGoes)
    ensures Reads(Advance(Advance(s, TimerFires), TimerGoes), 1)
  {
    hide Unannounced;
  }

  lemma FirstConnection(o: Options) returns (h: History)
    ensures ValidHistory(h, o) && Reads(End(h, o), 1)
  {
    h := Published(o);
    hide ValidHistory, Can, Advance, End, Reads, Unannounced, Untouched;
    TimerReads(End(h, o));
    h := GoOn(h, o, TimerFires);
    h := GoOn(h, o, TimerGoes);
  }

  lemma MissedIs(h: History, next: History, o: Options, g: nat)
    requires Misses(h, next, o, g)
    ensures Working(End(next, o).engine, g) && Missed(End(next, o).init, g)
  {
    hide Working, Missed, End, Refused, Extends;
  }

  /** The race on the first connection: its attempt is refused and stored as failed; then the connection is announced,
      and by `NeverReadyAgain` the node is not ready while it lasts. */
  lemma AttemptMayMissConnection(o: Options) returns (h: History)
    ensures ValidHistory(h, o)
    ensures var s := End(h, o);
            s.engine.connected && s.engine.device.connected && Generation(s.engine) == 1 && Missed(s.init, 1)
  {
    var published := FirstConnection(o);
    hide ValidHistory, Reads, Misses, End, Missed;
    h := UnannouncedMayBeMissed(published, o, 1);
    MissedIs(published, h, o, 1);
  }
}
