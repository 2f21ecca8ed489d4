/** Each connection generation gets one attempt at initialisation: a failed one is never repeated. An attempt for a
    connection that takes commands when the timer captures it fails, while the connection works, only by the device. */
module DriverAttempts {
  import opened Frames
  import opened Device
  import opened Engine
  import opened EngineInvariant
  import opened EngineConnection
  import opened Driver
  import opened DriverInvariant
  import DriverSteps
  import DriverTheorems
  import DriverCallbacks

  /** Every attempt is for a generation later than the last one stored. */
  predicate AttemptsOk(i: Init, c: Callback, generation: nat) {
    && i.initialized <= generation
    && match i.thread {
         case Asking(g) => i.initialized < g <= generation
         case Awaiting(g, _) => i.initialized < g <= generation
         case Storing(g, _) => i.initialized < g <= generation
         case Reporting(g, _) => i.initialized == g
         case _ => true
       }
    && match c {
         case TimerComparing(g) => i.initialized <= g <= generation
         case TimerJoining(g) => i.initialized < g <= generation
         case TimerRaising(g) => i.initialized < g <= generation
         case TimerLowering(g) => i.initialized < g <= generation
         case TimerStarting(g) => i.initialized < g <= generation
         case _ => true
       }
  }

  /** The timer has captured a generation. */
  predicate Timing(c: Callback) {
    c.TimerComparing? || c.TimerJoining? || c.TimerRaising? || c.TimerLowering? || c.TimerStarting?
  }

  predicate Attempts(s: System) { AttemptsOk(s.init, s.callback, Generation(s.engine)) }

  /** The attempt for generation `g` has been stored and did not succeed, or is out of date. */
  predicate Missed(i: Init, g: nat) {
    i.initialized > g || (i.initialized == g && !i.successful && i.thread != Reporting(g, true))
  }

  lemma TimerAttempts(s: System, g: nat)
    requires CanTimer(s) && Attempts(s) && TimerOk(s.callback, s.init, Generation(s.engine))
    ensures AttemptsOk(TimerInit(s), TimerCallback(s), Generation(s.engine))
    ensures Missed(s.init, g) ==> Missed(TimerInit(s), g)
  {
  }

  lemma ThreadAttempts(s: System, g: nat)
    requires CanInit(s) && Attempts(s)
    requires ThreadOk(s.init, s.options, s.engine.submitted, Generation(s.engine))
    requires TimerOk(s.callback, s.init, Generation(s.engine))
    ensures AttemptsOk(NextInit(s), s.callback, Generation(s.engine))
    ensures Missed(s.init, g) ==> Missed(NextInit(s), g)
  {
    hide Plan, Carries, Complete, CreatedSince, Engine.Success;
  }

  /** Steps of others leave the initialisation alone, and the timer where it is or at rest. */
  lemma OtherLeavesInit(s: System, l: Label)
    requires Can(s, l) && !l.TimerGoes? && !l.InitGoes? && !l.InitSends?
    ensures var n := Advance(s, l); n.init == s.init && (n.callback == s.callback || !Timing(n.callback))
  {
    hide Enabled, Apply, CanAct, CanInit, NextJob, EngineAfter, TimerInit, TimerCallback, NextInit, IsService,
        Driver.Fresh, Plan, Submitted;
  }

  lemma AttemptsElsewhere(s: System, n: System)
    requires Attempts(s) && Generation(s.engine) <= Generation(n.engine)
    requires n.init == s.init && (n.callback == s.callback || !Timing(n.callback))
    ensures Attempts(n)
  {
  }

  lemma OtherAttempts(s: System, l: Label)
    requires Can(s, l) && Attempts(s) && !l.TimerGoes? && !l.InitGoes? && !l.InitSends?
    ensures Attempts(Advance(s, l)) && Advance(s, l).init == s.init
  {
    hide Can, Advance, Attempts;
    DriverTheorems.EngineGenerations(s, l);
    OtherLeavesInit(s, l);
    AttemptsElsewhere(s, Advance(s, l));
  }

  lemma AskAttempts(s: System, r: Request, g: nat)
    requires s.init.thread.Asking? && Attempts(s)
    ensures var i := s.init.(thread := Awaiting(s.init.thread.generation, r));
            AttemptsOk(i, s.callback, Generation(s.engine)) && (Missed(s.init, g) ==> Missed(i, g))
  {
  }

  lemma AttemptStep(s: System, l: Label, g: nat)
    requires DriverInv(s) && Can(s, l) && Attempts(s)
    ensures Attempts(Advance(s, l)) && (Missed(s.init, g) ==> Missed(Advance(s, l).init, g))
  {
    hide Inv, JobsOk, LockOk, ClientsOk, Performed, CanTimer, CanInit, TimerInit, TimerCallback, NextInit, Missed;
    if l.TimerGoes? {
      TimerAttempts(s, g);
    } else if l.InitGoes? {
      ThreadAttempts(s, g);
    } else if l.InitSends? {
      AskAttempts(s, l.request, g);
    } else {
      hide Can, Advance, AttemptsOk;
      OtherAttempts(s, l);
    }
  }

  lemma {:induction false} AttemptsRun(h: History, o: Options, k: nat)
    requires ValidHistory(h, o) && k < |h.states|
    ensures Attempts(h.states[k])
    decreases k
  {
    hide Can, Advance, DriverInv;
    if k > 0 {
      AttemptsRun(h, o, k - 1);
      DriverSteps.DriverRun(h, o, k - 1);
      AttemptStep(h.states[k - 1], h.labels[k - 1], 0);
    }
  }

  lemma {:induction false} MissedStays(h: History, o: Options, i: nat, k: nat, g: nat)
    requires ValidHistory(h, o) && i <= k < |h.states| && Missed(h.states[i].init, g)
    ensures Missed(h.states[k].init, g)
    decreases k
  {
    hide Can, Advance, DriverInv, Missed, Attempts;
    if i < k {
      MissedStays(h, o, i, k - 1, g);
      AttemptsRun(h, o, k - 1);
      DriverSteps.DriverRun(h, o, k - 1);
      AttemptStep(h.states[k - 1], h.labels[k - 1], g);
    }
  }

  lemma MissedIsNotReady(s: System, g: nat)
    requires DriverInv(s) && Missed(s.init, g)
    ensures s.callback != Ready(g)
  {
    hide Inv, Performed, ThreadOk, JobsOk, LockOk, ClientsOk;
  }

  /** Once a failed attempt for generation `g` has been stored, no readiness check for a snapshot of `g` ever returns
      true again: the node stays unready for the rest of that connection. */
  lemma NeverReadyAgain(h: History, o: Options, i: nat, k: nat, g: nat)
    requires ValidHistory(h, o) && i <= k < |h.states| && Missed(h.states[i].init, g)
    ensures h.states[k].callback != Ready(g)
  {
    MissedStays(h, o, i, k, g);
    DriverSteps.DriverRun(h, o, k);
    hide ValidHistory, DriverInv, Missed;
    MissedIsNotReady(h.states[k], g);
  }

  // ----- an attempt on a connection that takes commands -----

  /** What the plan sends fits a frame. */
  predicate Modest(o: Options) {
    |o.defaultAcceleration| <= MAX_SIZE && |o.defaultForce| <= MAX_SIZE
  }

  lemma PlanIsModest(o: Options, k: nat)
    requires Modest(o) && k < |Plan(o)|
    ensures |Plan(o)[k].payload| <= MAX_SIZE
  {
  }

  lemma ConnectionMoves(s: System, l: Label, g: nat)
    requires DriverInv(s) && Can(s, l)
    ensures Working(s.engine, g) ==> Working(Advance(s, l).engine, g) || Over(Advance(s, l).engine, g)
    ensures Over(s.engine, g) ==> Over(Advance(s, l).engine, g)
  {
    DriverTheorems.EngineIsSound(s);
    DriverTheorems.EngineIsEmbedded(s, l);
    hide DriverInv, Inv, Can, Advance, Enabled, Apply, Working, Over, DriverTheorems.EngineStep;
    if DriverTheorems.EngineStep(l).Some? {
      ConnectionStep(s.engine, DriverTheorems.EngineStep(l).value, g);
    }
  }

  lemma {:induction false} WorksOrIsOver(h: History, o: Options, i: nat, k: nat, g: nat)
    requires ValidHistory(h, o) && i <= k < |h.states|
    ensures Working(h.states[i].engine, g) ==> Working(h.states[k].engine, g) || Over(h.states[k].engine, g)
    ensures Over(h.states[i].engine, g) ==> Over(h.states[k].engine, g)
    decreases k
  {
    hide Can, Advance, DriverInv, Working, Over;
    if i < k {
      WorksOrIsOver(h, o, i, k - 1, g);
      DriverSteps.DriverRun(h, o, k - 1);
      ConnectionMoves(h.states[k - 1], h.labels[k - 1], g);
    }
  }

  lemma NotBoth(e: State, g: nat)
    ensures !(Working(e, g) && Over(e, g))
  {
  }

  /** A connection that works at both ends of a stretch works all through it. */
  lemma WorksThroughout(h: History, o: Options, i: nat, m: nat, k: nat, g: nat)
    requires ValidHistory(h, o) && i <= m <= k < |h.states|
    requires Working(h.states[i].engine, g) && Working(h.states[k].engine, g)
    ensures Working(h.states[m].engine, g)
  {
    WorksOrIsOver(h, o, i, m, g);
    WorksOrIsOver(h, o, m, k, g);
    NotBoth(h.states[k].engine, g);
    hide ValidHistory, Working, Over;
  }

  /** The command the attempt waits for is heard. */
  predicate AttemptHeard(t: Thread, e: State, g: nat) {
    t.Awaiting? ==> Heard(e, t.request, g)
  }

  lemma AskIsHeard(s: System, r: Request, g: nat)
    requires DriverInv(s) && Can(s, InitSends(r)) && Modest(s.options)
    ensures Heard(Advance(s, InitSends(r)).engine, r, g)
    ensures Advance(s, InitSends(r)).init.thread == Awaiting(s.init.thread.generation, r)
  {
    DriverTheorems.EngineIsSound(s);
    PlanIsModest(s.options, |s.init.performed|);
    HeardAtFirst(s.engine, r, g);
    hide DriverInv, Inv, Heard, Plan;
  }

  lemma NextIsNoWait(s: System)
    ensures CanInit(s) ==> !NextInit(s).thread.Awaiting?
    ensures CanTimer(s) ==> TimerInit(s).thread == s.init.thread || !TimerInit(s).thread.Awaiting?
  {
    hide Plan, Engine.Success;
  }

  lemma ThreadMoves(s: System, l: Label)
    requires Can(s, l) && !l.InitSends?
    ensures var t := Advance(s, l).init.thread; t == s.init.thread || !t.Awaiting?
  {
    NextIsNoWait(s);
    hide Enabled, Apply, CanAct, CanTimer, CanInit, CanHome, NextJob, TimerInit, TimerCallback, NextInit, IsService,
        Driver.Fresh, Plan;
  }

  lemma HeardMoves(s: System, l: Label, r: Request, g: nat)
    requires DriverInv(s) && Can(s, l) && Working(s.engine, g) && Heard(s.engine, r, g)
    ensures Heard(Advance(s, l).engine, r, g)
  {
    DriverTheorems.EngineIsSound(s);
    DriverTheorems.EngineIsEmbedded(s, l);
    hide DriverInv, Inv, Can, Advance, Enabled, Apply, Heard, Working, DriverTheorems.EngineStep;
    if DriverTheorems.EngineStep(l).Some? {
      HeardStep(s.engine, DriverTheorems.EngineStep(l).value, r, g);
    }
  }

  lemma AttemptHeardStep(s: System, l: Label, g: nat)
    requires DriverInv(s) && Can(s, l) && Working(s.engine, g) && Modest(s.options)
    requires AttemptHeard(s.init.thread, s.engine, g)
    ensures AttemptHeard(Advance(s, l).init.thread, Advance(s, l).engine, g)
  {
    hide DriverInv, Can, Advance, Heard, Working, Modest;
    if l.InitSends? {
      AskIsHeard(s, l.request, g);
    } else {
      ThreadMoves(s, l);
      if s.init.thread.Awaiting? {
        HeardMoves(s, l, s.init.thread.request, g);
      }
    }
  }

  lemma NoneAwaited(s: System, g: nat)
    requires !Active(s.init.thread)
    ensures AttemptHeard(s.init.thread, s.engine, g)
  {
  }

  lemma {:induction false} HeardOverHistory(h: History, o: Options, i: nat, k: nat, g: nat)
    requires ValidHistory(h, o) && i <= k < |h.states| && Modest(o) && !Active(h.states[i].init.thread)
    requires Working(h.states[i].engine, g) && Working(h.states[k].engine, g)
    ensures AttemptHeard(h.states[k].init.thread, h.states[k].engine, g)
    decreases k
  {
    hide Can, Advance, DriverInv, Working, Modest, AttemptHeard;
    if i < k {
      WorksThroughout(h, o, i, k - 1, k, g);
      HeardOverHistory(h, o, i, k - 1, g);
      DriverSteps.DriverRun(h, o, k - 1);
      DriverTheorems.OptionsStay(h, o, k - 1);
      AttemptHeardStep(h.states[k - 1], h.labels[k - 1], g);
    } else {
      NoneAwaited(h.states[k], g);
    }
  }

  /** The thread is at work on the attempt for generation `g`. */
  predicate Attempting(t: Thread, g: nat) {
    (t.Asking? || t.Awaiting? || t.Storing?) && t.generation == g
  }

  /** The commands the present attempt has made. */
  function Asked(i: Init): seq<Request> {
    i.performed + (if i.thread.Awaiting? then [i.thread.request] else [])
  }

  lemma ReadingIsIdle(s: System)
    requires DriverInv(s) && s.callback == TimerReading
    ensures !Active(s.init.thread)
  {
    hide Inv, JobsOk, LockOk, ClientsOk, Performed;
  }

  lemma PerformedIsHeard(s: System, r: Request, g: nat)
    requires DriverInv(s) && Attempting(s.init.thread, g) && Generation(s.engine) == g && r in s.init.performed
    ensures r in s.engine.resolved && Success(s.engine.resolved[r])
    ensures r in s.engine.acceptedOn && s.engine.acceptedOn[r] == g
  {
    hide JobsOk, LockOk, ClientsOk, Carries, Plan;
    DriverTheorems.AnsweredSince(s.engine);
    hide Inv;
  }

  lemma HeardMeans(e: State, r: Request, g: nat)
    requires Heard(e, r, g)
    ensures !WithClient(e.calls, r) ==> r in e.acceptedOn && e.acceptedOn[r] == g
    ensures r in e.resolved ==> e.resolved[r].transportOk
  {
  }

  /** An attempt for a connection that took commands when the timer read its generation, and still does: every command
      of it whose call has returned was accepted on that connection, and none is resolved but by the device. */
  lemma AttemptIsHeard(h: History, o: Options, i: nat, k: nat, g: nat)
    requires ValidHistory(h, o) && i <= k < |h.states| && Modest(o)
    requires h.states[i].callback == TimerReading && Working(h.states[i].engine, g)
    requires Working(h.states[k].engine, g) && Attempting(h.states[k].init.thread, g)
    ensures var s := h.states[k];
            forall r :: r in Asked(s.init) ==>
              && (!WithClient(s.engine.calls, r) ==> r in s.engine.acceptedOn && s.engine.acceptedOn[r] == g)
              && (r in s.engine.resolved ==> s.engine.resolved[r].transportOk)
  {
    DriverSteps.DriverRun(h, o, i);
    ReadingIsIdle(h.states[i]);
    DriverSteps.DriverRun(h, o, k);
    HeardOverHistory(h, o, i, k, g);
    var s := h.states[k];
    hide ValidHistory, DriverInv, Heard, WithClient;
    forall r | r in Asked(s.init)
      ensures !WithClient(s.engine.calls, r) ==> r in s.engine.acceptedOn && s.engine.acceptedOn[r] == g
      ensures r in s.engine.resolved ==> s.engine.resolved[r].transportOk
    {
      if r in s.init.performed {
        PerformedIsHeard(s, r, g);
      } else {
        HeardMeans(s.engine, r, g);
      }
    }
  }

  // ----- where a stored failure comes from -----

  /** The attempt for generation `g` takes the reply that ends it. */
  predicate TakesFailure(s: System, l: Label, g: nat) {
    && l.InitGoes? && s.init.thread.Awaiting? && s.init.thread.generation == g
    && s.init.thread.request in s.engine.resolved && !Success(s.engine.resolved[s.init.thread.request])
  }

  /** The attempt for generation `g` has failed. */
  predicate Failed(i: Init, g: nat) {
    i.thread == Storing(g, false) || Missed(i, g)
  }

  lemma TimerFails(s: System, g: nat)
    requires CanTimer(s) && Attempts(s) && Generation(s.engine) <= g && !Failed(s.init, g)
    ensures !Failed(TimerInit(s), g)
  {
  }

  lemma ThreadFails(s: System, g: nat)
    requires CanInit(s) && Attempts(s) && Generation(s.engine) <= g && !Failed(s.init, g) && Failed(NextInit(s), g)
    requires ThreadOk(s.init, s.options, s.engine.submitted, Generation(s.engine))
    ensures TakesFailure(s, InitGoes, g)
  {
    hide Plan, Carries, Complete, CreatedSince, Engine.Success;
  }

  lemma SendingIsNoFailure(s: System, r: Request, g: nat)
    requires s.init.thread.Asking? && !Failed(s.init, g)
    ensures !Failed(s.init.(thread := Awaiting(s.init.thread.generation, r)), g)
  {
  }

  lemma FailureArises(s: System, l: Label, g: nat)
    requires DriverInv(s) && Can(s, l) && Attempts(s) && Generation(s.engine) <= g
    requires !Failed(s.init, g) && Failed(Advance(s, l).init, g)
    ensures TakesFailure(s, l, g)
  {
    hide Inv, JobsOk, LockOk, ClientsOk, Performed, CanTimer, CanInit, TimerInit, TimerCallback, NextInit, Failed,
        TakesFailure;
    if l.TimerGoes? {
      TimerFails(s, g);
    } else if l.InitGoes? {
      ThreadFails(s, g);
    } else if l.InitSends? {
      SendingIsNoFailure(s, l.request, g);
    } else {
      hide Can, Advance, AttemptsOk;
      OtherAttempts(s, l);
    }
  }

  /** Whatever failed after `i` took its failing reply on the way. */
  lemma {:induction false} FailureFound(h: History, o: Options, i: nat, k: nat, g: nat) returns (m: nat)
    requires ValidHistory(h, o) && i <= k < |h.states| && Generation(h.states[k].engine) <= g
    requires !Failed(h.states[i].init, g) && Failed(h.states[k].init, g)
    ensures i <= m < k && TakesFailure(h.states[m], h.labels[m], g)
    decreases k
  {
    hide Can, Advance, DriverInv, Failed, TakesFailure, Attempts;
    DriverTheorems.UnbrokenUpTo(h, o, k - 1, k);
    if Failed(h.states[k - 1].init, g) {
      m := FailureFound(h, o, i, k - 1, g);
    } else {
      m := k - 1;
      AttemptsRun(h, o, m);
      DriverSteps.DriverRun(h, o, m);
      FailureArises(h.states[m], h.labels[m], g);
    }
  }

  lemma NotYetFailed(s: System, g: nat)
    requires Attempts(s) && !Active(s.init.thread) && Generation(s.engine) == g && s.init.initialized != g
    ensures !Failed(s.init, g)
  {
  }

  /** The attempt for generation `g` ends with a reply of the device to a command accepted on `g`. */
  predicate Declined(s: System, l: Label, g: nat) {
    && TakesFailure(s, l, g)
    && var r := s.init.thread.request;
       && s.engine.resolved[r].transportOk && s.engine.resolved[r].status != STATUS_SUCCESS
       && r in s.engine.acceptedOn && s.engine.acceptedOn[r] == g
  }

  lemma HeardIsDeclined(s: System, l: Label, g: nat)
    requires DriverInv(s) && TakesFailure(s, l, g) && AttemptHeard(s.init.thread, s.engine, g)
    ensures Declined(s, l, g)
  {
    DriverTheorems.EngineIsSound(s);
    HeardMeans(s.engine, s.init.thread.request, g);
    DriverSteps.NotWithClient(s.engine, s.init.thread.request);
    hide DriverInv, Inv, Heard, WithClient;
  }

  /** If the timer takes up a generation whose connection takes commands, and the connection still does when a failed
      attempt for it is stored, then the failure is the device's own answer to a command it was sent. */
  lemma StoredFailureIsDevices(h: History, o: Options, i: nat, k: nat, g: nat) returns (m: nat)
    requires ValidHistory(h, o) && i <= k < |h.states| && Modest(o)
    requires h.states[i].callback == TimerReading && h.states[i].init.initialized != g
    requires Working(h.states[i].engine, g) && Working(h.states[k].engine, g) && Missed(h.states[k].init, g)
    ensures i <= m < k && Declined(h.states[m], h.labels[m], g)
  {
    DriverSteps.DriverRun(h, o, i);
    ReadingIsIdle(h.states[i]);
    AttemptsRun(h, o, i);
    NotYetFailed(h.states[i], g);
    m := FailureFound(h, o, i, k, g);
    WorksThroughout(h, o, i, m, k, g);
    HeardOverHistory(h, o, i, m, g);
    DriverSteps.DriverRun(h, o, m);
    hide ValidHistory, DriverInv, AttemptHeard, TakesFailure, Declined, Missed;
    HeardIsDeclined(h.states[m], h.labels[m], g);
  }

  // ----- how an attempt ends -----

  /** An attempt is a success exactly if all its planned commands have succeeded, in every place where it can be; a new
      attempt withdraws the success of the one before. An attempt is marked as running exactly while it is, or is being
      started. */
  predicate EndsRight(i: Init, c: Callback, o: Options) {
    && (i.running <==> Active(i.thread) || c.TimerLowering? || c.TimerStarting?)
    && match i.thread {
         case Absent => true
         case Asking(_) => |i.performed| < |Plan(o)|
         case Awaiting(_, _) => |i.performed| < |Plan(o)|
         case Storing(_, success) => success <==> |i.performed| == |Plan(o)|
         case Reporting(_, success) => success <==> |i.performed| == |Plan(o)|
         case Lowering => i.successful <==> |i.performed| == |Plan(o)|
         case Finished => c.TimerStarting? || (i.successful <==> |i.performed| == |Plan(o)|)
       }
  }

  lemma TimerEndsRight(s: System)
    requires CanTimer(s) && EndsRight(s.init, s.callback, s.options)
    requires TimerOk(s.callback, s.init, Generation(s.engine))
    ensures EndsRight(TimerInit(s), TimerCallback(s), s.options)
  {
  }

  lemma ThreadEndsRight(s: System)
    requires CanInit(s) && EndsRight(s.init, s.callback, s.options)
    requires TimerOk(s.callback, s.init, Generation(s.engine))
    requires ThreadOk(s.init, s.options, s.engine.submitted, Generation(s.engine))
    ensures EndsRight(NextInit(s), s.callback, s.options)
  {
    hide Plan, Carries, Complete, CreatedSince, Engine.Success;
  }

  lemma ElsewhereEndsRight(s: System, l: Label)
    requires Can(s, l) && !l.TimerGoes? && !l.InitGoes? && !l.InitSends? && EndsRight(s.init, s.callback, s.options)
    ensures var n := Advance(s, l); EndsRight(n.init, n.callback, s.options)
  {
    hide Can, Advance, Plan;
    OtherLeavesInit(s, l);
    if s.callback.TimerLowering? || s.callback.TimerStarting? {
      DriverCallbacks.CallbackWaits(s, l);
    }
  }

  lemma EndsRightStep(s: System, l: Label)
    requires DriverInv(s) && Can(s, l) && EndsRight(s.init, s.callback, s.options)
    ensures var n := Advance(s, l); EndsRight(n.init, n.callback, s.options)
  {
    hide Inv, JobsOk, LockOk, ClientsOk, Performed, TimerInit, TimerCallback, NextInit, CanTimer, CanInit, Plan,
        TimerOk, ThreadOk;
    if l.TimerGoes? {
      TimerEndsRight(s);
      hide EndsRight;
    } else if l.InitGoes? {
      ThreadEndsRight(s);
      hide EndsRight;
    } else if !l.InitSends? {
      hide Can, Advance, EndsRight;
      ElsewhereEndsRight(s, l);
    }
  }

  lemma NothingYet(h: History, o: Options)
    requires ValidHistory(h, o)
    ensures EndsRight(h.states[0].init, h.states[0].callback, o)
  {
    hide Can, Advance;
  }

  lemma {:induction false} AllEndRight(h: History, o: Options, k: nat)
    requires ValidHistory(h, o) && k < |h.states|
    ensures EndsRight(h.states[k].init, h.states[k].callback, o)
    decreases k
  {
    hide Can, Advance, DriverInv, EndsRight;
    if k == 0 {
      NothingYet(h, o);
    } else {
      AllEndRight(h, o, k - 1);
      DriverTheorems.OptionsStay(h, o, k - 1);
      DriverSteps.DriverRun(h, o, k - 1);
      EndsRightStep(h.states[k - 1], h.labels[k - 1]);
    }
  }

  /** An attempt that has ended, and has not been replaced, is marked as successful if and only if every planned
      command has succeeded: acceleration, force, and the configured acknowledge and home. */
  lemma AttemptEndsExactly(h: History, o: Options, k: nat)
    requires ValidHistory(h, o) && k < |h.states|
    requires h.states[k].init.thread == Finished && !h.states[k].callback.TimerStarting?
    ensures var i := h.states[k].init;
            && |i.performed| <= |Plan(o)|
            && (i.successful <==> |i.performed| == 2 + Count(o.autoAcknowledge) + Count(o.autoHome))
            && forall c :: 0 <= c < |i.performed| ==>
                 var r := i.performed[c];
                 Carries(r, Plan(o)[c]) && r in h.states[k].engine.resolved && Success(h.states[k].engine.resolved[r])
  {
    AllEndRight(h, o, k);
    DriverTheorems.OptionsStay(h, o, k);
    DriverSteps.DriverRun(h, o, k);
    hide ValidHistory, Inv, JobsOk, LockOk, ClientsOk, ThreadOk, TimerOk, Carries;
    hide Engine.Success;
  }

  /** `initialization_running_` is set exactly while an attempt runs, or is being started; so the timer is free to take
      up a new connection as soon as the last attempt is over. */
  lemma RunningExactly(h: History, o: Options, k: nat)
    requires ValidHistory(h, o) && k < |h.states|
    ensures var (i, c) := (h.states[k].init, h.states[k].callback);
            i.running <==> (i.thread != Absent && i.thread != Finished) || c.TimerLowering? || c.TimerStarting?
  {
    AllEndRight(h, o, k);
    hide ValidHistory, Plan;
  }
}
