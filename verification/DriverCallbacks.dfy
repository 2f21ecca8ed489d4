/** The callback slot: what each callback of the executor reads on its way, and what comes of it. */
module DriverCallbacks {
  import opened Device
  import opened Engine
  import opened EngineInvariant
  import opened Driver
  import opened DriverInvariant
  import DriverSteps
  import DriverTheorems
  import DriverStops
  import DriverThread

  // ----- one callback at a time -----

  /** The label is a step of the callback in the slot. */
  predicate Moves(c: Callback, l: Label) {
    match c
    case Idle => false
    case ReadyFlag(_) => l == GoalGoes
    case ReadyGeneration(_) => l == GoalGoes
    case Ready(_) => l.GoalRejected? || l.GoalAccepted?
    case Serving(_) => l == ServiceReturns
    case HomeWaiting => l == HomeGoes
    case HomeChecking => l == HomeGoes
    case HomeSending => l.HomeSends?
    case HomeAwaiting(_) => l == HomeGoes
    case _ => l == TimerGoes
  }

  lemma CallbackWaits(s: System, l: Label)
    requires Can(s, l) && s.callback != Idle
    ensures if Moves(s.callback, l) then Advance(s, l).callback != s.callback
            else Advance(s, l).callback == s.callback
  {
    hide Enabled, Apply, CanAct, NextJob, EngineAfter, CanInit, TimerInit, NextInit, IsService, Driver.Fresh, Plan,
        Submitted, NewJob;
  }

  lemma StepAt(h: History, o: Options, m: nat)
    requires ValidHistory(h, o) && m + 1 < |h.states|
    ensures m < |h.labels| && Can(h.states[m], h.labels[m])
    ensures h.states[m + 1] == Advance(h.states[m], h.labels[m])
  {
    hide Can, Advance;
  }

  /** The callback in the slot stays there until its next step. */
  lemma {:induction false} NextMove(h: History, o: Options, i: nat, k: nat) returns (m: nat)
    requires ValidHistory(h, o) && i < k < |h.states|
    requires h.states[i].callback != Idle && h.states[k].callback != h.states[i].callback
    ensures i <= m < k && Moves(h.states[i].callback, h.labels[m])
    ensures forall x :: i <= x <= m ==> h.states[x].callback == h.states[i].callback
    decreases k - i
  {
    hide Can, Advance, Moves;
    CallbackWaits(h.states[i], h.labels[i]);
    if Moves(h.states[i].callback, h.labels[i]) {
      m := i;
    } else {
      m := NextMove(h, o, i + 1, k);
    }
  }

  /** The callback in the slot came there in some step. */
  lemma {:induction false} Began(h: History, o: Options, k: nat) returns (m: nat)
    requires ValidHistory(h, o) && k < |h.states| && h.states[k].callback != Idle
    ensures m < k && h.states[m].callback != h.states[k].callback
    ensures forall x :: m < x <= k ==> h.states[x].callback == h.states[k].callback
    decreases k
  {
    hide Can, Advance;
    if k > 0 {
      if h.states[k - 1].callback == h.states[k].callback {
        m := Began(h, o, k - 1);
      } else {
        m := k - 1;
      }
    }
  }

  /** The callback that came at `i` is over at `k`, and not before. */
  predicate Spans(h: History, i: nat, k: nat) {
    && i < k < |h.states| && |h.states| == |h.labels| + 1
    && h.states[k].callback == Idle && forall x :: i < x < k ==> h.states[x].callback != Idle
  }

  // ----- the readiness check -----

  lemma ArrivalStep(s: System)
    requires Can(s, GoalArrives)
    ensures var d := s.engine.device;
            Advance(s, GoalArrives) ==
              s.(callback := if d.connected && d.referenced then ReadyFlag(d.connectionGeneration) else Idle)
  {
  }

  lemma CheckStep(s: System)
    requires Can(s, GoalGoes)
    ensures s.callback.ReadyFlag? ==>
              Advance(s, GoalGoes) ==
                s.(callback := if s.init.successful then ReadyGeneration(s.callback.generation) else Idle)
    ensures s.callback.ReadyGeneration? ==>
              var g := s.callback.generation;
              Advance(s, GoalGoes) == s.(callback := if s.init.initialized == g then Ready(g) else Idle)
  {
  }

  lemma EntersFlag(s: System, l: Label, g: nat)
    requires Can(s, l) && Advance(s, l).callback == ReadyFlag(g) != s.callback
    ensures l == GoalArrives
    ensures var d := s.engine.device; d.connected && d.referenced && d.connectionGeneration == g
  {
    hide Enabled, Apply, CanAct, NextJob, EngineAfter, CanInit, TimerInit, NextInit, IsService, Driver.Fresh, Plan,
        Submitted, NewJob;
  }

  lemma EntersGeneration(s: System, l: Label, g: nat)
    requires Can(s, l) && Advance(s, l).callback == ReadyGeneration(g) != s.callback
    ensures l == GoalGoes && s.callback == ReadyFlag(g) && s.init.successful
  {
    hide Enabled, Apply, CanAct, NextJob, EngineAfter, CanInit, TimerInit, NextInit, IsService, Driver.Fresh, Plan,
        Submitted, NewJob;
  }

  lemma EntersReady(s: System, l: Label, g: nat)
    requires Can(s, l) && Advance(s, l).callback == Ready(g) != s.callback
    ensures l == GoalGoes && s.callback == ReadyGeneration(g) && s.init.initialized == g
  {
    hide Enabled, Apply, CanAct, NextJob, EngineAfter, CanInit, TimerInit, NextInit, IsService, Driver.Fresh, Plan,
        Submitted, NewJob;
  }

  lemma HasReference(s: System)
    requires DriverInv(s) && s.engine.device.referenced
    ensures s.engine.device.systemState & 0x1 != 0
  {
    hide Conserved, Linked, Dated, Ordered, Guarded, Tracked, InitOk, JobsOk, LockOk, ClientsOk;
  }

  /** A goal found ready came when the published state was connected, with its reference, and of generation `g`; the
      initialisation was then read to be successful, and then to be for `g`. */
  lemma ReadySaw(h: History, o: Options, k: nat, g: nat) returns (i: nat, a: nat, b: nat)
    requires ValidHistory(h, o) && k < |h.states| && h.states[k].callback == Ready(g)
    ensures i < a < b < k && h.labels[i] == GoalArrives && h.labels[a] == GoalGoes && h.labels[b] == GoalGoes
    ensures forall x :: i < x <= k ==> h.states[x].callback != Idle
    ensures var d := h.states[i].engine.device;
            && d.connected && d.referenced && d.connectionGeneration == g
            && d.systemState & 0x1 != 0
    ensures h.states[a].init.successful && h.states[b].init.initialized == g
  {
    hide ValidHistory, Can, Advance, DriverInv, Coherent;
    b := Began(h, o, k);
    StepAt(h, o, b);
    EntersReady(h.states[b], h.labels[b], g);
    a := Began(h, o, b);
    StepAt(h, o, a);
    EntersGeneration(h.states[a], h.labels[a], g);
    i := Began(h, o, a);
    StepAt(h, o, i);
    EntersFlag(h.states[i], h.labels[i], g);
    DriverSteps.DriverRun(h, o, i);
    HasReference(h.states[i]);
  }

  lemma GenerationRead(h: History, o: Options, i: nat, k: nat, g: nat) returns (b: nat)
    requires ValidHistory(h, o) && i < k < |h.states| && h.states[i].callback == ReadyGeneration(g)
    requires forall x :: i < x < k ==> h.states[x].callback.ReadyFlag? || h.states[x].callback.ReadyGeneration?
    requires !h.states[k].callback.ReadyFlag? && !h.states[k].callback.ReadyGeneration?
    ensures i <= b && k == b + 1 && h.labels[b] == GoalGoes
    ensures h.states[k].callback == if h.states[b].init.initialized == g then Ready(g) else Idle
  {
    hide ValidHistory, Can, Advance;
    b := NextMove(h, o, i, k);
    StepAt(h, o, b);
    CheckStep(h.states[b]);
  }

  lemma FlagsRead(h: History, o: Options, i: nat, k: nat, g: nat) returns (a: nat, b: nat)
    requires ValidHistory(h, o) && i < k < |h.states| && h.states[i].callback == ReadyFlag(g)
    requires forall x :: i < x < k ==> h.states[x].callback.ReadyFlag? || h.states[x].callback.ReadyGeneration?
    requires !h.states[k].callback.ReadyFlag? && !h.states[k].callback.ReadyGeneration?
    ensures i <= a < k && h.labels[a] == GoalGoes
    ensures if !h.states[a].init.successful then k == a + 1 && h.states[k].callback == Idle
            else
              && a < b && k == b + 1 && h.labels[b] == GoalGoes
              && h.states[k].callback == if h.states[b].init.initialized == g then Ready(g) else Idle
  {
    hide ValidHistory, Can, Advance;
    a := NextMove(h, o, i, k);
    b := a;
    StepAt(h, o, a);
    CheckStep(h.states[a]);
    if h.states[a].init.successful {
      b := GenerationRead(h, o, a + 1, k, g);
    }
  }

  /** When the check of a goal that arrives at `i` is over, at `k`: the goal has been found ready if and only if the
      snapshot was connected and had its reference, the initialisation was read to be successful, and the generation
      read after that was the snapshot's. */
  lemma CheckIsExact(h: History, o: Options, i: nat, k: nat) returns (a: nat, b: nat)
    requires ValidHistory(h, o) && i < k < |h.states| && h.labels[i] == GoalArrives
    requires forall x :: i < x < k ==> h.states[x].callback.ReadyFlag? || h.states[x].callback.ReadyGeneration?
    requires !h.states[k].callback.ReadyFlag? && !h.states[k].callback.ReadyGeneration?
    ensures var d := h.states[i].engine.device;
            if !d.connected || !d.referenced then k == i + 1 && h.states[k].callback == Idle
            else
              && i < a < k && h.labels[a] == GoalGoes
              && if !h.states[a].init.successful then k == a + 1 && h.states[k].callback == Idle
                 else
                   && a < b && k == b + 1 && h.labels[b] == GoalGoes
                   && h.states[k].callback ==
                        if h.states[b].init.initialized == d.connectionGeneration then Ready(d.connectionGeneration)
                        else Idle
  {
    var d := h.states[i].engine.device;
    hide ValidHistory, Can, Advance;
    StepAt(h, o, i);
    ArrivalStep(h.states[i]);
    a, b := i, i;
    if d.connected && d.referenced {
      a, b := FlagsRead(h, o, i + 1, k, d.connectionGeneration);
    }
  }

  lemma AcceptStep(s: System, l: Label)
    requires Can(s, l) && l.GoalAccepted?
    ensures s.callback.Ready? && Advance(s, l).motion.generation == s.motion.generation + 1
  {
    hide NewJob;
  }

  /** Every goal was accepted after a check that found the connection ready, as the newest goal; it is still what
      it was then. */
  lemma {:induction false} AcceptedWhenReady(h: History, o: Options, k: nat, n: nat) returns (m: nat)
    requires ValidHistory(h, o) && k < |h.states| && n in h.states[k].motion.jobs
    ensures m < k && h.labels[m].GoalAccepted? && h.states[m].callback.Ready?
    ensures n !in h.states[m].motion.jobs && n == h.states[m].motion.generation + 1 == h.states[m + 1].motion.generation
    ensures h.states[k].motion.jobs[n].goal == h.labels[m].goal
    decreases k
  {
    hide ValidHistory, Can, Advance, DriverStops.Follows;
    if k == 0 {
      DriverStops.NoJobAtFirst(h, o, n);
    } else if n in h.states[k - 1].motion.jobs {
      m := AcceptedWhenReady(h, o, k - 1, n);
      StepAt(h, o, k - 1);
      DriverStops.FollowsIn(h, o, k - 1, n);
      DriverThread.GoalStays(h.states[k - 1], h.labels[k - 1], h.states[k], n);
    } else {
      m := k - 1;
      StepAt(h, o, m);
      DriverStops.BeginsFresh(h.states[m], h.labels[m], n);
      AcceptStep(h.states[m], h.labels[m]);
    }
  }

  // ----- the connection timer -----

  lemma FiresStep(s: System)
    requires Can(s, TimerFires)
    ensures Advance(s, TimerFires) == s.(callback := if s.shuttingDown then Idle else TimerEntered)
  {
  }

  /** What the timer's callback reads before it has a generation to take up. */
  lemma TimerReads(s: System)
    requires Can(s, TimerGoes)
    ensures var c := Advance(s, TimerGoes).callback;
            match s.callback {
              case TimerEntered => c == if s.init.running then Idle else TimerReading
              case TimerReading =>
                c == if s.engine.device.connected then TimerComparing(s.engine.device.connectionGeneration) else Idle
              case TimerComparing(g) => c == if s.init.initialized == g then Idle else TimerJoining(g)
              case _ => true
            }
  {
    hide TimerInit;
  }

  lemma TimerWrites(s: System, g: nat)
    requires Can(s, TimerGoes) && DriverInv(s)
    ensures var n := Advance(s, TimerGoes);
            match s.callback {
              case TimerJoining(g) => n.callback == TimerRaising(g)
              case TimerRaising(g) => n.callback == TimerLowering(g)
              case TimerLowering(g) => n.callback == TimerStarting(g)
              case TimerStarting(g) =>
                && n.callback == Idle && n.init.thread == Asking(g) && n.init.performed == []
                && n.init.running && !n.init.successful && (s.init.thread == Absent || s.init.thread == Finished)
              case _ => true
            }
  {
    hide Inv, JobsOk, LockOk, ClientsOk, Performed, ThreadOk;
  }

  lemma {:induction false} Starts(h: History, o: Options, c: nat, k: nat, g: nat)
    requires ValidHistory(h, o) && c < k && Spans(h, c, k)
    requires h.states[c + 1].callback == TimerJoining(g)
    ensures h.labels[k - 1] == TimerGoes && h.states[k - 1].callback == TimerStarting(g)
    ensures var (was, now) := (h.states[k - 1].init, h.states[k].init);
            && now.thread == Asking(g) && now.performed == [] && now.running && !now.successful
            && (was.thread == Absent || was.thread == Finished)
  {
    hide ValidHistory, Can, Advance, DriverInv;
    var m := NextMove(h, o, c + 1, k);
    DriverSteps.DriverRun(h, o, m);
    StepAt(h, o, m);
    TimerWrites(h.states[m], g);
    m := NextMove(h, o, m + 1, k);
    DriverSteps.DriverRun(h, o, m);
    StepAt(h, o, m);
    TimerWrites(h.states[m], g);
    m := NextMove(h, o, m + 1, k);
    DriverSteps.DriverRun(h, o, m);
    StepAt(h, o, m);
    TimerWrites(h.states[m], g);
    m := NextMove(h, o, m + 1, k);
    DriverSteps.DriverRun(h, o, m);
    StepAt(h, o, m);
    TimerWrites(h.states[m], g);
  }

  lemma LeavesInit(s: System)
    requires Can(s, TimerGoes)
    requires s.callback == TimerEntered || s.callback == TimerReading || s.callback.TimerComparing?
    ensures Advance(s, TimerGoes).init == s.init
  {
    hide TimerCallback;
  }

  /** What becomes of the timer's callback that fires at `i` and is over at `k`: it starts an attempt if and only if
      the node is not shutting down, no attempt is running, the snapshot is connected, and its generation is not the
      one last initialised; the attempt is for that generation, and begins when the one before has ended. */
  lemma TimerIsExact(h: History, o: Options, i: nat, k: nat) returns (a: nat, b: nat, c: nat)
    requires ValidHistory(h, o) && Spans(h, i, k) && h.labels[i] == TimerFires
    ensures if h.states[i].shuttingDown then k == i + 1 && h.states[k].init == h.states[i].init
            else
              && i < a < k && h.labels[a] == TimerGoes && h.states[a].callback == TimerEntered
              && if h.states[a].init.running then k == a + 1 && h.states[k].init == h.states[a].init
                 else
                   && a < b < k && h.labels[b] == TimerGoes && h.states[b].callback == TimerReading
                   && var d := h.states[b].engine.device;
                      if !d.connected then k == b + 1 && h.states[k].init == h.states[b].init
                      else
                        && b < c < k && h.labels[c] == TimerGoes
                        && var (was, now, g) := (h.states[k - 1].init, h.states[k].init, d.connectionGeneration);
                           if h.states[c].init.initialized == g then k == c + 1 && now == was
                           else
                             && h.labels[k - 1] == TimerGoes && now.thread == Asking(g) && now.performed == []
                             && now.running && !now.successful && (was.thread == Absent || was.thread == Finished)
  {
    hide ValidHistory, Can, Advance;
    StepAt(h, o, i);
    FiresStep(h.states[i]);
    a, b, c := i, i, i;
    if !h.states[i].shuttingDown {
      a := NextMove(h, o, i + 1, k);
      StepAt(h, o, a);
      TimerReads(h.states[a]);
      LeavesInit(h.states[a]);
      if !h.states[a].init.running {
        b := NextMove(h, o, a + 1, k);
        StepAt(h, o, b);
        TimerReads(h.states[b]);
        LeavesInit(h.states[b]);
        if h.states[b].engine.device.connected {
          c := NextMove(h, o, b + 1, k);
          StepAt(h, o, c);
          TimerReads(h.states[c]);
          LeavesInit(h.states[c]);
          if h.states[c].init.initialized != h.states[b].engine.device.connectionGeneration {
            Starts(h, o, c, k, h.states[b].engine.device.connectionGeneration);
          }
        }
      }
    }
  }

  // ----- the home service -----

  lemma EntersSending(s: System, l: Label)
    requires Can(s, l) && Advance(s, l).callback == HomeSending != s.callback
    ensures l == HomeGoes && s.callback == HomeChecking && s.engine.connected
  {
    hide Enabled, Apply, CanAct, NextJob, EngineAfter, CanInit, TimerInit, NextInit, IsService, Driver.Fresh, Plan,
        Submitted, NewJob;
  }

  lemma HomeStep(s: System)
    requires Can(s, HomeGoes)
    ensures var n := Advance(s, HomeGoes);
            && n.engine == s.engine
            && match s.callback {
                 case HomeWaiting => s.motion.lock == Unlocked && n.motion.lock == ByHome && n.callback == HomeChecking
                 case HomeChecking =>
                   if s.engine.connected then n.callback == HomeSending && n.motion.lock == s.motion.lock
                   else n.callback == Idle && n.motion.lock == Unlocked
                 case HomeAwaiting(r) =>
                   r in s.engine.resolved && n.callback == Idle && n.motion.lock == Unlocked
                 case _ => true
               }
  {
  }

  /** The home command, as the service sends it. */
  predicate IsHome(r: Request, o: Options) {
    r.id == 0x20 && r.payload == [0] && r.timeout == o.motionTimeout && r.allowPending && !r.priority && !r.internal
  }

  lemma HomeSent(s: System, l: Label)
    requires Can(s, l) && l.HomeSends?
    ensures s.callback == HomeSending && IsHome(l.request, s.options) && l.request !in s.engine.submitted
    ensures var n := Advance(s, l);
            && n.callback == HomeAwaiting(l.request) && l.request in n.engine.submitted && n.motion == s.motion
  {
  }

  lemma HomeServed(h: History, o: Options, i: nat, k: nat) returns (m: nat)
    requires ValidHistory(h, o) && i < k < |h.states| && h.states[i].callback == HomeSending
    requires h.states[k].callback == Idle && forall x :: i < x < k ==> h.states[x].callback != Idle
    ensures i <= m < k - 1 && h.labels[m].HomeSends? && IsHome(h.labels[m].request, o)
    ensures h.labels[m].request !in h.states[m].engine.submitted
    ensures h.states[m + 1].callback == HomeAwaiting(h.labels[m].request)
  {
    hide ValidHistory, Can, Advance, IsHome;
    m := NextMove(h, o, i, k);
    DriverTheorems.OptionsStay(h, o, m);
    StepAt(h, o, m);
    HomeSent(h.states[m], h.labels[m]);
  }

  lemma HomeAnswered(h: History, o: Options, i: nat, k: nat, r: Request)
    requires ValidHistory(h, o) && i < k < |h.states| && h.states[i].callback == HomeAwaiting(r)
    requires h.states[k].callback == Idle && forall x :: i < x < k ==> h.states[x].callback != Idle
    ensures h.labels[k - 1] == HomeGoes && r in h.states[k - 1].engine.resolved
    ensures h.states[k].motion.lock == Unlocked
  {
    hide ValidHistory, Can, Advance;
    var e := NextMove(h, o, i, k);
    StepAt(h, o, e);
    HomeStep(h.states[e]);
  }

  /** What becomes of a home service that has the mutex and reads `connected_` at `i`, when it is over, at `k`: without
      a connection it ends at once and has sent nothing; with one it sends the home command, and ends when that has
      been answered. */
  lemma HomeIsExact(h: History, o: Options, i: nat, k: nat) returns (m: nat)
    requires ValidHistory(h, o) && Spans(h, i, k) && h.labels[i] == HomeGoes && h.states[i].callback == HomeChecking
    ensures if !h.states[i].engine.connected then k == i + 1 && h.states[k].engine == h.states[i].engine
            else
              && i < m < k - 1 && h.labels[m].HomeSends? && IsHome(h.labels[m].request, o)
              && h.labels[m].request !in h.states[m].engine.submitted
              && h.labels[k - 1] == HomeGoes && h.labels[m].request in h.states[k - 1].engine.resolved
    ensures h.states[k].motion.lock == Unlocked
  {
    hide ValidHistory, Can, Advance, IsHome;
    StepAt(h, o, i);
    HomeStep(h.states[i]);
    m := i;
    if h.states[i].engine.connected {
      m := HomeServed(h, o, i + 1, k);
      HomeAnswered(h, o, m + 1, k, h.labels[m].request);
    }
  }

  lemma HomeHolds(s: System)
    requires DriverInv(s) && HomeInside(s.callback)
    ensures s.motion.lock == ByHome
  {
    hide Inv, InitOk, JobsOk, ClientsOk, HomeInside;
  }

  /** A home service sends its command only if it had the mutex and read that `connected_` was set. */
  lemma HomeHasReason(h: History, o: Options, m: nat) returns (i: nat)
    requires ValidHistory(h, o) && m < |h.labels| && h.labels[m].HomeSends?
    ensures i < m && h.labels[i] == HomeGoes && h.states[i].callback == HomeChecking && h.states[i].engine.connected
    ensures h.states[i].motion.lock == ByHome && h.states[m].motion.lock == ByHome
    ensures forall x :: i < x <= m ==> h.states[x].callback == HomeSending
  {
    StepAt(h, o, m);
    HomeSent(h.states[m], h.labels[m]);
    i := Began(h, o, m);
    StepAt(h, o, i);
    DriverSteps.DriverRun(h, o, i);
    DriverSteps.DriverRun(h, o, m);
    hide ValidHistory, Can, Advance, DriverInv;
    EntersSending(h.states[i], h.labels[i]);
    HomeHolds(h.states[i]);
    HomeHolds(h.states[m]);
  }
}
