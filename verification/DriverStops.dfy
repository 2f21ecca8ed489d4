/** A canceled or superseded goal stops its motion. */
module DriverStops {
  import opened Engine
  import opened EngineInvariant
  import opened Driver
  import opened DriverInvariant
  import DriverSteps
  import DriverTheorems

  // ----- what becomes of a goal's thread in a step of the system -----

  predicate Owns(l: Label, n: nat) { l.GoalActs? && l.n == n }

  /** The goal `n` acts, or is canceled, or is left alone; it stays, a newer goal stays newer, and nothing undoes the
      shutdown. */
  predicate Follows(s: System, l: Label, t: System, n: nat)
    requires n in s.motion.jobs
  {
    && n in t.motion.jobs && t.motion.generation >= s.motion.generation && (s.shuttingDown ==> t.shuttingDown)
    && t.options == s.options
    && var j, k := s.motion.jobs[n], t.motion.jobs[n];
       if Owns(l, n) then CanAct(s, j, l.action) && k == NextJob(s, n, j, l.action)
       else if l.CancelGoal? && l.n == n then j.handle == Executing && k == j.(handle := Canceling)
       else k == j
  }

  lemma GoalFollows(s: System, l: Label, n: nat)
    requires DriverInv(s) && Can(s, l) && n in s.motion.jobs
    ensures Follows(s, l, Advance(s, l), n)
  {
    hide Inv, InitOk, JobsOk, LockOk, ClientsOk, Enabled, Apply, CanAct, CanTimer, CanInit, CanHome, NextJob, TimerInit,
        TimerCallback, NextInit, IsService, Driver.Fresh, Plan, EngineAfter, NewJob, Submitted;
  }

  lemma StillThere(s: System, l: Label, t: System, n: nat)
    requires n in s.motion.jobs && Follows(s, l, t, n)
    ensures n in t.motion.jobs
  {
  }

  lemma FollowsIn(h: History, o: Options, k: nat, n: nat)
    requires ValidHistory(h, o) && k < |h.labels| && k + 1 < |h.states| && n in h.states[k].motion.jobs
    ensures Follows(h.states[k], h.labels[k], h.states[k + 1], n)
  {
    DriverSteps.DriverRun(h, o, k);
    hide Can, Advance, DriverInv, Follows;
    GoalFollows(h.states[k], h.labels[k], n);
  }

  // ----- the next own command -----

  /** The goal reads that it is being canceled, or that it is superseded, when it has sent no stop. */
  predicate ReadsTheEnd(s: System, n: nat, a: Action)
    requires n in s.motion.jobs
  {
    var j := s.motion.jobs[n];
    (j.place == WatchCanceling && a == ReadCanceling && j.handle == Canceling) ||
    (j.place == WatchGeneration && a == ReadGeneration && n != s.motion.generation)
  }

  lemma TurnsToStop(s: System, l: Label, t: System, n: nat)
    requires n in s.motion.jobs && Follows(s, l, t, n) && Owns(l, n) && ReadsTheEnd(s, n, l.action)
    ensures t.motion.jobs[n].place == SendStop
  {
    hide Engine.Success, Fulfilled, Unsettled, HasReturned, IsResolved;
  }

  lemma StaysPut(s: System, l: Label, t: System, n: nat)
    requires n in s.motion.jobs && Follows(s, l, t, n) && !Owns(l, n)
    ensures t.motion.jobs[n].place == s.motion.jobs[n].place && t.motion.jobs[n].stops == s.motion.jobs[n].stops
  {
  }

  lemma {:induction false} WaitsToStop(h: History, o: Options, i: nat, m: nat, n: nat)
    requires ValidHistory(h, o) && i < m < |h.states| && n in h.states[i].motion.jobs
    requires Owns(h.labels[i], n) && ReadsTheEnd(h.states[i], n, h.labels[i].action)
    requires forall k :: i < k < m ==> !Owns(h.labels[k], n)
    ensures n in h.states[m].motion.jobs && h.states[m].motion.jobs[n].place == SendStop
    decreases m
  {
    hide Can, Advance, Follows, ReadsTheEnd, Owns;
    if m == i + 1 {
      FollowsIn(h, o, i, n);
      TurnsToStop(h.states[i], h.labels[i], h.states[m], n);
      StillThere(h.states[i], h.labels[i], h.states[m], n);
    } else {
      WaitsToStop(h, o, i, m - 1, n);
      FollowsIn(h, o, m - 1, n);
      StaysPut(h.states[m - 1], h.labels[m - 1], h.states[m], n);
      StillThere(h.states[m - 1], h.labels[m - 1], h.states[m], n);
    }
  }

  /** A stop, as the goals and the stop service send it. */
  predicate IsStop(r: Request, o: Options) {
    r.id == 0x22 && r.payload == [] && r.priority && r.timeout == o.responseTimeout && r.allowPending && !r.internal
  }

  lemma SendsStop(s: System, l: Label, t: System, n: nat)
    requires n in s.motion.jobs && Follows(s, l, t, n) && Owns(l, n) && s.motion.jobs[n].place == SendStop
    ensures l.action.Send? && IsStop(l.action.request, s.options)
    ensures l.action.request !in s.engine.submitted && l.action.request.createdOn == Generation(s.engine)
    ensures t.motion.jobs[n].stops == s.motion.jobs[n].stops + [l.action.request]
  {
    hide Engine.Success, Fulfilled, Unsettled, HasReturned, IsResolved;
  }

  lemma NoStopYet(s: System, n: nat)
    requires DriverInv(s) && n in s.motion.jobs && s.motion.jobs[n].place == SendStop
    ensures s.motion.jobs[n].stops == []
  {
    hide Inv, InitOk, LockOk, ClientsOk, OutcomesOk, MotionsOk, WaitsOk, RepliesOk, Carries;
  }

  /** A goal that has sent no stop and reads that it is being canceled, or that a newer goal has been accepted, sends a
      stop as the next thing it does. */
  lemma StopIsNext(h: History, o: Options, i: nat, m: nat, n: nat)
    requires ValidHistory(h, o) && i < m < |h.labels| && n in h.states[i].motion.jobs
    requires Owns(h.labels[i], n) && ReadsTheEnd(h.states[i], n, h.labels[i].action)
    requires Owns(h.labels[m], n) && forall k :: i < k < m ==> !Owns(h.labels[k], n)
    ensures h.labels[m].action.Send? && n in h.states[m + 1].motion.jobs
    ensures var r := h.labels[m].action.request;
            && IsStop(r, o) && r.createdOn == Generation(h.states[m].engine) && r !in h.states[m].engine.submitted
            && h.states[m + 1].motion.jobs[n].stops == [r]
  {
    hide DriverInv, Follows, Owns, IsStop, ReadsTheEnd;
    WaitsToStop(h, o, i, m, n);
    FollowsIn(h, o, m, n);
    DriverTheorems.OptionsStay(h, o, m);
    DriverSteps.DriverRun(h, o, m);
    hide ValidHistory;
    NoStopYet(h.states[m], n);
    SendsStop(h.states[m], h.labels[m], h.states[m + 1], n);
    StillThere(h.states[m], h.labels[m], h.states[m + 1], n);
  }

  // ----- once round the loop -----

  /** The goal is being canceled or superseded. */
  predicate Ending(s: System, n: nat)
    requires n in s.motion.jobs
  {
    s.motion.jobs[n].handle == Canceling || n < s.motion.generation
  }

  /** The goal has sent its stop, or is on its way to send it. */
  predicate Round(s: System, n: nat)
    requires n in s.motion.jobs
  {
    var j := s.motion.jobs[n];
    || |j.stops| == 1
    || (Ending(s, n) && j.stops == [] &&
        (j.place == WatchShutdown(false) || j.place == WatchCanceling || j.place == SendStop ||
         (j.place == WatchGeneration && n < s.motion.generation)))
  }

  lemma RoundBegins(s: System, l: Label, t: System, n: nat)
    requires n in s.motion.jobs && Follows(s, l, t, n) && l == GoalActs(n, WaitEnds) && Ending(s, n)
    requires s.motion.jobs[n].place == Watching(false) && s.motion.jobs[n].stops == []
    ensures Round(t, n)
  {
    hide Engine.Success, Fulfilled, Unsettled, HasReturned, IsResolved;
  }

  lemma RoundOthers(s: System, l: Label, t: System, n: nat)
    requires n in s.motion.jobs && Follows(s, l, t, n) && !Owns(l, n) && Round(s, n)
    ensures Round(t, n)
  {
  }

  lemma RoundActs(s: System, l: Label, t: System, n: nat)
    requires n in s.motion.jobs && Follows(s, l, t, n) && Owns(l, n) && Round(s, n) && !s.shuttingDown
    requires s.motion.jobs[n].place == SendStop ==> s.motion.jobs[n].stops == []
    ensures Round(t, n)
  {
    hide Engine.Success, Fulfilled, Unsettled, HasReturned, IsResolved, Carries, StopOrder, MotionOrder;
  }

  lemma NoStopWatching(s: System, n: nat)
    requires DriverInv(s) && n in s.motion.jobs && s.motion.jobs[n].place == Watching(false)
    ensures s.motion.jobs[n].stops == []
  {
    hide Inv, InitOk, LockOk, ClientsOk, OutcomesOk, MotionsOk, WaitsOk, RepliesOk, Carries;
  }

  lemma ShutdownIsFinal(h: History, o: Options, k: nat)
    requires ValidHistory(h, o) && k + 1 < |h.states| && !h.states[k + 1].shuttingDown
    ensures !h.states[k].shuttingDown
  {
    hide Enabled, Apply, CanAct, CanTimer, CanInit, CanHome, NextJob, TimerInit, NextInit, IsService, Driver.Fresh,
        Plan;
    assert Can(h.states[k], h.labels[k]) && h.states[k + 1] == Advance(h.states[k], h.labels[k]);
  }

  lemma {:induction false} RoundStays(h: History, o: Options, m: nat, k: nat, n: nat)
    requires ValidHistory(h, o) && m < k < |h.states| && n in h.states[m].motion.jobs
    requires h.labels[m] == GoalActs(n, WaitEnds) && Ending(h.states[m], n)
    requires h.states[m].motion.jobs[n].place == Watching(false) && !h.states[k].shuttingDown
    ensures n in h.states[k].motion.jobs && Round(h.states[k], n)
    decreases k
  {
    hide Can, Advance, Follows, Round, Ending, DriverInv;
    DriverSteps.DriverRun(h, o, k - 1);
    if m == k - 1 {
      FollowsIn(h, o, m, n);
      NoStopWatching(h.states[m], n);
      StillThere(h.states[m], h.labels[m], h.states[k], n);
      RoundBegins(h.states[m], h.labels[m], h.states[k], n);
    } else {
      ShutdownIsFinal(h, o, k - 1);
      RoundStays(h, o, m, k - 1, n);
      FollowsIn(h, o, k - 1, n);
      StillThere(h.states[k - 1], h.labels[k - 1], h.states[k], n);
      if Owns(h.labels[k - 1], n) {
        if h.states[k - 1].motion.jobs[n].place == SendStop {
          NoStopYet(h.states[k - 1], n);
        }
        RoundActs(h.states[k - 1], h.labels[k - 1], h.states[k], n);
      } else {
        RoundOthers(h.states[k - 1], h.labels[k - 1], h.states[k], n);
      }
    }
  }

  lemma WatchingHasStopped(s: System, n: nat)
    requires DriverInv(s) && n in s.motion.jobs && Round(s, n) && s.motion.jobs[n].place.Watching?
    ensures |s.motion.jobs[n].stops| == 1 && IsStop(s.motion.jobs[n].stops[0], s.options)
    ensures s.motion.jobs[n].stops[0] in s.engine.submitted
  {
    hide Inv, InitOk, LockOk, ClientsOk, OutcomesOk, MotionsOk, WaitsOk, RepliesOk;
    var r := s.motion.jobs[n].stops[0];
    assert r in s.motion.jobs[n].stops;
    assert Carries(r, StopOrder(s.options));
  }

  /** A goal that is canceled or superseded when the wait for its motion times out, and comes back to that wait, has
      sent exactly one stop, unless the node is shutting down. */
  lemma OneRoundStops(h: History, o: Options, m: nat, k: nat, n: nat)
    requires ValidHistory(h, o) && m < k < |h.states| && n in h.states[m].motion.jobs && n in h.states[k].motion.jobs
    requires h.labels[m] == GoalActs(n, WaitEnds) && Ending(h.states[m], n)
    requires h.states[m].motion.jobs[n].place == Watching(false)
    requires h.states[k].motion.jobs[n].place.Watching? && !h.states[k].shuttingDown
    ensures var s := h.states[k];
            && |s.motion.jobs[n].stops| == 1 && IsStop(s.motion.jobs[n].stops[0], o)
            && s.motion.jobs[n].stops[0] in s.engine.submitted
  {
    RoundStays(h, o, m, k, n);
    DriverSteps.DriverRun(h, o, k);
    DriverTheorems.OptionsStay(h, o, k);
    hide ValidHistory, DriverInv, Round, Ending, IsStop;
    WatchingHasStopped(h.states[k], n);
  }

  // ----- why a goal stops -----

  predicate Stopping(j: Job) { j.stops != [] || j.place == SendStop }

  lemma StopArises(s: System, l: Label, t: System, n: nat)
    requires n in s.motion.jobs && Follows(s, l, t, n) && !Stopping(s.motion.jobs[n]) && Stopping(t.motion.jobs[n])
    ensures Owns(l, n) && ReadsTheEnd(s, n, l.action)
  {
    hide Engine.Success, Fulfilled, Unsettled, HasReturned, IsResolved, Carries, StopOrder, MotionOrder;
  }

  lemma BeginsFresh(s: System, l: Label, n: nat)
    requires Can(s, l) && n !in s.motion.jobs && n in Advance(s, l).motion.jobs
    ensures l.GoalAccepted? && n == s.motion.generation + 1 && Advance(s, l).motion.jobs[n] == NewJob(l.goal)
  {
    hide Enabled, Apply, CanAct, CanTimer, CanInit, CanHome, NextJob, TimerInit, TimerCallback, NextInit, IsService,
        Driver.Fresh, Plan, EngineAfter, NewJob, Submitted;
  }

  lemma NoJobAtFirst(h: History, o: Options, n: nat)
    requires ValidHistory(h, o)
    ensures n !in h.states[0].motion.jobs
  {
    hide Can, Advance;
  }

  lemma NewIsNotStopping(g: Goal)
    ensures !Stopping(NewJob(g))
  {
  }

  /** A goal stops its motion only because it has read that it is being canceled or superseded. */
  lemma {:induction false} StopHasReason(h: History, o: Options, k: nat, n: nat) returns (i: nat)
    requires ValidHistory(h, o) && k < |h.states| && n in h.states[k].motion.jobs
    requires Stopping(h.states[k].motion.jobs[n])
    ensures i < k && n in h.states[i].motion.jobs && Owns(h.labels[i], n)
    ensures ReadsTheEnd(h.states[i], n, h.labels[i].action)
    decreases k
  {
    hide Can, Advance, Follows, ReadsTheEnd, Owns, Stopping, NewJob;
    if k == 0 {
      NoJobAtFirst(h, o, n);
    } else if n !in h.states[k - 1].motion.jobs {
      BeginsFresh(h.states[k - 1], h.labels[k - 1], n);
      NewIsNotStopping(h.labels[k - 1].goal);
    } else if Stopping(h.states[k - 1].motion.jobs[n]) {
      i := StopHasReason(h, o, k - 1, n);
    } else {
      i := k - 1;
      FollowsIn(h, o, i, n);
      StopArises(h.states[i], h.labels[i], h.states[k], n);
    }
  }
}
