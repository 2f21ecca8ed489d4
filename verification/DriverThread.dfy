/** A goal's thread takes every branch exactly when it should: on the way to its motion, while it waits for the reply,
    and on the way to its verdict. */
module DriverThread {
  import opened Crc
  import opened Device
  import opened Engine
  import opened Driver
  import opened DriverInvariant
  import DriverSteps
  import DriverTheorems
  import opened DriverStops
  import opened DriverGoals

  // ----- one own step after another -----

  lemma OwnStep(h: History, o: Options, m: nat, n: nat)
    requires ValidHistory(h, o) && m + 1 < |h.states| && n in h.states[m].motion.jobs
    ensures m < |h.labels| && n in h.states[m + 1].motion.jobs
    ensures Follows(h.states[m], h.labels[m], h.states[m + 1], n) && h.states[m].options == o
  {
    FollowsIn(h, o, m, n);
    DriverTheorems.OptionsStay(h, o, m);
    hide ValidHistory;
    StillThere(h.states[m], h.labels[m], h.states[m + 1], n);
  }

  /** The goal stays where it is until its next own step. */
  lemma {:induction false} NextOwn(h: History, o: Options, i: nat, k: nat, n: nat) returns (m: nat)
    requires ValidHistory(h, o) && i < k < |h.states| && n in h.states[i].motion.jobs && n in h.states[k].motion.jobs
    requires h.states[k].motion.jobs[n].place != h.states[i].motion.jobs[n].place
    ensures i <= m < k && Owns(h.labels[m], n) && n in h.states[m].motion.jobs
    ensures forall x :: i <= x <= m ==> n in h.states[x].motion.jobs
    ensures forall x :: i <= x <= m ==> h.states[x].motion.jobs[n].place == h.states[i].motion.jobs[n].place
    decreases k - i
  {
    hide ValidHistory, Follows, Owns;
    OwnStep(h, o, i, n);
    if Owns(h.labels[i], n) {
      m := i;
    } else {
      StaysPut(h.states[i], h.labels[i], h.states[i + 1], n);
      m := NextOwn(h, o, i + 1, k, n);
    }
  }

  /** The goal is between its acceptance and its motion. */
  predicate Preparing(h: History, i: nat, k: nat, n: nat) {
    && i < k < |h.states| && |h.states| == |h.labels| + 1
    && (forall x :: i <= x <= k ==> n in h.states[x].motion.jobs)
    && (forall x :: i <= x < k ==> BeforeMotion(h.states[x].motion.jobs[n].place))
    && !BeforeMotion(h.states[k].motion.jobs[n].place)
  }

  lemma OnTheWayTo(h: History, i: nat, k: nat, n: nat)
    requires Preparing(h, i, k, n)
    ensures i < k < |h.states| && |h.states| == |h.labels| + 1 && n in h.states[i].motion.jobs &&
            n in h.states[k].motion.jobs
    ensures BeforeMotion(h.states[i].motion.jobs[n].place) && !BeforeMotion(h.states[k].motion.jobs[n].place)
  {
  }

  lemma StillPreparing(h: History, i: nat, k: nat, n: nat, m: nat)
    requires Preparing(h, i, k, n) && i <= m < k
    ensures n in h.states[m].motion.jobs && n in h.states[m + 1].motion.jobs
    ensures BeforeMotion(h.states[m].motion.jobs[n].place)
    ensures if BeforeMotion(h.states[m + 1].motion.jobs[n].place) then Preparing(h, m + 1, k, n) else k == m + 1
  {
    hide BeforeMotion;
  }

  lemma NextOnTheWay(h: History, o: Options, i: nat, k: nat, n: nat) returns (m: nat)
    requires ValidHistory(h, o) && Preparing(h, i, k, n)
    ensures i <= m < k < |h.states| && |h.states| == |h.labels| + 1 && Owns(h.labels[m], n)
    ensures n in h.states[i].motion.jobs && n in h.states[m].motion.jobs && n in h.states[m + 1].motion.jobs
    ensures h.states[m].motion.jobs[n].place == h.states[i].motion.jobs[n].place && h.states[m].options == o
    ensures BeforeMotion(h.states[m].motion.jobs[n].place) && Follows(h.states[m], h.labels[m], h.states[m + 1], n)
    ensures if BeforeMotion(h.states[m + 1].motion.jobs[n].place) then Preparing(h, m + 1, k, n) else k == m + 1
  {
    hide ValidHistory, Follows, Preparing, BeforeMotion, Owns;
    OnTheWayTo(h, i, k, n);
    m := NextOwn(h, o, i, k, n);
    OwnStep(h, o, m, n);
    StillPreparing(h, i, k, n, m);
  }

  // ----- from the acceptance to the motion -----

  /** Success, as the driver reads it off a reply. */
  predicate Fine(resolved: map<Request, Reply>, r: Request) {
    r in resolved && resolved[r].transportOk && resolved[r].status == 0
  }

  lemma CheckingStep(s: System, l: Label, t: System, n: nat)
    requires n in s.motion.jobs && Follows(s, l, t, n) && Owns(l, n)
    ensures var (j, k) := (s.motion.jobs[n], t.motion.jobs[n]);
            && (j.place != SendMotion ==> k.motions == j.motions)
            && match j.place {
                 case WantLock => k.place == CheckGeneration
                 case CheckGeneration =>
                   l.action == ReadGeneration && k.place == if n == s.motion.generation then CheckShutdown else Refused
                 case CheckShutdown =>
                   l.action == ReadShutdown && k.place == if s.shuttingDown then Refused else SendAcceleration
                 case Refused =>
                   && l.action == ReadCanceling
                   && k.place == Concluding(if j.handle == Canceling then Canceled else Aborted)
                 case _ => true
               }
  {
    hide Engine.Success, Fulfilled, Unsettled, HasReturned, IsResolved, Driver.Fresh, Carries;
  }

  lemma SendingStep(s: System, l: Label, t: System, n: nat)
    requires n in s.motion.jobs && Follows(s, l, t, n) && Owns(l, n)
    ensures var (j, k) := (s.motion.jobs[n], t.motion.jobs[n]);
            match j.place {
              case SendAcceleration => l.action.Send? && k.place == AwaitAcceleration(l.action.request)
              case AwaitAcceleration(r) =>
                && l.action == Receive && r in s.engine.resolved
                && k.place == if Fine(s.engine.resolved, r) then SendForce else Concluding(Aborted)
              case SendForce => l.action.Send? && k.place == AwaitForce(l.action.request)
              case AwaitForce(r) =>
                && l.action == Receive && r in s.engine.resolved
                && k.place == if Fine(s.engine.resolved, r) then SendMotion else Concluding(Aborted)
              case SendMotion =>
                l.action.Send? && k.place == Watching(false) && k.motions == j.motions + [l.action.request]
              case _ => true
            }
  {
    hide Fulfilled, Unsettled, HasReturned, Driver.Fresh, Carries;
  }

  /** A goal that has been refused is canceled if it is being canceled, and aborted otherwise. */
  predicate TurnsAway(h: History, k: nat, n: nat) {
    && 0 < k < |h.states| && |h.states| == |h.labels| + 1 && h.labels[k - 1] == GoalActs(n, ReadCanceling)
    && n in h.states[k - 1].motion.jobs && n in h.states[k].motion.jobs && h.states[k].motion.jobs[n].motions == []
    && h.states[k].motion.jobs[n].place ==
         Concluding(if h.states[k - 1].motion.jobs[n].handle == Canceling then Canceled else Aborted)
  }

  /** A goal that gives up before its motion, because a command failed. */
  predicate GivesUp(h: History, k: nat, n: nat) {
    && k < |h.states| && n in h.states[k].motion.jobs
    && h.states[k].motion.jobs[n].motions == [] && h.states[k].motion.jobs[n].place == Concluding(Aborted)
  }

  /** A goal receives the reply to the command that sets a value, at `c`. */
  predicate Hears(h: History, o: Options, c: nat, n: nat, r: Request, id: Id, value: seq<byte>) {
    && c < |h.states| && c < |h.labels| && h.labels[c] == GoalActs(n, Receive)
    && r in h.states[c].engine.resolved && Sets(r, o, id, value)
  }

  lemma AwaitsIts(h: History, o: Options, c: nat, n: nat)
    requires ValidHistory(h, o) && c < |h.states| && n in h.states[c].motion.jobs
    ensures var j := h.states[c].motion.jobs[n];
            && (j.place.AwaitAcceleration? ==> Sets(j.place.request, o, 0x30, j.goal.acceleration))
            && (j.place.AwaitForce? ==> Sets(j.place.request, o, 0x32, j.goal.force))
  {
    PreparedRun(h, o, c, n);
    hide ValidHistory, Sets, Set;
  }

  lemma Refuses(h: History, o: Options, i: nat, k: nat, n: nat)
    requires ValidHistory(h, o) && Preparing(h, i, k, n) && h.states[i].motion.jobs[n].place == Refused
    ensures TurnsAway(h, k, n)
  {
    hide ValidHistory, Follows, Preparing;
    var m := NextOnTheWay(h, o, i, k, n);
    NoMotionYet(h, o, m, n);
    CheckingStep(h.states[m], h.labels[m], h.states[m + 1], n);
  }

  lemma SendsOne(h: History, o: Options, i: nat, k: nat, n: nat) returns (m: nat)
    requires ValidHistory(h, o) && Preparing(h, i, k, n)
    requires h.states[i].motion.jobs[n].place == SendAcceleration || h.states[i].motion.jobs[n].place == SendForce
    ensures i < m && Preparing(h, m, k, n)
    ensures var p := h.states[m].motion.jobs[n].place;
            if h.states[i].motion.jobs[n].place == SendForce then p.AwaitForce? else p.AwaitAcceleration?
  {
    hide ValidHistory, Follows, Preparing;
    var l := NextOnTheWay(h, o, i, k, n);
    SendingStep(h.states[l], h.labels[l], h.states[l + 1], n);
    m := l + 1;
  }

  lemma ReceivesOne(h: History, o: Options, i: nat, k: nat, n: nat) returns (c: nat)
    requires ValidHistory(h, o) && Preparing(h, i, k, n)
    requires h.states[i].motion.jobs[n].place.AwaitAcceleration? || h.states[i].motion.jobs[n].place.AwaitForce?
    ensures i <= c < k && h.labels[c] == GoalActs(n, Receive)
    ensures var p := h.states[i].motion.jobs[n].place;
            && h.states[c].motion.jobs[n].place == p && p.request in h.states[c].engine.resolved
            && if Fine(h.states[c].engine.resolved, p.request) then
                 && Preparing(h, c + 1, k, n)
                 && h.states[c + 1].motion.jobs[n].place == if p.AwaitForce? then SendMotion else SendForce
               else k == c + 1 && GivesUp(h, k, n)
  {
    hide ValidHistory, Follows, Preparing, Fine;
    c := NextOnTheWay(h, o, i, k, n);
    NoMotionYet(h, o, c, n);
    CheckingStep(h.states[c], h.labels[c], h.states[c + 1], n);
    SendingStep(h.states[c], h.labels[c], h.states[c + 1], n);
  }

  lemma Accelerates(h: History, o: Options, i: nat, k: nat, n: nat) returns (c: nat, r: Request)
    requires ValidHistory(h, o) && Preparing(h, i, k, n) && h.states[i].motion.jobs[n].place == SendAcceleration
    ensures i < c < k && Hears(h, o, c, n, r, 0x30, h.states[c].motion.jobs[n].goal.acceleration)
    ensures if Fine(h.states[c].engine.resolved, r) then
              Preparing(h, c + 1, k, n) && h.states[c + 1].motion.jobs[n].place == SendForce
            else k == c + 1 && GivesUp(h, k, n)
  {
    hide ValidHistory, Fine, Sets, GivesUp, BeforeMotion;
    var m := SendsOne(h, o, i, k, n);
    c := ReceivesOne(h, o, m, k, n);
    r := h.states[m].motion.jobs[n].place.request;
    AwaitsIts(h, o, c, n);
  }

  lemma Forces(h: History, o: Options, i: nat, k: nat, n: nat) returns (d: nat, r: Request)
    requires ValidHistory(h, o) && Preparing(h, i, k, n) && h.states[i].motion.jobs[n].place == SendForce
    ensures i < d < k && Hears(h, o, d, n, r, 0x32, h.states[d].motion.jobs[n].goal.force)
    ensures if Fine(h.states[d].engine.resolved, r) then
              Preparing(h, d + 1, k, n) && h.states[d + 1].motion.jobs[n].place == SendMotion
            else k == d + 1 && GivesUp(h, k, n)
  {
    hide ValidHistory, Fine, Sets, GivesUp, BeforeMotion;
    var m := SendsOne(h, o, i, k, n);
    d := ReceivesOne(h, o, m, k, n);
    r := h.states[m].motion.jobs[n].place.request;
    AwaitsIts(h, o, d, n);
  }

  lemma Launches(h: History, o: Options, i: nat, k: nat, n: nat)
    requires ValidHistory(h, o) && Preparing(h, i, k, n) && h.states[i].motion.jobs[n].place == SendMotion
    ensures h.states[k].motion.jobs[n].place == Watching(false)
    ensures h.labels[k - 1].GoalActs? && h.labels[k - 1].n == n && h.labels[k - 1].action.Send?
    ensures var r := h.labels[k - 1].action.request;
            h.states[k].motion.jobs[n].motions == [r] && IsMotion(r, o, h.states[k].motion.jobs[n].goal)
  {
    hide ValidHistory, Follows, Preparing, Fine, Sets, Set, IsMotion;
    var m := NextOnTheWay(h, o, i, k, n);
    NoMotionYet(h, o, m, n);
    SendingStep(h.states[m], h.labels[m], h.states[m + 1], n);
    MotionIsPrepared(h, o, k, n);
  }

  /** `a` is where the goal reads the generation, and `b` where it reads the shutdown. */
  predicate Checks(h: History, n: nat, a: nat, b: nat) {
    && a < b < |h.labels| <= |h.states| && h.labels[a] == GoalActs(n, ReadGeneration)
    && h.labels[b] == GoalActs(n, ReadShutdown)
  }

  lemma Reads(h: History, o: Options, i: nat, k: nat, n: nat) returns (a: nat, b: nat)
    requires ValidHistory(h, o) && Preparing(h, i, k, n) && h.states[i].motion.jobs[n].place == WantLock
    ensures i < a < k && h.labels[a] == GoalActs(n, ReadGeneration)
    ensures if n != h.states[a].motion.generation then b == a && TurnsAway(h, k, n)
            else b < k && Checks(h, n, a, b) &&
                 if h.states[b].shuttingDown then TurnsAway(h, k, n)
                 else Preparing(h, b + 1, k, n) && h.states[b + 1].motion.jobs[n].place == SendAcceleration
  {
    hide ValidHistory, Follows, Preparing, TurnsAway;
    var m := NextOnTheWay(h, o, i, k, n);
    CheckingStep(h.states[m], h.labels[m], h.states[m + 1], n);
    a := NextOnTheWay(h, o, m + 1, k, n);
    b := a;
    CheckingStep(h.states[a], h.labels[a], h.states[a + 1], n);
    if n != h.states[a].motion.generation {
      Refuses(h, o, a + 1, k, n);
    } else {
      b := NextOnTheWay(h, o, a + 1, k, n);
      CheckingStep(h.states[b], h.labels[b], h.states[b + 1], n);
      if h.states[b].shuttingDown {
        Refuses(h, o, b + 1, k, n);
      }
    }
  }

  /** The goal sends its motion, at the step before `k`. */
  predicate SendsMotion(h: History, o: Options, k: nat, n: nat) {
    && 0 < k < |h.states| && |h.states| == |h.labels| + 1 && n in h.states[k].motion.jobs
    && h.states[k].motion.jobs[n].place == Watching(false)
    && h.labels[k - 1].GoalActs? && h.labels[k - 1].n == n && h.labels[k - 1].action.Send?
    && h.states[k].motion.jobs[n].motions == [h.labels[k - 1].action.request]
    && IsMotion(h.labels[k - 1].action.request, o, h.states[k].motion.jobs[n].goal)
  }

  lemma GoalStays(s: System, l: Label, t: System, n: nat)
    requires n in s.motion.jobs && Follows(s, l, t, n)
    ensures n in t.motion.jobs && t.motion.jobs[n].goal == s.motion.jobs[n].goal
  {
    hide CanAct, NextPlace;
  }

  lemma {:induction false} SameGoal(h: History, o: Options, i: nat, k: nat, n: nat)
    requires ValidHistory(h, o) && i <= k < |h.states| && n in h.states[i].motion.jobs
    ensures n in h.states[k].motion.jobs && h.states[k].motion.jobs[n].goal == h.states[i].motion.jobs[n].goal
    decreases k
  {
    hide ValidHistory, Follows;
    if i < k {
      SameGoal(h, o, i, k - 1, n);
      OwnStep(h, o, k - 1, n);
      GoalStays(h.states[k - 1], h.labels[k - 1], h.states[k], n);
    }
  }

  /** A goal that waits for the mutex at `i` and has left the way to its motion at `k` sends the motion if and only if
      it was the newest when it read that, the node was not shutting down when it read that, and the replies to its
      acceleration and its force, in this order, were successes. Otherwise it is turned away, or gives up. */
  lemma MotionIsExact(h: History, o: Options, i: nat, k: nat, n: nat)
      returns (a: nat, b: nat, c: nat, d: nat, r: Request, q: Request)
    requires ValidHistory(h, o) && Preparing(h, i, k, n) && h.states[i].motion.jobs[n].place == WantLock
    ensures i < a < k && h.labels[a] == GoalActs(n, ReadGeneration)
    ensures
      if n != h.states[a].motion.generation then TurnsAway(h, k, n)
      else
        && b < k && Checks(h, n, a, b)
        && if h.states[b].shuttingDown then TurnsAway(h, k, n)
           else
             && b < c < k && Hears(h, o, c, n, r, 0x30, h.states[k].motion.jobs[n].goal.acceleration)
             && if !Fine(h.states[c].engine.resolved, r) then GivesUp(h, k, n)
                else
                  && c < d < k && Hears(h, o, d, n, q, 0x32, h.states[k].motion.jobs[n].goal.force)
                  && if !Fine(h.states[d].engine.resolved, q) then GivesUp(h, k, n) else SendsMotion(h, o, k, n)
  {
    hide ValidHistory, TurnsAway, GivesUp, Checks, Hears, Fine, IsMotion;
    a, b := Reads(h, o, i, k, n);
    c, d := b, b;
    r := MotionRequest(h.states[i].motion.jobs[n]);
    q := r;
    if n == h.states[a].motion.generation && !h.states[b].shuttingDown {
      c, r := Accelerates(h, o, b + 1, k, n);
      SameGoal(h, o, c, k, n);
      if Fine(h.states[c].engine.resolved, r) {
        d, q := Forces(h, o, c + 1, k, n);
        SameGoal(h, o, d, k, n);
        if Fine(h.states[d].engine.resolved, q) {
          Launches(h, o, d + 1, k, n);
        }
      }
    }
  }

  // ----- from the motion to the verdict -----

  /** The motion is out, and the verdict has not begun. */
  predicate OnTheWay(p: Place) { InMotion(p) || p.Looking? || p.Looked? || p == JudgeCanceling }

  lemma WayStep(s: System, l: Label, t: System, n: nat)
    requires n in s.motion.jobs && Follows(s, l, t, n) && OnTheWay(s.motion.jobs[n].place)
    ensures OnTheWay(t.motion.jobs[n].place) ||
            (l == GoalActs(n, ReadCanceling) && s.motion.jobs[n].place == JudgeCanceling)
  {
    hide Engine.Success, Fulfilled, Unsettled, HasReturned, IsResolved, Driver.Fresh, Carries;
  }

  /** A goal whose motion is out comes to its verdict before anything else becomes of it. */
  lemma {:induction false} ComesToVerdict(h: History, o: Options, i: nat, k: nat, n: nat) returns (c: nat)
    requires ValidHistory(h, o) && i < k < |h.states| && n in h.states[i].motion.jobs && n in h.states[k].motion.jobs
    requires OnTheWay(h.states[i].motion.jobs[n].place) && !OnTheWay(h.states[k].motion.jobs[n].place)
    ensures i <= c < k && n in h.states[c].motion.jobs && h.labels[c] == GoalActs(n, ReadCanceling)
    ensures h.states[c].motion.jobs[n].place == JudgeCanceling
    decreases k - i
  {
    hide ValidHistory, Follows, OnTheWay;
    OwnStep(h, o, i, n);
    WayStep(h.states[i], h.labels[i], h.states[i + 1], n);
    if OnTheWay(h.states[i + 1].motion.jobs[n].place) {
      c := ComesToVerdict(h, o, i + 1, k, n);
    } else {
      c := i;
    }
  }

  lemma VerdictStep(s: System, l: Label, t: System, n: nat)
    requires n in s.motion.jobs && Follows(s, l, t, n) && Owns(l, n) && OutcomesOk(s.motion.jobs[n])
    ensures s.motion.jobs[n].place == JudgeCanceling ==>
              if s.motion.jobs[n].handle == Canceling then Decided(t.motion.jobs[n], Canceled)
              else t.motion.jobs[n].place == JudgeGeneration
    ensures s.motion.jobs[n].place == JudgeGeneration ==> l.action == ReadGeneration
  {
    hide Fulfilled;
  }

  lemma NotEndedYet(h: History, o: Options, i: nat, n: nat)
    requires ValidHistory(h, o) && i < |h.states| && n in h.states[i].motion.jobs
    requires h.states[i].motion.jobs[n].outcomes != []
    ensures Ended(h.states[i].motion.jobs[n].place)
  {
    DriverSteps.DriverRun(h, o, i);
    OutcomesHold(h.states[i], n);
    hide ValidHistory, DriverInv, MotionsOk, StopsOk, WaitsOk, RepliesOk;
  }

  /** How a goal whose motion is out ends: it is canceled if and only if it reads that it is being canceled once the
      fingers have settled; otherwise it succeeds if and only if it is then the newest and meets what success needs, by
      the reply to its motion and what it has seen. */
  lemma MotionIsJudged(h: History, o: Options, i: nat, k: nat, n: nat) returns (c: nat, v: nat)
    requires ValidHistory(h, o) && i < k < |h.states| && n in h.states[i].motion.jobs && n in h.states[k].motion.jobs
    requires OnTheWay(h.states[i].motion.jobs[n].place) && h.states[k].motion.jobs[n].outcomes != []
    ensures i <= c < k && n in h.states[c].motion.jobs && h.labels[c] == GoalActs(n, ReadCanceling)
    ensures if h.states[c].motion.jobs[n].handle == Canceling then h.states[k].motion.jobs[n].outcomes == [Canceled]
            else
              && c < v < k && n in h.states[v].motion.jobs && h.labels[v] == GoalActs(n, ReadGeneration)
              && var (s, j) := (h.states[v], h.states[v].motion.jobs[n]);
                 h.states[k].motion.jobs[n].outcomes ==
                   [if n == s.motion.generation && Meets(o, j.goal, j.reply, j.seen) then Succeeded else Aborted]
  {
    NotEndedYet(h, o, k, n);
    c := ComesToVerdict(h, o, i, k, n);
    v := c;
    OwnStep(h, o, c, n);
    OutcomesAt(h, o, c, n);
    hide ValidHistory, Follows, OutcomesOk, Meets, OnTheWay;
    VerdictStep(h.states[c], h.labels[c], h.states[c + 1], n);
    if h.states[c].motion.jobs[n].handle == Canceling {
      DecidedForGood(h, o, c + 1, k, n, Canceled);
      DecidedOutcome(h.states[k].motion.jobs[n], Canceled);
    } else {
      v := NextOwn(h, o, c + 1, k, n);
      OwnStep(h, o, v, n);
      OutcomesAt(h, o, v, n);
      VerdictStep(h.states[v], h.labels[v], h.states[v + 1], n);
      VerdictIsExact(h, o, v, k, n);
    }
  }

  // ----- while it waits -----

  lemma WatchStep(s: System, l: Label, t: System, n: nat)
    requires n in s.motion.jobs && Follows(s, l, t, n) && Owns(l, n) && |s.motion.jobs[n].motions| == 1
    ensures var (j, k) := (s.motion.jobs[n], t.motion.jobs[n]);
            && (j.place.Watching? ==>
                  k.place == if j.motions[0] in s.engine.resolved then Collecting else WatchShutdown(j.place.stopSent))
            && (j.place == Collecting ==>
                  k.place.Looking? && j.motions[0] in s.engine.resolved && k.reply == s.engine.resolved[j.motions[0]])
  {
    hide Engine.Success, Fulfilled, Unsettled, Driver.Fresh, Carries;
  }

  lemma OneMotionOut(h: History, o: Options, i: nat, n: nat)
    requires ValidHistory(h, o) && i < |h.states| && n in h.states[i].motion.jobs
    requires InMotion(h.states[i].motion.jobs[n].place)
    ensures |h.states[i].motion.jobs[n].motions| == 1
  {
    DriverSteps.DriverRun(h, o, i);
    OutcomesHold(h.states[i], n);
    hide ValidHistory, DriverInv, OutcomesOk, StopsOk, WaitsOk, RepliesOk;
  }

  /** The wait ends as soon as the reply is there: a goal that leaves its wait goes to take the reply if and only if
      its motion command is resolved by then. */
  lemma ReplyIsTaken(h: History, o: Options, i: nat, k: nat, n: nat) returns (m: nat)
    requires ValidHistory(h, o) && i < k < |h.states| && n in h.states[i].motion.jobs && n in h.states[k].motion.jobs
    requires h.states[i].motion.jobs[n].place.Watching?
    requires h.states[k].motion.jobs[n].place != h.states[i].motion.jobs[n].place
    requires forall x :: i < x < k && n in h.states[x].motion.jobs ==>
               h.states[x].motion.jobs[n].place == h.states[i].motion.jobs[n].place
    ensures k == m + 1 && n in h.states[m].motion.jobs && |h.states[m].motion.jobs[n].motions| == 1
    ensures h.states[k].motion.jobs[n].place == Collecting <==>
              h.states[m].motion.jobs[n].motions[0] in h.states[m].engine.resolved
  {
    hide ValidHistory, Follows;
    m := NextOwn(h, o, i, k, n);
    OwnStep(h, o, m, n);
    OneMotionOut(h, o, m, n);
    WatchStep(h.states[m], h.labels[m], h.states[m + 1], n);
  }

  /** The settling loop's condition: connected, a motion that went well, and fingers that move or are not where the
      goal wants them. */
  predicate MustLookAgain(o: Options, g: Goal, r: Reply, d: DeviceState) {
    && d.connected && ((r.transportOk && r.status == 0) || (g.mode == Grasp && r.status == 29))
    && (d.moving || !(Near(o, g, d) || (g.mode == Grasp && d.stalled)))
  }

  lemma MustIsRestless(o: Options, g: Goal, r: Reply, d: DeviceState)
    ensures MustLookAgain(o, g, r, d) <==> Restless(o, g, r, d)
  {
    hide Number;
  }

  lemma LooksAgainNow(s: System, j: Job)
    requires CanAct(s, j, LookAgain)
    ensures Restless(s.options, j.goal, j.reply, j.seen)
  {
    hide Restless, Driver.Fresh, Carries, HasReturned, IsResolved;
  }

  /** A goal looks at the fingers again only because they have not settled. */
  lemma LooksAgainForAReason(h: History, o: Options, i: nat, n: nat)
    requires ValidHistory(h, o) && i < |h.labels| && h.labels[i] == GoalActs(n, LookAgain)
    ensures n in h.states[i].motion.jobs
    ensures var j := h.states[i].motion.jobs[n]; MustLookAgain(o, j.goal, j.reply, j.seen)
  {
    DriverTheorems.ActsNow(h, o, i);
    DriverTheorems.OptionsStay(h, o, i);
    var j := h.states[i].motion.jobs[n];
    hide ValidHistory, CanAct, MustLookAgain, Restless;
    MustIsRestless(o, j.goal, j.reply, j.seen);
    LooksAgainNow(h.states[i], j);
  }
}
