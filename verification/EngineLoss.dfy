/** How a connection ends: what ends it, and what `disconnect` has done when it is over. */
module EngineLoss {
  import opened Device
  import opened Engine
  import opened EngineInvariant
  import opened EngineRuns
  import opened EngineFields
  import opened EngineReplies
  import EngineConnection
  import EngineSteps
  import EngineTheorems
  import EngineTelemetry

  /** The deadline had passed when the worker read the clock. */
  predicate Passed(s: State, r: Request)
    requires r in s.deadline
  {
    s.worker.Checking? && s.worker.now >= s.deadline[r]
  }

  /** The connection is lost: `poll`, `recv` or a send says so, a deadline in flight has passed, or the transport
      stops. */
  predicate Loses(s: State, l: Step) {
    match l
    case PollLost => true
    case ReceiveLost => true
    case SendBroken => true
    case Leave => true
    case Expire => exists id :: id in s.inFlight && s.inFlight[id] in s.deadline && Passed(s, s.inFlight[id])
    case _ => false
  }

  predicate InDisconnect(w: Worker) { w.Closing? || w.Closed? || w.Draining? }

  /** Where the worker goes on after the disconnect that the step begins. */
  function GoesOn(s: State, l: Step): Worker {
    if l.Leave? then Exited else if l.SendBroken? && s.worker.Sending? then Failing(s.worker.request) else Loop
  }

  predicate GoesTo(w: Worker, to: Worker) {
    InDisconnect(w) && match w.after {
      case ToLoop => to == Loop
      case ToFailure(r) => to == Failing(r)
      case ToExit => to == Exited
    }
  }

  lemma OnItsWay(w: Worker, to: Worker)
    requires GoesTo(w, to)
    ensures InDisconnect(w)
  {
  }

  lemma ExpireLoses(s: State)
    requires Enabled(s, Expire)
    ensures Loses(s, Expire) <==> Expired(s, s.worker.now)
  {
    if Expired(s, s.worker.now) {
      var id :| id in s.inFlight && s.inFlight[id] in s.deadline && s.worker.now >= s.deadline[s.inFlight[id]];
      assert Passed(s, s.inFlight[id]);
    }
  }

  lemma LossBegins(s: State, l: Step)
    requires Enabled(s, l) && Loses(s, l)
    ensures GoesTo(Apply(s, l).worker, GoesOn(s, l)) && !Apply(s, l).connected
  {
    if l.Expire? {
      ExpireLoses(s);
    }
    hide Expired;
  }

  predicate ByOthers(l: Step) {
    l.Stop? || l.Tick? || l.Submit? || l.CallLock? || l.CallUnlock? || l.CallFail?
  }

  lemma FailLeavesWorker(s: State, r: Request)
    ensures CallFailed(s, r).worker == s.worker
  {
  }

  lemma EnqueueLeavesWorker(s: State, r: Request)
    ensures Enqueue(s, r).worker == s.worker
  {
  }

  lemma UnlockLeavesWorker(s: State, r: Request)
    requires s.mutex.Owned?
    ensures CallUnlocked(s, r).worker == s.worker
  {
    EnqueueLeavesWorker(s, r);
    hide Enqueue;
  }

  lemma RestLeavesWorker(s: State, l: Step)
    requires Enabled(s, l) && (l.Stop? || l.Tick? || l.Submit? || l.CallLock?)
    ensures Apply(s, l).worker == s.worker
  {
  }

  lemma OthersLeaveWorker(s: State, l: Step)
    requires Enabled(s, l) && ByOthers(l)
    ensures Apply(s, l).worker == s.worker
  {
    hide CallUnlocked, CallFailed;
    if l.CallUnlock? {
      UnlockLeavesWorker(s, l.request);
    } else if l.CallFail? {
      FailLeavesWorker(s, l.request);
    } else {
      hide Enabled, Apply;
      RestLeavesWorker(s, l);
    }
  }

  lemma PossibleMeanwhile(s: State, l: Step)
    requires Enabled(s, l) && InDisconnect(s.worker)
    ensures ByOthers(l) || l.CloseSocket? || l.TakeAll? || l.FailNext? || l.ClearState?
  {
    hide Visits;
  }

  lemma ResumedWorker(s: State, after: After, to: Worker)
    requires GoesTo(Draining([], after), to)
    ensures Resumed(s, after).worker == to
  {
  }

  lemma ClearGoesOn(s: State, to: Worker)
    requires Enabled(s, ClearState) && GoesTo(s.worker, to)
    ensures Apply(s, ClearState).worker == to
  {
    hide Disconnected, Resumed;
    ResumedWorker(s.(device := Disconnected(s.device)), s.worker.after, to);
  }

  lemma CloseGoesOn(s: State, to: Worker)
    requires Enabled(s, CloseSocket) && GoesTo(s.worker, to)
    ensures GoesTo(Apply(s, CloseSocket).worker, to)
  {
  }

  lemma TakeGoesOn(s: State, order: seq<Request>, to: Worker)
    requires Enabled(s, TakeAll(order)) && GoesTo(s.worker, to)
    ensures GoesTo(Apply(s, TakeAll(order)).worker, to)
  {
    hide Visits;
  }

  lemma FailGoesOn(s: State, to: Worker)
    requires Enabled(s, FailNext) && GoesTo(s.worker, to)
    ensures GoesTo(Apply(s, FailNext).worker, to)
  {
    hide Resolve;
  }

  lemma DisconnectGoesOn(s: State, l: Step, to: Worker)
    requires Enabled(s, l) && GoesTo(s.worker, to)
    ensures if l.ClearState? then Apply(s, l).worker == to else GoesTo(Apply(s, l).worker, to)
  {
    hide Enabled, Apply, GoesTo;
    assert InDisconnect(s.worker) by { OnItsWay(s.worker, to); }
    PossibleMeanwhile(s, l);
    if ByOthers(l) {
      OthersLeaveWorker(s, l);
    } else {
      match l
      case CloseSocket => CloseGoesOn(s, to);
      case TakeAll(order) => TakeGoesOn(s, order, to);
      case FailNext => FailGoesOn(s, to);
      case ClearState => ClearGoesOn(s, to);
    }
  }

  /** A disconnect fails what it resolves. */
  lemma DisconnectAnswersNone(s: State, l: Step, r: Request)
    requires Enabled(s, l) && InDisconnect(s.worker) && r !in s.resolved && r in Apply(s, l).resolved
    ensures Apply(s, l).resolved[r] == FAILED
  {
    ResolutionStep(s, l, r);
    hide Enabled, Apply;
    assert !s.worker.Answering?;
  }

  // ----- over runs -----

  lemma ClearedIsEmpty(s: State, n: State)
    requires Inv(n) && (n.worker == Loop || n.worker.Failing? || n.worker == Exited) && !n.device.connected
    ensures !n.connected && !n.socket && Empty(n)
  {
    hide Conserved, Coherent, Dated, Ordered, Guarded, Tracked;
  }

  lemma AllResolved(s: State)
    requires Inv(s) && Empty(s) && Held(s.worker) == []
    ensures forall r :: r in s.acceptedOn ==> r in s.resolved
  {
    hide Linked, Coherent, Ordered, Guarded, Tracked, Down;
    forall r | r in s.acceptedOn
      ensures r in s.resolved
    {
      EngineSteps.OnePlace(s, r);
    }
  }

  /** The step `m` loses the connection, and the worker has been in `disconnect` until `k`. */
  ghost predicate Disconnects(run: Run, m: nat, k: nat) {
    && ValidRun(run) && m < k < |run.states| && Loses(run.states[m], run.steps[m])
    && (forall x :: m < x < k ==> InDisconnect(run.states[x].worker))
  }

  lemma GoesOnOutside(s: State, l: Step)
    ensures var w := GoesOn(s, l); (w == Loop || w.Failing? || w == Exited) && !InDisconnect(w)
  {
  }

  lemma {:induction false} StillDisconnecting(run: Run, m: nat, k: nat)
    requires Disconnects(run, m, k)
    ensures GoesTo(run.states[k].worker, GoesOn(run.states[m], run.steps[m])) ||
            (m + 1 < k && run.steps[k - 1].ClearState? &&
             run.states[k].worker == GoesOn(run.states[m], run.steps[m]))
    decreases k
  {
    hide Enabled, Apply, Loses, GoesTo, GoesOn, InDisconnect;
    if k == m + 1 {
      LossBegins(run.states[m], run.steps[m]);
    } else {
      var s, to := run.states[k - 1], GoesOn(run.states[m], run.steps[m]);
      StillDisconnecting(run, m, k - 1);
      GoesOnOutside(run.states[m], run.steps[m]);
      DisconnectGoesOn(s, run.steps[k - 1], to);
    }
  }

  lemma LossResolvesNone(s: State, l: Step)
    requires Enabled(s, l) && Loses(s, l)
    ensures Apply(s, l).resolved == s.resolved
  {
    StepKeeps(s, l);
    hide Enabled, Apply;
  }

  lemma {:induction false} FailedMeanwhile(run: Run, m: nat, k: nat, r: Request)
    requires Disconnects(run, m, k) && r in run.states[k].resolved
    ensures r in run.states[m].resolved || run.states[k].resolved[r] == FAILED
    decreases k
  {
    hide Enabled, Apply, Loses, InDisconnect;
    var s, l := run.states[k - 1], run.steps[k - 1];
    if r in s.resolved {
      EngineTheorems.ResolvedStays(s, l, r);
      if m + 1 < k {
        FailedMeanwhile(run, m, k - 1, r);
      }
    } else if m + 1 < k {
      DisconnectAnswersNone(s, l, r);
    } else {
      LossResolvesNone(s, l);
    }
  }

  lemma BlankAfter(s: State)
    requires Enabled(s, ClearState)
    ensures !Apply(s, ClearState).device.connected && Apply(s, ClearState).device.systemState == 0
  {
    EngineTelemetry.ClearShows(s);
    hide Apply, Enabled;
  }

  /** A connection that is lost, for whatever reason, is lost altogether: when the worker is out of `disconnect`, no
      connection is left or published, nothing waits or is in flight, and every request that was ever accepted has been
      resolved, if not before then as a failure. The worker goes on with its loop, with giving up what it could not
      send, or not at all, as the case may be. */
  lemma LossIsTotal(run: Run, m: nat, k: nat)
    requires Disconnects(run, m, k) && !InDisconnect(run.states[k].worker)
    ensures var s := run.states[k];
            && s.worker == GoesOn(run.states[m], run.steps[m])
            && !s.connected && !s.socket && !s.device.connected && s.device.systemState == 0
            && s.queue == [] && s.priorityQueue == [] && s.inFlight == map[]
            && forall r :: r in s.acceptedOn ==>
                 r in s.resolved && (r in run.states[m].resolved || s.resolved[r] == FAILED)
  {
    StillDisconnecting(run, m, k);
    assert !GoesTo(run.states[k].worker, GoesOn(run.states[m], run.steps[m]));
    InvRun(run, k);
    hide Enabled, Apply, Inv, Loses, InDisconnect, GoesOn, GoesTo;
    BlankAfter(run.states[k - 1]);
    GoesOnOutside(run.states[m], run.steps[m]);
    var s := run.states[k];
    ClearedIsEmpty(run.states[k - 1], s);
    AllResolved(s);
    forall r | r in s.acceptedOn
      ensures r in run.states[m].resolved || s.resolved[r] == FAILED
    {
      FailedMeanwhile(run, m, k, r);
    }
  }

  lemma ExpireCloses(s: State)
    requires Enabled(s, Expire) && Apply(s, Expire).worker.Closing?
    ensures Loses(s, Expire)
  {
    ExpireLoses(s);
    hide Expired, Loses;
  }

  lemma ClosesBy(s: State, l: Step, n: State)
    requires Keeps(s, l, n) && n.worker.Closing? && !s.worker.Closing?
    ensures l.SendBroken? || l.PollLost? || l.ReceiveLost? || l.Expire? || l.Leave?
  {
  }

  lemma ClosingIsDown(s: State)
    requires Inv(s) && s.connected
    ensures !s.worker.Closing?
  {
    hide Conserved, Coherent, Dated, Ordered, Guarded, Tracked, Down;
  }

  /** Conversely, `connected_` is cleared only because the connection is lost. */
  lemma OnlyLossDisconnects(run: Run, m: nat)
    requires ValidRun(run) && m < |run.steps| && m + 1 < |run.states|
    requires run.states[m].connected && !run.states[m + 1].connected
    ensures Loses(run.states[m], run.steps[m])
  {
    var s, l := run.states[m], run.steps[m];
    InvRun(run, m);
    hide Enabled, Apply, Inv, Keeps;
    EngineConnection.FlagsStep(s, l);
    StepKeeps(s, l);
    ClosingIsDown(s);
    ClosesBy(s, l, Apply(s, l));
    if l.Expire? {
      ExpireCloses(s);
    }
  }
}
