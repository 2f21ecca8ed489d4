/** What the invariant means for the clients of the transport. */
module EngineTheorems {
  import opened Device
  import opened Engine
  import opened EngineInvariant
  import opened EngineRuns
  import opened EngineSteps
  import opened EngineEffects

  // ----- exactly once -----

  /** In every interleaving, a request is in exactly one of: its client thread's hands, a queue, the in-flight
      table, the worker's hands, or resolved; and the worker never sets a promise twice where nothing catches it. */
  lemma ExactlyOnePlace(run: Run, k: nat, r: Request)
    requires ValidRun(run) && k < |run.states|
    ensures var s := run.states[k];
            && !s.broken
            && Places(s.calls, s.queue, s.priorityQueue, s.inFlight, Held(s.worker), s.resolved, r) ==
                 Count(r in s.submitted)
  {
    InvRun(run, k);
    hide Linked, Coherent, Dated, Ordered, ValidRun;
  }

  lemma ResolvedStays(s: State, l: Step, r: Request)
    requires Enabled(s, l) && r in s.resolved
    ensures var n := Apply(s, l); r in n.resolved && n.resolved[r] == s.resolved[r]
  {
    hide Enabled, Apply;
    StepEvolves(s, l);
  }

  /** The first resolution of a request is final. */
  lemma {:induction false} FirstResolutionStands(run: Run, i: nat, j: nat, r: Request)
    requires ValidRun(run) && i <= j < |run.states| && r in run.states[i].resolved
    ensures r in run.states[j].resolved && run.states[j].resolved[r] == run.states[i].resolved[r]
    decreases j - i
  {
    if i < j {
      ResolvedStays(run.states[i], run.steps[i], r);
      FirstResolutionStands(run, i + 1, j, r);
    }
  }

  /** Once the worker has left `run`, every request whose `command` call has returned is resolved. */
  lemma ResolvedAtExit(run: Run, k: nat, r: Request)
    requires ValidRun(run) && k < |run.states| && run.states[k].worker == Exited
    requires r in run.states[k].submitted && !WithClient(run.states[k].calls, r)
    ensures r in run.states[k].resolved
  {
    InvRun(run, k);
    ExactlyOnePlace(run, k, r);
    hide Conserved, Coherent, Dated, Ordered, ValidRun;
  }

  /** Only clients' calls and the environment move when there is no worker. */
  lemma WithoutWorker(s: State, l: Step)
    requires Enabled(s, l) && s.worker == Exited && !l.Start?
    ensures l.Stop? || l.Tick? || l.Submit? || l.CallLock? || l.CallUnlock? || l.CallFail?
  {
  }

  lemma NothingSeen(s: State)
    requires Inv(s) && s.worker == Exited && s.mutex.Owned?
    ensures !s.mutex.sawConnected
  {
    hide Conserved, Coherent, Dated, Ordered, Tracked, Down;
  }

  /** `r` has not been accepted, and if it is resolved, then as failed. */
  predicate Rejected(s: State, r: Request) {
    s.worker == Exited && r !in s.acceptedOn && (r in s.resolved ==> s.resolved[r] == FAILED)
  }

  lemma UnlockRejected(s: State, q: Request, r: Request)
    requires Rejected(s, r) && s.mutex.Owned? && !s.mutex.sawConnected
    ensures Rejected(CallUnlocked(s, q), r)
  {
    hide Enqueue;
  }

  lemma FailureRejected(s: State, resolved: map<Request, Reply>, settled: seq<Request>, r: Request)
    requires Rejected(s, r) && (r in resolved ==> resolved[r] == FAILED)
    ensures Rejected(s.(resolved := resolved, settled := settled), r)
  {
  }

  lemma FailureStays(s: State, q: Request, r: Request)
    requires Rejected(s, r)
    ensures var resolved := s.resolved[q := FAILED]; r in resolved ==> resolved[r] == FAILED
  {
  }

  lemma ResolveRejected(s: State, q: Request, r: Request)
    requires Rejected(s, r)
    ensures Rejected(Resolve(s, q, FAILED), r)
  {
    FailureStays(s, q, r);
    hide Rejected;
    var settled := if q in s.acceptedOn && !q.priority then s.settled + [q] else s.settled;
    FailureRejected(s, s.resolved[q := FAILED], settled, r);
  }

  lemma ReturnRejected(s: State, calls: map<Request, Call>, r: Request)
    requires Rejected(s, r)
    ensures Rejected(s.(calls := calls), r)
  {
  }

  lemma FailRejected(s: State, q: Request, r: Request)
    requires Rejected(s, r)
    ensures Rejected(CallFailed(s, q), r)
  {
    hide Rejected, Resolve;
    ResolveRejected(s, q, r);
    ReturnRejected(Resolve(s, q, FAILED), s.calls[q := Returned], r);
  }

  lemma CallsRejected(s: State, l: Step, r: Request)
    requires Enabled(s, l) && Rejected(s, r) && (s.mutex.Owned? ==> !s.mutex.sawConnected)
    requires l.CallUnlock? || l.CallFail?
    ensures Rejected(Apply(s, l), r)
  {
    hide Rejected, CallUnlocked, CallFailed;
    if l.CallUnlock? {
      UnlockRejected(s, l.request, r);
    } else {
      FailRejected(s, l.request, r);
    }
  }

  lemma ExitedStep(s: State, l: Step, r: Request)
    requires Inv(s) && Enabled(s, l) && !l.Start? && Rejected(s, r)
    ensures Rejected(Apply(s, l), r)
  {
    WithoutWorker(s, l);
    if s.mutex.Owned? {
      NothingSeen(s);
    }
    hide Inv;
    if l.CallUnlock? || l.CallFail? {
      CallsRejected(s, l, r);
    }
  }

  lemma AcceptedInQueues(s: State, r: Request)
    requires Inv(s) && r !in s.acceptedOn
    ensures r !in s.queue && r !in s.priorityQueue && !InFlight(s.inFlight, r) && r !in Held(s.worker)
  {
    hide Conserved, Linked, Coherent, Ordered, Guarded, Tracked, Down;
  }

  lemma RejectedAtFirst(s: State, r: Request)
    requires s.worker == Exited && r !in s.acceptedOn && r !in s.resolved
    ensures Rejected(s, r)
  {
  }

  lemma RejectedNext(run: Run, k: nat, r: Request)
    requires ValidRun(run) && k < |run.steps| && !run.steps[k].Start? && Rejected(run.states[k], r)
    ensures Rejected(run.states[k + 1], r)
  {
    InvRun(run, k);
    hide Enabled, Apply, Inv, Rejected;
    ExitedStep(run.states[k], run.steps[k], r);
  }

  lemma {:induction false} NotAcceptedLater(run: Run, i: nat, k: nat, r: Request)
    requires ValidRun(run) && i <= k <= |run.steps| < |run.states| && Rejected(run.states[i], r)
    requires forall m :: i <= m < k ==> !run.steps[m].Start?
    ensures Rejected(run.states[k], r)
    decreases k
  {
    hide ValidRun, Rejected;
    if i < k {
      NotAcceptedLater(run, i, k - 1, r);
      RejectedNext(run, k - 1, r);
    }
  }

  /** A request that was not accepted before the worker ended never is, in any interleaving of calls, unless the
      transport is started again: it enters no queue, and it can only be resolved as failed. */
  lemma LaterCallsFail(run: Run, i: nat, k: nat, r: Request)
    requires ValidRun(run) && i <= k < |run.states| && run.states[i].worker == Exited
    requires forall m :: i <= m < k ==> !run.steps[m].Start?
    requires r !in run.states[i].acceptedOn && r !in run.states[i].resolved
    ensures var s := run.states[k];
            && r !in s.queue && r !in s.priorityQueue && !InFlight(s.inFlight, r)
            && (r in s.resolved ==> s.resolved[r] == FAILED)
  {
    RejectedAtFirst(run.states[i], r);
    NotAcceptedLater(run, i, k, r);
    InvRun(run, k);
    hide ValidRun, Inv;
    AcceptedInQueues(run.states[k], r);
  }

  // ----- generations -----

  /** Whatever is transmitted on a connection was accepted, or queued by the worker, on that connection; and a
      request that was answered had been accepted no earlier than it was made. */
  lemma NothingSurvivesAConnection(run: Run, k: nat)
    requires ValidRun(run) && k < |run.states|
    ensures var s := run.states[k];
            && (forall t :: t in s.transmitted ==>
                  t.request in s.acceptedOn && s.acceptedOn[t.request] == t.generation && t.request.createdOn <=
                    t.generation)
            && (forall r :: r in s.resolved && Success(s.resolved[r]) ==>
                  r in s.acceptedOn && r.createdOn <= s.acceptedOn[r] <= Generation(s))
  {
    InvRun(run, k);
    hide Conserved, Coherent, Ordered, ValidRun, Linked;
  }

  lemma GenerationStep(s: State, l: Step)
    requires Enabled(s, l)
    ensures var n := Apply(s, l);
            && Generation(n) == (if l.Connect? then Generation(s) + 1 else Generation(s))
            && (n.device.connected && !s.device.connected ==> l.Connect?)
  {
    hide Enabled, Apply;
    StepEvolves(s, l);
  }

  /** Generations never fall, and a connection that is up at the end of a stretch of one generation was up all
      through it. */
  lemma {:induction false} ConnectionUnbroken(run: Run, i: nat, k: nat, j: nat)
    requires ValidRun(run) && i <= k <= j < |run.states|
    ensures Generation(run.states[i]) <= Generation(run.states[j])
    ensures Generation(run.states[i]) == Generation(run.states[j]) && run.states[j].device.connected ==>
              run.states[k].device.connected && Generation(run.states[k]) == Generation(run.states[j])
    decreases j - i
  {
    hide Enabled, Apply;
    if i < j {
      if k < j {
        GenerationStep(run.states[j - 1], run.steps[j - 1]);
        ConnectionUnbroken(run, i, k, j - 1);
      } else {
        GenerationStep(run.states[i], run.steps[i]);
        ConnectionUnbroken(run, i + 1, k, j);
      }
    }
  }

  /** The published flags are the decoded system state, and all are clear without a connection. */
  lemma PublishedStateCoherent(run: Run, k: nat)
    requires ValidRun(run) && k < |run.states|
    ensures var d := run.states[k].device;
            && (d.referenced <==> d.systemState & SYSTEM_REFERENCED != 0)
            && (d.moving <==> d.systemState & SYSTEM_MOVING != 0)
            && (d.stalled <==> d.systemState & SYSTEM_BLOCKED_MINUS != 0 || d.systemState & SYSTEM_BLOCKED_PLUS != 0)
            && (!d.connected ==> !d.referenced && !d.moving && !d.stalled && d.systemState == 0)
  {
    InvRun(run, k);
    hide Conserved, Dated, Ordered, ValidRun, Linked;
  }

  // ----- order -----

  /** A first-in first-out server: requests enter at the tail and only the head is completed. */
  datatype Fifo = Fifo(pending: seq<Request>, done: seq<Request>)

  predicate FifoStep(f: Fifo, g: Fifo) {
    || (f.pending <= g.pending && g.done == f.done)
    || (f.pending != [] && g == Fifo(f.pending[1..], f.done + [f.pending[0]]))
  }

  function View(s: State): Fifo { Fifo(Pending(s), s.settled) }

  lemma AcceptedInTwoParts(s: State, n: State)
    requires s.accepted == s.settled + Pending(s) && n.accepted == n.settled + Pending(n)
    requires Logs(s.accepted, s.settled, n.accepted, n.settled)
    ensures FifoStep(View(s), View(n))
  {
    hide Pending;
    var p, q, d := Pending(s), Pending(n), |s.settled|;
    assert p == s.accepted[d..];
    assert q == n.accepted[|n.settled|..];
    if n.settled == s.settled {
      assert p == n.accepted[d..][..|p|];
    } else {
      assert n.settled[d] == n.accepted[d] == p[0];
      assert n.settled == n.settled[..d] + [n.settled[d]] && n.settled[..d] == s.settled;
      assert q == p[1..];
    }
  }

  lemma FifoStepTaken(s: State, l: Step)
    requires Inv(s) && Enabled(s, l)
    ensures FifoStep(View(s), View(Apply(s, l)))
  {
    var n := Apply(s, l);
    InvStep(s, l);
    StepEvolves(s, l);
    hide Enabled, Apply, Conserved, Dated, Coherent, Linked, OneServed;
    AcceptedInTwoParts(s, n);
  }

  /** The engine refines the server: every step of every run enqueues ordinary requests, completes the oldest one, or
      leaves the server alone. */
  lemma RefinesFifo(run: Run, k: nat)
    requires ValidRun(run) && k < |run.steps|
    ensures FifoStep(View(run.states[k]), View(run.states[k + 1]))
  {
    InvRun(run, k);
    hide Enabled, Apply, Inv, FifoStep, View;
    FifoStepTaken(run.states[k], run.steps[k]);
  }

  /** Ordinary requests are resolved in the order in which they were accepted. */
  lemma ResolvedInOrder(run: Run, k: nat)
    requires ValidRun(run) && k < |run.states|
    ensures run.states[k].settled <= run.states[k].accepted
  {
    InvRun(run, k);
    hide Conserved, Dated, Coherent, ValidRun, Linked;
  }

  lemma LaunchPuts(s: State, queue: seq<Request>, priorityQueue: seq<Request>, serving: seq<Request>, r: Request)
    ensures var n := Launched(s.(queue := queue, priorityQueue := priorityQueue, serving := serving), r);
            n.queue == queue && n.worker == Sending(r) && n.inFlight == s.inFlight[r.id := r]
  {
  }

  lemma DispatchPuts(s: State)
    ensures s.priorityQueue != [] ==>
              var n := Launched(s.(priorityQueue := s.priorityQueue[1..]), s.priorityQueue[0]);
              && n.queue == s.queue && n.worker == Sending(s.priorityQueue[0])
              && n.inFlight == s.inFlight[s.priorityQueue[0].id := s.priorityQueue[0]]
    ensures s.queue != [] ==>
              var n := Launched(s.(queue := s.queue[1..], serving := [s.queue[0]]), s.queue[0]);
              && n.worker == Sending(s.queue[0]) && n.inFlight == s.inFlight[s.queue[0].id := s.queue[0]]
  {
    hide Launched;
    if s.priorityQueue != [] {
      LaunchPuts(s, s.queue, s.priorityQueue[1..], s.serving, s.priorityQueue[0]);
    }
    if s.queue != [] {
      LaunchPuts(s, s.queue[1..], s.priorityQueue, [s.queue[0]], s.queue[0]);
    }
  }

  lemma PriorityWaits(s: State)
    requires Conserved(s) && s.priorityQueue != []
    ensures s.priorityQueue[0].priority
  {
    HeadLeaves(s, s.priorityQueue[0]);
  }

  lemma DispatchFollows(s: State)
    requires Inv(s) && s.worker == Dispatching
    requires Dispatched(s).worker.Sending? && !Dispatched(s).worker.request.priority
    ensures s.settled + [Dispatched(s).worker.request] <= s.accepted
  {
    hide Conserved, Dated, Coherent, Linked, Launched;
    DispatchPuts(s);
    if s.priorityQueue != [] {
      PriorityWaits(s);
    } else {
      ServedIsInFlight(s.serving, s.inFlight);
      assert s.accepted == s.settled + ([] + [] + s.queue);
    }
  }

  lemma DispatchTaken(run: Run, k: nat)
    requires ValidRun(run) && k < |run.steps| && run.steps[k].Dispatch?
    ensures run.states[k].worker == Dispatching && run.states[k + 1] == Dispatched(run.states[k])
  {
    hide Dispatched;
    assert Enabled(run.states[k], run.steps[k]);
  }

  /** An ordinary request is dispatched only when every ordinary request accepted before it is resolved. */
  lemma DispatchedInOrder(run: Run, k: nat)
    requires ValidRun(run) && k < |run.steps| && run.steps[k].Dispatch?
    ensures var s, w := run.states[k], run.states[k + 1].worker;
            w.Sending? && !w.request.priority ==> s.settled + [w.request] <= s.accepted
  {
    InvRun(run, k);
    DispatchTaken(run, k);
    hide ValidRun, Inv, Dispatched;
    var w := run.states[k + 1].worker;
    if w.Sending? && !w.request.priority {
      DispatchFollows(run.states[k]);
    }
  }

  // ----- what is in flight -----

  /** The in-flight table is keyed by command id and holds at most one ordinary request. */
  lemma InFlightDiscipline(run: Run, k: nat, id: Id, id': Id)
    requires ValidRun(run) && k < |run.states|
    requires id in run.states[k].inFlight && id' in run.states[k].inFlight
    ensures var s := run.states[k];
            && s.inFlight[id].id == id
            && (!s.inFlight[id].priority && !s.inFlight[id'].priority ==> id == id')
  {
    InvRun(run, k);
    hide Dated, Coherent, ValidRun, Linked;
  }

  /** Dispatching never replaces an entry of the in-flight table. */
  lemma NothingOverwritten(s: State, id: Id)
    requires id in s.inFlight
    ensures id in Dispatched(s).inFlight && Dispatched(s).inFlight[id] == s.inFlight[id]
  {
    hide Launched;
    DispatchPuts(s);
  }

  lemma ServingOnlyShrinks(s: State, l: Step)
    requires Enabled(s, l) && s.priorityQueue != []
    ensures forall q :: q in Apply(s, l).serving ==> q in s.serving
  {
    hide Enabled, Apply;
    StepEvolves(s, l);
  }

  /** From the acceptance of a priority request until it leaves its queue, no ordinary request enters flight. */
  lemma {:induction false} PriorityNeverOvertaken(run: Run, i: nat, j: nat, r: Request)
    requires ValidRun(run) && i <= j < |run.states|
    requires forall k :: i <= k < j ==> r in run.states[k].priorityQueue
    ensures forall q :: q in run.states[j].serving ==> q in run.states[i].serving
    decreases j - i
  {
    hide Enabled, Apply;
    if i < j {
      ServingOnlyShrinks(run.states[j - 1], run.steps[j - 1]);
      PriorityNeverOvertaken(run, i, j - 1, r);
    }
  }
}
