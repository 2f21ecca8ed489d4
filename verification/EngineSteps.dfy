/** The invariant of the request engine is inductive: one lemma for each effect a step can have. */
module EngineSteps {
  import opened Crc
  import opened Device
  import opened Engine
  import opened EngineInvariant

  lemma InitialState(maxPayload: nat)
    ensures Inv(Initially(maxPayload))
  {
    TransitionsStayCoherent(INITIAL_STATE);
  }

  // ----- steps that leave the containers alone -----

  /** `s` with the fields that such a step may change. */
  function Adjust(s: State, running: bool, connected: bool, socket: bool, device: DeviceState, w: Worker,
                  deadline: map<Request, nat>, clock: nat, transmitted: seq<Transmission>, sampled: nat): State
  {
    s.(running := running, connected := connected, socket := socket, device := device, worker := w,
       deadline := deadline, clock := clock, transmitted := transmitted, sampled := sampled)
  }

  lemma InvQuiet(s: State, running: bool, connected: bool, socket: bool, device: DeviceState, w: Worker,
                 deadline: map<Request, nat>, clock: nat, transmitted: seq<Transmission>, sampled: nat)
    requires Inv(s) && Held(w) == Held(s.worker)
    requires device.connectionGeneration == Generation(s) && Coherent(device)
    requires SentWhenAccepted(transmitted, s.acceptedOn)
    requires Linked(w, running, connected, socket, device.connected)
    requires Down(w, socket) ==> Empty(s)
    requires Guarded(s.mutex, s.calls, connected, w)
    requires Tracked(w, s.inFlight, s.resolved)
    ensures Inv(Adjust(s, running, connected, socket, device, w, deadline, clock, transmitted, sampled))
  {
    hide Partition, Linked, Coherent, Down, Guarded, Tracked;
    hide Since, SinceFlight, SentWhenAccepted, AcceptedLater, AcceptedLeftClient, AnsweredWereAccepted;
    hide Ordinary, OneServed;
  }

  // ----- moving requests between places -----

  lemma PopMembers(rs: seq<Request>)
    requires rs != [] && NoDup(rs)
    ensures NoDup(rs[1..])
    ensures forall r :: r in rs[1..] <==> r in rs && r != rs[0]
  {
    forall r
      ensures r in rs[1..] <==> r in rs && r != rs[0]
    {
      if r in rs && r != rs[0] {
        var i :| 0 <= i < |rs| && rs[i] == r;
        assert rs[1..][i - 1] == r;
      }
    }
  }

  lemma OnePlace(s: State, r: Request)
    requires Conserved(s)
    ensures Places(s.calls, s.queue, s.priorityQueue, s.inFlight, Held(s.worker), s.resolved, r) ==
            Count(r in s.submitted)
  {
  }

  lemma OnlyWithClient(s: State, r: Request)
    requires Conserved(s) && AcceptedLeftClient(s.acceptedOn, s.calls) && WithClient(s.calls, r)
    ensures r in s.submitted && r !in s.acceptedOn && r !in s.resolved
    ensures r !in s.queue && r !in s.priorityQueue && !InFlight(s.inFlight, r) && r !in Held(s.worker)
  {
    OnePlace(s, r);
  }

  /** What changes for the places when only the places of `r0` change. */
  lemma PartitionMoves(s: State, n: State, r0: Request)
    requires Conserved(s)
    requires forall r :: r != r0 ==> (WithClient(n.calls, r) <==> WithClient(s.calls, r))
    requires forall r :: r != r0 ==> (r in n.queue <==> r in s.queue)
    requires forall r :: r != r0 ==> (r in n.priorityQueue <==> r in s.priorityQueue)
    requires forall r :: r != r0 ==> (InFlight(n.inFlight, r) <==> InFlight(s.inFlight, r))
    requires forall r :: r != r0 ==> (r in Held(n.worker) <==> r in Held(s.worker))
    requires forall r :: r != r0 ==> (r in n.resolved <==> r in s.resolved)
    requires n.submitted == s.submitted + {r0}
    requires Places(n.calls, n.queue, n.priorityQueue, n.inFlight, Held(n.worker), n.resolved, r0) == 1
    requires NoDup(n.queue) && NoDup(n.priorityQueue) && NoDup(Held(n.worker))
    requires forall id :: id in n.inFlight ==> n.inFlight[id].id == id
    requires forall r :: r in n.queue ==> !r.priority
    requires forall r :: r in n.priorityQueue ==> r.priority
    ensures Conserved(n)
  {
    forall r
      ensures Places(n.calls, n.queue, n.priorityQueue, n.inFlight, Held(n.worker), n.resolved, r) ==
              Count(r in n.submitted)
    {
      if r != r0 {
        OnePlace(s, r);
      }
    }
  }

  // ----- client threads -----

  lemma ConservedSubmitted(s: State, r: Request)
    requires Conserved(s) && r !in s.submitted
    ensures Conserved(Submitted(s, r))
  {
    OnePlace(s, r);
    PartitionMoves(s, Submitted(s, r), r);
  }

  lemma InvSubmitted(s: State, r: Request)
    requires Inv(s) && r !in s.submitted && r.createdOn == Generation(s)
    ensures Inv(Submitted(s, r))
  {
    ConservedSubmitted(s, r);
    if s.mutex.Owned? {
      OnePlace(s, s.mutex.owner);
    }
    hide Partition, Linked, Coherent, Down, Tracked;
    hide Since, SinceFlight, SentWhenAccepted, AnsweredWereAccepted, Ordinary, OneServed;
  }

  lemma ConservedCalls(s: State, m: Mutex, r: Request, c: Call)
    requires Conserved(s) && WithClient(s.calls, r) && c != Returned
    ensures Conserved(s.(mutex := m, calls := s.calls[r := c]))
  {
    OnePlace(s, r);
    PartitionMoves(s, s.(mutex := m, calls := s.calls[r := c]), r);
  }

  lemma InvCallLocked(s: State, r: Request)
    requires Inv(s) && IsCall(s, r, Created) && s.mutex == Free
    ensures Inv(CallLocked(s, r))
  {
    hide Partition, Linked, Coherent, Down, Tracked;
    hide Since, SinceFlight, SentWhenAccepted, AcceptedLater, AnsweredWereAccepted, Ordinary, OneServed;
    ConservedCalls(s, Owned(r, s.connected), r, Locked);
  }

  lemma ConservedPrioritized(s: State, r: Request)
    requires Conserved(s) && WithClient(s.calls, r) && r.priority
    ensures Conserved(Enqueue(s, r).(mutex := Free, calls := s.calls[r := Returned]))
  {
    var n := Enqueue(s, r).(mutex := Free, calls := s.calls[r := Returned]);
    OnePlace(s, r);
    assert forall q :: q in n.priorityQueue <==> q in s.priorityQueue || q == r;
    PartitionMoves(s, n, r);
  }

  lemma ConservedQueued(s: State, r: Request)
    requires Conserved(s) && WithClient(s.calls, r) && !r.priority
    ensures Conserved(Enqueue(s, r).(mutex := Free, calls := s.calls[r := Returned]))
  {
    var n := Enqueue(s, r).(mutex := Free, calls := s.calls[r := Returned]);
    OnePlace(s, r);
    assert forall q :: q in n.queue <==> q in s.queue || q == r;
    PartitionMoves(s, n, r);
  }

  /** `later` knows every acceptance that `earlier` knows. */
  predicate Extends(earlier: map<Request, nat>, later: map<Request, nat>) {
    forall r :: r in earlier ==> r in later && later[r] == earlier[r]
  }

  lemma DatedExtends(s: State, later: map<Request, nat>)
    requires Dated(s) && Extends(s.acceptedOn, later)
    ensures Since(s.queue, later, Generation(s)) && Since(s.priorityQueue, later, Generation(s))
    ensures Since(Held(s.worker), later, Generation(s)) && SinceFlight(s.inFlight, later, Generation(s))
    ensures SentWhenAccepted(s.transmitted, later) && AnsweredWereAccepted(s.resolved, later)
  {
    hide AcceptedLater, AcceptedLeftClient;
  }

  lemma SinceAppend(rs: seq<Request>, ts: seq<Request>, acceptedOn: map<Request, nat>, generation: nat)
    requires Since(rs, acceptedOn, generation) && Since(ts, acceptedOn, generation)
    ensures Since(rs + ts, acceptedOn, generation)
  {
  }

  lemma DatedEnqueued(s: State, r: Request)
    requires Dated(s) && r in s.submitted && r !in s.acceptedOn
    ensures Dated(Enqueue(s, r).(mutex := Free, calls := s.calls[r := Returned]))
  {
    var later := s.acceptedOn[r := Generation(s)];
    DatedExtends(s, later);
    assert Since([r], later, Generation(s));
    SinceAppend(s.queue, [r], later, Generation(s));
    SinceAppend(s.priorityQueue, [r], later, Generation(s));
    assert AcceptedLater(later, s.submitted, Generation(s));
    assert AcceptedLeftClient(later, s.calls[r := Returned]);
    hide Since, SinceFlight, SentWhenAccepted, AcceptedLater, AcceptedLeftClient, AnsweredWereAccepted;
  }

  lemma OrderedEnqueued(s: State, r: Request)
    requires Ordered(s)
    ensures Ordered(Enqueue(s, r).(mutex := Free, calls := s.calls[r := Returned]))
  {
    hide Ordinary, OneServed;
    if !r.priority {
      assert s.accepted + [r] == s.settled + (Ordinary(Held(s.worker)) + s.serving + (s.queue + [r]));
    }
  }

  lemma NotDown(s: State, r: Request)
    requires Inv(s) && s.mutex == Owned(r, true)
    ensures !Down(s.worker, s.socket)
  {
    hide Conserved, Dated, Ordered;
  }

  lemma InvEnqueued(s: State, r: Request)
    requires Inv(s) && s.mutex == Owned(r, true) && IsCall(s, r, Locked)
    ensures Inv(CallUnlocked(s, r))
  {
    OnlyWithClient(s, r);
    if r.priority { ConservedPrioritized(s, r); } else { ConservedQueued(s, r); }
    DatedEnqueued(s, r);
    OrderedEnqueued(s, r);
    NotDown(s, r);
    hide Conserved, Linked, Coherent, Down, Empty, Tracked, Dated, Ordered;
  }

  lemma InvUnqueued(s: State, r: Request)
    requires Inv(s) && s.mutex == Owned(r, false) && IsCall(s, r, Locked)
    ensures Inv(CallUnlocked(s, r))
  {
    hide Partition, Linked, Coherent, Down, Tracked;
    hide Since, SinceFlight, SentWhenAccepted, AcceptedLater, AnsweredWereAccepted, Ordinary, OneServed;
    ConservedCalls(s, Free, r, Unqueued);
  }

  lemma ConservedCallFailed(s: State, r: Request)
    requires Conserved(s) && WithClient(s.calls, r) && r !in s.resolved
    ensures Conserved(CallFailed(s, r))
  {
    OnePlace(s, r);
    PartitionMoves(s, CallFailed(s, r), r);
  }

  lemma TrackedResolved(w: Worker, flight: map<Id, Request>, resolved: map<Request, Reply>, r: Request, reply: Reply)
    requires Tracked(w, flight, resolved)
    ensures Tracked(w, flight, resolved[r := reply])
  {
  }

  lemma FailuresAreNoAnswers(resolved: map<Request, Reply>, r: Request, acceptedOn: map<Request, nat>)
    requires AnsweredWereAccepted(resolved, acceptedOn)
    ensures AnsweredWereAccepted(resolved[r := FAILED], acceptedOn)
  {
  }

  lemma InvCallFailed(s: State, r: Request)
    requires Inv(s) && IsCall(s, r, Unqueued)
    ensures Inv(CallFailed(s, r))
  {
    hide Conserved, Linked, Coherent, Down, Tracked;
    hide Since, SinceFlight, SentWhenAccepted, AcceptedLater, AnsweredWereAccepted, Ordinary, OneServed;
    OnlyWithClient(s, r);
    ConservedCallFailed(s, r);
    TrackedResolved(s.worker, s.inFlight, s.resolved, r, FAILED);
    FailuresAreNoAnswers(s.resolved, r, s.acceptedOn);
  }

  // ----- dispatching -----

  lemma ConservedLaunched(s: State, t: State, r0: Request)
    requires Conserved(s) && s.worker == Dispatching && r0.id !in s.inFlight
    requires t.calls == s.calls && t.inFlight == s.inFlight && t.resolved == s.resolved && t.submitted == s.submitted
    requires NoDup(t.queue) && NoDup(t.priorityQueue)
    requires forall r :: r in t.queue <==> r in s.queue && r != r0
    requires forall r :: r in t.priorityQueue <==> r in s.priorityQueue && r != r0
    requires r0 in s.queue || r0 in s.priorityQueue
    ensures Conserved(Launched(t, r0))
  {
    OnePlace(s, r0);
    PartitionMoves(s, Launched(t, r0), r0);
  }

  lemma HeadLeaves(s: State, r: Request)
    requires Conserved(s) && (r in s.queue || r in s.priorityQueue)
    ensures r in s.submitted
    ensures r in s.queue ==> r !in s.priorityQueue && !r.priority
    ensures r in s.priorityQueue ==> r !in s.queue && r.priority
    ensures NoDup(s.queue) && NoDup(s.priorityQueue)
  {
    OnePlace(s, r);
  }

  lemma SincePart(rs: seq<Request>, part: seq<Request>, acceptedOn: map<Request, nat>, generation: nat)
    requires Since(rs, acceptedOn, generation)
    requires forall r :: r in part ==> r in rs
    ensures Since(part, acceptedOn, generation)
  {
  }

  lemma SinceLaunched(flight: map<Id, Request>, r: Request, acceptedOn: map<Request, nat>, generation: nat)
    requires SinceFlight(flight, acceptedOn, generation)
    requires r in acceptedOn && acceptedOn[r] == generation
    ensures SinceFlight(flight[r.id := r], acceptedOn, generation)
  {
  }

  lemma DatedLaunched(s: State, r: Request)
    requires Dated(s) && s.worker == Dispatching
    requires r in s.queue || r in s.priorityQueue
    ensures SinceFlight(s.inFlight[r.id := r], s.acceptedOn, Generation(s))
  {
    SinceLaunched(s.inFlight, r, s.acceptedOn, Generation(s));
  }

  lemma OrderedPriorityLaunch(s: State, r: Request)
    requires Ordered(s) && r.priority && r.id !in s.inFlight
    ensures OneServed(s.serving, s.inFlight[r.id := r])
  {
  }

  lemma PriorityLeaves(s: State)
    requires Conserved(s) && s.worker == Dispatching
    requires s.priorityQueue != [] && s.priorityQueue[0].id !in s.inFlight
    ensures Conserved(Launched(s.(priorityQueue := s.priorityQueue[1..]), s.priorityQueue[0]))
  {
    hide Conserved;
    HeadLeaves(s, s.priorityQueue[0]);
    PopMembers(s.priorityQueue);
    ConservedLaunched(s, s.(priorityQueue := s.priorityQueue[1..]), s.priorityQueue[0]);
  }

  lemma InvPriorityLaunch(s: State)
    requires Inv(s) && s.worker == Dispatching
    requires s.priorityQueue != [] && s.priorityQueue[0].id !in s.inFlight
    ensures Inv(Launched(s.(priorityQueue := s.priorityQueue[1..]), s.priorityQueue[0]))
  {
    hide Conserved, Coherent, Since, SinceFlight, SentWhenAccepted, AcceptedLater, AcceptedLeftClient,
        AnsweredWereAccepted, OneServed, Ordinary, NoDup;
    var r := s.priorityQueue[0];
    HeadLeaves(s, r);
    PriorityLeaves(s);
    DatedLaunched(s, r);
    SincePart(s.priorityQueue, s.priorityQueue[1..], s.acceptedOn, Generation(s));
    OrderedPriorityLaunch(s, r);
  }

  lemma ServedIsInFlight(serving: seq<Request>, flight: map<Id, Request>)
    requires OneServed(serving, flight)
    ensures serving != [] ==> InFlight(flight, serving[0])
  {
    if serving != [] {
      assert serving[0] in serving;
    }
  }

  lemma OrderedOrdinaryLaunch(s: State)
    requires Ordered(s) && s.worker == Dispatching && s.inFlight == map[]
    requires s.queue != [] && !s.queue[0].priority
    ensures var r := s.queue[0];
            OneServed([r], s.inFlight[r.id := r]) && s.accepted == s.settled + ([] + [r] + s.queue[1..])
  {
    ServedIsInFlight(s.serving, s.inFlight);
    assert s.queue == [s.queue[0]] + s.queue[1..];
  }

  lemma OrdinaryLeaves(s: State)
    requires Conserved(s) && s.worker == Dispatching && s.queue != [] && s.inFlight == map[]
    ensures Conserved(Launched(s.(queue := s.queue[1..], serving := [s.queue[0]]), s.queue[0]))
  {
    hide Conserved;
    HeadLeaves(s, s.queue[0]);
    PopMembers(s.queue);
    ConservedLaunched(s, s.(queue := s.queue[1..], serving := [s.queue[0]]), s.queue[0]);
  }

  lemma InvOrdinaryLaunch(s: State)
    requires Inv(s) && s.worker == Dispatching
    requires s.inFlight == map[] && s.queue != []
    ensures Inv(Launched(s.(queue := s.queue[1..], serving := [s.queue[0]]), s.queue[0]))
  {
    hide Conserved, Coherent, Since, SinceFlight, SentWhenAccepted, AcceptedLater, AcceptedLeftClient,
        AnsweredWereAccepted, OneServed, NoDup;
    var r := s.queue[0];
    HeadLeaves(s, r);
    OrdinaryLeaves(s);
    DatedLaunched(s, r);
    SincePart(s.queue, s.queue[1..], s.acceptedOn, Generation(s));
    OrderedOrdinaryLaunch(s);
  }

  /** A step that only moves the worker. */
  lemma InvWorker(s: State, w: Worker)
    requires Inv(s) && Held(w) == Held(s.worker)
    requires Linked(w, s.running, s.connected, s.socket, s.device.connected)
    requires Down(w, s.socket) ==> Empty(s)
    requires Guarded(s.mutex, s.calls, s.connected, w)
    requires Tracked(w, s.inFlight, s.resolved)
    ensures Inv(s.(worker := w))
  {
    hide Partition, Linked, Coherent, Down, Guarded, Tracked;
    hide Since, SinceFlight, SentWhenAccepted, AcceptedLater, AcceptedLeftClient, AnsweredWereAccepted;
    hide Ordinary, OneServed;
  }

  lemma InvDispatched(s: State)
    requires Inv(s) && s.worker == Dispatching
    ensures Inv(Dispatched(s))
  {
    hide Partition, Coherent, Dated, Ordered, Launched;
    if s.priorityQueue != [] && s.priorityQueue[0].id !in s.inFlight {
      InvPriorityLaunch(s);
    } else if s.priorityQueue == [] && s.inFlight == map[] && s.queue != [] {
      InvOrdinaryLaunch(s);
    } else {
      InvWorker(s, Polling);
    }
  }

  // ----- resolving -----

  /** A request leaves the containers, or the worker's hands, with a reply. */
  lemma ConservedResolved(s: State, n: State, r0: Request)
    requires Conserved(s) && r0 in s.submitted && r0 !in s.resolved && r0 in n.resolved
    requires n.calls == s.calls && n.queue == s.queue && n.priorityQueue == s.priorityQueue &&
             n.submitted == s.submitted
    requires !WithClient(s.calls, r0) && r0 !in s.queue && r0 !in s.priorityQueue
    requires forall r :: InFlight(n.inFlight, r) <==> InFlight(s.inFlight, r) && r != r0
    requires forall r :: r in Held(n.worker) <==> r in Held(s.worker) && r != r0
    requires forall r :: r in n.resolved <==> r in s.resolved || r == r0
    requires NoDup(Held(n.worker))
    requires forall id :: id in n.inFlight ==> n.inFlight[id].id == id
    ensures Conserved(n)
  {
    PartitionMoves(s, n, r0);
  }

  lemma ConservedSendFailed(s: State, r: Request)
    requires Conserved(s) && s.worker == Failing(r) && InFlight(s.inFlight, r)
    ensures r !in s.resolved && Conserved(SendFailed(s, r))
  {
    OnePlace(s, r);
    ConservedResolved(s, SendFailed(s, r), r);
  }

  lemma DatedRemoved(s: State, r: Request)
    requires Dated(s)
    ensures SinceFlight(s.inFlight - {r.id}, s.acceptedOn, Generation(s))
  {
  }

  /** The ordinary request in flight is the oldest unresolved one. */
  lemma OrderedServedResolved(s: State, r: Request)
    requires Ordered(s) && InFlight(s.inFlight, r) && Held(s.worker) == []
    requires forall id :: id in s.inFlight ==> s.inFlight[id].id == id
    ensures OneServed(if s.serving == [r] then [] else s.serving, s.inFlight - {r.id})
    ensures !r.priority ==> s.serving == [r] && s.accepted == (s.settled + [r]) + ([] + [] + s.queue)
    ensures r.priority ==> s.serving != [r]
  {
    if s.serving == [r] {
      assert r in s.serving;
    }
    if !r.priority {
      assert s.accepted == s.settled + ([] + [r] + s.queue);
    }
  }

  lemma KeyedById(s: State)
    requires Conserved(s)
    ensures forall id :: id in s.inFlight ==> s.inFlight[id].id == id
  {
  }

  lemma FlightAccepted(s: State, r: Request)
    requires Dated(s) && InFlight(s.inFlight, r)
    ensures r in s.acceptedOn
  {
  }

  lemma InvSendFailed(s: State, r: Request)
    requires Inv(s) && s.worker == Failing(r) && InFlight(s.inFlight, r)
    ensures Inv(SendFailed(s, r))
  {
    hide Conserved, Coherent, Since, SinceFlight, SentWhenAccepted, AcceptedLater, AcceptedLeftClient,
        AnsweredWereAccepted, OneServed, NoDup;
    ConservedSendFailed(s, r);
    KeyedById(s);
    DatedRemoved(s, r);
    OrderedServedResolved(s, r);
    FlightAccepted(s, r);
    FailuresAreNoAnswers(s.resolved, r, s.acceptedOn);
    assert s.inFlight != map[];
  }

  /** `disconnect` has resolved the request already: nothing changes but the worker's place. */
  lemma InvSendFailedLate(s: State, r: Request)
    requires Inv(s) && s.worker == Failing(r) && r in s.resolved && s.inFlight == map[]
    ensures SendFailed(s, r) == s.(worker := Polling)
    ensures Inv(SendFailed(s, r))
  {
    hide Conserved, Coherent, Dated, OneServed;
    ServedIsInFlight(s.serving, s.inFlight);
    assert s.inFlight - {r.id} == s.inFlight;
    InvWorker(s, Polling);
  }

  // ----- replies -----

  lemma ConservedDetached(s: State, r: Request, status: nat, payload: seq<byte>)
    requires Conserved(s) && s.worker.Arrived? && InFlight(s.inFlight, r)
    ensures Conserved(Remove(s, r).(worker := Detached(r, status, payload)))
  {
    OnePlace(s, r);
    PartitionMoves(s, Remove(s, r).(worker := Detached(r, status, payload)), r);
  }

  lemma OrderedDetached(s: State, r: Request)
    requires Ordered(s) && InFlight(s.inFlight, r) && Held(s.worker) == []
    requires forall id :: id in s.inFlight ==> s.inFlight[id].id == id
    ensures s.accepted == s.settled + (Ordinary([r]) + (if s.serving == [r] then [] else s.serving) + s.queue)
  {
    OrderedServedResolved(s, r);
    assert [r][1..] == [];
    assert Ordinary([r]) == if r.priority then [] else [r];
    if r.priority {
      assert [] + s.serving + s.queue == Ordinary([r]) + s.serving + s.queue;
    } else {
      assert (s.settled + [r]) + ([] + [] + s.queue) == s.settled + (Ordinary([r]) + [] + s.queue);
    }
  }

  lemma DetachedIsDated(s: State, r: Request)
    requires Dated(s) && InFlight(s.inFlight, r)
    ensures Since([r], s.acceptedOn, Generation(s))
  {
  }

  lemma InvDetached(s: State, r: Request, status: nat, payload: seq<byte>)
    requires Inv(s) && s.worker.Arrived? && InFlight(s.inFlight, r)
    ensures Inv(Remove(s, r).(worker := Detached(r, status, payload)))
  {
    hide Conserved, Coherent, Since, SinceFlight, SentWhenAccepted, AcceptedLater, AcceptedLeftClient,
        AnsweredWereAccepted, OneServed, Ordinary, NoDup;
    ConservedDetached(s, r, status, payload);
    KeyedById(s);
    DatedRemoved(s, r);
    OrderedServedResolved(s, r);
    OrderedDetached(s, r);
    DetachedIsDated(s, r);
  }

  lemma InvPostponed(s: State, deadline: map<Request, nat>)
    requires Inv(s) && s.worker.Arrived?
    ensures Inv(s.(deadline := deadline, worker := Parsing))
  {
    assert SentWhenAccepted(s.transmitted, s.acceptedOn);
    hide Conserved, Coherent, Dated, Ordered;
    InvQuiet(s, s.running, s.connected, s.socket, s.device, Parsing, deadline, s.clock, s.transmitted, s.sampled);
  }

  lemma InvMissed(s: State)
    requires Inv(s) && s.worker.Arrived?
    ensures Inv(s.(worker := Parsing))
  {
    hide Conserved, Coherent, Dated, Ordered;
    InvWorker(s, Parsing);
  }

  lemma InvLookedUp(s: State, id: Id, status: nat, payload: seq<byte>)
    requires Inv(s) && s.worker == Arrived(id, status, payload)
    ensures Inv(LookedUp(s, id, status, payload))
  {
    assert Conserved(s);
    hide Inv, Conserved;
    if id !in s.inFlight {
      InvMissed(s);
    } else {
      var r := s.inFlight[id];
      KeyedById(s);
      if r.allowPending && status == STATUS_COMMAND_PENDING {
        InvPostponed(s, s.deadline[r := s.clock + r.timeout]);
      } else {
        hide Remove;
        InvDetached(s, r, status, payload);
      }
    }
  }

  lemma ConservedAnswered(s: State, r: Request, reply: Reply)
    requires Conserved(s) && s.worker == Answering(r, reply)
    ensures r !in s.resolved && Conserved(Answered(s, r, reply))
  {
    assert r in Held(s.worker);
    OnePlace(s, r);
    ConservedResolved(s, Answered(s, r, reply), r);
  }

  lemma OrderedHeldResolved(s: State, r: Request, rest: seq<Request>)
    requires Ordered(s) && Held(s.worker) == [r] + rest
    ensures s.accepted == (if r.priority then s.settled else s.settled + [r]) + (Ordinary(rest) + s.serving + s.queue)
  {
    hide OneServed;
    assert ([r] + rest)[1..] == rest;
    if !r.priority {
      assert s.settled + (([r] + Ordinary(rest)) + s.serving + s.queue) ==
             (s.settled + [r]) + (Ordinary(rest) + s.serving + s.queue);
    }
  }

  lemma AnsweredIsAccepted(s: State, r: Request, reply: Reply)
    requires Dated(s) && s.worker == Answering(r, reply)
    ensures r in s.acceptedOn && AnsweredWereAccepted(s.resolved[r := reply], s.acceptedOn)
  {
    assert r in Held(s.worker);
  }

  lemma InvAnswered(s: State, r: Request, reply: Reply)
    requires Inv(s) && s.worker == Answering(r, reply)
    ensures Inv(Answered(s, r, reply))
  {
    hide Conserved, Coherent, SinceFlight, SentWhenAccepted, AcceptedLater, AcceptedLeftClient,
        AnsweredWereAccepted, OneServed, NoDup;
    ConservedAnswered(s, r, reply);
    OrderedHeldResolved(s, r, []);
    AnsweredIsAccepted(s, r, reply);
  }

  // ----- disconnecting -----

  lemma ConservedTaken(s: State, order: seq<Request>, after: After)
    requires Conserved(s) && s.worker.Closed? && Visits(order, s.inFlight)
    ensures Conserved(Taken(s, order, after))
  {
    var n := Taken(s, order, after);
    var all := order + s.queue + s.priorityQueue;
    forall r
      ensures !(r in order && r in s.queue) && !(r in order && r in s.priorityQueue) &&
              !(r in s.queue && r in s.priorityQueue)
    {
      OnePlace(s, r);
    }
    forall r
      ensures Places(n.calls, n.queue, n.priorityQueue, n.inFlight, Held(n.worker), n.resolved, r) ==
              Count(r in n.submitted)
    {
      OnePlace(s, r);
      assert r in all <==> r in order || r in s.queue || r in s.priorityQueue;
    }
  }

  lemma {:induction false} OrdinaryAppend(rs: seq<Request>, ts: seq<Request>)
    ensures Ordinary(rs + ts) == Ordinary(rs) + Ordinary(ts)
    decreases |rs|
  {
    if rs == [] {
      assert rs + ts == ts;
    } else {
      assert (rs + ts)[1..] == rs[1..] + ts;
      OrdinaryAppend(rs[1..], ts);
    }
  }

  lemma {:induction false} OrdinaryAll(rs: seq<Request>)
    ensures (forall r :: r in rs ==> !r.priority) ==> Ordinary(rs) == rs
    ensures (forall r :: r in rs ==> r.priority) ==> Ordinary(rs) == []
    decreases |rs|
  {
    if rs != [] {
      assert rs[0] in rs;
      assert rs == [rs[0]] + rs[1..];
      OrdinaryAll(rs[1..]);
    }
  }

  /** Among the requests in flight the ordinary one is `serving`, wherever `order` puts it. */
  lemma {:induction false} OrdinaryOfFlight(order: seq<Request>, serving: seq<Request>)
    requires NoDup(order) && |serving| <= 1
    requires forall r :: r in order && !r.priority ==> serving == [r]
    requires forall r :: r in serving ==> r in order && !r.priority
    ensures Ordinary(order) == serving
    decreases |order|
  {
    assert serving != [] ==> serving[|serving| - 1] in serving;
    if order != [] {
      PopMembers(order);
      var r := order[0];
      if r.priority {
        OrdinaryOfFlight(order[1..], serving);
      } else {
        assert serving == [r];
        OrdinaryOfFlight(order[1..], []);
      }
    }
  }

  lemma DatedTaken(s: State, order: seq<Request>)
    requires Dated(s) && Visits(order, s.inFlight)
    ensures Since(order + s.queue + s.priorityQueue, s.acceptedOn, Generation(s))
  {
    hide SentWhenAccepted, AcceptedLater, AcceptedLeftClient, AnsweredWereAccepted;
    forall r | r in order
      ensures r in s.acceptedOn && s.acceptedOn[r] == Generation(s)
    {
      assert InFlight(s.inFlight, r);
    }
    SinceAppend(order, s.queue, s.acceptedOn, Generation(s));
    SinceAppend(order + s.queue, s.priorityQueue, s.acceptedOn, Generation(s));
  }

  lemma OrdinaryOfAll(order: seq<Request>, queue: seq<Request>, priorityQueue: seq<Request>, serving: seq<Request>)
    requires Ordinary(order) == serving
    requires forall r :: r in queue ==> !r.priority
    requires forall r :: r in priorityQueue ==> r.priority
    ensures Ordinary(order + queue + priorityQueue) == serving + queue
  {
    hide Ordinary;
    OrdinaryAll(queue);
    OrdinaryAll(priorityQueue);
    OrdinaryAppend(order, queue);
    OrdinaryAppend(order + queue, priorityQueue);
    assert serving + queue + [] == serving + queue;
  }

  lemma ServedAmong(order: seq<Request>, flight: map<Id, Request>, serving: seq<Request>)
    requires OneServed(serving, flight) && Visits(order, flight)
    ensures Ordinary(order) == serving
  {
    forall r | r in order && !r.priority
      ensures serving == [r]
    {
      assert InFlight(flight, r);
    }
    OrdinaryOfFlight(order, serving);
  }

  lemma Regrouped(accepted: seq<Request>, settled: seq<Request>, serving: seq<Request>, queue: seq<Request>,
                  all: seq<Request>)
    requires accepted == settled + ([] + serving + queue) && all == serving + queue
    ensures accepted == settled + (all + [] + [])
  {
    assert [] + serving + queue == all + [] + [];
  }

  lemma TakenTogether(s: State, order: seq<Request>)
    requires Conserved(s) && Ordered(s) && Visits(order, s.inFlight)
    ensures Ordinary(order + s.queue + s.priorityQueue) == s.serving + s.queue
  {
    ServedAmong(order, s.inFlight, s.serving);
    OrdinaryOfAll(order, s.queue, s.priorityQueue, s.serving);
  }

  lemma OrderedTaken(s: State, order: seq<Request>)
    requires Conserved(s) && Ordered(s) && Visits(order, s.inFlight) && Held(s.worker) == []
    ensures s.accepted == s.settled + (Ordinary(order + s.queue + s.priorityQueue) + [] + [])
  {
    hide Conserved, Partition, OneServed, Visits;
    assert s.accepted == s.settled + ([] + s.serving + s.queue);
    TakenTogether(s, order);
    Regrouped(s.accepted, s.settled, s.serving, s.queue, Ordinary(order + s.queue + s.priorityQueue));
  }

  lemma TrackedTaken(s: State, order: seq<Request>, after: After)
    requires Tracked(s.worker, s.inFlight, s.resolved) && s.worker == Closed(after) && Visits(order, s.inFlight)
    ensures Tracked(Draining(order + s.queue + s.priorityQueue, after), map[], s.resolved)
  {
    if after.ToFailure? {
      assert InFlight(s.inFlight, after.request);
    }
  }

  lemma NothingLeft(acceptedOn: map<Request, nat>, generation: nat)
    ensures Since([], acceptedOn, generation) && SinceFlight(map[], acceptedOn, generation)
    ensures OneServed([], map[]) && Ordinary([]) == []
  {
  }

  lemma InvTaken(s: State, order: seq<Request>, after: After)
    requires Inv(s) && s.worker == Closed(after) && s.mutex == Free && Visits(order, s.inFlight)
    ensures Inv(Taken(s, order, after))
  {
    hide Conserved, Coherent, Since, SinceFlight, SentWhenAccepted, AcceptedLater, AcceptedLeftClient;
    hide AnsweredWereAccepted, Ordinary, Visits, Tracked, OneServed;
    ConservedTaken(s, order, after);
    DatedTaken(s, order);
    OrderedTaken(s, order);
    TrackedTaken(s, order, after);
    NothingLeft(s.acceptedOn, Generation(s));
  }

  lemma ConservedOneFailed(s: State, held: seq<Request>, after: After)
    requires Conserved(s) && s.worker == Draining(held, after) && held != []
    ensures held[0] !in s.resolved && Conserved(OneFailed(s, held, after))
  {
    assert held[0] in Held(s.worker);
    OnePlace(s, held[0]);
    PopMembers(held);
    ConservedResolved(s, OneFailed(s, held, after), held[0]);
  }

  lemma TrackedOneFailed(held: seq<Request>, after: After, flight: map<Id, Request>, resolved: map<Request, Reply>)
    requires held != [] && Tracked(Draining(held, after), flight, resolved)
    ensures Tracked(Draining(held[1..], after), flight, resolved[held[0] := FAILED])
  {
    assert held == [held[0]] + held[1..];
  }

  lemma DatedOneFailed(held: seq<Request>, acceptedOn: map<Request, nat>, generation: nat)
    requires held != [] && Since(held, acceptedOn, generation)
    ensures held[0] in acceptedOn && Since(held[1..], acceptedOn, generation)
  {
    assert held[0] in held;
    SincePart(held, held[1..], acceptedOn, generation);
  }

  lemma InvOneFailed(s: State, held: seq<Request>, after: After)
    requires Inv(s) && s.worker == Draining(held, after) && held != []
    ensures Inv(OneFailed(s, held, after))
  {
    hide Conserved, Coherent, Since, SinceFlight, SentWhenAccepted, AcceptedLater, AcceptedLeftClient, Tracked;
    hide AnsweredWereAccepted, OneServed, Ordinary;
    ConservedOneFailed(s, held, after);
    assert held == [held[0]] + held[1..];
    OrderedHeldResolved(s, held[0], held[1..]);
    DatedOneFailed(held, s.acceptedOn, Generation(s));
    FailuresAreNoAnswers(s.resolved, held[0], s.acceptedOn);
    TrackedOneFailed(held, after, s.inFlight, s.resolved);
  }

  // ----- connecting -----

  /** A new generation begins with nothing queued, in flight or held. */
  lemma InvConnected(s: State)
    requires Inv(s) && s.worker == Dialing
    ensures Inv(s.(socket := true, device := Connected(s.device), worker := Bumped))
  {
    TransitionsStayCoherent(s.device);
    hide Partition, Coherent, SentWhenAccepted, AcceptedLeftClient, AnsweredWereAccepted, OneServed, Ordinary;
  }

  lemma ConservedStreaming(s: State, rs: seq<Request>)
    requires Conserved(s) && s.worker == Subscribing && IsStream(s, rs)
    ensures Conserved(Streaming(s, rs))
  {
    var n := Streaming(s, rs);
    forall r | r in rs
      ensures r !in s.queue
    {
      OnePlace(s, r);
    }
    forall r
      ensures Places(n.calls, n.queue, n.priorityQueue, n.inFlight, Held(n.worker), n.resolved, r) ==
              Count(r in n.submitted)
    {
      OnePlace(s, r);
      assert r in n.queue <==> r in s.queue || r in rs;
    }
  }

  /** What becomes of the acceptances when the worker queues its own requests. */
  function Dates(s: State, rs: seq<Request>): map<Request, nat> {
    s.acceptedOn + (map r | r in rs :: Generation(s))
  }

  lemma StreamIsNew(s: State, rs: seq<Request>)
    requires Inv(s) && IsStream(s, rs)
    ensures forall r :: r in rs ==> r !in s.acceptedOn && !WithClient(s.calls, r) && r.createdOn == Generation(s)
  {
    hide Linked, Coherent, Ordered, Guarded, Tracked, Down;
    forall r | r in rs
      ensures !WithClient(s.calls, r)
    {
      OnePlace(s, r);
    }
  }

  lemma SinceIs(rs: seq<Request>, on: map<Request, nat>, generation: nat)
    requires forall r :: r in rs ==> r in on && on[r] == generation
    ensures Since(rs, on, generation)
  {
  }

  lemma StreamDates(s: State, rs: seq<Request>)
    requires Dated(s)
    requires forall r :: r in rs ==> r !in s.acceptedOn && !WithClient(s.calls, r) && r.createdOn == Generation(s)
    ensures var later := Dates(s, rs);
            && Extends(s.acceptedOn, later) && Since(rs, later, Generation(s))
            && AcceptedLater(later, s.submitted + (set r | r in rs), Generation(s)) &&
              AcceptedLeftClient(later, s.calls)
  {
    hide Since, SinceFlight, SentWhenAccepted, AnsweredWereAccepted;
    assert forall r :: r in rs ==> r in Dates(s, rs) && Dates(s, rs)[r] == Generation(s);
    assert Since(rs, Dates(s, rs), Generation(s)) by {
      SinceIs(rs, Dates(s, rs), Generation(s));
    }
  }

  lemma DatedStreaming(s: State, rs: seq<Request>)
    requires Inv(s) && s.worker == Subscribing && IsStream(s, rs)
    ensures Dated(Streaming(s, rs))
  {
    hide Conserved, Coherent, Ordered, Since, SinceFlight, SentWhenAccepted, AcceptedLater, AcceptedLeftClient;
    hide AnsweredWereAccepted, IsStream;
    StreamIsNew(s, rs);
    StreamDates(s, rs);
    DatedExtends(s, Dates(s, rs));
    SinceAppend(s.queue, rs, Dates(s, rs), Generation(s));
  }

  lemma OrderedStreaming(s: State, rs: seq<Request>)
    requires Ordered(s) && s.worker == Subscribing
    ensures Ordered(Streaming(s, rs))
  {
    hide OneServed, Ordinary;
    var none: seq<Request> := [];
    assert s.accepted + rs == s.settled + (Ordinary(none) + s.serving + (s.queue + rs));
  }

  lemma InvStreaming(s: State, rs: seq<Request>)
    requires Inv(s) && s.worker == Subscribing && IsStream(s, rs)
    ensures Inv(Streaming(s, rs))
  {
    hide Conserved, Coherent, Dated, Ordered, IsStream;
    ConservedStreaming(s, rs);
    DatedStreaming(s, rs);
    OrderedStreaming(s, rs);
  }
}
