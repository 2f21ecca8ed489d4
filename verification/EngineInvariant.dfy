/** What every step of the request engine keeps. The parts of the invariant are stated on the fields they
    speak of, so that a step keeps the parts whose fields it leaves alone. */
module EngineInvariant {
  import opened Device
  import opened Engine

  // ----- where a request is -----

  /** The requests only the worker still refers to. */
  function Held(w: Worker): seq<Request> {
    match w
    case Detached(r, _, _) => [r]
    case Answering(r, _) => [r]
    case Draining(held, _) => held
    case _ => []
  }

  /** Still with the client thread that made it. */
  predicate WithClient(calls: map<Request, Call>, r: Request) {
    r in calls && calls[r] != Returned
  }

  /** How many steps a `command` call still takes. */
  function CallRank(calls: map<Request, Call>, r: Request): nat {
    if r !in calls then 0
    else match calls[r]
         case Created => 3
         case Locked => 2
         case Unqueued => 1
         case Returned => 0
  }

  function Max(a: nat, b: nat): nat { if a < b then b else a }

  function Count(b: bool): nat { if b then 1 else 0 }

  /** In how many of its possible places `r` is. */
  function Places(calls: map<Request, Call>, queue: seq<Request>, priorityQueue: seq<Request>,
                  flight: map<Id, Request>, held: seq<Request>, resolved: map<Request, Reply>, r: Request): nat
  {
    Count(WithClient(calls, r)) + Count(r in queue) + Count(r in priorityQueue) +
    Count(InFlight(flight, r)) + Count(r in held) + Count(r in resolved)
  }

  /** Every submitted request is in exactly one place, and no other request is anywhere. */
  ghost predicate Partition(calls: map<Request, Call>, queue: seq<Request>, priorityQueue: seq<Request>,
                            flight: map<Id, Request>, held: seq<Request>, resolved: map<Request, Reply>,
                            submitted: set<Request>)
  {
    && (forall r :: Places(calls, queue, priorityQueue, flight, held, resolved, r) == Count(r in submitted))
    && NoDup(queue) && NoDup(priorityQueue) && NoDup(held)
    && (forall id :: id in flight ==> flight[id].id == id)
    && (forall r :: r in queue ==> !r.priority)
    && (forall r :: r in priorityQueue ==> r.priority)
  }

  ghost predicate Conserved(s: State) {
    Partition(s.calls, s.queue, s.priorityQueue, s.inFlight, Held(s.worker), s.resolved, s.submitted)
  }

  // ----- the connection flags and the worker's place -----

  predicate Linked(w: Worker, running: bool, connected: bool, socket: bool, published: bool) {
    match w
    case Exited => !connected && !socket && !published && !running
    case Loop => connected == socket == published
    case Failing(_) => connected == socket == published
    case Polling => connected == socket == published
    case Expiring => connected == socket == published
    case Checking(_) => connected == socket == published
    case Dialing => !connected && !socket && !published
    case Bumped => !connected && socket && published
    case Closing(after) => !connected && (after == ToExit ==> !running)
    case Closed(after) => !connected && !socket && (after == ToExit ==> !running)
    case Draining(_, after) => !connected && !socket && (after == ToExit ==> !running)
    case _ => connected && socket && published
  }

  /** `fail_all` has run for the last connection and the next one is not up yet. */
  predicate Down(w: Worker, socket: bool) {
    || w == Exited || w == Dialing || w == Bumped || w.Draining?
    || (!socket && (w == Loop || w.Failing? || w == Polling || w == Expiring || w.Checking?))
  }

  predicate Empty(s: State) {
    s.queue == [] && s.priorityQueue == [] && s.inFlight == map[]
  }

  /** Whoever read `connected_` as set and still holds the mutex keeps the worker out of `fail_all`. */
  predicate Guarded(mutex: Mutex, calls: map<Request, Call>, connected: bool, w: Worker) {
    mutex.Owned? ==>
      && mutex.owner in calls && calls[mutex.owner] == Locked
      && (mutex.sawConnected ==> connected || w.Closing? || w.Closed?)
  }

  /** The request the worker is sending, or has failed to send, is still in flight, or `disconnect` has
      resolved it and left nothing in flight. */
  predicate Tracked(w: Worker, flight: map<Id, Request>, resolved: map<Request, Reply>) {
    match w
    case Sending(r) => InFlight(flight, r)
    case Failing(r) => InFlight(flight, r) || (r in resolved && flight == map[])
    case Closing(after) => after.ToFailure? ==> InFlight(flight, after.request)
    case Closed(after) => after.ToFailure? ==> InFlight(flight, after.request)
    case Draining(held, after) => after.ToFailure? ==> after.request in held || after.request in resolved
    case _ => true
  }

  // ----- connection generations -----

  predicate Since(rs: seq<Request>, acceptedOn: map<Request, nat>, generation: nat) {
    forall r :: r in rs ==> r in acceptedOn && acceptedOn[r] == generation
  }

  predicate SinceFlight(flight: map<Id, Request>, acceptedOn: map<Request, nat>, generation: nat) {
    forall id :: id in flight ==> flight[id] in acceptedOn && acceptedOn[flight[id]] == generation
  }

  predicate SentWhenAccepted(ts: seq<Transmission>, acceptedOn: map<Request, nat>) {
    forall t :: t in ts ==> t.request in acceptedOn && acceptedOn[t.request] == t.generation
  }

  /** A request is accepted no earlier than it is made. */
  predicate AcceptedLater(acceptedOn: map<Request, nat>, submitted: set<Request>, generation: nat) {
    && (forall r :: r in acceptedOn ==> r in submitted && r.createdOn <= acceptedOn[r] <= generation)
    && (forall r :: r in submitted ==> r.createdOn <= generation)
  }

  predicate AcceptedLeftClient(acceptedOn: map<Request, nat>, calls: map<Request, Call>) {
    forall r :: r in acceptedOn ==> !WithClient(calls, r)
  }

  predicate AnsweredWereAccepted(resolved: map<Request, Reply>, acceptedOn: map<Request, nat>) {
    forall r :: r in resolved && resolved[r].transportOk ==> r in acceptedOn
  }

  /** Every request that waits or is in flight entered its queue on the present connection, and so had every
      request that was transmitted when it was transmitted. */
  predicate Dated(s: State) {
    && Since(s.queue, s.acceptedOn, Generation(s))
    && Since(s.priorityQueue, s.acceptedOn, Generation(s))
    && Since(Held(s.worker), s.acceptedOn, Generation(s))
    && SinceFlight(s.inFlight, s.acceptedOn, Generation(s))
    && SentWhenAccepted(s.transmitted, s.acceptedOn)
    && AcceptedLater(s.acceptedOn, s.submitted, Generation(s))
    && AcceptedLeftClient(s.acceptedOn, s.calls)
    && AnsweredWereAccepted(s.resolved, s.acceptedOn)
  }

  // ----- order -----

  function Ordinary(rs: seq<Request>): seq<Request>
    decreases |rs|
  {
    if rs == [] then []
    else (if rs[0].priority then [] else [rs[0]]) + Ordinary(rs[1..])
  }

  /** At most one ordinary request is in flight, and `serving` names it. */
  predicate OneServed(serving: seq<Request>, flight: map<Id, Request>) {
    && |serving| <= 1
    && (forall r :: r in serving ==> InFlight(flight, r) && !r.priority)
    && (forall id :: id in flight ==> flight[id].priority || serving == [flight[id]])
  }

  /** The ordinary requests accepted and not yet resolved, oldest first. */
  function Pending(s: State): seq<Request> {
    Ordinary(Held(s.worker)) + s.serving + s.queue
  }

  predicate Ordered(s: State) {
    s.accepted == s.settled + Pending(s) && OneServed(s.serving, s.inFlight)
  }

  ghost predicate Inv(s: State) {
    && Conserved(s)
    && Linked(s.worker, s.running, s.connected, s.socket, s.device.connected)
    && Coherent(s.device)
    && (Down(s.worker, s.socket) ==> Empty(s))
    && Guarded(s.mutex, s.calls, s.connected, s.worker)
    && Tracked(s.worker, s.inFlight, s.resolved)
    && Dated(s)
    && Ordered(s)
    && !s.broken
  }
}
