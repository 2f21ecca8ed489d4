/** The transport as an object: the fields that `transport.cpp` updates and the operations that update them, each
    proved against the step functions of the request engine. `model` is the engine state the fields belong to; it
    adds the threads' places and the histories, which the source does not store. Threads interleave between the
    sections; the methods here are the sections as one thread executes them. */
module Transports {
  import opened Crc
  import opened Frames
  import opened Device
  import opened Engine

  /** What `fail_all` does with the requests it has taken. */
  function FailedEach(s: State, held: seq<Request>, after: After): State
    decreases |held|
  {
    if held == [] then s else FailedEach(OneFailed(s, held, after), held[1..], after)
  }

  /** All of `disconnect`, for the visiting order `order` of the in-flight table. */
  function CutOff(s: State, after: After, order: seq<Request>): State {
    var closed := s.(connected := false, socket := false, worker := Closed(after));
    var failed := FailedEach(Taken(closed, order, after), order + s.queue + s.priorityQueue, after);
    Resumed(failed.(device := Disconnected(failed.device)), after)
  }

  function Noted(s: State, r: Request, status: nat, payload: seq<byte>): State {
    s.(device := s.device.(lastStatus := status), worker := Answering(r, Reply(true, status, payload)))
  }

  /** `handle_frame` from its locked section on. */
  function Responded(s: State, id: Id, status: nat, payload: seq<byte>): State {
    var t := LookedUp(s, id, status, payload);
    if t.worker.Detached? then
      Answered(Noted(t, t.worker.request, status, payload), t.worker.request, Reply(true, status, payload))
    else t
  }

  /** `handle_frame` up to there. */
  function Received(s: State, id: Id, status: nat, payload: seq<byte>): State {
    s.(device := Updated(s.device, id, status, payload), worker := Arrived(id, status, payload))
  }

  /** All of `handle_frame`. */
  function Handled(s: State, id: Id, payload: seq<byte>): State
    requires s.unparsed > 0
  {
    var taken := s.(unparsed := s.unparsed - 1);
    if |payload| < 2 then taken
    else Responded(Received(taken, id, Status(payload), payload), id, Status(payload), payload)
  }

  lemma LaunchSends(s: State, r: Request)
    ensures Launched(s, r).worker == Sending(r)
  {
  }

  lemma DispatchWaits(s: State)
    requires s.priorityQueue != [] ==> s.priorityQueue[0].id in s.inFlight
    requires s.priorityQueue == [] ==> s.inFlight != map[] || s.queue == []
    ensures Dispatched(s) == s.(worker := Polling)
  {
    hide Launched;
  }

  lemma DispatchTakes(s: State)
    ensures s.priorityQueue != [] && s.priorityQueue[0].id !in s.inFlight ==>
              Dispatched(s) == Launched(s.(priorityQueue := s.priorityQueue[1..]), s.priorityQueue[0])
    ensures s.priorityQueue == [] && s.inFlight == map[] && s.queue != [] ==>
              Dispatched(s) == Launched(s.(queue := s.queue[1..], serving := [s.queue[0]]), s.queue[0])
  {
    hide Launched;
  }

  lemma LookupMisses(s: State, id: Id, status: nat, payload: seq<byte>)
    requires id !in s.inFlight
    ensures LookedUp(s, id, status, payload) == s.(worker := Parsing)
  {
  }

  lemma LookupPostpones(s: State, id: Id, status: nat, payload: seq<byte>)
    requires id in s.inFlight && s.inFlight[id].allowPending && status == STATUS_COMMAND_PENDING
    ensures var r := s.inFlight[id];
            LookedUp(s, id, status, payload) == s.(deadline := s.deadline[r := s.clock + r.timeout], worker := Parsing)
  {
  }

  lemma LookupDetaches(s: State, id: Id, status: nat, payload: seq<byte>)
    requires id in s.inFlight && !(s.inFlight[id].allowPending && status == STATUS_COMMAND_PENDING)
    ensures var r := s.inFlight[id];
            LookedUp(s, id, status, payload) == Remove(s, r).(worker := Detached(r, status, payload))
  {
    hide Remove;
  }

  /** Every request in flight is filed under its own id. */
  predicate Keyed(flight: map<Id, Request>) {
    forall id :: id in flight ==> flight[id].id == id
  }

  lemma FailedEachStep(s: State, held: seq<Request>, after: After)
    requires held != []
    ensures FailedEach(s, held, after) == FailedEach(OneFailed(s, held, after), held[1..], after)
  {
  }

  /** The requests `rs` have been failed: each that had no reply has got one that says so, and nothing else has
      changed. */
  predicate Fails(before: map<Request, Reply>, after: map<Request, Reply>, rs: seq<Request>) {
    && (forall r :: r in before ==> r in after && after[r] == before[r])
    && (forall r :: r in rs ==> r in after)
    && (forall r :: r in after && r !in before ==> r in rs && after[r] == Reply(false, 0xffff, []))
  }

  lemma FailsOn(before: map<Request, Reply>, middle: map<Request, Reply>, after: map<Request, Reply>, r: Request,
                rs: seq<Request>)
    requires Fails(before, middle, [r]) && Fails(middle, after, rs)
    ensures Fails(before, after, [r] + rs)
  {
    assert r in [r];
  }

  lemma ResolveParts(s: State, r: Request, reply: Reply)
    ensures var n := Resolve(s, r, reply);
            && n.resolved == (if r in s.resolved then s.resolved else s.resolved[r := reply])
            && n == s.(resolved := n.resolved, settled := n.settled)
  {
  }

  lemma ResolveFails(s: State, r: Request)
    ensures var n := Resolve(s, r, FAILED);
            Fails(s.resolved, n.resolved, [r]) && n == s.(resolved := n.resolved, settled := n.settled)
  {
    ResolveParts(s, r, FAILED);
    hide Resolve;
  }

  lemma OneFails(s: State, held: seq<Request>, after: After)
    requires held != []
    ensures var n := OneFailed(s, held, after);
            && Fails(s.resolved, n.resolved, [held[0]])
            && n == s.(resolved := n.resolved, settled := n.settled, worker := Draining(held[1..], after))
  {
    ResolveFails(s, held[0]);
    hide Resolve, Fails;
  }

  lemma {:induction false} EachFails(s: State, held: seq<Request>, after: After)
    ensures var n := FailedEach(s, held, after);
            && Fails(s.resolved, n.resolved, held)
            && n.device == s.device && n.inFlight == s.inFlight && n.queue == s.queue
            && n.priorityQueue == s.priorityQueue && n.connected == s.connected && n.socket == s.socket
    decreases |held|
  {
    hide OneFailed;
    if held != [] {
      var t := OneFailed(s, held, after);
      OneFails(s, held, after);
      EachFails(t, held[1..], after);
      hide Fails;
      FailsOn(s.resolved, t.resolved, FailedEach(t, held[1..], after).resolved, held[0], held[1..]);
      assert [held[0]] + held[1..] == held;
    }
  }

  /** What a disconnected state publishes. */
  predicate Blank(d: DeviceState, was: DeviceState) {
    d == was.(connected := false, referenced := false, moving := false, stalled := false, systemState := 0,
              lastStatus := 0xffff)
  }

  lemma ResumedKeeps(s: State, after: After)
    ensures Resumed(s, after) == s.(worker := Resumed(s, after).worker)
  {
  }

  lemma CutOffMeans(s: State, after: After, order: seq<Request>)
    ensures var n := CutOff(s, after, order);
            && !n.connected && !n.socket && n.inFlight == map[] && n.queue == [] && n.priorityQueue == []
            && Fails(s.resolved, n.resolved, order + s.queue + s.priorityQueue) && Blank(n.device, s.device)
  {
    var closed := s.(connected := false, socket := false, worker := Closed(after));
    var taken, held := Taken(closed, order, after), order + s.queue + s.priorityQueue;
    EachFails(taken, held, after);
    var failed := FailedEach(taken, held, after);
    ResumedKeeps(failed.(device := Disconnected(failed.device)), after);
    hide FailedEach, Fails, Resumed;
  }

  /** The five streams: system state, grasping state, opening, speed and force. */
  lemma StreamIds(s: State, rs: seq<Request>)
    requires IsStream(s, rs)
    ensures |rs| == 5 && rs[0].id == 0x40 && rs[1].id == 0x41 && rs[2].id == 0x43 && rs[3].id == 0x44
    ensures rs[4].id == 0x45
  {
    assert STREAM_IDS[0] == 0x40 && STREAM_IDS[1] == 0x41 && STREAM_IDS[2] == 0x43;
  }

  datatype Containers = Containers(
    queue: seq<Request>,
    priorityQueue: seq<Request>,
    inFlight: map<Id, Request>,
    deadlines: map<Request, nat>)

  /** `r` has gone from the head of its lane to the in-flight table. */
  predicate Moved(was: Containers, priority: bool, r: Request, now: Containers, clock: nat) {
    && now.inFlight == was.inFlight[r.id := r] && now.deadlines == was.deadlines[r := clock + r.timeout]
    && if priority then [r] + now.priorityQueue == was.priorityQueue && now.queue == was.queue
       else now.priorityQueue == was.priorityQueue && [r] + now.queue == was.queue
  }

  /** What is taken to be sent: the first in the priority lane, unless its id is in flight; without one there, the
      first in the queue, if nothing is in flight. */
  predicate Chosen(was: Containers, request: seq<Request>, now: Containers, clock: nat) {
    if was.priorityQueue != [] && was.priorityQueue[0].id !in was.inFlight then
      request == [was.priorityQueue[0]] && Moved(was, true, was.priorityQueue[0], now, clock)
    else if was.priorityQueue == [] && was.inFlight == map[] && was.queue != [] then
      request == [was.queue[0]] && Moved(was, false, was.queue[0], now, clock)
    else request == [] && now == was
  }

  lemma ChosenUrgent(was: Containers, now: Containers, clock: nat)
    requires was.priorityQueue != [] && was.priorityQueue[0].id !in was.inFlight
    requires Moved(was, true, was.priorityQueue[0], now, clock)
    ensures Chosen(was, [was.priorityQueue[0]], now, clock)
  {
    hide Moved;
  }

  lemma ChosenOrdinary(was: Containers, now: Containers, clock: nat)
    requires was.priorityQueue == [] && was.inFlight == map[] && was.queue != []
    requires Moved(was, false, was.queue[0], now, clock)
    ensures Chosen(was, [was.queue[0]], now, clock)
  {
    hide Moved;
  }

  lemma ChosenNothing(was: Containers, clock: nat)
    requires was.priorityQueue != [] ==> was.priorityQueue[0].id in was.inFlight
    requires was.priorityQueue == [] ==> was.inFlight != map[] || was.queue == []
    ensures Chosen(was, [], was, clock)
  {
  }

  /** The request a frame answers, and what becomes of the table and the deadlines: a reply that only says that the
      command is pending moves the deadline, if the request allows it; any other takes the request out. */
  predicate Matched(before: map<Id, Request>, id: Id, status: nat, request: seq<Request>, after: map<Id, Request>,
                    deadlines: map<Request, nat>, deadlines': map<Request, nat>, now: nat)
  {
    if id !in before then request == [] && after == before && deadlines' == deadlines
    else if before[id].allowPending && status == 26 then
      request == [] && after == before && deadlines' == deadlines[before[id] := now + before[id].timeout]
    else request == [before[id]] && after == before - {before[id].id} && deadlines' == deadlines
  }

  class Transport {
    var running: bool
    var connected: bool
    var socket: bool
    var queue: seq<Request>
    var priorityQueue: seq<Request>
    var inFlight: map<Id, Request>
    var deadlines: map<Request, nat>       // the `deadline` of each request
    var promises: map<Request, Reply>      // the promises that have been set
    var state: DeviceState
    var serial: nat                        // tells new requests from old ones
    const responseTimeout: nat
    const streamPayload: seq<byte>         // 0x01 and the period, two bytes
    ghost var model: State

    ghost predicate Valid()
      reads this
    {
      && model.running == running && model.connected == connected && model.socket == socket
      && model.queue == queue && model.priorityQueue == priorityQueue && model.inFlight == inFlight
      && model.deadline == deadlines && model.resolved == promises && model.device == state
      && |streamPayload| == 3
      && forall r :: r in model.submitted ==> r.serial < serial
    }

    /** The containers and the deadlines. */
    function Held(): Containers
      reads this
    {
      Containers(queue, priorityQueue, inFlight, deadlines)
    }

    constructor (maxPayload: nat, responseTimeout: nat, period: nat)
      requires period < 0x10000
      ensures Valid() && model == Initially(maxPayload) && this.responseTimeout == responseTimeout
      ensures |streamPayload| == 3 && streamPayload[0] == 1 && ReadU16(streamPayload[1], streamPayload[2]) == period
    {
      running, connected, socket := false, false, false;
      queue, priorityQueue, inFlight, deadlines, promises := [], [], map[], map[], map[];
      state, serial := INITIAL_STATE, 0;
      this.responseTimeout := responseTimeout;
      streamPayload := [1, ToByte(period % 256), ToByte(period / 256)];
      model := Initially(maxPayload);
      SizeRoundTrip(period);
    }

    /** `fail_request`: a promise that is already set keeps its value. */
    method FailRequest(r: Request)
      requires Valid()
      modifies this`promises, this`model
      ensures Valid() && model == Resolve(old(model), r, FAILED)
      ensures promises == if r in old(promises) then old(promises) else old(promises)[r := FAILED]
    {
      if r !in promises {
        promises := promises[r := FAILED];
      }
      model := Resolve(model, r, FAILED);
    }

    /** The locked section of `command`. */
    method Accept(r: Request) returns (queued: bool)
      requires Valid() && model.mutex == Free
      modifies this`queue, this`priorityQueue, this`model
      ensures Valid() && queued == connected && model == CallUnlocked(CallLocked(old(model), r), r)
      ensures priorityQueue == old(priorityQueue) + (if queued && r.priority then [r] else [])
      ensures queue == old(queue) + (if queued && !r.priority then [r] else [])
    {
      queued := false;
      model := CallLocked(model, r);
      if connected {
        if r.priority {
          priorityQueue := priorityQueue + [r];
        } else {
          queue := queue + [r];
        }
        queued := true;
      }
      model := CallUnlocked(model, r);
    }

    /** `command`, once the request is made. */
    method Command(r: Request) returns (queued: bool)
      requires Valid() && model.mutex == Free && IsCall(model, r, Created)
      modifies this
      ensures Valid() && queued == old(connected)
      ensures var unlocked := CallUnlocked(CallLocked(old(model), r), r);
              model == if queued then unlocked else CallFailed(unlocked, r)
      ensures priorityQueue == old(priorityQueue) + (if queued && r.priority then [r] else [])
      ensures queue == old(queue) + (if queued && !r.priority then [r] else [])
      ensures promises == if queued || r in old(promises) then old(promises) else old(promises)[r := FAILED]
    {
      hide CallLocked, CallUnlocked, Resolve;
      queued := Accept(r);
      if !queued {
        ghost var calls := model.calls;
        FailRequest(r);
        model := model.(calls := calls[r := Returned]);
      }
    }

    /** Entering `r` in the in-flight table. */
    method Launch(r: Request, now: nat)
      requires Valid() && now == model.clock
      modifies this`deadlines, this`inFlight, this`model
      ensures Valid() && model == Launched(old(model), r)
      ensures inFlight == old(inFlight)[r.id := r] && deadlines == old(deadlines)[r := now + r.timeout]
    {
      deadlines := deadlines[r := now + r.timeout];
      inFlight := inFlight[r.id := r];
      model := Launched(model, r);
    }

    /** Moving the head of the priority lane into the in-flight table. */
    method TakeUrgent(now: nat) returns (r: Request)
      requires Valid() && now == model.clock && priorityQueue != []
      modifies this`deadlines, this`inFlight, this`priorityQueue, this`model
      ensures Valid() && r == old(priorityQueue)[0] && model.worker == Sending(r)
      ensures var m := old(model); model == Launched(m.(priorityQueue := m.priorityQueue[1..]), r)
      ensures Moved(old(Held()), true, r, Held(), now)
    {
      hide Launched;
      r := priorityQueue[0];
      priorityQueue := priorityQueue[1..];
      model := model.(priorityQueue := model.priorityQueue[1..]);
      LaunchSends(model, r);
      Launch(r, now);
    }

    /** Moving the head of the queue there. */
    method TakeOrdinary(now: nat) returns (r: Request)
      requires Valid() && now == model.clock && queue != []
      modifies this`deadlines, this`inFlight, this`queue, this`model
      ensures Valid() && r == old(queue)[0] && model.worker == Sending(r)
      ensures var m := old(model); model == Launched(m.(queue := m.queue[1..], serving := [m.queue[0]]), r)
      ensures Moved(old(Held()), false, r, Held(), now)
    {
      hide Launched;
      r := queue[0];
      queue := queue[1..];
      model := model.(queue := model.queue[1..], serving := [model.queue[0]]);
      LaunchSends(model, r);
      Launch(r, now);
    }

    /** Nothing is taken. */
    method TakeNothing()
      requires Valid()
      modifies this`model
      ensures Valid() && model == old(model).(worker := Polling)
      ensures Held() == old(Held())
    {
      model := model.(worker := Polling);
    }

    /** The locked section of `dispatch_requests`: the request to send, if there is one. */
    method TakeRequest(now: nat) returns (request: seq<Request>)
      requires Valid() && model.worker == Dispatching && now == model.clock
      modifies this`deadlines, this`inFlight, this`queue, this`priorityQueue, this`model
      ensures Valid() && model == Dispatched(old(model))
      ensures request == (if model.worker.Sending? then [model.worker.request] else [])
      ensures Chosen(old(Held()), request, Held(), now)
    {
      hide Launched, Dispatched, Moved, Chosen;
      ghost var was := Held();
      request := [];
      if priorityQueue != [] && priorityQueue[0].id !in inFlight {
        DispatchTakes(model);
        var r := TakeUrgent(now);
        ChosenUrgent(was, Held(), now);
        request := [r];
      } else if priorityQueue == [] && inFlight == map[] && queue != [] {
        DispatchTakes(model);
        var r := TakeOrdinary(now);
        ChosenOrdinary(was, Held(), now);
        request := [r];
      } else {
        DispatchWaits(model);
        TakeNothing();
        ChosenNothing(was, now);
      }
    }

    /** Taking a request out of the in-flight table. */
    method Erase(r: Request)
      requires Valid()
      modifies this`inFlight, this`model
      ensures Valid() && model == Remove(old(model), r) && inFlight == old(inFlight) - {r.id}
    {
      inFlight := inFlight - {r.id};
      model := Remove(model, r);
    }

    /** The failure section of `dispatch_requests`. */
    method GiveUp(r: Request)
      requires Valid() && model.worker == Failing(r)
      modifies this
      ensures Valid() && model == SendFailed(old(model), r)
      ensures inFlight == old(inFlight) - {r.id} && Fails(old(promises), promises, [r])
    {
      hide Fails;
      Erase(r);
      ResolveFails(model, r);
      hide Resolve;
      FailRequest(r);
      model := model.(worker := Polling);
    }

    /** `update_state`. */
    method UpdateState(id: Id, status: nat, payload: seq<byte>)
      requires |payload| >= 2
      modifies this`state
      ensures state == Updated(old(state), id, status, payload)
      ensures status == STATUS_SUCCESS && |payload| >= 6 ==>
                && (id == 0x43 ==> state.opening == payload[2..6]) && (id == 0x44 ==> state.speed == payload[2..6])
                && (id == 0x45 ==> state.force == payload[2..6])
      ensures status == STATUS_SUCCESS && |payload| >= 3 && id == 0x41 ==> state.graspingState == payload[2]
    {
      if status != STATUS_SUCCESS {
        state := state.(lastStatus := status);
        return;
      }
      if id == 0x40 && |payload| >= 6 {
        var bits := ReadU32(payload, 2);
        state := state.(systemState := bits);
        state := state.(referenced := bits & SYSTEM_REFERENCED != 0);
        state := state.(moving := bits & SYSTEM_MOVING != 0);
        state := state.(stalled := bits & (SYSTEM_BLOCKED_PLUS | SYSTEM_BLOCKED_MINUS) != 0);
      } else if id == 0x41 && |payload| >= 3 {
        state := state.(graspingState := payload[2]);
      } else if id == 0x43 && |payload| >= 6 {
        state := state.(opening := payload[2..6]);
      } else if id == 0x44 && |payload| >= 6 {
        state := state.(speed := payload[2..6]);
      } else if id == 0x45 && |payload| >= 6 {
        state := state.(force := payload[2..6]);
      }
    }

    /** A pending reply: the deadline moves. */
    method Postpone(r: Request, now: nat)
      requires Valid() && now == model.clock
      modifies this`deadlines, this`model
      ensures Valid() && deadlines == old(deadlines)[r := now + r.timeout]
      ensures var m := old(model); model == m.(deadline := m.deadline[r := m.clock + r.timeout], worker := Parsing)
    {
      deadlines := deadlines[r := now + r.timeout];
      model := model.(deadline := model.deadline[r := model.clock + r.timeout], worker := Parsing);
    }

    /** A final reply: the request leaves the in-flight table. */
    method Detach(r: Request, status: nat, payload: seq<byte>)
      requires Valid()
      modifies this`inFlight, this`model
      ensures Valid() && model == Remove(old(model), r).(worker := Detached(r, status, payload))
      ensures inFlight == old(inFlight) - {r.id}
    {
      inFlight := inFlight - {r.id};
      model := Remove(model, r).(worker := Detached(r, status, payload));
    }

    /** The locked section of `handle_frame`: the request the frame answers, if it answers one. */
    method Match(id: Id, status: nat, payload: seq<byte>, now: nat) returns (request: seq<Request>)
      requires Valid() && model.worker == Arrived(id, status, payload) && now == model.clock
      modifies this`inFlight, this`deadlines, this`model
      ensures Valid() && model == LookedUp(old(model), id, status, payload)
      ensures model.worker == (if request == [] then Parsing else Detached(request[0], status, payload))
      ensures Matched(old(inFlight), id, status, request, inFlight, old(deadlines), deadlines, now)
    {
      ghost var was := model;
      hide LookedUp, Remove;
      request := [];
      if id !in inFlight {
        LookupMisses(was, id, status, payload);
        model := model.(worker := Parsing);
        return;
      }
      var r := inFlight[id];
      if r.allowPending && status == STATUS_COMMAND_PENDING {
        LookupPostpones(was, id, status, payload);
        Postpone(r, now);
      } else {
        LookupDetaches(was, id, status, payload);
        Detach(r, status, payload);
        request := [r];
      }
    }

    method ReadStatus(payload: seq<byte>) returns (status: nat)
      requires |payload| >= 2
      ensures status == Status(payload)
    {
      status := ReadU16(payload[0], payload[1]);
    }

    /** `promise.set_value`, outside any handler. */
    method SetValue(r: Request, reply: Reply)
      requires Valid()
      modifies this`promises, this`model
      ensures Valid() && model == Engine.Answered(old(model), r, reply)
      ensures promises == if r in old(promises) then old(promises) else old(promises)[r := reply]
    {
      if r !in promises {
        promises := promises[r := reply];
      }
      model := Engine.Answered(model, r, reply);
    }

    /** The beginning of `handle_frame`: the frame's effect on the published state. */
    method Arrive(id: Id, status: nat, payload: seq<byte>)
      requires Valid() && |payload| >= 2
      modifies this`state, this`model
      ensures Valid() && model == Received(old(model), id, status, payload)
    {
      hide Updated;
      UpdateState(id, status, payload);
      model := Received(model, id, status, payload);
    }

    /** The end of `handle_frame`: the status is published and the promise set. */
    method Finish(r: Request, status: nat, payload: seq<byte>)
      requires Valid()
      modifies this`state, this`promises, this`model
      ensures Valid()
      ensures model == Engine.Answered(Noted(old(model), r, status, payload), r, Reply(true, status, payload))
      ensures promises == if r in old(promises) then old(promises) else old(promises)[r := Reply(true, status, payload)]
    {
      hide Engine.Answered;
      state := state.(lastStatus := status);
      model := Noted(model, r, status, payload);
      SetValue(r, Reply(true, status, payload));
    }

    /** `handle_frame` from its locked section on. */
    method Respond(id: Id, status: nat, payload: seq<byte>, now: nat)
      requires Valid() && model.worker == Arrived(id, status, payload) && now == model.clock
      modifies this
      ensures Valid() && model == Responded(old(model), id, status, payload)
      ensures exists request ::
                && Matched(old(inFlight), id, status, request, inFlight, old(deadlines), deadlines, now)
                && promises == if request == [] || request[0] in old(promises) then old(promises)
                               else old(promises)[request[0] := Reply(true, status, payload)]
    {
      hide LookedUp, Engine.Answered, Noted, Matched;
      var request := Match(id, status, payload, now);
      if request != [] {
        Finish(request[0], status, payload);
      }
    }

    /** The parser hands a frame over. */
    method TakeFrame()
      requires Valid() && model.unparsed > 0
      modifies this`model
      ensures Valid() && model == old(model).(unparsed := old(model).unparsed - 1)
    {
      model := model.(unparsed := model.unparsed - 1);
    }

    /** `handle_frame`. */
    method HandleFrame(id: Id, payload: seq<byte>, now: nat)
      requires Valid() && model.worker == Parsing && model.unparsed > 0 && now == model.clock
      modifies this
      ensures Valid() && model == Handled(old(model), id, payload)
      ensures |payload| < 2 ==>
                inFlight == old(inFlight) && deadlines == old(deadlines) && promises == old(promises) &&
                state == old(state)
      ensures |payload| >= 2 ==>
                exists request ::
                  && Matched(old(inFlight), id, ReadU16(payload[0], payload[1]), request, inFlight, old(deadlines),
                             deadlines, now)
                  && promises == if request == [] || request[0] in old(promises) then old(promises)
                                 else old(promises)[request[0] := Reply(true, ReadU16(payload[0], payload[1]), payload)]
    {
      hide Updated, Responded, ReadU16, Matched;
      TakeFrame();
      if |payload| < 2 {
        return;
      }
      var status := ReadStatus(payload);
      Arrive(id, status, payload);
      Respond(id, status, payload, now);
    }

    /** The locked section of `fail_all`: everything the containers hold, the in-flight table first. */
    method TakeEverything(after: After) returns (held: seq<Request>, ghost order: seq<Request>)
      requires Valid() && Keyed(inFlight)
      modifies this`queue, this`priorityQueue, this`inFlight, this`model
      ensures Valid() && Visits(order, old(inFlight)) && model == Taken(old(model), order, after)
      ensures held == order + old(queue) + old(priorityQueue)
    {
      held := [];
      var ids := inFlight.Keys;
      while ids != {}
        invariant ids <= inFlight.Keys && NoDup(held)
        invariant forall r :: r in held <==> InFlight(inFlight, r) && r.id !in ids
      {
        var id: Id :| id in ids;
        held := held + [inFlight[id]];
        ids := ids - {id};
      }
      order := held;
      held := held + queue + priorityQueue;
      inFlight, queue, priorityQueue := map[], [], [];
      model := Taken(model, order, after);
    }

    /** One turn of the loop in `fail_all`. */
    method FailFirst(held: seq<Request>, i: nat, after: After)
      requires Valid() && i < |held|
      modifies this`promises, this`model
      ensures Valid() && model == OneFailed(old(model), held[i..], after)
    {
      hide Resolve;
      FailRequest(held[i]);
      model := model.(worker := Draining(held[i..][1..], after));
    }

    /** `fail_all`. */
    method FailAll(after: After) returns (ghost order: seq<Request>)
      requires Valid() && Keyed(inFlight)
      modifies this`queue, this`priorityQueue, this`inFlight, this`promises, this`model
      ensures Valid() && Visits(order, old(inFlight))
      ensures var m := old(model);
              model == FailedEach(Taken(m, order, after), order + m.queue + m.priorityQueue, after)
    {
      hide Taken, OneFailed;
      var held;
      held, order := TakeEverything(after);
      var i := 0;
      ghost var taken := model;
      while i < |held|
        invariant 0 <= i <= |held| && Valid()
        invariant FailedEach(model, held[i..], after) == FailedEach(taken, held, after)
      {
        assert held[i..][1..] == held[i + 1..];
        FailedEachStep(model, held[i..], after);
        FailFirst(held, i, after);
        i := i + 1;
      }
      assert held[i..] == [];
    }

    /** The beginning of `disconnect`: the flag and the socket. */
    method Close(after: After)
      requires Valid()
      modifies this`connected, this`socket, this`model
      ensures Valid() && model == old(model).(connected := false, socket := false, worker := Closed(after))
    {
      connected := false;
      socket := false;
      model := model.(connected := false, socket := false, worker := Closed(after));
    }

    /** The end of `disconnect`: the published state. */
    method ClearState(after: After)
      requires Valid()
      modifies this`state, this`model
      ensures Valid() && model == Resumed(old(model).(device := Disconnected(old(model).device)), after)
    {
      state := state.(connected := false, referenced := false, moving := false, stalled := false, systemState := 0,
                      lastStatus := STATUS_TRANSPORT_ERROR);
      model := Resumed(model.(device := Disconnected(model.device)), after);
    }

    /** `disconnect`. */
    method Disconnect(after: After) returns (ghost order: seq<Request>)
      requires Valid() && Keyed(inFlight)
      modifies this
      ensures Valid() && Visits(order, old(inFlight)) && model == CutOff(old(model), after, order)
      ensures !connected && !socket && inFlight == map[] && queue == [] && priorityQueue == []
      ensures Fails(old(promises), promises, order + old(queue) + old(priorityQueue)) && Blank(state, old(state))
    {
      hide Taken, FailedEach, Resumed, Disconnected, Visits;
      ghost var was := model;
      Close(after);
      order := FailAll(after);
      ClearState(after);
      CutOffMeans(was, after, order);
      hide CutOff, Fails, Blank;
    }

    /** The state part of `connect_socket`. */
    method ConnectSocket()
      requires Valid()
      modifies this
      ensures Valid()
      ensures var m := old(model);
              model == m.(socket := true, device := Connected(m.device), connected := true, sampled := m.clock,
                          worker := Fresh)
      ensures connected && socket
      ensures state == old(state).(connected := true, lastStatus := 0,
                                   connectionGeneration := old(state).connectionGeneration + 1)
    {
      socket := true;
      state := state.(connected := true, lastStatus := STATUS_SUCCESS,
                      connectionGeneration := state.connectionGeneration + 1);
      connected := true;
      model := model.(socket := true, device := Connected(model.device), connected := true, sampled := model.clock,
                      worker := Fresh);
    }

    /** The locked section of `expire_requests`. */
    method AnyExpired(now: nat) returns (expired: bool)
      requires Valid()
      ensures expired <==> Expired(model, now)
    {
      expired := false;
      var ids := inFlight.Keys;
      while ids != {} && !expired
        invariant ids <= inFlight.Keys
        invariant expired ==> Expired(model, now)
        invariant !expired ==> forall id :: id in inFlight && id !in ids && inFlight[id] in deadlines ==>
                                 now < deadlines[inFlight[id]]
      {
        var id: Id :| id in ids;
        if inFlight[id] in deadlines && now >= deadlines[inFlight[id]] {
          expired := true;
        }
        ids := ids - {id};
      }
    }

    /** `expire_requests`. */
    method ExpireRequests(now: nat) returns (expired: bool, ghost order: seq<Request>)
      requires Valid() && Keyed(inFlight) && now == model.clock && model.worker == Expiring
      modifies this
      ensures Valid() && Visits(order, if expired then old(inFlight) else map[])
      ensures expired <==> Expired(old(model), now)
      ensures var m := old(model);
              model == if expired then CutOff(m, ToLoop, order) else m.(sampled := now, worker := Loop)
      ensures expired ==>
                && !connected && !socket && inFlight == map[] && queue == [] && priorityQueue == []
                && Fails(old(promises), promises, order + old(queue) + old(priorityQueue)) && Blank(state, old(state))
    {
      hide CutOff, Fails, Blank;
      expired := AnyExpired(now);
      order := [];
      if expired {
        order := Disconnect(ToLoop);
      } else {
        model := model.(sampled := now, worker := Loop);
      }
    }

    function StreamRequest(k: nat, n: nat): Request
      requires k < |STREAM_IDS|
      reads this`state
    {
      Request(n, STREAM_IDS[k], streamPayload, false, true, responseTimeout, false, state.connectionGeneration)
    }

    /** `queue_state_streaming`. */
    method QueueStateStreaming() returns (requests: seq<Request>)
      requires Valid() && model.worker == Subscribing
      modifies this`queue, this`serial, this`model
      ensures Valid() && IsStream(old(model), requests) && model == Streaming(old(model), requests)
      ensures forall r :: r in requests ==> r.payload == streamPayload && r.timeout == responseTimeout
    {
      requests := [];
      ghost var was := queue;
      for k := 0 to |STREAM_IDS|
        invariant |requests| == k && queue == was + requests && serial == old(serial) + k
        invariant forall i :: 0 <= i < k ==> requests[i] == StreamRequest(i, old(serial) + i)
        invariant model == old(model)
      {
        var r := Request(serial, STREAM_IDS[k], streamPayload, false, true, responseTimeout, false,
                         state.connectionGeneration);
        assert r == StreamRequest(k, serial);
        queue := queue + [r];
        requests := requests + [r];
        serial := serial + 1;
      }
      model := Streaming(model, requests);
    }
  }
}

/** Executed without interference, the transport's larger operations are runs of the engine's steps. */
module TransportRuns {
  import opened Crc
  import opened Device
  import opened Engine
  import opened EngineInvariant
  import opened EngineRuns
  import opened Transports

  /** From `s`, the steps `ls` lead to `n`. */
  ghost predicate Leads(s: State, ls: seq<Step>, n: State)
    decreases |ls|
  {
    if ls == [] then n == s else Enabled(s, ls[0]) && Leads(Apply(s, ls[0]), ls[1..], n)
  }

  lemma LeadsFirst(s: State, l: Step, ls: seq<Step>, n: State)
    requires Enabled(s, l) && Leads(Apply(s, l), ls, n)
    ensures Leads(s, [l] + ls, n)
  {
    hide Enabled, Apply;
    assert ([l] + ls)[1..] == ls;
  }

  /** Such operations keep the invariant. */
  lemma {:induction false} LeadsKeepsInv(s: State, ls: seq<Step>, n: State)
    requires Inv(s) && Leads(s, ls, n)
    ensures Inv(n)
    decreases |ls|
  {
    hide Inv, Enabled, Apply;
    if ls != [] {
      InvStep(s, ls[0]);
      LeadsKeepsInv(Apply(s, ls[0]), ls[1..], n);
    }
  }

  // ----- one step at the head of a run -----

  lemma CloseLeads(s: State, after: After, ls: seq<Step>, n: State)
    requires Leads(s.(connected := false, socket := false, worker := Closed(after)), ls, n)
    ensures Leads(Drop(s, after), [CloseSocket] + ls, n)
  {
    hide Leads;
    LeadsFirst(Drop(s, after), CloseSocket, ls, n);
  }

  lemma TakeLeads(s: State, after: After, order: seq<Request>, ls: seq<Step>, n: State)
    requires s.worker == Closed(after) && s.mutex == Free && Visits(order, s.inFlight)
    requires Leads(Taken(s, order, after), ls, n)
    ensures Leads(s, [TakeAll(order)] + ls, n)
  {
    hide Leads, Visits, Taken;
    LeadsFirst(s, TakeAll(order), ls, n);
  }

  lemma FailLeads(s: State, held: seq<Request>, after: After, ls: seq<Step>, n: State)
    requires s.worker == Draining(held, after) && held != [] && Leads(OneFailed(s, held, after), ls, n)
    ensures Leads(s, [FailNext] + ls, n)
  {
    hide Leads, OneFailed;
    LeadsFirst(s, FailNext, ls, n);
  }

  lemma ArriveLeads(s: State, id: Id, payload: seq<byte>, ls: seq<Step>, n: State)
    requires s.worker == Parsing && s.unparsed > 0 && |payload| >= 2
    requires Leads(s.(unparsed := s.unparsed - 1, device := Updated(s.device, id, Status(payload), payload),
                      worker := Arrived(id, Status(payload), payload)), ls, n)
    ensures Leads(s, [Step.Frame(id, payload)] + ls, n)
  {
    hide Leads, Updated, Status;
    LeadsFirst(s, Step.Frame(id, payload), ls, n);
  }

  lemma LookupLeads(s: State, id: Id, status: nat, payload: seq<byte>, ls: seq<Step>, n: State)
    requires s.worker == Arrived(id, status, payload) && s.mutex == Free &&
             Leads(LookedUp(s, id, status, payload), ls, n)
    ensures Leads(s, [Lookup] + ls, n)
  {
    hide Leads, LookedUp;
    LeadsFirst(s, Lookup, ls, n);
  }

  lemma EndsHere(s: State)
    ensures Leads(s, [], s)
  {
  }

  /** The step is possible and leads to `n`. */
  ghost predicate Takes(s: State, l: Step, n: State) { Enabled(s, l) && Apply(s, l) == n }

  lemma TakesFirst(s: State, l: Step, m: State, ls: seq<Step>, n: State)
    requires Takes(s, l, m) && Leads(m, ls, n)
    ensures Leads(s, [l] + ls, n)
  {
    hide Enabled, Apply;
    LeadsFirst(s, l, ls, n);
  }

  lemma NoteApplies(s: State, r: Request, status: nat, payload: seq<byte>)
    requires s.worker == Detached(r, status, payload)
    ensures Takes(s, Note, Noted(s, r, status, payload))
    ensures Noted(s, r, status, payload).worker == Answering(r, Reply(true, status, payload))
  {
  }

  lemma AnswerApplies(s: State, r: Request, reply: Reply)
    requires s.worker == Answering(r, reply)
    ensures Takes(s, Answer, Engine.Answered(s, r, reply))
  {
    hide Engine.Answered;
  }

  lemma AnswerLeads(s: State, r: Request, status: nat, payload: seq<byte>)
    requires s.worker == Detached(r, status, payload)
    ensures Leads(s, [Note, Answer], Engine.Answered(Noted(s, r, status, payload), r, Reply(true, status, payload)))
  {
    hide Engine.Answered, Noted, Leads, Takes;
    var noted, reply := Noted(s, r, status, payload), Reply(true, status, payload);
    var n := Engine.Answered(noted, r, reply);
    NoteApplies(s, r, status, payload);
    AnswerApplies(noted, r, reply);
    EndsHere(n);
    TakesFirst(noted, Answer, n, [], n);
    TakesFirst(s, Note, noted, [Answer] + [], n);
    assert [Note] + ([Answer] + []) == [Note, Answer];
  }

  // ----- whole operations -----

  function Cleared(s: State, after: After): State {
    Resumed(s.(device := Disconnected(s.device)), after)
  }

  lemma ClearApplies(s: State, after: After)
    requires s.worker == Draining([], after)
    ensures Takes(s, ClearState, Cleared(s, after))
  {
    hide Disconnected, Resumed;
  }

  lemma ClearLeads(s: State, after: After)
    requires s.worker == Draining([], after)
    ensures Leads(s, [ClearState] + [], Cleared(s, after))
  {
    hide Cleared, Leads, Takes;
    ClearApplies(s, after);
    EndsHere(Cleared(s, after));
    TakesFirst(s, ClearState, Cleared(s, after), [], Cleared(s, after));
  }

  lemma {:induction false} FailuresLead(s: State, held: seq<Request>, after: After) returns (ls: seq<Step>)
    requires s.worker == Draining(held, after)
    ensures Leads(s, ls, Cleared(FailedEach(s, held, after), after))
    decreases |held|
  {
    hide Leads, Cleared, Resolve;
    if held == [] {
      ClearLeads(s, after);
      ls := [ClearState] + [];
    } else {
      ls := FailuresLead(OneFailed(s, held, after), held[1..], after);
      FailLeads(s, held, after, ls, Cleared(FailedEach(s, held, after), after));
      ls := [FailNext] + ls;
    }
  }

  /** After its first statement, `disconnect` is the engine's steps from closing the socket to clearing the state. */
  lemma DisconnectLeads(s: State, after: After, order: seq<Request>) returns (ls: seq<Step>)
    requires s.mutex == Free && Visits(order, s.inFlight)
    ensures Leads(Drop(s, after), ls, CutOff(s, after, order))
  {
    var closed := s.(connected := false, socket := false, worker := Closed(after));
    var held := order + s.queue + s.priorityQueue;
    ls := FailuresLead(Taken(closed, order, after), held, after);
    hide FailedEach, Visits, Resumed, Disconnected, Leads, Taken, Drop;
    var n := CutOff(s, after, order);
    TakeLeads(closed, after, order, ls, n);
    CloseLeads(s, after, [TakeAll(order)] + ls, n);
    ls := [CloseSocket] + ([TakeAll(order)] + ls);
  }

  lemma ShortFrameLeads(s: State, id: Id, payload: seq<byte>)
    requires s.worker == Parsing && s.unparsed > 0 && |payload| < 2
    ensures Leads(s, [Step.Frame(id, payload)] + [], s.(unparsed := s.unparsed - 1))
  {
    LeadsFirst(s, Step.Frame(id, payload), [], s.(unparsed := s.unparsed - 1));
  }

  lemma LookupKeeps(s: State, id: Id, status: nat, payload: seq<byte>)
    ensures var w := LookedUp(s, id, status, payload).worker; w.Detached? ==> w == Detached(w.request, status, payload)
  {
    hide LookedUp, Remove;
    if id !in s.inFlight {
      LookupMisses(s, id, status, payload);
    } else if s.inFlight[id].allowPending && status == STATUS_COMMAND_PENDING {
      LookupPostpones(s, id, status, payload);
    } else {
      LookupDetaches(s, id, status, payload);
    }
  }

  /** `handle_frame` is the arrival and, unless the payload is too short, the lookup and, for a final reply, the note
      and the answer. */
  lemma HandlingLeads(s: State, id: Id, payload: seq<byte>) returns (ls: seq<Step>)
    requires s.worker == Parsing && s.unparsed > 0 && s.mutex == Free
    ensures Leads(s, ls, Handled(s, id, payload))
  {
    hide Updated, Status, LookedUp, Engine.Answered, Noted;
    var n := Handled(s, id, payload);
    ls := [];
    if |payload| < 2 {
      ShortFrameLeads(s, id, payload);
      ls := [Step.Frame(id, payload)] + [];
    } else {
      var status := Status(payload);
      var arrived := s.(unparsed := s.unparsed - 1, device := Updated(s.device, id, status, payload),
                        worker := Arrived(id, status, payload));
      var looked := LookedUp(arrived, id, status, payload);
      if looked.worker.Detached? {
        LookupKeeps(arrived, id, status, payload);
        AnswerLeads(looked, looked.worker.request, status, payload);
        ls := [Note, Answer];
      }
      hide Leads;
      LookupLeads(arrived, id, status, payload, ls, n);
      ArriveLeads(s, id, payload, [Lookup] + ls, n);
      ls := [Step.Frame(id, payload)] + ([Lookup] + ls);
    }
  }

  lemma ConnectApplies(s: State)
    requires s.worker == Dialing
    ensures Takes(s, Connect, s.(socket := true, device := Connected(s.device), worker := Bumped))
  {
    hide Connected;
  }

  lemma AnnounceApplies(s: State)
    requires s.worker == Bumped
    ensures Takes(s, Announce, s.(connected := true, sampled := s.clock, worker := Fresh))
  {
  }

  /** The state part of `connect_socket` is the state write and the flag. */
  lemma ConnectLeads(s: State)
    requires s.worker == Dialing
    ensures Leads(s, [Connect] + ([Announce] + []),
                  s.(socket := true, device := Connected(s.device), connected := true, sampled := s.clock,
                     worker := Fresh))
  {
    hide Connected, Leads, Takes;
    var bumped := s.(socket := true, device := Connected(s.device), worker := Bumped);
    var n := s.(socket := true, device := Connected(s.device), connected := true, sampled := s.clock, worker := Fresh);
    ConnectApplies(s);
    AnnounceApplies(bumped);
    EndsHere(n);
    TakesFirst(bumped, Announce, n, [], n);
    TakesFirst(s, Connect, bumped, [Announce] + [], n);
  }

  lemma LockLeads(s: State, r: Request, ls: seq<Step>, n: State)
    requires s.mutex == Free && IsCall(s, r, Created) && Leads(CallLocked(s, r), ls, n)
    ensures Leads(s, [CallLock(r)] + ls, n)
  {
    hide Leads, CallLocked;
    LeadsFirst(s, CallLock(r), ls, n);
  }

  lemma UnlockLeads(s: State, r: Request, ls: seq<Step>, n: State)
    requires s.mutex.Owned? && s.mutex.owner == r && IsCall(s, r, Locked) && Leads(CallUnlocked(s, r), ls, n)
    ensures Leads(s, [CallUnlock(r)] + ls, n)
  {
    hide Leads, CallUnlocked;
    LeadsFirst(s, CallUnlock(r), ls, n);
  }

  /** `command` is the locked section and, if the request was not queued, its failure. */
  lemma CommandLeads(s: State, r: Request) returns (ls: seq<Step>)
    requires s.mutex == Free && IsCall(s, r, Created)
    ensures var unlocked := CallUnlocked(CallLocked(s, r), r);
            Leads(s, ls, if s.connected then unlocked else CallFailed(unlocked, r))
  {
    hide Enqueue, Resolve;
    var locked := CallLocked(s, r);
    var unlocked := CallUnlocked(locked, r);
    var n := if s.connected then unlocked else CallFailed(unlocked, r);
    ls := [];
    if !s.connected {
      hide CallFailed;
      LeadsFirst(unlocked, CallFail(r), [], n);
      ls := [CallFail(r)] + [];
    }
    UnlockLeads(locked, r, ls, n);
    LockLeads(s, r, [CallUnlock(r)] + ls, n);
    ls := [CallLock(r)] + ([CallUnlock(r)] + ls);
  }

  /** The sections that are single steps. */
  lemma SectionsLead(s: State)
    requires s.mutex == Free
    ensures s.worker == Dispatching ==> Leads(s, [Dispatch] + [], Dispatched(s))
    ensures s.worker.Failing? ==> Leads(s, [FailSend] + [], SendFailed(s, s.worker.request))
    ensures forall rs :: s.worker == Subscribing && IsStream(s, rs) ==> Leads(s, [Stream(rs)] + [], Streaming(s, rs))
  {
    hide Dispatched, SendFailed, Streaming, IsStream;
    if s.worker == Dispatching {
      LeadsFirst(s, Dispatch, [], Dispatched(s));
    }
    if s.worker.Failing? {
      LeadsFirst(s, FailSend, [], SendFailed(s, s.worker.request));
    }
    forall rs | s.worker == Subscribing && IsStream(s, rs)
      ensures Leads(s, [Stream(rs)] + [], Streaming(s, rs))
    {
      LeadsFirst(s, Stream(rs), [], Streaming(s, rs));
    }
  }

  lemma SampleApplies(s: State)
    requires s.worker == Expiring
    ensures Takes(s, Sample, s.(worker := Checking(s.clock)))
  {
  }

  /** What the check leads to: the end of the iteration, or the beginning of `disconnect`. */
  function Verdict(s: State): State {
    if Expired(s, s.clock) then Drop(s, ToLoop) else s.(sampled := s.clock, worker := Loop)
  }

  lemma ExpireApplies(s: State)
    requires s.mutex == Free
    ensures Takes(s.(worker := Checking(s.clock)), Expire, Verdict(s))
  {
    var checking := s.(worker := Checking(s.clock));
    assert Expired(checking, s.clock) == Expired(s, s.clock);
    hide Expired;
  }

  /** `expire_requests` reads the clock, checks and, if it finds an expired deadline, runs the whole of `disconnect`.
      */
  lemma ExpiryLeads(s: State, order: seq<Request>) returns (ls: seq<Step>)
    requires s.worker == Expiring && s.mutex == Free && Visits(order, s.inFlight)
    ensures Leads(s, ls,
                  if Expired(s, s.clock) then CutOff(s, ToLoop, order) else s.(sampled := s.clock, worker := Loop))
  {
    hide Expired, CutOff, Visits, Leads, Takes, Drop;
    var n := if Expired(s, s.clock) then CutOff(s, ToLoop, order) else s.(sampled := s.clock, worker := Loop);
    ls := [];
    if Expired(s, s.clock) {
      ls := DisconnectLeads(s, ToLoop, order);
    } else {
      EndsHere(n);
    }
    SampleApplies(s);
    ExpireApplies(s);
    var checking := s.(worker := Checking(s.clock));
    TakesFirst(checking, Expire, Verdict(s), ls, n);
    TakesFirst(s, Sample, checking, [Expire] + ls, n);
    ls := [Sample] + ([Expire] + ls);
  }
}
