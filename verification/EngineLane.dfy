/** The priority lane is first-in first-out. */
module EngineLane {
  import opened Device
  import opened Engine
  import opened EngineInvariant
  import opened EngineRuns
  import opened EngineFields
  import EngineSteps

  /** What the step puts into the lane. */
  function Joins(s: State, l: Step): seq<Request> {
    match l
    case CallUnlock(r) => if s.mutex.Owned? && s.mutex.sawConnected && r.priority then [r] else []
    case _ => []
  }

  /** How many requests the step takes from the front of the lane. */
  function Leaves(s: State, l: Step): nat {
    match l
    case Dispatch => if s.priorityQueue != [] && s.priorityQueue[0].id !in s.inFlight then 1 else 0
    case TakeAll(_) => |s.priorityQueue|
    case _ => 0
  }

  /** Requests join at the end of the lane and leave at its front. */
  predicate Lanes(s: State, l: Step, n: State) {
    |s.priorityQueue + Joins(s, l)| >= Leaves(s, l) &&
    n.priorityQueue == (s.priorityQueue + Joins(s, l))[Leaves(s, l)..]
  }

  lemma EnqueueLanes(s: State, r: Request)
    requires s.mutex.Owned? && s.mutex.sawConnected
    ensures Lanes(s, CallUnlock(r), Enqueue(s, r))
  {
  }

  lemma UnlockLanes(s: State, r: Request)
    requires s.mutex.Owned?
    ensures Lanes(s, CallUnlock(r), CallUnlocked(s, r))
  {
    if s.mutex.sawConnected {
      EnqueueLanes(s, r);
    }
    hide Enqueue;
  }

  lemma LaunchLanes(s: State, queue: seq<Request>, priorityQueue: seq<Request>, serving: seq<Request>, r: Request)
    ensures Launched(s.(queue := queue, priorityQueue := priorityQueue, serving := serving), r).priorityQueue ==
              priorityQueue
  {
  }

  lemma PlaceLanes(s: State, w: Worker)
    ensures s.(worker := w).priorityQueue == s.priorityQueue
  {
  }

  lemma DispatchTakes(s: State)
    ensures Dispatched(s).priorityQueue == s.priorityQueue[Leaves(s, Dispatch)..]
  {
    hide Launched;
    PlaceLanes(s, Polling);
    if s.priorityQueue != [] {
      if s.priorityQueue[0].id !in s.inFlight {
        LaunchLanes(s, s.queue, s.priorityQueue[1..], s.serving, s.priorityQueue[0]);
      }
    } else if s.inFlight == map[] && s.queue != [] {
      LaunchLanes(s, s.queue[1..], s.priorityQueue, [s.queue[0]], s.queue[0]);
    }
  }

  lemma DispatchLanes(s: State)
    ensures Lanes(s, Dispatch, Dispatched(s))
  {
    DispatchTakes(s);
    assert s.priorityQueue + [] == s.priorityQueue;
    hide Dispatched;
  }

  lemma TakeLanes(s: State, order: seq<Request>, after: After)
    ensures Lanes(s, TakeAll(order), Taken(s, order, after))
  {
  }

  lemma LaneStep(s: State, l: Step)
    requires Enabled(s, l)
    ensures Lanes(s, l, Apply(s, l))
  {
    if l.CallUnlock? || l.Dispatch? || l.TakeAll? {
      hide Lanes, CallUnlocked, Dispatched, Taken, Visits;
      match l
      case CallUnlock(r) => UnlockLanes(s, r);
      case Dispatch => DispatchLanes(s);
      case TakeAll(order) => TakeLanes(s, order, s.worker.after);
    } else {
      hide Enabled, Apply, Hands;
      StepKeeps(s, l);
    }
  }

  // ----- the lane over whole runs -----

  /** The priority requests accepted in the first `k` steps, in the order of their acceptance. */
  function Joined(run: Run, k: nat): seq<Request>
    requires k <= |run.steps| <= |run.states|
  {
    if k == 0 then [] else Joined(run, k - 1) + Joins(run.states[k - 1], run.steps[k - 1])
  }

  predicate IsSuffix(part: seq<Request>, whole: seq<Request>) {
    |part| <= |whole| && part == whole[|whole| - |part|..]
  }

  lemma SuffixMoves(part: seq<Request>, whole: seq<Request>, more: seq<Request>, k: nat)
    requires IsSuffix(part, whole) && k <= |part + more|
    ensures IsSuffix((part + more)[k..], whole + more)
  {
    var gone := whole[..|whole| - |part|];
    assert whole + more == gone + (part + more);
  }

  lemma StartsEmpty(run: Run)
    requires ValidRun(run)
    ensures IsSuffix(run.states[0].priorityQueue, []) && run.states[0].acceptedOn == map[]
  {
    hide Enabled, Apply;
  }

  /** What waits in the lane is the end of what was accepted for it: those accepted first have left first. */
  lemma {:induction false} LaneIsSuffix(run: Run, k: nat)
    requires ValidRun(run) && k < |run.states|
    ensures IsSuffix(run.states[k].priorityQueue, Joined(run, k))
    decreases k
  {
    hide Enabled, Apply, Joins, Leaves, IsSuffix;
    if k == 0 {
      StartsEmpty(run);
    } else {
      var s, l := run.states[k - 1], run.steps[k - 1];
      LaneIsSuffix(run, k - 1);
      LaneStep(s, l);
      SuffixMoves(s.priorityQueue, Joined(run, k - 1), Joins(s, l), Leaves(s, l));
    }
  }

  // ----- who has joined -----

  lemma EnqueueAccepts(s: State, r: Request)
    ensures Enqueue(s, r).acceptedOn == s.acceptedOn[r := Generation(s)]
  {
  }

  lemma UnlockAccepts(s: State, q: Request, r: Request)
    requires s.mutex.Owned? && r.priority
    ensures r in CallUnlocked(s, q).acceptedOn <==> r in s.acceptedOn || r in Joins(s, CallUnlock(q))
  {
    EnqueueAccepts(s, q);
    hide Enqueue;
  }

  lemma StreamAccepts(s: State, rs: seq<Request>, r: Request)
    requires IsStream(s, rs) && r.priority
    ensures r in Streaming(s, rs).acceptedOn <==> r in s.acceptedOn
  {
  }

  /** A priority request is accepted exactly by joining the lane. */
  lemma AcceptanceStep(s: State, l: Step, r: Request)
    requires Enabled(s, l) && r.priority
    ensures r in Apply(s, l).acceptedOn <==> r in s.acceptedOn || r in Joins(s, l)
  {
    if l.CallUnlock? {
      hide Joins, CallUnlocked;
      UnlockAccepts(s, l.request, r);
    } else if l.Stream? {
      hide IsStream, Streaming;
      StreamAccepts(s, l.requests, r);
    } else {
      hide Enabled, Apply, Hands;
      StepKeeps(s, l);
    }
  }

  lemma JoinsPriority(s: State, l: Step, r: Request)
    ensures r in Joins(s, l) ==> r.priority
  {
  }

  lemma {:induction false} JoinedIsAccepted(run: Run, k: nat, r: Request)
    requires ValidRun(run) && k < |run.states|
    ensures r in Joined(run, k) <==> r.priority && r in run.states[k].acceptedOn
    decreases k
  {
    hide Enabled, Apply, Joins;
    if k == 0 {
      StartsEmpty(run);
    } else {
      var s, l := run.states[k - 1], run.steps[k - 1];
      JoinedIsAccepted(run, k - 1, r);
      JoinsPriority(s, l, r);
      if r.priority {
        AcceptanceStep(s, l, r);
      }
    }
  }

  /** Whoever joins has not been accepted before. */
  lemma JoinsAreNew(s: State, l: Step, r: Request)
    requires Inv(s) && Enabled(s, l) && r in Joins(s, l)
    ensures r !in s.acceptedOn && Joins(s, l) == [r]
  {
    hide Conserved, Linked, Coherent, Ordered, Tracked, Down, Apply;
    assert WithClient(s.calls, r);
  }

  lemma NoDupAppend(rs: seq<Request>, ts: seq<Request>)
    requires NoDup(rs) && NoDup(ts) && forall r :: r in ts ==> r !in rs
    ensures NoDup(rs + ts)
  {
    forall i, j | 0 <= i < j < |rs + ts|
      ensures (rs + ts)[i] != (rs + ts)[j]
    {
      if i < |rs| <= j {
        assert ts[j - |rs|] in ts;
      }
    }
  }

  lemma NoDupShort(rs: seq<Request>)
    requires |rs| <= 1
    ensures NoDup(rs)
  {
  }

  lemma {:induction false} JoinedOnce(run: Run, k: nat)
    requires ValidRun(run) && k < |run.states|
    ensures NoDup(Joined(run, k))
    decreases k
  {
    hide Enabled, Apply, Joins, Inv, NoDup;
    if k == 0 {
      assert NoDup([]) by { NoDupShort([]); }
    } else {
      var s, l := run.states[k - 1], run.steps[k - 1];
      JoinedOnce(run, k - 1);
      InvRun(run, k - 1);
      forall r | r in Joins(s, l)
        ensures r !in Joined(run, k - 1) && Joins(s, l) == [r]
      {
        JoinsAreNew(s, l, r);
        JoinedIsAccepted(run, k - 1, r);
      }
      assert Joins(s, l) == [] || Joins(s, l)[0] in Joins(s, l);
      NoDupShort(Joins(s, l));
      NoDupAppend(Joined(run, k - 1), Joins(s, l));
    }
  }

  lemma InTail(rs: seq<Request>, k: nat, j: nat)
    requires k <= j < |rs|
    ensures rs[j] in rs[k..]
  {
    assert rs[k..][j - k] == rs[j];
  }

  lemma NotYetJoined(rs: seq<Request>, k: nat, i: nat, j: nat)
    requires NoDup(rs) && k <= |rs| && i < j < |rs| && rs[j] !in rs[k..]
    ensures rs[i] !in rs[k..]
  {
    if j >= k {
      InTail(rs, k, j);
    }
  }

  lemma HasLeft(s: State, r: Request)
    requires Inv(s) && r.priority && r in s.acceptedOn && r !in s.priorityQueue
    ensures InFlight(s.inFlight, r) || r in Held(s.worker) || r in s.resolved
  {
    EngineSteps.OnePlace(s, r);
    hide Linked, Coherent, Ordered, Guarded, Tracked, Down;
  }

  /** The lane is first-in first-out over every run: of two priority requests the one accepted first leaves it first,
      so that when the other has left, it is in flight, in the worker's hands or resolved. */
  lemma LaneInOrder(run: Run, k: nat, i: nat, j: nat)
    requires ValidRun(run) && k < |run.states| && i < j < |Joined(run, k)|
    requires Joined(run, k)[j] !in run.states[k].priorityQueue
    ensures var s, q := run.states[k], Joined(run, k)[i];
            q !in s.priorityQueue && (InFlight(s.inFlight, q) || q in Held(s.worker) || q in s.resolved)
  {
    var s, q, all := run.states[k], Joined(run, k)[i], Joined(run, k);
    LaneIsSuffix(run, k);
    JoinedOnce(run, k);
    NotYetJoined(all, |all| - |s.priorityQueue|, i, j);
    JoinedIsAccepted(run, k, q);
    InvRun(run, k);
    hide ValidRun, Inv;
    HasLeft(s, q);
  }

  // ----- the head of the lane -----

  /** `r` heads the priority lane. */
  predicate Heads(s: State, r: Request) { s.priorityQueue != [] && s.priorityQueue[0] == r }

  lemma OnceInLane(s: State, r: Request)
    requires Inv(s) && r in s.priorityQueue
    ensures r in s.acceptedOn && r.priority && NoDup(s.priorityQueue)
  {
    hide Linked, Coherent, Ordered, Guarded, Tracked, Down;
  }

  lemma InEither(lane: seq<Request>, joins: seq<Request>, m: nat)
    requires m < |lane + joins|
    ensures if m < |lane| then (lane + joins)[m] == lane[m] else (lane + joins)[m] in joins
  {
    if m >= |lane| {
      assert (lane + joins)[m] == joins[m - |lane|];
    }
  }

  /** What is in the rest of a sequence was in it, and heads the rest if it headed the whole. */
  lemma RestOf(lane: seq<Request>, joins: seq<Request>, k: nat, r: Request)
    requires NoDup(lane) && r !in joins && k <= |lane + joins| && r in (lane + joins)[k..]
    ensures r in lane && (lane[0] == r ==> (lane + joins)[k..][0] == r)
  {
    var i :| 0 <= i < |(lane + joins)[k..]| && (lane + joins)[k..][i] == r;
    assert (lane + joins)[k + i] == r;
    InEither(lane, joins, k + i);
  }

  lemma NotJoiningTwice(s: State, l: Step, r: Request)
    requires Inv(s) && Enabled(s, l) && r in s.acceptedOn
    ensures r !in Joins(s, l) && NoDup(s.priorityQueue)
  {
    if r in Joins(s, l) {
      JoinsAreNew(s, l, r);
    }
    hide Linked, Coherent, Dated, Ordered, Guarded, Tracked, Down;
  }

  /** A request accepted before the step that waits after it has waited before it, at the head if it was there. */
  lemma WaitsOn(s: State, l: Step, r: Request)
    requires Inv(s) && Enabled(s, l) && r in s.acceptedOn && r in Apply(s, l).priorityQueue
    ensures r in s.priorityQueue && (Heads(s, r) ==> Heads(Apply(s, l), r))
  {
    hide Inv, Enabled, Apply, Joins, Leaves, NoDup;
    LaneStep(s, l);
    NotJoiningTwice(s, l, r);
    RestOf(s.priorityQueue, Joins(s, l), Leaves(s, l), r);
  }

  lemma AcceptedStays(s: State, l: Step, r: Request)
    requires Enabled(s, l) && r.priority && r in s.acceptedOn
    ensures r in Apply(s, l).acceptedOn
  {
    hide Enabled, Apply, Joins;
    AcceptanceStep(s, l, r);
  }

  lemma {:induction false} AcceptedForGood(run: Run, i: nat, j: nat, r: Request)
    requires ValidRun(run) && i <= j < |run.states| && r.priority && r in run.states[i].acceptedOn
    ensures r in run.states[j].acceptedOn
    decreases j
  {
    hide Enabled, Apply;
    if i < j {
      AcceptedForGood(run, i, j - 1, r);
      AcceptedStays(run.states[j - 1], run.steps[j - 1], r);
    }
  }

  lemma HeadWaits(s: State, r: Request)
    requires Heads(s, r)
    ensures r in s.priorityQueue
  {
  }

  /** A request at the head of the lane stays there as long as it waits. */
  lemma {:induction false} HeadStays(run: Run, i: nat, j: nat, r: Request)
    requires ValidRun(run) && i <= j < |run.states| && Heads(run.states[i], r) && r in run.states[j].priorityQueue
    ensures forall k :: i <= k <= j ==> Heads(run.states[k], r)
    decreases j
  {
    hide Enabled, Apply, Inv, Heads;
    if i < j {
      assert r in run.states[i].priorityQueue by { HeadWaits(run.states[i], r); }
      InvRun(run, i);
      OnceInLane(run.states[i], r);
      AcceptedForGood(run, i, j - 1, r);
      InvRun(run, j - 1);
      WaitsOn(run.states[j - 1], run.steps[j - 1], r);
      HeadStays(run, i, j - 1, r);
    }
  }
}
