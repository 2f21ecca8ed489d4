/** What a frame does to the request it answers, and where a reply comes from. */
module EngineReplies {
  import opened Crc
  import opened Frames
  import opened Device
  import opened Engine
  import opened EngineInvariant
  import opened EngineRuns
  import opened EngineFields
  import opened EngineTransmission
  import EngineSteps
  import EngineTheorems

  /** The sixteen-bit status a payload begins with, low byte first. */
  function Word(p: seq<byte>): nat
    requires |p| >= 2
  {
    Value(p[0]) + 0x100 * Value(p[1])
  }

  /** A pending status leaves a request that allows it in flight. */
  predicate Final(r: Request, status: nat) { !(r.allowPending && status == 26) }

  /** The request of `flight` that a frame with this payload answers for good. */
  predicate Claims(flight: map<Id, Request>, id: Id, p: seq<byte>, r: Request)
    requires |p| >= 2
  {
    id in flight && flight[id] == r && Final(r, Word(p))
  }

  /** The worker is at work on the frame that arrived in `s0`. */
  predicate Handling(s0: State, id: Id, p: seq<byte>, s: State)
    requires |p| >= 2
  {
    && s.clock >= s0.clock
    && match s.worker {
         case Arrived(i, status, q) => i == id && status == Word(p) && q == p && s.inFlight == s0.inFlight
         case Detached(r, status, q) =>
           Claims(s0.inFlight, id, p, r) && status == Word(p) && q == p && s.inFlight == s0.inFlight - {id}
         case Answering(r, reply) =>
           Claims(s0.inFlight, id, p, r) && reply == Reply(true, Word(p), p) && s.inFlight == s0.inFlight - {id}
         case _ => false
       }
  }

  /** What the frame has come to: it has answered the request in flight under its id, moved its deadline, or found no
      such request. */
  predicate Handled(s0: State, id: Id, p: seq<byte>, s: State)
    requires |p| >= 2
  {
    if id !in s0.inFlight then s.inFlight == s0.inFlight
    else
      var r := s0.inFlight[id];
      if Final(r, Word(p)) then
        r in s.resolved && s.resolved[r] == Reply(true, Word(p), p) && s.inFlight == s0.inFlight - {id}
      else
        s.inFlight == s0.inFlight && r in s.deadline && s0.clock + r.timeout <= s.deadline[r] <= s.clock + r.timeout
  }

  predicate InHand(w: Worker) { w.Arrived? || w.Detached? || w.Answering? }

  lemma FrameBegins(s: State, id: Id, p: seq<byte>)
    requires Enabled(s, Step.Frame(id, p)) && |p| >= 2
    ensures Handling(s, id, p, Apply(s, Step.Frame(id, p)))
  {
    hide Updated;
  }

  lemma ShortFrame(s: State, id: Id, p: seq<byte>)
    requires Enabled(s, Step.Frame(id, p)) && |p| < 2
    ensures Apply(s, Step.Frame(id, p)) == s.(unparsed := s.unparsed - 1)
  {
  }

  lemma MissHandles(s0: State, id: Id, p: seq<byte>, s: State)
    requires |p| >= 2 && s.worker.Arrived? && Handling(s0, id, p, s) && id !in s.inFlight
    ensures Handled(s0, id, p, s.(worker := Parsing))
  {
    hide Value, Final;
  }

  lemma PendingHandles(s0: State, id: Id, p: seq<byte>, s: State, deadline: map<Request, nat>)
    requires |p| >= 2 && s.worker.Arrived? && Handling(s0, id, p, s) && id in s.inFlight
    requires !Final(s.inFlight[id], Word(p))
    requires deadline == s.deadline[s.inFlight[id] := s.clock + s.inFlight[id].timeout]
    ensures Handled(s0, id, p, s.(deadline := deadline, worker := Parsing))
  {
    hide Value, Final;
  }

  lemma DetachHandles(s0: State, id: Id, p: seq<byte>, s: State)
    requires |p| >= 2 && s.worker.Arrived? && Handling(s0, id, p, s) && id in s.inFlight && s.inFlight[id].id == id
    requires Final(s.inFlight[id], Word(p))
    ensures var r := s.inFlight[id];
            Handling(s0, id, p, Remove(s, r).(worker := Detached(r, s.worker.status, s.worker.payload)))
  {
    hide Value, Final;
  }

  lemma LookupHandles(s0: State, id: Id, p: seq<byte>, s: State)
    requires |p| >= 2 && s.worker.Arrived? && Handling(s0, id, p, s) && (id in s.inFlight ==> s.inFlight[id].id == id)
    ensures var n := LookedUp(s, s.worker.id, s.worker.status, s.worker.payload);
            Handling(s0, id, p, n) || (n.worker == Parsing && Handled(s0, id, p, n))
  {
    assert s.worker == Arrived(id, Word(p), p);
    if id !in s.inFlight {
      MissHandles(s0, id, p, s);
    } else if Final(s.inFlight[id], Word(p)) {
      DetachHandles(s0, id, p, s);
    } else {
      PendingHandles(s0, id, p, s, s.deadline[s.inFlight[id] := s.clock + s.inFlight[id].timeout]);
    }
    hide Handling, Handled, Remove, Word;
  }

  lemma NoteHandles(s0: State, id: Id, p: seq<byte>, s: State)
    requires |p| >= 2 && s.worker.Detached? && Handling(s0, id, p, s)
    ensures Handling(s0, id, p, Apply(s, Note))
  {
    hide Value;
  }

  lemma AnswerHandles(s0: State, id: Id, p: seq<byte>, s: State)
    requires |p| >= 2 && s.worker.Answering? && Handling(s0, id, p, s) && s.worker.request !in s.resolved
    ensures var n := Answered(s, s.worker.request, s.worker.reply); n.worker == Parsing && Handled(s0, id, p, n)
  {
    hide Value;
  }

  lemma OtherHandles(s0: State, id: Id, p: seq<byte>, s: State, l: Step, n: State)
    requires |p| >= 2 && Handling(s0, id, p, s) && Keeps(s, l, n) && !l.Lookup? && !l.Note? && !l.Answer?
    requires !l.Dispatch? && !l.FailSend? && !l.TakeAll?
    ensures Handling(s0, id, p, n)
  {
    hide Value, Claims;
  }

  lemma HeldIsUnresolved(s: State)
    requires Inv(s) && s.worker.Answering?
    ensures s.worker.request !in s.resolved
  {
    assert s.worker.request in Held(s.worker);
    EngineSteps.OnePlace(s, s.worker.request);
    hide Linked, Coherent, Dated, Ordered, Guarded, Tracked, Down;
  }

  lemma NothingElse(s: State, l: Step)
    requires Enabled(s, l) && InHand(s.worker)
    ensures !l.Dispatch? && !l.FailSend? && !l.TakeAll?
    ensures l.Lookup? ==> s.worker.Arrived?
    ensures l.Note? ==> s.worker.Detached?
    ensures l.Answer? ==> s.worker.Answering?
  {
    hide Visits;
  }

  lemma ContainerHandles(s0: State, id: Id, p: seq<byte>, s: State, l: Step)
    requires Inv(s) && Enabled(s, l) && |p| >= 2 && Handling(s0, id, p, s) && (l.Lookup? || l.Answer?)
    ensures var n := Apply(s, l); Handling(s0, id, p, n) || (n.worker == Parsing && Handled(s0, id, p, n))
  {
    EngineSteps.KeyedById(s) by { hide Linked, Coherent, Dated, Ordered, Guarded, Tracked, Down; }
    if l.Answer? {
      HeldIsUnresolved(s);
    }
    hide Inv, Handling, Handled, LookedUp, Answered;
    if l.Lookup? {
      LookupHandles(s0, id, p, s);
    } else {
      AnswerHandles(s0, id, p, s);
    }
  }

  /** Every step carries the handling of a frame on, or completes it. */
  lemma HandlingStep(s0: State, id: Id, p: seq<byte>, s: State, l: Step)
    requires Inv(s) && Enabled(s, l) && |p| >= 2 && Handling(s0, id, p, s)
    ensures var n := Apply(s, l); Handling(s0, id, p, n) || (n.worker == Parsing && Handled(s0, id, p, n))
  {
    assert InHand(s.worker);
    NothingElse(s, l);
    hide Inv, Enabled, Apply, Handling, Handled, Keeps;
    if l.Lookup? || l.Answer? {
      ContainerHandles(s0, id, p, s, l);
    } else if l.Note? {
      NoteHandles(s0, id, p, s);
    } else {
      StepKeeps(s, l);
      OtherHandles(s0, id, p, s, l, Apply(s, l));
    }
  }

  lemma {:induction false} HandledMeanwhile(run: Run, m: nat, k: nat, id: Id, p: seq<byte>)
    requires ValidRun(run) && m < k < |run.states| && run.steps[m] == Step.Frame(id, p) && |p| >= 2
    requires forall j :: m < j < k ==> run.states[j].worker != Parsing
    ensures var s0, s := run.states[m], run.states[k];
            Handling(s0, id, p, s) || (s.worker == Parsing && Handled(s0, id, p, s))
    decreases k
  {
    hide Inv, Enabled, Apply, Handling, Handled;
    if k == m + 1 {
      FrameBegins(run.states[m], id, p);
    } else {
      HandledMeanwhile(run, m, k - 1, id, p);
      InvRun(run, k - 1);
      HandlingStep(run.states[m], id, p, run.states[k - 1], run.steps[k - 1]);
    }
  }

  lemma ParsingIsDone(s0: State, id: Id, p: seq<byte>, s: State)
    requires |p| >= 2 && s.worker == Parsing
    ensures !Handling(s0, id, p, s)
  {
  }

  /** `handle_frame`, in every interleaving: by the time the parser goes on, the frame has answered the request in
      flight under its id with exactly its status and payload and taken it out of flight; or, with a pending status
      that the request allows, has moved its deadline by a timeout from then; or, if no request was in flight under its
      id, has left the table alone. */
  lemma FrameAnswers(run: Run, m: nat, k: nat, id: Id, p: seq<byte>)
    requires ValidRun(run) && m < k < |run.states| && run.steps[m] == Step.Frame(id, p) && |p| >= 2
    requires run.states[k].worker == Parsing && forall j :: m < j < k ==> run.states[j].worker != Parsing
    ensures Handled(run.states[m], id, p, run.states[k])
  {
    HandledMeanwhile(run, m, k, id, p);
    ParsingIsDone(run.states[m], id, p, run.states[k]);
    hide ValidRun, Handling, Handled;
  }

  // ----- where replies come from -----

  lemma NothingBefore(s: State, l: Step)
    requires Enabled(s, l) && (l.Lookup? || l.Note? || l.Answer?)
    ensures InHand(s.worker)
  {
  }

  lemma InHandBy(s: State, l: Step)
    requires Enabled(s, l) && !InHand(s.worker) && InHand(Apply(s, l).worker)
    ensures l.Frame? && |l.payload| >= 2
  {
    StepKeeps(s, l);
    if l.Lookup? || l.Note? || l.Answer? {
      NothingBefore(s, l);
    }
    if l.Frame? && |l.payload| < 2 {
      ShortFrame(s, l.id, l.payload);
    }
    hide Enabled, Apply;
  }

  lemma ParserHasNone()
    ensures !InHand(Parsing)
  {
  }

  lemma NoneAtFirst(run: Run)
    requires ValidRun(run)
    ensures !InHand(run.states[0].worker) && run.states[0].resolved == map[]
  {
    hide Enabled, Apply;
  }

  /** The arrival of the frame the worker has in hand. */
  lemma {:induction false} InHandSince(run: Run, k: nat) returns (m: nat)
    requires ValidRun(run) && k < |run.states| && InHand(run.states[k].worker)
    ensures m < k && run.steps[m].Frame? && |run.steps[m].payload| >= 2
    ensures Handling(run.states[m], run.steps[m].id, run.steps[m].payload, run.states[k])
    decreases k
  {
    hide Inv, Enabled, Apply, Handling, InHand, Handled;
    if k == 0 {
      NoneAtFirst(run);
    } else {
      var s, l := run.states[k - 1], run.steps[k - 1];
      if InHand(s.worker) {
        m := InHandSince(run, k - 1);
        InvRun(run, k - 1);
        HandlingStep(run.states[m], run.steps[m].id, run.steps[m].payload, s, l);
        assert run.states[k].worker != Parsing by { ParserHasNone(); }
      } else {
        InHandBy(s, l);
        m := k - 1;
        assert l == Step.Frame(l.id, l.payload);
        FrameBegins(s, l.id, l.payload);
      }
    }
  }

  lemma ResolveResolves(s: State, q: Request, reply: Reply)
    ensures Resolve(s, q, reply).resolved == if q in s.resolved then s.resolved else s.resolved[q := reply]
  {
  }

  /** If the step resolves `r`, then as failed, or by answering it. */
  predicate Brings(s: State, l: Step, n: State, r: Request) {
    r !in s.resolved && r in n.resolved ==>
      n.resolved[r] == FAILED || (l.Answer? && s.worker == Answering(r, n.resolved[r]))
  }

  lemma CallFailBrings(s: State, q: Request, r: Request)
    ensures Brings(s, CallFail(q), CallFailed(s, q), r)
  {
    ResolveResolves(s, q, FAILED);
    hide Resolve;
  }

  lemma FailSendBrings(s: State, q: Request, r: Request)
    ensures Brings(s, FailSend, SendFailed(s, q), r)
  {
    FailSendParts(s, q);
    hide SendFailed;
  }

  lemma AnswerBrings(s: State, q: Request, reply: Reply, r: Request)
    requires s.worker == Answering(q, reply)
    ensures Brings(s, Answer, Answered(s, q, reply), r)
  {
    ResolveResolves(s, q, reply);
    hide Resolve;
  }

  lemma FailNextBrings(s: State, held: seq<Request>, after: After, r: Request)
    requires held != []
    ensures Brings(s, FailNext, OneFailed(s, held, after), r)
  {
    ResolveResolves(s, held[0], FAILED);
    hide Resolve;
  }

  lemma ResolvingStep(s: State, l: Step, r: Request)
    requires Enabled(s, l) && (l.CallFail? || l.FailSend? || l.Answer? || l.FailNext?)
    ensures Brings(s, l, Apply(s, l), r)
  {
    hide Brings, CallFailed, SendFailed, Answered, OneFailed;
    match l
    case CallFail(q) => CallFailBrings(s, q, r);
    case FailSend => FailSendBrings(s, s.worker.request, r);
    case Answer => AnswerBrings(s, s.worker.request, s.worker.reply, r);
    case FailNext => FailNextBrings(s, s.worker.held, s.worker.after, r);
  }

  /** Only an answer resolves a request with something other than a failure. */
  lemma ResolutionStep(s: State, l: Step, r: Request)
    requires Enabled(s, l)
    ensures Brings(s, l, Apply(s, l), r)
  {
    hide Enabled, Apply;
    if l.CallFail? || l.FailSend? || l.Answer? || l.FailNext? {
      ResolvingStep(s, l, r);
    } else {
      StepKeeps(s, l);
    }
  }

  /** The frame a reply was made from: it arrived under the request's id while the request was in flight, when the
      request had been transmitted, and the reply is its status and payload. */
  predicate MadeFrom(run: Run, m: nat, r: Request, reply: Reply)
    requires m < |run.steps| <= |run.states|
  {
    && run.steps[m] == Step.Frame(r.id, reply.payload) && |reply.payload| >= 2
    && reply == Reply(true, Word(reply.payload), reply.payload) && Final(r, reply.status)
    && InFlight(run.states[m].inFlight, r)
    && r in run.states[m].acceptedOn && SentOnceOn(run.states[m].transmitted, r, run.states[m].acceptedOn[r])
  }

  lemma KeyedIn(s: State)
    requires Inv(s)
    ensures forall id :: id in s.inFlight ==> s.inFlight[id].id == id
  {
    EngineSteps.KeyedById(s) by { hide Linked, Coherent, Dated, Ordered, Guarded, Tracked, Down; }
    hide Inv;
  }

  lemma FrameInParser(s: State, l: Step)
    requires Enabled(s, l) && l.Frame?
    ensures s.worker == Parsing
  {
  }

  lemma AnsweringIsMade(run: Run, k: nat) returns (m: nat)
    requires ValidRun(run) && k < |run.states| && run.states[k].worker.Answering?
    ensures m < k && |run.steps| <= |run.states|
    ensures MadeFrom(run, m, run.states[k].worker.request, run.states[k].worker.reply)
  {
    hide Inv, Enabled, Apply, SentOnceOn, Value, Final;
    m := InHandSince(run, k);
    InvRun(run, m);
    KeyedIn(run.states[m]);
    TransmittedOnce(run, m, run.states[k].worker.request);
    FrameInParser(run.states[m], run.steps[m]);
  }

  /** Every reply that is no failure is the device's: exactly the status and the payload of a frame that arrived under
      the request's id, after the request had been transmitted and while it was in flight. */
  lemma {:induction false} ReplyIsAFrame(run: Run, k: nat, r: Request) returns (m: nat)
    requires ValidRun(run) && k < |run.states| && r in run.states[k].resolved && run.states[k].resolved[r] != FAILED
    ensures m < k && |run.steps| <= |run.states| && MadeFrom(run, m, r, run.states[k].resolved[r])
    decreases k
  {
    hide Inv, Enabled, Apply, MadeFrom;
    if k == 0 {
      NoneAtFirst(run);
    } else {
      var s, l := run.states[k - 1], run.steps[k - 1];
      if r in s.resolved {
        EngineTheorems.ResolvedStays(s, l, r);
        m := ReplyIsAFrame(run, k - 1, r);
      } else {
        ResolutionStep(s, l, r);
        m := AnsweringIsMade(run, k - 1);
      }
    }
  }
}
