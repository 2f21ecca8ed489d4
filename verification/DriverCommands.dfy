/** Every command the driver can ever send, byte by byte. */
module DriverCommands {
  import opened Engine
  import EngineFields
  import opened Driver
  import DriverTheorems

  /** A request of the driver: its payload where the goal has no say in it, its timeout, and its lane. */
  predicate IsCommand(r: Request, o: Options) {
    && r.allowPending && (r.priority <==> r.id == 0x22)
    && (r.timeout ==
          if r.id == 0x20 || r.id == 0x21 || r.id == 0x25 || r.id == 0x26 then o.motionTimeout else o.responseTimeout)
    && match r.id {
         case 0x20 => r.payload == [0]
         case 0x21 => r.payload != [] && (r.payload[0] == 0 || r.payload[0] == 2)
         case 0x22 => r.payload == []
         case 0x24 => r.payload == [0x61, 0x63, 0x6b]
         case 0x38 => r.payload == []
         case _ => r.id == 0x25 || r.id == 0x26 || r.id == 0x30 || r.id == 0x32
       }
  }

  /** A request of the transport itself, for a stream of telemetry. */
  predicate IsSubscription(r: Request) {
    && !r.allowPending && !r.priority
    && (r.id == 0x40 || r.id == 0x41 || r.id == 0x43 || r.id == 0x44 || r.id == 0x45)
  }

  predicate IsKnown(r: Request, o: Options) {
    if r.internal then IsSubscription(r) else IsCommand(r, o)
  }

  predicate AllKnown(rs: set<Request>, o: Options) {
    forall r :: r in rs ==> IsKnown(r, o)
  }

  lemma GoalCommand(s: System, j: Job, a: Action)
    requires CanAct(s, j, a) && a.Send?
    ensures IsKnown(a.request, s.options)
  {
    hide Engine.Success, Fulfilled, Unsettled, HasReturned, IsResolved;
  }

  lemma PlannedCommand(o: Options, k: nat, r: Request)
    requires k < |Plan(o)| && Carries(r, Plan(o)[k])
    ensures IsKnown(r, o)
  {
  }

  lemma ServiceCommand(s: System, l: Label)
    requires Can(s, l) && (l.ServiceCalls? || l.HomeSends?)
    ensures IsKnown(l.request, s.options)
  {
  }

  lemma InitCommand(s: System, l: Label)
    requires Can(s, l) && l.InitSends?
    ensures IsKnown(l.request, s.options)
  {
    hide Plan, Carries, IsKnown;
    PlannedCommand(s.options, |s.init.performed|, l.request);
  }

  lemma Subscriptions(s: State, rs: seq<Request>, o: Options)
    requires IsStream(s, rs)
    ensures forall r :: r in rs ==> IsKnown(r, o)
  {
    hide IsCommand;
  }

  lemma StreamAdds(s: State, rs: seq<Request>)
    requires Enabled(s, Stream(rs))
    ensures Apply(s, Stream(rs)).submitted == s.submitted + set r | r in rs
  {
  }

  lemma EngineAdds(s: State, l: Step, o: Options)
    requires Enabled(s, l) && !l.Submit? && AllKnown(s.submitted, o)
    ensures AllKnown(Apply(s, l).submitted, o)
  {
    if l.Stream? {
      Subscriptions(s, l.requests, o);
      hide IsKnown;
      StreamAdds(s, l.requests);
    } else {
      EngineFields.StepKeeps(s, l);
      hide Enabled, Apply, IsKnown;
    }
  }

  /** What the label adds to the requests made. */
  lemma OneMore(s: System, l: Label)
    requires Can(s, l) && DriverTheorems.EngineStep(l).Some? && DriverTheorems.EngineStep(l).value.Submit?
    ensures IsKnown(DriverTheorems.EngineStep(l).value.request, s.options)
  {
    hide Enabled, Apply, IsService, Driver.Fresh, Plan, IsKnown;
    if l.GoalActs? {
      GoalCommand(s, s.motion.jobs[l.n], l.action);
    } else if l.InitSends? {
      InitCommand(s, l);
    } else if !l.EngineMoves? {
      ServiceCommand(s, l);
    }
  }

  lemma SubmitAdds(s: State, r: Request)
    requires Enabled(s, Submit(r))
    ensures Apply(s, Submit(r)).submitted == s.submitted + {r}
  {
  }

  lemma KnownStep(s: System, l: Label)
    requires Can(s, l) && AllKnown(s.engine.submitted, s.options)
    ensures AllKnown(Advance(s, l).engine.submitted, s.options)
  {
    hide Can, Advance, Enabled, Apply, IsKnown;
    DriverTheorems.EngineIsEmbedded(s, l);
    if DriverTheorems.EngineStep(l).Some? {
      var step := DriverTheorems.EngineStep(l).value;
      if step.Submit? {
        OneMore(s, l);
        SubmitAdds(s.engine, step.request);
      } else {
        EngineAdds(s.engine, step, s.options);
      }
    }
  }

  lemma NoneAtFirst(h: History, o: Options)
    requires ValidHistory(h, o)
    ensures h.states[0].engine.submitted == {}
  {
    hide Can, Advance;
  }

  /** Whatever is ever asked of the device is one of the known commands, as the driver words it, or a subscription. */
  lemma {:induction false} OnlyKnownCommands(h: History, o: Options, k: nat)
    requires ValidHistory(h, o) && k < |h.states|
    ensures forall r :: r in h.states[k].engine.submitted ==> IsKnown(r, o)
    decreases k
  {
    hide Can, Advance, IsKnown;
    if k == 0 {
      NoneAtFirst(h, o);
    } else {
      OnlyKnownCommands(h, o, k - 1);
      DriverTheorems.OptionsStay(h, o, k - 1);
      KnownStep(h.states[k - 1], h.labels[k - 1]);
    }
  }
}
