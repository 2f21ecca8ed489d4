/** What the published state shows, as a function of the frames that have arrived. */
module EngineTelemetry {
  import opened Crc
  import opened Frames
  import opened Device
  import opened Engine
  import opened EngineFields
  import opened EngineReplies

  /** The number in four bytes of a payload, lowest byte first. */
  function Number(p: seq<byte>): nat
    requires |p| >= 6
  {
    Value(p[2]) + 0x100 * Value(p[3]) + 0x10000 * Value(p[4]) + 0x1000000 * Value(p[5])
  }

  lemma ReadIsNumber(p: seq<byte>)
    requires |p| >= 6
    ensures Unsigned(ReadU32(p, 2)) == Number(p)
  {
    hide Unsigned, Value, Joined;
    JoinedValue(p[2], p[3], p[4], p[5]);
  }

  /** A frame with this id, a success status and at least `n` bytes of payload. */
  predicate Tells(l: Step, id: Id, n: nat) {
    l.Frame? && l.id == id && |l.payload| >= n && |l.payload| >= 2 && Word(l.payload) == 0
  }

  /** The payload of the last such frame in the first `k` steps; empty if there is none. */
  function Told(run: Run, id: Id, n: nat, k: nat): (p: seq<byte>)
    requires k <= |run.steps|
    ensures p != [] ==> |p| >= n
  {
    if k == 0 then []
    else if Tells(run.steps[k - 1], id, n) then run.steps[k - 1].payload
    else Told(run, id, n, k - 1)
  }

  /** The same for the system state, since the last disconnect. */
  function SystemTold(run: Run, k: nat): (p: seq<byte>)
    requires k <= |run.steps|
    ensures p != [] ==> |p| >= 6
  {
    if k == 0 || run.steps[k - 1].ClearState? then []
    else if Tells(run.steps[k - 1], 0x40, 6) then run.steps[k - 1].payload
    else SystemTold(run, k - 1)
  }

  /** The last status: of a connection that comes up, of a frame that reports a failure, of a command that is answered,
      of a connection that ends. */
  function StatusTold(run: Run, k: nat): nat
    requires k <= |run.steps| <= |run.states|
  {
    if k == 0 then 0xffff
    else
      match run.steps[k - 1]
      case Connect => 0
      case Frame(_, p) => if |p| >= 2 && Word(p) != 0 then Word(p) else StatusTold(run, k - 1)
      case Note =>
        if run.states[k - 1].worker.Detached? then run.states[k - 1].worker.status else StatusTold(run, k - 1)
      case ClearState => 0xffff
      case _ => StatusTold(run, k - 1)
  }

  /** The floats, the grasping state and the system state, and the last status. */
  predicate Shows(d: DeviceState, opening: seq<byte>, speed: seq<byte>, force: seq<byte>, grasping: seq<byte>,
                  system: seq<byte>, status: nat)
    requires opening == [] || |opening| >= 6
    requires speed == [] || |speed| >= 6
    requires force == [] || |force| >= 6
    requires grasping == [] || |grasping| >= 3
    requires system == [] || |system| >= 6
  {
    && d.opening == (if opening == [] then [0, 0, 0, 0] else opening[2..6])
    && d.speed == (if speed == [] then [0, 0, 0, 0] else speed[2..6])
    && d.force == (if force == [] then [0, 0, 0, 0] else force[2..6])
    && d.graspingState == (if grasping == [] then 0 else grasping[2])
    && Unsigned(d.systemState) == (if system == [] then 0 else Number(system))
    && d.lastStatus == status
  }

  /** What the frames of the first `k` steps have told. */
  predicate Current(d: DeviceState, run: Run, k: nat)
    requires k <= |run.steps| <= |run.states|
  {
    Shows(d, Told(run, 0x43, 6, k), Told(run, 0x44, 6, k), Told(run, 0x45, 6, k), Told(run, 0x41, 3, k),
          SystemTold(run, k), StatusTold(run, k))
  }

  lemma StatusIsWord(p: seq<byte>)
    requires |p| >= 2
    ensures Status(p) == Word(p)
  {
    hide Value;
  }

  lemma DecodedShows(d: DeviceState, bits: bv32)
    ensures var n := Decoded(d, bits);
            && n.opening == d.opening && n.speed == d.speed && n.force == d.force
            && n.graspingState == d.graspingState && n.lastStatus == d.lastStatus && n.systemState == bits
  {
  }

  /** `update_state` in terms of the bytes. */
  lemma UpdatedShows(d: DeviceState, id: Id, p: seq<byte>)
    requires |p| >= 2
    ensures var n := Updated(d, id, Status(p), p);
            && n.opening == (if id == 0x43 && Word(p) == 0 && |p| >= 6 then p[2..6] else d.opening)
            && n.speed == (if id == 0x44 && Word(p) == 0 && |p| >= 6 then p[2..6] else d.speed)
            && n.force == (if id == 0x45 && Word(p) == 0 && |p| >= 6 then p[2..6] else d.force)
            && n.graspingState == (if id == 0x41 && Word(p) == 0 && |p| >= 3 then p[2] else d.graspingState)
            && Unsigned(n.systemState) ==
                 (if id == 0x40 && Word(p) == 0 && |p| >= 6 then Number(p) else Unsigned(d.systemState))
            && n.lastStatus == (if Word(p) != 0 then Word(p) else d.lastStatus)
  {
    hide ReadU32, Value, Number, Unsigned, Joined, Decoded, Status, Word;
    StatusIsWord(p);
    if |p| >= 6 {
      ReadIsNumber(p);
      DecodedShows(d, ReadU32(p, 2));
    }
  }

  lemma FrameShows(s: State, id: Id, p: seq<byte>)
    requires Enabled(s, Step.Frame(id, p))
    ensures Apply(s, Step.Frame(id, p)).device == if |p| < 2 then s.device else Updated(s.device, id, Status(p), p)
  {
    hide Updated, Status;
  }

  lemma ConnectShows(s: State, l: Step)
    requires Enabled(s, l) && (l.Connect? || l.Note?)
    ensures l.Connect? ==> Apply(s, l).device == Connected(s.device)
    ensures l.Note? ==> s.worker.Detached? && Apply(s, l).device == s.device.(lastStatus := s.worker.status)
  {
    hide Connected;
  }

  lemma ResumedShows(s: State, after: After)
    ensures Resumed(s, after).device == s.device
  {
  }

  lemma ClearShows(s: State)
    requires Enabled(s, ClearState)
    ensures Apply(s, ClearState).device == Disconnected(s.device)
  {
    ResumedShows(s.(device := Disconnected(s.device)), s.worker.after);
    hide Disconnected, Resumed;
  }

  lemma CurrentAtFirst(run: Run)
    requires ValidRun(run)
    ensures Current(run.states[0].device, run, 0)
  {
    hide Enabled, Apply, Number, Word;
  }

  lemma CurrentAfterFrame(run: Run, k: nat, id: Id, p: seq<byte>, d: DeviceState)
    requires k < |run.steps| < |run.states| && run.steps[k] == Step.Frame(id, p) && Current(d, run, k)
    ensures Current(if |p| < 2 then d else Updated(d, id, Status(p), p), run, k + 1)
  {
    if |p| >= 2 {
      UpdatedShows(d, id, p);
    }
    hide Updated, Status, Word, Number;
  }

  lemma CurrentAfterConnect(run: Run, k: nat, d: DeviceState)
    requires k < |run.steps| < |run.states| && Current(d, run, k) && run.steps[k].Connect?
    ensures Current(Connected(d), run, k + 1)
  {
    hide Word, Number, Unsigned;
  }

  lemma CurrentAfterNote(run: Run, k: nat, d: DeviceState)
    requires k < |run.steps| < |run.states| && Current(d, run, k) && run.steps[k].Note?
    requires run.states[k].worker.Detached?
    ensures Current(d.(lastStatus := run.states[k].worker.status), run, k + 1)
  {
    hide Word, Number, Unsigned;
  }

  lemma CurrentAfterClear(run: Run, k: nat, d: DeviceState)
    requires k < |run.steps| < |run.states| && Current(d, run, k) && run.steps[k].ClearState?
    ensures Current(Disconnected(d), run, k + 1)
  {
    assert Unsigned(0) == 0;
    hide Word, Number, Unsigned;
  }

  lemma CurrentStays(run: Run, k: nat, d: DeviceState)
    requires k < |run.steps| < |run.states| && Current(d, run, k)
    requires var l := run.steps[k]; !l.Connect? && !l.Frame? && !l.Note? && !l.ClearState?
    ensures Current(d, run, k + 1)
  {
    hide Word, Number, Unsigned;
  }

  /** In every reachable state, the published opening, speed, force and grasping state are the bytes of the last frame
      with id 0x43, 0x44, 0x45 and 0x41 that reported success and was long enough, and the published system state is
      the number in the last such frame with id 0x40 since the last disconnect; each is zero if there was none. */
  lemma {:induction false} PublishedIsTold(run: Run, k: nat)
    requires ValidRun(run) && k < |run.states|
    ensures Current(run.states[k].device, run, k)
    decreases k
  {
    hide Enabled, Apply, Current, Updated, Status, Connected, Disconnected;
    if k == 0 {
      CurrentAtFirst(run);
    } else {
      var s, l := run.states[k - 1], run.steps[k - 1];
      PublishedIsTold(run, k - 1);
      if l.Frame? {
        assert l == Step.Frame(l.id, l.payload);
        FrameShows(s, l.id, l.payload);
        CurrentAfterFrame(run, k - 1, l.id, l.payload, s.device);
      } else if l.Connect? {
        ConnectShows(s, l);
        CurrentAfterConnect(run, k - 1, s.device);
      } else if l.Note? {
        ConnectShows(s, l);
        CurrentAfterNote(run, k - 1, s.device);
      } else if l.ClearState? {
        ClearShows(s);
        CurrentAfterClear(run, k - 1, s.device);
      } else {
        StepKeeps(s, l);
        CurrentStays(run, k - 1, s.device);
      }
    }
  }
}
