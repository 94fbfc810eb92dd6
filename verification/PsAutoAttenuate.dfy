/** Whole runs of the pipeline together with the automatic attenuator, which calls the
    engine's PureSignal control setter on its own: it switches calibration off, waits for
    a new attenuation to settle and restores the pair it saved. The pipeline's cache
    knows nothing of these calls. */
module PsAutoAttenuate {
  import opened DspPipeline

  const OFF: Control := (false, false)

  /** Where a dance stands, with the pair saved when it began. */
  datatype Machine = Monitor | SetNewValues(saved: Control) | RestoreOperation(saved: Control)

  /** Which attenuator a tick can reach. */
  datatype Board = HermesLite2 | Protocol2 | NoBoard

  datatype Station = Station(pipe: Pipeline, wasEnabled: bool, hl2: Machine, p2: Machine)

  /** `txActive` is the transmitter's own account of MOX or two-tone: it changes before
      the pipeline hears of it and leaves out tuning. `wanted` says that automatic
      attenuation is on and a newly finished fit is out of the feedback window. */
  datatype Event =
    | Pipe(event: DspPipeline.Event)
    | Tick(s: StateDto, txActive: bool, board: Board, wanted: bool)

  function Restored(p: Pipeline, m: Machine): Pipeline {
    if m.Monitor? then p else WriteControl(p, m.saved)
  }

  /** One step of a dance: disable and save, settle, restore. */
  function Stepped(m: Machine, s: StateDto, wanted: bool): Machine {
    match m
    case Monitor => if wanted then SetNewValues(ControlOf(s)) else Monitor
    case SetNewValues(saved) => RestoreOperation(saved)
    case RestoreOperation(_) => Monitor
  }

  function Danced(p: Pipeline, m: Machine, wanted: bool): Pipeline {
    match m
    case Monitor => if wanted then WriteControl(p, OFF) else p
    case SetNewValues(_) => p
    case RestoreOperation(saved) => WriteControl(p, saved)
  }

  /** Arming anew forgets a dance. */
  function Armed(y: Station, s: StateDto): Station {
    if s.psEnabled && !y.wasEnabled then y.(wasEnabled := true, hl2 := Monitor, p2 := Monitor)
    else y.(wasEnabled := s.psEnabled)
  }

  function Ticked(y: Station, s: StateDto, txActive: bool, board: Board, wanted: bool): Station {
    var z := Armed(y, s);
    if !s.psEnabled then z.(hl2 := Monitor, p2 := Monitor)
    else if !txActive then z.(pipe := Restored(Restored(z.pipe, z.hl2), z.p2), hl2 := Monitor, p2 := Monitor)
    else
      match board
      case HermesLite2 => z.(pipe := Danced(z.pipe, z.hl2, wanted), hl2 := Stepped(z.hl2, s, wanted))
      case Protocol2 => z.(pipe := Danced(z.pipe, z.p2, wanted), p2 := Stepped(z.p2, s, wanted))
      case NoBoard => z
  }

  function Next(t: Tables, y: Station, e: Event): Station {
    match e
    case Pipe(event) => y.(pipe := DspPipeline.Next(t, y.pipe, event))
    case Tick(s, txActive, board, wanted) => Ticked(y, s, txActive, board, wanted)
  }

  function Run(t: Tables, y: Station, events: seq<Event>): Station
    decreases |events|
  {
    if events == [] then y else Run(t, Next(t, y, events[0]), events[1..])
  }

  predicate InFlight(y: Station) {
    !y.hl2.Monitor? || !y.p2.Monitor?
  }

  // ---- Refinement over whole runs ------------------------------------------

  /** Every first push after an engine swap arrives unkeyed. */
  ghost predicate Guarded(t: Tables, y: Station, events: seq<Event>)
    decreases |events|
  {
    events == []
    || (!(events[0].Pipe? && LosesResync(y.pipe, events[0].event)) && Guarded(t, Next(t, y, events[0]), events[1..]))
  }

  /** A tick can change nothing of the pipeline but the control pair. */
  lemma TickWritesControlOnly(y: Station, s: StateDto, txActive: bool, board: Board, wanted: bool)
    ensures var p, z := y.pipe, Ticked(y, s, txActive, board, wanted).pipe;
            z == p.(regs := p.regs.(control := z.regs.control), controlWrites := z.controlWrites)
  {
    var z := Armed(y, s);
    RestoredControlOnly(z.pipe, z.hl2);
    RestoredControlOnly(Restored(z.pipe, z.hl2), z.p2);
  }

  lemma RestoredControlOnly(p: Pipeline, m: Machine)
    ensures Restored(p, m) == p.(regs := p.regs.(control := Restored(p, m).regs.control),
                                 controlWrites := Restored(p, m).controlWrites)
  {
  }

  lemma TickInv(t: Tables, y: Station, s: StateDto, txActive: bool, board: Board, wanted: bool)
    requires Inv(t, y.pipe)
    ensures Inv(t, Ticked(y, s, txActive, board, wanted).pipe)
  {
    TickWritesControlOnly(y, s, txActive, board, wanted);
  }

  lemma {:induction false} RunInv(t: Tables, y: Station, events: seq<Event>)
    requires Inv(t, y.pipe) && Guarded(t, y, events)
    ensures Inv(t, Run(t, y, events).pipe)
    decreases |events|
  {
    if events != [] {
      match events[0] {
        case Pipe(event) => NextInv(t, y.pipe, event);
        case Tick(s, txActive, board, wanted) => TickInv(t, y, s, txActive, board, wanted);
      }
      RunInv(t, Next(t, y, events[0]), events[1..]);
    }
  }

  /** What pushing everything would leave, up to a control pair the attenuator made stale. */
  ghost predicate PushedUpToControl(t: Tables, before: Pipeline, s: StateDto, after: Pipeline) {
    && Tuned(t, s, after.regs) && FeedbackSet(t, s, after.regs) && CfcSet(t, s, after.regs)
    && after.regs == Desired(t, s).(control := after.regs.control)
    && (after.regs == Desired(t, s) <==>
        before.resync || ControlOf(s) != before.cache.control || before.regs.control == before.cache.control)
  }

  /** Change detection refines pushing everything: in a guarded run, with any number of
      attenuator dances, every push handled unkeyed and every release of the transmitter
      leaves a real engine with the settings of the state it was given. The control pair
      is among them exactly when a resync was due, the state changes the cached pair or
      the engine still held the cached pair. */
  lemma RefinesAlwaysPush(t: Tables, y: Station, events: seq<Event>, s: StateDto)
    requires Inv(t, y.pipe) && Guarded(t, y, events)
    ensures var q := Run(t, y, events).pipe;
            && (q.wdsp && !q.keyed ==> PushedUpToControl(t, q, s, DspPipeline.Next(t, q, StateChanged(s))))
            && (q.wdsp ==> PushedUpToControl(t, q, s, DspPipeline.Next(t, q, MoxChanged(false, s))))
  {
    RunInv(t, y, events);
    DesiredMeaning(t, s);
    var q := Run(t, y, events).pipe;
    if q.wdsp {
      UnkeyedPush(t, q.(keyed := false), s);
      if !q.keyed {
        UnkeyedPush(t, q, s);
      }
    }
  }

  // ---- When the control pair is stale --------------------------------------

  /** The event is a push that reaches the PureSignal setters, and this is its state. */
  function PushedState(y: Station, e: Event): (s: seq<StateDto>)
    ensures |s| <= 1
  {
    if e.Tick? then []
    else match e.event
      case StateChanged(s) => if y.pipe.keyed then [] else [s]
      case MoxChanged(on, s) => if on then [] else [s]
      case _ => []
  }

  /** Nothing cuts across a dance: no push writes the control pair during one, one starts
      only when none is in flight and nothing is deferred, and PureSignal is not disarmed
      during one. */
  predicate Undisturbed(y: Station, e: Event) {
    && !(e.Pipe? && LosesResync(y.pipe, e.event))
    && (InFlight(y) && PushedState(y, e) != [] ==>
          !y.pipe.resync && ControlOf(PushedState(y, e)[0]) == y.pipe.cache.control)
    && (e.Tick? && StartsDance(y, e) ==> !InFlight(y) && ControlOf(e.s) == y.pipe.cache.control)
    && (e.Tick? && InFlight(y) ==> e.s.psEnabled)
  }

  predicate StartsDance(y: Station, e: Event)
    requires e.Tick?
  {
    && e.s.psEnabled && e.txActive && e.wanted
    && ((e.board == HermesLite2 && Armed(y, e.s).hl2.Monitor?) || (e.board == Protocol2 && Armed(y, e.s).p2.Monitor?))
  }

  ghost predicate UndisturbedRun(t: Tables, y: Station, events: seq<Event>)
    decreases |events|
  {
    events == [] || (Undisturbed(y, events[0]) && UndisturbedRun(t, Next(t, y, events[0]), events[1..]))
  }

  predicate SavedIsCached(m: Machine, p: Pipeline) {
    m.Monitor? || m.saved == p.cache.control
  }

  /** A dance has saved the cached pair and the engine is off; otherwise the engine holds
      the cached pair. */
  ghost predicate ControlInv(t: Tables, y: Station) {
    && Inv(t, y.pipe)
    && (InFlight(y) ==> y.wasEnabled) && (y.hl2.Monitor? || y.p2.Monitor?)
    && SavedIsCached(y.hl2, y.pipe) && SavedIsCached(y.p2, y.pipe)
    && (y.pipe.wdsp && !y.pipe.resync ==>
          y.pipe.regs.control == if InFlight(y) then OFF else y.pipe.cache.control)
  }

  lemma UnkeyedPushControl(t: Tables, y: Station, p: Pipeline, s: StateDto)
    requires ControlInv(t, y) && p == y.pipe.(keyed := false)
    requires InFlight(y) ==> !p.resync && ControlOf(s) == p.cache.control
    ensures ControlInv(t, y.(pipe := Push(t, p, s)))
  {
    PushInv(t, p, s);
    if p.wdsp {
      UnkeyedPush(t, p, s);
    }
  }

  lemma KeyedPushControl(t: Tables, y: Station, s: StateDto)
    requires ControlInv(t, y) && y.pipe.keyed && !(y.pipe.resync && y.pipe.wdsp)
    ensures ControlInv(t, y.(pipe := Push(t, y.pipe, s)))
  {
    PushInv(t, y.pipe, s);
    KeyedPush(t, y.pipe, s);
  }

  lemma TickControlInv(t: Tables, y: Station, s: StateDto, txActive: bool, board: Board, wanted: bool)
    requires ControlInv(t, y) && Undisturbed(y, Tick(s, txActive, board, wanted))
    ensures ControlInv(t, Ticked(y, s, txActive, board, wanted))
  {
    TickInv(t, y, s, txActive, board, wanted);
    TickWritesControlOnly(y, s, txActive, board, wanted);
  }

  lemma NextControlInv(t: Tables, y: Station, e: Event)
    requires ControlInv(t, y) && Undisturbed(y, e)
    ensures ControlInv(t, Next(t, y, e))
  {
    match e
    case Tick(s, txActive, board, wanted) => TickControlInv(t, y, s, txActive, board, wanted);
    case Pipe(event) =>
      NextInv(t, y.pipe, event);
      match event
      case StateChanged(s) =>
        if y.pipe.keyed {
          KeyedPushControl(t, y, s);
        } else {
          UnkeyedPushControl(t, y, y.pipe, s);
        }
      case MoxChanged(on, s) =>
        if !on {
          UnkeyedPushControl(t, y, y.pipe.(keyed := false), s);
        }
      case _ =>
  }

  lemma {:induction false} RunControlInv(t: Tables, y: Station, events: seq<Event>)
    requires ControlInv(t, y) && UndisturbedRun(t, y, events)
    ensures ControlInv(t, Run(t, y, events))
    decreases |events|
  {
    if events != [] {
      NextControlInv(t, y, events[0]);
      RunControlInv(t, Next(t, y, events[0]), events[1..]);
    }
  }

  /** In undisturbed runs an unkeyed push or a release leaves the engine exactly as pushed
      if and only if a resync is due, no dance is in flight, the state changes the cached
      pair, or the pair is off anyway. */
  lemma UndisturbedRefinesIff(t: Tables, y: Station, events: seq<Event>, s: StateDto)
    requires ControlInv(t, y) && UndisturbedRun(t, y, events)
    ensures var z := Run(t, y, events);
            var asPushed := z.pipe.resync || !InFlight(z) || ControlOf(s) != z.pipe.cache.control || ControlOf(s) == OFF;
            && (z.pipe.wdsp && !z.pipe.keyed ==>
                  (DspPipeline.Next(t, z.pipe, StateChanged(s)).regs == Desired(t, s) <==> asPushed))
            && (z.pipe.wdsp ==>
                  (DspPipeline.Next(t, z.pipe, MoxChanged(false, s)).regs == Desired(t, s) <==> asPushed))
  {
    RunControlInv(t, y, events);
    var q := Run(t, y, events).pipe;
    if q.wdsp {
      UnkeyedPush(t, q.(keyed := false), s);
      if !q.keyed {
        UnkeyedPush(t, q, s);
      }
    }
  }

  /** After such a run the first tick that finds the transmitter off ends every dance and
      the engine holds the cached pair again. */
  lemma IdleTickRestores(t: Tables, y: Station, events: seq<Event>, s: StateDto, board: Board, wanted: bool)
    requires ControlInv(t, y) && UndisturbedRun(t, y, events) && s.psEnabled
    ensures var z := Run(t, y, events);
            var z' := Next(t, z, Tick(s, false, board, wanted));
            && !InFlight(z') && z'.pipe.cache == z.pipe.cache
            && (z'.pipe.wdsp && !z'.pipe.resync ==> z'.pipe.regs.control == z'.pipe.cache.control)
  {
    RunControlInv(t, y, events);
    NextControlInv(t, Run(t, y, events), Tick(s, false, board, wanted));
  }

  /** A service that starts idle. */
  lemma StartControlInv(t: Tables, p: Pipeline)
    requires Inv(t, p) && (p.wdsp ==> p.resync)
    ensures ControlInv(t, Station(p, false, Monitor, Monitor))
  {
  }

  // ---- Who writes while keyed ----------------------------------------------

  predicate Restores(y: Station, e: Event)
    requires e.Tick?
  {
    var z := Armed(y, e.s);
    && e.s.psEnabled
    && if !e.txActive then InFlight(z)
       else (e.board == HermesLite2 && z.hl2.RestoreOperation?) || (e.board == Protocol2 && z.p2.RestoreOperation?)
  }

  /** The PureSignal peak and timing setters run only unkeyed, guarded or not. The control
      setter runs while keyed exactly when a tick starts a dance or restores its pair. */
  lemma WritesWhileKeyed(t: Tables, y: Station, e: Event)
    ensures var y' := Next(t, y, e);
            && (y'.pipe.peakWrites != y.pipe.peakWrites ==> !y'.pipe.keyed && PushedState(y, e) != [])
            && (y'.pipe.keyed ==>
                  (y'.pipe.controlWrites != y.pipe.controlWrites <==> e.Tick? && (StartsDance(y, e) || Restores(y, e))))
  {
    match e
    case Tick(s, txActive, board, wanted) => TickWritesControlOnly(y, s, txActive, board, wanted);
    case Pipe(event) =>
      match event
      case StateChanged(s) => PushKeepsKeying(t, y.pipe, s);
      case MoxChanged(on, s) => PushKeepsKeying(t, y.pipe.(keyed := false), s);
      case _ =>
  }

  // ---- Runs that leave the engine wrong -------------------------------------

  lemma RunThree(t: Tables, y: Station, a: Event, b: Event, c: Event)
    ensures Run(t, y, [a, b, c]) == Next(t, Next(t, Next(t, y, a), b), c)
  {
    assert [a, b, c][1..] == [b, c] && [b, c][1..] == [c] && [c][1..] == [];
    assert Run(t, Next(t, Next(t, y, a), b), [c]) == Next(t, Next(t, Next(t, y, a), b), c);
  }

  lemma RunFour(t: Tables, y: Station, a: Event, b: Event, c: Event, d: Event)
    ensures Run(t, y, [a, b, c, d]) == Next(t, Next(t, Next(t, Next(t, y, a), b), c), d)
  {
    assert [a, b, c, d][1..] == [b, c, d];
    RunThree(t, Next(t, y, a), b, c, d);
  }

  /** An unkeyed radio, armed, with calibration on automatic and everything in step. */
  ghost predicate InStep(t: Tables, y: Station, s: StateDto) {
    && ControlInv(t, y) && y.pipe.wdsp && !y.pipe.resync && !y.pipe.keyed && !InFlight(y)
    && s.psEnabled && y.wasEnabled && ControlOf(s) == y.pipe.cache.control == (true, false)
  }

  /** Connecting, one unkeyed push and one idle tick get there from the start. */
  lemma InStepReached(t: Tables, p: Pipeline, s: StateDto, defaults: Regs)
    requires Inv(t, p) && !p.keyed && s.psEnabled && ControlOf(s) == (true, false)
    ensures InStep(t, Run(t, Station(p, false, Monitor, Monitor),
                          [Pipe(ConnectP1(s, defaults)), Pipe(StateChanged(s)), Tick(s, false, NoBoard, false)]), s)
  {
    var y := Station(p, false, Monitor, Monitor);
    var a, b, c := Pipe(ConnectP1(s, defaults)), Pipe(StateChanged(s)), Tick(s, false, NoBoard, false);
    RunThree(t, y, a, b, c);
    var y1 := Next(t, y, a);
    OpenedSynced(t, p, s, defaults, true);
    StartControlInv(t, y1.pipe);
    NextControlInv(t, y1, b);
    NextControlInv(t, Next(t, y1, b), c);
    UnkeyedPush(t, y1.pipe, s);
    PushKeepsKeying(t, y1.pipe, s);
  }

  /** A whole dance on either board: three ticks switch calibration off, wait, and restore
      the pair; nothing else changes. */
  lemma WholeDance(t: Tables, y: Station, s: StateDto, board: Board, again: bool)
    requires y.hl2 == y.p2 == Monitor && y.wasEnabled && s.psEnabled && board != NoBoard
    ensures var one := Next(t, y, Tick(s, true, board, true));
            var two := Next(t, one, Tick(s, true, board, again));
            var three := Next(t, two, Tick(s, true, board, again));
            && one.pipe == WriteControl(y.pipe, (false, false)) && InFlight(one)
            && two.pipe == one.pipe && InFlight(two)
            && three == y.(pipe := WriteControl(one.pipe, (s.psAuto, s.psSingle)))
  {
  }

  /** The transmitter is released during a dance: the release finds its cache unchanged
      and leaves calibration off. */
  lemma ReleaseMidDance(t: Tables, y: Station, s: StateDto)
    requires InStep(t, y, s)
    ensures var end := Run(t, y, [Pipe(MoxChanged(true, s)), Tick(s, true, HermesLite2, true), Pipe(MoxChanged(false, s))]);
            !end.pipe.keyed && end.pipe.regs.control == OFF != Desired(t, s).control
  {
    var a, b, c := Pipe(MoxChanged(true, s)), Tick(s, true, HermesLite2, true), Pipe(MoxChanged(false, s));
    RunThree(t, y, a, b, c);
    UnkeyedPush(t, Next(t, Next(t, y, a), b).pipe.(keyed := false), s);
    var q := Next(t, Next(t, y, a), b).pipe;
    assert q.regs.control == OFF && q.cache.control == (true, false) && !q.resync;
  }

  /** The operator changes the pair during a dance: the release pushes the new pair, and
      the next idle tick writes the saved old one over it. */
  lemma ChangeMidDance(t: Tables, y: Station, s: StateDto, changed: StateDto)
    requires InStep(t, y, s) && changed.psEnabled && ControlOf(changed) == (false, true)
    ensures var end := Run(t, y, [Pipe(MoxChanged(true, s)), Tick(s, true, HermesLite2, true),
                                  Pipe(MoxChanged(false, changed)), Tick(changed, false, HermesLite2, false)]);
            && !end.pipe.keyed && !InFlight(end) && !end.pipe.resync
            && end.pipe.regs.control == (true, false) && end.pipe.cache.control == (false, true) == Desired(t, changed).control
  {
    var a, b := Pipe(MoxChanged(true, s)), Tick(s, true, HermesLite2, true);
    var c, d := Pipe(MoxChanged(false, changed)), Tick(changed, false, HermesLite2, false);
    RunFour(t, y, a, b, c, d);
    var y2 := Next(t, Next(t, y, a), b);
    assert y2.hl2 == SetNewValues((true, false)) && y2.p2 == Monitor && y2.wasEnabled;
    UnkeyedPush(t, y2.pipe.(keyed := false), changed);
    PushKeepsKeying(t, y2.pipe.(keyed := false), changed);
  }

  /** PureSignal is disarmed during a dance: the dance is forgotten with calibration off. */
  lemma DisarmMidDance(t: Tables, y: Station, s: StateDto, disarmed: StateDto)
    requires InStep(t, y, s) && !disarmed.psEnabled
    ensures var end := Run(t, y, [Pipe(MoxChanged(true, s)), Tick(s, true, HermesLite2, true),
                                  Tick(disarmed, true, HermesLite2, false)]);
            !InFlight(end) && !end.pipe.resync && end.pipe.regs.control == OFF && end.pipe.cache.control == (true, false)
  {
    RunThree(t, y, Pipe(MoxChanged(true, s)), Tick(s, true, HermesLite2, true), Tick(disarmed, true, HermesLite2, false));
  }

  function PushAll(t: Tables, p: Pipeline, states: seq<StateDto>): Pipeline
    decreases |states|
  {
    if states == [] then p else PushAll(t, Push(t, p, states[0]), states[1..])
  }

  /** A stale pair outlives every later push that asks for the cached one. */
  lemma {:induction false} StaleStays(t: Tables, p: Pipeline, states: seq<StateDto>)
    requires !p.resync && forall k :: 0 <= k < |states| ==> ControlOf(states[k]) == p.cache.control
    ensures var q := PushAll(t, p, states); q.regs.control == p.regs.control && q.cache.control == p.cache.control
    decreases |states|
  {
    if states != [] {
      OnePushKeepsControl(t, p, states[0]);
      StaleStays(t, Push(t, p, states[0]), states[1..]);
    }
  }

  lemma OnePushKeepsControl(t: Tables, p: Pipeline, s: StateDto)
    requires !p.resync && ControlOf(s) == p.cache.control
    ensures var q := Push(t, p, s); !q.resync && q.regs.control == p.regs.control && q.cache.control == p.cache.control
  {
  }

  /** The resync lost: the transmitter is keyed right after a connection, before any
      state push, and the keyed push clears the flag. The engine keeps its default
      hardware peak after the release, although the radio state asks for another. */
  lemma LostResync(t: Tables, y: Station, s: StateDto, defaults: Regs)
    requires !y.pipe.keyed && y.pipe.cache.hwPeak == s.psHwPeak == 0.233 && defaults.hwPeak == 0.4072
    requires !AdvancedDiffers(y.pipe.cache, s)
    ensures var end := Run(t, y, [Pipe(ConnectP1(s, defaults)), Pipe(MoxChanged(true, s)),
                                  Pipe(StateChanged(s)), Pipe(MoxChanged(false, s))]);
            !end.pipe.keyed && end.pipe.wdsp && end.pipe.regs.hwPeak == 0.4072 && Desired(t, s).hwPeak == 0.233
  {
    var a, b, c, d := Pipe(ConnectP1(s, defaults)), Pipe(MoxChanged(true, s)), Pipe(StateChanged(s)), Pipe(MoxChanged(false, s));
    RunFour(t, y, a, b, c, d);
    var p2 := Next(t, Next(t, y, a), b).pipe;
    assert p2.keyed && p2.regs.hwPeak == 0.4072 && p2.cache.hwPeak == 0.233;
    var p3 := Next(t, Next(t, Next(t, y, a), b), c).pipe;
    assert !p3.resync && p3.regs.hwPeak == 0.4072 && p3.cache.hwPeak == 0.233 && !AdvancedDiffers(p3.cache, s);
  }
}
