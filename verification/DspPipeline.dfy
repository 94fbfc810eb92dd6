/** The change-detect push to the DSP engine as values. The pipeline caches what it last
    pushed; a pushed state only reaches the setters whose cached value differs. PureSignal
    writes wait while the transmitter is keyed, and a resync flag forces them after an
    engine swap. */
module DspPipeline {
  import opened Seqs

  datatype RxMode = CWU | CWL | OtherMode(code: nat)

  type Nr = string  // a noise-reduction profile; compared by value

  datatype CfcBand = CfcBand(freqHz: real, compLevelDb: real, postGainDb: real)
  datatype CfcConfig = CfcConfig(enabled: bool, postEqEnabled: bool, preCompDb: real, prePeqDb: real, bands: Option<seq<CfcBand>>)

  datatype Timing = Timing(ptol: bool, moxDelaySec: real, loopDelaySec: real, ampDelayNs: real)

  /** The pushed radio state, as far as the engine settings below depend on it. */
  datatype StateDto = StateDto(
    mode: RxMode, vfoHz: int, radioLoHz: int, filter: (int, int), txFilter: (int, int),
    agcTopDb: real, agcOffsetDb: real, rxAfGainDb: real, micGainDb: real, levelerMaxGainDb: real,
    nr: Option<Nr>, zoomLevel: int,
    psHwPeak: real, psTiming: Timing, psIntsSpiPreset: string, psAuto: bool, psSingle: bool,
    psEnabled: bool, cfc: Option<CfcConfig>)

  /** What the engine was last told through each setter. */
  datatype Regs = Regs(
    mode: RxMode, txMode: RxMode, filter: (int, int), shiftHz: int, txFilter: (int, int),
    agcTop: real, rxAfGainDb: real, panelGain: real, levelerMaxGainDb: real, nr: Nr, zoom: int,
    hwPeak: real, timing: Timing, intsSpi: (int, int), control: Control, cfc: CfcConfig)

  /** The `_applied` fields; `None` stands for the NaN that forces a first push. */
  datatype Cache = Cache(
    mode: RxMode, filter: (int, int), shiftHz: int, txFilter: (int, int), agc: (real, real), rxAfGainDb: real,
    panelGain: Option<real>, levelerMaxGainDb: Option<real>, nr: Nr, zoom: int,
    hwPeak: real, timing: Timing, intsSpiPreset: string, control: Control, cfc: CfcConfig)

  /** Conversions whose arithmetic does not matter here: decibels to a linear gain, and
      the "ints/spi" text to its two numbers; and the values used for absent profiles. */
  datatype Tables = Tables(linear: real -> real, intsSpi: string -> (int, int), noNr: Nr, noCfc: CfcConfig)

  /** `wdsp` says whether the engine is a real one. `writes` counts setter calls made by
      state pushes, `peakWrites` the calls of the PureSignal peak and timing setters, and
      `controlWrites` those of the control setter, whoever makes them. */
  datatype Pipeline = Pipeline(keyed: bool, resync: bool, wdsp: bool, cache: Cache, regs: Regs,
                               writes: nat, peakWrites: nat, controlWrites: nat)

  type Control = (bool, bool)

  function ControlOf(s: StateDto): Control {
    (s.psAuto, s.psSingle)
  }

  const CW_PITCH_HZ: int := 600

  function EffectiveLoHz(mode: RxMode, vfoHz: int): int {
    match mode case CWU => vfoHz - CW_PITCH_HZ case CWL => vfoHz + CW_PITCH_HZ case _ => vfoHz
  }

  /** The cast to a 32-bit int. */
  function Int32(x: int): int {
    (x + 0x8000_0000) % 0x1_0000_0000 - 0x8000_0000
  }

  function ShiftHz(s: StateDto): int {
    Int32(EffectiveLoHz(s.mode, s.vfoHz) - s.radioLoHz)
  }

  function NrOf(t: Tables, s: StateDto): Nr {
    if s.nr.Some? then s.nr.value else t.noNr
  }

  function CfcOf(t: Tables, s: StateDto): CfcConfig {
    if s.cfc.Some? then s.cfc.value else t.noCfc
  }

  /** What an engine would hold if everything were always pushed. */
  function Desired(t: Tables, s: StateDto): Regs {
    Regs(s.mode, s.mode, s.filter, ShiftHz(s), s.txFilter, s.agcTopDb + s.agcOffsetDb, s.rxAfGainDb,
         t.linear(s.micGainDb), s.levelerMaxGainDb, NrOf(t, s), s.zoomLevel,
         s.psHwPeak, s.psTiming, t.intsSpi(s.psIntsSpiPreset), ControlOf(s), CfcOf(t, s))
  }

  function One(hit: bool): nat {
    if hit then 1 else 0
  }

  // ---- The blocks of the handler -------------------------------------------

  function PushReceiver(p: Pipeline, s: StateDto): Pipeline {
    var c, r := p.cache, p.regs;
    var mode, filter, shift := s.mode != c.mode, s.filter != c.filter, ShiftHz(s) != c.shiftHz;
    p.(cache := c.(mode := s.mode, filter := s.filter, shiftHz := ShiftHz(s)),
       regs := r.(mode := if mode then s.mode else r.mode,
                  txMode := if mode then s.mode else r.txMode,
                  filter := if filter then s.filter else r.filter,
                  shiftHz := if shift then ShiftHz(s) else r.shiftHz),
       writes := p.writes + 2 * One(mode) + One(filter) + One(shift))
  }

  function PushTxFilterAndAgc(p: Pipeline, s: StateDto): Pipeline {
    var c, r := p.cache, p.regs;
    var tx, agc := s.txFilter != c.txFilter, (s.agcTopDb, s.agcOffsetDb) != c.agc;
    p.(cache := c.(txFilter := s.txFilter, agc := (s.agcTopDb, s.agcOffsetDb)),
       regs := r.(txFilter := if tx then s.txFilter else r.txFilter,
                  agcTop := if agc then s.agcTopDb + s.agcOffsetDb else r.agcTop),
       writes := p.writes + One(tx) + One(agc))
  }

  function PushAudioGains(t: Tables, p: Pipeline, s: StateDto): Pipeline {
    var c, r := p.cache, p.regs;
    var mic, max := Some(t.linear(s.micGainDb)), Some(s.levelerMaxGainDb);
    p.(cache := c.(rxAfGainDb := s.rxAfGainDb, panelGain := mic, levelerMaxGainDb := max),
       regs := r.(rxAfGainDb := if s.rxAfGainDb != c.rxAfGainDb then s.rxAfGainDb else r.rxAfGainDb,
                  panelGain := if mic != c.panelGain then mic.value else r.panelGain,
                  levelerMaxGainDb := if max != c.levelerMaxGainDb then max.value else r.levelerMaxGainDb),
       writes := p.writes + One(s.rxAfGainDb != c.rxAfGainDb) + One(mic != c.panelGain) + One(max != c.levelerMaxGainDb))
  }

  function PushNrAndZoom(t: Tables, p: Pipeline, s: StateDto): Pipeline {
    var c, r := p.cache, p.regs;
    var nr, zoom := NrOf(t, s) != c.nr, s.zoomLevel != c.zoom;
    p.(cache := c.(nr := NrOf(t, s), zoom := s.zoomLevel),
       regs := r.(nr := if nr then NrOf(t, s) else r.nr, zoom := if zoom then s.zoomLevel else r.zoom),
       writes := p.writes + One(nr) + One(zoom))
  }

  predicate AdvancedDiffers(c: Cache, s: StateDto) {
    s.psTiming != c.timing || s.psIntsSpiPreset != c.intsSpiPreset
  }

  /** Peak, then timing, then control, each when it differs or a resync is due. The
      timing setter also carries the peak. */
  function PushPeak(p: Pipeline, s: StateDto): Pipeline {
    var hit := p.resync || s.psHwPeak != p.cache.hwPeak;
    p.(cache := p.cache.(hwPeak := s.psHwPeak),
       regs := p.regs.(hwPeak := if hit then s.psHwPeak else p.regs.hwPeak),
       writes := p.writes + One(hit), peakWrites := p.peakWrites + One(hit))
  }

  function PushAdvanced(t: Tables, p: Pipeline, s: StateDto): Pipeline {
    var r, hit := p.regs, p.resync || AdvancedDiffers(p.cache, s);
    p.(cache := p.cache.(timing := s.psTiming, intsSpiPreset := s.psIntsSpiPreset),
       regs := r.(timing := if hit then s.psTiming else r.timing, hwPeak := if hit then s.psHwPeak else r.hwPeak,
                  intsSpi := if hit then t.intsSpi(s.psIntsSpiPreset) else r.intsSpi),
       writes := p.writes + One(hit), peakWrites := p.peakWrites + One(hit))
  }

  function PushControl(p: Pipeline, s: StateDto): Pipeline {
    var hit := p.resync || ControlOf(s) != p.cache.control;
    p.(cache := p.cache.(control := ControlOf(s)),
       regs := p.regs.(control := if hit then ControlOf(s) else p.regs.control),
       writes := p.writes + One(hit), controlWrites := p.controlWrites + One(hit))
  }

  /** None of the three while keyed. */
  function PushPureSignal(t: Tables, p: Pipeline, s: StateDto): Pipeline {
    if p.keyed then p else PushControl(PushAdvanced(t, PushPeak(p, s), s), s)
  }

  function PushCfc(t: Tables, p: Pipeline, s: StateDto): Pipeline {
    var hit := p.resync || CfcOf(t, s) != p.cache.cfc;
    p.(cache := p.cache.(cfc := CfcOf(t, s)), regs := p.regs.(cfc := if hit then CfcOf(t, s) else p.regs.cfc),
       writes := p.writes + One(hit))
  }

  /** Everything that does not depend on keying or on a resync. */
  function PushRx(t: Tables, p: Pipeline, s: StateDto): Pipeline {
    PushNrAndZoom(t, PushAudioGains(t, PushTxFilterAndAgc(PushReceiver(p, s), s), s), s)
  }

  /** One state push: the blocks in order, then the resync flag is cleared. */
  function Push(t: Tables, p: Pipeline, s: StateDto): Pipeline {
    PushCfc(t, PushPureSignal(t, PushRx(t, p, s), s), s).(resync := false)
  }

  /** A fresh engine with its own defaults receives the snapshot's receive and transmit
      settings, but no PureSignal or CFC settings. */
  function Opened(t: Tables, p: Pipeline, s: StateDto, defaults: Regs, wdsp: bool): Pipeline {
    var d := Desired(t, s);
    p.(wdsp := wdsp,
       cache := p.cache.(mode := s.mode, filter := s.filter, shiftHz := ShiftHz(s), txFilter := s.txFilter,
                         agc := (s.agcTopDb, s.agcOffsetDb), rxAfGainDb := s.rxAfGainDb,
                         panelGain := Some(t.linear(s.micGainDb)), levelerMaxGainDb := Some(s.levelerMaxGainDb),
                         nr := NrOf(t, s), zoom := s.zoomLevel),
       regs := d.(hwPeak := defaults.hwPeak, timing := defaults.timing, intsSpi := defaults.intsSpi,
                  control := defaults.control, cfc := defaults.cfc))
  }

  /** A call of the control setter from outside the pipeline: the cache does not see it. */
  function WriteControl(p: Pipeline, control: Control): Pipeline {
    p.(regs := p.regs.(control := control), controlWrites := p.controlWrites + 1)
  }

  // ---- Events --------------------------------------------------------------

  /** `defaults` are whatever the new engine starts with; snapshots are the radio state
      at that moment. */
  datatype Event =
    | StateChanged(s: StateDto)
    | MoxChanged(on: bool, snapshot: StateDto)
    | ConnectP1(snapshot: StateDto, defaults: Regs)
    | DisconnectP1(snapshot: StateDto, defaults: Regs)
    | ConnectP2(snapshot: StateDto, defaults: Regs, wdspOpened: bool)
    | DisconnectP2(snapshot: StateDto, defaults: Regs)

  function Next(t: Tables, p: Pipeline, e: Event): Pipeline {
    match e
    case StateChanged(s) => Push(t, p, s)
    case MoxChanged(on, s) => if on then p.(keyed := true) else Push(t, p.(keyed := false), s)
    case ConnectP1(s, d) => Opened(t, p, s, d, true).(resync := true)
    case DisconnectP1(s, d) => Opened(t, p, s, d, false)
    case ConnectP2(s, d, isWdsp) => Opened(t, p, s, d, isWdsp).(resync := true)
    case DisconnectP2(s, d) => Opened(t, p, s, d, false).(resync := true)
  }

  /** The engine holds what the cache says, for everything pushed regardless of keying. */
  ghost predicate RxSynced(p: Pipeline) {
    var c, r := p.cache, p.regs;
    && r.mode == r.txMode == c.mode && r.filter == c.filter && r.shiftHz == c.shiftHz && r.txFilter == c.txFilter
    && r.agcTop == c.agc.0 + c.agc.1 && r.rxAfGainDb == c.rxAfGainDb
    && (c.panelGain.Some? ==> r.panelGain == c.panelGain.value)
    && (c.levelerMaxGainDb.Some? ==> r.levelerMaxGainDb == c.levelerMaxGainDb.value)
    && r.nr == c.nr && r.zoom == c.zoom
  }

  /** The same for the PureSignal peak and timing and the CFC settings, which only the
      pipeline writes. */
  ghost predicate OwnSynced(t: Tables, p: Pipeline) {
    var c, r := p.cache, p.regs;
    && r.hwPeak == c.hwPeak && r.timing == c.timing && r.intsSpi == t.intsSpi(c.intsSpiPreset) && r.cfc == c.cfc
  }

  ghost predicate PsSynced(t: Tables, p: Pipeline) {
    OwnSynced(t, p) && p.regs.control == p.cache.control
  }

  ghost predicate Inv(t: Tables, p: Pipeline) {
    RxSynced(p) && (p.wdsp ==> p.resync || OwnSynced(t, p))
  }

  /** The event is a state push to a real engine that is still due its resync, arriving
      while keyed. */
  predicate LosesResync(p: Pipeline, e: Event) {
    e.StateChanged? && p.keyed && p.resync && p.wdsp
  }

  /** The service starts on a synthetic engine, with nothing due. */
  lemma StartInv(t: Tables, p: Pipeline, s: StateDto, defaults: Regs)
    ensures Inv(t, Opened(t, p, s, defaults, false))
  {
  }

  /** One unkeyed push to a synchronised or resyncing engine does what pushing everything
      would do, except for a control pair that was already stale and that the pushed
      state does not change. */
  lemma UnkeyedPush(t: Tables, p: Pipeline, s: StateDto)
    requires RxSynced(p) && !p.keyed && (p.resync || OwnSynced(t, p))
    ensures var p' := Push(t, p, s);
            && p'.regs == Desired(t, s).(control := p'.regs.control)
            && (p'.regs == Desired(t, s) <==>
                p.resync || ControlOf(s) != p.cache.control || p.regs.control == p.cache.control)
            && p'.cache.control == ControlOf(s)
            && RxSynced(p') && OwnSynced(t, p')
  {
  }

  /** A keyed push still updates everything else, and touches no PureSignal setting. */
  lemma KeyedPush(t: Tables, p: Pipeline, s: StateDto)
    requires RxSynced(p) && p.keyed
    ensures var p', d := Push(t, p, s), Desired(t, s);
            && RxSynced(p') && p'.peakWrites == p.peakWrites && p'.controlWrites == p.controlWrites
            && p'.cache.control == p.cache.control
            && p'.regs == d.(hwPeak := p.regs.hwPeak, timing := p.regs.timing, intsSpi := p.regs.intsSpi,
                             control := p.regs.control, cfc := p'.regs.cfc)
            && (p.resync || p.regs.cfc == p.cache.cfc ==> p'.regs.cfc == d.cfc == p'.cache.cfc)
            && (!p.resync && OwnSynced(t, p) ==> OwnSynced(t, p'))
  {
  }

  /** Where the receiver listens relative to the dial: 600 Hz below it in upper-sideband
      CW, 600 Hz above it in lower-sideband CW, on it otherwise. */
  predicate Heard(s: StateDto, shiftHz: int) {
    var below := s.vfoHz - (s.radioLoHz + shiftHz);
    match s.mode case CWU => below == 600 case CWL => below == -600 case OtherMode(_) => below == 0
  }

  /** The pitch of the carrier under the dial fits the 32-bit shift. */
  predicate InReach(s: StateDto) {
    var pitch := match s.mode case CWU => 600 case CWL => -600 case OtherMode(_) => 0;
    -0x8000_0000 <= s.vfoHz - s.radioLoHz - pitch < 0x8000_0000
  }

  /** The shift is right whenever some 32-bit value is, and otherwise a 32-bit value all the
      same. */
  lemma ShiftMeaning(s: StateDto)
    ensures -0x8000_0000 <= ShiftHz(s) < 0x8000_0000
    ensures Heard(s, ShiftHz(s)) <==> InReach(s)
    ensures forall shift :: -0x8000_0000 <= shift < 0x8000_0000 && Heard(s, shift) ==> InReach(s) && shift == ShiftHz(s)
  {
    Int32Meaning(EffectiveLoHz(s.mode, s.vfoHz) - s.radioLoHz);
  }

  lemma Int32Meaning(x: int)
    ensures -0x8000_0000 <= Int32(x) < 0x8000_0000
    ensures Int32(x) == x <==> -0x8000_0000 <= x < 0x8000_0000
  {
  }

  /** Every setting that does not wait for PureSignal, as the radio state gives it. */
  ghost predicate Tuned(t: Tables, s: StateDto, r: Regs) {
    && r.mode == s.mode && r.txMode == s.mode && r.filter == s.filter && r.txFilter == s.txFilter
    && (Heard(s, r.shiftHz) <==> InReach(s))
    && r.agcTop == s.agcTopDb + s.agcOffsetDb && r.rxAfGainDb == s.rxAfGainDb
    && r.panelGain == t.linear(s.micGainDb) && r.levelerMaxGainDb == s.levelerMaxGainDb
    && (s.nr.Some? ==> r.nr == s.nr.value) && (s.nr.None? ==> r.nr == t.noNr) && r.zoom == s.zoomLevel
  }

  ghost predicate CfcSet(t: Tables, s: StateDto, r: Regs) {
    (s.cfc.Some? ==> r.cfc == s.cfc.value) && (s.cfc.None? ==> r.cfc == t.noCfc)
  }

  ghost predicate FeedbackSet(t: Tables, s: StateDto, r: Regs) {
    r.hwPeak == s.psHwPeak && r.timing == s.psTiming && r.intsSpi == t.intsSpi(s.psIntsSpiPreset)
  }

  /** What pushing everything leaves, in plain terms. */
  lemma DesiredMeaning(t: Tables, s: StateDto)
    ensures var d := Desired(t, s);
            Tuned(t, s, d) && FeedbackSet(t, s, d) && CfcSet(t, s, d) && d.control == (s.psAuto, s.psSingle)
  {
    ShiftMeaning(s);
  }

  /** After any push, keyed or not, the engine is tuned as the state says; an unkeyed push
      to a synchronised or resyncing engine also sets peak, timing and CFC, and a
      resyncing one the control pair. */
  lemma PushTunes(t: Tables, p: Pipeline, s: StateDto)
    requires RxSynced(p)
    ensures var r := Push(t, p, s).regs;
            && RxSynced(Push(t, p, s)) && Tuned(t, s, r)
            && (p.resync || p.regs.cfc == p.cache.cfc ==> CfcSet(t, s, r))
            && (!p.keyed && (p.resync || OwnSynced(t, p)) ==> FeedbackSet(t, s, r))
            && (!p.keyed && (p.resync || p.regs.control == p.cache.control) ==> r.control == (s.psAuto, s.psSingle))
  {
    ShiftMeaning(s);
  }

  lemma PushIfSynced(t: Tables, p: Pipeline, s: StateDto)
    ensures RxSynced(p) ==> RxSynced(Push(t, p, s)) && Tuned(t, s, Push(t, p, s).regs)
  {
    if RxSynced(p) {
      PushTunes(t, p, s);
    }
  }

  /** So is a freshly opened engine, whatever its defaults, and its own PureSignal and CFC
      settings stay. */
  lemma OpenedTunes(t: Tables, p: Pipeline, s: StateDto, d: Regs, wdsp: bool)
    ensures var r := Opened(t, p, s, d, wdsp).regs;
            && Tuned(t, s, r)
            && r.hwPeak == d.hwPeak && r.timing == d.timing && r.intsSpi == d.intsSpi && r.control == d.control && r.cfc == d.cfc
  {
    ShiftMeaning(s);
  }

  lemma PushInv(t: Tables, p: Pipeline, s: StateDto)
    requires Inv(t, p) && !(p.keyed && p.resync && p.wdsp)
    ensures Inv(t, Push(t, p, s))
  {
    if p.keyed {
      KeyedPush(t, p, s);
    } else if p.wdsp {
      UnkeyedPush(t, p, s);
    }
  }

  lemma OpenedSynced(t: Tables, p: Pipeline, s: StateDto, d: Regs, wdsp: bool)
    ensures RxSynced(Opened(t, p, s, d, wdsp)) && Opened(t, p, s, d, wdsp).wdsp == wdsp
  {
  }

  lemma NextInv(t: Tables, p: Pipeline, e: Event)
    requires Inv(t, p) && !LosesResync(p, e)
    ensures Inv(t, Next(t, p, e))
  {
    match e
    case StateChanged(s) => PushInv(t, p, s);
    case MoxChanged(on, s) =>
      if !on {
        PushInv(t, p.(keyed := false), s);
      }
    case ConnectP1(s, d) => OpenedSynced(t, p, s, d, true);
    case DisconnectP1(s, d) => OpenedSynced(t, p, s, d, false);
    case ConnectP2(s, d, isWdsp) => OpenedSynced(t, p, s, d, isWdsp);
    case DisconnectP2(s, d) => OpenedSynced(t, p, s, d, false);
  }

  lemma PushKeepsKeying(t: Tables, p: Pipeline, s: StateDto)
    ensures Push(t, p, s).keyed == p.keyed
    ensures p.keyed ==> Push(t, p, s).peakWrites == p.peakWrites && Push(t, p, s).controlWrites == p.controlWrites
  {
  }

  /** Pushing the same state again changes nothing and calls no setter. */
  lemma PushIdempotent(t: Tables, p: Pipeline, s: StateDto)
    ensures Push(t, Push(t, p, s), s) == Push(t, p, s)
  {
  }

  /** A state that the cache already describes. */
  function Echo(p: Pipeline, s: StateDto): StateDto {
    s.(psHwPeak := p.cache.hwPeak, psTiming := p.cache.timing, psIntsSpiPreset := p.cache.intsSpiPreset,
       psAuto := p.cache.control.0, psSingle := p.cache.control.1, cfc := Some(p.cache.cfc))
  }

  /** Exactly when every later unkeyed push leaves the engine as pushed. */
  lemma SyncsEveryPushIff(t: Tables, p: Pipeline, any: StateDto)
    requires RxSynced(p) && !p.keyed
    ensures (forall s :: Push(t, p, s).regs == Desired(t, s)) <==> p.resync || PsSynced(t, p)
  {
    if p.resync || PsSynced(t, p) {
      forall s ensures Push(t, p, s).regs == Desired(t, s) {
        UnkeyedPush(t, p, s);
      }
    } else {
      var s := Echo(p, any);
      assert Push(t, p, s).regs != Desired(t, s);
    }
  }

  /** The first push after a swap is also the only one that may not arrive keyed: a
      keyed one clears the flag without the writes, and later pushes are right for
      every state exactly when the new engine's PureSignal settings happened to equal
      the cached ones already. */
  lemma KeyedFirstPushIff(t: Tables, p: Pipeline, s: StateDto)
    requires RxSynced(p) && p.resync
    ensures var released := Push(t, p, s).(keyed := false);
            (forall later :: Push(t, released, later).regs == Desired(t, later)) <==>
            !p.keyed || PsSynced(t, p.(regs := p.regs.(cfc := p.cache.cfc)))
  {
    var after := Push(t, p, s);
    if p.keyed {
      KeyedPush(t, p, s);
    } else {
      UnkeyedPush(t, p, s);
    }
    SyncsEveryPushIff(t, after.(keyed := false), s);
  }
}
