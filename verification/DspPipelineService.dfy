/** The pipeline service and the engine it drives, updated in place. */
module DspPipelineServices {
  import opened Seqs
  import opened DspPipeline

  /** An engine remembers what each setter was last called with. */
  class DspEngine {
    const isWdsp: bool
    var regs: Regs

    constructor (isWdsp: bool, defaults: Regs)
      ensures this.isWdsp == isWdsp && regs == defaults
    {
      this.isWdsp, regs := isWdsp, defaults;
    }

    method SetMode(mode: RxMode)
      modifies this
      ensures regs == old(regs).(mode := mode)
    { regs := regs.(mode := mode); }

    method SetTxMode(mode: RxMode)
      modifies this
      ensures regs == old(regs).(txMode := mode)
    { regs := regs.(txMode := mode); }

    method SetFilter(low: int, high: int)
      modifies this
      ensures regs == old(regs).(filter := (low, high))
    { regs := regs.(filter := (low, high)); }

    method SetCtunShift(shiftHz: int)
      modifies this
      ensures regs == old(regs).(shiftHz := shiftHz)
    { regs := regs.(shiftHz := shiftHz); }

    method SetTxFilter(low: int, high: int)
      modifies this
      ensures regs == old(regs).(txFilter := (low, high))
    { regs := regs.(txFilter := (low, high)); }

    method SetAgcTop(topDb: real)
      modifies this
      ensures regs == old(regs).(agcTop := topDb)
    { regs := regs.(agcTop := topDb); }

    method SetRxAfGainDb(db: real)
      modifies this
      ensures regs == old(regs).(rxAfGainDb := db)
    { regs := regs.(rxAfGainDb := db); }

    method SetTxPanelGain(linear: real)
      modifies this
      ensures regs == old(regs).(panelGain := linear)
    { regs := regs.(panelGain := linear); }

    method SetTxLevelerMaxGain(db: real)
      modifies this
      ensures regs == old(regs).(levelerMaxGainDb := db)
    { regs := regs.(levelerMaxGainDb := db); }

    method SetNoiseReduction(nr: Nr)
      modifies this
      ensures regs == old(regs).(nr := nr)
    { regs := regs.(nr := nr); }

    method SetZoom(level: int)
      modifies this
      ensures regs == old(regs).(zoom := level)
    { regs := regs.(zoom := level); }

    method SetPsHwPeak(hwPeak: real)
      modifies this
      ensures regs == old(regs).(hwPeak := hwPeak)
    { regs := regs.(hwPeak := hwPeak); }

    /** Timing, peak and the ints/spi pair as one batch. */
    method SetPsAdvanced(timing: Timing, hwPeak: real, intsSpi: (int, int))
      modifies this
      ensures regs == old(regs).(timing := timing, hwPeak := hwPeak, intsSpi := intsSpi)
    { regs := regs.(timing := timing, hwPeak := hwPeak, intsSpi := intsSpi); }

    method SetPsControl(autoCal: bool, singleCal: bool)
      modifies this
      ensures regs == old(regs).(control := (autoCal, singleCal))
    { regs := regs.(control := (autoCal, singleCal)); }

    method SetCfcConfig(cfc: CfcConfig)
      modifies this
      ensures regs == old(regs).(cfc := cfc)
    { regs := regs.(cfc := cfc); }
  }

  /** Field by field, and band by band where both have bands. */
  method CfcConfigsEqual(a: CfcConfig, b: CfcConfig) returns (equal: bool)
    ensures equal <==> a == b
  {
    if a.enabled != b.enabled || a.postEqEnabled != b.postEqEnabled {
      return false;
    }
    if a.preCompDb != b.preCompDb || a.prePeqDb != b.prePeqDb {
      return false;
    }
    if a.bands.None? || b.bands.None? {
      return a.bands == b.bands;
    }
    if |a.bands.value| != |b.bands.value| {
      return false;
    }
    for i := 0 to |a.bands.value|
      invariant a.bands.value[..i] == b.bands.value[..i]
    {
      var x, y := a.bands.value[i], b.bands.value[i];
      if x.freqHz != y.freqHz || x.compLevelDb != y.compLevelDb || x.postGainDb != y.postGainDb {
        return false;
      }
    }
    assert a.bands.value == a.bands.value[..|a.bands.value|] == b.bands.value[..|a.bands.value|] == b.bands.value;
    equal := true;
  }

  class DspPipelineService {
    const tables: Tables
    var engine: DspEngine
    var cache: Cache
    var keyed: bool
    var psResyncRequired: bool
    // Setter calls made by state pushes; those of the peak and timing setters; and those
    // of the control setter, whoever made them.
    ghost var writes: nat
    ghost var peakWrites: nat
    ghost var controlWrites: nat

    ghost function Now(): Pipeline
      reads this, engine
    {
      Pipeline(keyed, psResyncRequired, engine.isWdsp, cache, engine.regs, writes, peakWrites, controlWrites)
    }

    /** Starts on a synthetic engine. */
    constructor (tables: Tables, snapshot: StateDto, initial: Cache, defaults: Regs)
      ensures this.tables == tables && fresh(engine) && Inv(tables, Now())
      ensures !keyed && !psResyncRequired && !engine.isWdsp
    {
      this.tables := tables;
      engine := new DspEngine(false, defaults);
      cache := initial;
      keyed, psResyncRequired := false, false;
      writes, peakWrites, controlWrites := 0, 0, 0;
      new;
      ApplyStateToNewChannel(engine, snapshot);
    }

    /** One state push. */
    method OnRadioStateChanged(s: StateDto)
      modifies this, engine
      ensures engine == old(engine)
      ensures Now() == Push(tables, old(Now()), s)
      ensures old(RxSynced(Now())) ==> RxSynced(Now()) && Tuned(tables, s, engine.regs)
    {
      ghost var before := Now();
      PushReceiverSettings(s);
      PushTxFilterAndAgcSettings(s);
      PushAudioGainSettings(s);
      PushNrAndZoomSettings(s);
      if !keyed {
        PushPsPeak(s);
        PushPsAdvanced(s);
        PushPsControl(s);
      }
      PushCfcConfig(s);
      psResyncRequired := false;
      PushIfSynced(tables, before, s);
    }

    method PushReceiverSettings(s: StateDto)
      modifies this, engine
      ensures engine == old(engine)
      ensures Now() == PushReceiver(old(Now()), s)
    {
      if s.mode != cache.mode {
        engine.SetMode(s.mode);
        engine.SetTxMode(s.mode);
        cache := cache.(mode := s.mode);
        writes := writes + 2;
      }
      if s.filter.0 != cache.filter.0 || s.filter.1 != cache.filter.1 {
        engine.SetFilter(s.filter.0, s.filter.1);
        cache := cache.(filter := s.filter);
        writes := writes + 1;
      }
      var shiftHz := ShiftHz(s);
      if shiftHz != cache.shiftHz {
        engine.SetCtunShift(shiftHz);
        cache := cache.(shiftHz := shiftHz);
        writes := writes + 1;
      }
    }

    method PushTxFilterAndAgcSettings(s: StateDto)
      modifies this, engine
      ensures engine == old(engine)
      ensures Now() == PushTxFilterAndAgc(old(Now()), s)
    {
      if s.txFilter.0 != cache.txFilter.0 || s.txFilter.1 != cache.txFilter.1 {
        engine.SetTxFilter(s.txFilter.0, s.txFilter.1);
        cache := cache.(txFilter := s.txFilter);
        writes := writes + 1;
      }
      if s.agcTopDb != cache.agc.0 || s.agcOffsetDb != cache.agc.1 {
        engine.SetAgcTop(s.agcTopDb + s.agcOffsetDb);
        cache := cache.(agc := (s.agcTopDb, s.agcOffsetDb));
        writes := writes + 1;
      }
    }

    method PushAudioGainSettings(s: StateDto)
      modifies this, engine
      ensures engine == old(engine)
      ensures Now() == PushAudioGains(tables, old(Now()), s)
    {
      if s.rxAfGainDb != cache.rxAfGainDb {
        engine.SetRxAfGainDb(s.rxAfGainDb);
        cache := cache.(rxAfGainDb := s.rxAfGainDb);
        writes := writes + 1;
      }
      var micLinear := tables.linear(s.micGainDb);
      if Some(micLinear) != cache.panelGain {
        engine.SetTxPanelGain(micLinear);
        cache := cache.(panelGain := Some(micLinear));
        writes := writes + 1;
      }
      if Some(s.levelerMaxGainDb) != cache.levelerMaxGainDb {
        engine.SetTxLevelerMaxGain(s.levelerMaxGainDb);
        cache := cache.(levelerMaxGainDb := Some(s.levelerMaxGainDb));
        writes := writes + 1;
      }
    }

    method PushNrAndZoomSettings(s: StateDto)
      modifies this, engine
      ensures engine == old(engine)
      ensures Now() == PushNrAndZoom(tables, old(Now()), s)
    {
      var nr := NrOf(tables, s);
      if nr != cache.nr {
        engine.SetNoiseReduction(nr);
        cache := cache.(nr := nr);
        writes := writes + 1;
      }
      if s.zoomLevel != cache.zoom {
        engine.SetZoom(s.zoomLevel);
        cache := cache.(zoom := s.zoomLevel);
        writes := writes + 1;
      }
    }

    method PushPsPeak(s: StateDto)
      modifies this, engine
      ensures engine == old(engine)
      ensures Now() == PushPeak(old(Now()), s)
    {
      if psResyncRequired || s.psHwPeak != cache.hwPeak {
        engine.SetPsHwPeak(s.psHwPeak);
        cache := cache.(hwPeak := s.psHwPeak);
        writes, peakWrites := writes + 1, peakWrites + 1;
      }
    }

    method PushPsAdvanced(s: StateDto)
      modifies this, engine
      ensures engine == old(engine)
      ensures Now() == PushAdvanced(tables, old(Now()), s)
    {
      if psResyncRequired || s.psTiming != cache.timing || s.psIntsSpiPreset != cache.intsSpiPreset {
        engine.SetPsAdvanced(s.psTiming, s.psHwPeak, tables.intsSpi(s.psIntsSpiPreset));
        cache := cache.(timing := s.psTiming, intsSpiPreset := s.psIntsSpiPreset);
        writes, peakWrites := writes + 1, peakWrites + 1;
      }
    }

    method PushPsControl(s: StateDto)
      modifies this, engine
      ensures engine == old(engine)
      ensures Now() == PushControl(old(Now()), s)
    {
      if psResyncRequired || s.psAuto != cache.control.0 || s.psSingle != cache.control.1 {
        engine.SetPsControl(s.psAuto, s.psSingle);
        cache := cache.(control := (s.psAuto, s.psSingle));
        writes, controlWrites := writes + 1, controlWrites + 1;
      }
    }

    method PushCfcConfig(s: StateDto)
      modifies this, engine
      ensures engine == old(engine)
      ensures Now() == PushCfc(tables, old(Now()), s)
    {
      var cfc := CfcOf(tables, s);
      var same := CfcConfigsEqual(cfc, cache.cfc);
      if psResyncRequired || !same {
        engine.SetCfcConfig(cfc);
        cache := cache.(cfc := cfc);
        writes := writes + 1;
      }
    }

    /** Keying only sets the flag; releasing also pushes the current state, which picks
        up what was deferred. */
    method OnRadioMoxChanged(on: bool, snapshot: StateDto)
      modifies this, engine
      ensures engine == old(engine)
      ensures Now() == Next(tables, old(Now()), MoxChanged(on, snapshot))
    {
      keyed := on;
      if !on {
        OnRadioStateChanged(snapshot);
      }
    }

    method ApplyStateToNewChannel(e: DspEngine, s: StateDto)
      modifies e, this`cache
      ensures e.regs == Desired(tables, s).(hwPeak := old(e.regs.hwPeak), timing := old(e.regs.timing),
                                            intsSpi := old(e.regs.intsSpi), control := old(e.regs.control),
                                            cfc := old(e.regs.cfc))
      ensures Tuned(tables, s, e.regs)
      ensures cache == Opened(tables, Pipeline(false, false, false, old(cache), e.regs, 0, 0, 0), s, e.regs, false).cache
    {
      DesiredMeaning(tables, s);
      e.SetMode(s.mode);
      e.SetTxMode(s.mode);
      e.SetFilter(s.filter.0, s.filter.1);
      e.SetTxFilter(s.txFilter.0, s.txFilter.1);
      e.SetCtunShift(ShiftHz(s));
      e.SetAgcTop(s.agcTopDb + s.agcOffsetDb);
      e.SetRxAfGainDb(s.rxAfGainDb);
      e.SetTxPanelGain(tables.linear(s.micGainDb));
      e.SetTxLevelerMaxGain(s.levelerMaxGainDb);
      e.SetNoiseReduction(NrOf(tables, s));
      e.SetZoom(s.zoomLevel);
      cache := cache.(mode := s.mode, filter := s.filter, txFilter := s.txFilter, shiftHz := ShiftHz(s),
                      agc := (s.agcTopDb, s.agcOffsetDb), rxAfGainDb := s.rxAfGainDb,
                      panelGain := Some(tables.linear(s.micGainDb)),
                      levelerMaxGainDb := Some(s.levelerMaxGainDb),
                      nr := NrOf(tables, s), zoom := s.zoomLevel);
    }

    /** Puts a freshly opened engine in place of the old one. */
    method Swap(isWdsp: bool, s: StateDto, defaults: Regs)
      modifies this
      ensures fresh(engine)
      ensures Now() == Opened(tables, old(Now()), s, defaults, isWdsp)
    {
      var swapped := new DspEngine(isWdsp, defaults);
      ApplyStateToNewChannel(swapped, s);
      engine := swapped;
    }

    method OnRadioConnected(snapshot: StateDto, defaults: Regs)
      modifies this
      ensures fresh(engine) && Now() == Next(tables, old(Now()), ConnectP1(snapshot, defaults))
    {
      Swap(true, snapshot, defaults);
      psResyncRequired := true;
    }

    method OnRadioDisconnected(snapshot: StateDto, defaults: Regs)
      modifies this
      ensures fresh(engine) && Now() == Next(tables, old(Now()), DisconnectP1(snapshot, defaults))
    {
      Swap(false, snapshot, defaults);
    }

    /** Falls back to a synthetic engine when the real one does not open. */
    method ConnectP2(snapshot: StateDto, defaults: Regs, wdspOpened: bool)
      modifies this
      ensures fresh(engine) && Now() == Next(tables, old(Now()), Event.ConnectP2(snapshot, defaults, wdspOpened))
    {
      Swap(wdspOpened, snapshot, defaults);
      psResyncRequired := true;
    }

    method DisconnectP2(snapshot: StateDto, defaults: Regs)
      modifies this
      ensures fresh(engine) && Now() == Next(tables, old(Now()), Event.DisconnectP2(snapshot, defaults))
    {
      Swap(false, snapshot, defaults);
      psResyncRequired := true;
    }
  }
}
