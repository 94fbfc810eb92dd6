/** The automatic attenuator as a service beside the pipeline, updated in place. */
module PsAutoAttenuateServices {
  import opened DspPipeline
  import opened DspPipelineServices
  import opened PsAutoAttenuate

  datatype Phase = InMonitor | InSetNewValues | InRestoreOperation

  function MachineOf(phase: Phase, saved: Control): Machine {
    match phase
    case InMonitor => Monitor
    case InSetNewValues => SetNewValues(saved)
    case InRestoreOperation => RestoreOperation(saved)
  }

  class PsAutoAttenuateService {
    const pipe: DspPipelineService
    var psWasEnabled: bool
    var hl2State: Phase
    var hl2Saved: Control
    var p2State: Phase
    var p2Saved: Control

    ghost function Now(): Station
      reads this, pipe, pipe.engine
    {
      Station(pipe.Now(), psWasEnabled, MachineOf(hl2State, hl2Saved), MachineOf(p2State, p2Saved))
    }

    constructor (pipe: DspPipelineService)
      ensures this.pipe == pipe && Now() == Station(pipe.Now(), false, Monitor, Monitor)
    {
      this.pipe := pipe;
      psWasEnabled, hl2State, p2State := false, InMonitor, InMonitor;
      hl2Saved, p2Saved := OFF, OFF;
    }

    /** One tick of the timer. */
    method Tick1(s: StateDto, txActive: bool, board: Board, wanted: bool)
      modifies this, pipe`controlWrites, pipe.engine
      ensures Now() == Ticked(old(Now()), s, txActive, board, wanted)
    {
      Arm(s);
      if !s.psEnabled {
        hl2State, p2State := InMonitor, InMonitor;
      } else if !txActive {
        Recover();
      } else {
        match board
        case HermesLite2 => Tick1Hl2(s, wanted);
        case Protocol2 => Tick1P2(s, wanted);
        case NoBoard =>
      }
    }

    method Arm(s: StateDto)
      modifies this
      ensures Now() == Armed(old(Now()), s)
    {
      if s.psEnabled && !psWasEnabled {
        hl2State, p2State := InMonitor, InMonitor;
      }
      psWasEnabled := s.psEnabled;
    }

    /** The transmitter fell during a dance: puts the saved pair back. */
    method Recover()
      modifies this, pipe`controlWrites, pipe.engine
      ensures var y := old(Now());
              Now() == y.(pipe := Restored(Restored(y.pipe, y.hl2), y.p2), hl2 := Monitor, p2 := Monitor)
    {
      if hl2State != InMonitor {
        SetPsControl(hl2Saved);
      }
      if p2State != InMonitor {
        SetPsControl(p2Saved);
      }
      hl2State, p2State := InMonitor, InMonitor;
    }

    method SetPsControl(control: Control)
      modifies pipe`controlWrites, pipe.engine
      ensures pipe.Now() == WriteControl(old(pipe.Now()), control)
    {
      pipe.engine.SetPsControl(control.0, control.1);
      pipe.controlWrites := pipe.controlWrites + 1;
    }

    method Tick1Hl2(s: StateDto, wanted: bool)
      modifies this, pipe`controlWrites, pipe.engine
      ensures var y := old(Now());
              Now() == y.(pipe := Danced(y.pipe, y.hl2, wanted), hl2 := Stepped(y.hl2, s, wanted))
    {
      match hl2State
      case InMonitor =>
        if wanted {
          hl2Saved := (s.psAuto, s.psSingle);
          SetPsControl(OFF);
          hl2State := InSetNewValues;
        }
      case InSetNewValues => hl2State := InRestoreOperation;
      case InRestoreOperation =>
        SetPsControl(hl2Saved);
        hl2State := InMonitor;
    }

    method Tick1P2(s: StateDto, wanted: bool)
      modifies this, pipe`controlWrites, pipe.engine
      ensures var y := old(Now());
              Now() == y.(pipe := Danced(y.pipe, y.p2, wanted), p2 := Stepped(y.p2, s, wanted))
    {
      match p2State
      case InMonitor =>
        if wanted {
          p2Saved := (s.psAuto, s.psSingle);
          SetPsControl(OFF);
          p2State := InSetNewValues;
        }
      case InSetNewValues => p2State := InRestoreOperation;
      case InRestoreOperation =>
        SetPsControl(p2Saved);
        p2State := InMonitor;
    }
  }
}
