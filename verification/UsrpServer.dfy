/** The objects of usrp_server.py that the swing pipeline is made of: swingManager, scanManager,
    RadarChannelHandler and the part of RadarHardwareManager that runs trigger_next_swing.

    Every method updates fields as the source does and is proved to perform exactly one step of the
    state machine in SwingPipeline, or one call, or one round of SET_READY and GET_DATA; RunScan runs
    a whole scan. Where the threads are is ghost state. */
module UsrpServer {
  import opened Wrappers
  import opened SwingPipeline
  import opened SwingInvariant
  import opened SwingTheorems
  import opened SwingCall

  class LiveSwingManager {
    var activeSwing: Swing
    var processingSwing: Swing
    var nextSwingToTrigger: Swing

    constructor ()
      ensures View() == SwingManager(Zero, One, Zero)
    {
      activeSwing, processingSwing, nextSwingToTrigger := Zero, One, Zero;
    }

    ghost function View(): SwingManager
      reads this
    {
      SwingManager(activeSwing, processingSwing, nextSwingToTrigger)
    }

    method SwitchSwings()
      modifies this
      ensures View() == SwingPipeline.SwitchSwings(old(View()))
    {
      activeSwing := Other(activeSwing);
      processingSwing := Other(processingSwing);
    }
  }

  class LiveScanManager {
    var beams: seq<int>
    var currentPeriod: int
    var currentClrFreq: Option<int>
    var nextClrFreq: Option<int>
    var isPrePeriod: bool
    var isPostLast: bool
    var isFirstPeriod: bool

    constructor ()
      ensures View() == ScanManager([], 0, None, None, false, false, false)
    {
      beams, currentPeriod, currentClrFreq, nextClrFreq := [], 0, None, None;
      isPrePeriod, isPostLast, isFirstPeriod := false, false, false;
    }

    ghost function View(): ScanManager
      reads this
    {
      ScanManager(beams, currentPeriod, currentClrFreq, nextClrFreq, isPrePeriod, isPostLast, isFirstPeriod)
    }

    method InitNewScan(scanBeams: seq<int>, startPeriod: int)
      modifies this
      ensures View() == ScanManager(scanBeams, startPeriod, None, None, true, false, true)
    {
      beams, currentPeriod := scanBeams, startPeriod;
      currentClrFreq, nextClrFreq := None, None;
      isPrePeriod, isPostLast, isFirstPeriod := true, false, true;
    }

    /** The clear frequency of the current period is evaluated only if none was handed on. */
    method GetCurrentClearFreq(evaluated: int) returns (freq: int)
      modifies this`currentClrFreq
      ensures currentClrFreq == Some(freq)
      ensures freq == (if old(currentClrFreq).Some? then old(currentClrFreq).value else evaluated)
    {
      if currentClrFreq.None? {
        currentClrFreq := Some(evaluated);
      }
      freq := currentClrFreq.value;
    }

    method PeriodFinished()
      modifies this
      ensures View() == old(View()).PeriodFinished()
    {
      if nextClrFreq.Some? {
        currentClrFreq := nextClrFreq;
        nextClrFreq := None;
      }
      if isPrePeriod {
        isPrePeriod := false;
        return;
      }
      if |beams| == 1 {
        return;
      }
      if !(currentPeriod + 1 == |beams|) {
        currentPeriod := currentPeriod + 1;
      } else {
        isPostLast := true;
      }
    }

    /** The clear frequency of the next period is evaluated once and then kept. */
    method GetNextClearFreq(evaluated: int) returns (freq: int)
      modifies this`nextClrFreq
      ensures nextClrFreq == Some(freq)
      ensures freq == (if old(nextClrFreq).Some? then old(nextClrFreq).value else evaluated)
    {
      if nextClrFreq.None? {
        nextClrFreq := Some(evaluated);
      }
      freq := nextClrFreq.value;
    }
  }

  class LiveChannel {
    var state: Both<ChannelState>
    var nextState: Both<ChannelState>
    var resultDictList: seq<Result>
    var triggeredSwingList: seq<Swing>
    var ctrlprm: Params
    var registered: bool

    constructor ()
      ensures state == Both(Inactive, Inactive) && nextState == Both(Inactive, Inactive)
      ensures resultDictList == [] && triggeredSwingList == [] && !registered
    {
      state, nextState := Both(Inactive, Inactive), Both(Inactive, Inactive);
      resultDictList, triggeredSwingList := [], [];
      ctrlprm, registered := Params(0, 0), false;
    }

    ghost function View(): Channel
      reads this
    {
      Channel(state, nextState, resultDictList, triggeredSwingList, ctrlprm, registered)
    }

    method SetState(swing: Swing, value: ChannelState)
      modifies this`state
      ensures state == old(state).With(swing, value)
    {
      state := state.With(swing, value);
    }

    /** resultDict_list[-1] = r */
    method ReplaceLastResult(r: Result)
      requires resultDictList != []
      modifies this`resultDictList
      ensures resultDictList == SetLast(old(resultDictList), r)
    {
      resultDictList := resultDictList[..|resultDictList| - 1] + [r];
    }
  }

  class HardwareManager {
    const swings: LiveSwingManager
    const scan: LiveScanManager
    const channel: LiveChannel
    var gpu: Both<Option<Params>>
    var transmitting: bool
    var nSequences: nat
    var triggerNextPeriod: bool
    var processingSwingInvalid: bool
    var readInvalid: bool
    var finishedSwing: Swing
    var flagCleared: bool // by another channel's SET_ACTIVE; for the field `lost` of results only
    ghost var pc: LoopPc
    ghost var handlerPc: HandlerPc
    ghost var log: Log

    constructor ()
      ensures IsInit(View())
      ensures fresh(swings) && fresh(scan) && fresh(channel)
    {
      swings := new LiveSwingManager();
      scan := new LiveScanManager();
      channel := new LiveChannel();
      gpu := Both(None, None);
      transmitting, nSequences, triggerNextPeriod := false, 0, false;
      processingSwingInvalid, readInvalid, flagCleared := false, false, false;
      finishedSwing := Zero;
      pc, handlerPc := Idle, Off;
      log := Log([], 0, [], 0, Zero, false);
    }

    ghost function View(): State
      reads this, swings, scan, channel
    {
      State(swings.View(), scan.View(), channel.View(), gpu,
            ControlLoop(pc, transmitting, nSequences, triggerNextPeriod, processingSwingInvalid, readInvalid),
            HandlerThread(handlerPc, finishedSwing), log.(cleared := flagCleared))
    }

    /** SET_ACTIVE. */
    method SetActive(beams: seq<int>, startPeriod: nat)
      modifies this`processingSwingInvalid, this`flagCleared, scan, channel`triggeredSwingList
      ensures !processingSwingInvalid && !flagCleared && channel.triggeredSwingList == []
      ensures scan.View() == ScanManager(beams, startPeriod, None, None, true, false, true)
    {
      processingSwingInvalid, flagCleared := false, false;
      scan.InitNewScan(beams, startPeriod);
      channel.triggeredSwingList := [];
    }

    /** CUDA_ADD of the first period, into the active swing. */
    method LoadFirstPeriod(firstFreq: int)
      requires 0 <= scan.currentPeriod < |scan.beams|
      modifies this`gpu, scan`currentClrFreq, channel`ctrlprm, channel`registered
      ensures scan.currentClrFreq == (if old(scan.currentClrFreq).Some? then old(scan.currentClrFreq) else Some(firstFreq))
      ensures channel.ctrlprm == scan.View().CurrentParams() && channel.registered
      ensures gpu == old(gpu).With(swings.activeSwing, Some(channel.ctrlprm))
    {
      var freq := scan.GetCurrentClearFreq(firstFreq);
      channel.ctrlprm := Params(scan.beams[scan.currentPeriod], freq);
      channel.registered := true;
      gpu := gpu.With(swings.activeSwing, Some(channel.ctrlprm));
    }

    method ArmActiveSwing()
      modifies channel`state
      ensures channel.state == (if old(channel.state).At(swings.activeSwing) == Inactive
                                then old(channel.state).With(swings.activeSwing, Ready) else old(channel.state))
    {
      if channel.state.At(swings.activeSwing) == Inactive {
        channel.SetState(swings.activeSwing, Ready);
      }
    }

    /** SET_ACTIVE, SET_PARAMETERS and initialize_channel. */
    method InitializeChannel(beams: seq<int>, startPeriod: nat, firstFreq: int)
      requires startPeriod < |beams|
      modifies this, scan, channel
      ensures View() == StartScan(old(View()), beams, startPeriod, firstFreq)
    {
      SetActive(beams, startPeriod);
      LoadFirstPeriod(firstFreq);
      ArmActiveSwing();
      handlerPc := WaitReady;
      log := Log([], 0, [firstFreq], startPeriod, swings.activeSwing, false);
    }

    // ---------------------------------------------------------------- trigger_next_swing

    method IsLastPeriod() returns (last: bool)
      ensures last == scan.View().IsLastPeriod()
    {
      last := scan.currentPeriod + 1 == |scan.beams| && |scan.beams| != 1;
    }

    /** nextSwingToTrigger, and whether there is something to transmit. */
    method BeginCall(forced: bool, nSeq: nat, othersTransmit: bool)
      modifies this`pc, this`transmitting, this`nSequences, this`triggerNextPeriod, this`log, swings`nextSwingToTrigger
      ensures View() == BeginSwing(old(View()), forced, nSeq, othersTransmit)
    {
      var last := IsLastPeriod();
      transmitting := !last || othersTransmit;
      nSequences, triggerNextPeriod := nSeq, forced || nSeq != 0;
      swings.nextSwingToTrigger := swings.processingSwing;
      log := log.(calls := log.calls + 1, upcoming := Other(log.upcoming));
      pc := Insert;
    }

    method QueueResult()
      requires pc == Insert
      modifies this`pc, channel`resultDictList
      ensures View() == LoopNext(old(View()), 0)
    {
      var last := IsLastPeriod();
      if transmitting && !last {
        channel.resultDictList :=
          [Result(None, None, nSequences, true, triggerNextPeriod, false)] + channel.resultDictList;
      }
      pc := Fire;
    }

    method MarkTriggered()
      requires pc == Fire
      modifies this`pc, channel`state
      ensures View() == LoopNext(old(View()), 0)
    {
      if transmitting && channel.state.At(swings.activeSwing) == Trigger {
        channel.SetState(swings.activeSwing, Processing);
      }
      pc := Store;
    }

    /** CUDA_GET_DATA and beamforming with the beam of the current period. */
    method ReadOutSwing() returns (processing: bool)
      requires pc == Store && LoopEnabled(View())
      modifies this`pc, this`processingSwingInvalid, this`readInvalid, this`flagCleared, channel`resultDictList
      ensures View() == LoopNext(old(View()), 0)
      ensures processing == (channel.state.At(swings.processingSwing) == Processing)
    {
      processing := channel.state.At(swings.processingSwing) == Processing;
      if !processing {
        processingSwingInvalid := false;
        flagCleared := false;
        pc := Finish;
      } else {
        readInvalid := processingSwingInvalid;
        if !readInvalid {
          var last := channel.resultDictList[|channel.resultDictList| - 1];
          var beamformed := Params(scan.beams[scan.currentPeriod], scan.currentClrFreq.value);
          channel.ReplaceLastResult(last.(data := Some(Samples(gpu.At(swings.processingSwing), beamformed)),
                                          lost := flagCleared));
        }
        pc := Relabel;
      }
    }

    /** update_ctrlprm_class("current") in the control loop. */
    method RelabelParameters()
      requires pc == Relabel && LoopEnabled(View())
      modifies this`pc, channel`ctrlprm
      ensures View() == LoopNext(old(View()), 0)
    {
      channel.ctrlprm := Params(scan.beams[scan.currentPeriod], scan.currentClrFreq.value);
      pc := CopyLabel;
    }

    method CopyLabelToResult()
      requires pc == CopyLabel && LoopEnabled(View())
      modifies this`pc, this`processingSwingInvalid, this`flagCleared, channel`resultDictList
      ensures View() == LoopNext(old(View()), 0)
    {
      var last := channel.resultDictList[|channel.resultDictList| - 1].(tag := Some(channel.ctrlprm));
      if readInvalid {
        channel.ReplaceLastResult(last.(valid := false, nSequences := 0));
        processingSwingInvalid := false;
      } else {
        channel.ReplaceLastResult(last);
      }
      flagCleared := false;
      pc := Finish;
    }

    method NextPeriod()
      requires pc == Finish
      modifies this`pc, scan
      ensures View() == LoopNext(old(View()), 0)
    {
      scan.PeriodFinished();
      pc := Decide;
    }

    method DecideNextState() returns (processing: bool)
      requires pc == Decide
      modifies this`pc, channel`state, channel`nextState
      ensures View() == LoopNext(old(View()), 0)
      ensures processing == (pc == Publish)
    {
      processing := channel.state.At(swings.processingSwing) == Processing;
      if !processing {
        pc := Load;
        return;
      }
      var last := IsLastPeriod();
      if scan.isPostLast {
        channel.nextState := channel.nextState.With(swings.processingSwing, Inactive);
        channel.SetState(swings.activeSwing, Inactive);
        channel.nextState := channel.nextState.With(swings.activeSwing, Inactive);
      } else if last {
        channel.nextState := channel.nextState.With(swings.processingSwing, LastSwing);
      } else {
        channel.nextState := channel.nextState.With(swings.processingSwing, Ready);
      }
      pc := Publish;
    }

    method PublishState()
      requires pc == Publish
      modifies this`pc, channel`state
      ensures View() == LoopNext(old(View()), 0)
    {
      channel.SetState(swings.processingSwing, SamplesReady);
      pc := Load;
    }

    /** CUDA_REMOVE_CHANNEL in the last period, otherwise get_next_sequence. */
    method RemoveOrPrepare(evaluated: int) returns (prepared: bool)
      requires pc == Load && LoopEnabled(View())
      modifies this`pc, this`gpu, this`log, scan`nextClrFreq, channel`ctrlprm, channel`registered
      ensures View() == LoopNext(old(View()), evaluated)
      ensures prepared == (pc == Copy)
      ensures log == old(log) || log == old(log).(freqs := old(log.freqs) + [evaluated])
    {
      var last := IsLastPeriod();
      if last {
        gpu := gpu.With(swings.processingSwing, None);
        if scan.isPostLast {
          channel.registered := false;
        }
        pc := LoopPc.Switch;
      } else {
        if scan.nextClrFreq.None? {
          log := log.(freqs := log.freqs + [evaluated]);
        }
        var freq := scan.GetNextClearFreq(evaluated);
        channel.ctrlprm := Params(scan.beams[scan.currentPeriod + 1], freq);
        pc := Copy;
      }
      prepared := !last;
    }

    /** CUDA_ADD. */
    method LoadSwing()
      requires pc == Copy
      modifies this`pc, this`gpu
      ensures View() == LoopNext(old(View()), 0)
    {
      gpu := gpu.With(swings.processingSwing, Some(channel.ctrlprm));
      pc := Arm;
    }

    /** First use of a swing. */
    method ArmFirstUse()
      requires pc == Arm
      modifies this`pc, channel`state
      ensures View() == LoopNext(old(View()), 0)
    {
      if channel.state.At(swings.processingSwing) == Inactive {
        channel.SetState(swings.processingSwing, Ready);
      }
      pc := LoopPc.Switch;
    }

    method SwitchActive()
      requires pc == LoopPc.Switch
      modifies this`pc, swings
      ensures View() == LoopNext(old(View()), 0)
    {
      swings.SwitchSwings();
      pc := AutoTrigger;
    }

    method TriggerSecondPeriod() returns (second: bool)
      requires pc == AutoTrigger
      modifies this`pc, channel`state
      ensures View() == LoopNext(old(View()), 0)
      ensures second == (pc == AutoPush)
    {
      second := transmitting && channel.registered && scan.isFirstPeriod;
      if second {
        channel.SetState(swings.activeSwing, Trigger);
        pc := AutoPush;
      } else {
        pc := End;
      }
    }

    method QueueSecondPeriod()
      requires pc == AutoPush
      modifies this`pc, channel`triggeredSwingList, scan`isFirstPeriod
      ensures View() == LoopNext(old(View()), 0)
    {
      channel.triggeredSwingList := [swings.nextSwingToTrigger] + channel.triggeredSwingList;
      scan.isFirstPeriod := false;
      pc := End;
    }

    method EndCall()
      requires pc == End
      modifies this`pc, this`processingSwingInvalid
      ensures View() == LoopNext(old(View()), 0)
    {
      if !triggerNextPeriod {
        processingSwingInvalid := true;
      }
      pc := Idle;
    }

    ghost predicate InCall(at: LoopPc, freq: int, end: State)
      reads this, swings, scan, channel
    {
      pc == at && Leads(View(), freq, end) && (at != Idle ==> LoopEnabled(View()))
    }

    method TriggerSection(freq: int, ghost end: State)
      requires InCall(Insert, freq, end)
      modifies this`pc, channel`resultDictList, channel`state
      ensures InCall(Store, freq, end)
      ensures View() == LoopNext(LoopNext(old(View()), 0), 0)
    {
      ghost var s := View();
      QueueResult();
      LeadsOn(s, View(), freq, end);
      s := View();
      MarkTriggered();
      LeadsOn(s, View(), freq, end);
    }

    method ReadOutSection(freq: int, ghost end: State)
      requires InCall(Store, freq, end) && ValidSoFar(View())
      modifies this`pc, this`processingSwingInvalid, this`readInvalid, this`flagCleared
      modifies channel`resultDictList, channel`ctrlprm
      ensures InCall(Finish, freq, end)
      ensures ReadOutOldest(old(View()), channel.resultDictList) && !processingSwingInvalid
    {
      ghost var s := View();
      var processing := ReadOutSwing();
      LeadsOn(s, View(), freq, end);
      if processing {
        s := View();
        RelabelParameters();
        LeadsOn(s, View(), freq, end);
        s := View();
        CopyLabelToResult();
        LeadsOn(s, View(), freq, end);
      }
    }

    method UpdateSection(freq: int, ghost end: State)
      requires InCall(Finish, freq, end)
      modifies this`pc, scan, channel`state, channel`nextState
      ensures InCall(Load, freq, end)
    {
      ghost var s := View();
      NextPeriod();
      LeadsOn(s, View(), freq, end);
      s := View();
      var processing := DecideNextState();
      LeadsOn(s, View(), freq, end);
      if processing {
        s := View();
        PublishState();
        LeadsOn(s, View(), freq, end);
      }
    }

    method LoadSection(freq: int, ghost end: State)
      requires InCall(Load, freq, end)
      modifies this`pc, this`gpu, this`log, scan`nextClrFreq
      modifies channel`ctrlprm, channel`registered, channel`state
      ensures InCall(LoopPc.Switch, freq, end)
      ensures log == old(log) || log == old(log).(freqs := old(log.freqs) + [freq])
    {
      ghost var s := View();
      var prepared := RemoveOrPrepare(freq);
      LeadsOn(s, View(), freq, end);
      if prepared {
        AddSection(freq, end);
      }
    }

    method AddSection(freq: int, ghost end: State)
      requires InCall(Copy, freq, end)
      modifies this`pc, this`gpu, channel`state
      ensures InCall(LoopPc.Switch, freq, end)
    {
      ghost var s := View();
      LoadSwing();
      LeadsOn(s, View(), freq, end);
      s := View();
      ArmFirstUse();
      LeadsOn(s, View(), freq, end);
    }

    method SwitchSection(freq: int, ghost end: State)
      requires InCall(LoopPc.Switch, freq, end)
      modifies this`pc, this`processingSwingInvalid, swings
      modifies channel`state, channel`triggeredSwingList, scan`isFirstPeriod
      ensures InCall(Idle, freq, end)
      ensures swings.View() == SwingPipeline.SwitchSwings(old(swings.View()))
      ensures processingSwingInvalid == (old(processingSwingInvalid) || !triggerNextPeriod)
    {
      ghost var s := View();
      SwitchActive();
      LeadsOn(s, View(), freq, end);
      s := View();
      var second := TriggerSecondPeriod();
      LeadsOn(s, View(), freq, end);
      if second {
        s := View();
        QueueSecondPeriod();
        LeadsOn(s, View(), freq, end);
      }
      s := View();
      EndCall();
      LeadsOn(s, View(), freq, end);
    }

    method TriggerAndReadOut(freq: int, ghost end: State)
      requires InCall(Insert, freq, end) && ValidSoFar(LoopNext(LoopNext(View(), 0), 0))
      modifies this`pc, this`processingSwingInvalid, this`readInvalid, this`flagCleared
      modifies channel`resultDictList, channel`state, channel`ctrlprm
      ensures InCall(Finish, freq, end)
      ensures ReadOutOldest(LoopNext(LoopNext(old(View()), 0), 0), channel.resultDictList) && !processingSwingInvalid
    {
      TriggerSection(freq, end);
      ReadOutSection(freq, end);
    }

    method UpdateAndSwitch(freq: int, ghost end: State)
      requires InCall(Finish, freq, end) && !processingSwingInvalid
      modifies this`pc, this`gpu, this`processingSwingInvalid, this`log, swings, scan
      modifies channel`state, channel`nextState, channel`ctrlprm, channel`registered, channel`triggeredSwingList
      ensures InCall(Idle, freq, end)
      ensures log == old(log) || log == old(log).(freqs := old(log.freqs) + [freq])
      ensures swings.View() == SwingPipeline.SwitchSwings(old(swings.View()))
      ensures processingSwingInvalid == !triggerNextPeriod
    {
      UpdateSection(freq, end);
      LoadSection(freq, end);
      SwitchSection(freq, end);
    }

    method PerformCall(forced: bool, nSeq: nat, othersTransmit: bool, freq: int, ghost start: State, ghost end: State)
      requires start == BeginSwing(View(), forced, nSeq, othersTransmit) && LoopEnabled(start)
      requires Leads(start, freq, end) && ValidSoFar(LoopNext(LoopNext(start, 0), 0))
      modifies this, swings, scan, channel
      ensures View() == end && processingSwingInvalid == !start.loop.fire
      ensures ReadOutOldest(LoopNext(LoopNext(start, 0), 0), channel.resultDictList)
      ensures View().log.freqs == start.log.freqs || View().log.freqs == start.log.freqs + [freq]
      ensures swings.View() == SwingPipeline.SwitchSwings(start.sw)
    {
      BeginCall(forced, nSeq, othersTransmit);
      TriggerAndReadOut(freq, end);
      UpdateAndSwitch(freq, end);
    }

    /** One call, from the calculation of nextSwingToTrigger to the end: step by step that of the state
        machine, and as a whole what Called says. */
    method TriggerNextSwing(forced: bool, nSeq: nat, othersTransmit: bool, evaluated: int)
      requires MayBegin(View())
      modifies this, swings, scan, channel
      ensures Scanning(BeginSwing(old(View()), forced, nSeq, othersTransmit))
      ensures View() == RunCall(BeginSwing(old(View()), forced, nSeq, othersTransmit), evaluated)
      ensures Called(old(View()), View(), nSeq, forced || nSeq != 0, evaluated)
      ensures transmitting == (old(scan.currentPeriod + 1 != |scan.beams| || |scan.beams| == 1) || othersTransmit)
    {
      ghost var s := View();
      ghost var start, end := CallBegins(s, forced, nSeq, othersTransmit, evaluated);
      PerformCall(forced, nSeq, othersTransmit, evaluated, start, end);
      CallEnds(s, start, View(), forced, nSeq, othersTransmit, evaluated);
    }

    // ---------------------------------------------------------------- SET_READY and GET_DATA

    method TriggerSwing()
      requires handlerPc == SetTrigger
      modifies this`handlerPc, channel`state
      ensures View() == HandlerNext(old(View()))
    {
      channel.SetState(swings.nextSwingToTrigger, Trigger);
      handlerPc := PushSwing;
    }

    method QueueSwing()
      requires handlerPc == PushSwing
      modifies this`handlerPc, channel`triggeredSwingList
      ensures View() == HandlerNext(old(View()))
    {
      channel.triggeredSwingList := [swings.nextSwingToTrigger] + channel.triggeredSwingList;
      handlerPc := Refresh;
    }

    method RefreshParameters()
      requires handlerPc == Refresh && HandlerEnabled(View())
      modifies this`handlerPc, channel`ctrlprm
      ensures View() == HandlerNext(old(View()))
    {
      channel.ctrlprm := Params(scan.beams[scan.currentPeriod], scan.currentClrFreq.value);
      handlerPc := PopSwing;
    }

    method TakeFinishedSwing()
      requires handlerPc == PopSwing && HandlerEnabled(View())
      modifies this`handlerPc, this`finishedSwing, channel`triggeredSwingList
      ensures View() == HandlerNext(old(View()))
    {
      var last := |channel.triggeredSwingList| - 1;
      finishedSwing := channel.triggeredSwingList[last];
      channel.triggeredSwingList := channel.triggeredSwingList[..last];
      handlerPc := WaitSamples;
    }

    method SendResults() returns (result: Result)
      requires handlerPc == HandlerPc.Return && HandlerEnabled(View())
      modifies this`handlerPc, this`log, channel`resultDictList
      ensures View() == HandlerNext(old(View()))
      ensures log.delivered == old(log.delivered) + [result]
    {
      var last := |channel.resultDictList| - 1;
      result := channel.resultDictList[last];
      channel.resultDictList := channel.resultDictList[..last];
      log := log.(delivered := log.delivered + [result]);
      handlerPc := Release;
    }

    /** The finished swing gets the state the control loop chose for it; the control program goes
        on with SET_READY while periods of its scan are missing. */
    method ReleaseSwing()
      requires handlerPc == Release
      modifies this`handlerPc, channel`state
      ensures View() == HandlerNext(old(View()))
    {
      channel.SetState(finishedSwing, channel.nextState.At(finishedSwing));
      handlerPc := if |log.delivered| < |scan.beams| - log.start then WaitReady else Off;
    }

    /** SET_READY, when it need not wait. */
    method SetReady()
      requires handlerPc == WaitReady && HandlerEnabled(View())
      modifies this`handlerPc, channel`state, channel`triggeredSwingList
      ensures View() == SwingCall.SetReady(old(View()))
    {
      handlerPc := SetTrigger;
      TriggerSwing();
      QueueSwing();
    }

    /** GET_DATA, when it need not wait. */
    method GetData() returns (result: Result)
      requires DataReady(View())
      modifies this`handlerPc, this`finishedSwing, this`log, channel`ctrlprm, channel`state
      modifies channel`resultDictList, channel`triggeredSwingList
      ensures View() == SwingCall.GetData(old(View()))
      ensures log.delivered == old(log.delivered) + [result]
    {
      RefreshParameters();
      TakeFinishedSwing();
      result := ReturnSamples();
    }

    method ReturnSamples() returns (result: Result)
      requires handlerPc == WaitSamples && HandlerEnabled(View()) && channel.resultDictList != []
      modifies this`handlerPc, this`log, channel`state, channel`resultDictList
      ensures View() == HandlerNext(HandlerNext(HandlerNext(old(View()))))
      ensures log.delivered == old(log.delivered) + [result]
    {
      handlerPc := HandlerPc.Return;
      result := SendResults();
      ReleaseSwing();
    }

    /** One period of a scan, as the control program sees it. */
    method ServePeriod(forced: bool, nSeq: nat, othersTransmit: bool, evaluated: int) returns (result: Result)
      requires BetweenPeriods(View()) && !scan.isPrePeriod
      modifies this, swings, scan, channel
      ensures Served(old(View()), View(), nSeq, forced || nSeq != 0, evaluated)
      ensures log.delivered == old(log.delivered) + [result]
    {
      ghost var s := View();
      SetReadyEnables(s);
      SetReady();
      TriggerNextSwing(forced, nSeq, othersTransmit, evaluated);
      ghost var u := View();
      SamplesWaiting(s, u, nSeq, evaluated);
      result := GetData();
      ServedOnce(s, nSeq, forced || nSeq != 0, evaluated, u);
    }

    /** The first period of a scan takes two calls, the second one without SET_READY. */
    method ServeFirst(plan: Plan) returns (result: Result)
      requires plan.Valid() && ScanStarted(View(), plan)
      modifies this, swings, scan, channel
      ensures Returned(View(), plan, 1) && log.delivered == [result]
    {
      ghost var s := View();
      SetReadyEnables(s);
      SetReady();
      TriggerNextSwing(false, plan.nSeqs[0], false, plan.Freq(1));
      ghost var u := View();
      SecondCallFollows(s, u, plan.Freq(1));
      TriggerNextSwing(false, plan.nSeqs[1], false, plan.Freq(2));
      ghost var v := View();
      SecondCallReads(u, v, plan.Freq(2));
      result := GetData();
      FirstTwoCalls(s, u, v, plan);
    }

    /** A whole scan: returns exactly what the plan asks for, period after period, and leaves nothing
        behind that the next scan could meet. The call behind the last period may be forced, as it is
        when all radars are in their last period, and may trigger for other channels. */
    method RunScan(plan: Plan, forced: bool, lastSeq: nat, othersTransmit: bool) returns (results: seq<Result>)
      requires plan.Valid() && Inv(View()) && Enabled(View(), NewScan(plan.beams, plan.start, plan.freqs[0]))
      modifies this, swings, scan, channel
      ensures |results| == plan.Length()
      ensures forall j :: 0 <= j < plan.Length() ==> results[j] == plan.Expected(j)
      ensures !channel.registered && channel.resultDictList == [] && channel.state == Both(Inactive, Inactive)
      ensures gpu == Both(None, None)
      ensures Inv(View()) && pc == Idle && handlerPc == Off
    {
      ScanStarts(View(), plan);
      InitializeChannel(plan.beams, plan.start, plan.freqs[0]);
      var result := ServeFirst(plan);
      results := [result];
      while |results| < |plan.beams| - plan.start
        invariant 1 <= |results| <= plan.Length() && log.delivered == results && Returned(View(), plan, |results|)
      {
        result := ServeNext(plan, |results|, forced, lastSeq, othersTransmit);
        results := results + [result];
      }
      ScanReturned(View(), plan);
    }

    method ServeNext(plan: Plan, k: nat, forced: bool, lastSeq: nat, othersTransmit: bool) returns (result: Result)
      requires plan.Valid() && k < plan.Length() && Returned(View(), plan, k)
      modifies this, swings, scan, channel
      ensures Returned(View(), plan, k + 1) && log.delivered == old(log.delivered) + [result]
    {
      ghost var s := View();
      PeriodMayBegin(s, plan, k);
      if k + 1 < plan.Length() {
        result := ServePeriod(false, plan.nSeqs[k + 1], false, plan.Freq(k + 2));
        NextReturned(s, View(), plan, k, plan.nSeqs[k + 1], plan.nSeqs[k + 1] != 0);
      } else {
        result := ServePeriod(forced, lastSeq, othersTransmit, plan.Freq(k + 2));
        NextReturned(s, View(), plan, k, lastSeq, forced || lastSeq != 0);
      }
    }
  }
}
