/** What the swing pipeline guarantees over whole runs, and that its two races and the loss of the
    invalid flag are reached. */
module SwingTheorems {
  import opened Wrappers
  import opened SwingPipeline
  import opened SwingInvariant

  // ---------------------------------------------------------------- the invariant over runs

  lemma LoopKept(s: State, freq: int)
    requires Scanning(s) && LoopEnabled(s)
    ensures Scanning(LoopNext(s, freq))
  {
    LoopControl(s, freq);
    LoopData(s, freq);
    LoopQueues(s, freq);
  }

  lemma HandlerKept(s: State)
    requires Scanning(s) && HandlerEnabled(s) && !Racy(s, Handler)
    ensures Scanning(HandlerNext(s))
  {
    HandlerControl(s);
    if s.handler.pc == Refresh { RefreshData(s); } else { HandlerData(s); }
    HandlerQueues(s);
  }

  lemma VirginKept(s: State, a: Action)
    requires Virgin(s) && Enabled(s, a)
    ensures Inv(Next(s, a))
  {
    if a.NewScan? { NewScanKept(s, a); }
  }

  lemma StepKept(s: State, a: Action)
    requires Inv(s) && Enabled(s, a) && !Racy(s, a)
    ensures Inv(Next(s, a))
  {
    if Virgin(s) {
      VirginKept(s, a);
    } else {
      match a
      case NewScan(_, _, _) => NewScanKept(s, a);
      case Begin(_, _, _) => BeginControl(s, a); BeginData(s, a); BeginQueues(s, a);
      case Loop(freq) => LoopKept(s, freq);
      case Handler => HandlerKept(s);
      case SetParameters(_) => ParametersControl(s, a); ParametersData(s, a); EnvironmentQueues(s, a);
      case GetParameters => ParametersControl(s, a); ParametersData(s, a); EnvironmentQueues(s, a);
      case OtherSetActive => OtherSetActiveCore(s); OtherSetActiveQueues(s);
      case OtherSwing => OtherSwingCore(s); EnvironmentQueues(s, a);
    }
  }

  lemma {:induction false} RunKept(ss: seq<State>, acts: seq<Action>, k: nat)
    requires IsRun(ss, acts) && RaceFree(ss, acts) && k < |ss|
    ensures Inv(ss[k])
    decreases k
  {
    if k > 0 {
      RunKept(ss, acts, k - 1);
      assert Enabled(ss[k - 1], acts[k - 1]) && !Racy(ss[k - 1], acts[k - 1]);
      StepKept(ss[k - 1], acts[k - 1]);
    }
  }

  /** The swing SET_READY waits for does not change while it waits, so it makes no difference
      whether it is determined before or after waiting. */
  lemma AwaitedSwingFixed(s: State, a: Action)
    requires Scanning(s) && s.handler.pc == WaitReady && Enabled(s, a)
    ensures Next(s, a).sw.nextToTrigger == s.sw.nextToTrigger
  {}

  // ---------------------------------------------------------------- what is read out

  /** Whenever the processing swing is read out, CUDA_ADD last loaded it with the beam and
      frequency that the scan manager calls current, and the swing on the air was loaded with
      those it calls next. */
  lemma ReadoutMatches(ss: seq<State>, acts: seq<Action>, k: nat)
    requires IsRun(ss, acts) && RaceFree(ss, acts) && k < |ss|
    requires ss[k].loop.pc == Store && ss[k].ch.state.At(ss[k].sw.processing) == Processing
    ensures var s := ss[k];
      && LoopEnabled(s)
      && s.gpu.At(s.sw.processing) == Some(s.scan.CurrentParams())
      && (!s.scan.IsLastPeriod() ==>
            s.scan.next.Some? && 0 <= s.scan.period < |s.scan.beams| - 1 &&
            s.gpu.At(s.sw.active) == Some(Params(s.scan.beams[s.scan.period + 1], s.scan.next.value)))
  {
    RunKept(ss, acts, k);
    LoopNeverFails(ss[k]);
  }

  /** GET_DATA has taken the swing it waits for out of the queue. */
  predicate HasFinishedSwing(pc: HandlerPc) { pc.WaitSamples? || pc.Return? || pc.Release? }

  /** At most two results wait. The one that receives the samples is the oldest, has no data
      yet, and belongs to the swing that GET_DATA took or will take from the end of the queue. */
  predicate OldestReceives(s: State) {
    && |s.ch.results| <= 2
    && (s.loop.pc == Store && s.ch.state.At(s.sw.processing) == Processing ==>
          && s.ch.results != []
          && s.ch.results[|s.ch.results| - 1].data == None
          && (if HasFinishedSwing(s.handler.pc) then s.handler.finished == s.sw.processing
              else s.ch.triggered != [] && s.ch.triggered[|s.ch.triggered| - 1] == s.sw.processing))
  }

  lemma OldestResultReceivesData(ss: seq<State>, acts: seq<Action>, k: nat)
    requires IsRun(ss, acts) && RaceFree(ss, acts) && k < |ss|
    ensures OldestReceives(ss[k])
  {
    RunKept(ss, acts, k);
    OldestResult(ss[k]);
  }

  lemma OldestResult(s: State)
    requires Inv(s)
    ensures OldestReceives(s)
  {
    if Scanning(s) && s.loop.pc == Store && s.ch.state.At(s.sw.processing) == Processing {
      assert s.log.calls == |s.log.delivered| + 2;
      assert ResultInv(s, |s.log.delivered|, s.ch.results[|s.ch.results| - 1]);
    }
  }

  // ---------------------------------------------------------------- what the control program gets

  /** GET_DATA returns the beams of the scan from the start period on, each once and in order, and
      faithfully: labelled with its beam and frequency, and valid exactly if its period was triggered
      or the invalid flag was lost. */
  lemma DeliveredInOrder(ss: seq<State>, acts: seq<Action>, k: nat)
    requires IsRun(ss, acts) && RaceFree(ss, acts) && k < |ss|
    ensures var s := ss[k];
      && |s.log.delivered| <= |s.log.freqs|
      && (|s.log.delivered| > 0 ==> s.log.start + |s.log.delivered| <= |s.scan.beams|)
      && (forall j :: 0 <= j < |s.log.delivered| ==>
            Faithful(s.log.delivered[j], Params(s.scan.beams[s.log.start + j], s.log.freqs[j])))
  {
    RunKept(ss, acts, k);
    var s := ss[k];
    if Scanning(s) {
      forall j | 0 <= j < |s.log.delivered|
        ensures Faithful(s.log.delivered[j], Params(s.scan.beams[s.log.start + j], s.log.freqs[j]))
      {
        assert ResultInv(s, j, s.log.delivered[j]);
      }
    }
  }

  /** When both threads have come to rest, the whole scan was returned with one call of
      trigger_next_swing per period and one more, and nothing is left behind but one entry in
      the queue of triggered swings: the channel is removed from both swings on the GPU, too. */
  lemma ScanEnds(ss: seq<State>, acts: seq<Action>, k: nat)
    requires IsRun(ss, acts) && RaceFree(ss, acts) && k < |ss|
    requires ss[k].handler.pc == Off && ss[k].loop.pc == Idle && ss[k].scan.beams != []
    ensures var s := ss[k];
      && |s.log.delivered| == |s.scan.beams| - s.log.start
      && s.log.calls == |s.scan.beams| - s.log.start + 1
      && !s.ch.registered && s.ch.results == [] && |s.ch.triggered| == 1
      && s.ch.state == Both(Inactive, Inactive) && s.gpu == Both(None, None)
  {
    RunKept(ss, acts, k);
    assert Scanning(ss[k]);
    assert ss[k].ch.state.At(Zero) == Inactive && ss[k].ch.state.At(One) == Inactive;
    assert ss[k].gpu.At(Zero) == None && ss[k].gpu.At(One) == None;
  }

  // ---------------------------------------------------------------- progress

  /** Counts the steps both threads have made in the current scan. */
  function Progress(s: State): int {
    16 * s.log.calls + Rank(s.loop.pc)
    + (if s.handler.pc == Off then 8 * Periods(s) else 8 * Round(s) + HandlerRank(s.handler.pc))
  }

  /** Like a run, but from any state. */
  predicate IsPath(ss: seq<State>, acts: seq<Action>) {
    && |ss| == |acts| + 1
    && forall k :: 0 <= k < |acts| ==> Enabled(ss[k], acts[k]) && ss[k + 1] == Next(ss[k], acts[k])
  }

  predicate OwnStep(a: Action) { a.Begin? || a.Loop? || a.Handler? }

  /** No thread waits for ever: until the scan has ended, some step that is not a race is possible. */
  lemma NeverStuck(s: State) returns (a: Action)
    requires Scanning(s) && !(s.handler.pc == Off && s.loop.pc == Idle)
    ensures OwnStep(a) && Enabled(s, a) && !Racy(s, a)
  {
    if s.loop.pc != Idle {
      LoopNeverFails(s);
      a := Loop(0);
    } else if HandlerEnabled(s) {
      a := Handler;
    } else {
      a := Begin(false, 0, false);
    }
  }

  lemma HandlerAdvances(s: State)
    requires HandlerEnabled(s) && s.log.start <= |s.scan.beams|
    requires s.handler.pc == Release ==> 0 < |s.log.delivered| <= Periods(s)
    ensures Progress(s) < Progress(HandlerNext(s))
    ensures Periods(HandlerNext(s)) == Periods(s)
  {}

  lemma ProgressBounded(s: State)
    requires ControlInv(s)
    ensures 0 <= Progress(s) <= 24 * Periods(s) + 31
  {}

  /** Every own step makes progress, and progress is bounded by the length of the scan: with
      NeverStuck, a scan always reaches the end described by ScanEnds. */
  lemma StepsAdvance(s: State, a: Action)
    requires Scanning(s) && Enabled(s, a) && OwnStep(a) && !Racy(s, a)
    ensures Progress(s) < Progress(Next(s, a)) <= 24 * Periods(s) + 31
    ensures Periods(Next(s, a)) == Periods(s)
  {
    StepKept(s, a);
    ProgressBounded(Next(s, a));
    match a
    case Begin(_, _, _) =>
    case Loop(_) =>
    case Handler => HandlerAdvances(s);
  }

  /** How many of the first k actions are steps of the two threads. */
  function CountOwn(acts: seq<Action>, k: nat): nat
    requires k <= |acts|
  {
    if k == 0 then 0 else CountOwn(acts, k - 1) + (if OwnStep(acts[k - 1]) then 1 else 0)
  }

  /** While the scan lasts, the environment cannot use up progress either. */
  lemma EnvironmentKeepsProgress(s: State, a: Action)
    requires Scanning(s) && Enabled(s, a) && !OwnStep(a) && !a.NewScan?
    ensures Progress(Next(s, a)) == Progress(s) && Periods(Next(s, a)) == Periods(s)
  {}

  lemma AnyStepCounts(s: State, a: Action)
    requires Scanning(s) && Enabled(s, a) && !a.NewScan? && !Racy(s, a)
    ensures Scanning(Next(s, a)) && Periods(Next(s, a)) == Periods(s)
    ensures Progress(Next(s, a)) >= Progress(s) + (if OwnStep(a) then 1 else 0)
    ensures 0 <= Progress(s) && Progress(Next(s, a)) <= 24 * Periods(s) + 31
  {
    StepKept(s, a);
    ProgressBounded(Next(s, a));
    if OwnStep(a) { StepsAdvance(s, a); } else { EnvironmentKeepsProgress(s, a); }
  }

  /** However the two threads and the environment are scheduled, one scan takes a bounded number
      of own steps: the first handler step or swing beyond the bound does not exist. */
  lemma {:induction false} ScanTerminates(ss: seq<State>, acts: seq<Action>, k: nat)
    requires IsPath(ss, acts) && Scanning(ss[0]) && k <= |acts|
    requires forall j :: 0 <= j < |acts| ==> !Racy(ss[j], acts[j]) && !acts[j].NewScan?
    ensures Scanning(ss[k]) && Periods(ss[k]) == Periods(ss[0])
    ensures 0 <= Progress(ss[0]) && Progress(ss[0]) + CountOwn(acts, k) <= Progress(ss[k])
    ensures CountOwn(acts, k) <= Progress(ss[k]) <= 24 * Periods(ss[0]) + 31
    decreases k
  {
    if k == 0 {
      ProgressBounded(ss[0]);
    } else {
      ScanTerminates(ss, acts, k - 1);
      assert Enabled(ss[k - 1], acts[k - 1]) && !Racy(ss[k - 1], acts[k - 1]);
      AnyStepCounts(ss[k - 1], acts[k - 1]);
    }
  }

  // ---------------------------------------------------------------- the second half of SET_READY

  /** A further SET_PARAMETERS waits as long as the first SET_READY has not been sent, and never later: by
      then the swing whose parameters it compares is on the air or done. */
  lemma SetParametersWaits(s: State)
    requires Scanning(s) && s.handler.pc == WaitReady
    ensures SetParametersEnabled(s) <==> s.log.calls > 0
  {}

  /** If trigger_next_swing has not started, SET_READY queues the swing it has just triggered; SwingRaces
      says what it queues otherwise. */
  lemma PushInTime(s: State)
    requires Scanning(s) && s.handler.pc == PushSwing
    ensures s.ch.state.At(s.sw.nextToTrigger) == Trigger
    ensures HandlerNext(s).ch.triggered[0] == Upcoming(s)
  {}

  // ---------------------------------------------------------------- the race on the parameters

  /** The handler refreshes the shared parameter structure after the loop wrote the next
      period's parameters into it and before the loop copied it to the GPU: the swing is then
      loaded with the current period's parameters, which is right only if the two agree. */
  lemma RefreshBeforeCopy(s: State)
    requires Scanning(s) && s.loop.pc == Copy && s.handler.pc == Refresh
    ensures HandlerEnabled(s)
    ensures var t := LoopNext(HandlerNext(s), 0);
      && t.gpu.At(s.sw.processing) == Some(s.scan.CurrentParams())
      && (t.gpu.At(s.sw.processing) == Some(JobParams(s, s.log.calls)) <==>
            s.scan.CurrentParams() == JobParams(s, s.log.calls))
  {}

  /** Likewise for SET_PARAMETERS: the swing is loaded with whatever was received, which is right only
      if it is what the next period needs. */
  lemma ReceiveBeforeCopy(s: State, received: Params)
    requires Scanning(s) && s.loop.pc == Copy && SetParametersEnabled(s)
    ensures var t := LoopNext(Next(s, SetParameters(received)), 0);
      && t.gpu.At(s.sw.processing) == Some(received)
      && (t.gpu.At(s.sw.processing) == Some(JobParams(s, s.log.calls)) <==> received == JobParams(s, s.log.calls))
  {}

  /** GET_PARAMETERS writes what GET_DATA does, with the same effect. */
  lemma RequestBeforeCopy(s: State)
    requires Scanning(s) && s.loop.pc == Copy && s.handler.pc == WaitReady
    ensures Enabled(s, GetParameters)
    ensures var t := LoopNext(Next(s, GetParameters), 0);
      && t.gpu.At(s.sw.processing) == Some(s.scan.CurrentParams())
      && (t.gpu.At(s.sw.processing) == Some(JobParams(s, s.log.calls)) <==>
            s.scan.CurrentParams() == JobParams(s, s.log.calls))
  {}

  // ---------------------------------------------------------------- the lost invalid flag

  /** A period that was never triggered is read out like any other exactly if another channel's
      SET_ACTIVE removed the flag raised for it: its result counts as valid and carries stale samples,
      with 0 sequences. */
  lemma LostInvalidFlag(s: State)
    requires Scanning(s) && s.loop.pc == Store && s.ch.state.At(s.sw.processing) == Processing
    requires s.ch.results != [] && !s.ch.results[|s.ch.results| - 1].fired
    ensures LoopEnabled(s)
    ensures var t := LoopNext(s, 0); var last := |s.ch.results| - 1;
      && |t.ch.results| == last + 1 && t.ch.results[last].valid && t.ch.results[last].nSequences == 0
      && (t.ch.results[last].data.Some? <==> s.log.cleared)
      && (t.ch.results[last].lost <==> s.log.cleared)
  {
    LoopNeverFails(s);
    StoreLast(s);
    StoreFlag(s);
  }

  // ---------------------------------------------------------------- the races can happen

  /** A state of a scan that some race-free run leads to. */
  ghost predicate Reachable(t: State) {
    && t.scan.beams != []
    && exists ss: seq<State>, acts: seq<Action> ::
         IsRun(ss, acts) && RaceFree(ss, acts) && ss[|ss| - 1] == t
  }

  lemma ReachableScanning(t: State)
    requires Reachable(t)
    ensures Scanning(t)
  {
    var ss: seq<State>, acts: seq<Action> :| IsRun(ss, acts) && RaceFree(ss, acts) && ss[|ss| - 1] == t;
    RunKept(ss, acts, |ss| - 1);
  }

  lemma ExtendRun(ss: seq<State>, acts: seq<Action>, a: Action)
    requires IsRun(ss, acts) && RaceFree(ss, acts)
    requires Enabled(ss[|ss| - 1], a) && !Racy(ss[|ss| - 1], a) && Next(ss[|ss| - 1], a).scan.beams != []
    ensures Reachable(Next(ss[|ss| - 1], a))
  {
    var ss', acts' := ss + [Next(ss[|ss| - 1], a)], acts + [a];
    assert IsRun(ss', acts') && RaceFree(ss', acts');
  }

  lemma ReachableStep(s: State, a: Action) returns (t: State)
    requires Reachable(s) && Enabled(s, a) && !Racy(s, a) && Next(s, a).scan.beams != []
    ensures t == Next(s, a) && Reachable(t)
  {
    var ss: seq<State>, acts: seq<Action> :| IsRun(ss, acts) && RaceFree(ss, acts) && ss[|ss| - 1] == s;
    ExtendRun(ss, acts, a);
    t := Next(s, a);
  }

  lemma ReachableHandler(s: State) returns (t: State)
    requires Reachable(s) && HandlerEnabled(s) && !Racy(s, Handler)
    ensures t == HandlerNext(s) && Reachable(t)
  {
    t := ReachableStep(s, Handler);
  }

  lemma ReachableBegin(s: State, nSeq: nat) returns (t: State)
    requires Reachable(s) && Enabled(s, Begin(false, nSeq, false)) && s.handler.pc != PushSwing
    ensures t == BeginSwing(s, false, nSeq, false) && Reachable(t)
  {
    t := ReachableStep(s, Begin(false, nSeq, false));
  }

  /** The loop goes on by itself. */
  lemma ReachableLoop(s: State) returns (t: State)
    requires Reachable(s) && s.loop.pc != Idle
    ensures LoopEnabled(s) && t == LoopNext(s, 0) && Reachable(t)
  {
    ReachableScanning(s);
    LoopNeverFails(s);
    t := ReachableStep(s, Loop(0));
  }

  lemma ScanBegins(beams: seq<int>, freq: int) returns (s: State)
    requires |beams| >= 2
    ensures Reachable(s) && s.handler.pc == WaitReady && s.loop.pc == Idle && s.log.calls == 0 && s.log.delivered == []
    ensures s.scan.beams == beams && s.log.start == 0 && s.sw == SwingManager(Zero, One, Zero)
    ensures s.ch.state == Both(Ready, Inactive) && s.ch.registered
  {
    var none := Params(0, 0);
    var init := State(
      SwingManager(Zero, One, Zero), ScanManager([], 0, None, None, false, false, false),
      Channel(Both(Inactive, Inactive), Both(Inactive, Inactive), [], [], none, false),
      Both(None, None), ControlLoop(Idle, false, 0, false, false, false),
      HandlerThread(Off, Zero), Log([], 0, [], 0, Zero, false));
    assert IsRun([init], []) && RaceFree([init], []);
    assert [init][0] == init;
    ExtendRun([init], [], NewScan(beams, 0, freq));
    s := Next(init, NewScan(beams, 0, freq));
  }

  /** SET_READY has triggered the first swing of a scan: trigger_next_swing can start now, before
      the second half of SET_READY. */
  lemma FirstTrigger(beams: seq<int>, freq: int) returns (s: State)
    requires |beams| >= 2
    ensures Reachable(s) && Scanning(s)
    ensures s.handler.pc == PushSwing && s.loop.pc == Idle && s.log.calls == 0
    ensures s.scan.beams == beams && s.log.start == 0 && s.log.delivered == []
    ensures Enabled(s, Begin(false, 1, false)) && Racy(s, Begin(false, 1, false))
  {
    s := ScanBegins(beams, freq);
    s := ReachableHandler(s);
    s := ReachableHandler(s);
    ReachableScanning(s);
  }

  /** The first call has begun and GET_DATA is about to refresh the parameters. */
  lemma FirstCall(beams: seq<int>, freq: int, nSeq: nat) returns (s: State)
    requires |beams| >= 2
    ensures Reachable(s) && s.handler.pc == Refresh && s.loop.pc == Insert && s.log.calls == 1
    ensures s.loop.fire == (nSeq != 0) && s.scan.beams == beams && s.log.start == 0 && s.log.delivered == []
  {
    s := FirstTrigger(beams, freq);
    s := ReachableHandler(s);
    s := ReachableBegin(s, nSeq);
  }

  /** Before CUDA_ADD, one step of the loop leads on towards it. */
  lemma LoopTowardsLoad(s: State)
    requires LoopEnabled(s) && Rank(s.loop.pc) < Rank(Load)
    ensures Rank(LoopNext(s, 0).loop.pc) <= Rank(Load)
  {}

  /** The end of a call raises the flag if the period was not triggered. */
  lemma EndRaisesFlag(s: State)
    requires LoopEnabled(s) && LoopNext(s, 0).loop.pc == Idle && !s.loop.fire
    ensures LoopNext(s, 0).loop.swingInvalid
  {
    assert s.loop.pc == End;
  }

  lemma {:induction false} LoopAlone(s: State, until: LoopPc) returns (t: State)
    requires Reachable(s) && s.loop.pc != Idle
    requires until == Idle || (until == Load && Rank(s.loop.pc) <= Rank(Load))
    ensures Reachable(t) && t.loop.pc == until
    ensures t.handler == s.handler && t.log.calls == s.log.calls && t.log.delivered == s.log.delivered
    ensures t.log.start == s.log.start && t.scan.beams == s.scan.beams
    ensures until == Idle && !s.loop.fire ==> t.loop.swingInvalid
    decreases 15 - Rank(s.loop.pc)
  {
    t := s;
    if s.loop.pc != until {
      t := ReachableLoop(s);
      if until == Load { LoopTowardsLoad(s); }
      if t.loop.pc != Idle {
        t := LoopAlone(t, until);
      } else if !s.loop.fire {
        EndRaisesFlag(s);
      }
    }
  }

  /** The state RefreshRaceHappens starts from is reached in every scan. */
  lemma FirstLoad(beams: seq<int>, freq: int) returns (s: State)
    requires |beams| >= 2
    ensures Reachable(s) && s.loop.pc == Load && s.handler.pc == Refresh
    ensures s.log.calls == 1 && s.log.start == 0 && s.scan.beams == beams
  {
    s := FirstCall(beams, freq, 1);
    s := LoopAlone(s, Load);
  }

  /** GET_DATA can refresh the shared parameters just before the loop copies them to the GPU: in
      the first call of any scan with two different beams, the parameters it writes are not
      those of the period being loaded, and RefreshBeforeCopy says what is loaded. */
  lemma RefreshRaceHappens(s: State, freq: int) returns (t: State)
    requires Reachable(s) && s.loop.pc == Load && s.handler.pc == Refresh
    requires s.log.calls == 1 && s.log.start == 0 && |s.scan.beams| >= 2 && s.scan.beams[0] != s.scan.beams[1]
    ensures Reachable(t) && Scanning(t) && t.loop.pc == Copy && t.handler.pc == Refresh
    ensures HandlerEnabled(t) && Racy(t, Handler) && t.scan.CurrentParams() != JobParams(t, t.log.calls)
  {
    ReachableScanning(s);
    LoopNeverFails(s);
    t := ReachableStep(s, Loop(freq));
    ReachableScanning(t);
  }

  /** After the first call, the second one can begin. */
  lemma SecondCall(s: State) returns (t: State)
    requires Reachable(s) && s.loop.pc == Idle && s.log.calls == 1 && s.handler.pc == Refresh
    ensures Reachable(t) && t.loop.pc == Insert && t.log == s.log.(calls := 2, upcoming := t.log.upcoming)
    ensures t.handler == s.handler && t.scan == s.scan
  {
    ReachableScanning(s);
    t := ReachableBegin(s, 1);
  }

  /** In every scan, if its first period is not triggered, another channel's SET_ACTIVE can remove the
      flag before the second call reads that period out. */
  lemma LostFlagHappens(beams: seq<int>, freq: int) returns (s: State)
    requires |beams| >= 2
    ensures Reachable(s) && Scanning(s) && s.loop.pc == Store && s.ch.state.At(s.sw.processing) == Processing
    ensures s.ch.results != [] && !s.ch.results[|s.ch.results| - 1].fired && s.log.cleared
  {
    s := FirstCall(beams, freq, 0);
    s := LoopAlone(s, Idle);
    s := FlagRemoved(s);
    s := SecondCall(s);
    s := AfterInsert(s);
    s := AfterFire(s);
    OldestLost(s);
  }

  lemma FlagRemoved(s: State) returns (t: State)
    requires Reachable(s) && s.loop.swingInvalid
    ensures Reachable(t) && t.loop.pc == s.loop.pc && t.handler == s.handler && t.log == s.log.(cleared := true)
  {
    t := ReachableStep(s, OtherSetActive);
  }

  lemma AfterInsert(s: State) returns (t: State)
    requires Reachable(s) && s.loop.pc == Insert
    ensures Reachable(t) && t.loop.pc == Fire && t.handler == s.handler && t.log == s.log
  {
    t := ReachableLoop(s);
  }

  lemma AfterFire(s: State) returns (t: State)
    requires Reachable(s) && s.loop.pc == Fire
    ensures Reachable(t) && t.loop.pc == Store && t.handler == s.handler && t.log == s.log
  {
    t := ReachableLoop(s);
  }

  lemma OldestLost(s: State)
    requires Reachable(s) && s.loop.pc == Store && s.log.calls == 2 && s.log.delivered == [] && s.handler.pc == Refresh
    requires s.log.cleared
    ensures Scanning(s) && s.ch.state.At(s.sw.processing) == Processing
    ensures s.ch.results != [] && !s.ch.results[|s.ch.results| - 1].fired
  {
    ReachableScanning(s);
    StoreLast(s);
    StoreFlag(s);
  }

  lemma HandlerGoesOn(s: State) returns (t: State)
    requires Reachable(s) && s.loop.pc == Load && s.log.calls == 2 && s.log.delivered == []
    requires HandlerRank(s.handler.pc) >= 3
    ensures HandlerEnabled(s) && t == HandlerNext(s) && Reachable(t)
  {
    ReachableScanning(s);
    t := ReachableHandler(s);
  }

  /** GET_DATA can go through once the samples of its swing are ready. */
  lemma GetDataDone(s: State) returns (t: State)
    requires Reachable(s) && s.loop.pc == Load && s.log.calls == 2 && s.handler.pc == Refresh
    requires s.log.delivered == [] && s.log.start == 0 && |s.scan.beams| >= 3
    ensures Reachable(t) && t.loop == s.loop && t.scan == s.scan && t.handler.pc == WaitReady
    ensures t.log == s.log.(delivered := t.log.delivered)
  {
    t := SamplesAwaited(s);
    t := HandlerGoesOn(t);
    t := HandlerGoesOn(t);
    t := Released(t);
  }

  lemma SamplesAwaited(s: State) returns (t: State)
    requires Reachable(s) && s.loop.pc == Load && s.log.calls == 2 && s.handler.pc == Refresh && s.log.delivered == []
    ensures Reachable(t) && t.loop == s.loop && t.scan == s.scan && t.handler.pc == WaitSamples && t.log == s.log
  {
    t := HandlerGoesOn(s);
    t := HandlerGoesOn(t);
  }

  lemma Released(s: State) returns (t: State)
    requires Reachable(s) && s.handler.pc == Release && |s.log.delivered| == 1
    requires s.log.start == 0 && |s.scan.beams| >= 3
    ensures Reachable(t) && t.loop == s.loop && t.scan == s.scan && t.handler.pc == WaitReady && t.log == s.log
  {
    t := ReachableHandler(s);
  }

  /** SET_PARAMETERS or GET_PARAMETERS can arrive just before the loop copies the parameters to the GPU,
      in every scan of at least three periods. */
  lemma ReceiveRaceHappens(beams: seq<int>, freq: int, received: Params) returns (s: State)
    requires |beams| >= 3
    ensures Reachable(s) && Scanning(s) && s.loop.pc == Copy && SetParametersEnabled(s)
    ensures Racy(s, SetParameters(received)) && Enabled(s, GetParameters) && Racy(s, GetParameters)
  {
    s := FirstCall(beams, freq, 1);
    s := LoopAlone(s, Idle);
    s := SecondCall(s);
    s := LoopAlone(s, Load);
    s := GetDataDone(s);
    s := CopyReached(s);
    RequestBeforeCopy(s);
  }

  lemma CopyReached(s: State) returns (t: State)
    requires Reachable(s) && s.loop.pc == Load && s.log.calls == 2 && s.handler.pc == WaitReady
    requires s.log.start == 0 && |s.scan.beams| >= 3
    ensures Reachable(t) && Scanning(t) && t.loop.pc == Copy && SetParametersEnabled(t)
  {
    ReachableScanning(s);
    t := ReachableLoop(s);
    ReachableScanning(t);
  }
}
