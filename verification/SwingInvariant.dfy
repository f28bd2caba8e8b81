/** What every race-free run of the swing pipeline keeps.

    The jobs of a scan are numbered 0, 1, 2, ...: job j is the integration period start + j. With
    `calls` the number of trigger_next_swing calls since the scan began, every field of the
    channel is a function of `calls`, the loop position and the handler position; the invariant
    below spells that function out. */
module SwingInvariant {
  import opened Wrappers
  import opened SwingPipeline

  function HandlerRank(pc: HandlerPc): nat {
    match pc
    case WaitReady => 0 case SetTrigger => 1 case PushSwing => 2 case Refresh => 3 case PopSwing => 4
    case WaitSamples => 5 case Return => 6 case Release => 7 case Off => 0
  }

  function Min(a: int, b: int): int { if a < b then a else b }

  function Clamp(x: int, hi: int): int { if x < 0 then 0 else Min(x, hi) }

  /** Number of integration periods in the scan. */
  function Periods(s: State): int { |s.scan.beams| - s.log.start }

  /** The parameters of job j: its beam and the frequency chosen for it. */
  function JobParams(s: State, j: int): Params {
    Params(if 0 <= j < Periods(s) then s.scan.beams[s.log.start + j] else 0,
           if 0 <= j < |s.log.freqs| then s.log.freqs[j] else 0)
  }

  /** How often period_finished ran in this scan. */
  function Finished(s: State): int { if Rank(s.loop.pc) <= 5 then s.log.calls - 1 else s.log.calls }

  /** Number of results that were put into the queue. */
  function Inserted(s: State): int {
    Min(Periods(s), if Rank(s.loop.pc) == 0 then s.log.calls - 1 else s.log.calls)
  }

  /** The SET_READY / GET_DATA round the handler is in. */
  function Round(s: State): int { if s.handler.pc == Release then |s.log.delivered| - 1 else |s.log.delivered| }

  /** The swing of job `calls`: the next one to be triggered, also the one read out in this call. */
  function Upcoming(s: State): Swing { s.log.upcoming }

  /** The swing of job j, for the three jobs calls - 2, calls - 1 and calls that are in flight. */
  function SwingOf(s: State, j: int): Swing {
    if j == s.log.calls - 1 then Other(Upcoming(s)) else Upcoming(s)
  }

  predicate ShapeInv(s: State) {
    && Periods(s) >= 2
    && 0 <= s.log.start
    && 0 <= s.log.calls <= Periods(s) + 1
    && (s.log.calls == 0 ==> s.loop.pc == Idle)
    && s.ch.registered == !(s.log.calls == Periods(s) + 1 && Rank(s.loop.pc) > 8)
    && ((s.loop.pc.Relabel? || s.loop.pc.CopyLabel? || s.loop.pc.Publish?) ==> s.log.calls >= 2)
    && ((s.loop.pc.Copy? || s.loop.pc.Arm?) ==> s.log.calls < Periods(s))
    && (s.loop.pc == AutoPush ==> s.log.calls == 1)
    && (s.loop.pc != Idle && s.log.calls <= Periods(s) ==> s.loop.transmitting)
    && (s.loop.pc != Idle && !s.loop.fire ==> s.loop.nSequences == 0)
  }

  predicate SwingManagerInv(s: State) {
    && s.sw.processing == Other(s.sw.active)
    && (s.ch.registered || s.loop.pc != Idle ==> s.sw.nextToTrigger == Upcoming(s))
    && s.sw.nextToTrigger == (if Rank(s.loop.pc) > 11 then s.sw.active else s.sw.processing)
  }

  predicate ScanInv(s: State) {
    && |s.log.freqs| == Min(Periods(s), if Rank(s.loop.pc) > 8 then s.log.calls + 1 else s.log.calls)
    && s.scan.period == s.log.start + Clamp(Finished(s) - 1, Periods(s) - 1)
    && s.scan.isPrePeriod == (Finished(s) == 0)
    && s.scan.isPostLast == (Finished(s) == Periods(s) + 1)
    && s.scan.isFirstPeriod == (s.log.calls == 0 || (s.log.calls == 1 && Rank(s.loop.pc) <= 13))
    && s.scan.current == Some(JobParams(s, Clamp(Finished(s) - 1, Periods(s) - 1)).freq)
    && s.scan.next == PendingFreq(s)
  }

  /** The frequency already chosen for the period after the current one. */
  function PendingFreq(s: State): Option<int> {
    var j := if Rank(s.loop.pc) <= 5 then s.log.calls - 1 else s.log.calls;
    if 1 <= j < Periods(s) && j < |s.log.freqs| && (Rank(s.loop.pc) <= 5 || Rank(s.loop.pc) > 8)
    then Some(s.log.freqs[j]) else None
  }

  predicate HandlerInv(s: State) {
    && (s.handler.pc == Off ==>
          |s.log.delivered| == Periods(s) && s.log.calls == Periods(s) + 1 && Rank(s.loop.pc) > 7)
    && (s.handler.pc != Off ==> 0 <= Round(s) < Periods(s))
    && ((s.handler.pc.WaitReady? || s.handler.pc.SetTrigger? || s.handler.pc.PushSwing?) ==>
          if Round(s) == 0 then s.log.calls == 0 else s.log.calls == Round(s) + 1 && Rank(s.loop.pc) > 7)
    && ((s.handler.pc.Refresh? || s.handler.pc.PopSwing? || s.handler.pc.WaitSamples?) ==>
          if Round(s) == 0 then s.log.calls <= 2
          else s.log.calls == Round(s) + 2 || (s.log.calls == Round(s) + 1 && Rank(s.loop.pc) > 7))
    && ((s.handler.pc.Return? || s.handler.pc.Release?) ==> s.log.calls == Round(s) + 2 && Rank(s.loop.pc) > 7)
    && (HandlerRank(s.handler.pc) > 4 ==> s.handler.finished == SwingOf(s, Round(s)))
  }

  /** Number of entries ever put into triggered_swing_list. */
  function Pushed(s: State): int {
    if s.handler.pc == Off then Periods(s) + 1
    else (if Round(s) > 0 then Round(s) + 1 else 0)
         + (if HandlerRank(s.handler.pc) > 2 then 1 else 0)
         + (if Round(s) == 0 && (s.log.calls >= 2 || (s.log.calls == 1 && Rank(s.loop.pc) > 13)) then 1 else 0)
  }

  /** Number of entries GET_DATA took out of it. */
  function Popped(s: State): int {
    if s.handler.pc == Off then Periods(s)
    else Round(s) + (if HandlerRank(s.handler.pc) > 4 then 1 else 0)
  }

  predicate TriggeredInv(s: State) {
    && |s.ch.triggered| == Pushed(s) - Popped(s)
    && forall k :: 0 <= k < |s.ch.triggered| ==> s.ch.triggered[k] == SwingOf(s, Pushed(s) - 1 - k)
  }

  /** State of the swing that job `calls` uses. */
  function UpcomingState(s: State): ChannelState {
    if s.log.calls == 0 then
      if HandlerRank(s.handler.pc) <= 1 then Ready else Trigger
    else if s.log.calls == 1 then
      if Rank(s.loop.pc) <= 10 then Inactive else if Rank(s.loop.pc) <= 12 then Ready else Trigger
    else if Rank(s.loop.pc) <= 7 then Processing
    else if s.handler.pc == Off then Inactive
    else if Round(s) == s.log.calls - 2 then SamplesReady
    else if HandlerRank(s.handler.pc) <= 1 then ReleasedState(s)
    else Trigger
  }

  /** State a swing gets when its samples have been returned during or after call `calls`. */
  function ReleasedState(s: State): ChannelState {
    if s.log.calls == Periods(s) + 1 then Inactive else if s.log.calls == Periods(s) then LastSwing else Ready
  }

  /** State of the other swing, which call `calls` triggers. */
  function OnAirState(s: State): ChannelState {
    if s.log.calls == 0 then Inactive
    else if Rank(s.loop.pc) <= 1 then Trigger
    else if s.log.calls <= Periods(s) then Processing
    else if Rank(s.loop.pc) <= 6 then (if s.loop.transmitting then Processing else Trigger)
    else Inactive
  }

  predicate StatesInv(s: State) {
    && s.ch.state.At(Upcoming(s)) == UpcomingState(s)
    && s.ch.state.At(Other(Upcoming(s))) == OnAirState(s)
    && (s.log.calls >= 2 && Rank(s.loop.pc) > 6 ==> s.ch.nextState.At(Upcoming(s)) == ReleasedState(s))
  }

  /** What the swing of job `calls` holds on the GPU: the job before the last one until it is read out,
      then job `calls`, or nothing if there is no such job. */
  function UpcomingLoad(s: State): Option<Params> {
    if s.log.calls == 0 then Some(JobParams(s, 0))
    else if s.log.calls >= Periods(s) && Rank(s.loop.pc) > 8 then None
    else if s.log.calls < Periods(s) && Rank(s.loop.pc) > 9 then Some(JobParams(s, s.log.calls))
    else if s.log.calls == 1 then None
    else Some(JobParams(s, s.log.calls - 2))
  }

  /** What the other swing holds: the job that call `calls` triggers. */
  function OnAirLoad(s: State): Option<Params> {
    if 1 <= s.log.calls <= Periods(s) then Some(JobParams(s, s.log.calls - 1)) else None
  }

  predicate GpuInv(s: State) {
    && s.gpu.At(Upcoming(s)) == UpcomingLoad(s)
    && s.gpu.At(Other(Upcoming(s))) == OnAirLoad(s)
    && (s.loop.pc == Copy ==> s.ch.ctrlprm == JobParams(s, s.log.calls))
    && (s.loop.pc == CopyLabel ==> s.ch.ctrlprm == JobParams(s, s.log.calls - 2))
  }

  /** A result that was not read out yet. */
  predicate Fresh(r: Result) {
    r.data == None && r.tag == None && r.valid && !r.lost && (!r.fired ==> r.nSequences == 0)
  }

  /** A finished result: labelled with the parameters p. It is valid, and carries samples transmitted
      and beamformed with p, exactly if its period was triggered or the flag that says otherwise was
      lost; a period that was not triggered has 0 sequences. */
  predicate Faithful(r: Result, p: Params) {
    && r.tag == Some(p)
    && r.data == (if r.valid then Some(Samples(Some(p), p)) else None)
    && r.valid == (r.fired || r.lost) && !(r.fired && r.lost)
    && (!r.fired ==> r.nSequences == 0)
  }

  /** Between storing the samples and labelling them. */
  predicate Sampled(s: State, r: Result, p: Params) {
    && r.tag == None && r.valid
    && (!r.fired ==> r.nSequences == 0)
    && r.data == (if s.loop.readInvalid then None else Some(Samples(Some(p), p)))
    && s.loop.readInvalid == !(r.fired || r.lost) && !(r.fired && r.lost)
  }

  /** Number of jobs that have been read out completely. */
  function ReadOut(s: State): int {
    Clamp(if Rank(s.loop.pc) > 4 then s.log.calls - 1 else s.log.calls - 2, Periods(s))
  }

  predicate Labelling(s: State) { (s.loop.pc.Relabel? || s.loop.pc.CopyLabel?) }

  predicate ResultInv(s: State, j: int, r: Result) {
    if j < ReadOut(s) then
      Faithful(r, JobParams(s, j))
    else if j == ReadOut(s) && Labelling(s) then
      Sampled(s, r, JobParams(s, j))
    else Fresh(r)
  }

  predicate ResultsInv(s: State) {
    && 0 <= |s.log.delivered| <= Inserted(s) <= |s.log.freqs|
    && |s.log.delivered| <= ReadOut(s)
    && |s.ch.results| == Inserted(s) - |s.log.delivered|
    && (forall k :: 0 <= k < |s.ch.results| ==> ResultInv(s, Inserted(s) - 1 - k, s.ch.results[k]))
    && (forall j :: 0 <= j < |s.log.delivered| ==> ResultInv(s, j, s.log.delivered[j]))
  }

  /** The flag is raised exactly if r was not triggered and no other channel has cleared it. */
  predicate FlagFits(s: State, r: Result) {
    s.loop.swingInvalid == !(r.fired || s.log.cleared) && !(r.fired && s.log.cleared)
  }

  /** The "last swing was not triggered" flag belongs to the job on the air. */
  predicate InvalidFlagInv(s: State) {
    // the job whose readout the flag will decide
    var j := if s.loop.pc == Idle then s.log.calls - 1 else s.log.calls - 2;
    && (5 <= Rank(s.loop.pc) <= 14 || (Labelling(s) && !s.loop.readInvalid) ==> !s.loop.swingInvalid)
    && (5 <= Rank(s.loop.pc) <= 14 ==> !s.log.cleared)
    && ((Rank(s.loop.pc) <= 2 || s.loop.pc == Idle) && 0 <= j < Inserted(s) && |s.log.delivered| <= j ==>
          var k := Inserted(s) - 1 - j;
          k < |s.ch.results| && FlagFits(s, s.ch.results[k]))
    && (1 <= Rank(s.loop.pc) <= 14 && s.log.calls <= Periods(s) ==>
          s.ch.results != [] && s.ch.results[0].fired == s.loop.fire)
  }

  predicate ControlInv(s: State) { ShapeInv(s) && SwingManagerInv(s) && HandlerInv(s) && StatesInv(s) }

  predicate DataInv(s: State) { ScanInv(s) && GpuInv(s) }

  predicate QueuesInv(s: State) { TriggeredInv(s) && ResultsInv(s) && InvalidFlagInv(s) }

  predicate Scanning(s: State) { ControlInv(s) && DataInv(s) && QueuesInv(s) }

  /** No scan was started yet. */
  predicate Virgin(s: State) {
    && s.sw.processing == Other(s.sw.active) && s.sw.nextToTrigger == s.sw.active
    && s.ch.state == Both(Inactive, Inactive)
    && s.ch.results == [] && !s.ch.registered && s.loop.pc == Idle && s.handler.pc == Off && s.log.delivered == []
    && s.log.calls == 0 && s.scan.beams == [] && s.gpu == Both(None, None)
  }

  predicate Inv(s: State) { Virgin(s) || Scanning(s) }

  // ---------------------------------------------------------------- frames

  /** No call began and no frequency was chosen. */
  predicate SameJobs(s: State, t: State) {
    && t.log.calls == s.log.calls && t.log.upcoming == s.log.upcoming
    && t.log.freqs == s.log.freqs && t.log.start == s.log.start && t.scan.beams == s.scan.beams
  }

  /** The loop did not pass a point that matters for the scan manager or the GPU. */
  predicate SamePhase(s: State, t: State) {
    && (Rank(s.loop.pc) <= 5 <==> Rank(t.loop.pc) <= 5)
    && (Rank(s.loop.pc) <= 8 <==> Rank(t.loop.pc) <= 8)
    && (Rank(s.loop.pc) <= 13 <==> Rank(t.loop.pc) <= 13)
    && (Rank(t.loop.pc) <= 2 ==> Rank(s.loop.pc) <= 2)
    && (Rank(s.loop.pc) <= 9 <==> Rank(t.loop.pc) <= 9)
  }

  lemma ScanFrame(s: State, t: State)
    requires ScanInv(s) && t.scan == s.scan && SameJobs(s, t) && SamePhase(s, t)
    ensures ScanInv(t)
  {}

  lemma GpuFrame(s: State, t: State)
    requires GpuInv(s) && t.gpu == s.gpu && SameJobs(s, t) && SamePhase(s, t)
    requires t.loop.pc == Copy || t.loop.pc == CopyLabel ==>
               t.loop.pc == s.loop.pc && t.ch.ctrlprm == s.ch.ctrlprm
    ensures GpuInv(t)
  {
    assert forall j :: JobParams(t, j) == JobParams(s, j);
  }

  lemma DataFrame(s: State, t: State)
    requires DataInv(s) && t.scan == s.scan && t.gpu == s.gpu && SameJobs(s, t) && SamePhase(s, t)
    requires t.loop.pc != Copy && t.loop.pc != CopyLabel
    ensures DataInv(t)
  {
    ScanFrame(s, t);
    GpuFrame(s, t);
  }

  /** The queue of triggered swings is not touched and no GET_DATA / SET_READY progress is made. */
  lemma TriggeredFrame(s: State, t: State)
    requires TriggeredInv(s) && t.ch.triggered == s.ch.triggered
    requires Pushed(t) == Pushed(s) && Popped(t) == Popped(s)
    requires t.log.calls == s.log.calls && t.log.upcoming == s.log.upcoming
    ensures TriggeredInv(t)
  {}

  /** The results are not touched and no job advances. */
  lemma ResultsFrame(s: State, t: State)
    requires ResultsInv(s)
    requires t.ch.results == s.ch.results && t.log.delivered == s.log.delivered
    requires Inserted(t) == Inserted(s) && ReadOut(t) == ReadOut(s)
    requires t.scan.beams == s.scan.beams && t.log.start == s.log.start && s.log.freqs <= t.log.freqs
    requires Labelling(t) == Labelling(s) && t.loop.readInvalid == s.loop.readInvalid
    ensures ResultsInv(t)
  {
    assert forall j :: 0 <= j < |s.log.freqs| ==> JobParams(t, j) == JobParams(s, j);
  }

  /** Only the oldest unreturned result is replaced, which is the one being read out. */
  lemma LastResultFrame(s: State, t: State, r: Result)
    requires ResultsInv(s) && s.ch.results != []
    requires |t.ch.results| == |s.ch.results| && t.log == s.log.(cleared := t.log.cleared) && t.scan == s.scan
    requires t.ch.results[|t.ch.results| - 1] == r
    requires forall k :: 0 <= k < |t.ch.results| - 1 ==> t.ch.results[k] == s.ch.results[k]
    requires Inserted(t) == Inserted(s) && ReadOut(s) == |s.log.delivered|
    requires ReadOut(t) == ReadOut(s) || (ReadOut(t) == ReadOut(s) + 1 && !Labelling(t))
    requires ResultInv(t, |s.log.delivered|, r)
    ensures ResultsInv(t)
  {
    assert forall j :: JobParams(t, j) == JobParams(s, j);
    forall k | 0 <= k < |t.ch.results| ensures ResultInv(t, Inserted(t) - 1 - k, t.ch.results[k]) {
      assert ResultInv(s, Inserted(s) - 1 - k, s.ch.results[k]);
    }
    forall j | 0 <= j < |t.log.delivered| ensures ResultInv(t, j, t.log.delivered[j]) {
      assert ResultInv(s, j, s.log.delivered[j]);
    }
  }

  // ---------------------------------------------------------------- steps of the control loop

  lemma InsertControl(s: State)
    requires ControlInv(s) && ScanInv(s) && s.loop.pc == Insert
    ensures ControlInv(LoopNext(s, 0))
  {}

  lemma FireControl(s: State)
    requires ControlInv(s) && s.loop.pc == Fire
    ensures ControlInv(LoopNext(s, 0))
  {}

  lemma StoreControl(s: State)
    requires ControlInv(s) && s.loop.pc == Store && LoopEnabled(s)
    ensures ControlInv(LoopNext(s, 0))
  {}

  lemma RelabelControl(s: State)
    requires ControlInv(s) && s.loop.pc == Relabel && LoopEnabled(s)
    ensures ControlInv(LoopNext(s, 0))
  {}

  lemma CopyLabelControl(s: State)
    requires ControlInv(s) && s.loop.pc == CopyLabel && LoopEnabled(s)
    ensures ControlInv(LoopNext(s, 0))
  {}

  lemma FinishControl(s: State)
    requires ControlInv(s) && s.loop.pc == Finish
    ensures ControlInv(LoopNext(s, 0))
  {}

  lemma DecideControl(s: State)
    requires ControlInv(s) && ScanInv(s) && s.loop.pc == Decide
    ensures ControlInv(LoopNext(s, 0))
  {}

  lemma PublishControl(s: State)
    requires ControlInv(s) && s.loop.pc == Publish
    ensures ControlInv(LoopNext(s, 0))
  {}

  lemma LoadControl(s: State, freq: int)
    requires ControlInv(s) && ScanInv(s) && s.loop.pc == Load && LoopEnabled(s)
    ensures ControlInv(LoopNext(s, freq))
  {}

  lemma CopyControl(s: State)
    requires ControlInv(s) && s.loop.pc == Copy
    ensures ControlInv(LoopNext(s, 0))
  {}

  lemma ArmControl(s: State)
    requires ControlInv(s) && s.loop.pc == Arm
    ensures ControlInv(LoopNext(s, 0))
  {}

  lemma SwitchControl(s: State)
    requires ControlInv(s) && s.loop.pc == Switch
    ensures ControlInv(LoopNext(s, 0))
  {}

  lemma AutoTriggerControl(s: State)
    requires ControlInv(s) && ScanInv(s) && s.loop.pc == AutoTrigger
    ensures ControlInv(LoopNext(s, 0))
  {}

  lemma AutoPushControl(s: State)
    requires ControlInv(s) && s.loop.pc == AutoPush
    ensures ControlInv(LoopNext(s, 0))
  {}

  lemma EndControl(s: State)
    requires ControlInv(s) && s.loop.pc == End
    ensures ControlInv(LoopNext(s, 0))
  {}

  lemma RelabelData(s: State)
    requires ShapeInv(s) && SwingManagerInv(s) && DataInv(s) && s.loop.pc == Relabel && LoopEnabled(s)
    ensures DataInv(LoopNext(s, 0))
  {}

  lemma FinishData(s: State)
    requires ShapeInv(s) && SwingManagerInv(s) && DataInv(s) && s.loop.pc == Finish
    ensures DataInv(LoopNext(s, 0))
  {}

  lemma LoadScan(s: State, freq: int)
    requires ShapeInv(s) && ScanInv(s) && s.loop.pc == Load && LoopEnabled(s)
    ensures ScanInv(LoopNext(s, freq))
  {}

  lemma LoadGpu(s: State, freq: int)
    requires ShapeInv(s) && SwingManagerInv(s) && DataInv(s) && s.loop.pc == Load && LoopEnabled(s)
    ensures GpuInv(LoopNext(s, freq))
  {}

  lemma LoadData(s: State, freq: int)
    requires ShapeInv(s) && SwingManagerInv(s) && DataInv(s) && s.loop.pc == Load && LoopEnabled(s)
    ensures DataInv(LoopNext(s, freq))
  {
    LoadScan(s, freq);
    LoadGpu(s, freq);
  }

  lemma CopyData(s: State)
    requires ShapeInv(s) && SwingManagerInv(s) && DataInv(s) && s.loop.pc == Copy
    ensures DataInv(LoopNext(s, 0))
  {}

  lemma AutoTriggerData(s: State)
    requires ShapeInv(s) && SwingManagerInv(s) && DataInv(s) && s.loop.pc == AutoTrigger
    ensures DataInv(LoopNext(s, 0))
  {}

  lemma AutoPushData(s: State)
    requires ShapeInv(s) && SwingManagerInv(s) && DataInv(s) && s.loop.pc == AutoPush
    ensures DataInv(LoopNext(s, 0))
  {}

  lemma EndData(s: State)
    requires ShapeInv(s) && SwingManagerInv(s) && DataInv(s) && s.loop.pc == End
    ensures DataInv(LoopNext(s, 0))
  {}

  lemma QuietDataEarly(s: State)
    requires DataInv(s) && LoopEnabled(s)
    requires s.loop.pc.Insert? || s.loop.pc.Fire? || s.loop.pc.Store? || s.loop.pc.CopyLabel?
    ensures DataInv(LoopNext(s, 0))
  {
    DataFrame(s, LoopNext(s, 0));
  }

  lemma QuietDataLate(s: State)
    requires DataInv(s) && LoopEnabled(s)
    requires s.loop.pc.Decide? || s.loop.pc.Publish? || s.loop.pc.Arm? || s.loop.pc.Switch?
    ensures DataInv(LoopNext(s, 0))
  {
    DataFrame(s, LoopNext(s, 0));
  }

  lemma InsertResults(s: State, t: State)
    requires ControlInv(s) && ScanInv(s) && ResultsInv(s)
    requires s.loop.pc == Insert && !s.scan.IsLastPeriod() && t == LoopNext(s, 0)
    ensures ResultsInv(t)
  {
    assert s.log.calls <= Periods(s) && Inserted(t) == Inserted(s) + 1 && ReadOut(t) == ReadOut(s);
    assert forall j :: JobParams(t, j) == JobParams(s, j);
    forall k | 0 <= k < |t.ch.results| ensures ResultInv(t, Inserted(t) - 1 - k, t.ch.results[k]) {
      if k > 0 { assert ResultInv(s, Inserted(s) - 1 - (k - 1), s.ch.results[k - 1]); }
    }
    forall j | 0 <= j < |t.log.delivered| ensures ResultInv(t, j, t.log.delivered[j]) {
      assert ResultInv(s, j, s.log.delivered[j]);
    }
  }

  /** The job read out in call number `calls` is the oldest unreturned one, and it has no data yet. */
  lemma StoreLast(s: State)
    requires ControlInv(s) && ScanInv(s) && ResultsInv(s)
    requires s.loop.pc == Store && s.ch.state.At(s.sw.processing) == Processing
    ensures s.log.calls == |s.log.delivered| + 2 && s.ch.results != [] && ReadOut(s) == |s.log.delivered|
    ensures Fresh(s.ch.results[|s.ch.results| - 1]) && Inserted(s) - |s.ch.results| == |s.log.delivered|
  {
    var last := |s.ch.results| - 1;
    assert s.log.calls == |s.log.delivered| + 2;
    assert ResultInv(s, Inserted(s) - 1 - last, s.ch.results[last]);
  }

  /** What is read out was transmitted with the parameters that are current. */
  lemma StoreParams(s: State)
    requires ControlInv(s) && DataInv(s) && s.loop.pc == Store && s.log.calls >= 2 && LoopEnabled(s)
    requires s.ch.state.At(s.sw.processing) == Processing
    ensures s.scan.CurrentParams() == JobParams(s, s.log.calls - 2)
    ensures s.gpu.At(s.sw.processing) == Some(JobParams(s, s.log.calls - 2))
  {}

  /** The flag tells whether the oldest unreturned result was triggered. */
  lemma StoreFlag(s: State)
    requires InvalidFlagInv(s) && s.loop.pc == Store && s.ch.results != []
    requires s.log.calls == |s.log.delivered| + 2 && Inserted(s) - |s.ch.results| == |s.log.delivered|
    ensures FlagFits(s, s.ch.results[|s.ch.results| - 1])
  {}

  lemma StoreInvalid(s: State, t: State)
    requires ResultsInv(s) && s.loop.pc == Store && s.loop.swingInvalid
    requires s.log.calls == |s.log.delivered| + 2 && s.ch.results != [] && ReadOut(s) == |s.log.delivered|
    requires Inserted(s) - |s.ch.results| == |s.log.delivered| && Fresh(s.ch.results[|s.ch.results| - 1])
    requires FlagFits(s, s.ch.results[|s.ch.results| - 1])
    requires t == s.(loop := s.loop.(pc := Relabel, readInvalid := true))
    ensures ResultsInv(t)
  {
    LastResultFrame(s, t, s.ch.results[|s.ch.results| - 1]);
  }

  lemma StoreValid(s: State, t: State, sampled: Samples)
    requires ResultsInv(s) && s.loop.pc == Store && !s.loop.swingInvalid
    requires s.log.calls == |s.log.delivered| + 2 && s.ch.results != [] && ReadOut(s) == |s.log.delivered|
    requires Inserted(s) - |s.ch.results| == |s.log.delivered| && Fresh(s.ch.results[|s.ch.results| - 1])
    requires FlagFits(s, s.ch.results[|s.ch.results| - 1])
    requires var p := JobParams(s, s.log.calls - 2); sampled == Samples(Some(p), p)
    requires var last := s.ch.results[|s.ch.results| - 1];
      t == s.(loop := s.loop.(pc := Relabel, readInvalid := false),
              ch := s.ch.(results := SetLast(s.ch.results, last.(data := Some(sampled), lost := s.log.cleared))))
    ensures ResultsInv(t)
  {
    var last := s.ch.results[|s.ch.results| - 1];
    LastResultFrame(s, t, last.(data := Some(sampled), lost := s.log.cleared));
  }

  lemma StoreResults(s: State)
    requires ControlInv(s) && DataInv(s) && ResultsInv(s) && InvalidFlagInv(s)
    requires s.loop.pc == Store && LoopEnabled(s) && s.ch.state.At(s.sw.processing) == Processing
    ensures ResultsInv(LoopNext(s, 0))
  {
    StoreLast(s);
    StoreParams(s);
    StoreFlag(s);
    if s.loop.swingInvalid {
      StoreInvalid(s, LoopNext(s, 0));
    } else {
      StoreValid(s, LoopNext(s, 0), Samples(s.gpu.At(s.sw.processing), s.scan.CurrentParams()));
    }
  }

  /** The flag still speaks of the same result, which moved back one place. */
  lemma InsertFlag(s: State)
    requires ShapeInv(s) && ScanInv(s) && ResultsInv(s) && InvalidFlagInv(s) && s.loop.pc == Insert
    ensures InvalidFlagInv(LoopNext(s, 0))
  {}

  lemma InsertQueues(s: State)
    requires ControlInv(s) && ScanInv(s) && QueuesInv(s) && s.loop.pc == Insert
    ensures QueuesInv(LoopNext(s, 0))
  {
    var t := LoopNext(s, 0);
    TriggeredFrame(s, t);
    InsertFlag(s);
    if s.scan.IsLastPeriod() {
      ResultsFrame(s, t);
    } else {
      InsertResults(s, t);
    }
  }

  lemma FireQueues(s: State)
    requires ControlInv(s) && QueuesInv(s) && s.loop.pc == Fire
    ensures QueuesInv(LoopNext(s, 0))
  {
    TriggeredFrame(s, LoopNext(s, 0));
    ResultsFrame(s, LoopNext(s, 0));
  }

  lemma StoreQueues(s: State)
    requires ControlInv(s) && DataInv(s) && QueuesInv(s) && s.loop.pc == Store && LoopEnabled(s)
    ensures QueuesInv(LoopNext(s, 0))
  {
    var t := LoopNext(s, 0);
    TriggeredFrame(s, t);
    if t.loop.pc == Finish { ResultsFrame(s, t); } else { StoreResults(s); }
  }

  lemma RelabelQueues(s: State)
    requires ControlInv(s) && QueuesInv(s) && s.loop.pc == Relabel && LoopEnabled(s)
    ensures QueuesInv(LoopNext(s, 0))
  {
    TriggeredFrame(s, LoopNext(s, 0));
    ResultsFrame(s, LoopNext(s, 0));
  }

  /** The result labelled in call number `calls` is the oldest unreturned one, which was read out. */
  lemma CopyLabelLast(s: State)
    requires ControlInv(s) && ResultsInv(s) && s.loop.pc == CopyLabel && s.ch.results != []
    ensures s.log.calls == |s.log.delivered| + 2 && ReadOut(s) == |s.log.delivered|
    ensures Clamp(s.log.calls - 1, Periods(s)) == ReadOut(s) + 1
    ensures Sampled(s, s.ch.results[|s.ch.results| - 1], JobParams(s, s.log.calls - 2))
  {
    assert s.log.calls == |s.log.delivered| + 2;
    assert ResultInv(s, |s.log.delivered|, s.ch.results[|s.ch.results| - 1]);
  }

  lemma CopyLabelResults(s: State)
    requires ResultsInv(s) && s.loop.pc == CopyLabel && s.ch.results != []
    requires s.ch.ctrlprm == JobParams(s, s.log.calls - 2) && s.log.calls == |s.log.delivered| + 2
    requires ReadOut(s) == |s.log.delivered| && Clamp(s.log.calls - 1, Periods(s)) == ReadOut(s) + 1
    requires Sampled(s, s.ch.results[|s.ch.results| - 1], JobParams(s, s.log.calls - 2))
    ensures ResultsInv(LoopNext(s, 0))
  {
    var t := LoopNext(s, 0);
    LastResultFrame(s, t, t.ch.results[|t.ch.results| - 1]);
  }

  lemma CopyLabelQueues(s: State)
    requires ControlInv(s) && DataInv(s) && QueuesInv(s) && s.loop.pc == CopyLabel && LoopEnabled(s)
    ensures QueuesInv(LoopNext(s, 0))
  {
    TriggeredFrame(s, LoopNext(s, 0));
    CopyLabelLast(s);
    CopyLabelResults(s);
  }

  lemma FinishQueues(s: State)
    requires ControlInv(s) && QueuesInv(s) && s.loop.pc == Finish
    ensures QueuesInv(LoopNext(s, 0))
  {
    TriggeredFrame(s, LoopNext(s, 0));
    ResultsFrame(s, LoopNext(s, 0));
  }

  lemma DecideQueues(s: State)
    requires ControlInv(s) && ScanInv(s) && QueuesInv(s) && s.loop.pc == Decide
    ensures QueuesInv(LoopNext(s, 0))
  {
    TriggeredFrame(s, LoopNext(s, 0));
    ResultsFrame(s, LoopNext(s, 0));
  }

  lemma PublishQueues(s: State)
    requires ControlInv(s) && QueuesInv(s) && s.loop.pc == Publish
    ensures QueuesInv(LoopNext(s, 0))
  {
    TriggeredFrame(s, LoopNext(s, 0));
    ResultsFrame(s, LoopNext(s, 0));
  }

  lemma LoadQueues(s: State, freq: int)
    requires ControlInv(s) && ScanInv(s) && QueuesInv(s) && s.loop.pc == Load && LoopEnabled(s)
    ensures QueuesInv(LoopNext(s, freq))
  {
    TriggeredFrame(s, LoopNext(s, freq));
    ResultsFrame(s, LoopNext(s, freq));
  }

  lemma CopyQueues(s: State)
    requires ControlInv(s) && QueuesInv(s) && s.loop.pc == Copy
    ensures QueuesInv(LoopNext(s, 0))
  {
    TriggeredFrame(s, LoopNext(s, 0));
    ResultsFrame(s, LoopNext(s, 0));
  }

  lemma ArmQueues(s: State)
    requires ControlInv(s) && QueuesInv(s) && s.loop.pc == Arm
    ensures QueuesInv(LoopNext(s, 0))
  {
    TriggeredFrame(s, LoopNext(s, 0));
    ResultsFrame(s, LoopNext(s, 0));
  }

  lemma SwitchQueues(s: State)
    requires ControlInv(s) && QueuesInv(s) && s.loop.pc == Switch
    ensures QueuesInv(LoopNext(s, 0))
  {
    TriggeredFrame(s, LoopNext(s, 0));
    ResultsFrame(s, LoopNext(s, 0));
  }

  lemma AutoTriggerQueues(s: State)
    requires ControlInv(s) && ScanInv(s) && QueuesInv(s) && s.loop.pc == AutoTrigger
    ensures QueuesInv(LoopNext(s, 0))
  {
    TriggeredFrame(s, LoopNext(s, 0));
    ResultsFrame(s, LoopNext(s, 0));
  }

  lemma AutoPushQueues(s: State)
    requires ControlInv(s) && QueuesInv(s) && s.loop.pc == AutoPush
    ensures QueuesInv(LoopNext(s, 0))
  {
    ResultsFrame(s, LoopNext(s, 0));
  }

  lemma EndQueues(s: State)
    requires ControlInv(s) && QueuesInv(s) && s.loop.pc == End
    ensures QueuesInv(LoopNext(s, 0))
  {
    TriggeredFrame(s, LoopNext(s, 0));
    ResultsFrame(s, LoopNext(s, 0));
  }

  // ---------------------------------------------------------------- steps of the handler

  lemma WaitReadyControl(s: State)
    requires ControlInv(s) && s.handler.pc == WaitReady && HandlerEnabled(s)
    ensures ControlInv(HandlerNext(s))
  {}

  lemma SetTriggerControl(s: State)
    requires ControlInv(s) && s.handler.pc == SetTrigger && HandlerEnabled(s)
    ensures ControlInv(HandlerNext(s))
  {}

  lemma PushSwingControl(s: State)
    requires ControlInv(s) && s.handler.pc == PushSwing && HandlerEnabled(s)
    ensures ControlInv(HandlerNext(s))
  {}

  lemma RefreshControl(s: State)
    requires ControlInv(s) && s.handler.pc == Refresh && HandlerEnabled(s)
    ensures ControlInv(HandlerNext(s))
  {}

  lemma PopSwingControl(s: State)
    requires ControlInv(s) && TriggeredInv(s) && s.handler.pc == PopSwing && HandlerEnabled(s)
    ensures ControlInv(HandlerNext(s))
  {}

  lemma WaitSamplesControl(s: State)
    requires ControlInv(s) && s.handler.pc == WaitSamples && HandlerEnabled(s)
    ensures ControlInv(HandlerNext(s))
  {}

  lemma ReturnControl(s: State)
    requires ControlInv(s) && s.handler.pc == Return && HandlerEnabled(s)
    ensures ControlInv(HandlerNext(s))
  {}

  lemma ReleaseControl(s: State)
    requires ControlInv(s) && s.handler.pc == Release && HandlerEnabled(s)
    ensures ControlInv(HandlerNext(s))
  {}

  lemma RefreshData(s: State)
    requires ControlInv(s) && DataInv(s) && s.handler.pc == Refresh && HandlerEnabled(s) && !Racy(s, Handler)
    ensures DataInv(HandlerNext(s))
  {
    var t := HandlerNext(s);
    ScanFrame(s, t);
    if s.loop.pc != CopyLabel { GpuFrame(s, t); }
  }

  lemma HandlerData(s: State)
    requires DataInv(s) && HandlerEnabled(s) && s.handler.pc != Refresh
    ensures DataInv(HandlerNext(s))
  {
    var t := HandlerNext(s);
    assert t.scan == s.scan && t.loop == s.loop && t.gpu == s.gpu && t.ch.ctrlprm == s.ch.ctrlprm;
    ScanFrame(s, t);
    GpuFrame(s, t);
  }

  lemma WaitReadyQueues(s: State)
    requires ControlInv(s) && QueuesInv(s) && s.handler.pc == WaitReady && HandlerEnabled(s)
    ensures QueuesInv(HandlerNext(s))
  {
    TriggeredFrame(s, HandlerNext(s));
    ResultsFrame(s, HandlerNext(s));
  }

  lemma SetTriggerQueues(s: State)
    requires ControlInv(s) && QueuesInv(s) && s.handler.pc == SetTrigger && HandlerEnabled(s)
    ensures QueuesInv(HandlerNext(s))
  {
    TriggeredFrame(s, HandlerNext(s));
    ResultsFrame(s, HandlerNext(s));
  }

  lemma PushSwingQueues(s: State)
    requires ControlInv(s) && QueuesInv(s) && s.handler.pc == PushSwing && HandlerEnabled(s)
    ensures QueuesInv(HandlerNext(s))
  {
    ResultsFrame(s, HandlerNext(s));
  }

  lemma RefreshQueues(s: State)
    requires ControlInv(s) && QueuesInv(s) && s.handler.pc == Refresh && HandlerEnabled(s)
    ensures QueuesInv(HandlerNext(s))
  {
    TriggeredFrame(s, HandlerNext(s));
    ResultsFrame(s, HandlerNext(s));
  }

  lemma PopSwingQueues(s: State)
    requires ControlInv(s) && QueuesInv(s) && s.handler.pc == PopSwing && HandlerEnabled(s)
    ensures QueuesInv(HandlerNext(s))
  {
    ResultsFrame(s, HandlerNext(s));
  }

  lemma WaitSamplesQueues(s: State)
    requires ControlInv(s) && QueuesInv(s) && s.handler.pc == WaitSamples && HandlerEnabled(s)
    ensures QueuesInv(HandlerNext(s))
  {
    TriggeredFrame(s, HandlerNext(s));
    ResultsFrame(s, HandlerNext(s));
  }

  lemma ReturnResults(s: State)
    requires ResultsInv(s) && s.handler.pc == Return && s.ch.results != [] && |s.log.delivered| < ReadOut(s)
    ensures ResultsInv(HandlerNext(s))
  {
    var t := HandlerNext(s);
    assert forall j :: JobParams(t, j) == JobParams(s, j);
  }

  lemma ReturnFlag(s: State)
    requires InvalidFlagInv(s) && s.handler.pc == Return && s.ch.results != []
    requires Rank(s.loop.pc) > 7 && s.log.calls == |s.log.delivered| + 2 && Inserted(s) - |s.ch.results| == |s.log.delivered|
    requires s.log.calls <= Periods(s) ==> |s.ch.results| >= 2
    ensures InvalidFlagInv(HandlerNext(s))
  {}

  lemma ReturnQueues(s: State)
    requires ControlInv(s) && QueuesInv(s) && s.handler.pc == Return && HandlerEnabled(s)
    ensures QueuesInv(HandlerNext(s))
  {
    TriggeredFrame(s, HandlerNext(s));
    ReturnResults(s);
    ReturnFlag(s);
  }

  lemma ReleaseQueues(s: State)
    requires ControlInv(s) && QueuesInv(s) && s.handler.pc == Release && HandlerEnabled(s)
    ensures QueuesInv(HandlerNext(s))
  {
    TriggeredFrame(s, HandlerNext(s));
    ResultsFrame(s, HandlerNext(s));
  }

  // ---------------------------------------------------------------- the remaining actions

  lemma BeginControl(s: State, a: Action)
    requires ControlInv(s) && ScanInv(s) && a.Begin? && Enabled(s, a) && !Racy(s, a)
    ensures ControlInv(Next(s, a))
  {}

  lemma BeginScan(s: State, a: Action)
    requires ShapeInv(s) && SwingManagerInv(s) && ScanInv(s) && a.Begin? && Enabled(s, a)
    ensures ScanInv(Next(s, a))
  {}

  lemma BeginGpu(s: State, a: Action)
    requires ShapeInv(s) && GpuInv(s) && a.Begin? && Enabled(s, a)
    ensures GpuInv(Next(s, a))
  {}

  lemma BeginData(s: State, a: Action)
    requires ShapeInv(s) && SwingManagerInv(s) && DataInv(s) && a.Begin? && Enabled(s, a)
    ensures DataInv(Next(s, a))
  {
    BeginScan(s, a);
    BeginGpu(s, a);
  }

  lemma ParametersControl(s: State, a: Action)
    requires ControlInv(s) && (a.SetParameters? || a.GetParameters?) && Enabled(s, a)
    ensures ControlInv(Next(s, a))
  {}

  lemma ParametersData(s: State, a: Action)
    requires ControlInv(s) && DataInv(s) && (a.SetParameters? || a.GetParameters?) && Enabled(s, a) && !Racy(s, a)
    ensures DataInv(Next(s, a))
  {
    NotLabelling(s);
    var t := Next(s, a);
    assert t.scan == s.scan && t.gpu == s.gpu && t.loop == s.loop && t.log == s.log;
    ScanFrame(s, t);
    GpuFrame(s, t);
  }

  lemma NotLabelling(s: State)
    requires ShapeInv(s) && HandlerInv(s) && s.handler.pc == WaitReady
    ensures s.loop.pc != CopyLabel
  {}

  lemma OtherSetActiveCore(s: State)
    requires ControlInv(s) && DataInv(s)
    ensures ControlInv(Next(s, OtherSetActive)) && DataInv(Next(s, OtherSetActive))
  {
    var t := Next(s, OtherSetActive);
    assert t.loop.pc == s.loop.pc && t.log.calls == s.log.calls;
    ScanFrame(s, t);
    GpuFrame(s, t);
  }

  lemma OtherSwingCore(s: State)
    requires ControlInv(s) && DataInv(s) && Enabled(s, OtherSwing)
    ensures ControlInv(Next(s, OtherSwing)) && DataInv(Next(s, OtherSwing))
  {}

  lemma BeginQueues(s: State, a: Action)
    requires ControlInv(s) && ScanInv(s) && QueuesInv(s) && a.Begin? && Enabled(s, a) && !Racy(s, a)
    ensures QueuesInv(Next(s, a))
  {
    ResultsFrame(s, Next(s, a));
  }

  lemma EnvironmentQueues(s: State, a: Action)
    requires QueuesInv(s) && (a.SetParameters? || a.GetParameters? || a.OtherSwing?) && Enabled(s, a)
    ensures QueuesInv(Next(s, a))
  {
    TriggeredFrame(s, Next(s, a));
    ResultsFrame(s, Next(s, a));
  }

  lemma OtherSetActiveQueues(s: State)
    requires QueuesInv(s)
    ensures QueuesInv(Next(s, OtherSetActive))
  {
    TriggeredFrame(s, Next(s, OtherSetActive));
    ResultsFrame(s, Next(s, OtherSetActive));
  }

  lemma NewScanKept(s: State, a: Action)
    requires Inv(s) && a.NewScan? && Enabled(s, a)
    ensures Scanning(Next(s, a))
  {}

  // ---------------------------------------------------------------- one step of each thread

  /** trigger_next_swing never indexes an empty queue or a period outside the scan. */
  lemma LoopNeverFails(s: State)
    requires Scanning(s) && s.loop.pc != Idle
    ensures LoopEnabled(s)
  {}

  lemma LoopControl(s: State, freq: int)
    requires ControlInv(s) && ScanInv(s) && LoopEnabled(s)
    ensures ControlInv(LoopNext(s, freq))
  {
    match s.loop.pc
    case Insert => InsertControl(s);
    case Fire => FireControl(s);
    case Store => StoreControl(s);
    case Relabel => RelabelControl(s);
    case CopyLabel => CopyLabelControl(s);
    case Finish => FinishControl(s);
    case Decide => DecideControl(s);
    case Publish => PublishControl(s);
    case Load => LoadControl(s, freq);
    case Copy => CopyControl(s);
    case Arm => ArmControl(s);
    case Switch => SwitchControl(s);
    case AutoTrigger => AutoTriggerControl(s);
    case AutoPush => AutoPushControl(s);
    case End => EndControl(s);
  }

  lemma LoopData(s: State, freq: int)
    requires ShapeInv(s) && SwingManagerInv(s) && DataInv(s) && LoopEnabled(s)
    ensures DataInv(LoopNext(s, freq))
  {
    match s.loop.pc
    case Relabel => RelabelData(s);
    case Finish => FinishData(s);
    case Load => LoadData(s, freq);
    case Copy => CopyData(s);
    case AutoTrigger => AutoTriggerData(s);
    case AutoPush => AutoPushData(s);
    case End => EndData(s);
    case Insert => QuietDataEarly(s);
    case Fire => QuietDataEarly(s);
    case Store => QuietDataEarly(s);
    case CopyLabel => QuietDataEarly(s);
    case _ => QuietDataLate(s);
  }

  lemma LoopQueues(s: State, freq: int)
    requires Scanning(s) && LoopEnabled(s)
    ensures QueuesInv(LoopNext(s, freq))
  {
    match s.loop.pc
    case Insert => InsertQueues(s);
    case Fire => FireQueues(s);
    case Store => StoreQueues(s);
    case Relabel => RelabelQueues(s);
    case CopyLabel => CopyLabelQueues(s);
    case Finish => FinishQueues(s);
    case Decide => DecideQueues(s);
    case Publish => PublishQueues(s);
    case Load => LoadQueues(s, freq);
    case Copy => CopyQueues(s);
    case Arm => ArmQueues(s);
    case Switch => SwitchQueues(s);
    case AutoTrigger => AutoTriggerQueues(s);
    case AutoPush => AutoPushQueues(s);
    case End => EndQueues(s);
  }

  lemma HandlerControl(s: State)
    requires ControlInv(s) && TriggeredInv(s) && HandlerEnabled(s)
    ensures ControlInv(HandlerNext(s))
  {
    match s.handler.pc
    case WaitReady => WaitReadyControl(s);
    case SetTrigger => SetTriggerControl(s);
    case PushSwing => PushSwingControl(s);
    case Refresh => RefreshControl(s);
    case PopSwing => PopSwingControl(s);
    case WaitSamples => WaitSamplesControl(s);
    case Return => ReturnControl(s);
    case Release => ReleaseControl(s);
  }

  lemma HandlerQueues(s: State)
    requires Scanning(s) && HandlerEnabled(s)
    ensures QueuesInv(HandlerNext(s))
  {
    match s.handler.pc
    case WaitReady => WaitReadyQueues(s);
    case SetTrigger => SetTriggerQueues(s);
    case PushSwing => PushSwingQueues(s);
    case Refresh => RefreshQueues(s);
    case PopSwing => PopSwingQueues(s);
    case WaitSamples => WaitSamplesQueues(s);
    case Return => ReturnQueues(s);
    case Release => ReleaseQueues(s);
  }
}
