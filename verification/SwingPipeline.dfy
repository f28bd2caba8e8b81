/** The two-slot "swing" pipeline of usrp_server.py.

    While one swing transmits, the other one is read out and loaded with the parameters of the
    next integration period. Two threads work on it: the control loop, which runs
    trigger_next_swing, and the handler of the channel's control program, which alternates
    SET_READY and GET_DATA (and may send SET_PARAMETERS and GET_PARAMETERS in between).

    The module follows one channel through any number of scans. The other channels appear as an
    environment: they may keep a radar transmitting when this channel is in its last period, they
    decide (through the clock) whether a swing is triggered at all, they run trigger_next_swing
    while this channel is not registered, and their SET_ACTIVE may clear the "last swing was
    invalid" flag at any moment.

    An action is one access to shared state; a run is a sequence of actions of both threads. */
module SwingPipeline {
  import opened Wrappers

  /** The two swings; the source numbers them 0 and 1 and writes 1 - swing for the other one. */
  datatype Swing = Zero | One

  function Other(i: Swing): Swing { if i == Zero then One else Zero }

  /** A value kept once per swing: a Python list of length two. */
  datatype Both<T> = Both(zero: T, one: T) {
    function At(i: Swing): T { if i == Zero then zero else one }

    function With(i: Swing, v: T): Both<T> { if i == Zero then Both(v, one) else Both(zero, v) }
  }

  datatype ChannelState = Inactive | Ready | Trigger | Processing | SamplesReady | LastSwing

  /** The part of the control parameters that changes from period to period. */
  datatype Params = Params(beam: int, freq: int)

  /** What one readout stored: the parameters the swing was transmitted with and the
      parameters the samples were beamformed with. */
  datatype Samples = Samples(transmitted: Option<Params>, beamformed: Params)

  /** A resultDict. Two fields only statements use: `fired` records whether USRP_TRIGGER was sent for
      its period; `lost`, that another channel's SET_ACTIVE removed the invalid flag raised for it
      before its samples were read out. */
  datatype Result = Result(
    data: Option<Samples>, tag: Option<Params>, nSequences: nat, valid: bool, fired: bool, lost: bool)

  /** Where the control loop is inside trigger_next_swing. */
  datatype LoopPc =
    Idle | Insert | Fire | Store | Relabel | CopyLabel | Finish | Decide | Publish
    | Load | Copy | Arm | Switch | AutoTrigger | AutoPush | End

  /** Where the handler thread is: SET_READY is WaitReady, SetTrigger, PushSwing;
      GET_DATA is Refresh, PopSwing, WaitSamples, Return, Release. */
  datatype HandlerPc =
    Off | WaitReady | SetTrigger | PushSwing | Refresh | PopSwing | WaitSamples | Return | Release

  /** Position of the control loop inside one call; between calls everything is done. */
  function Rank(pc: LoopPc): nat {
    match pc
    case Insert => 0 case Fire => 1 case Store => 2 case Relabel => 3 case CopyLabel => 4
    case Finish => 5 case Decide => 6 case Publish => 7 case Load => 8 case Copy => 9
    case Arm => 10 case Switch => 11 case AutoTrigger => 12 case AutoPush => 13 case End => 14
    case Idle => 15
  }

  datatype SwingManager = SwingManager(active: Swing, processing: Swing, nextToTrigger: Swing)

  function SwitchSwings(sw: SwingManager): SwingManager {
    SwingManager(Other(sw.active), Other(sw.processing), sw.nextToTrigger)
  }

  datatype ScanManager = ScanManager(
    beams: seq<int>, period: int, current: Option<int>, next: Option<int>,
    isPrePeriod: bool, isPostLast: bool, isFirstPeriod: bool)
  {
    predicate Camping() { |beams| == 1 }

    predicate IsLastPeriod() { !Camping() && period + 1 == |beams| && |beams| != 1 }

    function PeriodFinished(): ScanManager {
      var promoted := if next.Some? then this.(current := next, next := None) else this;
      if isPrePeriod then promoted.(isPrePeriod := false)
      else if Camping() then promoted
      else if !IsLastPeriod() then promoted.(period := period + 1)
      else promoted.(isPostLast := true)
    }

    /** What update_ctrlprm_class("current") writes. */
    function CurrentParams(): Params
      requires 0 <= period < |beams| && current.Some?
    {
      Params(beams[period], current.value)
    }
  }

  /** The fields of a RadarChannelHandler that both threads use. */
  datatype Channel = Channel(
    state: Both<ChannelState>, nextState: Both<ChannelState>,
    results: seq<Result>, triggered: seq<Swing>, ctrlprm: Params, registered: bool)

  /** The control loop: its position and what it computed at the start of the call. */
  datatype ControlLoop = ControlLoop(
    pc: LoopPc, transmitting: bool, nSequences: nat, fire: bool, swingInvalid: bool, readInvalid: bool)

  datatype HandlerThread = HandlerThread(pc: HandlerPc, finished: Swing)

  /** What the control program received, and history that only statements use: the number of
      trigger_next_swing calls in this scan, the frequencies chosen, the period the scan began
      with, the swing that will be triggered next, and whether another channel's SET_ACTIVE
      cleared a raised invalid flag since the last readout. */
  datatype Log = Log(
    delivered: seq<Result>, calls: nat, freqs: seq<int>, start: nat, upcoming: Swing, cleared: bool)

  /** `gpu` is what CUDA_ADD loaded last into each swing. */
  datatype State = State(
    sw: SwingManager, scan: ScanManager, ch: Channel, gpu: Both<Option<Params>>,
    loop: ControlLoop, handler: HandlerThread, log: Log)

  datatype Action =
    | NewScan(beams: seq<int>, startPeriod: nat, firstFreq: int)
    | Begin(forced: bool, nSeq: nat, othersTransmit: bool)
    | Loop(freq: int)
    | Handler
    | SetParameters(received: Params)
    | GetParameters
    | OtherSetActive
    | OtherSwing

  predicate IsInit(s: State) {
    && s.sw == SwingManager(Zero, One, Zero)
    && s.ch.state == Both(Inactive, Inactive)
    && s.ch.results == [] && s.ch.triggered == [] && !s.ch.registered
    && s.loop.pc == Idle && s.handler.pc == Off
    && s.log.delivered == [] && s.log.calls == 0 && s.log.start == 0 && s.scan.beams == []
    && s.gpu == Both(None, None)
  }

  // ---------------------------------------------------------------- the control loop

  predicate LoopEnabled(s: State) {
    match s.loop.pc
    case Idle => false
    case Store => s.ch.state.At(s.sw.processing) == Processing ==>
                    (s.ch.results != [] && 0 <= s.scan.period < |s.scan.beams| && s.scan.current.Some?)
    case Relabel => 0 <= s.scan.period < |s.scan.beams| && s.scan.current.Some?
    case CopyLabel => s.ch.results != []
    case Load => s.scan.IsLastPeriod() || 0 <= s.scan.period + 1 < |s.scan.beams|
    case _ => true
  }

  function BeginSwing(s: State, forced: bool, nSeq: nat, othersTransmit: bool): State {
    s.(loop := s.loop.(pc := Insert,
                       transmitting := !s.scan.IsLastPeriod() || othersTransmit,
                       nSequences := nSeq,
                       fire := forced || nSeq != 0),
       sw := s.sw.(nextToTrigger := s.sw.processing),
       log := s.log.(calls := s.log.calls + 1, upcoming := Other(s.log.upcoming)))
  }

  /** A step moves the loop forward in its call and touches nothing that belongs to the handler. */
  predicate Forward(s: State, t: State) {
    && Rank(s.loop.pc) < Rank(t.loop.pc)
    && t.handler == s.handler && t.log.delivered == s.log.delivered && t.loop.fire == s.loop.fire
    && t.log.calls == s.log.calls && t.log.start == s.log.start && t.scan.beams == s.scan.beams
  }

  function At(s: State, pc: LoopPc): State { s.(loop := s.loop.(pc := pc)) }

  function SetLast(rs: seq<Result>, r: Result): seq<Result>
    requires rs != []
  {
    rs[..|rs| - 1] + [r]
  }

  /** USRP_TRIGGER: put a fresh result in front of the queue, then mark the active swing. */
  function InsertResult(s: State): (t: State)
    requires s.loop.pc == Insert
    ensures Forward(s, t)
  {
    if s.loop.transmitting && !s.scan.IsLastPeriod() then
      var queued := Result(None, None, s.loop.nSequences, true, s.loop.fire, false);
      At(s, Fire).(ch := s.ch.(results := [queued] + s.ch.results))
    else At(s, Fire)
  }

  function FireSwing(s: State): (t: State)
    requires s.loop.pc == Fire
    ensures Forward(s, t)
  {
    if s.loop.transmitting && s.ch.state.At(s.sw.active) == Trigger
    then At(s, Store).(ch := s.ch.(state := s.ch.state.With(s.sw.active, Processing)))
    else At(s, Store)
  }

  /** Read out the processing swing: CUDA_GET_DATA and beamforming, unless it was never triggered. */
  function StoreData(s: State): (t: State)
    requires s.loop.pc == Store && LoopEnabled(s)
    ensures Forward(s, t)
  {
    if s.ch.state.At(s.sw.processing) != Processing then
      s.(loop := s.loop.(pc := Finish, swingInvalid := false), log := s.log.(cleared := false))
    else if s.loop.swingInvalid then
      s.(loop := s.loop.(pc := Relabel, readInvalid := true))
    else
      var sampled := Samples(s.gpu.At(s.sw.processing), s.scan.CurrentParams());
      var last := s.ch.results[|s.ch.results| - 1];
      s.(loop := s.loop.(pc := Relabel, readInvalid := false),
         ch := s.ch.(results := SetLast(s.ch.results, last.(data := Some(sampled), lost := s.log.cleared))))
  }

  function CopyLabelStep(s: State): (t: State)
    requires s.loop.pc == CopyLabel && s.ch.results != []
    ensures Forward(s, t)
  {
    var last := s.ch.results[|s.ch.results| - 1].(tag := Some(s.ch.ctrlprm));
    if s.loop.readInvalid then
      s.(loop := s.loop.(pc := Finish, swingInvalid := false), log := s.log.(cleared := false),
         ch := s.ch.(results := SetLast(s.ch.results, last.(valid := false, nSequences := 0))))
    else
      At(s, Finish).(log := s.log.(cleared := false), ch := s.ch.(results := SetLast(s.ch.results, last)))
  }

  /** Choose the state the swing gets once GET_DATA has returned its samples. */
  function DecideStates(s: State): (t: State)
    requires s.loop.pc == Decide
    ensures Forward(s, t)
  {
    if s.ch.state.At(s.sw.processing) != Processing then At(s, Load)
    else if s.scan.isPostLast then
      At(s, Publish).(ch := s.ch.(
        nextState := s.ch.nextState.With(s.sw.processing, Inactive).With(s.sw.active, Inactive),
        state := s.ch.state.With(s.sw.active, Inactive)))
    else
      var released := if s.scan.IsLastPeriod() then LastSwing else Ready;
      At(s, Publish).(ch := s.ch.(nextState := s.ch.nextState.With(s.sw.processing, released)))
  }

  function PublishSamples(s: State): (t: State)
    requires s.loop.pc == Publish
    ensures Forward(s, t)
  {
    At(s, Load).(ch := s.ch.(state := s.ch.state.With(s.sw.processing, SamplesReady)))
  }

  /** Remove the channel in its last period, otherwise start CUDA_ADD for the next period. */
  function LoadNext(s: State, freq: int): (t: State)
    requires s.loop.pc == Load && LoopEnabled(s)
    ensures Forward(s, t)
  {
    if s.scan.IsLastPeriod() then
      At(s, Switch).(gpu := s.gpu.With(s.sw.processing, None),
                     ch := s.ch.(registered := s.ch.registered && !s.scan.isPostLast))
    else
      var f := if s.scan.next.Some? then s.scan.next.value else freq;
      At(s, Copy).(scan := s.scan.(next := Some(f)),
                   ch := s.ch.(ctrlprm := Params(s.scan.beams[s.scan.period + 1], f)),
                   log := if s.scan.next.Some? then s.log else s.log.(freqs := s.log.freqs + [f]))
  }

  function ArmSwing(s: State): (t: State)
    requires s.loop.pc == Arm
    ensures Forward(s, t)
  {
    if s.ch.state.At(s.sw.processing) == Inactive
    then At(s, Switch).(ch := s.ch.(state := s.ch.state.With(s.sw.processing, Ready)))
    else At(s, Switch)
  }

  /** The second period of a scan is triggered without SET_READY. */
  function AutoTriggerStep(s: State): (t: State)
    requires s.loop.pc == AutoTrigger
    ensures Forward(s, t)
  {
    if s.loop.transmitting && s.ch.registered && s.scan.isFirstPeriod
    then At(s, AutoPush).(ch := s.ch.(state := s.ch.state.With(s.sw.active, Trigger)))
    else At(s, End)
  }

  function AutoPushStep(s: State): (t: State)
    requires s.loop.pc == AutoPush
    ensures Forward(s, t)
  {
    At(s, End).(ch := s.ch.(triggered := [s.sw.nextToTrigger] + s.ch.triggered),
                scan := s.scan.(isFirstPeriod := false))
  }

  function FinishPeriod(s: State): (t: State)
    requires s.loop.pc == Finish
    ensures Forward(s, t)
  {
    At(s, Decide).(scan := s.scan.PeriodFinished())
  }

  function LoopNext(s: State, freq: int): (t: State)
    requires LoopEnabled(s)
    ensures Forward(s, t)
  {
    match s.loop.pc
    case Insert => InsertResult(s)
    case Fire => FireSwing(s)
    case Store => StoreData(s)
    case Relabel => At(s, CopyLabel).(ch := s.ch.(ctrlprm := s.scan.CurrentParams()))
    case CopyLabel => CopyLabelStep(s)
    case Finish => FinishPeriod(s)
    case Decide => DecideStates(s)
    case Publish => PublishSamples(s)
    case Load => LoadNext(s, freq)
    case Copy => At(s, Arm).(gpu := s.gpu.With(s.sw.processing, Some(s.ch.ctrlprm)))
    case Arm => ArmSwing(s)
    case Switch => At(s, AutoTrigger).(sw := SwitchSwings(s.sw))
    case AutoTrigger => AutoTriggerStep(s)
    case AutoPush => AutoPushStep(s)
    case End => s.(loop := s.loop.(pc := Idle, swingInvalid := s.loop.swingInvalid || !s.loop.fire))
  }

  // ---------------------------------------------------------------- the handler thread

  predicate HandlerEnabled(s: State) {
    match s.handler.pc
    case Off => false
    case WaitReady =>
      var st := s.ch.state.At(s.sw.nextToTrigger);
      st == Ready || st == LastSwing
    case Refresh => 0 <= s.scan.period < |s.scan.beams| && s.scan.current.Some?
    case PopSwing => s.ch.triggered != []
    case WaitSamples => s.ch.state.At(s.handler.finished) == SamplesReady
    case Return => s.ch.results != []
    case _ => true
  }

  function HandlerAt(s: State, pc: HandlerPc): State { s.(handler := s.handler.(pc := pc)) }

  function PopSwingStep(s: State): State
    requires s.ch.triggered != []
  {
    var last := |s.ch.triggered| - 1;
    s.(handler := HandlerThread(WaitSamples, s.ch.triggered[last]),
       ch := s.ch.(triggered := s.ch.triggered[..last]))
  }

  function ReturnStep(s: State): State
    requires s.ch.results != []
  {
    var last := |s.ch.results| - 1;
    HandlerAt(s, Release).(log := s.log.(delivered := s.log.delivered + [s.ch.results[last]]),
                           ch := s.ch.(results := s.ch.results[..last]))
  }

  function ReleaseStep(s: State): State {
    var swing := s.handler.finished;
    var more := |s.log.delivered| < |s.scan.beams| - s.log.start;
    HandlerAt(s, if more then WaitReady else Off).(
      ch := s.ch.(state := s.ch.state.With(swing, s.ch.nextState.At(swing))))
  }

  function HandlerNext(s: State): State
    requires HandlerEnabled(s)
  {
    match s.handler.pc
    case WaitReady => HandlerAt(s, SetTrigger)
    case SetTrigger =>
      HandlerAt(s, PushSwing).(ch := s.ch.(state := s.ch.state.With(s.sw.nextToTrigger, Trigger)))
    case PushSwing =>
      HandlerAt(s, Refresh).(ch := s.ch.(triggered := [s.sw.nextToTrigger] + s.ch.triggered))
    case Refresh => HandlerAt(s, PopSwing).(ch := s.ch.(ctrlprm := s.scan.CurrentParams()))
    case PopSwing => PopSwingStep(s)
    case WaitSamples => HandlerAt(s, Return)
    case Return => ReturnStep(s)
    case Release => ReleaseStep(s)
  }

  // ---------------------------------------------------------------- actions and runs

  /** Mid-scan SET_PARAMETERS waits until the swing that is on the air has been triggered. */
  predicate SetParametersEnabled(s: State) {
    && s.handler.pc == WaitReady
    && var st := s.ch.state.At(if s.scan.isPrePeriod then s.sw.nextToTrigger else Other(s.sw.nextToTrigger));
       st == Inactive || st == Processing || st == LastSwing
  }

  /** GET_PARAMETERS sends the current parameters, and does not wait for anything. */
  predicate GetParametersEnabled(s: State) {
    s.handler.pc == WaitReady && 0 <= s.scan.period < |s.scan.beams| && s.scan.current.Some?
  }

  predicate Enabled(s: State, a: Action) {
    match a
    case NewScan(beams, startPeriod, _) =>
      s.loop.pc == Idle && s.handler.pc == Off && !s.ch.registered && startPeriod + 1 < |beams|
    case Begin(_, _, _) =>
      s.loop.pc == Idle && s.ch.registered && (var st := s.ch.state.At(s.sw.active); st == Trigger || st == Inactive)
    case Loop(_) => LoopEnabled(s)
    case Handler => HandlerEnabled(s)
    case SetParameters(_) => SetParametersEnabled(s)
    case GetParameters => GetParametersEnabled(s)
    case OtherSetActive => true
    case OtherSwing => s.loop.pc == Idle && !s.ch.registered
  }

  /** SET_ACTIVE, SET_PARAMETERS and initialize_channel: the first period goes into the active swing. */
  function StartScan(s: State, beams: seq<int>, startPeriod: nat, firstFreq: int): State
    requires startPeriod < |beams|
  {
    var first := Params(beams[startPeriod], firstFreq);
    var armed := if s.ch.state.At(s.sw.active) == Inactive
                 then s.ch.state.With(s.sw.active, Ready) else s.ch.state;
    s.(scan := ScanManager(beams, startPeriod, Some(firstFreq), None, true, false, true),
       ch := s.ch.(triggered := [], ctrlprm := first, state := armed, registered := true),
       gpu := s.gpu.With(s.sw.active, Some(first)),
       loop := s.loop.(swingInvalid := false),
       handler := s.handler.(pc := WaitReady),
       log := Log([], 0, [firstFreq], startPeriod, s.sw.active, false))
  }

  function Next(s: State, a: Action): State
    requires Enabled(s, a)
  {
    match a
    case NewScan(beams, startPeriod, firstFreq) => StartScan(s, beams, startPeriod, firstFreq)
    case Begin(forced, nSeq, othersTransmit) => BeginSwing(s, forced, nSeq, othersTransmit)
    case Loop(freq) => LoopNext(s, freq)
    case Handler => HandlerNext(s)
    case SetParameters(received) => s.(ch := s.ch.(ctrlprm := received))
    case GetParameters => s.(ch := s.ch.(ctrlprm := s.scan.CurrentParams()))
    case OtherSetActive =>
      s.(loop := s.loop.(swingInvalid := false), log := s.log.(cleared := s.log.cleared || s.loop.swingInvalid))
    case OtherSwing => s.(sw := SwitchSwings(s.sw.(nextToTrigger := s.sw.processing)))
  }

  /** The two places where the accesses of the threads may interleave badly: trigger_next_swing
      starts between the two halves of SET_READY, or the handler writes the shared parameter
      structure between the loop's own write and its copy to the GPU. */
  predicate Racy(s: State, a: Action) {
    || (a.Begin? && s.handler.pc == PushSwing)
    || (s.loop.pc == Copy && (a.SetParameters? || a.GetParameters? || (a.Handler? && s.handler.pc == Refresh)))
  }

  predicate IsRun(ss: seq<State>, acts: seq<Action>) {
    && |ss| == |acts| + 1
    && IsInit(ss[0])
    && forall k :: 0 <= k < |acts| ==> Enabled(ss[k], acts[k]) && ss[k + 1] == Next(ss[k], acts[k])
  }

  predicate RaceFree(ss: seq<State>, acts: seq<Action>)
    requires |ss| == |acts| + 1
  {
    forall k :: 0 <= k < |acts| ==> !Racy(ss[k], acts[k])
  }
}
