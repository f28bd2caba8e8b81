/** One uninterrupted call of trigger_next_swing, described by what a caller sees before and after it. */
module SwingCall {
  import opened Wrappers
  import opened SwingPipeline
  import opened SwingInvariant
  import opened SwingTheorems

  /** Where the rest of a call leads when the handler does not interfere. */
  function RunCall(s: State, freq: int): (t: State)
    requires Scanning(s)
    ensures Scanning(t) && t.loop.pc == Idle
    ensures t.log.calls == s.log.calls && t.scan.beams == s.scan.beams && t.handler == s.handler
    ensures t.log.delivered == s.log.delivered && t.log.start == s.log.start && t.log.upcoming == s.log.upcoming
    ensures t.loop.transmitting == s.loop.transmitting
    decreases 15 - Rank(s.loop.pc)
  {
    if s.loop.pc == Idle then s
    else
      LoopNeverFails(s);
      LoopKept(s, freq);
      SameUpcoming(s, freq);
      RunCall(LoopNext(s, freq), freq)
  }

  lemma SameUpcoming(s: State, freq: int)
    requires LoopEnabled(s)
    ensures LoopNext(s, freq).log.upcoming == s.log.upcoming && LoopNext(s, freq).loop.transmitting == s.loop.transmitting
  {}

  /** The rest of the call can be performed, and ends in `end`. */
  predicate Leads(s: State, freq: int, end: State)
    decreases 15 - Rank(s.loop.pc)
  {
    if s.loop.pc == Idle then s == end else LoopEnabled(s) && Leads(LoopNext(s, freq), freq, end)
  }

  lemma {:induction false} RunCallLeads(s: State, freq: int)
    requires Scanning(s)
    ensures Leads(s, freq, RunCall(s, freq))
    decreases 15 - Rank(s.loop.pc)
  {
    if s.loop.pc != Idle {
      LoopNeverFails(s);
      LoopKept(s, freq);
      RunCallLeads(LoopNext(s, freq), freq);
    }
  }

  /** One step of the loop; the frequency matters only where the next period is prepared. */
  lemma LeadsOn(s: State, t: State, freq: int, end: State)
    requires Leads(s, freq, end) && s.loop.pc != Idle
    requires LoopEnabled(s) && (t == LoopNext(s, freq) || (s.loop.pc != Load && t == LoopNext(s, 0)))
    ensures Leads(t, freq, end) && (t.loop.pc != Idle ==> LoopEnabled(t))
  {}

  // ---------------------------------------------------------------- before and after

  /** A swing may be triggered: the channel is registered, and its active swing is armed. */
  predicate MayBegin(s: State) { Scanning(s) && s.handler.pc != PushSwing && Enabled(s, Begin(false, 0, false)) }

  /** What a call leaves alone or counts. */
  predicate OneMoreCall(s: State, t: State, freq: int) {
    && Scanning(t) && t.loop.pc == Idle && t.handler == s.handler
    && t.log.calls == s.log.calls + 1 && t.log.upcoming == Other(s.log.upcoming)
    && t.log.delivered == s.log.delivered && t.log.start == s.log.start && t.scan.beams == s.scan.beams
    && (t.log.freqs == s.log.freqs || t.log.freqs == s.log.freqs + [freq])
    && SwingsChanged(s, t)
  }

  /** The swings have changed places, and the one that SET_READY triggers next is the active one. */
  predicate SwingsChanged(s: State, t: State) {
    t.sw == SwingManager(s.sw.processing, s.sw.active, s.sw.processing)
  }

  /** The scan went on by one period, or the channel was removed in its last one. */
  predicate PeriodAdvanced(s: State, t: State, freq: int) {
    && t.ch.registered == !s.scan.IsLastPeriod()
    && t.scan == ScanManager(
         s.scan.beams,
         if s.scan.isPrePeriod || s.scan.IsLastPeriod() then s.scan.period else s.scan.period + 1,
         if s.scan.next.Some? then s.scan.next else s.scan.current,
         if t.scan.IsLastPeriod() then None else Some(freq),
         false, s.scan.IsLastPeriod(), false)
    && t.log.freqs == s.log.freqs + (if t.scan.IsLastPeriod() then [] else [freq])
  }

  /** On the GPU, the swing on the air holds the current period, and the other one the next; what is
      not needed any more has been removed. */
  predicate SwingsLoaded(t: State) {
    && 0 <= t.scan.period < |t.scan.beams| && t.scan.current.Some?
    && t.gpu.At(t.sw.processing) == (if t.ch.registered then Some(t.scan.CurrentParams()) else None)
    && (!t.scan.IsLastPeriod() ==> t.scan.period + 1 < |t.scan.beams| && t.scan.next.Some?)
    && t.gpu.At(t.sw.active) == (if t.scan.IsLastPeriod() then None
                                 else Some(Params(t.scan.beams[t.scan.period + 1], t.scan.next.value)))
  }

  /** The swing triggered is on the air; the samples of the other one are ready, or it is the second one
      of the scan and was triggered at once. */
  predicate StatesChanged(s: State, t: State) {
    && t.ch.state.At(t.sw.processing) == (if s.scan.IsLastPeriod() then Inactive else Processing)
    && t.ch.state.At(t.sw.active) == (if s.scan.isPrePeriod then Trigger else SamplesReady)
    && t.ch.triggered == (if s.scan.isFirstPeriod then [t.sw.active] else []) + s.ch.triggered
  }

  /** A result for the swing just triggered is queued, and the one of the swing read out is labelled with
      what was current when the call began, and filled unless it was flagged invalid. */
  predicate ResultsFilled(s: State, t: State, nSeq: nat, fire: bool) {
    var queued := if s.scan.IsLastPeriod() then [] else [Result(None, None, nSeq, true, fire, false)];
    if s.scan.isPrePeriod then t.ch.results == queued + s.ch.results
    else
      && |s.ch.results| == 1 && |t.ch.results| == |queued| + 1 && t.ch.results[..|queued|] == queued
      && 0 <= s.scan.period < |s.scan.beams| && s.scan.current.Some?
      && var r := t.ch.results[|queued|];
         Faithful(r, s.scan.CurrentParams()) && r.fired == s.ch.results[0].fired && r.valid == !s.loop.swingInvalid
         && (r.valid ==> r.nSequences == s.ch.results[0].nSequences)
  }

  predicate Called(s: State, t: State, nSeq: nat, fire: bool, freq: int) {
    && OneMoreCall(s, t, freq)
    && PeriodAdvanced(s, t, freq) && SwingsLoaded(t) && StatesChanged(s, t)
    && ResultsFilled(s, t, nSeq, fire) && t.loop.swingInvalid == !fire
  }

  /** The call is the first one, or the last one, of its scan. */
  lemma CallNumber(s: State, t: State, freq: int)
    requires ShapeInv(s) && ScanInv(s) && ShapeInv(t) && ScanInv(t)
    requires s.loop.pc == Idle && t.loop.pc == Idle && s.ch.registered
    requires t.log.calls == s.log.calls + 1 && t.log.start == s.log.start && t.scan.beams == s.scan.beams
    ensures s.log.calls <= Periods(s) == Periods(t) && (s.scan.IsLastPeriod() <==> s.log.calls == Periods(s))
    ensures s.scan.isPrePeriod == s.scan.isFirstPeriod == (s.log.calls == 0)
    ensures t.scan.IsLastPeriod() <==> t.log.calls >= Periods(t)
    ensures 0 <= s.scan.period < |s.scan.beams| && s.scan.current.Some?
    ensures 0 <= t.scan.period < |t.scan.beams| && t.scan.current.Some?
  {}

  lemma PeriodAfter(s: State, t: State, freq: int)
    requires MayBegin(s) && OneMoreCall(s, t, freq)
    ensures PeriodAdvanced(s, t, freq)
  {
    CallNumber(s, t, freq);
    FrequencyAfter(s, t, freq);
  }

  lemma FrequencyAfter(s: State, t: State, freq: int)
    requires ShapeInv(s) && ScanInv(s) && ShapeInv(t) && ScanInv(t)
    requires s.loop.pc == Idle && t.loop.pc == Idle && s.log.calls <= Periods(s) == Periods(t)
    requires t.log.calls == s.log.calls + 1
    requires t.log.freqs == s.log.freqs || t.log.freqs == s.log.freqs + [freq]
    ensures t.scan.current == if s.scan.next.Some? then s.scan.next else s.scan.current
    ensures t.scan.next == if t.log.calls >= Periods(t) then None else Some(freq)
    ensures t.log.freqs == s.log.freqs + if t.log.calls >= Periods(t) then [] else [freq]
  {}

  lemma LoadedAfter(s: State, t: State, freq: int)
    requires MayBegin(s) && OneMoreCall(s, t, freq)
    ensures SwingsLoaded(t)
  {
    CallNumber(s, t, freq);
    assert t.sw.active == t.log.upcoming;
    SwingsHold(t);
  }

  lemma SwingsHold(t: State)
    requires ShapeInv(t) && SwingManagerInv(t) && DataInv(t) && t.loop.pc == Idle && t.log.calls >= 1
    requires t.sw.active == t.log.upcoming
    requires t.scan.IsLastPeriod() <==> t.log.calls >= Periods(t)
    ensures SwingsLoaded(t)
  {}

  lemma StatesAfter(s: State, t: State, freq: int)
    requires MayBegin(s) && OneMoreCall(s, t, freq)
    ensures StatesChanged(s, t)
  {
    CallNumber(s, t, freq);
    CallHandler(s, t);
    QueueAfter(s, t, freq);
    assert t.sw.active == t.log.upcoming;
  }

  /** A call begins only when GET_DATA has returned all but the last two periods. */
  lemma CallHandler(s: State, t: State)
    requires ControlInv(s) && ControlInv(t) && s.loop.pc == Idle && t.loop.pc == Idle && s.log.calls <= Periods(s)
    requires t.log.calls == s.log.calls + 1 && t.log.start == s.log.start && t.scan.beams == s.scan.beams
    requires t.handler == s.handler && t.log.delivered == s.log.delivered
    ensures t.handler.pc != Off
    ensures s.log.calls >= 1 ==> t.log.calls == Round(t) + 2 && |t.log.delivered| == Round(t)
  {}

  lemma ResultsAfter(s: State, t: State, freq: int)
    requires MayBegin(s) && OneMoreCall(s, t, freq)
    ensures !s.scan.isPrePeriod ==>
              && |s.ch.results| == 1 && 0 <= s.scan.period < |s.scan.beams| && s.scan.current.Some?
              && FlagFits(s, s.ch.results[0])
              && |t.ch.results| == (if s.scan.IsLastPeriod() then 1 else 2)
              && Faithful(t.ch.results[|t.ch.results| - 1], s.scan.CurrentParams())
  {
    CallNumber(s, t, freq);
    CallHandler(s, t);
    if s.log.calls >= 1 {
      OneWaiting(s);
      OldestFaithful(s, t);
    }
  }

  lemma OneWaiting(s: State)
    requires QueuesInv(s) && s.loop.pc == Idle && 1 <= s.log.calls <= Periods(s)
    requires s.log.calls == |s.log.delivered| + 1
    ensures |s.ch.results| == 1 && FlagFits(s, s.ch.results[0])
  {}

  lemma OldestFaithful(s: State, t: State)
    requires ShapeInv(s) && ScanInv(s) && ResultsInv(t) && s.loop.pc == Idle && t.loop.pc == Idle
    requires 1 <= s.log.calls <= Periods(s) && t.log.calls == s.log.calls + 1 == |t.log.delivered| + 2
    requires s.log.freqs <= t.log.freqs && t.log.start == s.log.start && t.scan.beams == s.scan.beams
    requires 0 <= s.scan.period < |s.scan.beams| && s.scan.current.Some?
    ensures |t.ch.results| == if s.log.calls == Periods(s) then 1 else 2
    ensures Faithful(t.ch.results[|t.ch.results| - 1], s.scan.CurrentParams())
  {
    assert ResultInv(t, |t.log.delivered|, t.ch.results[|t.ch.results| - 1]);
  }

  /** What USRP_TRIGGER queues. */
  function Queued(s: State): seq<Result> {
    if s.loop.transmitting && !s.scan.IsLastPeriod()
    then [Result(None, None, s.loop.nSequences, true, s.loop.fire, false)] else []
  }

  /** The oldest result is read out: it is valid unless flagged, and how it was triggered stays. */
  predicate ReadOutOldest(s: State, rs: seq<Result>) {
    && |rs| == |s.ch.results| && (forall k :: 0 <= k < |rs| - 1 ==> rs[k] == s.ch.results[k])
    && (s.ch.state.At(s.sw.processing) != Processing ==> rs == s.ch.results)
    && (rs != [] ==>
          var r, r' := s.ch.results[|rs| - 1], rs[|rs| - 1];
          && r'.fired == r.fired && (r'.valid ==> r'.nSequences == r.nSequences)
          && (s.ch.state.At(s.sw.processing) == Processing ==> r'.valid == !s.loop.swingInvalid))
  }

  /** The result to be read out is valid so far. */
  predicate ValidSoFar(s: State) {
    s.ch.state.At(s.sw.processing) == Processing ==> s.ch.results != [] && s.ch.results[|s.ch.results| - 1].valid
  }

  lemma StoreReached(s: State)
    requires Scanning(s) && s.loop.pc == Insert
    ensures ValidSoFar(LoopNext(LoopNext(s, 0), 0))
  {
    var fire := LoopNext(s, 0);
    LoopKept(s, 0);
    FireReached(fire);
  }

  lemma FireReached(s: State)
    requires Scanning(s) && s.loop.pc == Fire
    ensures ValidSoFar(LoopNext(s, 0))
  {
    var store := LoopNext(s, 0);
    LoopKept(s, 0);
    if store.ch.state.At(store.sw.processing) == Processing { StoreLast(store); }
  }

  lemma CallBegins(s: State, forced: bool, nSeq: nat, othersTransmit: bool, freq: int)
    returns (start: State, end: State)
    requires MayBegin(s)
    ensures start == BeginSwing(s, forced, nSeq, othersTransmit) && Scanning(start) && LoopEnabled(start)
    ensures end == RunCall(start, freq) && Leads(start, freq, end)
    ensures ValidSoFar(LoopNext(LoopNext(start, 0), 0))
  {
    StepKept(s, Begin(forced, nSeq, othersTransmit));
    start := BeginSwing(s, forced, nSeq, othersTransmit);
    LoopNeverFails(start);
    end := RunCall(start, freq);
    RunCallLeads(start, freq);
    StoreReached(start);
  }

  lemma CallEnds(s: State, start: State, t: State, forced: bool, nSeq: nat, othersTransmit: bool, freq: int)
    requires MayBegin(s) && start == BeginSwing(s, forced, nSeq, othersTransmit) && Scanning(start)
    requires t == RunCall(start, freq) && t.loop.swingInvalid == !start.loop.fire
    requires t.sw == SwitchSwings(start.sw)
    requires t.log.freqs == s.log.freqs || t.log.freqs == s.log.freqs + [freq]
    requires ReadOutOldest(LoopNext(LoopNext(start, 0), 0), t.ch.results)
    ensures Called(s, t, nSeq, forced || nSeq != 0, freq)
  {
    ReadOutSince(s, forced, nSeq, othersTransmit, t.ch.results);
    Counted(s, start, t, freq);
    CallEffect(s, t, nSeq, forced || nSeq != 0, freq);
  }

  lemma Counted(s: State, start: State, t: State, freq: int)
    requires start.handler == s.handler && start.log == s.log.(calls := s.log.calls + 1, upcoming := Other(s.log.upcoming))
    requires start.scan == s.scan && start.sw == s.sw.(nextToTrigger := s.sw.processing)
    requires Scanning(start) && t == RunCall(start, freq) && t.sw == SwitchSwings(start.sw)
    requires t.log.freqs == s.log.freqs || t.log.freqs == s.log.freqs + [freq]
    requires s.sw.processing == Other(s.sw.active)
    ensures OneMoreCall(s, t, freq)
  {}

  lemma ReadOutSince(s: State, forced: bool, nSeq: nat, othersTransmit: bool, rs: seq<Result>)
    requires MayBegin(s)
    requires ReadOutOldest(LoopNext(LoopNext(BeginSwing(s, forced, nSeq, othersTransmit), 0), 0), rs)
    ensures var queued := if s.scan.IsLastPeriod() then [] else [Result(None, None, nSeq, true, forced || nSeq != 0, false)];
      ReadOutOldest(s.(ch := s.ch.(results := queued + s.ch.results)), rs)
  {
    Begun(s, forced, nSeq, othersTransmit);
  }

  lemma Begun(s: State, forced: bool, nSeq: nat, othersTransmit: bool)
    requires MayBegin(s)
    ensures var store := LoopNext(LoopNext(BeginSwing(s, forced, nSeq, othersTransmit), 0), 0);
      var queued := if s.scan.IsLastPeriod() then [] else [Result(None, None, nSeq, true, forced || nSeq != 0, false)];
      && store.ch.results == queued + s.ch.results && store.loop.swingInvalid == s.loop.swingInvalid
      && store.ch.state.At(store.sw.processing) == s.ch.state.At(s.sw.processing)
  {}

  lemma FirstCallReadsNothing(s: State)
    requires MayBegin(s) && s.scan.isPrePeriod
    ensures s.ch.state.At(s.sw.processing) == Inactive
  {}

  lemma CallEffect(s: State, t: State, nSeq: nat, fire: bool, freq: int)
    requires MayBegin(s) && OneMoreCall(s, t, freq) && t.loop.swingInvalid == !fire
    requires var queued := if s.scan.IsLastPeriod() then [] else [Result(None, None, nSeq, true, fire, false)];
      ReadOutOldest(s.(ch := s.ch.(results := queued + s.ch.results)), t.ch.results)
    ensures Called(s, t, nSeq, fire, freq)
  {
    PeriodAfter(s, t, freq);
    LoadedAfter(s, t, freq);
    StatesAfter(s, t, freq);
    ResultsAfter(s, t, freq);
    if s.scan.isPrePeriod { FirstCallReadsNothing(s); } else { OnAir(s); }
  }

  lemma OnAir(s: State)
    requires MayBegin(s) && !s.scan.isPrePeriod
    ensures s.ch.state.At(s.sw.processing) == Processing
  {}

  lemma QueueAfter(s: State, t: State, freq: int)
    requires MayBegin(s) && OneMoreCall(s, t, freq)
    ensures t.ch.triggered == (if s.scan.isFirstPeriod then [t.sw.active] else []) + s.ch.triggered
  {}

  // ---------------------------------------------------------------- SET_READY and GET_DATA

  /** The three steps of SET_READY. */
  function SetReady(s: State): State
    requires s.handler.pc == WaitReady && HandlerEnabled(s)
  {
    HandlerNext(HandlerNext(HandlerNext(s)))
  }

  /** GET_DATA need not wait. */
  predicate DataReady(s: State) {
    && s.handler.pc == Refresh && HandlerEnabled(s) && s.ch.results != []
    && s.ch.triggered != [] && s.ch.state.At(s.ch.triggered[|s.ch.triggered| - 1]) == SamplesReady
  }

  /** The five steps of GET_DATA. */
  function GetData(s: State): State
    requires DataReady(s)
  {
    HandlerNext(HandlerNext(HandlerNext(HandlerNext(HandlerNext(s)))))
  }

  /** Both threads are at rest, and the samples of all but the period on the air were returned. */
  predicate BetweenPeriods(s: State) {
    Scanning(s) && s.loop.pc == Idle && s.handler.pc == WaitReady && s.log.calls == |s.log.delivered| + 1
  }

  lemma SetReadyEnables(s: State)
    requires Scanning(s) && s.loop.pc == Idle && s.handler.pc == WaitReady
    ensures HandlerEnabled(s) && MayBegin(SetReady(s)) && SetReady(s).handler.pc == Refresh
  {
    HandlerKept(s);
    var trigger := HandlerNext(s);
    HandlerKept(trigger);
    var push := HandlerNext(trigger);
    HandlerKept(push);
    Armed(HandlerNext(push));
  }

  lemma Armed(s: State)
    requires Scanning(s) && s.loop.pc == Idle && s.handler.pc == Refresh
    requires s.log.calls == 0 || s.log.calls == |s.log.delivered| + 1
    ensures MayBegin(s)
  {}

  lemma DataIsReady(s: State)
    requires Scanning(s) && s.loop.pc == Idle && s.handler.pc == Refresh && s.log.calls == |s.log.delivered| + 2
    ensures DataReady(s)
  {}

  lemma GetDataKept(s: State)
    requires Scanning(s) && s.loop.pc == Idle && DataReady(s)
    ensures Scanning(GetData(s))
  {
    HandlerKept(s);
    var pop := HandlerNext(s);
    HandlerKept(pop);
    SamplesTaken(HandlerNext(pop));
  }

  lemma SamplesTaken(s: State)
    requires Scanning(s) && s.handler.pc == WaitSamples && HandlerEnabled(s) && s.ch.results != []
    ensures Scanning(HandlerNext(HandlerNext(HandlerNext(s))))
  {
    HandlerKept(s);
    var ret := HandlerNext(s);
    HandlerKept(ret);
    HandlerKept(HandlerNext(ret));
  }

  // ---------------------------------------------------------------- a whole scan

  /** What a scan is asked to do: its beams from the start period on, and for each of its periods the
      frequency and the number of sequences the clock leaves time for. */
  datatype Plan = Plan(beams: seq<int>, start: nat, freqs: seq<int>, nSeqs: seq<nat>) {
    predicate Valid() { start + 1 < |beams| && |freqs| == |nSeqs| == |beams| - start }

    function Length(): int { |beams| - start }

    function Freq(j: nat): int
      requires Valid()
    {
      if j < Length() then freqs[j] else 0
    }

    /** How period j was triggered. */
    predicate Fired(r: Result, j: nat)
      requires Valid() && j < Length()
    {
      r.fired == (nSeqs[j] != 0) && (r.valid ==> r.nSequences == nSeqs[j])
    }

    /** The result GET_DATA returns for period j. */
    function Expected(j: nat): Result
      requires Valid() && j < Length()
    {
      var p := Params(beams[start + j], freqs[j]);
      var fired := nSeqs[j] != 0;
      Result(if fired then Some(Samples(Some(p), p)) else None, Some(p), nSeqs[j], fired, fired, false)
    }
  }

  /** k periods were returned, one is on the air, and the parameters of the one after it are loaded. */
  predicate Returned(s: State, plan: Plan, k: nat)
    requires plan.Valid()
  {
    Scanning(s) && Progressed(s, plan, k)
  }

  predicate Progressed(s: State, plan: Plan, k: nat)
    requires plan.Valid()
  {
    && s.loop.pc == Idle && 1 <= k <= plan.Length() && s.handler.pc == (if k < plan.Length() then WaitReady else Off)
    && s.log.calls == k + 1 && |s.log.delivered| == k && s.scan.beams == plan.beams && s.log.start == plan.start
    && s.log.freqs == plan.freqs[..Min(plan.Length(), k + 2)]
    && (k < plan.Length() ==>
          |s.ch.results| == 1 && plan.Fired(s.ch.results[0], k) && s.ch.results[0].valid
          && s.loop.swingInvalid == (plan.nSeqs[k] == 0))
    && forall j :: 0 <= j < k ==> plan.Fired(s.log.delivered[j], j) && s.log.delivered[j].valid == (plan.nSeqs[j] != 0)
  }

  /** The whole scan was returned as planned, and both threads are at rest. */
  lemma ScanReturned(s: State, plan: Plan)
    requires plan.Valid() && Returned(s, plan, plan.Length())
    ensures |s.log.delivered| == plan.Length()
    ensures forall j :: 0 <= j < plan.Length() ==> s.log.delivered[j] == plan.Expected(j)
    ensures !s.ch.registered && s.ch.results == [] && s.ch.state == Both(Inactive, Inactive)
    ensures s.gpu == Both(None, None) && Inv(s) && s.loop.pc == Idle && s.handler.pc == Off
  {
    forall j: nat | j < plan.Length() ensures s.log.delivered[j] == plan.Expected(j) {
      AsExpected(s, plan, j);
    }
    AtRest(s, plan);
  }

  lemma AsExpected(s: State, plan: Plan, j: nat)
    requires plan.Valid() && Returned(s, plan, plan.Length()) && j < plan.Length()
    ensures s.log.delivered[j] == plan.Expected(j)
  {
    assert ResultInv(s, j, s.log.delivered[j]);
    assert plan.Fired(s.log.delivered[j], j);
  }

  lemma AtRest(s: State, plan: Plan)
    requires plan.Valid() && Returned(s, plan, plan.Length())
    ensures !s.ch.registered && s.ch.results == [] && s.ch.state == Both(Inactive, Inactive)
    ensures s.gpu == Both(None, None) && s.loop.pc == Idle && s.handler.pc == Off
  {
    assert s.ch.state.At(Zero) == Inactive && s.ch.state.At(One) == Inactive;
    assert s.gpu.At(Zero) == None && s.gpu.At(One) == None;
  }

  /** SET_READY, one call and GET_DATA, seen from outside. */
  predicate Served(s: State, t: State, nSeq: nat, fire: bool, freq: int) {
    Scanning(t) && ServedResult(s, t, nSeq, fire, freq)
  }

  predicate ServedResult(s: State, t: State, nSeq: nat, fire: bool, freq: int) {
    var last := s.scan.IsLastPeriod();
    && t.loop.pc == Idle
    && t.log.calls == s.log.calls + 1 && t.log.start == s.log.start && t.scan.beams == s.scan.beams
    && t.log.freqs == s.log.freqs + (if t.scan.IsLastPeriod() then [] else [freq])
    && |s.ch.results| == 1 && |t.log.delivered| == |s.log.delivered| + 1 && s.log.delivered <= t.log.delivered
    && (var r, q := t.log.delivered[|s.log.delivered|], s.ch.results[0];
        r.fired == q.fired && r.valid == !s.loop.swingInvalid && (r.valid ==> r.nSequences == q.nSequences))
    && t.ch.results == (if last then [] else [Result(None, None, nSeq, true, fire, false)])
    && t.loop.swingInvalid == !fire
    && t.handler.pc == (if |t.log.delivered| < |t.scan.beams| - t.log.start then WaitReady else Off)
  }

  /** It does not matter how the last call is made, which triggers nothing for this channel. */
  lemma NextReturned(s: State, t: State, plan: Plan, k: nat, nSeq: nat, fire: bool)
    requires plan.Valid() && k < plan.Length() && Returned(s, plan, k)
    requires k + 1 < plan.Length() ==> nSeq == plan.nSeqs[k + 1] && fire == (nSeq != 0)
    requires Served(s, t, nSeq, fire, plan.Freq(k + 2))
    ensures Returned(t, plan, k + 1)
  {
    ServedPeriod(s, t);
    NextProgressed(s, t, plan, k, nSeq, fire);
  }

  lemma NextProgressed(s: State, t: State, plan: Plan, k: nat, nSeq: nat, fire: bool)
    requires plan.Valid() && k < plan.Length() && Progressed(s, plan, k)
    requires k + 1 < plan.Length() ==> nSeq == plan.nSeqs[k + 1] && fire == (nSeq != 0)
    requires ServedResult(s, t, nSeq, fire, plan.Freq(k + 2))
    requires s.scan.IsLastPeriod() <==> s.log.calls == Periods(s)
    requires t.scan.IsLastPeriod() <==> t.log.calls >= Periods(t)
    ensures Progressed(t, plan, k + 1)
  {
    assert plan.freqs[..Min(plan.Length(), k + 3)]
           == plan.freqs[..Min(plan.Length(), k + 2)] + if k + 2 < plan.Length() then [plan.freqs[k + 2]] else [];
  }

  lemma ServedPeriod(s: State, t: State)
    requires ShapeInv(s) && ScanInv(s) && ShapeInv(t) && ScanInv(t) && s.loop.pc == Idle && t.loop.pc == Idle
    requires t.log.calls == s.log.calls + 1 && t.log.start == s.log.start && t.scan.beams == s.scan.beams
    requires 1 <= s.log.calls <= Periods(s)
    ensures s.scan.IsLastPeriod() <==> s.log.calls == Periods(s)
    ensures t.scan.IsLastPeriod() <==> t.log.calls >= Periods(t)
  {}

  lemma SetReadyFrame(s: State)
    requires s.handler.pc == WaitReady && HandlerEnabled(s)
    ensures var t := SetReady(s); t.log == s.log && t.scan == s.scan && t.loop == s.loop && t.ch.results == s.ch.results
  {}

  lemma GetDataFrame(s: State)
    requires DataReady(s)
    ensures var t := GetData(s); var last := |s.ch.results| - 1;
      && t.log == s.log.(delivered := s.log.delivered + [s.ch.results[last]]) && t.ch.results == s.ch.results[..last]
      && t.scan == s.scan && t.loop == s.loop
      && t.handler.pc == (if |t.log.delivered| < |t.scan.beams| - t.log.start then WaitReady else Off)
  {}

  /** A call in which a result is read out, between a SET_READY and a GET_DATA. */
  lemma ServedOnce(s: State, nSeq: nat, fire: bool, freq: int, u: State)
    requires BetweenPeriods(s) && HandlerEnabled(s) && !s.scan.isPrePeriod
    requires Called(SetReady(s), u, nSeq, fire, freq) && DataReady(u)
    ensures Served(s, GetData(u), nSeq, fire, freq)
  {
    SetReadyFrame(s);
    GetDataKept(u);
    GetDataFrame(u);
    ServedCall(s, SetReady(s), u, GetData(u), nSeq, fire, freq);
  }

  lemma ServedCall(s: State, r: State, u: State, t: State, nSeq: nat, fire: bool, freq: int)
    requires r.log == s.log && r.scan == s.scan && r.loop == s.loop && r.ch.results == s.ch.results
    requires ResultsFilled(r, u, nSeq, fire) && PeriodAdvanced(r, u, freq) && !s.scan.isPrePeriod
    requires u.log.calls == s.log.calls + 1 && u.log.start == s.log.start && u.scan.beams == s.scan.beams
    requires u.log.delivered == s.log.delivered && u.loop.pc == Idle && u.loop.swingInvalid == !fire
    requires Scanning(t) && u.ch.results != []
    requires var last := |u.ch.results| - 1;
      && t.log == u.log.(delivered := u.log.delivered + [u.ch.results[last]]) && t.ch.results == u.ch.results[..last]
    requires t.scan == u.scan && t.loop == u.loop
    requires t.handler.pc == (if |t.log.delivered| < |t.scan.beams| - t.log.start then WaitReady else Off)
    ensures Served(s, t, nSeq, fire, freq)
  {}

  /** A scan has begun and nothing was triggered yet. */
  predicate ScanStarted(s: State, plan: Plan)
    requires plan.Valid()
  {
    && Scanning(s) && s.loop.pc == Idle && s.handler.pc == WaitReady && s.log.calls == 0 && s.log.delivered == []
    && s.ch.results == [] && s.scan.beams == plan.beams && s.log.start == plan.start && s.log.freqs == [plan.freqs[0]]
    && s.scan.isPrePeriod && s.scan.period == plan.start
  }

  lemma ScanStarts(s: State, plan: Plan)
    requires plan.Valid() && Inv(s) && Enabled(s, NewScan(plan.beams, plan.start, plan.freqs[0]))
    ensures ScanStarted(StartScan(s, plan.beams, plan.start, plan.freqs[0]), plan)
  {
    NewScanKept(s, NewScan(plan.beams, plan.start, plan.freqs[0]));
  }

  lemma FirstTwoCalls(s: State, u: State, v: State, plan: Plan)
    requires plan.Valid() && ScanStarted(s, plan) && HandlerEnabled(s)
    requires Called(SetReady(s), u, plan.nSeqs[0], plan.nSeqs[0] != 0, plan.Freq(1))
    requires Called(u, v, plan.nSeqs[1], plan.nSeqs[1] != 0, plan.Freq(2)) && DataReady(v)
    ensures Returned(GetData(v), plan, 1)
  {
    SetReadyFrame(s);
    GetDataKept(v);
    GetDataFrame(v);
    FirstReturned(s, u, v, GetData(v), plan);
  }

  /** The part of Called that tells periods and results. */
  predicate CalledOnce(s: State, t: State, nSeq: nat, freq: int) {
    && t.log.calls == s.log.calls + 1 && t.log.start == s.log.start && t.scan.beams == s.scan.beams
    && t.log.delivered == s.log.delivered && t.loop.pc == Idle && t.loop.swingInvalid == (nSeq == 0)
    && PeriodAdvanced(s, t, freq) && ResultsFilled(s, t, nSeq, nSeq != 0)
  }

  lemma FirstReturned(s: State, u: State, v: State, t: State, plan: Plan)
    requires plan.Valid() && s.log.delivered == [] && s.ch.results == [] && s.log.freqs == [plan.freqs[0]]
    requires s.scan.isPrePeriod && s.scan.period == plan.start && s.log.calls == 0
    requires s.scan.beams == plan.beams && s.log.start == plan.start
    requires CalledOnce(s, u, plan.nSeqs[0], plan.Freq(1)) && CalledOnce(u, v, plan.nSeqs[1], plan.Freq(2))
    requires Scanning(t) && v.ch.results != [] && v.loop.pc == Idle
    requires var last := |v.ch.results| - 1;
      && t.log == v.log.(delivered := v.log.delivered + [v.ch.results[last]]) && t.ch.results == v.ch.results[..last]
    requires t.scan == v.scan && t.loop == v.loop
    requires t.handler.pc == (if |t.log.delivered| < |t.scan.beams| - t.log.start then WaitReady else Off)
    ensures Returned(t, plan, 1)
  {
    assert plan.freqs[..Min(plan.Length(), 3)]
           == [plan.freqs[0]] + [plan.freqs[1]] + if 2 < plan.Length() then [plan.freqs[2]] else [];
  }

  lemma SamplesWaiting(s: State, u: State, nSeq: nat, freq: int)
    requires BetweenPeriods(s) && HandlerEnabled(s) && OneMoreCall(SetReady(s), u, freq)
    ensures DataReady(u)
  {
    SetReadyFrame(s);
    DataIsReady(u);
  }

  lemma SecondCallFollows(s: State, u: State, freq: int)
    requires Scanning(s) && s.handler.pc == WaitReady && HandlerEnabled(s) && s.log.calls == 0 && s.log.delivered == []
    requires OneMoreCall(SetReady(s), u, freq)
    ensures MayBegin(u)
  {
    SetReadyFrame(s);
    Armed(u);
  }

  lemma SecondCallReads(u: State, v: State, freq: int)
    requires u.handler.pc == Refresh && u.log.calls == 1 && u.log.delivered == [] && OneMoreCall(u, v, freq)
    ensures DataReady(v)
  {
    DataIsReady(v);
  }

  lemma PeriodMayBegin(s: State, plan: Plan, k: nat)
    requires plan.Valid() && k < plan.Length() && Returned(s, plan, k)
    ensures BetweenPeriods(s) && !s.scan.isPrePeriod
  {}
}
