/** What every run of the clear frequency protocol keeps, for any number of clients. */
module ClearFreqTheorems {
  import opened Wrappers
  import opened ClearFreqProtocol

  // ---------------------------------------------------------------- counting invariants

  function Turn(pc: ServerPc): nat { if pc == Await then 0 else 1 }

  /** The server works on a request it was asked for. */
  function Busy(pc: ServerPc): nat { if pc == Announce || pc == Await then 0 else 1 }

  function ServerHoldsInit(pc: ServerPc): nat { if pc.MetaRead? || pc.MetaUnlock? then 1 else 0 }

  function ServerHoldsSamples(pc: ServerPc): nat { if pc.SamplesRead? || pc.SamplesUnlock? then 1 else 0 }

  function ServerHoldsClearFreq(pc: ServerPc): nat {
    if pc.RangeRead? || pc.WriteBand? || pc.BandUnlock? then 1 else 0
  }

  /** There is one turn: announced, taken by a client, handed to the server, or being served. */
  predicate TokenInv(s: State) {
    s.sem.client + Sum(s.clients, Writer) + s.sem.server + Turn(s.server.pc) == 1
  }

  /** Every client that waits for the server is matched by a request or by an answer. */
  predicate WaitingInv(s: State) {
    Sum(s.clients, Waiter) == s.sem.processed + s.sem.server + Busy(s.server.pc)
  }

  /** Each lock is free or has one owner. */
  predicate InitLockInv(s: State) {
    s.sem.lockInit + Sum(s.clients, HoldsInit) + ServerHoldsInit(s.server.pc) == 1
  }

  predicate SamplesLockInv(s: State) {
    s.sem.lock.samples + Sum(s.clients, HoldsSamples) + ServerHoldsSamples(s.server.pc) == 1
  }

  predicate ClearFreqLockInv(s: State) {
    s.sem.lock.clearFreq + Sum(s.clients, HoldsClearFreq) + ServerHoldsClearFreq(s.server.pc) == 1
  }

  predicate LockInv(s: State) { InitLockInv(s) && SamplesLockInv(s) && ClearFreqLockInv(s) }

  predicate CountInv(s: State) { TokenInv(s) && WaitingInv(s) && LockInv(s) }

  lemma CountStart(s: State, i: nat, req: Request)
    requires CountInv(s) && Enabled(s, Start(i, req))
    ensures CountInv(Next(s, Start(i, req)))
  {
    var c := Client(Queue, req, None);
    SumUpdate(s.clients, i, c, Writer);
    SumUpdate(s.clients, i, c, Waiter);
    SumUpdate(s.clients, i, c, HoldsInit);
    SumUpdate(s.clients, i, c, HoldsSamples);
    SumUpdate(s.clients, i, c, HoldsClearFreq);
  }

  lemma TokenStep(s: State, i: nat)
    requires TokenInv(s) && Enabled(s, Step(i))
    ensures TokenInv(Next(s, Step(i)))
  {
    SumUpdate(s.clients, i, StepClient(s.clients[i], s.mem), Writer);
  }

  lemma WaitingStep(s: State, i: nat)
    requires WaitingInv(s) && Enabled(s, Step(i))
    ensures WaitingInv(Next(s, Step(i)))
  {
    SumUpdate(s.clients, i, StepClient(s.clients[i], s.mem), Waiter);
  }

  lemma InitLockStep(s: State, i: nat)
    requires InitLockInv(s) && Enabled(s, Step(i))
    ensures InitLockInv(Next(s, Step(i)))
  {
    SumUpdate(s.clients, i, StepClient(s.clients[i], s.mem), HoldsInit);
  }

  lemma SamplesLockStep(s: State, i: nat)
    requires SamplesLockInv(s) && Enabled(s, Step(i))
    ensures SamplesLockInv(Next(s, Step(i)))
  {
    SumUpdate(s.clients, i, StepClient(s.clients[i], s.mem), HoldsSamples);
  }

  lemma ClearFreqLockStep(s: State, i: nat)
    requires ClearFreqLockInv(s) && Enabled(s, Step(i))
    ensures ClearFreqLockInv(Next(s, Step(i)))
  {
    SumUpdate(s.clients, i, StepClient(s.clients[i], s.mem), HoldsClearFreq);
  }

  lemma CountServe(s: State, value: int)
    requires TokenInv(s) && WaitingInv(s) && Enabled(s, Serve(value))
    ensures TokenInv(Next(s, Serve(value))) && WaitingInv(Next(s, Serve(value)))
  {}

  lemma LockServe(s: State, value: int)
    requires LockInv(s) && Enabled(s, Serve(value))
    ensures LockInv(Next(s, Serve(value)))
  {}

  lemma CountKept(s: State, a: Action)
    requires CountInv(s) && Enabled(s, a)
    ensures CountInv(Next(s, a))
  {
    match a
    case Start(i, req) => CountStart(s, i, req);
    case Step(i) =>
      TokenStep(s, i);
      WaitingStep(s, i);
      InitLockStep(s, i);
      SamplesLockStep(s, i);
      ClearFreqLockStep(s, i);
    case Serve(value) =>
      CountServe(s, value);
      LockServe(s, value);
  }

  // ---------------------------------------------------------------- whose turn it is

  /** Position of the turn: what its holder or the server did with it so far. */
  predicate HolderWrites(s: State) { s.holder < |s.clients| && Writer(s.clients[s.holder]) == 1 }

  /** The request was handed over and the server has not tried the flags of its kind yet. */
  predicate Asked(s: State) { s.sem.server > 0 || s.server.pc == TryInit }

  predicate HoldersInv(s: State) {
    forall i :: 0 <= i < |s.clients| && Writer(s.clients[i]) == 1 ==>
      && i == s.holder && s.clients[i].req == s.turn
      && (var pc := s.clients[i].pc;
          pc.InitLock? || pc.InitWrite? || pc.InitUnlock? || pc.InitFlag? ==> s.turn.kind == Samples)
  }

  function ExpectedInit(s: State): nat {
    if s.turn.kind == ClearFreq then 0
    else if Asked(s) then 1
    else if HolderWrites(s) then
      var pc := s.clients[s.holder].pc;
      if pc.Lock? || pc.Write? || pc.Unlock? || pc.Flag? || pc.Ask? then 1 else 0
    else 0
  }

  function ExpectedFlag(s: State): nat {
    var pc := s.server.pc;
    if Asked(s) || pc.MetaLock? || pc.MetaRead? || pc.MetaUnlock? || pc.TrySamples? || pc.TryClearFreq? then 1
    else if HolderWrites(s) && s.clients[s.holder].pc.Ask? then 1
    else 0
  }

  predicate FlagInv(s: State) {
    && s.sem.init == ExpectedInit(s)
    && s.sem.flag.At(s.turn.kind) == ExpectedFlag(s)
    && s.sem.flag.At(if s.turn.kind == Samples then ClearFreq else Samples) == 0
  }

  predicate BranchInv(s: State) {
    var pc := s.server.pc;
    && (pc.MetaLock? || pc.MetaRead? || pc.MetaUnlock? ==> s.turn.kind == Samples)
    && (pc.SamplesLock? || pc.SamplesRead? || pc.SamplesUnlock? || pc.WriteMuted? ==> s.turn.kind == Samples)
    && (pc.TryClearFreq? || pc.RangeLock? || pc.RangeRead? || pc.WriteBand? || pc.BandUnlock? ==>
          s.turn.kind == ClearFreq)
    && pc != Fatal
  }

  predicate TurnInv(s: State) { HoldersInv(s) && FlagInv(s) && BranchInv(s) }

  /** Nobody else writes while a client writes, and nobody while the turn is elsewhere. */
  lemma OneWriter(s: State, i: nat)
    requires TokenInv(s) && i < |s.clients| && Writer(s.clients[i]) == 1
    ensures s.sem.client == 0 && s.sem.server == 0 && s.server.pc == Await
    ensures forall j :: 0 <= j < |s.clients| && Writer(s.clients[j]) == 1 ==> j == i
  {
    SumUpdate(s.clients, i, s.clients[i], Writer);
    forall j | 0 <= j < |s.clients| && Writer(s.clients[j]) == 1 ensures j == i {
      if j != i { SumOfTwo(s.clients, i, j, Writer); }
    }
  }

  lemma NoWriter(s: State)
    requires TokenInv(s) && (s.sem.client > 0 || s.sem.server > 0 || s.server.pc != Await)
    ensures forall j :: 0 <= j < |s.clients| ==> Writer(s.clients[j]) == 0
  {
    forall j | 0 <= j < |s.clients| ensures Writer(s.clients[j]) == 0 {
      SumUpdate(s.clients, j, s.clients[j], Writer);
    }
  }

  lemma TurnStart(s: State, i: nat, req: Request)
    requires TurnInv(s) && Enabled(s, Start(i, req))
    ensures TurnInv(Next(s, Start(i, req)))
  {
    var t := Next(s, Start(i, req));
    assert forall j :: 0 <= j < |t.clients| && j != i ==> t.clients[j] == s.clients[j];
    assert Writer(t.clients[i]) == 0;
  }

  lemma TurnTaken(s: State, i: nat)
    requires TokenInv(s) && TurnInv(s) && Enabled(s, Step(i)) && s.clients[i].pc == Queue
    ensures TurnInv(Next(s, Step(i)))
  {
    NoWriter(s);
    var t := Next(s, Step(i));
    assert forall j :: 0 <= j < |t.clients| && j != i ==> t.clients[j] == s.clients[j];
  }

  lemma TurnWritten(s: State, i: nat)
    requires TokenInv(s) && TurnInv(s) && Enabled(s, Step(i)) && Writer(s.clients[i]) == 1
    ensures TurnInv(Next(s, Step(i)))
  {
    OneWriter(s, i);
    var t := Next(s, Step(i));
    assert forall j :: 0 <= j < |t.clients| && j != i ==> t.clients[j] == s.clients[j];
  }

  lemma TurnElsewhere(s: State, i: nat)
    requires TurnInv(s) && Enabled(s, Step(i)) && s.clients[i].pc != Queue && Writer(s.clients[i]) == 0
    ensures TurnInv(Next(s, Step(i)))
  {
    var t := Next(s, Step(i));
    assert forall j :: 0 <= j < |t.clients| && j != i ==> t.clients[j] == s.clients[j];
    assert Writer(t.clients[i]) == 0;
  }

  lemma TurnServed(s: State, value: int)
    requires TokenInv(s) && TurnInv(s) && Enabled(s, Serve(value))
    ensures TurnInv(Next(s, Serve(value)))
  {
    if s.sem.server > 0 || s.server.pc != Await { NoWriter(s); }
  }

  lemma TurnKept(s: State, a: Action)
    requires TokenInv(s) && TurnInv(s) && Enabled(s, a)
    ensures TurnInv(Next(s, a))
  {
    match a
    case Start(i, req) => TurnStart(s, i, req);
    case Step(i) =>
      if s.clients[i].pc == Queue { TurnTaken(s, i); }
      else if Writer(s.clients[i]) == 1 { TurnWritten(s, i); }
      else { TurnElsewhere(s, i); }
    case Serve(value) => TurnServed(s, value);
  }

  // ---------------------------------------------------------------- whose inputs are used

  /** The values a request gave; the server keeps its own where a request left them out. */
  predicate Agrees(known: Inputs, req: Request) {
    var i := req.inputs;
    && (i.radar >= 0 ==> known.radar == i.radar)
    && (i.fcenter != 0 ==> known.fcenter == i.fcenter)
    && (req.kind == ClearFreq ==>
          && (i.channel >= 0 ==> known.channel == i.channel)
          && (i.range != 0 ==> known.range == i.range)
          && (i.beam >= 0 ==> known.beam == i.beam)
          && (i.sampleSep != 0 ==> known.sampleSep == i.sampleSep)
          && (i.ifRate != 0 ==> known.ifRate == i.ifRate))
  }

  /** A reply computed from the values of this request. */
  predicate Fits(reply: Option<Reply>, req: Request) {
    && reply.Some?
    && Agrees(reply.value.inputs, req)
    && (req.kind == Samples ==> reply.value.meta == req.meta && reply.value.samples == req.samples)
  }

  predicate CommonWritten(mem: Memory, req: Request) {
    mem.inputs.radar == req.inputs.radar && mem.inputs.fcenter == req.inputs.fcenter
  }

  predicate Written(mem: Memory, req: Request) {
    if req.kind == Samples then CommonWritten(mem, req) && mem.samples == req.samples
    else mem.inputs == req.inputs
  }

  predicate WritingInv(s: State) {
    HolderWrites(s) ==>
      var pc := s.clients[s.holder].pc;
      && (s.turn.kind == Samples && !pc.InitLock? && !pc.InitWrite? ==> s.mem.meta == s.turn.meta)
      && (pc.Unlock? || pc.Flag? || pc.Ask? ==> Written(s.mem, s.turn))
  }

  predicate UnreadInv(s: State) {
    var pc := s.server.pc;
    && (Asked(s) || pc.MetaLock? || pc.MetaRead? ==> (s.turn.kind == Samples ==> s.mem.meta == s.turn.meta))
    && ((Asked(s) || pc.MetaLock? || pc.MetaRead? || pc.MetaUnlock? || pc.TrySamples? || pc.SamplesLock?
         || pc.SamplesRead? || pc.TryClearFreq? || pc.RangeLock? || pc.RangeRead?) ==> Written(s.mem, s.turn))
  }

  predicate UsedInv(s: State) {
    var pc := s.server.pc;
    && ((pc.MetaUnlock? || (pc.TrySamples? && s.turn.kind == Samples) || pc.SamplesLock?
         || pc.SamplesRead? || pc.SamplesUnlock? || pc.WriteMuted?) ==> s.server.meta == s.turn.meta)
    && (pc.SamplesUnlock? || pc.WriteMuted? ==> s.server.samples == s.turn.samples)
    && (pc.SamplesUnlock? || pc.WriteMuted? || pc.WriteBand? ==> Agrees(s.server.known, s.turn))
    && (pc.BandUnlock? || pc.Post? ==> Fits(s.mem.out.At(s.turn.kind), s.turn))
  }

  predicate DataInv(s: State) { WritingInv(s) && UnreadInv(s) && UsedInv(s) }

  lemma DataTaken(s: State, i: nat)
    requires TokenInv(s) && TurnInv(s) && DataInv(s) && Enabled(s, Step(i)) && s.clients[i].pc == Queue
    ensures DataInv(Next(s, Step(i)))
  {}

  lemma DataWritten(s: State, i: nat)
    requires TokenInv(s) && TurnInv(s) && DataInv(s) && Enabled(s, Step(i)) && Writer(s.clients[i]) == 1
    ensures DataInv(Next(s, Step(i)))
  {
    OneWriter(s, i);
  }

  lemma DataElsewhere(s: State, i: nat)
    requires TurnInv(s) && DataInv(s) && Enabled(s, Step(i))
    requires s.clients[i].pc != Queue && Writer(s.clients[i]) == 0
    ensures DataInv(Next(s, Step(i)))
  {
    var t := Next(s, Step(i));
    assert forall j :: 0 <= j < |t.clients| && j != i ==> t.clients[j] == s.clients[j];
  }

  lemma DataServed(s: State, value: int)
    requires TokenInv(s) && TurnInv(s) && DataInv(s) && Enabled(s, Serve(value))
    ensures DataInv(Next(s, Serve(value)))
  {
    if s.sem.server > 0 || s.server.pc != Await { NoWriter(s); }
  }

  lemma DataKept(s: State, a: Action)
    requires TokenInv(s) && TurnInv(s) && DataInv(s) && Enabled(s, a)
    ensures DataInv(Next(s, a))
  {
    match a
    case Start(i, req) =>
      var t := Next(s, a);
      assert forall j :: 0 <= j < |t.clients| && j != i ==> t.clients[j] == s.clients[j];
    case Step(i) =>
      if s.clients[i].pc == Queue { DataTaken(s, i); }
      else if Writer(s.clients[i]) == 1 { DataWritten(s, i); }
      else { DataElsewhere(s, i); }
    case Serve(value) => DataServed(s, value);
  }

  predicate Inv(s: State) { CountInv(s) && TurnInv(s) && DataInv(s) }

  lemma {:induction false} NobodyCounts(cs: seq<Client>, weight: Client -> nat)
    requires forall i :: 0 <= i < |cs| ==> weight(cs[i]) == 0
    ensures Sum(cs, weight) == 0
    decreases |cs|
  {
    if cs != [] { NobodyCounts(cs[..|cs| - 1], weight); }
  }

  lemma InitHolds(s: State)
    requires IsInit(s)
    ensures Inv(s)
  {
    NobodyCounts(s.clients, Writer);
    NobodyCounts(s.clients, Waiter);
    NobodyCounts(s.clients, HoldsInit);
    NobodyCounts(s.clients, HoldsSamples);
    NobodyCounts(s.clients, HoldsClearFreq);
  }

  lemma StepKept(s: State, a: Action)
    requires Inv(s) && Enabled(s, a)
    ensures Inv(Next(s, a))
  {
    CountKept(s, a);
    TurnKept(s, a);
    DataKept(s, a);
  }

  lemma {:induction false} RunKept(ss: seq<State>, acts: seq<Action>, k: nat)
    requires IsRun(ss, acts) && k < |ss|
    ensures Inv(ss[k])
    decreases k
  {
    if k == 0 {
      InitHolds(ss[0]);
    } else {
      RunKept(ss, acts, k - 1);
      assert Enabled(ss[k - 1], acts[k - 1]);
      StepKept(ss[k - 1], acts[k - 1]);
    }
  }

  // ---------------------------------------------------------------- safety

  /** sf_client, the clients that write, sf_server and the server's turn always add up to one;
      so at most one client writes, never while the server works, and a working server always
      finds a flag. */
  lemma TurnConserved(ss: seq<State>, acts: seq<Action>, k: nat)
    requires IsRun(ss, acts) && k < |ss|
    ensures var s := ss[k];
      && s.sem.client + Sum(s.clients, Writer) + s.sem.server + Turn(s.server.pc) == 1
      && (forall i, j :: 0 <= i < |s.clients| && 0 <= j < |s.clients| ==>
            Writer(s.clients[i]) == 1 == Writer(s.clients[j]) ==> i == j)
      && (forall i :: 0 <= i < |s.clients| && Writer(s.clients[i]) == 1 ==> s.server.pc == Await)
      && s.server.pc != Fatal
  {
    RunKept(ss, acts, k);
    var s := ss[k];
    forall i | 0 <= i < |s.clients| && Writer(s.clients[i]) == 1
      ensures s.server.pc == Await
      ensures forall j :: 0 <= j < |s.clients| && Writer(s.clients[j]) == 1 ==> j == i
    {
      OneWriter(s, i);
    }
  }

  /** The clear frequency triple is never read while the server writes it, and no two clients
      hold a lock at the same time. */
  lemma LocksExclude(ss: seq<State>, acts: seq<Action>, k: nat)
    requires IsRun(ss, acts) && k < |ss|
    ensures var s := ss[k];
      && (forall i :: 0 <= i < |s.clients| && s.clients[i].pc == Read && s.clients[i].req.kind == ClearFreq ==>
            s.server.pc != WriteBand && s.server.pc != RangeRead)
      && (forall i, j :: 0 <= i < |s.clients| && 0 <= j < |s.clients| && i != j ==>
            HoldsClearFreq(s.clients[i]) + HoldsClearFreq(s.clients[j]) <= 1
            && HoldsSamples(s.clients[i]) + HoldsSamples(s.clients[j]) <= 1)
  {
    RunKept(ss, acts, k);
    var s := ss[k];
    forall i | 0 <= i < |s.clients| && s.clients[i].pc == Read && s.clients[i].req.kind == ClearFreq
      ensures s.server.pc != WriteBand && s.server.pc != RangeRead
    {
      SumUpdate(s.clients, i, s.clients[i], HoldsClearFreq);
    }
    forall i, j | 0 <= i < |s.clients| && 0 <= j < |s.clients| && i != j
      ensures HoldsClearFreq(s.clients[i]) + HoldsClearFreq(s.clients[j]) <= 1
      ensures HoldsSamples(s.clients[i]) + HoldsSamples(s.clients[j]) <= 1
    {
      SumOfTwo(s.clients, i, j, HoldsClearFreq);
      SumOfTwo(s.clients, i, j, HoldsSamples);
    }
  }

  /** However many requests are in flight, the server computes every answer from the inputs of
      one request: the one whose client took the turn last. */
  lemma ServedFromOneRequest(ss: seq<State>, acts: seq<Action>, k: nat)
    requires IsRun(ss, acts) && k < |acts| && acts[k].Serve?
    requires ss[k].server.pc == WriteMuted || ss[k].server.pc == WriteBand
    ensures Fits(ss[k + 1].mem.out.At(ss[k].turn.kind), ss[k].turn)
    ensures ss[k + 1].mem.inputs == ss[k].mem.inputs
  {
    RunKept(ss, acts, k);
    RunKept(ss, acts, k + 1);
    assert ss[k + 1] == Next(ss[k], acts[k]);
  }

  // ---------------------------------------------------------------- one request in flight

  predicate InFlight(c: Client) { c.pc != Idle && c.pc != Queue }

  /** The turn is taken only when no other request is in flight. */
  predicate Alone(s: State, a: Action) {
    a.Step? && a.i < |s.clients| && s.clients[a.i].pc == Queue ==>
      forall j :: 0 <= j < |s.clients| && j != a.i ==> !InFlight(s.clients[j])
  }

  predicate Answered(s: State, c: Client) {
    c.pc == ReadLock || c.pc == Read || (c.pc == Wait && s.sem.processed > 0)
  }

  predicate ReplyInv(s: State) {
    && (forall i :: 0 <= i < |s.clients| && InFlight(s.clients[i]) ==>
          && i == s.holder && s.clients[i].req == s.turn
          && (Answered(s, s.clients[i]) ==> Fits(s.mem.out.At(s.turn.kind), s.turn)))
    && (forall i :: 0 <= i < |s.clients| && s.clients[i].pc == ReadUnlock ==>
          Fits(s.clients[i].reply, s.clients[i].req))
  }

  /** While the server works, the client in flight waits, and nothing was answered yet. */
  lemma BusyMeansWaiting(s: State, i: nat)
    requires WaitingInv(s) && i < |s.clients| && InFlight(s.clients[i])
    requires forall j :: 0 <= j < |s.clients| && j != i ==> !InFlight(s.clients[j])
    requires s.sem.server > 0 || Busy(s.server.pc) == 1
    ensures s.clients[i].pc == Wait && s.sem.processed == 0
  {
    var c := Client(Idle, s.clients[i].req, None);
    SumUpdate(s.clients, i, c, Waiter);
    NobodyCounts(s.clients[i := c], Waiter);
  }

  lemma ReplyStep(s: State, i: nat)
    requires Inv(s) && ReplyInv(s) && Enabled(s, Step(i)) && Alone(s, Step(i))
    ensures ReplyInv(Next(s, Step(i)))
  {
    var t := Next(s, Step(i));
    assert forall j :: 0 <= j < |t.clients| && j != i ==> t.clients[j] == s.clients[j];
    if s.clients[i].pc == Ask {
      OneWriter(s, i);
      StepKept(s, Step(i));
      BusyMeansWaiting(t, i);
    }
  }

  lemma ReplyServe(s: State, value: int)
    requires Inv(s) && ReplyInv(s) && Enabled(s, Serve(value))
    ensures ReplyInv(Next(s, Serve(value)))
  {
    var t := Next(s, Serve(value));
    forall i | 0 <= i < |t.clients| && InFlight(t.clients[i]) && Answered(t, t.clients[i])
      ensures Fits(t.mem.out.At(t.turn.kind), t.turn)
    {
      if Busy(s.server.pc) == 1 { BusyMeansWaiting(s, i); }
    }
  }

  lemma ReplyKept(s: State, a: Action)
    requires Inv(s) && ReplyInv(s) && Enabled(s, a) && Alone(s, a)
    ensures ReplyInv(Next(s, a))
  {
    match a
    case Start(i, req) =>
      var t := Next(s, a);
      assert forall j :: 0 <= j < |t.clients| && j != i ==> t.clients[j] == s.clients[j];
    case Step(i) => ReplyStep(s, i);
    case Serve(value) => ReplyServe(s, value);
  }

  lemma {:induction false} RepliesKept(ss: seq<State>, acts: seq<Action>, k: nat)
    requires IsRun(ss, acts) && k < |ss|
    requires forall j :: 0 <= j < |acts| ==> Alone(ss[j], acts[j])
    ensures Inv(ss[k]) && ReplyInv(ss[k])
    decreases k
  {
    if k == 0 {
      InitHolds(ss[0]);
    } else {
      RepliesKept(ss, acts, k - 1);
      assert Enabled(ss[k - 1], acts[k - 1]) && Alone(ss[k - 1], acts[k - 1]);
      StepKept(ss[k - 1], acts[k - 1]);
      ReplyKept(ss[k - 1], acts[k - 1]);
    }
  }

  /** With at most one request in flight, every client receives the answer computed from its own
      inputs, and the muted antennas, which no lock protects, are not read while they are written. */
  lemma OwnReply(ss: seq<State>, acts: seq<Action>, k: nat, i: nat)
    requires IsRun(ss, acts) && k < |ss| && i < |ss[k].clients|
    requires forall j :: 0 <= j < |acts| ==> Alone(ss[j], acts[j])
    ensures ss[k].clients[i].pc == ReadUnlock ==> Fits(ss[k].clients[i].reply, ss[k].clients[i].req)
    ensures ss[k].clients[i].pc == Read ==> ss[k].server.pc != WriteMuted
  {
    RepliesKept(ss, acts, k);
    if ss[k].clients[i].pc == Read && ss[k].server.pc == WriteMuted { BusyMeansWaiting(ss[k], i); }
  }

  // ---------------------------------------------------------------- liveness

  /** An action that finishes work already begun. */
  predicate Working(a: Action) { a.Step? || a.Serve? }

  /** A lock is free, or its owner can go on. */
  lemma LockOwnerMoves(s: State, k: Kind) returns (a: Action)
    requires LockInv(s) && s.sem.lock.At(k) == 0
    ensures Working(a) && Enabled(s, a)
  {
    if (if k == Samples then ServerHoldsSamples(s.server.pc) else ServerHoldsClearFreq(s.server.pc)) == 1 {
      a := Serve(0);
    } else {
      var i := SomeClient(s.clients, if k == Samples then HoldsSamples else HoldsClearFreq);
      a := Step(i);
    }
  }

  lemma InitLockOwnerMoves(s: State) returns (a: Action)
    requires LockInv(s) && s.sem.lockInit == 0
    ensures Working(a) && Enabled(s, a)
  {
    if ServerHoldsInit(s.server.pc) == 1 {
      a := Serve(0);
    } else {
      var i := SomeClient(s.clients, HoldsInit);
      a := Step(i);
    }
  }

  /** A client that does not wait for the turn or for the server can go on, or a lock owner can. */
  lemma ClientMoves(s: State, i: nat) returns (a: Action)
    requires LockInv(s) && i < |s.clients|
    requires s.clients[i].pc != Idle && s.clients[i].pc != Queue && s.clients[i].pc != Wait
    ensures Working(a) && Enabled(s, a)
  {
    var c := s.clients[i];
    if StepEnabled(c, s.sem) {
      a := Step(i);
    } else if c.pc == InitLock {
      a := InitLockOwnerMoves(s);
    } else {
      a := LockOwnerMoves(s, c.req.kind);
    }
  }

  lemma ServerMoves(s: State) returns (a: Action)
    requires LockInv(s) && s.server.pc != Await && s.server.pc != Fatal
    ensures Working(a) && Enabled(s, a)
  {
    if ServeEnabled(s.server.pc, s.sem) {
      a := Serve(0);
    } else if s.server.pc == MetaLock {
      a := InitLockOwnerMoves(s);
    } else {
      a := LockOwnerMoves(s, if s.server.pc == SamplesLock then Samples else ClearFreq);
    }
  }

  /** For any number of clients: as long as some request is unfinished, somebody can go on. */
  lemma NoDeadlock(s: State, i: nat) returns (a: Action)
    requires Inv(s) && i < |s.clients| && s.clients[i].pc != Idle
    ensures Working(a) && Enabled(s, a)
  {
    if s.server.pc != Await {
      a := ServerMoves(s);
    } else if s.sem.server > 0 {
      a := Serve(0);
    } else if s.sem.client == 0 {
      var j := SomeClient(s.clients, Writer);
      a := ClientMoves(s, j);
    } else if s.clients[i].pc == Queue {
      a := Step(i);
    } else if s.clients[i].pc == Wait {
      SumUpdate(s.clients, i, s.clients[i], Waiter);
      a := Step(i);
    } else {
      a := ClientMoves(s, i);
    }
  }

  function ServerWork(pc: ServerPc): nat {
    match pc
    case Await => 0 case Fatal => 0 case Announce => 1 case Post => 2
    case BandUnlock => 3 case WriteBand => 4 case RangeRead => 5 case RangeLock => 6 case TryClearFreq => 7
    case WriteMuted => 3 case SamplesUnlock => 4 case SamplesRead => 5 case SamplesLock => 6
    case TrySamples => 8 case MetaUnlock => 9 case MetaRead => 10 case MetaLock => 11 case TryInit => 12
  }

  /** Steps a client has left, including those of the server for it. */
  function ClientWork(c: Client): nat {
    match c.pc
    case Idle => 0 case ReadUnlock => 1 case Read => 2 case ReadLock => 3 case Wait => 4
    case Ask => 18 case Flag => 19 case Unlock => 20 case Write => 21 case Lock => 22
    case InitFlag => 23 case InitUnlock => 24 case InitWrite => 25 case InitLock => 26 case Queue => 27
  }

  function Work(s: State): nat {
    Sum(s.clients, ClientWork) + 13 * s.sem.server + ServerWork(s.server.pc)
  }

  /** Whatever the scheduling, every step brings the unfinished requests closer to their end: with
      NoDeadlock, all of them are answered within Work(s) steps of the clients and the server. */
  lemma ClientWorkDecreases(c: Client, sem: Semaphores, mem: Memory)
    requires StepEnabled(c, sem)
    ensures ClientWork(StepClient(c, mem)) + 13 * StepSemaphores(c, sem).server
            < ClientWork(c) + 13 * sem.server
  {}

  lemma ServerWorkDecreases(s: State, value: int)
    requires ServeEnabled(s.server.pc, s.sem)
    ensures Work(ServerNext(s, value)) < Work(s)
  {}

  lemma WorkDecreases(s: State, a: Action)
    requires Enabled(s, a) && Working(a)
    ensures Work(Next(s, a)) < Work(s)
  {
    match a
    case Step(i) =>
      SumUpdate(s.clients, i, StepClient(s.clients[i], s.mem), ClientWork);
      ClientWorkDecreases(s.clients[i], s.sem, s.mem);
    case Serve(value) => ServerWorkDecreases(s, value);
  }

  lemma {:induction false} RequestsFinish(ss: seq<State>, acts: seq<Action>, k: nat)
    requires |ss| == |acts| + 1 && Inv(ss[0]) && k <= |acts|
    requires forall j :: 0 <= j < |acts| ==>
               Enabled(ss[j], acts[j]) && Working(acts[j]) && ss[j + 1] == Next(ss[j], acts[j])
    ensures Inv(ss[k]) && k + Work(ss[k]) <= Work(ss[0])
    decreases k
  {
    if k > 0 {
      RequestsFinish(ss, acts, k - 1);
      assert Enabled(ss[k - 1], acts[k - 1]) && Working(acts[k - 1]);
      StepKept(ss[k - 1], acts[k - 1]);
      WorkDecreases(ss[k - 1], acts[k - 1]);
    }
  }

  // ---------------------------------------------------------------- two requests in flight

  ghost predicate Reachable(t: State) {
    exists ss: seq<State>, acts: seq<Action> :: IsRun(ss, acts) && ss[|ss| - 1] == t
  }

  lemma Go(s: State, a: Action) returns (t: State)
    requires Reachable(s) && Enabled(s, a)
    ensures t == Next(s, a) && Reachable(t)
  {
    var ss: seq<State>, acts: seq<Action> :| IsRun(ss, acts) && ss[|ss| - 1] == s;
    t := Next(s, a);
    assert IsRun(ss + [t], acts + [a]);
    assert (ss + [t])[|ss|] == t;
  }

  lemma ReachableInv(s: State)
    requires Reachable(s)
    ensures Inv(s)
  {
    var ss: seq<State>, acts: seq<Action> :| IsRun(ss, acts) && ss[|ss| - 1] == s;
    RunKept(ss, acts, |ss| - 1);
  }

  lemma GoServe(s: State) returns (t: State)
    requires Reachable(s) && ServeEnabled(s.server.pc, s.sem)
    ensures Reachable(t) && t.clients == s.clients && t.turn == s.turn
    ensures t.server == ServeServer(s.server, s.sem, s.mem)
    ensures t.sem == ServeSemaphores(s.server.pc, s.sem) && t.mem == ServeMemory(s.server, s.mem, 0)
  {
    t := Go(s, Serve(0));
  }

  lemma GoStep(s: State, i: nat) returns (t: State)
    requires Reachable(s) && i < |s.clients| && StepEnabled(s.clients[i], s.sem)
    ensures Reachable(t) && t.clients == s.clients[i := StepClient(s.clients[i], s.mem)]
    ensures t.sem == StepSemaphores(s.clients[i], s.sem) && t.mem == StepMemory(s.clients[i], s.mem)
    ensures t.server == s.server && t.turn == (if s.clients[i].pc == Queue then s.clients[i].req else s.turn)
  {
    t := Go(s, Step(i));
  }

  /** The flags the server finds set. */
  lemma FlagsSet(s: State)
    requires Reachable(s)
    ensures s.sem.server > 0 && s.turn.kind == Samples ==> s.sem.init > 0
    ensures s.sem.server > 0 && s.turn.kind == ClearFreq ==> s.sem.init == 0 && s.sem.flag == PerKind(0, 1)
    ensures s.server.pc == TrySamples && s.turn.kind == Samples ==> s.sem.flag.samples > 0
  {
    ReachableInv(s);
  }

  /** The client asks and, instead of its own answer, takes one that was meant for another client
      that has not fetched it yet. */
  lemma ForeignReply(s: State, i: nat, j: nat) returns (t: State)
    requires Reachable(s) && i < |s.clients| && j < |s.clients|
    requires s.clients[i].pc == Wait && s.clients[j].pc == Ask
    requires s.clients[j].req.kind == ClearFreq && s.sem.processed > 0 && s.sem.lock.clearFreq > 0
    ensures Reachable(t) && |t.clients| == |s.clients| && t.clients[j].pc == ReadUnlock
    ensures t.clients[j].req == s.clients[j].req && t.clients[j].reply == s.mem.out.clearFreq
    ensures t.server.pc == s.server.pc && t.sem.server == s.sem.server + 1
  {
    t := GoStep(s, j);
    t := GoStep(t, j);
    t := GoStep(t, j);
    t := GoStep(t, j);
  }

  /** A client writes under its lock. */
  lemma WriteLocked(s: State, i: nat) returns (t: State)
    requires Reachable(s) && i < |s.clients| && s.clients[i].pc == Lock && s.sem.lock.At(s.clients[i].req.kind) > 0
    ensures Reachable(t) && t.clients == s.clients[i := s.clients[i].(pc := Flag)]
    ensures t.server == s.server && t.turn == s.turn && t.mem.out == s.mem.out && t.sem == s.sem
  {
    t := GoStep(s, i);
    t := GoStep(t, i);
    t := GoStep(t, i);
  }

  /** A clear frequency client that finds the turn free writes its inputs. */
  lemma TakeTurn(s: State, i: nat) returns (t: State)
    requires Reachable(s) && i < |s.clients| && s.clients[i].pc == Queue
    requires s.clients[i].req.kind == ClearFreq && s.sem.client > 0 && s.sem.lock.clearFreq > 0
    ensures Reachable(t) && t.clients == s.clients[i := s.clients[i].(pc := Ask)]
    ensures t.server == s.server && t.turn == s.clients[i].req && t.mem.out == s.mem.out
    ensures t.sem.lock == s.sem.lock && t.sem.processed == s.sem.processed
  {
    t := GoStep(s, i);
    t := WriteLocked(t, i);
    t := GoStep(t, i);
  }

  /** The server reads the request for a clear frequency that was asked for. */
  lemma ServerReads(s: State) returns (t: State)
    requires Reachable(s) && s.server.pc == Await && s.sem.server > 0 && s.turn.kind == ClearFreq
    requires s.sem.lock.clearFreq > 0
    ensures Reachable(t) && t.clients == s.clients && t.turn == s.turn && t.sem.processed == s.sem.processed
    ensures t.server.pc == RangeRead
  {
    FlagsSet(s);
    t := GoServe(s);
    t := GoServe(t);
    t := GoServe(t);
    t := GoServe(t);
    t := GoServe(t);
  }

  lemma ServerAnswers(s: State) returns (t: State)
    requires Reachable(s) && s.server.pc == RangeRead
    ensures Reachable(t) && t.clients == s.clients && t.server.pc == Await
    ensures t.sem.processed > 0 && t.sem.client > 0 && t.sem.lock.clearFreq > 0
    ensures Fits(t.mem.out.clearFreq, s.turn)
  {
    t := BandWritten(s);
    t := GoServe(t);
    t := GoServe(t);
  }

  lemma BandWritten(s: State) returns (t: State)
    requires Reachable(s) && s.server.pc == RangeRead
    ensures Reachable(t) && t.clients == s.clients && t.server.pc == Post && t.sem.lock.clearFreq > 0
    ensures Fits(t.mem.out.clearFreq, s.turn)
  {
    ReachableInv(s);
    t := GoServe(s);
    t := GoServe(t);
    t := GoServe(t);
    ReachableInv(t);
  }

  lemma TwoInQueue(first: Request, second: Request) returns (s: State)
    ensures Reachable(s) && |s.clients| == 2 && s.server.pc == Await
    ensures s.clients[0] == Client(Queue, first, None) && s.clients[1] == Client(Queue, second, None)
    ensures s.sem.client > 0 && s.sem.lock == PerKind(1, 1) && s.sem.lockInit > 0
  {
    var idle := Client(Idle, first, None);
    s := State([idle, idle], Server(Announce, first.inputs, 0, 0),
               Semaphores(0, 0, 0, 0, PerKind(0, 0), 1, PerKind(1, 1)),
               Memory(first.inputs, 0, 0, PerKind(None, None)), 0, first);
    assert IsRun([s], []) && [s][0] == s;
    s := Go(s, Start(0, first));
    s := Go(s, Start(1, second));
    s := GoServe(s);
  }

  /** Any two clear frequency requests with different beams, both in flight: a run in which the
      second client is given the answer to the first client's request. */
  lemma RepliesCanBeSwapped(first: Request, second: Request) returns (s: State)
    requires first.kind == ClearFreq && second.kind == ClearFreq
    requires first.inputs.beam >= 0 && second.inputs.beam >= 0 && first.inputs.beam != second.inputs.beam
    ensures Reachable(s) && |s.clients| == 2 && s.clients[1].pc == ReadUnlock && s.clients[1].req == second
    ensures Fits(s.clients[1].reply, first) && !Fits(s.clients[1].reply, second)
  {
    s := TwoInQueue(first, second);
    s := TakeTurn(s, 0);
    s := GoStep(s, 0);
    s := ServerReads(s);
    s := ServerAnswers(s);
    s := TakeTurn(s, 1);
    s := ForeignReply(s, 0, 1);
  }

  /** A samples client that finds the turn free writes its meta data ... */
  lemma WriteMeta(s: State, i: nat) returns (t: State)
    requires Reachable(s) && i < |s.clients| && s.clients[i].pc == Queue && s.clients[i].req.kind == Samples
    requires s.sem.client > 0 && s.sem.lockInit > 0
    ensures Reachable(t) && t.clients == s.clients[i := s.clients[i].(pc := Lock)]
    ensures t.server == s.server && t.turn == s.clients[i].req && t.mem.out == s.mem.out
    ensures t.sem == s.sem.(client := s.sem.client - 1, init := s.sem.init + 1)
  {
    t := GoStep(s, i);
    t := GoStep(t, i);
    t := GoStep(t, i);
    t := GoStep(t, i);
    t := GoStep(t, i);
  }

  /** ... and its samples, and asks. */
  lemma WriteSamples(s: State, i: nat) returns (t: State)
    requires Reachable(s) && i < |s.clients| && s.clients[i].pc == Lock && s.clients[i].req.kind == Samples
    requires s.sem.lock.samples > 0
    ensures Reachable(t) && t.clients == s.clients[i := s.clients[i].(pc := Wait)]
    ensures t.server == s.server && t.turn == s.turn && t.sem.server == s.sem.server + 1 && t.mem.out == s.mem.out
    ensures t.sem.lock == s.sem.lock && t.sem.lockInit == s.sem.lockInit && t.sem.processed == s.sem.processed
  {
    t := WriteLocked(s, i);
    t := GoStep(t, i);
    t := GoStep(t, i);
  }

  lemma ServerReadsMeta(s: State) returns (t: State)
    requires Reachable(s) && s.server.pc == Await && s.sem.server > 0 && s.turn.kind == Samples
    requires s.sem.lockInit > 0
    ensures Reachable(t) && t.clients == s.clients && t.server.pc == TrySamples && t.turn == s.turn
    ensures t.mem.out == s.mem.out
    ensures t.sem.lock == s.sem.lock && t.sem.lockInit == s.sem.lockInit && t.sem.processed == s.sem.processed
  {
    FlagsSet(s);
    t := GoServe(s);
    t := GoServe(t);
    t := GoServe(t);
    t := GoServe(t);
    t := GoServe(t);
  }

  lemma ServerReadsSamples(s: State) returns (t: State)
    requires Reachable(s) && s.server.pc == TrySamples && s.turn.kind == Samples && s.sem.lock.samples > 0
    ensures Reachable(t) && t.clients == s.clients && t.server.pc == WriteMuted && t.turn == s.turn
    ensures t.mem.out == s.mem.out
    ensures t.sem.lock == s.sem.lock && t.sem.lockInit == s.sem.lockInit && t.sem.processed == s.sem.processed
  {
    FlagsSet(s);
    t := GoServe(s);
    t := GoServe(t);
    t := GoServe(t);
    t := GoServe(t);
  }

  lemma SamplesServed(s: State, i: nat) returns (t: State)
    requires Reachable(s) && i < |s.clients| && s.clients[i].pc == Queue && s.clients[i].req.kind == Samples
    requires s.server.pc == Await && s.sem.client > 0 && s.sem.lockInit > 0 && s.sem.lock.samples > 0
    ensures Reachable(t) && t.clients == s.clients[i := s.clients[i].(pc := Wait)]
    ensures t.server.pc == WriteMuted && t.sem.processed == s.sem.processed && t.mem.out == s.mem.out
    ensures t.sem.lock.samples > 0 && t.sem.lockInit > 0
  {
    t := WriteMeta(s, i);
    t := WriteSamples(t, i);
    t := ServerReadsMeta(t);
    t := ServerReadsSamples(t);
  }

  /** The server completes send_samples. */
  lemma MutedWritten(s: State) returns (t: State)
    requires Reachable(s) && s.server.pc == WriteMuted
    ensures Reachable(t) && t.clients == s.clients && t.server.pc == Await
    ensures t.sem == s.sem.(processed := s.sem.processed + 1, client := s.sem.client + 1)
    ensures t.mem.out.clearFreq == s.mem.out.clearFreq
  {
    t := GoServe(s);
    t := GoServe(t);
    t := GoServe(t);
  }

  /** The server writes the muted antennas without holding a lock: with two send_samples in flight,
      the first client may be reading them while the server writes those of the second. */
  lemma MutedListNotProtected(first: Request, second: Request) returns (s: State)
    requires first.kind == Samples && second.kind == Samples
    ensures Reachable(s) && |s.clients| == 2 && s.clients[0].req == first && s.clients[1].req == second
    ensures s.clients[0].pc == Read && s.server.pc == WriteMuted
  {
    s := TwoInQueue(first, second);
    s := SamplesServed(s, 0);
    s := MutedWritten(s);
    s := SamplesServed(s, 1);
    s := GoStep(s, 0);
    s := GoStep(s, 0);
  }

  /** The client works on its request, or waits for its turn or for the server. */
  predicate HoldsNothing(c: Client) { c.pc.Idle? || c.pc.Queue? || c.pc.Wait? }

  lemma {:induction false} NothingHeld(cs: seq<Client>)
    requires forall i :: 0 <= i < |cs| ==> HoldsNothing(cs[i])
    ensures Sum(cs, HoldsInit) == Sum(cs, HoldsSamples) == Sum(cs, HoldsClearFreq) == Sum(cs, Writer) == 0
    decreases |cs|
  {
    if cs != [] { NothingHeld(cs[..|cs| - 1]); }
  }

  lemma {:induction false} NobodyWaits(cs: seq<Client>)
    requires forall i :: 0 <= i < |cs| ==> cs[i].pc.Idle? || cs[i].pc.Queue?
    ensures Sum(cs, Waiter) == 0
    decreases |cs|
  {
    if cs != [] { NobodyWaits(cs[..|cs| - 1]); }
  }

  lemma LocksFree(s: State)
    requires Reachable(s) && s.server.pc == Await && forall i :: 0 <= i < |s.clients| ==> HoldsNothing(s.clients[i])
    ensures s.sem.lockInit == 1 && s.sem.lock == PerKind(1, 1)
  {
    ReachableInv(s);
    NothingHeld(s.clients);
  }

  /** No request is in flight. */
  predicate Quiet(s: State) {
    s.server.pc == Await && forall i :: 0 <= i < |s.clients| ==> s.clients[i].pc.Idle? || s.clients[i].pc.Queue?
  }

  lemma TurnFree(s: State)
    requires Reachable(s) && Quiet(s)
    ensures s.sem.client == 1 && s.sem.lockInit == 1 && s.sem.lock == PerKind(1, 1)
  {
    LocksFree(s);
    ReachableInv(s);
    NothingHeld(s.clients);
    NobodyWaits(s.clients);
  }

  /** The server has answered send_samples, and its client has not noticed yet. */
  lemma SamplesAnswered(s: State, i: nat) returns (t: State)
    requires Reachable(s) && Quiet(s) && i < |s.clients| && s.clients[i].pc == Queue && s.clients[i].req.kind == Samples
    ensures Reachable(t) && t.clients == s.clients[i := s.clients[i].(pc := Wait)] && t.server.pc == Await
    ensures t.sem.client > 0 && t.sem.processed > 0 && t.sem.lock == PerKind(1, 1)
    ensures t.mem.out.clearFreq == s.mem.out.clearFreq
  {
    TurnFree(s);
    t := SamplesServed(s, i);
    t := MutedWritten(t);
    LocksFree(t);
  }

  /** One send_samples and one clear frequency request in flight are enough: the latter can take the
      completion of the former, and then returns the band that was in shared memory before, without
      having been served. */
  lemma StaleBandTaken(s: State, i: nat, j: nat) returns (t: State)
    requires Reachable(s) && Quiet(s) && i < |s.clients| && j < |s.clients|
    requires s.clients[i].pc == Queue && s.clients[i].req.kind == Samples
    requires s.clients[j].pc == Queue && s.clients[j].req.kind == ClearFreq
    ensures Reachable(t) && |t.clients| == |s.clients| && t.clients[j].pc == ReadUnlock
    ensures t.clients[j].req == s.clients[j].req && t.clients[j].reply == s.mem.out.clearFreq
    ensures t.server.pc == Await && t.sem.server > 0
  {
    t := SamplesAnswered(s, i);
    t := TakeTurn(t, j);
    t := ForeignReply(t, i, j);
  }

  /** A client asks and gets its own answer, as long as nobody else does. */
  lemma ServedAlone(s: State, j: nat) returns (t: State)
    requires Reachable(s) && Quiet(s) && j < |s.clients| && s.clients[j].pc == Queue && s.clients[j].req.kind == ClearFreq
    ensures Reachable(t) && Quiet(t) && |t.clients| == |s.clients| && t.clients[j].pc == Idle
    ensures forall i :: 0 <= i < |s.clients| && i != j ==> t.clients[i] == s.clients[i]
    ensures Fits(t.mem.out.clearFreq, s.clients[j].req)
  {
    TurnFree(s);
    t := TakeTurn(s, j);
    t := AskServed(t, j);
    t := AnswerRead(t, j);
  }

  lemma AskServed(s: State, j: nat) returns (t: State)
    requires Reachable(s) && j < |s.clients| && s.clients[j].pc == Ask && s.turn.kind == ClearFreq
    requires s.server.pc == Await && s.sem.lock.clearFreq > 0
    ensures Reachable(t) && t.clients == s.clients[j := s.clients[j].(pc := Wait)] && t.server.pc == Await
    ensures t.sem.processed > 0 && t.sem.lock.clearFreq > 0 && Fits(t.mem.out.clearFreq, s.turn)
  {
    t := GoStep(s, j);
    t := ServerReads(t);
    t := ServerAnswers(t);
  }

  lemma AnswerRead(s: State, j: nat) returns (t: State)
    requires Reachable(s) && j < |s.clients| && s.clients[j].pc == Wait && s.clients[j].req.kind == ClearFreq
    requires s.sem.processed > 0 && s.sem.lock.clearFreq > 0
    ensures Reachable(t) && |t.clients| == |s.clients| && t.clients[j].pc == Idle && t.server == s.server
    ensures forall i :: 0 <= i < |s.clients| && i != j ==> t.clients[i] == s.clients[i]
    ensures t.mem.out == s.mem.out
  {
    t := GoStep(s, j);
    t := GoStep(t, j);
    t := GoStep(t, j);
    t := GoStep(t, j);
  }

  /** So a client is given the band of its own previous request, for another beam, by asking while
      samples are sent. */
  lemma StaleBandHappens(samples: Request, was: Request, now: Request) returns (s: State)
    requires samples.kind == Samples && was.kind == ClearFreq && now.kind == ClearFreq
    requires was.inputs.beam >= 0 && now.inputs.beam >= 0 && was.inputs.beam != now.inputs.beam
    ensures Reachable(s) && |s.clients| == 2 && s.clients[1].pc == ReadUnlock && s.clients[1].req == now
    ensures Fits(s.clients[1].reply, was) && !Fits(s.clients[1].reply, now)
  {
    s := TwoInQueue(samples, was);
    s := ServedAlone(s, 1);
    s := Go(s, Start(1, now));
    s := StaleBandTaken(s, 0, 1);
  }
}
