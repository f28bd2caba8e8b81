/** The protocol between the clients of the clear frequency service and its server.

    Clients (ClearFrequencyService in usrp_server.py) and the server loop (clear_frequency_server.c)
    share memory and nine semaphores: flags sf_*, initially 0, and locks sl_*, initially 1. A run
    interleaves any number of clients with the server; one action is one semaphore operation or
    one access to shared memory. */
module ClearFreqProtocol {
  import opened Wrappers

  /** send_samples or request_clr_freq. */
  datatype Kind = Samples | ClearFreq

  datatype PerKind<T> = PerKind(samples: T, clearFreq: T) {
    function At(k: Kind): T { if k == Samples then samples else clearFreq }

    function With(k: Kind, v: T): PerKind<T> {
      if k == Samples then PerKind(v, clearFreq) else PerKind(samples, v)
    }
  }

  datatype Inputs = Inputs(
    radar: int, fcenter: int, channel: int, range: int, beam: int, sampleSep: int, ifRate: int)

  datatype Request = Request(kind: Kind, inputs: Inputs, meta: int, samples: int)

  /** What the server wrote for a request: the values it used, and the result of its computation. */
  datatype Reply = Reply(inputs: Inputs, meta: int, samples: int, value: int)

  datatype ClientPc =
    Idle | Queue
    | InitLock | InitWrite | InitUnlock | InitFlag
    | Lock | Write | Unlock | Flag | Ask
    | Wait | ReadLock | Read | ReadUnlock

  datatype Client = Client(pc: ClientPc, req: Request, reply: Option<Reply>)

  datatype ServerPc =
    Announce | Await
    | TryInit | MetaLock | MetaRead | MetaUnlock
    | TrySamples | SamplesLock | SamplesRead | SamplesUnlock | WriteMuted
    | TryClearFreq | RangeLock | RangeRead | WriteBand | BandUnlock
    | Post | Fatal

  /** The server and the values it read last. */
  datatype Server = Server(pc: ServerPc, known: Inputs, meta: int, samples: int)

  datatype Semaphores = Semaphores(
    client: nat, server: nat, processed: nat, init: nat, flag: PerKind<nat>, lockInit: nat, lock: PerKind<nat>)

  /** Shared memory; `out` holds the muted antennas and the clear frequency triple. */
  datatype Memory = Memory(inputs: Inputs, meta: int, samples: int, out: PerKind<Option<Reply>>)

  /** `holder` is the client that took sf_client last and `turn` its request. */
  datatype State = State(
    clients: seq<Client>, server: Server, sem: Semaphores, mem: Memory, holder: nat, turn: Request)

  datatype Action = Start(i: nat, req: Request) | Step(i: nat) | Serve(value: int)

  predicate IsInit(s: State) {
    && s.server.pc == Announce
    && s.sem == Semaphores(0, 0, 0, 0, PerKind(0, 0), 1, PerKind(1, 1))
    && forall i :: 0 <= i < |s.clients| ==> s.clients[i].pc == Idle
  }

  // ---------------------------------------------------------------- clients

  predicate StepEnabled(c: Client, sem: Semaphores) {
    match c.pc
    case Idle => false
    case Queue => sem.client > 0
    case InitLock => sem.lockInit > 0
    case Lock => sem.lock.At(c.req.kind) > 0
    case Wait => sem.processed > 0
    case ReadLock => sem.lock.At(c.req.kind) > 0
    case _ => true
  }

  function NextPc(c: Client): ClientPc {
    match c.pc
    case Idle => Idle
    case Queue => if c.req.kind == Samples then InitLock else Lock
    case InitLock => InitWrite
    case InitWrite => InitUnlock
    case InitUnlock => InitFlag
    case InitFlag => Lock
    case Lock => Write
    case Write => Unlock
    case Unlock => Flag
    case Flag => Ask
    case Ask => Wait
    case Wait => ReadLock
    case ReadLock => Read
    case Read => ReadUnlock
    case ReadUnlock => Idle
  }

  function StepSemaphores(c: Client, sem: Semaphores): Semaphores
    requires StepEnabled(c, sem)
  {
    var k := c.req.kind;
    match c.pc
    case Queue => sem.(client := sem.client - 1)
    case InitLock => sem.(lockInit := sem.lockInit - 1)
    case InitUnlock => sem.(lockInit := sem.lockInit + 1)
    case InitFlag => sem.(init := sem.init + 1)
    case Lock => sem.(lock := sem.lock.With(k, sem.lock.At(k) - 1))
    case Unlock => sem.(lock := sem.lock.With(k, sem.lock.At(k) + 1))
    case Flag => sem.(flag := sem.flag.With(k, sem.flag.At(k) + 1))
    case Ask => sem.(server := sem.server + 1)
    case Wait => sem.(processed := sem.processed - 1)
    case ReadLock => sem.(lock := sem.lock.With(k, sem.lock.At(k) - 1))
    case ReadUnlock => sem.(lock := sem.lock.With(k, sem.lock.At(k) + 1))
    case _ => sem
  }

  /** Both kinds of requests write the radar and the center frequency, under different locks. */
  function StepMemory(c: Client, mem: Memory): Memory {
    var i := c.req.inputs;
    match c.pc
    case InitWrite => mem.(meta := c.req.meta, inputs := mem.inputs.(radar := i.radar))
    case Write =>
      if c.req.kind == Samples
      then mem.(samples := c.req.samples, inputs := mem.inputs.(radar := i.radar, fcenter := i.fcenter))
      else mem.(inputs := i)
    case _ => mem
  }

  function StepClient(c: Client, mem: Memory): Client {
    c.(pc := NextPc(c), reply := if c.pc == Read then mem.out.At(c.req.kind) else c.reply)
  }

  function ClientNext(s: State, i: nat): State
    requires i < |s.clients| && StepEnabled(s.clients[i], s.sem)
  {
    var c := s.clients[i];
    State(s.clients[i := StepClient(c, s.mem)], s.server, StepSemaphores(c, s.sem), StepMemory(c, s.mem),
          if c.pc == Queue then i else s.holder, if c.pc == Queue then c.req else s.turn)
  }

  // ---------------------------------------------------------------- the server

  predicate ServeEnabled(pc: ServerPc, sem: Semaphores) {
    match pc
    case Await => sem.server > 0
    case MetaLock => sem.lockInit > 0
    case SamplesLock => sem.lock.samples > 0
    case RangeLock => sem.lock.clearFreq > 0
    case Fatal => false
    case _ => true
  }

  function ServePc(pc: ServerPc, sem: Semaphores): ServerPc {
    match pc
    case Announce => Await
    case Await => TryInit
    case TryInit => if sem.init > 0 then MetaLock else TrySamples
    case MetaLock => MetaRead
    case MetaRead => MetaUnlock
    case MetaUnlock => TrySamples
    case TrySamples => if sem.flag.samples > 0 then SamplesLock else TryClearFreq
    case SamplesLock => SamplesRead
    case SamplesRead => SamplesUnlock
    case SamplesUnlock => WriteMuted
    case WriteMuted => Post
    case TryClearFreq => if sem.flag.clearFreq > 0 then RangeLock else Fatal
    case RangeLock => RangeRead
    case RangeRead => WriteBand
    case WriteBand => BandUnlock
    case BandUnlock => Post
    case Post => Announce
    case Fatal => Fatal
  }

  function ServeSemaphores(pc: ServerPc, sem: Semaphores): Semaphores
    requires ServeEnabled(pc, sem)
  {
    match pc
    case Announce => sem.(client := sem.client + 1)
    case Await => sem.(server := sem.server - 1)
    case TryInit => if sem.init > 0 then sem.(init := sem.init - 1) else sem
    case MetaLock => sem.(lockInit := sem.lockInit - 1)
    case MetaUnlock => sem.(lockInit := sem.lockInit + 1)
    case TrySamples =>
      if sem.flag.samples > 0 then sem.(flag := sem.flag.With(Samples, sem.flag.samples - 1)) else sem
    case SamplesLock => sem.(lock := sem.lock.With(Samples, sem.lock.samples - 1))
    case SamplesUnlock => sem.(lock := sem.lock.With(Samples, sem.lock.samples + 1))
    case TryClearFreq =>
      if sem.flag.clearFreq > 0 then sem.(flag := sem.flag.With(ClearFreq, sem.flag.clearFreq - 1)) else sem
    case RangeLock => sem.(lock := sem.lock.With(ClearFreq, sem.lock.clearFreq - 1))
    case BandUnlock => sem.(lock := sem.lock.With(ClearFreq, sem.lock.clearFreq + 1))
    case Post => sem.(processed := sem.processed + 1)
    case _ => sem
  }

  /** The server keeps what it knew where a request leaves a value out. */
  function AbsorbCommon(known: Inputs, i: Inputs): Inputs {
    known.(radar := if i.radar >= 0 then i.radar else known.radar,
           fcenter := if i.fcenter != 0 then i.fcenter else known.fcenter)
  }

  function AbsorbAll(known: Inputs, i: Inputs): Inputs {
    AbsorbCommon(known, i).(
      channel := if i.channel >= 0 then i.channel else known.channel,
      range := if i.range != 0 then i.range else known.range,
      beam := if i.beam >= 0 then i.beam else known.beam,
      sampleSep := if i.sampleSep != 0 then i.sampleSep else known.sampleSep,
      ifRate := if i.ifRate != 0 then i.ifRate else known.ifRate)
  }

  function ServeServer(server: Server, sem: Semaphores, mem: Memory): Server {
    var pc := ServePc(server.pc, sem);
    match server.pc
    case MetaRead => server.(pc := pc, meta := mem.meta)
    case SamplesRead => server.(pc := pc, samples := mem.samples, known := AbsorbCommon(server.known, mem.inputs))
    case RangeRead => server.(pc := pc, known := AbsorbAll(server.known, mem.inputs))
    case _ => server.(pc := pc)
  }

  function ServeMemory(server: Server, mem: Memory, value: int): Memory {
    var answer := Some(Reply(server.known, server.meta, server.samples, value));
    match server.pc
    case WriteMuted => mem.(out := mem.out.With(Samples, answer))
    case WriteBand => mem.(out := mem.out.With(ClearFreq, answer))
    case _ => mem
  }

  function ServerNext(s: State, value: int): State
    requires ServeEnabled(s.server.pc, s.sem)
  {
    s.(server := ServeServer(s.server, s.sem, s.mem),
       sem := ServeSemaphores(s.server.pc, s.sem),
       mem := ServeMemory(s.server, s.mem, value))
  }

  predicate Enabled(s: State, a: Action) {
    match a
    case Start(i, _) => i < |s.clients| && s.clients[i].pc == Idle
    case Step(i) => i < |s.clients| && StepEnabled(s.clients[i], s.sem)
    case Serve(_) => ServeEnabled(s.server.pc, s.sem)
  }

  function Next(s: State, a: Action): State
    requires Enabled(s, a)
  {
    match a
    case Start(i, req) => s.(clients := s.clients[i := Client(Queue, req, None)])
    case Step(i) => ClientNext(s, i)
    case Serve(value) => ServerNext(s, value)
  }

  predicate IsRun(ss: seq<State>, acts: seq<Action>) {
    && |ss| == |acts| + 1
    && IsInit(ss[0])
    && forall k :: 0 <= k < |acts| ==> Enabled(ss[k], acts[k]) && ss[k + 1] == Next(ss[k], acts[k])
  }

  // ---------------------------------------------------------------- counting clients

  function Sum(cs: seq<Client>, weight: Client -> nat): nat {
    if cs == [] then 0 else Sum(cs[..|cs| - 1], weight) + weight(cs[|cs| - 1])
  }

  lemma {:induction false} SumUpdate(cs: seq<Client>, i: nat, c: Client, weight: Client -> nat)
    requires i < |cs|
    ensures Sum(cs[i := c], weight) == Sum(cs, weight) - weight(cs[i]) + weight(c)
    ensures weight(cs[i]) <= Sum(cs, weight)
    decreases |cs|
  {
    var n := |cs| - 1;
    if i == n {
      assert cs[i := c][..n] == cs[..n];
    } else {
      assert cs[i := c][..n] == cs[..n][i := c];
      SumUpdate(cs[..n], i, c, weight);
    }
  }

  /** Two clients contribute separately. */
  lemma {:induction false} SumOfTwo(cs: seq<Client>, i: nat, j: nat, weight: Client -> nat)
    requires i < |cs| && j < |cs| && i != j
    ensures weight(cs[i]) + weight(cs[j]) <= Sum(cs, weight)
    decreases |cs|
  {
    var n := |cs| - 1;
    if i == n {
      SumUpdate(cs[..n], j, cs[j], weight);
    } else if j == n {
      SumUpdate(cs[..n], i, cs[i], weight);
    } else {
      SumOfTwo(cs[..n], i, j, weight);
    }
  }

  lemma {:induction false} SomeClient(cs: seq<Client>, weight: Client -> nat) returns (i: nat)
    requires Sum(cs, weight) > 0
    ensures i < |cs| && weight(cs[i]) > 0
  {
    var n := |cs| - 1;
    if weight(cs[n]) > 0 { i := n; } else { i := SomeClient(cs[..n], weight); }
  }

  /** Between taking sf_client and posting sf_server. */
  function Writer(c: Client): nat {
    if c.pc.InitLock? || c.pc.InitWrite? || c.pc.InitUnlock? || c.pc.InitFlag?
       || c.pc.Lock? || c.pc.Write? || c.pc.Unlock? || c.pc.Flag? || c.pc.Ask? then 1 else 0
  }

  function Waiter(c: Client): nat { if c.pc.Wait? then 1 else 0 }

  function HoldsInit(c: Client): nat { if c.pc.InitWrite? || c.pc.InitUnlock? then 1 else 0 }

  function HoldsSamples(c: Client): nat {
    if c.req.kind == Samples && (c.pc.Write? || c.pc.Unlock? || c.pc.Read? || c.pc.ReadUnlock?) then 1 else 0
  }

  function HoldsClearFreq(c: Client): nat {
    if c.req.kind == ClearFreq && (c.pc.Write? || c.pc.Unlock? || c.pc.Read? || c.pc.ReadUnlock?) then 1 else 0
  }
}
