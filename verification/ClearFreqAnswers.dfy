/** What the answers of the clear frequency server rest on: every value is the one that was given by the
    latest request which gave it, in the order in which the requests took their turn. */
module ClearFreqAnswers {
  import opened Wrappers
  import opened ClearFreqProtocol
  import opened ClearFreqTheorems

  /** The values of a request, and those an answer is computed from. */
  datatype Field = Radar | Fcenter | Channel | Range | Beam | SampleSep | IfRate | MetaData | SampleData

  /** What a request says about a value; nothing if it leaves it out. */
  function Given(req: Request, f: Field): Option<int> {
    var i := req.inputs;
    match f
    case Radar => if i.radar >= 0 then Some(i.radar) else None
    case Fcenter => if i.fcenter != 0 then Some(i.fcenter) else None
    case Channel => if req.kind == ClearFreq && i.channel >= 0 then Some(i.channel) else None
    case Range => if req.kind == ClearFreq && i.range != 0 then Some(i.range) else None
    case Beam => if req.kind == ClearFreq && i.beam >= 0 then Some(i.beam) else None
    case SampleSep => if req.kind == ClearFreq && i.sampleSep != 0 then Some(i.sampleSep) else None
    case IfRate => if req.kind == ClearFreq && i.ifRate != 0 then Some(i.ifRate) else None
    case MetaData => if req.kind == Samples then Some(req.meta) else None
    case SampleData => if req.kind == Samples then Some(req.samples) else None
  }

  /** The value in the latest of the requests that gave one. */
  function Latest(turns: seq<Request>, f: Field, initial: int): int {
    if turns == [] then initial
    else
      var n := |turns| - 1;
      if Given(turns[n], f).Some? then Given(turns[n], f).value else Latest(turns[..n], f, initial)
  }

  /** Nothing given later replaces it. */
  lemma {:induction false} LatestIs(turns: seq<Request>, f: Field, initial: int, k: nat)
    requires k < |turns| && Given(turns[k], f).Some?
    requires forall j :: k < j < |turns| ==> Given(turns[j], f) == None
    ensures Latest(turns, f, initial) == Given(turns[k], f).value
    decreases |turns|
  {
    var n := |turns| - 1;
    if k < n { LatestIs(turns[..n], f, initial, k); }
  }

  function InputOf(i: Inputs, meta: int, samples: int, f: Field): int {
    match f
    case Radar => i.radar case Fcenter => i.fcenter case Channel => i.channel case Range => i.range
    case Beam => i.beam case SampleSep => i.sampleSep case IfRate => i.ifRate
    case MetaData => meta case SampleData => samples
  }

  function Known(server: Server, f: Field): int { InputOf(server.known, server.meta, server.samples, f) }

  /** The answer was computed from the latest values. */
  ghost predicate RestsOn(reply: Option<Reply>, turns: seq<Request>, initial: Server) {
    reply.Some? && forall f: Field ::
      InputOf(reply.value.inputs, reply.value.meta, reply.value.samples, f) == Latest(turns, f, Known(initial, f))
  }

  /** The requests that have taken their turn so far. */
  function Turns(ss: seq<State>, acts: seq<Action>, k: nat): seq<Request>
    requires |ss| == |acts| + 1 && k <= |acts|
  {
    if k == 0 then [] else Turns(ss, acts, k - 1) + Taken(ss[k - 1], acts[k - 1])
  }

  function Taken(s: State, a: Action): seq<Request> {
    if a.Step? && a.i < |s.clients| && s.clients[a.i].pc == Queue then [s.clients[a.i].req] else []
  }

  // ---------------------------------------------------------------- what the server knows

  /** The server has taken over this value of the request whose turn it is, if that gave one. */
  predicate Absorbed(s: State, f: Field) {
    match s.server.pc
    case Announce => true case SamplesUnlock => true case WriteMuted => true
    case WriteBand => true case BandUnlock => true case Post => true
    case Await => s.sem.client > 0
    case MetaUnlock => f == MetaData case SamplesLock => f == MetaData case SamplesRead => f == MetaData
    case TrySamples => f == MetaData && s.turn.kind == Samples
    case _ => false
  }

  /** The server knows the latest value of all requests, or of those before the one whose turn it is. */
  ghost predicate KnownInv(s: State, turns: seq<Request>, initial: Server) {
    && (if turns == [] then s.server.pc == Announce || (s.server.pc == Await && s.sem.client > 0)
        else turns[|turns| - 1] == s.turn)
    && forall f: Field ::
         if Absorbed(s, f) then Known(s.server, f) == Latest(turns, f, Known(initial, f))
         else turns != [] && Known(s.server, f) == Latest(turns[..|turns| - 1], f, Known(initial, f))
  }

  lemma KnownTaken(s: State, i: nat, turns: seq<Request>, initial: Server)
    requires TokenInv(s) && KnownInv(s, turns, initial) && Enabled(s, Step(i)) && s.clients[i].pc == Queue
    ensures KnownInv(Next(s, Step(i)), turns + [s.clients[i].req], initial)
  {
    assert (turns + [s.clients[i].req])[..|turns|] == turns;
  }

  /** Only the server, the request whose turn it is and sf_client matter. */
  lemma KnownFrame(s: State, t: State, turns: seq<Request>, initial: Server)
    requires KnownInv(s, turns, initial)
    requires t.server == s.server && t.turn == s.turn && t.sem.client == s.sem.client
    ensures KnownInv(t, turns, initial)
  {
    assert forall f: Field :: Absorbed(t, f) == Absorbed(s, f);
  }

  lemma StepFrame(s: State, i: nat)
    requires Enabled(s, Step(i)) && s.clients[i].pc != Queue
    ensures var t := Next(s, Step(i));
      t.server == s.server && t.turn == s.turn && t.sem.client == s.sem.client && t.mem.out == s.mem.out
  {}

  predicate Reading(pc: ServerPc) { pc == MetaRead || pc == SamplesRead || pc == RangeRead }

  lemma KnownRead(s: State, value: int, turns: seq<Request>, initial: Server, f: Field)
    requires TurnInv(s) && UnreadInv(s) && KnownInv(s, turns, initial) && Enabled(s, Serve(value))
    requires Reading(s.server.pc)
    ensures var t := Next(s, Serve(value));
      if Absorbed(t, f) then Known(t.server, f) == Latest(turns, f, Known(initial, f))
      else turns != [] && Known(t.server, f) == Latest(turns[..|turns| - 1], f, Known(initial, f))
  {}

  /** Where the server does not read shared memory, nothing changes. */
  lemma KnownServed(s: State, value: int, f: Field)
    requires TokenInv(s) && TurnInv(s) && Enabled(s, Serve(value)) && !Reading(s.server.pc)
    ensures var t := Next(s, Serve(value));
      Absorbed(t, f) == Absorbed(s, f) && Known(t.server, f) == Known(s.server, f)
  {}

  lemma KnownKept(s: State, a: Action, turns: seq<Request>, initial: Server)
    requires Inv(s) && KnownInv(s, turns, initial) && Enabled(s, a)
    ensures KnownInv(Next(s, a), turns + Taken(s, a), initial)
  {
    match a
    case Start(i, req) =>
      assert turns + [] == turns;
      KnownFrame(s, Next(s, a), turns, initial);
    case Step(i) =>
      if s.clients[i].pc == Queue {
        KnownTaken(s, i, turns, initial);
      } else {
        assert turns + [] == turns;
        StepFrame(s, i);
        KnownFrame(s, Next(s, a), turns, initial);
      }
    case Serve(value) =>
      assert turns + [] == turns;
      forall f: Field
        ensures var t := Next(s, a);
          if Absorbed(t, f) then Known(t.server, f) == Latest(turns, f, Known(initial, f))
          else turns != [] && Known(t.server, f) == Latest(turns[..|turns| - 1], f, Known(initial, f))
      {
        if Reading(s.server.pc) { KnownRead(s, value, turns, initial, f); } else { KnownServed(s, value, f); }
      }
  }

  lemma {:induction false} KnownAlways(ss: seq<State>, acts: seq<Action>, k: nat)
    requires IsRun(ss, acts) && k <= |acts|
    ensures KnownInv(ss[k], Turns(ss, acts, k), ss[0].server)
  {
    if k > 0 {
      KnownAlways(ss, acts, k - 1);
      RunKept(ss, acts, k - 1);
      assert Enabled(ss[k - 1], acts[k - 1]) && ss[k - 1 + 1] == Next(ss[k - 1], acts[k - 1]);
      KnownKept(ss[k - 1], acts[k - 1], Turns(ss, acts, k - 1), ss[0].server);
    }
  }

  /** Over every run, with any number of requests in flight: every answer rests on the samples and meta
      data of the latest send_samples and on the latest radar, frequency, beam and so on that any request
      gave, up to the one whose turn it is. */
  lemma AnswersRestOnLatest(ss: seq<State>, acts: seq<Action>, k: nat)
    requires IsRun(ss, acts) && k < |acts| && acts[k].Serve?
    requires ss[k].server.pc == WriteMuted || ss[k].server.pc == WriteBand
    ensures var turns := Turns(ss, acts, k);
      var answer := ss[k + 1].mem.out.At(ss[k].turn.kind);
      && turns != [] && turns[|turns| - 1] == ss[k].turn
      && RestsOn(answer, turns, ss[0].server) && answer.value.value == acts[k].value
  {
    KnownAlways(ss, acts, k);
    RunKept(ss, acts, k);
    assert ss[k + 1] == Next(ss[k], acts[k]);
    assert forall f: Field :: Absorbed(ss[k], f);
  }

  // ---------------------------------------------------------------- with one request in flight

  ghost predicate ToldInv(s: State, turns: seq<Request>, initial: Server) {
    && (turns == [] ==> forall i :: 0 <= i < |s.clients| ==> !InFlight(s.clients[i]))
    && (s.server.pc.BandUnlock? || s.server.pc.Post? ==> RestsOn(s.mem.out.At(s.turn.kind), turns, initial))
    && (forall i :: 0 <= i < |s.clients| && InFlight(s.clients[i]) && Answered(s, s.clients[i]) ==>
          RestsOn(s.mem.out.At(s.turn.kind), turns, initial))
    && (forall i :: 0 <= i < |s.clients| && s.clients[i].pc == ReadUnlock ==>
          RestsOn(s.clients[i].reply, turns, initial))
  }

  lemma ToldTaken(s: State, i: nat, turns: seq<Request>, initial: Server)
    requires TokenInv(s) && Enabled(s, Step(i)) && s.clients[i].pc == Queue && Alone(s, Step(i)) && turns != []
    ensures ToldInv(Next(s, Step(i)), turns, initial)
  {
    var t := Next(s, Step(i));
    assert forall j :: 0 <= j < |t.clients| && j != i ==> t.clients[j] == s.clients[j];
  }

  /** Asking does not answer: no old answer is left to be taken. */
  lemma NothingLeft(s: State, i: nat)
    requires Inv(s) && ReplyInv(s) && Enabled(s, Step(i)) && s.clients[i].pc == Ask
    ensures !Answered(Next(s, Step(i)), Next(s, Step(i)).clients[i])
  {
    var t := Next(s, Step(i));
    OneWriter(s, i);
    StepKept(s, Step(i));
    OthersRest(s, i);
    BusyMeansWaiting(t, i);
  }

  lemma ToldStep(s: State, i: nat, turns: seq<Request>, initial: Server)
    requires ReplyInv(s) && ToldInv(s, turns, initial) && Enabled(s, Step(i)) && s.clients[i].pc != Queue
    requires s.clients[i].pc == Ask ==> !Answered(Next(s, Step(i)), Next(s, Step(i)).clients[i])
    ensures ToldInv(Next(s, Step(i)), turns, initial)
  {
    var t := Next(s, Step(i));
    assert forall j :: 0 <= j < |t.clients| && j != i ==> t.clients[j] == s.clients[j];
    StepFrame(s, i);
  }

  /** Whoever is in flight is so alone. */
  lemma OthersRest(s: State, i: nat)
    requires ReplyInv(s) && i < |s.clients| && InFlight(s.clients[i])
    ensures forall j :: 0 <= j < |s.clients| && j != i ==> !InFlight(s.clients[j])
  {}

  lemma ToldServed(s: State, value: int, turns: seq<Request>, initial: Server)
    requires Inv(s) && ReplyInv(s) && ToldInv(s, turns, initial) && KnownInv(s, turns, initial)
    requires Enabled(s, Serve(value))
    ensures ToldInv(Next(s, Serve(value)), turns, initial)
  {
    var t := Next(s, Serve(value));
    assert forall f: Field :: s.server.pc.WriteMuted? || s.server.pc.WriteBand? ==> Absorbed(s, f);
    forall i | 0 <= i < |t.clients| && InFlight(t.clients[i]) && Answered(t, t.clients[i])
      ensures RestsOn(t.mem.out.At(t.turn.kind), turns, initial)
    {
      if Busy(s.server.pc) == 1 { OthersRest(s, i); BusyMeansWaiting(s, i); }
    }
  }

  lemma ToldKept(s: State, a: Action, turns: seq<Request>, initial: Server)
    requires Inv(s) && ReplyInv(s) && ToldInv(s, turns, initial) && KnownInv(s, turns, initial)
    requires Enabled(s, a) && Alone(s, a)
    ensures ToldInv(Next(s, a), turns + Taken(s, a), initial)
  {
    match a
    case Start(i, req) =>
      assert turns + [] == turns;
      var t := Next(s, a);
      assert forall j :: 0 <= j < |t.clients| && j != i ==> t.clients[j] == s.clients[j];
    case Step(i) =>
      if s.clients[i].pc == Queue {
        ToldTaken(s, i, turns + [s.clients[i].req], initial);
      } else {
        assert turns + [] == turns;
        if s.clients[i].pc == Ask { NothingLeft(s, i); }
        ToldStep(s, i, turns, initial);
      }
    case Serve(value) =>
      assert turns + [] == turns;
      ToldServed(s, value, turns, initial);
  }

  lemma {:induction false} ToldAlways(ss: seq<State>, acts: seq<Action>, k: nat)
    requires IsRun(ss, acts) && k <= |acts| && forall j :: 0 <= j < |acts| ==> Alone(ss[j], acts[j])
    ensures ToldInv(ss[k], Turns(ss, acts, k), ss[0].server)
  {
    if k > 0 {
      ToldAlways(ss, acts, k - 1);
      KnownAlways(ss, acts, k - 1);
      RepliesKept(ss, acts, k - 1);
      assert Enabled(ss[k - 1], acts[k - 1]) && ss[k - 1 + 1] == Next(ss[k - 1], acts[k - 1]);
      assert Alone(ss[k - 1], acts[k - 1]);
      ToldKept(ss[k - 1], acts[k - 1], Turns(ss, acts, k - 1), ss[0].server);
    }
  }

  /** With at most one request in flight, the answer a client gets rests on the latest values given by
      all requests up to its own, which is the last one. */
  lemma OwnAnswer(ss: seq<State>, acts: seq<Action>, k: nat, i: nat)
    requires IsRun(ss, acts) && k <= |acts| && i < |ss[k].clients| && ss[k].clients[i].pc == ReadUnlock
    requires forall j :: 0 <= j < |acts| ==> Alone(ss[j], acts[j])
    ensures var turns := Turns(ss, acts, k);
      && turns != [] && turns[|turns| - 1] == ss[k].clients[i].req
      && RestsOn(ss[k].clients[i].reply, turns, ss[0].server)
  {
    ToldAlways(ss, acts, k);
    KnownAlways(ss, acts, k);
    RepliesKept(ss, acts, k);
  }
}
