/** Decoding of a pulse sequence in RegisterSeqHandler of usrp_server.py: the run-length code is
    expanded to one byte per tick, and the pulses are the runs of a bit. */
module SequenceDecoder {

  datatype Result<+T> = Ok(value: T) | Err(failure: Failure)

  /** "register empty sequence", or an index error. */
  datatype Failure = EmptySequence | NoEdge

  const SAMPLE_BIT: bv8 := 0x01
  const GATE_BIT: bv8 := 0x02
  const PULSE_BIT: bv8 := 0x04
  const PHASE_BIT: bv8 := 0x10

  datatype Pulse = Pulse(start: nat, length: nat)

  /** What the handler stores; times are multiples of the tick length `step`. */
  datatype Sequence = Sequence(
    offsets: seq<int>, gateToPulse: int, pulses: seq<Pulse>, lengths: seq<int>,
    phases: seq<seq<bool>>, samples: nat)

  // ---------------------------------------------------------------- run-length code

  function Repeat(code: bv8, n: int): (r: seq<bv8>)
    ensures |r| == if n > 0 then n else 0
  {
    seq(if n > 0 then n else 0, i => code)
  }

  function Expanded(rep: seq<int>, code: seq<bv8>): seq<bv8>
    requires |rep| == |code|
  {
    if rep == [] then [] else Expanded(rep[..|rep| - 1], code[..|rep| - 1]) + Repeat(code[|rep| - 1], rep[|rep| - 1])
  }

  /** Ticks before entry i. */
  function Ticks(rep: seq<int>, i: nat): nat
    requires i <= |rep|
  {
    if i == 0 then 0 else Ticks(rep, i - 1) + (if rep[i - 1] > 0 then rep[i - 1] else 0)
  }

  lemma {:induction false} TicksPrefix(rep: seq<int>, n: nat, i: nat)
    requires i <= n <= |rep|
    ensures Ticks(rep[..n], i) == Ticks(rep, i)
  {
    if i > 0 { TicksPrefix(rep, n, i - 1); }
  }

  lemma {:induction false} TicksGrow(rep: seq<int>, i: nat, j: nat)
    requires i <= j <= |rep|
    ensures Ticks(rep, i) <= Ticks(rep, j)
    decreases j
  {
    if i < j { TicksGrow(rep, i, j - 1); }
  }

  /** Entry i fills the ticks between the sums of the counts before and after it. */
  lemma {:induction false} ExpandedAt(rep: seq<int>, code: seq<bv8>, i: nat, t: nat)
    requires |rep| == |code| && i < |rep| && Ticks(rep, i) <= t < Ticks(rep, i + 1)
    ensures t < |Expanded(rep, code)| == Ticks(rep, |rep|) && Expanded(rep, code)[t] == code[i]
    decreases |rep|
  {
    var n := |rep| - 1;
    ExpandedLength(rep, code);
    TicksGrow(rep, i + 1, |rep|);
    if i < n {
      TicksPrefix(rep, n, i);
      TicksPrefix(rep, n, i + 1);
      ExpandedAt(rep[..n], code[..n], i, t);
    } else {
      ExpandedLength(rep[..n], code[..n]);
      TicksPrefix(rep, n, n);
    }
  }

  lemma {:induction false} ExpandedLength(rep: seq<int>, code: seq<bv8>)
    requires |rep| == |code|
    ensures |Expanded(rep, code)| == Ticks(rep, |rep|)
    decreases |rep|
  {
    if rep != [] {
      var n := |rep| - 1;
      ExpandedLength(rep[..n], code[..n]);
      TicksPrefix(rep, n, n);
    }
  }

  method Expand(rep: seq<int>, code: seq<bv8>) returns (buf: seq<bv8>)
    requires |rep| == |code|
    ensures buf == Expanded(rep, code)
  {
    buf := [];
    for i := 0 to |rep|
      invariant buf == Expanded(rep[..i], code[..i])
    {
      ghost var before := buf;
      var j := 0;
      while j < rep[i]
        invariant 0 <= j && (j <= rep[i] || j == 0)
        invariant buf == before + Repeat(code[i], j)
      {
        buf := buf + [code[i]];
        j := j + 1;
      }
      assert rep[..i + 1][..i] == rep[..i] && code[..i + 1][..i] == code[..i];
    }
    assert rep[..|rep|] == rep && code[..|rep|] == code;
  }

  // ---------------------------------------------------------------- edges

  /** The ticks at which a bit is set. */
  function Mask(buf: seq<bv8>, bit: bv8): (m: seq<bool>)
    ensures |m| == |buf|
  {
    seq(|buf|, k requires 0 <= k < |buf| => buf[k] & bit != 0)
  }

  /** np.nonzero of the first n elements. */
  function Nonzero(mask: seq<bool>, n: nat): seq<int>
    requires n <= |mask|
  {
    if n == 0 then [] else Nonzero(mask, n - 1) + (if mask[n - 1] then [n - 1] else [])
  }

  method FindNonzero(mask: seq<bool>) returns (idx: seq<int>)
    ensures idx == Nonzero(mask, |mask|)
  {
    idx := [];
    for k := 0 to |mask|
      invariant idx == Nonzero(mask, k)
    {
      if mask[k] { idx := idx + [k]; }
    }
  }

  /** The entries of idx that are more than one above their predecessor (the first one always is,
      because -2 is put in front), without those at tick 0. */
  function Edges(idx: seq<int>): seq<int> {
    if idx == [] then []
    else
      var n := |idx| - 1;
      var prev := if n == 0 then -2 else idx[n - 1];
      Edges(idx[..n]) + (if idx[n] - prev > 1 && idx[n] > 0 then [idx[n]] else [])
  }

  method RisingEdgeIdx(idx: seq<int>) returns (edges: seq<int>)
    requires forall k :: 0 <= k < |idx| ==> idx[k] >= 0
    ensures edges == Edges(idx)
  {
    var ar := [-2] + idx;
    edges := [];
    for i := 0 to |ar| - 1
      invariant edges == Edges(idx[..i])
    {
      assert idx[..i + 1][..i] == idx[..i];
      var edge := ar[i + 1] * (if ar[i + 1] - ar[i] > 1 then 1 else 0);
      if edge > 0 { edges := edges + [edge]; }
    }
    assert idx[..|idx|] == idx;
  }

  predicate Rises(mask: seq<bool>, k: int) { 0 < k < |mask| && mask[k] && !mask[k - 1] }

  predicate Increasing(s: seq<int>) { forall i, j :: 0 <= i < j < |s| ==> s[i] < s[j] }

  lemma Append(s: seq<int>, x: int)
    requires Increasing(s) && forall k :: k in s ==> k < x
    ensures Increasing(s + [x])
    ensures forall k :: k in s + [x] <==> k in s || k == x
  {
    assert forall i :: 0 <= i < |s| ==> s[i] in s;
  }

  lemma {:induction false} NonzeroIs(mask: seq<bool>, n: nat)
    requires n <= |mask|
    ensures Increasing(Nonzero(mask, n))
    ensures forall k :: k in Nonzero(mask, n) <==> 0 <= k < n && mask[k]
  {
    if n > 0 {
      NonzeroIs(mask, n - 1);
      Append(Nonzero(mask, n - 1), n - 1);
    }
  }

  /** The last set tick below n is n - 1 exactly if that tick is set. */
  lemma LastNonzero(mask: seq<bool>, n: nat)
    requires 0 < n <= |mask| && Nonzero(mask, n) != []
    ensures var ix := Nonzero(mask, n); ix[|ix| - 1] <= n - 1 && (ix[|ix| - 1] == n - 1 <==> mask[n - 1])
  {
    NonzeroIs(mask, n);
    var ix := Nonzero(mask, n);
    assert ix[|ix| - 1] in ix;
  }

  lemma EdgesOfAppend(s: seq<int>, x: int)
    ensures var prev := if s == [] then -2 else s[|s| - 1];
      Edges(s + [x]) == if x - prev > 1 && x > 0 then Edges(s) + [x] else Edges(s)
  {
    assert (s + [x])[..|s|] == s;
  }

  /** The next tick is more than one above the last set tick exactly if the tick before it is not set. */
  lemma GapBefore(mask: seq<bool>, n: nat)
    requires 1 < n <= |mask|
    ensures var before := Nonzero(mask, n - 1);
      (n - 1) - (if before == [] then -2 else before[|before| - 1]) > 1 <==> !mask[n - 2]
  {
    var before := Nonzero(mask, n - 1);
    NonzeroIs(mask, n - 1);
    assert mask[n - 2] <==> n - 2 in before;
    if before != [] { LastNonzero(mask, n - 1); }
  }

  /** What the next tick adds to the edges. */
  lemma EdgesStep(mask: seq<bool>, n: nat, before: seq<int>, after: seq<int>)
    requires 0 < n <= |mask| && before == Nonzero(mask, n - 1) && after == Nonzero(mask, n)
    ensures Edges(after) == if Rises(mask, n - 1) then Edges(before) + [n - 1] else Edges(before)
  {
    if mask[n - 1] {
      EdgesOfAppend(before, n - 1);
      if n > 1 { GapBefore(mask, n); }
    } else {
      assert after == before;
    }
  }

  /** These are the ticks below n at which the mask rises. */
  ghost predicate AreRising(mask: seq<bool>, n: nat, edges: seq<int>) {
    Increasing(edges) && forall k :: k in edges <==> k < n && Rises(mask, k)
  }

  lemma OneMoreTick(mask: seq<bool>, n: nat, edges: seq<int>)
    requires 0 < n <= |mask| && AreRising(mask, n - 1, edges)
    ensures AreRising(mask, n, if Rises(mask, n - 1) then edges + [n - 1] else edges)
  {
    if Rises(mask, n - 1) { Append(edges, n - 1); }
  }

  lemma {:induction false} EdgesRise(mask: seq<bool>, n: nat)
    requires n <= |mask|
    ensures AreRising(mask, n, Edges(Nonzero(mask, n)))
  {
    if n > 0 {
      EdgesRise(mask, n - 1);
      OneMoreTick(mask, n, Edges(Nonzero(mask, n - 1)));
      EdgesStep(mask, n, Nonzero(mask, n - 1), Nonzero(mask, n));
    }
  }

  // ---------------------------------------------------------------- pulses

  function RunLength(mask: seq<bool>, k: nat): (n: nat)
    requires k <= |mask|
    ensures k + n <= |mask| && (forall j :: k <= j < k + n ==> mask[j]) && (k + n < |mask| ==> !mask[k + n])
    decreases |mask| - k
  {
    if k < |mask| && mask[k] then 1 + RunLength(mask, k + 1) else 0
  }

  method PulseLen(mask: seq<bool>, k: nat) returns (n: nat)
    requires k <= |mask|
    ensures n == RunLength(mask, k)
  {
    n := 0;
    while k + n < |mask|
      invariant k + n <= |mask| && n + RunLength(mask, k + n) == RunLength(mask, k)
    {
      if !mask[k + n] { break; }
      n := n + 1;
    }
  }

  /** The pulses of a mask: its rising edges and the run lengths there. */
  function PulsesOf(mask: seq<bool>): (ps: seq<Pulse>)
    ensures |ps| == |Edges(Nonzero(mask, |mask|))|
  {
    EdgesRise(mask, |mask|);
    var edges := Edges(Nonzero(mask, |mask|));
    seq(|edges|, i requires 0 <= i < |edges| => assert edges[i] in edges; Pulse(edges[i], RunLength(mask, edges[i])))
  }

  /** A maximal run of the mask. */
  predicate Run(mask: seq<bool>, p: Pulse) {
    && p.length > 0 && p.start + p.length <= |mask|
    && (forall j :: p.start <= j < p.start + p.length ==> mask[j])
    && (p.start > 0 ==> !mask[p.start - 1])
    && (p.start + p.length < |mask| ==> !mask[p.start + p.length])
  }

  lemma RunDetermined(mask: seq<bool>, p: Pulse)
    requires Run(mask, p)
    ensures p.length == RunLength(mask, p.start)
  {
    var n := RunLength(mask, p.start);
    assert p.start + n < |mask| ==> !mask[p.start + n];
    assert p.start + p.length < |mask| ==> !mask[p.start + p.length];
  }

  lemma PulseAt(mask: seq<bool>, i: nat)
    requires i < |PulsesOf(mask)|
    ensures var p := PulsesOf(mask)[i];
      Run(mask, p) && Rises(mask, p.start) && p.start == Edges(Nonzero(mask, |mask|))[i]
  {
    EdgesRise(mask, |mask|);
    assert Edges(Nonzero(mask, |mask|))[i] in Edges(Nonzero(mask, |mask|));
  }

  lemma RunIsPulse(mask: seq<bool>, p: Pulse)
    requires Run(mask, p) && p.start > 0
    ensures p in PulsesOf(mask)
  {
    EdgesRise(mask, |mask|);
    var edges := Edges(Nonzero(mask, |mask|));
    RunDetermined(mask, p);
    assert Rises(mask, p.start);
    var i :| 0 <= i < |edges| && edges[i] == p.start;
    assert PulsesOf(mask)[i] == p;
  }

  /** The pulses are exactly the maximal runs that do not begin at tick 0 ... */
  lemma PulsesAreRuns(mask: seq<bool>)
    ensures forall p :: p in PulsesOf(mask) <==> Run(mask, p) && p.start > 0
  {
    forall p ensures p in PulsesOf(mask) <==> Run(mask, p) && p.start > 0 {
      if p in PulsesOf(mask) {
        var i :| 0 <= i < |PulsesOf(mask)| && PulsesOf(mask)[i] == p;
        PulseAt(mask, i);
      }
      if Run(mask, p) && p.start > 0 { RunIsPulse(mask, p); }
    }
  }

  /** ... in order, with at least one tick between them. */
  lemma PulsesInOrder(mask: seq<bool>, i: nat, j: nat)
    requires i < j < |PulsesOf(mask)|
    ensures PulsesOf(mask)[i].start + PulsesOf(mask)[i].length < PulsesOf(mask)[j].start
  {
    EdgesRise(mask, |mask|);
    PulseAt(mask, i);
    PulseAt(mask, j);
    assert !mask[PulsesOf(mask)[j].start - 1];
  }

  predicate Covers(p: Pulse, k: int) { p.start <= k < p.start + p.length }

  /** The mask that a list of pulses describes. */
  function Rebuild(ps: seq<Pulse>, n: nat): (mask: seq<bool>)
    ensures |mask| == n
  {
    seq(n, k => exists i :: 0 <= i < |ps| && Covers(ps[i], k))
  }

  /** Where the run around tick k begins. */
  function RunStart(mask: seq<bool>, k: nat): (s: nat)
    requires k < |mask| && mask[k]
    ensures s <= k && (forall j :: s <= j <= k ==> mask[j]) && (s > 0 ==> !mask[s - 1])
  {
    if k == 0 || !mask[k - 1] then k else RunStart(mask, k - 1)
  }

  lemma SetTickCovered(mask: seq<bool>, k: nat)
    requires k < |mask| && mask[k] && !mask[0]
    ensures exists i :: 0 <= i < |PulsesOf(mask)| && Covers(PulsesOf(mask)[i], k)
  {
    var s := RunStart(mask, k);
    var p := Pulse(s, RunLength(mask, s));
    assert p.start + p.length < |mask| ==> !mask[p.start + p.length];
    PulsesAreRuns(mask);
    assert Run(mask, p) && s > 0;
    assert p in PulsesOf(mask);
  }

  /** Rebuilding the mask from the pulses returns it, exactly if tick 0 is low. */
  lemma RoundTrip(mask: seq<bool>)
    ensures Rebuild(PulsesOf(mask), |mask|) == mask <==> (mask == [] || !mask[0])
  {
    PulsesAreRuns(mask);
    var ps, again := PulsesOf(mask), Rebuild(PulsesOf(mask), |mask|);
    assert forall i :: 0 <= i < |ps| ==> ps[i] in ps;
    if mask == [] || !mask[0] {
      forall k | 0 <= k < |mask| ensures again[k] == mask[k] {
        if mask[k] { SetTickCovered(mask, k); }
      }
    } else {
      assert !again[0];
    }
  }

  // ---------------------------------------------------------------- the handler

  function Starts(ps: seq<Pulse>, step: int): (r: seq<int>)
    ensures |r| == |ps|
  {
    seq(|ps|, i requires 0 <= i < |ps| => ps[i].start * step)
  }

  /** The numpy product of a vector and a number. */
  function Scale(edges: seq<int>, step: int): (r: seq<int>)
    ensures |r| == |edges| && forall i :: 0 <= i < |r| ==> r[i] == edges[i] * step
  {
    seq(|edges|, i requires 0 <= i < |edges| => edges[i] * step)
  }

  lemma StartsScaled(ps: seq<Pulse>, edges: seq<int>, step: int)
    requires |edges| == |ps| && forall i :: 0 <= i < |edges| ==> edges[i] == ps[i].start
    ensures Scale(edges, step) == Starts(ps, step)
  {}

  function Lengths(ps: seq<Pulse>, step: int): (r: seq<int>)
    ensures |r| == |ps|
  {
    seq(|ps|, i requires 0 <= i < |ps| => ps[i].length * step)
  }

  /** The phase bits of every pulse, tick by tick. */
  function Phases(phase: seq<bool>, ps: seq<Pulse>): (r: seq<seq<bool>>)
    requires forall i :: 0 <= i < |ps| ==> ps[i].start + ps[i].length <= |phase|
    ensures |r| == |ps|
  {
    seq(|ps|, i requires 0 <= i < |ps| => phase[ps[i].start..ps[i].start + ps[i].length])
  }

  /** What the handler is to compute from the ticks. Too few samples, or no edge of the gate or of
      the pulses, end it with an exception. */
  function Decoded(buf: seq<bv8>, step: int): (r: Result<Sequence>) {
    var gates, pulses := PulsesOf(Mask(buf, GATE_BIT)), PulsesOf(Mask(buf, PULSE_BIT));
    var samples := |Nonzero(Mask(buf, SAMPLE_BIT), |buf|)|;
    PulsesAreRuns(Mask(buf, PULSE_BIT));
    assert forall i :: 0 <= i < |pulses| ==> pulses[i] in pulses;
    if samples <= 3 then Err(EmptySequence)
    else if gates == [] || pulses == [] then Err(NoEdge)
    else Ok(Sequence(Starts(gates, step), (pulses[0].start - gates[0].start) * step, pulses, Lengths(pulses, step),
                     Phases(Mask(buf, PHASE_BIT), pulses), samples))
  }

  /** The four bits of every tick. */
  lemma MaskIs(buf: seq<bv8>, k: nat)
    requires k < |buf|
    ensures Mask(buf, SAMPLE_BIT)[k] <==> buf[k] & 1 != 0
    ensures Mask(buf, GATE_BIT)[k] <==> buf[k] & 2 != 0
    ensures Mask(buf, PULSE_BIT)[k] <==> buf[k] & 4 != 0
    ensures Mask(buf, PHASE_BIT)[k] <==> buf[k] & 16 != 0
  {}

  /** What is stored: the offsets are where the gates begin; the pulses are the runs of the pulse bit in
      order, with their lengths and the phase bit of each of their ticks; and the first pulse begins
      gateToPulse after the first gate. */
  ghost predicate Describes(q: Sequence, gate: seq<bool>, pulse: seq<bool>, phase: seq<bool>, step: int) {
    && (exists edges :: AreRising(gate, |gate|, edges) && AreMultiples(q.offsets, edges, step))
    && (forall p :: p in q.pulses <==> Run(pulse, p) && p.start > 0)
    && (forall i, j :: 0 <= i < j < |q.pulses| ==> q.pulses[i].start < q.pulses[j].start)
    && |q.pulses| == |q.lengths| == |q.phases| > 0 && |q.offsets| > 0
    && (forall i :: 0 <= i < |q.pulses| ==> PulseIs(q.pulses[i], q.lengths[i], q.phases[i], phase, step))
    && q.offsets[0] + q.gateToPulse == q.pulses[0].start * step
  }

  predicate AreMultiples(offsets: seq<int>, edges: seq<int>, step: int) {
    |offsets| == |edges| && forall i :: 0 <= i < |edges| ==> offsets[i] == edges[i] * step
  }

  predicate PulseIs(p: Pulse, length: int, bits: seq<bool>, phase: seq<bool>, step: int) {
    && length == p.length * step && p.start + p.length <= |phase| && |bits| == p.length
    && forall t :: 0 <= t < p.length ==> bits[t] == phase[p.start + t]
  }

  lemma {:induction false} NonzeroCount(mask: seq<bool>, n: nat)
    requires n <= |mask|
    ensures |Nonzero(mask, n)| == |set k | 0 <= k < n && mask[k]|
  {
    var now := set k | 0 <= k < n && mask[k];
    if n > 0 {
      NonzeroCount(mask, n - 1);
      var before := set k | 0 <= k < n - 1 && mask[k];
      assert now == before + if mask[n - 1] then {n - 1} else {};
    }
  }

  lemma DecodedDescribes(buf: seq<bv8>, step: int)
    requires Decoded(buf, step).Ok?
    ensures Describes(Decoded(buf, step).value, Mask(buf, GATE_BIT), Mask(buf, PULSE_BIT), Mask(buf, PHASE_BIT), step)
  {
    var q := Decoded(buf, step).value;
    var gate, pulse := Mask(buf, GATE_BIT), Mask(buf, PULSE_BIT);
    var edges := Edges(Nonzero(gate, |gate|));
    EdgesRise(gate, |gate|);
    GatesScaled(gate, step);
    PulsesAreRuns(pulse);
    PulsesAscend(pulse);
    PhasesCut(Mask(buf, PHASE_BIT), q.pulses, step);
    DistanceScaled(q.pulses[0].start, edges[0], step);
  }

  lemma PulsesAscend(pulse: seq<bool>)
    ensures var ps := PulsesOf(pulse); forall i, j :: 0 <= i < j < |ps| ==> ps[i].start < ps[j].start
  {
    var ps := PulsesOf(pulse);
    forall i, j | 0 <= i < j < |ps| ensures ps[i].start < ps[j].start { PulsesInOrder(pulse, i, j); }
  }

  lemma PhasesCut(phase: seq<bool>, ps: seq<Pulse>, step: int)
    requires forall i :: 0 <= i < |ps| ==> ps[i].start + ps[i].length <= |phase|
    ensures forall i :: 0 <= i < |ps| ==> PulseIs(ps[i], Lengths(ps, step)[i], Phases(phase, ps)[i], phase, step)
  {}

  lemma GatesScaled(gate: seq<bool>, step: int)
    ensures AreMultiples(Starts(PulsesOf(gate), step), Edges(Nonzero(gate, |gate|)), step)
  {}

  lemma DistanceScaled(a: int, b: int, step: int)
    ensures b * step + (a - b) * step == a * step
  {}

  /** The handler fails exactly if at most three ticks are samples, or if no gate or no pulse begins
      behind tick 0; otherwise it describes what the ticks contain. */
  lemma DecodedIs(buf: seq<bv8>, step: int)
    ensures var r, gate, pulse := Decoded(buf, step), Mask(buf, GATE_BIT), Mask(buf, PULSE_BIT);
      var samples := |set k | 0 <= k < |buf| && Mask(buf, SAMPLE_BIT)[k]|;
      && (r == Err(EmptySequence) <==> samples <= 3)
      && (r == Err(NoEdge) <==> samples > 3 && (AreRising(gate, |gate|, []) || AreRising(pulse, |pulse|, [])))
      && (r.Ok? ==> r.value.samples == samples && Describes(r.value, gate, pulse, Mask(buf, PHASE_BIT), step))
  {
    NonzeroCount(Mask(buf, SAMPLE_BIT), |buf|);
    NoEdges(Mask(buf, GATE_BIT));
    NoEdges(Mask(buf, PULSE_BIT));
    if Decoded(buf, step).Ok? { DecodedDescribes(buf, step); }
  }

  lemma NoEdges(mask: seq<bool>)
    ensures PulsesOf(mask) == [] <==> AreRising(mask, |mask|, [])
  {
    EdgesRise(mask, |mask|);
    var edges := Edges(Nonzero(mask, |mask|));
    if edges != [] { assert edges[0] in edges && Rises(mask, edges[0]) && edges[0] !in []; }
  }

  method ExtractPulses(pulse: seq<bool>, phase: seq<bool>, edges: seq<int>, step: int)
    returns (pulses: seq<Pulse>, lengths: seq<int>, phases: seq<seq<bool>>)
    requires |phase| == |pulse| && edges == Edges(Nonzero(pulse, |pulse|))
    ensures pulses == PulsesOf(pulse) && lengths == Lengths(pulses, step)
    ensures forall i :: 0 <= i < |pulses| ==> pulses[i].start + pulses[i].length <= |phase|
    ensures phases == Phases(phase, pulses)
  {
    pulses, lengths, phases := [], [], [];
    for i := 0 to |edges|
      invariant |pulses| == |lengths| == |phases| == i
      invariant forall k :: 0 <= k < i ==>
        && pulses[k] == PulsesOf(pulse)[k] && pulses[k].start + pulses[k].length <= |phase|
        && lengths[k] == pulses[k].length * step
        && phases[k] == phase[pulses[k].start..pulses[k].start + pulses[k].length]
    {
      PulseAt(pulse, i);
      var start := edges[i];
      var n := PulseLen(pulse, start);
      pulses := pulses + [Pulse(start, n)];
      lengths := lengths + [n * step];
      phases := phases + [phase[start..start + n]];
    }
  }

  method FindEdges(mask: seq<bool>) returns (edges: seq<int>)
    ensures edges == Edges(Nonzero(mask, |mask|)) && |edges| == |PulsesOf(mask)|
    ensures forall i :: 0 <= i < |edges| ==> edges[i] == PulsesOf(mask)[i].start
  {
    var idx := FindNonzero(mask);
    NonzeroIs(mask, |mask|);
    assert forall k :: 0 <= k < |idx| ==> idx[k] in idx;
    edges := RisingEdgeIdx(idx);
  }

  method RegisterSequence(rep: seq<int>, code: seq<bv8>, step: int) returns (r: Result<Sequence>)
    requires |rep| == |code|
    ensures r == Decoded(Expanded(rep, code), step)
  {
    var buf := Expand(rep, code);
    r := DecodeTicks(buf, step);
  }

  method DecodeTicks(buf: seq<bv8>, step: int) returns (r: Result<Sequence>)
    ensures r == Decoded(buf, step)
  {
    var samples := FindNonzero(Mask(buf, SAMPLE_BIT));
    if |samples| <= 3 { return Err(EmptySequence); }

    var gateEdges := FindEdges(Mask(buf, GATE_BIT));
    var pulseEdges := FindEdges(Mask(buf, PULSE_BIT));
    if pulseEdges == [] || gateEdges == [] { return Err(NoEdge); }
    var gateToPulse := (pulseEdges[0] - gateEdges[0]) * step;
    var offsets := Scale(gateEdges, step);
    StartsScaled(PulsesOf(Mask(buf, GATE_BIT)), gateEdges, step);

    var pulses, lengths, phases := ExtractPulses(Mask(buf, PULSE_BIT), Mask(buf, PHASE_BIT), pulseEdges, step);
    r := Ok(Sequence(offsets, gateToPulse, pulses, lengths, phases, |samples|));
  }
}
