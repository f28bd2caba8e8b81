/** The transmit kernel of tx_cuda.cu: every thread interpolates and mixes one sample of one channel,
    and the threads of the first channel sum up the channels and store the result. The blocks of the
    grid run in any order. Amplitudes are real numbers; the rotation by the phase of the local
    oscillator is a parameter. */
module TxKernel {
  import opened Indexing

  datatype Complex = Complex(re: real, im: real)

  function Plus(a: Complex, b: Complex): Complex { Complex(a.re + b.re, a.im + b.im) }

  /** One block: sample s of pulse p for antenna a. */
  datatype Block = Block(a: nat, p: nat, s: nat)

  /** Launch dimensions: block size (upsampling rate, channels), grid size (samples, antennas, pulses). */
  datatype Launch = Launch(up: nat, channels: nat, samples: nat, antennas: nat, pulses: nat) {
    predicate Valid() { up > 0 && channels > 0 && up * channels <= 1024 }

    predicate Has(b: Block) { b.a < antennas && b.p < pulses && b.s < samples }

    /** Number of a block, antenna after antenna, pulse after pulse. */
    function Number(b: Block): nat { Position(Position(b.a, b.p, pulses), b.s, samples) }

    function Count(): nat { Blocks(Blocks(antennas, pulses), samples) }

    /** idxOutput of the source. */
    function OutputIndex(b: Block, u: nat): int {
      2 * (b.s * up + u) + b.p * 2 * samples * up + b.a * pulses * 2 * samples * up
    }

    /** The same index as nested positions: antenna, pulse, sample, upsampling step. */
    function Cell(b: Block, u: nat): nat { 2 * Position(Number(b), u, up) }

    function OutputSize(): nat { 2 * Blocks(Count(), up) }

    /** idxInput of the source. */
    function InputIndex(b: Block, c: nat): int {
      2 * b.s + b.p * 2 * samples + c * pulses * 2 * samples + b.a * channels * pulses * 2 * samples
    }

    function InputSize(): nat { 2 * Blocks(Blocks(Blocks(antennas, channels), pulses), samples) }

    /** The only thread row that fades out instead of looking at the next sample. */
    predicate IsLast(b: Block, c: nat) {
      b.s == samples - 1 && b.p == pulses - 1 && c == channels - 1 && b.a == antennas - 1
    }
  }

  // ---------------------------------------------------------------- index maps

  lemma OutputIndexIs(l: Launch, b: Block, u: nat)
    ensures l.OutputIndex(b, u) == l.Cell(b, u)
  {
    PositionIs(b.a, b.p, l.pulses);
    PositionIs(b.a * l.pulses + b.p, b.s, l.samples);
    PositionIs((b.a * l.pulses + b.p) * l.samples + b.s, u, l.up);
    OutputHorner(b.a, l.pulses, b.p, l.samples, b.s, l.up, u);
  }

  lemma OutputHorner(a: int, x: int, b: int, y: int, c: int, z: int, u: int)
    ensures 2 * (((a * x + b) * y + c) * z + u) == 2 * (c * z + u) + b * 2 * y * z + a * x * 2 * y * z
  {
    Horner(a, x, b, y, c, z);
    var m, n := b * y * z, a * x * y * z;
    assert b * 2 * y * z == 2 * m && a * x * 2 * y * z == 2 * n;
  }

  lemma Horner(a: int, x: int, b: int, y: int, c: int, z: int)
    ensures ((a * x + b) * y + c) * z == c * z + b * y * z + a * x * y * z
  {
    assert (a * x + b) * y == a * x * y + b * y;
    assert (a * x * y + b * y + c) * z == a * x * y * z + b * y * z + c * z;
  }

  lemma NumberBelow(l: Launch, b: Block)
    requires l.Has(b)
    ensures l.Number(b) < l.Count()
  {
    BlockBound(b.a, b.p, l.antennas, l.pulses);
    BlockBound(Position(b.a, b.p, l.pulses), b.s, Blocks(l.antennas, l.pulses), l.samples);
  }

  lemma NumberInjective(l: Launch, b: Block, d: Block)
    requires l.Has(b) && l.Has(d) && l.Number(b) == l.Number(d)
    ensures b == d
  {
    BlocksDisjoint(Position(b.a, b.p, l.pulses), b.s, Position(d.a, d.p, l.pulses), d.s, l.samples);
    BlocksDisjoint(b.a, b.p, d.a, d.p, l.pulses);
  }

  /** Output cells of one thread of the first row. */
  predicate Writes(l: Launch, b: Block, u: nat, x: int) { x == l.Cell(b, u) || x == l.Cell(b, u) + 1 }

  /** Every write is inside the output array ... */
  lemma OutputInBounds(l: Launch, b: Block, u: nat)
    requires l.Valid() && l.Has(b) && u < l.up
    ensures l.Cell(b, u) + 1 < l.OutputSize()
  {
    NumberBelow(l, b);
    BlockBound(l.Number(b), u, l.Count(), l.up);
  }

  /** ... no two threads write the same cell ... */
  lemma OutputInjective(l: Launch, b: Block, u: nat, d: Block, v: nat, x: int)
    requires l.Has(b) && l.Has(d) && u < l.up && v < l.up && Writes(l, b, u, x) && Writes(l, d, v, x)
    ensures b == d && u == v
  {
    BlocksDisjoint(l.Number(b), u, l.Number(d), v, l.up);
    NumberInjective(l, b, d);
  }

  /** ... and every cell is written by some thread: with OutputInBounds and OutputInjective, the
      output index is a bijection. */
  lemma OutputSurjective(l: Launch, x: nat) returns (b: Block, u: nat)
    requires l.Valid() && x < l.OutputSize()
    ensures l.Has(b) && u < l.up && Writes(l, b, u, x)
  {
    var n, ap, s, a, p;
    n, u := Split(x / 2, l.Count(), l.up);
    ap, s := Split(n, Blocks(l.antennas, l.pulses), l.samples);
    a, p := Split(ap, l.antennas, l.pulses);
    b := Block(a, p, s);
  }

  /** Position of the input of a thread, in pairs of numbers: antenna, channel, pulse, sample. */
  function InputPair(l: Launch, b: Block, c: nat): nat {
    Position(Position(Position(b.a, c, l.channels), b.p, l.pulses), b.s, l.samples)
  }

  lemma InputIndexIs(l: Launch, b: Block, c: nat)
    ensures l.InputIndex(b, c) == 2 * InputPair(l, b, c)
  {
    PositionIs(b.a, c, l.channels);
    PositionIs(b.a * l.channels + c, b.p, l.pulses);
    PositionIs((b.a * l.channels + c) * l.pulses + b.p, b.s, l.samples);
    InputHorner(b.a, l.channels, c, l.pulses, b.p, l.samples, b.s);
  }

  lemma InputHorner(a: int, x: int, b: int, y: int, c: int, z: int, u: int)
    ensures 2 * (((a * x + b) * y + c) * z + u) == 2 * u + c * 2 * z + b * y * 2 * z + a * x * y * 2 * z
  {
    Horner(a, x, b, y, c, z);
    var k, m, n := c * z, b * y * z, a * x * y * z;
    assert c * 2 * z == 2 * k && b * y * 2 * z == 2 * m && a * x * y * 2 * z == 2 * n;
  }

  /** The row after x, if it is not the last one. */
  lemma NextBelow(x: nat, n: nat, w: nat, r: nat)
    requires x < n && r < w
    ensures Position(x, r, w) + 1 <= Blocks(n, w)
    ensures Position(x, r, w) + 1 == Blocks(n, w) <==> x == n - 1 && r == w - 1
  {
    BlockBound(x, r, n, w);
    if x < n - 1 { BlockBound(x, r, n - 1, w); }
  }

  /** Every read is inside the input array, including that of the next sample, which only the very
      last row of threads does not do. */
  lemma InputInBounds(l: Launch, b: Block, c: nat)
    requires l.Has(b) && c < l.channels
    ensures 0 <= l.InputIndex(b, c) && l.InputIndex(b, c) + 1 < l.InputSize()
    ensures l.InputIndex(b, c) + 3 < l.InputSize() <==> !l.IsLast(b, c)
  {
    InputIndexIs(l, b, c);
    NextBelow(b.a, l.antennas, l.channels, c);
    NextBelow(Position(b.a, c, l.channels), Blocks(l.antennas, l.channels), l.pulses, b.p);
    NextBelow(Position(Position(b.a, c, l.channels), b.p, l.pulses),
              Blocks(Blocks(l.antennas, l.channels), l.pulses), l.samples, b.s);
  }

  /** The next sample belongs to the same pulse, except behind the last sample of a pulse: there it
      is the first sample of the next pulse or, behind the last pulse, of the next channel or, behind
      the last channel, of the next antenna. */
  lemma NextSample(l: Launch, b: Block, c: nat)
    requires l.Has(b) && c < l.channels
    ensures b.s < l.samples - 1 ==> l.InputIndex(b, c) + 2 == l.InputIndex(b.(s := b.s + 1), c)
    ensures b.s == l.samples - 1 && b.p < l.pulses - 1 ==>
              l.InputIndex(b, c) + 2 == l.InputIndex(b.(s := 0, p := b.p + 1), c)
    ensures b.s == l.samples - 1 && b.p == l.pulses - 1 && c < l.channels - 1 ==>
              l.InputIndex(b, c) + 2 == l.InputIndex(b.(s := 0, p := 0), c + 1)
    ensures b.s == l.samples - 1 && b.p == l.pulses - 1 && c == l.channels - 1 && b.a < l.antennas - 1 ==>
              l.InputIndex(b, c) + 2 == l.InputIndex(b.(s := 0, p := 0, a := b.a + 1), 0)
  {
    InputIndexIs(l, b, c);
    InputIndexIs(l, b.(s := b.s + 1), c);
    InputIndexIs(l, b.(s := 0, p := b.p + 1), c);
    InputIndexIs(l, b.(s := 0, p := 0), c + 1);
    InputIndexIs(l, b.(s := 0, p := 0, a := b.a + 1), 0);
  }

  // ---------------------------------------------------------------- one block

  /** Linear interpolation; `rotation` is the phase of the thread as a complex number. */
  function Interpolated(inData: seq<real>, l: Launch, b: Block, c: nat, u: nat, offset: nat): real
    requires l.Valid() && l.Has(b) && c < l.channels && offset < 2 && |inData| == l.InputSize()
  {
    InputInBounds(l, b, c);
    var x := inData[l.InputIndex(b, c) + offset];
    var next := if l.IsLast(b, c) then 0.0 else inData[l.InputIndex(b, c) + offset + 2];
    x + (next - x) / l.up as real * u as real
  }

  function Mixed(inData: seq<real>, l: Launch, b: Block, c: nat, u: nat, rotation: Complex): Complex
    requires l.Valid() && l.Has(b) && c < l.channels && |inData| == l.InputSize()
  {
    var i, q := Interpolated(inData, l, b, c, u, 0), Interpolated(inData, l, b, c, u, 1);
    Complex(i * rotation.re - q * rotation.im, i * rotation.im + q * rotation.re)
  }

  /** Rotation for block, channel and upsampling step. */
  type Oscillator = (Block, nat, nat) -> Complex

  /** What the threads of a block compute, by channel and upsampling step. */
  type Values = (nat, nat) -> Complex

  function BlockValues(inData: seq<real>, l: Launch, osc: Oscillator, b: Block): Values
    requires l.Valid() && l.Has(b) && |inData| == l.InputSize()
  {
    (c: nat, u: nat) => if c < l.channels then Mixed(inData, l, b, c, u, osc(b, c, u)) else Complex(0.0, 0.0)
  }

  /** The input of a thread and the number that follows it, which is 0 behind the very last row. */
  function InputAt(inData: seq<real>, l: Launch, b: Block, c: nat, offset: nat): real
    requires l.Has(b) && c < l.channels && offset < 2 && |inData| == l.InputSize()
  {
    InputInBounds(l, b, c);
    InputIndexIs(l, b, c);
    inData[2 * InputPair(l, b, c) + offset]
  }

  function InputAfter(inData: seq<real>, l: Launch, b: Block, c: nat, offset: nat): real
    requires l.Has(b) && c < l.channels && offset < 2 && |inData| == l.InputSize()
  {
    InputInBounds(l, b, c);
    InputIndexIs(l, b, c);
    if 2 * InputPair(l, b, c) + 2 < l.InputSize() then inData[2 * InputPair(l, b, c) + 2 + offset] else 0.0
  }

  /** Step u of `up` steps lies u parts from one sample towards the next. */
  lemma InterpolatedIs(inData: seq<real>, l: Launch, b: Block, c: nat, u: nat, offset: nat)
    requires l.Valid() && l.Has(b) && c < l.channels && offset < 2 && |inData| == l.InputSize()
    ensures l.up as real * Interpolated(inData, l, b, c, u, offset)
            == (l.up - u) as real * InputAt(inData, l, b, c, offset) + u as real * InputAfter(inData, l, b, c, offset)
  {
    InputInBounds(l, b, c);
    InputIndexIs(l, b, c);
    PartsOf(InputAt(inData, l, b, c, offset), InputAfter(inData, l, b, c, offset), l.up as real, u as real);
  }

  lemma PartsOf(x: real, next: real, up: real, u: real)
    requires up > 0.0
    ensures up * (x + (next - x) / up * u) == (up - u) * x + u * next
  {
    var d := (next - x) / up;
    assert d * up == next - x;
    calc {
      up * (x + d * u);
      up * x + (d * up) * u;
      up * x + (next - x) * u;
      (up - u) * x + u * next;
    }
  }

  function Times(x: Complex, y: Complex): Complex { Complex(x.re * y.re - x.im * y.im, x.re * y.im + x.im * y.re) }

  function Conjugate(x: Complex): Complex { Complex(x.re, -x.im) }

  /** Turning the value of a channel back by the phase of its own oscillator gives the interpolated input,
      scaled by the square of the amplitude of the oscillator, which is 1. */
  lemma TurnedBack(inData: seq<real>, l: Launch, osc: Oscillator, b: Block, c: nat, u: nat)
    requires l.Valid() && l.Has(b) && c < l.channels && |inData| == l.InputSize()
    ensures var r := osc(b, c, u); var power := r.re * r.re + r.im * r.im;
      Times(BlockValues(inData, l, osc, b)(c, u), Conjugate(r))
      == Complex(Interpolated(inData, l, b, c, u, 0) * power, Interpolated(inData, l, b, c, u, 1) * power)
  {
    var r, i, q := osc(b, c, u), Interpolated(inData, l, b, c, u, 0), Interpolated(inData, l, b, c, u, 1);
    TurnBack(i, q, r.re, r.im);
  }

  lemma TurnBack(i: real, q: real, x: real, y: real)
    ensures (i * x - q * y) * x - (i * y + q * x) * -y == i * (x * x + y * y)
    ensures (i * x - q * y) * -y + (i * y + q * x) * x == q * (x * x + y * y)
  {
    assert (i * x - q * y) * x == i * (x * x) - q * (x * y);
    assert (i * y + q * x) * y == i * (y * y) + q * (x * y);
    assert (i * x - q * y) * y == i * (x * y) - q * (y * y);
    assert (i * y + q * x) * x == i * (x * y) + q * (x * x);
  }

  /** Sum of the first n channels. */
  function Summed(values: Values, u: nat, n: nat): Complex {
    if n == 0 then Complex(0.0, 0.0) else Plus(Summed(values, u, n - 1), values(n - 1, u))
  }

  /** A channel that is alone is the sum. */
  lemma {:induction false} SumOfOne(values: Values, u: nat, n: nat, c: nat)
    requires c < n && forall d: nat :: d < n && d != c ==> values(d, u) == Complex(0.0, 0.0)
    ensures Summed(values, u, n) == values(c, u)
  {
    if c < n - 1 { SumOfOne(values, u, n - 1, c); } else { SumOfNone(values, u, n - 1); }
  }

  lemma {:induction false} SumOfNone(values: Values, u: nat, n: nat)
    requires forall d: nat :: d < n ==> values(d, u) == Complex(0.0, 0.0)
    ensures Summed(values, u, n) == Complex(0.0, 0.0)
  {
    if n > 0 { SumOfNone(values, u, n - 1); }
  }

  /** Sums add up, so those of single channels determine the sum. */
  lemma {:induction false} SumsAdd(v: Values, w: Values, sum: Values, u: nat, n: nat)
    requires forall d: nat :: d < n ==> sum(d, u) == Plus(v(d, u), w(d, u))
    ensures Summed(sum, u, n) == Plus(Summed(v, u, n), Summed(w, u, n))
  {
    if n > 0 { SumsAdd(v, w, sum, u, n - 1); }
  }

  /** (int16_t) (32768 * x) */
  function Quantized(x: real): int {
    if x >= 0.0 then (32768.0 * x).Floor else -((-32768.0 * x).Floor)
  }

  /** Rounded towards zero. */
  lemma QuantizedIs(x: real)
    ensures x >= 0.0 ==> Quantized(x) as real <= 32768.0 * x < Quantized(x) as real + 1.0
    ensures Quantized(-x) == -Quantized(x)
  {}

  /** The result fits into 16 bits for all amplitudes up to 1, except 1 itself, which the clipping
      check lets pass. */
  lemma FitsInto16Bits(x: real)
    requires -1.0 <= x <= 1.0
    ensures -0x8000 <= Quantized(x) <= 0x7fff <==> x < 1.0
  {}

  /** Shared memory cell of a thread. */
  function LocalIndex(l: Launch, c: nat, u: nat): nat { Position(c, u, l.up) }

  /** Before the barrier every thread writes its own cell of shared memory. */
  lemma FirstPhaseRaceFree(l: Launch, c: nat, u: nat, d: nat, v: nat)
    requires l.Valid() && c < l.channels && u < l.up && d < l.channels && v < l.up
    ensures LocalIndex(l, c, u) < 1024
    ensures LocalIndex(l, c, u) == LocalIndex(l, d, v) ==> c == d && u == v
  {
    BlockBound(c, u, l.channels, l.up);
    BlocksAre(l.channels, l.up);
    if LocalIndex(l, c, u) == LocalIndex(l, d, v) { BlocksDisjoint(c, u, d, v, l.up); }
  }

  /** Behind it, a thread of the first row writes cell u and reads the cells of step u: no other
      thread of that row touches cell u. */
  lemma SecondPhaseRaceFree(l: Launch, u: nat, d: nat, v: nat)
    requires l.Valid() && u < l.up && v < l.up && d < l.channels && LocalIndex(l, d, v) == u
    ensures d == 0 && v == u
  {
    BlocksDisjoint(d, v, 0, u, l.up);
  }

  /** Shared memory holds the values of all channels; those of the first channel only from step
      `rest` on. */
  ghost predicate Stored(cells: seq<Complex>, values: Values, l: Launch, rest: nat)
    requires |cells| == 1024
  {
    forall d: nat, v: nat :: d < l.channels && v < l.up && (d > 0 || v >= rest) ==>
      LocalIndex(l, d, v) < 1024 && cells[LocalIndex(l, d, v)] == values(d, v)
  }

  /** First phase of one block, thread after thread. */
  method MixChannels(inData: seq<real>, l: Launch, osc: Oscillator, b: Block, cells: array<Complex>)
    requires l.Valid() && l.Has(b) && |inData| == l.InputSize() && cells.Length == 1024
    modifies cells
    ensures Stored(cells[..], BlockValues(inData, l, osc, b), l, 0)
  {
    ghost var values := BlockValues(inData, l, osc, b);
    for c := 0 to l.channels
      invariant forall d: nat, v: nat :: d < c && v < l.up ==>
        LocalIndex(l, d, v) < 1024 && cells[LocalIndex(l, d, v)] == values(d, v)
    {
      for u := 0 to l.up
        invariant forall d: nat, v: nat :: v < l.up && (d < c || (d == c && v < u)) ==>
          LocalIndex(l, d, v) < 1024 && cells[LocalIndex(l, d, v)] == values(d, v)
      {
        FirstPhaseRaceFree(l, c, u, c, u);
        forall d: nat, v: nat | d < l.channels && v < l.up && LocalIndex(l, d, v) == LocalIndex(l, c, u)
          ensures d == c && v == u
        {
          FirstPhaseRaceFree(l, c, u, d, v);
        }
        cells[LocalIndex(l, c, u)] := Mixed(inData, l, b, c, u, osc(b, c, u));
      }
    }
  }

  /** One thread of the first row in the second phase: it adds up the cells of its step in place. */
  method SumChannels(l: Launch, u: nat, cells: array<Complex>, ghost values: Values)
    requires l.Valid() && cells.Length == 1024 && u < l.up && Stored(cells[..], values, l, u)
    modifies cells
    ensures u < 1024 && cells[u] == Summed(values, u, l.channels)
    ensures Stored(cells[..], values, l, u + 1)
  {
    FirstPhaseRaceFree(l, 0, u, 0, u);
    assert LocalIndex(l, 0, u) == u && cells[..][u] == values(0, u);
    assert Summed(values, u, 1) == Plus(Summed(values, u, 0), values(0, u));
    forall d: nat, v: nat | d < l.channels && v < l.up && LocalIndex(l, d, v) == u ensures d == 0 && v == u {
      SecondPhaseRaceFree(l, u, d, v);
    }
    for c := 1 to l.channels
      invariant cells[u] == Summed(values, u, c)
      invariant Stored(cells[..], values, l, u + 1)
    {
      assert cells[..][LocalIndex(l, c, u)] == values(c, u);
      cells[u] := Plus(cells[u], cells[LocalIndex(l, c, u)]);
    }
  }

  // ---------------------------------------------------------------- the grid

  /** What one thread of the first row leaves in the output. */
  predicate Done(out: seq<int>, l: Launch, b: Block, u: nat, sum: Complex) {
    && l.Cell(b, u) + 1 < |out|
    && out[l.Cell(b, u)] == Quantized(sum.re) && out[l.Cell(b, u) + 1] == Quantized(sum.im)
  }

  ghost predicate BlockDone(out: seq<int>, inData: seq<real>, l: Launch, osc: Oscillator, b: Block, n: nat)
    requires l.Valid() && l.Has(b) && |inData| == l.InputSize() && |out| == l.OutputSize() && n <= l.up
  {
    forall u :: 0 <= u < n ==> Done(out, l, b, u, Summed(BlockValues(inData, l, osc, b), u, l.channels))
  }

  /** A write of another thread leaves the results of this one alone. */
  lemma OtherThread(l: Launch, b: Block, u: nat, d: Block, v: nat)
    requires l.Valid() && l.Has(b) && l.Has(d) && u < l.up && v < l.up && (b != d || u != v)
    ensures forall x :: Writes(l, b, u, x) ==> !Writes(l, d, v, x)
  {
    forall x | Writes(l, b, u, x) ensures !Writes(l, d, v, x) {
      if Writes(l, d, v, x) { OutputInjective(l, b, u, d, v, x); }
    }
  }

  /** What a block may change: its own cells of the output. */
  ghost predicate OnlyBlock(was: seq<int>, out: seq<int>, l: Launch, b: Block) {
    |out| == |was| && forall x :: 0 <= x < |out| && (forall u :: 0 <= u < l.up ==> !Writes(l, b, u, x)) ==> out[x] == was[x]
  }

  /** The store of one thread. */
  ghost predicate StoreOf(was: seq<int>, out: seq<int>, l: Launch, b: Block, u: nat, sum: Complex) {
    && |out| == |was| && Done(out, l, b, u, sum)
    && forall x :: 0 <= x < |out| && !Writes(l, b, u, x) ==> out[x] == was[x]
  }

  lemma StoreKept(was: seq<int>, out: seq<int>, inData: seq<real>, l: Launch, osc: Oscillator, b: Block, u: nat)
    requires l.Valid() && l.Has(b) && |inData| == l.InputSize() && |was| == l.OutputSize() && u < l.up
    requires BlockDone(was, inData, l, osc, b, u)
    requires StoreOf(was, out, l, b, u, Summed(BlockValues(inData, l, osc, b), u, l.channels))
    ensures BlockDone(out, inData, l, osc, b, u + 1)
  {
    forall v | 0 <= v < u ensures Done(out, l, b, v, Summed(BlockValues(inData, l, osc, b), v, l.channels)) {
      OtherThread(l, b, v, b, u);
      assert Writes(l, b, v, l.Cell(b, v)) && Writes(l, b, v, l.Cell(b, v) + 1);
    }
  }

  method StoreSum(out: array<int>, l: Launch, b: Block, u: nat, sum: Complex)
    requires l.Valid() && l.Has(b) && u < l.up && out.Length == l.OutputSize()
    modifies out
    ensures StoreOf(old(out[..]), out[..], l, b, u, sum)
  {
    OutputInBounds(l, b, u);
    OutputIndexIs(l, b, u);
    var x := l.OutputIndex(b, u);
    out[x] := Quantized(sum.re);
    out[x + 1] := Quantized(sum.im);
  }

  /** One block, up to the barrier and behind it. */
  method RunBlock(inData: seq<real>, l: Launch, osc: Oscillator, b: Block, out: array<int>)
    requires l.Valid() && l.Has(b) && |inData| == l.InputSize() && out.Length == l.OutputSize()
    modifies out
    ensures BlockDone(out[..], inData, l, osc, b, l.up)
    ensures OnlyBlock(old(out[..]), out[..], l, b)
  {
    var cells := new Complex[1024](_ => Complex(0.0, 0.0));
    MixChannels(inData, l, osc, b, cells);
    for u := 0 to l.up
      invariant Stored(cells[..], BlockValues(inData, l, osc, b), l, u)
      invariant BlockDone(out[..], inData, l, osc, b, u)
      invariant OnlyBlock(old(out[..]), out[..], l, b)
    {
      SumChannels(l, u, cells, BlockValues(inData, l, osc, b));
      ghost var before := out[..];
      StoreSum(out, l, b, u, cells[u]);
      StoreKept(before, out[..], inData, l, osc, b, u);
    }
  }

  lemma OtherBlock(l: Launch, b: Block, u: nat, d: Block, x: int)
    requires l.Valid() && l.Has(b) && l.Has(d) && b != d && u < l.up && Writes(l, b, u, x)
    ensures forall v :: 0 <= v < l.up ==> !Writes(l, d, v, x)
  {
    forall v | 0 <= v < l.up ensures !Writes(l, d, v, x) { OtherThread(l, b, u, d, v); }
  }

  lemma DoneSurvives(was: seq<int>, out: seq<int>, l: Launch, b: Block, u: nat, sum: Complex, d: Block)
    requires l.Valid() && l.Has(b) && l.Has(d) && b != d && u < l.up
    requires Done(was, l, b, u, sum) && OnlyBlock(was, out, l, d)
    ensures Done(out, l, b, u, sum)
  {
    var x := l.Cell(b, u);
    OtherBlock(l, b, u, d, x);
    OtherBlock(l, b, u, d, x + 1);
    assert out[x] == was[x] && out[x + 1] == was[x + 1];
  }

  /** The cells of a finished block survive another block. */
  lemma BlockSurvives(was: seq<int>, out: seq<int>, inData: seq<real>, l: Launch, osc: Oscillator, b: Block, d: Block)
    requires l.Valid() && l.Has(b) && l.Has(d) && b != d && |inData| == l.InputSize() && |was| == l.OutputSize()
    requires BlockDone(was, inData, l, osc, b, l.up) && OnlyBlock(was, out, l, d)
    ensures BlockDone(out, inData, l, osc, b, l.up)
  {
    forall u | 0 <= u < l.up
      ensures Done(out, l, b, u, Summed(BlockValues(inData, l, osc, b), u, l.channels))
    {
      DoneSurvives(was, out, l, b, u, Summed(BlockValues(inData, l, osc, b), u, l.channels), d);
    }
  }

  /** The whole launch: whatever the order of the blocks, every block leaves the quantized sums over
      its channels in the output. */
  method RunGrid(inData: seq<real>, l: Launch, osc: Oscillator, blocks: set<Block>, out: array<int>)
    requires l.Valid() && |inData| == l.InputSize() && out.Length == l.OutputSize()
    requires forall b :: b in blocks <==> l.Has(b)
    modifies out
    ensures forall b :: l.Has(b) ==> BlockDone(out[..], inData, l, osc, b, l.up)
  {
    var waiting := blocks;
    while waiting != {}
      invariant waiting <= blocks
      invariant forall b :: l.Has(b) && b !in waiting ==> BlockDone(out[..], inData, l, osc, b, l.up)
      decreases |waiting|
    {
      var d :| d in waiting;
      ghost var was := out[..];
      RunBlock(inData, l, osc, d, out);
      forall b | l.Has(b) && b !in waiting ensures BlockDone(out[..], inData, l, osc, b, l.up) {
        BlockSurvives(was, out[..], inData, l, osc, b, d);
      }
      waiting := waiting - {d};
    }
  }
}
