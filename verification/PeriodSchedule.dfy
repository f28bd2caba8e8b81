/** _calc_period_details of usrp_server.py: how many pulse sequences fit into the time that is left,
    where their pulses lie, and how many samples have to be received; and rx_init of cuda_driver.py,
    which works back from the received to the baseband samples. */
module PeriodSchedule {
  import opened Division
  import opened Indexing
  import opened TxWorker

  const PADDING_TIME: real := 0.033

  /** Common channel parameters: times in seconds (pulse length in microseconds), rates in Hz. */
  datatype Settings = Settings(
    numberOfSamples: nat, offsets: seq<real>, pulseLength: real, basebandRate: real, rfRate: real,
    duration: real, delay: real, overhead: real, ifDown: nat, bbDown: nat, rfTaps: nat, ifTaps: nat)
  {
    predicate Valid() {
      && offsets != [] && basebandRate > 0.0 && rfRate > 0.0 && ifDown > 0 && bbDown > 0
      && 0.0 <= pulseLength && 0.0 <= offsets[0]
      && forall i :: 0 <= i < |offsets| ==> offsets[i] <= offsets[|offsets| - 1]
    }
  }

  /** int(): towards zero. */
  function Trunc(x: real): int { if x >= 0.0 then x.Floor else -((-x).Floor) }

  function MaxInt(a: int, b: int): int { if a < b then b else a }

  function MinReal(a: real, b: real): real { if b < a then b else a }

  /** np.round: to the nearest integer, halves to the even one. */
  function Round(x: real): (r: int)
    ensures x - 0.5 <= r as real <= x + 0.5
    ensures r as real == x - 0.5 || r as real == x + 0.5 ==> r % 2 == 0
  {
    var f := x.Floor;
    var d := x - f as real;
    if d < 0.5 || (d == 0.5 && f % 2 == 0) then f else f + 1
  }

  function SamplesPerSequence(s: Settings): (n: nat)
    requires s.Valid()
    ensures n >= s.numberOfSamples + 2
    ensures var least := (s.offsets[|s.offsets| - 1] + s.pulseLength / 1000000.0 + PADDING_TIME) * s.basebandRate;
      n as real >= least && (n == s.numberOfSamples + 2 || (n - 1) as real < least)
  {
    MaxInt(s.numberOfSamples + 2,
           Ceil((s.offsets[|s.offsets| - 1] + s.pulseLength / 1000000.0 + PADDING_TIME) * s.basebandRate))
  }

  function SequencePeriod(s: Settings): (p: real)
    requires s.Valid()
    ensures p > 0.0 && p * s.basebandRate == SamplesPerSequence(s) as real
  {
    SamplesPerSequence(s) as real / s.basebandRate
  }

  /** A sequence lasts until the padding behind its last pulse has passed. */
  lemma PeriodCoversPadding(s: Settings)
    requires s.Valid()
    ensures SequencePeriod(s) >= s.offsets[|s.offsets| - 1] + s.pulseLength / 1000000.0 + PADDING_TIME
  {
    var p, q := SequencePeriod(s), s.offsets[|s.offsets| - 1] + s.pulseLength / 1000000.0 + PADDING_TIME;
    ProductMonotone(q, p, s.basebandRate);
  }

  /** Time for sequences: until the end of the period or the first scan boundary, without overhead. */
  function TimeLeft(s: Settings, now: real, start: real, boundaries: seq<real>): (t: real)
    ensures t >= 0.0
    ensures t == 0.0 <==> s.duration - now + start <= s.overhead + s.delay || exists b :: b in boundaries && b <= s.overhead + s.delay
    ensures t > 0.0 ==>
      && (t == s.duration - now + start - s.overhead - s.delay || t + s.overhead + s.delay in boundaries)
      && t <= s.duration - now + start - s.overhead - s.delay
      && forall k :: 0 <= k < |boundaries| ==> t <= boundaries[k] - s.overhead - s.delay
  {
    var left := Least(s.duration - now + start, boundaries) - s.overhead - s.delay;
    if left <= 0.0 then 0.0 else left
  }

  function Least(t: real, boundaries: seq<real>): (m: real)
    ensures m <= t && forall k :: 0 <= k < |boundaries| ==> m <= boundaries[k]
    ensures m == t || m in boundaries
  {
    if boundaries == [] then t
    else
      var n := |boundaries| - 1;
      MinReal(Least(t, boundaries[..n]), boundaries[n])
  }

  function Sequences(s: Settings, left: real): (n: nat)
    requires s.Valid() && left >= 0.0
    ensures n as real * SequencePeriod(s) <= left < (n + 1) as real * SequencePeriod(s)
  {
    Quotient(left, SequencePeriod(s));
    (left / SequencePeriod(s)).Floor
  }

  lemma Quotient(a: real, b: real)
    requires b > 0.0
    ensures (a / b).Floor as real * b <= a < ((a / b).Floor + 1) as real * b
    ensures a >= 0.0 ==> (a / b).Floor >= 0
  {
    var q := a / b;
    var f := q.Floor as real;
    assert q * b == a && (q.Floor + 1) as real == f + 1.0;
    ProductMonotone(f, q, b);
    ProductMonotone(f + 1.0, q, b);
    assert f + 1.0 > q && a < (f + 1.0) * b;
    assert a < (q.Floor + 1) as real * b;
    ProductMonotone(0.0, q, b);
  }

  lemma ProductMonotone(a: real, b: real, d: real)
    requires d > 0.0
    ensures a * d <= b * d <==> a <= b
  {
    if a <= b { assert (b - a) * d >= 0.0; } else { assert (a - b) * d > 0.0; }
  }

  function MaxSequences(s: Settings): int
    requires s.Valid()
  {
    Trunc((s.duration - s.delay - s.overhead) / SequencePeriod(s))
  }

  /** The maximum is what fits into the whole period. */
  lemma MaxSequencesIs(s: Settings)
    requires s.Valid()
    ensures var whole, max, p := s.duration - s.delay - s.overhead, MaxSequences(s), SequencePeriod(s);
      if whole >= 0.0 then max >= 0 && max as real * p <= whole < (max + 1) as real * p
      else max <= 0 && (max - 1) as real * p < whole <= max as real * p
  {
    var whole, p := s.duration - s.delay - s.overhead, SequencePeriod(s);
    Quotient(if whole >= 0.0 then whole else -whole, p);
    if whole < 0.0 {
      var n := (-whole / p).Floor;
      NegatedQuotient(whole, p);
      Negated(n, p);
      Negated(n + 1, p);
    } else {
      ProductMonotone(0.0, whole / p, p);
    }
  }

  lemma NegatedQuotient(whole: real, p: real)
    requires whole < 0.0 && p > 0.0
    ensures whole / p < 0.0 && -(whole / p) == -whole / p
  {
    var q := whole / p;
    assert q * p == whole;
    ProductMonotone(0.0, q, p);
    assert (-q) * p == -whole;
  }

  lemma Negated(n: int, p: real)
    ensures (-n) as real * p == -(n as real * p)
  {}

  /** The sequences fit into the time that is left, and one more would not. */
  lemma SequencesFit(s: Settings, now: real, start: real, boundaries: seq<real>)
    requires s.Valid()
    ensures var left := TimeLeft(s, now, start, boundaries);
      Sequences(s, left) as real * SequencePeriod(s) <= left < (Sequences(s, left) + 1) as real * SequencePeriod(s)
  {}

  /** They never exceed the maximum that was allocated for, unless that maximum is negative. */
  lemma NeverMoreThanMax(s: Settings, now: real, start: real, boundaries: seq<real>)
    requires s.Valid() && start <= now
    ensures Sequences(s, TimeLeft(s, now, start, boundaries)) <= MaxInt(MaxSequences(s), 0)
  {
    var left := TimeLeft(s, now, start, boundaries);
    if left > 0.0 {
      DivideMonotone(left, s.duration - s.delay - s.overhead, SequencePeriod(s));
      Quotient(left, SequencePeriod(s));
    } else {
      Quotient(0.0, SequencePeriod(s));
      assert 0.0 / SequencePeriod(s) == 0.0;
    }
  }

  lemma DivideMonotone(a: real, b: real, d: real)
    requires a <= b && d > 0.0
    ensures a / d <= b / d && (a / d).Floor <= (b / d).Floor
  {
    var p, q := a / d, b / d;
    assert p * d == a && q * d == b;
    ProductMonotone(p, q, d);
  }

  /** It is negative, and the allocation fails, exactly if the overhead exceeds the duration of the
      integration period by at least one sequence. */
  lemma MaxNegativeIff(s: Settings)
    requires s.Valid()
    ensures MaxSequences(s) < 0 <==> s.duration + SequencePeriod(s) <= s.delay + s.overhead
  {
    var a, p := s.duration - s.delay - s.overhead, SequencePeriod(s);
    var q := a / p;
    assert q * p == a;
    ProductMonotone(q, -1.0, p);
  }

  // ---------------------------------------------------------------- pulse positions

  /** Where sequence i begins. */
  function Begin(i: nat, period: real): real { if i == 0 then 0.0 else Begin(i - 1, period) + period }

  lemma {:induction false} BeginIs(i: nat, period: real)
    ensures Begin(i, period) == i as real * period
  {
    if i > 0 {
      BeginIs(i - 1, period);
      assert (i - 1) as real == i as real - 1.0;
      assert (i as real - 1.0) * period == i as real * period - period;
    }
  }

  /** The schedule in RF samples, not rounded: length of a sequence, where its pulses begin, and the
      length of a pulse and its padding. */
  datatype Grid = Grid(period: real, starts: seq<real>, tail: real) {
    predicate Valid() {
      starts != [] && 0.0 <= starts[0] && 0.0 <= period && starts[|starts| - 1] + tail <= period
    }

    /** RF sample at which pulse j of sequence i begins. */
    function PulseOffset(i: nat, j: nat): int
      requires j < |starts|
    {
      Round(Begin(i, period) + starts[j])
    }
  }

  function GridOf(s: Settings): (g: Grid)
    requires s.Valid()
    ensures g.Valid() && |g.starts| == |s.offsets|
  {
    var last, rest := s.offsets[|s.offsets| - 1], s.pulseLength / 1000000.0 + PADDING_TIME;
    PeriodCoversPadding(s);
    GridBounds(s.offsets[0], last, rest, SequencePeriod(s), s.rfRate);
    Grid(SequencePeriod(s) * s.rfRate, seq(|s.offsets|, j requires 0 <= j < |s.offsets| => s.offsets[j] * s.rfRate), rest * s.rfRate)
  }

  /** Pulse j of sequence i begins i periods and its offset after the first sequence, to half a sample. */
  lemma PulseTime(g: Grid, i: nat, j: nat)
    requires j < |g.starts|
    ensures var time := i as real * g.period + g.starts[j]; time - 0.5 <= g.PulseOffset(i, j) as real <= time + 0.5
  {
    BeginIs(i, g.period);
  }

  /** The times of the sequences and pulses in RF samples. */
  lemma GridIs(s: Settings)
    requires s.Valid()
    ensures var g := GridOf(s);
      && g.period * s.basebandRate == SamplesPerSequence(s) as real * s.rfRate
      && |g.starts| == |s.offsets| && (forall j :: 0 <= j < |s.offsets| ==> g.starts[j] == s.offsets[j] * s.rfRate)
      && g.tail == (s.pulseLength / 1000000.0 + 0.033) * s.rfRate
  {
    var p := SequencePeriod(s);
    assert p * s.rfRate * s.basebandRate == p * s.basebandRate * s.rfRate;
  }

  lemma GridBounds(first: real, last: real, rest: real, period: real, rate: real)
    requires 0.0 <= first && last + rest <= period && 0.0 <= period && rate > 0.0
    ensures 0.0 <= first * rate && 0.0 <= period * rate && last * rate + rest * rate <= period * rate
  {
    ProductMonotone(0.0, first, rate);
    ProductMonotone(0.0, period, rate);
    ProductMonotone(last + rest, period, rate);
    assert (last + rest) * rate == last * rate + rest * rate;
  }

  /** The positions of the pulses of n sequences, sequence after sequence. */
  ghost predicate ArePulseOffsets(g: Grid, n: nat, a: seq<int>) {
    && |a| == Blocks(n, |g.starts|)
    && forall i: nat, j: nat :: i < n && j < |g.starts| ==>
         Position(i, j, |g.starts|) < |a| ==> a[Position(i, j, |g.starts|)] == g.PulseOffset(i, j)
  }

  method OffsetOf(g: Grid, i: nat, j: nat) returns (offset: int)
    requires j < |g.starts|
    ensures offset == g.PulseOffset(i, j)
  {
    var begin := i as real * g.period;
    BeginIs(i, g.period);
    assert begin == Begin(i, g.period);
    offset := Round(begin + g.starts[j]);
  }

  method PulseOffsets(g: Grid, n: nat) returns (a: array<int>)
    ensures fresh(a) && ArePulseOffsets(g, n, a[..])
  {
    var w := |g.starts|;
    BlocksAre(n, w);
    a := new int[n * w](_ => 0);
    for i := 0 to n
      invariant forall p: nat, q: nat :: p < i && q < w ==>
        Position(p, q, w) < a.Length ==> a[Position(p, q, w)] == g.PulseOffset(p, q)
    {
      for j := 0 to w
        invariant forall p: nat, q: nat :: q < w && (p < i || (p == i && q < j)) ==>
          Position(p, q, w) < a.Length ==> a[Position(p, q, w)] == g.PulseOffset(p, q)
      {
        BlockBound(i, j, n, w);
        forall p: nat, q: nat | q < w && Position(p, q, w) == Position(i, j, w) ensures p == i && q == j {
          BlocksDisjoint(p, q, i, j, w);
        }
        var offset := OffsetOf(g, i, j);
        a[Position(i, j, w)] := offset;
      }
    }
  }

  lemma RoundLoss(y: real, x: real, gap: real)
    requires x + gap <= y
    ensures Round(y) as real - Round(x) as real >= gap - 1.0
  {}

  lemma RoundApart(x: real, y: real, n: int)
    requires x + n as real <= y
    ensures Round(x) + n - 1 <= Round(y)
  {}

  lemma RoundNear(x: real, y: real, n: int)
    requires y <= x + n as real
    ensures Round(y) <= Round(x) + n + 1
  {}

  /** Between the beginning of the last pulse of a sequence and the first pulse of the next one lie
      a pulse and the padding, up to one sample of rounding. */
  lemma SequencesPadded(g: Grid, i: nat)
    requires g.Valid()
    ensures g.PulseOffset(i + 1, 0) as real - g.PulseOffset(i, |g.starts| - 1) as real >= g.tail - 1.0
  {
    RoundLoss(Begin(i + 1, g.period) + g.starts[0], Begin(i, g.period) + g.starts[|g.starts| - 1], g.tail);
  }

  // ---------------------------------------------------------------- the schedule suits the transmit worker

  /** Enough room between the pulses of one sequence, and behind the last one, for `length` samples
      and a packet of spb samples; and no gap of 2^31 samples. */
  predicate Roomy(g: Grid, length: nat, spb: nat)
    requires g.Valid()
  {
    && (forall j :: 0 <= j < |g.starts| - 1 ==>
          g.starts[j] + (length + spb) as real <= g.starts[j + 1] <= g.starts[j] + 2147483646.0)
    && (length + spb) as real <= g.tail
    && g.period + g.starts[0] <= g.starts[|g.starts| - 1] + 2147483646.0 && g.starts[0] <= 2147483646.0
    && 0 < length && length + 2 * spb < 0x8000_0000
  }

  lemma NextInSequence(g: Grid, i: nat, j: nat, length: nat, spb: nat)
    requires g.Valid() && Roomy(g, length, spb) && j < |g.starts| - 1
    ensures g.PulseOffset(i, j) + length + spb - 1 <= g.PulseOffset(i, j + 1) < g.PulseOffset(i, j) + 0x8000_0000
  {
    var x := Begin(i, g.period);
    RoundApart(x + g.starts[j], x + g.starts[j + 1], length + spb);
    RoundNear(x + g.starts[j], x + g.starts[j + 1], 2147483646);
  }

  lemma NextSequence(g: Grid, i: nat, length: nat, spb: nat)
    requires g.Valid() && Roomy(g, length, spb)
    ensures var last := g.PulseOffset(i, |g.starts| - 1);
      last + length + spb - 1 <= g.PulseOffset(i + 1, 0) < last + 0x8000_0000
  {
    var x, y := Begin(i, g.period) + g.starts[|g.starts| - 1], Begin(i + 1, g.period) + g.starts[0];
    RoundApart(x, y, length + spb);
    RoundNear(x, y, 2147483646);
  }

  /** What is scheduled is what the transmit worker needs: room for a packet between the pulses, and
      gaps that fit into 32 bits. */
  lemma ScheduleTimed(g: Grid, n: nat, offsets: seq<nat>, length: nat, spb: nat)
    requires g.Valid() && Roomy(g, length, spb) && n > 0 && ArePulseOffsets(g, n, offsets)
    ensures |offsets| > 0 && Timed(offsets, length, spb)
  {
    var w := |g.starts|;
    BlockBound(0, 0, n, w);
    assert offsets[Position(0, 0, w)] == g.PulseOffset(0, 0) == Round(0.0 + g.starts[0]);
    forall p | 0 <= p < |offsets| - 1 ensures offsets[p] + length + spb - 1 <= offsets[p + 1] < offsets[p] + 0x8000_0000 {
      var i, j := Split(p, n, w);
      assert offsets[Position(i, j, w)] == g.PulseOffset(i, j);
      if j < w - 1 {
        assert Position(i, j + 1, w) == p + 1;
        NextInSequence(g, i, j, length, spb);
      } else {
        assert Position(i + 1, 0, w) == p + 1;
        NextBlock(i, n, w);
        NextSequence(g, i, length, spb);
      }
    }
  }

  lemma NextBlock(i: nat, n: nat, w: nat)
    requires i < n && w > 0 && Blocks(i, w) + w < Blocks(n, w)
    ensures i + 1 < n
  {
    assert Blocks(i + 1, w) == Blocks(i, w) + w;
  }

  lemma {:induction false} BeginNotNegative(i: nat, period: real)
    requires period >= 0.0
    ensures Begin(i, period) >= 0.0
  {
    if i > 0 { BeginNotNegative(i - 1, period); }
  }

  /** Pulse positions are not negative. */
  lemma OffsetNotNegative(g: Grid, i: nat, j: nat)
    requires g.Valid() && j < |g.starts| && g.starts[j] >= 0.0
    ensures g.PulseOffset(i, j) >= 0
  {
    BeginNotNegative(i, g.period);
  }

  // ---------------------------------------------------------------- sample counts

  /** IF and RF samples requested from the receivers for n sequences. */
  function RequestedIf(s: Settings, n: nat): int
    requires s.Valid()
  {
    if n == 0 then 0 else s.bbDown * (SamplesPerSequence(s) * n - 1) + s.ifTaps
  }

  function RequestedRf(s: Settings, n: nat): int
    requires s.Valid()
  {
    if n == 0 then 0 else s.ifDown * (RequestedIf(s, n) - 1) + s.rfTaps
  }

  /** rx_init: samples behind a filter with `taps` taps that keeps one of `down` samples. */
  function Filtered(samples: int, taps: nat, down: nat): int
    requires down > 0
  {
    Trunc((samples - taps) as real / down as real + 1.0)
  }

  /** As many as there are windows of `taps` samples, `down` samples apart. */
  lemma FilteredIs(samples: int, taps: nat, down: nat)
    requires down > 0 && samples >= taps
    ensures var n := Filtered(samples, taps, down); n >= 1 && (n - 1) * down + taps <= samples < n * down + taps
  {
    var n := Filtered(samples, taps, down);
    var q := (samples - taps) as real / down as real;
    assert q * down as real == (samples - taps) as real;
    ProductMonotone(0.0, q, down as real);
    assert n == (q + 1.0).Floor && (n - 1) as real <= q < n as real;
    WholeProduct(n - 1, q, down);
    WholeProduct(n, q, down);
  }

  lemma WholeProduct(n: int, q: real, down: nat)
    requires down > 0
    ensures n as real <= q <==> (n * down) as real <= q * down as real
  {
    ProductMonotone(n as real, q, down as real);
    assert (n * down) as real == n as real * down as real;
  }

  lemma FilteredInverts(samples: int, taps: nat, down: nat)
    requires down > 0 && samples >= 0
    ensures Filtered(down * (samples - 1) + taps, taps, down) == samples
  {
    var q := (down * (samples - 1)) as real / down as real;
    assert q * down as real == (samples - 1) as real * down as real;
    ProductMonotone(q, (samples - 1) as real, down as real);
    ProductMonotone((samples - 1) as real, q, down as real);
  }

  /** CUDA recovers exactly the baseband samples of all sequences from the RF samples requested. */
  lemma BasebandRecovered(s: Settings, n: nat)
    requires s.Valid()
    ensures n == 0 ==> RequestedRf(s, n) == 0
    ensures var ifSamples := Filtered(RequestedRf(s, n), s.rfTaps, s.ifDown); n > 0 ==>
      && ifSamples == RequestedIf(s, n)
      && Filtered(ifSamples, s.ifTaps, s.bbDown) == SamplesPerSequence(s) * n
  {
    if n == 0 { return; }
    assert SamplesPerSequence(s) * n >= 1;
    assert s.bbDown * (SamplesPerSequence(s) * n - 1) >= 0;
    FilteredInverts(RequestedIf(s, n), s.rfTaps, s.ifDown);
    FilteredInverts(SamplesPerSequence(s) * n, s.ifTaps, s.bbDown);
  }

  /** Samples of sequence i that are sent back to the control program. */
  function SliceStart(s: Settings, i: nat): int
    requires s.Valid()
  {
    i * SamplesPerSequence(s)
  }

  /** Every slice lies in the baseband samples CUDA computed, and slices do not overlap. */
  lemma SlicesInBounds(s: Settings, n: nat, i: nat)
    requires s.Valid() && i < n
    ensures var all := Filtered(Filtered(RequestedRf(s, n), s.rfTaps, s.ifDown), s.ifTaps, s.bbDown);
      && 0 <= SliceStart(s, i)
      && SliceStart(s, i) + s.numberOfSamples <= all
      && SliceStart(s, i) + s.numberOfSamples < SliceStart(s, i + 1)
  {
    BasebandRecovered(s, n);
    MulMonotone(i + 1, n, SamplesPerSequence(s));
    assert i * SamplesPerSequence(s) >= 0;
  }

  // ---------------------------------------------------------------- the calculation as a whole

  lemma PrefixOfOffsets(g: Grid, n: nat, m: nat, a: seq<int>)
    requires n <= m && ArePulseOffsets(g, m, a)
    ensures Blocks(n, |g.starts|) <= |a| && ArePulseOffsets(g, n, a[..Blocks(n, |g.starts|)])
  {
    BlocksMonotone(n, m, |g.starts|);
  }

  /** What _calc_period_details stores for CUDA, the USRP drivers and the channels. */
  class PeriodDetails {
    var nSequences: nat
    var nSamplesBaseband: nat
    var nSamplesRf: int
    var allOffsets: array<int>
    var offsets: seq<int>

    constructor ()
    {
      nSequences, nSamplesBaseband, nSamplesRf, offsets := 0, 0, 0, [];
      allOffsets := new int[0];
    }

    /** The allocation of the offsets fails exactly if the maximum is negative. */
    method CalcPeriodDetails(s: Settings, now: real, start: real, boundaries: seq<real>) returns (ok: bool)
      requires s.Valid() && start <= now
      modifies this
      ensures ok <==> MaxSequences(s) >= 0
      ensures ok ==>
        && nSequences == Sequences(s, TimeLeft(s, now, start, boundaries)) <= MaxSequences(s)
        && nSamplesBaseband == SamplesPerSequence(s) && nSamplesRf == RequestedRf(s, nSequences)
        && ArePulseOffsets(GridOf(s), MaxSequences(s), allOffsets[..])
        && ArePulseOffsets(GridOf(s), nSequences, offsets)
        && offsets <= allOffsets[..]
    {
      var secondsLeft := s.duration - now + start;
      for k := 0 to |boundaries|
        invariant secondsLeft == Least(s.duration - now + start, boundaries[..k])
      {
        assert boundaries[..k + 1][..k] == boundaries[..k];
        secondsLeft := MinReal(secondsLeft, boundaries[k]);
      }
      assert boundaries[..|boundaries|] == boundaries;
      var left := secondsLeft - s.overhead - s.delay;
      if left <= 0.0 { left := 0.0; }
      NeverMoreThanMax(s, now, start, boundaries);
      nSequences := Sequences(s, left);
      var max := MaxSequences(s);
      nSamplesBaseband := SamplesPerSequence(s);
      nSamplesRf := RequestedRf(s, nSequences);
      if max < 0 {
        return false;
      }
      allOffsets := PulseOffsets(GridOf(s), max);
      PrefixOfOffsets(GridOf(s), nSequences, max, allOffsets[..]);
      offsets := allOffsets[..Blocks(nSequences, |s.offsets|)];
      ok := true;
    }
  }
}
