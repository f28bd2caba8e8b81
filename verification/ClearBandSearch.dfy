/** The clear band search of clear_freq_search.c: the searched part of the spectrum is trimmed out,
    restricted and reserved bands are masked, and the window with the least mean power wins, unless
    the previously used band is nearly as quiet. Power is a real number, frequencies are Hz. */
module ClearBandSearch {
  import opened Division

  datatype Band = Band(fStart: int, fEnd: int, noise: real)

  /** The fields of sample_meta_data the search uses. */
  datatype Meta = Meta(rfRate: int, fcenter: int, ifRate: real) {
    predicate Valid() { rfRate >= 0 && ifRate > 0.0 }

    /** Number of IF aliases, itself included. */
    function Aliases(): int
      requires Valid()
    {
      Ceil(rfRate as real / ifRate)
    }

    /** Distance of the k-th alias. */
    function AliasHz(k: nat): (hz: real)
      ensures Valid() ==> hz >= 0.0
    {
      k as real * ifRate
    }
  }

  const RAND_MAX: real := 2147483647.0
  const KEEP_FACTOR: real := 0.9
  const ATTENUATION: real := 1000.0
  const RADAR_NUM := 2
  const CHANNEL_NUM := 2
  const RESERV_NUM := RADAR_NUM * CHANNEL_NUM

  /** Integer division of C, and a real quotient converted to int: towards zero. */
  function TruncDiv(a: int, d: int): int
    requires d > 0
  {
    if a >= 0 then a / d else -((-a) / d)
  }

  function Clamp(x: int, hi: int): int { if x < 0 then 0 else if x > hi then hi else x }

  function CeilDiv(a: int, d: int): int
    requires d > 0
  {
    -((-a) / d)
  }

  // ---------------------------------------------------------------- windows

  function Sum(s: seq<real>, i: nat, n: nat): real
    requires i + n <= |s|
  {
    if n == 0 then 0.0 else Sum(s, i, n - 1) + s[i + n - 1]
  }

  /** The quotient the convolution with ones leaves for the window of w samples at i. */
  function Mean(s: seq<real>, i: nat, w: nat): real
    requires i + w <= |s| && w > 0
  {
    Sum(s, i, w) / w as real
  }

  lemma {:induction false} SumBounds(s: seq<real>, i: nat, n: nat)
    requires i + n <= |s|
    requires forall k :: i <= k < i + n ==> s[k] >= 0.0
    ensures Sum(s, i, n) >= 0.0
    ensures forall k :: i <= k < i + n ==> s[k] <= Sum(s, i, n)
  {
    if n > 0 { SumBounds(s, i, n - 1); }
  }

  lemma {:induction false} SumOfEqual(s: seq<real>, t: seq<real>, i: nat, n: nat)
    requires i + n <= |s| && i + n <= |t|
    requires forall k :: i <= k < i + n ==> s[k] == t[k]
    ensures Sum(s, i, n) == Sum(t, i, n)
  {
    if n > 0 { SumOfEqual(s, t, i, n - 1); }
  }

  /** The sum of one sample is the sample, and sums of adjacent parts add up. */
  lemma {:induction false} SumAdds(s: seq<real>, i: nat, m: nat, n: nat)
    requires i + m + n <= |s|
    ensures Sum(s, i, m + n) == Sum(s, i, m) + Sum(s, i + m, n)
    ensures Sum(s, i, 0) == 0.0 && (m == 1 ==> Sum(s, i, m) == s[i])
  {
    if n > 0 { SumAdds(s, i, m, n - 1); }
    if m == 1 { assert Sum(s, i, 1) == Sum(s, i, 0) + s[i]; }
  }

  lemma {:induction false} SumBetween(s: seq<real>, i: nat, n: nat, a: real, b: real)
    requires i + n <= |s| && forall k :: i <= k < i + n ==> a <= s[k] <= b
    ensures a * n as real <= Sum(s, i, n) <= b * n as real
  {
    if n > 0 {
      SumBetween(s, i, n - 1, a, b);
      assert a * n as real == a * (n - 1) as real + a && b * n as real == b * (n - 1) as real + b;
    }
  }

  /** The mean lies between the least and the greatest sample, and w times the mean is the sum. */
  lemma MeanBetween(s: seq<real>, i: nat, w: nat, a: real, b: real)
    requires i + w <= |s| && w > 0 && forall k :: i <= k < i + w ==> a <= s[k] <= b
    ensures a <= Mean(s, i, w) <= b && Mean(s, i, w) * w as real == Sum(s, i, w)
  {
    SumBetween(s, i, w, a, b);
    QuotientBetween(Sum(s, i, w), w, a, b);
  }

  lemma QuotientBetween(sum: real, w: nat, a: real, b: real)
    requires w > 0 && a * w as real <= sum <= b * w as real
    ensures a <= sum / w as real <= b && (sum / w as real) * w as real == sum
  {
    var q := sum / w as real;
    assert q * w as real == sum;
    TimesOrder(a, q, w as real);
    TimesOrder(q, b, w as real);
  }

  /** Every start 0 .. u_size - v_size - 1; the last window is never looked at. */
  method Convolve(u: array<real>, uSize: nat, v: array<int>, vSize: nat, result: array<real>)
    requires uSize <= u.Length && 0 < vSize <= v.Length && result != u
    requires uSize - vSize <= result.Length
    requires forall j :: 0 <= j < vSize ==> v[j] == 1
    modifies result
    ensures forall i :: 0 <= i < uSize - vSize ==>
              result[i] == Mean(u[..uSize], i, vSize) && result[i] * vSize as real == Sum(u[..uSize], i, vSize)
  {
    var i := 0;
    while i < uSize - vSize
      invariant 0 <= i && (uSize >= vSize ==> i <= uSize - vSize)
      invariant forall k :: 0 <= k < i && k < uSize - vSize ==> result[k] == Mean(u[..uSize], k, vSize)
    {
      result[i] := 0.0;
      for j := 0 to vSize
        invariant result[i] == Sum(u[..uSize], i, j)
        invariant forall k :: 0 <= k < i ==> result[k] == Mean(u[..uSize], k, vSize)
      {
        result[i] := result[i] + v[j] as real * u[i + j];
      }
      result[i] := result[i] / vSize as real;
      i := i + 1;
    }
  }

  // ---------------------------------------------------------------- masking

  /** The searched frequencies and the number of samples they were trimmed to. */
  datatype Range = Range(fStart: int, fEnd: int, delta: int, n: int) {
    predicate Valid() { delta > 0 && n >= 0 }

    predicate HasEndpointOf(b: Band) {
      (b.fEnd <= fEnd && b.fEnd > fStart) || (b.fStart < fEnd && b.fStart >= fStart)
    }

    function First(fLow: int): int
      requires Valid()
    {
      if fLow < fStart then 0 else TruncDiv(fLow - fStart, delta)
    }

    function Last(fHigh: int): int
      requires Valid()
    {
      if fHigh >= fEnd then n - 1 else TruncDiv(fHigh - fStart, delta)
    }

    /** Samples that masking the frequencies fLow to fHigh overwrites. */
    predicate Covers(fLow: int, fHigh: int, j: int)
      requires Valid()
    {
      First(fLow) <= j <= Last(fHigh) && j <= n
    }

    /** An array this long can hold every sample that masking may write. */
    predicate FitsInto(length: int) {
      n < length || (n == length && fEnd - fStart <= n * delta)
    }
  }

  lemma MaskInBounds(r: Range, length: int, fLow: int, fHigh: int, j: int)
    requires r.Valid() && r.FitsInto(length) && r.Covers(fLow, fHigh, j)
    requires r.n > 0 || r.n < length || fHigh >= r.fStart
    ensures 0 <= j < length
  {
    if j == length {
      DivBelow(fHigh - r.fStart, r.n, r.delta);
    }
  }

  /** Restricted bands followed by the reservations, channel after channel. */
  datatype Masks = Masks(bands: seq<Band>, restrictedNum: nat, meta: Meta, radar: nat) {
    predicate Valid() { meta.Valid() && |bands| >= restrictedNum + RESERV_NUM }

    function Count(): nat { restrictedNum + RESERV_NUM }

    function Shift(k: nat): int { meta.AliasHz(k).Floor }

    /** The reservations of the own radar are masked at their IF aliases, too. */
    predicate HasAliases(i: nat)
      requires i < |bands|
    {
      && restrictedNum + CHANNEL_NUM * radar <= i < restrictedNum + CHANNEL_NUM * (radar + 1)
      && bands[i].fStart != 0 && bands[i].fEnd != 0
    }

    predicate Below(i: nat, k: nat, r: Range, j: int)
      requires i < |bands| && r.Valid()
    {
      var low, high := bands[i].fStart - Shift(k), bands[i].fEnd - Shift(k);
      r.fStart <= high && low <= r.fEnd && r.Covers(low, high, j)
    }

    predicate Above(i: nat, k: nat, r: Range, j: int)
      requires i < |bands| && r.Valid()
    {
      var low, high := bands[i].fStart + Shift(k), bands[i].fEnd + Shift(k);
      low <= r.fEnd && r.fStart <= high && r.Covers(low, high, j)
    }

    predicate Direct(i: nat, r: Range, j: int)
      requires i < |bands| && r.Valid()
    {
      r.HasEndpointOf(bands[i]) && r.Covers(bands[i].fStart, bands[i].fEnd, j)
    }

    ghost predicate AnyBelow(i: nat, m: int, r: Range, j: int)
      requires i < |bands| && r.Valid()
    {
      exists k: nat :: 1 <= k < m && Below(i, k, r, j)
    }

    ghost predicate AnyAbove(i: nat, m: int, r: Range, j: int)
      requires i < |bands| && r.Valid()
    {
      exists k: nat :: 1 <= k < m && Above(i, k, r, j)
    }

    /** Sample j is overwritten because of band number i. */
    ghost predicate By(i: nat, r: Range, j: int)
      requires meta.Valid() && i < |bands| && r.Valid()
    {
      || Direct(i, r, j)
      || (HasAliases(i) && (AnyBelow(i, meta.Aliases(), r, j) || AnyAbove(i, meta.Aliases(), r, j)))
    }

    ghost predicate ByFirst(m: nat, r: Range, j: int)
      requires Valid() && m <= |bands| && r.Valid()
    {
      exists i: nat :: i < m && By(i, r, j)
    }
  }

  lemma OneMoreAlias(ms: Masks, i: nat, k: nat, r: Range, j: int)
    requires i < |ms.bands| && r.Valid() && k >= 1
    ensures ms.AnyBelow(i, k + 1, r, j) <==> ms.AnyBelow(i, k, r, j) || ms.Below(i, k, r, j)
    ensures ms.AnyAbove(i, k + 1, r, j) <==> ms.AnyAbove(i, k, r, j) || ms.Above(i, k, r, j)
  {}

  lemma OneMoreBand(ms: Masks, i: nat, r: Range, j: int)
    requires ms.Valid() && i < |ms.bands| && r.Valid()
    ensures ms.ByFirst(i + 1, r, j) <==> ms.ByFirst(i, r, j) || ms.By(i, r, j)
  {}

  /** Once the aliases below have left the range, none comes back. */
  lemma NoMoreBelow(ms: Masks, i: nat, k: nat, m: int, r: Range, j: int)
    requires ms.meta.Valid() && i < |ms.bands| && r.Valid() && 1 <= k <= m
    requires ms.bands[i].fEnd - ms.Shift(k) < r.fStart
    ensures ms.AnyBelow(i, m, r, j) == ms.AnyBelow(i, k, r, j)
  {
    forall l: nat | k <= l ensures ms.Shift(k) <= ms.Shift(l) { ShiftGrows(ms, k, l); }
  }

  lemma NoMoreAbove(ms: Masks, i: nat, k: nat, m: int, r: Range, j: int)
    requires ms.meta.Valid() && i < |ms.bands| && r.Valid() && 1 <= k <= m
    requires ms.bands[i].fStart + ms.Shift(k) > r.fEnd
    ensures ms.AnyAbove(i, m, r, j) == ms.AnyAbove(i, k, r, j)
  {
    forall l: nat | k <= l ensures ms.Shift(k) <= ms.Shift(l) { ShiftGrows(ms, k, l); }
  }

  lemma ShiftGrows(ms: Masks, k: nat, l: nat)
    requires ms.meta.Valid() && k <= l
    ensures 0 <= ms.Shift(k) <= ms.Shift(l)
  {
    assert k as real * ms.meta.ifRate <= l as real * ms.meta.ifRate;
    assert k as real * ms.meta.ifRate >= 0.0;
  }

  /** Overwrites the samples between two frequencies with RAND_MAX. The bound of the loop admits the
      element behind the last sample. */
  method Fill(spectrum: array<real>, r: Range, fLow: int, fHigh: int)
    requires r.Valid() && r.FitsInto(spectrum.Length) && (r.n > 0 || r.n < spectrum.Length || fHigh >= r.fStart)
    modifies spectrum
    ensures forall j :: 0 <= j < spectrum.Length ==>
              spectrum[j] == if r.Covers(fLow, fHigh, j) then RAND_MAX else old(spectrum[j])
  {
    var first := r.First(fLow);
    var last := r.Last(fHigh);
    var j := first;
    while j <= last && j <= r.n
      invariant first <= j
      invariant forall k :: 0 <= k < spectrum.Length ==>
                  spectrum[k] == if first <= k < j then RAND_MAX else old(spectrum[k])
      invariant j == first || (j - 1 <= last && j - 1 <= r.n)
    {
      MaskInBounds(r, spectrum.Length, fLow, fHigh, j);
      spectrum[j] := RAND_MAX;
      j := j + 1;
    }
  }

  method MaskBelow(spectrum: array<real>, r: Range, ms: Masks, i: nat)
    requires ms.Valid() && r.Valid() && r.FitsInto(spectrum.Length) && i < |ms.bands|
    modifies spectrum
    ensures forall j :: 0 <= j < spectrum.Length ==>
              spectrum[j] == if ms.AnyBelow(i, ms.meta.Aliases(), r, j) then RAND_MAX else old(spectrum[j])
  {
    var k := 1;
    while k < ms.meta.Aliases()
      invariant k == 1 || 1 <= k <= ms.meta.Aliases()
      invariant forall j :: 0 <= j < spectrum.Length ==>
                  spectrum[j] == if ms.AnyBelow(i, k, r, j) then RAND_MAX else old(spectrum[j])
    {
      var high := ms.bands[i].fEnd - ms.Shift(k);
      if high < r.fStart {
        forall j ensures ms.AnyBelow(i, ms.meta.Aliases(), r, j) == ms.AnyBelow(i, k, r, j) {
          NoMoreBelow(ms, i, k, ms.meta.Aliases(), r, j);
        }
        break;
      }
      forall j ensures ms.AnyBelow(i, k + 1, r, j) <==> ms.AnyBelow(i, k, r, j) || ms.Below(i, k, r, j) {
        OneMoreAlias(ms, i, k, r, j);
      }
      var low := ms.bands[i].fStart - ms.Shift(k);
      if low <= r.fEnd {
        Fill(spectrum, r, low, high);
      }
      k := k + 1;
    }
  }

  method MaskAbove(spectrum: array<real>, r: Range, ms: Masks, i: nat)
    requires ms.Valid() && r.Valid() && r.FitsInto(spectrum.Length) && i < |ms.bands|
    modifies spectrum
    ensures forall j :: 0 <= j < spectrum.Length ==>
              spectrum[j] == if ms.AnyAbove(i, ms.meta.Aliases(), r, j) then RAND_MAX else old(spectrum[j])
  {
    var k := 1;
    while k < ms.meta.Aliases()
      invariant k == 1 || 1 <= k <= ms.meta.Aliases()
      invariant forall j :: 0 <= j < spectrum.Length ==>
                  spectrum[j] == if ms.AnyAbove(i, k, r, j) then RAND_MAX else old(spectrum[j])
    {
      var low := ms.bands[i].fStart + ms.Shift(k);
      if low > r.fEnd {
        forall j ensures ms.AnyAbove(i, ms.meta.Aliases(), r, j) == ms.AnyAbove(i, k, r, j) {
          NoMoreAbove(ms, i, k, ms.meta.Aliases(), r, j);
        }
        break;
      }
      forall j ensures ms.AnyAbove(i, k + 1, r, j) <==> ms.AnyAbove(i, k, r, j) || ms.Above(i, k, r, j) {
        OneMoreAlias(ms, i, k, r, j);
      }
      var high := ms.bands[i].fEnd + ms.Shift(k);
      if high >= r.fStart {
        Fill(spectrum, r, low, high);
      }
      k := k + 1;
    }
  }

  /** mask_restricted_freq: afterwards exactly the samples of masked bands are RAND_MAX or what they
      were, and nothing outside the array is written. */
  method MaskRestricted(spectrum: array<real>, r: Range, ms: Masks)
    requires ms.Valid() && r.Valid() && r.FitsInto(spectrum.Length)
    modifies spectrum
    ensures forall j :: 0 <= j < spectrum.Length ==>
              spectrum[j] == if ms.ByFirst(ms.Count(), r, j) then RAND_MAX else old(spectrum[j])
  {
    for i := 0 to ms.Count()
      invariant forall j :: 0 <= j < spectrum.Length ==>
                  spectrum[j] == if ms.ByFirst(i, r, j) then RAND_MAX else old(spectrum[j])
    {
      forall j ensures ms.ByFirst(i + 1, r, j) <==> ms.ByFirst(i, r, j) || ms.By(i, r, j) {
        OneMoreBand(ms, i, r, j);
      }
      if r.HasEndpointOf(ms.bands[i]) {
        Fill(spectrum, r, ms.bands[i].fStart, ms.bands[i].fEnd);
      }
      if ms.HasAliases(i) {
        MaskBelow(spectrum, r, ms, i);
        MaskAbove(spectrum, r, ms, i);
      }
    }
  }

  // ---------------------------------------------------------------- trimming

  /** Where the spectrum and the searched frequencies lie, in samples. */
  datatype Layout = Layout(spectrumStart: int, spectrumWidth: int, start: int, end: int) {
    predicate Valid() { 0 <= start <= end <= spectrumWidth }
  }

  /** The search range, trimmed to the spectrum. */
  function LayoutFrom(first: int, last: int, low: int, high: int): (l: Layout)
    requires first <= last && low <= high
    ensures l.Valid()
  {
    Layout(first, last - first, Clamp(low - first, last - first), Clamp(high - first, last - first))
  }

  function LayoutOf(meta: Meta, delta: int, fStart: int, fEnd: int): (l: Layout)
    requires delta > 0 && meta.Valid() && fStart <= fEnd
    ensures l.Valid()
  {
    var low, high := meta.fcenter * 1000 - meta.rfRate / 2, meta.fcenter * 1000 + meta.rfRate / 2;
    TruncMonotone(low, high, delta);
    TruncMonotone(fStart, fEnd, delta);
    LayoutFrom(TruncDiv(low, delta), TruncDiv(high, delta), TruncDiv(fStart, delta), TruncDiv(fEnd, delta))
  }

  lemma TruncMonotone(a: int, b: int, d: int)
    requires a <= b && d > 0
    ensures TruncDiv(a, d) <= TruncDiv(b, d)
  {
    if a >= 0 { DivMonotone(a, b, d); }
    else if b < 0 { DivMonotone(-b, -a, d); }
    else { DivNotNegative(-a, d); DivNotNegative(b, d); }
  }

  /** A distance in samples. */
  function WholeSamples(x: real, delta: int): (r: int)
    requires delta > 0
    ensures x >= 0.0 ==> r >= 0
  {
    (x / delta as real).Floor
  }

  function AliasStep(meta: Meta, delta: int, j: nat): (r: int)
    requires delta > 0 && meta.Valid()
    ensures r >= 0
  {
    WholeSamples(meta.AliasHz(j), delta)
  }

  /** Power at the IF aliases below sample `at`, from alias j on; the first one outside ends the sum. */
  function PowerBelow(spectrum: seq<real>, at: nat, meta: Meta, delta: int, j: nat): real
    requires delta > 0 && meta.Valid() && at < |spectrum|
    decreases meta.Aliases() - j
  {
    if j >= meta.Aliases() || at - AliasStep(meta, delta, j) <= 0 then 0.0
    else spectrum[at - AliasStep(meta, delta, j)] / ATTENUATION + PowerBelow(spectrum, at, meta, delta, j + 1)
  }

  function PowerAbove(spectrum: seq<real>, width: int, at: nat, meta: Meta, delta: int, j: nat): real
    requires delta > 0 && meta.Valid() && width <= |spectrum|
    decreases meta.Aliases() - j
  {
    if j >= meta.Aliases() || at + AliasStep(meta, delta, j) >= width then 0.0
    else spectrum[at + AliasStep(meta, delta, j)] / ATTENUATION + PowerAbove(spectrum, width, at, meta, delta, j + 1)
  }

  function Trimmed(spectrum: seq<real>, width: int, at: nat, meta: Meta, delta: int): real
    requires delta > 0 && meta.Valid() && width <= |spectrum| && at < |spectrum|
  {
    spectrum[at] + PowerBelow(spectrum, at, meta, delta, 1) + PowerAbove(spectrum, width, at, meta, delta, 1)
  }

  lemma {:induction false} PowerBelowNotNegative(spectrum: seq<real>, at: nat, meta: Meta, delta: int, j: nat)
    requires delta > 0 && meta.Valid() && at < |spectrum| && forall k :: 0 <= k < |spectrum| ==> spectrum[k] >= 0.0
    ensures PowerBelow(spectrum, at, meta, delta, j) >= 0.0
    decreases meta.Aliases() - j
  {
    if j < meta.Aliases() { PowerBelowNotNegative(spectrum, at, meta, delta, j + 1); }
  }

  lemma {:induction false} PowerAboveNotNegative(spectrum: seq<real>, width: int, at: nat, meta: Meta, delta: int, j: nat)
    requires delta > 0 && meta.Valid() && width <= |spectrum|
    requires forall k :: 0 <= k < |spectrum| ==> spectrum[k] >= 0.0
    ensures PowerAbove(spectrum, width, at, meta, delta, j) >= 0.0
    decreases meta.Aliases() - j
  {
    if j < meta.Aliases() { PowerAboveNotNegative(spectrum, width, at, meta, delta, j + 1); }
  }

  method Trim(spectrum: seq<real>, layout: Layout, meta: Meta, delta: int, band: array<real>)
    requires delta > 0 && meta.Valid() && layout.Valid() && layout.spectrumWidth <= |spectrum|
    requires layout.end - layout.start <= band.Length
    modifies band
    ensures forall i :: 0 <= i < layout.end - layout.start ==>
              band[i] == Trimmed(spectrum, layout.spectrumWidth, i + layout.start, meta, delta)
  {
    for i := 0 to layout.end - layout.start
      invariant forall k :: 0 <= k < i ==>
                  band[k] == Trimmed(spectrum, layout.spectrumWidth, k + layout.start, meta, delta)
    {
      var at := i + layout.start;
      band[i] := spectrum[at];
      var j := 1;
      while j < meta.Aliases()
        invariant j >= 1
        invariant band[i] + PowerBelow(spectrum, at, meta, delta, j)
                  == spectrum[at] + PowerBelow(spectrum, at, meta, delta, 1)
        invariant forall k :: 0 <= k < i ==>
                    band[k] == Trimmed(spectrum, layout.spectrumWidth, k + layout.start, meta, delta)
      {
        var alias := at - AliasStep(meta, delta, j);
        if alias > 0 { band[i] := band[i] + spectrum[alias] / ATTENUATION; } else { break; }
        j := j + 1;
      }
      j := 1;
      while j < meta.Aliases()
        invariant j >= 1
        invariant band[i] + PowerAbove(spectrum, layout.spectrumWidth, at, meta, delta, j)
                  == Trimmed(spectrum, layout.spectrumWidth, at, meta, delta)
        invariant forall k :: 0 <= k < i ==>
                    band[k] == Trimmed(spectrum, layout.spectrumWidth, k + layout.start, meta, delta)
      {
        var alias := at + AliasStep(meta, delta, j);
        if alias < layout.spectrumWidth { band[i] := band[i] + spectrum[alias] / ATTENUATION; } else { break; }
        j := j + 1;
      }
    }
  }

  // ---------------------------------------------------------------- choosing

  /** What the choice depends on besides the samples: the position of sample 0 in multiples of
      delta, the window length, the previous band, and what is returned when nothing is found. */
  datatype Choice = Choice(delta: int, first: int, w: nat, prev: Band, whole: Band) {
    predicate Valid() { delta > 0 && w > 0 && whole.noise == RAND_MAX }

    function Window(values: seq<real>, i: nat): Band
      requires Valid() && i + w <= |values|
    {
      Band((first + i) * delta, (first + i + w) * delta, Mean(values, i, w))
    }

    /** The part of the previous band inside the search range. */
    function PrevStart(n: int): int
      requires Valid()
    {
      Clamp(TruncDiv(prev.fStart, delta) - first, n)
    }

    function PrevEnd(n: int): int
      requires Valid()
    {
      Clamp(TruncDiv(prev.fEnd, delta) - first, n)
    }

    function PrevNoise(values: seq<real>): real
      requires Valid()
    {
      var a, b := PrevStart(|values|), PrevEnd(|values|);
      if a < b then Sum(values, a, b - a) / w as real else 0.0
    }
  }

  /** First window start below k with the least mean among those that are positive and below
      RAND_MAX; -1 if there is none. */
  function Best(values: seq<real>, w: nat, k: nat): (b: int)
    requires w > 0 && (k == 0 || k - 1 + w <= |values|)
    ensures -1 <= b < k
  {
    if k == 0 then -1
    else
      var b := Best(values, w, k - 1);
      var x := Mean(values, k - 1, w);
      if 0.0 < x < RAND_MAX && (b == -1 || x < Mean(values, b, w)) then k - 1 else b
  }

  lemma {:induction false} BestIsLeast(values: seq<real>, w: nat, k: nat)
    requires w > 0 && (k == 0 || k - 1 + w <= |values|)
    ensures var b := Best(values, w, k);
      && (b == -1 ==> forall i :: 0 <= i < k ==> !(0.0 < Mean(values, i, w) < RAND_MAX))
      && (b >= 0 ==>
            && 0.0 < Mean(values, b, w) < RAND_MAX
            && (forall i :: 0 <= i < k && 0.0 < Mean(values, i, w) ==> Mean(values, b, w) <= Mean(values, i, w))
            && (forall i :: 0 <= i < b && 0.0 < Mean(values, i, w) ==> Mean(values, b, w) < Mean(values, i, w)))
  {
    if k > 0 { BestIsLeast(values, w, k - 1); }
  }

  /** The windows whose mean is positive and below RAND_MAX, w times the mean being the sum. */
  predicate Eligible(values: seq<real>, w: nat, i: int) {
    0 <= i && i + w < |values| && 0.0 < Sum(values, i, w) < RAND_MAX * w as real
  }

  /** The least sum of all eligible windows, at its first place. */
  ghost predicate FirstLeast(values: seq<real>, w: nat, b: nat) {
    && Eligible(values, w, b)
    && forall i :: Eligible(values, w, i) ==>
         Sum(values, b, w) <= Sum(values, i, w) && (i < b ==> Sum(values, b, w) < Sum(values, i, w))
  }

  /** The frequencies of window b with its mean as the noise. */
  predicate IsWindow(c: Choice, values: seq<real>, b: nat, q: Band)
    requires c.Valid() && b + c.w <= |values|
  {
    && q.fStart == (c.first + b) * c.delta && q.fEnd == (c.first + b + c.w) * c.delta
    && q.noise == Sum(values, b, c.w) / c.w as real
  }

  /** The first eligible window with the least mean; the whole range at RAND_MAX if there is none. */
  ghost predicate IsQuietest(c: Choice, values: seq<real>, q: Band)
    requires c.Valid()
  {
    if exists i: nat :: Eligible(values, c.w, i)
    then exists b: nat :: FirstLeast(values, c.w, b) && IsWindow(c, values, b, q)
    else q == c.whole
  }

  /** The sum of the samples of the previous band that lie in the range. */
  function PrevSum(c: Choice, values: seq<real>): real
    requires c.Valid()
  {
    var a, b := c.PrevStart(|values|), c.PrevEnd(|values|);
    if a < b then Sum(values, a, b - a) else 0.0
  }

  predicate IsPrevious(c: Choice, values: seq<real>, clr: Band)
    requires c.Valid()
  {
    clr.fStart == c.prev.fStart && clr.fEnd == c.prev.fEnd && clr.noise == PrevSum(c, values) / c.w as real
  }

  /** 0.9 times the noise of the previous band is below that of the quietest window. */
  predicate NotMuchQuieter(c: Choice, values: seq<real>, q: Band)
    requires c.Valid()
  {
    c.PrevStart(|values|) != c.PrevEnd(|values|) && q.noise > 0.9 * (PrevSum(c, values) / c.w as real)
  }

  /** The previous band if some of its samples lie in the range and no window is much quieter. */
  ghost predicate IsChosen(c: Choice, values: seq<real>, clr: Band)
    requires c.Valid()
  {
    exists q: Band :: IsQuietest(c, values, q) &&
      if NotMuchQuieter(c, values, q) then IsPrevious(c, values, clr) else clr == q
  }

  /** Means are ordered as the sums are. */
  lemma MeanOrder(values: seq<real>, w: nat, i: nat, j: nat)
    requires w > 0 && i + w <= |values| && j + w <= |values|
    ensures Mean(values, i, w) <= Mean(values, j, w) <==> Sum(values, i, w) <= Sum(values, j, w)
  {
    TimesOrder(Mean(values, i, w), Mean(values, j, w), w as real);
    assert Mean(values, i, w) * w as real == Sum(values, i, w) && Mean(values, j, w) * w as real == Sum(values, j, w);
  }

  lemma TimesOrder(x: real, y: real, w: real)
    requires w > 0.0
    ensures x <= y <==> x * w <= y * w
  {
    if x <= y { assert (y - x) * w >= 0.0; } else { assert (x - y) * w > 0.0; }
  }

  lemma EligibleMean(values: seq<real>, w: nat, i: nat)
    requires w > 0 && i + w < |values|
    ensures Eligible(values, w, i) <==> 0.0 < Mean(values, i, w) < RAND_MAX
  {
    var x := Mean(values, i, w);
    assert x * w as real == Sum(values, i, w);
    TimesOrder(x, 0.0, w as real);
    TimesOrder(RAND_MAX, x, w as real);
  }

  lemma BestFirstLeast(values: seq<real>, w: nat)
    requires w > 0
    ensures var b := Best(values, w, Starts(values, w));
      if b == -1 then forall i: nat :: !Eligible(values, w, i) else FirstLeast(values, w, b)
  {
    var k := Starts(values, w);
    var b := Best(values, w, k);
    BestIsLeast(values, w, k);
    forall i: nat | i < k ensures Eligible(values, w, i) <==> 0.0 < Mean(values, i, w) < RAND_MAX {
      EligibleMean(values, w, i);
    }
    if b >= 0 {
      forall i: nat | Eligible(values, w, i)
        ensures Sum(values, b, w) <= Sum(values, i, w) && (i < b ==> Sum(values, b, w) < Sum(values, i, w))
      {
        MeanOrder(values, w, b, i);
        MeanOrder(values, w, i, b);
      }
    }
  }

  lemma QuietestIs(c: Choice, values: seq<real>)
    requires c.Valid()
    ensures IsQuietest(c, values, Quietest(c, values))
  {
    var b := Best(values, c.w, Starts(values, c.w));
    BestFirstLeast(values, c.w);
    if b >= 0 { assert IsWindow(c, values, b, Quietest(c, values)); }
  }

  lemma SelectedIsChosen(c: Choice, values: seq<real>)
    requires c.Valid()
    ensures IsChosen(c, values, Selected(c, values))
  {
    QuietestIs(c, values);
    assert c.PrevNoise(values) == PrevSum(c, values) / c.w as real;
  }

  /** Only one band is chosen. */
  lemma ChosenUnique(c: Choice, values: seq<real>, x: Band, y: Band)
    requires c.Valid() && IsChosen(c, values, x) && IsChosen(c, values, y)
    ensures x == y
  {
    var q: Band :| IsQuietest(c, values, q) && if NotMuchQuieter(c, values, q) then IsPrevious(c, values, x) else x == q;
    var r: Band :| IsQuietest(c, values, r) && if NotMuchQuieter(c, values, r) then IsPrevious(c, values, y) else y == r;
    QuietestUnique(c, values, q, r);
  }

  lemma QuietestUnique(c: Choice, values: seq<real>, q: Band, r: Band)
    requires c.Valid() && IsQuietest(c, values, q) && IsQuietest(c, values, r)
    ensures q == r
  {
    if i: nat :| Eligible(values, c.w, i) {
      var a: nat :| FirstLeast(values, c.w, a) && IsWindow(c, values, a, q);
      var b: nat :| FirstLeast(values, c.w, b) && IsWindow(c, values, b, r);
      FirstLeastUnique(values, c.w, a, b);
    }
  }

  lemma FirstLeastUnique(values: seq<real>, w: nat, a: nat, b: nat)
    requires FirstLeast(values, w, a) && FirstLeast(values, w, b)
    ensures a == b
  {}

  /** Number of window starts that are looked at. */
  function Starts(values: seq<real>, w: nat): nat { if |values| <= w then 0 else |values| - w }

  function Quietest(c: Choice, values: seq<real>): Band
    requires c.Valid()
  {
    var b := Best(values, c.w, Starts(values, c.w));
    if b == -1 then c.whole else c.Window(values, b)
  }

  function KeepsPrevious(c: Choice, values: seq<real>): bool
    requires c.Valid()
  {
    c.PrevStart(|values|) != c.PrevEnd(|values|) && Quietest(c, values).noise > c.PrevNoise(values) * KEEP_FACTOR
  }

  function Selected(c: Choice, values: seq<real>): Band
    requires c.Valid()
  {
    if KeepsPrevious(c, values) then c.prev.(noise := c.PrevNoise(values)) else Quietest(c, values)
  }

  method Choose(c: Choice, band: array<real>, n: nat) returns (clr: Band)
    requires c.Valid() && n <= band.Length
    ensures clr == Selected(c, band[..n]) && IsChosen(c, band[..n], clr)
  {
    ghost var values := band[..n];
    var bpf := new int[c.w](_ => 1);
    var starts := if n > c.w then n - c.w else 0;
    var convolved := new real[starts];
    Convolve(band, n, bpf, c.w, convolved);
    assert band[..n] == values;

    clr := c.whole;
    for i := 0 to starts
      invariant var b := Best(values, c.w, i);
        clr == if b == -1 then c.whole else c.Window(values, b)
    {
      var curr := Band((c.first + i) * c.delta, (c.first + i + c.w) * c.delta, convolved[i]);
      if curr.noise < clr.noise && curr.noise > 0.0 && curr.noise < RAND_MAX {
        clr := curr;
      }
    }

    if c.PrevStart(n) != c.PrevEnd(n) {
      var noise := PreviousNoise(c, band, n);
      if clr.noise > noise * KEEP_FACTOR {
        clr := c.prev.(noise := noise);
      }
    }
    SelectedIsChosen(c, band[..n]);
  }

  method PreviousNoise(c: Choice, band: array<real>, n: nat) returns (noise: real)
    requires c.Valid() && n <= band.Length
    ensures noise == c.PrevNoise(band[..n])
  {
    var prevStart := c.PrevStart(n);
    var prevWidth := c.PrevEnd(n) - prevStart;
    noise := 0.0;
    var i := 0;
    while i < prevWidth
      invariant 0 <= i && (i <= prevWidth || i == 0)
      invariant noise == Sum(band[..n], prevStart, i)
    {
      noise := noise + band[prevStart + i];
      i := i + 1;
    }
    noise := noise / c.w as real;
  }

  // ---------------------------------------------------------------- the whole search

  /** Arguments of find_clear_freqs. */
  datatype Search = Search(meta: Meta, delta: int, fStart: int, fEnd: int, clearBw: int, masks: Masks, prev: Band) {
    predicate Valid() {
      delta > 0 && clearBw > 0 && fStart <= fEnd && meta.Valid() && masks.Valid() && masks.meta == meta
    }

    function Cut(): Layout
      requires Valid()
    {
      LayoutOf(meta, delta, fStart, fEnd)
    }

    function Searched(): (r: Range)
      requires Valid()
      ensures r.Valid()
    {
      Range(fStart, fEnd, delta, Cut().end - Cut().start)
    }

    /** The number of elements the caller allocates for the samples. */
    function Allocated(): int
      requires Valid()
    {
      (fEnd - fStart) / delta
    }

    function Width(): (w: int)
      requires Valid()
      ensures w > 0
    {
      WindowPositive(clearBw, delta);
      CeilDiv(clearBw, delta)
    }

    function Rules(): (c: Choice)
      requires Valid()
      ensures c.Valid()
    {
      var l := Cut();
      var base := meta.fcenter * 1000 - meta.rfRate / 2;
      Choice(delta, l.spectrumStart + l.start, Width(), prev,
                    Band(l.start * delta + base, l.end * delta + base, RAND_MAX))
    }

    /** The samples the choice is made from. */
    ghost function Values(spectrum: seq<real>): (v: seq<real>)
      requires Valid() && Cut().spectrumWidth <= |spectrum|
      ensures |v| == Searched().n
    {
      var l := Cut();
      seq(Searched().n, j requires 0 <= j < Searched().n =>
        if masks.ByFirst(masks.Count(), Searched(), j) then RAND_MAX
        else Trimmed(spectrum, l.spectrumWidth, j + l.start, meta, delta))
    }
  }

  lemma WindowPositive(bw: int, delta: int)
    requires bw > 0 && delta > 0
    ensures CeilDiv(bw, delta) > 0
  {
    DivBelow(-bw, 0, delta);
  }

  method FindClearFreqs(spectrum: seq<real>, s: Search, clrSearchBand: array<real>) returns (clr: Band)
    requires s.Valid() && s.Cut().spectrumWidth <= |spectrum|
    requires s.Searched().n <= clrSearchBand.Length && s.Searched().FitsInto(clrSearchBand.Length)
    modifies clrSearchBand
    ensures clrSearchBand[..s.Searched().n] == s.Values(spectrum)
    ensures clr == Selected(s.Rules(), s.Values(spectrum)) && IsChosen(s.Rules(), s.Values(spectrum), clr)
  {
    var layout := s.Cut();
    Trim(spectrum, layout, s.meta, s.delta, clrSearchBand);
    MaskRestricted(clrSearchBand, s.Searched(), s.masks);
    assert clrSearchBand[..s.Searched().n] == s.Values(spectrum);
    clr := Choose(s.Rules(), clrSearchBand, s.Searched().n);
  }

  // ---------------------------------------------------------------- what the choice guarantees

  /** The noise q of the returned band is nearly the least: with m the least mean of all eligible
      windows, either q == m, at its first index, or the previous band was kept and 0.9 * q < m. */
  lemma NearlyLeast(c: Choice, values: seq<real>)
    requires c.Valid() && exists i :: 0 <= i < Starts(values, c.w) && 0.0 < Mean(values, i, c.w) < RAND_MAX
    ensures var b := Best(values, c.w, Starts(values, c.w)); var q := Selected(c, values).noise;
      && 0 <= b < Starts(values, c.w)
      && (forall i :: 0 <= i < Starts(values, c.w) && 0.0 < Mean(values, i, c.w) ==>
            Mean(values, b, c.w) <= Mean(values, i, c.w) && (i < b ==> Mean(values, b, c.w) < Mean(values, i, c.w)))
      && (if KeepsPrevious(c, values) then q * KEEP_FACTOR < Mean(values, b, c.w)
          else Selected(c, values) == c.Window(values, b))
  {
    BestIsLeast(values, c.w, Starts(values, c.w));
  }

  /** If no window is eligible, the band returned is the whole range at RAND_MAX, or the previous
      band when that is clearly better than RAND_MAX. */
  lemma NothingEligible(c: Choice, values: seq<real>)
    requires c.Valid() && forall i :: 0 <= i < Starts(values, c.w) ==> !(0.0 < Mean(values, i, c.w) < RAND_MAX)
    ensures if KeepsPrevious(c, values) then Selected(c, values).noise * KEEP_FACTOR < RAND_MAX
            else Selected(c, values) == c.whole
  {
    BestIsLeast(values, c.w, Starts(values, c.w));
  }

  /** A window or previous band whose sum stays below RAND_MAX contains no masked sample. */
  lemma NoMaskedSample(values: seq<real>, i: nat, n: nat, w: nat)
    requires i + n <= |values| && w > 0 && (forall k :: 0 <= k < |values| ==> values[k] >= 0.0)
    requires Sum(values, i, n) / w as real < RAND_MAX / w as real
    ensures forall k :: i <= k < i + n ==> values[k] < RAND_MAX
  {
    SumBounds(values, i, n);
    QuotientLess(Sum(values, i, n), RAND_MAX, w as real);
  }

  lemma QuotientLess(a: real, b: real, w: real)
    requires w > 0.0 && a / w < b / w
    ensures a < b
  {
    assert a == (a / w) * w && b == (b / w) * w;
    assert (b / w - a / w) * w > 0.0;
  }

  /** Samples the selected band consists of, as far as it lies in the search range. */
  predicate InSelected(c: Choice, values: seq<real>, j: int)
    requires c.Valid()
  {
    if KeepsPrevious(c, values) then c.PrevStart(|values|) <= j < c.PrevEnd(|values|)
    else var b := Best(values, c.w, Starts(values, c.w)); b <= j < b + c.w
  }

  /** Some window is quiet enough that no masked sample can hide in the selected band. */
  ghost predicate SomeQuiet(c: Choice, values: seq<real>)
    requires c.Valid()
  {
    exists i :: 0 <= i < Starts(values, c.w) && 0.0 < Mean(values, i, c.w) < KEEP_FACTOR * RAND_MAX / c.w as real
  }

  lemma QuietSelection(c: Choice, values: seq<real>, j: int)
    requires c.Valid() && (forall k :: 0 <= k < |values| ==> values[k] >= 0.0) && SomeQuiet(c, values)
    requires 0 <= j < |values| && InSelected(c, values, j)
    ensures values[j] < RAND_MAX
  {
    var i :| 0 <= i < Starts(values, c.w) && 0.0 < Mean(values, i, c.w) < KEEP_FACTOR * RAND_MAX / c.w as real;
    var limit := RAND_MAX / c.w as real;
    LimitBelow(c.w);
    NearlyLeast(c, values);
    var b := Best(values, c.w, Starts(values, c.w));
    if KeepsPrevious(c, values) {
      assert c.PrevNoise(values) < limit;
      NoMaskedSample(values, c.PrevStart(|values|), c.PrevEnd(|values|) - c.PrevStart(|values|), c.w);
    } else {
      NoMaskedSample(values, b, c.w, c.w);
    }
  }

  /** The noise of the selected band lies between the least and the greatest of its samples, if a
      previous band that is kept has the width of a window inside the range. */
  lemma NoiseBetween(c: Choice, values: seq<real>, a: real, b: real)
    requires c.Valid() && forall j :: 0 <= j < |values| && InSelected(c, values, j) ==> a <= values[j] <= b
    requires KeepsPrevious(c, values) ==> c.PrevEnd(|values|) - c.PrevStart(|values|) == c.w
    requires KeepsPrevious(c, values) || Best(values, c.w, Starts(values, c.w)) >= 0
    ensures a <= Selected(c, values).noise <= b
  {
    MeanBetween(values, if KeepsPrevious(c, values) then c.PrevStart(|values|) else Best(values, c.w, Starts(values, c.w)),
                c.w, a, b);
  }

  lemma LimitBelow(w: nat)
    requires w > 0
    ensures 0.0 < KEEP_FACTOR * RAND_MAX / w as real == KEEP_FACTOR * (RAND_MAX / w as real)
    ensures KEEP_FACTOR * RAND_MAX / w as real < RAND_MAX / w as real <= RAND_MAX
  {}

  // ---------------------------------------------------------------- masked bands are avoided

  /** The search range lies in the spectrum. */
  predicate Inside(s: Search)
    requires s.Valid()
  {
    && 0 <= s.fStart && s.Cut().spectrumStart <= s.fStart / s.delta
    && s.fEnd / s.delta <= s.Cut().spectrumStart + s.Cut().spectrumWidth
  }

  lemma Geometry(s: Search)
    requires s.Valid() && Inside(s)
    ensures s.Searched().n == s.fEnd / s.delta - s.fStart / s.delta
    ensures s.Rules().first == s.fStart / s.delta
  {
    DivMonotone(s.fStart, s.fEnd, s.delta);
    DivNotNegative(s.fStart, s.delta);
  }

  /** The number of the sample frequency x belongs to. */
  function SampleOf(s: Search, x: int): int
    requires s.Valid()
  {
    x / s.delta - s.fStart / s.delta
  }

  /** Frequency x belongs to one of the samples the search looks at. */
  predicate Seen(s: Search, x: int)
    requires s.Valid()
  {
    0 <= SampleOf(s, x) < s.Searched().n
  }

  /** Masks are rounded to samples counted from the start of the range, the samples lie on multiples
      of delta: a mask may end one sample early. This holds if the sample of x is not the one lost. */
  predicate Reached(s: Search, high: int, x: int)
    requires s.Valid()
  {
    x - x % s.delta <= high - s.fStart % s.delta
  }

  /** A mask leaves out a sample that has frequencies of the band exactly if it is the sample after
      the last one written and starts at or below the upper end of the band. */
  lemma LostSample(s: Search, low: int, high: int, x: int)
    requires s.Valid() && Inside(s) && Seen(s, x) && low <= x <= high < s.fEnd && s.fStart <= high
    ensures !s.Searched().Covers(low, high, SampleOf(s, x)) <==> SampleOf(s, x) == s.Searched().Last(high) + 1
    ensures !s.Searched().Covers(low, high, SampleOf(s, x)) <==> !Reached(s, high, x)
  {
    FirstBelow(s, low, x);
    LastReached(s, high, x);
    OneTooFew(s.fStart, x, high, s.delta);
  }

  lemma FirstBelow(s: Search, low: int, x: int)
    requires s.Valid() && Inside(s) && Seen(s, x) && low <= x
    ensures s.Searched().First(low) <= SampleOf(s, x)
  {
    if low >= s.fStart {
      DivMonotone(low - s.fStart, x - s.fStart, s.delta);
      QuotientOfDifference(s.fStart, x, s.delta);
    }
  }

  lemma LastReached(s: Search, high: int, x: int)
    requires s.Valid() && Inside(s) && Seen(s, x) && s.fStart <= high
    ensures high < s.fEnd ==> (SampleOf(s, x) <= s.Searched().Last(high) <==> Reached(s, high, x))
    ensures high >= s.fEnd ==> SampleOf(s, x) <= s.Searched().Last(high)
  {
    QuotientsDiffer(s.fStart, x, high, s.delta);
    if high >= s.fEnd { Geometry(s); }
  }

  /** Rounding both frequencies down first never gains more than one sample. */
  lemma OneTooFew(a: int, x: int, high: int, d: int)
    requires d > 0 && x <= high
    ensures x / d - a / d <= (high - a) / d + 1
  {
    DivMonotone(x, high, d);
    QuotientOfDifference(a, high, d);
  }

  /** A search from 10155 to 10655 kHz with the restricted band from 10390 to 10402 kHz, any
      intermediate rate from 250 kHz on, as for 10 MHz decimated by 40, and no reservation: the quietest
      sample is the lost one, and the band returned shares the frequencies from 10400 to 10402 kHz with
      the restricted band. */
  lemma LostSampleReturned(s: Search, spectrum: seq<real>)
    requires s.meta.rfRate == 10000000 && s.meta.fcenter == 13000 && s.meta.ifRate >= 250000.0
    requires s.delta == 10000000 / 2500 * 4 && s.fStart == 10155000 && s.fEnd == 10655000
    requires s.clearBw == 4833 && s.prev == Band(0, 0, 0.0)
    requires s.masks.bands == [Band(10390000, 10402000, 0.0)] + seq(RESERV_NUM, _ => Band(0, 0, 0.0))
    requires s.masks.restrictedNum == 1 && s.masks.meta == s.meta && s.masks.radar == 0
    requires spectrum == seq(625, k => if k == 150 then 1.0 else 2.0)
    requires s.Valid() && s.Cut().spectrumWidth <= |spectrum|
    ensures Inside(s) && SomeQuiet(s.Rules(), s.Values(spectrum))
    ensures var found := Selected(s.Rules(), s.Values(spectrum)); found.fStart == 10400000 && found.fEnd == 10416000
  {
    LostSearch(s);
    var values := s.Values(spectrum);
    forall j: nat | j < 30 ensures Mean(values, j, 1) == values[j] { OneSampleMean(values, j); }
    forall j: nat | j < 30
      ensures if j == 16 then 1.0 <= values[j] < 2.0 else if j in {14, 15} then values[j] == RAND_MAX else 2.0 <= values[j] < 3.0
    {
      LostMasks(s, j);
      AliasPower(spectrum, j + 134, s.meta, s.delta);
    }
    BestIsLeast(values, 1, 30);
    assert 0.0 < Mean(values, 16, 1) < KEEP_FACTOR * RAND_MAX / 1 as real;
  }

  /** Up to forty aliases of at most 2 each add less than 1, attenuated by 1000. */
  lemma AliasPower(spectrum: seq<real>, at: nat, meta: Meta, delta: int)
    requires delta > 0 && meta.Valid() && meta.Aliases() <= 40 && at < |spectrum|
    requires forall k :: 0 <= k < |spectrum| ==> 0.0 <= spectrum[k] <= 2.0
    ensures spectrum[at] <= Trimmed(spectrum, |spectrum|, at, meta, delta) < spectrum[at] + 1.0
  {
    PowerBelowNotNegative(spectrum, at, meta, delta, 1);
    PowerAboveNotNegative(spectrum, |spectrum|, at, meta, delta, 1);
    PowerBelowBounded(spectrum, at, meta, delta, 1);
    PowerAboveBounded(spectrum, at, meta, delta, 1);
  }

  lemma {:induction false} PowerBelowBounded(spectrum: seq<real>, at: nat, meta: Meta, delta: int, j: nat)
    requires delta > 0 && meta.Valid() && meta.Aliases() <= 40 && at < |spectrum| && j <= 40
    requires forall k :: 0 <= k < |spectrum| ==> 0.0 <= spectrum[k] <= 2.0
    ensures PowerBelow(spectrum, at, meta, delta, j) <= (40 - j) as real * 0.002
    decreases 40 - j
  {
    if j < meta.Aliases() { PowerBelowBounded(spectrum, at, meta, delta, j + 1); }
  }

  lemma {:induction false} PowerAboveBounded(spectrum: seq<real>, at: nat, meta: Meta, delta: int, j: nat)
    requires delta > 0 && meta.Valid() && meta.Aliases() <= 40 && at < |spectrum| && j <= 40
    requires forall k :: 0 <= k < |spectrum| ==> 0.0 <= spectrum[k] <= 2.0
    ensures PowerAbove(spectrum, |spectrum|, at, meta, delta, j) <= (40 - j) as real * 0.002
    decreases 40 - j
  {
    if j < meta.Aliases() { PowerAboveBounded(spectrum, at, meta, delta, j + 1); }
  }

  lemma OneSampleMean(values: seq<real>, j: nat)
    requires j < |values|
    ensures Mean(values, j, 1) == values[j]
  {
    assert Sum(values, j, 1) == Sum(values, j, 0) + values[j];
  }

  lemma LostSearch(s: Search)
    requires s.meta.rfRate == 10000000 && s.meta.fcenter == 13000 && s.meta.ifRate >= 250000.0 && s.delta == 16000
    requires s.fStart == 10155000 && s.fEnd == 10655000 && s.clearBw == 4833 && s.prev == Band(0, 0, 0.0)
    requires |s.masks.bands| == 5 && s.masks.restrictedNum == 1 && s.masks.meta == s.meta
    ensures s.meta.Aliases() <= 40 && s.Valid() && Inside(s) && s.Cut() == Layout(500, 625, 134, 165)
    ensures s.Searched() == Range(10155000, 10655000, 16000, 31)
    ensures s.Rules().Valid() && s.Rules().first == 634 && s.Rules().w == 1
    ensures s.Rules().PrevStart(31) == s.Rules().PrevEnd(31) == 0
  {
    assert TruncDiv(8000000, 16000) == 500 && TruncDiv(18000000, 16000) == 1125;
    assert TruncDiv(10155000, 16000) == 634 && TruncDiv(10655000, 16000) == 665;
    QuotientIs(-4833, 16000, -1);
    AliasCount(s.meta.ifRate);
  }

  lemma AliasCount(ifRate: real)
    requires ifRate >= 250000.0
    ensures Ceil(10000000.0 / ifRate) <= 40
  {
    var q := 10000000.0 / ifRate;
    assert q * ifRate == 10000000.0;
    assert q > 40.0 ==> q * ifRate > 40.0 * ifRate;
  }

  lemma LostMasks(s: Search, j: nat)
    requires s.Valid() && s.masks.restrictedNum == 1 && s.masks.radar == 0 && j < 30
    requires s.Searched() == Range(10155000, 10655000, 16000, 31)
    requires s.masks.bands == [Band(10390000, 10402000, 0.0)] + seq(RESERV_NUM, _ => Band(0, 0, 0.0))
    ensures s.masks.ByFirst(s.masks.Count(), s.Searched(), j) <==> j in {14, 15}
  {
    var r, ms := s.Searched(), s.masks;
    assert r.First(10390000) == 14 && r.Last(10402000) == 15;
    forall i: nat | 1 <= i < 5 ensures !ms.By(i, r, j) { assert ms.bands[i] == Band(0, 0, 0.0); }
    assert ms.By(0, r, j) <==> ms.Direct(0, r, j);
  }

  /** The caller allocates (fEnd - fStart) / delta elements. That many are enough for the samples
      exactly if the lower limit is no further from the grid than the upper one, and enough for the
      samples and every mask exactly if both are equally far from it. */
  lemma AllocationSuffices(s: Search)
    requires s.Valid() && Inside(s)
    ensures s.Searched().n <= s.Allocated() <==> s.fStart % s.delta <= s.fEnd % s.delta
    ensures s.Searched().FitsInto(s.Allocated()) <==> s.fStart % s.delta == s.fEnd % s.delta
    ensures NeverOverrun(s, s.Allocated()) <==> s.fStart % s.delta == s.fEnd % s.delta
  {
    Geometry(s);
    QuotientOfDifference(s.fStart, s.fEnd, s.delta);
    RangeLength(s.fStart, s.fEnd, s.delta);
    if s.fStart % s.delta == s.fEnd % s.delta {
      FittingNotOverrun(s, s.Allocated());
    } else if s.Searched().n <= s.Allocated() {
      LastPartialSample(s);
    }
  }

  lemma RangeLength(a: int, b: int, d: int)
    requires d > 0
    ensures b - a == (b / d - a / d) * d + b % d - a % d
  {
    Distribute(b / d, a / d, d);
    Rounded(a, d);
    Rounded(b, d);
  }

  /** Neither the samples nor the mask of any band leave an array of this length. */
  ghost predicate NeverOverrun(s: Search, length: int)
    requires s.Valid()
  {
    && s.Searched().n <= length
    && forall ms: Masks, i: nat, j ::
         ms.Valid() && ms.meta == s.meta && i < |ms.bands| && ms.By(i, s.Searched(), j) ==> 0 <= j < length
  }

  lemma FittingNotOverrun(s: Search, length: int)
    requires s.Valid() && s.Searched().FitsInto(length) && (s.Searched().n > 0 || s.fStart == s.fEnd)
    ensures NeverOverrun(s, length)
  {
    var r := s.Searched();
    forall ms: Masks, i: nat, j | ms.Valid() && ms.meta == s.meta && i < |ms.bands| && ms.By(i, r, j)
      ensures 0 <= j < length
    {
      var b := ms.bands[i];
      if ms.Direct(i, r, j) {
        MaskInBounds(r, length, b.fStart, b.fEnd, j);
      } else if ms.AnyBelow(i, ms.meta.Aliases(), r, j) {
        var k: nat :| 1 <= k < ms.meta.Aliases() && ms.Below(i, k, r, j);
        MaskInBounds(r, length, b.fStart - ms.Shift(k), b.fEnd - ms.Shift(k), j);
      } else {
        var k: nat :| 1 <= k < ms.meta.Aliases() && ms.Above(i, k, r, j);
        MaskInBounds(r, length, b.fStart + ms.Shift(k), b.fEnd + ms.Shift(k), j);
      }
    }
  }

  /** A band within the last, partial sample distance is masked in element n. */
  lemma LastPartialSample(s: Search)
    requires s.Valid() && s.Searched().n * s.delta < s.fEnd - s.fStart
    ensures !NeverOverrun(s, s.Searched().n)
  {
    var r := s.Searched();
    var x := s.fStart + r.n * s.delta;
    var ms := Masks(seq(RESERV_NUM, _ => Band(x, x, 0.0)), 0, s.meta, 0);
    QuotientOfProduct(r.n, s.delta);
    MulMonotone(0, r.n, s.delta);
    assert ms.Direct(0, r, r.n);
    assert ms.By(0, r, r.n);
  }

  /** 10155 to 10600 kHz with 2500 samples of 10 MHz, averaged by four: 28 samples, 27 elements. */
  lemma SamplesOverrun(s: Search)
    requires s.Valid() && s.meta.rfRate == 10000000 && s.meta.fcenter == 13000 && s.delta == 10000000 / 2500 * 4
    requires s.fStart == 10155000 && s.fEnd == 10600000
    ensures Inside(s) && s.Searched().n == 28 && s.Allocated() == 27
  {
    assert TruncDiv(8000000, 16000) == 500 && TruncDiv(18000000, 16000) == 1125;
  }

  /** 10155 to 10655 kHz: the samples fit, but a restricted band from 10652 to 10654 kHz is written
      behind them. */
  lemma MaskOverrun(s: Search, i: nat)
    requires s.Valid() && s.meta.rfRate == 10000000 && s.meta.fcenter == 13000 && s.delta == 10000000 / 2500 * 4
    requires s.fStart == 10155000 && s.fEnd == 10655000
    requires i < s.masks.restrictedNum && s.masks.bands[i].fStart == 10652000 && s.masks.bands[i].fEnd == 10654000
    ensures Inside(s) && s.Searched().n == s.Allocated() == 31 && s.masks.By(i, s.Searched(), 31)
  {
    assert TruncDiv(8000000, 16000) == 500 && TruncDiv(18000000, 16000) == 1125;
    assert s.masks.Direct(i, s.Searched(), 31);
  }

  lemma SampleCovered(s: Search, low: int, high: int, x: int)
    requires s.Valid() && Inside(s) && Seen(s, x) && low <= x && s.fStart <= high && Reached(s, high, x)
    ensures s.Searched().Covers(low, high, SampleOf(s, x))
  {
    FirstBelow(s, low, x);
    LastReached(s, high, x);
  }

  /** A seen frequency of the returned band belongs to one of its samples. */
  lemma SampleSelected(s: Search, values: seq<real>, x: int)
    requires s.Valid() && Inside(s) && Seen(s, x) && |values| == s.Searched().n
    requires var clr := Selected(s.Rules(), values); clr.fStart <= x < clr.fEnd
    requires KeepsPrevious(s.Rules(), values) || 0 <= Best(values, s.Width(), Starts(values, s.Width()))
    requires KeepsPrevious(s.Rules(), values) ==> OnGrid(s.prev, s.delta)
    ensures InSelected(s.Rules(), values, SampleOf(s, x))
  {
    Geometry(s);
    var d, first := s.delta, s.fStart / s.delta;
    if KeepsPrevious(s.Rules(), values) {
      DivMonotone(s.prev.fStart, x, d);
      OnlyQuotient(s.prev.fEnd, d);
      DivBelow(x, s.prev.fEnd / d, d);
    } else {
      var b := Best(values, s.Width(), Starts(values, s.Width()));
      DivAtLeast(x, first + b, d);
      DivBelow(x, first + b + s.Width(), d);
    }
  }

  /** Both ends are multiples of delta, as those of every window are. */
  predicate OnGrid(b: Band, delta: int)
    requires delta > 0
  {
    0 <= b.fStart && b.fStart % delta == 0 && b.fEnd % delta == 0
  }

  lemma OnlyQuotient(a: int, d: int)
    requires d > 0 && a % d == 0
    ensures (a / d) * d == a
  {}

  lemma DirectlyMasked(s: Search, spectrum: seq<real>, i: nat, x: int)
    requires s.Valid() && Inside(s) && s.Cut().spectrumWidth <= |spectrum| && Seen(s, x)
    requires i < s.masks.Count() && s.Searched().HasEndpointOf(s.masks.bands[i])
    requires s.masks.bands[i].fStart <= x <= s.masks.bands[i].fEnd && Reached(s, s.masks.bands[i].fEnd, x)
    ensures s.Values(spectrum)[SampleOf(s, x)] == RAND_MAX
  {
    SampleCovered(s, s.masks.bands[i].fStart, s.masks.bands[i].fEnd, x);
    assert s.masks.Direct(i, s.Searched(), SampleOf(s, x));
    assert s.masks.By(i, s.Searched(), SampleOf(s, x));
  }

  lemma MaskedAtAlias(s: Search, spectrum: seq<real>, i: nat, k: nat, x: int)
    requires s.Valid() && Inside(s) && s.Cut().spectrumWidth <= |spectrum| && Seen(s, x) && s.fStart <= x <= s.fEnd
    requires i < s.masks.Count() && s.masks.HasAliases(i) && 1 <= k < s.meta.Aliases()
    requires var b, f := s.masks.bands[i], s.masks.Shift(k);
      || (b.fStart - f <= x <= b.fEnd - f && Reached(s, b.fEnd - f, x))
      || (b.fStart + f <= x <= b.fEnd + f && Reached(s, b.fEnd + f, x))
    ensures s.Values(spectrum)[SampleOf(s, x)] == RAND_MAX
  {
    var b, f, j := s.masks.bands[i], s.masks.Shift(k), SampleOf(s, x);
    if b.fStart - f <= x <= b.fEnd - f && Reached(s, b.fEnd - f, x) {
      SampleCovered(s, b.fStart - f, b.fEnd - f, x);
      assert s.masks.Below(i, k, s.Searched(), j);
    } else {
      SampleCovered(s, b.fStart + f, b.fEnd + f, x);
      assert s.masks.Above(i, k, s.Searched(), j);
    }
    assert s.masks.By(i, s.Searched(), j);
  }

  /** The searched part of a band with an endpoint in the search range, and of the returned band:
      under the quiet window hypothesis they share at most frequencies of the sample a mask loses. */
  lemma MaskedBandsAvoided(s: Search, spectrum: seq<real>, i: nat, x: int)
    requires s.Valid() && Inside(s) && s.Cut().spectrumWidth <= |spectrum|
    requires forall k :: 0 <= k < |spectrum| ==> spectrum[k] >= 0.0
    requires SomeQuiet(s.Rules(), s.Values(spectrum))
    requires KeepsPrevious(s.Rules(), s.Values(spectrum)) ==> OnGrid(s.prev, s.delta)
    requires i < s.masks.Count() && s.Searched().HasEndpointOf(s.masks.bands[i]) && Seen(s, x)
    requires var clr := Selected(s.Rules(), s.Values(spectrum)); clr.fStart <= x < clr.fEnd
    ensures var b := s.masks.bands[i]; !(b.fStart <= x <= b.fEnd && Reached(s, b.fEnd, x))
    ensures var b := s.masks.bands[i]; s.fStart % s.delta == 0 ==> !(b.fStart <= x <= b.fEnd)
    ensures var b := s.masks.bands[i]; b.fEnd % s.delta == 0 ==> !(b.fStart <= x < b.fEnd)
  {
    var b := s.masks.bands[i];
    GridReached(s, b.fEnd, x);
    if b.fStart <= x <= b.fEnd && Reached(s, b.fEnd, x) { DirectlyMasked(s, spectrum, i, x); }
    SelectedBelowMax(s, spectrum, x);
  }

  /** No sample is lost if the range or the band ends on the grid. */
  lemma GridReached(s: Search, high: int, x: int)
    requires s.Valid()
    ensures s.fStart % s.delta == 0 && x <= high ==> Reached(s, high, x)
    ensures high % s.delta == 0 && x < high ==> Reached(s, high, x)
  {
    if high % s.delta == 0 && x < high {
      OnlyQuotient(high, s.delta);
      DivBelow(x, high / s.delta, s.delta);
      MulMonotone(x / s.delta, high / s.delta - 1, s.delta);
    }
  }

  /** The bands with aliases are the reservations of the two channels of the own radar. */
  lemma AliasedAre(ms: Masks, i: nat)
    requires ms.Valid() && i < |ms.bands|
    ensures ms.HasAliases(i) <==>
              && (i == ms.restrictedNum + 2 * ms.radar || i == ms.restrictedNum + 2 * ms.radar + 1)
              && ms.bands[i].fStart != 0 && ms.bands[i].fEnd != 0
  {}

  /** The same for the reservation of channel c of the own radar and all its IF aliases, with or without
      an endpoint in the search range. */
  lemma AliasesAvoided(s: Search, spectrum: seq<real>, c: nat, k: nat, x: int)
    requires s.Valid() && Inside(s) && s.Cut().spectrumWidth <= |spectrum|
    requires forall k :: 0 <= k < |spectrum| ==> spectrum[k] >= 0.0
    requires SomeQuiet(s.Rules(), s.Values(spectrum))
    requires KeepsPrevious(s.Rules(), s.Values(spectrum)) ==> OnGrid(s.prev, s.delta)
    requires c < 2 && s.masks.radar < 2 && 1 <= k < s.meta.Aliases()
    requires var b := s.masks.bands[s.masks.restrictedNum + 2 * s.masks.radar + c]; b.fStart != 0 && b.fEnd != 0
    requires Seen(s, x) && s.fStart <= x <= s.fEnd
    requires var clr := Selected(s.Rules(), s.Values(spectrum)); clr.fStart <= x < clr.fEnd
    ensures var b := s.masks.bands[s.masks.restrictedNum + 2 * s.masks.radar + c]; var f := s.masks.Shift(k);
      && !(b.fStart - f <= x <= b.fEnd - f && Reached(s, b.fEnd - f, x))
      && !(b.fStart + f <= x <= b.fEnd + f && Reached(s, b.fEnd + f, x))
  {
    var i := s.masks.restrictedNum + 2 * s.masks.radar + c;
    var b, f := s.masks.bands[i], s.masks.Shift(k);
    if || (b.fStart - f <= x <= b.fEnd - f && Reached(s, b.fEnd - f, x))
       || (b.fStart + f <= x <= b.fEnd + f && Reached(s, b.fEnd + f, x)) {
      MaskedAtAlias(s, spectrum, i, k, x);
    }
    SelectedBelowMax(s, spectrum, x);
  }

  lemma SelectedBelowMax(s: Search, spectrum: seq<real>, x: int)
    requires s.Valid() && Inside(s) && s.Cut().spectrumWidth <= |spectrum|
    requires forall k :: 0 <= k < |spectrum| ==> spectrum[k] >= 0.0
    requires SomeQuiet(s.Rules(), s.Values(spectrum))
    requires KeepsPrevious(s.Rules(), s.Values(spectrum)) ==> OnGrid(s.prev, s.delta)
    requires Seen(s, x)
    requires var clr := Selected(s.Rules(), s.Values(spectrum)); clr.fStart <= x < clr.fEnd
    ensures s.Values(spectrum)[SampleOf(s, x)] < RAND_MAX
  {
    var c, values := s.Rules(), s.Values(spectrum);
    ValuesNotNegative(s, spectrum);
    SomeBest(c, values);
    SampleSelected(s, values, x);
    QuietSelection(c, values, SampleOf(s, x));
  }

  lemma SomeBest(c: Choice, values: seq<real>)
    requires c.Valid() && SomeQuiet(c, values)
    ensures 0 <= Best(values, c.w, Starts(values, c.w))
  {
    LimitBelow(c.w);
    NearlyLeast(c, values);
  }

  lemma ValuesNotNegative(s: Search, spectrum: seq<real>)
    requires s.Valid() && s.Cut().spectrumWidth <= |spectrum|
    requires forall k :: 0 <= k < |spectrum| ==> spectrum[k] >= 0.0
    ensures forall j :: 0 <= j < |s.Values(spectrum)| ==> s.Values(spectrum)[j] >= 0.0
  {
    var l := s.Cut();
    forall j | 0 <= j < s.Searched().n ensures s.Values(spectrum)[j] >= 0.0 {
      PowerBelowNotNegative(spectrum, j + l.start, s.meta, s.delta, 1);
      PowerAboveNotNegative(spectrum, l.spectrumWidth, j + l.start, s.meta, s.delta, 1);
    }
  }

  /** A restricted band that shares frequencies with the search range is considered for masking exactly
      if it does not strictly cover the range; a covering one masks no sample at all. */
  lemma CoveringBandNotMasked(ms: Masks, i: nat, r: Range)
    requires ms.Valid() && i < ms.restrictedNum && r.Valid()
    requires ms.bands[i].fStart < r.fEnd && r.fStart < ms.bands[i].fEnd
    ensures r.HasEndpointOf(ms.bands[i]) <==> !(ms.bands[i].fStart < r.fStart && r.fEnd < ms.bands[i].fEnd)
    ensures ms.bands[i].fStart < r.fStart && r.fEnd < ms.bands[i].fEnd ==> forall j :: !ms.By(i, r, j)
  {}
}
