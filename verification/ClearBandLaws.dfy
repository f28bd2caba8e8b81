/** Where the samples, windows and aliases of the clear band search lie, in Hz, and what every sample
    of the spectrum contributes to the searched samples. */
module ClearBandLaws {
  import opened Division
  import opened ClearBandSearch

  /** Lower end of the spectrum. */
  function Base(s: Search): int { s.meta.fcenter * 1000 - s.meta.rfRate / 2 }

  /** The power of frequency x is read from a sample of the spectrum less than a sample distance away. */
  lemma SampleFrequency(s: Search, x: int)
    requires s.Valid() && Inside(s) && Base(s) >= 0 && Seen(s, x)
    ensures var at := SampleOf(s, x) + s.Cut().start;
      0 <= at < s.Cut().spectrumWidth && x - s.delta < Base(s) + at * s.delta < x + s.delta
  {
    Geometry(s);
    SampleDistance(Base(s), x, s.delta);
  }

  lemma SampleDistance(base: int, x: int, d: int)
    requires d > 0
    ensures x - d < base + (x / d - base / d) * d < x + d
  {
    Distribute(x / d, base / d, d);
    Rounded(x, d);
    Rounded(base, d);
  }

  /** The samples of the spectrum lie between fcenter - rfRate / 2 and fcenter + rfRate / 2; the search
      looks at those that end above fStart and not above fEnd. */
  lemma CutIs(s: Search, j: int)
    requires s.Valid() && Base(s) >= 0 && s.fStart >= 0
    ensures var l := s.Cut(); var upper := (l.spectrumStart + j + 1) * s.delta;
      && l.spectrumStart * s.delta <= Base(s) < (l.spectrumStart + 1) * s.delta
      && (l.spectrumStart + l.spectrumWidth) * s.delta <= s.meta.fcenter * 1000 + s.meta.rfRate / 2
      && s.meta.fcenter * 1000 + s.meta.rfRate / 2 < (l.spectrumStart + l.spectrumWidth + 1) * s.delta
      && (l.start <= j < l.end <==> 0 <= j < l.spectrumWidth && s.fStart < upper <= s.fEnd)
  {
    var l, d := s.Cut(), s.delta;
    AtMostQuotient(l.spectrumStart, Base(s), d);
    AtMostQuotient(l.spectrumStart + 1, Base(s), d);
    AtMostQuotient(l.spectrumStart + l.spectrumWidth, s.meta.fcenter * 1000 + s.meta.rfRate / 2, d);
    AtMostQuotient(l.spectrumStart + l.spectrumWidth + 1, s.meta.fcenter * 1000 + s.meta.rfRate / 2, d);
    AtMostQuotient(l.spectrumStart + j + 1, s.fStart, d);
    AtMostQuotient(l.spectrumStart + j + 1, s.fEnd, d);
  }

  /** What is returned when nothing is found: the whole range, to a sample distance. */
  lemma WholeRange(s: Search)
    requires s.Valid() && Inside(s) && Base(s) >= 0
    ensures var b := s.Rules().whole;
      && s.fStart - s.delta < b.fStart < s.fStart + s.delta && s.fEnd - s.delta < b.fEnd < s.fEnd + s.delta
      && b.noise == 2147483647.0
  {
    Geometry(s);
    SampleDistance(Base(s), s.fStart, s.delta);
    SampleDistance(Base(s), s.fEnd, s.delta);
  }

  /** A window is as wide as asked for, rounded up to whole samples. */
  lemma WindowWidth(s: Search)
    requires s.Valid()
    ensures s.clearBw <= s.Width() * s.delta < s.clearBw + s.delta
  {
    Rounded(-s.clearBw, s.delta);
  }

  /** The samples of the previous band: those in the range that end above its start and not above its
      end. */
  lemma PreviousSamples(s: Search, j: int)
    requires s.Valid() && s.prev.fStart >= 0 && s.prev.fEnd >= 0
    ensures var c, n := s.Rules(), s.Searched().n; var upper := (c.first + j + 1) * s.delta;
      c.PrevStart(n) <= j < c.PrevEnd(n) <==> 0 <= j < n && s.prev.fStart < upper <= s.prev.fEnd
  {
    var k := s.Rules().first + j;
    AtMostQuotient(k + 1, s.prev.fStart, s.delta);
    AtMostQuotient(k + 1, s.prev.fEnd, s.delta);
  }

  /** The k-th alias lies k intermediate rates away, rounded down to Hz and to samples. */
  lemma AliasDistance(ms: Masks, delta: int, k: nat)
    requires ms.meta.Valid() && delta > 0
    ensures ms.meta.AliasHz(k) == k as real * ms.meta.ifRate
    ensures ms.Shift(k) as real <= ms.meta.AliasHz(k) < ms.Shift(k) as real + 1.0
    ensures var j := AliasStep(ms.meta, delta, k);
      j as real * delta as real <= ms.meta.AliasHz(k) < j as real * delta as real + delta as real
  {
    FloorTimes(ms.meta.AliasHz(k), delta);
  }

  lemma FloorTimes(x: real, delta: int)
    requires delta > 0
    ensures var n := WholeSamples(x, delta) as real; n * delta as real <= x < n * delta as real + delta as real
  {
    var d := delta as real;
    var q := x / d;
    var n := q.Floor as real;
    assert q * d == x;
    TimesOrder(n, q, d);
    TimesOrder(n + 1.0, q, d);
    assert (n + 1.0) * d == n * d + d;
  }

  /** Aliases that cover the spectrum: the last one is the first that reaches its other end. */
  lemma AliasCount(meta: Meta)
    requires meta.Valid()
    ensures (meta.Aliases() - 1) as real * meta.ifRate < meta.rfRate as real <= meta.Aliases() as real * meta.ifRate
  {
    var q := meta.rfRate as real / meta.ifRate;
    assert q * meta.ifRate == meta.rfRate as real;
    TimesOrder(q, meta.Aliases() as real, meta.ifRate);
    TimesOrder(q, (meta.Aliases() - 1) as real, meta.ifRate);
  }

  // ---------------------------------------------------------------- masking

  /** Sample distance j of the range shares frequencies with a band. */
  predicate Near(r: Range, low: int, high: int, j: int) {
    r.fStart + j * r.delta <= high && low < r.fStart + (j + 1) * r.delta
  }

  predicate NearAlias(r: Range, b: Band, shift: int, j: int) {
    Near(r, b.fStart - shift, b.fEnd - shift, j) || Near(r, b.fStart + shift, b.fEnd + shift, j)
  }

  /** No more is masked than what shares frequencies with a band, or with an alias of a reservation of
      the own radar. */
  lemma OnlyNearMasked(s: Search, i: nat, j: int)
    requires s.Valid() && Inside(s) && i < |s.masks.bands| && s.masks.bands[i].fStart <= s.masks.bands[i].fEnd
    requires s.masks.By(i, s.Searched(), j)
    ensures var r, b, ms := s.Searched(), s.masks.bands[i], s.masks;
      || Near(r, b.fStart, b.fEnd, j)
      || (ms.HasAliases(i) && exists k: nat :: 1 <= k < s.meta.Aliases() && NearAlias(r, b, ms.Shift(k), j))
  {
    var r, b, ms := s.Searched(), s.masks.bands[i], s.masks;
    if ms.Direct(i, r, j) {
      CoveredNear(s, b.fStart, b.fEnd, j);
    } else if ms.AnyBelow(i, s.meta.Aliases(), r, j) {
      var k: nat :| 1 <= k < s.meta.Aliases() && ms.Below(i, k, r, j);
      CoveredNear(s, b.fStart - ms.Shift(k), b.fEnd - ms.Shift(k), j);
    } else {
      var k: nat :| 1 <= k < s.meta.Aliases() && ms.Above(i, k, r, j);
      CoveredNear(s, b.fStart + ms.Shift(k), b.fEnd + ms.Shift(k), j);
    }
  }

  lemma CoveredNear(s: Search, low: int, high: int, j: int)
    requires s.Valid() && Inside(s) && s.Searched().Covers(low, high, j) && s.fStart <= high
    ensures Near(s.Searched(), low, high, j)
  {
    var r, d := s.Searched(), s.delta;
    Geometry(s);
    if low >= s.fStart {
      AtMostQuotient(j + 1, low - s.fStart, d);
    } else {
      MulMonotone(1, j + 1, d);
    }
    if high < s.fEnd {
      AtMostQuotient(j, high - s.fStart, d);
    } else {
      RangeLength(s.fStart, s.fEnd, d);
      MulMonotone(j, r.n - 1, d);
      Distribute(r.n, 1, d);
    }
  }

  // ---------------------------------------------------------------- the power at the aliases

  lemma {:induction false} HzGrows(meta: Meta, j: nat, k: nat)
    requires meta.Valid() && j < k
    ensures meta.AliasHz(j) + meta.ifRate <= meta.AliasHz(k)
    decreases k
  {
    if j < k - 1 { HzGrows(meta, j, k - 1); }
    assert (k - 1) as real + 1.0 == k as real;
    assert ((k - 1) as real + 1.0) * meta.ifRate == (k - 1) as real * meta.ifRate + meta.ifRate;
  }

  /** Aliases a sample distance apart or more are different samples. */
  lemma StepsDiffer(meta: Meta, delta: int, j: nat, k: nat)
    requires delta > 0 && meta.Valid() && meta.ifRate >= delta as real && j < k
    ensures AliasStep(meta, delta, j) < AliasStep(meta, delta, k)
  {
    HzGrows(meta, j, k);
    Apart(meta.AliasHz(j), meta.AliasHz(k), delta);
  }

  lemma Apart(x: real, y: real, delta: int)
    requires delta > 0 && y >= x + delta as real
    ensures WholeSamples(x, delta) < WholeSamples(y, delta)
  {
    var d := delta as real;
    assert (x / d) * d == x && (y / d) * d == y;
    TimesOrder(x / d + 1.0, y / d, d);
  }

  /** Sample q is alias k below sample `at`, as far as the loop of the source reaches. */
  predicate IsBelow(q: int, at: nat, meta: Meta, delta: int, k: nat)
    requires delta > 0 && meta.Valid()
  {
    1 <= k < meta.Aliases() && q == at - AliasStep(meta, delta, k) && q > 0
  }

  predicate IsAbove(q: int, width: int, at: nat, meta: Meta, delta: int, k: nat)
    requires delta > 0 && meta.Valid()
  {
    1 <= k < meta.Aliases() && q == at + AliasStep(meta, delta, k) && q < width
  }

  /** Power in one sample only. */
  predicate Impulse(spectrum: seq<real>, q: int, power: real) {
    forall k :: 0 <= k < |spectrum| ==> spectrum[k] == if k == q then power else 0.0
  }

  lemma {:induction false} BelowOfImpulse(spectrum: seq<real>, at: nat, meta: Meta, delta: int, j: nat, q: int, power: real)
    requires delta > 0 && meta.Valid() && meta.ifRate >= delta as real && at < |spectrum| && Impulse(spectrum, q, power)
    requires j >= 1
    ensures PowerBelow(spectrum, at, meta, delta, j)
            == if exists k: nat :: j <= k && IsBelow(q, at, meta, delta, k) then power / 1000.0 else 0.0
    decreases meta.Aliases() - j
  {
    forall k: nat | j < k ensures AliasStep(meta, delta, j) < AliasStep(meta, delta, k) { StepsDiffer(meta, delta, j, k); }
    if j < meta.Aliases() && at - AliasStep(meta, delta, j) > 0 {
      BelowOfImpulse(spectrum, at, meta, delta, j + 1, q, power);
      if q == at - AliasStep(meta, delta, j) { assert IsBelow(q, at, meta, delta, j); }
    }
  }

  lemma {:induction false} AboveOfImpulse(spectrum: seq<real>, width: int, at: nat, meta: Meta, delta: int, j: nat, q: int,
                                          power: real)
    requires delta > 0 && meta.Valid() && meta.ifRate >= delta as real && width <= |spectrum|
    requires Impulse(spectrum, q, power) && j >= 1
    ensures PowerAbove(spectrum, width, at, meta, delta, j)
            == if exists k: nat :: j <= k && IsAbove(q, width, at, meta, delta, k) then power / 1000.0 else 0.0
    decreases meta.Aliases() - j
  {
    forall k: nat | j < k ensures AliasStep(meta, delta, j) < AliasStep(meta, delta, k) { StepsDiffer(meta, delta, j, k); }
    if j < meta.Aliases() && at + AliasStep(meta, delta, j) < width {
      AboveOfImpulse(spectrum, width, at, meta, delta, j + 1, q, power);
      if q == at + AliasStep(meta, delta, j) { assert IsAbove(q, width, at, meta, delta, j); }
    }
  }

  /** What one sample of the spectrum contributes: its power to itself, a thousandth of it to the
      samples whose alias it is, and nothing to the others. */
  lemma TrimmedImpulse(spectrum: seq<real>, width: int, at: nat, meta: Meta, delta: int, q: int, power: real)
    requires delta > 0 && meta.Valid() && meta.ifRate >= delta as real && width <= |spectrum| && at < |spectrum|
    requires Impulse(spectrum, q, power)
    ensures Trimmed(spectrum, width, at, meta, delta) ==
            if q == at then power
            else if exists k: nat :: IsBelow(q, at, meta, delta, k) || IsAbove(q, width, at, meta, delta, k) then power / 1000.0
            else 0.0
  {
    forall k: nat | k >= 1 ensures AliasStep(meta, delta, k) > 0 {
      assert AliasStep(meta, delta, 0) >= 0;
      StepsDiffer(meta, delta, 0, k);
    }
    BelowOfImpulse(spectrum, at, meta, delta, 1, q, power);
    AboveOfImpulse(spectrum, width, at, meta, delta, 1, q, power);
  }

  /** Contributions add up, so those of single samples determine the sum. */
  lemma TrimmedAdds(a: seq<real>, b: seq<real>, sum: seq<real>, width: int, at: nat, meta: Meta, delta: int)
    requires delta > 0 && meta.Valid() && width <= |a| == |b| == |sum| && at < |a|
    requires forall k :: 0 <= k < |a| ==> sum[k] == a[k] + b[k]
    ensures Trimmed(sum, width, at, meta, delta) == Trimmed(a, width, at, meta, delta) + Trimmed(b, width, at, meta, delta)
  {
    BelowAdds(a, b, sum, at, meta, delta, 1);
    AboveAdds(a, b, sum, width, at, meta, delta, 1);
  }

  lemma {:induction false} BelowAdds(a: seq<real>, b: seq<real>, sum: seq<real>, at: nat, meta: Meta, delta: int, j: nat)
    requires delta > 0 && meta.Valid() && |a| == |b| == |sum| && at < |a|
    requires forall k :: 0 <= k < |a| ==> sum[k] == a[k] + b[k]
    ensures PowerBelow(sum, at, meta, delta, j) == PowerBelow(a, at, meta, delta, j) + PowerBelow(b, at, meta, delta, j)
    decreases meta.Aliases() - j
  {
    if j < meta.Aliases() { BelowAdds(a, b, sum, at, meta, delta, j + 1); }
  }

  lemma {:induction false} AboveAdds(a: seq<real>, b: seq<real>, sum: seq<real>, width: int, at: nat, meta: Meta, delta: int,
                                     j: nat)
    requires delta > 0 && meta.Valid() && width <= |a| == |b| == |sum|
    requires forall k :: 0 <= k < |a| ==> sum[k] == a[k] + b[k]
    ensures PowerAbove(sum, width, at, meta, delta, j)
            == PowerAbove(a, width, at, meta, delta, j) + PowerAbove(b, width, at, meta, delta, j)
    decreases meta.Aliases() - j
  {
    if j < meta.Aliases() { AboveAdds(a, b, sum, width, at, meta, delta, j + 1); }
  }
}
