/** usrpMixingFreqManager of usrp_server.py: finds a mixing frequency for which the search ranges of
    all channels lie inside the USRP bandwidth and away from the mixing frequency itself.
    Frequencies are real numbers in kHz. */
module MixingFreq {
  import opened Wrappers

  /** A clear frequency search range. */
  datatype Range = Range(lower: real, upper: real) {
    predicate Has(f: real) { lower <= f <= upper }
  }

  /** Hardware limits of a radar. */
  datatype Limits = Limits(low: real, high: real) {
    predicate Contains(f: real) { low <= f <= high }
  }

  /** False, True, or the new mixing frequency. */
  datatype Answer = Rejected | Covered | Moved(freq: real)

  const CLEARANCE: real := 50.0
  const STEP_SIZE: real := 50.0
  const MAX_ATTEMPTS := 1000
  const BANDWIDTH_RESTRICTION: real := 300000.0

  /** The range contains no frequency of the open interval m - 50 to m + 50, and lies in the band. */
  predicate Fits(r: Range, m: real, bandwidth: real) {
    && !(r.lower < m + CLEARANCE && m - CLEARANCE < r.upper)
    && m - bandwidth / 2.0 <= r.lower && r.upper <= m + bandwidth / 2.0
  }

  /** Every frequency of the range is at least 50 kHz and at most half the bandwidth away. */
  lemma FitsIff(r: Range, m: real, bandwidth: real)
    requires r.lower <= r.upper
    ensures Fits(r, m, bandwidth) <==>
            forall f: real :: r.Has(f) ==> 50.0 <= (if f < m then m - f else f - m) <= bandwidth / 2.0
  {
    assert r.Has(r.lower) && r.Has(r.upper) && (r.lower <= m <= r.upper ==> r.Has(m));
  }

  ghost predicate AllFit(rs: seq<Range>, m: real, bandwidth: real) {
    forall k :: 0 <= k < |rs| ==> Fits(rs[k], m, bandwidth)
  }

  /** The k-th mixing frequency above or below where the search starts. */
  function Candidate(start: real, k: int): real { start + k as real * 50.0 }

  // ---------------------------------------------------------------- the walk over the candidates

  /** The candidates a .. b have been visited, the current one is k; it is fresh until it was found
      not to fit. */
  datatype Walk = Walk(a: int, b: int, k: int, untried: bool) {
    function Next(up: bool): Walk {
      var k' := if up then k + 1 else k - 1;
      Walk(if k' < a then k' else a, if k' > b then k' else b, k', k' < a || k' > b)
    }
  }

  datatype Problem = Problem(rs: seq<Range>, bandwidth: real, start: real, limits: Limits) {
    ghost predicate Bad(i: int) { !AllFit(rs, Candidate(start, i), bandwidth) }

    /** At most one step outside the hardware limits. */
    predicate Near(f: real) { limits.low - STEP_SIZE <= f <= limits.high + STEP_SIZE }

    /** Candidate k is the first one that fits all ranges on a walk that goes down until it has left
        the hardware limits by one step and then up. */
    ghost predicate FirstFitting(k: int) {
      && !Bad(k)
      && (forall i :: (k < i <= 0 || 0 <= i < k) ==> Bad(i))
      && (limits.Contains(start) ==> Near(Candidate(start, k)))
      && (k > 0 && limits.Contains(start) ==>
            forall i {:trigger Bad(i)} :: i <= 0 && Near(Candidate(start, i)) ==> Bad(i))
    }

    ghost predicate NothingNearFits() {
      forall i {:trigger Bad(i)} :: Near(Candidate(start, i)) ==> Bad(i)
    }

    /** The start lies inside the limits, and they are close enough for all of them to be searched. */
    predicate Searchable() { limits.Contains(start) && limits.high - limits.low <= SWEPT_WIDTH }

    /** The start does not fit, nor does any candidate that is visited. */
    ghost predicate NothingFound() { Bad(0) && (Searchable() ==> NothingNearFits()) }
  }

  /** Outside the limits the walk has turned back towards them, and it goes up only after it has
      left the limits downwards. */
  ghost predicate Walking(p: Problem, w: Walk, m: real, up: bool) {
    && w.a <= 0 <= w.b && w.a <= w.k <= w.b && m == Candidate(p.start, w.k)
    && (forall i :: w.a <= i <= w.b && !(i == w.k && w.untried) ==> p.Bad(i))
    && (w.untried ==> w.k == w.a || w.k == w.b)
    && (p.limits.Contains(p.start) ==>
          && p.limits.low - STEP_SIZE <= Candidate(p.start, w.a)
          && Candidate(p.start, w.b) <= p.limits.high + STEP_SIZE
          && (m < p.limits.low ==> up)
          && (m > p.limits.high ==> !up)
          && (up || w.b > 0 ==> Candidate(p.start, w.a) < p.limits.low))
  }

  /** How far the walk has come after so many attempts: on the way down, on the way up, or beyond
      both limits. */
  ghost predicate Sweeping(p: Problem, w: Walk, up: bool, attempt: nat) {
    || (!up && w.b == 0 && w.k == w.a && attempt == -w.a)
    || (up && w.b == (if w.k > 0 then w.k else 0) && attempt == -w.a + (w.k - w.a))
    || (&& Candidate(p.start, w.a) < p.limits.low && Candidate(p.start, w.b) > p.limits.high
        && (w.untried ==> attempt == -w.a + (w.b - w.a)))
  }

  function Outside(limits: Limits, m: real): bool { m < limits.low || m > limits.high }

  lemma WalkOn(p: Problem, w: Walk, m: real, up: bool, m': real)
    requires Walking(p, w, m, up) && !AllFit(p.rs, m, p.bandwidth)
    requires m' == m + (if up then STEP_SIZE else -STEP_SIZE)
    ensures Walking(p, w.Next(up), m', if Outside(p.limits, m') then !up else up)
    ensures p.Bad(w.k)
  {}

  lemma SweepOn(p: Problem, w: Walk, m: real, up: bool, m': real, attempt: nat)
    requires Walking(p, w, m, up) && p.limits.Contains(p.start) && Sweeping(p, w, up, attempt)
    requires m' == m + (if up then STEP_SIZE else -STEP_SIZE)
    ensures Sweeping(p, w.Next(up), if Outside(p.limits, m') then !up else up, attempt + 1)
  {}

  /** After more than MAX_ATTEMPTS steps between limits that are at most this far apart, everything
      between them and one step outside has been tried. */
  const SWEPT_WIDTH: real := 24925.0

  lemma SweptAll(p: Problem, w: Walk, m: real, up: bool, attempt: nat)
    requires Walking(p, w, m, up) && p.Searchable() && Sweeping(p, w, up, attempt) && attempt > MAX_ATTEMPTS
    ensures p.NothingNearFits()
  {
    assert Candidate(p.start, w.a) < p.limits.low && Candidate(p.start, w.b) > p.limits.high && !w.untried;
    forall i | p.Near(Candidate(p.start, i)) ensures w.a <= i <= w.b {}
  }

  // ---------------------------------------------------------------- the adjusting loop

  /** A mixing frequency and the direction of the next shift. */
  datatype Try = Try(freq: real, up: bool)

  /** What is tried after n shifts: one shift down or up each time, turning back outside the limits. */
  function Tried(start: real, limits: Limits, n: nat): Try {
    if n == 0 then Try(start, false)
    else
      var before := Tried(start, limits, n - 1);
      var freq := before.freq + if before.up then 50.0 else -50.0;
      Try(freq, before.up != Outside(limits, freq))
  }

  /** The first n frequencies that are tried do not fit. */
  ghost predicate NoneOf(p: Problem, n: nat) {
    forall j: nat :: j < n ==> !AllFit(p.rs, Tried(p.start, p.limits, j).freq, p.bandwidth)
  }

  /** The first frequency that fits, after at most 1000 shifts. */
  ghost predicate FoundAfter(p: Problem, m: real, n: nat) {
    n <= 1000 && NoneOf(p, n) && m == Tried(p.start, p.limits, n).freq && AllFit(p.rs, m, p.bandwidth)
  }

  function AllInvalid(n: nat): (r: seq<bool>)
    ensures |r| == n && forall i :: 0 <= i < n ==> r[i]
  {
    seq(n, i => true)
  }

  /** any(invalid) */
  predicate Any(invalid: seq<bool>) { exists i :: 0 <= i < |invalid| && invalid[i] }

  /** What the loops keep: a range that is not marked invalid was checked against the current
      mixing frequency. */
  ghost predicate Adjusting(p: Problem, invalid: seq<bool>, w: Walk, m: real, shift: real, attempt: int) {
    && |invalid| == |p.rs| && 0 <= attempt <= MAX_ATTEMPTS && (shift == 1.0 || shift == -1.0)
    && Walking(p, w, m, shift == 1.0)
    && Try(m, shift == 1.0) == Tried(p.start, p.limits, attempt) && NoneOf(p, attempt)
    && (p.limits.Contains(p.start) ==> Sweeping(p, w, shift == 1.0, attempt))
    && (attempt == 0 ==> w.k == 0) && (attempt > 0 ==> p.Bad(0))
    && forall i :: 0 <= i < |p.rs| && !invalid[i] ==> Fits(p.rs[i], m, p.bandwidth)
  }

  lemma Adjusted(p: Problem, invalid: seq<bool>, w: Walk, m: real, shift: real, attempt: int)
    requires Adjusting(p, invalid, w, m, shift, attempt) && !Any(invalid)
    ensures p.FirstFitting(w.k) && FoundAfter(p, m, attempt)
  {
    assert AllFit(p.rs, Candidate(p.start, w.k), p.bandwidth);
    if w.k > 0 && p.limits.Contains(p.start) {
      forall i | i <= 0 && p.Near(Candidate(p.start, i)) ensures w.a <= i {}
    }
  }

  /** A step of the innermost loop: all ranges have to be checked again. */
  lemma AdjustStep(p: Problem, invalid: seq<bool>, w: Walk, m: real, shift: real, attempt: int, idx: nat, m': real)
    requires Adjusting(p, invalid, w, m, shift, attempt) && idx < |p.rs| && !Fits(p.rs[idx], m, p.bandwidth)
    requires m' == m + shift * 50.0
    ensures attempt < MAX_ATTEMPTS ==>
              Adjusting(p, AllInvalid(|p.rs|), w.Next(shift == 1.0), m',
                        if Outside(p.limits, m') then shift * -1.0 else shift, attempt + 1)
    ensures attempt == MAX_ATTEMPTS ==> p.NothingFound() && NoneOf(p, MAX_ATTEMPTS + 1)
  {
    var up := shift == 1.0;
    assert Tried(p.start, p.limits, attempt + 1) == Try(m', up != Outside(p.limits, m'));
    WalkOn(p, w, m, up, m');
    if p.limits.Contains(p.start) {
      SweepOn(p, w, m, up, m', attempt);
      if attempt == MAX_ATTEMPTS && p.Searchable() {
        SweptAll(p, w.Next(up), m', if Outside(p.limits, m') then !up else up, attempt + 1);
      }
    }
  }

  /** Shift the mixing frequency by one step. */
  method Nudge(ghost p: Problem, limits: Limits, ghost invalid: seq<bool>, m0: real, shift0: real, attempt0: int,
               ghost w: Walk, ghost idx: nat)
    returns (m: real, shift: real, attempt: int)
    requires Adjusting(p, invalid, w, m0, shift0, attempt0) && p.limits == limits
    requires idx < |p.rs| && !Fits(p.rs[idx], m0, p.bandwidth)
    ensures attempt == attempt0 + 1
    ensures attempt <= MAX_ATTEMPTS ==> Adjusting(p, AllInvalid(|p.rs|), w.Next(shift0 == 1.0), m, shift, attempt)
    ensures attempt > MAX_ATTEMPTS ==> p.NothingFound() && NoneOf(p, MAX_ATTEMPTS + 1)
  {
    m := m0 + shift0 * 50.0;
    AdjustStep(p, invalid, w, m0, shift0, attempt0, idx, m);
    shift := if m < limits.low || m > limits.high then shift0 * -1.0 else shift0;
    attempt := attempt0 + 1;
  }

  /** One range: shift the mixing frequency until the range fits. */
  method Shift(ghost p: Problem, rs: seq<Range>, idx: nat, bandwidth: real, limits: Limits,
               invalid0: seq<bool>, m0: real, shift0: real, attempt0: int, ghost w0: Walk)
    returns (ok: bool, invalid: seq<bool>, m: real, shift: real, attempt: int, ghost w: Walk)
    requires p.rs == rs && p.bandwidth == bandwidth && p.limits == limits
    requires idx < |rs| && Adjusting(p, invalid0, w0, m0, shift0, attempt0)
    ensures ok ==> Adjusting(p, invalid, w, m, shift, attempt)
    ensures ok ==> Fits(rs[idx], m, bandwidth) && attempt0 <= attempt
    ensures ok && attempt == attempt0 ==> invalid == invalid0
    ensures !ok ==> p.NothingFound() && NoneOf(p, MAX_ATTEMPTS + 1)
  {
    ok, invalid, m, shift, attempt, w := true, invalid0, m0, shift0, attempt0, w0;
    while !Fits(rs[idx], m, bandwidth)
      invariant attempt0 <= attempt && Adjusting(p, invalid, w, m, shift, attempt)
      invariant attempt == attempt0 ==> invalid == invalid0
      decreases MAX_ATTEMPTS - attempt
    {
      ghost var up := shift == 1.0;
      m, shift, attempt := Nudge(p, limits, invalid, m, shift, attempt, w, idx);
      invalid := AllInvalid(|rs|);
      w := w.Next(up);
      if attempt > MAX_ATTEMPTS {
        ok := false;
        return;
      }
    }
  }

  /** The adjusting loop: ends with the first candidate that fits, or gives up. */
  method Adjust(rs: seq<Range>, bandwidth: real, start: real, limits: Limits)
    returns (ok: bool, m: real, ghost k: int)
    ensures ok ==> m == Candidate(start, k) && Problem(rs, bandwidth, start, limits).FirstFitting(k)
    ensures !ok ==> Problem(rs, bandwidth, start, limits).NothingFound()
    ensures var p := Problem(rs, bandwidth, start, limits);
      if ok then exists n :: FoundAfter(p, m, n) else NoneOf(p, 1001)
  {
    ghost var p := Problem(rs, bandwidth, start, limits);
    m := start;
    var shift := -1.0;
    var attempt := 0;
    var invalid := AllInvalid(|rs|);
    ghost var w := Walk(0, 0, 0, true);
    k := 0;
    while Any(invalid)
      invariant Adjusting(p, invalid, w, m, shift, attempt)
      decreases MAX_ATTEMPTS - attempt, if Any(invalid) then 1 else 0
    {
      var before := attempt;
      for idx := 0 to |rs|
        invariant before <= attempt && Adjusting(p, invalid, w, m, shift, attempt)
        invariant attempt == before ==> forall i :: 0 <= i < idx ==> !invalid[i]
      {
        ok, invalid, m, shift, attempt, w := Shift(p, rs, idx, bandwidth, limits, invalid, m, shift, attempt, w);
        if !ok { return; }
        invalid := invalid[idx := false];
      }
    }
    Adjusted(p, invalid, w, m, shift, attempt);
    ok, k := true, w.k;
  }

  // ---------------------------------------------------------------- unique ranges

  predicate Less(a: Range, b: Range) { a.lower < b.lower || (a.lower == b.lower && a.upper < b.upper) }

  predicate Sorted(rs: seq<Range>) { forall i, j :: 0 <= i < j < |rs| ==> Less(rs[i], rs[j]) }

  function Insert(r: Range, rs: seq<Range>): seq<Range> {
    if rs == [] then [r]
    else if rs[0] == r then rs
    else if Less(r, rs[0]) then [r] + rs
    else [rs[0]] + Insert(r, rs[1..])
  }

  /** Every range once, from the lowest to the highest. */
  function SortedUnique(rs: seq<Range>): seq<Range> {
    if rs == [] then [] else Insert(rs[0], SortedUnique(rs[1..]))
  }

  lemma {:induction false} InsertKept(r: Range, rs: seq<Range>)
    requires Sorted(rs)
    ensures Sorted(Insert(r, rs))
    ensures forall x :: x in Insert(r, rs) <==> x == r || x in rs
  {
    if rs != [] && rs[0] != r && !Less(r, rs[0]) {
      InsertKept(r, rs[1..]);
      assert rs == [rs[0]] + rs[1..];
      assert forall x :: x in Insert(r, rs[1..]) ==> Less(rs[0], x);
    }
  }

  lemma {:induction false} SortedUniqueIs(rs: seq<Range>)
    ensures Sorted(SortedUnique(rs))
    ensures forall x :: x in SortedUnique(rs) <==> x in rs
  {
    if rs != [] {
      SortedUniqueIs(rs[1..]);
      InsertKept(rs[0], SortedUnique(rs[1..]));
      assert rs == [rs[0]] + rs[1..];
    }
  }

  /** A single range is returned as it is. */
  function UniqueRanges(rs: seq<Range>): seq<Range> { if |rs| == 1 then rs else SortedUnique(rs) }

  lemma UniqueRangesIs(rs: seq<Range>)
    ensures Sorted(UniqueRanges(rs)) && forall x :: x in UniqueRanges(rs) <==> x in rs
  {
    SortedUniqueIs(rs);
  }

  function Min(a: real, b: real): real { if a < b then a else b }

  function Max(a: real, b: real): real { if a < b then b else a }

  /** The range from the lowest to the highest frequency of all ranges. */
  function Hull(rs: seq<Range>): (h: Range)
    requires rs != []
    ensures forall k :: 0 <= k < |rs| ==> h.lower <= rs[k].lower && rs[k].upper <= h.upper
    ensures (exists k :: 0 <= k < |rs| && rs[k].lower == h.lower) && (exists k :: 0 <= k < |rs| && rs[k].upper == h.upper)
  {
    var n := |rs| - 1;
    if n == 0 then rs[0]
    else var h := Hull(rs[..n]); Range(Min(h.lower, rs[n].lower), Max(h.upper, rs[n].upper))
  }

  // ---------------------------------------------------------------- the manager

  /** The fields of RadarChannelHandler and scanManager the search uses. */
  class Channel {
    const cnum: int
    const radar: nat
    const rfrate: real
    var clearFreqRanges: seq<Range>

    constructor (cnum: int, radar: nat, rfrate: real, ranges: seq<Range>)
      ensures this.cnum == cnum && this.radar == radar && this.rfrate == rfrate && clearFreqRanges == ranges
    {
      this.cnum, this.radar, this.rfrate, clearFreqRanges := cnum, radar, rfrate, ranges;
    }
  }

  /** What the manager knows about one radar. */
  datatype Known = Known(mixing: real, hulls: seq<Range>, unique: seq<Range>, channels: seq<int>) {
    /** A channel that is added again starts a new scan: everything is forgotten. */
    function Before(cnum: int): Known { if cnum in channels then Known(mixing, [], [], []) else this }
  }

  /** Where the adjusting starts; None if the channels together need more than the bandwidth. */
  function Start(known: Known, hull: Range, bandwidth: real, limits: Limits): Option<real> {
    if hull.lower >= known.mixing - bandwidth / 2.0 && hull.upper <= known.mixing + bandwidth / 2.0 then
      Some(known.mixing)
    else
      var all := Hull([hull] + known.hulls);
      if all.upper - all.lower > bandwidth then None
      else
        var middle := (all.upper - all.lower) / 2.0 + all.lower;
        Some(Min(Max(middle, limits.low + bandwidth / 2.0), limits.high - bandwidth / 2.0))
  }

  /** The whole range lies in the USRP bandwidth around m. */
  predicate Within(h: Range, m: real, bandwidth: real) { m - bandwidth / 2.0 <= h.lower && h.upper <= m + bandwidth / 2.0 }

  ghost predicate AllWithin(hs: seq<Range>, m: real, bandwidth: real) {
    forall k :: 0 <= k < |hs| ==> Within(hs[k], m, bandwidth)
  }

  /** The channel lies outside the current bandwidth, and whatever the mixing frequency, the bandwidth
      does not hold all channels. */
  ghost predicate NoRoom(known: Known, hull: Range, bandwidth: real) {
    !Within(hull, known.mixing, bandwidth) && forall m: real :: !AllWithin([hull] + known.hulls, m, bandwidth)
  }

  /** Equally far from the lowest and the highest frequency of all ranges. */
  ghost predicate Centered(m: real, hs: seq<Range>) {
    exists low, high :: Lowest(low, hs) && Highest(high, hs) && m - low == high - m
  }

  ghost predicate Lowest(f: real, hs: seq<Range>) {
    (exists k :: 0 <= k < |hs| && hs[k].lower == f) && forall k :: 0 <= k < |hs| ==> f <= hs[k].lower
  }

  ghost predicate Highest(f: real, hs: seq<Range>) {
    (exists k :: 0 <= k < |hs| && hs[k].upper == f) && forall k :: 0 <= k < |hs| ==> hs[k].upper <= f
  }

  /** The frequency as it is, or the nearest one whose bandwidth lies inside the limits; their upper end
      counts if they are too narrow. */
  predicate MovedInside(center: real, low: real, high: real, m: real) {
    m == if center > high || low > high then high else if center < low then low else center
  }

  /** The current mixing frequency if the channel lies in its bandwidth, otherwise the center of all
      channels, moved inside the limits. */
  ghost predicate StartsAt(known: Known, hull: Range, bandwidth: real, limits: Limits, start: real) {
    var low, high := limits.low + bandwidth / 2.0, limits.high - bandwidth / 2.0;
    if Within(hull, known.mixing, bandwidth) then start == known.mixing
    else exists center: real :: Centered(center, [hull] + known.hulls) && MovedInside(center, low, high, start)
  }

  lemma HullCentered(hs: seq<Range>)
    requires hs != []
    ensures Centered((Hull(hs).upper - Hull(hs).lower) / 2.0 + Hull(hs).lower, hs)
  {
    assert Lowest(Hull(hs).lower, hs) && Highest(Hull(hs).upper, hs);
  }

  lemma HullWithin(hs: seq<Range>, bandwidth: real)
    requires hs != []
    ensures Hull(hs).upper - Hull(hs).lower > bandwidth <==> forall m: real :: !AllWithin(hs, m, bandwidth)
  {
    var all := Hull(hs);
    if all.upper - all.lower > bandwidth {
      var i :| 0 <= i < |hs| && hs[i].lower == all.lower;
      var j :| 0 <= j < |hs| && hs[j].upper == all.upper;
      forall m: real ensures !AllWithin(hs, m, bandwidth) { assert !Within(hs[i], m, bandwidth) || !Within(hs[j], m, bandwidth); }
    } else {
      assert AllWithin(hs, (all.upper - all.lower) / 2.0 + all.lower, bandwidth);
    }
  }

  lemma StartIs(known: Known, hull: Range, bandwidth: real, limits: Limits)
    ensures Start(known, hull, bandwidth, limits).None? <==> NoRoom(known, hull, bandwidth)
    ensures Start(known, hull, bandwidth, limits).Some? ==>
              StartsAt(known, hull, bandwidth, limits, Start(known, hull, bandwidth, limits).value)
  {
    HullCentered([hull] + known.hulls);
    HullWithin([hull] + known.hulls, bandwidth);
  }

  /** In a state whose channels lie in the current bandwidth there is no room exactly if no mixing
      frequency holds all channels. */
  lemma NoRoomIff(known: Known, hull: Range, bandwidth: real)
    requires AllWithin(known.hulls, known.mixing, bandwidth)
    ensures NoRoom(known, hull, bandwidth) <==> forall m: real :: !AllWithin([hull] + known.hulls, m, bandwidth)
  {
    if Within(hull, known.mixing, bandwidth) {
      assert AllWithin([hull] + known.hulls, known.mixing, bandwidth);
    }
  }

  /** With a hardware range of at least half the bandwidth the adjusting starts inside the limits. */
  lemma StartsInside(known: Known, hull: Range, bandwidth: real, limits: Limits)
    requires bandwidth >= 0.0 && limits.Contains(known.mixing) && limits.high - limits.low >= bandwidth / 2.0
    requires Start(known, hull, bandwidth, limits).Some?
    ensures limits.Contains(Start(known, hull, bandwidth, limits).value)
  {}

  /** What one call may do to the data of its radar. */
  ghost predicate Added(known: Known, after: Known, answer: Answer, cnum: int, ranges: seq<Range>,
                        bandwidth: real, limits: Limits)
    requires ranges != []
  {
    var was, hull := known.Before(cnum), Hull(ranges);
    var rs := UniqueRanges(ranges + was.unique);
    var start := Start(was, hull, bandwidth, limits);
    if answer.Rejected? then
      && after == was
      && (hull.lower < limits.low || hull.upper > limits.high || NoRoom(was, hull, bandwidth)
          || (start.Some? && Problem(rs, bandwidth, start.value, limits).NothingFound()
              && NoneOf(Problem(rs, bandwidth, start.value, limits), 1001)))
    else
      && limits.low <= hull.lower && hull.upper <= limits.high
      && after == Known(after.mixing, was.hulls + [hull], rs, was.channels + [cnum])
      && (answer == if after.mixing == known.mixing then Covered else Moved(after.mixing))
      && start.Some? && StartsAt(was, hull, bandwidth, limits, start.value)
      && AllFit(rs, after.mixing, bandwidth)
      && (exists k :: after.mixing == Candidate(start.value, k) && Problem(rs, bandwidth, start.value, limits).FirstFitting(k))
      && (exists n :: FoundAfter(Problem(rs, bandwidth, start.value, limits), after.mixing, n))
  }

  lemma FittingAdded(known: Known, cnum: int, ranges: seq<Range>, bandwidth: real, limits: Limits, m: real, k: int)
    requires ranges != [] && limits.low <= Hull(ranges).lower && Hull(ranges).upper <= limits.high
    requires Start(known.Before(cnum), Hull(ranges), bandwidth, limits).Some?
    requires var was := known.Before(cnum);
      var start := Start(was, Hull(ranges), bandwidth, limits).value;
      && Problem(UniqueRanges(ranges + was.unique), bandwidth, start, limits).FirstFitting(k)
      && m == Candidate(start, k) && exists n :: FoundAfter(Problem(UniqueRanges(ranges + was.unique), bandwidth, start, limits), m, n)
    ensures var was := known.Before(cnum);
      Added(known, Known(m, was.hulls + [Hull(ranges)], UniqueRanges(ranges + was.unique), was.channels + [cnum]),
            if m == known.mixing then Covered else Moved(m), cnum, ranges, bandwidth, limits)
  {
    StartIs(known.Before(cnum), Hull(ranges), bandwidth, limits);
  }

  /** What is remembered afterwards: a channel that was known before starts anew, alone. */
  lemma AddedState(known: Known, after: Known, answer: Answer, cnum: int, ranges: seq<Range>, bandwidth: real, limits: Limits)
    requires ranges != [] && Added(known, after, answer, cnum, ranges, bandwidth, limits)
    ensures answer.Rejected? ==> after == if cnum in known.channels then Known(known.mixing, [], [], []) else known
    ensures !answer.Rejected? && cnum in known.channels ==>
              after.channels == [cnum] && after.hulls == [Hull(ranges)] && forall x :: x in after.unique <==> x in ranges
    ensures !answer.Rejected? && cnum !in known.channels ==>
              && after.channels == known.channels + [cnum] && after.hulls == known.hulls + [Hull(ranges)]
              && forall x :: x in after.unique <==> x in ranges || x in known.unique
  {
    UniqueRangesIs(ranges + known.Before(cnum).unique);
  }

  /** The result is determined: two first fitting candidates are the same. */
  lemma FirstFittingUnique(p: Problem, k: int, l: int)
    requires p.limits.Contains(p.start) && p.FirstFitting(k) && p.FirstFitting(l)
    ensures k == l
  {}

  /** The start fits exactly if the search does not move. */
  lemma NoNeedlessMove(p: Problem, k: int)
    requires p.FirstFitting(k)
    ensures AllFit(p.rs, p.start, p.bandwidth) <==> k == 0
  {
    assert Candidate(p.start, 0) == p.start;
    assert k != 0 ==> p.Bad(0);
  }

  /** The search gives up exactly if no candidate near the limits fits. */
  lemma GivesUpIff(p: Problem)
    requires p.Searchable()
    ensures p.NothingFound() <==> p.NothingNearFits()
    ensures p.NothingNearFits() <==> !exists k :: p.FirstFitting(k)
  {
    assert Candidate(p.start, 0) == p.start;
    if i :| p.Near(Candidate(p.start, i)) && !p.Bad(i) {
      if j :| j <= 0 && p.Near(Candidate(p.start, j)) && !p.Bad(j) {
        var k := FirstDown(p, j, 0);
      } else {
        var k := FirstUp(p, i, 1);
      }
    }
  }

  lemma {:induction false} FirstDown(p: Problem, j: int, from: int) returns (k: int)
    requires j <= from <= 0 && p.Near(Candidate(p.start, j)) && !p.Bad(j) && p.limits.Contains(p.start)
    requires forall i :: from < i <= 0 ==> p.Bad(i)
    ensures p.FirstFitting(k)
    decreases from - j
  {
    if p.Bad(from) { k := FirstDown(p, j, from - 1); } else { k := from; }
  }

  lemma {:induction false} FirstUp(p: Problem, j: int, from: int) returns (k: int)
    requires 1 <= from <= j && p.Near(Candidate(p.start, j)) && !p.Bad(j) && p.limits.Contains(p.start)
    requires forall i {:trigger p.Bad(i)} :: i <= 0 && p.Near(Candidate(p.start, i)) ==> p.Bad(i)
    requires forall i :: 0 <= i < from ==> p.Bad(i)
    ensures p.FirstFitting(k)
    decreases j - from
  {
    if p.Bad(from) { k := FirstUp(p, j, from + 1); } else { k := from; }
  }

  /** The answer of a call, and with it the new state, is determined. */
  lemma AddedOnce(known: Known, after: Known, answer: Answer, after': Known, answer': Answer, cnum: int,
                  ranges: seq<Range>, bandwidth: real, limits: Limits)
    requires ranges != []
    requires Added(known, after, answer, cnum, ranges, bandwidth, limits)
    requires Added(known, after', answer', cnum, ranges, bandwidth, limits)
    ensures after == after' && answer == answer'
  {
    var was := known.Before(cnum);
    var start := Start(was, Hull(ranges), bandwidth, limits);
    StartIs(was, Hull(ranges), bandwidth, limits);
    if start.Some? {
      var p := Problem(UniqueRanges(ranges + was.unique), bandwidth, start.value, limits);
      if !answer.Rejected? && !answer'.Rejected? {
        var n :| FoundAfter(p, after.mixing, n);
        var l :| FoundAfter(p, after'.mixing, l);
        assert n == l;
      }
    }
  }

  /** Going down, the first candidate below the limits fits, and none before it does. */
  ghost predicate FitsJustBelow(p: Problem, d: int) {
    && d < 0 && Candidate(p.start, d) < p.limits.low <= Candidate(p.start, d + 1)
    && !p.Bad(d) && forall i :: d < i <= 0 ==> p.Bad(i)
  }

  /** The new mixing frequency lies outside the hardware limits exactly if the first candidate below
      them fits before any other, or no candidate inside them fits. */
  lemma OvershootsIff(p: Problem, k: int)
    requires p.limits.Contains(p.start) && p.FirstFitting(k)
    ensures !p.limits.Contains(Candidate(p.start, k)) <==>
              || (exists d :: FitsJustBelow(p, d))
              || (forall i {:trigger p.Bad(i)} :: p.limits.Contains(Candidate(p.start, i)) ==> p.Bad(i))
  {
    if k < 0 && !p.limits.Contains(Candidate(p.start, k)) {
      assert FitsJustBelow(p, k);
    }
    if d :| FitsJustBelow(p, d) {
      FirstFittingUnique(p, k, d);
    }
  }

  /** A range from 8030 to 12650 kHz at 12680 kHz, with limits of 8000 and 20000 kHz and the USRP
      bandwidth of a 10 MHz channel: 7980 kHz is chosen, although 12730 kHz fits. */
  lemma LimitOvershot(known: Known, after: Known, answer: Answer, cnum: int)
    requires known == Known(12680.0, [], [], [])
    requires Added(known, after, answer, cnum, [Range(8030.0, 12650.0)], 9400.0, Limits(8000.0, 20000.0))
    ensures answer == Moved(7980.0) && Fits(Range(8030.0, 12650.0), 12730.0, 9400.0)
  {
    var r, limits := Range(8030.0, 12650.0), Limits(8000.0, 20000.0);
    assert Hull([r]) == r;
    var p := Problem([r], 9400.0, 12680.0, limits);
    assert Start(known, r, 9400.0, limits) == Some(12680.0) && UniqueRanges([r] + []) == [r];
    forall i | -94 < i <= 0 ensures p.Bad(i) {
      var m := Candidate(p.start, i);
      assert -93.0 <= i as real <= 0.0;
      assert 7980.0 < m < 12700.0 && !Fits(p.rs[0], m, 9400.0);
    }
    assert Fits(r, Candidate(p.start, -94), 9400.0) && p.FirstFitting(-94);
    GivesUpIff(p);
    if !answer.Rejected? {
      var k :| after.mixing == Candidate(p.start, k) && p.FirstFitting(k);
      FirstFittingUnique(p, k, -94);
    }
  }

  // ---------------------------------------------------------------- what every history keeps

  /** All search ranges fit the mixing frequency, and the extremes of every channel are among them. */
  ghost predicate Consistent(known: Known, bandwidth: real) {
    && AllFit(known.unique, known.mixing, bandwidth)
    && forall h :: h in known.hulls ==> Spans(known.unique, h)
  }

  ghost predicate Spans(rs: seq<Range>, h: Range) {
    && (exists x :: x in rs && x.lower == h.lower)
    && (exists x :: x in rs && x.upper == h.upper)
  }

  lemma HullSpanned(rs: seq<Range>, all: seq<Range>)
    requires rs != [] && forall x :: x in rs ==> x in all
    ensures Spans(all, Hull(rs))
  {
    var h := Hull(rs);
    var i :| 0 <= i < |rs| && rs[i].lower == h.lower;
    var j :| 0 <= j < |rs| && rs[j].upper == h.upper;
    assert rs[i] in all && rs[j] in all;
  }

  lemma AddedKeeps(known: Known, after: Known, answer: Answer, cnum: int, ranges: seq<Range>,
                   bandwidth: real, limits: Limits)
    requires ranges != [] && Consistent(known, bandwidth) && Added(known, after, answer, cnum, ranges, bandwidth, limits)
    ensures Consistent(after, bandwidth)
    ensures !answer.Rejected? ==> forall x :: x in ranges || x in known.Before(cnum).unique ==> x in after.unique
  {
    if !answer.Rejected? {
      var was := known.Before(cnum);
      UniqueRangesIs(ranges + was.unique);
      HullSpanned(ranges, after.unique);
      forall h | h in was.hulls ensures Spans(after.unique, h) {
        var x :| x in was.unique && x.lower == h.lower;
        var y :| y in was.unique && y.upper == h.upper;
        assert x in after.unique && y in after.unique;
      }
    }
  }

  /** In a consistent state every channel as a whole lies inside the USRP bandwidth. */
  lemma ChannelsCovered(known: Known, bandwidth: real, h: Range)
    requires Consistent(known, bandwidth) && h in known.hulls
    ensures known.mixing - bandwidth / 2.0 <= h.lower && h.upper <= known.mixing + bandwidth / 2.0
  {
    var x :| x in known.unique && x.lower == h.lower;
    var y :| y in known.unique && y.upper == h.upper;
    assert Fits(x, known.mixing, bandwidth) && Fits(y, known.mixing, bandwidth);
  }

  datatype Call = Call(cnum: int, ranges: seq<Range>, answer: Answer)

  /** Whatever channels are added, again and again, accepted or rejected: with one bandwidth, the
      ranges of all channels the manager remembers fit the mixing frequency. */
  lemma {:induction false} HistoryConsistent(states: seq<Known>, calls: seq<Call>, bandwidth: real, limits: Limits, n: nat)
    requires |states| == |calls| + 1 && n < |states|
    requires states[0].unique == [] && states[0].hulls == []
    requires forall k :: 0 <= k < |calls| ==> calls[k].ranges != []
    requires forall k :: 0 <= k < |calls| ==>
               Added(states[k], states[k + 1], calls[k].answer, calls[k].cnum, calls[k].ranges, bandwidth, limits)
    ensures Consistent(states[n], bandwidth)
  {
    if n > 0 {
      HistoryConsistent(states, calls, bandwidth, limits, n - 1);
      var c := calls[n - 1];
      AddedKeeps(states[n - 1], states[n - 1 + 1], c.answer, c.cnum, c.ranges, bandwidth, limits);
    }
  }

  class MixingFreqManager {
    var usrpBandwidth: Option<real>
    var mixing: seq<real>
    var hulls: seq<seq<Range>>
    var unique: seq<seq<Range>>
    var channels: seq<seq<int>>

    constructor (freq: real, radars: nat)
      ensures Valid() && |mixing| == radars && usrpBandwidth == None
      ensures forall r :: 0 <= r < radars ==> Data(r) == Known(freq, [], [], [])
    {
      usrpBandwidth := None;
      mixing := seq(radars, r => freq);
      hulls := seq(radars, r => []);
      unique := seq(radars, r => []);
      channels := seq(radars, r => []);
    }

    ghost predicate Valid()
      reads this
    {
      |mixing| == |hulls| == |unique| == |channels|
    }

    ghost function Data(r: nat): Known
      reads this
      requires Valid() && r < |mixing|
    {
      Known(mixing[r], hulls[r], unique[r], channels[r])
    }

    /** The USRP bandwidth, if known, otherwise what the channel asks for. */
    function Bandwidth(rfrate: real): (b: real)
      reads this
      ensures usrpBandwidth == None || usrpBandwidth == Some(0.0) ==> b * 1000.0 + 600000.0 == rfrate
      ensures usrpBandwidth == None || usrpBandwidth == Some(0.0) || usrpBandwidth == Some(b)
    {
      if usrpBandwidth.Some? && usrpBandwidth.value != 0.0 then usrpBandwidth.value
      else (rfrate - BANDWIDTH_RESTRICTION * 2.0) / 1000.0
    }

    /** The channel's own list of ranges is extended by the ranges of the other channels. */
    method GetUniqueRanges(channel: Channel) returns (rs: seq<Range>)
      requires Valid() && channel.radar < |mixing|
      modifies channel
      ensures channel.clearFreqRanges == old(channel.clearFreqRanges) + unique[channel.radar]
      ensures rs == UniqueRanges(old(channel.clearFreqRanges) + unique[channel.radar])
    {
      var i := 0;
      while i < |unique[channel.radar]|
        invariant 0 <= i <= |unique[channel.radar]|
        invariant channel.clearFreqRanges == old(channel.clearFreqRanges) + unique[channel.radar][..i]
      {
        channel.clearFreqRanges := channel.clearFreqRanges + [unique[channel.radar][i]];
        i := i + 1;
      }
      rs := UniqueRanges(channel.clearFreqRanges);
    }

    /** The mixing frequency to start with. */
    method FindStart(r: nat, hull: Range, bandwidth: real, limits: Limits) returns (start: Option<real>)
      requires Valid() && r < |mixing|
      ensures start == Start(Data(r), hull, bandwidth, limits)
      ensures start.None? <==> NoRoom(Data(r), hull, bandwidth)
      ensures start.Some? ==> StartsAt(Data(r), hull, bandwidth, limits, start.value)
    {
      StartIs(Data(r), hull, bandwidth, limits);
      if hull.lower >= mixing[r] - bandwidth / 2.0 && hull.upper <= mixing[r] + bandwidth / 2.0 {
        return Some(mixing[r]);
      }
      var all := Hull([hull] + hulls[r]);
      if all.upper - all.lower > bandwidth {
        return None;
      }
      var m := (all.upper - all.lower) / 2.0 + all.lower;
      m := Max(m, limits.low + bandwidth / 2.0);
      m := Min(m, limits.high - bandwidth / 2.0);
      start := Some(m);
    }

    method Store(r: nat, rs: seq<Range>, hull: Range, cnum: int, m: real) returns (answer: Answer)
      requires Valid() && r < |mixing|
      modifies this`mixing, this`hulls, this`unique, this`channels
      ensures Valid() && |mixing| == old(|mixing|)
      ensures Data(r) == old(Known(m, hulls[r] + [hull], rs, channels[r] + [cnum]))
      ensures answer == if m == old(mixing[r]) then Covered else Moved(m)
      ensures forall q :: 0 <= q < |mixing| && q != r ==> Data(q) == old(Data(q))
    {
      unique := unique[r := rs];
      hulls := hulls[r := hulls[r] + [hull]];
      channels := channels[r := channels[r] + [cnum]];
      if m == mixing[r] {
        answer := Covered;
      } else {
        mixing := mixing[r := m];
        answer := Moved(m);
      }
    }

    method Forget(r: nat, cnum: int)
      requires Valid() && r < |mixing|
      modifies this`hulls, this`unique, this`channels
      ensures Valid() && Data(r) == old(Data(r)).Before(cnum)
      ensures forall q :: 0 <= q < |mixing| && q != r ==> Data(q) == old(Data(q))
    {
      if cnum in channels[r] {
        hulls, unique, channels := hulls[r := []], unique[r := []], channels[r := []];
      }
    }

    method AddNewFreqBand(channel: Channel, limits: Limits) returns (answer: Answer)
      requires Valid() && channel.radar < |mixing| && channel.clearFreqRanges != []
      modifies this`mixing, this`hulls, this`unique, this`channels, channel
      ensures Valid() && |mixing| == old(|mixing|)
      ensures Added(old(Data(channel.radar)), Data(channel.radar), answer, channel.cnum, old(channel.clearFreqRanges),
                    old(Bandwidth(channel.rfrate)), limits)
      ensures forall r :: 0 <= r < |mixing| && r != channel.radar ==> Data(r) == old(Data(r))
      ensures channel.clearFreqRanges == old(channel.clearFreqRanges)
              || channel.clearFreqRanges
                 == old(channel.clearFreqRanges) + old(Data(channel.radar)).Before(channel.cnum).unique
    {
      var r := channel.radar;
      ghost var known, ranges := Data(r), channel.clearFreqRanges;
      Forget(r, channel.cnum);
      var hull := Hull(channel.clearFreqRanges);
      if hull.lower < limits.low || hull.upper > limits.high {
        return Rejected;
      }
      var bandwidth := Bandwidth(channel.rfrate);
      var start := FindStart(r, hull, bandwidth, limits);
      if start.None? {
        return Rejected;
      }
      var rs := GetUniqueRanges(channel);
      var ok, m, k := Adjust(rs, bandwidth, start.value, limits);
      if !ok {
        return Rejected;
      }
      FittingAdded(known, channel.cnum, ranges, bandwidth, limits, m, k);
      answer := Store(r, rs, hull, channel.cnum, m);
    }
  }
}
