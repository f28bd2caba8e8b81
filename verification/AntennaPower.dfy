/** Which antennas take part: process_avg_ant_pwr of clear_freq_search.c marks those that receive
    enough power, clear_frequency_server.c sends the others to the client, and the client decodes
    the list. Power is a real number. */
module AntennaPower {
  import opened Indexing

  const ANTENNA_NUM := 20
  const LAST_MAIN := 15
  const LAST_INTERFEROMETER := 19
  const MIN_POWER_FACTOR: real := 0.1
  const FILLER := -1

  datatype Complex = Complex(re: real, im: real)

  predicate IsMain(antenna: int) { antenna <= LAST_MAIN || antenna > LAST_INTERFEROMETER }

  // ---------------------------------------------------------------- average power

  function Power(x: Complex): (p: real)
    ensures p >= 0.0
  {
    SquareNotNegative(x.re);
    SquareNotNegative(x.im);
    x.re * x.re + x.im * x.im
  }

  /** Sum of the powers of the first m of n samples of antenna number a in the list. */
  function PowerSum(raw: seq<Complex>, n: nat, a: nat, m: nat): (p: real)
    requires m <= n && Blocks(a + 1, n) <= |raw|
    ensures p >= 0.0
  {
    if m == 0 then 0.0
    else PowerSum(raw, n, a, m - 1) + Power(raw[Position(a, m - 1, n)])
  }

  lemma SquareNotNegative(x: real)
    ensures x * x >= 0.0
  {
    if x >= 0.0 { assert x * x >= 0.0; } else { assert (-x) * (-x) >= 0.0; }
  }

  /** Changing one sample changes the sum by the difference of its powers if the sample is one of these m,
      the samples of antenna a beginning at a * n; and silence has no power. */
  lemma {:induction false} PowerChanged(raw: seq<Complex>, n: nat, a: nat, m: nat, k: nat, x: Complex)
    requires m <= n && Blocks(a + 1, n) <= |raw| && k < |raw|
    ensures PowerSum(raw[k := x], n, a, m)
            == PowerSum(raw, n, a, m) + if a * n <= k < a * n + m then Power(x) - Power(raw[k]) else 0.0
  {
    if m > 0 {
      PositionIs(a, m - 1, n);
      PowerChanged(raw, n, a, m - 1, k, x);
    }
  }

  lemma {:induction false} NoPower(raw: seq<Complex>, n: nat, a: nat, m: nat)
    requires m <= n && Blocks(a + 1, n) <= |raw| && forall j :: 0 <= j < |raw| ==> raw[j] == Complex(0.0, 0.0)
    ensures PowerSum(raw, n, a, m) == 0.0
  {
    if m > 0 { NoPower(raw, n, a, m - 1); }
  }

  /** n times the average is the sum, so the average lies between the least and the greatest power. */
  lemma AverageBetween(raw: seq<Complex>, n: nat, a: nat, low: real, high: real)
    requires n > 0 && Blocks(a + 1, n) <= |raw|
    requires forall k :: a * n <= k < a * n + n && 0 <= k < |raw| ==> low <= Power(raw[k]) <= high
    ensures Average(raw, n, a) * n as real == PowerSum(raw, n, a, n) && low <= Average(raw, n, a) <= high
  {
    PowerBetween(raw, n, a, n, low, high);
    QuotientBetween(PowerSum(raw, n, a, n), n, low, high);
  }

  lemma {:induction false} PowerBetween(raw: seq<Complex>, n: nat, a: nat, m: nat, low: real, high: real)
    requires m <= n && Blocks(a + 1, n) <= |raw|
    requires forall k :: a * n <= k < a * n + n && 0 <= k < |raw| ==> low <= Power(raw[k]) <= high
    ensures low * m as real <= PowerSum(raw, n, a, m) <= high * m as real
  {
    if m > 0 {
      PowerBetween(raw, n, a, m - 1, low, high);
      PositionIs(a, m - 1, n);
      OneMore(low, m);
      OneMore(high, m);
      assert Power(raw[a * n + (m - 1)]) == Power(raw[Position(a, m - 1, n)]);
    }
  }

  lemma OneMore(x: real, m: nat)
    requires m > 0
    ensures x * m as real == x * (m - 1) as real + x
  {}

  lemma QuotientBetween(sum: real, n: nat, low: real, high: real)
    requires n > 0 && low * n as real <= sum <= high * n as real
    ensures sum / n as real * n as real == sum && low <= sum / n as real <= high
  {
    var q := sum / n as real;
    assert q * n as real == sum;
    if q < low { Ordered(q, low, n as real); }
    if high < q { Ordered(high, q, n as real); }
  }

  lemma Ordered(x: real, y: real, w: real)
    requires x < y && w > 0.0
    ensures x * w < y * w
  {
    assert (y - x) * w > 0.0;
  }

  function Average(raw: seq<Complex>, n: nat, a: nat): (p: real)
    requires n > 0 && Blocks(a + 1, n) <= |raw|
    ensures p >= 0.0
  {
    PowerSum(raw, n, a, n) / n as real
  }

  /** The mean power of every antenna in the list. */
  function Averages(raw: seq<Complex>, n: nat, count: nat): (p: seq<real>)
    requires n > 0 && Blocks(count, n) <= |raw|
    ensures |p| == count && forall a :: 0 <= a < count ==> p[a] >= 0.0
  {
    if count == 0 then [] else Averages(raw, n, count - 1) + [Average(raw, n, count - 1)]
  }

  method AveragePower(raw: seq<Complex>, n: nat, a: nat) returns (p: real)
    requires n > 0 && Blocks(a + 1, n) <= |raw|
    ensures p == Average(raw, n, a)
  {
    var sum := 0.0;
    for k := 0 to n
      invariant sum == PowerSum(raw, n, a, k)
    {
      PositionIs(a, k, n);
      var x := raw[a * n + k];
      sum := sum + (x.re * x.re + x.im * x.im);
    }
    p := sum / n as real;
  }

  method AveragePowers(raw: seq<Complex>, n: nat, count: nat) returns (powers: array<real>)
    requires n > 0 && Blocks(count, n) <= |raw|
    ensures fresh(powers) && powers[..] == Averages(raw, n, count)
  {
    powers := new real[count](_ => 0.0);
    for a := 0 to count
      invariant Blocks(a, n) <= Blocks(count, n) && powers[..a] == Averages(raw, n, a)
    {
      BlocksMonotone(a + 1, count, n);
      var p := AveragePower(raw, n, a);
      powers[a] := p;
      assert powers[..a + 1] == powers[..a] + [p];
    }
    assert powers[..count] == powers[..];
  }

  // ---------------------------------------------------------------- thresholds

  /** The antennas of one array, main or interferometer, that are not muted by configuration. */
  predicate InGroup(list: seq<int>, muted: seq<int>, main: bool, a: int) {
    0 <= a < |list| && list[a] !in muted && IsMain(list[a]) == main
  }

  function GroupSum(powers: seq<real>, list: seq<int>, muted: seq<int>, main: bool, m: nat): real
    requires m <= |list| == |powers|
  {
    if m == 0 then 0.0
    else GroupSum(powers, list, muted, main, m - 1) + (if InGroup(list, muted, main, m - 1) then powers[m - 1] else 0.0)
  }

  function GroupSize(list: seq<int>, muted: seq<int>, main: bool, m: nat): nat
    requires m <= |list|
  {
    if m == 0 then 0 else GroupSize(list, muted, main, m - 1) + (if InGroup(list, muted, main, m - 1) then 1 else 0)
  }

  function GroupMean(powers: seq<real>, list: seq<int>, muted: seq<int>, main: bool): real
    requires |list| == |powers|
  {
    var n := GroupSize(list, muted, main, |list|);
    if n > 0 then GroupSum(powers, list, muted, main, |list|) / n as real else 0.0
  }

  lemma {:induction false} GroupSizeIs(list: seq<int>, muted: seq<int>, main: bool, m: nat)
    requires m <= |list|
    ensures GroupSize(list, muted, main, m) == |set a | 0 <= a < m && InGroup(list, muted, main, a)|
  {
    var now := set a | 0 <= a < m && InGroup(list, muted, main, a);
    if m > 0 {
      GroupSizeIs(list, muted, main, m - 1);
      var before := set a | 0 <= a < m - 1 && InGroup(list, muted, main, a);
      if InGroup(list, muted, main, m - 1) { assert now == before + {m - 1}; } else { assert now == before; }
    }
  }

  /** Changing one power changes the sum of a group by the difference if it is the power of a member. */
  lemma {:induction false} GroupChanged(powers: seq<real>, list: seq<int>, muted: seq<int>, main: bool, m: nat, b: nat, x: real)
    requires m <= |list| == |powers| && b < |list|
    ensures GroupSum(powers[b := x], list, muted, main, m)
            == GroupSum(powers, list, muted, main, m)
               + if b < m && InGroup(list, muted, main, b) then x - powers[b] else 0.0
    ensures (forall a :: 0 <= a < |list| && InGroup(list, muted, main, a) ==> powers[a] == 0.0) ==>
              GroupSum(powers, list, muted, main, m) == 0.0
  {
    if m > 0 { GroupChanged(powers, list, muted, main, m - 1, b, x); }
  }

  /** The mean of a group: as many times as it has members, it is the sum of their powers. */
  lemma GroupMeanIs(powers: seq<real>, list: seq<int>, muted: seq<int>, main: bool)
    requires |list| == |powers|
    ensures var n := |set a | 0 <= a < |list| && InGroup(list, muted, main, a)|;
      if n == 0 then GroupMean(powers, list, muted, main) == 0.0
      else n as real * GroupMean(powers, list, muted, main) == GroupSum(powers, list, muted, main, |list|)
  {
    GroupSizeIs(list, muted, main, |list|);
    if GroupSize(list, muted, main, |list|) > 0 {
      Quotient(GroupSum(powers, list, muted, main, |list|), GroupSize(list, muted, main, |list|));
    }
  }

  function Threshold(mean: real): real { if mean > 0.0 then mean * MIN_POWER_FACTOR else 1.0 }

  /** Antenna number a of the list is marked active. */
  predicate Marked(powers: seq<real>, list: seq<int>, muted: seq<int>, a: int)
    requires |list| == |powers|
  {
    exists main :: InGroup(list, muted, main, a) && powers[a] >= Threshold(GroupMean(powers, list, muted, main))
  }

  /** The sum is at most the number of members times a bound of their powers. */
  lemma {:induction false} SumBelow(powers: seq<real>, list: seq<int>, muted: seq<int>, main: bool, m: nat, bound: real)
    requires m <= |list| == |powers|
    requires forall a :: 0 <= a < m && InGroup(list, muted, main, a) ==> powers[a] < bound
    ensures var n := GroupSize(list, muted, main, m); var sum := GroupSum(powers, list, muted, main, m);
      if n == 0 then sum == 0.0 else sum < n as real * bound
  {
    if m > 0 {
      SumBelow(powers, list, muted, main, m - 1, bound);
      var n := GroupSize(list, muted, main, m - 1);
      assert (n + 1) as real * bound == n as real * bound + bound;
    }
  }

  lemma {:induction false} SumNotNegative(powers: seq<real>, list: seq<int>, muted: seq<int>, main: bool, m: nat)
    requires m <= |list| == |powers| && forall a :: 0 <= a < |powers| ==> powers[a] >= 0.0
    ensures GroupSum(powers, list, muted, main, m) >= 0.0
    ensures forall a :: 0 <= a < m && InGroup(list, muted, main, a) ==> powers[a] <= GroupSum(powers, list, muted, main, m)
  {
    if m > 0 { SumNotNegative(powers, list, muted, main, m - 1); }
  }

  lemma SomeAtLeastMean(powers: seq<real>, list: seq<int>, muted: seq<int>, main: bool) returns (a: nat)
    requires |list| == |powers| && GroupMean(powers, list, muted, main) > 0.0
    ensures InGroup(list, muted, main, a) && powers[a] >= GroupMean(powers, list, muted, main)
  {
    var mean, n := GroupMean(powers, list, muted, main), GroupSize(list, muted, main, |list|);
    var sum := GroupSum(powers, list, muted, main, |list|);
    Quotient(sum, n);
    if forall b :: InGroup(list, muted, main, b) ==> powers[b] < mean {
      SumBelow(powers, list, muted, main, |list|, mean);
      assert false;
    }
    a :| InGroup(list, muted, main, a) && powers[a] >= mean;
  }

  lemma AllSilent(powers: seq<real>, list: seq<int>, muted: seq<int>, main: bool, a: nat)
    requires |list| == |powers| && (forall b :: 0 <= b < |powers| ==> powers[b] >= 0.0)
    requires GroupMean(powers, list, muted, main) <= 0.0 && InGroup(list, muted, main, a)
    ensures powers[a] == 0.0
  {
    SumNotNegative(powers, list, muted, main, |list|);
    EmptyGroup(list, muted, main, |list|);
    NotPositive(GroupSum(powers, list, muted, main, |list|), GroupSize(list, muted, main, |list|));
  }

  /** A whole array is never silenced: some antenna of a group is marked active if and only if the
      mean power of its antennas that are not muted is positive. */
  lemma NeverSilenced(powers: seq<real>, list: seq<int>, muted: seq<int>, main: bool)
    requires |list| == |powers| && forall a :: 0 <= a < |powers| ==> powers[a] >= 0.0
    ensures GroupMean(powers, list, muted, main) > 0.0 <==>
            exists a :: InGroup(list, muted, main, a) && Marked(powers, list, muted, a)
  {
    var mean := GroupMean(powers, list, muted, main);
    if mean > 0.0 {
      var a := SomeAtLeastMean(powers, list, muted, main);
      assert powers[a] >= Threshold(mean);
      assert Marked(powers, list, muted, a);
    } else {
      forall a: nat | InGroup(list, muted, main, a) ensures !Marked(powers, list, muted, a) {
        AllSilent(powers, list, muted, main, a);
      }
    }
  }

  lemma Quotient(sum: real, n: nat)
    requires n > 0
    ensures n as real * (sum / n as real) == sum
  {}

  lemma NotPositive(sum: real, n: nat)
    requires n > 0 && sum / n as real <= 0.0
    ensures sum <= 0.0
  {
    var q := sum / n as real;
    assert sum == q * n as real;
    assert (-q) * n as real >= 0.0;
  }

  lemma {:induction false} EmptyGroup(list: seq<int>, muted: seq<int>, main: bool, m: nat)
    requires m <= |list|
    ensures GroupSize(list, muted, main, m) == 0 ==> forall a :: 0 <= a < m ==> !InGroup(list, muted, main, a)
  {
    if m > 0 { EmptyGroup(list, muted, main, m - 1); }
  }

  // ---------------------------------------------------------------- marking

  /** How often antenna id was marked by the first m entries of the list. */
  function Marks(powers: seq<real>, list: seq<int>, muted: seq<int>, id: int, m: nat): nat
    requires m <= |list| == |powers|
  {
    if m == 0 then 0
    else Marks(powers, list, muted, id, m - 1) + (if list[m - 1] == id && Marked(powers, list, muted, m - 1) then 1 else 0)
  }

  method IsMuted(muted: seq<int>, antenna: int) returns (yes: bool)
    ensures yes == (antenna in muted)
  {
    yes := false;
    for i := 0 to |muted|
      invariant !yes && antenna !in muted[..i]
    {
      if muted[i] == antenna {
        yes := true;
        break;
      }
    }
  }

  method GroupMeans(powers: array<real>, list: seq<int>, muted: seq<int>) returns (mainMean: real, intMean: real)
    requires powers.Length == |list|
    ensures mainMean == GroupMean(powers[..], list, muted, true)
    ensures intMean == GroupMean(powers[..], list, muted, false)
  {
    mainMean, intMean := 0.0, 0.0;
    var mains, ints := 0, 0;
    for a := 0 to |list|
      invariant mainMean == GroupSum(powers[..], list, muted, true, a) && mains == GroupSize(list, muted, true, a)
      invariant intMean == GroupSum(powers[..], list, muted, false, a) && ints == GroupSize(list, muted, false, a)
    {
      var skip := IsMuted(muted, list[a]);
      if skip { continue; }
      if IsMain(list[a]) {
        mainMean, mains := mainMean + powers[a], mains + 1;
      } else {
        intMean, ints := intMean + powers[a], ints + 1;
      }
    }
    if mains > 0 { mainMean := mainMean / mains as real; }
    if ints > 0 { intMean := intMean / ints as real; }
    EmptySum(powers[..], list, muted, true, |list|);
    EmptySum(powers[..], list, muted, false, |list|);
  }

  lemma {:induction false} EmptySum(powers: seq<real>, list: seq<int>, muted: seq<int>, main: bool, m: nat)
    requires m <= |list| == |powers|
    ensures GroupSize(list, muted, main, m) == 0 ==> GroupSum(powers, list, muted, main, m) == 0.0
  {
    if m > 0 { EmptySum(powers, list, muted, main, m - 1); }
  }

  /** Marks the antennas with enough power and counts how often each one was active. */
  method MarkActive(powers: array<real>, list: seq<int>, muted: seq<int>, count: array<int>, active: array<int>)
    requires powers.Length == |list| && count.Length == active.Length == ANTENNA_NUM && count != active
    requires forall a :: 0 <= a < |list| ==> 0 <= list[a] < ANTENNA_NUM
    modifies count, active
    ensures forall id :: 0 <= id < ANTENNA_NUM ==>
      && active[id] == (if Marks(powers[..], list, muted, id, |list|) > 0 then 1 else old(active[id]))
      && count[id] == old(count[id]) + Marks(powers[..], list, muted, id, |list|)
  {
    var mainMean, intMean := GroupMeans(powers, list, muted);
    for a := 0 to |list|
      invariant forall id :: 0 <= id < ANTENNA_NUM ==>
        && active[id] == (if Marks(powers[..], list, muted, id, a) > 0 then 1 else old(active[id]))
        && count[id] == old(count[id]) + Marks(powers[..], list, muted, id, a)
    {
      var skip := IsMuted(muted, list[a]);
      MarkedIs(powers[..], list, muted, a);
      if skip { continue; }
      if (powers[a] >= Threshold(mainMean) && IsMain(list[a])) || (powers[a] >= Threshold(intMean) && !IsMain(list[a])) {
        count[list[a]] := count[list[a]] + 1;
        active[list[a]] := 1;
      }
    }
  }

  lemma MarkedIs(powers: seq<real>, list: seq<int>, muted: seq<int>, a: nat)
    requires |list| == |powers| && a < |list|
    ensures Marked(powers, list, muted, a) <==>
            list[a] !in muted && powers[a] >= Threshold(GroupMean(powers, list, muted, IsMain(list[a])))
  {
    if list[a] !in muted { assert InGroup(list, muted, IsMain(list[a]), a); }
  }

  /** An antenna that is not muted is marked if it receives a tenth of the mean power of its array or
      more; if that mean is not positive, it needs a power of 1. */
  lemma MarkedMeans(powers: seq<real>, list: seq<int>, muted: seq<int>, a: nat)
    requires |list| == |powers| && a < |list|
    ensures var mean := GroupMean(powers, list, muted, list[a] <= 15 || list[a] > 19);
      Marked(powers, list, muted, a) <==>
      list[a] !in muted && if mean > 0.0 then 10.0 * powers[a] >= mean else powers[a] >= 1.0
  {
    MarkedIs(powers, list, muted, a);
  }

  lemma {:induction false} MarksAre(powers: seq<real>, list: seq<int>, muted: seq<int>, id: int, m: nat)
    requires m <= |list| == |powers|
    ensures Marks(powers, list, muted, id, m) == |set a | 0 <= a < m && list[a] == id && Marked(powers, list, muted, a)|
  {
    var now := set a | 0 <= a < m && list[a] == id && Marked(powers, list, muted, a);
    if m > 0 {
      MarksAre(powers, list, muted, id, m - 1);
      var before := set a | 0 <= a < m - 1 && list[a] == id && Marked(powers, list, muted, a);
      if list[m - 1] == id && Marked(powers, list, muted, m - 1) { assert now == before + {m - 1}; } else { assert now == before; }
    }
  }

  // ---------------------------------------------------------------- the muted list

  /** The antennas below m that are not active, in ascending order. */
  function Inactive(active: seq<int>, m: nat): (r: seq<int>)
    requires m <= |active|
    ensures |r| <= m
  {
    if m == 0 then [] else Inactive(active, m - 1) + (if active[m - 1] > 0 then [] else [m - 1])
  }

  lemma {:induction false} InactiveIs(active: seq<int>, m: nat)
    requires m <= |active|
    ensures forall i :: i in Inactive(active, m) <==> 0 <= i < m && active[i] <= 0
    ensures forall i, j :: 0 <= i < j < |Inactive(active, m)| ==> Inactive(active, m)[i] < Inactive(active, m)[j]
  {
    if m > 0 {
      InactiveIs(active, m - 1);
      var before := Inactive(active, m - 1);
      assert forall i :: 0 <= i < |before| ==> before[i] in before;
    }
  }

  /** write_int: the elements, then -1 up to the end of the shared memory. */
  method WriteInt(result: array<int>, shm: array<int>, n: nat)
    requires n <= result.Length && n <= shm.Length && result != shm
    modifies shm
    ensures shm[..] == Encoded(result[..n], shm.Length)
    ensures forall k :: 0 <= k < shm.Length ==> shm[k] == if k < n then old(result[k]) else -1
  {
    for i := 0 to n
      invariant forall k :: 0 <= k < i ==> shm[k] == result[k]
    {
      shm[i] := result[i];
    }
    for j := n to shm.Length
      invariant forall k :: 0 <= k < n ==> shm[k] == result[k]
      invariant forall k :: n <= k < j ==> shm[k] == FILLER
    {
      shm[j] := FILLER;
    }
  }

  function Encoded(xs: seq<int>, size: nat): (r: seq<int>)
    requires |xs| <= size
    ensures |r| == size
  {
    xs + seq(size - |xs|, _ => FILLER)
  }

  /** read_m_data: everything but the negative elements. */
  function Decoded(ys: seq<int>): seq<int> {
    if ys == [] then []
    else
      var n := |ys| - 1;
      Decoded(ys[..n]) + (if ys[n] >= 0 then [ys[n]] else [])
  }

  method ReadData(shm: seq<int>) returns (result: seq<int>)
    ensures result == Decoded(shm)
  {
    result := [];
    for k := 0 to |shm|
      invariant result == Decoded(shm[..k])
    {
      assert shm[..k + 1][..k] == shm[..k];
      if shm[k] >= 0 { result := result + [shm[k]]; }
    }
    assert shm[..|shm|] == shm;
  }

  lemma {:induction false} DecodedConcat(xs: seq<int>, ys: seq<int>)
    ensures Decoded(xs + ys) == Decoded(xs) + Decoded(ys)
    ensures |ys| == 1 ==> Decoded(ys) == if ys[0] >= 0 then ys else []
    decreases |ys|
  {
    if ys == [] {
      assert xs + ys == xs;
    } else {
      var n := |ys| - 1;
      assert (xs + ys)[..|xs| + n] == xs + ys[..n];
      DecodedConcat(xs, ys[..n]);
    }
  }

  lemma {:induction false} FillerDecoded(ys: seq<int>)
    requires forall k :: 0 <= k < |ys| ==> ys[k] == FILLER
    ensures Decoded(ys) == []
    decreases |ys|
  {
    if ys != [] { FillerDecoded(ys[..|ys| - 1]); }
  }

  lemma {:induction false} DecodedShorter(ys: seq<int>)
    ensures |Decoded(ys)| <= |ys|
    ensures |Decoded(ys)| == |ys| <==> forall k :: 0 <= k < |ys| ==> ys[k] >= 0
    ensures (forall k :: 0 <= k < |ys| ==> ys[k] >= 0) ==> Decoded(ys) == ys
    decreases |ys|
  {
    if ys != [] {
      var n := |ys| - 1;
      DecodedShorter(ys[..n]);
      assert ys == ys[..n] + [ys[n]];
    }
  }

  /** The client decodes what the server encoded exactly if no element is negative. */
  lemma RoundTrip(xs: seq<int>, size: nat)
    requires |xs| <= size
    ensures Decoded(Encoded(xs, size)) == xs <==> forall k :: 0 <= k < |xs| ==> xs[k] >= 0
  {
    var filler := seq(size - |xs|, _ => FILLER);
    DecodedConcat(xs, filler);
    FillerDecoded(filler);
    DecodedShorter(xs);
  }

  /** The active antennas of the main array. */
  function ActiveMain(active: seq<int>, n: nat): set<int>
    requires n <= |active|
  {
    set id | 0 <= id < n && IsMain(id) && active[id] > 0
  }

  function ActiveCount(active: seq<int>, n: nat): nat
    requires n <= |active|
  {
    if n == 0 then 0 else ActiveCount(active, n - 1) + (if IsMain(n - 1) && active[n - 1] > 0 then 1 else 0)
  }

  lemma {:induction false} ActiveCountIs(active: seq<int>, n: nat)
    requires n <= |active|
    ensures ActiveCount(active, n) == |ActiveMain(active, n)|
  {
    if n > 0 {
      ActiveCountIs(active, n - 1);
      assert ActiveMain(active, n)
             == ActiveMain(active, n - 1) + (if IsMain(n - 1) && active[n - 1] > 0 then {n - 1} else {});
    }
  }

  /** The server collects the antennas that are not active in front of its array of muted antennas. */
  method CollectMuted(active: array<int>, mutedIds: array<int>) returns (activeMain: nat, m: nat)
    requires active.Length == mutedIds.Length == ANTENNA_NUM && active != mutedIds
    modifies mutedIds
    ensures m <= ANTENNA_NUM && mutedIds[..m] == Inactive(active[..], ANTENNA_NUM)
    ensures forall k :: 0 <= k < m ==> mutedIds[k] >= 0
    ensures activeMain == |ActiveMain(active[..], ANTENNA_NUM)|
  {
    activeMain, m := 0, 0;
    for i := 0 to ANTENNA_NUM
      invariant m == |Inactive(active[..], i)| && mutedIds[..m] == Inactive(active[..], i)
      invariant activeMain == ActiveCount(active[..], i)
    {
      if active[i] > 0 {
        if IsMain(i) { activeMain := activeMain + 1; }
      } else {
        mutedIds[m] := i;
        m := m + 1;
      }
    }
    ActiveCountIs(active[..], ANTENNA_NUM);
    InactiveIs(active[..], ANTENNA_NUM);
    assert forall k :: 0 <= k < m ==> mutedIds[k] in mutedIds[..m];
  }

  /** clear_active_antennas */
  method ClearActive(active: array<int>)
    modifies active
    ensures forall k :: 0 <= k < active.Length ==> active[k] == 0
  {
    for i := 0 to active.Length
      invariant forall k :: 0 <= k < i ==> active[k] == 0
    {
      active[i] := 0;
    }
  }

  /** The branch of the server that handles samples, up to the reply: the client decodes the
      ascending list of all antennas that are not active. */
  method MuteAntennas(raw: seq<Complex>, n: nat, list: seq<int>, muted: seq<int>,
                      count: array<int>, active: array<int>, mutedIds: array<int>, shm: array<int>)
    returns (activeMain: nat)
    requires n > 0 && Blocks(|list|, n) <= |raw| && forall a :: 0 <= a < |list| ==> 0 <= list[a] < ANTENNA_NUM
    requires count.Length == active.Length == mutedIds.Length == shm.Length == ANTENNA_NUM
    requires count != active && count != mutedIds && count != shm
    requires active != mutedIds && active != shm && mutedIds != shm
    modifies count, active, mutedIds, shm
    ensures Decoded(shm[..]) == Inactive(active[..], ANTENNA_NUM)
    ensures forall id :: 0 <= id < ANTENNA_NUM ==>
              (active[id] > 0 <==> MarkedId(raw, n, list, muted, id))
    ensures activeMain == |set id | 0 <= id <= LAST_MAIN && MarkedId(raw, n, list, muted, id)|
  {
    ClearActive(active);
    var powers := AveragePowers(raw, n, |list|);
    MarkActive(powers, list, muted, count, active);
    assert forall id :: 0 <= id < ANTENNA_NUM ==> (active[id] > 0 <==> MarkedId(raw, n, list, muted, id));

    var m;
    activeMain, m := CollectMuted(active, mutedIds);
    assert ActiveMain(active[..], ANTENNA_NUM) == set id | 0 <= id <= LAST_MAIN && MarkedId(raw, n, list, muted, id);
    WriteInt(mutedIds, shm, m);
    RoundTrip(mutedIds[..m], ANTENNA_NUM);
  }

  predicate MarkedId(raw: seq<Complex>, n: nat, list: seq<int>, muted: seq<int>, id: int)
    requires n > 0 && Blocks(|list|, n) <= |raw|
  {
    Marks(Averages(raw, n, |list|), list, muted, id, |list|) > 0
  }

  lemma {:induction false} MarkCounted(powers: seq<real>, list: seq<int>, muted: seq<int>, a: nat, m: nat)
    requires a < m <= |list| == |powers| && Marked(powers, list, muted, a)
    ensures Marks(powers, list, muted, list[a], m) > 0
    decreases m
  {
    if a < m - 1 { MarkCounted(powers, list, muted, a, m - 1); }
  }

  /** Together: of an array whose antennas, without those muted by configuration, receive any power
      at all, the list that MuteAntennas leaves for the client never contains every antenna. */
  lemma SomebodyLeft(raw: seq<Complex>, n: nat, list: seq<int>, muted: seq<int>,
                     active: seq<int>, shm: seq<int>, main: bool)
    requires n > 0 && Blocks(|list|, n) <= |raw| && forall a :: 0 <= a < |list| ==> 0 <= list[a] < ANTENNA_NUM
    requires |active| == ANTENNA_NUM && Decoded(shm) == Inactive(active, ANTENNA_NUM)
    requires forall id :: 0 <= id < ANTENNA_NUM ==> (active[id] > 0 <==> MarkedId(raw, n, list, muted, id))
    requires GroupMean(Averages(raw, n, |list|), list, muted, main) > 0.0
    ensures exists a :: InGroup(list, muted, main, a) && list[a] !in Decoded(shm)
  {
    var powers := Averages(raw, n, |list|);
    NeverSilenced(powers, list, muted, main);
    var a :| InGroup(list, muted, main, a) && Marked(powers, list, muted, a);
    MarkCounted(powers, list, muted, a, |list|);
    InactiveIs(active, ANTENNA_NUM);
    assert MarkedId(raw, n, list, muted, list[a]);
  }
}
