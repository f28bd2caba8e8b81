/** send_timing_for_sequence of dio.cpp: the transmit/receive gate and the SYNC pulses of one
    integration period are queued out of order, drained in the order of time and written to the pins
    under a mask. Times are real seconds. */
module GpioTiming {
  import TxWorker
  import opened Division

  const TR_TX: bv32 := 0x0020
  const TR_RX: bv32 := 0x0200
  const TR_PINS: bv32 := 0x0220
  const SYNC_PINS: bv32 := 0x0040

  const SYNC_OFFSET_START: real := -0.0005
  const SYNC_OFFSET_END: real := -0.0004

  datatype Command = Command(time: real, value: bv32, mask: bv32)

  // ---------------------------------------------------------------- what is queued

  /** The commands of pulse i: SYNC at the start of a sequence of k pulses, then the gate. */
  function PulseCommands(time: real, length: real, first: bool): seq<Command> {
    (if first then [Command(time + SYNC_OFFSET_START, SYNC_PINS, SYNC_PINS), Command(time + SYNC_OFFSET_END, 0, SYNC_PINS)] else [])
    + [Command(time, TR_TX, TR_PINS), Command(time + length, TR_RX, TR_PINS)]
  }

  /** Pulse i is the first one of a sequence of k pulses. */
  predicate Starts(i: int, k: nat)
    requires k > 0
  {
    i % k == 0
  }

  /** The commands of the first n pulses. */
  function Commands(times: seq<real>, n: nat, length: real, k: nat): seq<Command>
    requires k > 0 && n <= |times|
  {
    if n == 0 then []
    else Commands(times, n - 1, length, k) + PulseCommands(times[n - 1], length, Starts(n - 1, k))
  }

  /** Every queued command is one of four kinds. */
  predicate Queued(c: Command, times: seq<real>, n: nat, length: real, k: nat)
    requires k > 0 && n <= |times|
  {
    exists i :: 0 <= i < n && c in PulseCommands(times[i], length, Starts(i, k))
  }

  lemma {:induction false} CommandsAre(times: seq<real>, n: nat, length: real, k: nat, c: Command)
    requires k > 0 && n <= |times|
    ensures c in Commands(times, n, length, k) <==> Queued(c, times, n, length, k)
  {
    if n > 0 { CommandsAre(times, n - 1, length, k, c); }
  }

  // ---------------------------------------------------------------- draining the queue

  predicate SortedByTime(cs: seq<Command>) { forall i, j :: 0 <= i < j < |cs| ==> cs[i].time <= cs[j].time }

  predicate Earliest(c: Command, q: multiset<Command>) { c in q && forall d :: d in q ==> c.time <= d.time }

  lemma {:induction false} SomeEarliest(q: multiset<Command>) returns (c: Command)
    requires |q| > 0
    ensures Earliest(c, q)
    decreases |q|
  {
    c :| c in q;
    var rest := q - multiset{c};
    if |rest| > 0 {
      var d := SomeEarliest(rest);
      if d.time < c.time { c := d; }
    }
  }

  predicate Before(issued: seq<Command>, q: multiset<Command>) {
    forall d :: d in q ==> forall i :: 0 <= i < |issued| ==> issued[i].time <= d.time
  }

  lemma IssueEarliest(issued: seq<Command>, q: multiset<Command>, c: Command)
    requires SortedByTime(issued) && Before(issued, q) && Earliest(c, q)
    ensures SortedByTime(issued + [c]) && Before(issued + [c], q - multiset{c})
    ensures |q - multiset{c}| < |q|
    ensures multiset(issued + [c]) + (q - multiset{c}) == multiset(issued) + q
  {
    forall d | d in q - multiset{c} ensures forall i :: 0 <= i < |issued + [c]| ==> (issued + [c])[i].time <= d.time {
      assert d in q;
    }
    assert q == (q - multiset{c}) + multiset{c};
  }

  method Drain(queue: multiset<Command>) returns (issued: seq<Command>)
    ensures SortedByTime(issued) && multiset(issued) == queue
  {
    var q := queue;
    issued := [];
    while |q| > 0
      invariant multiset(issued) + q == queue
      invariant SortedByTime(issued) && Before(issued, q)
      decreases |q|
    {
      ghost var some := SomeEarliest(q);
      var c :| Earliest(c, q);
      IssueEarliest(issued, q, c);
      issued := issued + [c];
      q := q - multiset{c};
    }
  }

  /** Queues the commands of one pulse by changing and pushing one structure again and again. */
  method PushPulse(queue: multiset<Command>, c0: Command, time: real, length: real, first: bool)
    returns (q: multiset<Command>, c: Command)
    ensures q == queue + multiset(PulseCommands(time, length, first))
  {
    q, c := queue, c0;
    ghost var pushed := [];
    if first {
      c := c.(mask := SYNC_PINS, value := SYNC_PINS, time := time + SYNC_OFFSET_START);
      q := q + multiset{c};
      c := c.(value := 0, time := time + SYNC_OFFSET_END);
      q := q + multiset{c};
      pushed := [Command(time + SYNC_OFFSET_START, SYNC_PINS, SYNC_PINS), Command(time + SYNC_OFFSET_END, 0, SYNC_PINS)];
    }
    c := c.(mask := TR_PINS, value := TR_TX, time := time);
    q := q + multiset{c};
    c := c.(value := TR_RX, time := time + length);
    q := q + multiset{c};
    assert PulseCommands(time, length, first) == pushed + [Command(time, TR_TX, TR_PINS), Command(time + length, TR_RX, TR_PINS)];
  }

  lemma OneMorePulse(times: seq<real>, i: nat, length: real, k: nat)
    requires k > 0 && i < |times|
    ensures multiset(Commands(times, i + 1, length, k))
            == multiset(Commands(times, i, length, k)) + multiset(PulseCommands(times[i], length, Starts(i, k)))
  {}

  /** The queue after all pulses. */
  method PushAll(times: seq<real>, pulseLength: real, k: nat) returns (queue: multiset<Command>)
    requires k > 0
    ensures queue == multiset(Commands(times, |times|, pulseLength, k))
  {
    var c := Command(0.0, 0, 0);
    queue := multiset{};
    var i := 0;
    while i < |times|
      invariant 0 <= i <= |times|
      invariant queue == multiset(Commands(times, i, pulseLength, k))
    {
      OneMorePulse(times, i, pulseLength, k);
      queue, c := PushPulse(queue, c, times[i], pulseLength, Starts(i, k));
      i := i + 1;
    }
  }

  /** What is issued is a permutation, sorted by time, of what was queued. */
  method SendTiming(times: seq<real>, pulseLength: real, nSequences: nat) returns (issued: seq<Command>)
    requires 0 < nSequences <= |times|
    ensures SortedByTime(issued)
    ensures multiset(issued) == multiset(Commands(times, |times|, pulseLength, |times| / nSequences))
  {
    DivAtLeast(|times|, 1, nSequences);
    var queue := PushAll(times, pulseLength, |times| / nSequences);
    issued := Drain(queue);
  }

  // ---------------------------------------------------------------- what the pins do

  /** set_gpio_attr: only the pins of the mask change. */
  function Write(v: bv32, c: Command): bv32 { (v & !c.mask) | (c.value & c.mask) }

  /** The pins at time t, if they were v before. */
  function Level(issued: seq<Command>, t: real, v: bv32): bv32 {
    if issued == [] then v
    else
      var n := |issued| - 1;
      var before := Level(issued[..n], t, v);
      if issued[n].time <= t then Write(before, issued[n]) else before
  }

  predicate High(v: bv32, pin: bv32) { v & pin != 0 }

  predicate IsPin(pin: bv32) { pin == TR_TX || pin == TR_RX || pin == SYNC_PINS }

  /** The command changes the pin at time t or has changed it before. */
  predicate Changes(c: Command, pin: bv32, t: real) { High(c.mask, pin) && c.time <= t }

  lemma WritePin(v: bv32, c: Command, pin: bv32)
    requires IsPin(pin)
    ensures High(Write(v, c), pin) == if High(c.mask, pin) then High(c.value, pin) else High(v, pin)
  {}

  /** Index of the last command that has changed the pin by time t, or -1. */
  function LastChange(issued: seq<Command>, pin: bv32, t: real): (i: int)
    ensures -1 <= i < |issued|
    ensures i >= 0 ==> Changes(issued[i], pin, t)
    ensures forall j :: i < j < |issued| ==> !Changes(issued[j], pin, t)
  {
    if issued == [] then -1
    else if Changes(issued[|issued| - 1], pin, t) then |issued| - 1
    else LastChange(issued[..|issued| - 1], pin, t)
  }

  lemma {:induction false} LevelIs(issued: seq<Command>, t: real, v: bv32, pin: bv32)
    requires IsPin(pin)
    ensures var i := LastChange(issued, pin, t);
      High(Level(issued, t, v), pin) == if i < 0 then High(v, pin) else High(issued[i].value, pin)
    decreases |issued|
  {
    if issued != [] {
      var n := |issued| - 1;
      LevelIs(issued[..n], t, v, pin);
      WritePin(Level(issued[..n], t, v), issued[n], pin);
    }
  }

  /** The command that decides about a pin is the latest one that has changed it. */
  lemma Decided(issued: seq<Command>, t: real, v: bv32, pin: bv32, c: Command)
    requires IsPin(pin) && SortedByTime(issued) && c in issued && Changes(c, pin, t)
    requires forall d :: d in issued && Changes(d, pin, t) ==>
               d.time <= c.time && (d.time == c.time ==> High(d.value, pin) == High(c.value, pin))
    ensures High(Level(issued, t, v), pin) == High(c.value, pin)
  {
    LevelIs(issued, t, v, pin);
    var k :| 0 <= k < |issued| && issued[k] == c;
    var i := LastChange(issued, pin, t);
    assert issued[i] in issued && issued[k].time <= issued[i].time;
  }

  /** Everything that was queued, and nothing else, was issued in the order of time. */
  ghost predicate Issued(issued: seq<Command>, times: seq<real>, length: real, k: nat)
    requires k > 0
  {
    SortedByTime(issued) && forall c :: c in issued <==> Queued(c, times, |times|, length, k)
  }

  lemma PermutationIssued(issued: seq<Command>, times: seq<real>, length: real, k: nat)
    requires k > 0 && SortedByTime(issued) && multiset(issued) == multiset(Commands(times, |times|, length, k))
    ensures Issued(issued, times, length, k)
  {
    forall c ensures c in issued <==> Queued(c, times, |times|, length, k) {
      CommandsAre(times, |times|, length, k, c);
      assert c in issued <==> c in multiset(issued);
      assert c in Commands(times, |times|, length, k) <==> c in multiset(Commands(times, |times|, length, k));
    }
  }

  // ---------------------------------------------------------------- the gate

  /** A pulse ends before the next one begins. */
  predicate Separated(times: seq<real>, length: real) {
    length > 0.0 && forall i :: 0 <= i < |times| - 1 ==> times[i] + length < times[i + 1]
  }

  lemma {:induction false} LaterPulse(times: seq<real>, length: real, i: nat, j: nat)
    requires Separated(times, length) && i < j < |times|
    ensures times[i] + length < times[j]
    decreases j
  {
    if i < j - 1 { LaterPulse(times, length, i, j - 1); }
    assert times[j - 1] + length < times[j - 1 + 1];
  }

  /** The last pulse that has begun by time t. */
  function Begun(times: seq<real>, t: real): (i: nat)
    requires times != [] && times[0] <= t
    ensures i < |times| && times[i] <= t && forall j :: i < j < |times| ==> t < times[j]
  {
    var n := |times| - 1;
    if times[n] <= t then n else Begun(times[..n], t)
  }

  predicate InPulse(times: seq<real>, length: real, t: real) {
    exists i :: 0 <= i < |times| && times[i] <= t < times[i] + length
  }

  /** The pins of the gate change only at the beginning and at the end of pulses. */
  lemma GateCommands(times: seq<real>, length: real, k: nat, c: Command, pin: bv32)
    requires k > 0 && (pin == TR_TX || pin == TR_RX) && Queued(c, times, |times|, length, k) && High(c.mask, pin)
    ensures exists i :: 0 <= i < |times| &&
              (c == Command(times[i], TR_TX, TR_PINS) || c == Command(times[i] + length, TR_RX, TR_PINS))
  {
    var i :| 0 <= i < |times| && c in PulseCommands(times[i], length, Starts(i, k));
    assert !High(SYNC_PINS, TR_TX) && !High(SYNC_PINS, TR_RX);
  }

  /** The gate is open exactly inside the pulses, from the first pulse on: TX is high on the union
      of the intervals from a pulse time to a pulse length later, and RX is high otherwise. */
  lemma GateFollowsPulses(issued: seq<Command>, times: seq<real>, length: real, k: nat, t: real, v: bv32, pin: bv32)
    requires k > 0 && Separated(times, length) && Issued(issued, times, length, k)
    requires times != [] && times[0] <= t && (pin == TR_TX || pin == TR_RX)
    ensures High(Level(issued, t, v), pin) <==> (InPulse(times, length, t) == (pin == TR_TX))
  {
    var i := Begun(times, t);
    var open := t < times[i] + length;
    var c := if open then Command(times[i], TR_TX, TR_PINS) else Command(times[i] + length, TR_RX, TR_PINS);
    assert c in PulseCommands(times[i], length, Starts(i, k));
    forall d | d in issued && Changes(d, pin, t)
      ensures d.time <= c.time && (d.time == c.time ==> d == c)
    {
      GateCommands(times, length, k, d, pin);
      var j :| 0 <= j < |times| &&
        (d == Command(times[j], TR_TX, TR_PINS) || d == Command(times[j] + length, TR_RX, TR_PINS));
      if j < i { LaterPulse(times, length, j, i); }
    }
    Decided(issued, t, v, pin, c);
    InPulseIs(times, length, t);
  }

  lemma InPulseIs(times: seq<real>, length: real, t: real)
    requires Separated(times, length) && times != [] && times[0] <= t
    ensures InPulse(times, length, t) <==> t < times[Begun(times, t)] + length
  {
    var i := Begun(times, t);
    if InPulse(times, length, t) {
      var j :| 0 <= j < |times| && times[j] <= t < times[j] + length;
      if j < i { LaterPulse(times, length, j, i); }
    }
  }

  // ---------------------------------------------------------------- SYNC

  /** The SYNC windows of different sequences do not touch. */
  predicate SyncSeparated(times: seq<real>, k: nat)
    requires k > 0
  {
    forall i, j :: 0 <= i < j < |times| && Starts(i, k) && Starts(j, k) ==> times[i] + SYNC_OFFSET_END < times[j] + SYNC_OFFSET_START
  }

  predicate InWindow(times: seq<real>, k: nat, i: int, t: real)
    requires k > 0
  {
    0 <= i < |times| && Starts(i, k) && times[i] + SYNC_OFFSET_START <= t < times[i] + SYNC_OFFSET_END
  }

  /** The last sequence whose window has begun by time t. */
  function WindowBegun(times: seq<real>, k: nat, t: real): (i: nat)
    requires k > 0 && times != [] && times[0] + SYNC_OFFSET_START <= t
    ensures i < |times| && Starts(i, k) && times[i] + SYNC_OFFSET_START <= t
    ensures forall j :: i < j < |times| && Starts(j, k) ==> t < times[j] + SYNC_OFFSET_START
  {
    var n := |times| - 1;
    if Starts(n, k) && times[n] + SYNC_OFFSET_START <= t then n else WindowBegun(times[..n], k, t)
  }

  lemma SyncCommands(times: seq<real>, length: real, k: nat, c: Command)
    requires k > 0 && Queued(c, times, |times|, length, k) && High(c.mask, SYNC_PINS)
    ensures exists i :: 0 <= i < |times| && Starts(i, k) &&
              (c == Command(times[i] + SYNC_OFFSET_START, SYNC_PINS, SYNC_PINS) || c == Command(times[i] + SYNC_OFFSET_END, 0, SYNC_PINS))
  {
    var i :| 0 <= i < |times| && c in PulseCommands(times[i], length, Starts(i, k));
    assert !High(TR_PINS, SYNC_PINS);
  }

  /** SYNC is high exactly in the windows of the sequences, from the first window on. */
  lemma SyncFollowsSequences(issued: seq<Command>, times: seq<real>, length: real, k: nat, t: real, v: bv32)
    requires k > 0 && SyncSeparated(times, k) && Issued(issued, times, length, k)
    requires times != [] && times[0] + SYNC_OFFSET_START <= t
    ensures High(Level(issued, t, v), SYNC_PINS) <==> exists m: nat :: InSync(times, k, m, t)
  {
    WindowsOfSequences(times, k, t);
    var i := WindowBegun(times, k, t);
    var high := t < times[i] + SYNC_OFFSET_END;
    var c := if high then Command(times[i] + SYNC_OFFSET_START, SYNC_PINS, SYNC_PINS) else Command(times[i] + SYNC_OFFSET_END, 0, SYNC_PINS);
    assert c in PulseCommands(times[i], length, Starts(i, k));
    forall d | d in issued && Changes(d, SYNC_PINS, t)
      ensures d.time <= c.time && (d.time == c.time ==> d == c)
    {
      SyncCommands(times, length, k, d);
      var j :| 0 <= j < |times| && Starts(j, k) &&
        (d == Command(times[j] + SYNC_OFFSET_START, SYNC_PINS, SYNC_PINS) || d == Command(times[j] + SYNC_OFFSET_END, 0, SYNC_PINS));
      assert j < i ==> times[j] + SYNC_OFFSET_END < times[i] + SYNC_OFFSET_START;
    }
    Decided(issued, t, v, SYNC_PINS, c);
    if high {
      assert InWindow(times, k, i, t);
    } else {
      forall j ensures !InWindow(times, k, j, t) {
        assert 0 <= j < i && Starts(j, k) ==> times[j] + SYNC_OFFSET_END < times[i] + SYNC_OFFSET_START;
      }
    }
  }

  /** Sequence m, whose first pulse has number m * k, has its SYNC window 0.5 to 0.4 ms before that pulse. */
  predicate InSync(times: seq<real>, k: nat, m: nat, t: real) {
    0 <= m * k < |times| && times[m * k] - 0.0005 <= t < times[m * k] - 0.0004
  }

  lemma WindowsOfSequences(times: seq<real>, k: nat, t: real)
    requires k > 0
    ensures (exists i :: InWindow(times, k, i, t)) <==> exists m: nat :: InSync(times, k, m, t)
  {
    if i :| InWindow(times, k, i, t) {
      assert i == (i / k) * k;
      assert InSync(times, k, i / k, t);
    }
    if m: nat :| InSync(times, k, m, t) {
      QuotientIs(m * k, k, m);
      assert InWindow(times, k, m * k, t);
    }
  }

  /** Number of sequence starts among the first n pulses. */
  function Windows(n: nat, k: nat): nat
    requires k > 0
  {
    if n == 0 then 0 else Windows(n - 1, k) + (if Starts(n - 1, k) then 1 else 0)
  }

  lemma {:induction false} WindowsAre(n: nat, k: nat)
    requires k > 0
    ensures Windows(n, k) == (n + k - 1) / k
  {
    if n > 0 {
      WindowsAre(n - 1, k);
      Quotients(n - 1, k);
    }
  }

  lemma Quotients(m: nat, k: nat)
    requires k > 0
    ensures (m + k) / k == (m + k - 1) / k + (if m % k == 0 then 1 else 0)
  {
    var q, r := m / k, m % k;
    assert m + k == (q + 1) * k + r;
    QuotientIs(m + k, k, q + 1);
    QuotientIs(m + k - 1, k, if r == 0 then q else q + 1);
  }

  /** There is one SYNC window per sequence exactly if the pulses divide evenly into sequences. */
  lemma OneWindowPerSequence(n: nat, nSequences: nat)
    requires 0 < nSequences <= n
    ensures Windows(n, n / nSequences) == nSequences <==> n % nSequences == 0
  {
    var k, r := n / nSequences, n % nSequences;
    assert n == nSequences * k + r && k > 0;
    WindowsAre(n, k);
    if r == 0 {
      QuotientIs(n + k - 1, k, nSequences);
    } else {
      assert (nSequences + 1) * k == nSequences * k + k;
      DivAtLeast(n + k - 1, nSequences + 1, k);
    }
  }

  // ---------------------------------------------------------------- gate and samples together

  /** Time of sample k of the burst, as TRIGGER_PULSE calculates it. */
  function SampleTime(start: real, k: int, rate: real): real
    requires rate > 0.0
  {
    start + k as real / rate
  }

  function PulseTimes(start: real, offsets: seq<nat>, rate: real): (times: seq<real>)
    requires rate > 0.0
    ensures |times| == |offsets| && forall p :: 0 <= p < |times| ==> times[p] == SampleTime(start, offsets[p], rate)
  {
    seq(|offsets|, p requires 0 <= p < |offsets| => SampleTime(start, offsets[p], rate))
  }

  lemma TimesOrdered(start: real, k: int, l: int, rate: real)
    requires rate > 0.0
    ensures SampleTime(start, k, rate) < SampleTime(start, l, rate) <==> k < l
    ensures SampleTime(start, k + l, rate) == SampleTime(start, k, rate) + l as real / rate
  {
    var a, b := k as real / rate, l as real / rate;
    assert a * rate == k as real && b * rate == l as real;
    if k < l { assert (b - a) * rate > 0.0; } else { assert (a - b) * rate >= 0.0; }
  }

  /** A sample lies in a pulse of the train exactly if its time lies in a pulse of the gate. */
  lemma SamplesInGate(t: TxWorker.Train, start: real, rate: real, k: int)
    requires rate > 0.0 && t.Valid()
    ensures InPulse(PulseTimes(start, t.offsets, rate), t.length as real / rate, SampleTime(start, k, rate))
            <==> exists p :: t.Inside(p, k)
  {
    var times := PulseTimes(start, t.offsets, rate);
    forall p | 0 <= p < |times|
      ensures times[p] <= SampleTime(start, k, rate) < times[p] + t.length as real / rate <==> t.Inside(p, k)
    {
      TimesOrdered(start, k, t.offsets[p], rate);
      TimesOrdered(start, t.offsets[p], t.length, rate);
      TimesOrdered(start, k, t.offsets[p] + t.length, rate);
    }
    if p :| t.Inside(p, k) { assert times[p] <= SampleTime(start, k, rate); }
  }

  lemma TrainSeparated(t: TxWorker.Train, spb: nat, start: real, rate: real)
    requires rate > 0.0 && t.Valid() && spb >= 2 && t.Spaced(spb)
    ensures Separated(PulseTimes(start, t.offsets, rate), t.length as real / rate)
  {
    var times := PulseTimes(start, t.offsets, rate);
    forall p | 0 <= p < |times| - 1 ensures times[p] + t.length as real / rate < times[p + 1] {
      assert t.offsets[p] + t.length + spb - 1 <= t.offsets[p + 1];
      TimesOrdered(start, t.offsets[p], t.length, rate);
      TimesOrdered(start, t.offsets[p] + t.length, t.offsets[p + 1], rate);
    }
  }

  /** From the first pulse on, the transmit worker sends silence whenever the gate is closed: what
      leaves the worker, at the time it is due, against what the pins show at that time. */
  lemma SilentWhileClosed(t: TxWorker.Train, w: seq<TxWorker.Sample>, spb: nat, issued: seq<Command>, k: nat,
                          start: real, rate: real, n: nat, v: bv32)
    requires t.Valid() && spb >= 2 && t.Spaced(spb) && t.Begins(w) && n < |w| && t.offsets[0] <= n
    requires rate > 0.0 && k > 0
    requires Issued(issued, PulseTimes(start, t.offsets, rate), t.length as real / rate, k)
    ensures !High(Level(issued, SampleTime(start, n, rate), v), TR_TX) ==> w[n] == TxWorker.SILENCE
  {
    var times := PulseTimes(start, t.offsets, rate);
    TimesOrdered(start, n, t.offsets[0], rate);
    TrainSeparated(t, spb, start, rate);
    GateFollowsPulses(issued, times, t.length as real / rate, k, SampleTime(start, n, rate), v, TR_TX);
    SamplesInGate(t, start, rate, n);
    assert t.RightAt(0 + n, w[n]);
  }
}
