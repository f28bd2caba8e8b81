/** The transmit path of usrp_driver: USRP_SETUP packs the pulses of one integration period into a
    zero-padded buffer (usrp_driver.cpp), and usrp_tx_worker cuts the pulse train, which is much
    longer than the buffer, into packets that all point into that buffer (tx_worker.cpp). */
module TxWorker {
  import opened Indexing

  datatype Sample = Sample(i: int, q: int)

  const SILENCE := Sample(0, 0)

  /** What one call of send() was given: buffer position, length and the metadata flags. */
  datatype Packet = Packet(start: nat, length: nat, startOfBurst: bool, endOfBurst: bool)

  /** Conversion to int32_t. */
  function Int32(x: int): (r: int)
    ensures -0x8000_0000 <= r < 0x8000_0000
    ensures r == x <==> -0x8000_0000 <= x < 0x8000_0000
  {
    (x + 0x8000_0000) % 0x1_0000_0000 - 0x8000_0000
  }

  /** A pulse train: `length` samples of each pulse, the first of pulse p at offsets[p]. */
  datatype Train = Train(pulses: seq<seq<Sample>>, offsets: seq<nat>, length: nat) {
    predicate Valid() {
      && length > 0 && |offsets| > 0 && |pulses| == |offsets|
      && forall p :: 0 <= p < |pulses| ==> |pulses[p]| == length
    }

    /** Number of samples the worker sends: the very last sample of the last pulse is left out. */
    function Total(): int
      requires Valid()
    {
      offsets[|offsets| - 1] + length - 1
    }

    predicate Inside(p: int, k: int)
      requires Valid()
    {
      0 <= p < |offsets| && offsets[p] <= k < offsets[p] + length
    }

    /** The samples w are the beginning of the pulse train: pulse p where pulse p is due, silence
        elsewhere. */
    ghost predicate Begins(w: seq<Sample>)
      requires Valid()
    {
      Continues(0, w)
    }

    /** The samples w are the part of the pulse train that begins at sample `from`. */
    ghost predicate Continues(from: nat, w: seq<Sample>)
      requires Valid()
    {
      forall k :: 0 <= k < |w| ==> RightAt(from + k, w[k])
    }

    ghost predicate RightAt(k: int, x: Sample)
      requires Valid()
    {
      && (forall p :: Inside(p, k) ==> x == pulses[p][k - offsets[p]])
      && ((forall p :: !Inside(p, k)) ==> x == SILENCE)
    }

    /** Enough room between the pulses for a packet that starts at the last sample of one. */
    predicate Spaced(spb: nat)
      requires Valid()
    {
      forall p :: 0 <= p < |offsets| - 1 ==> offsets[p] + length + spb - 1 <= offsets[p + 1]
    }
  }

  /** The pulse train determines the samples: two beginnings of the same length are equal. */
  lemma BeginsUnique(t: Train, v: seq<Sample>, w: seq<Sample>)
    requires t.Valid() && t.Begins(v) && t.Begins(w) && |v| == |w|
    ensures v == w
  {
    forall k | 0 <= k < |v| ensures v[k] == w[k] {
      assert t.RightAt(0 + k, v[k]) && t.RightAt(0 + k, w[k]);
    }
  }

  lemma AppendPacket(t: Train, w: seq<Sample>, v: seq<Sample>)
    requires t.Valid() && t.Begins(w) && t.Continues(|w|, v)
    ensures t.Begins(w + v)
  {
    forall k | 0 <= k < |w + v| ensures t.RightAt(0 + k, (w + v)[k]) {
      if k < |w| { assert t.RightAt(0 + k, w[k]); } else { assert t.RightAt(|w| + (k - |w|), v[k - |w|]); }
    }
  }

  lemma {:induction false} OffsetsIncrease(t: Train, spb: nat, p: nat, q: nat)
    requires t.Valid() && t.Spaced(spb) && spb > 0 && p < q < |t.offsets|
    ensures t.offsets[p] + t.length + spb - 1 <= t.offsets[q]
    decreases q
  {
    if p < q - 1 { OffsetsIncrease(t, spb, p, q - 1); }
    assert t.offsets[q - 1] + t.length + spb - 1 <= t.offsets[q - 1 + 1];
  }

  // ---------------------------------------------------------------- the padded buffer

  /** Length of a padded pulse. */
  function Width(length: nat, spb: nat): nat { length + 2 * spb }

  /** A buffer of n blocks: spb silent samples, a pulse, spb silent samples. */
  ghost predicate Silent(tx: seq<Sample>, n: nat, length: nat, spb: nat) {
    && |tx| == Blocks(n, Width(length, spb))
    && forall p: nat, r: nat ::
         p < n && (r < spb || spb + length <= r < length + 2 * spb) ==>
         Position(p, r, Width(length, spb)) < |tx| ==> tx[Position(p, r, Width(length, spb))] == SILENCE
  }

  ghost predicate Holds(tx: seq<Sample>, pulses: seq<seq<Sample>>, length: nat, spb: nat)
    requires forall p :: 0 <= p < |pulses| ==> |pulses[p]| == length
  {
    && |tx| == Blocks(|pulses|, Width(length, spb))
    && forall p: nat, r: nat ::
         p < |pulses| && spb <= r < spb + length ==>
         Position(p, r, Width(length, spb)) < |tx| ==> tx[Position(p, r, Width(length, spb))] == pulses[p][r - spb]
  }

  // ---------------------------------------------------------------- the worker

  /** No other pulse is due in a packet that pulse p dominates. */
  lemma OnlyPulse(t: Train, spb: nat, p: nat, q: int, k: int)
    requires t.Valid() && t.Spaced(spb) && spb > 0 && p < |t.offsets|
    requires p > 0 ==> t.offsets[p - 1] + t.length <= k
    requires k < t.offsets[p] + t.length + spb - 1
    requires t.Inside(q, k)
    ensures q == p
  {
    if q < p - 1 { OffsetsIncrease(t, spb, q, p - 1); }
    if p < q { OffsetsIncrease(t, spb, p, q); }
  }

  lemma SampleInBlock(t: Train, tx: seq<Sample>, spb: nat, p: nat, r: nat, k: int)
    requires t.Valid() && t.Spaced(spb) && spb > 0 && p < |t.offsets|
    requires Silent(tx, |t.pulses|, t.length, spb) && Holds(tx, t.pulses, t.length, spb)
    requires r == k - t.offsets[p] + spb < t.length + 2 * spb - 1
    requires p > 0 ==> t.offsets[p - 1] + t.length <= k
    ensures Position(p, r, Width(t.length, spb)) < |tx|
    ensures t.RightAt(k, tx[Position(p, r, Width(t.length, spb))])
  {
    BlockBound(p, r, |t.pulses|, Width(t.length, spb));
    forall q | t.Inside(q, k) ensures q == p { OnlyPulse(t, spb, p, q, k); }
    if t.Inside(p, k) {
      assert tx[Position(p, r, Width(t.length, spb))] == t.pulses[p][r - spb];
    } else {
      assert tx[Position(p, r, Width(t.length, spb))] == SILENCE;
    }
  }

  /** A packet that starts in the padding before pulse p or inside it sends what is due. */
  lemma PacketInBlock(t: Train, tx: seq<Sample>, spb: nat, p: nat, sent: nat, start: nat, length: nat)
    requires t.Valid() && t.Spaced(spb) && spb > 0 && p < |t.offsets| && 0 < length <= spb
    requires Silent(tx, |t.pulses|, t.length, spb) && Holds(tx, t.pulses, t.length, spb)
    requires t.offsets[p] - spb <= sent < t.offsets[p] + t.length
    requires p > 0 ==> t.offsets[p - 1] + t.length <= sent
    requires start == Position(p, spb - (t.offsets[p] - sent), Width(t.length, spb))
    ensures start + length <= |tx| && t.Continues(sent, tx[start..start + length])
  {
    var r := spb - (t.offsets[p] - sent);
    SampleInBlock(t, tx, spb, p, r + length - 1, sent + length - 1);
    var w := tx[start..start + length];
    forall j | 0 <= j < |w| ensures t.RightAt(sent + j, w[j]) {
      SampleInBlock(t, tx, spb, p, r + j, sent + j);
    }
  }

  /** Before the next pulse comes into reach, the packet is taken from the first padding. */
  lemma SilentPacket(t: Train, tx: seq<Sample>, spb: nat, p: nat, sent: nat, length: nat)
    requires t.Valid() && t.Spaced(spb) && spb > 0 && p < |t.offsets| && length <= spb
    requires Silent(tx, |t.pulses|, t.length, spb)
    requires sent + length <= t.offsets[p]
    requires p > 0 ==> t.offsets[p - 1] + t.length <= sent
    ensures length <= |tx| && t.Continues(sent, tx[..length])
  {
    BlockBound(0, spb, |t.pulses|, Width(t.length, spb));
    var w := tx[..length];
    forall j | 0 <= j < |w| ensures t.RightAt(sent + j, w[j]) {
      assert w[j] == tx[Position(0, j, Width(t.length, spb))] == SILENCE;
      var k := sent + j;
      if q :| t.Inside(q, k) { OnlyPulse(t, spb, p, q, k); }
    }
  }

  /** From the end of each pulse, the distance to the next one fits into 32 bits. */
  predicate Fits(offsets: seq<nat>, length: nat, spb: nat)
    requires |offsets| > 0
  {
    && offsets[0] < 0x8000_0000 && length + 2 * spb < 0x8000_0000
    && forall p :: 0 <= p < |offsets| - 1 ==> offsets[p + 1] < offsets[p] + length + 0x8000_0000
  }

  /** Pulse times with room for a packet in between and gaps that fit into 32 bits. */
  predicate Timed(offsets: seq<nat>, length: nat, spb: nat)
    requires |offsets| > 0
  {
    && Fits(offsets, length, spb)
    && forall p :: 0 <= p < |offsets| - 1 ==> offsets[p] + length + spb - 1 <= offsets[p + 1]
  }

  /** The distance to the current pulse is not truncated. */
  lemma DistanceFits(offsets: seq<nat>, length: nat, spb: nat, p: nat, sent: nat)
    requires p < |offsets| && Fits(offsets, length, spb)
    requires sent < offsets[|offsets| - 1] + length - 1
    requires p > 0 ==> offsets[p - 1] + length <= sent
    requires p < |offsets| - 1 ==> sent < offsets[p] + length + spb
    ensures -0x8000_0000 < offsets[p] - sent < 0x8000_0000
  {
    if p > 0 { assert offsets[p - 1 + 1] < offsets[p - 1] + length + 0x8000_0000; }
  }

  /** When a pulse is over, the next one exists and is not over. */
  lemma NextPulseAhead(offsets: seq<nat>, length: nat, spb: nat, p: nat, sent: nat)
    requires p < |offsets| && Timed(offsets, length, spb) && spb > 0 && length > 0
    requires sent < offsets[|offsets| - 1] + length - 1 && offsets[p] + length <= sent
    requires p < |offsets| - 1 ==> sent < offsets[p] + length + spb
    ensures p < |offsets| - 1 && sent < offsets[p + 1] + length
  {}

  /** Everything one side needs: its train, and its buffer packed with the pulses of the train. */
  ghost predicate SideReady(t: Train, tx: seq<Sample>, offsets: seq<nat>, length: nat, spb: nat) {
    && t.Valid() && t.offsets == offsets && t.length == length && t.Spaced(spb)
    && Silent(tx, |t.pulses|, length, spb) && Holds(tx, t.pulses, length, spb)
  }

  /** What one side has sent and is about to send. */
  lemma NextPacket(t: Train, tx: seq<Sample>, spb: nat, p: nat, sent: seq<Sample>, start: nat, length: nat, taken: nat)
    requires spb > 0 && SideReady(t, tx, t.offsets, t.length, spb) && t.Begins(sent) && p < |t.offsets|
    requires p > 0 ==> t.offsets[p - 1] + t.length <= |sent|
    requires 0 < taken <= length <= spb
    requires At(start, length) == Intended(t.offsets[p] - |sent|, length, spb, p, Width(t.length, spb))
    ensures start + length <= |tx| && t.Begins(sent + tx[start..start + taken])
  {
    if length >= t.offsets[p] - |sent| {
      PacketInBlock(t, tx, spb, p, |sent|, start, length);
    } else {
      SilentPacket(t, tx, spb, p, |sent|, length);
    }
    assert tx[start..start + taken] == tx[start..start + length][..taken];
    AppendPacket(t, sent, tx[start..start + taken]);
  }

  /** Data packets: not empty, at most spb samples, inside every buffer; only the first one starts
      the burst and none ends it. */
  predicate InBounds(packets: seq<Packet>, buffers: seq<seq<Sample>>, spb: nat) {
    forall i :: 0 <= i < |packets| ==>
      && packets[i].startOfBurst == (i == 0) && !packets[i].endOfBurst && 0 < packets[i].length <= spb
      && forall d :: 0 <= d < |buffers| ==> packets[i].start + packets[i].length <= |buffers[d]|
  }

  lemma OneMore(packets: seq<Packet>, buffers: seq<seq<Sample>>, spb: nat, start: nat, length: nat)
    requires InBounds(packets, buffers, spb) && 0 < length <= spb
    requires forall d :: 0 <= d < |buffers| ==> start + length <= |buffers[d]|
    ensures InBounds(packets + [Packet(start, length, packets == [], false)], buffers, spb)
  {}

  /** What the worker decides for one packet: the current pulse is over, or a position and a length. */
  datatype Aim = Over | At(start: nat, length: int)

  /** Given the distance to the current pulse, how far the worker takes it to lie behind, and the
      length of the packet. */
  function Aimed(toPulse: int, behind: int, toSend: int, length: int, spb: nat, pulseIdx: nat, padded: nat): Aim
    requires toSend <= spb
  {
    if toSend < toPulse then At(0, toSend)
    else if behind < length then At(Position(pulseIdx, spb - toPulse, padded), toSend)
    else Over
  }

  function ToSend(rest: int, spb: nat): (n: int)
    requires rest >= 0
    ensures n <= spb
  {
    Int32(if rest < spb then rest else spb)
  }

  /** With the conversions to 32 bits of the worker, the distance being d. */
  function Decide(d: int, toSend: int, spb: nat, pulseIdx: nat, padded: nat): Aim
    requires toSend <= spb
  {
    Aimed(Int32(d), Int32(Int32(d) * -1), toSend, Int32(padded - 2 * spb), spb, pulseIdx, padded)
  }

  /** With the distance as it is. */
  function Intended(d: int, toSend: int, spb: nat, pulseIdx: nat, padded: nat): Aim
    requires toSend <= spb
  {
    Aimed(d, -d, toSend, padded - 2 * spb, spb, pulseIdx, padded)
  }

  /** One packet is aimed as intended exactly if the distance fits into 32 bits, or is truncated to one
      that is out of reach as well, or the first padding is hit by chance. */
  lemma AimsRightIff(d: int, toSend: nat, spb: nat, pulseIdx: nat, padded: nat)
    requires -0x8000_0000 < d && toSend <= spb && 2 * spb < padded < 0x8000_0000
    ensures Decide(d, toSend, spb, pulseIdx, padded) == Intended(d, toSend, spb, pulseIdx, padded) <==>
              d < 0x8000_0000 || Int32(d) > toSend || (pulseIdx == 0 && Int32(d) == toSend == spb)
  {
    if pulseIdx > 0 { assert Position(pulseIdx, spb - toSend, padded) > 0; }
  }

  /** What happens to a pulse that is 2^31 samples away or more, up to 2^32 + 2^31: at 2^31 the worker
      reads far behind the block of the pulse, beyond that the pulse is taken to be over before it
      began, and when the distance wraps to a small one, it is sent 2^32 samples early. */
  lemma FarPulse(d: int, toSend: nat, spb: nat, pulseIdx: nat, padded: nat)
    requires 0x8000_0000 <= d < 0x1_8000_0000 && toSend <= spb && 2 * spb < padded < 0x8000_0000
    ensures Intended(d, toSend, spb, pulseIdx, padded) == At(0, toSend)
    ensures Decide(d, toSend, spb, pulseIdx, padded) ==
              if d == 0x8000_0000 then At(Position(pulseIdx, spb + 0x8000_0000, padded), toSend)
              else if d <= 0x1_0000_0000 - (padded - 2 * spb) then Over
              else if d <= 0x1_0000_0000 + toSend then Decide(d - 0x1_0000_0000, toSend, spb, pulseIdx, padded)
              else At(0, toSend)
  {}

  /** The intended packet starts at the right place of the block of pulse p, or in the first padding if
      the pulse is out of its reach. */
  predicate Aims(offsets: seq<nat>, padded: nat, spb: nat, p: nat, accumulated: nat, start: nat, length: nat)
    requires p < |offsets|
  {
    && 0 < length <= spb
    && At(start, length) == Intended(offsets[p] - accumulated, length, spb, p, padded)
  }

  /** One call of send() on all sides; it may accept fewer samples than it is offered. */
  method Send(ghost trains: seq<Train>, buffers: seq<seq<Sample>>, ghost offsets: seq<nat>, ghost padded: nat,
              ghost spb: nat, ghost pulseIdx: nat, sent: seq<seq<Sample>>, start: nat, length: nat)
    returns (after: seq<seq<Sample>>, accepted: nat)
    requires 0 < length <= spb && padded > 2 * spb && |trains| == |buffers| == |sent| > 0 && pulseIdx < |offsets|
    requires forall d :: 0 <= d < |trains| ==>
      && SideReady(trains[d], buffers[d], offsets, padded - 2 * spb, spb)
      && |sent[d]| == |sent[0]| && trains[d].Begins(sent[d])
    requires pulseIdx > 0 ==> offsets[pulseIdx - 1] + padded - 2 * spb <= |sent[0]|
    requires Aims(offsets, padded, spb, pulseIdx, |sent[0]|, start, length)
    ensures 0 < accepted <= length && |after| == |sent|
    ensures forall d :: 0 <= d < |buffers| ==> start + length <= |buffers[d]|
    ensures forall d :: 0 <= d < |after| ==>
              |after[d]| == |sent[0]| + accepted && trains[d].Valid() && trains[d].Begins(after[d])
  {
    accepted :| 0 < accepted <= length;
    forall d | 0 <= d < |trains|
      ensures start + length <= |buffers[d]|
      ensures trains[d].Begins(sent[d] + buffers[d][start..start + accepted])
    {
      NextPacket(trains[d], buffers[d], spb, pulseIdx, sent[d], start, length, accepted);
    }
    after := seq(|sent|, d requires 0 <= d < |sent| => sent[d] + buffers[d][start..start + accepted]);
  }

  method SampleIndex(pulseIdx: nat, padded: nat, spb: nat, toPulse: int) returns (idx: nat)
    requires toPulse <= spb
    ensures idx == Position(pulseIdx, spb - toPulse, padded)
  {
    BlocksAre(pulseIdx, padded);
    idx := spb - toPulse + pulseIdx * padded;
  }

  /** Where the worker is between two packets: pulses before pulseIdx are over, and the current
      one is not over by more than a packet. */
  predicate Underway(offsets: seq<nat>, length: nat, spb: nat, pulseIdx: nat, accumulated: nat) {
    && pulseIdx < |offsets|
    && (pulseIdx > 0 ==> offsets[pulseIdx - 1] + length <= accumulated)
    && (pulseIdx < |offsets| - 1 ==> accumulated < offsets[pulseIdx] + length + spb)
  }

  /** Length of the next packet and its place in the buffer, unless the current pulse is over. */
  method Locate(offsets: seq<nat>, padded: nat, spb: nat, pulseIdx: nat, accumulated: nat, total: int)
    returns (over: bool, sampleIdx: nat, toSend: int)
    requires pulseIdx < |offsets| && accumulated < total
    ensures toSend == ToSend(total - accumulated, spb)
    ensures (if over then Over else At(sampleIdx, toSend))
            == Decide(offsets[pulseIdx] - accumulated, toSend, spb, pulseIdx, padded)
  {
    var samplesPerPulse := Int32(padded - 2 * spb);
    over, sampleIdx := false, 0;
    toSend := Int32(if total - accumulated < spb then total - accumulated else spb);
    var toPulse := Int32(offsets[pulseIdx] - accumulated);
    if toSend >= toPulse {
      if Int32(toPulse * -1) < samplesPerPulse {
        sampleIdx := SampleIndex(pulseIdx, padded, spb, toPulse);
      } else {
        over := true;
      }
    }
  }

  /** While the worker is underway, it decides as intended: it goes on to the next pulse, or its packet
      is aimed right. */
  lemma Located(offsets: seq<nat>, length: nat, spb: nat, p: nat, accumulated: nat, total: int)
    requires spb > 0 && length > 0 && |offsets| > 0 && Timed(offsets, length, spb)
    requires total == offsets[|offsets| - 1] + length - 1 && accumulated < total
    requires Underway(offsets, length, spb, p, accumulated)
    ensures 0 < ToSend(total - accumulated, spb) <= total - accumulated
    ensures match Decide(offsets[p] - accumulated, ToSend(total - accumulated, spb), spb, p, Width(length, spb))
            case Over => Underway(offsets, length, spb, p + 1, accumulated)
            case At(start, n) => n > 0 && Aims(offsets, Width(length, spb), spb, p, accumulated, start, n)
  {
    DistanceFits(offsets, length, spb, p, accumulated);
    if Decide(offsets[p] - accumulated, ToSend(total - accumulated, spb), spb, p, Width(length, spb)).Over? {
      NextPulseAhead(offsets, length, spb, p, accumulated);
    }
  }

  lemma LocatedPadded(offsets: seq<nat>, padded: nat, spb: nat, p: nat, accumulated: nat, total: int)
    requires spb > 0 && padded > 2 * spb && |offsets| > 0 && Timed(offsets, padded - 2 * spb, spb)
    requires total == offsets[|offsets| - 1] + padded - 2 * spb - 1 && accumulated < total
    requires Underway(offsets, padded - 2 * spb, spb, p, accumulated)
    ensures 0 < ToSend(total - accumulated, spb) <= total - accumulated
    ensures match Decide(offsets[p] - accumulated, ToSend(total - accumulated, spb), spb, p, padded)
            case Over => Underway(offsets, padded - 2 * spb, spb, p + 1, accumulated)
            case At(start, n) => n > 0 && Aims(offsets, padded, spb, p, accumulated, start, n)
  {
    assert Width(padded - 2 * spb, spb) == padded;
    Located(offsets, padded - 2 * spb, spb, p, accumulated, total);
  }

  /** The packet loop for all sides (one buffer each). send() may accept fewer samples than it was
      offered, but at least one. What leaves each side is the pulse train of that side. */
  method Transmit(ghost trains: seq<Train>, buffers: seq<seq<Sample>>, offsets: seq<nat>, padded: nat, spb: nat)
    returns (sent: seq<seq<Sample>>, packets: seq<Packet>)
    requires spb > 0 && padded > 2 * spb && |trains| == |buffers| > 0
    requires |offsets| > 0 && Timed(offsets, padded - 2 * spb, spb)
    requires forall d :: 0 <= d < |trains| ==> SideReady(trains[d], buffers[d], offsets, padded - 2 * spb, spb)
    ensures |sent| == |trains|
    ensures forall d :: 0 <= d < |trains| ==>
              trains[d].Valid() && |sent[d]| == trains[d].Total() && trains[d].Begins(sent[d])
    ensures |packets| > 0 && packets[|packets| - 1] == Packet(0, 0, |packets| == 1, true)
    ensures InBounds(packets[..|packets| - 1], buffers, spb)
  {
    var total := offsets[|offsets| - 1] + Int32(padded - 2 * spb) - 1;
    var accumulated := 0;
    var pulseIdx := 0;
    var startOfBurst := true;
    sent := seq(|buffers|, d => []);
    packets := [];
    while accumulated < total
      invariant 0 <= accumulated <= total && 0 <= pulseIdx
      invariant Underway(offsets, padded - 2 * spb, spb, pulseIdx, accumulated)
      invariant |sent| == |trains|
      invariant forall d :: 0 <= d < |trains| ==> |sent[d]| == accumulated && trains[d].Begins(sent[d])
      invariant startOfBurst == (packets == [])
      invariant InBounds(packets, buffers, spb)
      decreases total - accumulated, |offsets| - pulseIdx
    {
      LocatedPadded(offsets, padded, spb, pulseIdx, accumulated, total);
      var over, sampleIdx, toSend := Locate(offsets, padded, spb, pulseIdx, accumulated, total);
      if over {
        pulseIdx := pulseIdx + 1;
        continue;
      }
      var accepted;
      sent, accepted := Send(trains, buffers, offsets, padded, spb, pulseIdx, sent, sampleIdx, toSend);
      OneMore(packets, buffers, spb, sampleIdx, toSend);
      packets := packets + [Packet(sampleIdx, toSend, startOfBurst, false)];
      startOfBurst := false;
      accumulated := accumulated + accepted;
    }
    packets := packets + [Packet(0, 0, startOfBurst, true)];
  }

  // ---------------------------------------------------------------- USRP_SETUP

  /** std::vector::resize */
  function Resize(v: seq<Sample>, n: nat): (r: seq<Sample>)
    ensures |r| == n
    ensures forall k :: 0 <= k < n ==> r[k] == if k < |v| then v[k] else SILENCE
  {
    if n <= |v| then v[..n] else v + seq(n - |v|, _ => SILENCE)
  }

  /** Pulse p in shared memory, where the pulses lie side by side. */
  function PulseOf(shm: seq<Sample>, p: nat, n: nat, length: nat): (pulse: seq<Sample>)
    requires p < n && Blocks(n, length) <= |shm|
    ensures |pulse| == length
  {
    BlocksMonotone(p + 1, n, length);
    shm[Blocks(p, length)..Blocks(p + 1, length)]
  }

  function PulsesOf(shm: seq<Sample>, n: nat, length: nat): (pulses: seq<seq<Sample>>)
    requires Blocks(n, length) <= |shm|
    ensures |pulses| == n && forall p :: 0 <= p < n ==> pulses[p] == PulseOf(shm, p, n, length)
  {
    seq(n, p requires 0 <= p < n => PulseOf(shm, p, n, length))
  }

  /** What is outside the pulses is what resize left there. */
  ghost predicate Outside(tx: seq<Sample>, was: seq<Sample>, n: nat, length: nat, spb: nat) {
    && |tx| == |was| == Blocks(n, Width(length, spb))
    && forall p: nat, r: nat ::
         p < n && (r < spb || spb + length <= r < Width(length, spb)) ==>
         Position(p, r, Width(length, spb)) < |tx| ==>
         tx[Position(p, r, Width(length, spb))] == was[Position(p, r, Width(length, spb))]
  }

  /** The first m pulses have been copied. */
  ghost predicate HoldsFirst(tx: seq<Sample>, shm: seq<Sample>, m: nat, n: nat, length: nat, spb: nat)
    requires m <= n && Blocks(n, length) <= |shm|
  {
    forall p: nat, r: nat ::
      p < m && spb <= r < spb + length ==>
      Position(p, r, Width(length, spb)) < |tx| ==>
      tx[Position(p, r, Width(length, spb))] == PulseOf(shm, p, n, length)[r - spb]
  }

  /** One memcpy into the block of pulse m. */
  lemma CopyPulse(was: seq<Sample>, tx: seq<Sample>, tx': seq<Sample>, shm: seq<Sample>,
                  m: nat, n: nat, length: nat, spb: nat)
    requires m < n && Blocks(n, length) <= |shm|
    requires Outside(tx, was, n, length, spb) && HoldsFirst(tx, shm, m, n, length, spb)
    requires var a := Position(m, spb, Width(length, spb));
      a + length <= |tx| && tx' == tx[..a] + PulseOf(shm, m, n, length) + tx[a + length..]
    ensures Outside(tx', was, n, length, spb) && HoldsFirst(tx', shm, m + 1, n, length, spb)
  {
    var w := Width(length, spb);
    var a := Position(m, spb, w);
    forall p: nat, r: nat | p < n && r < w && Position(p, r, w) < |tx|
      ensures tx'[Position(p, r, w)] ==
              if p == m && spb <= r < spb + length then PulseOf(shm, m, n, length)[r - spb] else tx[Position(p, r, w)]
    {
      if a <= Position(p, r, w) < a + length {
        BlocksDisjoint(p, r, m, Position(p, r, w) - a + spb, w);
      }
    }
  }

  /** Sample r of pulse p is sample p * length + r in shared memory. */
  lemma PulseSample(shm: seq<Sample>, p: nat, r: nat, n: nat, length: nat)
    requires p < n && r < length && Blocks(n, length) <= |shm|
    ensures p * length + r < |shm| && PulseOf(shm, p, n, length)[r] == shm[p * length + r]
  {
    BlocksAre(p, length);
    BlockBound(p, r, n, length);
  }

  /** Sample r of pulse p is behind p padded pulses and one padding. */
  predicate CopiedAt(tx: seq<Sample>, shm: seq<Sample>, p: nat, r: nat, length: nat, spb: nat) {
    && spb + p * (length + 2 * spb) + r < |tx| && p * length + r < |shm|
    && tx[spb + p * (length + 2 * spb) + r] == shm[p * length + r]
  }

  ghost predicate Copied(tx: seq<Sample>, shm: seq<Sample>, n: nat, length: nat, spb: nat) {
    |tx| == n * (length + 2 * spb) && forall p: nat, r: nat :: p < n && r < length ==> CopiedAt(tx, shm, p, r, length, spb)
  }

  lemma HoldsIsCopied(tx: seq<Sample>, shm: seq<Sample>, n: nat, length: nat, spb: nat)
    requires Blocks(n, length) <= |shm| && Holds(tx, PulsesOf(shm, n, length), length, spb)
    ensures Copied(tx, shm, n, length, spb)
  {
    var w := Width(length, spb);
    BlocksAre(n, w);
    forall p: nat, r: nat | p < n && r < length ensures CopiedAt(tx, shm, p, r, length, spb) {
      PulseSample(shm, p, r, n, length);
      PositionIs(p, spb + r, w);
      BlockBound(p, spb + r, n, w);
    }
  }

  method PackSide(side: seq<Sample>, shm: seq<Sample>, n: nat, length: nat, spb: nat) returns (tx: seq<Sample>)
    requires Blocks(n, length) <= |shm|
    ensures Outside(tx, Resize(side, Blocks(n, Width(length, spb))), n, length, spb)
    ensures Holds(tx, PulsesOf(shm, n, length), length, spb) && Copied(tx, shm, n, length, spb)
  {
    var w := Width(length, spb);
    tx := Resize(side, Blocks(n, w));
    ghost var was := tx;
    for p := 0 to n
      invariant Outside(tx, was, n, length, spb) && HoldsFirst(tx, shm, p, n, length, spb)
    {
      var a := Position(p, spb, w);
      BlocksMonotone(p + 1, n, w);
      ghost var before := tx;
      tx := tx[..a] + PulseOf(shm, p, n, length) + tx[a + length..];
      CopyPulse(was, before, tx, shm, p, n, length, spb);
    }
    HoldsIsCopied(tx, shm, n, length, spb);
  }

  /** Sample k that was sent: of the pulse that is due, as it lies in shared memory, or silence. */
  ghost predicate SentAt(sent: seq<Sample>, shm: seq<Sample>, offsets: seq<nat>, length: nat, k: nat) {
    && k < |sent|
    && (forall p :: 0 <= p < |offsets| && offsets[p] <= k < offsets[p] + length ==>
          var i := p * length + (k - offsets[p]); i < |shm| && sent[k] == shm[i])
    && ((forall p :: 0 <= p < |offsets| ==> k < offsets[p] || offsets[p] + length <= k) ==> sent[k] == Sample(0, 0))
  }

  ghost predicate SentRight(sent: seq<Sample>, shm: seq<Sample>, offsets: seq<nat>, length: nat) {
    && |offsets| > 0 && |sent| == offsets[|offsets| - 1] + length - 1
    && forall k: nat :: k < |sent| ==> SentAt(sent, shm, offsets, length, k)
  }

  lemma TrainSent(sent: seq<Sample>, shm: seq<Sample>, offsets: seq<nat>, length: nat)
    requires length > 0 && |offsets| > 0 && Blocks(|offsets|, length) <= |shm|
    requires var t := Train(PulsesOf(shm, |offsets|, length), offsets, length);
      t.Valid() && |sent| == t.Total() && t.Begins(sent)
    ensures SentRight(sent, shm, offsets, length)
  {
    var t := Train(PulsesOf(shm, |offsets|, length), offsets, length);
    forall k: nat | k < |sent| ensures SentAt(sent, shm, offsets, length, k) {
      assert t.RightAt(0 + k, sent[k]);
      forall p | 0 <= p < |offsets| && offsets[p] <= k < offsets[p] + length
        ensures var i := p * length + (k - offsets[p]); i < |shm| && sent[k] == shm[i]
      {
        assert t.Inside(p, k);
        PulseSample(shm, p, k - offsets[p], |offsets|, length);
      }
    }
  }

  /** Element i of a buffer of n blocks belongs to a pulse. */
  ghost predicate InPulse(i: int, n: nat, length: nat, spb: nat) {
    exists p: nat, r: nat :: p < n && spb <= r < spb + length && i == Position(p, r, Width(length, spb))
  }

  lemma InPulseOnly(p: nat, r: nat, n: nat, length: nat, spb: nat)
    requires p < n && r < Width(length, spb)
    ensures InPulse(Position(p, r, Width(length, spb)), n, length, spb) <==> spb <= r < spb + length
  {
    var w := Width(length, spb);
    if InPulse(Position(p, r, w), n, length, spb) {
      var q: nat, k: nat :| q < n && spb <= k < spb + length && Position(p, r, w) == Position(q, k, w);
      BlocksDisjoint(p, r, q, k, w);
    }
  }

  /** What USRP_SETUP makes of any buffer: its padding is silent exactly if every sample of the old
      buffer that is not silent, and not cut off, lies where the new layout has a pulse. */
  lemma PaddingIff(side: seq<Sample>, tx: seq<Sample>, n: nat, length: nat, spb: nat)
    requires Outside(tx, Resize(side, Blocks(n, Width(length, spb))), n, length, spb)
    ensures Silent(tx, n, length, spb) <==>
            forall i :: 0 <= i < |side| && i < Blocks(n, Width(length, spb)) && side[i] != SILENCE ==>
              InPulse(i, n, length, spb)
  {
    var w := Width(length, spb);
    if Silent(tx, n, length, spb) {
      forall i: nat | i < |side| && i < Blocks(n, w) && side[i] != SILENCE ensures InPulse(i, n, length, spb) {
        var p, r := Split(i, n, w);
        assert tx[Position(p, r, w)] == side[i] || spb <= r < spb + length;
      }
    } else {
      var p: nat, r: nat :| p < n && (r < spb || spb + length <= r < length + 2 * spb)
                            && Position(p, r, w) < |tx| && tx[Position(p, r, w)] != SILENCE;
      InPulseOnly(p, r, n, length, spb);
      assert side[Position(p, r, w)] != SILENCE;
    }
  }

  /** Every pulse of m pulses of one length is cut off by n pulses of the new length, or falls into one
      of them. */
  ghost predicate Nested(m: nat, was: nat, n: nat, length: nat, spb: nat) {
    forall k: nat :: k < m ==>
      Blocks(n, Width(length, spb)) <= Position(k, spb, Width(was, spb)) || NestedIn(k, was, n, length, spb)
  }

  ghost predicate NestedIn(k: nat, was: nat, n: nat, length: nat, spb: nat) {
    exists q: nat :: q < n && Blocks(q, Width(length, spb)) <= Blocks(k, Width(was, spb))
                     && Blocks(k, Width(was, spb)) + was <= Blocks(q, Width(length, spb)) + length
  }

  /** Packed and silent between the pulses, and no sample of a pulse is silent. */
  ghost predicate Loud(side: seq<Sample>, m: nat, length: nat, spb: nat) {
    && Silent(side, m, length, spb)
    && forall i :: 0 <= i < |side| && InPulse(i, m, length, spb) ==> side[i] != SILENCE
  }

  /** So a caller can tell from the numbers and lengths of the previous and the new pulses whether the
      padding stays silent. */
  lemma PaddingKeptIff(side: seq<Sample>, tx: seq<Sample>, m: nat, was: nat, n: nat, length: nat, spb: nat)
    requires spb > 0 && was > 0 && Loud(side, m, was, spb)
    requires Outside(tx, Resize(side, Blocks(n, Width(length, spb))), n, length, spb)
    ensures Silent(tx, n, length, spb) <==> Nested(m, was, n, length, spb)
  {
    PaddingIff(side, tx, n, length, spb);
    if Nested(m, was, n, length, spb) {
      forall i: nat | i < |side| && i < Blocks(n, Width(length, spb)) && side[i] != SILENCE
        ensures InPulse(i, n, length, spb)
      {
        NestedSample(side, i, m, was, n, length, spb);
      }
    } else {
      var k: nat :| k < m && Position(k, spb, Width(was, spb)) < Blocks(n, Width(length, spb))
                    && !NestedIn(k, was, n, length, spb);
      var i := Protruding(k, m, was, n, length, spb);
    }
  }

  lemma NestedSample(side: seq<Sample>, i: nat, m: nat, was: nat, n: nat, length: nat, spb: nat)
    requires spb > 0 && was > 0 && Silent(side, m, was, spb) && Nested(m, was, n, length, spb)
    requires i < |side| && i < Blocks(n, Width(length, spb)) && side[i] != SILENCE
    ensures InPulse(i, n, length, spb)
  {
    var k, r := Split(i, m, Width(was, spb));
    assert spb <= r < spb + was;
    NestedElement(k, r, was, n, length, spb);
  }

  lemma NestedElement(k: nat, r: nat, was: nat, n: nat, length: nat, spb: nat)
    requires spb <= r < spb + was && NestedIn(k, was, n, length, spb)
    ensures InPulse(Position(k, r, Width(was, spb)), n, length, spb)
  {
    var q: nat :| q < n && Blocks(q, Width(length, spb)) <= Blocks(k, Width(was, spb))
                  && Blocks(k, Width(was, spb)) + was <= Blocks(q, Width(length, spb)) + length;
    var s := Position(k, r, Width(was, spb)) - Blocks(q, Width(length, spb));
    assert spb <= s < spb + length && Position(k, r, Width(was, spb)) == Position(q, s, Width(length, spb));
  }

  /** A pulse that begins before the end of the new buffer and does not fall into one of its pulses
      leaves a sample in a padding: its first one, or the one behind the pulse it begins in. */
  lemma Protruding(k: nat, m: nat, was: nat, n: nat, length: nat, spb: nat) returns (i: nat)
    requires spb > 0 && was > 0 && k < m && !NestedIn(k, was, n, length, spb)
    requires Position(k, spb, Width(was, spb)) < Blocks(n, Width(length, spb))
    ensures i < Blocks(m, Width(was, spb)) && i < Blocks(n, Width(length, spb))
    ensures InPulse(i, m, was, spb) && !InPulse(i, n, length, spb)
  {
    var w, v := Width(length, spb), Width(was, spb);
    i := Position(k, spb, v);
    BlockBound(k, spb, m, v);
    InPulseOnly(k, spb, m, was, spb);
    var q, r := Split(i, n, w);
    InPulseOnly(q, r, n, length, spb);
    if spb <= r < spb + length {
      assert Blocks(q, w) <= Blocks(k, v);
      i := Position(q, spb + length, w);
      BlockBound(q, spb + length, n, w);
      InPulseOnly(q, spb + length, n, length, spb);
      var s := i - Blocks(k, v);
      assert spb <= s < spb + was && i == Position(k, s, v);
      BlockBound(k, s, m, v);
      InPulseOnly(k, s, m, was, spb);
    }
  }

  /** With two pulses or more before and after, the padding stays silent if the length is the same, and
      otherwise at most if the first two old pulses and the padding between them fall into the first new
      one: not when the length changes by less than itself and twice the packet length. */
  lemma LengthsNested(m: nat, was: nat, n: nat, length: nat, spb: nat)
    requires spb > 0 && was > 0 && m >= 2 && n >= 2
    ensures Nested(m, was, n, length, spb) ==> length == was || length >= 2 * was + 2 * spb
    ensures length == was ==> Nested(m, was, n, length, spb)
  {
    var w, v := Width(length, spb), Width(was, spb);
    TwoBlocks(w, n);
    TwoBlocks(v, m);
    if Nested(m, was, n, length, spb) {
      NestedOnly(0, was, n, length, spb);
      NestedOnly(1, was, n, length, spb);
    }
    if length == was {
      forall k: nat | k < m && Position(k, spb, v) < Blocks(n, w) ensures NestedIn(k, was, n, length, spb) {
        if n <= k { BlocksMonotone(n, k, w); }
      }
    }
  }

  lemma TwoBlocks(w: nat, n: nat)
    requires n >= 2
    ensures Blocks(0, w) == 0 && Blocks(1, w) == w && Blocks(2, w) == 2 * w && Blocks(n, w) >= 2 * w
  {
    BlocksMonotone(2, n, w);
    assert Blocks(1, w) == Blocks(0, w) + w && Blocks(2, w) == Blocks(1, w) + w;
  }

  /** Where the first two old pulses may lie. */
  lemma NestedOnly(k: nat, was: nat, n: nat, length: nat, spb: nat)
    requires spb > 0 && was > 0 && k <= 1 && n >= 2
    requires Blocks(n, Width(length, spb)) <= Position(k, spb, Width(was, spb)) || NestedIn(k, was, n, length, spb)
    requires k == 1 ==> was <= length
    ensures k == 0 ==> was <= length
    ensures k == 1 ==> length == was || length >= 2 * was + 2 * spb
  {
    var w, v := Width(length, spb), Width(was, spb);
    TwoBlocks(w, n);
    TwoBlocks(v, 2);
    if NestedIn(k, was, n, length, spb) {
      var q: nat :| q < n && Blocks(q, w) <= Blocks(k, v) && Blocks(k, v) + was <= Blocks(q, w) + length;
      if q >= 1 { BlocksMonotone(1, q, w); }
      if q >= 2 { BlocksMonotone(2, q, w); }
    }
  }

  /** In particular, when the length changes by no more than a packet, longer or shorter, the padding
      stays silent exactly if it does not change at all. */
  lemma LengthChanged(side: seq<Sample>, tx: seq<Sample>, m: nat, was: nat, n: nat, length: nat, spb: nat)
    requires spb > 0 && was > 0 && m >= 2 && n >= 2 && length < 2 * was + 2 * spb && Loud(side, m, was, spb)
    requires Outside(tx, Resize(side, Blocks(n, Width(length, spb))), n, length, spb)
    ensures Silent(tx, n, length, spb) <==> length == was
  {
    PaddingKeptIff(side, tx, m, was, n, length, spb);
    LengthsNested(m, was, n, length, spb);
  }

  /** That is so if the buffer was last packed with pulses of the same length, however many. */
  lemma PaddingSurvivesResize(side: seq<Sample>, m: nat, n: nat, length: nat, spb: nat)
    requires Silent(side, m, length, spb)
    ensures Silent(Resize(side, Blocks(n, Width(length, spb))), n, length, spb)
  {
    var w := Width(length, spb);
    var r := Resize(side, Blocks(n, w));
    forall p: nat, k: nat | p < n && (k < spb || spb + length <= k < w) && Position(p, k, w) < |r|
      ensures r[Position(p, k, w)] == SILENCE
    {
      if p >= m { BlocksMonotone(m, p, w); }
    }
  }

  /** When the pulses become longer by at most two packets, the first sample of the second pulse ends up
      in a padding. */
  lemma PaddingLostLonger(side: seq<Sample>, tx: seq<Sample>, m: nat, n: nat, shorter: nat, length: nat, spb: nat)
    requires m >= 2 && n >= 2 && shorter > 0 && shorter < length <= shorter + 2 * spb
    requires |side| == Blocks(m, Width(shorter, spb)) && Position(1, spb, Width(shorter, spb)) < |side|
    requires side[Position(1, spb, Width(shorter, spb))] != SILENCE
    requires Outside(tx, Resize(side, Blocks(n, Width(length, spb))), n, length, spb)
    ensures !Silent(tx, n, length, spb)
  {
    var i, w := Position(1, spb, Width(shorter, spb)), Width(length, spb);
    TwoBlocks(w, n);
    TwoBlocks(Width(shorter, spb), m);
    PaddingIff(side, tx, n, length, spb);
    if i < w { InPulseOnly(0, i, n, length, spb); } else { InPulseOnly(1, i - w, n, length, spb); }
    assert i == if i < w then Position(0, i, w) else Position(1, i - w, w);
  }

  /** It is not so when the pulses become shorter: what is left of the longer first pulse ends up
      in the padding of the shorter one. */
  lemma PaddingLost(side: seq<Sample>, tx: seq<Sample>, m: nat, n: nat, longer: nat, length: nat, spb: nat)
    requires m > 0 && n > 0 && spb > 0 && length < longer
    requires |side| == Blocks(m, Width(longer, spb)) && Position(0, spb + length, Width(longer, spb)) < |side|
    requires side[Position(0, spb + length, Width(longer, spb))] != SILENCE
    requires Outside(tx, Resize(side, Blocks(n, Width(length, spb))), n, length, spb)
    ensures !Silent(tx, n, length, spb)
  {
    var w := Width(length, spb);
    BlockBound(0, spb + length, n, w);
    assert tx[Position(0, spb + length, w)] == side[Position(0, spb + length, Width(longer, spb))];
  }

  /** The tx_samples vectors of the driver, one per side. */
  class Driver {
    var txSamples: seq<seq<Sample>>
    ghost var packed: nat

    constructor (sides: nat)
      ensures |txSamples| == sides && forall length, spb :: Clean(length, spb)
    {
      txSamples := seq(sides, d => []);
      packed := 0;
    }

    ghost predicate Clean(length: nat, spb: nat)
      reads this
    {
      forall d :: 0 <= d < |txSamples| ==> Silent(txSamples[d], packed, length, spb)
    }

    /** Copies the pulses from shared memory between the paddings. */
    method Setup(shm: seq<seq<Sample>>, n: nat, length: nat, spb: nat)
      requires |shm| == |txSamples| && forall d :: 0 <= d < |shm| ==> Blocks(n, length) <= |shm[d]|
      modifies this
      ensures |txSamples| == |shm| && packed == n
      ensures forall d :: 0 <= d < |shm| ==> Holds(txSamples[d], PulsesOf(shm[d], n, length), length, spb)
      ensures forall d :: 0 <= d < |shm| ==> Copied(txSamples[d], shm[d], n, length, spb)
      ensures forall d :: 0 <= d < |shm| ==>
                Outside(txSamples[d], Resize(old(txSamples[d]), Blocks(n, Width(length, spb))), n, length, spb)
      ensures old(Clean(length, spb)) ==> Clean(length, spb)
    {
      for iSide := 0 to |txSamples|
        invariant |txSamples| == |shm| && packed == old(packed)
        invariant forall d :: 0 <= d < iSide ==>
          && Holds(txSamples[d], PulsesOf(shm[d], n, length), length, spb)
          && Copied(txSamples[d], shm[d], n, length, spb)
          && Outside(txSamples[d], Resize(old(txSamples[d]), Blocks(n, Width(length, spb))), n, length, spb)
        invariant forall d :: iSide <= d < |shm| ==> txSamples[d] == old(txSamples[d])
      {
        var tx := PackSide(txSamples[iSide], shm[iSide], n, length, spb);
        txSamples := txSamples[iSide := tx];
      }
      packed := n;
      if old(Clean(length, spb)) {
        forall d | 0 <= d < |shm| ensures Silent(txSamples[d], n, length, spb) {
          PaddingSurvivesResize(old(txSamples[d]), old(packed), n, length, spb);
          assert Outside(txSamples[d], Resize(old(txSamples[d]), Blocks(n, Width(length, spb))), n, length, spb);
        }
      }
    }

    /** One integration period, from USRP_SETUP to the end of the burst: every side sends its pulses,
        as they lie in shared memory, at the given offsets, and silence in between; and the buffer
        stays ready for the next period. */
    method SetupAndTransmit(shm: seq<seq<Sample>>, offsets: seq<nat>, length: nat, spb: nat)
      returns (sent: seq<seq<Sample>>)
      requires |shm| == |txSamples| > 0 && spb > 0 && length > 0 && |offsets| > 0
      requires forall d :: 0 <= d < |shm| ==> Blocks(|offsets|, length) <= |shm[d]|
      requires Clean(length, spb) && Timed(offsets, length, spb)
      modifies this
      ensures Clean(length, spb) && |txSamples| == old(|txSamples|) == |sent|
      ensures forall d :: 0 <= d < |shm| ==>
        var t := Train(PulsesOf(shm[d], |offsets|, length), offsets, length);
        t.Valid() && |sent[d]| == t.Total() && t.Begins(sent[d])
      ensures forall d :: 0 <= d < |shm| ==> SentRight(sent[d], shm[d], offsets, length)
    {
      Setup(shm, |offsets|, length, spb);
      ghost var trains := seq(|shm|, d requires 0 <= d < |shm| =>
        Train(PulsesOf(shm[d], |offsets|, length), offsets, length));
      forall d | 0 <= d < |shm| ensures SideReady(trains[d], txSamples[d], offsets, length, spb) {
        var t := trains[d];
        assert t.Valid() && t.Spaced(spb);
      }
      var packets;
      sent, packets := Transmit(trains, txSamples, offsets, length + 2 * spb, spb);
      forall d | 0 <= d < |shm| ensures SentRight(sent[d], shm[d], offsets, length) {
        assert trains[d].Begins(sent[d]);
        TrainSent(sent[d], shm[d], offsets, length);
      }
    }
  }

  // ---------------------------------------------------------------- how much room the pulses need

  /** What one side has sent, and the pulse the worker looks at. */
  datatype Worker = Worker(sent: seq<Sample>, pulseIdx: nat)

  /** The decision of the worker in its loop. */
  function NextAim(t: Train, spb: nat, w: Worker): Aim
    requires t.Valid() && |w.sent| < t.Total() && w.pulseIdx < |t.offsets|
  {
    var toSend := ToSend(t.Total() - |w.sent|, spb);
    Decide(t.offsets[w.pulseIdx] - |w.sent|, toSend, spb, w.pulseIdx, Width(t.length, spb))
  }

  /** One iteration of the packet loop, send() accepting any part of the packet. */
  ghost predicate Step(t: Train, tx: seq<Sample>, spb: nat, a: Worker, b: Worker)
    requires t.Valid()
  {
    && |a.sent| < t.Total() && a.pulseIdx < |t.offsets|
    && match NextAim(t, spb, a)
       case Over => b == a.(pulseIdx := a.pulseIdx + 1)
       case At(start, length) => start + length <= |tx| && Accepts(a, b, tx, start, length)
  }

  ghost predicate Accepts(a: Worker, b: Worker, tx: seq<Sample>, start: nat, length: int)
    requires start + length <= |tx|
  {
    b.pulseIdx == a.pulseIdx && exists n: nat :: 0 < n <= length && b.sent == Grown(a.sent, tx, start, n)
  }

  function Grown(sent: seq<Sample>, tx: seq<Sample>, start: nat, n: nat): seq<Sample>
    requires start + n <= |tx|
  {
    sent + tx[start..start + n]
  }

  ghost predicate IsRun(t: Train, tx: seq<Sample>, spb: nat, ws: seq<Worker>)
    requires t.Valid()
  {
    |ws| > 0 && ws[0] == Worker([], 0) && forall k :: 0 <= k < |ws| - 1 ==> Step(t, tx, spb, ws[k], ws[k + 1])
  }

  /** However little send() accepts, what was sent is the beginning of the train. */
  ghost predicate AlwaysRight(t: Train, tx: seq<Sample>, spb: nat)
    requires t.Valid()
  {
    forall ws: seq<Worker> :: IsRun(t, tx, spb, ws) ==> t.Begins(ws[|ws| - 1].sent)
  }

  /** A buffer packed for the train, whose pulses do not overlap and are close enough for 32 bits. */
  ghost predicate Packed(t: Train, tx: seq<Sample>, spb: nat) {
    && t.Valid() && spb > 0 && Silent(tx, |t.pulses|, t.length, spb) && Holds(tx, t.pulses, t.length, spb)
    && Fits(t.offsets, t.length, spb)
    && forall p :: 0 <= p < |t.offsets| - 1 ==> t.offsets[p] + t.length <= t.offsets[p + 1]
  }

  lemma LocatedAim(offsets: seq<nat>, length: nat, spb: nat, p: nat, accumulated: nat, total: int) returns (aim: Aim)
    requires spb > 0 && length > 0 && |offsets| > 0 && Timed(offsets, length, spb)
    requires total == offsets[|offsets| - 1] + length - 1 && accumulated < total
    requires Underway(offsets, length, spb, p, accumulated)
    ensures aim == Decide(offsets[p] - accumulated, ToSend(total - accumulated, spb), spb, p, Width(length, spb))
    ensures match aim
            case Over => Underway(offsets, length, spb, p + 1, accumulated)
            case At(start, n) => n > 0 && Aims(offsets, Width(length, spb), spb, p, accumulated, start, n)
  {
    Located(offsets, length, spb, p, accumulated, total);
    aim := Decide(offsets[p] - accumulated, ToSend(total - accumulated, spb), spb, p, Width(length, spb));
  }

  /** The worker goes on to the next pulse, or its packet is aimed right. */
  lemma AimIsRight(t: Train, spb: nat, w: Worker) returns (aim: Aim)
    requires spb > 0 && t.Valid() && Timed(t.offsets, t.length, spb) && |w.sent| < t.Total()
    requires Underway(t.offsets, t.length, spb, w.pulseIdx, |w.sent|)
    ensures aim == NextAim(t, spb, w)
    ensures match aim
            case Over => Underway(t.offsets, t.length, spb, w.pulseIdx + 1, |w.sent|)
            case At(start, length) =>
              length > 0 && Aims(t.offsets, Width(t.length, spb), spb, w.pulseIdx, |w.sent|, start, length)
  {
    aim := LocatedAim(t.offsets, t.length, spb, w.pulseIdx, |w.sent|, t.Total());
  }

  lemma StepRight(t: Train, tx: seq<Sample>, spb: nat, a: Worker, b: Worker)
    requires spb > 0 && SideReady(t, tx, t.offsets, t.length, spb) && Timed(t.offsets, t.length, spb)
    requires Underway(t.offsets, t.length, spb, a.pulseIdx, |a.sent|) && t.Begins(a.sent)
    requires Step(t, tx, spb, a, b)
    ensures Underway(t.offsets, t.length, spb, b.pulseIdx, |b.sent|) && t.Begins(b.sent)
  {
    var aim := AimIsRight(t, spb, a);
    if aim.At? { SendRight(t, tx, spb, a, b, aim.start, aim.length); }
  }

  lemma SendRight(t: Train, tx: seq<Sample>, spb: nat, a: Worker, b: Worker, start: nat, length: nat)
    requires spb > 0 && SideReady(t, tx, t.offsets, t.length, spb)
    requires Underway(t.offsets, t.length, spb, a.pulseIdx, |a.sent|) && t.Begins(a.sent)
    requires Aims(t.offsets, Width(t.length, spb), spb, a.pulseIdx, |a.sent|, start, length)
    requires start + length <= |tx| && Accepts(a, b, tx, start, length)
    ensures Underway(t.offsets, t.length, spb, b.pulseIdx, |b.sent|) && t.Begins(b.sent)
  {
    var n: nat :| 0 < n <= length && b.sent == Grown(a.sent, tx, start, n);
    NextPacket(t, tx, spb, a.pulseIdx, a.sent, start, length, n);
  }

  lemma {:induction false} RunRight(t: Train, tx: seq<Sample>, spb: nat, ws: seq<Worker>, k: nat)
    requires Packed(t, tx, spb) && t.Spaced(spb) && IsRun(t, tx, spb, ws) && k < |ws|
    ensures Underway(t.offsets, t.length, spb, ws[k].pulseIdx, |ws[k].sent|) && t.Begins(ws[k].sent)
  {
    if k > 0 {
      RunRight(t, tx, spb, ws, k - 1);
      assert Step(t, tx, spb, ws[k - 1], ws[k - 1 + 1]);
      PackedTimed(t, tx, spb);
      StepRight(t, tx, spb, ws[k - 1], ws[k]);
    }
  }

  lemma PackedTimed(t: Train, tx: seq<Sample>, spb: nat)
    requires Packed(t, tx, spb) && t.Spaced(spb)
    ensures Timed(t.offsets, t.length, spb) && SideReady(t, tx, t.offsets, t.length, spb)
  {}

  /** The current pulse is not over, the ones before it are. */
  predicate Settled(t: Train, w: Worker)
    requires t.Valid()
  {
    && w.pulseIdx < |t.offsets| && |w.sent| < t.offsets[w.pulseIdx] + t.length
    && (w.pulseIdx > 0 ==> t.offsets[w.pulseIdx - 1] + t.length <= |w.sent|)
  }

  /** The next packet lies inside the buffer. */
  lemma SettledPacket(t: Train, tx: seq<Sample>, spb: nat, w: Worker) returns (start: nat, length: nat)
    requires Packed(t, tx, spb) && Settled(t, w) && |w.sent| < t.Total()
    ensures length == ToSend(t.Total() - |w.sent|, spb) && At(start, length) == NextAim(t, spb, w)
    ensures var d := t.offsets[w.pulseIdx] - |w.sent|;
      d <= length ==> start == Position(w.pulseIdx, spb - d, Width(t.length, spb))
    ensures 0 < length && start + length <= |tx|
  {
    var d, padded := t.offsets[w.pulseIdx] - |w.sent|, Width(t.length, spb);
    length := SettledAim(t, spb, w);
    if d <= length {
      start := Position(w.pulseIdx, spb - d, padded);
      BlockBound(w.pulseIdx, spb - d + length, |t.pulses|, padded);
    } else {
      start := 0;
      BlockBound(0, length, |t.pulses|, padded);
    }
  }

  lemma SettledAim(t: Train, spb: nat, w: Worker) returns (length: nat)
    requires t.Valid() && spb > 0 && Fits(t.offsets, t.length, spb) && Settled(t, w) && |w.sent| < t.Total()
    ensures 0 < length <= spb && length == ToSend(t.Total() - |w.sent|, spb)
    ensures var d := t.offsets[w.pulseIdx] - |w.sent|;
      NextAim(t, spb, w) == At(if d <= length then Position(w.pulseIdx, spb - d, Width(t.length, spb)) else 0, length)
  {
    DistanceFits(t.offsets, t.length, spb, w.pulseIdx, |w.sent|);
    length := ToSend(t.Total() - |w.sent|, spb);
  }

  lemma ExtendRun(t: Train, tx: seq<Sample>, spb: nat, ws: seq<Worker>, w: Worker)
    requires t.Valid() && IsRun(t, tx, spb, ws) && Step(t, tx, spb, ws[|ws| - 1], w)
    ensures IsRun(t, tx, spb, ws + [w])
  {}

  /** When send() accepts one sample at a time, every position is reached with the right pulse. */
  lemma {:induction false} SlowRun(t: Train, tx: seq<Sample>, spb: nat, accumulated: nat) returns (ws: seq<Worker>)
    requires Packed(t, tx, spb) && accumulated < t.Total()
    ensures IsRun(t, tx, spb, ws) && |ws[|ws| - 1].sent| == accumulated && Settled(t, ws[|ws| - 1])
  {
    if accumulated == 0 {
      ws := [Worker([], 0)];
    } else {
      ws := SlowRun(t, tx, spb, accumulated - 1);
      var w := ws[|ws| - 1];
      var next := OneSample(t, tx, spb, w);
      ExtendRun(t, tx, spb, ws, next);
      ws := ws + [next];
      if accumulated == t.offsets[w.pulseIdx] + t.length {
        var later := next.(pulseIdx := w.pulseIdx + 1);
        PulseDone(t, tx, spb, next, later);
        ExtendRun(t, tx, spb, ws, later);
        ws := ws + [later];
      }
    }
  }

  lemma OneSample(t: Train, tx: seq<Sample>, spb: nat, w: Worker) returns (next: Worker)
    requires Packed(t, tx, spb) && Settled(t, w) && |w.sent| < t.Total()
    ensures Step(t, tx, spb, w, next) && |next.sent| == |w.sent| + 1 && next.pulseIdx == w.pulseIdx
  {
    var start, length := SettledPacket(t, tx, spb, w);
    next := w.(sent := Grown(w.sent, tx, start, 1));
    assert Accepts(w, next, tx, start, length);
  }

  lemma PulseDone(t: Train, tx: seq<Sample>, spb: nat, w: Worker, next: Worker)
    requires Packed(t, tx, spb) && w.pulseIdx < |t.offsets| && |w.sent| < t.Total()
    requires |w.sent| == t.offsets[w.pulseIdx] + t.length && next == w.(pulseIdx := w.pulseIdx + 1)
    ensures Step(t, tx, spb, w, next) && Settled(t, next)
  {
    assert w.pulseIdx < |t.offsets| - 1;
    assert t.offsets[w.pulseIdx] + t.length <= t.offsets[w.pulseIdx + 1];
  }

  lemma {:induction false} PulsesOrdered(t: Train, tx: seq<Sample>, spb: nat, p: nat, q: nat)
    requires Packed(t, tx, spb) && p < q < |t.offsets|
    ensures t.offsets[p] + t.length <= t.offsets[q]
    decreases q
  {
    assert t.offsets[q - 1] + t.length <= t.offsets[q - 1 + 1];
    if p < q - 1 { PulsesOrdered(t, tx, spb, p, q - 1); }
  }

  /** From the last sample of pulse p, one packet covers the first sample of the next pulse, and sends
      silence for it. */
  lemma TooClose(t: Train, tx: seq<Sample>, spb: nat, ws: seq<Worker>, p: nat) returns (w: Worker)
    requires Packed(t, tx, spb) && IsRun(t, tx, spb, ws) && Settled(t, ws[|ws| - 1]) && t.length >= 2
    requires p < |t.offsets| - 1 && |ws[|ws| - 1].sent| == t.offsets[p] + t.length - 1
    requires t.offsets[p + 1] < t.offsets[p] + t.length + spb - 1 && t.pulses[p + 1][0] != SILENCE
    ensures IsRun(t, tx, spb, ws + [w]) && !t.Begins(w.sent)
  {
    var v := ws[|ws| - 1];
    PulsesOrdered(t, tx, spb, p, |t.offsets| - 1);
    SettledAt(t, tx, spb, v, p);
    w := TooLong(t, tx, spb, v, p);
    ExtendRun(t, tx, spb, ws, w);
  }

  lemma SettledAt(t: Train, tx: seq<Sample>, spb: nat, w: Worker, p: nat)
    requires Packed(t, tx, spb) && Settled(t, w) && p < |t.offsets| && |w.sent| == t.offsets[p] + t.length - 1
    ensures w.pulseIdx == p
  {
    if p < w.pulseIdx {
      if p < w.pulseIdx - 1 { PulsesOrdered(t, tx, spb, p, w.pulseIdx - 1); }
    } else if w.pulseIdx < p {
      PulsesOrdered(t, tx, spb, w.pulseIdx, p);
    }
  }

  lemma TooLong(t: Train, tx: seq<Sample>, spb: nat, v: Worker, p: nat) returns (w: Worker)
    requires Packed(t, tx, spb) && Settled(t, v) && v.pulseIdx == p && t.length >= 2
    requires p < |t.offsets| - 1 && |v.sent| == t.offsets[p] + t.length - 1 < t.Total()
    requires t.offsets[p + 1] < t.offsets[p] + t.length + spb - 1 && t.pulses[p + 1][0] != SILENCE
    ensures Step(t, tx, spb, v, w) && !t.Begins(w.sent)
  {
    var start, length := SettledPacket(t, tx, spb, v);
    var k := t.offsets[p + 1] - |v.sent|;
    NextIsDue(t, tx, spb, p);
    w := v.(sent := Grown(v.sent, tx, start, k + 1));
    assert Accepts(v, w, tx, start, length);
    SilentAfter(t, tx, spb, p, k);
    assert w.sent[t.offsets[p + 1]] == SILENCE;
    assert t.Inside(p + 1, t.offsets[p + 1]);
    assert !t.RightAt(0 + t.offsets[p + 1], w.sent[t.offsets[p + 1]]);
  }

  /** The first sample of the next pulse belongs to what is sent. */
  lemma NextIsDue(t: Train, tx: seq<Sample>, spb: nat, p: nat)
    requires Packed(t, tx, spb) && t.length >= 2 && p < |t.offsets| - 1
    ensures t.offsets[p + 1] < t.Total() && t.offsets[p] + t.length <= t.offsets[p + 1]
  {
    if p + 1 < |t.offsets| - 1 { PulsesOrdered(t, tx, spb, p + 1, |t.offsets| - 1); }
  }

  lemma SilentAfter(t: Train, tx: seq<Sample>, spb: nat, p: nat, k: nat)
    requires Packed(t, tx, spb) && p < |t.pulses| && 0 < k < spb
    ensures var i := Position(p, spb + t.length - 1, Width(t.length, spb)) + k; i < |tx| && tx[i] == SILENCE
  {
    var w := Width(t.length, spb);
    BlockBound(p, spb + t.length - 1 + k, |t.pulses|, w);
    assert Position(p, spb + t.length - 1 + k, w) == Position(p, spb + t.length - 1, w) + k;
  }

  /** Pulses that do not begin silently are sent right, whatever send() accepts, exactly if there is
      room for a packet between them. */
  lemma SpacingIff(t: Train, tx: seq<Sample>, spb: nat)
    requires Packed(t, tx, spb) && t.length >= 2
    requires forall p :: 0 <= p < |t.pulses| ==> t.pulses[p][0] != SILENCE
    ensures AlwaysRight(t, tx, spb) <==> t.Spaced(spb)
  {
    if t.Spaced(spb) {
      forall ws: seq<Worker> | IsRun(t, tx, spb, ws) ensures t.Begins(ws[|ws| - 1].sent) { RunRight(t, tx, spb, ws, |ws| - 1); }
    } else {
      var p :| 0 <= p < |t.offsets| - 1 && t.offsets[p + 1] < t.offsets[p] + t.length + spb - 1;
      PulsesOrdered(t, tx, spb, p, |t.offsets| - 1);
      var ws := SlowRun(t, tx, spb, t.offsets[p] + t.length - 1);
      var w := TooClose(t, tx, spb, ws, p);
      assert !t.Begins((ws + [w])[|ws + [w]| - 1].sent);
    }
  }

  /** So it happens in the loop when the first pulse is that far away: the worker goes on to the second
      one, or sends part of the first one at once. */
  lemma FarFirstPulse(t: Train, tx: seq<Sample>, spb: nat, w: Worker)
    requires t.Valid() && 0 < spb && t.length + 2 * spb < 0x8000_0000
    requires 0x8000_0000 < t.offsets[0] <= 0x1_0000_0000 && Step(t, tx, spb, Worker([], 0), w)
    ensures t.offsets[0] <= 0x1_0000_0000 - t.length ==> w == Worker([], 1)
    ensures t.offsets[0] > 0x1_0000_0000 - t.length ==>
              w.pulseIdx == 0 && exists start: nat, n: nat ::
                start == spb + 0x1_0000_0000 - t.offsets[0] && 0 < n <= spb && start + n <= |tx| && w.sent == Grown([], tx, start, n)
  {
    FarOffset(t, tx, spb);
  }

  lemma FarOffset(t: Train, tx: seq<Sample>, spb: nat)
    requires t.Valid() && 0 < spb && t.length + 2 * spb < 0x8000_0000 && 0x8000_0000 < t.offsets[0] <= 0x1_0000_0000
    requires t.Total() > 0
    ensures NextAim(t, spb, Worker([], 0)) ==
              if t.offsets[0] <= 0x1_0000_0000 - t.length then Over
              else At(spb + 0x1_0000_0000 - t.offsets[0], ToSend(t.Total(), spb))
  {
    FarPulse(t.offsets[0], ToSend(t.Total(), spb), spb, 0, Width(t.length, spb));
  }
}
