/** The reservation table of clear_frequency_server.c. Every clear frequency request releases the
    requesting channel's reservation, expires old ones, and reserves the band that was found, unless
    it intersects another reservation of the same radar. The table is mirrored into the list of
    restricted bands, behind the restricted_num bands that were read from a file. */
module Reservations {
  import opened Wrappers
  import opened ClearBandSearch
  import opened Division

  const RESTRICT_NUM := 50
  const MAX_AGE := 10

  const NO_BAND: Band := Band(0, 0, 0.0)

  /** radar_freq_data; a last_time of 0 means that nothing is reserved. */
  datatype Entry = Entry(band: Band, rangeLow: int, rangeHigh: int, lastTime: int) {
    function Released(): Entry { this.(band := NO_BAND, lastTime := 0) }

    predicate Expired(now: int) { lastTime != 0 && now - lastTime > MAX_AGE }
  }

  /** A request, the outcome of its search (nothing if the search was skipped, which leaves *clr_band
      as an earlier request left it), and the times of the expiry check and of the reservation. */
  datatype Request = Request(radar: nat, channel: nat, rangeLow: int, rangeHigh: int,
                             search: Option<Band>, now: int, stamp: int) {
    predicate Valid() { radar < RADAR_NUM && channel < CHANNEL_NUM && stamp != 0 }

    function Slot(): nat { radar * CHANNEL_NUM + channel }
  }

  /** Radar after radar, and within a radar channel after channel. */
  datatype Book = Book(table: seq<Entry>, restricted: seq<Band>, clrBand: Band) {
    predicate Shape(restrictedNum: nat) {
      |table| == RESERV_NUM && |restricted| == RESTRICT_NUM && restrictedNum + RESERV_NUM <= RESTRICT_NUM
    }
  }

  predicate Usable(b: Band) { b.noise != 0.0 && b.noise != RAND_MAX }

  /** The failsafe: does the new band begin or end inside the reserved one? */
  predicate Flagged(reserved: Band, b: Band) {
    || (reserved.fStart <= b.fStart && b.fStart < reserved.fEnd)
    || (reserved.fStart <= b.fEnd && b.fEnd <= reserved.fEnd)
  }

  predicate FlaggedByRadar(table: seq<Entry>, radar: nat, b: Band)
    requires |table| == RESERV_NUM && radar < RADAR_NUM
  {
    exists k :: radar * CHANNEL_NUM <= k < (radar + 1) * CHANNEL_NUM && Flagged(table[k].band, b)
  }

  // ---------------------------------------------------------------- one request

  function Release(table: seq<Entry>, slot: nat): seq<Entry>
    requires slot < |table|
  {
    table[slot := table[slot].Released()]
  }

  function Expire(table: seq<Entry>, now: int): (t: seq<Entry>)
    ensures |t| == |table|
  {
    seq(|table|, k requires 0 <= k < |table| => if table[k].Expired(now) then table[k].Released() else table[k])
  }

  /** The table without the own and without the expired reservations. */
  function Cleaned(table: seq<Entry>, slot: nat, now: int): (t: seq<Entry>)
    requires slot < |table|
    ensures |t| == |table|
  {
    Expire(Release(table, slot), now)
  }

  /** The list of restricted bands with the reservations of a table behind the restrictedNum first. */
  function Mirrored(restricted: seq<Band>, table: seq<Entry>, restrictedNum: nat): (r: seq<Band>)
    requires restrictedNum + |table| <= |restricted|
    ensures |r| == |restricted|
  {
    seq(|restricted|, k requires 0 <= k < |restricted| =>
      if restrictedNum <= k < restrictedNum + |table| then table[k - restrictedNum].band else restricted[k])
  }

  function Latest(b: Book, q: Request): Band { if q.search.Some? then q.search.value else b.clrBand }

  predicate Found(b: Book, q: Request)
    requires |b.table| == RESERV_NUM && q.Valid()
  {
    Usable(Latest(b, q)) && !FlaggedByRadar(Cleaned(b.table, q.Slot(), q.now), q.radar, Latest(b, q))
  }

  function TableAfter(b: Book, q: Request): (t: seq<Entry>)
    requires |b.table| == RESERV_NUM && q.Valid()
    ensures |t| == RESERV_NUM
  {
    var cleaned := Cleaned(b.table, q.Slot(), q.now);
    if Found(b, q) then cleaned[q.Slot() := Entry(Latest(b, q), q.rangeLow, q.rangeHigh, q.stamp)] else cleaned
  }

  function After(b: Book, q: Request, restrictedNum: nat): (t: Book)
    requires b.Shape(restrictedNum) && q.Valid()
    ensures t.Shape(restrictedNum)
  {
    Book(TableAfter(b, q), Mirrored(b.restricted, TableAfter(b, q), restrictedNum), Latest(b, q))
  }

  function Reply(b: Book, q: Request): Band
    requires |b.table| == RESERV_NUM && q.Valid()
  {
    if Found(b, q) then Latest(b, q) else NO_BAND
  }

  /** The other channel of the radar holds a reservation that is not too old, and the band begins in it,
      or ends in it or at its end. */
  predicate HeldByOther(b: Book, q: Request, found: Band)
    requires |b.table| == RESERV_NUM && q.Valid()
  {
    var e := b.table[2 * q.radar + 1 - q.channel];
    && !(e.lastTime != 0 && q.now - e.lastTime > 10)
    && ((e.band.fStart <= found.fStart < e.band.fEnd) || (e.band.fStart <= found.fEnd <= e.band.fEnd))
  }

  /** The band of the search, or the one left from an earlier request, is reserved with the searched
      frequencies and the time exactly if its noise is neither 0 nor RAND_MAX, it does not end at 0, and
      the other channel of the radar does not hold it; the own reservation is gone otherwise. */
  lemma RequestEffect(b: Book, q: Request, restrictedNum: nat)
    requires b.Shape(restrictedNum) && q.Valid()
    ensures var t, own := After(b, q, restrictedNum).table, b.table[2 * q.radar + q.channel];
      var found := match q.search case Some(x) => x case None => b.clrBand;
      var yes := found.noise != 0.0 && found.noise != 2147483647.0 && found.fEnd != 0 && !HeldByOther(b, q, found);
      && After(b, q, restrictedNum).clrBand == found && Reply(b, q) == (if yes then found else Band(0, 0, 0.0))
      && t[2 * q.radar + q.channel]
         == (if yes then Entry(found, q.rangeLow, q.rangeHigh, q.stamp) else Entry(Band(0, 0, 0.0), own.rangeLow, own.rangeHigh, 0))
  {
    HeldIff(b, q, Latest(b, q));
  }

  lemma HeldIff(b: Book, q: Request, found: Band)
    requires |b.table| == RESERV_NUM && q.Valid()
    ensures FlaggedByRadar(Cleaned(b.table, q.Slot(), q.now), q.radar, found) <==> found.fEnd == 0 || HeldByOther(b, q, found)
  {
    var t, own, other := Cleaned(b.table, q.Slot(), q.now), q.Slot(), 2 * q.radar + 1 - q.channel;
    assert Flagged(t[own].band, found) <==> found.fEnd == 0;
    assert Flagged(t[other].band, found) ==> found.fEnd == 0 || HeldByOther(b, q, found);
  }

  /** The others keep their reservations, unless those are older than ten seconds. */
  lemma OthersKept(b: Book, q: Request, k: nat)
    requires |b.table| == RESERV_NUM && q.Valid() && k < 4 && k != 2 * q.radar + q.channel
    ensures var e := b.table[k];
      TableAfter(b, q)[k] == if e.lastTime != 0 && q.now - e.lastTime > 10 then Entry(Band(0, 0, 0.0), e.rangeLow, e.rangeHigh, 0)
                             else e
  {}

  // ---------------------------------------------------------------- the server's data

  class Server {
    const restrictedNum: nat
    const radarTable: array<Entry>
    const restricted: array<Band>
    var clrBand: Band

    constructor (fromFile: seq<Band>)
      requires |fromFile| + RESERV_NUM <= RESTRICT_NUM
      ensures Valid() && fresh(radarTable) && fresh(restricted) && Mirrors()
      ensures View().clrBand == NO_BAND && forall k :: 0 <= k < RESERV_NUM ==> View().table[k] == Entry(NO_BAND, 0, 0, 0)
      ensures restrictedNum == |fromFile| && forall k :: 0 <= k < |fromFile| ==> View().restricted[k] == fromFile[k]
    {
      restrictedNum := |fromFile|;
      radarTable := new Entry[RESERV_NUM](_ => Entry(NO_BAND, 0, 0, 0));
      restricted := new Band[RESTRICT_NUM](k => if 0 <= k < |fromFile| then fromFile[k] else NO_BAND);
      clrBand := NO_BAND;
    }

    ghost predicate Valid()
      reads this
    {
      radarTable.Length == RESERV_NUM && restricted.Length == RESTRICT_NUM && restrictedNum + RESERV_NUM <= RESTRICT_NUM
    }

    ghost function View(): Book
      reads this, radarTable, restricted
    {
      Book(radarTable[..], restricted[..], clrBand)
    }

    ghost predicate Mirrors()
      reads this, radarTable, restricted
      requires Valid()
    {
      restricted[..] == Mirrored(restricted[..], radarTable[..], restrictedNum)
    }

    method ReleaseSlot(slot: nat)
      requires Valid() && slot < RESERV_NUM && Mirrors()
      modifies radarTable, restricted
      ensures Mirrors() && radarTable[..] == Release(old(radarTable[..]), slot)
      ensures restricted[..] == Mirrored(old(restricted[..]), radarTable[..], restrictedNum)
    {
      restricted[restrictedNum + slot] := NO_BAND;
      radarTable[slot] := radarTable[slot].Released();
    }

    method ExpireOld(now: int)
      requires Valid() && Mirrors()
      modifies radarTable, restricted
      ensures Mirrors() && radarTable[..] == Expire(old(radarTable[..]), now)
      ensures restricted[..] == Mirrored(old(restricted[..]), radarTable[..], restrictedNum)
    {
      for r := 0 to RADAR_NUM
        invariant Mirrors()
        invariant forall k :: 0 <= k < RESERV_NUM ==>
          radarTable[k] == if k < r * CHANNEL_NUM && old(radarTable[k]).Expired(now)
                           then old(radarTable[k]).Released() else old(radarTable[k])
        invariant restricted[..] == Mirrored(old(restricted[..]), radarTable[..], restrictedNum)
      {
        for c := 0 to CHANNEL_NUM
          invariant Mirrors()
          invariant forall k :: 0 <= k < RESERV_NUM ==>
            radarTable[k] == if k < r * CHANNEL_NUM + c && old(radarTable[k]).Expired(now)
                             then old(radarTable[k]).Released() else old(radarTable[k])
          invariant restricted[..] == Mirrored(old(restricted[..]), radarTable[..], restrictedNum)
        {
          var slot := r * CHANNEL_NUM + c;
          if radarTable[slot].lastTime == 0 { continue; }
          if now - radarTable[slot].lastTime > MAX_AGE {
            ReleaseSlot(slot);
          }
        }
      }
    }

    /** The outer loop of the source runs over the radars but compares with the current one each time. */
    method Intersects(radar: nat) returns (yes: bool)
      requires Valid() && radar < RADAR_NUM
      ensures yes == FlaggedByRadar(radarTable[..], radar, clrBand)
    {
      yes := false;
      for r := 0 to RADAR_NUM
        invariant !yes
        invariant r > 0 ==> !FlaggedByRadar(radarTable[..], radar, clrBand)
      {
        for c := 0 to CHANNEL_NUM
          invariant !yes
          invariant forall k :: radar * CHANNEL_NUM <= k < radar * CHANNEL_NUM + c ==>
                      !Flagged(radarTable[k].band, clrBand)
        {
          if Flagged(radarTable[radar * CHANNEL_NUM + c].band, clrBand) {
            assert Flagged(radarTable[..][radar * CHANNEL_NUM + c].band, clrBand);
            yes := true;
            break;
          }
        }
        if yes { break; }
      }
    }

    /** One clear frequency request; `q.search` is what the search did to *clr_band. */
    method HandleRequest(q: Request) returns (selected: Band)
      requires Valid() && Mirrors() && q.Valid()
      modifies this, radarTable, restricted
      ensures Valid() && Mirrors()
      ensures View() == After(old(View()), q, restrictedNum)
      ensures selected == Reply(old(View()), q)
    {
      ReleaseSlot(q.Slot());
      ExpireOld(q.now);
      if q.search.Some? {
        clrBand := q.search.value;
      }
      var found := true;
      if clrBand.noise != 0.0 && clrBand.noise != RAND_MAX {
        var intersects := Intersects(q.radar);
        if intersects { found := false; }
      } else {
        found := false;
      }
      var slot := q.Slot();
      if found {
        radarTable[slot] := Entry(clrBand, q.rangeLow, q.rangeHigh, q.stamp);
        restricted[restrictedNum + slot] := clrBand;
        selected := clrBand;
      } else {
        selected := NO_BAND;
        // The source goes on to fall back on the old reservation of this slot, but it was released.
        assert radarTable[slot].band == NO_BAND;
      }
    }
  }

  // ---------------------------------------------------------------- what every run keeps

  /** The part of the restricted list behind the bands from the file is the table. */
  predicate Mirroring(b: Book, restrictedNum: nat)
    requires b.Shape(restrictedNum)
  {
    forall k :: 0 <= k < RESERV_NUM ==> b.restricted[restrictedNum + k] == b.table[k].band
  }

  predicate Disjoint(a: Band, b: Band) { a.fEnd <= b.fStart || b.fEnd <= a.fStart }

  predicate Reserves(e: Entry) { e.band.fStart < e.band.fEnd }

  predicate SameRadar(k: int, l: int) { k / CHANNEL_NUM == l / CHANNEL_NUM }

  /** The nonempty reservations of one radar do not overlap. */
  predicate PairwiseDisjoint(table: seq<Entry>) {
    forall k, l :: 0 <= k < |table| && 0 <= l < |table| && k != l && SameRadar(k, l) ==>
      Reserves(table[k]) && Reserves(table[l]) ==>
      Disjoint(table[k].band, table[l].band)
  }

  /** A usable band is w wide. */
  predicate HasWidth(b: Band, w: int) { Usable(b) ==> b.fEnd - b.fStart == w }

  predicate Widths(b: Book, w: int) {
    && HasWidth(b.clrBand, w)
    && forall k :: 0 <= k < |b.table| ==> b.table[k].band == NO_BAND || b.table[k].band.fEnd - b.table[k].band.fStart == w
  }

  /** An entry without a time stamp reserves nothing. */
  predicate Stamped(table: seq<Entry>) { forall k :: 0 <= k < |table| && table[k].lastTime == 0 ==> table[k].band == NO_BAND }

  ghost predicate Inv(b: Book, restrictedNum: nat, w: int) {
    && b.Shape(restrictedNum) && Mirroring(b, restrictedNum)
    && Widths(b, w) && PairwiseDisjoint(b.table) && Stamped(b.table)
  }

  /** What exactly the failsafe lets through: a band that is disjoint from the reserved one and does
      not end where that begins, or one that begins before it and ends behind it. */
  lemma FailsafeExact(reserved: Band, b: Band)
    requires reserved.fStart < reserved.fEnd && b.fStart < b.fEnd
    ensures !Flagged(reserved, b) <==>
            || (Disjoint(reserved, b) && b.fEnd != reserved.fStart)
            || (b.fStart < reserved.fStart && reserved.fEnd < b.fEnd)
  {}

  lemma CleanedKept(b: Book, q: Request, restrictedNum: nat, w: int)
    requires Inv(b, restrictedNum, w) && q.Valid()
    ensures var t := Cleaned(b.table, q.Slot(), q.now);
      && PairwiseDisjoint(t) && Stamped(t) && t[q.Slot()].band == NO_BAND
      && forall k :: 0 <= k < |t| ==> t[k].band == NO_BAND || t[k].band.fEnd - t[k].band.fStart == w
  {
    var t := Cleaned(b.table, q.Slot(), q.now);
    assert forall k :: 0 <= k < |t| ==> t[k] == b.table[k] || t[k] == b.table[k].Released();
  }

  /** The reservation of the new band, which passed the failsafe. */
  lemma ReservedKept(t: seq<Entry>, e: Entry, radar: nat, slot: nat, w: int)
    requires |t| == RESERV_NUM && radar < RADAR_NUM && radar * CHANNEL_NUM <= slot < (radar + 1) * CHANNEL_NUM
    requires PairwiseDisjoint(t) && w > 0 && e.band.fEnd - e.band.fStart == w
    requires forall k :: 0 <= k < |t| ==> t[k].band == NO_BAND || t[k].band.fEnd - t[k].band.fStart == w
    requires !FlaggedByRadar(t, radar, e.band)
    ensures PairwiseDisjoint(t[slot := e])
  {
    forall k | 0 <= k < |t| && SameRadar(k, slot) && Reserves(t[k]) ensures Disjoint(t[k].band, e.band) {
      assert !Flagged(t[k].band, e.band);
    }
  }

  lemma RequestKept(b: Book, q: Request, restrictedNum: nat, w: int)
    requires Inv(b, restrictedNum, w) && q.Valid() && w > 0
    requires q.search.Some? ==> HasWidth(q.search.value, w)
    ensures Inv(After(b, q, restrictedNum), restrictedNum, w)
  {
    CleanedKept(b, q, restrictedNum, w);
    var cleaned := Cleaned(b.table, q.Slot(), q.now);
    if Found(b, q) {
      ReservedKept(cleaned, Entry(Latest(b, q), q.rangeLow, q.rangeHigh, q.stamp), q.radar, q.Slot(), w);
    }
  }

  /** The server's data after a sequence of requests. */
  function Run(b: Book, qs: seq<Request>, restrictedNum: nat): (t: Book)
    requires b.Shape(restrictedNum) && forall k :: 0 <= k < |qs| ==> qs[k].Valid()
    ensures t.Shape(restrictedNum)
  {
    if qs == [] then b else After(Run(b, qs[..|qs| - 1], restrictedNum), qs[|qs| - 1], restrictedNum)
  }

  predicate Fresh(b: Book, restrictedNum: nat)
    requires b.Shape(restrictedNum)
  {
    && b.clrBand == NO_BAND
    && forall k :: 0 <= k < RESERV_NUM ==> b.table[k] == Entry(NO_BAND, 0, 0, 0) && b.restricted[restrictedNum + k] == NO_BAND
  }

  /** Over every run of requests whose bands have equal widths: the reserved slots of the restricted
      list mirror the table and the reservations of each radar are pairwise disjoint, even when a
      request finds the band an earlier request left behind. */
  lemma {:induction false} RunKept(b: Book, qs: seq<Request>, restrictedNum: nat, w: int)
    requires b.Shape(restrictedNum) && Fresh(b, restrictedNum) && w > 0
    requires forall k :: 0 <= k < |qs| ==> qs[k].Valid() && (qs[k].search.Some? ==> HasWidth(qs[k].search.value, w))
    ensures Inv(Run(b, qs, restrictedNum), restrictedNum, w)
    decreases |qs|
  {
    if qs != [] {
      RunKept(b, qs[..|qs| - 1], restrictedNum, w);
      RequestKept(Run(b, qs[..|qs| - 1], restrictedNum), qs[|qs| - 1], restrictedNum, w);
    }
  }

  /** The bands from the file are never touched. */
  lemma {:induction false} FileBandsKept(b: Book, qs: seq<Request>, restrictedNum: nat)
    requires b.Shape(restrictedNum) && forall k :: 0 <= k < |qs| ==> qs[k].Valid()
    ensures Run(b, qs, restrictedNum).restricted[..restrictedNum] == b.restricted[..restrictedNum]
    decreases |qs|
  {
    if qs != [] {
      FileBandsKept(b, qs[..|qs| - 1], restrictedNum);
      var before, after := Run(b, qs[..|qs| - 1], restrictedNum), Run(b, qs, restrictedNum);
      assert forall k :: 0 <= k < restrictedNum ==> after.restricted[k] == before.restricted[k];
    }
  }

  /** After a request no other reservation is older than ten seconds, and the requesting channel has
      a reservation exactly if a band was found: the band that is sent back. */
  lemma NoneOlder(b: Book, q: Request, restrictedNum: nat)
    requires b.Shape(restrictedNum) && q.Valid()
    ensures var t := After(b, q, restrictedNum).table;
      && (forall k :: 0 <= k < RESERV_NUM && k != q.Slot() ==>
            (t[k].lastTime == 0 || q.now - t[k].lastTime <= MAX_AGE) && (t[k] == b.table[k] || b.table[k].Expired(q.now)))
      && t[q.Slot()].band == Reply(b, q)
      && (Found(b, q) <==> t[q.Slot()].lastTime != 0)
  {}

  /** A band the search did not renew is rejected as soon as another channel of the radar holds it. */
  lemma StaleBandRejected(b: Book, q: Request, other: nat)
    requires |b.table| == RESERV_NUM && q.Valid() && other < RESERV_NUM && other != q.Slot() && SameRadar(other, q.Slot())
    requires q.search == None && b.table[other].band == b.clrBand && b.clrBand.fStart < b.clrBand.fEnd
    requires !b.table[other].Expired(q.now)
    ensures !Found(b, q) && Reply(b, q) == NO_BAND
  {
    var t := Cleaned(b.table, q.Slot(), q.now);
    assert t[other] == b.table[other];
    assert Flagged(t[other].band, b.clrBand);
  }

  /** With unequal widths the failsafe lets a band through that engulfs a reservation of the radar. */
  lemma EngulfingBandAccepted(b: Book, q: Request, other: nat)
    requires |b.table| == RESERV_NUM && q.Valid() && q == q.(radar := 0, channel := 0) && other == 1
    requires q.search.Some? && Usable(q.search.value) && Reserves(b.table[other]) && !b.table[other].Expired(q.now)
    requires q.search.value.fStart < b.table[other].band.fStart && b.table[other].band.fEnd < q.search.value.fEnd
    requires q.search.value.fEnd != 0
    ensures Found(b, q) && !PairwiseDisjoint(TableAfter(b, q))
  {
    var t := TableAfter(b, q);
    assert t[other] == b.table[other] && t[0].band == q.search.value;
    assert SameRadar(0, 1) && Reserves(t[0]) && Reserves(t[1]);
  }

  // ---------------------------------------------------------------- together with the search

  /** The search returns a usable band only if it is as wide as its windows. */
  lemma SelectedWidth(c: Choice, values: seq<real>)
    requires c.Valid() && (c.prev == NO_BAND || c.prev.fEnd - c.prev.fStart == c.w * c.delta)
    ensures HasWidth(Selected(c, values), c.w * c.delta)
  {
    var i := Best(values, c.w, Starts(values, c.w));
    assert (c.first + i + c.w) * c.delta - (c.first + i) * c.delta == c.w * c.delta;
  }

  /** The band of a request is what the search, given the old reservation, returned. */
  ghost predicate Searched(b: Book, q: Request, delta: int, w: nat)
    requires |b.table| == RESERV_NUM && q.Valid()
  {
    q.search.Some? ==>
      exists c: Choice, values: seq<real> ::
        c.Valid() && c.delta == delta && c.w == w && c.prev == b.table[q.Slot()].band
        && q.search.value == Selected(c, values)
  }

  lemma SearchKept(b: Book, q: Request, restrictedNum: nat, delta: int, w: nat)
    requires delta > 0 && w > 0 && Inv(b, restrictedNum, w * delta) && q.Valid() && Searched(b, q, delta, w)
    ensures Inv(After(b, q, restrictedNum), restrictedNum, w * delta)
  {
    if q.search.Some? { SearchedWidth(b, q, restrictedNum, delta, w); }
    assert w * delta > 0;
    RequestKept(b, q, restrictedNum, w * delta);
  }

  lemma SearchedWidth(b: Book, q: Request, restrictedNum: nat, delta: int, w: nat)
    requires b.Shape(restrictedNum) && Widths(b, w * delta) && q.Valid() && Searched(b, q, delta, w) && q.search.Some?
    ensures HasWidth(q.search.value, w * delta)
  {
    var c: Choice, values: seq<real> :|
      c.Valid() && c.delta == delta && c.w == w && c.prev == b.table[q.Slot()].band
        && q.search.value == Selected(c, values);
    SelectedWidth(c, values);
  }

  /** So with a fixed bandwidth and spectrum resolution the table stays disjoint over every run,
      whatever the spectra are and whichever requests skip their search. */
  lemma {:induction false} SearchRunKept(b: Book, qs: seq<Request>, restrictedNum: nat, delta: int, w: nat)
    requires b.Shape(restrictedNum) && Fresh(b, restrictedNum) && delta > 0 && w > 0
    requires forall k :: 0 <= k < |qs| ==> qs[k].Valid()
    requires forall k :: 0 <= k < |qs| ==> Searched(Run(b, qs[..k], restrictedNum), qs[k], delta, w)
    ensures Inv(Run(b, qs, restrictedNum), restrictedNum, w * delta)
    decreases |qs|
  {
    if qs != [] {
      var n := |qs| - 1;
      assert forall k :: 0 <= k < n ==> qs[..n][..k] == qs[..k] && qs[..n][k] == qs[k];
      SearchRunKept(b, qs[..n], restrictedNum, delta, w);
      SearchKept(Run(b, qs[..n], restrictedNum), qs[n], restrictedNum, delta, w);
    }
  }

  // ---------------------------------------------------------------- what the search does about reservations

  /** The arguments of the search of a request: the restricted list without the own and the expired
      reservations, and the own reservation as the previous band. */
  predicate Asked(b: Book, q: Request, s: Search, restrictedNum: nat)
    requires b.Shape(restrictedNum) && q.Valid()
  {
    && s.Valid() && Inside(s) && s.prev == b.table[q.Slot()].band
    && s.masks == Masks(Mirrored(b.restricted, Cleaned(b.table, q.Slot(), q.now), restrictedNum), restrictedNum, s.meta, q.radar)
  }

  ghost predicate FullySearched(b: Book, q: Request, restrictedNum: nat, delta: int, w: nat)
    requires b.Shape(restrictedNum) && q.Valid()
  {
    q.search.Some? ==>
      exists s: Search, spectrum: seq<real> ::
        && Asked(b, q, s, restrictedNum) && s.delta == delta && s.Width() == w && s.Cut().spectrumWidth <= |spectrum|
        && q.search.value == Selected(s.Rules(), s.Values(spectrum))
  }

  /** All reservations begin and end on the grid of the spectrum. */
  predicate Gridded(b: Book, delta: int)
    requires delta > 0
  {
    && (Usable(b.clrBand) ==> OnGrid(b.clrBand, delta))
    && forall k :: 0 <= k < |b.table| ==> OnGrid(b.table[k].band, delta)
  }

  lemma SelectedOnGrid(c: Choice, values: seq<real>)
    requires c.Valid() && c.first >= 0 && OnGrid(c.prev, c.delta)
    ensures Usable(Selected(c, values)) ==> OnGrid(Selected(c, values), c.delta)
  {
    var i := Best(values, c.w, Starts(values, c.w));
    if i >= 0 {
      MultipleOnGrid(c.first + i, c.delta);
      MultipleOnGrid(c.first + i + c.w, c.delta);
    }
  }

  lemma MultipleOnGrid(m: nat, d: int)
    requires d > 0
    ensures 0 <= m * d && (m * d) % d == 0
  {
    QuotientOfProduct(m, d);
    Rounded(m * d, d);
    MulMonotone(0, m, d);
  }

  lemma GridKept(b: Book, q: Request, restrictedNum: nat, delta: int, w: nat)
    requires delta > 0 && b.Shape(restrictedNum) && Gridded(b, delta) && q.Valid() && FullySearched(b, q, restrictedNum, delta, w)
    ensures Gridded(After(b, q, restrictedNum), delta)
  {
    if q.search.Some? {
      var s: Search, spectrum: seq<real> :|
        && Asked(b, q, s, restrictedNum) && s.delta == delta && s.Width() == w && s.Cut().spectrumWidth <= |spectrum|
        && q.search.value == Selected(s.Rules(), s.Values(spectrum));
      Geometry(s);
      DivNotNegative(s.fStart, s.delta);
      SelectedOnGrid(s.Rules(), s.Values(spectrum));
    }
    var t := Cleaned(b.table, q.Slot(), q.now);
    assert forall k :: 0 <= k < |t| ==> t[k] == b.table[k] || t[k] == b.table[k].Released() || t[k] == b.table[k].Released().Released();
  }

  /** Over every run, the table stays on the grid; with SearchRunKept this is what NewBandDisjoint needs. */
  lemma {:induction false} GridRunKept(b: Book, qs: seq<Request>, restrictedNum: nat, delta: int, w: nat)
    requires b.Shape(restrictedNum) && Fresh(b, restrictedNum) && delta > 0 && w > 0
    requires forall k :: 0 <= k < |qs| ==> qs[k].Valid()
    requires forall k :: 0 <= k < |qs| ==> FullySearched(Run(b, qs[..k], restrictedNum), qs[k], restrictedNum, delta, w)
    ensures Gridded(Run(b, qs, restrictedNum), delta) && Inv(Run(b, qs, restrictedNum), restrictedNum, w * delta)
    decreases |qs|
  {
    if qs != [] {
      var n := |qs| - 1;
      assert forall k :: 0 <= k < n ==> qs[..n][..k] == qs[..k] && qs[..n][k] == qs[k];
      GridRunKept(b, qs[..n], restrictedNum, delta, w);
      GridKept(Run(b, qs[..n], restrictedNum), qs[n], restrictedNum, delta, w);
      FullIsSearched(Run(b, qs[..n], restrictedNum), qs[n], restrictedNum, delta, w);
      SearchKept(Run(b, qs[..n], restrictedNum), qs[n], restrictedNum, delta, w);
    } else {
      assert w * delta > 0;
    }
  }

  lemma FullIsSearched(b: Book, q: Request, restrictedNum: nat, delta: int, w: nat)
    requires b.Shape(restrictedNum) && q.Valid() && FullySearched(b, q, restrictedNum, delta, w)
    ensures Searched(b, q, delta, w)
  {
    if q.search.Some? {
      var s: Search, spectrum: seq<real> :|
        && Asked(b, q, s, restrictedNum) && s.delta == delta && s.Width() == w && s.Cut().spectrumWidth <= |spectrum|
        && q.search.value == Selected(s.Rules(), s.Values(spectrum));
      var c, values := s.Rules(), s.Values(spectrum);
      assert c.delta == delta && c.w == w && q.search.value == Selected(c, values);
    }
  }

  /** Two bands on the grid, of which one consists of samples of the range, share a sample. */
  lemma SharedSample(s: Search, r: Band, i: nat, w: nat) returns (x: int)
    requires s.Valid() && Inside(s) && OnGrid(r, s.delta) && r.fStart < r.fEnd && w > 0 && i + w <= s.Searched().n
    requires var first := s.fStart / s.delta;
      !Disjoint(r, Band((first + i) * s.delta, (first + i + w) * s.delta, 0.0))
    ensures var first := s.fStart / s.delta;
      (first + i) * s.delta <= x < (first + i + w) * s.delta && r.fStart <= x < r.fEnd && Seen(s, x)
  {
    var d, first := s.delta, s.fStart / s.delta;
    var low := (first + i) * d;
    MulMonotone(first + i, first + i + w - 1, d);
    Distribute(first + i + w, 1, d);
    if r.fStart <= low {
      x := low;
      QuotientOfProduct(first + i, d);
    } else {
      x := r.fStart;
      DivAtLeast(x, first + i, d);
      DivBelow(x, first + i + w, d);
    }
  }

  /** A reservation without an endpoint in the search range lies beside all windows, unless it is wider
      than the range. */
  lemma BesideWindows(s: Search, r: Band, i: nat, w: nat)
    requires s.Valid() && Inside(s) && OnGrid(r, s.delta) && r.fStart < r.fEnd && i + w <= s.Searched().n
    requires !s.Searched().HasEndpointOf(r) && r.fEnd - r.fStart == w * s.delta
    ensures var first := s.fStart / s.delta;
      Disjoint(r, Band((first + i) * s.delta, (first + i + w) * s.delta, 0.0))
  {
    var d, first, n := s.delta, s.fStart / s.delta, s.Searched().n;
    Geometry(s);
    OnlyQuotient(r.fStart, d);
    OnlyQuotient(r.fEnd, d);
    if r.fEnd <= s.fStart {
      DivMonotone(r.fEnd, s.fStart, d);
      MulMonotone(r.fEnd / d, first + i, d);
    } else if s.fEnd <= r.fStart {
      DivMonotone(s.fEnd, r.fStart, d);
      MulMonotone(first + i + w, r.fStart / d, d);
    } else {
      TooWide(s.fStart, s.fEnd, r.fStart / d, r.fEnd / d, d);
      Distribute(r.fEnd / d, r.fStart / d, d);
      QuotientOfProduct(r.fEnd / d - r.fStart / d, d);
      QuotientOfProduct(w, d);
    }
  }

  lemma TooWide(low: int, high: int, a: int, e: int, d: int)
    requires d > 0 && a * d < low && high < e * d
    ensures e - a > high / d - low / d
  {
    AtMostQuotient(a, low, d);
    DivBelow(high, e, d);
  }

  /** The band a search returns shares no frequency with any other reservation of its radar: a window
      avoids them, and the previous band was disjoint from them already. Hence the failsafe rejects
      a new band only if it ends exactly where another reservation begins. */
  lemma NewBandDisjoint(b: Book, q: Request, s: Search, spectrum: seq<real>, restrictedNum: nat, k: nat)
    requires b.Shape(restrictedNum) && q.Valid() && Asked(b, q, s, restrictedNum)
    requires s.Cut().spectrumWidth <= |spectrum| && forall i :: 0 <= i < |spectrum| ==> spectrum[i] >= 0.0
    requires Inv(b, restrictedNum, s.Width() * s.delta) && Gridded(b, s.delta)
    requires SomeQuiet(s.Rules(), s.Values(spectrum))
    requires k < RESERV_NUM && k != q.Slot() && SameRadar(k, q.Slot())
    requires var r := Cleaned(b.table, q.Slot(), q.now)[k]; Reserves(r)
    ensures var r := Cleaned(b.table, q.Slot(), q.now)[k].band; var found := Selected(s.Rules(), s.Values(spectrum));
      Usable(found) ==> Disjoint(r, found) && (Flagged(r, found) <==> found.fEnd == r.fStart)
  {
    var r, c, values := Cleaned(b.table, q.Slot(), q.now)[k].band, s.Rules(), s.Values(spectrum);
    assert r == b.table[k].band;
    if Usable(Selected(c, values)) {
      if KeepsPrevious(c, values) {
        PreviousDisjoint(b, q, k, s.Width() * s.delta, c.PrevNoise(values));
      } else {
        WindowDisjoint(b, q, s, spectrum, restrictedNum, k);
        FailsafeExact(r, Selected(c, values));
      }
    }
  }

  lemma PreviousDisjoint(b: Book, q: Request, k: nat, w: int, noise: real)
    requires |b.table| == RESERV_NUM && q.Valid() && PairwiseDisjoint(b.table) && w > 0
    requires k < RESERV_NUM && k != q.Slot() && SameRadar(k, q.Slot()) && Reserves(b.table[k])
    requires var own := b.table[q.Slot()].band; own == NO_BAND || own.fEnd - own.fStart == w
    requires 0 <= b.table[k].band.fStart
    ensures var own := b.table[q.Slot()].band.(noise := noise);
      Disjoint(b.table[k].band, own) && (own != NO_BAND.(noise := noise) ==>
        (Flagged(b.table[k].band, own) <==> own.fEnd == b.table[k].band.fStart))
  {}

  /** The window that is selected consists of samples of the range. */
  lemma SelectedWindow(s: Search, values: seq<real>) returns (i: nat)
    requires s.Valid() && Inside(s) && |values| == s.Searched().n
    requires SomeQuiet(s.Rules(), values) && !KeepsPrevious(s.Rules(), values)
    ensures i + s.Width() <= s.Searched().n
    ensures var first, found := s.fStart / s.delta, Selected(s.Rules(), values);
      && found.fStart == (first + i) * s.delta && found.fEnd == (first + i + s.Width()) * s.delta
      && 0 <= found.fStart < found.fEnd
  {
    var first := s.fStart / s.delta;
    DivNotNegative(s.fStart, s.delta);
    Geometry(s);
    SomeBest(s.Rules(), values);
    i := Best(values, s.Width(), Starts(values, s.Width()));
    MulMonotone(first + i + 1, first + i + s.Width(), s.delta);
    Distribute(first + i + 1, first + i, s.delta);
    MulMonotone(0, first + i, s.delta);
  }

  lemma WindowDisjoint(b: Book, q: Request, s: Search, spectrum: seq<real>, restrictedNum: nat, k: nat)
    requires b.Shape(restrictedNum) && q.Valid() && Asked(b, q, s, restrictedNum)
    requires s.Cut().spectrumWidth <= |spectrum| && forall i :: 0 <= i < |spectrum| ==> spectrum[i] >= 0.0
    requires SomeQuiet(s.Rules(), s.Values(spectrum)) && !KeepsPrevious(s.Rules(), s.Values(spectrum))
    requires k < RESERV_NUM && Cleaned(b.table, q.Slot(), q.now)[k] == b.table[k] && Reserves(b.table[k])
    requires var r := b.table[k].band; OnGrid(r, s.delta) && r.fEnd - r.fStart == s.Width() * s.delta
    ensures var r, found := b.table[k].band, Selected(s.Rules(), s.Values(spectrum));
      Disjoint(r, found) && found.fStart < found.fEnd
  {
    var r := b.table[k].band;
    var i := SelectedWindow(s, s.Values(spectrum));
    if !s.Searched().HasEndpointOf(r) {
      BesideWindows(s, r, i, s.Width());
    } else if !Disjoint(r, Selected(s.Rules(), s.Values(spectrum))) {
      var x := SharedSample(s, r, i, s.Width());
      assert s.masks.bands[restrictedNum + k] == r;
      MaskedBandsAvoided(s, spectrum, restrictedNum + k, x);
    }
  }

  /** So a new band is reserved and returned exactly if it is usable and no other reservation of the
      radar begins where it ends; such a neighbour makes the failsafe reject a band that is free. */
  lemma NewBandFound(b: Book, q: Request, s: Search, spectrum: seq<real>, restrictedNum: nat)
    requires b.Shape(restrictedNum) && q.Valid() && Asked(b, q, s, restrictedNum)
    requires s.Cut().spectrumWidth <= |spectrum| && forall i :: 0 <= i < |spectrum| ==> spectrum[i] >= 0.0
    requires Inv(b, restrictedNum, s.Width() * s.delta) && Gridded(b, s.delta)
    requires SomeQuiet(s.Rules(), s.Values(spectrum)) && q.search == Some(Selected(s.Rules(), s.Values(spectrum)))
    ensures var t, found := Cleaned(b.table, q.Slot(), q.now), q.search.value;
      Found(b, q) <==> Usable(found) && forall k ::
        0 <= k < RESERV_NUM && SameRadar(k, q.Slot()) && Reserves(t[k]) ==> t[k].band.fStart != found.fEnd
  {
    var t, found := Cleaned(b.table, q.Slot(), q.now), q.search.value;
    if Usable(found) {
      forall k: nat | k < RESERV_NUM && SameRadar(k, q.Slot())
        ensures Flagged(t[k].band, found) <==> Reserves(t[k]) && t[k].band.fStart == found.fEnd
      {
        FlaggedIff(b, q, s, spectrum, restrictedNum, k);
      }
      FlaggedByNeighbour(t, q, found);
    }
  }

  lemma FlaggedIff(b: Book, q: Request, s: Search, spectrum: seq<real>, restrictedNum: nat, k: nat)
    requires b.Shape(restrictedNum) && q.Valid() && Asked(b, q, s, restrictedNum)
    requires s.Cut().spectrumWidth <= |spectrum| && forall i :: 0 <= i < |spectrum| ==> spectrum[i] >= 0.0
    requires Inv(b, restrictedNum, s.Width() * s.delta) && Gridded(b, s.delta)
    requires SomeQuiet(s.Rules(), s.Values(spectrum)) && k < RESERV_NUM && SameRadar(k, q.Slot())
    requires Usable(Selected(s.Rules(), s.Values(spectrum)))
    ensures var r, found := Cleaned(b.table, q.Slot(), q.now)[k], Selected(s.Rules(), s.Values(spectrum));
      Flagged(r.band, found) <==> Reserves(r) && r.band.fStart == found.fEnd
  {
    CleanedKept(b, q, restrictedNum, s.Width() * s.delta);
    var r := Cleaned(b.table, q.Slot(), q.now)[k];
    if Reserves(r) {
      NewBandDisjoint(b, q, s, spectrum, restrictedNum, k);
    } else {
      MulMonotone(1, s.Width(), s.delta);
      assert r.band == NO_BAND;
      SelectedPositive(b, q, s, spectrum, restrictedNum);
    }
  }

  lemma FlaggedByNeighbour(t: seq<Entry>, q: Request, found: Band)
    requires |t| == RESERV_NUM && q.Valid()
    requires forall k :: 0 <= k < RESERV_NUM && SameRadar(k, q.Slot()) ==>
               (Flagged(t[k].band, found) <==> Reserves(t[k]) && t[k].band.fStart == found.fEnd)
    ensures !FlaggedByRadar(t, q.radar, found) <==> forall k ::
              0 <= k < RESERV_NUM && SameRadar(k, q.Slot()) && Reserves(t[k]) ==> t[k].band.fStart != found.fEnd
  {
    RadarSlots(q);
  }

  lemma RadarSlots(q: Request)
    requires q.Valid()
    ensures forall k: int :: 0 <= k < RESERV_NUM && SameRadar(k, q.Slot()) <==> q.radar * CHANNEL_NUM <= k < (q.radar + 1) * CHANNEL_NUM
  {}

  lemma KeptNotEmpty(c: Choice, values: seq<real>)
    requires c.Valid() && KeepsPrevious(c, values)
    ensures c.prev.fStart != c.prev.fEnd
  {}

  lemma WidthPositive(s: Search)
    requires s.Valid()
    ensures s.Width() * s.delta > 0
  {
    MulMonotone(1, s.Width(), s.delta);
  }

  lemma SelectedPositive(b: Book, q: Request, s: Search, spectrum: seq<real>, restrictedNum: nat)
    requires b.Shape(restrictedNum) && q.Valid() && Asked(b, q, s, restrictedNum)
    requires s.Cut().spectrumWidth <= |spectrum| && Widths(b, s.Width() * s.delta) && Gridded(b, s.delta)
    requires SomeQuiet(s.Rules(), s.Values(spectrum))
    ensures Selected(s.Rules(), s.Values(spectrum)).fEnd > 0
  {
    var c, values := s.Rules(), s.Values(spectrum);
    if KeepsPrevious(c, values) {
      KeptNotEmpty(c, values);
      WidthPositive(s);
    } else {
      var i := SelectedWindow(s, values);
    }
  }

  /** A band that only touches the reservation of another channel of the radar is rejected. */
  lemma NeighbourRejected(b: Book, q: Request, other: nat)
    requires |b.table| == RESERV_NUM && q.Valid() && other < RESERV_NUM && other != q.Slot() && SameRadar(other, q.Slot())
    requires q.search.Some? && Reserves(b.table[other]) && !b.table[other].Expired(q.now)
    requires q.search.value.fEnd == b.table[other].band.fStart
    ensures Disjoint(q.search.value, b.table[other].band) && Reply(b, q) == NO_BAND
  {
    RadarSlots(q);
    var t := Cleaned(b.table, q.Slot(), q.now);
    assert t[other] == b.table[other] && Flagged(t[other].band, q.search.value);
  }
}
