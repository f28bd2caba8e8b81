/** usrpSockManager of usrp_server.py: which USRPs are connected. What is known about a USRP lies at
    the same index of several parallel lists, one set for the connected ones and one for the others,
    and the lists are edited while they are indexed by an older numbering. */
module UsrpConnections {
  import opened Wrappers

  /** Names of hosts and sockets are numbers. */
  datatype Address = Address(driver: int, port: int)

  /** One line of the configuration: an antenna, connected to one of the two sides of a USRP. */
  datatype Config = Config(host: int, driver: int, port: int, radar: nat, antenna: int)

  /** Everything the lists say about one USRP. */
  datatype Usrp = Usrp(address: Address, antennas: seq<int>, host: int, driver: int)

  /** The four parallel lists of one radar. */
  datatype Lists = Lists(address: seq<Address>, antennas: seq<seq<int>>, host: seq<int>, driver: seq<int>) {
    predicate Parallel() { |address| == |antennas| == |host| == |driver| }

    function At(i: nat): Usrp
      requires Parallel() && i < |host|
    {
      Usrp(address[i], antennas[i], host[i], driver[i])
    }

    function Rows(): (r: seq<Usrp>)
      requires Parallel()
      ensures |r| == |host|
    {
      seq(|host|, i requires 0 <= i < |host| => At(i))
    }

    function Append(u: Usrp): Lists {
      Lists(address + [u.address], antennas + [u.antennas], host + [u.host], driver + [u.driver])
    }

    /** Four times `del list[i]`. */
    function Delete(i: nat): Lists
      requires Parallel() && i < |host|
    {
      Lists(Without(address, i), Without(antennas, i), Without(host, i), Without(driver, i))
    }

    /** One more antenna for a USRP that is already there. */
    function AddAntenna(i: nat, antenna: int): Lists
      requires Parallel() && i < |host|
    {
      this.(antennas := antennas[i := antennas[i] + [antenna]])
    }
  }

  /** What can happen to the connections: the returns of a command for one radar or for all of them,
      where a socket's return is an error or not, and an attempt to reconnect, which a host refuses or
      not. */
  datatype Event =
    | Returns(radar: nat, fails: int -> bool)
    | AllReturns(fails: int -> bool)
    | Restore(secondsSinceLastTry: int, refuses: int -> bool)

  function Without<T>(s: seq<T>, i: nat): (r: seq<T>)
    requires i < |s|
    ensures |r| == |s| - 1
    ensures forall k :: 0 <= k < |r| ==> r[k] == if k < i then s[k] else s[k + 1]
  {
    s[..i] + s[i + 1..]
  }

  lemma AppendRows(ls: Lists, u: Usrp)
    requires ls.Parallel()
    ensures ls.Append(u).Parallel() && ls.Append(u).Rows() == ls.Rows() + [u]
  {}

  lemma DeleteRows(ls: Lists, i: nat)
    requires ls.Parallel() && i < |ls.host|
    ensures ls.Delete(i).Parallel() && ls.Delete(i).Rows() == Without(ls.Rows(), i)
  {}

  // ---------------------------------------------------------------- antennas

  function Antennas(us: seq<Usrp>): multiset<int> {
    if us == [] then multiset{} else Antennas(us[..|us| - 1]) + multiset(us[|us| - 1].antennas)
  }

  lemma {:induction false} AntennasConcat(us: seq<Usrp>, vs: seq<Usrp>)
    ensures Antennas(us + vs) == Antennas(us) + Antennas(vs)
    decreases |vs|
  {
    if vs == [] {
      assert us + vs == us;
    } else {
      assert (us + vs)[..|us + vs| - 1] == us + vs[..|vs| - 1];
      AntennasConcat(us, vs[..|vs| - 1]);
    }
  }

  // ---------------------------------------------------------------- who is kept

  /** Of the first n entries, those whose flag is not set ... */
  function KeptOf<T>(s: seq<T>, failed: seq<bool>, n: nat): (r: seq<T>)
    requires |s| == |failed| && n <= |s|
    ensures |r| <= n
  {
    if n == 0 then [] else if failed[n - 1] then KeptOf(s, failed, n - 1) else KeptOf(s, failed, n - 1) + [s[n - 1]]
  }

  /** ... and those whose flag is set. */
  function LostOf<T>(s: seq<T>, failed: seq<bool>, n: nat): (r: seq<T>)
    requires |s| == |failed| && n <= |s|
  {
    if n == 0 then [] else if failed[n - 1] then LostOf(s, failed, n - 1) + [s[n - 1]] else LostOf(s, failed, n - 1)
  }

  function Kept<T>(s: seq<T>, failed: seq<bool>): seq<T>
    requires |s| == |failed|
  {
    KeptOf(s, failed, |s|)
  }

  function Lost<T>(s: seq<T>, failed: seq<bool>): seq<T>
    requires |s| == |failed|
  {
    LostOf(s, failed, |s|)
  }

  lemma {:induction false} KeptAndLost(us: seq<Usrp>, failed: seq<bool>, n: nat)
    requires |us| == |failed| && n <= |us|
    ensures Antennas(KeptOf(us, failed, n)) + Antennas(LostOf(us, failed, n)) == Antennas(us[..n])
  {
    if n > 0 {
      KeptAndLost(us, failed, n - 1);
      AntennasPrefix(us, n);
      KeptAndLostNext(us, failed, n, KeptOf(us, failed, n - 1), LostOf(us, failed, n - 1));
    } else {
      assert us[..0] == [];
    }
  }

  lemma KeptAndLostNext(us: seq<Usrp>, failed: seq<bool>, n: nat, kept: seq<Usrp>, lost: seq<Usrp>)
    requires |us| == |failed| && 0 < n <= |us|
    requires kept == KeptOf(us, failed, n - 1) && lost == LostOf(us, failed, n - 1)
    ensures Antennas(KeptOf(us, failed, n)) + Antennas(LostOf(us, failed, n))
            == Antennas(kept) + Antennas(lost) + multiset(us[n - 1].antennas)
  {
    if failed[n - 1] { AntennasAppend(lost, us[n - 1]); } else { AntennasAppend(kept, us[n - 1]); }
  }

  lemma AntennasPrefix(us: seq<Usrp>, n: nat)
    requires 0 < n <= |us|
    ensures Antennas(us[..n]) == Antennas(us[..n - 1]) + multiset(us[n - 1].antennas)
  {
    AntennasAppend(us[..n - 1], us[n - 1]);
    assert us[..n] == us[..n - 1] + [us[n - 1]];
  }

  lemma AntennasAppend(us: seq<Usrp>, u: Usrp)
    ensures Antennas(us + [u]) == Antennas(us) + multiset(u.antennas)
  {
    assert (us + [u])[..|us|] == us;
  }

  /** The state of a loop that deletes the failed entries among the first n, counting what it has
      already deleted: the kept ones of these, then the rest. */
  function Partly<T>(s: seq<T>, failed: seq<bool>, n: nat): (r: seq<T>)
    requires |s| == |failed| && n <= |s|
  {
    KeptOf(s, failed, n) + s[n..]
  }

  /** Number of entries deleted so far. */
  function Deleted(failed: seq<bool>, n: nat): nat
    requires n <= |failed|
  {
    if n == 0 then 0 else Deleted(failed, n - 1) + (if failed[n - 1] then 1 else 0)
  }

  lemma {:induction false} KeptLength<T>(s: seq<T>, failed: seq<bool>, n: nat)
    requires |s| == |failed| && n <= |s|
    ensures |KeptOf(s, failed, n)| == n - Deleted(failed, n)
  {
    if n > 0 { KeptLength(s, failed, n - 1); }
  }

  /** Deleting entry n at its shifted index. */
  lemma DeleteShifted<T>(s: seq<T>, failed: seq<bool>, n: nat)
    requires |s| == |failed| && n < |s|
    ensures var i := n - Deleted(failed, n);
      && 0 <= i < |Partly(s, failed, n)| && Partly(s, failed, n)[i] == s[n]
      && Partly(s, failed, n + 1) == if failed[n] then Without(Partly(s, failed, n), i) else Partly(s, failed, n)
  {
    KeptLength(s, failed, n);
    var kept := KeptOf(s, failed, n);
    WithoutMiddle(kept, s[n], s[n + 1..]);
    assert s[n..] == [s[n]] + s[n + 1..];
    assert kept + s[n..] == kept + [s[n]] + s[n + 1..];
  }

  lemma WithoutMiddle<T>(a: seq<T>, x: T, c: seq<T>)
    ensures (a + [x] + c)[|a|] == x && Without(a + [x] + c, |a|) == a + c
  {}

  predicate Distinct(s: seq<int>) { forall i, j :: 0 <= i < j < |s| ==> s[i] != s[j] }

  /** list.index(x): the first place of x. */
  method Index(s: seq<int>, x: int) returns (i: nat)
    requires x in s
    ensures i < |s| && s[i] == x && x !in s[..i]
  {
    i := 0;
    while s[i] != x
      invariant i < |s| && x !in s[..i]
      decreases |s| - i
    {
      i := i + 1;
    }
  }

  /** No socket is in use twice, and all of them were opened before. */
  ghost predicate SocksOk(socks: seq<seq<int>>, next: int) {
    && (forall r :: 0 <= r < |socks| ==> Distinct(socks[r]))
    && (forall r, x :: 0 <= r < |socks| && x in socks[r] ==> x < next)
    && (forall r, q, x :: 0 <= r < q < |socks| && x in socks[r] ==> x !in socks[q])
  }

  lemma RemoveKeepsOk(socks: seq<seq<int>>, next: int, r: nat, i: nat)
    requires SocksOk(socks, next) && r < |socks| && i < |socks[r]|
    ensures SocksOk(socks[r := Without(socks[r], i)], next)
  {
    var after := socks[r := Without(socks[r], i)];
    forall q, x | 0 <= q < |after| && x in after[q] ensures x in socks[q] {
      if q == r { assert x in Without(socks[r], i); }
    }
  }

  lemma AppendKeepsOk(socks: seq<seq<int>>, next: int, r: nat)
    requires SocksOk(socks, next) && r < |socks|
    ensures SocksOk(socks[r := socks[r] + [next]], next + 1)
  {
    var after := socks[r := socks[r] + [next]];
    forall q, x | 0 <= q < |after| && x in after[q] ensures x in socks[q] || (q == r && x == next) {}
    assert forall i :: 0 <= i < |socks[r]| ==> socks[r][i] in socks[r];
  }

  // ---------------------------------------------------------------- the manager

  class UsrpSockManager {
    var socks: seq<seq<int>>
    var active: seq<Lists>
    var inactive: seq<Lists>
    var nextSock: int

    /** The lists of each radar have equal lengths, and no socket is in use twice. */
    ghost predicate Valid()
      reads this
    {
      && |socks| == |active| == |inactive| && SocksOk(socks, nextSock)
      && forall r :: 0 <= r < |socks| ==>
           active[r].Parallel() && inactive[r].Parallel() && |socks[r]| == |active[r].host|
    }

    ghost function Active(r: nat): seq<Usrp>
      reads this
      requires Valid() && r < |socks|
    {
      active[r].Rows()
    }

    ghost function Inactive(r: nat): seq<Usrp>
      reads this
      requires Valid() && r < |socks|
    {
      inactive[r].Rows()
    }

    /** Every antenna of a radar, connected or not. */
    ghost function AllAntennas(r: nat): multiset<int>
      reads this
      requires Valid() && r < |socks|
    {
      Antennas(Active(r)) + Antennas(Inactive(r))
    }

    twostate predicate OthersUnchanged(r: nat)
      reads this
    {
      && |socks| == old(|socks|) && |active| == old(|active|) && |inactive| == old(|inactive|)
      && forall q :: 0 <= q < |socks| && q != r && q < |active| && q < |inactive| ==>
           socks[q] == old(socks[q]) && active[q] == old(active[q]) && inactive[q] == old(inactive[q])
    }

    method RemoveSock(r: nat, sock: int, ghost i: nat)
      requires Valid() && r < |socks| && i < |socks[r]| && socks[r][i] == sock
      modifies this
      ensures Valid() && OthersUnchanged(r)
      ensures socks[r] == Without(old(socks[r]), i)
      ensures Active(r) == Without(old(Active(r)), i)
      ensures Inactive(r) == old(Inactive(r)) + [old(Active(r))[i]]
    {
      var iSock := Index(socks[r], sock);
      assert iSock == i by { assert Distinct(socks[r]); }
      RemoveKeepsOk(socks, nextSock, r, i);
      DeleteRows(active[r], i);
      AppendRows(inactive[r], active[r].At(i));
      inactive := inactive[r := inactive[r].Append(active[r].At(iSock))];
      active := active[r := active[r].Delete(iSock)];
      socks := socks[r := Without(socks[r], iSock)];
    }

    /** The loop of eval_client_return has dealt with the first n returns. */
    ghost predicate Evaluated(r: nat, failed: seq<bool>, n: nat, offset: int, s: seq<int>, us: seq<Usrp>, lost: seq<Usrp>)
      reads this
      requires Valid() && r < |socks| && n <= |failed| == |s| == |us|
    {
      && offset == Deleted(failed, n)
      && socks[r] == Partly(s, failed, n) && Active(r) == Partly(us, failed, n)
      && Inactive(r) == lost + LostOf(us, failed, n)
    }

    method EvalOne(r: nat, failed: seq<bool>, iSock: nat, offset: int,
                   ghost s: seq<int>, ghost us: seq<Usrp>, ghost lost: seq<Usrp>)
      returns (after: int)
      requires Valid() && r < |socks| && iSock < |failed| == |s| == |us|
      requires Evaluated(r, failed, iSock, offset, s, us, lost)
      modifies this
      ensures Valid() && OthersUnchanged(r)
      ensures Evaluated(r, failed, iSock + 1, after, s, us, lost)
    {
      DeleteShifted(s, failed, iSock);
      DeleteShifted(us, failed, iSock);
      after := offset;
      if failed[iSock] {
        var index := iSock - offset;
        RemoveSock(r, socks[r][index], index);
        after := offset + 1;
      }
    }

    /** eval_client_return for one radar: exactly the USRPs whose own return was an error move to the
        inactive lists, in order, although every removal shifts the ones behind it. */
    method EvalClientReturn(failed: seq<bool>, r: nat)
      requires Valid() && r < |socks| && |failed| == |socks[r]|
      modifies this
      ensures Valid() && OthersUnchanged(r)
      ensures socks[r] == Kept(old(socks[r]), failed)
      ensures Active(r) == Kept(old(Active(r)), failed)
      ensures Inactive(r) == old(Inactive(r)) + Lost(old(Active(r)), failed)
      ensures AllAntennas(r) == old(AllAntennas(r))
    {
      ghost var s, us, lost := socks[r], Active(r), Inactive(r);
      var offset := 0;
      for iSock := 0 to |failed|
        invariant Valid() && OthersUnchanged(r)
        invariant Evaluated(r, failed, iSock, offset, s, us, lost)
      {
        offset := EvalOne(r, failed, iSock, offset, s, us, lost);
      }
      assert us[..|us|] == us && s[|s|..] == [] && us[|us|..] == [];
      KeptAndLost(us, failed, |us|);
      AntennasConcat(lost, Lost(us, failed));
    }

    /** The radar and the index of the socket at a place in the row of all sockets. */
    method FindSocket(place: nat) returns (r: nat, k: nat)
      requires Valid() && place < Total(socks)
      ensures r == RadarAt(socks, place, |socks|) && k == place - Start(socks, r)
    {
      ghost var q := RadarAt(socks, place, |socks|);
      FlatAt(socks, q, place - Start(socks, q), |socks|);
      var badsock := Flat(socks, |socks|)[place];
      r, k := 0, 0;
      for j := 0 to |socks|
        invariant q < j ==> r == q && k == place - Start(socks, q)
      {
        if badsock in socks[j] {
          assert j == q;
          k := Index(socks[j], badsock);
          r := j;
        }
      }
    }

    method RemoveConserving(r: nat, index: nat)
      requires Valid() && r < |socks| && index < |socks[r]|
      modifies this
      ensures Valid() && socks == old(socks)[r := Without(old(socks[r]), index)]
      ensures forall q :: 0 <= q < |socks| ==> AllAntennas(q) == old(AllAntennas(q))
    {
      MovedAntennas(Active(r), Inactive(r), index);
      RemoveSock(r, socks[r][index], index);
    }

    /** One failure; the index may be out of range. */
    method FailOne(radar: Option<nat>, offset: nat, iSock: nat) returns (ok: bool, after: Option<nat>)
      requires Valid() && offset <= iSock && (radar.Some? ==> radar.value < |socks|)
      modifies this
      ensures Valid() && |socks| == old(|socks|)
      ensures Fail(Pass(old(socks), radar, offset), iSock) == if ok then Some(Pass(socks, after, offset + 1)) else None
      ensures forall q :: 0 <= q < |socks| ==> AllAntennas(q) == old(AllAntennas(q))
    {
      var index := iSock - offset;
      after := radar;
      if radar.None? {
        if index >= Total(socks) { return false, None; }
        var r;
        r, index := FindSocket(index);
        after := Some(r);
      }
      if index >= |socks[after.value]| { return false, None; }
      RemoveConserving(after.value, index);
      ok := true;
    }

    /** eval_client_return without a radar; an index that is out of range ends it with an exception. */
    method EvalAllReturns(failed: seq<bool>) returns (ok: bool)
      requires Valid() && |failed| == Total(socks)
      modifies this
      ensures Valid() && |socks| == old(|socks|)
      ensures var t := PassFrom(Pass(old(socks), None, 0), failed, 0);
        ok == t.Some? && (ok ==> socks == t.value.socks)
      ensures forall r :: 0 <= r < |socks| ==> AllAntennas(r) == old(AllAntennas(r))
    {
      var radar: Option<nat> := None;
      var offset := 0;
      ok := true;
      for iSock := 0 to |failed|
        invariant ok && Valid() && |socks| == old(|socks|) && 0 <= offset <= iSock
        invariant radar.Some? ==> radar.value < |socks|
        invariant PassFrom(Pass(old(socks), None, 0), failed, 0) == PassFrom(Pass(socks, radar, offset), failed, iSock)
        invariant forall r :: 0 <= r < |socks| ==> AllAntennas(r) == old(AllAntennas(r))
      {
        if failed[iSock] {
          ok, radar := FailOne(radar, offset, iSock);
          if !ok { return; }
          offset := offset + 1;
        }
      }
    }

    // -------------------------------------------------------------- connecting

    constructor (radars: nat)
      ensures Valid() && |socks| == radars
      ensures forall r :: 0 <= r < radars ==> Active(r) == [] && Inactive(r) == []
    {
      socks := seq(radars, r => []);
      active := seq(radars, r => NO_LISTS);
      inactive := seq(radars, r => NO_LISTS);
      nextSock := 0;
    }

    /** A new connection gets a new socket. */
    method Connect(r: nat, u: Usrp)
      requires Valid() && r < |socks|
      modifies this
      ensures Valid() && OthersUnchanged(r)
      ensures socks[r] == old(socks[r]) + [old(nextSock)]
      ensures Active(r) == old(Active(r)) + [u] && Inactive(r) == old(Inactive(r))
    {
      AppendKeepsOk(socks, nextSock, r);
      AppendRows(active[r], u);
      socks := socks[r := socks[r] + [nextSock]];
      active := active[r := active[r].Append(u)];
      nextSock := nextSock + 1;
    }

    method Refuse(r: nat, u: Usrp)
      requires Valid() && r < |socks|
      modifies this
      ensures Valid() && OthersUnchanged(r)
      ensures Active(r) == old(Active(r)) && socks[r] == old(socks[r]) && Inactive(r) == old(Inactive(r)) + [u]
    {
      AppendRows(inactive[r], u);
      inactive := inactive[r := inactive[r].Append(u)];
    }

    /** One line of the configuration: a second antenna of a known USRP is added to it, whether it is
        connected or not; another USRP is connected if its driver does not refuse. */
    method Configure(c: Config, refused: bool)
      requires Valid() && c.radar < |socks|
      modifies this
      ensures Valid() && OthersUnchanged(c.radar)
      ensures AllAntennas(c.radar) == old(AllAntennas(c.radar)) + multiset{c.antenna}
      ensures OneConfigured(c, refused, old(Active(c.radar)), old(Inactive(c.radar)), Active(c.radar), Inactive(c.radar))
      ensures socks[c.radar] == old(socks[c.radar]) + if |Active(c.radar)| > old(|Active(c.radar)|) then [old(nextSock)] else []
    {
      var r := c.radar;
      var u := Usrp(Address(c.driver, c.port), [c.antenna], c.host, c.driver);
      HostRows(active[r], c.host);
      HostRows(inactive[r], c.host);
      if c.host in active[r].host {
        JoinActive(r, c.host, c.antenna);
      } else if c.host in inactive[r].host {
        JoinInactive(r, c.host, c.antenna);
      } else {
        Try(r, u, refused);
      }
    }

    method Try(r: nat, u: Usrp, refused: bool)
      requires Valid() && r < |socks|
      modifies this
      ensures Valid() && OthersUnchanged(r)
      ensures Active(r) == (if refused then old(Active(r)) else old(Active(r)) + [u])
      ensures Inactive(r) == (if refused then old(Inactive(r)) + [u] else old(Inactive(r)))
      ensures socks[r] == old(socks[r]) + if refused then [] else [old(nextSock)]
      ensures AllAntennas(r) == old(AllAntennas(r)) + multiset(u.antennas)
    {
      if refused {
        AntennasAppend(Inactive(r), u);
        Refuse(r, u);
      } else {
        AntennasAppend(Active(r), u);
        Connect(r, u);
      }
    }

    method JoinActive(r: nat, host: int, antenna: int)
      requires Valid() && r < |socks| && host in active[r].host
      modifies this`active
      ensures Valid() && OthersUnchanged(r) && Inactive(r) == old(Inactive(r)) && Joined(old(Active(r)), Active(r), host, antenna)
      ensures Antennas(Active(r)) == old(Antennas(Active(r))) + multiset{antenna}
    {
      var i := Index(active[r].host, host);
      AddAntennaRows(active[r], i, antenna);
      AddAntennaJoins(active[r], i, antenna);
      active := active[r := active[r].AddAntenna(i, antenna)];
    }

    method JoinInactive(r: nat, host: int, antenna: int)
      requires Valid() && r < |socks| && host in inactive[r].host
      modifies this`inactive
      ensures Valid() && OthersUnchanged(r) && Active(r) == old(Active(r)) && Joined(old(Inactive(r)), Inactive(r), host, antenna)
      ensures Antennas(Inactive(r)) == old(Antennas(Inactive(r))) + multiset{antenna}
    {
      var i := Index(inactive[r].host, host);
      AddAntennaRows(inactive[r], i, antenna);
      AddAntennaJoins(inactive[r], i, antenna);
      inactive := inactive[r := inactive[r].AddAntenna(i, antenna)];
    }

    ghost predicate AllRead(configs: seq<Config>, refused: seq<bool>, n: nat)
      reads this
      requires Valid() && n <= |configs| == |refused|
    {
      forall r :: 0 <= r < |socks| ==> HasRead(r, configs, refused, n, Active(r), Inactive(r))
    }

    method ConfigureNext(configs: seq<Config>, refused: seq<bool>, k: nat)
      requires Valid() && k < |configs| == |refused| && configs[k].radar < |socks| && AllRead(configs, refused, k)
      modifies this
      ensures Valid() && |socks| == old(|socks|) && AllRead(configs, refused, k + 1)
    {
      Configure(configs[k], refused[k]);
      forall r | 0 <= r < |socks| ensures HasRead(r, configs, refused, k + 1, Active(r), Inactive(r)) {
        assert r != configs[k].radar ==> active[r] == old(active[r]) && inactive[r] == old(inactive[r]);
        ReadNext(r, configs, refused, k, old(Active(r)), old(Inactive(r)), Active(r), Inactive(r));
      }
    }

    /** All lines: every configured antenna of a radar is among its connected or its other USRPs. Every
        configured USRP is there once, with its address and driver and with its antennas in the order of
        the lines, and it is connected exactly if it was not refused when its first line was read. */
    method ConfigureAll(configs: seq<Config>, refused: seq<bool>)
      requires Valid() && |refused| == |configs| && forall k :: 0 <= k < |configs| ==> configs[k].radar < |socks|
      requires forall r :: 0 <= r < |socks| ==> Active(r) == [] && Inactive(r) == []
      modifies this
      ensures Valid() && |socks| == old(|socks|)
      ensures forall r :: 0 <= r < |socks| ==> AllAntennas(r) == Configured(configs, r, |configs|)
      ensures forall r :: 0 <= r < |socks| ==> AllConfigured(configs, refused, r, |configs|, Active(r), Inactive(r))
    {
      for k := 0 to |configs|
        invariant Valid() && |socks| == old(|socks|)
        invariant AllRead(configs, refused, k)
      {
        ConfigureNext(configs, refused, k);
      }
    }

    /** restore_lost_connections: not more often than every 60 s; then every lost USRP is tried again
        and either gets a new socket or stays lost. */
    method RestoreLostConnections(secondsSinceLastTry: int, refused: seq<seq<bool>>)
      requires Valid() && |refused| == |socks|
      requires forall r :: 0 <= r < |socks| ==> |refused[r]| == |Inactive(r)|
      modifies this
      ensures Valid() && |socks| == old(|socks|)
      ensures secondsSinceLastTry < 60 ==> forall r :: 0 <= r < |socks| ==>
                Active(r) == old(Active(r)) && Inactive(r) == old(Inactive(r))
      ensures secondsSinceLastTry >= 60 ==> forall r :: 0 <= r < |socks| ==>
                Active(r) == old(Active(r)) + Kept(old(Inactive(r)), refused[r])
                && Inactive(r) == Lost(old(Inactive(r)), refused[r])
      ensures forall r :: 0 <= r < |socks| ==> old(socks[r]) <= socks[r] && AllAntennas(r) == old(AllAntennas(r))
    {
      if 60 > secondsSinceLastTry {
        return;
      }
      var tmp := inactive;
      inactive := seq(|inactive|, r => NO_LISTS);
      RetryAll(tmp, refused);
      forall r | 0 <= r < |socks| ensures AllAntennas(r) == old(AllAntennas(r)) {
        KeptAndLost(old(Inactive(r)), refused[r], |refused[r]|);
        assert old(Inactive(r))[..|refused[r]|] == old(Inactive(r));
        AntennasConcat(old(Active(r)), Kept(old(Inactive(r)), refused[r]));
      }
    }

    method Flags(r: nat, fails: int -> bool) returns (failed: seq<bool>)
      requires Valid() && r < |socks|
      ensures |failed| == |socks[r]|
    {
      var row := socks[r];
      failed := seq(|row|, k requires 0 <= k < |row| => fails(row[k]));
    }

    method AllFlags(fails: int -> bool) returns (failed: seq<bool>)
      requires Valid()
      ensures |failed| == Total(socks)
    {
      failed := [];
      for r := 0 to |socks|
        invariant |failed| == Start(socks, r)
      {
        var flags := Flags(r, fails);
        failed := failed + flags;
      }
    }

    method Refusals(refuses: int -> bool) returns (refused: seq<seq<bool>>)
      requires Valid()
      ensures |refused| == |socks| && forall r :: 0 <= r < |socks| ==> |refused[r]| == |Inactive(r)|
    {
      refused := [];
      for r := 0 to |socks|
        invariant |refused| == r && forall q :: 0 <= q < r ==> |refused[q]| == |Inactive(q)|
      {
        var hosts := inactive[r].host;
        refused := refused + [seq(|hosts|, k requires 0 <= k < |hosts| => refuses(hosts[k]))];
      }
    }

    method Happen(e: Event)
      requires Valid() && (e.Returns? ==> e.radar < |socks|)
      modifies this
      ensures Valid() && |socks| == old(|socks|)
      ensures forall r :: 0 <= r < |socks| ==> AllAntennas(r) == old(AllAntennas(r))
    {
      match e
      case Returns(r, fails) =>
        var failed := Flags(r, fails);
        EvalClientReturn(failed, r);
      case AllReturns(fails) =>
        var failed := AllFlags(fails);
        var ok := EvalAllReturns(failed);
      case Restore(seconds, refuses) =>
        var refused := Refusals(refuses);
        RestoreLostConnections(seconds, refused);
    }

    /** After any history of connecting, failing and reconnecting, every configured antenna is still
        known: one that was configured once is on exactly one USRP, connected or lost. */
    method History(configs: seq<Config>, refused: seq<bool>, events: seq<Event>)
      requires Valid() && |refused| == |configs| && forall k :: 0 <= k < |configs| ==> configs[k].radar < |socks|
      requires forall r :: 0 <= r < |socks| ==> Active(r) == [] && Inactive(r) == []
      requires forall k :: 0 <= k < |events| && events[k].Returns? ==> events[k].radar < |socks|
      modifies this
      ensures Valid() && |socks| == old(|socks|)
      ensures forall r :: 0 <= r < |socks| ==> AllAntennas(r) == Configured(configs, r, |configs|)
      ensures forall r, a :: 0 <= r < |socks| && Configured(configs, r, |configs|)[a] == 1 ==>
                OnSome(Active(r), a) != OnSome(Inactive(r), a)
    {
      ConfigureAll(configs, refused);
      for k := 0 to |events|
        invariant Valid() && |socks| == old(|socks|)
        invariant forall r :: 0 <= r < |socks| ==> AllAntennas(r) == Configured(configs, r, |configs|)
      {
        Happen(events[k]);
      }
      forall r, a | 0 <= r < |socks| && Configured(configs, r, |configs|)[a] == 1
        ensures OnSome(Active(r), a) != OnSome(Inactive(r), a)
      {
        InExactlyOne(Active(r), Inactive(r), a);
      }
    }

    method RetryAll(lost: seq<Lists>, refused: seq<seq<bool>>)
      requires Valid() && |refused| == |socks| == |lost|
      requires forall r :: 0 <= r < |socks| ==>
                 lost[r].Parallel() && |refused[r]| == |lost[r].host| && inactive[r] == NO_LISTS
      modifies this
      ensures Valid() && |socks| == old(|socks|)
      ensures forall r :: 0 <= r < |socks| ==>
        && old(socks[r]) <= socks[r]
        && Active(r) == old(Active(r)) + Kept(lost[r].Rows(), refused[r])
        && Inactive(r) == Lost(lost[r].Rows(), refused[r])
    {
      for r := 0 to |socks|
        invariant Valid() && |socks| == old(|socks|)
        invariant forall q :: 0 <= q < r ==>
          && old(socks[q]) <= socks[q]
          && Active(q) == old(Active(q)) + Kept(lost[q].Rows(), refused[q])
          && Inactive(q) == Lost(lost[q].Rows(), refused[q])
        invariant forall q :: r <= q < |socks| ==>
          active[q] == old(active[q]) && inactive[q] == NO_LISTS && socks[q] == old(socks[q])
      {
        Retry(r, lost[r], refused[r]);
      }
    }

    method Retry(r: nat, lost: Lists, refused: seq<bool>)
      requires Valid() && r < |socks| && Inactive(r) == [] && lost.Parallel() && |refused| == |lost.host|
      modifies this
      ensures Valid() && OthersUnchanged(r) && old(socks[r]) <= socks[r]
      ensures Active(r) == old(Active(r)) + Kept(lost.Rows(), refused)
      ensures Inactive(r) == Lost(lost.Rows(), refused)
    {
      ghost var us := lost.Rows();
      for i := 0 to |refused|
        invariant Valid() && OthersUnchanged(r) && old(socks[r]) <= socks[r]
        invariant Active(r) == old(Active(r)) + KeptOf(us, refused, i)
        invariant Inactive(r) == LostOf(us, refused, i)
      {
        if refused[i] {
          Refuse(r, lost.At(i));
        } else {
          Connect(r, lost.At(i));
        }
      }
    }
  }

  const NO_LISTS: Lists := Lists([], [], [], [])

  /** The antennas the first n lines of the configuration give to a radar. */
  function Configured(configs: seq<Config>, r: nat, n: nat): multiset<int>
    requires n <= |configs|
  {
    if n == 0 then multiset{}
    else Configured(configs, r, n - 1)
         + (if configs[n - 1].radar == r then multiset{configs[n - 1].antenna} else multiset{})
  }

  lemma AddAntennaRows(ls: Lists, i: nat, antenna: int)
    requires ls.Parallel() && i < |ls.host|
    ensures ls.AddAntenna(i, antenna).Parallel()
    ensures Antennas(ls.AddAntenna(i, antenna).Rows()) == Antennas(ls.Rows()) + multiset{antenna}
  {
    var us, vs := ls.Rows(), ls.AddAntenna(i, antenna).Rows();
    var u := us[i].(antennas := us[i].antennas + [antenna]);
    assert vs == us[..i] + [u] + us[i + 1..];
    assert us == us[..i] + [us[i]] + us[i + 1..];
    AntennasConcat(us[..i] + [u], us[i + 1..]);
    AntennasConcat(us[..i] + [us[i]], us[i + 1..]);
    AntennasAppend(us[..i], u);
    AntennasAppend(us[..i], us[i]);
  }

  lemma AddAntennaJoins(ls: Lists, i: nat, antenna: int)
    requires ls.Parallel() && i < |ls.host| && ls.host[i] !in ls.host[..i]
    ensures ls.AddAntenna(i, antenna).Parallel()
    ensures Joined(ls.Rows(), ls.AddAntenna(i, antenna).Rows(), ls.host[i], antenna)
  {
    var us, vs := ls.Rows(), ls.AddAntenna(i, antenna).Rows();
    assert vs == us[i := us[i].(antennas := us[i].antennas + [antenna])];
    forall j | 0 <= j < i ensures us[j].host != ls.host[i] { assert ls.host[j] in ls.host[..i]; }
  }

  lemma HostRows(ls: Lists, host: int)
    requires ls.Parallel()
    ensures host in ls.host <==> HasHost(ls.Rows(), host)
  {
    if k :| 0 <= k < |ls.host| && ls.host[k] == host { assert ls.Rows()[k].host == host; }
  }

  ghost predicate OnSome(us: seq<Usrp>, a: int) { exists i :: 0 <= i < |us| && a in us[i].antennas }

  /** What conservation means for one antenna that was configured once: it is in one of the lists. */
  lemma {:induction false} AntennaSomewhere(us: seq<Usrp>, a: int)
    ensures a in Antennas(us) <==> OnSome(us, a)
    decreases |us|
  {
    if us != [] {
      AntennaSomewhere(us[..|us| - 1], a);
      LastOrEarlier(us, a);
    }
  }

  lemma LastOrEarlier(us: seq<Usrp>, a: int)
    requires us != []
    ensures OnSome(us, a) <==> OnSome(us[..|us| - 1], a) || a in us[|us| - 1].antennas
  {
    var n := |us| - 1;
    if i :| 0 <= i < n && a in us[..n][i].antennas { assert us[i] == us[..n][i]; }
    if i :| 0 <= i < n && a in us[i].antennas { assert us[..n][i] == us[i]; }
  }

  lemma InExactlyOne(active: seq<Usrp>, inactive: seq<Usrp>, a: int)
    requires (Antennas(active) + Antennas(inactive))[a] == 1
    ensures OnSome(active, a) != OnSome(inactive, a)
  {
    AntennaSomewhere(active, a);
    AntennaSomewhere(inactive, a);
  }

  // ---------------------------------------------------------------- what the configuration leads to

  ghost predicate HasHost(us: seq<Usrp>, host: int) { exists i :: 0 <= i < |us| && us[i].host == host }

  /** The first USRP with this host has one more antenna. */
  ghost predicate Joined(us: seq<Usrp>, after: seq<Usrp>, host: int, antenna: int) {
    exists i :: 0 <= i < |us| && us[i].host == host && (forall j :: 0 <= j < i ==> us[j].host != host)
      && after == us[i := us[i].(antennas := us[i].antennas + [antenna])]
  }

  /** What one line does: from the connected USRPs and the others to those afterwards. */
  ghost predicate OneConfigured(c: Config, refused: bool, up: seq<Usrp>, down: seq<Usrp>, up': seq<Usrp>, down': seq<Usrp>) {
    var u := Usrp(Address(c.driver, c.port), [c.antenna], c.host, c.driver);
    if HasHost(up, c.host) then Joined(up, up', c.host, c.antenna) && down' == down
    else if HasHost(down, c.host) then up' == up && Joined(down, down', c.host, c.antenna)
    else if refused then up' == up && down' == down + [u]
    else up' == up + [u] && down' == down
  }

  predicate IsLineOf(c: Config, r: nat, host: int) { c.radar == r && c.host == host }

  /** The antennas of a USRP in the first n lines, in their order. */
  function AntennasOf(configs: seq<Config>, r: nat, host: int, n: nat): seq<int>
    requires n <= |configs|
  {
    if n == 0 then []
    else AntennasOf(configs, r, host, n - 1) + if IsLineOf(configs[n - 1], r, host) then [configs[n - 1].antenna] else []
  }

  predicate IsFirstLine(configs: seq<Config>, r: nat, host: int, k: nat) {
    k < |configs| && IsLineOf(configs[k], r, host) && forall j :: 0 <= j < k ==> !IsLineOf(configs[j], r, host)
  }

  /** The USRP is what its first line says, was refused then or not, and has all its antennas. */
  ghost predicate AsConfigured(u: Usrp, refusedThen: bool, configs: seq<Config>, refused: seq<bool>, r: nat, n: nat)
    requires n <= |configs| == |refused|
  {
    && (exists k: nat :: k < n && IsFirstLine(configs, r, u.host, k) && refused[k] == refusedThen
          && u.driver == configs[k].driver && u.address == Address(configs[k].driver, configs[k].port))
    && u.antennas == AntennasOf(configs, r, u.host, n)
  }

  predicate DistinctHosts(us: seq<Usrp>) { forall i, j :: 0 <= i < j < |us| ==> us[i].host != us[j].host }

  ghost predicate AllConfigured(configs: seq<Config>, refused: seq<bool>, r: nat, n: nat, up: seq<Usrp>, down: seq<Usrp>)
    requires n <= |configs| == |refused|
  {
    && (forall i :: 0 <= i < |up| ==> AsConfigured(up[i], false, configs, refused, r, n))
    && (forall i :: 0 <= i < |down| ==> AsConfigured(down[i], true, configs, refused, r, n))
    && DistinctHosts(up) && DistinctHosts(down)
    && forall k :: 0 <= k < n && configs[k].radar == r ==> HasHost(up, configs[k].host) || HasHost(down, configs[k].host)
  }

  /** A line for another USRP changes nothing. */
  lemma StillConfigured(u: Usrp, refusedThen: bool, configs: seq<Config>, refused: seq<bool>, r: nat, n: nat)
    requires n < |configs| == |refused| && AsConfigured(u, refusedThen, configs, refused, r, n)
    requires !IsLineOf(configs[n], r, u.host)
    ensures AsConfigured(u, refusedThen, configs, refused, r, n + 1)
  {
    var k: nat :| k < n && IsFirstLine(configs, r, u.host, k) && refused[k] == refusedThen
                  && u.driver == configs[k].driver && u.address == Address(configs[k].driver, configs[k].port);
    assert k < n + 1;
  }

  lemma StillConfiguredAll(us: seq<Usrp>, refusedThen: bool, configs: seq<Config>, refused: seq<bool>, r: nat, n: nat)
    requires n < |configs| == |refused|
    requires forall i :: 0 <= i < |us| ==> AsConfigured(us[i], refusedThen, configs, refused, r, n)
    requires configs[n].radar == r ==> !HasHost(us, configs[n].host)
    ensures forall i :: 0 <= i < |us| ==> AsConfigured(us[i], refusedThen, configs, refused, r, n + 1)
  {
    forall i | 0 <= i < |us| ensures AsConfigured(us[i], refusedThen, configs, refused, r, n + 1) {
      StillConfigured(us[i], refusedThen, configs, refused, r, n);
    }
  }

  lemma OtherLineRead(configs: seq<Config>, refused: seq<bool>, r: nat, n: nat, up: seq<Usrp>, down: seq<Usrp>)
    requires n < |configs| == |refused| && configs[n].radar != r && AllConfigured(configs, refused, r, n, up, down)
    ensures AllConfigured(configs, refused, r, n + 1, up, down)
  {
    StillConfiguredAll(up, false, configs, refused, r, n);
    StillConfiguredAll(down, true, configs, refused, r, n);
  }

  /** The USRP whose host the line names gets the antenna. */
  lemma JoinedConfigured(us: seq<Usrp>, after: seq<Usrp>, refusedThen: bool, configs: seq<Config>, refused: seq<bool>, r: nat, n: nat)
    requires n < |configs| == |refused| && configs[n].radar == r && DistinctHosts(us)
    requires forall i :: 0 <= i < |us| ==> AsConfigured(us[i], refusedThen, configs, refused, r, n)
    requires Joined(us, after, configs[n].host, configs[n].antenna)
    ensures forall i :: 0 <= i < |after| ==> AsConfigured(after[i], refusedThen, configs, refused, r, n + 1)
    ensures DistinctHosts(after) && forall h :: HasHost(after, h) <==> HasHost(us, h)
  {
    var host := configs[n].host;
    var i :| 0 <= i < |us| && us[i].host == host && after == us[i := us[i].(antennas := us[i].antennas + [configs[n].antenna])];
    assert |after| == |us| && forall j :: 0 <= j < |us| ==> after[j].host == us[j].host;
    forall j | 0 <= j < |after| ensures AsConfigured(after[j], refusedThen, configs, refused, r, n + 1) {
      if j == i { AntennaJoined(us[i], refusedThen, configs, refused, r, n); } else { StillConfigured(us[j], refusedThen, configs, refused, r, n); }
    }
    forall h ensures HasHost(after, h) <==> HasHost(us, h) {
      if j :| 0 <= j < |us| && us[j].host == h { assert after[j].host == h; }
      if j :| 0 <= j < |after| && after[j].host == h { assert us[j].host == h; }
    }
  }

  lemma AntennaJoined(u: Usrp, refusedThen: bool, configs: seq<Config>, refused: seq<bool>, r: nat, n: nat)
    requires n < |configs| == |refused| && AsConfigured(u, refusedThen, configs, refused, r, n)
    requires IsLineOf(configs[n], r, u.host)
    ensures AsConfigured(u.(antennas := u.antennas + [configs[n].antenna]), refusedThen, configs, refused, r, n + 1)
  {
    var k: nat :| k < n && IsFirstLine(configs, r, u.host, k) && refused[k] == refusedThen
                  && u.driver == configs[k].driver && u.address == Address(configs[k].driver, configs[k].port);
    assert k < n + 1;
  }

  /** A USRP that is not known yet: this is its first line. */
  lemma NewConfigured(configs: seq<Config>, refused: seq<bool>, r: nat, n: nat, up: seq<Usrp>, down: seq<Usrp>)
    requires n < |configs| == |refused| && configs[n].radar == r && AllConfigured(configs, refused, r, n, up, down)
    requires !HasHost(up, configs[n].host) && !HasHost(down, configs[n].host)
    ensures var c := configs[n];
      AsConfigured(Usrp(Address(c.driver, c.port), [c.antenna], c.host, c.driver), refused[n], configs, refused, r, n + 1)
  {
    forall j | 0 <= j < n ensures !IsLineOf(configs[j], r, configs[n].host) {}
    NoAntennas(configs, r, configs[n].host, n);
    assert IsFirstLine(configs, r, configs[n].host, n);
  }

  lemma {:induction false} NoAntennas(configs: seq<Config>, r: nat, host: int, n: nat)
    requires n <= |configs| && forall j :: 0 <= j < n ==> !IsLineOf(configs[j], r, host)
    ensures AntennasOf(configs, r, host, n) == []
  {
    if n > 0 { NoAntennas(configs, r, host, n - 1); }
  }

  lemma HostAppended(us: seq<Usrp>, u: Usrp)
    requires DistinctHosts(us) && !HasHost(us, u.host)
    ensures DistinctHosts(us + [u]) && forall h :: HasHost(us + [u], h) <==> HasHost(us, h) || h == u.host
  {
    forall h ensures HasHost(us + [u], h) <==> HasHost(us, h) || h == u.host {
      assert (us + [u])[|us|] == u;
      if j :| 0 <= j < |us| && us[j].host == h { assert (us + [u])[j].host == h; }
    }
  }

  lemma LineRead(configs: seq<Config>, refused: seq<bool>, n: nat, up: seq<Usrp>, down: seq<Usrp>, up': seq<Usrp>, down': seq<Usrp>)
    requires n < |configs| == |refused| && AllConfigured(configs, refused, configs[n].radar, n, up, down)
    requires OneConfigured(configs[n], refused[n], up, down, up', down')
    ensures AllConfigured(configs, refused, configs[n].radar, n + 1, up', down')
  {
    var c, r := configs[n], configs[n].radar;
    var u := Usrp(Address(c.driver, c.port), [c.antenna], c.host, c.driver);
    if HasHost(up, c.host) {
      NotRefused(configs, refused, r, n, up, down, c.host);
      JoinedConfigured(up, up', false, configs, refused, r, n);
      StillConfiguredAll(down, true, configs, refused, r, n);
    } else if HasHost(down, c.host) {
      JoinedConfigured(down, down', true, configs, refused, r, n);
      StillConfiguredAll(up, false, configs, refused, r, n);
    } else {
      NewConfigured(configs, refused, r, n, up, down);
      StillConfiguredAll(up, false, configs, refused, r, n);
      StillConfiguredAll(down, true, configs, refused, r, n);
      HostAppended(if refused[n] then down else up, u);
    }
  }

  /** The first n lines of the configuration have been read for radar r. */
  ghost predicate HasRead(r: nat, configs: seq<Config>, refused: seq<bool>, n: nat, up: seq<Usrp>, down: seq<Usrp>)
    requires n <= |configs| == |refused|
  {
    Antennas(up) + Antennas(down) == Configured(configs, r, n) && AllConfigured(configs, refused, r, n, up, down)
  }

  lemma ReadNext(r: nat, configs: seq<Config>, refused: seq<bool>, n: nat,
                 up: seq<Usrp>, down: seq<Usrp>, up': seq<Usrp>, down': seq<Usrp>)
    requires n < |configs| == |refused| && HasRead(r, configs, refused, n, up, down)
    requires if r != configs[n].radar then up' == up && down' == down else
      && OneConfigured(configs[n], refused[n], up, down, up', down')
      && Antennas(up') + Antennas(down') == Antennas(up) + Antennas(down) + multiset{configs[n].antenna}
    ensures HasRead(r, configs, refused, n + 1, up', down')
  {
    if r == configs[n].radar {
      LineRead(configs, refused, n, up, down, up', down');
    } else {
      OtherLineRead(configs, refused, r, n, up, down);
    }
  }

  /** A connected USRP is not among the others. */
  lemma NotRefused(configs: seq<Config>, refused: seq<bool>, r: nat, n: nat, up: seq<Usrp>, down: seq<Usrp>, host: int)
    requires n <= |configs| == |refused| && AllConfigured(configs, refused, r, n, up, down) && HasHost(up, host)
    ensures !HasHost(down, host)
  {
    var i :| 0 <= i < |up| && up[i].host == host;
    var k: nat :| k < n && IsFirstLine(configs, r, host, k) && !refused[k];
    forall j | 0 <= j < |down| ensures down[j].host != host { assert AsConfigured(down[j], true, configs, refused, r, n); }
  }

  // ---------------------------------------------------------------- returns of all radars together

  /** Number of sockets of the first r radars. */
  function Start(socks: seq<seq<int>>, r: nat): nat
    requires r <= |socks|
  {
    if r == 0 then 0 else Start(socks, r - 1) + |socks[r - 1]|
  }

  function Total(socks: seq<seq<int>>): nat { Start(socks, |socks|) }

  lemma {:induction false} StartGrows(socks: seq<seq<int>>, r: nat, q: nat)
    requires r <= q <= |socks|
    ensures Start(socks, r) <= Start(socks, q)
    decreases q
  {
    if r < q { StartGrows(socks, r, q - 1); }
  }

  /** The radar whose sockets contain place x when the sockets of all radars are put in a row. */
  function RadarAt(socks: seq<seq<int>>, x: nat, r: nat): (q: nat)
    requires r <= |socks| && x < Start(socks, r)
    ensures q < r && Start(socks, q) <= x < Start(socks, q) + |socks[q]|
  {
    if x < Start(socks, r - 1) then RadarAt(socks, x, r - 1) else r - 1
  }

  lemma RadarAtUnique(socks: seq<seq<int>>, r: nat, k: nat)
    requires r < |socks| && k < |socks[r]|
    ensures Start(socks, r) + k < Total(socks) && RadarAt(socks, Start(socks, r) + k, |socks|) == r
  {
    StartGrows(socks, r + 1, |socks|);
    var q := RadarAt(socks, Start(socks, r) + k, |socks|);
    if q < r { StartGrows(socks, q + 1, r); }
    if r < q { StartGrows(socks, r + 1, q); }
  }

  /** The sockets of the first r radars in a row. */
  function Flat(socks: seq<seq<int>>, r: nat): (flat: seq<int>)
    requires r <= |socks|
    ensures |flat| == Start(socks, r)
  {
    if r == 0 then [] else Flat(socks, r - 1) + socks[r - 1]
  }

  lemma {:induction false} FlatAt(socks: seq<seq<int>>, q: nat, k: nat, r: nat)
    requires q < r <= |socks| && k < |socks[q]|
    ensures Start(socks, q) + k < Start(socks, r) && Flat(socks, r)[Start(socks, q) + k] == socks[q][k]
    decreases r
  {
    if q < r - 1 { FlatAt(socks, q, k, r - 1); }
  }

  lemma SplitAntennas(a: seq<Usrp>, u: Usrp, c: seq<Usrp>)
    ensures Antennas(a + [u] + c) == Antennas(a + c) + multiset(u.antennas)
  {
    AntennasAppend(a, u);
    AntennasConcat(a + [u], c);
    AntennasConcat(a, c);
  }

  lemma MovedAntennas(us: seq<Usrp>, lost: seq<Usrp>, i: nat)
    requires i < |us|
    ensures Antennas(Without(us, i)) + Antennas(lost + [us[i]]) == Antennas(us) + Antennas(lost)
  {
    AntennasAppend(lost, us[i]);
    SplitAntennas(us[..i], us[i], us[i + 1..]);
    assert us == us[..i] + [us[i]] + us[i + 1..] && Without(us, i) == us[..i] + us[i + 1..];
  }

  /** The loop of eval_client_return without a radar: the first failure sets the radar, and from
      then on every index is an index into the list of that radar. */
  datatype Pass = Pass(socks: seq<seq<int>>, radar: Option<nat>, offset: nat)

  function RemoveAt(p: Pass, r: nat, k: nat): Pass
    requires r < |p.socks| && k < |p.socks[r]|
  {
    Pass(p.socks[r := Without(p.socks[r], k)], Some(r), p.offset + 1)
  }

  /** One failure; None if an index is out of range. */
  function Fail(p: Pass, i: nat): (after: Option<Pass>)
    requires p.offset <= i && (p.radar.Some? ==> p.radar.value < |p.socks|)
    ensures after.Some? ==> after.value.offset == p.offset + 1 && after.value.radar.Some?
    ensures after.Some? ==> |after.value.socks| == |p.socks| && after.value.radar.value < |p.socks|
  {
    if p.radar.None? then
      if i - p.offset >= Total(p.socks) then None
      else
        var r := RadarAt(p.socks, i - p.offset, |p.socks|);
        Some(RemoveAt(p, r, i - p.offset - Start(p.socks, r)))
    else if i - p.offset >= |p.socks[p.radar.value]| then None
    else Some(RemoveAt(p, p.radar.value, i - p.offset))
  }

  function PassFrom(p: Pass, failed: seq<bool>, i: nat): Option<Pass>
    requires p.offset <= i <= |failed| && (p.radar.Some? ==> p.radar.value < |p.socks|)
    decreases |failed| - i
  {
    if i == |failed| then Some(p)
    else if !failed[i] then PassFrom(p, failed, i + 1)
    else
      var after := Fail(p, i);
      if after.None? then None else PassFrom(after.value, failed, i + 1)
  }

  predicate FailedAt(failed: seq<bool>, x: nat) { x < |failed| && failed[x] }

  /** Exactly the sockets whose own return was an error were removed. */
  ghost predicate Exact(socks: seq<seq<int>>, failed: seq<bool>, after: seq<seq<int>>) {
    && |after| == |socks|
    && forall r, k :: 0 <= r < |socks| && 0 <= k < |socks[r]| ==>
         (socks[r][k] in after[r] <==> !FailedAt(failed, Start(socks, r) + k))
  }

  lemma {:induction false} SkipTo(p: Pass, failed: seq<bool>, i: nat, f: nat)
    requires p.offset <= i <= f <= |failed| && (p.radar.Some? ==> p.radar.value < |p.socks|)
    requires forall x :: i <= x < f ==> !failed[x]
    ensures PassFrom(p, failed, i) == PassFrom(p, failed, f)
    decreases f - i
  {
    if i < f { SkipTo(p, failed, i + 1, f); }
  }

  /** Once the radar is set, the sockets of the other radars stay ... */
  lemma {:induction false} OtherRadarsStay(p: Pass, failed: seq<bool>, i: nat, r: nat, t: Pass)
    requires p.offset <= i <= |failed| && p.radar == Some(r) && r < |p.socks| && PassFrom(p, failed, i) == Some(t)
    ensures |t.socks| == |p.socks| && forall q :: 0 <= q < |t.socks| && q != r ==> t.socks[q] == p.socks[q]
    decreases |failed| - i
  {
    if i < |failed| {
      OtherRadarsStay(if failed[i] then Fail(p, i).value else p, failed, i + 1, r, t);
    }
  }

  /** ... and so do those of the radar at places below the shifted index. */
  lemma {:induction false} LowPlacesStay(p: Pass, failed: seq<bool>, i: nat, r: nat, k: nat, t: Pass)
    requires p.offset <= i <= |failed| && p.radar == Some(r) && r < |p.socks| && PassFrom(p, failed, i) == Some(t)
    requires k < i - p.offset && k < |p.socks[r]|
    ensures |t.socks| == |p.socks| && k < |t.socks[r]| && t.socks[r][k] == p.socks[r][k]
    decreases |failed| - i
  {
    if i < |failed| {
      LowPlacesStay(if failed[i] then Fail(p, i).value else p, failed, i + 1, r, k, t);
    }
  }

  lemma {:induction false} KeptMembers(s: seq<int>, failed: seq<bool>, n: nat)
    requires |s| == |failed| && Distinct(s) && n <= |s|
    ensures forall x :: x in KeptOf(s, failed, n) <==> exists k :: 0 <= k < n && s[k] == x && !failed[k]
  {
    if n > 0 { KeptMembers(s, failed, n - 1); }
  }

  /** The pass behind the first i returns, when all failures are in radar r. */
  function PartPass(socks: seq<seq<int>>, fl: seq<bool>, i: nat, r: nat): (p: Pass)
    requires r < |socks| && |fl| == |socks[r]| && i <= |fl|
    ensures p.offset <= i && |p.socks| == |socks|
  {
    DeletedBound(fl, i);
    Pass(socks[r := Partly(socks[r], fl, i)], Some(r), Deleted(fl, i))
  }

  lemma {:induction false} DeletedBound(failed: seq<bool>, n: nat)
    requires n <= |failed|
    ensures Deleted(failed, n) <= n
  {
    if n > 0 { DeletedBound(failed, n - 1); }
  }

  lemma PartStep(socks: seq<seq<int>>, fl: seq<bool>, i: nat, r: nat)
    requires r < |socks| && |fl| == |socks[r]| && i < |fl|
    ensures fl[i] ==> Fail(PartPass(socks, fl, i, r), i) == Some(PartPass(socks, fl, i + 1, r))
    ensures !fl[i] ==> PartPass(socks, fl, i + 1, r) == PartPass(socks, fl, i, r)
  {
    DeleteShifted(socks[r], fl, i);
    var p := PartPass(socks, fl, i, r);
    var next := Partly(socks[r], fl, i + 1);
    assert p.socks[r := next] == socks[r := next];
    if !fl[i] { assert socks[r := next] == p.socks; }
  }

  /** All failures in a radar that comes first: the shifted index is right. */
  lemma {:induction false} FirstRadarPass(socks: seq<seq<int>>, failed: seq<bool>, fl: seq<bool>, i: nat, r: nat)
    requires r < |socks| && |fl| == |socks[r]| && i <= |fl| <= |failed| && fl == failed[..|fl|]
    requires forall x :: |fl| <= x < |failed| ==> !failed[x]
    ensures PassFrom(PartPass(socks, fl, i, r), failed, i) == Some(PartPass(socks, fl, |fl|, r))
    decreases |fl| - i
  {
    if i == |fl| {
      SkipTo(PartPass(socks, fl, i, r), failed, i, |failed|);
    } else {
      assert failed[i] == fl[i];
      PartStep(socks, fl, i, r);
      FirstRadarPass(socks, failed, fl, i + 1, r);
    }
  }

  /** The pass behind the first failure, which is at place f. */
  function AfterFirst(socks: seq<seq<int>>, f: nat): (p: Pass)
    requires f < Total(socks)
    ensures |p.socks| == |socks| && p.radar == Some(RadarAt(socks, f, |socks|)) && p.offset == 1
    ensures forall q :: 0 <= q < |socks| && q != RadarAt(socks, f, |socks|) ==> p.socks[q] == socks[q]
  {
    var r := RadarAt(socks, f, |socks|);
    Pass(socks[r := Without(socks[r], f - Start(socks, r))], Some(r), 1)
  }

  /** The first failure is removed correctly. */
  lemma FirstFailure(socks: seq<seq<int>>, failed: seq<bool>, f: nat)
    requires |failed| == Total(socks) && f < |failed| && failed[f] && forall x :: 0 <= x < f ==> !failed[x]
    ensures PassFrom(Pass(socks, None, 0), failed, 0) == PassFrom(AfterFirst(socks, f), failed, f + 1)
  {
    SkipTo(Pass(socks, None, 0), failed, 0, f);
  }

  lemma WithoutMembers(s: seq<int>, l: nat, k: nat)
    requires Distinct(s) && l < |s| && k < |s|
    ensures s[k] in Without(s, l) <==> k != l
  {
    var t := Without(s, l);
    if k < l { assert t[k] == s[k]; }
    if k > l { assert t[k - 1] == s[k]; }
  }

  /** A single failure is handled correctly in any radar. */
  lemma OneFailureExact(socks: seq<seq<int>>, next: int, failed: seq<bool>, f: nat)
    requires SocksOk(socks, next) && |failed| == Total(socks) && f < |failed|
    requires forall x :: 0 <= x < |failed| ==> failed[x] == (x == f)
    ensures PassFrom(Pass(socks, None, 0), failed, 0).Some?
    ensures Exact(socks, failed, PassFrom(Pass(socks, None, 0), failed, 0).value.socks)
  {
    FirstFailure(socks, failed, f);
    var r := RadarAt(socks, f, |socks|);
    var after := socks[r := Without(socks[r], f - Start(socks, r))];
    SkipTo(AfterFirst(socks, f), failed, f + 1, |failed|);
    forall q, k | 0 <= q < |socks| && 0 <= k < |socks[q]|
      ensures socks[q][k] in after[q] <==> !FailedAt(failed, Start(socks, q) + k)
    {
      RadarAtUnique(socks, q, k);
      if q == r { WithoutMembers(socks[r], f - Start(socks, r), k); }
    }
  }

  /** All failures lie in a radar before which there are no sockets. */
  ghost predicate InFirstRadar(socks: seq<seq<int>>, failed: seq<bool>, r: nat) {
    r < |socks| && Start(socks, r) == 0 && forall x :: |socks[r]| <= x < |failed| ==> !failed[x]
  }

  lemma FirstRadarExact(socks: seq<seq<int>>, next: int, failed: seq<bool>, f: nat, r: nat)
    requires SocksOk(socks, next) && |failed| == Total(socks) && f < |failed| && failed[f]
    requires forall x :: 0 <= x < f ==> !failed[x]
    requires InFirstRadar(socks, failed, r)
    ensures PassFrom(Pass(socks, None, 0), failed, 0).Some?
    ensures Exact(socks, failed, PassFrom(Pass(socks, None, 0), failed, 0).value.socks)
  {
    FirstFailure(socks, failed, f);
    RadarAtUnique(socks, r, f);
    StartGrows(socks, r + 1, |socks|);
    AfterFirstIsPart(socks, failed[..|socks[r]|], f, r);
    FirstRadarPass(socks, failed, failed[..|socks[r]|], f + 1, r);
    KeptExact(socks, next, failed, r);
  }

  lemma AfterFirstIsPart(socks: seq<seq<int>>, fl: seq<bool>, f: nat, r: nat)
    requires r < |socks| && |fl| == |socks[r]| && f < |fl| && fl[f] && Start(socks, r) == 0
    requires forall x :: 0 <= x < f ==> !fl[x]
    ensures f < Total(socks) && AfterFirst(socks, f) == PartPass(socks, fl, f + 1, r)
  {
    RadarAtUnique(socks, r, f);
    NothingDeleted(socks[r], fl, f);
    DeleteShifted(socks[r], fl, f);
  }

  lemma KeptExact(socks: seq<seq<int>>, next: int, failed: seq<bool>, r: nat)
    requires SocksOk(socks, next) && |failed| == Total(socks) && InFirstRadar(socks, failed, r) && |socks[r]| <= |failed|
    ensures Exact(socks, failed, PartPass(socks, failed[..|socks[r]|], |socks[r]|, r).socks)
  {
    var s, fl := socks[r], failed[..|socks[r]|];
    assert Partly(s, fl, |s|) == Kept(s, fl);
    KeptMembers(s, fl, |s|);
    forall q, k | 0 <= q < |socks| && 0 <= k < |socks[q]|
      ensures socks[q][k] in socks[r := Kept(s, fl)][q] <==> !FailedAt(failed, Start(socks, q) + k)
    {
      if q != r { OutsideFirst(socks, failed, q, k, r); }
    }
  }

  /** A socket of another radar lies behind the first radar with sockets. */
  lemma OutsideFirst(socks: seq<seq<int>>, failed: seq<bool>, q: nat, k: nat, r: nat)
    requires InFirstRadar(socks, failed, r) && q < |socks| && k < |socks[q]| && q != r
    ensures !FailedAt(failed, Start(socks, q) + k)
  {
    if q < r { StartGrows(socks, q + 1, r); } else { StartGrows(socks, r + 1, q); }
  }

  lemma NothingDeleted(s: seq<int>, failed: seq<bool>, n: nat)
    requires |s| == |failed| && n <= |s| && forall x :: 0 <= x < n ==> !failed[x]
    ensures Deleted(failed, n) == 0 && Partly(s, failed, n) == s
  {
    NoneDeleted(failed, n);
    KeptAll(s, failed, n);
  }

  lemma {:induction false} NoneDeleted(failed: seq<bool>, n: nat)
    requires n <= |failed| && forall x :: 0 <= x < n ==> !failed[x]
    ensures Deleted(failed, n) == 0
  {
    if n > 0 { NoneDeleted(failed, n - 1); }
  }

  lemma {:induction false} KeptAll(s: seq<int>, failed: seq<bool>, n: nat)
    requires |s| == |failed| && n <= |s| && forall x :: 0 <= x < n ==> !failed[x]
    ensures KeptOf(s, failed, n) == s[..n]
  {
    if n > 0 { KeptAll(s, failed, n - 1); }
  }

  /** A failed socket of another radar than that of the first failure stays. */
  lemma OtherRadarWrong(socks: seq<seq<int>>, failed: seq<bool>, f: nat, q: nat, k: nat, t: Pass)
    requires |failed| == Total(socks) && f < |failed| && failed[f] && forall y :: 0 <= y < f ==> !failed[y]
    requires q < |socks| && k < |socks[q]| && FailedAt(failed, Start(socks, q) + k)
    requires q != RadarAt(socks, f, |socks|)
    requires PassFrom(Pass(socks, None, 0), failed, 0) == Some(t)
    ensures !Exact(socks, failed, t.socks)
  {
    FirstFailure(socks, failed, f);
    OtherRadarsStay(AfterFirst(socks, f), failed, f + 1, RadarAt(socks, f, |socks|), t);
    FailedStays(socks, failed, t.socks, q, k);
  }

  lemma FailedStays(socks: seq<seq<int>>, failed: seq<bool>, after: seq<seq<int>>, r: nat, k: nat)
    requires |after| == |socks| && r < |socks| && k < |socks[r]|
    requires FailedAt(failed, Start(socks, r) + k) && socks[r][k] in after[r]
    ensures !Exact(socks, failed, after)
  {}

  /** In a radar that is not the first, the second failed socket stays. */
  lemma LaterRadarWrong(socks: seq<seq<int>>, failed: seq<bool>, f: nat, g: nat, r: nat, t: Pass)
    requires |failed| == Total(socks) && f < g < |failed| && failed[f] && failed[g]
    requires forall y :: 0 <= y < g && y != f ==> !failed[y]
    requires r == RadarAt(socks, f, |socks|) && 0 < Start(socks, r) && g < Start(socks, r) + |socks[r]|
    requires PassFrom(Pass(socks, None, 0), failed, 0) == Some(t)
    ensures !Exact(socks, failed, t.socks)
  {
    FirstFailure(socks, failed, f);
    var p := AfterFirst(socks, f);
    var k := g - Start(socks, r);
    SkipTo(p, failed, f + 1, g);
    ShiftedPlace(socks, f, r, k);
    LowPlacesStay(p, failed, g, r, k - 1, t);
    FailedStays(socks, failed, t.socks, r, k);
  }

  lemma ShiftedPlace(socks: seq<seq<int>>, f: nat, r: nat, k: nat)
    requires f < Total(socks) && r == RadarAt(socks, f, |socks|) && f - Start(socks, r) < k < |socks[r]|
    ensures k - 1 < |AfterFirst(socks, f).socks[r]| && AfterFirst(socks, f).socks[r][k - 1] == socks[r][k]
  {}

  lemma AllInFirst(socks: seq<seq<int>>, failed: seq<bool>, r: nat)
    requires |failed| == Total(socks) && r < |socks| && Start(socks, r) == 0
    requires forall x: nat :: x < |failed| && failed[x] ==> RadarAt(socks, x, |socks|) == r
    ensures InFirstRadar(socks, failed, r)
  {
    assert forall x: nat :: x < |failed| && RadarAt(socks, x, |socks|) == r ==> x < |socks[r]|;
  }

  /** With a second failure, some failed socket stays, or an index is out of range, unless all
      failures lie in a radar before which there are no sockets. */
  lemma SecondFailureWrong(socks: seq<seq<int>>, failed: seq<bool>, f: nat, g: nat, t: Pass)
    requires |failed| == Total(socks) && f < g < |failed| && failed[f] && failed[g]
    requires forall x :: 0 <= x < g && x != f ==> !failed[x]
    requires !InFirstRadar(socks, failed, RadarAt(socks, f, |socks|))
    requires PassFrom(Pass(socks, None, 0), failed, 0) == Some(t)
    ensures !Exact(socks, failed, t.socks)
  {
    var r := RadarAt(socks, f, |socks|);
    if x: nat :| x < |failed| && failed[x] && RadarAt(socks, x, |socks|) != r {
      var q := RadarAt(socks, x, |socks|);
      OtherRadarWrong(socks, failed, f, q, x - Start(socks, q), t);
    } else if Start(socks, r) > 0 {
      LaterRadarWrong(socks, failed, f, g, r, t);
    } else {
      AllInFirst(socks, failed, r);
    }
  }

  /** Without a radar, eval_client_return removes exactly the failed sockets if and only if at most
      one of them failed or all failures lie in a radar before which there are no sockets; so it
      always does if there is one radar. */
  lemma ExactIff(socks: seq<seq<int>>, next: int, failed: seq<bool>, f: nat)
    requires SocksOk(socks, next) && |failed| == Total(socks) && f < |failed| && failed[f]
    requires forall x :: 0 <= x < f ==> !failed[x]
    ensures var t := PassFrom(Pass(socks, None, 0), failed, 0);
      t.Some? && Exact(socks, failed, t.value.socks) <==>
      (forall x :: f < x < |failed| ==> !failed[x]) || InFirstRadar(socks, failed, RadarAt(socks, f, |socks|))
  {
    var r := RadarAt(socks, f, |socks|);
    if forall x :: f < x < |failed| ==> !failed[x] {
      OneFailureExact(socks, next, failed, f);
    } else if InFirstRadar(socks, failed, r) {
      FirstRadarExact(socks, next, failed, f, r);
    } else if PassFrom(Pass(socks, None, 0), failed, 0).Some? {
      var g := NextFailure(failed, f + 1);
      SecondFailureWrong(socks, failed, f, g, PassFrom(Pass(socks, None, 0), failed, 0).value);
    }
  }

  lemma {:induction false} NextFailure(failed: seq<bool>, i: nat) returns (g: nat)
    requires i <= |failed| && exists x :: i <= x < |failed| && failed[x]
    ensures i <= g < |failed| && failed[g] && forall x :: i <= x < g ==> !failed[x]
    decreases |failed| - i
  {
    if failed[i] { g := i; } else { g := NextFailure(failed, i + 1); }
  }

  lemma OneRadarIsFirst(socks: seq<seq<int>>, failed: seq<bool>)
    requires |socks| == 1 && |failed| == Total(socks)
    ensures InFirstRadar(socks, failed, 0)
  {
    assert Start(socks, 1) == Start(socks, 0) + |socks[0]|;
  }
}
