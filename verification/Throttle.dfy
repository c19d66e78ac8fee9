/**
 The login throttle. The table forgets aged failures lazily: on a lookup, and in a sweep when it
 is full. What it answers is nevertheless a function of the calls made so far.
 */
module Throttle {

  import opened Text
  import Sets

  const WINDOW: real := 300.0
  const MAX := 8
  const MAX_IPS := 50000

  type Log = map<string, seq<real>>

  function Get(m: Log, ip: string): seq<real> {
    if ip in m then m[ip] else []
  }

  // The failures that are younger than the window.
  function Recent(s: seq<real>, now: real): seq<real> {
    if s == [] then []
    else if s[0] > now - WINDOW then [s[0]] + Recent(s[1..], now)
    else Recent(s[1..], now)
  }

  function LiveIps(m: Log, now: real): set<string> {
    set ip | ip in m && Recent(m[ip], now) != []
  }

  // --- what was called, and what it means ---

  datatype Call = Fail(ip: string, at: real) | Clear(ip: string)

  // A failure is not recorded while the table is full of other live addresses, and not even for
  // an address that is in it.
  function Replay(calls: seq<Call>): Log {
    if calls == [] then map[]
    else
      var m := Replay(calls[..|calls| - 1]);
      match calls[|calls| - 1]
      case Fail(ip, at) => if |LiveIps(m, at)| < MAX_IPS then m[ip := Get(m, ip) + [at]] else m
      case Clear(ip) => m - {ip}
  }

  ghost predicate Recorded(calls: seq<Call>, i: nat)
    requires i < |calls|
  {
    calls[i].Fail? && |LiveIps(Replay(calls[..i]), calls[i].at)| < 50000
  }

  // The recorded failures of an address within the window, since it was last cleared.
  ghost function Counted(calls: seq<Call>, ip: string, now: real): set<nat> {
    set i | 0 <= i < |calls| && Counts(calls, i, ip, now)
  }

  ghost predicate Counts(calls: seq<Call>, i: nat, ip: string, now: real)
    requires i < |calls|
  {
    && Recorded(calls, i) && calls[i].ip == ip && calls[i].at > now - 300.0
    && forall j :: i < j < |calls| ==> calls[j] != Clear(ip)
  }

  lemma RecentAppend(s: seq<real>, t: real, now: real)
    ensures Recent(s + [t], now) == Recent(s, now) + (if t > now - WINDOW then [t] else [])
  {
    if s == [] {
      assert s + [t] == [t];
    } else {
      RecentAppend(s[1..], t, now);
      assert (s + [t])[1..] == s[1..] + [t];
    }
  }

  // Whether the last call adds to the count of an address.
  ghost predicate Adds(before: seq<Call>, last: Call, ip: string, now: real) {
    && last.Fail? && last.ip == ip && last.at > now - WINDOW
    && |LiveIps(Replay(before), last.at)| < 50000
  }

  lemma CountsBefore(before: seq<Call>, last: Call, i: nat, ip: string, now: real)
    requires i < |before|
    ensures Counts(before + [last], i, ip, now) <==> Counts(before, i, ip, now) && last != Clear(ip)
  {
    var calls := before + [last];
    assert calls[..i] == before[..i];
    assert calls[|before|] == last;
    assert forall j :: i < j < |before| ==> calls[j] == before[j];
  }

  lemma CountedAfter(before: seq<Call>, last: Call, ip: string, now: real)
    ensures |Counted(before + [last], ip, now)| ==
      if last == Clear(ip) then 0 else |Counted(before, ip, now)| + if Adds(before, last, ip, now) then 1 else 0
  {
    var calls, n := before + [last], |before|;
    forall i | 0 <= i < n
      ensures Counts(calls, i, ip, now) <==> Counts(before, i, ip, now) && last != Clear(ip)
    {
      CountsBefore(before, last, i, ip, now);
    }
    assert calls[..n] == before;
    assert Counts(calls, n, ip, now) <==> Adds(before, last, ip, now);
    hide Counts, Adds;
    if last == Clear(ip) {
      assert Counted(calls, ip, now) == {} by {
        assert !Adds(before, last, ip, now) by { ClearAddsNothing(before, ip, now); }
      }
    } else if Adds(before, last, ip, now) {
      assert Counted(calls, ip, now) == Counted(before, ip, now) + {n};
    } else {
      assert Counted(calls, ip, now) == Counted(before, ip, now);
    }
  }

  lemma ClearAddsNothing(before: seq<Call>, ip: string, now: real)
    ensures !Adds(before, Clear(ip), ip, now)
  {
  }

  lemma ReplayAfter(before: seq<Call>, last: Call, ip: string, now: real)
    ensures |Recent(Get(Replay(before + [last]), ip), now)| ==
      if last == Clear(ip) then 0
      else |Recent(Get(Replay(before), ip), now)| + if Adds(before, last, ip, now) then 1 else 0
  {
    assert (before + [last])[..|before|] == before;
    if last.Fail? {
      RecentAppend(Get(Replay(before), last.ip), last.at, now);
    }
  }

  // The table counts exactly what a reader of the calls would count.
  lemma {:induction false} ReplayCounts(calls: seq<Call>, ip: string, now: real)
    ensures |Recent(Get(Replay(calls), ip), now)| == |Counted(calls, ip, now)|
  {
    if calls == [] {
      assert Counted(calls, ip, now) == {};
    } else {
      var before, last := calls[..|calls| - 1], calls[|calls| - 1];
      hide *;
      ReplayCounts(before, ip, now);
      assert calls == before + [last];
      CountedAfter(before, last, ip, now);
      ReplayAfter(before, last, ip, now);
    }
  }

  // --- a full table does not throttle those that are in it ---

  function Addresses(n: nat): set<string> {
    set i | 0 <= i < n :: PrintNat(i)
  }

  // One failure each of n addresses.
  function Flood(n: nat): seq<Call> {
    if n == 0 then [] else Flood(n - 1) + [Fail(PrintNat(n - 1), 0.0)]
  }

  // Failures of the first address, at these times.
  function Guesses(times: seq<real>): seq<Call> {
    if times == [] then [] else Guesses(times[..|times| - 1]) + [Fail(PrintNat(0), times[|times| - 1])]
  }

  lemma {:induction false} AddressesDiffer(n: nat)
    ensures |Addresses(n)| == n
  {
    if n > 0 {
      AddressesDiffer(n - 1);
      assert PrintNat(n - 1) !in Addresses(n - 1) by {
        if PrintNat(n - 1) in Addresses(n - 1) {
          var i :| 0 <= i < n - 1 && PrintNat(i) == PrintNat(n - 1);
          PrintNatInjective(i, n - 1);
        }
      }
      assert Addresses(n) == Addresses(n - 1) + {PrintNat(n - 1)};
    }
  }

  function OneEach(n: nat): Log {
    map ip | ip in Addresses(n) :: [0.0]
  }

  lemma OneMore(n: nat)
    ensures PrintNat(n) !in Addresses(n)
    ensures OneEach(n)[PrintNat(n) := [0.0]] == OneEach(n + 1)
    ensures LiveIps(OneEach(n), 0.0) == Addresses(n)
  {
    if PrintNat(n) in Addresses(n) {
      var i :| 0 <= i < n && PrintNat(i) == PrintNat(n);
      PrintNatInjective(i, n);
    }
    hide PrintNat;
    assert Addresses(n + 1) == Addresses(n) + {PrintNat(n)};
  }

  lemma ReplayFail(before: seq<Call>, ip: string, at: real)
    ensures Replay(before + [Fail(ip, at)]) ==
      var m := Replay(before);
      if |LiveIps(m, at)| < MAX_IPS then m[ip := Get(m, ip) + [at]] else m
  {
    assert (before + [Fail(ip, at)])[..|before|] == before;
  }

  lemma {:induction false} FloodFills(n: nat)
    requires n <= MAX_IPS
    ensures Replay(Flood(n)) == OneEach(n)
  {
    if n > 0 {
      FloodFills(n - 1);
      assert Flood(n) == Flood(n - 1) + [Fail(PrintNat(n - 1), 0.0)];
      AddressesDiffer(n - 1);
      OneMore(n - 1);
      ReplayFail(Flood(n - 1), PrintNat(n - 1), 0.0);
      NotYet(n - 1);
      hide *;
      assert [] + [0.0] == [0.0];
    }
  }

  lemma NotYet(n: nat)
    ensures Get(OneEach(n), PrintNat(n)) == []
  {
    OneMore(n);
  }

  // Once 50000 addresses have failed within the window, no later failure of one of them counts:
  // it may guess on for the rest of the window and is never throttled.
  lemma {:induction false} FullTableNeverThrottles(times: seq<real>, now: real)
    requires 0.0 <= now && forall i :: 0 <= i < |times| ==> times[i] < WINDOW
    ensures Replay(Flood(MAX_IPS) + Guesses(times)) == Replay(Flood(MAX_IPS))
    ensures |Counted(Flood(MAX_IPS) + Guesses(times), PrintNat(0), now)| == if now < WINDOW then 1 else 0
  {
    var flood := Flood(MAX_IPS);
    FloodFills(MAX_IPS);
    AddressesDiffer(MAX_IPS);
    if times == [] {
      assert flood + Guesses(times) == flood;
      ReplayCounts(flood, PrintNat(0), now);
      assert PrintNat(0) in Addresses(MAX_IPS);
    } else {
      var init, at := times[..|times| - 1], times[|times| - 1];
      FullTableNeverThrottles(init, now);
      var before := flood + Guesses(init);
      assert flood + Guesses(times) == before + [Fail(PrintNat(0), at)];
      assert LiveIps(Replay(flood), at) == Addresses(MAX_IPS);
      CountedAfter(before, Fail(PrintNat(0), at), PrintNat(0), now);
      ReplayAfter(before, Fail(PrintNat(0), at), PrintNat(0), now);
      assert (before + [Fail(PrintNat(0), at)])[..|before|] == before;
    }
  }

  // --- pruning is invisible later on ---

  lemma RecentMembers(s: seq<real>, now: real)
    ensures forall t :: t in Recent(s, now) <==> t in s && t > now - WINDOW
  {
    if s != [] {
      RecentMembers(s[1..], now);
      assert s == [s[0]] + s[1..];
    }
  }

  lemma RecentOfRecent(s: seq<real>, early: real, late: real)
    requires early <= late
    ensures Recent(Recent(s, early), late) == Recent(s, late)
  {
    if s != [] {
      RecentOfRecent(s[1..], early, late);
      if s[0] > early - WINDOW {
        assert ([s[0]] + Recent(s[1..], early))[1..] == Recent(s[1..], early);
      }
    }
  }

  predicate Sorted(s: seq<real>, now: real) {
    && (forall i, j :: 0 <= i < j < |s| ==> s[i] <= s[j])
    && (forall i :: 0 <= i < |s| ==> s[i] <= now)
  }

  lemma RecentKeepsSorted(s: seq<real>, at: real, now: real)
    requires Sorted(s, now)
    ensures Sorted(Recent(s, at), now)
  {
    if s != [] {
      RecentKeepsSorted(s[1..], at, now);
      RecentMembers(s[1..], at);
    }
  }

  // Aged out altogether exactly when the last one is.
  lemma LastDecides(s: seq<real>, at: real, now: real)
    requires Sorted(s, now) && s != []
    ensures Recent(s, at) == [] <==> s[|s| - 1] <= at - WINDOW
  {
    RecentMembers(s, at);
    assert s[|s| - 1] in s;
    if Recent(s, at) != [] {
      assert Recent(s, at)[0] in Recent(s, at);
    }
  }

  // Two tables that cannot be told apart from `now` on.
  ghost predicate Agree(m: Log, n: Log, now: real) {
    forall ip :: Recent(Get(m, ip), now) == Recent(Get(n, ip), now)
  }

  ghost predicate Tidy(m: Log, now: real) {
    (forall ip :: ip in m ==> m[ip] != [] && Sorted(m[ip], now)) && |m| <= 50000
  }

  lemma AgreeLater(m: Log, n: Log, early: real, late: real)
    requires Agree(m, n, early) && early <= late
    ensures Agree(m, n, late)
  {
    forall ip ensures Recent(Get(m, ip), late) == Recent(Get(n, ip), late) {
      RecentOfRecent(Get(m, ip), early, late);
      RecentOfRecent(Get(n, ip), early, late);
    }
  }

  lemma AgreeAppend(m: Log, n: Log, ip: string, now: real)
    requires Agree(m, n, now)
    ensures Agree(m[ip := Get(m, ip) + [now]], n[ip := Get(n, ip) + [now]], now)
  {
    var m', n' := m[ip := Get(m, ip) + [now]], n[ip := Get(n, ip) + [now]];
    RecentAppend(Get(m, ip), now, now);
    RecentAppend(Get(n, ip), now, now);
    forall x
      ensures Recent(Get(m', x), now) == Recent(Get(n', x), now)
    {
      assert x != ip ==> Get(m', x) == Get(m, x) && Get(n', x) == Get(n, x);
    }
  }

  lemma AgreeWithout(m: Log, n: Log, ip: string, now: real)
    requires Agree(m, n, now)
    ensures Agree(m - {ip}, n - {ip}, now)
  {
    forall x
      ensures Recent(Get(m - {ip}, x), now) == Recent(Get(n - {ip}, x), now)
    {
      assert Get(m - {ip}, x) == (if x == ip then [] else Get(m, x));
      assert Get(n - {ip}, x) == (if x == ip then [] else Get(n, x));
    }
  }

  lemma LiveAreTracked(m: Log, n: Log, now: real)
    requires Agree(m, n, now)
    ensures LiveIps(n, now) <= m.Keys && |LiveIps(n, now)| <= |m|
  {
    forall ip | ip in LiveIps(n, now)
      ensures ip in m
    {
      assert Recent(Get(m, ip), now) == Recent(Get(n, ip), now);
    }
    Sets.SubsetSize(LiveIps(n, now), m.Keys);
  }

  // Dropping what has aged out altogether leaves exactly the live addresses.
  lemma SweptAgrees(m: Log, n: Log, doomed: set<string>, now: real)
    requires Agree(m, n, now) && Tidy(m, now)
    requires doomed == set ip | ip in m && (m[ip] == [] || m[ip][|m[ip]| - 1] <= now - WINDOW)
    ensures Agree(m - doomed, n, now) && Tidy(m - doomed, now)
    ensures (m - doomed).Keys == LiveIps(n, now)
  {
    forall ip
      ensures Recent(Get(m - doomed, ip), now) == Recent(Get(n, ip), now)
      ensures ip in m - doomed <==> ip in LiveIps(n, now)
    {
      assert Recent(Get(m, ip), now) == Recent(Get(n, ip), now);
      if ip in m {
        LastDecides(m[ip], now, now);
      }
    }
    Fewer(m, doomed);
  }

  lemma Fewer(m: Log, doomed: set<string>)
    ensures |m - doomed| <= |m|
  {
    assert (m - doomed).Keys == m.Keys - doomed;
    Sets.SubsetSize(m.Keys - doomed, m.Keys);
  }

  lemma TidyAppend(m: Log, ip: string, now: real)
    requires Tidy(m, now) && |m| < MAX_IPS
    ensures Tidy(m[ip := Get(m, ip) + [now]], now)
  {
    assert Sorted(Get(m, ip), now);
    assert Sorted(Get(m, ip) + [now], now);
    hide Sorted;
    assert m[ip := Get(m, ip) + [now]].Keys == m.Keys + {ip};
  }

  function Pruned(m: Log, ip: string, now: real): Log {
    var live := Recent(Get(m, ip), now);
    if live != [] then m[ip := live] else m - {ip}
  }

  lemma PrunedIsTidy(m: Log, ip: string, now: real)
    requires Tidy(m, now)
    ensures Tidy(Pruned(m, ip, now), now)
  {
    RecentKeepsSorted(Get(m, ip), now, now);
    Fewer(m, {ip});
    hide Sorted, Recent;
    if ip in m {
      assert m[ip := Recent(m[ip], now)].Keys == m.Keys;
    }
  }

  lemma PrunedAgrees(m: Log, n: Log, ip: string, now: real)
    requires Agree(m, n, now) && Tidy(m, now)
    ensures Agree(Pruned(m, ip, now), n, now) && Tidy(Pruned(m, ip, now), now)
    ensures Recent(Get(m, ip), now) == Recent(Get(n, ip), now)
  {
    PrunedIsTidy(m, ip, now);
    RecentOfRecent(Get(m, ip), now, now);
    hide Tidy;
    forall x
      ensures Recent(Get(Pruned(m, ip, now), x), now) == Recent(Get(n, x), now)
    {
      assert Recent(Get(m, x), now) == Recent(Get(n, x), now);
    }
  }

  // Present and not empty.
  predicate Given(ip: Option<string>) { ip.Some? && ip.value != "" }

  // `calls` and `clock` record what has happened; times never go back.
  class Throttle {
    var fails: map<string, seq<real>>
    ghost var calls: seq<Call>
    ghost var clock: real

    // The table agrees with the calls on everything that is recent.
    ghost predicate Valid()
      reads this
    {
      Agree(fails, Replay(calls), clock) && Tidy(fails, clock)
    }

    constructor (now: real)
      ensures Valid() && calls == [] && fails == map[] && clock == now
    {
      fails, calls, clock := map[], [], now;
    }

    ghost method Tick(now: real)
      requires Valid() && clock <= now
      modifies this`clock
      ensures Valid() && clock == now
    {
      AgreeLater(fails, Replay(calls), clock, now);
      clock := now;
    }

    // The live failures of an address; the others are dropped from the table.
    method RecentLocked(ip: string, now: real) returns (live: seq<real>)
      requires Valid() && clock <= now
      modifies this`fails, this`clock
      ensures Valid() && clock == now
      ensures live == Recent(Get(Replay(calls), ip), now)
    {
      Tick(now);
      PrunedAgrees(fails, Replay(calls), ip, now);
      hide Agree, Tidy, Replay;
      live := Recent(Get(fails, ip), now);
      if live != [] {
        fails := fails[ip := live];
      } else {
        fails := fails - {ip};
      }
    }

    // Throttled exactly when at least 8 failures that were recorded since the address was last
    // cleared lie within the window, whatever was pruned or swept in between.
    method TooMany(ip: Option<string>, now: real) returns (yes: bool)
      requires Valid() && clock <= now
      modifies this`fails, this`clock
      ensures Valid() && clock == if Given(ip) then now else old(clock)
      ensures yes <==> Given(ip) && |Counted(calls, ip.value, now)| >= 8
    {
      if !Given(ip) {
        return false;
      }
      var live := RecentLocked(ip.value, now);
      ReplayCounts(calls, ip.value, now);
      yes := |live| >= MAX;
    }

    // Drops the addresses whose failures have all aged out.
    method SweepLocked(now: real)
      requires Valid() && clock == now
      modifies this`fails
      ensures Valid()
      ensures fails.Keys == LiveIps(Replay(calls), now)
    {
      var doomed := set ip | ip in fails && (fails[ip] == [] || fails[ip][|fails[ip]| - 1] <= now - WINDOW);
      SweptAgrees(fails, Replay(calls), doomed, now);
      hide Agree, Tidy;
      fails := fails - doomed;
    }

    method RecordFail(ip: Option<string>, now: real)
      requires Valid() && clock <= now
      modifies this
      ensures Valid() && clock == if Given(ip) then now else old(clock)
      ensures calls == old(calls) + if Given(ip) then [Fail(ip.value, now)] else []
    {
      if !Given(ip) {
        return;
      }
      hide Agree, Tidy, Recent;
      Tick(now);
      ghost var log, call := Replay(calls), Fail(ip.value, now);
      assert (calls + [call])[..|calls|] == calls;
      LiveAreTracked(fails, log, now);
      if |fails| >= MAX_IPS {
        SweepLocked(now);
        if |fails| >= MAX_IPS {
          calls := calls + [call];
          return;
        }
        LiveAreTracked(fails, log, now);
      }
      AgreeAppend(fails, log, ip.value, now);
      TidyAppend(fails, ip.value, now);
      fails := fails[ip.value := Get(fails, ip.value) + [now]];
      calls := calls + [call];
    }

    method ClearIp(ip: Option<string>)
      requires Valid()
      modifies this`fails, this`calls
      ensures Valid()
      ensures calls == old(calls) + if Given(ip) then [Clear(ip.value)] else []
    {
      if !Given(ip) {
        return;
      }
      hide Agree, Recent;
      assert (calls + [Clear(ip.value)])[..|calls|] == calls;
      AgreeWithout(fails, Replay(calls), ip.value, clock);
      Fewer(fails, {ip.value});
      fails := fails - {ip.value};
      calls := calls + [Clear(ip.value)];
    }
  }
}
