/**
 An agent's online intervals, rebuilt from its connect and disconnect events.
 */
module Uptime {

  import opened Text

  datatype Kind = Connect | Disconnect | Other

  datatype Event = Event(at: int, kind: Kind)

  // From `start` on, up to but not including `end`.
  datatype Interval = Interval(start: int, end: int)

  predicate Sorted(events: seq<Event>) {
    forall i, j :: 0 <= i < j < |events| ==> events[i].at <= events[j].at
  }

  // --- when the agent was online ---

  predicate Tells(e: Event) { e.kind != Other }

  ghost predicate Latest(events: seq<Event>, t: int, i: nat) {
    && i < |events| && Tells(events[i]) && events[i].at <= t
    && forall j :: i < j < |events| && Tells(events[j]) ==> events[j].at > t
  }

  // The latest event up to then is a connect; and if there is none, the agent must have come in
  // online when the first event of all is a disconnect.
  ghost predicate Online(events: seq<Event>, t: int) {
    || (exists i: nat :: Latest(events, t, i) && events[i].kind == Connect)
    || (CameInOnline(events) && !exists i: nat :: Latest(events, t, i))
  }

  predicate CameInOnline(events: seq<Event>) {
    events != [] && events[0].kind == Disconnect
  }

  // The same, event by event: `first` is the state before all of them.
  function On(events: seq<Event>, first: bool, t: int): bool {
    if events == [] then first
    else
      var e := events[|events| - 1];
      if e.at <= t && Tells(e) then e.kind == Connect else On(events[..|events| - 1], first, t)
  }

  lemma LatestStays(before: seq<Event>, e: Event, t: int)
    requires !(e.at <= t && Tells(e))
    ensures forall i: nat :: Latest(before + [e], t, i) <==> Latest(before, t, i)
    ensures forall i: nat :: Latest(before, t, i) ==> i < |before| && (before + [e])[i] == before[i]
  {
    var events := before + [e];
    assert events[|before|] == e;
    assert forall j :: 0 <= j < |before| ==> events[j] == before[j];
  }

  lemma {:induction false} OnIsLatest(events: seq<Event>, first: bool, t: int)
    ensures On(events, first, t) <==>
      || (exists i: nat :: Latest(events, t, i) && events[i].kind == Connect)
      || (first && !exists i: nat :: Latest(events, t, i))
  {
    if events == [] {
    } else {
      var n := |events| - 1;
      var before := events[..n];
      OnIsLatest(before, first, t);
      if events[n].at <= t && Tells(events[n]) {
        assert Latest(events, t, n);
      } else {
        LatestStays(before, events[n], t);
        assert events == before + [events[n]];
        hide Latest;
      }
    }
  }

  predicate Covered(s: seq<Interval>, t: int) {
    exists i :: 0 <= i < |s| && s[i].start <= t < s[i].end
  }

  predicate InOrder(s: seq<Interval>) {
    forall i, j :: 0 <= i < j < |s| ==> s[i].end <= s[j].start
  }

  predicate Left(events: seq<Event>, t: int) {
    exists j :: 0 <= j < |events| && events[j] == Event(t, Disconnect)
  }

  // The agent went and came back at that very time.
  predicate Reopened(events: seq<Event>, t: int) {
    exists j, k :: 0 <= j < k < |events| && events[j] == Event(t, Disconnect) && events[k] == Event(t, Connect)
  }

  predicate Parted(events: seq<Event>, end: int, start: int) {
    end < start || (end == start && Reopened(events, end))
  }

  // No interval starts where one before it ends, unless the agent came back at once.
  predicate Unsplit(events: seq<Event>, s: seq<Interval>) {
    forall i, j :: 0 <= i < j < |s| ==> Parted(events, s[i].end, s[j].start)
  }

  function Max(a: int, b: int): int { if a >= b then a else b }
  function Min(a: int, b: int): int { if a <= b then a else b }

  lemma CoveredAppend(s: seq<Interval>, v: Interval, t: int)
    ensures Covered(s + [v], t) <==> Covered(s, t) || v.start <= t < v.end
  {
    if v.start <= t < v.end {
      assert (s + [v])[|s|] == v;
    }
    if Covered(s, t) {
      var i :| 0 <= i < |s| && s[i].start <= t < s[i].end;
      assert (s + [v])[i] == s[i];
    }
  }

  // What the first loop has found in the events so far: closed intervals, and perhaps one that is
  // still open. First, where they lie; then, what they cover.
  ghost predicate Placed(events: seq<Event>, from: int, closed: seq<Interval>, open: Option<int>) {
    && Unsplit(events, closed)
    && (forall v :: v in closed ==> events != [] && v.end <= events[|events| - 1].at && Left(events, v.end))
    && (open.Some? ==>
          && (forall v :: v in closed ==> Parted(events, v.end, open.value))
          && (open.value == from || (events != [] && open.value <= events[|events| - 1].at)))
  }

  ghost predicate Covers(events: seq<Event>, first: bool, from: int, closed: seq<Interval>, open: Option<int>) {
    forall t :: from <= t ==>
      (On(events, first, t) <==> Covered(closed, t) || (open.Some? && open.value <= t))
  }

  ghost predicate Found(events: seq<Event>, first: bool, from: int, closed: seq<Interval>, open: Option<int>) {
    Placed(events, from, closed, open) && Covers(events, first, from, closed, open)
  }

  // One event: a connect opens an interval unless one is open, a disconnect closes the open one.
  function NextClosed(e: Event, closed: seq<Interval>, open: Option<int>): seq<Interval> {
    if e.kind == Disconnect && open.Some? then closed + [Interval(open.value, e.at)] else closed
  }

  function NextOpen(e: Event, open: Option<int>): Option<int> {
    if e.kind == Disconnect then None else if e.kind == Connect && open.None? then Some(e.at) else open
  }

  lemma PlacedNext(before: seq<Event>, e: Event, from: int, closed: seq<Interval>, open: Option<int>)
    requires Placed(before, from, closed, open) && Sorted(before + [e])
    ensures Placed(before + [e], from, NextClosed(e, closed, open), NextOpen(e, open))
  {
    var events := before + [e];
    assert before != [] ==> before[|before| - 1] == events[|before| - 1];
    assert events[|before|] == e;
    assert before != [] ==> before[|before| - 1].at <= e.at;
    assert e.kind == Disconnect ==> Left(events, e.at);
    forall x, y
      ensures Parted(before, x, y) ==> Parted(events, x, y)
    {
      EarlierCounts(before, e, x);
    }
    forall x
      ensures Left(before, x) ==> Left(events, x)
      ensures Left(before, x) && x <= e.at && e.kind == Connect ==> Parted(events, x, e.at)
    {
      EarlierCounts(before, e, x);
    }
    hide Left, Parted, Sorted;
    var next := NextClosed(e, closed, open);
    assert forall i :: 0 <= i < |closed| ==> next[i] == closed[i] && closed[i] in closed;
    assert forall v :: v in next ==> v in closed || v.end == e.at;
  }

  // Nothing that is closed so far lasts beyond the event, and what is open was opened before it.
  predicate Until(closed: seq<Interval>, open: Option<int>, from: int, at: int) {
    && (forall i :: 0 <= i < |closed| ==> closed[i].end <= at)
    && (open.Some? ==> open.value == from || open.value <= at)
  }

  lemma CoversAt(e: Event, from: int, closed: seq<Interval>, open: Option<int>, t: int)
    requires Until(closed, open, from, e.at) && from <= t
    ensures var was := Covered(closed, t) || (open.Some? && open.value <= t);
      var (closed', open') := (NextClosed(e, closed, open), NextOpen(e, open));
      Covered(closed', t) || (open'.Some? && open'.value <= t) <==>
        if e.at <= t && Tells(e) then e.kind == Connect else was
  {
    if open.Some? {
      CoveredAppend(closed, Interval(open.value, e.at), t);
    }
    assert e.at <= t ==> !Covered(closed, t);
    hide Covered;
  }

  lemma CoversNext(before: seq<Event>, e: Event, first: bool, from: int, closed: seq<Interval>, open: Option<int>)
    requires Covers(before, first, from, closed, open) && Until(closed, open, from, e.at)
    ensures Covers(before + [e], first, from, NextClosed(e, closed, open), NextOpen(e, open))
  {
    var events := before + [e];
    assert events[..|before|] == before && events[|before|] == e;
    forall t | from <= t
      ensures On(events, first, t) <==>
        Covered(NextClosed(e, closed, open), t) || (NextOpen(e, open).Some? && NextOpen(e, open).value <= t)
    {
      CoversAt(e, from, closed, open, t);
      assert On(events, first, t) == if e.at <= t && Tells(e) then e.kind == Connect else On(before, first, t);
      hide On, Covered, NextClosed, NextOpen;
    }
  }

  lemma PlacedUntil(before: seq<Event>, e: Event, from: int, closed: seq<Interval>, open: Option<int>)
    requires Placed(before, from, closed, open) && Sorted(before + [e])
    ensures Until(closed, open, from, e.at)
  {
    var events := before + [e];
    assert before != [] ==> before[|before| - 1] == events[|before| - 1];
    assert events[|events| - 1] == e;
    hide Unsplit, Left, Reopened;
    assert forall i :: 0 <= i < |closed| ==> closed[i] in closed;
  }

  lemma FoundNext(before: seq<Event>, e: Event, first: bool, from: int, closed: seq<Interval>, open: Option<int>)
    requires Found(before, first, from, closed, open) && Sorted(before + [e])
    ensures Found(before + [e], first, from, NextClosed(e, closed, open), NextOpen(e, open))
  {
    PlacedUntil(before, e, from, closed, open);
    PlacedNext(before, e, from, closed, open);
    hide Placed, Covers, Until, NextClosed, NextOpen;
    CoversNext(before, e, first, from, closed, open);
  }

  lemma EarlierCounts(before: seq<Event>, e: Event, t: int)
    ensures Reopened(before, t) ==> Reopened(before + [e], t)
    ensures Left(before, t) ==> Left(before + [e], t)
    ensures Left(before, t) && e == Event(t, Connect) ==> Reopened(before + [e], t)
  {
    var events := before + [e];
    assert forall j :: 0 <= j < |before| ==> events[j] == before[j];
    assert events[|before|] == e;
  }

  // Sorted, disjoint, non-empty intervals inside the window, which together cover exactly the
  // times of the window at which the agent was online, and which are not split further than the
  // agent's comings and goings split them.
  method OnlineIntervals(events: seq<Event>, windowStart: int, now: int) returns (out: seq<Interval>)
    requires Sorted(events)
    ensures forall t :: windowStart <= t < now ==> (Covered(out, t) <==> Online(events, t))
    ensures Unsplit(events, out)
    ensures forall v :: v in out ==> windowStart <= v.start < v.end <= now
  {
    hide On, Reopened, Left;
    var intervals: seq<Interval> := [];
    var start := if events != [] && events[0].kind == Disconnect then Some(windowStart) else None;
    ghost var first := CameInOnline(events);
    FoundAtFirst(events, windowStart);
    for i := 0 to |events|
      invariant Found(events[..i], first, windowStart, intervals, start)
    {
      var e := events[i];
      assert events[..i + 1] == events[..i] + [e];
      FoundNext(events[..i], e, first, windowStart, intervals, start);
      if e.kind == Connect {
        if start.None? {
          start := Some(e.at);
        }
      } else if e.kind == Disconnect {
        if start.Some? {
          intervals := intervals + [Interval(start.value, e.at)];
          start := None;
        }
      }
    }
    assert events[..|events|] == events;
    FoundAtLast(events, windowStart, now, intervals, start);
    if start.Some? {
      intervals := intervals + [Interval(start.value, now)];
    }
    out := Clamp(intervals, windowStart, now);
  }

  lemma FoundAtFirst(events: seq<Event>, from: int)
    ensures events[..0] == []
    ensures Found([], CameInOnline(events), from, [], if CameInOnline(events) then Some(from) else None)
  {
  }

  lemma FoundAtLast(events: seq<Event>, from: int, now: int, closed: seq<Interval>, open: Option<int>)
    requires Found(events, CameInOnline(events), from, closed, open)
    ensures var all := closed + (if open.Some? then [Interval(open.value, now)] else []);
      && (open.None? ==> all == closed)
      && Unsplit(events, all) && forall t :: from <= t < now ==> (Covered(all, t) <==> Online(events, t))
  {
    var all := closed + (if open.Some? then [Interval(open.value, now)] else []);
    assert open.None? ==> all == closed;
    forall t | from <= t < now
      ensures Covered(all, t) <==> Online(events, t)
    {
      OnIsLatest(events, CameInOnline(events), t);
      if open.Some? {
        CoveredAppend(closed, Interval(open.value, now), t);
      }
    }
  }

  // One interval starts where another one before it ends.
  predicate Meet(s: seq<Interval>, t: int) {
    exists i, j :: 0 <= i < j < |s| && s[i].end == t && s[j].start == t
  }

  // The second loop cuts the intervals to the window and drops what is empty.
  // What the loop has cut so far: disjoint pieces of the window, before all that is still to come.
  ghost predicate Cut(intervals: seq<Interval>, i: nat, from: int, now: int, out: seq<Interval>)
    requires i <= |intervals|
  {
    && InOrder(out)
    && (forall v :: v in out ==> from <= v.start < v.end <= now)
    && (forall v, j :: v in out && i <= j < |intervals| ==> v.end <= intervals[j].start)
    && (forall v :: v in out && v.end < now ==> Ends(intervals[..i], v.end))
    && (forall j, k :: 0 <= j < k < |out| && out[j].end == out[k].start ==> Meet(intervals, out[j].end))
  }

  predicate Ends(s: seq<Interval>, t: int) {
    exists j :: 0 <= j < |s| && s[j].end == t
  }

  function Piece(v: Interval, from: int, now: int): Interval {
    Interval(Max(v.start, from), Min(v.end, now))
  }

  function OneMore(out: seq<Interval>, v: Interval): seq<Interval> {
    if v.end > v.start then out + [v] else out
  }

  lemma EndsNext(intervals: seq<Interval>, i: nat, t: int)
    requires i < |intervals|
    ensures Ends(intervals[..i], t) ==> Ends(intervals[..i + 1], t)
    ensures Ends(intervals[..i], t) && intervals[i].start == t ==> Meet(intervals, t)
    ensures Ends(intervals[..i + 1], intervals[i].end)
  {
    var next := intervals[..i + 1];
    assert next[i] == intervals[i];
    if Ends(intervals[..i], t) {
      var j :| 0 <= j < |intervals[..i]| && intervals[..i][j].end == t;
      assert next[j] == intervals[j];
    }
  }

  lemma CutNext(intervals: seq<Interval>, i: nat, from: int, now: int, out: seq<Interval>)
    requires i < |intervals| && InOrder(intervals) && Cut(intervals, i, from, now, out)
    ensures Cut(intervals, i + 1, from, now, OneMore(out, Piece(intervals[i], from, now)))
  {
    var v := Piece(intervals[i], from, now);
    forall t
      ensures Ends(intervals[..i], t) ==> Ends(intervals[..i + 1], t)
      ensures Ends(intervals[..i], t) && intervals[i].start == t ==> Meet(intervals, t)
      ensures Ends(intervals[..i + 1], intervals[i].end)
    {
      EndsNext(intervals, i, t);
    }
    assert forall j :: i < j < |intervals| ==> intervals[i].end <= intervals[j].start;
    hide Ends, Meet;
    if v.end > v.start {
      CutTakes(intervals, i, from, now, out, v);
    }
  }

  lemma CutTakes(intervals: seq<Interval>, i: nat, from: int, now: int, out: seq<Interval>, v: Interval)
    requires i < |intervals| && Cut(intervals, i, from, now, out) && v == Piece(intervals[i], from, now) && v.start < v.end
    requires forall j :: i < j < |intervals| ==> intervals[i].end <= intervals[j].start
    requires forall t :: Ends(intervals[..i], t) ==> Ends(intervals[..i + 1], t)
    requires forall t :: Ends(intervals[..i], t) && intervals[i].start == t ==> Meet(intervals, t)
    requires Ends(intervals[..i + 1], intervals[i].end)
    ensures Cut(intervals, i + 1, from, now, out + [v])
  {
    var all := out + [v];
    OrderedAppend(out, v);
    hide Ends, Meet, InOrder;
    assert forall u :: u in out ==> u.end <= v.start;
    assert forall u :: u in all <==> u in out || u == v;
    assert v.end < now ==> v.end == intervals[i].end;
    forall j, k | 0 <= j < k < |all| && all[j].end == all[k].start
      ensures Meet(intervals, all[j].end)
    {
      assert all[j] == out[j] && out[j] in out;
      if k < |out| {
        assert all[k] == out[k];
      } else {
        assert out[j].end == v.start && v.start == intervals[i].start;
      }
    }
  }

  lemma OrderedAppend(s: seq<Interval>, v: Interval)
    requires InOrder(s)
    ensures (forall u :: u in s ==> u.end <= v.start) ==> InOrder(s + [v])
  {
  }

  lemma PieceCovers(intervals: seq<Interval>, i: nat, from: int, now: int, out: seq<Interval>)
    requires i < |intervals|
    requires forall t :: from <= t < now ==> (Covered(out, t) <==> Covered(intervals[..i], t))
    ensures forall t :: from <= t < now ==>
      (Covered(OneMore(out, Piece(intervals[i], from, now)), t) <==> Covered(intervals[..i + 1], t))
  {
    var v := Piece(intervals[i], from, now);
    forall t | from <= t < now
      ensures Covered(OneMore(out, v), t) <==> Covered(intervals[..i + 1], t)
    {
      assert intervals[..i + 1] == intervals[..i] + [intervals[i]];
      CoveredAppend(intervals[..i], intervals[i], t);
      CoveredAppend(out, v, t);
      hide Covered;
    }
  }

  method Clamp(intervals: seq<Interval>, windowStart: int, now: int) returns (out: seq<Interval>)
    requires InOrder(intervals)
    ensures forall t :: windowStart <= t < now ==> (Covered(out, t) <==> Covered(intervals, t))
    ensures InOrder(out)
    ensures forall i, j :: 0 <= i < j < |out| && out[i].end == out[j].start ==> Meet(intervals, out[i].end)
    ensures forall v :: v in out ==> windowStart <= v.start < v.end <= now
  {
    out := [];
    for i := 0 to |intervals|
      invariant Cut(intervals, i, windowStart, now, out)
      invariant forall t :: windowStart <= t < now ==> (Covered(out, t) <==> Covered(intervals[..i], t))
    {
      hide Cut, Covered, InOrder;
      var s, e := Max(intervals[i].start, windowStart), Min(intervals[i].end, now);
      CutNext(intervals, i, windowStart, now, out);
      PieceCovers(intervals, i, windowStart, now, out);
      if e > s {
        out := out + [Interval(s, e)];
      }
    }
    assert intervals[..|intervals|] == intervals;
  }
}
