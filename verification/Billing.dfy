/**
 Traffic billing. The engine counts bytes per proxy and forgets the counts when it restarts, and
 those of a client when it disconnects; the panel fetches them now and then, adds what is new to
 each tunnel's totals, and suspends the teams that are over their quota.
 */
module Billing {

  import opened Text
  import Config
  import Panel

  datatype Pair = Pair(inn: nat, out: nat)

  // The engine keeps its counts per owner and proxy name.
  datatype Key = Key(cn: string, name: string)

  type Counters = map<Key, Pair>

  // The total billed for one direction, and the engine's count when it was last read.
  datatype Meter = Meter(bytes: nat, last: nat)

  datatype Tunnel = Tunnel(id: nat, agent: nat, inn: Meter, out: Meter)

  datatype Team = Team(id: nat, quota: Option<int>, suspended: bool)

  function KeyOf(t: Tunnel): Key {
    Key(Config.AgentCn(t.agent), "t" + PrintNat(t.id))
  }

  // A count below the last one means that the engine started over.
  function Read(m: Meter, count: nat): Meter {
    Meter(m.bytes + (if count >= m.last then count - m.last else count), count)
  }

  function Bill(t: Tunnel, traffic: Counters): Tunnel {
    var k := KeyOf(t);
    if k in traffic then t.(inn := Read(t.inn, traffic[k].inn), out := Read(t.out, traffic[k].out)) else t
  }

  function BillAll(ts: seq<Tunnel>, traffic: Counters): seq<Tunnel> {
    seq(|ts|, i requires 0 <= i < |ts| => Bill(ts[i], traffic))
  }

  // `agents` maps an agent to its team.
  predicate Belongs(t: Tunnel, agents: map<nat, Option<nat>>, team: nat) {
    t.agent in agents && agents[t.agent] == Some(team)
  }

  function Usage(ts: seq<Tunnel>, agents: map<nat, Option<nat>>, team: nat): nat {
    if ts == [] then 0
    else
      Usage(ts[..|ts| - 1], agents, team)
      + var t := ts[|ts| - 1]; if Belongs(t, agents, team) then t.inn.bytes + t.out.bytes else 0
  }

  function Judge(team: Team, ts: seq<Tunnel>, agents: map<nat, Option<nat>>): Team {
    team.(suspended := Panel.Over(team.quota, Usage(ts, agents, team.id)))
  }

  // The panel's rows, in the order in which the queries return them.
  class Poller {
    var tunnels: seq<Tunnel>
    var teams: seq<Team>
    var agents: map<nat, Option<nat>>

    constructor (tunnels: seq<Tunnel>, teams: seq<Team>, agents: map<nat, Option<nat>>)
      ensures this.tunnels == tunnels && this.teams == teams && this.agents == agents
    {
      this.tunnels, this.teams, this.agents := tunnels, teams, agents;
    }

    method Accumulate(traffic: Counters)
      modifies this`tunnels
      ensures tunnels == BillAll(old(tunnels), traffic)
    {
      ghost var was := tunnels;
      for i := 0 to |tunnels|
        invariant |tunnels| == |was|
        invariant forall j :: 0 <= j < |was| ==> tunnels[j] == if j < i then Bill(was[j], traffic) else was[j]
      {
        var t := tunnels[i];
        var k := KeyOf(t);
        if k in traffic {
          var cin, cout := traffic[k].inn, traffic[k].out;
          t := t.(inn := Meter(t.inn.bytes + (if cin >= t.inn.last then cin - t.inn.last else cin), cin));
          t := t.(out := Meter(t.out.bytes + (if cout >= t.out.last then cout - t.out.last else cout), cout));
          tunnels := tunnels[i := t];
        }
      }
    }

    method SumUsage(team: nat) returns (usage: nat)
      ensures usage == Usage(tunnels, agents, team)
    {
      usage := 0;
      for i := 0 to |tunnels|
        invariant usage == Usage(tunnels[..i], agents, team)
      {
        assert tunnels[..i + 1][..i] == tunnels[..i];
        if Belongs(tunnels[i], agents, team) {
          usage := usage + (tunnels[i].inn.bytes + tunnels[i].out.bytes);
        }
      }
      assert tunnels[..|tunnels|] == tunnels;
    }

    // One poll: bill every tunnel, then bring the suspensions in line, and name the agents that
    // need a new configuration: those of the teams whose suspension changed.
    method PollOnce(traffic: Counters) returns (notified: set<nat>)
      modifies this`tunnels, this`teams
      ensures tunnels == BillAll(old(tunnels), traffic)
      ensures |teams| == |old(teams)|
      ensures forall i :: 0 <= i < |teams| ==> teams[i] == Judge(old(teams)[i], tunnels, agents)
      ensures forall i :: 0 <= i < |teams| ==>
        (teams[i].suspended <==> teams[i].quota.Some? && Usage(tunnels, agents, teams[i].id) > teams[i].quota.value)
      ensures forall a :: a in notified <==>
        && a in agents
        && exists i :: 0 <= i < |teams| && agents[a] == Some(teams[i].id)
                    && teams[i].suspended != old(teams)[i].suspended
    {
      Accumulate(traffic);
      ghost var was := teams;
      var flipped: set<nat> := {};
      for i := 0 to |teams|
        invariant tunnels == BillAll(old(tunnels), traffic)
        invariant |teams| == |was|
        invariant forall j :: 0 <= j < |was| ==> teams[j] == if j < i then Judge(was[j], tunnels, agents) else was[j]
        invariant forall x :: x in flipped <==>
          exists j :: 0 <= j < i && was[j].id == x && teams[j].suspended != was[j].suspended
      {
        var team := teams[i];
        var usage := SumUsage(team.id);
        var over := team.quota.Some? && usage > team.quota.value;
        if over != team.suspended {
          teams := teams[i := team.(suspended := over)];
          flipped := flipped + {team.id};
        }
      }
      notified := set a | a in agents && agents[a].Some? && agents[a].value in flipped;
    }

    // A changed quota takes effect at once.
    method ChangeQuota(i: nat, quota: Option<int>)
      requires i < |teams|
      modifies this`teams
      ensures teams == old(teams)[i := Judge(old(teams)[i].(quota := quota), tunnels, agents)]
    {
      var usage := SumUsage(teams[i].id);
      teams := teams[i := teams[i].(quota := quota, suspended := quota.Some? && usage > quota.value)];
    }
  }

  // --- runs ---

  // `counters` is what the engine shows, `past` what it showed when it forgot a count, and
  // `orphaned` what connections counted after that under a count it no longer shows. `sample` is
  // a fetched reading that is not billed yet, and `seen` the past of each owner's proxy when it
  // was last shown to the panel.
  datatype State = State(
    tunnels: map<nat, Tunnel>, counters: Counters, past: Counters, orphaned: Counters, seen: Counters,
    sample: Option<Counters>)

  // The engine forgets everything when it restarts, and the counts of a client's proxies when the
  // client disconnects.
  datatype Event =
    | Traffic(k: Key, more: Pair)
    | Orphan(k: Key, more: Pair)
    | Restart
    | Forget(k: Key)
    | Create(id: nat, agent: nat)
    | Delete(id: nat)
    | Fetch
    | FetchFails
    | Commit

  function Count(c: Counters, k: Key): Pair {
    if k in c then c[k] else Pair(0, 0)
  }

  function Plus(a: Pair, b: Pair): Pair {
    Pair(a.inn + b.inn, a.out + b.out)
  }

  function Add(c: Counters, k: Key, more: Pair): Counters {
    c[k := Plus(Count(c, k), more)]
  }

  function Sum(a: Counters, b: Counters): Counters {
    map k | k in a.Keys + b.Keys :: Plus(Count(a, k), Count(b, k))
  }

  function PastOf(past: Counters, keys: set<Key>): Counters {
    map k | k in keys :: Count(past, k)
  }

  function NewRow(id: nat, agent: nat): Tunnel {
    Tunnel(id, agent, Meter(0, 0), Meter(0, 0))
  }

  function BillRows(ts: map<nat, Tunnel>, traffic: Counters): map<nat, Tunnel> {
    map id | id in ts :: Bill(ts[id], traffic)
  }

  predicate Enabled(s: State, e: Event) {
    match e
    case Create(id, _) => id !in s.tunnels
    case Fetch => s.sample.None?
    case FetchFails => s.sample.None?
    case Commit => s.sample.Some?
    case _ => true
  }

  // A fetch that fails reads as no counts at all.
  function After(s: State, e: Event): State
    requires Enabled(s, e)
  {
    match e
    case Traffic(k, more) => s.(counters := Add(s.counters, k, more))
    case Orphan(k, more) => s.(orphaned := Add(s.orphaned, k, more))
    case Restart => s.(past := Sum(s.past, s.counters), counters := map[])
    case Forget(k) => s.(past := Add(s.past, k, Count(s.counters, k)), counters := s.counters - {k})
    case Create(id, agent) => s.(tunnels := s.tunnels[id := NewRow(id, agent)])
    case Delete(id) => s.(tunnels := s.tunnels - {id})
    case Fetch => s.(sample := Some(s.counters), seen := s.seen + PastOf(s.past, s.counters.Keys))
    case FetchFails => s.(sample := Some(map[]))
    case Commit => s.(tunnels := BillRows(s.tunnels, s.sample.value), sample := None)
  }

  const START := State(map[], map[], map[], map[], map[], None)

  ghost predicate IsRun(es: seq<Event>)
    decreases |es|, 0
  {
    es == [] || (IsRun(es[..|es| - 1]) && Enabled(Exec(es[..|es| - 1]), es[|es| - 1]))
  }

  ghost function Exec(es: seq<Event>): State
    requires IsRun(es)
    decreases |es|, 1
  {
    if es == [] then START else After(Exec(es[..|es| - 1]), es[|es| - 1])
  }

  // --- one tunnel, one direction ---

  datatype Side = In | Out {
    function Of(p: Pair): nat {
      if In? then p.inn else p.out
    }
    function Meter(t: Tunnel): Meter {
      if In? then t.inn else t.out
    }
    function At(c: Counters, k: Key): nat {
      Of(Count(c, k))
    }
  }

  // Everything that was ever counted for a proxy of that owner.
  function Total(s: State, k: Key, d: Side): nat {
    d.At(s.past, k) + d.At(s.counters, k) + d.At(s.orphaned, k)
  }

  // The row as it will be once the pending sample is billed.
  function Due(s: State, t: Tunnel): Tunnel {
    if s.sample.Some? then Bill(t, s.sample.value) else t
  }

  // The last reading is of the count that the engine shows now.
  predicate Current(s: State, t: Tunnel, d: Side) {
    d.Meter(Due(s, t)).last == 0 || d.At(s.seen, KeyOf(t)) == d.At(s.past, KeyOf(t))
  }

  // What has been counted since the last reading and can still be billed.
  function Unread(s: State, t: Tunnel, d: Side): nat {
    var (last, count) := (d.Meter(Due(s, t)).last, d.At(s.counters, KeyOf(t)));
    if Current(s, t, d) && last <= count then count - last else count
  }

  // The step makes the engine forget the count.
  predicate Resets(e: Event, k: Key) {
    e.Restart? || e == Forget(k)
  }

  // The reset goes unnoticed: the engine has forgotten the count that was read last, but the new
  // one has already reached it.
  predicate Unnoticed(s: State, e: Event, t: Tunnel, d: Side) {
    && e.Fetch? && KeyOf(t) in s.counters && !Current(s, t, d)
    && d.At(s.counters, KeyOf(t)) >= d.Meter(Due(s, t)).last
  }

  // What a step puts out of the reach of every later poll: what a reset leaves unread, what is
  // counted under a forgotten count, and the last reading if a reset goes unnoticed.
  function Loss(s: State, e: Event, t: Tunnel, d: Side): nat {
    if Resets(e, KeyOf(t)) then Unread(s, t, d)
    else if e.Orphan? && e.k == KeyOf(t) then d.Of(e.more)
    else if Unnoticed(s, e, t, d) then d.Meter(Due(s, t)).last
    else 0
  }

  // What was out of reach when the row was made: what the engine had forgotten by then and the
  // pending sample does not show.
  function LostBefore(s: State, t: Tunnel, d: Side): nat {
    var gone := d.At(s.past, KeyOf(t)) + d.At(s.orphaned, KeyOf(t));
    var saved := if Current(s, t, d) then 0 else d.Meter(Due(s, t)).bytes;
    if saved <= gone then gone - saved else 0
  }

  // The losses of a tunnel since its row was made.
  ghost function Lost(es: seq<Event>, id: nat, d: Side): nat
    requires IsRun(es)
  {
    if es == [] then 0
    else
      var (init, e) := (es[..|es| - 1], es[|es| - 1]);
      if e.Create? && e.id == id then LostBefore(Exec(es), NewRow(id, e.agent), d)
      else if id !in Exec(init).tunnels then 0
      else Lost(init, id, d) + Loss(Exec(init), e, Exec(init).tunnels[id], d)
  }

  // --- what every run keeps ---

  // A reading is of the present count, or the engine forgot at least as much since.
  predicate Reached(reading: nat, seen: nat, past: nat, count: nat) {
    seen <= past && (reading > 0 ==> if seen == past then reading <= count else seen + reading <= past)
  }

  predicate ReadingOk(s: State, k: Key, d: Side, reading: nat) {
    Reached(reading, d.At(s.seen, k), d.At(s.past, k), d.At(s.counters, k))
  }

  function Sampled(s: State, k: Key, d: Side): nat {
    if s.sample.Some? then d.At(s.sample.value, k) else 0
  }

  ghost predicate Inv(s: State) {
    && (forall k, d: Side :: ReadingOk(s, k, d, Sampled(s, k, d)))
    && (forall id :: id in s.tunnels ==> s.tunnels[id].id == id)
    && (forall id, d: Side :: id in s.tunnels ==>
          ReadingOk(s, KeyOf(s.tunnels[id]), d, d.Meter(Due(s, s.tunnels[id])).last))
  }

  lemma CountAdded(c: Counters, k: Key, more: Pair, l: Key, d: Side)
    ensures d.At(Add(c, k, more), l) == d.At(c, l) + if l == k then d.Of(more) else 0
  {
  }

  lemma CountSummed(a: Counters, b: Counters, l: Key, d: Side)
    ensures d.At(Sum(a, b), l) == d.At(a, l) + d.At(b, l) && d.At(map[], l) == 0
  {
  }

  lemma CountDropped(c: Counters, k: Key, l: Key, d: Side)
    ensures d.At(c - {k}, l) == if l == k then 0 else d.At(c, l)
  {
  }

  lemma CountSeen(seen: Counters, past: Counters, keys: set<Key>, l: Key, d: Side)
    ensures d.At(seen + PastOf(past, keys), l) == d.At(if l in keys then past else seen, l)
  {
  }

  // A step of the engine.
  predicate Counts(e: Event) {
    e.Traffic? || e.Orphan? || e.Restart? || e.Forget?
  }

  lemma CountsMove(s: State, e: Event, k: Key, d: Side)
    requires Enabled(s, e) && Counts(e)
    ensures var u := After(s, e);
      && u.tunnels == s.tunnels && u.sample == s.sample && u.seen == s.seen
      && d.At(u.counters, k) ==
           (if Resets(e, k) then 0 else d.At(s.counters, k) + if e.Traffic? && e.k == k then d.Of(e.more) else 0)
      && d.At(u.past, k) == d.At(s.past, k) + (if Resets(e, k) then d.At(s.counters, k) else 0)
      && d.At(u.orphaned, k) == d.At(s.orphaned, k) + (if e.Orphan? && e.k == k then d.Of(e.more) else 0)
  {
    hide Add, Sum, Side.At;
    match e
    case Traffic(l, more) => CountAdded(s.counters, l, more, k, d);
    case Orphan(l, more) => CountAdded(s.orphaned, l, more, k, d);
    case Restart => CountSummed(s.past, s.counters, k, d);
    case Forget(l) =>
      CountAdded(s.past, l, Count(s.counters, l), k, d);
      CountDropped(s.counters, l, k, d);
      assert d.At(s.counters, l) == d.Of(Count(s.counters, l)) by { AtIsOf(s.counters, l, d); }
  }

  lemma AtIsOf(c: Counters, k: Key, d: Side)
    ensures d.At(c, k) == d.Of(Count(c, k))
  {
  }

  lemma PanelKeepsCounts(s: State, e: Event)
    requires Enabled(s, e) && !Counts(e)
    ensures var u := After(s, e);
      && u.counters == s.counters && u.past == s.past && u.orphaned == s.orphaned && (!e.Fetch? ==> u.seen == s.seen)
      && u.sample == (if e.Fetch? then Some(s.counters) else if e.FetchFails? then Some(map[]) else if e.Commit? then None
                      else s.sample)
  {
    hide BillRows, PastOf;
  }

  lemma ReadingStays(s: State, e: Event, k: Key, d: Side, reading: nat)
    requires Enabled(s, e) && ReadingOk(s, k, d, reading) && !(e.Fetch? && k in s.counters)
    ensures ReadingOk(After(s, e), k, d, reading)
  {
    if Counts(e) {
      CountsMove(s, e, k, d);
    } else {
      PanelKeepsCounts(s, e);
      CountSeen(s.seen, s.past, s.counters.Keys, k, d);
    }
    hide Side.At, PastOf, BillRows, Add, Sum;
  }

  lemma FetchReads(s: State, k: Key, d: Side)
    requires s.sample.None? && k in s.counters
    ensures ReadingOk(After(s, Fetch), k, d, d.At(s.counters, k))
  {
    CountSeen(s.seen, s.past, s.counters.Keys, k, d);
    hide Side.At, PastOf;
  }

  lemma NothingRead(s: State, k: Key, d: Side, reading: nat)
    requires ReadingOk(s, k, d, reading)
    ensures ReadingOk(s, k, d, 0)
  {
  }

  lemma BillReads(t: Tunnel, traffic: Counters, d: Side)
    ensures KeyOf(Bill(t, traffic)) == KeyOf(t) && Bill(t, traffic).id == t.id
    ensures d.Meter(Bill(t, traffic)) ==
      if KeyOf(t) in traffic then Read(d.Meter(t), d.At(traffic, KeyOf(t))) else d.Meter(t)
  {
  }

  lemma BillNothing(t: Tunnel)
    ensures Bill(t, map[]) == t
  {
    hide KeyOf;
  }

  lemma SampleStays(s: State, e: Event, k: Key, d: Side)
    requires Inv(s) && Enabled(s, e)
    ensures var u := After(s, e); ReadingOk(u, k, d, Sampled(u, k, d))
  {
    var was := Sampled(s, k, d);
    assert ReadingOk(s, k, d, was);
    if Counts(e) {
      CountsMove(s, e, k, d);
    } else {
      PanelKeepsCounts(s, e);
    }
    assert d.At(map[], k) == 0;
    hide ReadingOk, Inv, After, Side.At;
    if e.Fetch? && k in s.counters {
      FetchReads(s, k, d);
    } else {
      ReadingStays(s, e, k, d, was);
      NothingRead(After(s, e), k, d, was);
    }
  }

  lemma RowStays(s: State, e: Event, id: nat, d: Side)
    requires Inv(s) && Enabled(s, e) && id in After(s, e).tunnels
    ensures var (u, t) := (After(s, e), After(s, e).tunnels[id]);
      t.id == id && ReadingOk(u, KeyOf(t), d, d.Meter(Due(u, t)).last)
  {
    var (u, t) := (After(s, e), After(s, e).tunnels[id]);
    if e.Create? && id == e.id {
      SampleStays(s, e, KeyOf(t), d);
      BillReads(t, if u.sample.Some? then u.sample.value else map[], d);
    } else {
      var row := s.tunnels[id];
      var k := KeyOf(row);
      assert ReadingOk(s, k, d, d.Meter(Due(s, row)).last);
      BillReads(row, if s.sample.Some? then s.sample.value else s.counters, d);
      hide ReadingOk, KeyOf, Bill, Inv;
      if e.Fetch? && k in s.counters {
        FetchReads(s, k, d);
      } else {
        ReadingStays(s, e, k, d, d.Meter(Due(s, row)).last);
      }
    }
  }

  lemma EventKeeps(s: State, e: Event)
    requires Inv(s) && Enabled(s, e)
    ensures Inv(After(s, e))
  {
    hide After, Enabled, ReadingOk;
    var u := After(s, e);
    forall k, d: Side
      ensures ReadingOk(u, k, d, Sampled(u, k, d))
    {
      SampleStays(s, e, k, d);
    }
    forall id | id in u.tunnels
      ensures u.tunnels[id].id == id
    {
      RowStays(s, e, id, In);
    }
    forall id, d: Side | id in u.tunnels
      ensures ReadingOk(u, KeyOf(u.tunnels[id]), d, d.Meter(Due(u, u.tunnels[id])).last)
    {
      RowStays(s, e, id, d);
    }
  }

  lemma {:induction false} ReachableInv(es: seq<Event>)
    requires IsRun(es)
    ensures Inv(Exec(es))
  {
    hide Inv, After, Enabled;
    if es == [] {
      StartInv();
    } else {
      ReachableInv(es[..|es| - 1]);
      EventKeeps(Exec(es[..|es| - 1]), es[|es| - 1]);
    }
  }

  lemma StartInv()
    ensures Inv(START)
  {
  }

  // --- what is counted is billed, or still to be billed, or lost ---

  predicate Conserved(s: State, t: Tunnel, d: Side, lost: nat) {
    Total(s, KeyOf(t), d) == d.Meter(Due(s, t)).bytes + Unread(s, t, d) + lost
  }

  // A new row takes the pending sample as its first reading.
  lemma FirstReading(s: State, t: Tunnel, d: Side)
    requires d.Meter(t) == Meter(0, 0)
    ensures d.Meter(Due(s, t)) == Meter(Sampled(s, KeyOf(t), d), Sampled(s, KeyOf(t), d))
  {
    BillReads(t, if s.sample.Some? then s.sample.value else map[], d);
    assert s.sample.Some? && KeyOf(t) !in s.sample.value ==> d.At(s.sample.value, KeyOf(t)) == 0;
    hide KeyOf, Bill, Side.At;
  }

  lemma CreateConserves(s: State, id: nat, agent: nat, d: Side)
    requires Inv(s) && Enabled(s, Create(id, agent))
    ensures var (u, t) := (After(s, Create(id, agent)), NewRow(id, agent)); Conserved(u, t, d, LostBefore(u, t, d))
  {
    var t := NewRow(id, agent);
    assert ReadingOk(s, KeyOf(t), d, Sampled(s, KeyOf(t), d));
    var u := After(s, Create(id, agent));
    PanelKeepsCounts(s, Create(id, agent));
    assert Sampled(u, KeyOf(t), d) == Sampled(s, KeyOf(t), d);
    hide KeyOf, Bill, Inv, After, Side.At, Due, Sampled, NewRow;
    FirstReading(u, t, d) by { NewIsEmpty(id, agent, d); }
  }

  lemma NewIsEmpty(id: nat, agent: nat, d: Side)
    ensures d.Meter(NewRow(id, agent)) == Meter(0, 0)
  {
  }

  lemma CountsConserve(s: State, e: Event, t: Tunnel, d: Side, lost: nat)
    requires Enabled(s, e) && Counts(e)
    requires ReadingOk(s, KeyOf(t), d, d.Meter(Due(s, t)).last) && Conserved(s, t, d, lost)
    ensures Conserved(After(s, e), t, d, lost + Loss(s, e, t, d))
  {
    var k := KeyOf(t);
    CountsMove(s, e, k, d);
    assert Due(After(s, e), t) == Due(s, t);
    hide KeyOf, Bill, After, Enabled, Side.At, Due;
  }

  lemma FetchConserves(s: State, t: Tunnel, d: Side, lost: nat)
    requires s.sample.None?
    requires ReadingOk(s, KeyOf(t), d, d.Meter(t).last) && Conserved(s, t, d, lost)
    ensures Conserved(After(s, Fetch), t, d, lost + Loss(s, Fetch, t, d))
  {
    BillReads(t, s.counters, d);
    CountSeen(s.seen, s.past, s.counters.Keys, KeyOf(t), d);
    assert KeyOf(t) !in s.counters ==> d.At(s.counters, KeyOf(t)) == 0;
    hide KeyOf, Bill, Side.At, PastOf;
  }

  lemma RowsMove(s: State, e: Event, id: nat)
    requires Enabled(s, e) && id in s.tunnels && e != Delete(id)
    ensures id in After(s, e).tunnels
    ensures After(s, e).tunnels[id] == if e.Commit? then Bill(s.tunnels[id], s.sample.value) else s.tunnels[id]
  {
    hide Bill, Add, Sum, PastOf;
  }

  lemma DueStays(s: State, e: Event, id: nat)
    requires Enabled(s, e) && !Counts(e) && !e.Fetch? && id in s.tunnels && e != Delete(id)
    ensures id in After(s, e).tunnels && Due(After(s, e), After(s, e).tunnels[id]) == Due(s, s.tunnels[id])
  {
    RowsMove(s, e, id);
    PanelKeepsCounts(s, e);
    BillNothing(s.tunnels[id]);
    hide After, Bill;
  }

  // A step of the panel that fetches nothing.
  lemma PanelConserves(s: State, e: Event, id: nat, d: Side, lost: nat)
    requires Enabled(s, e) && !Counts(e) && !e.Fetch? && id in s.tunnels && e != Delete(id)
    requires Conserved(s, s.tunnels[id], d, lost)
    ensures id in After(s, e).tunnels
    ensures Conserved(After(s, e), After(s, e).tunnels[id], d, lost + Loss(s, e, s.tunnels[id], d))
  {
    var t := s.tunnels[id];
    BillReads(t, if e.Commit? then s.sample.value else map[], d);
    DueStays(s, e, id);
    RowsMove(s, e, id);
    PanelKeepsCounts(s, e);
    hide KeyOf, Bill, After, Enabled, Side.At, Due;
  }

  lemma StepConserves(s: State, e: Event, id: nat, d: Side, lost: nat)
    requires Inv(s) && Enabled(s, e) && id in s.tunnels && e != Delete(id)
    requires Conserved(s, s.tunnels[id], d, lost)
    ensures id in After(s, e).tunnels
    ensures Conserved(After(s, e), After(s, e).tunnels[id], d, lost + Loss(s, e, s.tunnels[id], d))
  {
    var t := s.tunnels[id];
    assert ReadingOk(s, KeyOf(t), d, d.Meter(Due(s, t)).last);
    hide Inv, ReadingOk, Conserved, Loss;
    if Counts(e) {
      CountsConserve(s, e, t, d, lost);
    } else if e.Fetch? {
      FetchConserves(s, t, d, lost);
    } else {
      PanelConserves(s, e, id, d, lost);
    }
  }

  // Over every run of traffic, disconnects, restarts, fetches, failed fetches and late commits:
  // what was counted for a tunnel is what it is billed, with the pending sample, what the next
  // poll can still bill, and what was lost.
  lemma {:induction false} Conservation(es: seq<Event>, id: nat, d: Side)
    requires IsRun(es) && id in Exec(es).tunnels
    ensures Conserved(Exec(es), Exec(es).tunnels[id], d, Lost(es, id, d))
  {
    hide Conserved, Loss, LostBefore, Inv;
    if es != [] {
      var (init, e) := (es[..|es| - 1], es[|es| - 1]);
      ReachableInv(init);
      if e.Create? && e.id == id {
        CreateConserves(Exec(init), id, e.agent, d);
      } else {
        Conservation(init, id, d);
        StepConserves(Exec(init), e, id, d, Lost(init, id, d));
      }
    }
  }

  // No tunnel is ever billed for more than was really counted under its own id for its own agent.
  lemma NeverOverbilled(es: seq<Event>, id: nat, d: Side)
    requires IsRun(es) && id in Exec(es).tunnels
    ensures var t := Exec(es).tunnels[id]; d.Meter(t).bytes <= Total(Exec(es), KeyOf(t), d)
  {
    Conservation(es, id, d);
    var t := Exec(es).tunnels[id];
    BillReads(t, if Exec(es).sample.Some? then Exec(es).sample.value else map[], d);
    hide Exec, IsRun, KeyOf, Bill, Lost, Total;
  }

  // What is billed never goes down: a commit keeps every row and only adds, and nothing else
  // touches the totals.
  lemma BilledNeverShrinks(s: State, e: Event, id: nat, d: Side)
    requires Enabled(s, e) && id in s.tunnels && e != Delete(id)
    ensures id in After(s, e).tunnels && KeyOf(After(s, e).tunnels[id]) == KeyOf(s.tunnels[id])
    ensures var (m, m') := (d.Meter(s.tunnels[id]), d.Meter(After(s, e).tunnels[id]));
      m.bytes <= m'.bytes && (m.bytes < m'.bytes ==> e.Commit?)
  {
    RowsMove(s, e, id);
    if e.Commit? {
      BillReads(s.tunnels[id], s.sample.value, d);
    }
    hide KeyOf, Bill, After, Side.At;
  }

  // --- when a poll is exact ---

  // What the poll will bill is settled by the fetch, however late the commit.
  lemma FetchSettles(es: seq<Event>, id: nat, d: Side)
    requires IsRun(es) && es != [] && es[|es| - 1] == Fetch && id in Exec(es).tunnels
    ensures var (s, t) := (Exec(es), Exec(es).tunnels[id]);
      Total(s, KeyOf(t), d) == d.Meter(Due(s, t)).bytes + Lost(es, id, d)
  {
    Conservation(es, id, d);
    ReachableInv(es[..|es| - 1]);
    var (was, t) := (Exec(es[..|es| - 1]), Exec(es).tunnels[id]);
    assert ReadingOk(was, KeyOf(t), d, d.Meter(Due(was, t)).last);
    BillReads(t, was.counters, d);
    hide IsRun, Exec, KeyOf, Bill, Lost, Inv;
  }

  lemma SampleWaits(s: State, e: Event, id: nat)
    requires Enabled(s, e) && s.sample.Some? && id in s.tunnels && !e.Commit? && e != Delete(id)
    ensures var u := After(s, e); u.sample == s.sample && id in u.tunnels && u.tunnels[id] == s.tunnels[id]
  {
    RowsMove(s, e, id);
    if Counts(e) {
      CountsMove(s, e, KeyOf(s.tunnels[id]), In);
    } else {
      PanelKeepsCounts(s, e);
    }
    hide After, KeyOf, Side.At;
  }

  // While a sample is pending, nothing changes what its commit will bill.
  lemma {:induction false} PendingStays(es: seq<Event>, more: seq<Event>, id: nat)
    requires IsRun(es) && IsRun(es + more) && Exec(es).sample.Some? && id in Exec(es).tunnels
    requires Commit !in more && Delete(id) !in more
    ensures var (s, u) := (Exec(es), Exec(es + more));
      u.sample == s.sample && id in u.tunnels && u.tunnels[id] == s.tunnels[id]
    decreases |more|
  {
    hide After, Enabled;
    if more == [] {
      assert es + more == es;
    } else {
      var before := more[..|more| - 1];
      assert (es + more)[..|es + more| - 1] == es + before;
      PendingStays(es, before, id);
      assert more[|more| - 1] in more;
      SampleWaits(Exec(es + before), more[|more| - 1], id);
    }
  }

  // The tunnel loses nothing in the run: since its row was made, no reset leaves a count unread or
  // goes unnoticed, and nothing is counted under a forgotten count.
  ghost predicate Lossless(es: seq<Event>, id: nat, d: Side)
    requires IsRun(es)
  {
    es == [] ||
    var (init, e) := (es[..|es| - 1], es[|es| - 1]);
    if e.Create? && e.id == id then LostBefore(Exec(es), NewRow(id, e.agent), d) == 0
    else id !in Exec(init).tunnels || (Lossless(init, id, d) && Loss(Exec(init), e, Exec(init).tunnels[id], d) == 0)
  }

  lemma {:induction false} LosslessIff(es: seq<Event>, id: nat, d: Side)
    requires IsRun(es)
    ensures Lost(es, id, d) == 0 <==> Lossless(es, id, d)
  {
    hide After, Enabled, Loss, LostBefore;
    if es != [] {
      LosslessIff(es[..|es| - 1], id, d);
    }
  }

  // Once a fetch is committed, however late, a tunnel has been billed exactly what was counted up
  // to the fetch if and only if it has lost nothing by then.
  lemma PollIsExactIff(es: seq<Event>, more: seq<Event>, id: nat, d: Side)
    requires es != [] && es[|es| - 1] == Fetch && IsRun(es + more + [Commit]) && IsRun(es + more) && IsRun(es)
    requires id in Exec(es).tunnels && Commit !in more && Delete(id) !in more
    ensures var (s, u) := (Exec(es), Exec(es + more + [Commit]));
      && id in u.tunnels && KeyOf(u.tunnels[id]) == KeyOf(s.tunnels[id])
      && Total(s, KeyOf(u.tunnels[id]), d) == d.Meter(u.tunnels[id]).bytes + Lost(es, id, d)
      && (d.Meter(u.tunnels[id]).bytes == Total(s, KeyOf(u.tunnels[id]), d) <==> Lossless(es, id, d))
  {
    assert (es + more + [Commit])[..|es + more|] == es + more;
    assert Exec(es).sample.Some?;
    FetchSettles(es, id, d);
    LosslessIff(es, id, d);
    PendingStays(es, more, id);
    BillReads(Exec(es).tunnels[id], Exec(es).sample.value, d);
    assert Exec(es + more + [Commit]) == After(Exec(es + more), Commit);
    hide IsRun, Exec, KeyOf, Bill, Lost, Lossless, Total;
  }

  lemma CountedAgain(s: State, e: Event, k: Key, since: Pair, d: Side)
    requires Enabled(s, e) && Resets(e, k)
    ensures var u := After(After(s, e), Traffic(k, since));
      && u.sample == s.sample && u.seen == s.seen && k in u.counters
      && d.At(u.counters, k) == d.Of(since) && d.At(u.past, k) == d.At(s.past, k) + d.At(s.counters, k)
  {
    CountsMove(s, e, k, d);
    CountsMove(After(s, e), Traffic(k, since), k, d);
    hide Sum, Side.At;
  }

  lemma UnreadAtReset(s: State, t: Tunnel, d: Side)
    requires s.sample.None? && Current(s, t, d) && ReadingOk(s, KeyOf(t), d, d.Meter(t).last)
    ensures d.Meter(t).last <= d.At(s.counters, KeyOf(t))
    ensures Unread(s, t, d) == d.At(s.counters, KeyOf(t)) - d.Meter(t).last
  {
    hide KeyOf, Side.At, Bill;
  }

  // Between two polls, one reset and what is counted after it lose nothing if and only if nothing
  // was counted after the earlier poll, and the new count is still below the old one.
  lemma ResetIsExactIff(s: State, e: Event, t: Tunnel, since: Pair, d: Side)
    requires s.sample.None? && Current(s, t, d) && ReadingOk(s, KeyOf(t), d, d.Meter(t).last)
    requires Enabled(s, e) && Resets(e, KeyOf(t))
    ensures var (last, count) := (d.Meter(t).last, d.At(s.counters, KeyOf(t)));
      var u := After(After(s, e), Traffic(KeyOf(t), since));
      Loss(s, e, t, d) == 0 && Loss(u, Fetch, t, d) == 0 <==> count == last && (d.Of(since) < last || last == 0)
  {
    hide *;
    var (k, last) := (KeyOf(t), d.Meter(t).last);
    var u := TrafficAfter(s, e, k, since);
    CountedAgain(s, e, k, since, d);
    UnreadAtReset(s, t, d);
    LossAtReset(s, e, t, d);
    LossAtFetch(s, u, t, d);
  }

  lemma TrafficAfter(s: State, e: Event, k: Key, since: Pair) returns (u: State)
    requires Enabled(s, e)
    ensures Enabled(After(s, e), Traffic(k, since)) && u == After(After(s, e), Traffic(k, since))
  {
    hide After;
    u := After(After(s, e), Traffic(k, since));
  }

  lemma LossAtReset(s: State, e: Event, t: Tunnel, d: Side)
    requires Resets(e, KeyOf(t))
    ensures Loss(s, e, t, d) == Unread(s, t, d)
  {
    hide KeyOf, Unread;
  }

  lemma LossAtFetch(s: State, u: State, t: Tunnel, d: Side)
    requires s.sample.None? && Current(s, t, d) && ReadingOk(s, KeyOf(t), d, d.Meter(t).last)
    requires u.sample == s.sample && u.seen == s.seen && KeyOf(t) in u.counters
    requires d.At(u.past, KeyOf(t)) == d.At(s.past, KeyOf(t)) + d.At(s.counters, KeyOf(t))
    ensures var last := d.Meter(t).last;
      Loss(u, Fetch, t, d) == if d.At(u.counters, KeyOf(t)) >= last then last else 0
  {
    hide KeyOf, Side.At, Bill;
  }

  lemma Extend(es: seq<Event>, e: Event) returns (fs: seq<Event>)
    requires IsRun(es) && Enabled(Exec(es), e)
    ensures fs == es + [e] && IsRun(fs) && Exec(fs) == After(Exec(es), e)
  {
    fs := es + [e];
    assert fs[..|fs| - 1] == es;
  }

  lemma CountIsForgotten(k: Key, counted: Pair) returns (es: seq<Event>)
    ensures es == [Create(7, 1), Traffic(k, counted), Forget(k)] && IsRun(es)
    ensures Exec(es) == State(map[7 := NewRow(7, 1)], map[], map[k := counted], map[], map[], None)
  {
    es := Extend([], Create(7, 1));
    es := Extend(es, Traffic(k, counted));
    assert Exec(es) == START.(tunnels := map[7 := NewRow(7, 1)], counters := map[k := counted]);
    es := Extend(es, Forget(k));
    assert Exec(es).past == map[k := counted];
  }

  lemma NothingIsBilled(s: State, row: Tunnel)
    requires s.tunnels == map[7 := row] && s.counters == map[] && s.sample == None
    ensures Enabled(s, Fetch) && Enabled(After(s, Fetch), Commit)
    ensures After(After(s, Fetch), Commit) == s
  {
    BillNothing(row);
    hide Bill;
    assert s.seen + PastOf(s.past, {}) == s.seen;
    assert BillRows(s.tunnels, map[]) == s.tunnels;
  }

  // A tunnel carries traffic, its agent disconnects before the next poll, and the poll bills
  // nothing; the engine has not restarted.
  lemma DisconnectLosesTheCount(counted: Pair) returns (es: seq<Event>)
    ensures var k := KeyOf(NewRow(7, 1));
      es == [Create(7, 1), Traffic(k, counted), Forget(k), Fetch, Commit] && IsRun(es)
    ensures var s := Exec(es);
      7 in s.tunnels && s.tunnels[7] == NewRow(7, 1) && forall d: Side :: Total(s, KeyOf(s.tunnels[7]), d) == d.Of(counted)
  {
    var k := KeyOf(NewRow(7, 1));
    hide KeyOf, After, Enabled, IsRun, Exec;
    es := CountIsForgotten(k, counted);
    NothingIsBilled(Exec(es), NewRow(7, 1));
    es := Extend(es, Fetch);
    es := Extend(es, Commit);
  }

  // --- whose traffic counts ---

  lemma KeyFixesTunnel(t: Tunnel, u: Tunnel)
    requires KeyOf(t) == KeyOf(u)
    ensures t.id == u.id && t.agent == u.agent
  {
    assert KeyOf(t).cn[6..] == PrintNat(t.agent) && KeyOf(u).cn[6..] == PrintNat(u.agent);
    assert KeyOf(t).name[1..] == PrintNat(t.id) && KeyOf(u).name[1..] == PrintNat(u.id);
    PrintNatInjective(t.agent, u.agent);
    PrintNatInjective(t.id, u.id);
  }

  // The engine files a count under the owner and the name with a zero character between them.
  // An identity without that character cannot reach another one's counts, whatever the name.
  lemma CounterKeyInjective(k: Key, l: Key)
    requires '\0' !in k.cn && '\0' !in l.cn
    ensures k.cn + "\0" + k.name == l.cn + "\0" + l.name <==> k == l
  {
    var (a, b) := (k.cn + "\0" + k.name, l.cn + "\0" + l.name);
    if a == b {
      FirstZero(k.cn, k.name, l.cn, l.name);
      assert k.cn == a[..|k.cn|] && l.cn == b[..|l.cn|];
      assert k.name == a[|k.cn| + 1..] && l.name == b[|l.cn| + 1..];
    }
  }

  lemma FirstZero(x: string, a: string, y: string, b: string)
    requires '\0' !in x && '\0' !in y && x + "\0" + a == y + "\0" + b
    ensures |x| == |y|
  {
    var s := x + "\0" + a;
    assert s[|x|] == '\0' && s[|y|] == '\0';
    assert forall i :: 0 <= i < |x| ==> s[i] == x[i];
    assert forall i :: 0 <= i < |y| ==> s[i] == y[i];
  }

  // However another identity names its proxies, it cannot add to this agent's bill.
  lemma OthersAreNotBilled(t: Tunnel, traffic: Counters, others: Counters)
    requires forall k :: k in others ==> k.cn != Config.AgentCn(t.agent)
    ensures Bill(t, traffic + others) == Bill(t, traffic)
  {
  }

  // --- usage is a sum ---

  function Billed(t: Tunnel): nat { t.inn.bytes + t.out.bytes }

  lemma {:induction false} UsageAdds(ts: seq<Tunnel>, us: seq<Tunnel>, agents: map<nat, Option<nat>>, team: nat)
    ensures Usage(ts + us, agents, team) == Usage(ts, agents, team) + Usage(us, agents, team)
  {
    if us == [] {
      assert ts + us == ts;
    } else {
      var n := |us| - 1;
      assert (ts + us)[..|ts + us| - 1] == ts + us[..n] && (ts + us)[|ts + us| - 1] == us[n];
      UsageAdds(ts, us[..n], agents, team);
    }
  }

  lemma UsageOfOne(t: Tunnel, agents: map<nat, Option<nat>>, team: nat)
    ensures Usage([t], agents, team) == if t.agent in agents && agents[t.agent] == Some(team) then Billed(t) else 0
  {
    assert [t][..0] == [];
  }

  // The usage does not depend on the order in which the rows are read.
  lemma {:induction false} UsageIsOrderless(ts: seq<Tunnel>, us: seq<Tunnel>, agents: map<nat, Option<nat>>, team: nat)
    requires multiset(ts) == multiset(us)
    ensures Usage(ts, agents, team) == Usage(us, agents, team)
    decreases |ts|
  {
    if ts == [] {
      assert |us| == |multiset(us)| == |multiset(ts)| == 0;
    } else {
      var (t, n) := (ts[|ts| - 1], |ts| - 1);
      assert ts == ts[..n] + [t];
      assert t in multiset(us);
      var i :| 0 <= i < |us| && us[i] == t;
      var rest := us[..i] + us[i + 1..];
      assert us == us[..i] + [t] + us[i + 1..];
      assert multiset(us) == multiset(rest) + multiset{t};
      assert multiset(ts) == multiset(ts[..n]) + multiset{t};
      assert multiset(rest) == multiset(us) - multiset{t} && multiset(ts[..n]) == multiset(ts) - multiset{t};
      UsageIsOrderless(ts[..n], rest, agents, team);
      UsageAdds(us[..i] + [t], us[i + 1..], agents, team);
      UsageAdds(us[..i], [t], agents, team);
      UsageAdds(us[..i], us[i + 1..], agents, team);
      UsageAdds(ts[..n], [t], agents, team);
    }
  }

  // --- suspension ---

  // A team is suspended exactly if it has a quota and its tunnels together were billed more.
  lemma SuspendedIff(team: Team, ts: seq<Tunnel>, agents: map<nat, Option<nat>>)
    ensures var judged := Judge(team, ts, agents);
      && judged.id == team.id && judged.quota == team.quota
      && (judged.suspended <==> team.quota.Some? && Usage(ts, agents, team.id) > team.quota.value)
  {
  }

  // Two tunnels of a team that exceed its quota only together suspend it, whatever lies before,
  // between and after them.
  lemma TwoTunnelsSuspend(team: Team, before: seq<Tunnel>, t: Tunnel, between: seq<Tunnel>, u: Tunnel, after: seq<Tunnel>,
                          agents: map<nat, Option<nat>>)
    requires team.quota.Some? && Billed(t) + Billed(u) > team.quota.value
    requires t.agent in agents && agents[t.agent] == Some(team.id) && u.agent in agents && agents[u.agent] == Some(team.id)
    ensures Judge(team, before + [t] + between + [u] + after, agents).suspended
  {
    UsageAdds(before + [t] + between + [u], after, agents, team.id);
    UsageAdds(before + [t] + between, [u], agents, team.id);
    UsageAdds(before + [t], between, agents, team.id);
    UsageAdds(before, [t], agents, team.id);
    UsageOfOne(t, agents, team.id);
    UsageOfOne(u, agents, team.id);
  }

  lemma {:induction false} NoUsageMeansNothingBilled(ts: seq<Tunnel>, agents: map<nat, Option<nat>>, team: nat)
    ensures Usage(ts, agents, team) > 0 <==>
      exists t :: t in ts && Belongs(t, agents, team) && t.inn.bytes + t.out.bytes > 0
  {
    if ts != [] {
      var n := |ts| - 1;
      NoUsageMeansNothingBilled(ts[..n], agents, team);
      assert ts == ts[..n] + [ts[n]];
    }
  }

  // A quota of zero suspends a team exactly once a tunnel of one of its agents has been billed
  // anything, so it does not suspend an idle team.
  lemma ZeroQuotaSuspendsIff(team: Team, ts: seq<Tunnel>, agents: map<nat, Option<nat>>)
    requires team.quota == Some(0)
    ensures Judge(team, ts, agents).suspended <==>
      exists t :: t in ts && Belongs(t, agents, team.id) && t.inn.bytes + t.out.bytes > 0
  {
    NoUsageMeansNothingBilled(ts, agents, team.id);
  }

  // The tunnels of other teams do not count, and billing only ever adds to the usage.
  lemma {:induction false} UsageGrows(ts: seq<Tunnel>, traffic: Counters, agents: map<nat, Option<nat>>, team: nat)
    ensures Usage(ts, agents, team) <= Usage(BillAll(ts, traffic), agents, team)
  {
    if ts != [] {
      var n := |ts| - 1;
      UsageGrows(ts[..n], traffic, agents, team);
      assert BillAll(ts, traffic)[..n] == BillAll(ts[..n], traffic);
    }
  }

  // So a suspended team stays suspended by polling alone.
  lemma PollingNeverResumes(team: Team, ts: seq<Tunnel>, traffic: Counters, agents: map<nat, Option<nat>>)
    requires Judge(team, ts, agents).suspended
    ensures Judge(team, BillAll(ts, traffic), agents).suspended
  {
    UsageGrows(ts, traffic, agents, team.id);
  }
}
