/**
 The generation of an agent's configuration: a counter that each change of the database bumps
 for the agents it concerns, before they are told to fetch the configuration again.
 */
module Generations {

  import opened Text
  import opened Panel
  import opened Ownership
  import opened Config

  type Gens = map<nat, nat>

  function Get(gens: Gens, a: nat): nat {
    if a in gens then gens[a] else 0
  }

  function Bump(gens: Gens, touched: set<nat>): Gens {
    map a | a in gens.Keys + touched :: Get(gens, a) + if a in touched then 1 else 0
  }

  lemma BumpNone(gens: Gens)
    ensures Bump(gens, {}) == gens
  {
  }

  lemma BumpAnother(gens: Gens, done: set<nat>, a: nat)
    requires a !in done
    ensures Bump(gens, done + {a}) == Bump(gens, done)[a := Get(Bump(gens, done), a) + 1]
  {
  }

  function MembersOf(db: DB, team: nat): set<nat> {
    set a | a in db.agents && db.agents[a].team == Some(team)
  }

  // The team whose label a request changes, and the teams whose suspension it flips.
  predicate Relabels(db: DB, v: DB, team: nat) {
    team in db.teams && team in v.teams && v.teams[team].subLabel != db.teams[team].subLabel
  }

  predicate Flips(db: DB, v: DB, team: nat) {
    team in db.teams && team in v.teams && v.teams[team].suspended != db.teams[team].suspended
  }

  // The agents whose generation a request bumps: the owner of the tunnel it writes, and all
  // agents of a team whose label it changes.
  function Touched(s: Settings, db: DB, r: Request): set<nat>
    requires FreshId(db, r)
  {
    if Serve(s, db, r).Err? then {}
    else
      match r
      case MakeTunnel(_, body) => {body.agent}
      case ChangeTunnel(id, _) => {db.tunnels[id].agent}
      case DropTunnel(id) => {db.tunnels[id].agent}
      case ChangeTeam(id, _, _, _, _) => if Relabels(db, Serve(s, db, r).value, id) then MembersOf(db, id) else {}
      case _ => {}
  }

  // The agents that a request tells to fetch their configuration: those it bumps, and those of
  // teams that it suspends or resumes.
  function Told(s: Settings, db: DB, r: Request): set<nat>
    requires FreshId(db, r)
  {
    Touched(s, db, r) + set a | a in db.agents && db.agents[a].team.Some?
                               && Flips(db, After(s, db, r), db.agents[a].team.value)
  }

  // The payloads of an agent's enabled tunnels.
  function PayloadsOf(db: DB, host: string, a: nat): set<Payload> {
    set t | t in db.tunnels && db.tunnels[t].agent == a && db.tunnels[t].enabled
          :: Domainize(TunnelPayload(t, db.tunnels[t]), host, LabelOf(db, a))
  }

  // What an agent is told: nothing while its team is suspended.
  function ConfigOf(db: DB, host: string, a: nat): set<Payload> {
    if Suspended(db, a) then {} else PayloadsOf(db, host, a)
  }

  predicate HasEnabled(db: DB, a: nat) {
    exists t :: t in db.tunnels && db.tunnels[t].agent == a && db.tunnels[t].enabled
  }

  lemma EnabledHavePayloads(db: DB, host: string, a: nat)
    ensures PayloadsOf(db, host, a) == {} <==> !HasEnabled(db, a)
  {
    hide Domainize, TunnelPayload, LabelOf;
    if t :| t in db.tunnels && db.tunnels[t].agent == a && db.tunnels[t].enabled {
      assert Domainize(TunnelPayload(t, db.tunnels[t]), host, LabelOf(db, a)) in PayloadsOf(db, host, a);
    }
  }

  // --- one request ---

  // A request that does not bump an agent leaves the payloads of its tunnels as they are.
  lemma UnbumpedPayloadsStay(s: Settings, db: DB, r: Request, host: string, a: nat)
    requires FreshId(db, r) && TeamsOk(db)
    requires a in db.agents && a in After(s, db, r).agents && a !in Touched(s, db, r)
    ensures PayloadsOf(After(s, db, r), host, a) == PayloadsOf(db, host, a)
    ensures HasEnabled(After(s, db, r), a) == HasEnabled(db, a)
  {
    hide CreateCheck, UpdateCheck, AllocatePort, Slug, Strip, NewLabel, PayloadsOf, Over;
    var v := After(s, db, r);
    SameLabel(s, db, r, a);
    hide LabelOf;
    forall t
      ensures Serves(v, t, a) <==> Serves(db, t, a)
      ensures Serves(db, t, a) ==> t in v.tunnels && v.tunnels[t] == db.tunnels[t]
    {
    }
    SamePayloads(db, v, host, a);
    EnabledHavePayloads(db, host, a);
    EnabledHavePayloads(v, host, a);
  }

  lemma SameLabel(s: Settings, db: DB, r: Request, a: nat)
    requires FreshId(db, r) && TeamsOk(db)
    requires a in db.agents && a in After(s, db, r).agents && a !in Touched(s, db, r)
    ensures LabelOf(After(s, db, r), a) == LabelOf(db, a)
  {
    hide CreateCheck, UpdateCheck, AllocatePort, Slug, Strip, NewLabel, Over;
  }

  predicate Serves(db: DB, t: nat, a: nat) {
    t in db.tunnels && db.tunnels[t].agent == a
  }

  lemma SamePayloads(db: DB, v: DB, host: string, a: nat)
    requires LabelOf(v, a) == LabelOf(db, a)
    requires forall t :: Serves(v, t, a) <==> Serves(db, t, a)
    requires forall t :: Serves(db, t, a) ==> t in v.tunnels && v.tunnels[t] == db.tunnels[t]
    ensures PayloadsOf(v, host, a) == PayloadsOf(db, host, a)
  {
    hide LabelOf, Domainize, TunnelPayload;
    forall p
      ensures p in PayloadsOf(v, host, a) <==> p in PayloadsOf(db, host, a)
    {
      if p in PayloadsOf(v, host, a) {
        var t :| Serves(v, t, a) && v.tunnels[t].enabled
          && p == Domainize(TunnelPayload(t, v.tunnels[t]), host, LabelOf(v, a));
        assert Serves(db, t, a);
      }
      if p in PayloadsOf(db, host, a) {
        var t :| Serves(db, t, a) && db.tunnels[t].enabled
          && p == Domainize(TunnelPayload(t, db.tunnels[t]), host, LabelOf(db, a));
        assert Serves(v, t, a);
      }
    }
  }

  // The suspension of an agent's team flips.
  predicate FlipsFor(db: DB, v: DB, a: nat) {
    Suspended(v, a) != Suspended(db, a)
  }

  // A request that does not bump an agent changes what it is told if and only if it flips the
  // suspension of its team and the agent has an enabled tunnel.
  lemma ChangesWithoutBumpIff(s: Settings, db: DB, r: Request, host: string, a: nat)
    requires FreshId(db, r) && TeamsOk(db)
    requires a in db.agents && a in After(s, db, r).agents && a !in Touched(s, db, r)
    ensures ConfigOf(After(s, db, r), host, a) != ConfigOf(db, host, a) <==>
      FlipsFor(db, After(s, db, r), a) && HasEnabled(db, a)
  {
    UnbumpedPayloadsStay(s, db, r, host, a);
    EnabledHavePayloads(db, host, a);
    hide After, Touched, PayloadsOf, Suspended, HasEnabled;
  }

  // But whoever is told something else is notified: no change goes unannounced.
  lemma ChangeIsTold(s: Settings, db: DB, r: Request, host: string, a: nat)
    requires FreshId(db, r) && TeamsOk(db)
    requires a in db.agents && a in After(s, db, r).agents
    requires ConfigOf(After(s, db, r), host, a) != ConfigOf(db, host, a)
    ensures a in Told(s, db, r)
  {
    if a !in Touched(s, db, r) {
      ChangesWithoutBumpIff(s, db, r, host, a);
      FlippedTeam(s, db, r, a);
    }
  }

  lemma FlippedTeam(s: Settings, db: DB, r: Request, a: nat)
    requires FreshId(db, r) && TeamsOk(db)
    requires a in db.agents && a in After(s, db, r).agents && FlipsFor(db, After(s, db, r), a)
    ensures db.agents[a].team.Some? && Flips(db, After(s, db, r), db.agents[a].team.value)
  {
    hide CreateCheck, UpdateCheck, AllocatePort, Slug, Strip, NewLabel, Over;
  }

  // How far a request moves the generation of an agent: by one, if it is accepted and writes or
  // drops one of the agent's tunnels, or changes the label of its team; otherwise not at all.
  lemma GenerationSays(s: Settings, db: DB, gens: Gens, r: Request, a: nat)
    requires FreshId(db, r)
    ensures var after := Get(Bump(gens, Touched(s, db, r)), a);
      after == Get(gens, a)
        + if Serve(s, db, r).Ok?
             && (|| (r.MakeTunnel? && r.body.agent == a)
                 || ((r.ChangeTunnel? || r.DropTunnel?) && db.tunnels[r.id].agent == a)
                 || (r.ChangeTeam? && a in db.agents && db.agents[a].team == Some(r.id)
                     && After(s, db, r).teams[r.id].subLabel != db.teams[r.id].subLabel))
          then 1 else 0
  {
    hide CreateCheck, UpdateCheck, AllocatePort, Slug, Strip, NewLabel, Over, TeamCheck, Patched;
  }

  // Besides these only the agents of teams that are suspended or resumed are told.
  lemma ToldSays(s: Settings, db: DB, r: Request, a: nat)
    requires FreshId(db, r)
    ensures a in Told(s, db, r) <==>
      || Get(Bump(map[], Touched(s, db, r)), a) > 0
      || (a in db.agents && db.agents[a].team.Some? && db.agents[a].team.value in db.teams
          && db.agents[a].team.value in After(s, db, r).teams
          && After(s, db, r).teams[db.agents[a].team.value].suspended != db.teams[db.agents[a].team.value].suspended)
  {
    hide Serve, After, Touched;
  }

  // --- runs ---

  datatype State = State(db: DB, gens: Gens)

  function Step(s: Settings, u: State, r: Request): State
    requires FreshId(u.db, r)
  {
    State(After(s, u.db, r), Bump(u.gens, Touched(s, u.db, r)))
  }

  ghost predicate IsRun(s: Settings, u: State, rs: seq<Request>)
    decreases rs
  {
    rs == [] || (FreshId(u.db, rs[0]) && IsRun(s, Step(s, u, rs[0]), rs[1..]))
  }

  ghost function Run(s: Settings, u: State, rs: seq<Request>): State
    requires IsRun(s, u, rs)
    decreases rs
  {
    if rs == [] then u else Run(s, Step(s, u, rs[0]), rs[1..])
  }

  // Over any run in which the agent is not deleted, its generation never goes down, and as long
  // as it is the same, so are the payloads of its tunnels.
  lemma {:induction false} SameGenerationSamePayloads(s: Settings, u: State, rs: seq<Request>, host: string, a: nat)
    requires SettingsOk(s) && Inv(s, u.db) && IsRun(s, u, rs)
    requires a in u.db.agents && DropAgent(a) !in rs
    ensures var v := Run(s, u, rs);
      && a in v.db.agents && Get(u.gens, a) <= Get(v.gens, a)
      && (Get(u.gens, a) == Get(v.gens, a) ==> PayloadsOf(v.db, host, a) == PayloadsOf(u.db, host, a))
    decreases rs
  {
    hide Inv, PayloadsOf, Panel.After, Touched, FreshId, HasEnabled;
    if rs != [] {
      RequestKeeps(s, u.db, rs[0]);
      AgentStays(s, u.db, rs[0], a);
      SameGenerationSamePayloads(s, Step(s, u, rs[0]), rs[1..], host, a);
      if a !in Touched(s, u.db, rs[0]) {
        assert TeamsOk(u.db) by { InvTeams(s, u.db); }
        UnbumpedPayloadsStay(s, u.db, rs[0], host, a);
      }
    }
  }

  // So two states of a run in which the agent has the same generation tell it the same if and
  // only if its team is suspended in both or in neither, or it has no enabled tunnel.
  lemma SameGenerationSameConfigIff(s: Settings, u: State, rs: seq<Request>, host: string, a: nat)
    requires SettingsOk(s) && Inv(s, u.db) && IsRun(s, u, rs)
    requires a in u.db.agents && DropAgent(a) !in rs
    requires Get(u.gens, a) == Get(Run(s, u, rs).gens, a)
    ensures var v := Run(s, u, rs);
      ConfigOf(v.db, host, a) == ConfigOf(u.db, host, a) <==> !FlipsFor(u.db, v.db, a) || !HasEnabled(u.db, a)
  {
    SameGenerationSamePayloads(s, u, rs, host, a);
    EnabledHavePayloads(u.db, host, a);
    hide PayloadsOf, HasEnabled, Suspended, Run, IsRun, Inv;
  }

  lemma InvTeams(s: Settings, db: DB)
    requires Inv(s, db)
    ensures TeamsOk(db)
  {
  }

  lemma AgentStays(s: Settings, db: DB, r: Request, a: nat)
    requires FreshId(db, r) && a in db.agents && r != DropAgent(a)
    ensures a in After(s, db, r).agents
  {
  }

  // --- a run on which the configuration changes and the generation does not ---

  const START := State(EMPTY, map[])

  function OneTcp(port: int): Tunnel {
    Tunnel(1, "t", Tcp, "127.0.0.1", 80, Some(port), None, None, true)
  }

  lemma TcpIsCreated(s: Settings, db: DB)
    requires db.tunnels == map[] && 1 in db.agents && s.maxTunnels > 0 && s.portAllowMin <= s.portAllowMax
    ensures CreateTunnel(s, db, 1, OneTcp(s.portAllowMin)) ==
      Ok(db.(tunnels := map[1 := OneTcp(s.portAllowMin)]))
  {
    assert TunnelsOf(db, 1) == {};
    assert db.tunnels[1 := OneTcp(s.portAllowMin)] == map[1 := OneTcp(s.portAllowMin)];
  }

  lemma ThreeSteps(s: Settings, u: State, p: Request, q: Request, r: Request)
    requires FreshId(u.db, p) && FreshId(Step(s, u, p).db, q) && FreshId(Step(s, Step(s, u, p), q).db, r)
    ensures IsRun(s, u, [p, q, r]) && Run(s, u, [p, q, r]) == Step(s, Step(s, Step(s, u, p), q), r)
  {
    hide Step, FreshId;
    assert [p, q, r][1..] == [q, r] && [q, r][1..] == [r] && [r][1..] == [];
    var u1 := Step(s, u, p);
    var u2 := Step(s, u1, q);
    var u3 := Step(s, u2, r);
    assert IsRun(s, u3, []) && Run(s, u3, []) == u3;
    assert IsRun(s, u2, [r]) && Run(s, u2, [r]) == u3;
    assert IsRun(s, u1, [q, r]) && Run(s, u1, [q, r]) == u3;
  }

  // The database after a team, an agent of it and one tunnel have been made.
  function Made(port: int): DB {
    DB(map[1 := Team("x", Slug("x"), None, false)], map[1 := Agent(0, Some(1))], map[1 := OneTcp(port)])
  }

  lemma MadeSteps(s: Settings) returns (u1: State, u2: State, u3: State)
    requires s.maxTunnels > 0 && s.portAllowMin <= s.portAllowMax
    ensures FreshId(EMPTY, MakeTeam(1, "x", None, None)) && u1 == Step(s, START, MakeTeam(1, "x", None, None))
    ensures FreshId(u1.db, MakeAgent(1, 0, Some(1))) && u2 == Step(s, u1, MakeAgent(1, 0, Some(1)))
    ensures FreshId(u2.db, MakeTunnel(1, OneTcp(s.portAllowMin)))
    ensures u3 == Step(s, u2, MakeTunnel(1, OneTcp(s.portAllowMin))) && u3.db == Made(s.portAllowMin)
  {
    hide Slug, CreateTunnel, Bump;
    assert Strip("x") == "x";
    u1 := Step(s, START, MakeTeam(1, "x", None, None));
    assert u1.db.teams == map[1 := Team("x", Slug("x"), None, false)];
    u2 := Step(s, u1, MakeAgent(1, 0, Some(1)));
    assert u2.db.agents == map[1 := Agent(0, Some(1))];
    TcpIsCreated(s, u2.db);
    u3 := Step(s, u2, MakeTunnel(1, OneTcp(s.portAllowMin)));
  }

  lemma LoweredQuotaSuspends(s: Settings, port: int, host: string)
    ensures var (db, r) := (Made(port), ChangeTeam(1, None, None, Some(Some(0)), 1));
      && Touched(s, db, r) == {}
      && ConfigOf(db, host, 1) != {} && ConfigOf(After(s, db, r), host, 1) == {}
  {
    hide Slug, Domainize, TunnelPayload, LabelOf, PayloadsOf;
    assert HasEnabled(Made(port), 1) by {
      assert 1 in Made(port).tunnels && Made(port).tunnels[1].enabled;
    }
    EnabledHavePayloads(Made(port), host, 1);
  }

  // A team with one tunnel gets a quota that it has used up already: its agent keeps its
  // generation and is told to serve nothing.
  lemma QuotaEmptiesTheConfiguration(s: Settings, host: string)
    requires s.maxTunnels > 0 && s.portAllowMin <= s.portAllowMax
    ensures var made := [MakeTeam(1, "x", None, None), MakeAgent(1, 0, Some(1)), MakeTunnel(1, OneTcp(s.portAllowMin))];
      var lowered := ChangeTeam(1, None, None, Some(Some(0)), 1);
      && IsRun(s, START, made)
      && var u := Run(s, START, made);
         && FreshId(u.db, lowered)
         && var v := Step(s, u, lowered);
            && Get(v.gens, 1) == Get(u.gens, 1)
            && ConfigOf(u.db, host, 1) != {} && ConfigOf(v.db, host, 1) == {}
  {
    var u1, u2, u := MadeSteps(s);
    hide Step, FreshId, ConfigOf, Touched, Slug, Made;
    ThreeSteps(s, START, MakeTeam(1, "x", None, None), MakeAgent(1, 0, Some(1)), MakeTunnel(1, OneTcp(s.portAllowMin)));
    LoweredQuotaSuspends(s, s.portAllowMin, host);
    StepFacts(s, u, ChangeTeam(1, None, None, Some(Some(0)), 1));
    BumpNone(u.gens);
  }

  lemma StepFacts(s: Settings, u: State, r: Request)
    requires r.ChangeTeam?
    ensures FreshId(u.db, r)
    ensures Step(s, u, r).db == After(s, u.db, r) && Step(s, u, r).gens == Bump(u.gens, Touched(s, u.db, r))
  {
  }
}
