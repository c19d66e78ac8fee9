/**
 The panel's limits. Tunnels per agent, names within an agent and custom domains per tunnel are
 bounded in every state that requests can reach. The depth of subdomains, counting the label of
 the team, is not: exactly a label given to a team without one can break it.
 */
module Limits {

  import opened Text
  import opened Panel
  import Isolation
  import Ownership
  import Sets

  ghost predicate Counted(s: Settings, db: DB) {
    forall a :: |TunnelsOf(db, a)| <= s.maxTunnels
  }

  ghost predicate Named(db: DB) {
    forall t, u :: t in db.tunnels && u in db.tunnels && t != u && db.tunnels[t].agent == db.tunnels[u].agent ==>
      db.tunnels[t].name != db.tunnels[u].name
  }

  predicate RowOk(s: Settings, t: Tunnel) {
    Truthy(t.customDomains) ==> |DomainList(t.customDomains.value)| <= s.maxDomains
  }

  ghost predicate Inv(s: Settings, db: DB) {
    Counted(s, db) && Named(db) && forall t :: t in db.tunnels ==> RowOk(s, db.tunnels[t])
  }

  // Fewer tunnels, or the same tunnels of the same agents.
  lemma NoMoreKeeps(s: Settings, db: DB, db': DB)
    requires Inv(s, db) && db'.tunnels.Keys <= db.tunnels.Keys
    requires forall t :: t in db'.tunnels ==>
      && db'.tunnels[t].agent == db.tunnels[t].agent && db'.tunnels[t].name == db.tunnels[t].name
      && RowOk(s, db'.tunnels[t])
    ensures Inv(s, db')
  {
    hide RowOk;
    forall a
      ensures |TunnelsOf(db', a)| <= s.maxTunnels
    {
      assert TunnelsOf(db', a) <= TunnelsOf(db, a);
      Sets.SubsetSize(TunnelsOf(db', a), TunnelsOf(db, a));
    }
  }

  lemma CreateFacts(s: Settings, db: DB, id: nat, body: Tunnel)
    requires id !in db.tunnels && CreateTunnel(s, db, id, body).Ok?
    ensures CreateCheck(s, db, body).None? && |TunnelsOf(db, body.agent)| < s.maxTunnels
    ensures forall t :: t in TunnelsOf(db, body.agent) ==> db.tunnels[t].name != body.name
    ensures var db' := CreateTunnel(s, db, id, body).value;
      && id in db'.tunnels && db'.tunnels == db.tunnels[id := db'.tunnels[id]]
      && db'.tunnels[id] == body.(remotePort := db'.tunnels[id].remotePort)
  {
    hide CheckDomains, CheckSubdomain, CheckUnique, AllocatePort;
  }

  lemma PutKeeps(s: Settings, db: DB, id: nat, row: Tunnel)
    requires Inv(s, db) && id !in db.tunnels && RowOk(s, row) && |TunnelsOf(db, row.agent)| < s.maxTunnels
    requires forall t :: t in TunnelsOf(db, row.agent) ==> db.tunnels[t].name != row.name
    ensures Inv(s, db.(tunnels := db.tunnels[id := row]))
  {
    hide RowOk, Named, Counted;
    PutKeepsCounts(s, db, id, row);
    PutKeepsNames(db, id, row);
  }

  lemma PutKeepsCounts(s: Settings, db: DB, id: nat, row: Tunnel)
    requires Counted(s, db) && id !in db.tunnels && |TunnelsOf(db, row.agent)| < s.maxTunnels
    ensures Counted(s, db.(tunnels := db.tunnels[id := row]))
  {
    var db' := db.(tunnels := db.tunnels[id := row]);
    forall a
      ensures |TunnelsOf(db', a)| <= s.maxTunnels
    {
      if a == row.agent {
        assert TunnelsOf(db', a) == TunnelsOf(db, a) + {id};
      } else {
        assert TunnelsOf(db', a) == TunnelsOf(db, a);
      }
    }
  }

  lemma PutKeepsNames(db: DB, id: nat, row: Tunnel)
    requires Named(db) && id !in db.tunnels
    requires forall t :: t in TunnelsOf(db, row.agent) ==> db.tunnels[t].name != row.name
    ensures Named(db.(tunnels := db.tunnels[id := row]))
  {
    forall t | t in db.tunnels && db.tunnels[t].agent == row.agent
      ensures db.tunnels[t].name != row.name
    {
      assert t in TunnelsOf(db, row.agent);
    }
  }

  lemma CreateKeeps(s: Settings, db: DB, id: nat, body: Tunnel)
    requires Inv(s, db) && id !in db.tunnels && CreateTunnel(s, db, id, body).Ok?
    ensures Inv(s, CreateTunnel(s, db, id, body).value)
  {
    CreateFacts(s, db, id, body);
    CreatedRowOk(s, db, body);
    var row := CreateTunnel(s, db, id, body).value.tunnels[id];
    SameLimits(s, body, row);
    PutKeeps(s, db, id, row);
    hide Inv, RowOk, CreateCheck, AllocatePort;
    assert CreateTunnel(s, db, id, body).value == db.(tunnels := db.tunnels[id := row]);
  }

  lemma CreatedRowOk(s: Settings, db: DB, body: Tunnel)
    requires CreateCheck(s, db, body).None?
    ensures RowOk(s, body)
  {
    hide LabelsOk, DomainTaken, IsFqdn, UnderApex, SubdomainTaken;
  }

  lemma SameLimits(s: Settings, t: Tunnel, u: Tunnel)
    requires RowOk(s, t) && u.subdomain == t.subdomain && u.customDomains == t.customDomains
    ensures RowOk(s, u)
  {
  }

  lemma UpdateFacts(s: Settings, db: DB, id: nat, u: Update)
    requires UpdateTunnel(s, db, id, u).Ok?
    ensures id in db.tunnels && UpdateCheck(s, db, id, u).None?
    ensures var (o, db') := (db.tunnels[id], UpdateTunnel(s, db, id, u).value);
      && id in db'.tunnels && db' == db.(tunnels := db.tunnels[id := db'.tunnels[id]])
      && db'.tunnels[id].agent == o.agent && db'.tunnels[id].name == o.name
      && db'.tunnels[id].subdomain == (if u.subdomain.Some? then u.subdomain.value else o.subdomain)
      && db'.tunnels[id].customDomains == (if u.customDomains.Some? then u.customDomains.value else o.customDomains)
  {
    hide UpdateCheck, AllocatePort;
  }

  lemma UpdatedRowOk(s: Settings, db: DB, id: nat, u: Update, t: Tunnel)
    requires id in db.tunnels && UpdateCheck(s, db, id, u).None? && RowOk(s, db.tunnels[id])
    requires t.customDomains == if u.customDomains.Some? then u.customDomains.value else db.tunnels[id].customDomains
    ensures RowOk(s, t)
  {
    hide CheckSubdomain, CheckUnique, DomainTaken, IsFqdn, UnderApex;
  }

  lemma UpdateKeeps(s: Settings, db: DB, id: nat, u: Update)
    requires Inv(s, db) && UpdateTunnel(s, db, id, u).Ok?
    ensures Inv(s, UpdateTunnel(s, db, id, u).value)
  {
    UpdateFacts(s, db, id, u);
    hide Counted, Named, UpdateTunnel, UpdateCheck;
    var db' := UpdateTunnel(s, db, id, u).value;
    UpdatedRowOk(s, db, id, u, db'.tunnels[id]);
    hide RowOk;
    NoMoreKeeps(s, db, db');
  }

  lemma RequestKeeps(s: Settings, db: DB, r: Request)
    requires Inv(s, db) && FreshId(db, r)
    ensures Inv(s, After(s, db, r))
  {
    hide Inv, CreateTunnel, UpdateTunnel, RowOk;
    if Serve(s, db, r).Ok? {
      match r
      case MakeTunnel(id, body) => CreateKeeps(s, db, id, body);
      case ChangeTunnel(id, u) => UpdateKeeps(s, db, id, u);
      case _ =>
        assert forall t :: t in db.tunnels ==> RowOk(s, db.tunnels[t]) by { InvRows(s, db); }
        NoMoreKeeps(s, db, After(s, db, r));
    }
  }

  lemma InvRows(s: Settings, db: DB)
    requires Inv(s, db)
    ensures forall t :: t in db.tunnels ==> RowOk(s, db.tunnels[t])
  {
  }

  // After any sequence of requests no agent has too many tunnels or two of one name, and no
  // tunnel has too many domains.
  lemma {:induction false} RunKeeps(s: Settings, db: DB, rs: seq<Request>)
    requires Inv(s, db) && Ownership.IsRun(s, db, rs)
    ensures Inv(s, Ownership.Run(s, db, rs))
    decreases rs
  {
    hide Inv, After, FreshId;
    if rs != [] {
      RequestKeeps(s, db, rs[0]);
      RunKeeps(s, After(s, db, rs[0]), rs[1..]);
    }
  }

  // --- the depth of subdomains ---

  // The limit as the panel checks it: the labels of the subdomain, and the team's if it has one.
  predicate DeepOk(s: Settings, db: DB, t: Tunnel) {
    Truthy(t.subdomain) ==> DepthOk(s, t.subdomain.value, LabelOf(db, t.agent).Some?)
  }

  ghost predicate DepthsOk(s: Settings, db: DB) {
    forall t :: t in db.tunnels ==> DeepOk(s, db, db.tunnels[t])
  }

  // A tunnel of the team that is as deep as a team without a label may have it.
  predicate AtTheLimit(s: Settings, db: DB, team: nat, t: Tunnel) {
    TeamOf(db, t.agent) == Some(team) && Truthy(t.subdomain) && |Labels(t.subdomain.value)| == s.maxDepth
  }

  // The request gives a label to a team without one that has a tunnel at the limit.
  predicate Deepens(s: Settings, db: DB, r: Request) {
    && r.ChangeTeam? && r.id in db.teams && TeamCheck(db, r.id, r.newName, r.newLabel).None?
    && !Truthy(db.teams[r.id].subLabel)
    && Truthy(NewLabel(r.newName, r.newLabel, db.teams[r.id].subLabel))
    && exists t :: t in db.tunnels && AtTheLimit(s, db, r.id, db.tunnels[t])
  }

  // Every request keeps the depth limit, except exactly one that deepens.
  lemma DepthsKeptIff(s: Settings, db: DB, r: Request)
    requires Ownership.Inv(s, db) && DepthsOk(s, db) && FreshId(db, r)
    ensures DepthsOk(s, After(s, db, r)) <==> !Deepens(s, db, r)
  {
    if Serve(s, db, r).Ok? {
      match r
      case MakeTunnel(id, body) => CreateKeepsDepths(s, db, id, body);
      case ChangeTunnel(id, u) => UpdateKeepsDepths(s, db, id, u);
      case ChangeTeam(id, name, asked, quota, usage) => RelabelKeepsDepthsIff(s, db, r);
      case _ => OthersKeepDepths(s, db, r);
    }
  }

  lemma CreateKeepsDepths(s: Settings, db: DB, id: nat, body: Tunnel)
    requires DepthsOk(s, db) && id !in db.tunnels && CreateTunnel(s, db, id, body).Ok?
    ensures DepthsOk(s, CreateTunnel(s, db, id, body).value)
  {
    CreateFacts(s, db, id, body);
    assert DeepOk(s, db, body) by {
      hide LabelsOk, DepthOk, SubdomainTaken, CheckDomains;
    }
    hide CreateTunnel, CreateCheck, DepthOk;
    var v := CreateTunnel(s, db, id, body).value;
    assert forall a :: LabelOf(v, a) == LabelOf(db, a);
  }

  lemma UpdateKeepsDepths(s: Settings, db: DB, id: nat, u: Update)
    requires DepthsOk(s, db) && UpdateTunnel(s, db, id, u).Ok?
    ensures DepthsOk(s, UpdateTunnel(s, db, id, u).value)
  {
    UpdateFacts(s, db, id, u);
    var v := UpdateTunnel(s, db, id, u).value;
    assert DeepOk(s, db, db.tunnels[id]);
    assert DeepOk(s, db, v.tunnels[id]) by {
      hide LabelsOk, DepthOk, SubdomainTaken, CheckDomains, UpdateTunnel;
    }
    hide UpdateTunnel, UpdateCheck, DepthOk;
    assert forall a :: LabelOf(v, a) == LabelOf(db, a);
  }

  lemma RelabelKeepsDepthsIff(s: Settings, db: DB, r: Request)
    requires Ownership.Inv(s, db) && DepthsOk(s, db) && FreshId(db, r) && r.ChangeTeam? && Serve(s, db, r).Ok?
    ensures DepthsOk(s, After(s, db, r)) <==> !Deepens(s, db, r)
  {
    hide NewLabel, TeamCheck, Strip, Over, Labels, Ownership.TunnelOk, Ownership.Clash, LabelOk;
    var v := After(s, db, r);
    forall a
      ensures LabelOf(v, a) ==
        if TeamOf(db, a) == Some(r.id) then
          (if Truthy(v.teams[r.id].subLabel) then v.teams[r.id].subLabel else None)
        else LabelOf(db, a)
    {
    }
    hide LabelOf;
    if t :| t in db.tunnels && AtTheLimit(s, db, r.id, db.tunnels[t]) && Deepens(s, db, r) {
      assert !DeepOk(s, v, v.tunnels[t]);
    }
    if !Deepens(s, db, r) {
      forall t | t in v.tunnels
        ensures DeepOk(s, v, v.tunnels[t])
      {
        assert DeepOk(s, db, db.tunnels[t]);
        if TeamOf(db, db.tunnels[t].agent) == Some(r.id) {
          LabelBefore(db, r.id, db.tunnels[t].agent);
        }
      }
    }
  }

  lemma LabelBefore(db: DB, team: nat, a: nat)
    requires team in db.teams && TeamOf(db, a) == Some(team)
    ensures LabelOf(db, a).Some? <==> Truthy(db.teams[team].subLabel)
  {
  }

  lemma OthersKeepDepths(s: Settings, db: DB, r: Request)
    requires Ownership.Inv(s, db) && DepthsOk(s, db) && FreshId(db, r)
    requires !r.MakeTunnel? && !r.ChangeTunnel? && !r.ChangeTeam?
    ensures DepthsOk(s, After(s, db, r))
  {
    hide DepthOk, Slug, Strip, Over, Ownership.TunnelOk, Ownership.Clash, LabelOk;
    var v := After(s, db, r);
    forall t | t in v.tunnels
      ensures DeepOk(s, v, v.tunnels[t])
    {
      assert DeepOk(s, db, db.tunnels[t]) && v.tunnels[t] == db.tunnels[t];
      assert LabelOf(v, db.tunnels[t].agent) == LabelOf(db, db.tunnels[t].agent);
    }
  }

  function WebTunnel(agent: nat, subdomain: string): Tunnel {
    Tunnel(agent, "t", Http, "127.0.0.1", 80, None, Some(subdomain), None, true)
  }

  // A team without a label, an agent of it, and a tunnel with one label.
  function Unlabelled(): DB {
    DB(map[1 := Team("!", None, None, false)], map[1 := Agent(0, Some(1))], map[1 := WebTunnel(1, "a")])
  }

  lemma SlugOfBang()
    ensures Strip("!") == "!" && Slug("!") == None
  {
    assert Lower("!") == "!";
    assert Hyphenate("!"[1..]) == "";
    assert Hyphenate("!") == "-";
    assert StripHyphensLeft("-") == StripHyphensLeft("-"[1..]) == "";
  }

  lemma FirstWebTunnel(s: Settings, db: DB, subdomain: string)
    requires db.tunnels == map[] && 1 in db.agents && s.maxTunnels > 0
    requires subdomain != "" && LabelsOk(subdomain) && DepthOk(s, subdomain, LabelOf(db, 1).Some?)
    ensures CreateTunnel(s, db, 1, WebTunnel(1, subdomain)) == Ok(db.(tunnels := map[1 := WebTunnel(1, subdomain)]))
  {
    hide LabelsOk, DepthOk, LabelOf;
    assert TunnelsOf(db, 1) == {};
  }

  lemma MakingUnlabelled(s: Settings) returns (rs: seq<Request>)
    requires s.maxTunnels > 0 && s.maxDepth >= 1
    ensures rs == [MakeTeam(1, "!", None, None), MakeAgent(1, 0, Some(1)), MakeTunnel(1, WebTunnel(1, "a"))]
    ensures Ownership.IsRun(s, Ownership.EMPTY, rs) && Ownership.Run(s, Ownership.EMPTY, rs) == Unlabelled()
  {
    hide Slug, Strip, Labels, LabelsOk, CreateTunnel;
    var (p, q, r) := (MakeTeam(1, "!", None, None), MakeAgent(1, 0, Some(1)), MakeTunnel(1, WebTunnel(1, "a")));
    SlugOfBang();
    Isolation.OneLabelA();
    Isolation.ShortLabelOk();
    var d1 := After(s, Ownership.EMPTY, p);
    assert d1 == DB(map[1 := Team("!", None, None, false)], map[], map[]);
    var d2 := After(s, d1, q);
    assert d2 == DB(map[1 := Team("!", None, None, false)], map[1 := Agent(0, Some(1))], map[]);
    FirstWebTunnel(s, d2, "a");
    assert After(s, d2, r) == Unlabelled();
    hide *;
    Ownership.RunThree(s, Ownership.EMPTY, p, q, r);
    rs := [p, q, r];
  }

  // A run at whose end a tunnel is deeper than the limit: its team is renamed from a name that
  // gives no label to one that does.
  lemma RenamingGoesTooDeep(s: Settings) returns (rs: seq<Request>)
    requires s.maxTunnels > 0 && s.maxDepth == 1
    ensures rs == [MakeTeam(1, "!", None, None), MakeAgent(1, 0, Some(1)), MakeTunnel(1, WebTunnel(1, "a"))]
    ensures Ownership.IsRun(s, Ownership.EMPTY, rs)
    ensures var db := Ownership.Run(s, Ownership.EMPTY, rs);
      var v := After(s, db, ChangeTeam(1, Some("x"), None, None, 0));
      DepthsOk(s, db) && 1 in v.tunnels && !DeepOk(s, v, v.tunnels[1])
  {
    rs := MakingUnlabelled(s);
    Isolation.OneLabelA();
    Isolation.ShortLabelOk();
    SlugOfX();
    hide Slug, Strip, Labels, LabelsOk;
    var v := After(s, Unlabelled(), ChangeTeam(1, Some("x"), None, None, 0));
    assert v.teams[1].subLabel == Some("x");
  }

  lemma SlugOfX()
    ensures Strip("x") == "x" && Slug("x") == Some("x")
  {
    assert Lower("x") == "x";
    assert Hyphenate("x"[1..]) == "";
    assert Hyphenate("x") == "x";
  }
}
