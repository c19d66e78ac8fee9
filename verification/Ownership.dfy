/**
 What every sequence of panel requests keeps: no two tunnels own the same port on a node,
 the same subdomain within a team, or the same custom domain; and no two teams share a label.
 */
module Ownership {
  import opened Text
  import opened Panel

  predicate SettingsOk(s: Settings) {
    && 0 < s.portAllowMin && s.portAllowMax <= 65535
    && 0 < s.tcpPortMin && s.tcpPortMax <= 65535
  }

  function NodeOf(db: DB, agent: nat): Option<nat> {
    if agent in db.agents then Some(db.agents[agent].node) else None
  }

  predicate PortClash(db: DB, a: Tunnel, b: Tunnel) {
    && a.typ.IsPort() && b.typ.IsPort()
    && a.remotePort.Some? && a.remotePort == b.remotePort
    && NodeOf(db, a.agent) == NodeOf(db, b.agent)
  }

  predicate SubdomainClash(db: DB, a: Tunnel, b: Tunnel) {
    && Truthy(a.subdomain) && Truthy(b.subdomain)
    && Lower(a.subdomain.value) == Lower(b.subdomain.value)
    && TeamOf(db, a.agent) == TeamOf(db, b.agent)
  }

  predicate DomainClash(a: Tunnel, b: Tunnel) {
    !(DomainSet(a.customDomains) !! DomainSet(b.customDomains))
  }

  predicate Clash(db: DB, a: Tunnel, b: Tunnel) {
    PortClash(db, a, b) || SubdomainClash(db, a, b) || DomainClash(a, b)
  }

  // Subdomains and domains have passed their gates; a port is a port.
  predicate TunnelOk(s: Settings, t: Tunnel) {
    && (Truthy(t.subdomain) ==> LabelsOk(t.subdomain.value))
    && (forall d :: d in DomainSet(t.customDomains) ==> IsFqdn(d) && !UnderApex(s, d))
    && (t.typ.IsPort() && t.remotePort.Some? ==> 0 < t.remotePort.value <= 65535)
  }

  ghost predicate TunnelsOk(s: Settings, db: DB) {
    && (forall t :: t in db.tunnels ==> db.tunnels[t].agent in db.agents && TunnelOk(s, db.tunnels[t]))
    && (forall t, u :: t in db.tunnels && u in db.tunnels && t != u ==> !Clash(db, db.tunnels[t], db.tunnels[u]))
  }

  ghost predicate TeamsOk(db: DB) {
    && (forall a :: a in db.agents && db.agents[a].team.Some? ==> db.agents[a].team.value in db.teams)
    && (forall t :: t in db.teams ==> LabelOk(db.teams[t].subLabel))
    && (forall t, u :: t in db.teams && u in db.teams && t != u && Truthy(db.teams[t].subLabel) ==>
          db.teams[t].subLabel != db.teams[u].subLabel)
  }

  ghost predicate Inv(s: Settings, db: DB) {
    TunnelsOk(s, db) && TeamsOk(db)
  }

  // --- one tunnel put in place ---

  ghost predicate NoClash(db: DB, id: nat, t: Tunnel) {
    forall u :: u in db.tunnels && u != id ==> !Clash(db, t, db.tunnels[u])
  }

  lemma ClashSymmetric(db: DB, a: Tunnel, b: Tunnel)
    ensures Clash(db, a, b) <==> Clash(db, b, a)
  {
    hide DomainSet, Lower;
    assert DomainSet(a.customDomains) * DomainSet(b.customDomains)
        == DomainSet(b.customDomains) * DomainSet(a.customDomains);
  }

  lemma PutKeeps(s: Settings, db: DB, id: nat, t: Tunnel)
    requires Inv(s, db) && t.agent in db.agents && TunnelOk(s, t) && NoClash(db, id, t)
    ensures Inv(s, db.(tunnels := db.tunnels[id := t]))
  {
    hide Clash, TunnelOk;
    var db' := db.(tunnels := db.tunnels[id := t]);
    ClashSameAgents(db, db');
    forall u, v | u in db'.tunnels && v in db'.tunnels && u != v
      ensures !Clash(db', db'.tunnels[u], db'.tunnels[v])
    {
      if v == id {
        ClashSymmetric(db, t, db.tunnels[u]);
      }
    }
  }

  lemma ClashSameAgents(db: DB, db': DB)
    requires db.agents == db'.agents
    ensures forall a, b :: Clash(db, a, b) == Clash(db', a, b)
  {
    hide DomainSet, Lower;
  }

  lemma AllocatedIsFree(s: Settings, db: DB, node: nat, preferred: Option<int>, exclude: Option<nat>)
    requires SettingsOk(s) && AllocatePort(s, db, node, preferred, exclude).Ok?
    ensures var port := AllocatePort(s, db, node, preferred, exclude).value;
            port !in UsedPorts(db, node, exclude) && 0 < port <= 65535
  {
    hide UsedPorts;
    if preferred.None? {
      FirstFreeIsFree(UsedPorts(db, node, exclude), s.tcpPortMin, s.tcpPortMax);
    }
  }

  // The search finds the least free port, and fails only when there is none.
  lemma {:induction false} FirstFreeIsFree(used: set<int>, first: int, last: int)
    ensures var r := FirstFree(used, first, last);
            && (r.Ok? ==> first <= r.value <= last && r.value !in used && forall q :: first <= q < r.value ==> q in used)
            && (r.Err? ==> forall q :: first <= q <= last ==> q in used)
    decreases last - first
  {
    if first <= last && first in used {
      FirstFreeIsFree(used, first + 1, last);
    }
  }

  lemma UnusedNoPortClash(db: DB, id: nat, t: Tunnel, exclude: Option<nat>)
    requires t.agent in db.agents && t.remotePort.Some?
    requires exclude == Some(id) || (exclude == None && id !in db.tunnels)
    requires t.remotePort.value !in UsedPorts(db, db.agents[t.agent].node, exclude)
    ensures forall u :: u in db.tunnels && u != id ==> !PortClash(db, t, db.tunnels[u])
  {
    forall u | u in db.tunnels && u != id
      ensures !PortClash(db, t, db.tunnels[u])
    {
      var o := db.tunnels[u];
      assert o.remotePort.Some? && o.agent in db.agents && db.agents[o.agent].node == db.agents[t.agent].node
             ==> o.remotePort.value in UsedPorts(db, db.agents[t.agent].node, exclude);
    }
  }

  lemma UniqueNoSubdomainClash(db: DB, id: nat, t: Tunnel, exclude: Option<nat>)
    requires exclude == Some(id) || (exclude == None && id !in db.tunnels)
    requires CheckUnique(db, t.subdomain, TeamOf(db, t.agent), exclude).None?
    ensures forall u :: u in db.tunnels && u != id ==> !SubdomainClash(db, t, db.tunnels[u])
  {
    hide Lower;
  }

  lemma CheckedDomains(s: Settings, db: DB, id: nat, t: Tunnel, exclude: Option<nat>)
    requires exclude == Some(id) || (exclude == None && id !in db.tunnels)
    requires CheckDomains(s, db, t.customDomains, exclude).None?
    ensures forall d :: d in DomainSet(t.customDomains) ==> IsFqdn(d) && !UnderApex(s, d)
    ensures forall u :: u in db.tunnels && u != id ==> !DomainClash(t, db.tunnels[u])
  {
    hide IsFqdn, UnderApex, Lower, DomainList;
    if Truthy(t.customDomains) {
      var doms := DomainList(t.customDomains.value);
      forall d | d in DomainSet(t.customDomains)
        ensures IsFqdn(d) && !UnderApex(s, d) && !DomainTaken(db, d, exclude)
      {
        var x :| x in doms && Lower(x) == d;
        var i :| 0 <= i < |doms| && doms[i] == x;
      }
      forall u | u in db.tunnels && u != id
        ensures !DomainClash(t, db.tunnels[u])
      {
        forall d | d in DomainSet(db.tunnels[u].customDomains)
          ensures DomainTaken(db, d, exclude)
        {
        }
      }
    } else {
      NoDomains(t.customDomains);
    }
  }

  lemma NoDomains(csv: Option<string>)
    requires !Truthy(csv)
    ensures DomainSet(csv) == {}
  {
    if csv.Some? {
      assert Split("", ',') == [""];
      assert StripAll([""][1..]) == [];
      assert DomainList("") == [];
    }
  }

  // --- requests on tunnels ---

  lemma CreateTunnelKeeps(s: Settings, db: DB, id: nat, body: Tunnel)
    requires SettingsOk(s) && Inv(s, db) && id !in db.tunnels && CreateTunnel(s, db, id, body).Ok?
    ensures Inv(s, CreateTunnel(s, db, id, body).value)
  {
    hide CheckDomains, AllocatePort, UsedPorts, TunnelsOk, TeamsOk, LabelsOk, DepthOk, DomainClash, SubdomainClash,
         PortClash, DomainSet, SubdomainTaken, UnderApex, IsFqdn;
    var t := CreateTunnel(s, db, id, body).value.tunnels[id];
    UniqueNoSubdomainClash(db, id, t, None);
    CheckedDomains(s, db, id, t, None);
    if body.typ.IsPort() {
      AllocatedIsFree(s, db, db.agents[body.agent].node, body.remotePort, None);
      UnusedNoPortClash(db, id, t, None);
    } else {
      WebHasNoPortClash(db, t);
    }
    PutKeeps(s, db, id, t);
  }

  lemma WebHasNoPortClash(db: DB, t: Tunnel)
    requires !t.typ.IsPort()
    ensures forall u :: u in db.tunnels ==> !PortClash(db, t, db.tunnels[u])
  {
  }

  // A row that is changed in one respect clashes only where it is changed.
  lemma UpdatedNoClash(s: Settings, db: DB, id: nat, t: Tunnel)
    requires Inv(s, db) && id in db.tunnels
    requires var o := db.tunnels[id];
             && t.agent == o.agent && t.typ == o.typ
             && (t.remotePort == o.remotePort || t.remotePort.None?
                 || forall u :: u in db.tunnels && u != id ==> !PortClash(db, t, db.tunnels[u]))
             && (t.subdomain == o.subdomain
                 || forall u :: u in db.tunnels && u != id ==> !SubdomainClash(db, t, db.tunnels[u]))
             && (t.customDomains == o.customDomains
                 || forall u :: u in db.tunnels && u != id ==> !DomainClash(t, db.tunnels[u]))
    ensures NoClash(db, id, t)
  {
    hide DomainSet, Lower, TeamsOk, TunnelOk;
    forall u | u in db.tunnels && u != id
      ensures !Clash(db, t, db.tunnels[u])
    {
      assert !Clash(db, db.tunnels[id], db.tunnels[u]);
    }
  }

  lemma UpdateTunnelKeeps(s: Settings, db: DB, id: nat, u: Update)
    requires SettingsOk(s) && Inv(s, db) && UpdateTunnel(s, db, id, u).Ok?
    ensures Inv(s, UpdateTunnel(s, db, id, u).value)
  {
    hide CheckDomains, AllocatePort, UsedPorts, TeamsOk, LabelsOk, DepthOk, DomainClash, SubdomainClash,
         PortClash, DomainSet, SubdomainTaken, UnderApex, IsFqdn;
    var o := db.tunnels[id];
    var t := UpdateTunnel(s, db, id, u).value.tunnels[id];
    assert TunnelOk(s, o);
    if u.subdomain.Some? {
      UniqueNoSubdomainClash(db, id, t, Some(id));
    }
    if u.customDomains.Some? {
      CheckedDomains(s, db, id, t, Some(id));
    }
    if u.remotePort.Some? && u.remotePort.value.Some? {
      AllocatedIsFree(s, db, db.agents[o.agent].node, u.remotePort.value, Some(id));
      UnusedNoPortClash(db, id, t, Some(id));
    }
    UpdatedNoClash(s, db, id, t);
    PutKeeps(s, db, id, t);
  }

  lemma DropKeeps(s: Settings, db: DB, db': DB)
    requires Inv(s, db) && db'.teams == db.teams
    requires db'.agents.Keys <= db.agents.Keys && db'.tunnels.Keys <= db.tunnels.Keys
    requires forall a :: a in db'.agents ==> db'.agents[a] == db.agents[a]
    requires forall t :: t in db'.tunnels ==> db'.tunnels[t] == db.tunnels[t] && db.tunnels[t].agent in db'.agents
    ensures Inv(s, db')
  {
    hide DomainSet, Lower, TunnelOk;
    forall t, u | t in db'.tunnels && u in db'.tunnels && t != u
      ensures !Clash(db', db'.tunnels[t], db'.tunnels[u])
    {
      assert !Clash(db, db.tunnels[t], db.tunnels[u]);
    }
  }

  // --- requests on teams and agents ---

  lemma {:induction false} HyphenateChars(s: string)
    ensures forall c :: c in Hyphenate(s) ==> IsLabelChar(c)
  {
    if s != "" {
      HyphenateChars(s[1..]);
    }
  }

  lemma {:induction false} StripLeftChars(s: string)
    ensures forall c :: c in StripHyphensLeft(s) ==> c in s
  {
    if s != "" && s[0] == '-' {
      StripLeftChars(s[1..]);
    }
  }

  lemma {:induction false} StripRightChars(s: string)
    ensures forall c :: c in StripHyphensRight(s) ==> c in s
  {
    if s != "" && s[|s| - 1] == '-' {
      StripRightChars(s[..|s| - 1]);
    }
  }

  lemma SlugIsLabel(name: string)
    ensures LabelOk(Slug(name)) && (Slug(name).Some? ==> Slug(name).value != "")
  {
    var h := Hyphenate(Lower(name));
    HyphenateChars(Lower(name));
    StripLeftChars(h);
    StripRightChars(StripHyphensLeft(h));
  }

  lemma CreateTeamKeeps(s: Settings, db: DB, id: nat, name: string, subLabel: Option<string>, quota: Option<int>)
    requires Inv(s, db) && id !in db.teams && CreateTeam(db, id, name, subLabel, quota).Ok?
    ensures Inv(s, CreateTeam(db, id, name, subLabel, quota).value)
  {
    hide Slug, TunnelOk, Clash;
    SlugIsLabel(Strip(name));
    if subLabel.Some? {
      SlugIsLabel(subLabel.value);
    }
    ClashSameAgents(db, CreateTeam(db, id, name, subLabel, quota).value);
  }

  lemma NewLabelOk(name: Option<string>, asked: Option<Option<string>>, current: Option<string>)
    requires LabelOk(current)
    ensures LabelOk(NewLabel(name, asked, current))
  {
    hide Slug;
    if name.Some? {
      SlugIsLabel(Strip(name.value));
      if Truthy(Slug(Strip(name.value))) {
        SlugIsLabel(Slug(Strip(name.value)).value);
      }
    }
    if asked.Some? && Truthy(asked.value) {
      SlugIsLabel(asked.value.value);
    }
  }

  lemma UpdateTeamKeeps(s: Settings, db: DB, id: nat, name: Option<string>, asked: Option<Option<string>>,
                        quota: Option<Option<int>>, usage: nat)
    requires Inv(s, db) && UpdateTeam(db, id, name, asked, quota, usage).Ok?
    ensures Inv(s, UpdateTeam(db, id, name, asked, quota, usage).value)
  {
    hide Slug, TunnelOk, Clash, LabelOk, Strip;
    NewLabelOk(name, asked, db.teams[id].subLabel);
    ClashSameAgents(db, UpdateTeam(db, id, name, asked, quota, usage).value);
  }

  lemma MakeAgentKeeps(s: Settings, db: DB, id: nat, node: nat, team: Option<nat>)
    requires Inv(s, db) && id !in db.agents && CreateAgent(db, id, node, team).Ok?
    ensures Inv(s, CreateAgent(db, id, node, team).value)
  {
    hide DomainSet, Lower, TunnelOk;
    var db' := CreateAgent(db, id, node, team).value;
    forall t, u | t in db'.tunnels && u in db'.tunnels && t != u
      ensures !Clash(db', db'.tunnels[t], db'.tunnels[u])
    {
      assert !Clash(db, db.tunnels[t], db.tunnels[u]);
    }
  }

  lemma DeleteTeamKeeps(s: Settings, db: DB, id: nat)
    requires Inv(s, db) && DeleteTeam(db, id).Ok?
    ensures Inv(s, DeleteTeam(db, id).value)
  {
    hide TunnelOk, Clash, LabelOk;
    ClashSameAgents(db, DeleteTeam(db, id).value);
  }

  lemma PollKeeps(s: Settings, db: DB, usages: map<nat, nat>)
    requires Inv(s, db)
    ensures Inv(s, Poll(db, usages))
  {
    hide TunnelOk, Clash, LabelOk;
    ClashSameAgents(db, Poll(db, usages));
  }

  // --- every run of requests ---

  lemma RequestKeeps(s: Settings, db: DB, r: Request)
    requires SettingsOk(s) && Inv(s, db) && FreshId(db, r)
    ensures Inv(s, After(s, db, r))
  {
    hide Inv, CreateTunnel, UpdateTunnel, CreateTeam, UpdateTeam, DeleteTeam, CreateAgent, Poll;
    if Serve(s, db, r).Ok? {
      match r
      case MakeTunnel(id, body) => CreateTunnelKeeps(s, db, id, body);
      case ChangeTunnel(id, u) => UpdateTunnelKeeps(s, db, id, u);
      case DropTunnel(id) => DropTunnelKeeps(s, db, id);
      case MakeTeam(id, name, subLabel, quota) => CreateTeamKeeps(s, db, id, name, subLabel, quota);
      case ChangeTeam(id, name, subLabel, quota, usage) => UpdateTeamKeeps(s, db, id, name, subLabel, quota, usage);
      case DropTeam(id) => DeleteTeamKeeps(s, db, id);
      case MakeAgent(id, node, team) => MakeAgentKeeps(s, db, id, node, team);
      case DropAgent(id) => DropAgentKeeps(s, db, id);
      case PollTraffic(usages) => PollKeeps(s, db, usages);
    }
  }

  lemma DropTunnelKeeps(s: Settings, db: DB, id: nat)
    requires Inv(s, db) && DeleteTunnel(db, id).Ok?
    ensures Inv(s, DeleteTunnel(db, id).value)
  {
    hide TunnelOk, Clash;
    DropKeeps(s, db, DeleteTunnel(db, id).value);
  }

  lemma DropAgentKeeps(s: Settings, db: DB, id: nat)
    requires Inv(s, db) && DeleteAgent(db, id).Ok?
    ensures Inv(s, DeleteAgent(db, id).value)
  {
    hide TunnelOk, Clash;
    DropKeeps(s, db, DeleteAgent(db, id).value);
  }

  ghost predicate IsRun(s: Settings, db: DB, rs: seq<Request>)
    decreases rs
  {
    rs == [] || (FreshId(db, rs[0]) && IsRun(s, After(s, db, rs[0]), rs[1..]))
  }

  ghost function Run(s: Settings, db: DB, rs: seq<Request>): DB
    requires IsRun(s, db, rs)
    decreases rs
  {
    if rs == [] then db else Run(s, After(s, db, rs[0]), rs[1..])
  }

  lemma {:induction false} RunKeeps(s: Settings, db: DB, rs: seq<Request>)
    requires SettingsOk(s) && Inv(s, db) && IsRun(s, db, rs)
    ensures Inv(s, Run(s, db, rs))
    decreases rs
  {
    hide Inv, After, FreshId;
    if rs != [] {
      RequestKeeps(s, db, rs[0]);
      RunKeeps(s, After(s, db, rs[0]), rs[1..]);
    }
  }

  lemma RunCons(s: Settings, db: DB, r: Request, rs: seq<Request>)
    requires FreshId(db, r) && IsRun(s, After(s, db, r), rs)
    ensures IsRun(s, db, [r] + rs) && Run(s, db, [r] + rs) == Run(s, After(s, db, r), rs)
  {
    hide After, FreshId;
    assert ([r] + rs)[1..] == rs;
  }

  lemma RunThree(s: Settings, db: DB, p: Request, q: Request, r: Request)
    requires FreshId(db, p) && FreshId(After(s, db, p), q) && FreshId(After(s, After(s, db, p), q), r)
    ensures IsRun(s, db, [p, q, r]) && Run(s, db, [p, q, r]) == After(s, After(s, After(s, db, p), q), r)
  {
    hide After, FreshId;
    var d1 := After(s, db, p);
    var d2 := After(s, d1, q);
    RunCons(s, d2, r, []);
    RunCons(s, d1, q, [r]);
    RunCons(s, db, p, [q, r]);
    assert [r] + [] == [r] && [q] + [r] == [q, r] && [p] + [q, r] == [p, q, r];
  }

  lemma {:induction false} RunAppend(s: Settings, db: DB, rs: seq<Request>, more: seq<Request>)
    requires IsRun(s, db, rs) && IsRun(s, Run(s, db, rs), more)
    ensures IsRun(s, db, rs + more) && Run(s, db, rs + more) == Run(s, Run(s, db, rs), more)
    decreases rs
  {
    hide After, FreshId;
    if rs == [] {
      assert rs + more == more;
    } else {
      RunAppend(s, After(s, db, rs[0]), rs[1..], more);
      assert (rs + more)[1..] == rs[1..] + more;
    }
  }

  const EMPTY := DB(map[], map[], map[])

  lemma EmptyOk(s: Settings)
    ensures Inv(s, EMPTY)
  {
  }
}
