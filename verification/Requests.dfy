/**
 What the panel's requests do and when they are refused, stated on the rows: which fields an
 accepted request sets and to what, what it leaves alone, and which answer a refused one gets.
 */
module Requests {

  import opened Text
  import opened Panel
  import opened Ownership
  import Config
  import Grant
  import Hosts
  import Isolation

  // --- ports ---

  // Another tunnel on the node has the port.
  ghost predicate InUse(db: DB, node: nat, p: int, exclude: Option<nat>) {
    exists t :: t in db.tunnels && Some(t) != exclude && db.tunnels[t].remotePort == Some(p)
      && db.tunnels[t].agent in db.agents && db.agents[db.tunnels[t].agent].node == node
  }

  lemma UsedIff(db: DB, node: nat, p: int, exclude: Option<nat>)
    ensures p in UsedPorts(db, node, exclude) <==> InUse(db, node, p, exclude)
  {
  }

  lemma NoneFree(used: set<int>, first: int, last: int)
    ensures FirstFree(used, first, last).Ok? || FirstFree(used, first, last) == Err(Conflict)
    decreases last - first
  {
  }

  // A wished port is granted exactly if it is allowed and not in use; without a wish the least port
  // of the range that is not in use is granted, if there is one.
  lemma AllocateSays(s: Settings, db: DB, node: nat, preferred: Option<int>, exclude: Option<nat>)
    ensures var r := AllocatePort(s, db, node, preferred, exclude);
      preferred.Some? ==>
        var p := preferred.value;
        && (r == Ok(p) <==> s.portAllowMin <= p <= s.portAllowMax && !InUse(db, node, p, exclude))
        && (r == Err(Unprocessable) <==> p < s.portAllowMin || p > s.portAllowMax)
        && (r == Err(Conflict) <==> s.portAllowMin <= p <= s.portAllowMax && InUse(db, node, p, exclude))
    ensures var r := AllocatePort(s, db, node, preferred, exclude);
      preferred.None? ==>
        && (r.Ok? ==> s.tcpPortMin <= r.value <= s.tcpPortMax && !InUse(db, node, r.value, exclude)
                      && forall q :: s.tcpPortMin <= q < r.value ==> InUse(db, node, q, exclude))
        && (r.Err? ==> r == Err(Conflict)
                       && forall q :: s.tcpPortMin <= q <= s.tcpPortMax ==> InUse(db, node, q, exclude))
  {
    forall p
      ensures p in UsedPorts(db, node, exclude) <==> InUse(db, node, p, exclude)
    {
      UsedIff(db, node, p, exclude);
    }
    FirstFreeIsFree(UsedPorts(db, node, exclude), s.tcpPortMin, s.tcpPortMax);
    NoneFree(UsedPorts(db, node, exclude), s.tcpPortMin, s.tcpPortMax);
    hide UsedPorts, InUse, FirstFree;
  }

  // --- names ---

  // Another tunnel of the team has the subdomain, in whatever case.
  ghost predicate SubdomainInUse(db: DB, subdomain: string, agent: nat, exclude: Option<nat>) {
    exists t :: t in db.tunnels && Some(t) != exclude && TeamOf(db, db.tunnels[t].agent) == TeamOf(db, agent)
      && db.tunnels[t].subdomain.Some? && SameButCase(db.tunnels[t].subdomain.value, subdomain)
  }

  // Another tunnel lists the domain, in whatever case.
  ghost predicate DomainInUse(db: DB, domain: string, exclude: Option<nat>) {
    exists t, d :: t in db.tunnels && Some(t) != exclude && db.tunnels[t].customDomains.Some?
      && d in DomainList(db.tunnels[t].customDomains.value) && SameButCase(d, domain)
  }

  lemma SubdomainTakenIff(db: DB, subdomain: string, agent: nat, exclude: Option<nat>)
    ensures SubdomainTaken(db, subdomain, TeamOf(db, agent), exclude) <==> SubdomainInUse(db, subdomain, agent, exclude)
  {
    hide Lower, SameButCase;
    forall x
      ensures Lower(x) == Lower(subdomain) <==> SameButCase(x, subdomain)
    {
      LowerEqualIff(x, subdomain);
    }
  }

  lemma DomainTakenIff(db: DB, domain: string, exclude: Option<nat>)
    ensures DomainTaken(db, Lower(domain), exclude) <==> DomainInUse(db, domain, exclude)
  {
    hide Lower, SameButCase, DomainList;
    forall x
      ensures Lower(x) == Lower(domain) <==> SameButCase(x, domain)
    {
      LowerEqualIff(x, domain);
    }
    if DomainInUse(db, domain, exclude) {
      var t, d :| t in db.tunnels && Some(t) != exclude && db.tunnels[t].customDomains.Some?
        && d in DomainList(db.tunnels[t].customDomains.value) && SameButCase(d, domain);
      assert Lower(d) in DomainSet(db.tunnels[t].customDomains);
    }
  }

  // A given subdomain has a bad label, a reserved one, or too many.
  predicate BadSubdomain(s: Settings, db: DB, agent: nat, subdomain: Option<string>) {
    subdomain.Some? && subdomain.value != "" &&
      (!LabelsOk(subdomain.value)
       || |Labels(subdomain.value)| + (if LabelOf(db, agent).Some? then 1 else 0) > s.maxDepth)
  }

  ghost predicate TakenSubdomain(db: DB, agent: nat, subdomain: Option<string>, exclude: Option<nat>) {
    subdomain.Some? && subdomain.value != "" && SubdomainInUse(db, subdomain.value, agent, exclude)
  }

  // Too many domains, or one that is malformed or lies under the apex.
  ghost predicate BadDomains(s: Settings, domains: Option<string>) {
    domains.Some? && domains.value != "" &&
      (|DomainList(domains.value)| > s.maxDomains
       || exists d :: d in DomainList(domains.value) && (!IsFqdn(Lower(d)) || UnderApex(s, Lower(d))))
  }

  ghost predicate TakenDomain(db: DB, domains: Option<string>, exclude: Option<nat>) {
    domains.Some? && domains.value != "" && exists d :: d in DomainList(domains.value) && DomainInUse(db, d, exclude)
  }

  // A domain lies under the apex if it is the apex or ends with a dot and the apex, in whatever case.
  lemma UnderApexSays(s: Settings, d: string)
    ensures UnderApex(s, Lower(d)) <==> SameButCase(d, s.apex) || Hosts.Under(s.apex, d)
  {
    var apex := Lower(s.apex);
    LowerMeans(s.apex, apex);
    Hosts.EndsWithMeans(apex, d);
    SameAsLower(d, s.apex);
    if |d| > |apex| {
      SameAsLower(d[|d| - |apex|..], s.apex);
    }
    hide SameButCase, NoUpper, Lower;
  }

  lemma SameAsLower(a: string, b: string)
    ensures SameButCase(a, Lower(b)) <==> SameButCase(a, b)
  {
    LowerIdempotent(b);
    LowerEqualIff(a, b);
    LowerEqualIff(a, Lower(b));
  }

  lemma CheckNamesSays(s: Settings, db: DB, agent: nat, subdomain: Option<string>, domains: Option<string>, exclude: Option<nat>)
    ensures CheckSubdomain(s, subdomain, LabelOf(db, agent).Some?)
         == if BadSubdomain(s, db, agent, subdomain) then Some(Unprocessable) else None
    ensures CheckUnique(db, subdomain, TeamOf(db, agent), exclude)
         == if TakenSubdomain(db, agent, subdomain, exclude) then Some(Conflict) else None
    ensures CheckDomains(s, db, domains, exclude)
         == if BadDomains(s, domains) then Some(Unprocessable)
            else if TakenDomain(db, domains, exclude) then Some(Conflict) else None
  {
    if subdomain.Some? {
      SubdomainTakenIff(db, subdomain.value, agent, exclude);
    }
    if Truthy(domains) {
      var doms := DomainList(domains.value);
      forall d | d in doms
        ensures DomainTaken(db, Lower(d), exclude) <==> DomainInUse(db, d, exclude)
      {
        DomainTakenIff(db, d, exclude);
      }
      hide DomainList, IsFqdn, UnderApex, Lower, DomainTaken, DomainInUse;
      assert forall i :: 0 <= i < |doms| ==> doms[i] in doms;
    }
    hide LabelsOk, Labels, SubdomainTaken, SubdomainInUse, LabelOf, TeamOf;
  }

  // --- a new tunnel ---

  // Without a name where one is needed, or too many for the agent.
  ghost predicate BadTunnel(s: Settings, db: DB, body: Tunnel) {
    || ((body.typ.Http? || body.typ.Https?) && !Truthy(body.subdomain) && !Truthy(body.customDomains))
    || BadSubdomain(s, db, body.agent, body.subdomain)
    || |(set t | t in db.tunnels && db.tunnels[t].agent == body.agent)| >= s.maxTunnels
  }

  ghost predicate NameTaken(db: DB, body: Tunnel) {
    exists t :: t in db.tunnels && db.tunnels[t].agent == body.agent && db.tunnels[t].name == body.name
  }

  // The first reason to refuse a new tunnel, before a port is looked for.
  lemma CreateCheckSays(s: Settings, db: DB, body: Tunnel)
    requires body.agent in db.agents
    ensures CreateCheck(s, db, body) ==
      if BadTunnel(s, db, body) then Some(Unprocessable)
      else if NameTaken(db, body) || TakenSubdomain(db, body.agent, body.subdomain, None) then Some(Conflict)
      else if BadDomains(s, body.customDomains) then Some(Unprocessable)
      else if TakenDomain(db, body.customDomains, None) then Some(Conflict)
      else None
  {
    CheckNamesSays(s, db, body.agent, body.subdomain, body.customDomains, None);
    assert TunnelsOf(db, body.agent) == set t | t in db.tunnels && db.tunnels[t].agent == body.agent;
    assert NameTaken(db, body) <==> exists t :: t in TunnelsOf(db, body.agent) && db.tunnels[t].name == body.name;
    hide BadSubdomain, TakenSubdomain, BadDomains, TakenDomain, CheckSubdomain, CheckUnique, CheckDomains, LabelOf,
         TeamOf, NameTaken;
  }

  // Only this row is new; it is as it was sent, apart from the port of a port tunnel.
  ghost predicate Made(db: DB, id: nat, body: Tunnel, v: DB) {
    && v.teams == db.teams && v.agents == db.agents
    && v.tunnels.Keys == db.tunnels.Keys + {id}
    && (forall t :: t in db.tunnels ==> v.tunnels[t] == db.tunnels[t])
    && var row := v.tunnels[id];
       && row.agent == body.agent && row.name == body.name && row.typ == body.typ && row.enabled == body.enabled
       && row.localIp == body.localIp && row.localPort == body.localPort
       && row.subdomain == body.subdomain && row.customDomains == body.customDomains
       && (!(body.typ.Tcp? || body.typ.Udp?) ==> row.remotePort == body.remotePort)
  }

  // The answer to a request for a new tunnel, and the row that it makes.
  lemma CreateTunnelSays(s: Settings, db: DB, id: nat, body: Tunnel)
    requires id !in db.tunnels
    ensures var r := CreateTunnel(s, db, id, body);
      var port := AllocatePort(s, db, if body.agent in db.agents then db.agents[body.agent].node else 0, body.remotePort, None);
      if body.agent !in db.agents then r == Err(NotFound)
      else if BadTunnel(s, db, body) then r == Err(Unprocessable)
      else if NameTaken(db, body) || TakenSubdomain(db, body.agent, body.subdomain, None) then r == Err(Conflict)
      else if BadDomains(s, body.customDomains) then r == Err(Unprocessable)
      else if TakenDomain(db, body.customDomains, None) then r == Err(Conflict)
      else if (body.typ.Tcp? || body.typ.Udp?) && port.Err? then r == Err(port.error)
      else r.Ok? && Made(db, id, body, r.value)
           && (body.typ.Tcp? || body.typ.Udp? ==> r.value.tunnels[id].remotePort == Some(port.value))
  {
    if body.agent in db.agents {
      CreateCheckSays(s, db, body);
    }
    hide CreateCheck, BadTunnel, NameTaken, TakenSubdomain, BadDomains, TakenDomain, AllocatePort;
  }

  // --- a changed tunnel ---

  function Given<T>(o: Option<T>, otherwise: T): T {
    match o
    case Some(x) => x
    case None => otherwise
  }

  // Every field that is given is set to what is given, and nothing else changes.
  ghost predicate Changed(db: DB, id: nat, u: Update, v: DB)
    requires id in db.tunnels
  {
    && v.teams == db.teams && v.agents == db.agents && v.tunnels.Keys == db.tunnels.Keys
    && (forall t :: t in db.tunnels && t != id ==> v.tunnels[t] == db.tunnels[t])
    && var (t, row) := (db.tunnels[id], v.tunnels[id]);
       && row.agent == t.agent && row.name == t.name && row.typ == t.typ
       && row.enabled == Given(u.enabled, t.enabled)
       && row.localIp == Given(u.localIp, t.localIp)
       && row.localPort == Given(u.localPort, t.localPort)
       && row.remotePort == Given(u.remotePort, t.remotePort)
       && row.subdomain == Given(u.subdomain, t.subdomain)
       && row.customDomains == Given(u.customDomains, t.customDomains)
  }

  ghost predicate BadPort(s: Settings, u: Update) {
    u.remotePort.Some? && u.remotePort.value.Some?
    && !(s.portAllowMin <= u.remotePort.value.value <= s.portAllowMax)
  }

  ghost predicate TakenPort(db: DB, id: nat, u: Update)
    requires id in db.tunnels && db.tunnels[id].agent in db.agents
  {
    u.remotePort.Some? && u.remotePort.value.Some?
    && InUse(db, db.agents[db.tunnels[id].agent].node, u.remotePort.value.value, Some(id))
  }

  // The answer to a request for a change, and what an accepted one does.
  lemma UpdateTunnelSays(s: Settings, db: DB, id: nat, u: Update)
    ensures var r := UpdateTunnel(s, db, id, u);
      if id !in db.tunnels || db.tunnels[id].agent !in db.agents then r == Err(NotFound)
      else
        var (a, sub, doms) := (db.tunnels[id].agent, Given(u.subdomain, None), Given(u.customDomains, None));
        if BadSubdomain(s, db, a, sub) then r == Err(Unprocessable)
        else if TakenSubdomain(db, a, sub, Some(id)) then r == Err(Conflict)
        else if BadDomains(s, doms) then r == Err(Unprocessable)
        else if TakenDomain(db, doms, Some(id)) then r == Err(Conflict)
        else if BadPort(s, u) then r == Err(Unprocessable)
        else if TakenPort(db, id, u) then r == Err(Conflict)
        else r.Ok? && Changed(db, id, u, r.value)
  {
    if id in db.tunnels && db.tunnels[id].agent in db.agents {
      var (a, sub, doms) := (db.tunnels[id].agent, Given(u.subdomain, None), Given(u.customDomains, None));
      CheckNamesSays(s, db, a, sub, doms, Some(id));
      if u.remotePort.Some? {
        AllocateSays(s, db, db.agents[a].node, u.remotePort.value, Some(id));
      }
    }
    hide CheckSubdomain, CheckUnique, CheckDomains, BadSubdomain, TakenSubdomain, BadDomains, TakenDomain, AllocatePort,
         InUse, LabelOf, TeamOf;
  }

  // --- a tunnel that is dropped ---

  lemma DeleteTunnelSays(db: DB, id: nat)
    ensures var r := DeleteTunnel(db, id);
      if id !in db.tunnels then r == Err(NotFound)
      else
        r.Ok? && r.value.teams == db.teams && r.value.agents == db.agents
        && forall t :: (t in r.value.tunnels <==> t in db.tunnels && t != id)
                       && (t in r.value.tunnels ==> r.value.tunnels[t] == db.tunnels[t])
  {
  }

  // --- teams and agents ---

  ghost predicate NameInUse(db: DB, name: string, exclude: Option<nat>) {
    exists t :: t in db.teams && Some(t) != exclude && db.teams[t].name == name
  }

  ghost predicate LabelInUse(db: DB, subLabel: string, exclude: Option<nat>) {
    exists t :: t in db.teams && Some(t) != exclude && db.teams[t].subLabel == Some(subLabel)
  }

  // Only this team is new or changed.
  ghost predicate OnlyTeam(db: DB, id: nat, v: DB) {
    && v.tunnels == db.tunnels && v.agents == db.agents && v.teams.Keys == db.teams.Keys + {id}
    && forall t :: t in db.teams && t != id ==> v.teams[t] == db.teams[t]
  }

  // The answer to a request for a new team: its name is stripped, and its label is the slug of the
  // label that is asked for, or else of the name.
  lemma CreateTeamSays(db: DB, id: nat, name: string, asked: Option<string>, quota: Option<int>)
    requires id !in db.teams
    ensures var r := CreateTeam(db, id, name, asked, quota);
      var n := Strip(name);
      var l := if asked.Some? && asked.value != "" then Slug(asked.value) else Slug(n);
      if n == "" then r == Err(Unprocessable)
      else if NameInUse(db, n, None) || (l.Some? && LabelInUse(db, l.value, None)) then r == Err(Conflict)
      else r.Ok? && OnlyTeam(db, id, r.value) && r.value.teams[id].name == n && r.value.teams[id].subLabel == l
           && r.value.teams[id].quota == quota && !r.value.teams[id].suspended
  {
    hide Slug, Strip;
  }

  // The answer to a request for a change of a team: a rename without a label takes the slug of the
  // new name, an empty label takes the label away, and the suspension follows quota and usage.
  lemma UpdateTeamSays(db: DB, id: nat, name: Option<string>, asked: Option<Option<string>>,
                       quota: Option<Option<int>>, usage: nat)
    ensures var r := UpdateTeam(db, id, name, asked, quota, usage);
      if id !in db.teams then r == Err(NotFound)
      else
        var t := db.teams[id];
        var n := if name.Some? then Strip(name.value) else t.name;
        var l := if asked.Some? then (if Truthy(asked.value) then Slug(asked.value.value) else asked.value)
                 else if name.Some? then Slugged(Slug(n)) else t.subLabel;
        var q := Given(quota, t.quota);
        if name.Some? && n == "" then r == Err(Unprocessable)
        else if name.Some? && NameInUse(db, n, Some(id)) then r == Err(Conflict)
        else if (name.Some? || asked.Some?) && Truthy(l) && LabelInUse(db, l.value, Some(id)) then r == Err(Conflict)
        else r.Ok? && OnlyTeam(db, id, r.value) && r.value.teams[id].name == n && r.value.teams[id].subLabel == l
             && r.value.teams[id].quota == q
             && (r.value.teams[id].suspended <==> q.Some? && usage > q.value)
  {
    hide Slug, Strip;
  }

  // A label that is derived goes through the slug once more.
  function Slugged(l: Option<string>): Option<string> {
    if Truthy(l) then Slug(l.value) else l
  }

  // A poll suspends exactly the teams over their quota, and touches nothing else.
  lemma PollSays(db: DB, usages: map<nat, nat>)
    ensures var v := Poll(db, usages);
      && v.tunnels == db.tunnels && v.agents == db.agents && v.teams.Keys == db.teams.Keys
      && forall t :: t in db.teams ==>
           && v.teams[t].name == db.teams[t].name && v.teams[t].subLabel == db.teams[t].subLabel
           && v.teams[t].quota == db.teams[t].quota
           && (v.teams[t].suspended <==>
                 db.teams[t].quota.Some? && (if t in usages then usages[t] else 0) > db.teams[t].quota.value)
  {
  }

  lemma DeleteTeamSays(db: DB, id: nat)
    ensures var r := DeleteTeam(db, id);
      if id !in db.teams then r == Err(NotFound)
      else if exists a :: a in db.agents && db.agents[a].team == Some(id) then r == Err(Conflict)
      else r.Ok? && r.value.tunnels == db.tunnels && r.value.agents == db.agents
           && forall t :: (t in r.value.teams <==> t in db.teams && t != id)
                          && (t in r.value.teams ==> r.value.teams[t] == db.teams[t])
  {
  }

  // An agent is made for a team that exists, or for none.
  lemma CreateAgentSays(db: DB, id: nat, node: nat, team: Option<nat>)
    requires id !in db.agents
    ensures var r := CreateAgent(db, id, node, team);
      if team.Some? && team.value !in db.teams then r == Err(NotFound)
      else r.Ok? && r.value.teams == db.teams && r.value.tunnels == db.tunnels
           && r.value.agents.Keys == db.agents.Keys + {id}
           && r.value.agents[id].node == node && r.value.agents[id].team == team
           && forall a :: a in db.agents ==> r.value.agents[a] == db.agents[a]
  {
  }

  // An agent goes with all its tunnels and with no other.
  lemma DeleteAgentSays(db: DB, id: nat)
    ensures var r := DeleteAgent(db, id);
      if id !in db.agents then r == Err(NotFound)
      else r.Ok? && r.value.teams == db.teams
           && (forall a :: (a in r.value.agents <==> a in db.agents && a != id)
                           && (a in r.value.agents ==> r.value.agents[a] == db.agents[a]))
           && (forall t :: (t in r.value.tunnels <==> t in db.tunnels && db.tunnels[t].agent != id)
                           && (t in r.value.tunnels ==> r.value.tunnels[t] == db.tunnels[t]))
  {
  }

  // --- the effect of switching a tunnel on or off ---

  ghost predicate Shows(ps: seq<Config.Payload>, t: nat) {
    exists p :: p in ps && p.proxyName == "t" + PrintNat(t)
  }

  lemma {:induction false} ShownIff(db: DB, ids: seq<nat>, host: string, subLabel: Option<string>, t: nat)
    requires forall x :: x in ids ==> x in db.tunnels
    ensures Shows(Config.Payloads(db, ids, host, subLabel), t) <==> t in ids && db.tunnels[t].enabled
  {
    hide Config.Fqdns, PrintNat;
    if ids != [] {
      var (x, rest) := (ids[0], Config.Payloads(db, ids[1..], host, subLabel));
      ShownIff(db, ids[1..], host, subLabel, t);
      var first := Config.Domainize(Config.TunnelPayload(x, db.tunnels[x]), host, subLabel);
      assert first.proxyName == "t" + PrintNat(x);
      hide Config.Domainize, Config.TunnelPayload;
      assert first.proxyName == "t" + PrintNat(t) <==> x == t by {
        if first.proxyName == "t" + PrintNat(t) {
          assert first.proxyName[1..] == PrintNat(x) && ("t" + PrintNat(t))[1..] == PrintNat(t);
          PrintNatInjective(x, t);
        }
      }
      assert forall y :: y in ids <==> y == x || y in ids[1..];
      var ps := Config.Payloads(db, ids, host, subLabel);
      assert ps == (if db.tunnels[x].enabled then [first] else []) + rest;
      assert forall p :: p in ps <==> (db.tunnels[x].enabled && p == first) || p in rest;
    }
  }

  // The host names of a web tunnel, as its agent is told them.
  function NamesOf(db: DB, host: string, t: nat): seq<string>
    requires t in db.tunnels
  {
    var r := db.tunnels[t];
    if r.typ.IsWeb() then Config.Fqdns(r.subdomain, r.customDomains, host, LabelOf(db, r.agent)) else []
  }

  lemma UnlabelledHostsDiffer(s: Settings, db: DB, a: nat, host: string, t: nat, u: nat, f: string, g: string)
    requires Inv(s, db) && Lower(host) == Lower(s.apex) && LabelOf(db, a).None? && t != u
    requires Isolation.OwnsHost(db, a, host, t, f) && Isolation.OwnsHost(db, a, host, u, g)
    ensures Lower(f) != Lower(g)
  {
    var (p, q, apex) := (db.tunnels[t], db.tunnels[u], "." + Lower(s.apex));
    assert TunnelOk(s, p) && TunnelOk(s, q) && !Clash(db, p, q);
    Isolation.HostOrigin(db, a, host, t, f);
    Isolation.HostOrigin(db, a, host, u, g);
    Isolation.NoSuffix(host, LabelOf(db, a));
    hide Lower, LabelOf, TeamsOk, PortClash, LabelsOk, DomainSet, Config.Fqdns, IsFqdn, Config.Suffix;
    if Truthy(p.subdomain) {
      BelowApex(s, Lower(p.subdomain.value));
    }
    if Truthy(q.subdomain) {
      BelowApex(s, Lower(q.subdomain.value));
    }
    if Truthy(p.subdomain) && Truthy(q.subdomain) && Lower(p.subdomain.value) + "." + Lower(host) == Lower(q.subdomain.value) + "." + Lower(host) {
      Isolation.CutSuffix(Lower(p.subdomain.value), Lower(q.subdomain.value), apex) by {
        BelowApex(s, Lower(p.subdomain.value));
        BelowApex(s, Lower(q.subdomain.value));
      }
    }
  }

  lemma BelowApex(s: Settings, x: string)
    ensures x + "." + Lower(s.apex) == x + ("." + Lower(s.apex)) && UnderApex(s, x + "." + Lower(s.apex))
  {
    hide Lower;
  }

  lemma OneAgentsHostsDiffer(s: Settings, db: DB, a: nat, host: string, t: nat, u: nat, f: string, g: string)
    requires Inv(s, db) && Lower(host) == Lower(s.apex) && t != u
    requires Isolation.OwnsHost(db, a, host, t, f) && Isolation.OwnsHost(db, a, host, u, g)
    ensures Lower(f) != Lower(g)
  {
    hide *;
    if LabelOf(db, a).Some? {
      Isolation.HostsDiffer(s, db, a, a, host, t, u, f, g);
    } else {
      UnlabelledHostsDiffer(s, db, a, host, t, u, f, g);
    }
  }

  // What the agent may be granted does not cover a tunnel that is switched off.
  lemma OffIsUncovered(s: Settings, db: DB, host: string, ids: seq<nat>, t: nat)
    requires Inv(s, db) && Lower(host) == Lower(s.apex) && t in db.tunnels && !db.tunnels[t].enabled
    requires Isolation.Sublist(db, db.tunnels[t].agent, ids)
    ensures var r := db.tunnels[t];
      && (r.typ.IsPort() && r.remotePort.Some? ==> r.remotePort.value !in Isolation.ListedPorts(db, ids))
      && (forall f :: f in NamesOf(db, host, t) ==> Lower(f) !in Isolation.ListedHosts(db, r.agent, host, ids))
  {
    var r := db.tunnels[t];
    forall f | f in NamesOf(db, host, t)
      ensures Lower(f) !in Isolation.ListedHosts(db, r.agent, host, ids)
    {
      if Lower(f) in Isolation.ListedHosts(db, r.agent, host, ids) {
        var u, g := ListedName(db, r.agent, host, ids, Lower(f));
        SharedNameClashes(s, db, host, t, u, f, g);
        assert false;
      }
    }
  }

  lemma ListedName(db: DB, a: nat, host: string, ids: seq<nat>, h: string) returns (u: nat, g: string)
    requires h in Isolation.ListedHosts(db, a, host, ids)
    ensures u in ids && Isolation.OwnsHost(db, a, host, u, g) && Lower(g) == h
  {
    hide Lower, Config.Fqdns, LabelOf;
    u, g :| u in ids && u in db.tunnels && Isolation.Enabled(db, a, u) && db.tunnels[u].typ.IsWeb()
            && g in Config.Fqdns(db.tunnels[u].subdomain, db.tunnels[u].customDomains, host, LabelOf(db, a)) && Lower(g) == h;
  }

  // Seen with every tunnel switched on.
  lemma SharedNameClashes(s: Settings, db: DB, host: string, t: nat, u: nat, f: string, g: string)
    requires Inv(s, db) && Lower(host) == Lower(s.apex) && t in db.tunnels && f in NamesOf(db, host, t) && t != u
    requires Isolation.OwnsHost(db, db.tunnels[t].agent, host, u, g)
    ensures Lower(f) != Lower(g)
  {
    var (on, a) := (Hosts.AllEnabled(db), db.tunnels[t].agent);
    Hosts.AllEnabledKeeps(s, db);
    hide Config.Fqdns, LabelOf, Inv, Lower;
    OneAgentsHostsDiffer(s, on, a, host, t, u, f, g);
  }

  // And it covers a listed one that is switched on.
  lemma OnIsCovered(s: Settings, db: DB, host: string, ids: seq<nat>, t: nat)
    requires Inv(s, db) && t in ids && t in db.tunnels && db.tunnels[t].enabled
    requires Isolation.Sublist(db, db.tunnels[t].agent, ids)
    ensures var r := db.tunnels[t];
      && (r.typ.IsPort() && r.remotePort.Some? ==> r.remotePort.value in Isolation.ListedPorts(db, ids))
      && (forall f :: f in NamesOf(db, host, t) ==> Lower(f) in Isolation.ListedHosts(db, r.agent, host, ids))
  {
    assert TunnelOk(s, db.tunnels[t]);
    hide Lower, Config.Fqdns, LabelOf, Clash, TeamsOk;
  }

  // The payloads and the grant of the configuration that the panel sends next, as the engine reads
  // it: they hold the tunnel, its port and its hosts if it is on and its team is not suspended, and
  // nothing of it otherwise.
  ghost predicate Held(mac: string -> string, db: DB, host: string, ids: seq<nat>, exp: int, now: int, t: nat, on: bool)
    requires t in db.tunnels && forall x :: x in ids ==> x in db.tunnels
  {
    var (r, ps) := (db.tunnels[t], Isolation.AgentPayloads(db, db.tunnels[t].agent, host, ids));
    var read := Grant.Verified(mac, Config.ConfigGrant(mac, r.agent, exp, ps), Config.AgentCn(r.agent), now);
    && (Shows(ps, t) <==> on)
    && read.Success?
    && (r.typ.IsPort() && r.remotePort.Some? ==> (read.grant.AllowPort(r.remotePort.value) <==> on))
    && (forall f :: f in NamesOf(db, host, t) ==> (read.grant.AllowHost(f) <==> on))
  }

  lemma SwitchShows(s: Settings, mac: string -> string, db: DB, host: string, ids: seq<nat>, exp: int, now: int, t: nat)
    requires Grant.IsMac(mac) && Inv(s, db) && Config.Clean(host) && Lower(host) == Lower(s.apex)
    requires t in db.tunnels && Isolation.Selects(db, db.tunnels[t].agent, ids) && FitsInt64(exp) && now <= exp
    ensures Held(mac, db, host, ids, exp, now, t, db.tunnels[t].enabled && !Suspended(db, db.tunnels[t].agent))
  {
    var a := db.tunnels[t].agent;
    var on := db.tunnels[t].enabled && !Suspended(db, a);
    Isolation.SelectedAreListed(db, a, ids);
    Isolation.GrantVerdict(s, mac, db, a, host, ids, exp, Config.AgentCn(a), now);
    ShownIff(db, ids, host, LabelOf(db, a), t);
    assert t in ids <==> !Suspended(db, a);
    if on {
      OnIsCovered(s, db, host, ids, t);
    } else if t in ids {
      OffIsUncovered(s, db, host, ids, t);
    } else {
      Isolation.NoneListed(db, a, host);
    }
    hide Inv, Config.Clean, Grant.IsMac, Grant.Verified, Config.ConfigGrant, NamesOf, Isolation.ListedPorts,
         Isolation.ListedHosts, Lower, LabelOf, Config.AgentCn, Shows, Suspended, FitsInt64, Isolation.Selects;
  }

  // An accepted update that switches a tunnel on or off takes effect in the next configuration:
  // switched off, neither the payloads nor the grant hold anything of it; switched on, they hold it
  // with its port and hosts, unless its team is suspended.
  lemma UpdateSwitches(s: Settings, mac: string -> string, db: DB, id: nat, u: Update, host: string, ids: seq<nat>,
                       exp: int, now: int)
    requires Grant.IsMac(mac) && SettingsOk(s) && Inv(s, db) && Config.Clean(host) && Lower(host) == Lower(s.apex)
    requires UpdateTunnel(s, db, id, u).Ok? && u.enabled.Some? && FitsInt64(exp) && now <= exp
    requires var v := UpdateTunnel(s, db, id, u).value;
      id in v.tunnels ==> Isolation.Selects(v, v.tunnels[id].agent, ids)
    ensures var v := UpdateTunnel(s, db, id, u).value;
      && id in v.tunnels && (forall x :: x in ids ==> x in v.tunnels)
      && Held(mac, v, host, ids, exp, now, id, u.enabled.value && !Suspended(v, v.tunnels[id].agent))
  {
    hide Inv, UpdateTunnel, Held, Config.Clean, Lower, Grant.IsMac, SettingsOk, Suspended, FitsInt64;
    UpdateTunnelSays(s, db, id, u);
    RequestKeeps(s, db, ChangeTunnel(id, u));
    var v := UpdateTunnel(s, db, id, u).value;
    Isolation.SelectedAreListed(v, v.tunnels[id].agent, ids);
    SwitchShows(s, mac, v, host, ids, exp, now, id);
  }
}
