/**
 Tenant isolation end to end: what the engine recovers from an agent's grant is exactly what
 the agent's own enabled tunnels ask for, and the grants of different agents never overlap.
 */
module Isolation {
  import opened Text
  import opened Panel
  import opened Ownership
  import opened Config
  import ProxySpec
  import Registry
  import Grant

  // `ids` lists tunnels of an agent.
  ghost predicate Sublist(db: DB, agent: nat, ids: seq<nat>) {
    forall t :: t in ids ==> t in db.tunnels && db.tunnels[t].agent == agent
  }

  // `ids` lists all tunnels of an agent.
  ghost predicate Lists(db: DB, agent: nat, ids: seq<nat>) {
    forall t :: t in ids <==> t in db.tunnels && db.tunnels[t].agent == agent
  }

  // What the panel puts into a configuration: nothing while the team is suspended.
  ghost predicate Selects(db: DB, agent: nat, ids: seq<nat>) {
    if Suspended(db, agent) then ids == [] else Lists(db, agent, ids)
  }

  predicate Enabled(db: DB, agent: nat, t: nat) {
    t in db.tunnels && db.tunnels[t].agent == agent && db.tunnels[t].enabled
  }

  predicate OwnsPort(db: DB, agent: nat, t: nat, port: int) {
    && Enabled(db, agent, t) && db.tunnels[t].typ.IsPort()
    && db.tunnels[t].remotePort == Some(port) && port != 0
  }

  predicate OwnsHost(db: DB, agent: nat, host: string, t: nat, fqdn: string) {
    && Enabled(db, agent, t) && db.tunnels[t].typ.IsWeb()
    && fqdn in Fqdns(db.tunnels[t].subdomain, db.tunnels[t].customDomains, host, LabelOf(db, agent))
  }

  // The ports and the lower-cased hosts of an agent's enabled tunnels.
  function OwnedPorts(db: DB, agent: nat): set<int> {
    set t | t in db.tunnels && Enabled(db, agent, t) && db.tunnels[t].typ.IsPort()
            && db.tunnels[t].remotePort.Some? && db.tunnels[t].remotePort.value != 0
          :: db.tunnels[t].remotePort.value
  }

  function OwnedHosts(db: DB, agent: nat, host: string): set<string> {
    set t, f | t in db.tunnels && Enabled(db, agent, t) && db.tunnels[t].typ.IsWeb()
               && f in Fqdns(db.tunnels[t].subdomain, db.tunnels[t].customDomains, host, LabelOf(db, agent))
             :: Lower(f)
  }

  // The same for the listed tunnels only.
  function ListedPorts(db: DB, ids: seq<nat>): set<int>
    requires forall t :: t in ids ==> t in db.tunnels
  {
    set t | t in ids && db.tunnels[t].enabled && db.tunnels[t].typ.IsPort()
            && db.tunnels[t].remotePort.Some? && db.tunnels[t].remotePort.value != 0
          :: db.tunnels[t].remotePort.value
  }

  predicate ListsHost(db: DB, agent: nat, host: string, ids: seq<nat>, t: nat, fqdn: string) {
    t in ids && OwnsHost(db, agent, host, t, fqdn)
  }

  function ListedHosts(db: DB, agent: nat, host: string, ids: seq<nat>): set<string> {
    set t, f | t in ids && t in db.tunnels && Enabled(db, agent, t) && db.tunnels[t].typ.IsWeb()
               && f in Fqdns(db.tunnels[t].subdomain, db.tunnels[t].customDomains, host, LabelOf(db, agent))
             :: Lower(f)
  }

  lemma ListedAreOwned(db: DB, agent: nat, host: string, ids: seq<nat>)
    requires Sublist(db, agent, ids)
    ensures ListedPorts(db, ids) <= OwnedPorts(db, agent)
    ensures ListedHosts(db, agent, host, ids) <= OwnedHosts(db, agent, host)
    ensures Lists(db, agent, ids) ==>
              ListedPorts(db, ids) == OwnedPorts(db, agent) && ListedHosts(db, agent, host, ids) == OwnedHosts(db, agent, host)
  {
    hide Fqdns, Lower, LabelOf;
  }

  lemma SelectedAreListed(db: DB, agent: nat, ids: seq<nat>)
    requires Selects(db, agent, ids)
    ensures Sublist(db, agent, ids)
  {
  }

  lemma NoneListed(db: DB, agent: nat, host: string)
    ensures ListedPorts(db, []) == {} && ListedHosts(db, agent, host, []) == {}
  {
    hide Fqdns, Lower, LabelOf;
  }

  // The configuration that the panel pushes to an agent.
  function AgentPayloads(db: DB, agent: nat, host: string, ids: seq<nat>): seq<Payload>
    requires forall t :: t in ids ==> t in db.tunnels
  {
    Payloads(db, ids, host, LabelOf(db, agent))
  }

  lemma TypeNames(typ: TunnelType)
    ensures ProxySpec.IsPortType(typ.Name()) <==> typ.IsPort()
    ensures ProxySpec.IsWebType(typ.Name()) <==> typ.IsWeb()
  {
  }

  lemma LabelIsDotFree(db: DB, agent: nat)
    requires TeamsOk(db)
    ensures LabelOk(LabelOf(db, agent))
  {
  }

  lemma TunnelFqdnsClean(s: Settings, db: DB, agent: nat, host: string, t: nat)
    requires Inv(s, db) && Clean(host) && t in db.tunnels
    ensures forall f :: f in Fqdns(db.tunnels[t].subdomain, db.tunnels[t].customDomains, host, LabelOf(db, agent)) ==>
              Clean(f)
  {
    hide Clash, TeamsOk, Clean, Fqdns, UnderApex, IsFqdn, LabelsOk, DomainSet, LabelOk, LabelOf;
    LabelIsDotFree(db, agent);
    assert TunnelOk(s, db.tunnels[t]);
    FqdnsClean(s, db.tunnels[t], host, LabelOf(db, agent));
  }

  // --- what the configuration holds ---

  lemma {:induction false} PortsOfPayloads(db: DB, ids: seq<nat>, host: string, subLabel: Option<string>, port: int)
    requires forall t :: t in ids ==> t in db.tunnels
    ensures port in PortsOf(Payloads(db, ids, host, subLabel)) <==>
            exists t :: t in ids && db.tunnels[t].enabled && db.tunnels[t].typ.IsPort()
                     && db.tunnels[t].remotePort == Some(port) && port != 0
  {
    hide Fqdns;
    if ids != [] {
      var t := db.tunnels[ids[0]];
      PortsOfPayloads(db, ids[1..], host, subLabel, port);
      TypeNames(t.typ);
      assert forall x :: x in ids <==> x == ids[0] || x in ids[1..];
      var first := Domainize(TunnelPayload(ids[0], t), host, subLabel);
      var rest := Payloads(db, ids[1..], host, subLabel);
      assert Payloads(db, ids, host, subLabel) == if t.enabled then [first] + rest else rest;
      assert ([first] + rest)[1..] == rest;
    }
  }

  lemma {:induction false} HostsOfPayloads(db: DB, ids: seq<nat>, host: string, subLabel: Option<string>, h: string)
    requires forall t :: t in ids ==> t in db.tunnels
    requires forall t, f :: t in ids && f in Fqdns(db.tunnels[t].subdomain, db.tunnels[t].customDomains, host, subLabel)
               ==> Clean(f)
    ensures h in HostsOf(Payloads(db, ids, host, subLabel)) <==>
            exists t :: t in ids && db.tunnels[t].enabled && db.tunnels[t].typ.IsWeb()
                     && h in Fqdns(db.tunnels[t].subdomain, db.tunnels[t].customDomains, host, subLabel)
  {
    hide Fqdns, Clean, DomainList;
    if ids != [] {
      var t := db.tunnels[ids[0]];
      HostsOfPayloads(db, ids[1..], host, subLabel, h);
      TypeNames(t.typ);
      assert forall x :: x in ids <==> x == ids[0] || x in ids[1..];
      var first := Domainize(TunnelPayload(ids[0], t), host, subLabel);
      var fqdns := Fqdns(t.subdomain, t.customDomains, host, subLabel);
      if fqdns != [] {
        DomainListOfJoined(fqdns);
      }
      var rest := Payloads(db, ids[1..], host, subLabel);
      assert Payloads(db, ids, host, subLabel) == if t.enabled then [first] + rest else rest;
      assert ([first] + rest)[1..] == rest;
    }
  }

  lemma PortsAreListed(db: DB, agent: nat, host: string, ids: seq<nat>)
    requires Sublist(db, agent, ids)
    ensures Grant.PortSet(PortsOf(AgentPayloads(db, agent, host, ids))) == ListedPorts(db, ids)
  {
    hide Payloads, PortsOf, LabelOf;
    forall port
      ensures port in Grant.PortSet(PortsOf(AgentPayloads(db, agent, host, ids))) <==> port in ListedPorts(db, ids)
    {
      PortsOfPayloads(db, ids, host, LabelOf(db, agent), port);
    }
  }

  lemma CleanHostIsKept(h: string)
    requires Clean(h)
    ensures Strip(h) == h && Lower(Strip(h)) != "" && ',' !in Lower(h) && '|' !in Lower(h)
  {
    hide Strip;
    StripOfTrimmed(h);
    LowerKeepsNonLetters(h, ',');
    LowerKeepsNonLetters(h, '|');
  }

  lemma HostsAreListed(s: Settings, db: DB, agent: nat, host: string, ids: seq<nat>)
    requires Inv(s, db) && Clean(host) && Sublist(db, agent, ids)
    ensures var hosts := HostsOf(AgentPayloads(db, agent, host, ids));
            && Grant.HostSet(hosts) == ListedHosts(db, agent, host, ids)
            && forall h :: h in Grant.HostSet(hosts) ==> ',' !in h && '|' !in h
  {
    hide Inv, Clean, Fqdns, Payloads, HostsOf, LabelOf, Strip, Lower, Grant.CleanHosts;
    var subLabel := LabelOf(db, agent);
    var hosts := HostsOf(AgentPayloads(db, agent, host, ids));
    forall t | t in ids
      ensures forall f :: f in Fqdns(db.tunnels[t].subdomain, db.tunnels[t].customDomains, host, subLabel) ==> Clean(f)
    {
      TunnelFqdnsClean(s, db, agent, host, t);
    }
    forall f
      ensures f in hosts <==> exists t :: ListsHost(db, agent, host, ids, t, f)
      ensures f in hosts ==> Clean(f)
    {
      HostsOfPayloads(db, ids, host, subLabel, f);
      if f in hosts {
        var t :| t in ids && db.tunnels[t].enabled && db.tunnels[t].typ.IsWeb()
                 && f in Fqdns(db.tunnels[t].subdomain, db.tunnels[t].customDomains, host, subLabel);
        assert ListsHost(db, agent, host, ids, t, f);
      }
    }
    forall h
      ensures h in Grant.HostSet(hosts) <==> h in ListedHosts(db, agent, host, ids)
      ensures h in Grant.HostSet(hosts) ==> ',' !in h && '|' !in h
    {
      Grant.CleanHostsMembers(hosts, h);
      if h in Grant.HostSet(hosts) {
        var x :| x in hosts && Lower(Strip(x)) == h;
        CleanHostIsKept(x);
        var t :| ListsHost(db, agent, host, ids, t, x);
      }
      if h in ListedHosts(db, agent, host, ids) {
        var t, f :| t in ids && t in db.tunnels && Enabled(db, agent, t) && db.tunnels[t].typ.IsWeb()
                    && f in Fqdns(db.tunnels[t].subdomain, db.tunnels[t].customDomains, host, subLabel) && Lower(f) == h;
        assert ListsHost(db, agent, host, ids, t, f);
        assert f in hosts;
        CleanHostIsKept(f);
      }
    }
  }

  lemma CnIsClean(agent: nat)
    ensures '|' !in AgentCn(agent)
  {
    assert forall c :: c in PrintNat(agent) ==> IsDigit(c);
  }

  lemma CnInjective(a: nat, b: nat)
    requires AgentCn(a) == AgentCn(b)
    ensures a == b
  {
    assert AgentCn(a)[6..] == PrintNat(a) && AgentCn(b)[6..] == PrintNat(b);
    PrintNatInjective(a, b);
  }

  lemma OwnedPortsFit(s: Settings, db: DB, agent: nat)
    requires Inv(s, db)
    ensures forall p :: p in OwnedPorts(db, agent) ==> FitsInt64(p)
  {
    hide Clash, UnderApex, IsFqdn, LabelsOk, DomainSet, TeamsOk;
    forall t | t in db.tunnels && Enabled(db, agent, t) && db.tunnels[t].typ.IsPort() && db.tunnels[t].remotePort.Some?
      ensures FitsInt64(db.tunnels[t].remotePort.value)
    {
      assert TunnelOk(s, db.tunnels[t]);
    }
  }

  lemma ListedPortsFit(s: Settings, db: DB, agent: nat, host: string, ids: seq<nat>)
    requires Inv(s, db) && Sublist(db, agent, ids)
    ensures forall p :: p in ListedPorts(db, ids) ==> FitsInt64(p)
  {
    hide Inv, OwnedPorts, OwnedHosts, ListedHosts, ListedPorts;
    OwnedPortsFit(s, db, agent);
    ListedAreOwned(db, agent, host, ids);
  }

  // What the engine makes of a configuration's grant, whoever presents it and whenever: it is
  // good for its agent until it expires, and its scope is exactly the ports and hosts of the
  // enabled tunnels that the configuration lists.
  lemma GrantVerdict(s: Settings, mac: string -> string, db: DB, agent: nat, host: string, ids: seq<nat>,
                     exp: int, asked: string, now: int)
    requires Grant.IsMac(mac) && Inv(s, db) && Clean(host) && Sublist(db, agent, ids)
    ensures var token := ConfigGrant(mac, agent, exp, AgentPayloads(db, agent, host, ids));
            Grant.Verified(mac, token, asked, now)
            == if asked != AgentCn(agent) then Grant.Failure(Grant.CnMismatch)
               else if !FitsInt64(exp) || now > exp then Grant.Failure(Grant.Expired)
               else Grant.Success(Grant.Grant(AgentCn(agent), ListedPorts(db, ids), ListedHosts(db, agent, host, ids)))
  {
    hide Inv, Clean, Payloads, PortsOf, HostsOf, Grant.Sign, Grant.Verified, Grant.HostSet, ListedHosts, ListedPorts,
         LabelOf, AgentPayloads, Grant.PortScope, Grant.PortsField, Grant.HostScope, Grant.HostsField, FitsInt64;
    var ps := AgentPayloads(db, agent, host, ids);
    PortsAreListed(db, agent, host, ids);
    HostsAreListed(s, db, agent, host, ids);
    CnIsClean(agent);
    ListedPortsFit(s, db, agent, host, ids);
    assert forall p :: p in PortsOf(ps) ==> p in Grant.PortSet(PortsOf(ps));
    Grant.VerifiedOfSigned(mac, AgentCn(agent), exp, PortsOf(ps), HostsOf(ps), asked, now);
    Grant.ScopesReadBack(PortsOf(ps), HostsOf(ps));
  }

  // The grant pushed to an agent: its scope is exactly the ports and hosts of the agent's enabled
  // tunnels, and nothing at all while the team is suspended.
  lemma GrantScope(s: Settings, mac: string -> string, db: DB, agent: nat, host: string, ids: seq<nat>,
                   exp: int, now: int)
    requires Grant.IsMac(mac) && Inv(s, db) && Clean(host) && Selects(db, agent, ids)
    requires FitsInt64(exp) && now <= exp
    ensures var token := ConfigGrant(mac, agent, exp, AgentPayloads(db, agent, host, ids));
            Grant.Verified(mac, token, AgentCn(agent), now)
            == Grant.Success(
                 if Suspended(db, agent) then Grant.Grant(AgentCn(agent), {}, {})
                 else Grant.Grant(AgentCn(agent), OwnedPorts(db, agent), OwnedHosts(db, agent, host)))
  {
    hide Inv, Clean, OwnedHosts, OwnedPorts, ListedHosts, ListedPorts, LabelOf, AgentPayloads, ConfigGrant,
         Grant.Verified, Suspended;
    GrantVerdict(s, mac, db, agent, host, ids, exp, AgentCn(agent), now);
    ListedAreOwned(db, agent, host, ids);
    NoneListed(db, agent, host);
  }

  // --- host names of different tenants ---

  // Two dot-free labels before one suffix: the names agree only if the labels do.
  lemma CutLastLabel(a: string, l: string, b: string, m: string)
    requires '.' !in l && '.' !in m
    requires a + "." + l == b + "." + m
    ensures a == b && l == m
  {
    SplitSingle(l, '.');
    SplitSingle(m, '.');
    SplitConcat(a, '.', l);
    SplitConcat(b, '.', m);
    var parts := Split(a + "." + l, '.');
    assert parts[|parts| - 1] == l && parts[|parts| - 1] == m;
    assert |a| == |b|;
    assert a == (a + "." + l)[..|a|];
  }

  lemma CutSuffix(a: string, b: string, suffix: string)
    requires a + suffix == b + suffix
    ensures a == b
  {
    assert a == (a + suffix)[..|a|] && b == (b + suffix)[..|b|];
  }

  // Where a host name comes from: the subdomain of a tunnel, or one of its custom domains.
  lemma HostOrigin(db: DB, agent: nat, host: string, t: nat, f: string)
    requires OwnsHost(db, agent, host, t, f)
    ensures var r := db.tunnels[t];
            || (Truthy(r.subdomain)
                && Lower(f) == Lower(r.subdomain.value) + "." + Lower(Suffix(host, LabelOf(db, agent))))
            || Lower(f) in DomainSet(r.customDomains)
  {
    hide Lower, DomainList;
    var r := db.tunnels[t];
    var suffix := Suffix(host, LabelOf(db, agent));
    if Truthy(r.subdomain) && f == r.subdomain.value + "." + suffix {
      LowerConcat(r.subdomain.value + ".", suffix);
      LowerConcat(r.subdomain.value, ".");
      assert Lower(".") == "." by {
        LowerDot();
      }
    }
  }

  lemma LowerDot()
    ensures Lower(".") == "."
  {
  }

  lemma LabelLower(l: string)
    requires forall c :: c in l ==> IsLabelChar(c)
    ensures Lower(l) == l && '.' !in l
  {
    forall i | 0 <= i < |l|
      ensures LowerChar(l[i]) == l[i]
    {
      assert l[i] in l;
    }
  }

  // The lower-cased suffix of a labelled agent ends with the apex.
  lemma LabelledSuffix(s: Settings, db: DB, agent: nat, host: string)
    requires TeamsOk(db) && LabelOf(db, agent).Some? && Lower(host) == Lower(s.apex)
    ensures Lower(Suffix(host, LabelOf(db, agent))) == LabelOf(db, agent).value + ("." + Lower(s.apex))
    ensures '.' !in LabelOf(db, agent).value
  {
    var l := LabelOf(db, agent).value;
    LabelIsDotFree(db, agent);
    LabelLower(l);
    LowerConcat(l + ".", host);
    LowerConcat(l, ".");
    LowerDot();
  }

  // Agents of different teams have different labels; agents with one label share the team.
  lemma OneLabelOneTeam(db: DB, a: nat, b: nat)
    requires TeamsOk(db) && LabelOf(db, a).Some? && LabelOf(db, a) == LabelOf(db, b)
    ensures TeamOf(db, a) == TeamOf(db, b)
  {
  }

  lemma SubdomainHostsDiffer(s: Settings, db: DB, a: nat, b: nat, host: string, t: nat, u: nat)
    requires Inv(s, db) && Lower(host) == Lower(s.apex)
    requires LabelOf(db, a).Some? && LabelOf(db, b).Some?
    requires t in db.tunnels && db.tunnels[t].agent == a && u in db.tunnels && db.tunnels[u].agent == b && t != u
    requires Truthy(db.tunnels[t].subdomain) && Truthy(db.tunnels[u].subdomain)
    ensures Lower(db.tunnels[t].subdomain.value) + "." + Lower(Suffix(host, LabelOf(db, a)))
         != Lower(db.tunnels[u].subdomain.value) + "." + Lower(Suffix(host, LabelOf(db, b)))
  {
    hide Lower, LabelOf, TeamsOk, TunnelOk, PortClash, DomainClash;
    LabelledSuffix(s, db, a, host);
    LabelledSuffix(s, db, b, host);
    var (x, l) := (Lower(db.tunnels[t].subdomain.value), LabelOf(db, a).value);
    var (y, m) := (Lower(db.tunnels[u].subdomain.value), LabelOf(db, b).value);
    var apex := "." + Lower(s.apex);
    assert !Clash(db, db.tunnels[t], db.tunnels[u]);
    if x + "." + (l + apex) == y + "." + (m + apex) {
      assert x + "." + (l + apex) == (x + "." + l) + apex;
      assert y + "." + (m + apex) == (y + "." + m) + apex;
      CutSuffix(x + "." + l, y + "." + m, apex);
      CutLastLabel(x, l, y, m);
      OneLabelOneTeam(db, a, b);
    }
  }

  lemma SubdomainHostUnderApex(s: Settings, db: DB, a: nat, host: string, sub: string)
    requires TeamsOk(db) && LabelOf(db, a).Some? && Lower(host) == Lower(s.apex)
    ensures UnderApex(s, sub + "." + Lower(Suffix(host, LabelOf(db, a))))
  {
    hide Lower, LabelOf;
    LabelledSuffix(s, db, a, host);
    var l := LabelOf(db, a).value;
    var f := sub + "." + (l + ("." + Lower(s.apex)));
    assert f == (sub + "." + l) + ("." + Lower(s.apex));
  }

  // No host name belongs to two tunnels of labelled agents.
  lemma HostsDiffer(s: Settings, db: DB, a: nat, b: nat, host: string, t: nat, u: nat, f: string, g: string)
    requires Inv(s, db) && Lower(host) == Lower(s.apex)
    requires LabelOf(db, a).Some? && LabelOf(db, b).Some? && t != u
    requires OwnsHost(db, a, host, t, f) && OwnsHost(db, b, host, u, g)
    ensures Lower(f) != Lower(g)
  {
    hide Lower, LabelOf, TeamsOk, PortClash, SubdomainClash, LabelsOk, UnderApex, DomainSet, Fqdns, IsFqdn;
    var (p, q) := (db.tunnels[t], db.tunnels[u]);
    HostOrigin(db, a, host, t, f);
    HostOrigin(db, b, host, u, g);
    assert TunnelOk(s, p) && TunnelOk(s, q) && !Clash(db, p, q);
    if Truthy(p.subdomain) {
      SubdomainHostUnderApex(s, db, a, host, Lower(p.subdomain.value));
    }
    if Truthy(q.subdomain) {
      SubdomainHostUnderApex(s, db, b, host, Lower(q.subdomain.value));
    }
    if Truthy(p.subdomain) && Truthy(q.subdomain) {
      SubdomainHostsDiffer(s, db, a, b, host, t, u);
    }
  }

  lemma HostOwner(db: DB, agent: nat, host: string, h: string) returns (t: nat, f: string)
    requires h in OwnedHosts(db, agent, host)
    ensures OwnsHost(db, agent, host, t, f) && Lower(f) == h && t in db.tunnels && db.tunnels[t].agent == agent
  {
    hide Lower, Fqdns, LabelOf;
    t, f :| t in db.tunnels && Enabled(db, agent, t) && db.tunnels[t].typ.IsWeb()
            && f in Fqdns(db.tunnels[t].subdomain, db.tunnels[t].customDomains, host, LabelOf(db, agent))
            && Lower(f) == h;
  }

  lemma OwnedHostsDisjoint(s: Settings, db: DB, a: nat, b: nat, host: string)
    requires Inv(s, db) && Lower(host) == Lower(s.apex) && a != b
    requires LabelOf(db, a).Some? && LabelOf(db, b).Some?
    ensures OwnedHosts(db, a, host) !! OwnedHosts(db, b, host)
  {
    hide *;
    forall h | h in OwnedHosts(db, a, host) && h in OwnedHosts(db, b, host)
      ensures false
    {
      var t, f := HostOwner(db, a, host, h);
      var u, g := HostOwner(db, b, host, h);
      HostsDiffer(s, db, a, b, host, t, u, f, g);
    }
  }

  lemma PortOwner(db: DB, agent: nat, p: int) returns (t: nat)
    requires p in OwnedPorts(db, agent)
    ensures OwnsPort(db, agent, t, p) && t in db.tunnels && db.tunnels[t].agent == agent
  {
    t :| t in db.tunnels && Enabled(db, agent, t) && db.tunnels[t].typ.IsPort()
         && db.tunnels[t].remotePort == Some(p) && p != 0;
  }

  lemma OwnedPortsDisjoint(s: Settings, db: DB, a: nat, b: nat)
    requires Inv(s, db) && a != b && NodeOf(db, a) == NodeOf(db, b)
    ensures OwnedPorts(db, a) !! OwnedPorts(db, b)
  {
    hide OwnedPorts, TunnelOk, TeamsOk, SubdomainClash, DomainClash;
    forall p | p in OwnedPorts(db, a) && p in OwnedPorts(db, b)
      ensures false
    {
      var t := PortOwner(db, a, p);
      var u := PortOwner(db, b, p);
    }
  }

  // Whatever sequence of requests the panel has served, the grants it then issues to two
  // different agents of labelled teams verify each for its own agent only, and share neither
  // a port (on one node) nor a host.
  lemma TenantIsolation(s: Settings, mac: string -> string, rs: seq<Request>, a: nat, b: nat, host: string,
                        idsA: seq<nat>, idsB: seq<nat>, exp: int, now: int)
    requires Grant.IsMac(mac) && SettingsOk(s) && Clean(host) && Lower(host) == Lower(s.apex)
    requires Ownership.IsRun(s, EMPTY, rs) && FitsInt64(exp) && now <= exp
    requires var db := Ownership.Run(s, EMPTY, rs);
             && a != b && LabelOf(db, a).Some? && LabelOf(db, b).Some? && NodeOf(db, a) == NodeOf(db, b)
             && Selects(db, a, idsA) && Selects(db, b, idsB)
    ensures var db := Ownership.Run(s, EMPTY, rs);
            var tokenA := ConfigGrant(mac, a, exp, AgentPayloads(db, a, host, idsA));
            var tokenB := ConfigGrant(mac, b, exp, AgentPayloads(db, b, host, idsB));
            var (ra, rb) := (Grant.Verified(mac, tokenA, AgentCn(a), now), Grant.Verified(mac, tokenB, AgentCn(b), now));
            && ra.Success? && rb.Success?
            && Grant.Verified(mac, tokenA, AgentCn(b), now).Failure?
            && (forall p :: !(ra.grant.AllowPort(p) && rb.grant.AllowPort(p)))
            && (forall h :: !(ra.grant.AllowHost(h) && rb.grant.AllowHost(h)))
  {
    hide Inv, Clean, AgentPayloads, ConfigGrant, Grant.Verified, OwnedHosts, OwnedPorts, LabelOf, Lower, NodeOf, Run,
         Ownership.IsRun, SettingsOk, Lists, Grant.IsMac, AgentCn, Suspended;
    var db := Ownership.Run(s, EMPTY, rs);
    EmptyOk(s);
    RunKeeps(s, EMPTY, rs);
    GrantScope(s, mac, db, a, host, idsA, exp, now);
    GrantScope(s, mac, db, b, host, idsB, exp, now);
    SelectedAreListed(db, a, idsA);
    GrantRefusedToOthers(s, mac, db, a, host, idsA, exp, now, b);
    OwnedHostsDisjoint(s, db, a, b, host);
    OwnedPortsDisjoint(s, db, a, b);
  }

  lemma GrantRefusedToOthers(s: Settings, mac: string -> string, db: DB, agent: nat, host: string, ids: seq<nat>,
                             exp: int, now: int, other: nat)
    requires Grant.IsMac(mac) && Inv(s, db) && Clean(host) && Sublist(db, agent, ids) && other != agent
    ensures var token := ConfigGrant(mac, agent, exp, AgentPayloads(db, agent, host, ids));
            Grant.Verified(mac, token, AgentCn(other), now) == Grant.Failure(Grant.CnMismatch)
  {
    hide Inv, Clean, ListedHosts, ListedPorts, AgentPayloads, ConfigGrant, Grant.Verified;
    GrantVerdict(s, mac, db, agent, host, ids, exp, AgentCn(other), now);
    if AgentCn(other) == AgentCn(agent) {
      CnInjective(other, agent);
    }
  }

  // --- why the label is mandatory ---

  // A subdomain that a team with that label, if any, may have.
  predicate Passes(s: Settings, x: string, subLabel: Option<string>) {
    x != "" && LabelsOk(x) && DepthOk(s, x, Truthy(subLabel))
  }

  // A team without a label can spell the names below this label.
  predicate Spelled(s: Settings, l: string) {
    IsLabel(l) && (s.maxDepth >= 2 || (s.maxDepth == 1 && l !in RESERVED))
  }

  predicate Isolated(s: Settings, l: Option<string>, m: Option<string>) {
    if Truthy(l) && Truthy(m) then l != m || s.maxDepth == 0
    else if Truthy(l) then !Spelled(s, l.value)
    else if Truthy(m) then !Spelled(s, m.value)
    else false
  }

  ghost predicate NeverEqual(s: Settings, host: string, l: Option<string>, m: Option<string>) {
    forall x, y :: Passes(s, x, l) && Passes(s, y, m) ==> x + "." + Suffix(host, l) != y + "." + Suffix(host, m)
  }

  // As the engine routes them, without their case.
  ghost predicate NeverMeet(s: Settings, host: string, l: Option<string>, m: Option<string>) {
    forall x, y :: Passes(s, x, l) && Passes(s, y, m) ==>
      Lower(x + "." + Suffix(host, l)) != Lower(y + "." + Suffix(host, m))
  }

  lemma {:induction false} NonEmptyLower(parts: seq<string>)
    ensures NonEmpty(LowerAll(parts)) == LowerAll(NonEmpty(parts))
  {
    if parts != [] {
      NonEmptyLower(parts[1..]);
      assert LowerAll(parts)[1..] == LowerAll(parts[1..]);
      if parts[0] == "" {
        assert Lower(parts[0]) == "";
        assert [] + NonEmpty(parts[1..]) == NonEmpty(parts[1..]);
      } else {
        LowerNonEmpty(parts[0]);
        assert NonEmpty(parts) == [parts[0]] + NonEmpty(parts[1..]);
        assert NonEmpty(parts)[1..] == NonEmpty(parts[1..]);
      }
    }
  }

  lemma {:induction false} LowerAllAt(parts: seq<string>)
    ensures |LowerAll(parts)| == |parts| && forall i :: 0 <= i < |parts| ==> LowerAll(parts)[i] == Lower(parts[i])
  {
    hide Lower;
    if parts != [] {
      LowerAllAt(parts[1..]);
    }
  }

  // The gates do not look at the case of a subdomain.
  lemma PassesLower(s: Settings, x: string, l: Option<string>)
    requires Passes(s, x, l)
    ensures Passes(s, Lower(x), l)
  {
    SplitLower(x, '.');
    NonEmptyLower(Split(x, '.'));
    LowerAllAt(Labels(x));
    assert Lower(x) != "";
    forall i | 0 <= i < |Labels(x)|
      ensures Lower(Labels(Lower(x))[i]) == Lower(Labels(x)[i])
    {
      LowerIdempotent(Labels(x)[i]);
    }
  }

  // The lower-cased name is that of the lower-cased subdomain and host.
  lemma LowerName(x: string, host: string, l: Option<string>)
    requires LabelOk(l)
    ensures Lower(x + "." + Suffix(host, l)) == Lower(x) + "." + Suffix(Lower(host), l)
  {
    LowerConcat(x + ".", Suffix(host, l));
    LowerConcat(x, ".");
    LowerDot();
    if Truthy(l) {
      LabelLower(l.value);
      LowerConcat(l.value + ".", host);
      LowerConcat(l.value, ".");
    }
  }

  lemma NeverMeetIff(s: Settings, host: string, l: Option<string>, m: Option<string>)
    requires LabelOk(l) && LabelOk(m)
    ensures NeverMeet(s, host, l, m) <==> NeverEqual(s, Lower(host), l, m)
  {
    hide Passes, Suffix, LabelOk, Lower;
    if NeverEqual(s, Lower(host), l, m) {
      forall x, y | Passes(s, x, l) && Passes(s, y, m)
        ensures Lower(x + "." + Suffix(host, l)) != Lower(y + "." + Suffix(host, m))
      {
        PassesLower(s, x, l);
        PassesLower(s, y, m);
        LowerName(x, host, l);
        LowerName(y, host, m);
      }
    }
    if NeverMeet(s, host, l, m) {
      forall x, y | Passes(s, x, l) && Passes(s, y, m)
        ensures x + "." + Suffix(Lower(host), l) != y + "." + Suffix(Lower(host), m)
      {
        LowerName(x, host, l);
        LowerName(y, host, m);
        LowerName(x, Lower(host), l);
        LowerName(y, Lower(host), m);
        LowerIdempotent(host);
      }
    }
  }

  // Subdomains that pass all gates cannot meet in one host name exactly in these cases: both
  // teams are labelled, with different labels or with no depth left below a label; or one is
  // labelled and the other cannot spell that label, because it is cut at a hyphen, or no depth
  // is left, or the label is reserved and nothing fits before it.
  lemma LabelsIsolateIff(s: Settings, host: string, l: Option<string>, m: Option<string>)
    requires LabelOk(l) && LabelOk(m)
    ensures NeverMeet(s, host, l, m) <==> Isolated(s, l, m)
  {
    hide *;
    NeverMeetIff(s, host, l, m);
    NamesIsolateIff(s, Lower(host), l, m);
  }

  lemma NamesIsolateIff(s: Settings, host: string, l: Option<string>, m: Option<string>)
    requires LabelOk(l) && LabelOk(m)
    ensures NeverEqual(s, host, l, m) <==> Isolated(s, l, m)
  {
    hide LabelsOk, DepthOk, IsLabel, Suffix, Spelled;
    if Truthy(l) && Truthy(m) {
      BothLabelled(s, host, l, m);
    } else if Truthy(l) {
      OneLabelled(s, host, l, m);
    } else if Truthy(m) {
      OneLabelled(s, host, m, l);
      Symmetric(s, host, l, m);
    } else {
      DotPasses(s);
      assert Suffix(host, l) == Suffix(host, m) by { NoSuffix(host, l); NoSuffix(host, m); }
      assert Passes(s, ".", l) && Passes(s, ".", m);
    }
  }

  lemma NoSuffix(host: string, l: Option<string>)
    requires !Truthy(l)
    ensures Suffix(host, l) == host
  {
  }

  lemma Symmetric(s: Settings, host: string, l: Option<string>, m: Option<string>)
    ensures NeverEqual(s, host, l, m) <==> NeverEqual(s, host, m, l)
  {
    hide Passes, Suffix;
  }

  // Dots alone are a subdomain without any label.
  lemma DotPasses(s: Settings)
    ensures LabelsOk(".") && Labels(".") == []
    ensures DepthOk(s, ".", false) && (DepthOk(s, ".", true) <==> s.maxDepth >= 1)
  {
    assert Split("."[1..], '.') == [""];
    assert Split(".", '.') == ["", ""];
    assert ["", ""][1..] == [""] && [""][1..] == [];
    assert NonEmpty([""]) == [];
    assert Labels(".") == [];
  }

  lemma BothLabelled(s: Settings, host: string, l: Option<string>, m: Option<string>)
    requires LabelOk(l) && LabelOk(m) && Truthy(l) && Truthy(m)
    ensures NeverEqual(s, host, l, m) <==> l != m || s.maxDepth == 0
  {
    hide LabelsOk, DepthOk, Suffix, LabelOk;
    DotPasses(s);
    if l == m && s.maxDepth >= 1 {
      assert Passes(s, ".", l) && Passes(s, ".", m);
    } else if l != m {
      forall x: string, y: string
        ensures x + "." + Suffix(host, l) != y + "." + Suffix(host, m)
      {
        LabelsDiffer(host, x, l, y, m);
      }
    } else {
      NoDepthBelowLabels(s);
    }
  }

  lemma NoDepthBelowLabels(s: Settings)
    requires s.maxDepth == 0
    ensures forall x :: !DepthOk(s, x, true)
  {
    hide Labels;
  }

  lemma LabelsDiffer(host: string, x: string, l: Option<string>, y: string, m: Option<string>)
    requires LabelOk(l) && LabelOk(m) && Truthy(l) && Truthy(m) && l != m
    ensures x + "." + Suffix(host, l) != y + "." + Suffix(host, m)
  {
    if x + "." + Suffix(host, l) == y + "." + Suffix(host, m) {
      LabelsMeet(host, x, l.value, y, m.value);
    }
  }

  lemma OneLabelled(s: Settings, host: string, l: Option<string>, m: Option<string>)
    requires LabelOk(l) && Truthy(l) && !Truthy(m)
    ensures NeverEqual(s, host, l, m) <==> !Spelled(s, l.value)
  {
    hide LabelsOk, IsLabel, DepthOk;
    NoSuffix(host, m);
    if Spelled(s, l.value) {
      var x := if s.maxDepth >= 2 then "a" else ".";
      SpelledPasses(s, l, m, x);
      assert x + "." + Suffix(host, l) == (x + "." + l.value) + "." + Suffix(host, m);
    } else {
      forall x, y | Passes(s, x, l) && Passes(s, y, m)
        ensures x + "." + Suffix(host, l) != y + "." + Suffix(host, m)
      {
        if x + "." + Suffix(host, l) == y + "." + Suffix(host, m) {
          assert x + "." + Suffix(host, l) == (x + "." + l.value) + ("." + host);
          assert y + "." + Suffix(host, m) == y + ("." + host);
          CutSuffix(x + "." + l.value, y, "." + host);
          OnlySpelledPasses(s, l, m, x);
        }
      }
    }
  }

  lemma {:induction false} NonEmptyConcat(a: seq<string>, b: seq<string>)
    ensures NonEmpty(a + b) == NonEmpty(a) + NonEmpty(b)
  {
    if a == [] {
      assert a + b == b;
    } else {
      NonEmptyConcat(a[1..], b);
      var head := if a[0] == "" then [] else [a[0]];
      assert (a + b)[1..] == a[1..] + b && (a + b)[0] == a[0];
      ConcatAssociates(head, NonEmpty(a[1..]), NonEmpty(b));
      assert NonEmpty(a + b) == head + NonEmpty(a[1..] + b);
    }
  }

  // A label appended to a subdomain is one label more.
  lemma LabelsAppend(x: string, l: string)
    requires l != "" && '.' !in l
    ensures Labels(x + "." + l) == Labels(x) + [l]
  {
    SplitConcat(x, '.', l);
    SplitSingle(l, '.');
    NonEmptyConcat(Split(x, '.'), [l]);
    assert [l][1..] == [];
    assert NonEmpty([l]) == [l];
  }

  lemma SpelledPasses(s: Settings, l: Option<string>, m: Option<string>, x: string)
    requires LabelOk(l) && Truthy(l) && !Truthy(m) && Spelled(s, l.value)
    requires x == if s.maxDepth >= 2 then "a" else "."
    ensures Passes(s, x, l) && Passes(s, x + "." + l.value, m)
  {
    hide Labels, IsLabel;
    DotPasses(s);
    ShortLabelOk();
    OneLabelA();
    LabelLower(l.value);
    LabelsAppend(x, l.value);
    assert Lower("a") == "a";
  }

  lemma OneLabelA()
    ensures Labels("a") == ["a"]
  {
    SplitSingle("a", '.');
  }

  lemma OnlySpelledPasses(s: Settings, l: Option<string>, m: Option<string>, x: string)
    requires LabelOk(l) && Truthy(l) && !Truthy(m)
    requires Passes(s, x, l) && Passes(s, x + "." + l.value, m)
    ensures Spelled(s, l.value)
  {
    hide Labels, IsLabel;
    LabelLower(l.value);
    LabelsAppend(x, l.value);
    var labels := Labels(x + "." + l.value);
    assert MatchesLabel(Lower(labels[|labels| - 1]));
    assert l.value[|l.value| - 1] in l.value;
  }

  lemma ShortLabelOk()
    ensures LabelsOk("a")
  {
    SplitSingle("a", '.');
    assert Labels("a") == ["a"];
    assert Lower("a") == "a";
  }

  lemma LabelsMeet(host: string, x: string, l: string, y: string, m: string)
    requires (forall c :: c in l ==> IsLabelChar(c)) && (forall c :: c in m ==> IsLabelChar(c))
    requires x + "." + (l + "." + host) == y + "." + (m + "." + host)
    ensures l == m
  {
    LabelLower(l);
    LabelLower(m);
    assert x + "." + (l + "." + host) == (x + "." + l) + ("." + host);
    assert y + "." + (m + "." + host) == (y + "." + m) + ("." + host);
    CutSuffix(x + "." + l, y + "." + m, "." + host);
    CutLastLabel(x, l, y, m);
  }

  // --- configuration, grant and engine agree ---

  lemma {:induction false} RenderedMembers(own: string, ps: seq<Payload>, q: ProxySpec.Spec)
    ensures q in RenderAll(own, ps) <==> exists p :: p in ps && ProxySpec.Supported(p.typ) && q == Render(own, p)
  {
    hide Render;
    if ps != [] {
      RenderedMembers(own, ps[1..], q);
      assert forall p :: p in ps <==> p == ps[0] || p in ps[1..];
    }
  }

  lemma {:induction false} PortsOfMembers(ps: seq<Payload>, port: int)
    ensures port in PortsOf(ps) <==>
            exists p :: p in ps && ProxySpec.IsPortType(p.typ) && p.remotePort == Some(port) && port != 0
  {
    if ps != [] {
      PortsOfMembers(ps[1..], port);
      assert forall p :: p in ps <==> p == ps[0] || p in ps[1..];
    }
  }

  lemma {:induction false} HostsOfMembers(ps: seq<Payload>, h: string)
    ensures h in HostsOf(ps) <==>
            exists p :: p in ps && ProxySpec.IsWebType(p.typ) && Truthy(p.customDomains)
                     && h in DomainList(p.customDomains.value)
  {
    hide DomainList;
    if ps != [] {
      HostsOfMembers(ps[1..], h);
      assert forall p :: p in ps <==> p == ps[0] || p in ps[1..];
    }
  }

  // A domainized payload carries its hosts in the custom domains only.
  predicate Domainized(p: Payload) {
    ProxySpec.IsWebType(p.typ) ==> p.subdomain.None?
  }

  lemma {:induction false} PayloadsAreDomainized(db: DB, ids: seq<nat>, host: string, subLabel: Option<string>)
    requires forall t :: t in ids ==> t in db.tunnels
    ensures forall p :: p in Payloads(db, ids, host, subLabel) ==> Domainized(p)
  {
    hide Fqdns;
    if ids != [] {
      PayloadsAreDomainized(db, ids[1..], host, subLabel);
    }
  }

  // A rendered proxy lists exactly the hosts of its payload.
  lemma RenderedHosts(own: string, p: Payload)
    requires Domainized(p) && ProxySpec.IsWebType(p.typ)
    ensures ProxySpec.Hosts(Render(own, p))
         == if Truthy(p.customDomains) then DomainList(p.customDomains.value) else []
  {
    hide DomainList;
  }

  lemma {:induction false} NoneForbidden(g: Grant.Grant, hosts: seq<string>)
    ensures Registry.FirstForbidden(g, hosts).None? <==> forall h :: h in hosts ==> g.AllowHost(h)
  {
    if hosts != [] {
      NoneForbidden(g, hosts[1..]);
      assert forall h :: h in hosts <==> h == hosts[0] || h in hosts[1..];
    }
  }

  // The engine's grant check lets through every proxy that the agent renders from the
  // configuration, except a port proxy that has no port.
  lemma RenderedIsAuthorized(s: Settings, mac: string -> string, db: DB, agent: nat, host: string, ids: seq<nat>,
                             exp: int, now: int, own: string, q: ProxySpec.Spec)
    requires Grant.IsMac(mac) && Inv(s, db) && Clean(host) && Sublist(db, agent, ids)
    requires FitsInt64(exp) && now <= exp
    requires q in RenderAll(own, AgentPayloads(db, agent, host, ids))
    ensures var token := ConfigGrant(mac, agent, exp, AgentPayloads(db, agent, host, ids));
            var r := Grant.Verified(mac, token, AgentCn(agent), now);
            && r.Success?
            && (Registry.Unauthorized(Some(r.grant), q).None? <==>
                !(ProxySpec.IsPortType(q.typ) && q.remotePort == 0))
  {
    hide Inv, Clean, Payloads, LabelOf, ConfigGrant, Grant.Verified, DomainList, Lower, Strip, PortsOf, HostsOf, ListedHosts,
         ListedPorts, Grant.CleanHosts;
    var ps := AgentPayloads(db, agent, host, ids);
    GrantVerdict(s, mac, db, agent, host, ids, exp, AgentCn(agent), now);
    PortsAreListed(db, agent, host, ids);
    HostsAreListed(s, db, agent, host, ids);
    PayloadsAreDomainized(db, ids, host, LabelOf(db, agent));
    RenderedMembers(own, ps, q);
    var p :| p in ps && ProxySpec.Supported(p.typ) && q == Render(own, p);
    var g := Grant.Grant(AgentCn(agent), Grant.PortSet(PortsOf(ps)), Grant.HostSet(HostsOf(ps)));
    if ProxySpec.IsPortType(p.typ) {
      PortsOfMembers(ps, q.remotePort);
    } else {
      RenderedHosts(own, p);
      forall h | h in ProxySpec.Hosts(q)
        ensures g.AllowHost(h)
      {
        HostsOfMembers(ps, h);
        DomainListMembers(p.customDomains.value, h);
        StripOfTrimmed(h);
        LowerNonEmpty(h);
        Grant.CleanHostsMembers(HostsOf(ps), Lower(h));
      }
      NoneForbidden(g, ProxySpec.Hosts(q));
    }
  }

  lemma LowerNonEmpty(h: string)
    requires h != ""
    ensures Lower(h) != ""
  {
  }

  // And nothing beyond them: every port and every host in the grant's scope is asked for by
  // one of the rendered proxies.
  lemma ScopeIsRendered(s: Settings, db: DB, agent: nat, host: string, ids: seq<nat>, own: string)
    requires Inv(s, db) && Clean(host) && Sublist(db, agent, ids)
    ensures var proxies := RenderAll(own, AgentPayloads(db, agent, host, ids));
            && (forall port :: port in ListedPorts(db, ids) ==>
                  exists q :: q in proxies && ProxySpec.IsPortType(q.typ) && q.remotePort == port)
            && (forall h :: h in ListedHosts(db, agent, host, ids) ==>
                  exists q :: q in proxies && ProxySpec.IsWebType(q.typ) && h in ProxySpec.HostSet(q))
  {
    hide Inv, Clean, Payloads, LabelOf, DomainList, Lower, Strip, PortsOf, HostsOf, ListedHosts, ListedPorts,
         RenderAll, Grant.CleanHosts;
    var ps := AgentPayloads(db, agent, host, ids);
    var proxies := RenderAll(own, ps);
    PortsAreListed(db, agent, host, ids);
    HostsAreListed(s, db, agent, host, ids);
    PayloadsAreDomainized(db, ids, host, LabelOf(db, agent));
    forall port | port in ListedPorts(db, ids)
      ensures exists q :: q in proxies && ProxySpec.IsPortType(q.typ) && q.remotePort == port
    {
      PortsOfMembers(ps, port);
      var p :| p in ps && ProxySpec.IsPortType(p.typ) && p.remotePort == Some(port);
      RenderedMembers(own, ps, Render(own, p));
    }
    forall h | h in ListedHosts(db, agent, host, ids)
      ensures exists q :: q in proxies && ProxySpec.IsWebType(q.typ) && h in ProxySpec.HostSet(q)
    {
      assert h in Grant.HostSet(HostsOf(ps));
      Grant.CleanHostsMembers(HostsOf(ps), h);
      var x :| x in HostsOf(ps) && Lower(Strip(x)) == h;
      HostsOfMembers(ps, x);
      var p :| p in ps && ProxySpec.IsWebType(p.typ) && Truthy(p.customDomains) && x in DomainList(p.customDomains.value);
      RenderedMembers(own, ps, Render(own, p));
      RenderedHosts(own, p);
      DomainListMembers(p.customDomains.value, x);
      StripOfTrimmed(x);
      assert h in ProxySpec.HostSet(Render(own, p));
    }
  }
}
