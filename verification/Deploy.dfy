/**
 What the panel sends is what the engine takes on. The proxies that an agent renders from its
 configuration meet everything that the engine's guarantees ask for, so that an update with them
 is answered OK for each proxy that can be served at all.
 */
module Deploy {

  import opened Text
  import opened Panel
  import opened Ownership
  import opened Isolation
  import Billing
  import Config
  import EndToEnd
  import Engine
  import Generations
  import Grant
  import Limits
  import ProxySpec
  import Registry
  import Reload
  import Sessions

  // --- one proxy ---

  // The proxy that an agent renders for a tunnel.
  function SpecOf(own: string, db: DB, agent: nat, host: string, t: nat): ProxySpec.Spec
    requires t in db.tunnels
  {
    Config.Render(own, Config.Domainize(Config.TunnelPayload(t, db.tunnels[t]), host, LabelOf(db, agent)))
  }

  function Sent(own: string, db: DB, agent: nat, host: string, ids: seq<nat>): seq<ProxySpec.Spec>
    requires forall t :: t in ids ==> t in db.tunnels
  {
    Config.RenderAll(own, AgentPayloads(db, agent, host, ids))
  }

  predicate Distinct(ids: seq<nat>) {
    forall i, j :: 0 <= i < j < |ids| ==> ids[i] != ids[j]
  }

  // The tunnels behind the proxies that are sent.
  ghost predicate Behind(own: string, db: DB, agent: nat, host: string, ids: seq<nat>,
                         ps: seq<ProxySpec.Spec>, ts: seq<nat>) {
    && |ts| == |ps| && Distinct(ts)
    && (forall i :: 0 <= i < |ts| ==>
          && ts[i] in ids && ts[i] in db.tunnels && db.tunnels[ts[i]].enabled
          && ps[i] == SpecOf(own, db, agent, host, ts[i]))
    && forall t :: t in ids && t in db.tunnels && db.tunnels[t].enabled ==> t in ts
  }

  lemma OneMoreBehind(own: string, db: DB, agent: nat, host: string, ids: seq<nat>,
                      ps: seq<ProxySpec.Spec>, ts: seq<nat>)
    requires ids != [] && Distinct(ids) && ids[0] in db.tunnels && db.tunnels[ids[0]].enabled
    requires Behind(own, db, agent, host, ids[1..], ps, ts)
    ensures Behind(own, db, agent, host, ids, [SpecOf(own, db, agent, host, ids[0])] + ps, [ids[0]] + ts)
  {
    hide SpecOf;
    assert ids[0] !in ids[1..];
    assert forall u :: u in ids <==> u == ids[0] || u in ids[1..];
    var all := [ids[0]] + ts;
    assert forall i :: 0 < i < |all| ==> all[i] == ts[i - 1];
    assert all[0] == ids[0];
    assert forall u :: u in ts ==> u in all;
  }

  lemma NoneMoreBehind(own: string, db: DB, agent: nat, host: string, ids: seq<nat>,
                       ps: seq<ProxySpec.Spec>, ts: seq<nat>)
    requires ids != [] && ids[0] in db.tunnels && !db.tunnels[ids[0]].enabled
    requires Behind(own, db, agent, host, ids[1..], ps, ts)
    ensures Behind(own, db, agent, host, ids, [] + ps, ts)
  {
    hide SpecOf;
    assert forall u :: u in ids <==> u == ids[0] || u in ids[1..];
  }

  lemma {:induction false} TunnelsBehind(own: string, db: DB, agent: nat, host: string, ids: seq<nat>)
      returns (ts: seq<nat>)
    requires Distinct(ids) && forall t :: t in ids ==> t in db.tunnels
    ensures Behind(own, db, agent, host, ids, Sent(own, db, agent, host, ids), ts)
  {
    ts := [];
    if ids != [] {
      ts := TunnelsBehind(own, db, agent, host, ids[1..]);
      FirstSent(own, db, agent, host, ids);
      hide Sent;
      if db.tunnels[ids[0]].enabled {
        OneMoreBehind(own, db, agent, host, ids, Sent(own, db, agent, host, ids[1..]), ts);
        ts := [ids[0]] + ts;
      } else {
        NoneMoreBehind(own, db, agent, host, ids, Sent(own, db, agent, host, ids[1..]), ts);
      }
    }
  }

  lemma FirstSent(own: string, db: DB, agent: nat, host: string, ids: seq<nat>)
    requires ids != [] && forall t :: t in ids ==> t in db.tunnels
    ensures Sent(own, db, agent, host, ids)
         == (if db.tunnels[ids[0]].enabled then [SpecOf(own, db, agent, host, ids[0])] else [])
            + Sent(own, db, agent, host, ids[1..])
  {
    var (t, subLabel) := (ids[0], LabelOf(db, agent));
    var first := Config.Domainize(Config.TunnelPayload(t, db.tunnels[t]), host, subLabel);
    TypeNames(db.tunnels[t].typ);
    assert ProxySpec.Supported(first.typ);
    hide Config.Domainize, Config.TunnelPayload, Config.Render, LabelOf, ProxySpec.Supported;
    var rest := AgentPayloads(db, agent, host, ids[1..]);
    assert AgentPayloads(db, agent, host, ids) == (if db.tunnels[t].enabled then [first] else []) + rest;
    if db.tunnels[t].enabled {
      assert ([first] + rest)[1..] == rest;
    } else {
      assert [] + rest == rest;
    }
  }

  // The host names of a tunnel, as a proxy lists them.
  function NamesOf(db: DB, agent: nat, host: string, t: nat): seq<string>
    requires t in db.tunnels
  {
    if db.tunnels[t].typ.IsWeb()
    then Config.Fqdns(db.tunnels[t].subdomain, db.tunnels[t].customDomains, host, LabelOf(db, agent))
    else []
  }

  function PortOf(t: Tunnel): int {
    if t.typ.IsPort() && t.remotePort.Some? then t.remotePort.value else 0
  }

  lemma SpecFacts(s: Settings, own: string, db: DB, agent: nat, host: string, t: nat)
    requires Inv(s, db) && Config.Clean(host) && t in db.tunnels
    ensures var p := SpecOf(own, db, agent, host, t);
      && p.name == "t" + PrintNat(t) && p.typ == db.tunnels[t].typ.Name()
      && p.remotePort == PortOf(db.tunnels[t]) && p.subdomain == "" && p.customDomains == NamesOf(db, agent, host, t)
      && ProxySpec.Hosts(p) == NamesOf(db, agent, host, t)
  {
    hide Inv, Config.Clean, LabelOf, Config.Fqdns, DomainList;
    var r := db.tunnels[t];
    TypeNames(r.typ);
    TunnelFqdnsClean(s, db, agent, host, t);
    var fqdns := Config.Fqdns(r.subdomain, r.customDomains, host, LabelOf(db, agent));
    if fqdns != [] {
      Config.DomainListOfJoined(fqdns);
    }
  }

  lemma NamesHaveNoSpace(s: Settings, db: DB, agent: nat, host: string, t: nat)
    requires Inv(s, db) && ' ' !in host && t in db.tunnels
    ensures forall f :: f in NamesOf(db, agent, host, t) ==> ' ' !in f
  {
    hide IsFqdn, LabelsOk, Lower, UnderApex, Clash, LabelOf, DomainList;
    var r := db.tunnels[t];
    assert TunnelOk(s, r);
    LabelIsDotFree(db, agent);
    if Truthy(r.subdomain) {
      Config.SubdomainChars(r.subdomain.value);
    }
    if Truthy(r.customDomains) {
      forall d | d in DomainList(r.customDomains.value)
        ensures ' ' !in d
      {
        assert Lower(d) in DomainSet(r.customDomains);
        Config.FqdnChars(Lower(d));
        LowerKeepsNonLetters(d, ' ');
      }
    }
  }

  // --- one proxy for each row ---

  // The domains of a comma-separated list.
  ghost predicate IsListed(csv: string, d: string) {
    d != "" && exists part :: part in Split(csv, ',') && Strip(part) == d
  }

  // What a row of the database says of the proxy that its agent asks for: its name, type, local
  // address, port and host names.
  ghost predicate FromRow(p: ProxySpec.Spec, db: DB, own: string, host: string, t: nat)
    requires t in db.tunnels
  {
    var r := db.tunnels[t];
    && p.name == "t" + PrintNat(t)
    && p.typ == (match r.typ case Tcp => "tcp" case Udp => "udp" case Http => "http" case Https => "https")
    && p.localAddr == (if r.localIp == "auto" then own else r.localIp) + ":" + PrintInt(r.localPort)
    && p.remotePort == (if (r.typ.Tcp? || r.typ.Udp?) && r.remotePort.Some? then r.remotePort.value else 0)
    && p.subdomain == ""
    && forall d :: d in p.customDomains <==>
         && (r.typ.Http? || r.typ.Https?)
         && (|| (r.subdomain.Some? && r.subdomain.value != "" && d == FullName(db, r.agent, host, r.subdomain.value))
             || (r.customDomains.Some? && IsListed(r.customDomains.value, d)))
  }

  // subdomain.label.host, without the label if the team has none.
  function FullName(db: DB, agent: nat, host: string, subdomain: string): string {
    var subLabel :=
      if agent in db.agents && db.agents[agent].team.Some? && db.agents[agent].team.value in db.teams
      then db.teams[db.agents[agent].team.value].subLabel else None;
    if subLabel.Some? && subLabel.value != "" then subdomain + "." + subLabel.value + "." + host else subdomain + "." + host
  }

  lemma {:induction false} StripAllIff(parts: seq<string>, d: string)
    ensures d in StripAll(parts) <==> d != "" && exists p :: p in parts && Strip(p) == d
  {
    hide Strip;
    if parts != [] {
      StripAllIff(parts[1..], d);
      assert forall p :: p in parts <==> p == parts[0] || p in parts[1..];
    }
  }

  lemma NamesFromRow(db: DB, host: string, t: nat, d: string)
    requires t in db.tunnels
    ensures var r := db.tunnels[t];
      d in NamesOf(db, r.agent, host, t) <==>
        && (r.typ.Http? || r.typ.Https?)
        && (|| (r.subdomain.Some? && r.subdomain.value != "" && d == FullName(db, r.agent, host, r.subdomain.value))
            || (r.customDomains.Some? && IsListed(r.customDomains.value, d)))
  {
    var r := db.tunnels[t];
    if r.customDomains.Some? {
      StripAllIff(Split(r.customDomains.value, ','), d);
      if r.customDomains.value == "" {
        assert Split("", ',') == [""] && Strip("") == "";
      }
    }
    if Truthy(r.subdomain) && LabelOf(db, r.agent).Some? {
      var (x, l) := (r.subdomain.value, LabelOf(db, r.agent).value);
      assert x + "." + l + "." + host == x + "." + (l + "." + host);
    }
    hide DomainList, StripAll, Split, Strip;
  }

  lemma LocalAddressOf(own: string, db: DB, agent: nat, host: string, t: nat)
    requires t in db.tunnels
    ensures var r := db.tunnels[t];
      SpecOf(own, db, agent, host, t).localAddr == (if r.localIp == "auto" then own else r.localIp) + ":" + PrintInt(r.localPort)
  {
    hide PrintInt, LabelOf, Config.Fqdns;
  }

  lemma SpecFromRow(s: Settings, own: string, db: DB, host: string, t: nat)
    requires Inv(s, db) && Config.Clean(host) && t in db.tunnels
    ensures FromRow(SpecOf(own, db, db.tunnels[t].agent, host, t), db, own, host, t)
  {
    var agent := db.tunnels[t].agent;
    SpecFacts(s, own, db, agent, host, t);
    LocalAddressOf(own, db, agent, host, t);
    forall d
      ensures d in NamesOf(db, agent, host, t) <==>
        && (db.tunnels[t].typ.Http? || db.tunnels[t].typ.Https?)
        && (|| (db.tunnels[t].subdomain.Some? && db.tunnels[t].subdomain.value != ""
                && d == FullName(db, agent, host, db.tunnels[t].subdomain.value))
            || (db.tunnels[t].customDomains.Some? && IsListed(db.tunnels[t].customDomains.value, d)))
    {
      NamesFromRow(db, host, t, d);
    }
    hide SpecOf, NamesOf, Inv, Config.Clean, FullName, IsListed, PrintNat, PrintInt;
  }

  function Switched(db: DB, ids: seq<nat>): set<nat>
    requires forall t :: t in ids ==> t in db.tunnels
  {
    set t | t in ids && db.tunnels[t].enabled
  }

  // An agent renders exactly one proxy for each enabled tunnel of its configuration, and each is
  // what the row says.
  lemma SentMatchesRows(s: Settings, own: string, db: DB, agent: nat, host: string, ids: seq<nat>)
    requires Inv(s, db) && Config.Clean(host) && Sublist(db, agent, ids) && Distinct(ids)
    ensures var ps := Sent(own, db, agent, host, ids);
      && |ps| == |Switched(db, ids)|
      && (forall i :: 0 <= i < |ps| ==> exists t :: t in Switched(db, ids) && FromRow(ps[i], db, own, host, t))
      && (forall t :: t in Switched(db, ids) ==> exists i :: 0 <= i < |ps| && FromRow(ps[i], db, own, host, t))
  {
    hide Inv, Config.Clean, SpecOf, Sent, FromRow;
    var ps := Sent(own, db, agent, host, ids);
    var ts := TunnelsBehind(own, db, agent, host, ids);
    DistinctSize(ts);
    assert Members(ts) == Switched(db, ids);
    forall i | 0 <= i < |ps|
      ensures ts[i] in Switched(db, ids) && FromRow(ps[i], db, own, host, ts[i])
    {
      SpecFromRow(s, own, db, host, ts[i]);
    }
    forall t | t in Switched(db, ids)
      ensures exists i :: 0 <= i < |ps| && FromRow(ps[i], db, own, host, t)
    {
      var i :| 0 <= i < |ts| && ts[i] == t;
      assert FromRow(ps[i], db, own, host, t);
    }
  }

  function Members(ts: seq<nat>): set<nat> { set t | t in ts }

  lemma {:induction false} DistinctSize(ts: seq<nat>)
    requires Distinct(ts)
    ensures |Members(ts)| == |ts|
  {
    if ts != [] {
      var (t, init) := (ts[|ts| - 1], ts[..|ts| - 1]);
      DistinctSize(init);
      assert ts == init + [t];
      assert Members(ts) == Members(init) + {t};
      assert t !in Members(init);
    }
  }

  // The engine counts a proxy under its client's identity and its name; that is the key under which
  // the panel bills the tunnel.
  lemma BilledUnderItsName(own: string, db: DB, host: string, t: nat, row: Billing.Tunnel)
    requires t in db.tunnels && row.id == t && row.agent == db.tunnels[t].agent
    ensures Billing.KeyOf(row) == Billing.Key("agent." + PrintNat(row.agent), SpecOf(own, db, row.agent, host, t).name)
  {
    hide PrintNat, LabelOf, Config.Fqdns;
  }

  // --- a whole configuration ---

  lemma SentNamesDiffer(s: Settings, own: string, db: DB, agent: nat, host: string, ids: seq<nat>)
    requires Inv(s, db) && Config.Clean(host) && Sublist(db, agent, ids) && Distinct(ids)
    ensures Reload.DistinctNames(Sent(own, db, agent, host, ids))
  {
    hide Inv, Config.Clean, NamesOf, SpecOf, Sent, PrintNat;
    var ps := Sent(own, db, agent, host, ids);
    var ts := TunnelsBehind(own, db, agent, host, ids);
    forall i, j | 0 <= i < j < |ps|
      ensures ps[i].name != ps[j].name
    {
      SpecFacts(s, own, db, agent, host, ts[i]);
      SpecFacts(s, own, db, agent, host, ts[j]);
      if ps[i].name == ps[j].name {
        assert ps[i].name[1..] == PrintNat(ts[i]) && ps[j].name[1..] == PrintNat(ts[j]);
        PrintNatInjective(ts[i], ts[j]);
      }
    }
  }

  lemma SentSocketsDiffer(s: Settings, own: string, db: DB, agent: nat, host: string, ids: seq<nat>)
    requires Inv(s, db) && Config.Clean(host) && Sublist(db, agent, ids) && Distinct(ids)
    ensures Reload.DistinctSockets(Sent(own, db, agent, host, ids))
  {
    hide Config.Clean, NamesOf, SpecOf, Sent, PrintNat, TunnelOk, TeamsOk, SubdomainClash, DomainClash;
    var ps := Sent(own, db, agent, host, ids);
    var ts := TunnelsBehind(own, db, agent, host, ids);
    forall i, j | 0 <= i < j < |ps|
      && ProxySpec.IsPortType(ps[i].typ) && ProxySpec.IsPortType(ps[j].typ) && ps[i].remotePort > 0
      ensures Registry.SockOf(ps[i]) != Registry.SockOf(ps[j])
    {
      SpecFacts(s, own, db, agent, host, ts[i]);
      SpecFacts(s, own, db, agent, host, ts[j]);
      assert !PortClash(db, db.tunnels[ts[i]], db.tunnels[ts[j]]);
    }
  }

  lemma SentAreWellFormed(s: Settings, own: string, db: DB, agent: nat, host: string, ids: seq<nat>)
    requires Inv(s, db) && Config.Clean(host) && ' ' !in host && Sublist(db, agent, ids) && Distinct(ids)
    ensures forall p :: p in Sent(own, db, agent, host, ids) ==> ProxySpec.Supported(p.typ) && ProxySpec.WellFormed(p)
  {
    hide Inv, Config.Fqdns, SpecOf, Sent, PrintNat, LabelOf;
    var ps := Sent(own, db, agent, host, ids);
    var ts := TunnelsBehind(own, db, agent, host, ids);
    forall i | 0 <= i < |ps|
      ensures ProxySpec.Supported(ps[i].typ) && ProxySpec.WellFormed(ps[i])
    {
      SpecFacts(s, own, db, agent, host, ts[i]);
      NamesHaveNoSpace(s, db, agent, host, ts[i]);
      TunnelFqdnsClean(s, db, agent, host, ts[i]);
    }
  }

  lemma SentHostsDiffer(s: Settings, own: string, db: DB, agent: nat, host: string, ids: seq<nat>)
    requires Inv(s, db) && Config.Clean(host) && Sublist(db, agent, ids) && Distinct(ids)
    requires LabelOf(db, agent).Some? && Lower(host) == Lower(s.apex)
    ensures var ps := Sent(own, db, agent, host, ids);
      forall i, j :: 0 <= i < j < |ps| ==> Registry.WebHosts(ps[i]) !! Registry.WebHosts(ps[j])
  {
    hide Inv, Config.Clean, Config.Fqdns, SpecOf, Sent, PrintNat, LabelOf, Lower;
    var ps := Sent(own, db, agent, host, ids);
    var ts := TunnelsBehind(own, db, agent, host, ids);
    forall i, j, h | 0 <= i < j < |ps| && h in Registry.WebHosts(ps[i]) && h in Registry.WebHosts(ps[j])
      ensures false
    {
      var f := OwnedName(s, own, db, agent, host, ts[i], h);
      var g := OwnedName(s, own, db, agent, host, ts[j], h);
      HostsDiffer(s, db, agent, agent, host, ts[i], ts[j], f, g);
    }
  }

  // A host that a sent proxy asks for is one of its tunnel's.
  lemma OwnedName(s: Settings, own: string, db: DB, agent: nat, host: string, t: nat, h: string)
      returns (f: string)
    requires Inv(s, db) && Config.Clean(host) && Enabled(db, agent, t)
    requires h in Registry.WebHosts(SpecOf(own, db, agent, host, t))
    ensures OwnsHost(db, agent, host, t, f) && Lower(f) == h
  {
    hide Inv, Config.Clean, Config.Fqdns, SpecOf, PrintNat, LabelOf, Lower;
    var p := SpecOf(own, db, agent, host, t);
    SpecFacts(s, own, db, agent, host, t);
    TypeNames(db.tunnels[t].typ);
    f :| f in ProxySpec.Hosts(p) && Lower(f) == h;
  }

  // The proxies of a configuration have distinct names, ports and hosts, and no two of them, now
  // or later, can be mistaken for each other.
  lemma SentIsSound(s: Settings, own: string, rs: seq<Request>, agent: nat, host: string, ids: seq<nat>)
    requires SettingsOk(s) && Ownership.IsRun(s, EMPTY, rs) && Config.Clean(host) && ' ' !in host && Distinct(ids)
    requires Sublist(Ownership.Run(s, EMPTY, rs), agent, ids)
    ensures var db := Ownership.Run(s, EMPTY, rs);
      var ps := Sent(own, db, agent, host, ids);
      && Reload.DistinctNames(ps) && Reload.DistinctSockets(ps)
      && (forall p :: p in ps ==> ProxySpec.Supported(p.typ) && ProxySpec.WellFormed(p))
      && (LabelOf(db, agent).Some? && Lower(host) == Lower(s.apex) ==> Sessions.WellSpecified(ps))
  {
    hide Ownership.Run, Ownership.IsRun, Inv, Sent, LabelOf, Lower, Config.Clean, Distinct, SettingsOk,
         Reload.DistinctNames, Reload.DistinctSockets, ProxySpec.WellFormed, ProxySpec.Supported, Registry.WebHosts;
    var db := Ownership.Run(s, EMPTY, rs);
    EmptyOk(s);
    RunKeeps(s, EMPTY, rs);
    SentNamesDiffer(s, own, db, agent, host, ids);
    SentSocketsDiffer(s, own, db, agent, host, ids);
    SentAreWellFormed(s, own, db, agent, host, ids);
    if LabelOf(db, agent).Some? && Lower(host) == Lower(s.apex) {
      SentHostsDiffer(s, own, db, agent, host, ids);
    }
  }

  // --- which of them can be served ---

  // A port proxy with a port, or a web proxy with a host.
  predicate Servable(p: ProxySpec.Spec) {
    if ProxySpec.IsPortType(p.typ) then p.remotePort != 0 else ProxySpec.Hosts(p) != []
  }

  // Ids are 64-bit.
  predicate Narrow(ids: seq<nat>) {
    forall t :: t in ids ==> t < 0x8000_0000_0000_0000
  }

  function Power(k: nat): nat {
    if k == 0 then 1 else 10 * Power(k - 1)
  }

  lemma {:induction false} DigitsOf(n: nat, k: nat)
    requires k > 0 && n < Power(k)
    ensures |PrintNat(n)| <= k
  {
    assert Power(1) == 10;
    if n >= 10 {
      DigitsOf(n / 10, k - 1);
    }
  }

  lemma {:induction false} PowerAdds(j: nat, k: nat)
    ensures Power(j + k) == Power(j) * Power(k)
  {
    if j > 0 {
      PowerAdds(j - 1, k);
    }
  }

  lemma NarrowNames(ids: seq<nat>)
    requires Narrow(ids)
    ensures forall t :: t in ids ==> |"t" + PrintNat(t)| <= Registry.MAX_NAME
  {
    PowerAdds(10, 9);
    assert Power(9) == 1_000_000_000 && Power(10) == 10_000_000_000;
    forall t | t in ids
      ensures |"t" + PrintNat(t)| <= Registry.MAX_NAME
    {
      DigitsOf(t, 19);
    }
  }

  // Under the grant of its configuration a sent proxy is in order exactly if it can be served.
  lemma SentInOrderIff(s: Settings, mac: string -> string, own: string, db: DB, agent: nat, host: string,
                       ids: seq<nat>, exp: int, now: int, p: ProxySpec.Spec)
    requires Grant.IsMac(mac) && Inv(s, db) && Config.Clean(host) && Sublist(db, agent, ids) && Distinct(ids) && Narrow(ids)
    requires FitsInt64(exp) && now <= exp && p in Sent(own, db, agent, host, ids)
    ensures var r := Grant.Verified(mac, Config.ConfigGrant(mac, agent, exp, AgentPayloads(db, agent, host, ids)),
                                    Config.AgentCn(agent), now);
            r.Success? && (Reload.InOrder(Some(r.grant), p) <==> Servable(p))
  {
    hide Grant.IsMac, Config.Clean, Grant.Verified, Config.ConfigGrant, AgentPayloads, Config.RenderAll, SpecOf, NamesOf,
         Registry.Unauthorized, PrintNat, Clash, TeamsOk, IsFqdn, UnderApex, LabelsOk, DomainSet, FitsInt64, Config.AgentCn;
    RenderedIsAuthorized(s, mac, db, agent, host, ids, exp, now, own, p);
    var ts := TunnelsBehind(own, db, agent, host, ids);
    var i :| 0 <= i < |ts| && Sent(own, db, agent, host, ids)[i] == p;
    SpecFacts(s, own, db, agent, host, ts[i]);
    NarrowNames(ids);
    TypeNames(db.tunnels[ts[i]].typ);
    assert TunnelOk(s, db.tunnels[ts[i]]);
  }

  // --- panel and engine ---

  // Requests and engine events while tunnels, agents and labels stand still; all teams with
  // agents are labelled, and the agents are on one node.
  ghost predicate Steady(s: Settings, mac: string -> string, rs: seq<Request>, es: seq<Engine.Event>, dbs: seq<DB>,
                         host: string) {
    && SettingsOk(s) && Ownership.IsRun(s, EMPTY, rs) && Lower(host) == Lower(s.apex) && ' ' !in host
    && Engine.IsRun(Engine.Start(true), es) && EndToEnd.FromPanel(s, mac, dbs, host, es)
    && var db := Ownership.Run(s, EMPTY, rs);
       && (forall a :: a in db.agents ==> LabelOf(db, a).Some?)
       && (forall a, c :: a in db.agents && c in db.agents ==> NodeOf(db, a) == NodeOf(db, c))
       && (forall d :: d in dbs ==> EndToEnd.SameTenants(d, db))
  }

  // A connection of the agent whose current grant is that of the agent's configuration; no other
  // connection of the agent still holds a port.
  ghost predicate UpToDate(mac: string -> string, db: DB, w: Engine.World, k: nat, agent: nat, host: string,
                           ids: seq<nat>, exp: int, now: int) {
    && k in w.conns && w.conns[k].sess.who.id == Config.AgentCn(agent)
    && Sublist(db, agent, ids) && Distinct(ids) && Narrow(ids) && FitsInt64(exp) && now <= exp
    && w.conns[k].sess.grant.Some?
    && Grant.Verified(mac, Config.ConfigGrant(mac, agent, exp, AgentPayloads(db, agent, host, ids)),
                      Config.AgentCn(agent), now) == Grant.Success(w.conns[k].sess.grant.value)
    && forall sock :: sock in w.sh.bound && w.sh.bound[sock].owner.id == Config.AgentCn(agent) ==>
         w.sh.bound[sock].owner == w.conns[k].sess.who
  }

  // Whatever the agent's configuration asks for is free or held by its connection.
  lemma SentIsAvailable(s: Settings, mac: string -> string, own: string, rs: seq<Request>,
                        es: seq<Engine.Event>, dbs: seq<DB>, host: string, agent: nat, ids: seq<nat>, exp: int, now: int,
                        k: nat, p: ProxySpec.Spec)
    requires Steady(s, mac, rs, es, dbs, host)
    requires var db := Ownership.Run(s, EMPTY, rs);
             && UpToDate(mac, db, Engine.Exec(Engine.Start(true), es), k, agent, host, ids, exp, now)
             && p in Sent(own, db, agent, host, ids) && Servable(p)
    ensures var w := Engine.Exec(Engine.Start(true), es);
            Reload.Available(w.sh, w.conns[k].sess.who, p)
  {
    hide Ownership.Run, Ownership.IsRun, Engine.IsRun, Engine.Exec, EndToEnd.FromPanel, LabelOf, NodeOf, Lower, SettingsOk,
         EndToEnd.SameTenants, Inv, Sent, SpecOf, NamesOf, Config.ConfigGrant, Grant.Verified, AgentPayloads, Config.AgentCn;
    var (db, w) := (Ownership.Run(s, EMPTY, rs), Engine.Exec(Engine.Start(true), es));
    EmptyOk(s);
    RunKeeps(s, EMPTY, rs);
    assert Config.Clean(host) by { HostIsClean(s, mac, dbs, host, es); }
    var ts := TunnelsBehind(own, db, agent, host, ids);
    var i :| 0 <= i < |ts| && Sent(own, db, agent, host, ids)[i] == p;
    SpecFacts(s, own, db, agent, host, ts[i]);
    TypeNames(db.tunnels[ts[i]].typ);
    hide Config.Clean;
    if ProxySpec.IsPortType(p.typ) && Registry.SockOf(p) in w.sh.bound {
      assert p.remotePort in OwnedPorts(db, agent);
      EndToEnd.BoundByItsOwner(s, mac, rs, es, dbs, host, Registry.SockOf(p), agent);
    }
    if ProxySpec.IsWebType(p.typ) {
      forall h | h in ProxySpec.HostSet(p) && h in w.sh.vhosts
        ensures w.sh.vhosts[h].owner.id == w.conns[k].sess.who.id
      {
        var f := OwnedName(s, own, db, agent, host, ts[i], h);
        NameIsOwned(db, agent, host, ts[i], f);
        EndToEnd.RoutedToItsOwner(s, mac, rs, es, dbs, host, h, agent);
      }
    }
  }

  lemma HostIsClean(s: Settings, mac: string -> string, dbs: seq<DB>, host: string, es: seq<Engine.Event>)
    requires EndToEnd.FromPanel(s, mac, dbs, host, es)
    ensures Grant.IsMac(mac) && Config.Clean(host) && forall db :: db in dbs ==> Inv(s, db)
  {
  }

  lemma NameIsOwned(db: DB, agent: nat, host: string, t: nat, f: string)
    requires OwnsHost(db, agent, host, t, f)
    ensures Lower(f) in OwnedHosts(db, agent, host)
  {
    hide Lower, Config.Fqdns, LabelOf;
  }

  lemma OwnedNamesAreClean(s: Settings, db: DB, a: nat, host: string, h: string)
    requires Inv(s, db) && Config.Clean(host) && ' ' !in host && Lower(h) in OwnedHosts(db, a, host)
    ensures h != "" && '|' !in h && ' ' !in h
  {
    hide Inv, LabelOf, Lower, Config.Fqdns, OwnedHosts, Trimmed;
    var t, f := HostOwner(db, a, host, Lower(h));
    TunnelFqdnsClean(s, db, a, host, t);
    NamesHaveNoSpace(s, db, a, host, t);
    LowerKeepsNonLetters(f, '|');
    LowerKeepsNonLetters(f, ' ');
    LowerKeepsNonLetters(h, '|');
    LowerKeepsNonLetters(h, ' ');
    LowerNonEmpty(f);
    assert Lower("") == "";
  }

  // With the panel's grants, whatever web proxy a client has registered is well-formed.
  lemma RegisteredAreWellFormed(s: Settings, mac: string -> string, es: seq<Engine.Event>, dbs: seq<DB>, host: string,
                                k: nat, n: string)
    requires Engine.IsRun(Engine.Start(true), es) && EndToEnd.FromPanel(s, mac, dbs, host, es) && ' ' !in host
    requires Engine.Has(Engine.Exec(Engine.Start(true), es).conns, k, n)
    ensures var q := Engine.Exec(Engine.Start(true), es).conns[k].sess.regs[n].spec;
      && Reload.InOrder(None, q) && '|' !in q.typ && (ProxySpec.IsWebType(q.typ) ==> ProxySpec.WellFormed(q))
  {
    hide Engine.IsRun, Engine.Exec, EndToEnd.FromPanel, Inv, OwnedHosts, Config.Clean, Lower;
    Sessions.RegisteredAreInOrder(true, es);
    var q := Engine.At(Engine.Exec(Engine.Start(true), es).conns, k, n).spec;
    var i, a := EndToEnd.RegistrationOrigin(s, mac, es, dbs, host, k, n);
    HostIsClean(s, mac, dbs, host, es);
    NoneForbidden(EndToEnd.ScopeOf(dbs[i], a, host), ProxySpec.Hosts(q));
    if ProxySpec.IsWebType(q.typ) {
      forall h | h in ProxySpec.Hosts(q)
        ensures h != "" && '|' !in h && ' ' !in h
      {
        OwnedNamesAreClean(s, dbs[i], a, host, h);
      }
      WellFormedByHosts(q);
    }
  }

  lemma WellFormedByHosts(q: ProxySpec.Spec)
    requires ProxySpec.IsWebType(q.typ) && forall h :: h in ProxySpec.Hosts(q) ==> h != "" && '|' !in h && ' ' !in h
    ensures ProxySpec.WellFormed(q)
  {
    assert forall d :: d in q.customDomains ==> d in ProxySpec.Hosts(q);
    assert q.subdomain != "" ==> q.subdomain in ProxySpec.Hosts(q);
  }

  // What is registered serves what was asked for.
  predicate Serves(q: ProxySpec.Spec, p: ProxySpec.Spec) {
    && q.typ == p.typ && q.remotePort == p.remotePort
    && (ProxySpec.IsWebType(p.typ) ==> ProxySpec.SameTarget(q, p))
  }

  // A registration that the configuration leaves alone can be served, and serves what is asked.
  lemma KeptServes(q: ProxySpec.Spec, p: ProxySpec.Spec)
    requires Reload.InOrder(None, q) && '|' !in q.typ && (ProxySpec.IsWebType(q.typ) ==> ProxySpec.WellFormed(q))
    requires ProxySpec.WellFormed(p) && ProxySpec.SpecKey(q) == ProxySpec.SpecKey(p)
    ensures Serves(q, p) && Servable(p)
  {
    hide ProxySpec.SpecKey, ProxySpec.WellFormed;
    assert '|' !in p.typ by { TypeHasNoBar(p); }
    ProxySpec.KeyFixesTypeAndPort(q, p);
    if ProxySpec.IsWebType(p.typ) {
      ProxySpec.SpecKeyInjective(q, p);
    }
  }

  lemma TypeHasNoBar(p: ProxySpec.Spec)
    requires ProxySpec.WellFormed(p)
    ensures '|' !in p.typ
  {
  }

  // While tunnels, agents and labels stand still, an update with the agent's configuration is
  // answered OK exactly for the proxies that can be served, whatever else connections have done, if
  // this one has been tidy, as updates with distinct names are; afterwards exactly these are
  // registered, each for what the configuration asks.
  lemma SentIsServed(s: Settings, mac: string -> string, own: string, rs: seq<Request>,
                     es: seq<Engine.Event>, dbs: seq<DB>, host: string, agent: nat, ids: seq<nat>, exp: int, now: int,
                     k: nat)
    requires Steady(s, mac, rs, es, dbs, host)
    requires UpToDate(mac, Ownership.Run(s, EMPTY, rs), Engine.Exec(Engine.Start(true), es), k, agent, host, ids, exp, now)
    requires Engine.TidyBy(Engine.Start(true), es, k)
    ensures var w := Engine.Exec(Engine.Start(true), es);
            var ps := Sent(own, Ownership.Run(s, EMPTY, rs), agent, host, ids);
            var r := Registry.ApplyUpdate(w.sh, w.conns[k].sess, ps);
            && |r.statuses| == |ps|
            && (forall i :: 0 <= i < |ps| ==> (r.statuses[i].Ok() <==> Servable(ps[i])))
            && r.se.regs.Keys == (set i | 0 <= i < |ps| && Servable(ps[i]) :: ps[i].name)
            && (forall i :: 0 <= i < |ps| && Servable(ps[i]) ==>
                  ps[i].name in r.se.regs && Serves(r.se.regs[ps[i].name].spec, ps[i]))
  {
    hide Ownership.Run, Ownership.IsRun, Engine.IsRun, Engine.Exec, EndToEnd.FromPanel, LabelOf, NodeOf, Lower, SettingsOk,
         EndToEnd.SameTenants, Inv, Sent, SpecOf, NamesOf, Config.ConfigGrant, Grant.Verified, AgentPayloads, Config.AgentCn,
         Registry.ApplyUpdate, Reload.InOrder, Reload.DistinctNames, Reload.DistinctSockets, Reload.Available, Servable,
         ProxySpec.WellFormed, Registry.Unauthorized, Serves, Narrow, ProxySpec.SpecKey, Distinct;
    var (db, w) := (Ownership.Run(s, EMPTY, rs), Engine.Exec(Engine.Start(true), es));
    var ps := Sent(own, db, agent, host, ids);
    var se := w.conns[k].sess;
    EmptyOk(s);
    RunKeeps(s, EMPTY, rs);
    HostIsClean(s, mac, dbs, host, es);
    SentIsSound(s, own, rs, agent, host, ids);
    forall p | p in ps
      ensures Reload.InOrder(se.grant, p) <==> Servable(p)
      ensures Servable(p) ==> Reload.Available(w.sh, se.who, p)
    {
      SentInOrderIff(s, mac, own, db, agent, host, ids, exp, now, p);
      if Servable(p) {
        SentIsAvailable(s, mac, own, rs, es, dbs, host, agent, ids, exp, now, k, p);
      }
    }
    Sessions.ReachableReloadIsFair(true, es, k, ps);
    var r := Registry.ApplyUpdate(w.sh, se, ps);
    forall i | 0 <= i < |ps|
      ensures r.statuses[i].Ok() <==> Servable(ps[i])
      ensures Registry.Unchanged(se.regs, ps[i]) ==> Serves(se.regs[ps[i].name].spec, ps[i])
    {
      assert ps[i] in ps;
      if Registry.Unchanged(se.regs, ps[i]) {
        RegisteredAreWellFormed(s, mac, es, dbs, host, k, ps[i].name);
        KeptServes(se.regs[ps[i].name].spec, ps[i]);
      }
    }
    Reload.UpdateContract(w.sh, se, ps);
    forall i | 0 <= i < |ps| && Servable(ps[i])
      ensures ps[i].name in r.se.regs && Serves(r.se.regs[ps[i].name].spec, ps[i])
    {
      if Registry.Unchanged(se.regs, ps[i]) {
        assert Reload.Kept(se.regs, ps, ps[i].name);
      } else {
        Reload.OkMeansRegisteredIff(w.sh, se, ps, i);
        TargetServes(r.se.regs[ps[i].name].spec, ps[i]);
      }
    }
  }

  lemma TargetServes(q: ProxySpec.Spec, p: ProxySpec.Spec)
    requires ProxySpec.SameTarget(q, p)
    ensures Serves(q, p)
  {
  }

  // --- a first connection ---

  lemma MakingTcp(s: Settings) returns (rs: seq<Request>)
    requires s.maxTunnels > 0 && s.portAllowMin <= s.portAllowMax
    ensures Ownership.IsRun(s, EMPTY, rs) && Ownership.Run(s, EMPTY, rs) == Generations.Made(s.portAllowMin)
  {
    var u1, u2, u3 := Generations.MadeSteps(s);
    hide Generations.Made, Slug, Strip, CreateTunnel, Generations.OneTcp, Ownership.IsRun, Ownership.Run;
    rs := [MakeTeam(1, "x", None, None), MakeAgent(1, 0, Some(1)), MakeTunnel(1, Generations.OneTcp(s.portAllowMin))];
    RunThree(s, EMPTY, rs[0], rs[1], rs[2]);
  }

  lemma TcpTenants(port: int)
    ensures var db := Generations.Made(port);
      && LabelOf(db, 1).Some? && db.agents.Keys == {1} && Lists(db, 1, [1])
      && EndToEnd.SameTenants(db, db)
  {
    Limits.SlugOfX();
    hide Slug;
  }

  lemma FirstAdmission(id: string, g: Grant.Grant)
    requires g.cn == id
    ensures var es := [Engine.Admit(id, Some(g))];
      && Engine.IsRun(Engine.Start(true), es) && Engine.TidyBy(Engine.Start(true), es, 0)
      && var w := Engine.Exec(Engine.Start(true), es);
         && w.sh.bound == map[] && w.conns.Keys == {0}
         && w.conns[0].sess == Registry.Session(Registry.Owner(0, id), Some(g), map[])
  {
    var e := Engine.Admit(id, Some(g));
    assert [e][..0] == [];
    assert Engine.Exec(Engine.Start(true), []) == Engine.Start(true);
  }

  // A connection that presents the grant of the current configuration.
  lemma TokenIsRead(s: Settings, mac: string -> string, db: DB, agent: nat, host: string, ids: seq<nat>, exp: int, now: int)
      returns (g: Grant.Grant)
    requires Grant.IsMac(mac) && Inv(s, db) && Config.Clean(host) && Sublist(db, agent, ids) && FitsInt64(exp) && now <= exp
    ensures g.cn == Config.AgentCn(agent) && EndToEnd.Reads(mac, [db], host, Config.AgentCn(agent), g)
    ensures Grant.Verified(mac, Config.ConfigGrant(mac, agent, exp, AgentPayloads(db, agent, host, ids)),
                           Config.AgentCn(agent), now) == Grant.Success(g)
  {
    hide Inv, Config.Clean, Grant.IsMac, Grant.Verified, Config.ConfigGrant, AgentPayloads, ListedHosts, ListedPorts,
         Config.AgentCn, FitsInt64;
    GrantVerdict(s, mac, db, agent, host, ids, exp, Config.AgentCn(agent), now);
    var token := Config.ConfigGrant(mac, agent, exp, AgentPayloads(db, agent, host, ids));
    g := Grant.Verified(mac, token, Config.AgentCn(agent), now).grant;
    assert EndToEnd.Grants(mac, [db][0], agent, host, ids, exp, token);
    assert EndToEnd.Issued(mac, [db], host, token);
  }

  lemma AdmittedFromPanel(s: Settings, mac: string -> string, db: DB, host: string, id: string, g: Grant.Grant)
    requires Grant.IsMac(mac) && Config.Clean(host) && Inv(s, db) && EndToEnd.Reads(mac, [db], host, id, g)
    ensures EndToEnd.FromPanel(s, mac, [db], host, [Engine.Admit(id, Some(g))])
  {
    hide Inv, Config.Clean, Grant.IsMac, EndToEnd.Reads;
  }

  lemma TcpIsSteady(s: Settings, mac: string -> string, rs: seq<Request>, es: seq<Engine.Event>, host: string)
    requires SettingsOk(s) && Ownership.IsRun(s, EMPTY, rs) && Lower(host) == Lower(s.apex) && ' ' !in host
    requires Ownership.Run(s, EMPTY, rs) == Generations.Made(s.portAllowMin) && Engine.IsRun(Engine.Start(true), es)
    requires EndToEnd.FromPanel(s, mac, [Generations.Made(s.portAllowMin)], host, es)
    ensures Steady(s, mac, rs, es, [Generations.Made(s.portAllowMin)], host)
  {
    TcpTenants(s.portAllowMin);
    hide Generations.Made, Ownership.Run, Ownership.IsRun, Engine.IsRun, LabelOf, NodeOf, Lower, SettingsOk, Lists,
         EndToEnd.SameTenants, EndToEnd.FromPanel;
  }

  lemma AdmittedIsUpToDate(mac: string -> string, db: DB, w: Engine.World, agent: nat, host: string, ids: seq<nat>,
                           exp: int, now: int, g: Grant.Grant)
    requires Sublist(db, agent, ids) && Distinct(ids) && Narrow(ids) && FitsInt64(exp) && now <= exp
    requires w.sh.bound == map[] && 0 in w.conns
    requires w.conns[0].sess == Registry.Session(Registry.Owner(0, Config.AgentCn(agent)), Some(g), map[])
    requires Grant.Verified(mac, Config.ConfigGrant(mac, agent, exp, AgentPayloads(db, agent, host, ids)),
                            Config.AgentCn(agent), now) == Grant.Success(g)
    ensures UpToDate(mac, db, w, 0, agent, host, ids, exp, now)
  {
  }

  // An agent with one tunnel connects to the empty engine: all that the theorem asks for holds.
  lemma FirstConnection(s: Settings, mac: string -> string, host: string, exp: int, now: int)
      returns (rs: seq<Request>, es: seq<Engine.Event>, dbs: seq<DB>)
    requires SettingsOk(s) && s.maxTunnels > 0 && s.portAllowMin <= s.portAllowMax
    requires Grant.IsMac(mac) && Config.Clean(host) && ' ' !in host && Lower(host) == Lower(s.apex)
    requires FitsInt64(exp) && now <= exp
    ensures Steady(s, mac, rs, es, dbs, host) && Engine.TidyBy(Engine.Start(true), es, 0)
    ensures UpToDate(mac, Ownership.Run(s, EMPTY, rs), Engine.Exec(Engine.Start(true), es), 0, 1, host, [1], exp, now)
    ensures 1 in Ownership.Run(s, EMPTY, rs).tunnels && Ownership.Run(s, EMPTY, rs).tunnels[1].enabled
  {
    var db := Generations.Made(s.portAllowMin);
    rs := MakingTcp(s);
    EmptyOk(s);
    RunKeeps(s, EMPTY, rs);
    assert 1 in db.tunnels && db.tunnels[1].enabled && Sublist(db, 1, [1]);
    assert Distinct([1]) && Narrow([1]);
    hide *;
    var g := TokenIsRead(s, mac, db, 1, host, [1], exp, now);
    dbs := [db];
    es := [Engine.Admit(Config.AgentCn(1), Some(g))];
    AdmittedFromPanel(s, mac, db, host, Config.AgentCn(1), g);
    FirstAdmission(Config.AgentCn(1), g);
    TcpIsSteady(s, mac, rs, es, host);
    AdmittedIsUpToDate(mac, db, Engine.Exec(Engine.Start(true), es), 1, host, [1], exp, now, g);
  }
}
