/**
 From the panel's rows to what an agent asks the engine for: the configuration with its
 full host names, the grant printed for it, and the proxies that the agent renders.
 */
module Config {
  import opened Text
  import opened Panel
  import ProxySpec
  import Grant

  datatype Payload = Payload(
    proxyName: string, typ: string, localIp: string, localPort: int,
    remotePort: Option<int>, subdomain: Option<string>, customDomains: Option<string>)

  function TunnelPayload(id: nat, t: Tunnel): Payload {
    Payload("t" + PrintNat(id), t.typ.Name(), t.localIp, t.localPort, t.remotePort, t.subdomain, t.customDomains)
  }

  // The part of a host name that follows the tunnel's own subdomain.
  function Suffix(host: string, subLabel: Option<string>): string {
    if Truthy(subLabel) then subLabel.value + "." + host else host
  }

  // The full host names of a web tunnel.
  function Fqdns(subdomain: Option<string>, customDomains: Option<string>, host: string, subLabel: Option<string>)
      : seq<string>
  {
    (if Truthy(subdomain) then [subdomain.value + "." + Suffix(host, subLabel)] else [])
    + (if Truthy(customDomains) then DomainList(customDomains.value) else [])
  }

  function Domainize(p: Payload, host: string, subLabel: Option<string>): Payload {
    if ProxySpec.IsWebType(p.typ) then
      var fqdns := Fqdns(p.subdomain, p.customDomains, host, subLabel);
      p.(subdomain := None, customDomains := if fqdns != [] then Some(Join(fqdns, ',')) else None)
    else p
  }

  function Payloads(db: DB, ids: seq<nat>, host: string, subLabel: Option<string>): seq<Payload>
    requires forall t :: t in ids ==> t in db.tunnels
  {
    if ids == [] then []
    else
      var t := db.tunnels[ids[0]];
      (if t.enabled then [Domainize(TunnelPayload(ids[0], t), host, subLabel)] else [])
      + Payloads(db, ids[1..], host, subLabel)
  }

  function PortsOf(ps: seq<Payload>): seq<int> {
    if ps == [] then []
    else
      (if ProxySpec.IsPortType(ps[0].typ) && ps[0].remotePort.Some? && ps[0].remotePort.value != 0
       then [ps[0].remotePort.value] else [])
      + PortsOf(ps[1..])
  }

  function HostsOf(ps: seq<Payload>): seq<string> {
    if ps == [] then []
    else
      OwnHosts(ps[0]) + HostsOf(ps[1..])
  }

  function AgentCn(id: nat): string { "agent." + PrintNat(id) }

  // The grant the panel sends along with a configuration.
  function ConfigGrant(mac: string -> string, agent: nat, exp: int, ps: seq<Payload>): string {
    Grant.Sign(mac, AgentCn(agent), exp, PortsOf(ps), HostsOf(ps))
  }

  // The agent fills in its own address where a tunnel leaves it open.
  function Resolved(own: string, ip: string): string {
    if ip == "auto" then own else ip
  }

  // One rendered proxy.
  function Render(own: string, p: Payload): ProxySpec.Spec {
    ProxySpec.Spec(
      p.proxyName, p.typ, Resolved(own, p.localIp) + ":" + PrintInt(p.localPort),
      if ProxySpec.IsPortType(p.typ) && p.remotePort.Some? then p.remotePort.value else 0,
      if ProxySpec.IsWebType(p.typ) && Truthy(p.subdomain) then p.subdomain.value else "",
      if ProxySpec.IsWebType(p.typ) && Truthy(p.customDomains) then DomainList(p.customDomains.value) else [])
  }

  // All rendered proxies; types the engine does not know are skipped.
  function RenderAll(own: string, ps: seq<Payload>): seq<ProxySpec.Spec> {
    if ps == [] then []
    else OwnProxy(own, ps[0]) + RenderAll(own, ps[1..])
  }

  function OwnHosts(p: Payload): seq<string> {
    if ProxySpec.IsWebType(p.typ) && Truthy(p.customDomains) then DomainList(p.customDomains.value) else []
  }

  function OwnProxy(own: string, p: Payload): seq<ProxySpec.Spec> {
    if ProxySpec.Supported(p.typ) then [Render(own, p)] else []
  }

  // One step of the two loops below.
  lemma NextPayload(own: string, ps: seq<Payload>, i: nat)
    requires i < |ps|
    ensures HostsOf(ps[i..]) == OwnHosts(ps[i]) + HostsOf(ps[i + 1..])
    ensures RenderAll(own, ps[i..]) == OwnProxy(own, ps[i]) + RenderAll(own, ps[i + 1..])
  {
    hide DomainList, Render;
    assert ps[i..][1..] == ps[i + 1..];
  }

  lemma ConcatAssociates<T>(a: seq<T>, b: seq<T>, c: seq<T>)
    ensures (a + b) + c == a + (b + c)
  {
  }

  // The panel's loop over the tunnels of a configuration.
  method CollectHosts(ps: seq<Payload>) returns (hosts: seq<string>)
    ensures hosts == HostsOf(ps)
  {
    hide HostsOf, DomainList;
    hosts := [];
    for i := 0 to |ps|
      invariant hosts + HostsOf(ps[i..]) == HostsOf(ps)
    {
      NextPayload("", ps, i);
      ConcatAssociates(hosts, OwnHosts(ps[i]), HostsOf(ps[i + 1..]));
      if ProxySpec.IsWebType(ps[i].typ) && Truthy(ps[i].customDomains) {
        hosts := hosts + DomainList(ps[i].customDomains.value);
      }
    }
    NothingLeft("", ps);
  }

  lemma NothingLeft(own: string, ps: seq<Payload>)
    ensures HostsOf(ps[|ps|..]) == [] && RenderAll(own, ps[|ps|..]) == []
  {
  }

  // The agent's loop, filling in each proxy step by step.
  method RenderRctc(own: string, ps: seq<Payload>) returns (proxies: seq<ProxySpec.Spec>)
    ensures proxies == RenderAll(own, ps)
  {
    hide RenderAll, DomainList;
    proxies := [];
    for i := 0 to |ps|
      invariant proxies + RenderAll(own, ps[i..]) == RenderAll(own, ps)
    {
      var p := ps[i];
      NextPayload(own, ps, i);
      ConcatAssociates(proxies, OwnProxy(own, p), RenderAll(own, ps[i + 1..]));
      if !ProxySpec.Supported(p.typ) {
        continue;
      }
      var spec := ProxySpec.Spec(p.proxyName, p.typ, Resolved(own, p.localIp) + ":" + PrintInt(p.localPort), 0, "", []);
      if ProxySpec.IsPortType(p.typ) && p.remotePort.Some? {
        spec := spec.(remotePort := p.remotePort.value);
      }
      if ProxySpec.IsWebType(p.typ) {
        if Truthy(p.customDomains) {
          spec := spec.(customDomains := DomainList(p.customDomains.value));
        }
        if Truthy(p.subdomain) {
          spec := spec.(subdomain := p.subdomain.value);
        }
      }
      assert spec == Render(own, p);
      proxies := proxies + [spec];
    }
    NothingLeft(own, ps);
  }

  // --- clean host names survive the comma-separated detour ---

  // Printable in a comma-separated list and in a grant, and not changed by stripping.
  predicate Clean(h: string) {
    h != "" && Trimmed(h) && ',' !in h && '|' !in h
  }

  lemma {:induction false} StripAllOfClean(parts: seq<string>)
    requires forall p :: p in parts ==> Clean(p)
    ensures StripAll(parts) == parts
  {
    if parts != [] {
      assert parts[0] in parts;
      StripOfTrimmed(parts[0]);
      StripAllOfClean(parts[1..]);
    }
  }

  lemma DomainListOfJoined(fqdns: seq<string>)
    requires fqdns != [] && forall f :: f in fqdns ==> Clean(f)
    ensures DomainList(Join(fqdns, ',')) == fqdns && Join(fqdns, ',') != ""
  {
    SplitJoin(fqdns, ',');
    StripAllOfClean(fqdns);
    Grant.JoinOfNonEmpty(fqdns, ',');
  }

  lemma {:induction false} StripAllMembers(parts: seq<string>, d: string)
    requires d in StripAll(parts)
    ensures d != "" && exists p :: p in parts && d == Strip(p)
  {
    if d in StripAll(parts[1..]) {
      StripAllMembers(parts[1..], d);
      var p :| p in parts[1..] && d == Strip(p);
      assert p in parts;
    } else {
      assert parts[0] in parts;
    }
  }

  // A listed domain is trimmed, holds no comma, and only characters of the list.
  lemma DomainListMembers(csv: string, d: string)
    requires d in DomainList(csv)
    ensures d != "" && Trimmed(d) && ',' !in d && forall c :: c in d ==> c in csv
  {
    StripAllMembers(Split(csv, ','), d);
    var p :| p in Split(csv, ',') && d == Strip(p);
    SplitParts(csv, ',');
    StripTrims(p);
  }

  // --- what the gates let through ---

  lemma {:induction false} NonEmptyMembers(parts: seq<string>, p: string)
    requires p in parts && p != ""
    ensures p in NonEmpty(parts)
  {
    if p != parts[0] {
      NonEmptyMembers(parts[1..], p);
    }
  }

  predicate IsSubdomainChar(c: char) {
    c == '.' || c == '\n' || IsLabelChar(LowerChar(c))
  }

  lemma LabelMatchChars(p: string)
    requires MatchesLabel(Lower(p))
    ensures p != "" && IsAlnum(LowerChar(p[0])) && forall c :: c in p ==> IsSubdomainChar(c)
  {
    var l := Lower(p);
    forall c | c in p
      ensures IsSubdomainChar(c)
    {
      var i :| 0 <= i < |p| && p[i] == c;
      assert l[i] == LowerChar(c);
      if !IsLabel(l) && i < |l| - 1 {
        assert l[..|l| - 1][i] == l[i];
      }
    }
    assert IsLabel(l) || l[..|l| - 1][0] == l[0];
  }

  lemma SubdomainChars(subdomain: string)
    requires subdomain != "" && LabelsOk(subdomain)
    ensures forall c :: c in subdomain ==> IsSubdomainChar(c)
    ensures subdomain[0] == '.' || IsAlnum(LowerChar(subdomain[0]))
  {
    var parts := Split(subdomain, '.');
    JoinSplit(subdomain, '.');
    forall c | c in subdomain
      ensures IsSubdomainChar(c)
    {
      JoinChars(parts, '.', c);
      if c != '.' {
        var p :| p in parts && c in p;
        PartMatches(subdomain, p);
        LabelMatchChars(p);
      }
    }
    if subdomain[0] != '.' {
      assert parts[0][0] == subdomain[0];
      PartMatches(subdomain, parts[0]);
      LabelMatchChars(parts[0]);
    }
  }

  lemma PartMatches(subdomain: string, p: string)
    requires LabelsOk(subdomain) && p in Split(subdomain, '.') && p != ""
    ensures MatchesLabel(Lower(p))
  {
    hide MatchesLabel, Lower;
    NonEmptyMembers(Split(subdomain, '.'), p);
    var i :| 0 <= i < |Labels(subdomain)| && Labels(subdomain)[i] == p;
  }

  lemma SubdomainFqdnClean(subdomain: string, host: string, subLabel: Option<string>)
    requires subdomain != "" && LabelsOk(subdomain) && Clean(host) && LabelOk(subLabel)
    ensures Clean(subdomain + "." + Suffix(host, subLabel))
  {
    hide LabelsOk;
    SubdomainChars(subdomain);
    var f := subdomain + "." + Suffix(host, subLabel);
    assert f[0] == subdomain[0] && f[|f| - 1] == host[|host| - 1];
    assert IsAlnum(LowerChar(f[0])) ==> !IsSpace(f[0]);
  }

  predicate IsDomainChar(c: char) { IsLabelChar(c) || c == '.' }

  lemma TopLevelChars(p: string, c: char)
    requires IsTopLevel(p) && c in p
    ensures IsDomainChar(c)
  {
    var j :| 0 <= j < |p| && p[j] == c;
    if j < 4 && |p| >= 6 && p[..4] == "xn--" {
      assert p[j] == "xn--"[j];
    }
  }

  lemma FqdnChars(d: string)
    requires IsFqdn(d)
    ensures d != "" && forall c :: c in d ==> IsDomainChar(c)
  {
    hide IsTopLevel;
    var parts := Split(d, '.');
    JoinSplit(d, '.');
    forall c | c in d
      ensures IsDomainChar(c)
    {
      JoinChars(parts, '.', c);
      if c != '.' {
        var p :| p in parts && c in p;
        var i :| 0 <= i < |parts| && parts[i] == p;
        if i == |parts| - 1 {
          TopLevelChars(p, c);
        } else {
          assert IsLabel(parts[i]);
        }
      }
    }
  }

  lemma CustomDomainClean(d: string)
    requires d != "" && Trimmed(d) && ',' !in d && IsFqdn(Lower(d))
    ensures Clean(d)
  {
    hide IsFqdn;
    FqdnChars(Lower(d));
    LowerKeepsNonLetters(d, '|');
  }

  // Every host name that the panel builds for an accepted tunnel is clean.
  lemma FqdnsClean(s: Settings, t: Tunnel, host: string, subLabel: Option<string>)
    requires Truthy(t.subdomain) ==> LabelsOk(t.subdomain.value)
    requires forall d :: d in DomainSet(t.customDomains) ==> IsFqdn(d)
    requires Clean(host) && LabelOk(subLabel)
    ensures forall f :: f in Fqdns(t.subdomain, t.customDomains, host, subLabel) ==> Clean(f)
  {
    hide LabelsOk, IsFqdn, Lower, LabelOk, Clean, Trimmed;
    if Truthy(t.subdomain) {
      SubdomainFqdnClean(t.subdomain.value, host, subLabel);
    }
    if Truthy(t.customDomains) {
      forall d | d in DomainList(t.customDomains.value)
        ensures Clean(d)
      {
        DomainListMembers(t.customDomains.value, d);
        assert Lower(d) in DomainSet(t.customDomains);
        CustomDomainClean(d);
      }
    }
  }
}
