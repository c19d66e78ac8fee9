/**
 What a registration means for those outside: which requests reach it, what another identity is
 refused, and what a refusal says. Stated on the texts that clients send and browsers ask for.
 */
module Routing {

  import opened Text
  import opened ProxySpec
  import opened Registry
  import opened Engine
  import opened Sessions
  import Grant
  import Reload

  // The proxy asks for this host, in whatever case.
  ghost predicate AsksFor(p: Spec, n: string) {
    || (exists h :: h in p.customDomains && SameButCase(h, n))
    || (p.subdomain != "" && SameButCase(p.subdomain, n))
  }

  predicate WebProxy(p: Spec) { p.typ == "http" || p.typ == "https" }

  lemma AsksForIff(p: Spec, n: string)
    ensures Lower(n) in HostSet(p) <==> AsksFor(p, n)
  {
    hide Lower, SameButCase;
    forall h
      ensures Lower(h) == Lower(n) <==> SameButCase(h, n)
    {
      LowerEqualIff(h, n);
    }
    if AsksFor(p, n) {
      if h :| h in p.customDomains && SameButCase(h, n) {
        assert h in Hosts(p);
      } else {
        assert p.subdomain in Hosts(p);
      }
    }
  }

  // --- which requests reach a proxy ---

  // The entry that a request for this host is handed to.
  function Reached(vhosts: map<string, Ref>, host: string): Option<Ref> {
    var h := HostPart(host);
    if h in vhosts then Some(vhosts[h]) else None
  }

  // Once a proxy is taken on, the requests for its hosts, in whatever case and with whatever
  // port, reach it and no other; every other request goes where it went before.
  lemma AcceptedIsReached(sh: Shared, who: Owner, p: Spec, n: string, port: string)
    requires ':' !in n
    ensures var vhosts := Accept(sh, who, p).vhosts;
      && Reached(vhosts, n) == (if WebProxy(p) && AsksFor(p, n) then Some(Ref(who, p)) else Reached(sh.vhosts, n))
      && Reached(vhosts, n + ":" + port) == Reached(vhosts, n)
  {
    HostPartMeans(n, port);
    AsksForIff(p, n);
    hide HostPart, Lower, AsksFor, HostSet;
  }

  // A torn down registration is reached by nobody any more, and only its own hosts change.
  lemma ClosedIsUnreached(sh: Shared, who: Owner, e: Entry, n: string)
    requires ':' !in n
    ensures var r := Reached(sh.vhosts, n);
      Reached(Close(sh, who, e).vhosts, n) ==
        if WebProxy(e.spec) && AsksFor(e.spec, n) && r.Some? && r.value.owner == who then None else r
  {
    HostPartMeans(n, "");
    AsksForIff(e.spec, n);
    hide HostPart, Lower, AsksFor, HostSet;
  }

  // --- the keys of the routing table ---

  ghost predicate KeysLower(vhosts: map<string, Ref>) {
    forall h :: h in vhosts ==> NoUpper(h)
  }

  lemma HostSetIsLower(p: Spec)
    ensures forall h :: h in HostSet(p) ==> NoUpper(h)
  {
    hide Lower, NoUpper, SameButCase;
    forall h | h in HostSet(p)
      ensures NoUpper(h)
    {
      var x :| x in Hosts(p) && Lower(x) == h;
      LowerMeans(x, h);
    }
  }

  lemma EventKeepsKeysLower(w: World, e: Event)
    requires Enabled(w, e) && KeysLower(w.sh.vhosts)
    ensures KeysLower(After(w, e).sh.vhosts)
  {
    hide Refusal, NoUpper, HostSet;
    if e.Add? {
      HostSetIsLower(e.p);
    }
  }

  // In every run no key of the routing table holds an upper letter.
  lemma {:induction false} RoutedKeysAreLower(secured: bool, es: seq<Event>)
    requires IsRun(Start(secured), es)
    ensures forall h, c :: h in Exec(Start(secured), es).sh.vhosts && c in h ==> !(65 <= c as int <= 90)
  {
    if es != [] {
      var (init, e) := (es[..|es| - 1], es[|es| - 1]);
      RoutedKeysAreLower(secured, init);
      assert KeysLower(Exec(Start(secured), init).sh.vhosts);
      hide Enabled, After;
      EventKeepsKeysLower(Exec(Start(secured), init), e);
    }
  }

  // A host that one identity has, spelled in whatever case, is refused to every other identity:
  // the registration leaves everything as it was.
  lemma OtherSpellingIsRefused(secured: bool, es: seq<Event>, k: nat, p: Spec, h: string)
    requires IsRun(Start(secured), es) && Enabled(Exec(Start(secured), es), Add(k, p))
    requires var w := Exec(Start(secured), es);
      && WebProxy(p) && h in w.sh.vhosts && AsksFor(p, h) && w.sh.vhosts[h].owner.id != w.conns[k].sess.who.id
    ensures var w := Exec(Start(secured), es); After(w, Add(k, p)) == w
  {
    RoutedKeysAreLower(secured, es);
    var w := Exec(Start(secured), es);
    assert NoUpper(h) && SameButCase(h, h);
    LowerMeans(h, h);
    AsksForIff(p, h);
    Reload.RefusedExactlyWhen(w.sh, w.conns[k].sess.who, w.conns[k].sess.grant, p);
    hide IsRun, Exec, Refusal, After, AsksFor, HostSet, Lower;
    AddRefused(w, k, p);
  }

  // --- what an answer says ---

  predicate PortProxy(p: Spec) { p.typ == "tcp" || p.typ == "udp" }

  predicate BadName(p: Spec) { p.name == "" || |p.name| > 64 }

  // The host, in whatever case, is one of the grant's, which are lower-cased.
  ghost predicate InGrant(g: Grant.Grant, n: string) {
    exists h :: h in g.hosts && NoUpper(h) && SameButCase(n, h)
  }

  predicate Wants(p: Spec, h: string) {
    h in p.customDomains || (h == p.subdomain && h != "")
  }

  ghost predicate PortOutside(grant: Option<Grant.Grant>, p: Spec) {
    PortProxy(p) && grant.Some? && p.remotePort !in grant.value.ports
  }

  ghost predicate HostOutside(grant: Option<Grant.Grant>, p: Spec, h: string) {
    WebProxy(p) && grant.Some? && Wants(p, h) && !InGrant(grant.value, h)
  }

  ghost predicate Claimed(vhosts: map<string, Ref>, id: string, p: Spec, h: string) {
    h in vhosts && vhosts[h].owner.id != id && AsksFor(p, h)
  }

  lemma WantsIff(p: Spec, h: string)
    ensures h in Hosts(p) <==> Wants(p, h)
  {
  }

  lemma InGrantIff(g: Grant.Grant, n: string)
    ensures g.AllowHost(n) <==> InGrant(g, n)
  {
    hide SameButCase, NoUpper, Lower;
    LowerMeans(n, Lower(n));
    forall h
      ensures h == Lower(n) <==> NoUpper(h) && SameButCase(n, h)
    {
      LowerMeans(n, h);
    }
  }

  lemma {:induction false} FirstForbiddenSays(g: Grant.Grant, hosts: seq<string>)
    ensures var r := FirstForbidden(g, hosts);
      if r.Some? then r.value in hosts && !g.AllowHost(r.value) else forall h :: h in hosts ==> g.AllowHost(h)
  {
    if hosts != [] {
      FirstForbiddenSays(g, hosts[1..]);
    }
  }

  lemma {:induction false} FirstClaimedSays(vhosts: map<string, Ref>, id: string, hosts: seq<string>)
    ensures var r := FirstClaimed(vhosts, id, hosts);
      if r.Some? then r.value in vhosts && vhosts[r.value].owner.id != id && exists x :: x in hosts && Lower(x) == r.value
      else forall x :: x in hosts && Lower(x) in vhosts ==> vhosts[Lower(x)].owner.id == id
  {
    if hosts != [] {
      FirstClaimedSays(vhosts, id, hosts[1..]);
    }
  }

  // What the grant has to say about a proxy.
  lemma UnauthorizedSays(grant: Option<Grant.Grant>, p: Spec)
    ensures var e := Unauthorized(grant, p);
      && (e == Some(PortNotAuthorized) <==> PortOutside(grant, p))
      && (e.Some? ==> e.value.PortNotAuthorized? || (e.value.HostNotAuthorized? && HostOutside(grant, p, e.value.host)))
      && (e.None? ==> forall h :: !HostOutside(grant, p, h))
  {
    hide InGrant, Wants;
    if grant.Some? {
      FirstForbiddenSays(grant.value, Hosts(p));
      forall h
        ensures h in Hosts(p) <==> Wants(p, h)
        ensures grant.value.AllowHost(h) <==> InGrant(grant.value, h)
      {
        WantsIff(p, h);
        InGrantIff(grant.value, h);
      }
    }
    hide Hosts, FirstForbidden;
  }

  lemma ClaimedSays(vhosts: map<string, Ref>, id: string, p: Spec)
    requires KeysLower(vhosts)
    ensures var r := FirstClaimed(vhosts, id, Hosts(p));
      if r.Some? then Claimed(vhosts, id, p, r.value) else forall h :: !Claimed(vhosts, id, p, h)
  {
    FirstClaimedSays(vhosts, id, Hosts(p));
    hide FirstClaimed, AsksFor, Lower, NoUpper, Hosts;
    forall h | h in vhosts
      ensures AsksFor(p, h) <==> exists x :: x in Hosts(p) && Lower(x) == h
    {
      assert Lower(h) == h by { KeyIsLower(h); }
      AsksForIff(p, h);
    }
  }

  lemma KeyIsLower(h: string)
    requires NoUpper(h)
    ensures Lower(h) == h
  {
    assert SameButCase(h, h);
    LowerMeans(h, h);
  }

  // The answer to each request: a proxy without a proper name, outside the grant, without a port
  // or with one that cannot be bound, without a host or with one that another identity has, or of
  // an unknown type is told so, in this order; every other proxy is taken on.
  lemma RegisterSays(sh: Shared, se: Session, p: Spec)
    requires KeysLower(sh.vhosts)
    ensures var r := Register(sh, se, p);
      && |r.statuses| == 1 && r.statuses[0].name == p.name
      && (r.statuses[0].error.Some? ==> r.sh == sh && r.se == se)
      && (r.statuses[0].error.None? ==> r.se == se.(regs := se.regs[p.name := Entry(p, sh.next)]))
    ensures var e := Register(sh, se, p).statuses[0].error;
      && (e == Some(InvalidName) <==> BadName(p))
      && (e == Some(PortNotAuthorized) <==> !BadName(p) && PortOutside(se.grant, p))
      && (e.Some? && e.value.HostNotAuthorized? ==> HostOutside(se.grant, p, e.value.host))
      && (!BadName(p) && (exists h :: HostOutside(se.grant, p, h)) ==> e.Some? && e.value.HostNotAuthorized?)
    ensures var e := Register(sh, se, p).statuses[0].error;
      !BadName(p) && !PortOutside(se.grant, p) && (forall h :: !HostOutside(se.grant, p, h)) ==>
        && (e == Some(PortRequired) <==> PortProxy(p) && p.remotePort <= 0)
        && (e == Some(BindFailed) <==>
              PortProxy(p) && p.remotePort > 0 && (p.remotePort > 65535 || Sock(p.typ == "udp", p.remotePort) in sh.bound))
        && (e == Some(NoDomains) <==> WebProxy(p) && forall h :: !Wants(p, h))
        && (e.Some? && e.value.HostClaimed? ==> WebProxy(p) && Claimed(sh.vhosts, se.who.id, p, e.value.host))
        && (WebProxy(p) && (exists h :: Claimed(sh.vhosts, se.who.id, p, h)) ==> e.Some? && e.value.HostClaimed?)
        && (e == Some(UnknownType) <==> !PortProxy(p) && !WebProxy(p))
  {
    UnauthorizedSays(se.grant, p);
    ClaimedSays(sh.vhosts, se.who.id, p);
    NoHostsIff(p);
    hide Unauthorized, FirstClaimed, Hosts, HostOutside, PortOutside, Claimed, Wants, KeysLower, Accept;
    if h :| Claimed(sh.vhosts, se.who.id, p, h) {
      ClaimedIsWanted(sh.vhosts, se.who.id, p, h);
    }
  }

  lemma NoHostsIff(p: Spec)
    ensures Hosts(p) == [] <==> forall h :: !Wants(p, h)
  {
    if p.customDomains != [] {
      assert Wants(p, p.customDomains[0]);
    }
    if p.subdomain != "" {
      assert Wants(p, p.subdomain);
    }
    if Hosts(p) == [] {
      assert p.customDomains == [] && p.subdomain == "";
    }
  }

  lemma ClaimedIsWanted(vhosts: map<string, Ref>, id: string, p: Spec, h: string)
    requires Claimed(vhosts, id, p, h)
    ensures exists x :: Wants(p, x)
  {
    hide SameButCase;
    if p.subdomain != "" {
      assert Wants(p, p.subdomain);
    } else {
      var x :| x in p.customDomains && SameButCase(x, h);
      assert Wants(p, x);
    }
  }
}
