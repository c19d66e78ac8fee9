/**
 Which tunnel owns a host? The offline page searches the tunnels one by one, the log shipper
 builds a map of all host names beforehand, and the certificate gate decides whether a name may
 get a certificate. All of them rebuild the names that the configuration gives to the agents.
 */
module Hosts {

  import opened Text
  import opened Panel
  import opened Ownership
  import opened Config
  import Grant
  import Isolation

  // The host names of a web tunnel, lower-cased; the tunnel need not be enabled.
  function NamesOf(s: Settings, db: DB, t: nat): seq<string>
    requires t in db.tunnels
  {
    var r := db.tunnels[t];
    LowerAll(Fqdns(r.subdomain, r.customDomains, s.apex, LabelOf(db, r.agent)))
  }

  predicate Owns(s: Settings, db: DB, t: nat, host: string)
    requires t in db.tunnels
  {
    host in NamesOf(s, db, t)
  }

  // The web tunnels, in the order in which the query returns them.
  ghost predicate ListsWeb(db: DB, ids: seq<nat>) {
    && (forall t :: t in ids <==> t in db.tunnels && db.tunnels[t].typ.IsWeb())
    && (forall i, j :: 0 <= i < j < |ids| ==> ids[i] != ids[j])
  }

  predicate Known(db: DB, ids: seq<nat>) {
    forall t :: t in ids ==> t in db.tunnels
  }

  function FirstOwner(s: Settings, db: DB, ids: seq<nat>, host: string): Option<nat>
    requires Known(db, ids)
  {
    if ids == [] then None
    else if Owns(s, db, ids[0], host) then Some(ids[0])
    else FirstOwner(s, db, ids[1..], host)
  }

  function LastOwner(s: Settings, db: DB, ids: seq<nat>, host: string): Option<nat>
    requires Known(db, ids)
  {
    if ids == [] then None
    else if Owns(s, db, ids[|ids| - 1], host) then Some(ids[|ids| - 1])
    else LastOwner(s, db, ids[..|ids| - 1], host)
  }

  // The search for the tunnel that a request's host names.
  function Lookup(s: Settings, db: DB, ids: seq<nat>, host: string): Option<nat>
    requires Known(db, ids)
  {
    FirstOwner(s, db, ids, HostPart(host))
  }

  method LookupByHost(s: Settings, db: DB, ids: seq<nat>, host: string) returns (r: Option<nat>)
    requires Known(db, ids)
    ensures r == Lookup(s, db, ids, host)
  {
    hide Owns, HostPart;
    var h := HostPart(host);
    for i := 0 to |ids|
      invariant FirstOwner(s, db, ids, h) == FirstOwner(s, db, ids[i..], h)
    {
      assert ids[i..][1..] == ids[i + 1..];
      if Owns(s, db, ids[i], h) {
        return Some(ids[i]);
      }
    }
    r := None;
  }

  method BuildHostmap(s: Settings, db: DB, ids: seq<nat>) returns (out: map<string, nat>)
    requires Known(db, ids)
    ensures forall h :: (if h in out then Some(out[h]) else None) == LastOwner(s, db, ids, h)
  {
    hide NamesOf;
    out := map[];
    for i := 0 to |ids|
      invariant forall h :: (if h in out then Some(out[h]) else None) == LastOwner(s, db, ids[..i], h)
    {
      var names := NamesOf(s, db, ids[i]);
      ghost var was := out;
      for j := 0 to |names|
        invariant forall h :: h in out <==> h in was || h in names[..j]
        invariant forall h :: h in out ==> out[h] == if h in names[..j] then ids[i] else was[h]
      {
        out := out[names[j] := ids[i]];
      }
      assert names[..|names|] == names;
      assert ids[..i + 1][..i] == ids[..i];
    }
    assert ids[..|ids|] == ids;
  }

  // --- what a lookup finds ---

  // One of the tunnel's host names is this one, in whatever case.
  ghost predicate Named(s: Settings, db: DB, t: nat, n: string)
    requires t in db.tunnels
  {
    var r := db.tunnels[t];
    exists f :: f in Fqdns(r.subdomain, r.customDomains, s.apex, LabelOf(db, r.agent)) && SameButCase(f, n)
  }

  lemma OwnsIsNamed(s: Settings, db: DB, t: nat, n: string)
    requires t in db.tunnels
    ensures Owns(s, db, t, Lower(n)) <==> Named(s, db, t, n)
  {
    hide Lower, SameButCase, Fqdns;
    var r := db.tunnels[t];
    var names := Fqdns(r.subdomain, r.customDomains, s.apex, LabelOf(db, r.agent));
    LowerAllMembers(names, Lower(n));
    forall f
      ensures Lower(f) == Lower(n) <==> SameButCase(f, n)
    {
      LowerEqualIff(f, n);
    }
  }

  // A host of any case, with a port or without, is looked up as the name before the port: the
  // answer is the first tunnel, in the order of the query, that has the name.
  lemma LookupFindsFirst(s: Settings, db: DB, ids: seq<nat>, n: string, port: string)
    requires Known(db, ids) && ':' !in n
    ensures Lookup(s, db, ids, n + ":" + port) == Lookup(s, db, ids, n)
    ensures var r := Lookup(s, db, ids, n);
      && (r.None? <==> forall i :: 0 <= i < |ids| ==> !Named(s, db, ids[i], n))
      && (r.Some? ==> exists i :: 0 <= i < |ids| && ids[i] == r.value && Named(s, db, ids[i], n)
                               && forall j :: 0 <= j < i ==> !Named(s, db, ids[j], n))
  {
    hide Owns, HostPart, Named, Lower;
    HostPartMeans(n, port);
    forall i | 0 <= i < |ids|
      ensures Owns(s, db, ids[i], Lower(n)) <==> Named(s, db, ids[i], n)
    {
      OwnsIsNamed(s, db, ids[i], n);
    }
    var k := FirstOwnerFacts(s, db, ids, Lower(n));
  }

  // --- the two searches agree exactly when names are unique ---

  ghost predicate UniqueNames(s: Settings, db: DB, ids: seq<nat>)
    requires Known(db, ids)
  {
    forall t, u, h :: t in ids && u in ids && Owns(s, db, t, h) && Owns(s, db, u, h) ==> t == u
  }

  ghost predicate FirstAt(s: Settings, db: DB, ids: seq<nat>, h: string, k: nat)
    requires Known(db, ids)
  {
    k < |ids| && Owns(s, db, ids[k], h) && forall j :: 0 <= j < k ==> !Owns(s, db, ids[j], h)
  }

  ghost predicate LastAt(s: Settings, db: DB, ids: seq<nat>, h: string, k: nat)
    requires Known(db, ids)
  {
    k < |ids| && Owns(s, db, ids[k], h) && forall j :: k < j < |ids| ==> !Owns(s, db, ids[j], h)
  }

  lemma {:induction false} FirstOwnerFacts(s: Settings, db: DB, ids: seq<nat>, h: string) returns (k: nat)
    requires Known(db, ids)
    ensures var r := FirstOwner(s, db, ids, h);
      && (r.Some? ==> FirstAt(s, db, ids, h, k) && r.value == ids[k])
      && (r.None? ==> forall j :: 0 <= j < |ids| ==> !Owns(s, db, ids[j], h))
  {
    hide Owns;
    k := 0;
    if ids != [] && !Owns(s, db, ids[0], h) {
      var i := FirstOwnerFacts(s, db, ids[1..], h);
      k := i + 1;
      assert forall j :: 0 < j < |ids| ==> ids[j] == ids[1..][j - 1];
    }
  }

  lemma {:induction false} LastOwnerFacts(s: Settings, db: DB, ids: seq<nat>, h: string) returns (k: nat)
    requires Known(db, ids)
    ensures var r := LastOwner(s, db, ids, h);
      && (r.Some? ==> LastAt(s, db, ids, h, k) && r.value == ids[k])
      && (r.None? ==> forall j :: 0 <= j < |ids| ==> !Owns(s, db, ids[j], h))
  {
    hide Owns;
    k := 0;
    if ids != [] {
      var n := |ids| - 1;
      k := if Owns(s, db, ids[n], h) then n else k;
      if !Owns(s, db, ids[n], h) {
        k := LastOwnerFacts(s, db, ids[..n], h);
        assert forall j :: 0 <= j < n ==> ids[j] == ids[..n][j];
      }
    }
  }

  // With unique names both find t exactly when the host is among its names.
  lemma OwnerIsFound(s: Settings, db: DB, ids: seq<nat>, t: nat, h: string)
    requires Known(db, ids) && UniqueNames(s, db, ids) && t in ids
    ensures FirstOwner(s, db, ids, h) == Some(t) <==> Owns(s, db, t, h)
    ensures LastOwner(s, db, ids, h) == Some(t) <==> Owns(s, db, t, h)
  {
    hide Owns;
    var i := FirstOwnerFacts(s, db, ids, h);
    var j := LastOwnerFacts(s, db, ids, h);
    var k :| 0 <= k < |ids| && ids[k] == t;
  }

  // The linear search and the prebuilt map name the same tunnel for every host if and only if no
  // two tunnels share a name.
  lemma ResolversAgreeIff(s: Settings, db: DB, ids: seq<nat>)
    requires ListsWeb(db, ids)
    ensures (forall h :: FirstOwner(s, db, ids, h) == LastOwner(s, db, ids, h)) <==> UniqueNames(s, db, ids)
  {
    hide Owns, FirstOwner, LastOwner;
    if UniqueNames(s, db, ids) {
      forall h
        ensures FirstOwner(s, db, ids, h) == LastOwner(s, db, ids, h)
      {
        var i := FirstOwnerFacts(s, db, ids, h);
        var j := LastOwnerFacts(s, db, ids, h);
      }
    } else {
      var t, u, h :| t in ids && u in ids && Owns(s, db, t, h) && Owns(s, db, u, h) && t != u;
      SharedNameSplits(s, db, ids, t, u, h);
    }
  }

  lemma SharedNameSplits(s: Settings, db: DB, ids: seq<nat>, t: nat, u: nat, h: string)
    requires ListsWeb(db, ids) && t in ids && u in ids && t != u && Owns(s, db, t, h) && Owns(s, db, u, h)
    ensures FirstOwner(s, db, ids, h) != LastOwner(s, db, ids, h)
  {
    hide Owns, FirstOwner, LastOwner;
    var a :| 0 <= a < |ids| && ids[a] == t;
    var b :| 0 <= b < |ids| && ids[b] == u;
    var i := FirstOwnerFacts(s, db, ids, h);
    var j := LastOwnerFacts(s, db, ids, h);
    assert i <= a && i <= b && j >= a && j >= b;
  }

  // --- names are unique in every reachable database of labelled teams ---

  // The same database with every tunnel switched on.
  function AllEnabled(db: DB): DB {
    db.(tunnels := map t | t in db.tunnels :: db.tunnels[t].(enabled := true))
  }

  lemma AllEnabledKeeps(s: Settings, db: DB)
    requires Inv(s, db)
    ensures Inv(s, AllEnabled(db))
    ensures forall a :: LabelOf(AllEnabled(db), a) == LabelOf(db, a)
  {
    hide LabelsOk, IsFqdn, UnderApex, DomainSet;
    var on := AllEnabled(db);
    forall t, u | t in on.tunnels && u in on.tunnels && t != u
      ensures !Clash(on, on.tunnels[t], on.tunnels[u])
    {
      assert !Clash(db, db.tunnels[t], db.tunnels[u]);
    }
    forall t | t in on.tunnels
      ensures on.tunnels[t].agent in on.agents && TunnelOk(s, on.tunnels[t])
    {
      assert TunnelOk(s, db.tunnels[t]);
    }
  }

  lemma {:induction false} LowerAllMembers(names: seq<string>, h: string)
    ensures h in LowerAll(names) <==> exists f :: f in names && Lower(f) == h
  {
    hide Lower;
    if names != [] {
      LowerAllMembers(names[1..], h);
      assert names == [names[0]] + names[1..];
    }
  }

  lemma NameOf(s: Settings, db: DB, t: nat, h: string) returns (f: string)
    requires t in db.tunnels && db.tunnels[t].typ.IsWeb() && Owns(s, db, t, h)
    ensures Isolation.OwnsHost(AllEnabled(db), db.tunnels[t].agent, s.apex, t, f) && Lower(f) == h
  {
    hide Fqdns, Lower;
    var r := db.tunnels[t];
    LowerAllMembers(Fqdns(r.subdomain, r.customDomains, s.apex, LabelOf(db, r.agent)), h);
    f :| f in Fqdns(r.subdomain, r.customDomains, s.apex, LabelOf(db, r.agent)) && Lower(f) == h;
  }

  ghost predicate AllLabelled(db: DB, ids: seq<nat>)
    requires Known(db, ids)
  {
    forall t :: t in ids ==> LabelOf(db, db.tunnels[t].agent).Some?
  }

  lemma ReachableNamesAreUnique(s: Settings, rs: seq<Request>, ids: seq<nat>)
    requires SettingsOk(s) && Ownership.IsRun(s, EMPTY, rs)
    requires ListsWeb(Ownership.Run(s, EMPTY, rs), ids) && AllLabelled(Ownership.Run(s, EMPTY, rs), ids)
    ensures UniqueNames(s, Ownership.Run(s, EMPTY, rs), ids)
  {
    hide Ownership.Run, Ownership.IsRun, Inv, Owns, LabelOf, SettingsOk, Isolation.OwnsHost, AllEnabled;
    var db := Ownership.Run(s, EMPTY, rs);
    EmptyOk(s);
    RunKeeps(s, EMPTY, rs);
    AllEnabledKeeps(s, db);
    forall t, u, h | t in ids && u in ids && Owns(s, db, t, h) && Owns(s, db, u, h)
      ensures t == u
    {
      if t != u {
        var f := NameOf(s, db, t, h);
        var g := NameOf(s, db, u, h);
        Isolation.HostsDiffer(s, AllEnabled(db), db.tunnels[t].agent, db.tunnels[u].agent, s.apex, t, u, f, g);
        assert false;
      }
    }
  }

  // --- the certificate gate ---

  function StripDots(s: string): string {
    if s != "" && s[|s| - 1] == '.' then StripDots(s[..|s| - 1]) else s
  }

  // The name that a request for a certificate is about.
  function Asked(domain: string): string {
    StripDots(Strip(Lower(domain)))
  }

  // What may get a certificate: the apex, and a name under it that a tunnel has, enabled or not.
  ghost predicate Certifiable(s: Settings, db: DB, ids: seq<nat>, domain: string)
    requires Known(db, ids)
  {
    var host := Asked(domain);
    host == s.apex || (EndsWith(host, "." + s.apex) && exists t :: t in ids && Owns(s, db, t, HostPart(host)))
  }

  // The apex as it is configured: lower-case, without white space, port or final dot.
  predicate ApexOk(apex: string) {
    Clean(apex) && Lower(apex) == apex && ':' !in apex && apex[|apex| - 1] != '.'
  }

  // A name that neither the gate nor the lookup changes.
  predicate Canonical(h: string) {
    h != "" && Lower(h) == h && Trimmed(h) && ':' !in h && h[|h| - 1] != '.'
  }

  lemma CanonicalIsKept(h: string)
    requires Canonical(h)
    ensures StripDots(Strip(Lower(h))) == h && HostPart(h) == h
  {
    StripOfTrimmed(h);
    SplitSingle(h, ':');
  }

  lemma LowerKeepsSpace(f: string)
    ensures Trimmed(Lower(f)) <==> Trimmed(f)
  {
  }

  lemma TopLevelEndsWithoutDot(d: string)
    requires IsFqdn(d)
    ensures d[|d| - 1] != '.'
  {
    var parts := Split(d, '.');
    JoinSplit(d, '.');
    Grant.JoinLast(parts, '.');
    var last := parts[|parts| - 1];
    SplitParts(d, '.');
    assert last in parts && last[|last| - 1] == d[|d| - 1] && last[|last| - 1] in last;
  }

  lemma SubdomainNameIsCanonical(subdomain: string, apex: string, subLabel: Option<string>)
    requires subdomain != "" && LabelsOk(subdomain) && ApexOk(apex) && LabelOk(subLabel)
    ensures Canonical(Lower(subdomain + "." + Suffix(apex, subLabel)))
  {
    hide LabelsOk, Lower;
    var f := subdomain + "." + Suffix(apex, subLabel);
    SubdomainFqdnClean(subdomain, apex, subLabel);
    SubdomainChars(subdomain);
    assert ':' !in f;
    LowerKeepsNonLetters(f, ':');
    LowerIdempotent(f);
    LowerKeepsSpace(f);
    assert f[|f| - 1] == apex[|apex| - 1];
  }

  lemma DomainIsCanonical(d: string)
    requires d != "" && Trimmed(d) && IsFqdn(Lower(d))
    ensures Canonical(Lower(d))
  {
    hide IsFqdn;
    FqdnChars(Lower(d));
    LowerIdempotent(d);
    LowerKeepsSpace(d);
    TopLevelEndsWithoutDot(Lower(d));
  }

  lemma OwnedNameIsCanonical(s: Settings, db: DB, agent: nat, t: nat, f: string)
    requires Inv(s, db) && ApexOk(s.apex) && Isolation.OwnsHost(db, agent, s.apex, t, f)
    ensures Canonical(Lower(f))
  {
    hide LabelsOk, IsFqdn, Lower, LabelOk, ApexOk, Canonical, Trimmed, DomainList, LabelOf, UnderApex;
    var r := db.tunnels[t];
    Isolation.LabelIsDotFree(db, agent);
    assert TunnelOk(s, r);
    if Truthy(r.subdomain) && f == r.subdomain.value + "." + Suffix(s.apex, LabelOf(db, agent)) {
      SubdomainNameIsCanonical(r.subdomain.value, s.apex, LabelOf(db, agent));
    } else {
      DomainListMembers(r.customDomains.value, f);
      assert Lower(f) in DomainSet(r.customDomains);
      DomainIsCanonical(f);
    }
  }

  // Of the hosts in an agent's grant, exactly those under the apex may get a certificate.
  lemma GateOnGrantedHosts(s: Settings, db: DB, ids: seq<nat>, agent: nat, h: string)
    requires Inv(s, db) && ApexOk(s.apex) && ListsWeb(db, ids)
    requires h in Isolation.OwnedHosts(db, agent, s.apex)
    ensures Certifiable(s, db, ids, h) <==> UnderApex(s, h)
  {
    hide Inv, Lower, Canonical, LabelOf, Isolation.OwnsHost, Strip, StripDots, HostPart, Owns;
    var t, f := Isolation.HostOwner(db, agent, s.apex, h);
    OwnedNameIsCanonical(s, db, agent, t, f);
    CanonicalIsKept(h);
    OwnedIsNamed(s, db, agent, t, f);
    assert t in ids;
  }

  lemma OwnedIsNamed(s: Settings, db: DB, agent: nat, t: nat, f: string)
    requires Isolation.OwnsHost(db, agent, s.apex, t, f)
    ensures t in db.tunnels && db.tunnels[t].typ.IsWeb() && Owns(s, db, t, Lower(f))
  {
    var r := db.tunnels[t];
    LowerAllMembers(Fqdns(r.subdomain, r.customDomains, s.apex, LabelOf(db, r.agent)), Lower(f));
  }

  // Passed exactly for what may get a certificate, and refused for everything else.
  method OnDemandCheck(s: Settings, db: DB, ids: seq<nat>, domain: string) returns (status: nat)
    requires Known(db, ids)
    ensures status == 200 || status == 403
    ensures status == 200 <==> Certifiable(s, db, ids, domain)
  {
    hide Owns, HostPart, Strip, StripDots, Lower;
    var host := Asked(domain);
    if host == s.apex {
      return 200;
    }
    if !EndsWith(host, "." + s.apex) {
      return 403;
    }
    var tunnel := LookupByHost(s, db, ids, host);
    ghost var k := FirstOwnerFacts(s, db, ids, HostPart(host));
    status := if tunnel.Some? then 200 else 403;
  }

  // --- what the gate makes of a name ---

  lemma {:induction false} StripBlanks(l: string, m: string, r: string)
    requires Blank(l) && Blank(r) && m != "" && !IsSpace(m[0]) && !IsSpace(m[|m| - 1])
    ensures Strip(l + m + r) == m
  {
    if l != "" {
      assert (l + m + r)[1..] == l[1..] + m + r && (l + m + r)[0] == l[0] && l[0] in l;
      assert forall c :: c in l[1..] ==> c in l;
      StripBlanks(l[1..], m, r);
    } else {
      assert l + m + r == m + r;
      assert StripLeft(m + r) == m + r;
      StripRightBlanks(m, r);
    }
  }

  lemma {:induction false} StripRightBlanks(m: string, r: string)
    requires Blank(r) && m != "" && !IsSpace(m[|m| - 1])
    ensures StripRight(m + r) == m
  {
    if r != "" {
      var n := |m + r| - 1;
      assert (m + r)[n] == r[|r| - 1] && r[|r| - 1] in r;
      assert (m + r)[..n] == m + r[..|r| - 1];
      var init := r[..|r| - 1];
      assert forall c :: c in init ==> c in r;
      StripRightBlanks(m, init);
    } else {
      assert m + r == m;
    }
  }

  lemma {:induction false} StripDotsOf(m: string, dots: string)
    requires (forall c :: c in dots ==> c == '.') && m != "" && m[|m| - 1] != '.'
    ensures StripDots(m + dots) == m
  {
    if dots != "" {
      var n := |m + dots| - 1;
      assert (m + dots)[n] == dots[|dots| - 1] && dots[|dots| - 1] in dots;
      assert (m + dots)[..n] == m + dots[..|dots| - 1];
      var init := dots[..|dots| - 1];
      assert forall c :: c in init ==> c in dots;
      StripDotsOf(m, init);
    } else {
      assert m + dots == m;
    }
  }

  // A name between blanks, with dots after it, in whatever case.
  predicate Dressed(domain: string, l: string, n: string, dots: string, r: string) {
    && domain == l + (n + dots) + r && Blank(l) && Blank(r) && (forall c :: c in dots ==> c == '.')
    && n != "" && !IsSpace(n[0]) && !IsSpace(n[|n| - 1]) && n[|n| - 1] != '.' && ':' !in n
  }

  lemma BlankLower(s: string)
    requires Blank(s)
    ensures Lower(s) == s
  {
    assert NoUpper(s);
    assert SameButCase(s, s);
    LowerMeans(s, s);
  }

  lemma AskedIsTheName(domain: string, l: string, n: string, dots: string, r: string)
    requires Dressed(domain, l, n, dots, r)
    ensures Asked(domain) == Lower(n) && HostPart(Asked(domain)) == Lower(n)
  {
    LowerConcat(l + (n + dots), r);
    LowerConcat(l, n + dots);
    LowerConcat(n, dots);
    BlankLower(l);
    BlankLower(r);
    assert Lower(dots) == dots by {
      assert forall i :: 0 <= i < |dots| ==> dots[i] in dots;
    }
    var m := Lower(n) + dots;
    assert m[|m| - 1] == if dots == "" then Lower(n)[|n| - 1] else dots[|dots| - 1];
    assert dots != "" ==> dots[|dots| - 1] in dots;
    StripBlanks(l, m, r);
    StripDotsOf(Lower(n), dots);
    LowerIdempotent(n);
    LowerKeepsNonLetters(n, ':');
    HostPartMeans(Lower(n), "");
  }

  // The name lies under the apex, in whatever case.
  predicate Under(apex: string, n: string) {
    |n| > |apex| && n[|n| - |apex| - 1] == '.' && SameButCase(n[|n| - |apex|..], apex)
  }

  lemma EndsWithMeans(apex: string, n: string)
    requires NoUpper(apex)
    ensures EndsWith(Lower(n), "." + apex) <==> Under(apex, n)
    ensures Lower(n) == apex <==> SameButCase(n, apex)
  {
    assert SameButCase(apex, apex);
    LowerMeans(apex, apex);
    LowerEqualIff(n, apex);
    if |n| > |apex| {
      var (k, m) := (|n| - |apex| - 1, n[|n| - |apex|..]);
      LowerEqualIff(m, apex);
      assert Lower(n)[k..] == [Lower(n)[k]] + Lower(m);
      assert Lower(n)[k] == '.' <==> n[k] == '.';
      hide Lower, SameButCase;
      Dotted(Lower(n)[k], Lower(m), apex);
    }
  }

  lemma Dotted(c: char, m: string, apex: string)
    ensures [c] + m == "." + apex <==> c == '.' && m == apex
  {
    assert ([c] + m)[1..] == m && ("." + apex)[1..] == apex;
  }

  // However a request for a certificate writes a name: it may be issued exactly for the apex, and
  // for a name under it that one of the tunnels has.
  lemma CertifiableMeans(s: Settings, db: DB, ids: seq<nat>, domain: string, l: string, n: string, dots: string, r: string)
    requires Known(db, ids) && NoUpper(s.apex) && Dressed(domain, l, n, dots, r)
    ensures Certifiable(s, db, ids, domain) <==>
      SameButCase(n, s.apex) || (Under(s.apex, n) && exists t :: t in ids && Named(s, db, t, n))
  {
    AskedIsTheName(domain, l, n, dots, r);
    EndsWithMeans(s.apex, n);
    hide Asked, HostPart, Owns, Named, Lower, SameButCase, EndsWith, Under, Dressed, NoUpper;
    forall t | t in ids
      ensures Owns(s, db, t, Lower(n)) <==> Named(s, db, t, n)
    {
      OwnsIsNamed(s, db, t, n);
    }
  }
}
