/**
 The proxy a client asks for, and the key by which a reload decides that a proxy is unchanged.
 */
module ProxySpec {
  import opened Text
  import Grant

  datatype Spec = Spec(
    name: string, typ: string, localAddr: string,
    remotePort: int, subdomain: string, customDomains: seq<string>)

  predicate IsPortType(typ: string) { typ == "tcp" || typ == "udp" }

  predicate IsWebType(typ: string) { typ == "http" || typ == "https" }

  predicate Supported(typ: string) { IsPortType(typ) || IsWebType(typ) }

  // Every host the proxy asks for, in request order.
  function Hosts(p: Spec): seq<string> {
    p.customDomains + if p.subdomain != "" then [p.subdomain] else []
  }

  // The keys under which those hosts are routed.
  function HostSet(p: Spec): set<string> {
    set h | h in Hosts(p) :: Lower(h)
  }

  function SpecKey(p: Spec): string {
    p.typ + "|" + (PrintInt(p.remotePort) + "|" + (p.subdomain + "|" + ("[" + Join(p.customDomains, ' ') + "]")))
  }

  predicate WellFormed(p: Spec) {
    && '|' !in p.typ
    && '|' !in p.subdomain
    && forall d :: d in p.customDomains ==> d != "" && ' ' !in d
  }

  predicate SameTarget(p: Spec, q: Spec) {
    && p.typ == q.typ
    && p.remotePort == q.remotePort
    && p.subdomain == q.subdomain
    && p.customDomains == q.customDomains
  }

  lemma {:induction false} CutAtBar(a: string, x: string, b: string, y: string)
    requires '|' !in a && '|' !in b
    requires a + "|" + x == b + "|" + y
    ensures a == b && x == y
  {
    var (l, r) := (a + "|" + x, b + "|" + y);
    assert l[0] == r[0] && l[1..] == r[1..];
    assert a != "" ==> l[0] == a[0] && l[1..] == a[1..] + "|" + x;
    assert b != "" ==> r[0] == b[0] && r[1..] == b[1..] + "|" + y;
    if a == "" {
      assert l[1..] == x && l[0] == '|';
      assert b == "" ==> r[1..] == y;
    } else if b != "" {
      CutAtBar(a[1..], x, b[1..], y);
    }
  }

  lemma PortHasNoBar(n: int)
    ensures '|' !in PrintInt(n)
  {
    if '|' in PrintInt(n) {
      PrintIntChars(n, '|');
    }
  }

  // Whatever the domains hold, equal keys of bar-free types agree on type and port.
  lemma KeyFixesTypeAndPort(p: Spec, q: Spec)
    requires '|' !in p.typ && '|' !in q.typ
    requires SpecKey(p) == SpecKey(q)
    ensures p.typ == q.typ && p.remotePort == q.remotePort
  {
    var restP := PrintInt(p.remotePort) + "|" + (p.subdomain + "|" + ("[" + Join(p.customDomains, ' ') + "]"));
    var restQ := PrintInt(q.remotePort) + "|" + (q.subdomain + "|" + ("[" + Join(q.customDomains, ' ') + "]"));
    assert SpecKey(p) == p.typ + "|" + restP && SpecKey(q) == q.typ + "|" + restQ;
    CutAtBar(p.typ, restP, q.typ, restQ);
    PortHasNoBar(p.remotePort);
    PortHasNoBar(q.remotePort);
    CutAtBar(PrintInt(p.remotePort), p.subdomain + "|" + ("[" + Join(p.customDomains, ' ') + "]"),
             PrintInt(q.remotePort), q.subdomain + "|" + ("[" + Join(q.customDomains, ' ') + "]"));
    PrintIntInjective(p.remotePort, q.remotePort);
  }

  lemma DomainsInjective(a: seq<string>, b: seq<string>)
    requires forall d :: d in a ==> d != "" && ' ' !in d
    requires forall d :: d in b ==> d != "" && ' ' !in d
    requires Join(a, ' ') == Join(b, ' ')
    ensures a == b
  {
    if a != [] {
      SplitJoin(a, ' ');
      Grant.JoinOfNonEmpty(a, ' ');
    }
    if b != [] {
      SplitJoin(b, ' ');
      Grant.JoinOfNonEmpty(b, ' ');
    }
  }

  // What the printed list of domains still shows: every domain cut at its spaces, and an empty
  // list like one empty domain.
  function Words(domains: seq<string>): seq<string> {
    if domains == [] then [""] else CutAll(domains)
  }

  function CutAll(domains: seq<string>): seq<string> {
    if domains == [] then [] else Split(domains[0], ' ') + CutAll(domains[1..])
  }

  lemma {:induction false} WordsOfJoined(domains: seq<string>)
    ensures Split(Join(domains, ' '), ' ') == Words(domains)
  {
    if |domains| == 1 {
      assert CutAll(domains[1..]) == [];
      assert Split(domains[0], ' ') + [] == Split(domains[0], ' ');
    } else if |domains| > 1 {
      WordsOfJoined(domains[1..]);
      SplitConcat(domains[0], ' ', Join(domains[1..], ' '));
    }
  }

  lemma JoinedEqualIff(a: seq<string>, b: seq<string>)
    ensures Join(a, ' ') == Join(b, ' ') <==> Words(a) == Words(b)
  {
    WordsOfJoined(a);
    WordsOfJoined(b);
    JoinSplit(Join(a, ' '), ' ');
    JoinSplit(Join(b, ' '), ' ');
  }

  // Whatever the domains are: keys of specs without a bar in type and subdomain are equal if and
  // only if type, port and subdomain agree and the domains agree when cut at spaces.
  lemma SpecKeyEqualIff(p: Spec, q: Spec)
    requires '|' !in p.typ && '|' !in p.subdomain && '|' !in q.typ && '|' !in q.subdomain
    ensures SpecKey(p) == SpecKey(q) <==>
      && p.typ == q.typ && p.remotePort == q.remotePort && p.subdomain == q.subdomain
      && Words(p.customDomains) == Words(q.customDomains)
  {
    hide Words;
    JoinedEqualIff(p.customDomains, q.customDomains);
    if SpecKey(p) == SpecKey(q) {
      KeyFixesTypeAndPort(p, q);
      var (domP, domQ) := ("[" + Join(p.customDomains, ' ') + "]", "[" + Join(q.customDomains, ' ') + "]");
      var head := p.typ + "|" + (PrintInt(p.remotePort) + "|");
      assert SpecKey(p) == head + (p.subdomain + "|" + domP);
      assert SpecKey(q) == head + (q.subdomain + "|" + domQ);
      assert SpecKey(p)[|head|..] == p.subdomain + "|" + domP;
      assert SpecKey(q)[|head|..] == q.subdomain + "|" + domQ;
      CutAtBar(p.subdomain, domP, q.subdomain, domQ);
      assert domP[1..|domP| - 1] == Join(p.customDomains, ' ');
      assert domQ[1..|domQ| - 1] == Join(q.customDomains, ' ');
    }
  }

  // On well-formed proxies the key is equal exactly when everything the server uses is equal.
  lemma SpecKeyInjective(p: Spec, q: Spec)
    requires WellFormed(p) && WellFormed(q)
    ensures SpecKey(p) == SpecKey(q) <==> SameTarget(p, q)
  {
    if SpecKey(p) == SpecKey(q) {
      SpecKeyEqualIff(p, q);
      JoinedEqualIff(p.customDomains, q.customDomains);
      DomainsInjective(p.customDomains, q.customDomains);
    }
  }

  // The two ways in which malformed domain lists collide.
  lemma SpecKeyCollisions(p: Spec)
    ensures SpecKey(p.(customDomains := ["a b"])) == SpecKey(p.(customDomains := ["a", "b"]))
    ensures SpecKey(p.(customDomains := [""])) == SpecKey(p.(customDomains := []))
  {
    assert ["a", "b"][1..] == ["b"];
    assert Join(["a", "b"], ' ') == "a b";
  }
}
