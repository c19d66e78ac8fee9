/**
 Authorization grants. The panel prints a grant as
   v1|<cn>|<exp>|<port,port,...>|<host,host,...>|<sig>
 and the engine parses and checks it. The message authentication code is an arbitrary
 function whose results contain no '|' (the base64url alphabet of RFC 4648, section 5).
 */
module Grant {
  import opened Text

  datatype Grant = Grant(cn: string, ports: set<int>, hosts: set<string>) {
    predicate AllowPort(port: int) { port in ports }
    predicate AllowHost(host: string) { Lower(host) in hosts }
  }

  datatype VerifyError = BadFormat | BadSignature | CnMismatch | Expired
  datatype Result = Success(grant: Grant) | Failure(error: VerifyError)

  ghost predicate IsMac(mac: string -> string) {
    forall m :: '|' !in mac(m)
  }

  // --- the panel's printer ---

  function PrintPorts(ports: seq<int>): seq<string> {
    seq(|ports|, i requires 0 <= i < |ports| => PrintInt(ports[i]))
  }

  // Each host stripped and lower-cased; blank ones dropped.
  function CleanHosts(hosts: seq<string>): seq<string> {
    if hosts == [] then []
    else
      var h := Lower(Strip(hosts[0]));
      (if h == "" then [] else [h]) + CleanHosts(hosts[1..])
  }

  function PortsField(ports: seq<int>): string {
    Join(PrintPorts(SortedSet(IntLess, ports)), ',')
  }

  function HostsField(hosts: seq<string>): string {
    Join(SortedSet(StringLess, CleanHosts(hosts)), ',')
  }

  function Message(cn: string, exp: int, ports: seq<int>, hosts: seq<string>): string {
    "v1" + "|" + cn + "|" + PrintInt(exp) + "|" + PortsField(ports) + "|" + HostsField(hosts)
  }

  function Sign(mac: string -> string, cn: string, exp: int, ports: seq<int>, hosts: seq<string>): string {
    var msg := Message(cn, exp, ports, hosts);
    msg + "|" + mac(msg)
  }

  // --- the engine's parser ---

  function PortScope(field: string): set<int> {
    if field == "" then {}
    else set p | p in Split(field, ',') && ParseInt64(p).Some? :: ParseInt64(p).value
  }

  function HostScope(field: string): set<string> {
    if field == "" then {} else set h | h in Split(field, ',') :: Lower(h)
  }

  // What a check of `token` for identity `cn` at time `now` yields.
  function Verified(mac: string -> string, token: string, cn: string, now: int): Result {
    var parts := Split(token, '|');
    if |parts| != 6 || parts[0] != "v1" then Failure(BadFormat)
    else if mac(Join(parts[..5], '|')) != parts[5] then Failure(BadSignature)
    else if parts[1] != cn then Failure(CnMismatch)
    else
      match ParseInt64(parts[2])
      case None => Failure(Expired)
      case Some(exp) =>
        if now > exp then Failure(Expired)
        else Success(Grant(parts[1], PortScope(parts[3]), HostScope(parts[4])))
  }

  // The checker as the engine runs it, filling the two scope sets in loops.
  method Verify(mac: string -> string, token: string, cn: string, now: int) returns (r: Result)
    ensures r == Verified(mac, token, cn, now)
  {
    var parts := Split(token, '|');
    if |parts| != 6 || parts[0] != "v1" {
      return Failure(BadFormat);
    }
    if mac(Join(parts[..5], '|')) != parts[5] {
      return Failure(BadSignature);
    }
    if parts[1] != cn {
      return Failure(CnMismatch);
    }
    var exp := ParseInt64(parts[2]);
    if exp.None? || now > exp.value {
      return Failure(Expired);
    }
    var ports: set<int> := {};
    if parts[3] != "" {
      var fields := Split(parts[3], ',');
      for i := 0 to |fields|
        invariant ports == set p | p in fields[..i] && ParseInt64(p).Some? :: ParseInt64(p).value
      {
        assert fields[..i + 1] == fields[..i] + [fields[i]];
        var n := ParseInt64(fields[i]);
        if n.Some? {
          ports := ports + {n.value};
        }
      }
      assert fields[..|fields|] == fields;
    }
    var hosts: set<string> := {};
    if parts[4] != "" {
      var fields := Split(parts[4], ',');
      for i := 0 to |fields|
        invariant hosts == set h | h in fields[..i] :: Lower(h)
      {
        assert fields[..i + 1] == fields[..i] + [fields[i]];
        hosts := hosts + {Lower(fields[i])};
      }
      assert fields[..|fields|] == fields;
    }
    return Success(Grant(parts[1], ports, hosts));
  }

  // --- round trip ---

  function PortSet(ports: seq<int>): set<int> { set p | p in ports }

  function HostSet(hosts: seq<string>): set<string> { set h | h in CleanHosts(hosts) }

  // The clean hosts are the non-blank ones, stripped and lower-cased.
  lemma {:induction false} CleanHostsMembers(hosts: seq<string>, h: string)
    ensures h in CleanHosts(hosts) <==> h != "" && exists x :: x in hosts && Lower(Strip(x)) == h
  {
    if hosts != [] {
      CleanHostsMembers(hosts[1..], h);
      assert forall x :: x in hosts <==> x == hosts[0] || x in hosts[1..];
    }
  }

  lemma {:induction false} CleanHostsLower(hosts: seq<string>)
    ensures forall h :: h in CleanHosts(hosts) ==> h != "" && Lower(h) == h
  {
    if hosts != [] {
      CleanHostsLower(hosts[1..]);
      LowerIdempotent(Strip(hosts[0]));
    }
  }

  lemma PrintedPortsAreClean(ports: seq<int>)
    ensures forall p :: p in PrintPorts(ports) ==> p != "" && ',' !in p && '|' !in p
  {
    forall p | p in PrintPorts(ports)
      ensures p != "" && ',' !in p && '|' !in p
    {
      var i :| 0 <= i < |ports| && p == PrintInt(ports[i]);
      PrintIntSign(ports[i]);
      forall c | c in p
        ensures c != ',' && c != '|'
      {
        PrintIntChars(ports[i], c);
      }
    }
  }

  lemma JoinOfNonEmpty(parts: seq<string>, sep: char)
    requires parts != [] && forall p :: p in parts ==> p != ""
    ensures Join(parts, sep) != ""
  {
    assert parts[0] in parts;
  }

  lemma PrintedPortsReadBack(ports: seq<int>, p: int)
    ensures (exists q :: q in PrintPorts(ports) && ParseInt64(q) == Some(p)) <==> p in ports && FitsInt64(p)
  {
    hide ParseInt64, PrintInt;
    var printed := PrintPorts(ports);
    if p in ports && FitsInt64(p) {
      var i :| 0 <= i < |ports| && ports[i] == p;
      ParsePrintInt(p);
      assert printed[i] in printed;
    }
    if q :| q in printed && ParseInt64(q) == Some(p) {
      var i :| 0 <= i < |ports| && printed[i] == q;
      ParsePrintInt(ports[i]);
    }
  }

  // The engine reads back exactly the ports that fit in 64 bits.
  lemma PortsRoundTrip(ports: seq<int>)
    ensures forall p :: p in PortScope(PortsField(ports)) <==> p in ports && FitsInt64(p)
    ensures '|' !in PortsField(ports)
  {
    hide ParseInt64, PrintInt, PrintPorts, Split, Join, SortedSet;
    var sorted := SortedSet(IntLess, ports);
    var printed := PrintPorts(sorted);
    SortedSetMembers(IntLess, ports);
    PrintedPortsAreClean(sorted);
    if '|' in PortsField(ports) {
      JoinChars(printed, ',', '|');
    }
    PortFieldParts(sorted);
    forall p
      ensures p in PortScope(PortsField(ports)) <==> p in ports && FitsInt64(p)
    {
      PrintedPortsReadBack(sorted, p);
    }
  }

  lemma PortFieldParts(ports: seq<int>)
    ensures var field := Join(PrintPorts(ports), ',');
            if ports == [] then field == "" else field != "" && Split(field, ',') == PrintPorts(ports)
  {
    PrintedPortsAreClean(ports);
    if ports != [] {
      SplitJoin(PrintPorts(ports), ',');
      JoinOfNonEmpty(PrintPorts(ports), ',');
    }
  }

  // The engine reads back exactly the clean hosts when, and only when, none contains a comma.
  lemma HostsRoundTrip(hosts: seq<string>)
    ensures HostScope(HostsField(hosts)) == HostSet(hosts) <==>
            forall h :: h in HostSet(hosts) ==> ',' !in h
  {
    var clean := CleanHosts(hosts);
    var sorted := SortedSet(StringLess, clean);
    SortedSetMembers(StringLess, clean);
    CleanHostsLower(hosts);
    if sorted == [] {
      assert forall h :: h in clean ==> h in sorted;
    } else {
      JoinOfNonEmpty(sorted, ',');
      if forall h :: h in clean ==> ',' !in h {
        SplitJoin(sorted, ',');
      }
      var fields := Split(HostsField(hosts), ',');
      SplitParts(HostsField(hosts), ',');
      forall h | h in HostScope(HostsField(hosts))
        ensures ',' !in h
      {
        var x :| x in fields && Lower(x) == h;
        LowerKeepsNonLetters(x, ',');
      }
    }
  }

  // A host list prints without '|' exactly when no clean host contains one.
  lemma HostsFieldBars(hosts: seq<string>)
    ensures '|' in HostsField(hosts) <==> exists h :: h in HostSet(hosts) && '|' in h
  {
    var sorted := SortedSet(StringLess, CleanHosts(hosts));
    SortedSetMembers(StringLess, CleanHosts(hosts));
    if '|' in HostsField(hosts) {
      JoinChars(sorted, ',', '|');
    }
    if h :| h in HostSet(hosts) && '|' in h {
      JoinKeepsChars(sorted, ',', h, '|');
    }
  }

  lemma {:induction false} JoinKeepsChars(parts: seq<string>, sep: char, p: string, c: char)
    requires p in parts && c in p
    ensures c in Join(parts, sep)
  {
    if |parts| > 1 && p != parts[0] {
      assert p in parts[1..];
      JoinKeepsChars(parts[1..], sep, p, c);
    }
  }

  // The fields of a signed grant, split at the bars.
  lemma SignedFields(mac: string -> string, cn: string, exp: int, ports: seq<int>, hosts: seq<string>)
    ensures var msg := Message(cn, exp, ports, hosts);
            Split(Sign(mac, cn, exp, ports, hosts), '|')
            == ["v1"] + Split(cn, '|') + [PrintInt(exp)] + [PortsField(ports)]
               + Split(HostsField(hosts), '|') + Split(mac(msg), '|')
  {
    var msg := Message(cn, exp, ports, hosts);
    var (e, p, h, s) := (PrintInt(exp), PortsField(ports), HostsField(hosts), mac(msg));
    SplitSingle("v1", '|');
    PortsRoundTrip(ports);
    SplitSingle(p, '|');
    forall c | c in e
      ensures c != '|'
    {
      PrintIntChars(exp, c);
    }
    SplitSingle(e, '|');
    SplitSix("v1", cn, e, p, h, s);
  }

  lemma SplitSix(a: string, b: string, c: string, d: string, e: string, f: string)
    ensures Split(a + "|" + b + "|" + c + "|" + d + "|" + e + "|" + f, '|')
         == Split(a, '|') + Split(b, '|') + Split(c, '|') + Split(d, '|') + Split(e, '|') + Split(f, '|')
  {
    SplitConcat(a, '|', b);
    var ab := a + "|" + b;
    SplitConcat(ab, '|', c);
    var abc := ab + "|" + c;
    SplitConcat(abc, '|', d);
    var abcd := abc + "|" + d;
    SplitConcat(abcd, '|', e);
    SplitConcat(abcd + "|" + e, '|', f);
  }

  // The text of a token: its five fields, with the ports and the cleaned hosts in ascending order
  // and without duplicates, then the code of these fields.
  lemma TokenSays(mac: string -> string, cn: string, exp: int, ports: seq<int>, hosts: seq<string>)
      returns (ps: seq<int>, hs: seq<string>)
    ensures (forall i, j :: 0 <= i < j < |ps| ==> ps[i] < ps[j]) && forall p :: p in ps <==> p in ports
    ensures Ascending(StringLess, hs) && forall h :: h in hs <==> h != "" && exists x :: x in hosts && Lower(Strip(x)) == h
    ensures var msg := "v1|" + cn + "|" + PrintInt(exp) + "|" + Join(PrintPorts(ps), ',') + "|" + Join(hs, ',');
      Sign(mac, cn, exp, ports, hosts) == msg + "|" + mac(msg)
  {
    ps, hs := SortedSet(IntLess, ports), SortedSet(StringLess, CleanHosts(hosts));
    IntsAreOrdered();
    StringsAreOrdered();
    SortedSetAscends(IntLess, ports);
    SortedSetAscends(StringLess, CleanHosts(hosts));
    SortedSetMembers(IntLess, ports);
    SortedSetMembers(StringLess, CleanHosts(hosts));
    forall h
      ensures h in CleanHosts(hosts) <==> h != "" && exists x :: x in hosts && Lower(Strip(x)) == h
    {
      CleanHostsMembers(hosts, h);
    }
    forall i, j | 0 <= i < j < |ps|
      ensures ps[i] < ps[j]
    {
      assert IntLess(ps[i], ps[j]);
    }
    assert "v1" + "|" == "v1|";
  }

  // What the panel must be given for its grant to mean what it says.
  predicate Faithful(cn: string, exp: int, ports: seq<int>, hosts: seq<string>) {
    && '|' !in cn
    && FitsInt64(exp)
    && (forall p :: p in ports ==> FitsInt64(p))
    && (forall h :: h in HostSet(hosts) ==> ',' !in h && '|' !in h)
  }

  // A signed grant whose fields hold no bar is read field by field.
  lemma VerifiedOfSigned(mac: string -> string, cn: string, exp: int, ports: seq<int>, hosts: seq<string>,
                         asked: string, now: int)
    requires IsMac(mac)
    requires '|' !in cn && forall h :: h in HostSet(hosts) ==> '|' !in h
    ensures Verified(mac, Sign(mac, cn, exp, ports, hosts), asked, now)
         == if asked != cn then Failure(CnMismatch)
            else if !FitsInt64(exp) || now > exp then Failure(Expired)
            else Success(Grant(cn, PortScope(PortsField(ports)), HostScope(HostsField(hosts))))
  {
    var msg := Message(cn, exp, ports, hosts);
    SignedFields(mac, cn, exp, ports, hosts);
    HostsFieldBars(hosts);
    SplitSingle(cn, '|');
    SplitSingle(HostsField(hosts), '|');
    SplitSingle(mac(msg), '|');
    var parts := Split(Sign(mac, cn, exp, ports, hosts), '|');
    var five := ["v1", cn, PrintInt(exp), PortsField(ports), HostsField(hosts)];
    assert parts == five + [mac(msg)];
    assert parts[..5] == five;
    JoinOfFive("v1", cn, PrintInt(exp), PortsField(ports), HostsField(hosts));
    ParsePrintInt(exp);
  }

  lemma JoinOfFive(a: string, b: string, c: string, d: string, e: string)
    ensures Join([a, b, c, d, e], '|') == a + "|" + b + "|" + c + "|" + d + "|" + e
  {
    assert Join([e], '|') == e;
    assert [d, e][1..] == [e];
    assert Join([d, e], '|') == d + "|" + e;
    assert [c, d, e][1..] == [d, e];
    assert Join([c, d, e], '|') == c + "|" + d + "|" + e;
    assert [b, c, d, e][1..] == [c, d, e];
    assert Join([b, c, d, e], '|') == b + "|" + c + "|" + d + "|" + e;
    assert [a, b, c, d, e][1..] == [b, c, d, e];
  }

  // A bar inside the identity or a host makes the grant unreadable.
  lemma BarsBreakTheFormat(mac: string -> string, cn: string, exp: int, ports: seq<int>, hosts: seq<string>,
                           asked: string, now: int)
    requires '|' in cn || exists h :: h in HostSet(hosts) && '|' in h
    ensures Verified(mac, Sign(mac, cn, exp, ports, hosts), asked, now) == Failure(BadFormat)
  {
    SignedFields(mac, cn, exp, ports, hosts);
    HostsFieldBars(hosts);
    SplitSingle(cn, '|');
    SplitSingle(HostsField(hosts), '|');
  }

  lemma ScopesReadBack(ports: seq<int>, hosts: seq<string>)
    ensures PortScope(PortsField(ports)) == PortSet(ports) <==> forall p :: p in ports ==> FitsInt64(p)
    ensures HostScope(HostsField(hosts)) == HostSet(hosts) <==>
            forall h :: h in HostSet(hosts) ==> ',' !in h
  {
    hide PortScope, PortsField, HostScope, HostsField;
    PortsRoundTrip(ports);
    HostsRoundTrip(hosts);
    if PortScope(PortsField(ports)) == PortSet(ports) {
      forall p | p in ports
        ensures FitsInt64(p)
      {
        assert p in PortSet(ports);
      }
    } else if forall p :: p in ports ==> FitsInt64(p) {
      assert forall p :: p in PortScope(PortsField(ports)) <==> p in PortSet(ports);
    }
  }

  // The engine recovers exactly what the panel signed if and only if the inputs are
  // representable in the format and the grant has not expired.
  lemma RoundTrip(mac: string -> string, cn: string, exp: int, ports: seq<int>, hosts: seq<string>, now: int)
    requires IsMac(mac)
    ensures Verified(mac, Sign(mac, cn, exp, ports, hosts), cn, now)
            == Success(Grant(cn, PortSet(ports), HostSet(hosts)))
       <==> Faithful(cn, exp, ports, hosts) && now <= exp
  {
    hide Verified, Sign, PortScope, PortsField, HostScope, HostsField, PortSet, HostSet;
    ScopesReadBack(ports, hosts);
    if '|' in cn || exists h :: h in HostSet(hosts) && '|' in h {
      BarsBreakTheFormat(mac, cn, exp, ports, hosts, cn, now);
    } else {
      VerifiedOfSigned(mac, cn, exp, ports, hosts, cn, now);
    }
  }

  // A grant is bound to its identity: no other identity can present it.
  lemma OtherIdentityRefused(mac: string -> string, cn: string, exp: int, ports: seq<int>, hosts: seq<string>,
                             other: string, now: int)
    requires IsMac(mac) && other != cn
    requires Faithful(cn, exp, ports, hosts)
    ensures Verified(mac, Sign(mac, cn, exp, ports, hosts), other, now) == Failure(CnMismatch)
  {
    VerifiedOfSigned(mac, cn, exp, ports, hosts, other, now);
  }

  // Only text that carries its own code, names the identity and has not expired is accepted.
  lemma AcceptedIsAuthentic(mac: string -> string, token: string, cn: string, now: int)
    requires Verified(mac, token, cn, now).Success?
    ensures exists msg: string ::
              && token == msg + "|" + mac(msg)
              && |Split(msg, '|')| == 5 && Split(msg, '|')[..2] == ["v1", cn]
              && Verified(mac, token, cn, now).grant.cn == cn
  {
    var parts := Split(token, '|');
    var msg := Join(parts[..5], '|');
    JoinSplit(token, '|');
    SplitParts(token, '|');
    JoinLast(parts, '|');
    assert parts[..|parts| - 1] == parts[..5];
    forall p | p in parts[..5]
      ensures '|' !in p
    {
      assert p in parts;
    }
    SplitJoin(parts[..5], '|');
    assert Split(msg, '|')[..2] == ["v1", cn];
  }

  lemma {:induction false} JoinLast(parts: seq<string>, sep: char)
    requires |parts| >= 2
    ensures Join(parts, sep) == Join(parts[..|parts| - 1], sep) + [sep] + parts[|parts| - 1]
  {
    if |parts| == 2 {
      assert Join(parts[1..], sep) == parts[1];
      assert Join(parts[..1], sep) == parts[0];
    } else {
      JoinLast(parts[1..], sep);
      assert parts[1..][..|parts| - 2] == parts[..|parts| - 1][1..];
    }
  }
}
