/**
 The engine's registry as values: what one client's registrations do to the shared routing
 table, to the tcp map and to the operating system's bound sockets, and how a reload diffs
 the desired proxies against the current ones.
 */
module Registry {
  import opened Text
  import opened ProxySpec
  import Grant

  // One control connection of one identity; stands for the pointer the engine compares.
  datatype Owner = Owner(conn: nat, id: string)

  // A table entry: the connection that made it and the proxy it serves.
  datatype Ref = Ref(owner: Owner, spec: Spec)

  // A registration. The ticket tells apart two registrations of the same proxy.
  datatype Entry = Entry(spec: Spec, ticket: nat)

  datatype Sock = Sock(udp: bool, port: int)

  // What all connections share: routes, tcp map, bound sockets, and the tickets whose
  // teardown has run.
  datatype Shared = Shared(
    vhosts: map<string, Ref>, tcp: map<int, Ref>, bound: map<Sock, Ref>,
    ran: set<nat>, next: nat)

  // What belongs to one connection.
  datatype Session = Session(who: Owner, grant: Option<Grant.Grant>, regs: map<string, Entry>)

  datatype Error =
    | InvalidName | PortNotAuthorized | HostNotAuthorized(host: string) | PortRequired
    | BindFailed | NoDomains | HostClaimed(host: string) | UnknownType

  datatype Status = Status(name: string, error: Option<Error>) {
    predicate Ok() { error.None? }
  }

  datatype Outcome = Outcome(sh: Shared, se: Session, statuses: seq<Status>)

  const MAX_NAME := 64
  const MAX_PORT := 65535

  function SockOf(p: Spec): Sock { Sock(p.typ == "udp", p.remotePort) }

  // --- registering one proxy ---

  function FirstForbidden(g: Grant.Grant, hosts: seq<string>): Option<string> {
    if hosts == [] then None
    else if !g.AllowHost(hosts[0]) then Some(hosts[0])
    else FirstForbidden(g, hosts[1..])
  }

  // The first requested host that is routed for another identity, lower-cased.
  function FirstClaimed(vhosts: map<string, Ref>, id: string, hosts: seq<string>): Option<string> {
    if hosts == [] then None
    else
      var h := Lower(hosts[0]);
      if h in vhosts && vhosts[h].owner.id != id then Some(h)
      else FirstClaimed(vhosts, id, hosts[1..])
  }

  function Unauthorized(grant: Option<Grant.Grant>, p: Spec): Option<Error> {
    if grant.None? then None
    else if IsPortType(p.typ) then
      if grant.value.AllowPort(p.remotePort) then None else Some(PortNotAuthorized)
    else if IsWebType(p.typ) then
      match FirstForbidden(grant.value, Hosts(p))
      case None => None
      case Some(h) => Some(HostNotAuthorized(h))
    else None
  }

  // Why a proxy is turned down, in the order in which the engine looks.
  function Refusal(sh: Shared, who: Owner, grant: Option<Grant.Grant>, p: Spec): Option<Error> {
    if p.name == "" || |p.name| > MAX_NAME then Some(InvalidName)
    else if Unauthorized(grant, p).Some? then Unauthorized(grant, p)
    else if IsPortType(p.typ) then
      if p.remotePort <= 0 then Some(PortRequired)
      else if p.remotePort > MAX_PORT || SockOf(p) in sh.bound then Some(BindFailed)
      else None
    else if IsWebType(p.typ) then
      if Hosts(p) == [] then Some(NoDomains)
      else match FirstClaimed(sh.vhosts, who.id, Hosts(p))
        case None => None
        case Some(h) => Some(HostClaimed(h))
    else Some(UnknownType)
  }

  function Claim(vhosts: map<string, Ref>, hosts: set<string>, ref: Ref): map<string, Ref> {
    map h | h in vhosts.Keys + hosts :: if h in hosts then ref else vhosts[h]
  }

  // The shared state once a proxy that is not refused has been taken on.
  function Accept(sh: Shared, who: Owner, p: Spec): Shared {
    var ref := Ref(who, p);
    Shared(
      if IsWebType(p.typ) then Claim(sh.vhosts, HostSet(p), ref) else sh.vhosts,
      if p.typ == "tcp" then sh.tcp[p.remotePort := ref] else sh.tcp,
      if IsPortType(p.typ) then sh.bound[SockOf(p) := ref] else sh.bound,
      sh.ran,
      sh.next + 1)
  }

  function Register(sh: Shared, se: Session, p: Spec): Outcome {
    var refusal := Refusal(sh, se.who, se.grant, p);
    if refusal.Some? then Outcome(sh, se, [Status(p.name, refusal)])
    else
      Outcome(Accept(sh, se.who, p),
              se.(regs := se.regs[p.name := Entry(p, sh.next)]),
              [Status(p.name, None)])
  }

  // --- tearing registrations down ---

  function WebHosts(p: Spec): set<string> {
    if IsWebType(p.typ) then HostSet(p) else {}
  }

  function Release(vhosts: map<string, Ref>, who: Owner, hosts: set<string>): map<string, Ref> {
    map h | h in vhosts && !(h in hosts && vhosts[h].owner == who) :: vhosts[h]
  }

  // Run the teardown of one registration.
  function Close(sh: Shared, who: Owner, e: Entry): Shared {
    Shared(
      Release(sh.vhosts, who, WebHosts(e.spec)),
      if e.spec.typ == "tcp" then sh.tcp - {e.spec.remotePort} else sh.tcp,
      if IsPortType(e.spec.typ) then sh.bound - {SockOf(e.spec)} else sh.bound,
      sh.ran + {e.ticket},
      sh.next)
  }

  function HostsOf(regs: map<string, Entry>, names: set<string>): set<string>
    requires names <= regs.Keys
  {
    set n, h | n in names && h in WebHosts(regs[n].spec) :: h
  }

  function SocksOf(regs: map<string, Entry>, names: set<string>): set<Sock>
    requires names <= regs.Keys
  {
    set n | n in names && IsPortType(regs[n].spec.typ) :: SockOf(regs[n].spec)
  }

  function TcpPortsOf(regs: map<string, Entry>, names: set<string>): set<int>
    requires names <= regs.Keys
  {
    set n | n in names && regs[n].spec.typ == "tcp" :: regs[n].spec.remotePort
  }

  function TicketsOf(regs: map<string, Entry>, names: set<string>): set<nat>
    requires names <= regs.Keys
  {
    set n | n in names :: regs[n].ticket
  }

  // Tear down a set of registrations; the order does not matter.
  function CloseAll(sh: Shared, who: Owner, regs: map<string, Entry>, names: set<string>): Shared
    requires names <= regs.Keys
  {
    Shared(
      Release(sh.vhosts, who, HostsOf(regs, names)),
      sh.tcp - TcpPortsOf(regs, names),
      sh.bound - SocksOf(regs, names),
      sh.ran + TicketsOf(regs, names),
      sh.next)
  }

  lemma CloseAllNone(sh: Shared, who: Owner, regs: map<string, Entry>)
    ensures CloseAll(sh, who, regs, {}) == sh
  {
    assert HostsOf(regs, {}) == {};
    assert Release(sh.vhosts, who, {}) == sh.vhosts;
  }

  lemma ReleaseNothing(vhosts: map<string, Ref>, who: Owner)
    ensures Release(vhosts, who, {}) == vhosts
  {
  }

  lemma ReleaseTwice(vhosts: map<string, Ref>, who: Owner, a: set<string>, b: set<string>)
    ensures Release(Release(vhosts, who, a), who, b) == Release(vhosts, who, a + b)
  {
  }

  lemma RemoveTwice<K, V>(m: map<K, V>, a: set<K>, b: set<K>)
    ensures (m - a) - b == m - (a + b)
  {
  }

  // What one more closed entry adds to the released hosts, sockets, ports and tickets.
  lemma FootprintsGrow(regs: map<string, Entry>, names: set<string>, n: string)
    requires names <= regs.Keys && n in regs
    ensures HostsOf(regs, names + {n}) == HostsOf(regs, names) + WebHosts(regs[n].spec)
    ensures SocksOf(regs, names + {n})
         == SocksOf(regs, names) + if IsPortType(regs[n].spec.typ) then {SockOf(regs[n].spec)} else {}
    ensures TcpPortsOf(regs, names + {n})
         == TcpPortsOf(regs, names) + if regs[n].spec.typ == "tcp" then {regs[n].spec.remotePort} else {}
    ensures TicketsOf(regs, names + {n}) == TicketsOf(regs, names) + {regs[n].ticket}
  {
  }

  // Closing one more entry, whichever it is, extends the set that has been closed.
  lemma CloseAllStep(sh: Shared, who: Owner, regs: map<string, Entry>, names: set<string>, n: string)
    requires names <= regs.Keys && n in regs
    ensures Close(CloseAll(sh, who, regs, names), who, regs[n]) == CloseAll(sh, who, regs, names + {n})
  {
    var p := regs[n].spec;
    FootprintsGrow(regs, names, n);
    ReleaseTwice(sh.vhosts, who, HostsOf(regs, names), WebHosts(p));
    RemoveTwice(sh.tcp, TcpPortsOf(regs, names), if p.typ == "tcp" then {p.remotePort} else {});
    RemoveTwice(sh.bound, SocksOf(regs, names), if IsPortType(p.typ) then {SockOf(p)} else {});
  }

  // --- the reload ---

  // The desired proxies by name; of two with one name the later counts.
  function Desired(ps: seq<Spec>): map<string, Spec> {
    if ps == [] then map[]
    else
      var last := |ps| - 1;
      Desired(ps[..last])[ps[last].name := ps[last]]
  }

  // The registrations a reload removes: not desired any more, or with another key.
  function Doomed(regs: map<string, Entry>, ps: seq<Spec>): set<string> {
    var desired := Desired(ps);
    set n | n in regs && (n !in desired || SpecKey(desired[n]) != SpecKey(regs[n].spec))
  }

  function Prune(sh: Shared, se: Session, names: set<string>): Outcome
    requires names <= se.regs.Keys
  {
    Outcome(CloseAll(sh, se.who, se.regs, names), se.(regs := se.regs - names), [])
  }

  predicate Unchanged(regs: map<string, Entry>, p: Spec) {
    p.name in regs && SpecKey(regs[p.name].spec) == SpecKey(p)
  }

  function EnlistOne(sh: Shared, se: Session, p: Spec): Outcome {
    if Unchanged(se.regs, p) then Outcome(sh, se, [Status(p.name, None)])
    else Register(sh, se, p)
  }

  function Enlist(o: Outcome, ps: seq<Spec>): Outcome {
    if ps == [] then o
    else
      var last := |ps| - 1;
      var before := Enlist(o, ps[..last]);
      var one := EnlistOne(before.sh, before.se, ps[last]);
      one.(statuses := before.statuses + one.statuses)
  }

  // What one whole update does: close what is no longer wanted, then take on what is new.
  function ApplyUpdate(sh: Shared, se: Session, ps: seq<Spec>): Outcome {
    Enlist(Prune(sh, se, Doomed(se.regs, ps)), ps)
  }

  // A disconnecting client tears everything down.
  function Cleanup(sh: Shared, se: Session): Outcome {
    Prune(sh, se, se.regs.Keys)
  }
}
