/**
 Panel and engine together. The grants that connections present are those that the panel
 issued; then what the engine routes and binds is what the panel's tunnels own.
 */
module EndToEnd {

  import opened Panel
  import Ownership
  import Config
  import Isolation
  import ProxySpec
  import Registry
  import Reload
  import Engine
  import Grant
  import Text

  // Everything an agent may ever be granted in a state of the database.
  function ScopeOf(db: DB, agent: nat, host: string): Grant.Grant {
    Grant.Grant(Config.AgentCn(agent), Isolation.OwnedPorts(db, agent), Isolation.OwnedHosts(db, agent, host))
  }

  // The grant of a configuration over some tunnels of an agent: all of them, or none while the
  // team is suspended, with whatever expiry.
  ghost predicate Grants(mac: string -> string, db: DB, agent: nat, host: string, ids: seq<nat>, exp: int, token: string) {
    && Isolation.Sublist(db, agent, ids)
    && token == Config.ConfigGrant(mac, agent, exp, Isolation.AgentPayloads(db, agent, host, ids))
  }

  // The panel issued the token in one of these states of its database.
  ghost predicate Issued(mac: string -> string, dbs: seq<DB>, host: string, token: string) {
    exists i, a, ids, exp :: 0 <= i < |dbs| && Grants(mac, dbs[i], a, host, ids, exp, token)
  }

  // The engine verified an issued token for that identity, and this is what it read.
  ghost predicate Reads(mac: string -> string, dbs: seq<DB>, host: string, id: string, g: Grant.Grant) {
    exists token, now :: Issued(mac, dbs, host, token) && Grant.Verified(mac, token, id, now) == Grant.Success(g)
  }

  ghost predicate Presents(mac: string -> string, e: Engine.Event, dbs: seq<DB>, host: string) {
    && (e.Admit? && e.grant.Some? ==> Reads(mac, dbs, host, e.id, e.grant.value))
    && (e.Regrant? ==> Reads(mac, dbs, host, e.newGrant.cn, e.newGrant))
  }

  // Nothing beyond what some agent could be granted in one of the states.
  predicate Narrower(g: Grant.Grant, h: Grant.Grant) {
    g.cn == h.cn && g.ports <= h.ports && g.hosts <= h.hosts
  }

  ghost predicate Within(dbs: seq<DB>, host: string, g: Grant.Grant) {
    exists i, a :: 0 <= i < |dbs| && Narrower(g, ScopeOf(dbs[i], a, host))
  }

  // Whatever the engine reads from an issued token lies within what its agent owned then.
  lemma ReadIsWithin(s: Settings, mac: string -> string, dbs: seq<DB>, host: string, id: string, g: Grant.Grant)
    requires Grant.IsMac(mac) && Config.Clean(host) && forall db :: db in dbs ==> Ownership.Inv(s, db)
    requires Reads(mac, dbs, host, id, g)
    ensures Within(dbs, host, g)
  {
    hide Grant.Verified, Grant.IsMac, Ownership.Inv, Config.Clean, Config.ConfigGrant, Isolation.OwnedPorts,
         Isolation.OwnedHosts, Isolation.ListedPorts, Isolation.ListedHosts, Config.AgentCn, Isolation.AgentPayloads,
         Isolation.Sublist, Text.FitsInt64;
    var token, now :| Issued(mac, dbs, host, token) && Grant.Verified(mac, token, id, now) == Grant.Success(g);
    var i, a, ids, exp :| 0 <= i < |dbs| && Grants(mac, dbs[i], a, host, ids, exp, token);
    Isolation.GrantVerdict(s, mac, dbs[i], a, host, ids, exp, id, now);
    Isolation.ListedAreOwned(dbs[i], a, host, ids);
    assert Narrower(g, ScopeOf(dbs[i], a, host));
  }

  ghost predicate AllHeldWithin(w: Engine.World, dbs: seq<DB>, host: string) {
    forall k, g :: k in w.conns && g in w.conns[k].held ==> Within(dbs, host, g)
  }

  lemma HeldStaysWithin(w: Engine.World, e: Engine.Event, dbs: seq<DB>, host: string)
    requires Engine.Enabled(w, e) && AllHeldWithin(w, dbs, host)
    requires e.Admit? && e.grant.Some? ==> Within(dbs, host, e.grant.value)
    requires e.Regrant? ==> Within(dbs, host, e.newGrant)
    ensures AllHeldWithin(Engine.After(w, e), dbs, host)
  {
    hide Within, Registry.Register, Registry.Close;
  }

  // The panel's database went through these states, and every grant presented was issued in one.
  ghost predicate FromPanel(s: Settings, mac: string -> string, dbs: seq<DB>, host: string, es: seq<Engine.Event>) {
    && Grant.IsMac(mac) && Config.Clean(host)
    && (forall db :: db in dbs ==> Ownership.Inv(s, db))
    && (forall e :: e in es ==> Presents(mac, e, dbs, host))
  }

  lemma {:induction false} HeldIsWithin(s: Settings, mac: string -> string, es: seq<Engine.Event>, dbs: seq<DB>,
                                        host: string)
    requires Engine.IsRun(Engine.Start(true), es) && FromPanel(s, mac, dbs, host, es)
    ensures AllHeldWithin(Engine.Exec(Engine.Start(true), es), dbs, host)
  {
    hide Grant.IsMac, Config.Clean, Ownership.Inv, Reads, Within, AllHeldWithin, Engine.After, Engine.Enabled;
    if es == [] {
      NothingHeld(dbs, host);
    } else {
      var before, e := es[..|es| - 1], es[|es| - 1];
      HeldIsWithin(s, mac, before, dbs, host);
      assert e in es && Presents(mac, e, dbs, host);
      if e.Admit? && e.grant.Some? {
        ReadIsWithin(s, mac, dbs, host, e.id, e.grant.value);
      }
      if e.Regrant? {
        ReadIsWithin(s, mac, dbs, host, e.newGrant.cn, e.newGrant);
      }
      HeldStaysWithin(Engine.Exec(Engine.Start(true), before), e, dbs, host);
    }
  }

  lemma NothingHeld(dbs: seq<DB>, host: string)
    ensures AllHeldWithin(Engine.Start(true), dbs, host)
  {
  }

  lemma WiderAuthorizes(g: Grant.Grant, h: Grant.Grant, p: ProxySpec.Spec)
    requires Narrower(g, h) && Registry.Unauthorized(Text.Some(g), p).None?
    ensures Registry.Unauthorized(Text.Some(h), p).None?
  {
    Isolation.NoneForbidden(g, ProxySpec.Hosts(p));
    Isolation.NoneForbidden(h, ProxySpec.Hosts(p));
  }

  // Every registration lies within what the panel gave its identity at some time.
  lemma RegistrationOrigin(s: Settings, mac: string -> string, es: seq<Engine.Event>, dbs: seq<DB>, host: string,
                           k: nat, n: string) returns (i: nat, a: nat)
    requires Engine.IsRun(Engine.Start(true), es) && FromPanel(s, mac, dbs, host, es)
    requires Engine.Has(Engine.Exec(Engine.Start(true), es).conns, k, n)
    ensures var c := Engine.Exec(Engine.Start(true), es).conns[k];
      && i < |dbs| && c.sess.who.id == Config.AgentCn(a)
      && Registry.Unauthorized(Text.Some(ScopeOf(dbs[i], a, host)), c.sess.regs[n].spec).None?
  {
    hide Engine.IsRun, Engine.Exec, FromPanel, ScopeOf, Registry.Unauthorized;
    HeldIsWithin(s, mac, es, dbs, host);
    Engine.AuthorizationHistory(es, k, n);
    var c := Engine.Exec(Engine.Start(true), es).conns[k];
    var g :| g in c.held && g.cn == c.sess.who.id
      && Registry.Unauthorized(Text.Some(g), c.sess.regs[n].spec).None?;
    assert Within(dbs, host, g);
    i, a :| 0 <= i < |dbs| && Narrower(g, ScopeOf(dbs[i], a, host));
    WiderAuthorizes(g, ScopeOf(dbs[i], a, host), c.sess.regs[n].spec);
    assert g.cn == Config.AgentCn(a) by { ScopeCn(dbs[i], a, host); }
  }

  lemma ScopeCn(db: DB, a: nat, host: string)
    ensures ScopeOf(db, a, host).cn == Config.AgentCn(a)
  {
  }

  lemma AuthorizedHosts(g: Grant.Grant, p: ProxySpec.Spec, h: string)
    requires Registry.Unauthorized(Text.Some(g), p).None? && h in Registry.WebHosts(p)
    ensures h in g.hosts
  {
    Isolation.NoneForbidden(g, ProxySpec.Hosts(p));
  }

  // Whoever a host is routed for, or a port bound for, owned it in one of the states; this does
  // not depend on a registration that still stands behind the entry.
  ghost predicate RouteWithin(dbs: seq<DB>, host: string, h: string, r: Registry.Ref) {
    exists i, a :: 0 <= i < |dbs| && r.owner.id == Config.AgentCn(a) && h in Isolation.OwnedHosts(dbs[i], a, host)
  }

  ghost predicate SocketWithin(dbs: seq<DB>, sock: Registry.Sock, r: Registry.Ref) {
    exists i, a :: 0 <= i < |dbs| && r.owner.id == Config.AgentCn(a) && sock.port in Isolation.OwnedPorts(dbs[i], a)
  }

  ghost predicate TablesWithin(sh: Registry.Shared, dbs: seq<DB>, host: string) {
    && (forall h :: h in sh.vhosts ==> RouteWithin(dbs, host, h, sh.vhosts[h]))
    && (forall s :: s in sh.bound ==> SocketWithin(dbs, s, sh.bound[s]))
  }

  lemma AuthorizedWithin(dbs: seq<DB>, host: string, g: Grant.Grant, who: Registry.Owner, p: ProxySpec.Spec)
    requires Within(dbs, host, g) && g.cn == who.id && Registry.Unauthorized(Text.Some(g), p).None?
    ensures forall h :: h in Registry.WebHosts(p) ==> RouteWithin(dbs, host, h, Registry.Ref(who, p))
    ensures ProxySpec.IsPortType(p.typ) ==> SocketWithin(dbs, Registry.SockOf(p), Registry.Ref(who, p))
  {
    hide Isolation.OwnedHosts, Isolation.OwnedPorts, Config.AgentCn, Registry.FirstForbidden;
    var i, a :| 0 <= i < |dbs| && Narrower(g, ScopeOf(dbs[i], a, host));
    forall h | h in Registry.WebHosts(p)
      ensures RouteWithin(dbs, host, h, Registry.Ref(who, p))
    {
      AuthorizedHosts(g, p, h);
    }
  }

  lemma AcceptStaysWithin(sh: Registry.Shared, who: Registry.Owner, p: ProxySpec.Spec, dbs: seq<DB>, host: string)
    requires TablesWithin(sh, dbs, host)
    requires forall h :: h in Registry.WebHosts(p) ==> RouteWithin(dbs, host, h, Registry.Ref(who, p))
    requires ProxySpec.IsPortType(p.typ) ==> SocketWithin(dbs, Registry.SockOf(p), Registry.Ref(who, p))
    ensures TablesWithin(Registry.Accept(sh, who, p), dbs, host)
  {
    hide RouteWithin, SocketWithin;
  }

  lemma CloseStaysWithin(sh: Registry.Shared, who: Registry.Owner, e: Registry.Entry, dbs: seq<DB>, host: string)
    requires TablesWithin(sh, dbs, host)
    ensures TablesWithin(Registry.Close(sh, who, e), dbs, host)
  {
    hide RouteWithin, SocketWithin;
  }

  lemma TablesStayWithin(w: Engine.World, e: Engine.Event, dbs: seq<DB>, host: string)
    requires Engine.Base(w) && w.secured && Engine.Enabled(w, e)
    requires AllHeldWithin(w, dbs, host) && TablesWithin(w.sh, dbs, host)
    ensures TablesWithin(Engine.After(w, e).sh, dbs, host)
  {
    hide Within, TablesWithin, Engine.BooksOk, Engine.ClientsOk, Engine.OwnersOk, Registry.Close, Registry.Accept,
         Registry.Unauthorized;
    if e.Add? && Engine.Accepted(w, e.k, e.p) {
      var c := w.conns[e.k];
      assert Engine.ConnOk(w.secured, e.k, c);
      Reload.RefusedExactlyWhen(w.sh, c.sess.who, c.sess.grant, e.p);
      assert c.sess.grant == Text.Some(c.sess.grant.value);
      AuthorizedWithin(dbs, host, c.sess.grant.value, c.sess.who, e.p);
      AcceptStaysWithin(w.sh, c.sess.who, e.p, dbs, host);
      Engine.AddFiles(w, e.k, e.p);
    } else if e.Add? {
      Engine.AddRefused(w, e.k, e.p);
    } else if e.Remove? {
      CloseStaysWithin(w.sh, w.conns[e.k].sess.who, w.conns[e.k].sess.regs[e.n], dbs, host);
    }
  }

  lemma {:induction false} TablesAreWithin(s: Settings, mac: string -> string, es: seq<Engine.Event>, dbs: seq<DB>,
                                           host: string)
    requires Engine.IsRun(Engine.Start(true), es) && FromPanel(s, mac, dbs, host, es)
    ensures TablesWithin(Engine.Exec(Engine.Start(true), es).sh, dbs, host)
  {
    hide Grant.IsMac, Config.Clean, Ownership.Inv, Presents, TablesWithin, AllHeldWithin, Engine.After, Engine.Enabled,
         Engine.Base;
    if es == [] {
      EmptyTables(dbs, host);
    } else {
      var before, e := es[..|es| - 1], es[|es| - 1];
      TablesAreWithin(s, mac, before, dbs, host);
      HeldIsWithin(s, mac, before, dbs, host);
      Engine.ReachableBase(true, before);
      Engine.SecuredIsConstant(true, before);
      TablesStayWithin(Engine.Exec(Engine.Start(true), before), e, dbs, host);
    }
  }

  lemma EmptyTables(dbs: seq<DB>, host: string)
    ensures TablesWithin(Engine.Start(true).sh, dbs, host)
  {
  }

  // Every routed host leads to an agent that owned the host when its grant was issued.
  lemma RouteOrigin(s: Settings, mac: string -> string, es: seq<Engine.Event>, dbs: seq<DB>, host: string, h: string)
      returns (i: nat, a: nat)
    requires Engine.IsRun(Engine.Start(true), es) && FromPanel(s, mac, dbs, host, es)
    requires h in Engine.Exec(Engine.Start(true), es).sh.vhosts
    ensures i < |dbs| && h in Isolation.OwnedHosts(dbs[i], a, host)
    ensures Engine.Exec(Engine.Start(true), es).sh.vhosts[h].owner.id == Config.AgentCn(a)
  {
    hide Engine.IsRun, Engine.Exec, FromPanel, Isolation.OwnedHosts, Config.AgentCn;
    TablesAreWithin(s, mac, es, dbs, host);
    var r := Engine.Exec(Engine.Start(true), es).sh.vhosts[h];
    assert RouteWithin(dbs, host, h, r);
    i, a :| 0 <= i < |dbs| && r.owner.id == Config.AgentCn(a) && h in Isolation.OwnedHosts(dbs[i], a, host);
  }

  // Every bound port serves an agent that owned the port when its grant was issued.
  lemma SocketOrigin(s: Settings, mac: string -> string, es: seq<Engine.Event>, dbs: seq<DB>, host: string,
                     sock: Registry.Sock) returns (i: nat, a: nat)
    requires Engine.IsRun(Engine.Start(true), es) && FromPanel(s, mac, dbs, host, es)
    requires sock in Engine.Exec(Engine.Start(true), es).sh.bound
    ensures i < |dbs| && sock.port in Isolation.OwnedPorts(dbs[i], a)
    ensures Engine.Exec(Engine.Start(true), es).sh.bound[sock].owner.id == Config.AgentCn(a)
  {
    hide Engine.IsRun, Engine.Exec, FromPanel, Isolation.OwnedPorts, Config.AgentCn;
    TablesAreWithin(s, mac, es, dbs, host);
    var r := Engine.Exec(Engine.Start(true), es).sh.bound[sock];
    assert SocketWithin(dbs, sock, r);
    i, a :| 0 <= i < |dbs| && r.owner.id == Config.AgentCn(a) && sock.port in Isolation.OwnedPorts(dbs[i], a);
  }

  // --- while tunnels, agents and labels stand still ---

  // The same tunnels, agents and labels; quotas and suspensions may differ.
  ghost predicate SameTenants(d: DB, db: DB) {
    && d.tunnels == db.tunnels && d.agents == db.agents && d.teams.Keys == db.teams.Keys
    && forall t :: t in db.teams ==> d.teams[t].subLabel == db.teams[t].subLabel
  }

  lemma SameTenantsOwnTheSame(d: DB, db: DB, a: nat, host: string)
    requires SameTenants(d, db)
    ensures Isolation.OwnedHosts(d, a, host) == Isolation.OwnedHosts(db, a, host)
    ensures Isolation.OwnedPorts(d, a) == Isolation.OwnedPorts(db, a)
  {
    hide Config.Fqdns, Text.Lower;
    assert LabelOf(d, a) == LabelOf(db, a);
    hide LabelOf;
  }

  // Then the engine routes each host of a labelled tenant to the one agent whose tunnel it is,
  // and to nobody else, whatever the connections do and whichever teams are suspended meanwhile.
  lemma RoutedToItsOwner(s: Settings, mac: string -> string, rs: seq<Request>, es: seq<Engine.Event>, dbs: seq<DB>,
                         host: string, h: string, b: nat)
    requires Ownership.SettingsOk(s) && Ownership.IsRun(s, Ownership.EMPTY, rs)
    requires var db := Ownership.Run(s, Ownership.EMPTY, rs);
      && Text.Lower(host) == Text.Lower(s.apex) && h in Isolation.OwnedHosts(db, b, host)
      && (forall a :: a in db.agents ==> LabelOf(db, a).Some?)
      && (forall d :: d in dbs ==> SameTenants(d, db))
    requires Engine.IsRun(Engine.Start(true), es) && FromPanel(s, mac, dbs, host, es)
    requires h in Engine.Exec(Engine.Start(true), es).sh.vhosts
    ensures Engine.Exec(Engine.Start(true), es).sh.vhosts[h].owner.id == Config.AgentCn(b)
  {
    hide Engine.IsRun, Engine.Exec, FromPanel, Isolation.OwnedHosts, Isolation.OwnedPorts, Config.AgentCn, Ownership.Run,
         Ownership.IsRun, Ownership.Inv, LabelOf, Text.Lower, Ownership.SettingsOk, SameTenants;
    var db := Ownership.Run(s, Ownership.EMPTY, rs);
    Ownership.EmptyOk(s);
    Ownership.RunKeeps(s, Ownership.EMPTY, rs);
    var i, a := RouteOrigin(s, mac, es, dbs, host, h);
    SameTenantsOwnTheSame(dbs[i], db, a, host);
    if a != b {
      OwnerExists(s, db, a, host, h);
      OwnerExists(s, db, b, host, h);
      Isolation.OwnedHostsDisjoint(s, db, a, b, host);
      assert false;
    }
  }

  lemma OwnerExists(s: Settings, db: DB, a: nat, host: string, h: string)
    requires Ownership.Inv(s, db) && h in Isolation.OwnedHosts(db, a, host)
    ensures a in db.agents
  {
    hide Config.Fqdns, Ownership.Clash, Ownership.TunnelOk, LabelOf;
  }

  // The same for a bound port, of any agents on one node.
  lemma BoundByItsOwner(s: Settings, mac: string -> string, rs: seq<Request>, es: seq<Engine.Event>, dbs: seq<DB>,
                        host: string, sock: Registry.Sock, b: nat)
    requires Ownership.SettingsOk(s) && Ownership.IsRun(s, Ownership.EMPTY, rs)
    requires var db := Ownership.Run(s, Ownership.EMPTY, rs);
      && sock.port in Isolation.OwnedPorts(db, b)
      && (forall a, c :: a in db.agents && c in db.agents ==> Ownership.NodeOf(db, a) == Ownership.NodeOf(db, c))
      && (forall d :: d in dbs ==> SameTenants(d, db))
    requires Engine.IsRun(Engine.Start(true), es) && FromPanel(s, mac, dbs, host, es)
    requires sock in Engine.Exec(Engine.Start(true), es).sh.bound
    ensures Engine.Exec(Engine.Start(true), es).sh.bound[sock].owner.id == Config.AgentCn(b)
  {
    hide Engine.IsRun, Engine.Exec, FromPanel, Isolation.OwnedHosts, Isolation.OwnedPorts, Config.AgentCn, Ownership.Run,
         Ownership.IsRun, Ownership.Inv, Ownership.NodeOf, Ownership.SettingsOk, SameTenants;
    var db := Ownership.Run(s, Ownership.EMPTY, rs);
    Ownership.EmptyOk(s);
    Ownership.RunKeeps(s, Ownership.EMPTY, rs);
    var i, a := SocketOrigin(s, mac, es, dbs, host, sock);
    SameTenantsOwnTheSame(dbs[i], db, a, host);
    if a != b {
      PortOwnerExists(s, db, a, sock.port);
      PortOwnerExists(s, db, b, sock.port);
      Isolation.OwnedPortsDisjoint(s, db, a, b);
      assert false;
    }
  }

  lemma PortOwnerExists(s: Settings, db: DB, a: nat, port: int)
    requires Ownership.Inv(s, db) && port in Isolation.OwnedPorts(db, a)
    ensures a in db.agents
  {
    hide Ownership.Clash, Ownership.TunnelOk;
  }
}
