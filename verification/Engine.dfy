/**
 Runs of the whole engine. Connections are admitted, verify new grants, register and tear
 down single proxies, and leave, interleaved in any order: even a connection that has been
 evicted by a newer one of the same identity may still be registering, and a client may send one
 name twice.
 */
module Engine {
  import opened Text
  import opened ProxySpec
  import opened Registry
  import Reload
  import Grant

  // One control connection: its registrations, every grant verified on it so far, and
  // whether its handler has started to shut down.
  datatype Conn = Conn(sess: Session, held: set<Grant.Grant>, leaving: bool)

  // `clients` names the newest connection of each identity.
  datatype World = World(
    secured: bool, sh: Shared, clients: map<string, Owner>, conns: map<nat, Conn>, nextConn: nat)

  datatype Event =
    | Admit(id: string, grant: Option<Grant.Grant>)
    | Regrant(k: nat, newGrant: Grant.Grant)
    | Add(k: nat, p: Spec)
    | Remove(k: nat, n: string)
    | Leave(k: nat)
    | Finish(k: nat)

  predicate Enabled(w: World, e: Event) {
    match e
    case Admit(id, grant) => (w.secured <==> grant.Some?) && (grant.Some? ==> grant.value.cn == id)
    case Regrant(k, g) => w.secured && k in w.conns && !w.conns[k].leaving && g.cn == w.conns[k].sess.who.id
    case Add(k, p) => k in w.conns && !w.conns[k].leaving
    case Remove(k, n) => k in w.conns && n in w.conns[k].sess.regs
    case Leave(k) => k in w.conns && !w.conns[k].leaving
    case Finish(k) => k in w.conns && w.conns[k].leaving && w.conns[k].sess.regs == map[]
  }

  // The state with connection k and the tables replaced.
  function WithSession(w: World, k: nat, sh: Shared, se: Session): World
    requires k in w.conns
  {
    w.(sh := sh, conns := w.conns[k := w.conns[k].(sess := se)])
  }

  function After(w: World, e: Event): World
    requires Enabled(w, e)
  {
    match e
    case Admit(id, grant) =>
      var who := Owner(w.nextConn, id);
      var held := if grant.Some? then {grant.value} else {};
      w.(clients := w.clients[id := who],
         conns := w.conns[w.nextConn := Conn(Session(who, grant, map[]), held, false)],
         nextConn := w.nextConn + 1)
    case Regrant(k, g) =>
      var c := w.conns[k];
      w.(conns := w.conns[k := c.(sess := c.sess.(grant := Some(g)), held := c.held + {g})])
    case Add(k, p) =>
      var o := Register(w.sh, w.conns[k].sess, p);
      WithSession(w, k, o.sh, o.se)
    case Remove(k, n) =>
      var se := w.conns[k].sess;
      WithSession(w, k, Close(w.sh, se.who, se.regs[n]), se.(regs := se.regs - {n}))
    case Leave(k) =>
      var who := w.conns[k].sess.who;
      var current := who.id in w.clients && w.clients[who.id] == who;
      w.(clients := if current then w.clients - {who.id} else w.clients,
         conns := w.conns[k := w.conns[k].(leaving := true)])
    case Finish(k) =>
      w.(conns := w.conns - {k})
  }

  function Start(secured: bool): World {
    World(secured, Shared(map[], map[], map[], {}, 0), map[], map[], 0)
  }

  ghost predicate IsRun(w: World, es: seq<Event>)
    decreases |es|, 0
  {
    es == [] ||
    var last := |es| - 1;
    IsRun(w, es[..last]) && Enabled(Exec(w, es[..last]), es[last])
  }

  ghost function Exec(w: World, es: seq<Event>): World
    requires IsRun(w, es)
    decreases |es|, 1
  {
    if es == [] then w
    else
      var last := |es| - 1;
      After(Exec(w, es[..last]), es[last])
  }

  // --- the invariant ---

  predicate Has(conns: map<nat, Conn>, k: nat, n: string) {
    k in conns && n in conns[k].sess.regs
  }

  function At(conns: map<nat, Conn>, k: nat, n: string): Entry
    requires Has(conns, k, n)
  {
    conns[k].sess.regs[n]
  }

  // The entry stands for a registration that exists right now.
  predicate RefLive(conns: map<nat, Conn>, r: Ref) {
    && Has(conns, r.owner.conn, r.spec.name)
    && conns[r.owner.conn].sess.who == r.owner
    && At(conns, r.owner.conn, r.spec.name).spec == r.spec
  }

  // Every route leads to a live registration that lists the host.
  ghost predicate RoutesOk(vhosts: map<string, Ref>, conns: map<nat, Conn>) {
    forall h :: h in vhosts ==> RefLive(conns, vhosts[h]) && h in WebHosts(vhosts[h].spec)
  }

  // Every bound socket belongs to a live registration of that port.
  ghost predicate SocksOk(bound: map<Sock, Ref>, conns: map<nat, Conn>) {
    forall s :: s in bound ==>
      && RefLive(conns, bound[s])
      && IsPortType(bound[s].spec.typ) && SockOf(bound[s].spec) == s
  }

  // The tcp map mirrors the bound tcp sockets.
  ghost predicate TcpOk(tcp: map<int, Ref>, bound: map<Sock, Ref>) {
    forall q :: (q in tcp <==> Sock(false, q) in bound) && (q in tcp ==> tcp[q] == bound[Sock(false, q)])
  }

  // A registration is filed under its name, has not been torn down, and holds its socket.
  ghost predicate EntryOk(sh: Shared, who: Owner, n: string, e: Entry) {
    && e.spec.name == n
    && e.ticket < sh.next && e.ticket !in sh.ran
    && (IsPortType(e.spec.typ) ==>
          SockOf(e.spec) in sh.bound && sh.bound[SockOf(e.spec)] == Ref(who, e.spec))
  }

  ghost predicate EntriesOk(sh: Shared, conns: map<nat, Conn>) {
    forall k, n :: Has(conns, k, n) ==> EntryOk(sh, conns[k].sess.who, n, At(conns, k, n))
  }

  ghost predicate TicketsOk(conns: map<nat, Conn>) {
    forall k, n, k', n' ::
      Has(conns, k, n) && Has(conns, k', n') && At(conns, k, n).ticket == At(conns, k', n').ticket
      ==> k == k' && n == n'
  }

  ghost predicate RanOk(sh: Shared) {
    forall t :: t in sh.ran ==> t < sh.next
  }

  // What holds whatever names the clients send: registrations are in the books, hold their
  // sockets and have not been torn down.
  ghost predicate BooksOk(sh: Shared, conns: map<nat, Conn>) {
    TcpOk(sh.tcp, sh.bound) && EntriesOk(sh, conns) && TicketsOk(conns) && RanOk(sh)
  }

  ghost predicate Authorized(held: set<Grant.Grant>, p: Spec) {
    exists g :: g in held && Unauthorized(Some(g), p).None?
  }

  // Every grant a connection holds is its own, and with grants enforced every one of its
  // registrations was inside some grant verified on that connection.
  ghost predicate ConnOk(secured: bool, k: nat, c: Conn) {
    && c.sess.who.conn == k
    && (forall g :: g in c.held ==> g.cn == c.sess.who.id)
    && (secured ==>
          && c.sess.grant.Some? && c.sess.grant.value in c.held
          && forall n :: n in c.sess.regs ==> Authorized(c.held, c.sess.regs[n].spec))
  }

  ghost predicate ConnsOk(w: World) {
    forall k :: k in w.conns ==> k < w.nextConn && ConnOk(w.secured, k, w.conns[k])
  }

  // The clients map names live connections of that identity.
  ghost predicate ClientsOk(w: World) {
    forall id :: id in w.clients ==>
      && w.clients[id].id == id && w.clients[id].conn in w.conns
      && w.conns[w.clients[id].conn].sess.who == w.clients[id]
      && !w.conns[w.clients[id].conn].leaving
  }

  // No socket is bound for a connection that is still to come.
  ghost predicate OwnersOk(w: World) {
    forall s :: s in w.sh.bound ==> w.sh.bound[s].owner.conn < w.nextConn
  }

  ghost predicate Base(w: World) {
    BooksOk(w.sh, w.conns) && ConnsOk(w) && ClientsOk(w) && OwnersOk(w)
  }

  // The tables lead to live registrations only.
  ghost predicate TablesOk(w: World) {
    RoutesOk(w.sh.vhosts, w.conns) && SocksOk(w.sh.bound, w.conns)
  }

  ghost predicate Inv(w: World) {
    Base(w) && TablesOk(w)
  }

  // --- events that leave registrations alone ---

  predicate Quiet(e: Event) {
    !e.Add? && !e.Remove?
  }

  ghost predicate SameEntries(conns: map<nat, Conn>, conns': map<nat, Conn>) {
    forall k, n ::
      && (Has(conns, k, n) <==> Has(conns', k, n))
      && (Has(conns, k, n) ==>
            At(conns, k, n) == At(conns', k, n) && conns[k].sess.who == conns'[k].sess.who)
  }

  lemma QuietKeepsEntries(w: World, e: Event)
    requires ConnsOk(w) && Enabled(w, e) && Quiet(e)
    ensures SameEntries(w.conns, After(w, e).conns) && After(w, e).sh == w.sh && After(w, e).nextConn >= w.nextConn
  {
    hide ConnOk;
    assert w.nextConn !in w.conns;
  }

  lemma SameEntriesKeep(sh: Shared, conns: map<nat, Conn>, conns': map<nat, Conn>)
    requires SameEntries(conns, conns')
    ensures BooksOk(sh, conns) ==> BooksOk(sh, conns')
    ensures RoutesOk(sh.vhosts, conns) && SocksOk(sh.bound, conns) ==>
              RoutesOk(sh.vhosts, conns') && SocksOk(sh.bound, conns')
  {
    assert forall r :: RefLive(conns, r) ==> RefLive(conns', r);
    hide RefLive, TcpOk, RanOk;
  }

  lemma AdmitKeeps(w: World, e: Event)
    requires ConnsOk(w) && ClientsOk(w) && e.Admit? && Enabled(w, e)
    ensures ConnsOk(After(w, e)) && ClientsOk(After(w, e))
  {
    assert w.nextConn !in w.conns;
  }

  lemma RegrantKeeps(w: World, e: Event)
    requires ConnsOk(w) && ClientsOk(w) && e.Regrant? && Enabled(w, e)
    ensures ConnsOk(After(w, e)) && ClientsOk(After(w, e))
  {
    hide Unauthorized;
    var (c, c') := (w.conns[e.k], After(w, e).conns[e.k]);
    forall n | n in c.sess.regs && w.secured
      ensures Authorized(c'.held, c.sess.regs[n].spec)
    {
      assert ConnOk(w.secured, e.k, c);
      var g :| g in c.held && Unauthorized(Some(g), c.sess.regs[n].spec).None?;
      assert g in c'.held;
    }
  }

  lemma LeaveKeepsConns(w: World, e: Event)
    requires ConnsOk(w) && e.Leave? && Enabled(w, e)
    ensures ConnsOk(After(w, e))
  {
    hide Authorized;
    assert ConnOk(w.secured, e.k, w.conns[e.k]);
  }

  lemma LeaveKeepsClients(w: World, e: Event)
    requires ConnsOk(w) && ClientsOk(w) && e.Leave? && Enabled(w, e)
    ensures ClientsOk(After(w, e))
  {
    assert ConnOk(w.secured, e.k, w.conns[e.k]);
    hide ConnsOk, ConnOk;
  }

  lemma FinishKeeps(w: World, e: Event)
    requires ConnsOk(w) && ClientsOk(w) && e.Finish? && Enabled(w, e)
    ensures ConnsOk(After(w, e)) && ClientsOk(After(w, e))
  {
    hide Authorized;
  }

  lemma QuietKeepsConns(w: World, e: Event)
    requires ConnsOk(w) && ClientsOk(w) && Enabled(w, e) && Quiet(e)
    ensures ConnsOk(After(w, e)) && ClientsOk(After(w, e))
  {
    hide ConnsOk, ClientsOk, Enabled, After;
    match e
    case Admit(_, _) => AdmitKeeps(w, e);
    case Regrant(_, _) => RegrantKeeps(w, e);
    case Leave(_) =>
      LeaveKeepsConns(w, e);
      LeaveKeepsClients(w, e);
    case Finish(_) => FinishKeeps(w, e);
  }

  lemma QuietKeeps(w: World, e: Event)
    requires Base(w) && Enabled(w, e) && Quiet(e)
    ensures Base(After(w, e)) && (TablesOk(w) ==> TablesOk(After(w, e)))
  {
    QuietKeepsEntries(w, e);
    QuietKeepsConns(w, e);
    hide BooksOk, RoutesOk, SocksOk, ConnsOk, ClientsOk, After, Enabled, SameEntries;
    SameEntriesKeep(w.sh, w.conns, After(w, e).conns);
  }

  // --- registering ---

  lemma AddRefused(w: World, k: nat, p: Spec)
    requires Enabled(w, Add(k, p))
    requires !Accepted(w, k, p)
    ensures After(w, Add(k, p)) == w
  {
    assert w.conns[k := w.conns[k]] == w.conns;
  }

  // One registration more, or one in place of another of that name.
  ghost predicate Filed(conns: map<nat, Conn>, conns': map<nat, Conn>, k: nat, e: Entry) {
    var n := e.spec.name;
    && k in conns && Has(conns', k, n) && At(conns', k, n) == e
    && conns'.Keys == conns.Keys
    && (forall j :: j in conns ==> conns'[j].sess.who == conns[j].sess.who)
    && (forall j, m :: j != k || m != n ==> (Has(conns', j, m) <==> Has(conns, j, m)))
    && (forall j, m :: (j != k || m != n) && Has(conns, j, m) ==> At(conns', j, m) == At(conns, j, m))
  }

  lemma AddFiles(w: World, k: nat, p: Spec)
    requires Enabled(w, Add(k, p)) && Accepted(w, k, p)
    ensures var se := w.conns[k].sess;
            var w' := After(w, Add(k, p));
            w' == WithSession(w, k, Accept(w.sh, se.who, p), se.(regs := se.regs[p.name := Entry(p, w.sh.next)]))
            && Filed(w.conns, w'.conns, k, Entry(p, w.sh.next))
  {
    hide Refusal, Accept;
  }

  predicate Accepted(w: World, k: nat, p: Spec)
    requires k in w.conns
  {
    Refusal(w.sh, w.conns[k].sess.who, w.conns[k].sess.grant, p).None?
  }

  // What the entry stands for is replaced.
  predicate Replaces(k: nat, p: Spec, r: Ref) {
    r.owner.conn == k && r.spec.name == p.name
  }

  lemma FiledLive(conns: map<nat, Conn>, conns': map<nat, Conn>, k: nat, e: Entry)
    requires Filed(conns, conns', k, e) && conns[k].sess.who.conn == k
    ensures forall r :: RefLive(conns', r) <==>
      r == Ref(conns[k].sess.who, e.spec) || (RefLive(conns, r) && !Replaces(k, e.spec, r))
  {
  }

  // What a registration needs in order to be taken on.
  ghost predicate Vacant(sh: Shared, p: Spec) {
    IsPortType(p.typ) ==> SockOf(p) !in sh.bound
  }

  lemma AcceptKeepsTcp(sh: Shared, who: Owner, p: Spec)
    requires TcpOk(sh.tcp, sh.bound) && Vacant(sh, p)
    ensures var sh' := Accept(sh, who, p); TcpOk(sh'.tcp, sh'.bound)
  {
  }

  lemma AcceptKeepsEntries(sh: Shared, conns: map<nat, Conn>, conns': map<nat, Conn>, k: nat, p: Spec)
    requires EntriesOk(sh, conns) && TicketsOk(conns) && RanOk(sh)
    requires Filed(conns, conns', k, Entry(p, sh.next)) && Vacant(sh, p)
    ensures EntriesOk(Accept(sh, conns[k].sess.who, p), conns') && TicketsOk(conns')
  {
    var sh' := Accept(sh, conns[k].sess.who, p);
    forall j, n | Has(conns', j, n)
      ensures EntryOk(sh', conns'[j].sess.who, n, At(conns', j, n))
      ensures j != k || n != p.name ==> At(conns', j, n).ticket < sh.next
    {
      if j != k || n != p.name {
        assert EntryOk(sh, conns[j].sess.who, n, At(conns, j, n));
      }
    }
  }

  lemma AcceptKeepsRan(sh: Shared, who: Owner, p: Spec)
    requires RanOk(sh)
    ensures RanOk(Accept(sh, who, p))
  {
  }

  lemma AddKeepsConns(w: World, k: nat, p: Spec)
    requires Base(w) && Enabled(w, Add(k, p)) && Accepted(w, k, p)
    ensures var w' := After(w, Add(k, p)); ConnsOk(w') && ClientsOk(w') && OwnersOk(w')
  {
    hide Refusal, Unauthorized, BooksOk;
    AddFiles(w, k, p);
    var (c, c') := (w.conns[k], After(w, Add(k, p)).conns[k]);
    assert ConnOk(w.secured, k, c);
    Reload.RefusedExactlyWhen(w.sh, c.sess.who, c.sess.grant, p);
    if w.secured {
      forall n | n in c'.sess.regs
        ensures Authorized(c'.held, c'.sess.regs[n].spec)
      {
        if n != p.name {
          assert Authorized(c.held, c.sess.regs[n].spec);
        } else {
          assert c.sess.grant == Some(c.sess.grant.value);
        }
      }
    }
  }

  lemma AddKeepsBase(w: World, k: nat, p: Spec)
    requires Base(w) && Enabled(w, Add(k, p)) && Accepted(w, k, p)
    ensures Base(After(w, Add(k, p)))
  {
    AddFiles(w, k, p);
    AddKeepsConns(w, k, p);
    var se := w.conns[k].sess;
    Reload.RefusedExactlyWhen(w.sh, se.who, se.grant, p);
    hide Refusal, Accept, TcpOk, EntriesOk, TicketsOk, RanOk, ConnsOk, ClientsOk, OwnersOk, Filed;
    AcceptKeepsTcp(w.sh, se.who, p);
    AcceptKeepsEntries(w.sh, w.conns, After(w, Add(k, p)).conns, k, p);
    AcceptKeepsRan(w.sh, se.who, p);
  }

  // --- registering over a name that is still registered ---

  // The registration that a proxy takes the place of holds no socket, and every route that it
  // still has is taken over.
  predicate Harmless(w: World, e: Event)
    requires Enabled(w, e)
  {
    e.Add? && Accepted(w, e.k, e.p) && e.p.name in w.conns[e.k].sess.regs ==>
      var (who, prior) := (w.conns[e.k].sess.who, w.conns[e.k].sess.regs[e.p.name].spec);
      && !IsPortType(prior.typ)
      && forall h :: h in w.sh.vhosts && w.sh.vhosts[h] == Ref(who, prior) ==> h in WebHosts(e.p)
  }

  // The entries that a proxy takes the place of are those of the registration of that name.
  lemma ReplacedAreOfPrior(w: World, k: nat, p: Spec, r: Ref)
    requires Base(w) && RefLive(w.conns, r) && k in w.conns
    ensures Replaces(k, p, r) <==>
      p.name in w.conns[k].sess.regs && r == Ref(w.conns[k].sess.who, w.conns[k].sess.regs[p.name].spec)
  {
    hide TcpOk, TicketsOk, RanOk, ClientsOk, OwnersOk, Authorized;
    assert ConnOk(w.secured, k, w.conns[k]);
    if p.name in w.conns[k].sess.regs {
      assert EntryOk(w.sh, w.conns[k].sess.who, p.name, At(w.conns, k, p.name));
    }
  }

  lemma AddKeepsRoutesIff(w: World, k: nat, p: Spec)
    requires Inv(w) && Enabled(w, Add(k, p)) && Accepted(w, k, p)
    ensures var w' := After(w, Add(k, p));
      RoutesOk(w'.sh.vhosts, w'.conns) <==>
      forall h :: h in w.sh.vhosts && Replaces(k, p, w.sh.vhosts[h]) ==> h in WebHosts(p)
  {
    var who := w.conns[k].sess.who;
    assert ConnOk(w.secured, k, w.conns[k]);
    AddFiles(w, k, p);
    var w' := After(w, Add(k, p));
    FiledLive(w.conns, w'.conns, k, Entry(p, w.sh.next));
    hide Refusal, RefLive, SocksOk, Base, After, Filed;
    assert w'.sh.vhosts == if IsWebType(p.typ) then Claim(w.sh.vhosts, HostSet(p), Ref(who, p)) else w.sh.vhosts;
    forall h | h in w.sh.vhosts && Replaces(k, p, w.sh.vhosts[h]) && h !in WebHosts(p)
      ensures !RoutesOk(w'.sh.vhosts, w'.conns)
    {
      assert h in w'.sh.vhosts && w'.sh.vhosts[h] == w.sh.vhosts[h];
    }
  }

  lemma AddKeepsSocketsIff(w: World, k: nat, p: Spec)
    requires Inv(w) && Enabled(w, Add(k, p)) && Accepted(w, k, p)
    ensures var w' := After(w, Add(k, p));
      SocksOk(w'.sh.bound, w'.conns) <==> forall s :: s in w.sh.bound ==> !Replaces(k, p, w.sh.bound[s])
  {
    var who := w.conns[k].sess.who;
    assert ConnOk(w.secured, k, w.conns[k]);
    Reload.RefusedExactlyWhen(w.sh, who, w.conns[k].sess.grant, p);
    AddFiles(w, k, p);
    var w' := After(w, Add(k, p));
    FiledLive(w.conns, w'.conns, k, Entry(p, w.sh.next));
    hide Refusal, RefLive, RoutesOk, Base, After, Filed;
    assert w'.sh.bound == if IsPortType(p.typ) then w.sh.bound[SockOf(p) := Ref(who, p)] else w.sh.bound;
    forall s | s in w.sh.bound && Replaces(k, p, w.sh.bound[s])
      ensures !SocksOk(w'.sh.bound, w'.conns)
    {
      assert s in w'.sh.bound && w'.sh.bound[s] == w.sh.bound[s];
    }
  }

  lemma HarmlessIff(w: World, k: nat, p: Spec)
    requires Inv(w) && Enabled(w, Add(k, p)) && Accepted(w, k, p)
    ensures Harmless(w, Add(k, p)) <==>
      && (forall s :: s in w.sh.bound ==> !Replaces(k, p, w.sh.bound[s]))
      && (forall h :: h in w.sh.vhosts && Replaces(k, p, w.sh.vhosts[h]) ==> h in WebHosts(p))
  {
    var se := w.conns[k].sess;
    if p.name in se.regs {
      assert EntryOk(w.sh, se.who, p.name, At(w.conns, k, p.name));
      assert ConnOk(w.secured, k, w.conns[k]);
    }
    hide Refusal, RefLive, Replaces, Base;
    forall s | s in w.sh.bound
      ensures Replaces(k, p, w.sh.bound[s]) <==>
        p.name in se.regs && w.sh.bound[s] == Ref(se.who, se.regs[p.name].spec)
    {
      assert RefLive(w.conns, w.sh.bound[s]);
      ReplacedAreOfPrior(w, k, p, w.sh.bound[s]);
    }
    forall h | h in w.sh.vhosts
      ensures Replaces(k, p, w.sh.vhosts[h]) <==>
        p.name in se.regs && w.sh.vhosts[h] == Ref(se.who, se.regs[p.name].spec)
    {
      assert RefLive(w.conns, w.sh.vhosts[h]);
      ReplacedAreOfPrior(w, k, p, w.sh.vhosts[h]);
    }
  }

  // Taking a proxy on keeps the tables in agreement with the registrations if and only if it is
  // harmless to a registration of the same name.
  lemma AddKeepsTablesIff(w: World, k: nat, p: Spec)
    requires Inv(w) && Enabled(w, Add(k, p)) && Accepted(w, k, p)
    ensures TablesOk(After(w, Add(k, p))) <==> Harmless(w, Add(k, p))
  {
    AddKeepsRoutesIff(w, k, p);
    AddKeepsSocketsIff(w, k, p);
    HarmlessIff(w, k, p);
    hide Inv, After, Harmless, Accepted, RoutesOk, SocksOk, Replaces;
  }

  // --- tearing down ---

  // Exactly one registration less.
  ghost predicate OneLess(conns: map<nat, Conn>, conns': map<nat, Conn>, k: nat, n: string) {
    && Has(conns, k, n)
    && conns'.Keys == conns.Keys
    && (forall j :: j in conns ==> conns'[j].sess.who == conns[j].sess.who)
    && (forall j, m :: Has(conns', j, m) <==> Has(conns, j, m) && (j != k || m != n))
    && (forall j, m :: Has(conns', j, m) ==> At(conns', j, m) == At(conns, j, m))
  }

  lemma RemoveIsOneLess(w: World, k: nat, n: string)
    requires Enabled(w, Remove(k, n))
    ensures var w' := After(w, Remove(k, n));
            OneLess(w.conns, w'.conns, k, n)
            && w'.sh == Close(w.sh, w.conns[k].sess.who, w.conns[k].sess.regs[n])
  {
    hide Close;
  }

  lemma LessLive(conns: map<nat, Conn>, conns': map<nat, Conn>, k: nat, n: string)
    requires OneLess(conns, conns', k, n)
    ensures forall r :: RefLive(conns, r) && r != Ref(conns[k].sess.who, At(conns, k, n).spec) ==> RefLive(conns', r)
  {
  }

  lemma CloseKeepsTables(sh: Shared, conns: map<nat, Conn>, conns': map<nat, Conn>, k: nat, n: string)
    requires RoutesOk(sh.vhosts, conns) && SocksOk(sh.bound, conns) && OneLess(conns, conns', k, n)
    ensures var sh' := Close(sh, conns[k].sess.who, At(conns, k, n));
            RoutesOk(sh'.vhosts, conns') && SocksOk(sh'.bound, conns')
  {
    LessLive(conns, conns', k, n);
    hide RefLive, OneLess;
  }

  lemma CloseKeepsTcp(sh: Shared, conns: map<nat, Conn>, k: nat, n: string)
    requires TcpOk(sh.tcp, sh.bound) && EntriesOk(sh, conns) && Has(conns, k, n)
    ensures var sh' := Close(sh, conns[k].sess.who, At(conns, k, n)); TcpOk(sh'.tcp, sh'.bound)
  {
    assert EntryOk(sh, conns[k].sess.who, n, At(conns, k, n));
    hide EntriesOk;
  }

  lemma CloseKeepsEntries(sh: Shared, conns: map<nat, Conn>, conns': map<nat, Conn>, k: nat, n: string)
    requires BooksOk(sh, conns) && OneLess(conns, conns', k, n)
    requires forall j :: j in conns ==> conns[j].sess.who.conn == j
    ensures var sh' := Close(sh, conns[k].sess.who, At(conns, k, n));
            EntriesOk(sh', conns') && TicketsOk(conns') && RanOk(sh')
  {
    hide TcpOk, Release;
    var e := At(conns, k, n);
    var sh' := Close(sh, conns[k].sess.who, e);
    assert EntryOk(sh, conns[k].sess.who, n, e);
    forall j, m | Has(conns', j, m)
      ensures EntryOk(sh', conns'[j].sess.who, m, At(conns', j, m))
    {
      assert EntryOk(sh, conns[j].sess.who, m, At(conns, j, m));
      assert At(conns, j, m).ticket != e.ticket;
    }
  }

  lemma RemoveKeepsConns(w: World, e: Event)
    requires Base(w) && e.Remove? && Enabled(w, e)
    ensures ConnsOk(After(w, e)) && ClientsOk(After(w, e)) && OwnersOk(After(w, e))
  {
    hide BooksOk, Authorized;
    assert ConnOk(w.secured, e.k, w.conns[e.k]);
  }

  lemma RemoveKeeps(w: World, e: Event)
    requires Base(w) && e.Remove? && Enabled(w, e)
    ensures Base(After(w, e)) && (TablesOk(w) ==> TablesOk(After(w, e)))
  {
    hide Close, RoutesOk, SocksOk, TcpOk, EntriesOk, TicketsOk, RanOk, Authorized, Enabled;
    RemoveIsOneLess(w, e.k, e.n);
    RemoveKeepsConns(w, e);
    assert forall j :: j in w.conns ==> ConnOk(w.secured, j, w.conns[j]);
    var w' := After(w, e);
    CloseKeepsTcp(w.sh, w.conns, e.k, e.n);
    CloseKeepsEntries(w.sh, w.conns, w'.conns, e.k, e.n);
    if TablesOk(w) {
      CloseKeepsTables(w.sh, w.conns, w'.conns, e.k, e.n);
    }
  }

  // --- every run ---

  // Whatever the step: registrations stay in the books, hold their sockets, and are authorized.
  lemma EventKeepsBase(w: World, e: Event)
    requires Base(w) && Enabled(w, e)
    ensures Base(After(w, e))
  {
    hide Base, Enabled, After, TablesOk, Accepted;
    if e.Add? {
      AddIsEnabledFor(w, e);
      if Accepted(w, e.k, e.p) {
        AddKeepsBase(w, e.k, e.p);
      } else {
        AddRefused(w, e.k, e.p);
      }
    } else if e.Remove? {
      RemoveKeeps(w, e);
    } else {
      QuietKeeps(w, e);
    }
  }

  lemma AddIsEnabledFor(w: World, e: Event)
    requires e.Add? && Enabled(w, e)
    ensures e.k in w.conns
  {
  }

  // A step keeps the tables in agreement with the registrations if and only if it is harmless.
  lemma EventKeepsIff(w: World, e: Event)
    requires Inv(w) && Enabled(w, e)
    ensures Inv(After(w, e)) <==> Harmless(w, e)
  {
    EventKeepsBase(w, e);
    hide Base, Enabled, After, TablesOk;
    if e.Add? {
      AddIsEnabledFor(w, e);
      if Accepted(w, e.k, e.p) {
        AddKeepsTablesIff(w, e.k, e.p);
      } else {
        AddRefused(w, e.k, e.p);
      }
    } else if e.Remove? {
      RemoveKeeps(w, e);
    } else {
      QuietKeeps(w, e);
    }
  }

  lemma {:induction false} ReachableBase(secured: bool, es: seq<Event>)
    requires IsRun(Start(secured), es)
    ensures Base(Exec(Start(secured), es))
  {
    hide Base, After, Enabled;
    if es == [] {
      StartInv(secured);
    } else {
      ReachableBase(secured, es[..|es| - 1]);
      EventKeepsBase(Exec(Start(secured), es[..|es| - 1]), es[|es| - 1]);
    }
  }

  // What connection k registered in the run was harmless.
  ghost predicate TidyBy(w: World, es: seq<Event>, k: nat)
    requires IsRun(w, es)
  {
    es == [] ||
    var last := |es| - 1;
    && TidyBy(w, es[..last], k)
    && (es[last].Add? && es[last].k == k ==> Harmless(Exec(w, es[..last]), es[last]))
  }

  ghost predicate Tidy(w: World, es: seq<Event>)
    requires IsRun(w, es)
  {
    forall k :: TidyBy(w, es, k)
  }

  ghost predicate AlwaysInv(w: World, es: seq<Event>)
    requires IsRun(w, es)
  {
    Inv(Exec(w, es)) && (es == [] || AlwaysInv(w, es[..|es| - 1]))
  }

  lemma TidySnoc(w: World, es: seq<Event>)
    requires IsRun(w, es) && es != []
    ensures var last := |es| - 1;
      Tidy(w, es) <==> Tidy(w, es[..last]) && Harmless(Exec(w, es[..last]), es[last])
  {
    hide Enabled, After, Accepted;
    var (init, e) := (es[..|es| - 1], es[|es| - 1]);
    if Tidy(w, es) {
      forall k ensures TidyBy(w, init, k) { assert TidyBy(w, es, k); }
      if e.Add? {
        assert TidyBy(w, es, e.k);
      }
    }
    if Tidy(w, init) && Harmless(Exec(w, init), e) {
      forall k ensures TidyBy(w, es, k) { assert TidyBy(w, init, k); }
    }
  }

  // Throughout a run the routing table, the bound sockets and the tcp map agree with the live
  // registrations, if and only if no client ever registers over a name that is still registered
  // in a way that leaves a socket or a route behind.
  lemma {:induction false} AlwaysInvIff(secured: bool, es: seq<Event>)
    requires IsRun(Start(secured), es)
    ensures AlwaysInv(Start(secured), es) <==> Tidy(Start(secured), es)
  {
    hide Inv, After, Enabled, Harmless, Tidy;
    if es == [] {
      StartInv(secured);
      StartTidy(secured);
    } else {
      var (init, e) := (es[..|es| - 1], es[|es| - 1]);
      AlwaysInvIff(secured, init);
      TidySnoc(Start(secured), es);
      if AlwaysInv(Start(secured), init) {
        EventKeepsIff(Exec(Start(secured), init), e);
      }
    }
  }

  lemma StartTidy(secured: bool)
    ensures Tidy(Start(secured), [])
  {
  }

  lemma ReachableInv(secured: bool, es: seq<Event>)
    requires IsRun(Start(secured), es) && Tidy(Start(secured), es)
    ensures Inv(Exec(Start(secured), es))
  {
    hide Inv, Tidy;
    AlwaysInvIff(secured, es);
  }

  lemma StartInv(secured: bool)
    ensures Inv(Start(secured))
  {
  }

  // --- one connection among others ---

  // Every socket bound for connection k belongs to one of its registrations.
  ghost predicate OwnSocks(w: World, k: nat) {
    k in w.conns ==>
      forall s :: s in w.sh.bound && w.sh.bound[s].owner.conn == k ==>
        RefLive(w.conns, w.sh.bound[s]) && IsPortType(w.sh.bound[s].spec.typ) && SockOf(w.sh.bound[s].spec) == s
  }

  lemma AddKeepsOwnSocks(w: World, e: Event, k: nat)
    requires Base(w) && OwnSocks(w, k) && e.Add? && Enabled(w, e) && Accepted(w, e.k, e.p)
    requires e.k == k ==> Harmless(w, e)
    ensures OwnSocks(After(w, e), k)
  {
    var who := w.conns[e.k].sess.who;
    assert ConnOk(w.secured, e.k, w.conns[e.k]);
    AddFiles(w, e.k, e.p);
    var w' := After(w, e);
    FiledLive(w.conns, w'.conns, e.k, Entry(e.p, w.sh.next));
    hide Refusal, RefLive, Base, After, Filed, Accepted;
    assert w'.sh.bound == if IsPortType(e.p.typ) then w.sh.bound[SockOf(e.p) := Ref(who, e.p)] else w.sh.bound;
    if k in w.conns {
      forall s | s in w.sh.bound && w.sh.bound[s].owner.conn == k
        ensures !Replaces(e.k, e.p, w.sh.bound[s])
      {
        ReplacedAreOfPrior(w, e.k, e.p, w.sh.bound[s]);
      }
    }
  }

  lemma OthersKeepOwnSocks(w: World, e: Event, k: nat)
    requires Base(w) && OwnSocks(w, k) && !e.Add? && Enabled(w, e)
    ensures OwnSocks(After(w, e), k)
  {
    if e.Remove? {
      RemoveIsOneLess(w, e.k, e.n);
      LessLive(w.conns, After(w, e).conns, e.k, e.n);
      hide RefLive, OneLess, Base;
    } else {
      QuietKeepsEntries(w, e);
      var w' := After(w, e);
      assert forall r :: RefLive(w.conns, r) ==> RefLive(w'.conns, r);
      hide RefLive, SameEntries, BooksOk, ConnOk;
    }
  }

  // Whatever names other connections send: a connection that is tidy itself loses no socket.
  lemma {:induction false} ReachableOwnSocks(secured: bool, es: seq<Event>, k: nat)
    requires IsRun(Start(secured), es) && TidyBy(Start(secured), es, k)
    ensures OwnSocks(Exec(Start(secured), es), k)
  {
    hide Base, After, Enabled, Harmless, OwnSocks, Accepted;
    if es == [] {
      StartOwnSocks(secured, k);
    } else {
      var (init, e) := (es[..|es| - 1], es[|es| - 1]);
      ReachableOwnSocks(secured, init, k);
      ReachableBase(secured, init);
      var w := Exec(Start(secured), init);
      if e.Add? {
        AddIsEnabledFor(w, e);
        if Accepted(w, e.k, e.p) {
          AddKeepsOwnSocks(w, e, k);
        } else {
          AddRefused(w, e.k, e.p);
        }
      } else {
        OthersKeepOwnSocks(w, e, k);
      }
    }
  }

  lemma StartOwnSocks(secured: bool, k: nat)
    ensures OwnSocks(Start(secured), k)
  {
  }

  // --- what a state tells ---

  // In a tidy run no route and no bound socket of a connection outlives it.
  lemma NothingOutlivesItsConnection(secured: bool, es: seq<Event>)
    requires IsRun(Start(secured), es) && Tidy(Start(secured), es)
    ensures var w := Exec(Start(secured), es);
            && (forall h :: h in w.sh.vhosts ==> w.sh.vhosts[h].owner.conn in w.conns)
            && (forall s :: s in w.sh.bound ==> w.sh.bound[s].owner.conn in w.conns)
            && (forall id :: id in w.clients ==> w.clients[id].conn in w.conns)
  {
    ReachableInv(secured, es);
  }

  // With grants enforced, every live registration lay within a grant that was verified for
  // that connection's identity on that connection.
  lemma AuthorizationHistory(es: seq<Event>, k: nat, n: string)
    requires IsRun(Start(true), es) && Has(Exec(Start(true), es).conns, k, n)
    ensures var c := Exec(Start(true), es).conns[k];
            exists g :: g in c.held && g.cn == c.sess.who.id && Unauthorized(Some(g), c.sess.regs[n].spec).None?
  {
    hide BooksOk, Unauthorized;
    var w := Exec(Start(true), es);
    ReachableBase(true, es);
    SecuredIsConstant(true, es);
    var c := w.conns[k];
    assert ConnOk(true, k, c);
    assert Authorized(c.held, c.sess.regs[n].spec);
  }

  lemma {:induction false} SecuredIsConstant(secured: bool, es: seq<Event>)
    requires IsRun(Start(secured), es)
    ensures Exec(Start(secured), es).secured == secured
  {
    if es != [] {
      SecuredIsConstant(secured, es[..|es| - 1]);
    }
  }

  // A connection that is leaving registers nothing any more, and cannot change its mind.
  lemma LeavingIsFinal(w: World, e: Event, k: nat)
    requires k in w.conns && k < w.nextConn && w.conns[k].leaving && Enabled(w, e)
    ensures e.Add? || e.Regrant? ==> e.k != k
    ensures var v := After(w, e);
      k in v.conns ==>
        v.conns[k].leaving && v.conns[k].sess.regs.Keys <= w.conns[k].sess.regs.Keys
  {
    hide Register, Close;
  }

  // Once a connection has verified a new grant, only that one counts: a proxy outside it is refused,
  // whatever the earlier grants allowed, and one within it is refused for no lack of authorization.
  lemma NewGrantRules(w: World, k: nat, g: Grant.Grant, p: Spec)
    requires Enabled(w, Regrant(k, g))
    ensures var v := After(w, Regrant(k, g));
      && Enabled(v, Add(k, p))
      && (Unauthorized(Some(g), p).Some? ==> After(v, Add(k, p)) == v)
      && (Unauthorized(Some(g), p).None? ==>
            (Accepted(v, k, p) <==> Refusal(w.sh, w.conns[k].sess.who, None, p).None?))
  {
    var v := After(w, Regrant(k, g));
    assert v.conns[k].sess.grant == Some(g) && v.sh == w.sh;
    if !Accepted(v, k, p) {
      AddRefused(v, k, p);
    }
  }

  // No event moves a routed host from one identity to another.
  lemma NoIdentityJump(w: World, e: Event, h: string)
    requires Enabled(w, e)
    requires h in w.sh.vhosts && h in After(w, e).sh.vhosts
    ensures After(w, e).sh.vhosts[h].owner.id == w.sh.vhosts[h].owner.id
  {
    if e.Add? {
      var se := w.conns[e.k].sess;
      Reload.RefusedExactlyWhen(w.sh, se.who, se.grant, e.p);
    }
  }

  // A proxy that is turned down leaves the whole state as it was.
  lemma RefusalChangesNothing(w: World, k: nat, p: Spec)
    requires Enabled(w, Add(k, p))
    requires Register(w.sh, w.conns[k].sess, p).statuses != [Status(p.name, None)]
    ensures After(w, Add(k, p)) == w
  {
    AddRefused(w, k, p);
  }

  // Tearing down, evicted or not, removes nothing that belongs to another connection: not a
  // route, not a socket, not a place in the clients map.
  lemma TeardownIsLocal(w: World, e: Event)
    requires Base(w) && Enabled(w, e) && (e.Remove? || e.Leave? || e.Finish?)
    ensures var (sh, sh') := (w.sh, After(w, e).sh);
            && (forall h :: h in sh.vhosts && sh.vhosts[h].owner.conn != e.k ==>
                  h in sh'.vhosts && sh'.vhosts[h] == sh.vhosts[h])
            && (forall s :: s in sh.bound && sh.bound[s].owner.conn != e.k ==>
                  s in sh'.bound && sh'.bound[s] == sh.bound[s])
            && (forall id :: id in w.clients && w.clients[id].conn != e.k ==>
                  id in After(w, e).clients && After(w, e).clients[id] == w.clients[id])
  {
    hide TcpOk, TicketsOk, RanOk, Authorized;
    assert ConnOk(w.secured, e.k, w.conns[e.k]);
    if e.Remove? {
      var se := w.conns[e.k].sess;
      assert EntryOk(w.sh, se.who, e.n, At(w.conns, e.k, e.n));
    }
  }
}
