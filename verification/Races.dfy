/**
 Where the engine's promises end: concrete runs on which a guarantee is lost. The exact
 conditions under which they hold are `AlwaysInvIff`, `AlwaysRoutedIff` and `OkMeansRegisteredIff`.
 */
module Races {
  import opened Text
  import opened ProxySpec
  import opened Registry
  import opened Engine
  import opened Sessions
  import Reload

  function Web(name: string, domain: string): Spec {
    Spec(name, "http", "127.0.0.1:80", 0, "", [domain])
  }

  lemma WebIsInOrder(name: string, domain: string)
    requires name != "" && |name| <= MAX_NAME
    ensures Reload.InOrder(None, Web(name, domain)) && HostSet(Web(name, domain)) == {Lower(domain)}
  {
  }

  lemma WebIsAccepted(sh: Shared, who: Owner, name: string, domain: string)
    requires name != "" && |name| <= MAX_NAME
    requires Lower(domain) in sh.vhosts ==> sh.vhosts[Lower(domain)].owner.id == who.id
    ensures Refusal(sh, who, None, Web(name, domain)).None?
  {
    hide Refusal;
    WebIsInOrder(name, domain);
    Reload.RefusedExactlyWhen(sh, who, None, Web(name, domain));
  }

  // --- registering late ---

  // A connection admitted first but registering after its successor takes the successor's
  // route over; when it is torn down, the newest connection is left registered but unrouted.
  lemma LateRegistrationLosesTheRoute(id: string)
    ensures var p := Web("t1", "a");
            var es := [Admit(id, None), Admit(id, None), Add(1, p), Add(0, p), Remove(0, "t1")];
            && IsRun(Start(false), es)
            && var w := Exec(Start(false), es);
               && IsNewest(w, Owner(1, id)) && 1 in w.conns && w.conns[1].sess.who == Owner(1, id)
               && "t1" in w.conns[1].sess.regs && "a" in WebHosts(w.conns[1].sess.regs["t1"].spec)
               && "a" !in w.sh.vhosts
  {
    hide Refusal, Accept, Close, After, Enabled;
    var p := Web("t1", "a");
    assert Lower("a") == "a";
    var w0 := Start(false);
    var (e1, e3, e4, e5) := (Admit(id, None), Add(1, p), Add(0, p), Remove(0, "t1"));
    var es1 := [] + [e1];
    var w1 := AdmitTwice(id, w0);
    RunSnoc(w0, [], e1);
    RunSnoc(w0, es1, e1);
    var es2 := es1 + [e1];
    WebIsAccepted(w1.sh, Owner(1, id), "t1", "a");
    AddedWeb(w1, 1, p);
    var w3 := After(w1, e3);
    RunSnoc(w0, es2, e3);
    var es3 := es2 + [e3];
    WebIsAccepted(w3.sh, Owner(0, id), "t1", "a");
    AddedWeb(w3, 0, p);
    var w4 := After(w3, e4);
    RunSnoc(w0, es3, e4);
    var es4 := es3 + [e4];
    RemovedWeb(w4, 0, "t1");
    RunSnoc(w0, es4, e5);
    assert es4 + [e5] == [e1, e1, e3, e4, e5];
  }

  lemma AdmitTwice(id: string, w0: World) returns (w2: World)
    requires w0 == Start(false)
    ensures var e := Admit(id, None);
            && Enabled(w0, e) && Enabled(After(w0, e), e) && w2 == After(After(w0, e), e)
    ensures w2.sh == w0.sh && IsNewest(w2, Owner(1, id)) && w2.conns.Keys == {0, 1}
    ensures w2.conns[0] == Conn(Session(Owner(0, id), None, map[]), {}, false)
    ensures w2.conns[1] == Conn(Session(Owner(1, id), None, map[]), {}, false)
  {
    w2 := After(After(w0, Admit(id, None)), Admit(id, None));
  }

  // A web proxy that is not refused is registered and its hosts are routed to it.
  lemma AddedWeb(w: World, k: nat, p: Spec)
    requires k in w.conns && !w.conns[k].leaving && w.conns[k].sess.regs == map[] && IsWebType(p.typ)
    requires Refusal(w.sh, w.conns[k].sess.who, w.conns[k].sess.grant, p).None?
    ensures Enabled(w, Add(k, p))
    ensures var (se, w') := (w.conns[k].sess, After(w, Add(k, p)));
            && w'.clients == w.clients
            && w'.conns == w.conns[k := w.conns[k].(sess := se.(regs := map[p.name := Entry(p, w.sh.next)]))]
            && w'.sh.vhosts == Claim(w.sh.vhosts, HostSet(p), Ref(se.who, p))
  {
    hide Refusal;
  }

  lemma RemovedWeb(w: World, k: nat, n: string)
    requires Has(w.conns, k, n)
    ensures Enabled(w, Remove(k, n))
    ensures var (se, w') := (w.conns[k].sess, After(w, Remove(k, n)));
            && w'.clients == w.clients
            && w'.conns == w.conns[k := w.conns[k].(sess := se.(regs := se.regs - {n}))]
            && w'.sh.vhosts == Release(w.sh.vhosts, se.who, WebHosts(se.regs[n].spec))
  {
  }

  // --- one name twice ---

  // The first update of a client that names one proxy twice with different hosts.
  lemma TwiceLeaks(who: Owner)
    ensures var ps := [Web("t1", "a"), Web("t1", "b")];
            var r := ApplyUpdate(Start(false).sh, Session(who, None, map[]), ps);
            Reload.AllOk(r.statuses) && "a" in Cleanup(r.sh, r.se).sh.vhosts && Cleanup(r.sh, r.se).sh.vhosts["a"].owner == who
  {
    hide Refusal, SpecKey;
    var (p, q) := (Web("t1", "a"), Web("t1", "b"));
    var ps := [p, q];
    var empty := Start(false).sh;
    var se := Session(who, None, map[]);
    assert Lower("a") == "a" && Lower("b") == "b";
    WebIsInOrder("t1", "a");
    WebIsInOrder("t1", "b");
    assert Doomed(se.regs, ps) == {};
    CloseAllNone(empty, who, se.regs);
    var o := Prune(empty, se, {});
    assert o.sh == empty && o.se == se;
    WebIsAccepted(empty, who, "t1", "a");
    assert ps[..1][..0] == [] && ps[..1] == [p];
    var one := Enlist(o, ps[..1]);
    assert Enlist(o, ps[..1][..0]) == o;
    assert one.se.regs == map["t1" := Entry(p, 0)] && one.sh == Accept(empty, who, p);
    KeysDiffer();
    WebIsAccepted(one.sh, who, "t1", "b");
    var r := Enlist(o, ps);
    assert r.se.regs == map["t1" := Entry(q, 1)];
    assert r.sh.vhosts["a"] == Ref(who, p);
    assert WebHosts(r.se.regs["t1"].spec) == {"b"};
    assert "a" !in HostsOf(r.se.regs, r.se.regs.Keys);
  }

  // A client connects, names one proxy twice with different hosts, is answered OK, and
  // disconnects: no connection is left, and a route still leads to it.
  lemma DuplicateNameLeaksARoute(id: string) returns (es: seq<Event>)
    ensures IsRun(Start(false), es)
    ensures var ps := [Web("t1", "a"), Web("t1", "b")];
      Reload.AllOk(ApplyUpdate(Start(false).sh, Session(Owner(0, id), None, map[]), ps).statuses)
    ensures var w := Exec(Start(false), es);
      w.conns == map[] && "a" in w.sh.vhosts && w.sh.vhosts["a"].owner == Owner(0, id)
  {
    var ps := [Web("t1", "a"), Web("t1", "b")];
    var (w, who) := (Start(false), Owner(0, id));
    NoEvents(w);
    assert After(w, Admit(id, None)).conns == map[0 := Conn(Session(who, None, map[]), {}, false)];
    assert After(w, Admit(id, None)).sh == w.sh;
    TwiceLeaks(who);
    hide ApplyUpdate, Cleanup, IsRun, Exec;
    var hello := HelloIsRun(w, [], id, None, ps);
    assert Enabled(Exec(w, hello), Leave(0));
    es := DisconnectIsRun(w, hello, 0);
    assert Exec(w, es).conns == map[];
  }

  lemma KeysDiffer()
    ensures SpecKey(Web("t1", "a")) != SpecKey(Web("t1", "b"))
  {
    hide SpecKey;
    SpecKeyInjective(Web("t1", "a"), Web("t1", "b"));
    assert Web("t1", "a").customDomains[0] != Web("t1", "b").customDomains[0];
  }

  // --- keys that collide ---

  function TwoDomains(name: string, a: string, b: string): Spec {
    Web(name, a).(customDomains := [a, b])
  }

  // One proxy, registered before or not, by an update of its own.
  lemma UpdateOfOne(sh: Shared, se: Session, p: Spec)
    requires se.regs.Keys <= {p.name}
    ensures var r := ApplyUpdate(sh, se, [p]);
            && (Unchanged(se.regs, p) ==> r == Outcome(sh, se, [Status(p.name, None)]))
            && (se.regs == map[] ==> r == Register(sh, se, p))
  {
    hide SpecKey, Register;
    assert [p][..0] == [];
    assert Desired([p]) == map[p.name := p];
    if Unchanged(se.regs, p) || se.regs == map[] {
      assert Doomed(se.regs, [p]) == {};
      CloseAllNone(sh, se.who, se.regs);
      assert se.regs - {} == se.regs;
      var o := Prune(sh, se, Doomed(se.regs, [p]));
      assert Enlist(o, [p][..0]) == o;
    }
  }

  // A domain with a space prints like two domains: a client that asks for the one and then for
  // the two is answered OK both times, and the two are never routed.
  lemma CollidingKeysHideAChange(id: string) returns (es: seq<Event>, es': seq<Event>)
    ensures var (p, q) := (Web("t1", "a b"), TwoDomains("t1", "a", "b"));
            && IsRun(Start(false), es) && IsRun(Start(false), es')
            && var (w, w') := (Exec(Start(false), es), Exec(Start(false), es'));
               && 0 in w.conns && w' == Updated(w, 0, [q])
               && Reload.AllOk(ApplyUpdate(w.sh, w.conns[0].sess, [q]).statuses)
               && w.conns[0].sess.regs == map["t1" := Entry(p, 0)]
               && w'.conns[0].sess.regs == map["t1" := Entry(p, 0)]
               && "a" !in w'.sh.vhosts && "b" !in w'.sh.vhosts
  {
    var (p, q) := (Web("t1", "a b"), TwoDomains("t1", "a", "b"));
    var w0 := Start(false);
    SpacedIsRegistered(id);
    hide SpecKey, After, Enabled, Updated, IsRun, Exec, ApplyUpdate;
    NoEvents(w0);
    es := HelloIsRun(w0, [], id, None, [p]);
    var w := Exec(w0, es);
    TwoAreTakenForOne(w, id);
    es' := UpdateIsRun(w0, es, 0, [q]);
  }

  lemma NoEvents(w: World)
    ensures IsRun(w, []) && Exec(w, []) == w
  {
  }

  // The state in which only the proxy with the space is registered.
  predicate OnlySpaced(w: World, id: string) {
    && w.conns == map[0 := Conn(Session(Owner(0, id), None, map["t1" := Entry(Web("t1", "a b"), 0)]), {}, false)]
    && w.sh.vhosts.Keys == {"a b"}
  }

  lemma SpacedIsRegistered(id: string)
    ensures Enabled(Start(false), Admit(id, None)) && 0 in After(Start(false), Admit(id, None)).conns
    ensures OnlySpaced(Updated(After(Start(false), Admit(id, None)), 0, [Web("t1", "a b")]), id)
  {
    var p := Web("t1", "a b");
    var w1 := After(Start(false), Admit(id, None));
    WebIsAccepted(w1.sh, Owner(0, id), "t1", "a b");
    UpdateOfOne(w1.sh, w1.conns[0].sess, p);
    HostsOfTheSpaced();
    hide Refusal, ApplyUpdate;
  }

  lemma TwoAreTakenForOne(w: World, id: string)
    requires OnlySpaced(w, id)
    ensures var q := TwoDomains("t1", "a", "b");
      && Updated(w, 0, [q]) == w && Reload.AllOk(ApplyUpdate(w.sh, w.conns[0].sess, [q]).statuses)
  {
    var (p, q) := (Web("t1", "a b"), TwoDomains("t1", "a", "b"));
    SpecKeyCollisions(p);
    assert p.(customDomains := ["a b"]) == p && p.(customDomains := ["a", "b"]) == q;
    hide SpecKey;
    UpdateOfOne(w.sh, w.conns[0].sess, q);
    hide ApplyUpdate;
    assert w.conns[0 := w.conns[0]] == w.conns;
  }

  lemma HostsOfTheSpaced()
    ensures HostSet(Web("t1", "a b")) == {"a b"}
  {
    assert Lower("a b") == "a b";
  }
}
