/**
 Whole updates, hellos and disconnects seen as runs of single registrations and teardowns,
 and what follows for the newest connection of an identity.
 */
module Sessions {
  import opened Text
  import opened ProxySpec
  import opened Registry
  import opened Engine
  import Reload
  import Grant

  // --- orderly runs ---

  predicate IsNewest(w: World, who: Owner) {
    who.id in w.clients && w.clients[who.id] == who
  }

  // Only the newest connection registers, its proxies are well-formed, and no two of them
  // list the same host.
  ghost predicate Orderly(w: World, e: Event) {
    e.Add? && e.k in w.conns ==>
      && IsNewest(w, w.conns[e.k].sess.who)
      && WellFormed(e.p)
      && forall n :: n in w.conns[e.k].sess.regs ==> WebHosts(w.conns[e.k].sess.regs[n].spec) !! WebHosts(e.p)
  }

  ghost predicate OrderlyRun(w: World, es: seq<Event>)
    requires IsRun(w, es)
  {
    es == [] ||
    var last := |es| - 1;
    OrderlyRun(w, es[..last]) && Orderly(Exec(w, es[..last]), es[last])
  }

  // --- an update is a run ---

  lemma RunSnoc(w: World, es: seq<Event>, e: Event)
    requires IsRun(w, es) && Enabled(Exec(w, es), e)
    ensures IsRun(w, es + [e]) && Exec(w, es + [e]) == After(Exec(w, es), e)
    ensures OrderlyRun(w, es) && Orderly(Exec(w, es), e) ==> OrderlyRun(w, es + [e])
    ensures forall j :: TidyBy(w, es, j) && (e.Add? && e.k == j ==> Harmless(Exec(w, es), e)) ==> TidyBy(w, es + [e], j)
  {
    hide Enabled, After, Orderly, Accepted;
    assert (es + [e])[..|es|] == es;
  }

  // Tearing down a set of registrations, one event for each.
  lemma {:induction false} PruneIsRun(w: World, es: seq<Event>, k: nat, names: set<string>) returns (es': seq<Event>)
    requires IsRun(w, es) && k in Exec(w, es).conns && names <= Exec(w, es).conns[k].sess.regs.Keys
    ensures var v := Exec(w, es);
            var o := Prune(v.sh, v.conns[k].sess, names);
            && IsRun(w, es') && Exec(w, es') == WithSession(v, k, o.sh, o.se)
            && (OrderlyRun(w, es) ==> OrderlyRun(w, es'))
            && (forall j :: TidyBy(w, es, j) ==> TidyBy(w, es', j))
    decreases names
  {
    hide Close, CloseAll, Exec, IsRun, OrderlyRun, TidyBy, Harmless;
    var v := Exec(w, es);
    var se := v.conns[k].sess;
    if names == {} {
      CloseAllNone(v.sh, se.who, se.regs);
      assert se.regs - {} == se.regs;
      assert v.conns[k := v.conns[k]] == v.conns;
      es' := es;
    } else {
      var n :| n in names;
      var rest := names - {n};
      var es1 := PruneIsRun(w, es, k, rest);
      assert n in Exec(w, es1).conns[k].sess.regs;
      RunSnoc(w, es1, Remove(k, n));
      CloseAllStep(v.sh, se.who, se.regs, rest, n);
      assert rest + {n} == names;
      assert (se.regs - rest) - {n} == se.regs - names;
      es' := es1 + [Remove(k, n)];
    }
  }

  // Proxies that a reload can tell apart and that share no host.
  ghost predicate WellSpecified(ps: seq<Spec>) {
    && (forall p :: p in ps ==> WellFormed(p))
    && (forall i, j :: 0 <= i < j < |ps| ==> WebHosts(ps[i]) !! WebHosts(ps[j]))
  }

  // A well-specified list that covers what is registered already.
  ghost predicate Neat(regs: map<string, Entry>, ps: seq<Spec>) {
    && WellSpecified(ps)
    && (forall n :: n in regs ==>
          exists i :: 0 <= i < |ps| && ps[i].name == n && WebHosts(ps[i]) == WebHosts(regs[n].spec))
  }

  // The next proxy of a neat list shares no host with what is registered by then.
  lemma NextIsDisjoint(o: Outcome, ps: seq<Spec>, k: nat, before: Outcome)
    requires k < |ps| && Reload.DistinctNames(ps) && Neat(o.se.regs, ps)
    requires Reload.OnlyAdds(o, ps[..k], before) && ps[k].name !in before.se.regs
    ensures WellFormed(ps[k])
    ensures forall n :: n in before.se.regs ==> WebHosts(before.se.regs[n].spec) !! WebHosts(ps[k])
  {
    hide WellFormed;
    assert ps[k] in ps;
    forall n | n in before.se.regs
      ensures WebHosts(before.se.regs[n].spec) !! WebHosts(ps[k])
    {
      var i :| 0 <= i < |ps| && ps[i].name == n && WebHosts(ps[i]) == WebHosts(before.se.regs[n].spec) by {
        if n !in o.se.regs {
          var j :| 0 <= j < |ps[..k]| && before.se.regs[n].spec == ps[..k][j] && ps[..k][j].name == n;
          assert ps[j] == ps[..k][j];
        }
      }
      assert i < k || k < i;
    }
  }

  // A list of which each name stands for one proxy, old or new.
  predicate OneEach(regs: map<string, Entry>, ps: seq<Spec>) {
    Reload.DistinctNames(ps) && Reload.Pruned(regs, ps)
  }

  // Registering a list, one event for each proxy that is not registered as it is.
  lemma {:induction false} EnlistIsRun(w: World, es: seq<Event>, k: nat, all: seq<Spec>, m: nat)
      returns (es': seq<Event>)
    requires IsRun(w, es) && k in Exec(w, es).conns && !Exec(w, es).conns[k].leaving && m <= |all|
    ensures var v := Exec(w, es);
            var o := Enlist(Outcome(v.sh, v.conns[k].sess, []), all[..m]);
            && IsRun(w, es') && Exec(w, es') == WithSession(v, k, o.sh, o.se)
    ensures var v := Exec(w, es);
            && OrderlyRun(w, es) && IsNewest(v, v.conns[k].sess.who)
            && OneEach(v.conns[k].sess.regs, all) && Neat(v.conns[k].sess.regs, all)
            ==> OrderlyRun(w, es')
    ensures forall j :: TidyBy(w, es, j) && (j == k ==> OneEach(Exec(w, es).conns[k].sess.regs, all)) ==> TidyBy(w, es', j)
  {
    hide Register, SpecKey, Exec, IsRun, OrderlyRun, Neat, WellFormed, WebHosts, TidyBy, Harmless, OneEach;
    var ps := all[..m];
    var v := Exec(w, es);
    var o := Outcome(v.sh, v.conns[k].sess, []);
    if m == 0 {
      assert v.conns[k := v.conns[k]] == v.conns;
      es' := es;
    } else {
      var last := m - 1;
      assert ps[..last] == all[..last];
      var (init, p) := (ps[..last], ps[last]);
      es' := EnlistIsRun(w, es, k, all, last);
      var before := Enlist(o, init);
      EnlistKeepsWho(o, init);
      if OneEach(o.se.regs, all) {
        NextIsApart(o, all, last);
      }
      if !Unchanged(before.se.regs, p) {
        AddOne(w, es', v, k, before.sh, before.se, p);
        es' := es' + [Add(k, p)];
      }
    }
  }

  lemma EnlistKeepsWho(o: Outcome, ps: seq<Spec>)
    ensures Enlist(o, ps).se.who == o.se.who
  {
    hide Register, SpecKey;
    if ps != [] {
      EnlistKeepsWho(o, ps[..|ps| - 1]);
      var before := Enlist(o, ps[..|ps| - 1]);
      Reload.RegisterIsLocal(before.sh, before.se, ps[|ps| - 1]);
    }
  }

  // The next proxy of a list with one name each is new; if the list is neat, it shares no host
  // with what is registered by then.
  lemma NextIsApart(o: Outcome, all: seq<Spec>, m: nat)
    requires m < |all| && OneEach(o.se.regs, all) && o.statuses == []
    ensures var before := Enlist(o, all[..m]);
      !Unchanged(before.se.regs, all[m]) ==>
        && all[m].name !in before.se.regs
        && (Neat(o.se.regs, all) ==>
              WellFormed(all[m]) && forall n :: n in before.se.regs ==> WebHosts(before.se.regs[n].spec) !! WebHosts(all[m]))
  {
    hide Enlist, SpecKey, Neat, WellFormed, WebHosts;
    var before := Enlist(o, all[..m]);
    PrefixInOrder(o.se.regs, all, m);
    Reload.EnlistIsEnlisted(o, all[..m]);
    if !Unchanged(before.se.regs, all[m]) {
      NextIsNew(o, all, m, before);
      if Neat(o.se.regs, all) {
        NextIsDisjoint(o, all, m, before);
      }
    }
  }

  lemma PrefixInOrder(regs: map<string, Entry>, all: seq<Spec>, m: nat)
    requires m <= |all| && Reload.DistinctNames(all) && Reload.Pruned(regs, all)
    ensures Reload.DistinctNames(all[..m]) && Reload.Pruned(regs, all[..m])
  {
    hide Unchanged;
    assert forall i :: 0 <= i < m ==> all[..m][i] == all[i];
  }

  lemma NextIsNew(o: Outcome, all: seq<Spec>, m: nat, before: Outcome)
    requires m < |all| && Reload.DistinctNames(all) && Reload.Pruned(o.se.regs, all)
    requires Reload.OnlyAdds(o, all[..m], before) && !Unchanged(before.se.regs, all[m])
    ensures all[m].name !in before.se.regs
  {
    hide SpecKey;
    assert forall i :: 0 <= i < m ==> all[..m][i] == all[i];
  }

  lemma AddOne(w: World, es: seq<Event>, v: World, k: nat, sh: Shared, se: Session, p: Spec)
    requires IsRun(w, es) && k in v.conns && !v.conns[k].leaving && Exec(w, es) == WithSession(v, k, sh, se)
    ensures IsRun(w, es + [Add(k, p)])
    ensures var o := Register(sh, se, p); Exec(w, es + [Add(k, p)]) == WithSession(v, k, o.sh, o.se)
    ensures OrderlyRun(w, es) && IsNewest(v, se.who) && WellFormed(p)
            && (forall n :: n in se.regs ==> WebHosts(se.regs[n].spec) !! WebHosts(p))
            ==> OrderlyRun(w, es + [Add(k, p)])
    ensures forall j :: TidyBy(w, es, j) && (j == k ==> p.name !in se.regs) ==> TidyBy(w, es + [Add(k, p)], j)
  {
    hide Register, Exec, IsRun, OrderlyRun, WellFormed, WebHosts, TidyBy, Accepted;
    RunSnoc(w, es, Add(k, p));
  }

  // The state after connection k has applied an update.
  function Updated(w: World, k: nat, ps: seq<Spec>): World
    requires k in w.conns
  {
    var o := ApplyUpdate(w.sh, w.conns[k].sess, ps);
    WithSession(w, k, o.sh, o.se)
  }

  ghost predicate WellRegistered(regs: map<string, Entry>) {
    forall n :: n in regs ==> WellFormed(regs[n].spec)
  }

  lemma KeptIsNeat(regs: map<string, Entry>, ps: seq<Spec>)
    requires Reload.DistinctNames(ps) && WellSpecified(ps) && WellRegistered(regs)
    ensures Neat(regs - Doomed(regs, ps), ps)
  {
    hide SpecKey, WellFormed;
    Reload.DesiredAt(ps);
    forall n | n in regs && n !in Doomed(regs, ps)
      ensures exists i :: 0 <= i < |ps| && ps[i].name == n && WebHosts(ps[i]) == WebHosts(regs[n].spec)
    {
      var i :| 0 <= i < |ps| && ps[i].name == n;
      assert ps[i] in ps;
      SpecKeyInjective(ps[i], regs[n].spec);
    }
  }

  // A whole update, with whatever names, is a run of single teardowns and registrations, so
  // whatever every run keeps, every update keeps. With distinct names it stays tidy; by the
  // newest connection, with well-formed proxies that share no host, it is an orderly run.
  lemma UpdateIsRun(w: World, es: seq<Event>, k: nat, ps: seq<Spec>) returns (es': seq<Event>)
    requires IsRun(w, es) && k in Exec(w, es).conns && !Exec(w, es).conns[k].leaving
    ensures IsRun(w, es') && Exec(w, es') == Updated(Exec(w, es), k, ps)
    ensures forall j :: TidyBy(w, es, j) && (j == k ==> Reload.DistinctNames(ps)) ==> TidyBy(w, es', j)
    ensures var v := Exec(w, es);
            && OrderlyRun(w, es) && IsNewest(v, v.conns[k].sess.who) && Reload.DistinctNames(ps)
            && WellSpecified(ps) && WellRegistered(v.conns[k].sess.regs)
            ==> OrderlyRun(w, es')
  {
    hide Enlist, CloseAll, Exec, IsRun, Doomed, SpecKey, OrderlyRun, Neat, WellSpecified, WellRegistered, TidyBy,
         Reload.DistinctNames, Reload.Pruned;
    var v := Exec(w, es);
    var se := v.conns[k].sess;
    var doomed := Doomed(se.regs, ps);
    Reload.DoomedAreRegistered(se.regs, ps);
    var o := Prune(v.sh, se, doomed);
    if Reload.DistinctNames(ps) {
      Reload.PruneLeavesUnchanged(v.sh, se, ps);
      if WellSpecified(ps) && WellRegistered(se.regs) {
        KeptIsNeat(se.regs, ps);
      }
    }
    var es1 := PruneIsRun(w, es, k, doomed);
    var v1 := Exec(w, es1);
    assert v1.conns[k].sess == o.se && v1.sh == o.sh;
    es' := EnlistIsRun(w, es1, k, ps, |ps|);
    assert ps[..|ps|] == ps;
  }

  // In an orderly run all registered proxies are well-formed.
  lemma {:induction false} OrderlyIsWellRegistered(secured: bool, es: seq<Event>)
    requires IsRun(Start(secured), es) && OrderlyRun(Start(secured), es)
    ensures forall k :: k in Exec(Start(secured), es).conns ==>
              WellRegistered(Exec(Start(secured), es).conns[k].sess.regs)
  {
    hide WellFormed, Register, Close;
    if es != [] {
      var (init, e) := (es[..|es| - 1], es[|es| - 1]);
      OrderlyIsWellRegistered(secured, init);
      var (w, w') := (Exec(Start(secured), init), Exec(Start(secured), es));
      forall k | k in w'.conns
        ensures WellRegistered(w'.conns[k].sess.regs)
      {
        assert k in w.conns ==> WellRegistered(w.conns[k].sess.regs);
        if e.Add? {
          RegisterAdds(w.sh, w.conns[e.k].sess, e.p);
        }
      }
    }
  }

  lemma RegisterAdds(sh: Shared, se: Session, p: Spec)
    ensures forall n :: n in Register(sh, se, p).se.regs ==>
              Register(sh, se, p).se.regs[n].spec == p || (n in se.regs && Register(sh, se, p).se.regs[n] == se.regs[n])
  {
    hide Refusal, Accept;
  }

  // A hello admits the connection, evicting any older one, and applies its first update.
  lemma HelloIsRun(w: World, es: seq<Event>, id: string, grant: Option<Grant.Grant>, ps: seq<Spec>)
      returns (es': seq<Event>)
    requires IsRun(w, es) && Enabled(Exec(w, es), Admit(id, grant))
    ensures var v := Exec(w, es);
            IsRun(w, es') && Exec(w, es') == Updated(After(v, Admit(id, grant)), v.nextConn, ps)
    ensures Reload.DistinctNames(ps) && OrderlyRun(w, es) && WellSpecified(ps) ==> OrderlyRun(w, es')
    ensures forall j :: TidyBy(w, es, j) && (j == Exec(w, es).nextConn ==> Reload.DistinctNames(ps)) ==> TidyBy(w, es', j)
  {
    hide ApplyUpdate, Exec, IsRun, OrderlyRun, WellSpecified, TidyBy, Harmless, Reload.DistinctNames;
    RunSnoc(w, es, Admit(id, grant));
    es' := UpdateIsRun(w, es + [Admit(id, grant)], Exec(w, es).nextConn, ps);
  }

  // A disconnect gives up the place in the clients map, tears everything down and is gone.
  lemma DisconnectIsRun(w: World, es: seq<Event>, k: nat) returns (es': seq<Event>)
    requires IsRun(w, es) && Enabled(Exec(w, es), Leave(k))
    ensures var v := Exec(w, es);
            var o := Cleanup(v.sh, v.conns[k].sess);
            && IsRun(w, es')
            && Exec(w, es').sh == o.sh
            && Exec(w, es').clients == After(v, Leave(k)).clients
            && Exec(w, es').conns == v.conns - {k}
    ensures OrderlyRun(w, es) ==> OrderlyRun(w, es')
    ensures forall j :: TidyBy(w, es, j) ==> TidyBy(w, es', j)
  {
    hide CloseAll, Exec, IsRun, OrderlyRun, TidyBy, Harmless;
    var v := Exec(w, es);
    var se := v.conns[k].sess;
    RunSnoc(w, es, Leave(k));
    var es1 := PruneIsRun(w, es + [Leave(k)], k, se.regs.Keys);
    assert se.regs - se.regs.Keys == map[];
    RunSnoc(w, es1, Finish(k));
    es' := es1 + [Finish(k)];
  }

  // --- the newest connection of an identity ---

  // The route of every host the connection has registered leads to the proxy that lists it.
  ghost predicate FullyRouted(vhosts: map<string, Ref>, se: Session) {
    forall n, h :: n in se.regs && h in WebHosts(se.regs[n].spec) ==>
      h in vhosts && vhosts[h] == Ref(se.who, se.regs[n].spec)
  }

  ghost predicate NewestRouted(w: World) {
    forall id :: id in w.clients && w.clients[id].conn in w.conns ==>
      FullyRouted(w.sh.vhosts, w.conns[w.clients[id].conn].sess)
  }

  // The proxy lists no host of what this client has registered.
  predicate Disjoint(se: Session, p: Spec) {
    forall n :: n in se.regs ==> WebHosts(se.regs[n].spec) !! WebHosts(p)
  }

  // What connection j has registered and keeps when connection k takes the proxy on.
  function Standing(w: World, j: nat, k: nat, p: Spec): Session
    requires j in w.conns
  {
    if j == k then w.conns[j].sess.(regs := w.conns[j].sess.regs - {p.name}) else w.conns[j].sess
  }

  // The proxy shares no host with what the newest connection of its identity has registered, a
  // registration that it takes the place of aside.
  predicate Apart(w: World, k: nat, p: Spec)
    requires k in w.conns
  {
    var id := w.conns[k].sess.who.id;
    id in w.clients && w.clients[id].conn in w.conns ==> Disjoint(Standing(w, w.clients[id].conn, k, p), p)
  }

  lemma ClaimKeepsRouted(vhosts: map<string, Ref>, ref: Ref, p: Spec, se: Session)
    requires FullyRouted(vhosts, se) && IsWebType(p.typ) && Disjoint(se, p)
    ensures FullyRouted(Claim(vhosts, HostSet(p), ref), se)
  {
  }

  lemma ClaimRoutesOwn(vhosts: map<string, Ref>, se: Session, e: Entry)
    requires FullyRouted(vhosts, se) && IsWebType(e.spec.typ)
    requires Disjoint(se.(regs := se.regs - {e.spec.name}), e.spec)
    ensures FullyRouted(Claim(vhosts, HostSet(e.spec), Ref(se.who, e.spec)),
                        se.(regs := se.regs[e.spec.name := e]))
  {
    var rest := se.(regs := se.regs - {e.spec.name});
    forall n, h | n in se.regs && n != e.spec.name && h in WebHosts(se.regs[n].spec)
      ensures h !in HostSet(e.spec)
    {
      assert n in rest.regs && rest.regs[n] == se.regs[n];
    }
  }

  lemma PortAddsNoHosts(vhosts: map<string, Ref>, se: Session, e: Entry)
    requires FullyRouted(vhosts, se) && !IsWebType(e.spec.typ)
    ensures FullyRouted(vhosts, se.(regs := se.regs[e.spec.name := e]))
  {
  }

  // What other identities have registered is disjoint from what is free for this one.
  lemma OthersAreDisjoint(vhosts: map<string, Ref>, id: string, p: Spec, se: Session)
    requires FullyRouted(vhosts, se) && se.who.id != id && (IsWebType(p.typ) ==> Reload.HostsFree(vhosts, id, p))
    ensures Disjoint(se, p)
  {
  }

  // The newest connection of an identity in the state after a proxy has been taken on.
  lemma AddedNewest(w: World, k: nat, p: Spec, id: string)
    requires Base(w) && Enabled(w, Add(k, p)) && Accepted(w, k, p) && id in w.clients
    ensures var (w', j) := (After(w, Add(k, p)), w.clients[id].conn);
      && w'.clients == w.clients && w'.conns.Keys == w.conns.Keys
      && j in w.conns && w.conns[j].sess.who == w.clients[id]
      && w'.conns[j].sess == (if j != k then w.conns[j].sess
                              else w.conns[k].sess.(regs := w.conns[k].sess.regs[p.name := Entry(p, w.sh.next)]))
      && w'.sh.vhosts == if IsWebType(p.typ) then Claim(w.sh.vhosts, HostSet(p), Ref(w.conns[k].sess.who, p))
                         else w.sh.vhosts
  {
    hide Refusal, BooksOk, ConnsOk;
  }

  lemma ApartKeepsRouted(w: World, k: nat, p: Spec)
    requires Base(w) && NewestRouted(w) && Enabled(w, Add(k, p)) && Accepted(w, k, p)
    requires Apart(w, k, p)
    ensures NewestRouted(After(w, Add(k, p)))
  {
    var se := w.conns[k].sess;
    assert ConnOk(w.secured, k, w.conns[k]);
    Reload.RefusedExactlyWhen(w.sh, se.who, se.grant, p);
    var w' := After(w, Add(k, p));
    hide Refusal, BooksOk, ConnsOk, FullyRouted, Claim, After, Disjoint, Reload.HostsFree, WebHosts, HostSet;
    forall id | id in w'.clients && w'.clients[id].conn in w'.conns
      ensures FullyRouted(w'.sh.vhosts, w'.conns[w'.clients[id].conn].sess)
    {
      assert w'.clients == w.clients by { AddedClients(w, k, p); }
      AddedNewest(w, k, p, id);
      var other := w.conns[w.clients[id].conn].sess;
      if id != se.who.id {
        OthersAreDisjoint(w.sh.vhosts, se.who.id, p, other);
      }
      if w.clients[id].conn != k {
        if IsWebType(p.typ) {
          ClaimKeepsRouted(w.sh.vhosts, Ref(se.who, p), p, other);
        }
      } else if IsWebType(p.typ) {
        ClaimRoutesOwn(w.sh.vhosts, se, Entry(p, w.sh.next));
      } else {
        PortAddsNoHosts(w.sh.vhosts, se, Entry(p, w.sh.next));
      }
    }
  }

  lemma AddedClients(w: World, k: nat, p: Spec)
    requires Enabled(w, Add(k, p))
    ensures After(w, Add(k, p)).clients == w.clients
  {
    hide Register;
  }

  lemma SharedHostIsTaken(w: World, k: nat, p: Spec)
    requires Base(w) && Enabled(w, Add(k, p)) && Accepted(w, k, p)
    requires !Apart(w, k, p)
    ensures !NewestRouted(After(w, Add(k, p)))
  {
    var se := w.conns[k].sess;
    var id := se.who.id;
    var j := w.clients[id].conn;
    var other := w.conns[j].sess;
    assert ConnOk(w.secured, k, w.conns[k]) && ConnOk(w.secured, j, w.conns[j]);
    var rest := Standing(w, j, k, p);
    var n :| n in rest.regs && !(WebHosts(rest.regs[n].spec) !! WebHosts(p));
    assert n in other.regs && rest.regs[n] == other.regs[n] && (j == k ==> n != p.name);
    var h :| h in WebHosts(other.regs[n].spec) && h in WebHosts(p);
    assert EntryOk(w.sh, other.who, n, At(w.conns, j, n));
    AddedNewest(w, k, p, id);
    var w' := After(w, Add(k, p));
    hide Refusal, BooksOk, ConnsOk, After;
    var later := w'.conns[j].sess;
    assert n in later.regs && later.regs[n] == other.regs[n] && later.who == other.who;
    assert w'.sh.vhosts[h] == Ref(se.who, p);
    assert !FullyRouted(w'.sh.vhosts, later);
  }

  // When everything that the newest connections have registered is routed, a proxy that is taken
  // on keeps it so if and only if it shares no host with what the newest connection of its
  // identity has registered, whichever connection registers it.
  lemma TakenOnKeepsRoutedIff(w: World, k: nat, p: Spec)
    requires Base(w) && NewestRouted(w) && Enabled(w, Add(k, p)) && Accepted(w, k, p)
    ensures NewestRouted(After(w, Add(k, p))) <==> Apart(w, k, p)
  {
    hide NewestRouted, Inv, After, Refusal, Apart;
    if Apart(w, k, p) {
      ApartKeepsRouted(w, k, p);
    } else {
      SharedHostIsTaken(w, k, p);
    }
  }

  lemma ReleaseKeepsOthers(vhosts: map<string, Ref>, who: Owner, hosts: set<string>, other: Session)
    requires FullyRouted(vhosts, other) && other.who != who
    ensures FullyRouted(Release(vhosts, who, hosts), other)
  {
  }

  // Two registrations that are both fully routed share no host.
  lemma ReleaseKeepsRest(vhosts: map<string, Ref>, se: Session, n: string)
    requires n in se.regs && FullyRouted(vhosts, se)
    requires forall m :: m in se.regs ==> se.regs[m].spec.name == m
    ensures FullyRouted(Release(vhosts, se.who, WebHosts(se.regs[n].spec)), se.(regs := se.regs - {n}))
  {
    forall m, h | m in se.regs && m != n && h in WebHosts(se.regs[m].spec)
      ensures h !in WebHosts(se.regs[n].spec)
    {
      assert vhosts[h] == Ref(se.who, se.regs[m].spec);
    }
  }

  lemma RemoveKeepsNewestRouted(w: World, e: Event)
    requires Base(w) && NewestRouted(w) && e.Remove? && Enabled(w, e)
    ensures NewestRouted(After(w, e))
  {
    var se := w.conns[e.k].sess;
    var w' := After(w, e);
    assert ConnOk(w.secured, e.k, w.conns[e.k]);
    forall m | m in se.regs
      ensures se.regs[m].spec.name == m
    {
      assert EntryOk(w.sh, se.who, m, At(w.conns, e.k, m));
    }
    hide BooksOk, FullyRouted, Release, ConnsOk;
    forall id | id in w'.clients
      ensures FullyRouted(w'.sh.vhosts, w'.conns[w'.clients[id].conn].sess)
    {
      if w.clients[id].conn == e.k {
        ReleaseKeepsRest(w.sh.vhosts, se, e.n);
      } else {
        ReleaseKeepsOthers(w.sh.vhosts, se.who, WebHosts(se.regs[e.n].spec), w.conns[w.clients[id].conn].sess);
      }
    }
  }

  lemma NothingToRoute(vhosts: map<string, Ref>, se: Session)
    requires se.regs == map[]
    ensures FullyRouted(vhosts, se)
  {
  }

  lemma OtherEventsKeepNewestRouted(w: World, e: Event)
    requires Base(w) && NewestRouted(w) && Enabled(w, e) && !e.Add? && !e.Remove?
    ensures NewestRouted(After(w, e))
  {
    hide BooksOk, Authorized, FullyRouted, WebHosts;
    var w' := After(w, e);
    assert w'.sh == w.sh;
    assert w.nextConn !in w.conns;
    forall id | id in w'.clients && w'.clients[id].conn in w'.conns
      ensures FullyRouted(w'.sh.vhosts, w'.conns[w'.clients[id].conn].sess)
    {
      if e.Admit? && id == e.id {
        NothingToRoute(w'.sh.vhosts, w'.conns[w'.clients[id].conn].sess);
      } else {
        FullyRoutedByRegs(w.sh.vhosts, w.conns[w.clients[id].conn].sess, w'.conns[w.clients[id].conn].sess);
      }
    }
  }

  lemma FullyRoutedByRegs(vhosts: map<string, Ref>, se: Session, se': Session)
    requires FullyRouted(vhosts, se) && se'.regs == se.regs && se'.who == se.who
    ensures FullyRouted(vhosts, se')
  {
  }

  // A proxy that is taken on is apart.
  predicate StepApart(w: World, e: Event)
    requires Enabled(w, e)
  {
    e.Add? && Accepted(w, e.k, e.p) ==> Apart(w, e.k, e.p)
  }

  lemma EventKeepsRoutedIff(w: World, e: Event)
    requires Base(w) && NewestRouted(w) && Enabled(w, e)
    ensures NewestRouted(After(w, e)) <==> StepApart(w, e)
  {
    hide NewestRouted, Inv, Apart, Refusal;
    if e.Add? {
      if Accepted(w, e.k, e.p) {
        TakenOnKeepsRoutedIff(w, e.k, e.p);
      } else {
        AddRefused(w, e.k, e.p);
      }
    } else if e.Remove? {
      RemoveKeepsNewestRouted(w, e);
    } else {
      OtherEventsKeepNewestRouted(w, e);
    }
  }

  ghost predicate AlwaysRouted(w: World, es: seq<Event>)
    requires IsRun(w, es)
  {
    NewestRouted(Exec(w, es)) && (es == [] || AlwaysRouted(w, es[..|es| - 1]))
  }

  ghost predicate AddsApart(w: World, es: seq<Event>)
    requires IsRun(w, es)
  {
    es == [] ||
    var last := |es| - 1;
    AddsApart(w, es[..last]) && StepApart(Exec(w, es[..last]), es[last])
  }

  // Throughout a run each host registered by the newest connection of an identity is routed to
  // the very proxy that registered it, if and only if every proxy that was taken on shared no
  // host with what the newest connection of its identity had registered.
  lemma {:induction false} AlwaysRoutedIff(secured: bool, es: seq<Event>)
    requires IsRun(Start(secured), es)
    ensures AlwaysRouted(Start(secured), es) <==> AddsApart(Start(secured), es)
  {
    hide Enabled, After, NewestRouted, Inv, StepApart;
    if es == [] {
      StartRouted(secured);
    } else {
      var (init, e) := (es[..|es| - 1], es[|es| - 1]);
      AlwaysRoutedIff(secured, init);
      ReachableBase(secured, init);
      if AddsApart(Start(secured), init) {
        assert NewestRouted(Exec(Start(secured), init));
        EventKeepsRoutedIff(Exec(Start(secured), init), e);
      }
    }
  }

  lemma StartRouted(secured: bool)
    ensures NewestRouted(Start(secured))
  {
  }

  lemma NewestIsRouted(secured: bool, es: seq<Event>)
    requires IsRun(Start(secured), es) && AddsApart(Start(secured), es)
    ensures NewestRouted(Exec(Start(secured), es))
  {
    hide NewestRouted;
    AlwaysRoutedIff(secured, es);
  }

  // So it is in every orderly run, and after whole updates by newest connections.
  lemma {:induction false} OrderlyAddsAreApart(secured: bool, es: seq<Event>)
    requires IsRun(Start(secured), es) && OrderlyRun(Start(secured), es)
    ensures AddsApart(Start(secured), es)
  {
    hide Enabled, After, Inv, StepApart, Orderly;
    if es != [] {
      var (init, e) := (es[..|es| - 1], es[|es| - 1]);
      OrderlyAddsAreApart(secured, init);
      ReachableBase(secured, init);
      OrderlyIsApart(Exec(Start(secured), init), e);
    }
  }

  lemma OrderlyIsApart(w: World, e: Event)
    requires Base(w) && Enabled(w, e) && Orderly(w, e)
    ensures StepApart(w, e)
  {
    hide BooksOk, Refusal, WellFormed;
    if e.Add? {
      assert ConnOk(w.secured, e.k, w.conns[e.k]);
    }
  }

  // --- reloads in reachable states ---

  // In every reachable state, a reload by a connection that has been tidy, whose proxies have distinct names and sockets and ask, as
  // far as they are in order, only for what is free or the connection's own, is answered OK
  // exactly for the proxies that are in order or kept.
  lemma ReachableReloadIsFair(secured: bool, es: seq<Event>, k: nat, ps: seq<Spec>)
    requires IsRun(Start(secured), es) && k in Exec(Start(secured), es).conns && TidyBy(Start(secured), es, k)
    requires Reload.DistinctNames(ps) && Reload.DistinctSockets(ps)
    requires var w := Exec(Start(secured), es);
             var se := w.conns[k].sess;
             forall p :: p in ps ==>
               Supported(p.typ) && (Reload.InOrder(se.grant, p) ==> Reload.Available(w.sh, se.who, p))
    ensures var w := Exec(Start(secured), es);
            var se := w.conns[k].sess;
            Reload.FairlyAnswered(Outcome(w.sh, se, []), ps, ApplyUpdate(w.sh, se, ps).statuses)
  {
    ReachableOwnSocks(secured, es, k);
    ReachableBase(secured, es);
    hide BooksOk, ClientsOk, ApplyUpdate, Reload.InOrder, TidyBy, Exec, IsRun;
    var w := Exec(Start(secured), es);
    assert ConnOk(w.secured, k, w.conns[k]);
    assert Reload.OwnsItsSockets(w.sh, w.conns[k].sess);
    Reload.ReloadAnswersFairly(w.sh, w.conns[k].sess, ps);
  }

  ghost predicate AllInOrder(w: World) {
    forall k, n :: Has(w.conns, k, n) ==> Reload.InOrder(None, At(w.conns, k, n).spec)
  }

  lemma EventKeepsInOrder(w: World, e: Event)
    requires Enabled(w, e) && AllInOrder(w)
    ensures AllInOrder(After(w, e))
  {
    hide Close, Register, Reload.InOrder;
    if e.Add? {
      AcceptedIsInOrder(w.sh, w.conns[e.k].sess, e.p);
    }
    var w' := After(w, e);
    forall k, n | Has(w'.conns, k, n)
      ensures Reload.InOrder(None, At(w'.conns, k, n).spec)
    {
      assert !Has(w.conns, k, n) || At(w'.conns, k, n) != At(w.conns, k, n) ==> e.Add? && k == e.k;
    }
  }

  lemma AcceptedIsInOrder(sh: Shared, se: Session, p: Spec)
    ensures forall n :: n in Register(sh, se, p).se.regs ==>
              (n in se.regs && Register(sh, se, p).se.regs[n] == se.regs[n])
              || Reload.InOrder(None, Register(sh, se, p).se.regs[n].spec)
  {
    hide Refusal, Accept;
    Reload.RefusedExactlyWhen(sh, se.who, se.grant, p);
    Unsecured(p);
    hide Unauthorized;
  }

  lemma Unsecured(p: Spec)
    ensures Unauthorized(None, p).None?
  {
  }

  // In every reachable state everything registered is in order.
  lemma {:induction false} RegisteredAreInOrder(secured: bool, es: seq<Event>)
    requires IsRun(Start(secured), es)
    ensures AllInOrder(Exec(Start(secured), es))
  {
    hide AllInOrder, After, Enabled;
    if es != [] {
      RegisteredAreInOrder(secured, es[..|es| - 1]);
      EventKeepsInOrder(Exec(Start(secured), es[..|es| - 1]), es[|es| - 1]);
    } else {
      NoneRegistered(secured);
    }
  }

  lemma NoneRegistered(secured: bool)
    ensures AllInOrder(Start(secured))
  {
  }

  // In every reachable state an update by one connection, with whatever names, leaves every other client alone: the
  // routes of other identities, the sockets and tcp entries of other connections, their
  // registrations, and the clients map.
  lemma ReachableUpdateIsLocal(secured: bool, es: seq<Event>, k: nat, ps: seq<Spec>)
    requires IsRun(Start(secured), es) && k in Exec(Start(secured), es).conns
    requires !Exec(Start(secured), es).conns[k].leaving
    ensures var (w, w') := (Exec(Start(secured), es), Updated(Exec(Start(secured), es), k, ps));
            var who := w.conns[k].sess.who;
            && Reload.SameForeign(w.sh, w'.sh, who)
            && (forall q :: q in w.sh.tcp && w.sh.tcp[q].owner != who ==> q in w'.sh.tcp && w'.sh.tcp[q] == w.sh.tcp[q])
            && (forall j :: j in w.conns && j != k ==> j in w'.conns && w'.conns[j] == w.conns[j])
            && w'.clients == w.clients
  {
    hide EntriesOk, TicketsOk, ClientsOk, ConnsOk, OwnersOk, ApplyUpdate, IsRun, Exec, TidyBy;
    ReachableBase(secured, es);
    var w := Exec(Start(secured), es);
    var es' := UpdateIsRun(Start(secured), es, k, ps);
    ReachableBase(secured, es');
    assert Reload.HoldsSockets(w.sh, w.conns[k].sess) by {
      SocketsAreHeld(w, k);
    }
    Reload.UpdateIsLocal(w.sh, w.conns[k].sess, ps);
  }

  lemma SocketsAreHeld(w: World, k: nat)
    requires Base(w) && k in w.conns
    ensures Reload.HoldsSockets(w.sh, w.conns[k].sess)
  {
    hide TcpOk, TicketsOk, RanOk, ClientsOk, ConnsOk, SockOf;
    var se := w.conns[k].sess;
    forall n | n in se.regs && IsPortType(se.regs[n].spec.typ)
      ensures SockOf(se.regs[n].spec) in w.sh.bound && w.sh.bound[SockOf(se.regs[n].spec)].owner == se.who
    {
      assert Has(w.conns, k, n) && EntryOk(w.sh, se.who, n, At(w.conns, k, n));
    }
  }
}
