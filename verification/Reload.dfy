/**
 What a reload guarantees: which proxies end up registered, what is left alone, that a
 replay changes nothing, and that proxies may trade ports and hosts with each other.
 */
module Reload {
  import opened Text
  import opened ProxySpec
  import opened Registry
  import Grant

  predicate DistinctNames(ps: seq<Spec>) {
    forall i, j :: 0 <= i < j < |ps| ==> ps[i].name != ps[j].name
  }

  lemma {:induction false} DesiredHas(ps: seq<Spec>, i: nat)
    requires DistinctNames(ps) && i < |ps|
    ensures ps[i].name in Desired(ps) && Desired(ps)[ps[i].name] == ps[i]
  {
    var last := |ps| - 1;
    if i < last {
      assert forall j :: 0 <= j < last ==> ps[..last][j] == ps[j];
      DesiredHas(ps[..last], i);
    }
  }

  lemma {:induction false} DesiredFrom(ps: seq<Spec>, n: string) returns (i: nat)
    requires n in Desired(ps)
    ensures i < |ps| && ps[i].name == n
  {
    var last := |ps| - 1;
    if ps[last].name == n {
      i := last;
    } else {
      i := DesiredFrom(ps[..last], n);
    }
  }

  // Of proxies with one name the last one is desired.
  lemma {:induction false} DesiredIsLast(ps: seq<Spec>, i: nat)
    requires i < |ps| && forall j :: i < j < |ps| ==> ps[j].name != ps[i].name
    ensures ps[i].name in Desired(ps) && Desired(ps)[ps[i].name] == ps[i]
  {
    var last := |ps| - 1;
    if i < last {
      assert forall j :: 0 <= j < last ==> ps[..last][j] == ps[j];
      DesiredIsLast(ps[..last], i);
    }
  }

  lemma DesiredAt(ps: seq<Spec>)
    requires DistinctNames(ps)
    ensures forall i :: 0 <= i < |ps| ==> ps[i].name in Desired(ps) && Desired(ps)[ps[i].name] == ps[i]
    ensures forall n :: n in Desired(ps) ==> exists i :: 0 <= i < |ps| && ps[i].name == n
  {
    hide Desired;
    forall i | 0 <= i < |ps|
      ensures ps[i].name in Desired(ps) && Desired(ps)[ps[i].name] == ps[i]
    {
      DesiredHas(ps, i);
    }
    forall n | n in Desired(ps)
      ensures exists i :: 0 <= i < |ps| && ps[i].name == n
    {
      var i := DesiredFrom(ps, n);
    }
  }

  predicate AllOk(statuses: seq<Status>) {
    forall st :: st in statuses ==> st.Ok()
  }

  // --- the registering pass ---

  // Nothing that is already registered conflicts with what is desired.
  predicate Pruned(regs: map<string, Entry>, ps: seq<Spec>) {
    forall i :: 0 <= i < |ps| && ps[i].name in regs ==> Unchanged(regs, ps[i])
  }

  // Each proxy is answered in turn, OK exactly when its name is registered for its key.
  ghost predicate AnswersMatch(ps: seq<Spec>, r: Outcome) {
    && |r.statuses| == |ps|
    && forall i :: 0 <= i < |ps| ==>
         && r.statuses[i].name == ps[i].name
         && (r.statuses[i].Ok() <==> ps[i].name in r.se.regs)
         && (ps[i].name in r.se.regs ==> Unchanged(r.se.regs, ps[i]))
  }

  // Registrations are only added, for proxies of the list and with new tickets.
  ghost predicate OnlyAdds(o: Outcome, ps: seq<Spec>, r: Outcome) {
    && (forall n :: n in o.se.regs ==> n in r.se.regs && r.se.regs[n] == o.se.regs[n])
    && (forall n :: n in r.se.regs && n !in o.se.regs ==>
          && r.se.regs[n].ticket >= o.sh.next
          && exists i :: 0 <= i < |ps| && r.se.regs[n].spec == ps[i] && ps[i].name == n)
  }

  ghost predicate Enlisted(o: Outcome, ps: seq<Spec>, r: Outcome) {
    && r.se.who == o.se.who && r.se.grant == o.se.grant
    && r.sh.ran == o.sh.ran && r.sh.next >= o.sh.next
    && AnswersMatch(ps, r)
    && OnlyAdds(o, ps, r)
  }

  // One answer, and at most one new registration.
  ghost predicate Answered(sh: Shared, se: Session, p: Spec, one: Outcome) {
    && |one.statuses| == 1 && one.statuses[0].name == p.name
    && one.se.who == se.who && one.se.grant == se.grant
    && one.sh.ran == sh.ran && one.sh.next >= sh.next
    && (one.statuses[0].Ok() <==> p.name in one.se.regs)
    && (p.name in se.regs || p.name !in one.se.regs ==> one.se.regs == se.regs)
    && (p.name !in se.regs && p.name in one.se.regs ==>
          one.se.regs == se.regs[p.name := Entry(p, sh.next)])
  }

  lemma EnlistOneAnswers(sh: Shared, se: Session, p: Spec)
    requires p.name in se.regs ==> Unchanged(se.regs, p)
    ensures Answered(sh, se, p, EnlistOne(sh, se, p))
  {
    hide SpecKey;
  }

  lemma {:induction false} EnlistIsEnlisted(o: Outcome, ps: seq<Spec>)
    requires DistinctNames(ps) && o.statuses == [] && Pruned(o.se.regs, ps)
    ensures Enlisted(o, ps, Enlist(o, ps))
  {
    hide SpecKey, EnlistOne;
    if ps != [] {
      var last := |ps| - 1;
      var (init, p) := (ps[..last], ps[last]);
      assert forall i :: 0 <= i < last ==> init[i] == ps[i];
      EnlistIsEnlisted(o, init);
      var before := Enlist(o, init);
      assert p.name in before.se.regs ==> p.name in o.se.regs;
      EnlistOneAnswers(before.sh, before.se, p);
      EnlistedByOne(o, ps, before, EnlistOne(before.sh, before.se, p));
    }
  }

  lemma EnlistedByOne(o: Outcome, ps: seq<Spec>, before: Outcome, one: Outcome)
    requires ps != [] && DistinctNames(ps)
    requires Enlisted(o, ps[..|ps| - 1], before)
    requires var p := ps[|ps| - 1];
             && (p.name in before.se.regs ==> Unchanged(before.se.regs, p))
             && Answered(before.sh, before.se, p, one)
    ensures Enlisted(o, ps, one.(statuses := before.statuses + one.statuses))
  {
    hide SpecKey;
    var r := one.(statuses := before.statuses + one.statuses);
    MatchesByOne(ps, before, one);
    AddsByOne(o, ps, before, r);
  }

  lemma MatchesByOne(ps: seq<Spec>, before: Outcome, one: Outcome)
    requires ps != [] && DistinctNames(ps)
    requires AnswersMatch(ps[..|ps| - 1], before)
    requires var p := ps[|ps| - 1];
             && (p.name in before.se.regs ==> Unchanged(before.se.regs, p))
             && Answered(before.sh, before.se, p, one)
    ensures AnswersMatch(ps, one.(statuses := before.statuses + one.statuses))
  {
    hide SpecKey;
    var last := |ps| - 1;
    forall i | 0 <= i < |ps|
      ensures (before.statuses + one.statuses)[i].name == ps[i].name
      ensures (before.statuses + one.statuses)[i].Ok() <==> ps[i].name in one.se.regs
      ensures ps[i].name in one.se.regs ==> Unchanged(one.se.regs, ps[i])
    {
      if i < last {
        assert ps[..last][i] == ps[i] && ps[i].name != ps[last].name;
      }
    }
  }

  lemma AddsByOne(o: Outcome, ps: seq<Spec>, before: Outcome, r: Outcome)
    requires ps != [] && OnlyAdds(o, ps[..|ps| - 1], before) && before.sh.next >= o.sh.next
    requires r.se.regs == before.se.regs
             || r.se.regs == before.se.regs[ps[|ps| - 1].name := Entry(ps[|ps| - 1], before.sh.next)]
    requires r.se.regs != before.se.regs ==> ps[|ps| - 1].name !in before.se.regs
    ensures OnlyAdds(o, ps, r)
  {
    var init := ps[..|ps| - 1];
    forall n | n in r.se.regs && n !in o.se.regs
      ensures r.se.regs[n].ticket >= o.sh.next
      ensures exists i :: 0 <= i < |ps| && r.se.regs[n].spec == ps[i] && ps[i].name == n
    {
      if r.se.regs == before.se.regs || n != ps[|ps| - 1].name {
        var i :| 0 <= i < |init| && before.se.regs[n].spec == init[i] && init[i].name == n;
        assert ps[i] == init[i];
      }
    }
  }

  // --- the contract of a whole update ---

  lemma PruneLeavesUnchanged(sh: Shared, se: Session, ps: seq<Spec>)
    requires DistinctNames(ps)
    ensures var kept := se.regs - Doomed(se.regs, ps);
            Pruned(kept, ps)
            && forall n :: n in kept ==> exists i :: 0 <= i < |ps| && ps[i].name == n
  {
    DesiredAt(ps);
  }

  // The registration of that name is desired again with the same key.
  predicate Kept(regs: map<string, Entry>, ps: seq<Spec>, n: string) {
    exists i :: 0 <= i < |ps| && ps[i].name == n && Unchanged(regs, ps[i])
  }

  lemma DoomedAreTheRest(regs: map<string, Entry>, ps: seq<Spec>)
    requires DistinctNames(ps)
    ensures Doomed(regs, ps) == set n | n in regs && !Kept(regs, ps, n)
  {
    hide SpecKey;
    DesiredAt(ps);
  }

  // After an update, exactly the proxies answered OK are registered, each for its desired
  // key; a registration that is desired again with the same key is the same one and is not torn
  // down; every other old registration is torn down; nothing else is.
  lemma UpdateContract(sh: Shared, se: Session, ps: seq<Spec>)
    requires DistinctNames(ps)
    ensures var r := ApplyUpdate(sh, se, ps);
            && |r.statuses| == |ps|
            && r.se.who == se.who && r.se.grant == se.grant
            && (forall i :: 0 <= i < |ps| ==> r.statuses[i].name == ps[i].name)
            && r.se.regs.Keys == (set i | 0 <= i < |ps| && r.statuses[i].Ok() :: ps[i].name)
            && (forall i :: 0 <= i < |ps| && r.statuses[i].Ok() ==> Unchanged(r.se.regs, ps[i]))
    ensures var r := ApplyUpdate(sh, se, ps);
            var rest := set n | n in se.regs && !Kept(se.regs, ps, n);
            && (forall n :: n in se.regs && n !in rest ==> n in r.se.regs && r.se.regs[n] == se.regs[n])
            && (forall n :: n in r.se.regs && (n in rest || n !in se.regs) ==> r.se.regs[n].ticket >= sh.next)
            && r.sh.ran == sh.ran + TicketsOf(se.regs, rest)
  {
    hide SpecKey, EnlistOne, Kept;
    var doomed := Doomed(se.regs, ps);
    var o := Prune(sh, se, doomed);
    PruneLeavesUnchanged(sh, se, ps);
    EnlistIsEnlisted(o, ps);
    DoomedAreTheRest(se.regs, ps);
    var r := ApplyUpdate(sh, se, ps);
    assert Enlisted(o, ps, r);
    hide Enlist, Doomed, DistinctNames;
    NamesAnswered(o, ps, r);
  }

  lemma NamesAnswered(o: Outcome, ps: seq<Spec>, r: Outcome)
    requires Enlisted(o, ps, r)
    requires forall n :: n in o.se.regs ==> exists i :: 0 <= i < |ps| && ps[i].name == n
    ensures r.se.regs.Keys == set i | 0 <= i < |ps| && r.statuses[i].Ok() :: ps[i].name
  {
    hide SpecKey;
    forall n
      ensures n in r.se.regs <==> n in set i | 0 <= i < |ps| && r.statuses[i].Ok() :: ps[i].name
    {
      if n in r.se.regs {
        var i :| 0 <= i < |ps| && ps[i].name == n;
        assert r.statuses[i].Ok();
      }
    }
  }

  // The name is registered already, for another target that prints the same key.
  predicate Collides(regs: map<string, Entry>, p: Spec) {
    Unchanged(regs, p) && !SameTarget(regs[p.name].spec, p)
  }

  // An OK answer means that the desired target is registered, if and only if the name was not
  // registered before for another target with an equal key.
  lemma OkMeansRegisteredIff(sh: Shared, se: Session, ps: seq<Spec>, i: nat)
    requires DistinctNames(ps) && i < |ps|
    requires i < |ApplyUpdate(sh, se, ps).statuses| && ApplyUpdate(sh, se, ps).statuses[i].Ok()
    ensures var r := ApplyUpdate(sh, se, ps);
            && ps[i].name in r.se.regs
            && (SameTarget(r.se.regs[ps[i].name].spec, ps[i]) <==> !Collides(se.regs, ps[i]))
  {
    hide SpecKey, Enlist;
    var o := Prune(sh, se, Doomed(se.regs, ps));
    PruneLeavesUnchanged(sh, se, ps);
    EnlistIsEnlisted(o, ps);
    DoomedAreTheRest(se.regs, ps);
    var r := ApplyUpdate(sh, se, ps);
    var n := ps[i].name;
    if Unchanged(se.regs, ps[i]) {
      assert Kept(se.regs, ps, n);
      assert n in o.se.regs && r.se.regs[n] == se.regs[n];
    } else {
      NotKept(se.regs, ps, i);
      assert n !in o.se.regs;
      var j :| 0 <= j < |ps| && r.se.regs[n].spec == ps[j] && ps[j].name == n;
    }
  }

  lemma NotKept(regs: map<string, Entry>, ps: seq<Spec>, i: nat)
    requires DistinctNames(ps) && i < |ps| && !Unchanged(regs, ps[i])
    ensures !Kept(regs, ps, ps[i].name)
  {
    hide SpecKey;
  }

  // Among well-formed proxies nothing collides.
  lemma OkMeansRegistered(sh: Shared, se: Session, ps: seq<Spec>, i: nat)
    requires DistinctNames(ps) && i < |ps| && WellFormed(ps[i])
    requires ps[i].name in se.regs ==> WellFormed(se.regs[ps[i].name].spec)
    requires i < |ApplyUpdate(sh, se, ps).statuses| && ApplyUpdate(sh, se, ps).statuses[i].Ok()
    ensures var r := ApplyUpdate(sh, se, ps);
            ps[i].name in r.se.regs && SameTarget(r.se.regs[ps[i].name].spec, ps[i])
  {
    hide SpecKey, ApplyUpdate, WellFormed;
    OkMeansRegisteredIff(sh, se, ps, i);
    if ps[i].name in se.regs {
      SpecKeyInjective(se.regs[ps[i].name].spec, ps[i]);
    }
  }

  lemma {:induction false} EnlistAllUnchanged(o: Outcome, ps: seq<Spec>)
    requires o.statuses == []
    requires forall i :: 0 <= i < |ps| ==> Unchanged(o.se.regs, ps[i])
    ensures var r := Enlist(o, ps);
            && r.sh == o.sh && r.se == o.se && |r.statuses| == |ps|
            && forall i :: 0 <= i < |ps| ==> r.statuses[i] == Status(ps[i].name, None)
  {
    hide SpecKey, Register;
    if ps != [] {
      var last := |ps| - 1;
      forall i | 0 <= i < last
        ensures Unchanged(o.se.regs, ps[..last][i])
      {
        assert ps[..last][i] == ps[i];
      }
      EnlistAllUnchanged(o, ps[..last]);
    }
  }

  lemma NothingDoomed(regs: map<string, Entry>, ps: seq<Spec>)
    requires DistinctNames(ps) && forall i :: 0 <= i < |ps| ==> Unchanged(regs, ps[i])
    requires forall n :: n in regs ==> exists i :: 0 <= i < |ps| && ps[i].name == n
    ensures Doomed(regs, ps) == {}
  {
    hide SpecKey;
    DesiredAt(ps);
  }

  // After an update that fully succeeded, every desired proxy is registered as desired.
  lemma SettledByUpdate(sh: Shared, se: Session, ps: seq<Spec>)
    requires DistinctNames(ps)
    requires AllOk(ApplyUpdate(sh, se, ps).statuses)
    ensures var r := ApplyUpdate(sh, se, ps);
            && (forall i :: 0 <= i < |ps| ==> Unchanged(r.se.regs, ps[i]))
            && Doomed(r.se.regs, ps) == {}
            && |r.statuses| == |ps|
            && forall i :: 0 <= i < |ps| ==> r.statuses[i] == Status(ps[i].name, None)
  {
    var r := ApplyUpdate(sh, se, ps);
    UpdateContract(sh, se, ps);
    hide ApplyUpdate, SpecKey, Doomed, Unchanged;
    forall i | 0 <= i < |ps|
      ensures r.statuses[i] == Status(ps[i].name, None)
    {
      assert r.statuses[i] in r.statuses && r.statuses[i].Ok();
    }
    NothingDoomed(r.se.regs, ps);
  }

  lemma SettledIsLeftAlone(sh: Shared, se: Session, ps: seq<Spec>)
    requires Doomed(se.regs, ps) == {} && forall i :: 0 <= i < |ps| ==> Unchanged(se.regs, ps[i])
    ensures var r := ApplyUpdate(sh, se, ps);
            && r.sh == sh && r.se == se && |r.statuses| == |ps|
            && forall i :: 0 <= i < |ps| ==> r.statuses[i] == Status(ps[i].name, None)
  {
    hide Unchanged, Doomed;
    CloseAllNone(sh, se.who, se.regs);
    assert se.regs - {} == se.regs;
    EnlistAllUnchanged(Prune(sh, se, {}), ps);
  }

  // Replaying an update that fully succeeded changes nothing and answers the same.
  lemma ReplayIsNoOp(sh: Shared, se: Session, ps: seq<Spec>)
    requires DistinctNames(ps)
    requires AllOk(ApplyUpdate(sh, se, ps).statuses)
    ensures var r := ApplyUpdate(sh, se, ps);
            ApplyUpdate(r.sh, r.se, ps) == r
  {
    hide *;
    var r := ApplyUpdate(sh, se, ps);
    SettledByUpdate(sh, se, ps);
    SettledIsLeftAlone(r.sh, r.se, ps);
    assert ApplyUpdate(r.sh, r.se, ps).statuses == r.statuses;
  }

  // --- proxies may trade places ---

  // Every socket bound for this connection belongs to one of its registrations.
  predicate OwnsItsSockets(sh: Shared, se: Session) {
    forall s :: s in sh.bound && sh.bound[s].owner == se.who ==>
      var p := sh.bound[s].spec;
      p.name in se.regs && se.regs[p.name].spec == p && IsPortType(p.typ) && SockOf(p) == s
  }

  // A proxy that is in order as far as it can be judged without the tables.
  predicate InOrder(grant: Option<Grant.Grant>, p: Spec) {
    && p.name != "" && |p.name| <= MAX_NAME
    && Unauthorized(grant, p).None?
    && Supported(p.typ)
    && (IsPortType(p.typ) ==> 0 < p.remotePort <= MAX_PORT)
    && (IsWebType(p.typ) ==> Hosts(p) != [])
  }

  // Its socket and hosts are free, or held by this same client.
  predicate Available(sh: Shared, who: Owner, p: Spec) {
    && (IsPortType(p.typ) && SockOf(p) in sh.bound ==> sh.bound[SockOf(p)].owner == who)
    && (IsWebType(p.typ) ==> HostsFree(sh.vhosts, who.id, p))
  }

  predicate HostsFree(vhosts: map<string, Ref>, id: string, p: Spec) {
    forall h :: h in HostSet(p) && h in vhosts ==> vhosts[h].owner.id == id
  }

  // Proxies that name no port cannot be bound and do not count.
  predicate DistinctSockets(ps: seq<Spec>) {
    forall i, j :: 0 <= i < j < |ps| && IsPortType(ps[i].typ) && IsPortType(ps[j].typ) && ps[i].remotePort > 0 ==>
      SockOf(ps[i]) != SockOf(ps[j])
  }

  lemma {:induction false} NoneClaimed(vhosts: map<string, Ref>, id: string, hosts: seq<string>)
    ensures FirstClaimed(vhosts, id, hosts).None? <==>
            forall x :: x in hosts && Lower(x) in vhosts ==> vhosts[Lower(x)].owner.id == id
  {
    if hosts != [] {
      NoneClaimed(vhosts, id, hosts[1..]);
      assert forall x :: x in hosts <==> x == hosts[0] || x in hosts[1..];
    }
  }

  // A proxy is taken on exactly when it is in order, its socket is unbound and none of its
  // hosts is routed for another identity.
  lemma RefusedExactlyWhen(sh: Shared, who: Owner, grant: Option<Grant.Grant>, p: Spec)
    ensures Refusal(sh, who, grant, p).None? <==>
            && InOrder(grant, p)
            && (IsPortType(p.typ) ==> SockOf(p) !in sh.bound)
            && (IsWebType(p.typ) ==> HostsFree(sh.vhosts, who.id, p))
  {
    NoneClaimed(sh.vhosts, who.id, Hosts(p));
    assert HostsFree(sh.vhosts, who.id, p) <==>
           forall x :: x in Hosts(p) && Lower(x) in sh.vhosts ==> sh.vhosts[Lower(x)].owner.id == who.id
    by {
      forall x | x in Hosts(p)
        ensures Lower(x) in HostSet(p)
      {
      }
    }
  }

  predicate Asks(p: Spec, s: Sock) {
    IsPortType(p.typ) && p.remotePort > 0 && SockOf(p) == s
  }

  // What enlisting a list leaves in the two tables: old entries, or entries of this list.
  ghost predicate Grown(o: Outcome, ps: seq<Spec>, r: Outcome) {
    && (forall s :: s in r.sh.bound ==>
          s in o.sh.bound || exists i :: 0 <= i < |ps| && Asks(ps[i], s))
    && (forall h :: h in r.sh.vhosts && r.sh.vhosts[h].owner.id != o.se.who.id ==>
          h in o.sh.vhosts && o.sh.vhosts[h] == r.sh.vhosts[h])
  }

  // What is still bound or routed is no obstacle to the desired proxies that are in order.
  ghost predicate Unobstructed(o: Outcome, ps: seq<Spec>) {
    forall i :: 0 <= i < |ps| && InOrder(o.se.grant, ps[i]) ==>
      && (IsPortType(ps[i].typ) && SockOf(ps[i]) in o.sh.bound ==> Unchanged(o.se.regs, ps[i]))
      && (IsWebType(ps[i].typ) ==> HostsFree(o.sh.vhosts, o.se.who.id, ps[i]))
  }

  lemma GrownByOne(o: Outcome, init: seq<Spec>, before: Outcome, p: Spec)
    requires Grown(o, init, before) && before.se.who == o.se.who
    ensures var one := EnlistOne(before.sh, before.se, p);
            Grown(o, init + [p], Outcome(one.sh, one.se, before.statuses + one.statuses))
  {
    hide Refusal, SockOf;
    var ps := init + [p];
    var one := EnlistOne(before.sh, before.se, p);
    RefusedExactlyWhen(before.sh, before.se.who, before.se.grant, p);
    forall s | s in one.sh.bound && s !in o.sh.bound
      ensures exists i :: 0 <= i < |ps| && Asks(ps[i], s)
    {
      if s in before.sh.bound {
        var i :| 0 <= i < |init| && Asks(init[i], s);
        assert ps[i] == init[i];
      } else {
        assert ps[|init|] == p;
      }
    }
  }

  lemma InitUnobstructed(o: Outcome, ps: seq<Spec>)
    requires ps != [] && DistinctNames(ps) && DistinctSockets(ps)
    requires Pruned(o.se.regs, ps) && Unobstructed(o, ps)
    ensures var init := ps[..|ps| - 1];
      DistinctNames(init) && DistinctSockets(init) && Pruned(o.se.regs, init) && Unobstructed(o, init)
  {
    hide SpecKey, SockOf, InOrder;
    assert forall i :: 0 <= i < |ps| - 1 ==> ps[..|ps| - 1][i] == ps[i];
  }

  // Each proxy is answered OK exactly when it is kept or in order.
  ghost predicate FairlyAnswered(o: Outcome, ps: seq<Spec>, statuses: seq<Status>) {
    && |statuses| == |ps|
    && forall i :: 0 <= i < |ps| ==>
         (statuses[i].Ok() <==> Unchanged(o.se.regs, ps[i]) || InOrder(o.se.grant, ps[i]))
  }

  lemma {:induction false} EnlistUnobstructed(o: Outcome, ps: seq<Spec>)
    requires DistinctNames(ps) && DistinctSockets(ps)
    requires o.statuses == [] && Pruned(o.se.regs, ps) && Unobstructed(o, ps)
    ensures Grown(o, ps, Enlist(o, ps))
    ensures FairlyAnswered(o, ps, Enlist(o, ps).statuses)
  {
    hide SpecKey, Register, Refusal;
    if ps != [] {
      var last := |ps| - 1;
      var (init, p) := (ps[..last], ps[last]);
      InitUnobstructed(o, ps);
      hide DistinctNames, DistinctSockets, Pruned, Unobstructed, Grown, InOrder, SockOf, FairlyAnswered;
      EnlistUnobstructed(o, init);
      EnlistIsEnlisted(o, init);
      var before := Enlist(o, init);
      GrownByOne(o, init, before, p);
      assert init + [p] == ps;
      LastIsFair(o, ps, before);
      FairByOne(o, ps, before.statuses, EnlistOne(before.sh, before.se, p).statuses);
    } else {
      NothingGrown(o);
    }
  }

  lemma FairByOne(o: Outcome, ps: seq<Spec>, some: seq<Status>, one: seq<Status>)
    requires ps != [] && FairlyAnswered(o, ps[..|ps| - 1], some) && FairlyAnswered(o, [ps[|ps| - 1]], one)
    ensures FairlyAnswered(o, ps, some + one)
  {
    hide InOrder, Unchanged;
  }

  lemma SameNameAsBefore(o: Outcome, ps: seq<Spec>, before: Outcome)
    requires ps != [] && DistinctNames(ps) && Enlisted(o, ps[..|ps| - 1], before)
    ensures Unchanged(before.se.regs, ps[|ps| - 1]) <==> Unchanged(o.se.regs, ps[|ps| - 1])
  {
    hide SpecKey;
  }

  lemma LastIsFair(o: Outcome, ps: seq<Spec>, before: Outcome)
    requires ps != [] && DistinctNames(ps) && DistinctSockets(ps) && Unobstructed(o, ps)
    requires Enlisted(o, ps[..|ps| - 1], before) && Grown(o, ps[..|ps| - 1], before)
    ensures FairlyAnswered(o, [ps[|ps| - 1]], EnlistOne(before.sh, before.se, ps[|ps| - 1]).statuses)
  {
    var p := ps[|ps| - 1];
    SameNameAsBefore(o, ps, before);
    RefusedExactlyWhen(before.sh, before.se.who, before.se.grant, p);
    if InOrder(o.se.grant, p) && !Unchanged(before.se.regs, p) {
      NextIsFree(o, ps, before);
    }
    hide Unchanged, InOrder, Refusal, HostsFree, SockOf, DistinctNames, DistinctSockets, Unobstructed, Grown;
  }

  lemma NothingGrown(o: Outcome)
    ensures Grown(o, [], o)
  {
  }

  lemma NextIsFree(o: Outcome, ps: seq<Spec>, before: Outcome)
    requires ps != [] && DistinctSockets(ps) && Unobstructed(o, ps)
    requires Enlisted(o, ps[..|ps| - 1], before) && Grown(o, ps[..|ps| - 1], before)
    requires InOrder(o.se.grant, ps[|ps| - 1]) && !Unchanged(before.se.regs, ps[|ps| - 1])
    ensures var p := ps[|ps| - 1];
            && (IsPortType(p.typ) ==> SockOf(p) !in before.sh.bound)
            && (IsWebType(p.typ) ==> HostsFree(before.sh.vhosts, before.se.who.id, p))
  {
    var last := |ps| - 1;
    assert forall i :: 0 <= i < last ==> ps[..last][i] == ps[i];
  }

  // A socket of a registration that is torn down is not bound any more.
  lemma BoundIsKept(sh: Shared, se: Session, names: set<string>, n: string)
    requires names <= se.regs.Keys && n in se.regs && IsPortType(se.regs[n].spec.typ)
    requires SockOf(se.regs[n].spec) in Prune(sh, se, names).sh.bound
    ensures n !in names
  {
  }

  lemma KeptWithSocket(sh: Shared, se: Session, ps: seq<Spec>, i: nat, n: string)
    requires DistinctNames(ps) && DistinctSockets(ps)
    requires i < |ps| && IsPortType(ps[i].typ) && ps[i].remotePort > 0
    requires forall p :: p in ps ==> Supported(p.typ)
    requires n in se.regs && n !in Doomed(se.regs, ps)
    requires IsPortType(se.regs[n].spec.typ) && SockOf(se.regs[n].spec) == SockOf(ps[i])
    ensures Unchanged(se.regs, ps[i]) && ps[i].name == n
  {
    assert n in Desired(ps) && SpecKey(Desired(ps)[n]) == SpecKey(se.regs[n].spec);
    hide SpecKey, Doomed, Desired;
    var j := DesiredFrom(ps, n);
    DesiredHas(ps, j);
    var (p, q) := (ps[j], se.regs[n].spec);
    assert p in ps;
    KeyFixesTypeAndPort(p, q);
    assert SockOf(p) == SockOf(q);
    assert j == i;
  }

  // Pruning clears the way for every proxy that is in order and available.
  lemma PruneUnobstructs(sh: Shared, se: Session, ps: seq<Spec>)
    requires OwnsItsSockets(sh, se) && DistinctNames(ps) && DistinctSockets(ps)
    requires forall p :: p in ps ==> Supported(p.typ) && (InOrder(se.grant, p) ==> Available(sh, se.who, p))
    ensures Unobstructed(Prune(sh, se, Doomed(se.regs, ps)), ps)
  {
    hide SpecKey;
    var doomed := Doomed(se.regs, ps);
    var o := Prune(sh, se, doomed);
    forall i | 0 <= i < |ps| && InOrder(se.grant, ps[i])
      ensures IsPortType(ps[i].typ) && SockOf(ps[i]) in o.sh.bound ==> Unchanged(o.se.regs, ps[i])
      ensures IsWebType(ps[i].typ) ==> HostsFree(o.sh.vhosts, o.se.who.id, ps[i])
    {
      assert ps[i] in ps;
      if IsPortType(ps[i].typ) && SockOf(ps[i]) in o.sh.bound {
        var q := sh.bound[SockOf(ps[i])].spec;
        BoundIsKept(sh, se, doomed, q.name);
        KeptWithSocket(sh, se, ps, i, q.name);
      }
    }
  }

  // A reload with distinct names and sockets, of whose proxies those in order are free or held
  // by this client, answers OK exactly to those that are in order or kept, even when they take
  // over each other's ports and hosts.
  lemma ReloadAnswersFairly(sh: Shared, se: Session, ps: seq<Spec>)
    requires OwnsItsSockets(sh, se) && DistinctNames(ps) && DistinctSockets(ps)
    requires forall p :: p in ps ==> Supported(p.typ) && (InOrder(se.grant, p) ==> Available(sh, se.who, p))
    ensures FairlyAnswered(Outcome(sh, se, []), ps, ApplyUpdate(sh, se, ps).statuses)
  {
    hide SpecKey, InOrder, DistinctSockets, OwnsItsSockets, Available, Enlist;
    PruneLeavesUnchanged(sh, se, ps);
    PruneUnobstructs(sh, se, ps);
    var o := Prune(sh, se, Doomed(se.regs, ps));
    EnlistUnobstructed(o, ps);
    DoomedAreTheRest(se.regs, ps);
    forall i | 0 <= i < |ps|
      ensures Unchanged(o.se.regs, ps[i]) <==> Unchanged(se.regs, ps[i])
    {
      if Unchanged(se.regs, ps[i]) {
        assert Kept(se.regs, ps, ps[i].name);
      }
    }
  }

  // If all its proxies are in order, none is refused.
  lemma ReloadIsPermutationSafe(sh: Shared, se: Session, ps: seq<Spec>)
    requires OwnsItsSockets(sh, se) && DistinctNames(ps) && DistinctSockets(ps)
    requires forall p :: p in ps ==> InOrder(se.grant, p) && Available(sh, se.who, p)
    ensures AllOk(ApplyUpdate(sh, se, ps).statuses)
  {
    hide ApplyUpdate, Unchanged, OwnsItsSockets, DistinctNames, DistinctSockets;
    ReloadAnswersFairly(sh, se, ps);
  }

  // --- other clients ---

  // The two tables agree on everything that is routed for another identity.
  ghost predicate SameForeignRoutes(v: map<string, Ref>, v': map<string, Ref>, id: string) {
    && (forall h :: h in v && v[h].owner.id != id ==> h in v' && v'[h] == v[h])
    && (forall h :: h in v' && v'[h].owner.id != id ==> h in v && v[h] == v'[h])
  }

  // The two tables agree on everything that is bound for another connection.
  ghost predicate SameForeignSocks(b: map<Sock, Ref>, b': map<Sock, Ref>, who: Owner) {
    && (forall s :: s in b && b[s].owner != who ==> s in b' && b'[s] == b[s])
    && (forall s :: s in b' && b'[s].owner != who ==> s in b && b[s] == b'[s])
  }

  ghost predicate SameForeign(sh: Shared, sh': Shared, who: Owner) {
    SameForeignRoutes(sh.vhosts, sh'.vhosts, who.id) && SameForeignSocks(sh.bound, sh'.bound, who)
  }

  // Every port registration of the client holds its socket.
  predicate HoldsSockets(sh: Shared, se: Session) {
    forall n :: n in se.regs && IsPortType(se.regs[n].spec.typ) ==>
      SockOf(se.regs[n].spec) in sh.bound && sh.bound[SockOf(se.regs[n].spec)].owner == se.who
  }

  lemma RegisterIsLocal(sh: Shared, se: Session, p: Spec)
    ensures SameForeign(sh, Register(sh, se, p).sh, se.who) && Register(sh, se, p).se.who == se.who
  {
    hide Refusal;
    if Refusal(sh, se.who, se.grant, p).None? {
      RefusedExactlyWhen(sh, se.who, se.grant, p);
    }
  }

  lemma PruneIsLocal(sh: Shared, se: Session, names: set<string>)
    requires names <= se.regs.Keys && HoldsSockets(sh, se)
    ensures SameForeign(sh, Prune(sh, se, names).sh, se.who)
  {
    hide SockOf, WebHosts;
  }

  lemma {:induction false} EnlistIsLocal(o: Outcome, ps: seq<Spec>)
    ensures SameForeign(o.sh, Enlist(o, ps).sh, o.se.who) && Enlist(o, ps).se.who == o.se.who
  {
    hide Register, SpecKey;
    if ps != [] {
      var last := |ps| - 1;
      EnlistIsLocal(o, ps[..last]);
      var before := Enlist(o, ps[..last]);
      RegisterIsLocal(before.sh, before.se, ps[last]);
    }
  }

  // An update, with whatever names, touches no route of another identity and no socket of
  // another connection: it removes none, adds none, and changes none.
  lemma UpdateIsLocal(sh: Shared, se: Session, ps: seq<Spec>)
    requires HoldsSockets(sh, se)
    ensures SameForeign(sh, ApplyUpdate(sh, se, ps).sh, se.who)
  {
    hide Enlist, CloseAll, Doomed;
    DoomedAreRegistered(se.regs, ps);
    var o := Prune(sh, se, Doomed(se.regs, ps));
    PruneIsLocal(sh, se, Doomed(se.regs, ps));
    EnlistIsLocal(o, ps);
  }

  lemma DoomedAreRegistered(regs: map<string, Entry>, ps: seq<Spec>)
    ensures Doomed(regs, ps) <= regs.Keys
  {
    hide SpecKey, Desired;
  }
}
