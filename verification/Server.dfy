/**
 The engine's registry as it is coded: maps updated in place, loops that run teardowns and
 register proxies one by one. Each method is proved to do what the value-level registry says.
 */
module Server {
  import opened Text
  import opened ProxySpec
  import opened Registry
  import Grant
  import Routing

  class Server {
    const secured: bool
    var vhosts: map<string, Ref>
    var tcp: map<int, Ref>
    var bound: map<Sock, Ref>
    var ran: set<nat>
    var next: nat
    var clients: map<string, Owner>
    var nextConn: nat

    ghost function View(): Shared
      reads this
    {
      Shared(vhosts, tcp, bound, ran, next)
    }

    // Tickets are handed out in order.
    ghost predicate Sound()
      reads this
    {
      forall t :: t in ran ==> t < next
    }

    constructor (secured: bool)
      ensures Sound()
      ensures this.secured == secured
      ensures View() == Shared(map[], map[], map[], {}, 0) && clients == map[] && nextConn == 0
    {
      this.secured := secured;
      vhosts, tcp, bound, ran, next, clients, nextConn := map[], map[], map[], {}, 0, map[], 0;
    }

    // A hello: check the grant, evict an older connection of the same identity, register. A
    // refused hello leaves everything as it was.
    method HandleHello(mac: string -> string, id: string, token: string, ps: seq<Spec>, now: int)
        returns (r: Result)
      requires Sound()
      modifies this
      ensures Sound()
      ensures secured && Grant.Verified(mac, token, id, now).Failure? ==>
                r == Rejected && View() == old(View()) && clients == old(clients) && nextConn == old(nextConn)
      ensures !secured || Grant.Verified(mac, token, id, now).Success? ==>
                && r.Accepted? && fresh(r.client) && r.client.s == this
                && r.client.who == Owner(old(nextConn), id)
                && nextConn == old(nextConn) + 1 && clients == old(clients)[id := r.client.who]
                && (r.evicted == if id in old(clients) then Some(old(clients)[id]) else None)
                && var grant := if secured then Some(Grant.Verified(mac, token, id, now).grant) else None;
                   Outcome(View(), r.client.Sess(), r.statuses)
                   == ApplyUpdate(old(View()), Session(r.client.who, grant, map[]), ps)
    {
      var grant: Option<Grant.Grant> := None;
      if secured {
        var g := Grant.Verify(mac, token, id, now);
        if g.Failure? {
          return Rejected;
        }
        grant := Some(g.grant);
      }
      var c := new Client(this, Owner(nextConn, id), grant);
      nextConn := nextConn + 1;
      var evicted := if id in clients then Some(clients[id]) else None;
      clients := clients[id := c.who];
      var statuses := c.ApplyUpdate(ps);
      return Accepted(c, evicted, statuses);
    }

    // The entry for a request's host: lower-case it, cut the port off, look it up.
    method FindRoute(host: string) returns (r: Option<Ref>)
      ensures r == Routing.Reached(vhosts, host)
    {
      var h := Lower(host);
      var i := 0;
      while i < |h| && h[i] != ':'
        invariant 0 <= i <= |h| && forall j :: 0 <= j < i ==> h[j] != ':'
      {
        i := i + 1;
      }
      HostBeforeColon(h, i);
      h := h[..i];
      r := if h in vhosts then Some(vhosts[h]) else None;
    }
  }

  datatype Result = Rejected | Accepted(client: Client, evicted: Option<Owner>, statuses: seq<Status>)

  class Client {
    const s: Server
    const who: Owner
    var grant: Option<Grant.Grant>
    var regs: map<string, Entry>

    ghost function Sess(): Session
      reads this
    {
      Session(who, grant, regs)
    }

    // No registration of this client has been torn down yet, and no two share a teardown.
    ghost predicate Fresh()
      reads this, s
    {
      && (forall n :: n in regs ==> regs[n].ticket < s.next && regs[n].ticket !in s.ran)
      && Unshared()
      && s.Sound()
    }

    ghost predicate Unshared()
      reads this
    {
      forall n, m :: n in regs && m in regs && n != m ==> regs[n].ticket != regs[m].ticket
    }

    lemma FreshFacts()
      requires Fresh()
      ensures Unshared() && forall n :: n in regs ==> regs[n].ticket !in s.ran
    {
    }

    constructor (s: Server, who: Owner, grant: Option<Grant.Grant>)
      ensures this.s == s && Sess() == Session(who, grant, map[])
    {
      this.s, this.who, this.grant, this.regs := s, who, grant, map[];
    }

    // The first host outside the grant, if any.
    method CheckHosts(g: Grant.Grant, hosts: seq<string>) returns (bad: Option<string>)
      ensures bad == FirstForbidden(g, hosts)
    {
      for i := 0 to |hosts|
        invariant FirstForbidden(g, hosts) == FirstForbidden(g, hosts[i..])
      {
        if !g.AllowHost(hosts[i]) {
          return Some(hosts[i]);
        }
      }
      return None;
    }

    method CheckGrant(p: Spec) returns (error: Option<Error>)
      ensures error == Unauthorized(grant, p)
    {
      if grant.None? {
        return None;
      }
      if IsPortType(p.typ) {
        return if grant.value.AllowPort(p.remotePort) then None else Some(PortNotAuthorized);
      }
      if IsWebType(p.typ) {
        var bad := CheckHosts(grant.value, Hosts(p));
        return if bad.Some? then Some(HostNotAuthorized(bad.value)) else None;
      }
      return None;
    }

    // Look at every host before inserting any.
    method LookForClaims(hosts: seq<string>) returns (taken: Option<string>, lowered: seq<string>)
      ensures taken == FirstClaimed(s.vhosts, who.id, hosts)
      ensures taken.None? ==> |lowered| == |hosts| && forall j :: 0 <= j < |hosts| ==> lowered[j] == Lower(hosts[j])
    {
      lowered := [];
      for i := 0 to |hosts|
        invariant |lowered| == i && forall j :: 0 <= j < i ==> lowered[j] == Lower(hosts[j])
        invariant FirstClaimed(s.vhosts, who.id, hosts) == FirstClaimed(s.vhosts, who.id, hosts[i..])
      {
        var h := Lower(hosts[i]);
        if h in s.vhosts && s.vhosts[h].owner.id != who.id {
          return Some(h), lowered;
        }
        lowered := lowered + [h];
      }
      taken := None;
    }

    method InsertRoutes(lowered: seq<string>, p: Spec)
      modifies s`vhosts
      ensures s.vhosts == Claim(old(s.vhosts), (set h | h in lowered), Ref(who, p))
    {
      for i := 0 to |lowered|
        invariant s.vhosts == Claim(old(s.vhosts), (set h | h in lowered[..i]), Ref(who, p))
      {
        assert lowered[..i + 1] == lowered[..i] + [lowered[i]];
        s.vhosts := s.vhosts[lowered[i] := Ref(who, p)];
      }
      assert lowered[..|lowered|] == lowered;
    }

    method ClaimHosts(p: Spec) returns (taken: Option<string>)
      modifies s`vhosts
      ensures taken == FirstClaimed(old(s.vhosts), who.id, Hosts(p))
      ensures s.vhosts == if taken.Some? then old(s.vhosts) else Claim(old(s.vhosts), HostSet(p), Ref(who, p))
    {
      var lowered;
      taken, lowered := LookForClaims(Hosts(p));
      if taken.None? {
        InsertRoutes(lowered, p);
        assert (set h | h in lowered) == HostSet(p) by {
          LoweredIsHostSet(p, lowered);
        }
      }
    }

    method Register(p: Spec) returns (st: Status)
      modifies this`regs, s`vhosts, s`tcp, s`bound, s`next
      ensures Outcome(s.View(), Sess(), [st]) == Registry.Register(old(s.View()), old(Sess()), p)
      ensures old(Fresh()) ==> Fresh()
    {
      if p.name == "" || |p.name| > MAX_NAME {
        return Status(p.name, Some(InvalidName));
      }
      var error := CheckGrant(p);
      if error.Some? {
        return Status(p.name, error);
      }
      if IsPortType(p.typ) {
        if p.remotePort <= 0 {
          return Status(p.name, Some(PortRequired));
        }
        if p.remotePort > MAX_PORT || SockOf(p) in s.bound {
          return Status(p.name, Some(BindFailed));
        }
        s.bound := s.bound[SockOf(p) := Ref(who, p)];
        if p.typ == "tcp" {
          s.tcp := s.tcp[p.remotePort := Ref(who, p)];
        }
      } else if IsWebType(p.typ) {
        if Hosts(p) == [] {
          return Status(p.name, Some(NoDomains));
        }
        var taken := ClaimHosts(p);
        if taken.Some? {
          return Status(p.name, Some(HostClaimed(taken.value)));
        }
      } else {
        return Status(p.name, Some(UnknownType));
      }
      regs := regs[p.name := Entry(p, s.next)];
      s.next := s.next + 1;
      return Status(p.name, None);
    }

    // Run the teardown of one registration; running it twice would close a closed channel.
    method CloseEntry(e: Entry)
      requires e.ticket !in s.ran
      modifies s`vhosts, s`tcp, s`bound, s`ran
      ensures s.View() == Close(old(s.View()), who, e)
      ensures s.ran == old(s.ran) + {e.ticket}
    {
      var p := e.spec;
      ReleaseNothing(s.vhosts, who);
      assert !IsWebType(p.typ) ==> WebHosts(p) == {};
      if IsPortType(p.typ) {
        s.bound := s.bound - {SockOf(p)};
        if p.typ == "tcp" {
          s.tcp := s.tcp - {p.remotePort};
        }
      } else if IsWebType(p.typ) {
        var hosts := Hosts(p);
        for i := 0 to |hosts|
          invariant s.vhosts == Release(old(s.vhosts), who, set x | x in hosts[..i] :: Lower(x))
          invariant s.tcp == old(s.tcp) && s.bound == old(s.bound) && s.ran == old(s.ran)
        {
          assert hosts[..i + 1] == hosts[..i] + [hosts[i]];
          var h := Lower(hosts[i]);
          if h in s.vhosts && s.vhosts[h].owner == who {
            s.vhosts := s.vhosts - {h};
          }
        }
        assert hosts[..|hosts|] == hosts;
        assert s.vhosts == Release(old(s.vhosts), who, WebHosts(p));
      }
      s.ran := s.ran + {e.ticket};
    }

    // The graceful reload.
    method ApplyUpdate(ps: seq<Spec>) returns (statuses: seq<Status>)
      requires Fresh()
      modifies this`regs, s`vhosts, s`tcp, s`bound, s`ran, s`next
      ensures Outcome(s.View(), Sess(), statuses) == Registry.ApplyUpdate(old(s.View()), old(Sess()), ps)
      ensures Fresh()
    {
      hide Registry.Register, SpecKey, CloseAll;
      ghost var sh0, se0 := s.View(), Sess();
      var desired: map<string, Spec> := map[];
      for i := 0 to |ps|
        invariant desired == Desired(ps[..i])
      {
        assert ps[..i + 1][..i] == ps[..i];
        desired := desired[ps[i].name := ps[i]];
      }
      assert ps[..|ps|] == ps;
      ghost var doomed := Doomed(regs, ps);
      RemoveUndesired(desired, ps);
      ghost var pruned := Prune(sh0, se0, doomed);
      statuses := [];
      for i := 0 to |ps|
        invariant Outcome(s.View(), Sess(), statuses) == Enlist(pruned, ps[..i])
        invariant Fresh()
      {
        assert ps[..i + 1][..i] == ps[..i];
        var p := ps[i];
        if p.name in regs && SpecKey(regs[p.name].spec) == SpecKey(p) {
          statuses := statuses + [Status(p.name, None)];
        } else {
          var st := Register(p);
          statuses := statuses + [st];
        }
      }
    }

    // Tear down, in any order, what is no longer desired or has changed.
    method RemoveUndesired(desired: map<string, Spec>, ghost ps: seq<Spec>)
      requires Fresh() && desired == Desired(ps)
      modifies this`regs, s`vhosts, s`tcp, s`bound, s`ran
      ensures Outcome(s.View(), Sess(), []) == Prune(old(s.View()), old(Sess()), Doomed(old(regs), ps))
      ensures Fresh()
    {
      hide CloseAll, Close, SpecKey, Desired, Doomed;
      ghost var sh0, regs0, doomed := s.View(), regs, Doomed(regs, ps);
      DoomedNames(regs0, ps);
      CloseAllNone(sh0, who, regs0);
      var pending := regs.Keys;
      ghost var done: set<string> := {};
      assert regs0 - {} == regs0;
      while pending != {}
        invariant pending <= regs.Keys && done <= doomed <= regs0.Keys
        invariant done !! pending && done + pending >= doomed
        invariant s.View() == CloseAll(sh0, who, regs0, done)
        invariant regs == regs0 - done
        invariant Fresh()
        decreases |pending|
      {
        var n :| n in pending;
        pending := pending - {n};
        assert regs[n] == regs0[n];
        if n !in desired || SpecKey(desired[n]) != SpecKey(regs[n].spec) {
          CloseAllStep(sh0, who, regs0, done, n);
          RemoveTwice(regs0, done, {n});
          CloseAndForget(n);
          done := done + {n};
        }
      }
      assert done == doomed;
    }

    method CloseAndForget(n: string)
      requires Fresh() && n in regs
      modifies this`regs, s`vhosts, s`tcp, s`bound, s`ran
      ensures s.View() == Close(old(s.View()), who, old(regs)[n])
      ensures regs == old(regs) - {n}
      ensures Fresh()
    {
      CloseEntry(regs[n]);
      regs := regs - {n};
    }

    // An update message: with grants enforced, a grant that fails to verify leaves the
    // whole registry, and this client, unchanged.
    method HandleUpdate(mac: string -> string, token: string, ps: seq<Spec>, now: int)
        returns (statuses: Option<seq<Status>>)
      requires Fresh()
      modifies this`grant, this`regs, s`vhosts, s`tcp, s`bound, s`ran, s`next
      ensures Fresh()
      ensures s.secured && Grant.Verified(mac, token, who.id, now).Failure? ==>
                statuses == None && s.View() == old(s.View()) && Sess() == old(Sess())
      ensures !s.secured || Grant.Verified(mac, token, who.id, now).Success? ==>
                && statuses.Some?
                && var g := if s.secured then Some(Grant.Verified(mac, token, who.id, now).grant) else old(grant);
                   Outcome(s.View(), Sess(), statuses.value)
                   == Registry.ApplyUpdate(old(s.View()), old(Sess()).(grant := g), ps)
    {
      if s.secured {
        var g := Grant.Verify(mac, token, who.id, now);
        if g.Failure? {
          return None;
        }
        grant := Some(g.grant);
      }
      var st := ApplyUpdate(ps);
      return Some(st);
    }

    // The end of a connection: leave the clients map unless a newer connection has taken the
    // place, then tear everything down.
    method Disconnect()
      requires Fresh()
      modifies this`regs, s`vhosts, s`tcp, s`bound, s`ran, s`clients
      ensures s.clients == if who.id in old(s.clients) && old(s.clients)[who.id] == who
                           then old(s.clients) - {who.id} else old(s.clients)
      ensures Outcome(s.View(), Sess(), []) == Registry.Cleanup(old(s.View()), old(Sess()))
      ensures regs == map[]
    {
      if who.id in s.clients && s.clients[who.id] == who {
        s.clients := s.clients - {who.id};
      }
      CloseEverything();
      assert regs - regs.Keys == map[];
      regs := map[];
    }

    method CloseEverything()
      requires Fresh()
      modifies s`vhosts, s`tcp, s`bound, s`ran
      ensures s.View() == CloseAll(old(s.View()), who, regs, regs.Keys)
    {
      hide CloseAll, Close, Fresh;
      ghost var sh0 := s.View();
      CloseAllNone(sh0, who, regs);
      var pending := regs.Keys;
      ghost var done: set<string> := {};
      assert Unshared() && forall n :: n in regs ==> regs[n].ticket !in s.ran by {
        FreshFacts();
      }
      while pending != {}
        invariant done <= regs.Keys && pending == regs.Keys - done
        invariant s.View() == CloseAll(sh0, who, regs, done)
        invariant forall n :: n in pending ==> regs[n].ticket !in s.ran
        decreases |pending|
      {
        var n :| n in pending;
        CloseAllStep(sh0, who, regs, done, n);
        CloseEntry(regs[n]);
        pending := pending - {n};
        done := done + {n};
      }
      assert done == regs.Keys;
    }
  }

  lemma HostBeforeColon(h: string, i: nat)
    requires i <= |h| && (i < |h| ==> h[i] == ':') && forall j :: 0 <= j < i ==> h[j] != ':'
    ensures Split(h, ':')[0] == h[..i]
  {
    SplitSingle(h[..i], ':');
    if i < |h| {
      assert h == h[..i] + [':'] + h[i + 1..];
      SplitConcat(h[..i], ':', h[i + 1..]);
    } else {
      assert h == h[..i];
    }
  }

  lemma DoomedNames(regs: map<string, Entry>, ps: seq<Spec>)
    ensures Doomed(regs, ps) <= regs.Keys
    ensures forall n :: n in regs ==>
              (n in Doomed(regs, ps) <==>
               n !in Desired(ps) || SpecKey(Desired(ps)[n]) != SpecKey(regs[n].spec))
  {
    hide SpecKey, Desired;
  }

  lemma LoweredIsHostSet(p: Spec, lowered: seq<string>)
    requires |lowered| == |Hosts(p)| && forall j :: 0 <= j < |lowered| ==> lowered[j] == Lower(Hosts(p)[j])
    ensures forall h :: h in lowered <==> h in HostSet(p)
  {
    forall h | h in HostSet(p)
      ensures h in lowered
    {
      var i :| 0 <= i < |Hosts(p)| && Lower(Hosts(p)[i]) == h;
      assert lowered[i] == h;
    }
    forall h | h in lowered
      ensures h in HostSet(p)
    {
      var i :| 0 <= i < |lowered| && lowered[i] == h;
      assert Hosts(p)[i] in Hosts(p);
    }
  }
}
