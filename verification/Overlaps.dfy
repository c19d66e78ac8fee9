/**
 When two grants that are valid at the same time overlap: a run in which teams without a label
 share a host, and the requests by which a port or a host changes hands while the older grant
 still runs.
 */
module Overlaps {

  import opened Text
  import opened Panel
  import opened Ownership
  import opened Isolation
  import Config
  import Grant
  import Hosts
  import Limits

  // --- two teams without a label ---

  // The database of `Limits.Unlabelled`, and the same again under other ids.
  function Twice(): DB {
    DB(map[1 := Team("!", None, None, false), 2 := Team("?", None, None, false)],
       map[1 := Agent(0, Some(1)), 2 := Agent(0, Some(2))],
       map[1 := Limits.WebTunnel(1, "a"), 2 := Limits.WebTunnel(2, "a")])
  }

  lemma SlugOfMark()
    ensures Strip("?") == "?" && Slug("?") == None
  {
    assert Lower("?") == "?";
    assert Hyphenate("?"[1..]) == "";
    assert Hyphenate("?") == "-";
    assert StripHyphensLeft("-") == StripHyphensLeft("-"[1..]) == "";
  }

  lemma SecondWebTunnel(s: Settings, db: DB)
    requires s.maxTunnels > 0 && s.maxDepth >= 1
    requires db == Twice().(tunnels := Limits.Unlabelled().tunnels)
    ensures CreateTunnel(s, db, 2, Limits.WebTunnel(2, "a")) == Ok(Twice())
  {
    hide LabelsOk;
    ShortLabelOk();
    OneLabelA();
    hide Labels;
    assert TunnelsOf(db, 2) == {};
    assert LabelOf(db, 2) == None;
    assert db.tunnels[2 := Limits.WebTunnel(2, "a")] == Twice().tunnels;
  }

  lemma MakingTwo(s: Settings) returns (rs: seq<Request>)
    requires s.maxTunnels > 0 && s.maxDepth >= 1
    ensures |rs| == 6 && Ownership.IsRun(s, EMPTY, rs) && Ownership.Run(s, EMPTY, rs) == Twice()
  {
    var first := Limits.MakingUnlabelled(s);
    var (p, q, r) := (MakeTeam(2, "?", None, None), MakeAgent(2, 0, Some(2)), MakeTunnel(2, Limits.WebTunnel(2, "a")));
    hide Slug, Strip, CreateTunnel, Ownership.Run, Ownership.IsRun;
    SlugOfMark();
    var db := Limits.Unlabelled();
    var d1 := After(s, db, p);
    assert d1 == db.(teams := Twice().teams);
    var d2 := After(s, d1, q);
    assert d2 == Twice().(tunnels := db.tunnels);
    SecondWebTunnel(s, d2);
    RunThree(s, db, p, q, r);
    RunAppend(s, EMPTY, first, [p, q, r]);
    rs := first + [p, q, r];
  }

  // A run after which the grants of two agents of different teams both cover one host.
  lemma UnlabelledTeamsShareAHost(s: Settings, mac: string -> string, host: string, exp: int, now: int)
      returns (rs: seq<Request>)
    requires Grant.IsMac(mac) && SettingsOk(s) && Config.Clean(host) && s.maxTunnels > 0 && s.maxDepth >= 1
    requires FitsInt64(exp) && now <= exp
    ensures Ownership.IsRun(s, EMPTY, rs)
    ensures var db := Ownership.Run(s, EMPTY, rs);
            && Selects(db, 1, [1]) && Selects(db, 2, [2]) && TeamOf(db, 1) != TeamOf(db, 2)
            && var a := Grant.Verified(mac, Config.ConfigGrant(mac, 1, exp, AgentPayloads(db, 1, host, [1])), Config.AgentCn(1), now);
               var b := Grant.Verified(mac, Config.ConfigGrant(mac, 2, exp, AgentPayloads(db, 2, host, [2])), Config.AgentCn(2), now);
               a.Success? && b.Success? && a.grant.AllowHost("a." + host) && b.grant.AllowHost("a." + host)
  {
    rs := MakingTwo(s);
    EmptyOk(s);
    RunKeeps(s, EMPTY, rs);
    TwiceSelects();
    hide Ownership.Run, Ownership.IsRun, Inv, Grant.Verified, Config.ConfigGrant, AgentPayloads, OwnedHosts, OwnedPorts,
         Config.AgentCn, SettingsOk, Selects, Twice, TeamOf, Suspended, FitsInt64, Grant.IsMac, Config.Clean;
    var db := Twice();
    GrantScope(s, mac, db, 1, host, [1], exp, now);
    GrantScope(s, mac, db, 2, host, [2], exp, now);
    BothOwn(host, 1);
    BothOwn(host, 2);
  }

  lemma TwiceSelects()
    ensures var db := Twice();
      && Selects(db, 1, [1]) && Selects(db, 2, [2]) && !Suspended(db, 1) && !Suspended(db, 2)
      && TeamOf(db, 1) != TeamOf(db, 2)
  {
  }

  lemma BothOwn(host: string, a: nat)
    requires a == 1 || a == 2
    ensures Lower("a." + host) in OwnedHosts(Twice(), a, host)
  {
    hide Lower;
    var t := Twice().tunnels[a];
    assert "a" + "." + Config.Suffix(host, None) == "a." + host;
    assert "a." + host in Config.Fqdns(t.subdomain, t.customDomains, host, LabelOf(Twice(), a));
  }

  // --- what changes hands ---

  // Some tunnel of the agent has the port or the host, switched on or not.
  predicate HoldsPort(db: DB, a: nat, p: int) {
    p in OwnedPorts(Hosts.AllEnabled(db), a)
  }

  predicate HoldsHost(db: DB, a: nat, host: string, h: string) {
    h in OwnedHosts(Hosts.AllEnabled(db), a, host)
  }

  lemma OwnerHolds(db: DB, a: nat, host: string)
    ensures forall p :: p in OwnedPorts(db, a) ==> HoldsPort(db, a, p)
    ensures forall h :: h in OwnedHosts(db, a, host) ==> HoldsHost(db, a, host, h)
  {
    hide Config.Fqdns, Lower;
    var on := Hosts.AllEnabled(db);
    assert LabelOf(on, a) == LabelOf(db, a);
    hide LabelOf;
    forall p | p in OwnedPorts(db, a)
      ensures HoldsPort(db, a, p)
    {
      var t := PortOwner(db, a, p);
      assert OwnsPort(on, a, t, p);
    }
    forall h | h in OwnedHosts(db, a, host)
      ensures HoldsHost(db, a, host, h)
    {
      var t, f := HostOwner(db, a, host, h);
      assert t in on.tunnels && OwnsHost(on, a, host, t, f);
    }
  }

  // A request writes or drops a tunnel of the agent that has the port, or drops the agent.
  predicate GivesUpPort(db: DB, r: Request, a: nat, p: int) {
    || ((r.DropTunnel? || r.ChangeTunnel?) && OwnsPort(Hosts.AllEnabled(db), a, r.id, p))
    || r == DropAgent(a)
  }

  // The same for a host; a host also goes when the agent's team gets another label.
  ghost predicate GivesUpHost(db: DB, r: Request, a: nat, host: string, h: string) {
    || ((r.DropTunnel? || r.ChangeTunnel?) && exists f :: OwnsHost(Hosts.AllEnabled(db), a, host, r.id, f) && Lower(f) == h)
    || r == DropAgent(a)
    || (r.ChangeTeam? && TeamOf(db, a) == Some(r.id))
  }

  lemma RowStays(s: Settings, db: DB, r: Request, t: nat)
    requires FreshId(db, r) && t in db.tunnels && r != DropAgent(db.tunnels[t].agent)
    requires r.DropTunnel? || r.ChangeTunnel? ==> r.id != t
    ensures t in After(s, db, r).tunnels && After(s, db, r).tunnels[t] == db.tunnels[t]
  {
    hide CreateCheck, UpdateCheck, AllocatePort, TeamCheck, NewLabel, Slug, Strip, Over;
  }

  lemma RowHoldsPort(db: DB, a: nat, t: nat, p: int)
    requires OwnsPort(Hosts.AllEnabled(db), a, t, p)
    ensures HoldsPort(db, a, p)
  {
  }

  lemma OnlyGivingUpLosesPort(s: Settings, db: DB, r: Request, a: nat, p: int)
    requires FreshId(db, r) && HoldsPort(db, a, p) && !HoldsPort(After(s, db, r), a, p)
    ensures GivesUpPort(db, r, a, p)
  {
    var t := PortOwner(Hosts.AllEnabled(db), a, p);
    hide After, HoldsPort;
    if !GivesUpPort(db, r, a, p) {
      RowStays(s, db, r, t);
      RowHoldsPort(After(s, db, r), a, t, p);
    }
  }

  lemma SameLabelUnless(s: Settings, db: DB, r: Request, a: nat)
    requires FreshId(db, r) && TeamsOk(db) && a in db.agents && r != DropAgent(a)
    requires !(r.ChangeTeam? && TeamOf(db, a) == Some(r.id))
    ensures LabelOf(After(s, db, r), a) == LabelOf(db, a)
  {
    hide CreateCheck, UpdateCheck, AllocatePort, TeamCheck, NewLabel, Slug, Strip, Over;
  }

  lemma RowHoldsHost(db: DB, a: nat, host: string, h: string, t: nat, f: string)
    requires OwnsHost(Hosts.AllEnabled(db), a, host, t, f) && Lower(f) == h
    ensures HoldsHost(db, a, host, h)
  {
    hide Config.Fqdns, Lower, LabelOf;
  }

  lemma HolderExists(s: Settings, db: DB, a: nat, t: nat)
    requires Inv(s, db) && t in db.tunnels && db.tunnels[t].agent == a
    ensures a in db.agents && TeamsOk(db)
  {
    hide Clash, TunnelOk;
  }

  lemma OnlyGivingUpLosesHost(s: Settings, db: DB, r: Request, a: nat, host: string, h: string)
    requires Inv(s, db) && FreshId(db, r) && HoldsHost(db, a, host, h) && !HoldsHost(After(s, db, r), a, host, h)
    ensures GivesUpHost(db, r, a, host, h)
  {
    var t, f := HostOwner(Hosts.AllEnabled(db), a, host, h);
    HolderExists(s, db, a, t);
    hide After, HoldsHost, Inv, Config.Fqdns, Lower;
    if !GivesUpHost(db, r, a, host, h) {
      SameLabelUnless(s, db, r, a);
      RowStays(s, db, r, t);
      SameRowSameHost(db, After(s, db, r), a, host, t, f);
      RowHoldsHost(After(s, db, r), a, host, h, t, f);
    }
  }

  lemma SameRowSameHost(db: DB, v: DB, a: nat, host: string, t: nat, f: string)
    requires OwnsHost(Hosts.AllEnabled(db), a, host, t, f)
    requires t in v.tunnels && v.tunnels[t] == db.tunnels[t] && LabelOf(v, a) == LabelOf(db, a)
    ensures OwnsHost(Hosts.AllEnabled(v), a, host, t, f)
  {
    hide Config.Fqdns;
    assert LabelOf(Hosts.AllEnabled(v), a) == LabelOf(v, a);
    assert LabelOf(Hosts.AllEnabled(db), a) == LabelOf(db, a);
  }

  // One request more at the front of a run, seen at the prefixes that end before and after k.
  lemma PrefixesCons(s: Settings, db: DB, rs: seq<Request>, j: nat)
    requires rs != [] && Ownership.IsRun(s, db, rs) && j < |rs| - 1
    requires Ownership.IsRun(s, After(s, db, rs[0]), rs[1..][..j])
    requires Ownership.IsRun(s, After(s, db, rs[0]), rs[1..][..j + 1])
    ensures rs[j + 1] == rs[1..][j]
    ensures Ownership.IsRun(s, db, rs[..j + 1]) && Ownership.IsRun(s, db, rs[..j + 2])
    ensures Ownership.Run(s, db, rs[..j + 1]) == Ownership.Run(s, After(s, db, rs[0]), rs[1..][..j])
    ensures Ownership.Run(s, db, rs[..j + 2]) == Ownership.Run(s, After(s, db, rs[0]), rs[1..][..j + 1])
  {
    hide After, FreshId;
    RunCons(s, db, rs[0], rs[1..][..j]);
    RunCons(s, db, rs[0], rs[1..][..j + 1]);
    assert rs[..j + 1] == [rs[0]] + rs[1..][..j];
    assert rs[..j + 2] == [rs[0]] + rs[1..][..j + 1];
  }

  lemma FirstPrefixes(s: Settings, db: DB, rs: seq<Request>)
    requires rs != [] && Ownership.IsRun(s, db, rs)
    ensures Ownership.IsRun(s, db, rs[..0]) && Ownership.Run(s, db, rs[..0]) == db
    ensures Ownership.IsRun(s, db, rs[..1]) && Ownership.Run(s, db, rs[..1]) == After(s, db, rs[0])
  {
    hide After, FreshId;
    RunCons(s, db, rs[0], []);
    assert rs[..1] == [rs[0]] + [] && rs[..0] == [];
  }

  // Along a run, the step by which a port is lost.
  lemma {:induction false} PortIsGivenUp(s: Settings, db: DB, rs: seq<Request>, a: nat, p: int) returns (k: nat)
    requires Ownership.IsRun(s, db, rs) && HoldsPort(db, a, p) && !HoldsPort(Ownership.Run(s, db, rs), a, p)
    ensures k < |rs| && Ownership.IsRun(s, db, rs[..k]) && Ownership.IsRun(s, db, rs[..k + 1])
    ensures GivesUpPort(Ownership.Run(s, db, rs[..k]), rs[k], a, p)
    ensures HoldsPort(Ownership.Run(s, db, rs[..k]), a, p) && !HoldsPort(Ownership.Run(s, db, rs[..k + 1]), a, p)
    decreases rs
  {
    hide HoldsPort, GivesUpPort, After, FreshId;
    if HoldsPort(After(s, db, rs[0]), a, p) {
      var j := PortIsGivenUp(s, After(s, db, rs[0]), rs[1..], a, p);
      k := j + 1;
      PrefixesCons(s, db, rs, j);
    } else {
      k := 0;
      FirstPrefixes(s, db, rs);
      OnlyGivingUpLosesPort(s, db, rs[0], a, p);
    }
  }

  lemma {:induction false} HostIsGivenUp(s: Settings, db: DB, rs: seq<Request>, a: nat, host: string, h: string)
      returns (k: nat)
    requires SettingsOk(s) && Inv(s, db) && Ownership.IsRun(s, db, rs)
    requires HoldsHost(db, a, host, h) && !HoldsHost(Ownership.Run(s, db, rs), a, host, h)
    ensures k < |rs| && Ownership.IsRun(s, db, rs[..k]) && Ownership.IsRun(s, db, rs[..k + 1])
    ensures GivesUpHost(Ownership.Run(s, db, rs[..k]), rs[k], a, host, h)
    ensures HoldsHost(Ownership.Run(s, db, rs[..k]), a, host, h) && !HoldsHost(Ownership.Run(s, db, rs[..k + 1]), a, host, h)
    decreases rs
  {
    hide HoldsHost, GivesUpHost, After, FreshId, Inv;
    if HoldsHost(After(s, db, rs[0]), a, host, h) {
      RequestKeeps(s, db, rs[0]);
      var j := HostIsGivenUp(s, After(s, db, rs[0]), rs[1..], a, host, h);
      k := j + 1;
      PrefixesCons(s, db, rs, j);
    } else {
      k := 0;
      FirstPrefixes(s, db, rs);
      OnlyGivingUpLosesHost(s, db, rs[0], a, host, h);
    }
  }

  // The grant of an agent's configuration over some of its tunnels, as the engine reads it.
  function ReadBack(mac: string -> string, db: DB, a: nat, host: string, ids: seq<nat>, exp: int, now: int): Grant.Result
    requires forall t :: t in ids ==> t in db.tunnels
  {
    Grant.Verified(mac, Config.ConfigGrant(mac, a, exp, AgentPayloads(db, a, host, ids)), Config.AgentCn(a), now)
  }

  lemma ReadIsOwned(s: Settings, mac: string -> string, db: DB, a: nat, host: string, ids: seq<nat>, exp: int, now: int)
    requires Grant.IsMac(mac) && Inv(s, db) && Config.Clean(host) && Sublist(db, a, ids)
    requires ReadBack(mac, db, a, host, ids, exp, now).Success?
    ensures var g := ReadBack(mac, db, a, host, ids, exp, now).grant;
      g.ports <= OwnedPorts(db, a) && g.hosts <= OwnedHosts(db, a, host)
  {
    hide Inv, Config.Clean, Grant.IsMac, Grant.Verified, Config.ConfigGrant, AgentPayloads, OwnedPorts, OwnedHosts,
         ListedPorts, ListedHosts, Config.AgentCn, FitsInt64;
    GrantVerdict(s, mac, db, a, host, ids, exp, Config.AgentCn(a), now);
    ListedAreOwned(db, a, host, ids);
  }

  // Two grants of different agents, one issued in a state of the panel and one after more
  // requests, both still good at one time, cover one port only if the first agent gave the port
  // up in between, by changing or dropping the tunnel or by being deleted; the grant it has does
  // not know. The step by which it lost the port is found.
  lemma PortsOverlapByHandover(s: Settings, mac: string -> string, rs: seq<Request>, more: seq<Request>, a: nat, b: nat,
                               host: string, idsA: seq<nat>, idsB: seq<nat>, expA: int, expB: int, now: int, p: int)
      returns (k: nat)
    requires Grant.IsMac(mac) && Config.Clean(host)
    requires SettingsOk(s) && Ownership.IsRun(s, EMPTY, rs) && Ownership.IsRun(s, Ownership.Run(s, EMPTY, rs), more)
    requires var db := Ownership.Run(s, EMPTY, rs);
             var v := Ownership.Run(s, db, more);
             && a != b && Sublist(db, a, idsA) && Sublist(v, b, idsB) && (a in v.agents ==> NodeOf(v, a) == NodeOf(v, b))
             && var (ra, rb) := (ReadBack(mac, db, a, host, idsA, expA, now), ReadBack(mac, v, b, host, idsB, expB, now));
                ra.Success? && rb.Success? && ra.grant.AllowPort(p) && rb.grant.AllowPort(p)
    ensures var db := Ownership.Run(s, EMPTY, rs);
            && k < |more| && Ownership.IsRun(s, db, more[..k]) && Ownership.IsRun(s, db, more[..k + 1])
            && GivesUpPort(Ownership.Run(s, db, more[..k]), more[k], a, p)
            && HoldsPort(Ownership.Run(s, db, more[..k]), a, p) && !HoldsPort(Ownership.Run(s, db, more[..k + 1]), a, p)
  {
    hide Ownership.Run, Ownership.IsRun, Inv, OwnedPorts, OwnedHosts, HoldsPort, NodeOf, GivesUpPort, SettingsOk,
         Sublist, ReadBack, Grant.IsMac, Config.Clean;
    var db := Ownership.Run(s, EMPTY, rs);
    var v := Ownership.Run(s, db, more);
    EmptyOk(s);
    RunKeeps(s, EMPTY, rs);
    RunKeeps(s, db, more);
    ReadIsOwned(s, mac, db, a, host, idsA, expA, now);
    ReadIsOwned(s, mac, v, b, host, idsB, expB, now);
    OwnerHolds(db, a, "");
    OwnerHolds(v, b, "");
    HeldByOne(s, v, a, b, p);
    k := PortIsGivenUp(s, db, more, a, p);
  }

  lemma HeldByOne(s: Settings, v: DB, a: nat, b: nat, p: int)
    requires Inv(s, v) && a != b && HoldsPort(v, b, p) && (a in v.agents ==> NodeOf(v, a) == NodeOf(v, b))
    ensures !HoldsPort(v, a, p)
  {
    var on := Hosts.AllEnabled(v);
    Hosts.AllEnabledKeeps(s, v);
    if a in v.agents {
      hide Inv, OwnedPorts;
      OwnedPortsDisjoint(s, on, a, b);
    } else {
      hide Clash, TunnelOk;
    }
  }

  // The same for a host of agents of labelled teams.
  lemma HostsOverlapByHandover(s: Settings, mac: string -> string, rs: seq<Request>, more: seq<Request>, a: nat, b: nat,
                               host: string, idsA: seq<nat>, idsB: seq<nat>, expA: int, expB: int, now: int, h: string)
      returns (k: nat)
    requires Grant.IsMac(mac) && Config.Clean(host) && Lower(host) == Lower(s.apex)
    requires SettingsOk(s) && Ownership.IsRun(s, EMPTY, rs) && Ownership.IsRun(s, Ownership.Run(s, EMPTY, rs), more)
    requires var db := Ownership.Run(s, EMPTY, rs);
             var v := Ownership.Run(s, db, more);
             && a != b && Sublist(db, a, idsA) && Sublist(v, b, idsB)
             && LabelOf(v, b).Some? && (a in v.agents ==> LabelOf(v, a).Some?)
             && var (ra, rb) := (ReadBack(mac, db, a, host, idsA, expA, now), ReadBack(mac, v, b, host, idsB, expB, now));
                ra.Success? && rb.Success? && ra.grant.AllowHost(h) && rb.grant.AllowHost(h)
    ensures var db := Ownership.Run(s, EMPTY, rs);
            && k < |more| && Ownership.IsRun(s, db, more[..k]) && Ownership.IsRun(s, db, more[..k + 1])
            && GivesUpHost(Ownership.Run(s, db, more[..k]), more[k], a, host, Lower(h))
            && HoldsHost(Ownership.Run(s, db, more[..k]), a, host, Lower(h))
            && !HoldsHost(Ownership.Run(s, db, more[..k + 1]), a, host, Lower(h))
  {
    hide Ownership.Run, Ownership.IsRun, Inv, OwnedPorts, OwnedHosts, HoldsHost, LabelOf, GivesUpHost, SettingsOk, Lower,
         Sublist, ReadBack, Grant.IsMac, Config.Clean;
    var db := Ownership.Run(s, EMPTY, rs);
    var v := Ownership.Run(s, db, more);
    EmptyOk(s);
    RunKeeps(s, EMPTY, rs);
    RunKeeps(s, db, more);
    ReadIsOwned(s, mac, db, a, host, idsA, expA, now);
    ReadIsOwned(s, mac, v, b, host, idsB, expB, now);
    OwnerHolds(db, a, host);
    OwnerHolds(v, b, host);
    HostHeldByOne(s, v, a, b, host, Lower(h));
    k := HostIsGivenUp(s, db, more, a, host, Lower(h));
  }

  lemma HostHeldByOne(s: Settings, v: DB, a: nat, b: nat, host: string, h: string)
    requires Inv(s, v) && a != b && HoldsHost(v, b, host, h) && Lower(host) == Lower(s.apex)
    requires LabelOf(v, b).Some? && (a in v.agents ==> LabelOf(v, a).Some?)
    ensures !HoldsHost(v, a, host, h)
  {
    hide Lower, Config.Fqdns;
    var on := Hosts.AllEnabled(v);
    Hosts.AllEnabledKeeps(s, v);
    if a in v.agents {
      hide Inv, OwnedHosts, LabelOf;
      OwnedHostsDisjoint(s, on, a, b, host);
    } else {
      hide Clash, TunnelOk;
    }
  }
}
