/**
 The panel's request handlers as they are coded: rows changed in place, loops that look
 through the other tunnels. Each handler is proved to do what the request model says.
 */
module Service {
  import opened Text
  import opened Panel
  import opened Generations

  class Service {
    const s: Settings
    var teams: map<nat, Team>
    var agents: map<nat, Agent>
    var tunnels: map<nat, Tunnel>
    var gens: Gens

    ghost function View(): DB
      reads this
    {
      DB(teams, agents, tunnels)
    }

    constructor (s: Settings)
      ensures this.s == s && View() == DB(map[], map[], map[]) && gens == map[]
    {
      this.s, teams, agents, tunnels, gens := s, map[], map[], map[], map[];
    }

    method CheckSubdomainLabels(subdomain: string) returns (ok: bool)
      ensures ok == LabelsOk(subdomain)
    {
      var labels := Labels(subdomain);
      for i := 0 to |labels|
        invariant forall j :: 0 <= j < i ==> MatchesLabel(Lower(labels[j]))
      {
        if !MatchesLabel(Lower(labels[i])) {
          return false;
        }
      }
      return labels == [] || Lower(labels[0]) !in RESERVED;
    }

    method CheckSubdomain(subdomain: Option<string>, labelled: bool) returns (r: Option<Refused>)
      ensures r == Panel.CheckSubdomain(s, subdomain, labelled)
    {
      if !Truthy(subdomain) {
        return None;
      }
      var ok := CheckSubdomainLabels(subdomain.value);
      return if ok && DepthOk(s, subdomain.value, labelled) then None else Some(Unprocessable);
    }

    // Every other row whose domains overlap the wanted ones is a conflict.
    method FindDomainClash(wanted: set<string>, exclude: Option<nat>) returns (found: bool)
      ensures found <==> exists t :: t in tunnels && Some(t) != exclude
                                && !(DomainSet(tunnels[t].customDomains) !! wanted)
    {
      hide DomainSet;
      var pending := tunnels.Keys;
      while pending != {}
        invariant pending <= tunnels.Keys
        invariant forall t :: t in tunnels && t !in pending && Some(t) != exclude ==>
                    DomainSet(tunnels[t].customDomains) !! wanted
        decreases |pending|
      {
        var t :| t in pending;
        pending := pending - {t};
        if Some(t) != exclude && !(DomainSet(tunnels[t].customDomains) !! wanted) {
          return true;
        }
      }
      return false;
    }

    method CheckCustomDomains(csv: Option<string>, exclude: Option<nat>) returns (r: Option<Refused>)
      ensures r == CheckDomains(s, View(), csv, exclude)
    {
      hide DomainList, IsFqdn, UnderApex, DomainSet, Lower;
      if !Truthy(csv) {
        return None;
      }
      var doms := DomainList(csv.value);
      if |doms| > s.maxDomains {
        return Some(Unprocessable);
      }
      var wanted: set<string> := {};
      for i := 0 to |doms|
        invariant wanted == set j | 0 <= j < i :: Lower(doms[j])
        invariant forall j :: 0 <= j < i ==> IsFqdn(Lower(doms[j])) && !UnderApex(s, Lower(doms[j]))
      {
        var d := Lower(doms[i]);
        if !IsFqdn(d) || UnderApex(s, d) {
          return Some(Unprocessable);
        }
        wanted := wanted + {d};
      }
      var found := FindDomainClash(wanted, exclude);
      ClashMeansTaken(View(), doms, wanted, exclude);
      return if found then Some(Conflict) else None;
    }

    method FindSubdomain(subdomain: string, team: Option<nat>, exclude: Option<nat>) returns (found: bool)
      ensures found == SubdomainTaken(View(), subdomain, team, exclude)
    {
      hide Lower;
      var pending := tunnels.Keys;
      while pending != {}
        invariant pending <= tunnels.Keys
        invariant forall t :: t in tunnels && t !in pending && Some(t) != exclude ==>
                    !(TeamOf(View(), tunnels[t].agent) == team && tunnels[t].subdomain.Some?
                      && Lower(tunnels[t].subdomain.value) == Lower(subdomain))
        decreases |pending|
      {
        var t :| t in pending;
        pending := pending - {t};
        var row := tunnels[t];
        var rowTeam := if row.agent in agents then agents[row.agent].team else None;
        if Some(t) != exclude && rowTeam == team && row.subdomain.Some?
           && Lower(row.subdomain.value) == Lower(subdomain) {
          return true;
        }
      }
      return false;
    }

    method CheckUnique(subdomain: Option<string>, team: Option<nat>, exclude: Option<nat>) returns (r: Option<Refused>)
      ensures r == Panel.CheckUnique(View(), subdomain, team, exclude)
    {
      if !Truthy(subdomain) {
        return None;
      }
      var found := FindSubdomain(subdomain.value, team, exclude);
      return if found then Some(Conflict) else None;
    }

    method CollectUsedPorts(node: nat, exclude: Option<nat>) returns (used: set<int>)
      ensures used == UsedPorts(View(), node, exclude)
    {
      used := {};
      var pending := tunnels.Keys;
      while pending != {}
        invariant pending <= tunnels.Keys
        invariant used == set t | t in tunnels && t !in pending && Some(t) != exclude
                            && tunnels[t].agent in agents && agents[tunnels[t].agent].node == node
                            && tunnels[t].remotePort.Some?
                          :: tunnels[t].remotePort.value
        decreases |pending|
      {
        var t :| t in pending;
        pending := pending - {t};
        var row := tunnels[t];
        if Some(t) != exclude && row.agent in agents && agents[row.agent].node == node && row.remotePort.Some? {
          used := used + {row.remotePort.value};
        }
      }
    }

    method AllocatePort(node: nat, preferred: Option<int>, exclude: Option<nat>) returns (r: Result<int>)
      ensures r == Panel.AllocatePort(s, View(), node, preferred, exclude)
    {
      hide UsedPorts;
      var used := CollectUsedPorts(node, exclude);
      if preferred.Some? {
        if !(s.portAllowMin <= preferred.value <= s.portAllowMax) {
          return Err(Unprocessable);
        }
        if preferred.value in used {
          return Err(Conflict);
        }
        return Ok(preferred.value);
      }
      var p := s.tcpPortMin;
      while p <= s.tcpPortMax
        invariant FirstFree(used, s.tcpPortMin, s.tcpPortMax) == FirstFree(used, p, s.tcpPortMax)
      {
        if p !in used {
          return Ok(p);
        }
        p := p + 1;
      }
      return Err(Conflict);
    }

    method CheckCreate(body: Tunnel) returns (r: Option<Refused>)
      ensures r == CreateCheck(s, View(), body)
    {
      hide CheckDomains, SubdomainTaken, LabelsOk, DepthOk;
      if body.agent !in agents {
        return Some(NotFound);
      }
      if body.typ.IsWeb() && !Truthy(body.subdomain) && !Truthy(body.customDomains) {
        return Some(Unprocessable);
      }
      var team := agents[body.agent].team;
      var labelled := team.Some? && team.value in teams && Truthy(teams[team.value].subLabel);
      r := CheckSubdomain(body.subdomain, labelled);
      if r.Some? {
        return;
      }
      var own := set t | t in tunnels && tunnels[t].agent == body.agent;
      assert own == TunnelsOf(View(), body.agent);
      if |own| >= s.maxTunnels {
        return Some(Unprocessable);
      }
      if exists t :: t in own && tunnels[t].name == body.name {
        return Some(Conflict);
      }
      r := CheckUnique(body.subdomain, team, None);
      if r.Some? {
        return;
      }
      r := CheckCustomDomains(body.customDomains, None);
    }

    // A new configuration for one agent, who is told to fetch it.
    method BumpAgent(a: nat) returns (told: set<nat>)
      modifies this`gens
      ensures gens == Bump(old(gens), {a}) && told == {a}
    {
      told := {a};
      BumpNone(gens);
      BumpAnother(gens, {}, a);
      assert {} + {a} == {a};
      gens := gens[a := Generations.Get(gens, a) + 1];
    }

    method CreateTunnel(id: nat, body: Tunnel) returns (r: Option<Refused>, told: set<nat>)
      requires id !in tunnels
      modifies this`tunnels, this`gens
      ensures var o := Panel.CreateTunnel(s, old(View()), id, body);
              View() == (if o.Ok? then o.value else old(View())) && r == (if o.Ok? then None else Some(o.error))
      ensures gens == Bump(old(gens), Touched(s, old(View()), MakeTunnel(id, body)))
      ensures told == Told(s, old(View()), MakeTunnel(id, body))
    {
      BumpNone(gens);
      told := {};
      NoFlips(View());
      hide CreateCheck, Panel.AllocatePort;
      r := CheckCreate(body);
      if r.Some? {
        return;
      }
      assert body.agent in agents by {
        CheckedAgentExists(s, View(), body);
      }
      var row := body;
      if body.typ.IsPort() {
        var port := AllocatePort(agents[body.agent].node, body.remotePort, None);
        if port.Err? {
          return Some(port.error), told;
        }
        row := row.(remotePort := Some(port.value));
      }
      tunnels := tunnels[id := row];
      told := BumpAgent(body.agent);
    }

    method CheckUpdate(id: nat, u: Update) returns (r: Option<Refused>)
      requires id in tunnels && tunnels[id].agent in agents
      ensures r == UpdateCheck(s, View(), id, u)
    {
      hide CheckDomains, SubdomainTaken, LabelsOk, DepthOk;
      var team := agents[tunnels[id].agent].team;
      if u.subdomain.Some? {
        var labelled := team.Some? && team.value in teams && Truthy(teams[team.value].subLabel);
        r := CheckSubdomain(u.subdomain.value, labelled);
        if r.Some? {
          return;
        }
        r := CheckUnique(u.subdomain.value, team, Some(id));
        if r.Some? {
          return;
        }
      }
      AbsentDomainsPass(s, View(), Some(id));
      if u.customDomains.Some? {
        r := CheckCustomDomains(u.customDomains.value, Some(id));
      } else {
        r := None;
      }
    }

    method SetFields(t: Tunnel, u: Update) returns (row: Tunnel)
      ensures row == Patched(t, u)
    {
      row := t;
      if u.enabled.Some? {
        row := row.(enabled := u.enabled.value);
      }
      if u.localIp.Some? {
        row := row.(localIp := u.localIp.value);
      }
      if u.localPort.Some? {
        row := row.(localPort := u.localPort.value);
      }
      if u.subdomain.Some? {
        row := row.(subdomain := u.subdomain.value);
      }
      if u.customDomains.Some? {
        row := row.(customDomains := u.customDomains.value);
      }
    }

    method UpdateTunnel(id: nat, u: Update) returns (r: Option<Refused>, told: set<nat>)
      modifies this`tunnels, this`gens
      ensures var o := Panel.UpdateTunnel(s, old(View()), id, u);
              View() == (if o.Ok? then o.value else old(View())) && r == (if o.Ok? then None else Some(o.error))
      ensures gens == Bump(old(gens), Touched(s, old(View()), ChangeTunnel(id, u)))
      ensures told == Told(s, old(View()), ChangeTunnel(id, u))
    {
      BumpNone(gens);
      told := {};
      NoFlips(View());
      hide Panel.AllocatePort, UpdateCheck, Bump;
      if id !in tunnels || tunnels[id].agent !in agents {
        return Some(NotFound), told;
      }
      r := CheckUpdate(id, u);
      if r.Some? {
        return;
      }
      var row := tunnels[id];
      if u.remotePort.Some? {
        if u.remotePort.value.Some? {
          var port := AllocatePort(agents[row.agent].node, u.remotePort.value, Some(id));
          if port.Err? {
            return Some(port.error), told;
          }
          row := row.(remotePort := Some(port.value));
        } else {
          row := row.(remotePort := None);
        }
      }
      row := SetFields(row, u);
      tunnels := tunnels[id := row];
      told := BumpAgent(row.agent);
      return None, told;
    }

    method DeleteTunnel(id: nat) returns (r: Option<Refused>, told: set<nat>)
      modifies this`tunnels, this`gens
      ensures var o := Panel.DeleteTunnel(old(View()), id);
              View() == (if o.Ok? then o.value else old(View())) && r == (if o.Ok? then None else Some(o.error))
      ensures gens == Bump(old(gens), Touched(s, old(View()), DropTunnel(id)))
      ensures told == Told(s, old(View()), DropTunnel(id))
    {
      BumpNone(gens);
      told := {};
      NoFlips(View());
      if id !in tunnels {
        return Some(NotFound), told;
      }
      var agent := tunnels[id].agent;
      tunnels := tunnels - {id};
      told := BumpAgent(agent);
      return None, told;
    }

    method CreateTeam(id: nat, name: string, asked: Option<string>, quota: Option<int>) returns (r: Option<Refused>)
      requires id !in teams
      modifies this`teams
      ensures var o := Panel.CreateTeam(old(View()), id, name, asked, quota);
              View() == (if o.Ok? then o.value else old(View())) && r == (if o.Ok? then None else Some(o.error))
    {
      hide Slug, Strip;
      var n := Strip(name);
      if n == "" {
        return Some(Unprocessable);
      }
      if exists t :: t in teams && teams[t].name == n {
        return Some(Conflict);
      }
      var l := if Truthy(asked) then Slug(asked.value) else Slug(n);
      if l.Some? && exists t :: t in teams && teams[t].subLabel == l {
        return Some(Conflict);
      }
      teams := teams[id := Team(n, l, quota, false)];
      return None;
    }

    // Checks a change of a team, and finds the label that it asks for.
    method CheckTeam(id: nat, name: Option<string>, asked: Option<Option<string>>)
        returns (r: Option<Refused>, subLabel: Option<string>)
      requires id in teams
      ensures r == TeamCheck(View(), id, name, asked)
      ensures r.None? ==> subLabel == NewLabel(name, asked, teams[id].subLabel)
    {
      hide Slug, Strip;
      subLabel := teams[id].subLabel;
      var given := asked;
      if name.Some? {
        var n := Strip(name.value);
        if n == "" {
          return Some(Unprocessable), subLabel;
        }
        if exists t :: t in teams && t != id && teams[t].name == n {
          return Some(Conflict), subLabel;
        }
        if given.None? {
          given := Some(Slug(n));
        }
      }
      if given.Some? && Truthy(given.value) {
        given := Some(Slug(given.value.value));
      }
      if given.Some? && Truthy(given.value) && exists t :: t in teams && t != id && teams[t].subLabel == given.value {
        return Some(Conflict), subLabel;
      }
      if given.Some? {
        subLabel := given.value;
      }
      r := None;
    }

    method UpdateTeam(id: nat, name: Option<string>, asked: Option<Option<string>>, quota: Option<Option<int>>, usage: nat)
        returns (r: Option<Refused>, told: set<nat>)
      modifies this`teams, this`gens
      ensures var o := Panel.UpdateTeam(old(View()), id, name, asked, quota, usage);
              View() == (if o.Ok? then o.value else old(View())) && r == (if o.Ok? then None else Some(o.error))
      ensures gens == Bump(old(gens), Touched(s, old(View()), ChangeTeam(id, name, asked, quota, usage)))
      ensures told == Told(s, old(View()), ChangeTeam(id, name, asked, quota, usage))
    {
      TeamChangeTells(s, View(), id, name, asked, quota, usage);
      hide Strip, TeamCheck, NewLabel, Bump, Touched, Told, Serve;
      BumpNone(gens);
      told := {};
      if id !in teams {
        return Some(NotFound), told;
      }
      var subLabel;
      r, subLabel := CheckTeam(id, name, asked);
      if r.Some? {
        return;
      }
      var row := SetTeamFields(teams[id], name, subLabel, quota);
      row := row.(suspended := row.quota.Some? && usage > row.quota.value);
      var relabelled := row.subLabel != teams[id].subLabel;
      var flipped := row.suspended != teams[id].suspended;
      teams := teams[id := row];
      if relabelled {
        BumpMembers(id);
      }
      if flipped || relabelled {
        told := ListMembers(id);
      }
    }

    method SetTeamFields(t: Team, name: Option<string>, subLabel: Option<string>, quota: Option<Option<int>>)
        returns (row: Team)
      ensures row == Team(if name.Some? then Strip(name.value) else t.name, subLabel,
                          if quota.Some? then quota.value else t.quota, t.suspended)
    {
      row := t.(subLabel := subLabel);
      if name.Some? {
        row := row.(name := Strip(name.value));
      }
      if quota.Some? {
        row := row.(quota := quota.value);
      }
    }

    method ListMembers(team: nat) returns (members: set<nat>)
      ensures members == MembersOf(View(), team)
    {
      members := set a | a in agents && agents[a].team == Some(team);
    }

    // A new label re-routes every host of the team's agents.
    method BumpMembers(team: nat)
      modifies this`gens
      ensures gens == Bump(old(gens), MembersOf(View(), team))
    {
      hide Bump;
      BumpNone(gens);
      ghost var members := MembersOf(View(), team);
      var pending := agents.Keys;
      ghost var done: set<nat> := {};
      while pending != {}
        invariant pending <= agents.Keys && done == members - pending
        invariant gens == Bump(old(gens), done)
        decreases |pending|
      {
        var a :| a in pending;
        pending := pending - {a};
        if agents[a].team == Some(team) {
          BumpAnother(old(gens), done, a);
          gens := gens[a := Generations.Get(gens, a) + 1];
          done := done + {a};
        }
      }
      assert done == members;
    }
  }

  lemma ClashMeansTaken(db: DB, doms: seq<string>, wanted: set<string>, exclude: Option<nat>)
    requires wanted == set j | 0 <= j < |doms| :: Lower(doms[j])
    ensures (exists t :: t in db.tunnels && Some(t) != exclude && !(DomainSet(db.tunnels[t].customDomains) !! wanted))
       <==> (exists i :: 0 <= i < |doms| && DomainTaken(db, Lower(doms[i]), exclude))
  {
    hide DomainSet, Lower;
    forall t | t in db.tunnels && Some(t) != exclude && !(DomainSet(db.tunnels[t].customDomains) !! wanted)
      ensures exists i :: 0 <= i < |doms| && DomainTaken(db, Lower(doms[i]), exclude)
    {
      var d :| d in DomainSet(db.tunnels[t].customDomains) && d in wanted;
      var i :| 0 <= i < |doms| && Lower(doms[i]) == d;
      assert DomainTaken(db, d, exclude);
    }
    forall i | 0 <= i < |doms| && DomainTaken(db, Lower(doms[i]), exclude)
      ensures exists t :: t in db.tunnels && Some(t) != exclude && !(DomainSet(db.tunnels[t].customDomains) !! wanted)
    {
      assert Lower(doms[i]) in wanted;
    }
  }

  // A change of a team bumps its agents when it relabels the team, and tells them when it
  // relabels or flips it.
  lemma TeamChangeTells(s: Settings, db: DB, id: nat, name: Option<string>, asked: Option<Option<string>>,
                        quota: Option<Option<int>>, usage: nat)
    ensures var r := ChangeTeam(id, name, asked, quota, usage);
      var o := Panel.UpdateTeam(db, id, name, asked, quota, usage);
      && (o.Err? ==> Touched(s, db, r) == {} && Told(s, db, r) == {})
      && (o.Ok? ==>
            && id in o.value.teams
            && Touched(s, db, r) == (if Relabels(db, o.value, id) then MembersOf(db, id) else {})
            && Told(s, db, r) ==
               if Relabels(db, o.value, id) || Flips(db, o.value, id) then MembersOf(db, id) else {})
  {
    hide Strip, TeamCheck, NewLabel, Over;
  }

  lemma NoFlips(db: DB)
    ensures forall team :: !Flips(db, db, team)
  {
  }

  lemma CheckedAgentExists(s: Settings, db: DB, body: Tunnel)
    requires CreateCheck(s, db, body).None?
    ensures body.agent in db.agents
  {
  }

  lemma AbsentDomainsPass(s: Settings, db: DB, exclude: Option<nat>)
    ensures CheckDomains(s, db, None, exclude).None?
  {
  }
}
