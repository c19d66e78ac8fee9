/**
 The panel's database of teams, agents and tunnels: what each request checks, in which order,
 and what it changes. Requests are served one at a time.
 */
module Panel {
  import opened Text

  datatype TunnelType = Tcp | Udp | Http | Https {
    predicate IsPort() { Tcp? || Udp? }
    predicate IsWeb() { Http? || Https? }
    function Name(): string {
      match this
      case Tcp => "tcp"
      case Udp => "udp"
      case Http => "http"
      case Https => "https"
    }
  }

  datatype Tunnel = Tunnel(
    agent: nat, name: string, typ: TunnelType, localIp: string, localPort: int,
    remotePort: Option<int>, subdomain: Option<string>, customDomains: Option<string>, enabled: bool)

  datatype Agent = Agent(node: nat, team: Option<nat>)

  // A team over its quota is suspended; without a quota it never is.
  datatype Team = Team(name: string, subLabel: Option<string>, quota: Option<int>, suspended: bool)

  datatype Settings = Settings(
    apex: string, maxDepth: nat, maxTunnels: nat, maxDomains: nat,
    portAllowMin: int, portAllowMax: int, tcpPortMin: int, tcpPortMax: int)

  datatype DB = DB(teams: map<nat, Team>, agents: map<nat, Agent>, tunnels: map<nat, Tunnel>)

  datatype Refused = NotFound | Unprocessable | Conflict
  datatype Result<+T> = Ok(value: T) | Err(error: Refused)

  // Present and not empty.
  predicate Truthy(s: Option<string>) { s.Some? && s.value != "" }

  // --- names ---

  predicate IsAlnum(c: char) { 'a' <= c <= 'z' || '0' <= c <= '9' }

  predicate IsLabelChar(c: char) { IsAlnum(c) || c == '-' }

  // A label that is set is made of letters, digits and hyphens, so it holds no dot.
  predicate LabelOk(subLabel: Option<string>) {
    Truthy(subLabel) ==> forall c :: c in subLabel.value ==> IsLabelChar(c)
  }

  // A lower-case DNS label: letters, digits and inner hyphens.
  predicate IsLabel(s: string) {
    && s != ""
    && (forall i :: 0 <= i < |s| ==> IsLabelChar(s[i]))
    && IsAlnum(s[0]) && IsAlnum(s[|s| - 1])
  }

  // The panel's pattern for a label: its end anchor also matches before a final line feed.
  predicate MatchesLabel(s: string) {
    IsLabel(s) || (s != "" && s[|s| - 1] == '\n' && IsLabel(s[..|s| - 1]))
  }

  const RESERVED: set<string> := {
    "_dmarc", "_domainkey", "autodiscover", "autoconfig", "ns", "ns1", "ns2",
    "mx", "mx1", "mx2", "dkim", "www", "rctunnel", "rc-tunnel", "rc"}

  function NonEmpty(parts: seq<string>): seq<string> {
    if parts == [] then []
    else (if parts[0] == "" then [] else [parts[0]]) + NonEmpty(parts[1..])
  }

  // The non-empty labels of a subdomain.
  function Labels(subdomain: string): seq<string> {
    NonEmpty(Split(subdomain, '.'))
  }

  predicate LabelsOk(subdomain: string) {
    var labels := Labels(subdomain);
    && (forall i :: 0 <= i < |labels| ==> MatchesLabel(Lower(labels[i])))
    && (labels != [] ==> Lower(labels[0]) !in RESERVED)
  }

  predicate DepthOk(s: Settings, subdomain: string, labelled: bool) {
    |Labels(subdomain)| + (if labelled then 1 else 0) <= s.maxDepth
  }

  // The comma-separated domains, stripped, blank ones dropped.
  function StripAll(parts: seq<string>): seq<string> {
    if parts == [] then []
    else (if Strip(parts[0]) == "" then [] else [Strip(parts[0])]) + StripAll(parts[1..])
  }

  function DomainList(csv: string): seq<string> {
    StripAll(Split(csv, ','))
  }

  function DomainSet(csv: Option<string>): set<string> {
    if csv.None? then {} else set d | d in DomainList(csv.value) :: Lower(d)
  }

  predicate IsTopLevel(s: string) {
    || (|s| >= 2 && forall i :: 0 <= i < |s| ==> 'a' <= s[i] <= 'z')
    || (|s| >= 6 && s[..4] == "xn--" && forall i :: 4 <= i < |s| ==> IsLabelChar(s[i]))
  }

  predicate IsFqdn(d: string) {
    var parts := Split(d, '.');
    && 1 <= |d| <= 253
    && |parts| >= 2
    && (forall i :: 0 <= i < |parts| - 1 ==> IsLabel(parts[i]))
    && IsTopLevel(parts[|parts| - 1])
  }

  predicate EndsWith(s: string, suffix: string) {
    |suffix| <= |s| && s[|s| - |suffix|..] == suffix
  }

  predicate UnderApex(s: Settings, d: string) {
    var apex := Lower(s.apex);
    d == apex || EndsWith(d, "." + apex)
  }

  // Runs of anything but letters and digits become one hyphen.
  function Hyphenate(s: string): string {
    if s == "" then ""
    else
      var rest := Hyphenate(s[1..]);
      if IsAlnum(s[0]) then [s[0]] + rest
      else if rest != "" && rest[0] == '-' then rest
      else "-" + rest
  }

  function StripHyphensLeft(s: string): string {
    if s != "" && s[0] == '-' then StripHyphensLeft(s[1..]) else s
  }

  function StripHyphensRight(s: string): string {
    if s != "" && s[|s| - 1] == '-' then StripHyphensRight(s[..|s| - 1]) else s
  }

  // A team's label, derived from a name.
  function Slug(name: string): Option<string> {
    var s := StripHyphensRight(StripHyphensLeft(Hyphenate(Lower(name))));
    var cut := if |s| > 63 then s[..63] else s;
    if cut == "" then None else Some(cut)
  }

  // --- checks against the database ---

  function TeamOf(db: DB, agent: nat): Option<nat> {
    if agent in db.agents then db.agents[agent].team else None
  }

  // The label under which an agent's subdomains live, if its team has one.
  function LabelOf(db: DB, agent: nat): Option<string> {
    var team := TeamOf(db, agent);
    if team.Some? && team.value in db.teams && Truthy(db.teams[team.value].subLabel)
    then db.teams[team.value].subLabel else None
  }

  predicate Suspended(db: DB, agent: nat) {
    var team := TeamOf(db, agent);
    team.Some? && team.value in db.teams && db.teams[team.value].suspended
  }

  predicate Over(quota: Option<int>, usage: nat) {
    quota.Some? && usage > quota.value
  }

  predicate SubdomainTaken(db: DB, subdomain: string, team: Option<nat>, exclude: Option<nat>) {
    exists t :: t in db.tunnels && Some(t) != exclude
      && TeamOf(db, db.tunnels[t].agent) == team
      && db.tunnels[t].subdomain.Some? && Lower(db.tunnels[t].subdomain.value) == Lower(subdomain)
  }

  predicate DomainTaken(db: DB, domain: string, exclude: Option<nat>) {
    exists t :: t in db.tunnels && Some(t) != exclude && domain in DomainSet(db.tunnels[t].customDomains)
  }

  function CheckDomains(s: Settings, db: DB, csv: Option<string>, exclude: Option<nat>): Option<Refused> {
    if !Truthy(csv) then None
    else
      var doms := DomainList(csv.value);
      if |doms| > s.maxDomains then Some(Unprocessable)
      else if exists i :: 0 <= i < |doms| && (!IsFqdn(Lower(doms[i])) || UnderApex(s, Lower(doms[i]))) then
        Some(Unprocessable)
      else if exists i :: 0 <= i < |doms| && DomainTaken(db, Lower(doms[i]), exclude) then Some(Conflict)
      else None
  }

  function CheckSubdomain(s: Settings, subdomain: Option<string>, labelled: bool): Option<Refused> {
    if Truthy(subdomain) && (!LabelsOk(subdomain.value) || !DepthOk(s, subdomain.value, labelled))
    then Some(Unprocessable) else None
  }

  function CheckUnique(db: DB, subdomain: Option<string>, team: Option<nat>, exclude: Option<nat>): Option<Refused> {
    if Truthy(subdomain) && SubdomainTaken(db, subdomain.value, team, exclude) then Some(Conflict) else None
  }

  // The ports in use on a node, of whatever type of tunnel.
  function UsedPorts(db: DB, node: nat, exclude: Option<nat>): set<int> {
    set t | t in db.tunnels && Some(t) != exclude
            && db.tunnels[t].agent in db.agents && db.agents[db.tunnels[t].agent].node == node
            && db.tunnels[t].remotePort.Some?
          :: db.tunnels[t].remotePort.value
  }

  function FirstFree(used: set<int>, first: int, last: int): Result<int>
    decreases last - first
  {
    if first > last then Err(Conflict)
    else if first !in used then Ok(first)
    else FirstFree(used, first + 1, last)
  }

  function AllocatePort(s: Settings, db: DB, node: nat, preferred: Option<int>, exclude: Option<nat>): Result<int> {
    var used := UsedPorts(db, node, exclude);
    if preferred.Some? then
      if !(s.portAllowMin <= preferred.value <= s.portAllowMax) then Err(Unprocessable)
      else if preferred.value in used then Err(Conflict)
      else Ok(preferred.value)
    else FirstFree(used, s.tcpPortMin, s.tcpPortMax)
  }

  function TunnelsOf(db: DB, agent: nat): set<nat> {
    set t | t in db.tunnels && db.tunnels[t].agent == agent
  }

  // --- requests ---

  // What an update sets; an absent field is left alone.
  datatype Update = Update(
    enabled: Option<bool>, localIp: Option<string>, localPort: Option<int>, remotePort: Option<Option<int>>,
    subdomain: Option<Option<string>>, customDomains: Option<Option<string>>)

  // What a new tunnel is refused for, before a port is looked for.
  function CreateCheck(s: Settings, db: DB, body: Tunnel): Option<Refused> {
    var labelled := LabelOf(db, body.agent).Some?;
    if body.agent !in db.agents then Some(NotFound)
    else if body.typ.IsWeb() && !Truthy(body.subdomain) && !Truthy(body.customDomains) then Some(Unprocessable)
    else if CheckSubdomain(s, body.subdomain, labelled).Some? then Some(Unprocessable)
    else if |TunnelsOf(db, body.agent)| >= s.maxTunnels then Some(Unprocessable)
    else if exists t :: t in TunnelsOf(db, body.agent) && db.tunnels[t].name == body.name then Some(Conflict)
    else if CheckUnique(db, body.subdomain, TeamOf(db, body.agent), None).Some? then Some(Conflict)
    else CheckDomains(s, db, body.customDomains, None)
  }

  function CreateTunnel(s: Settings, db: DB, id: nat, body: Tunnel): Result<DB>
    requires id !in db.tunnels
  {
    var check := CreateCheck(s, db, body);
    if check.Some? then Err(check.value)
    else if body.typ.IsPort() then
      match AllocatePort(s, db, db.agents[body.agent].node, body.remotePort, None)
      case Err(e) => Err(e)
      case Ok(port) => Ok(db.(tunnels := db.tunnels[id := body.(remotePort := Some(port))]))
    else Ok(db.(tunnels := db.tunnels[id := body]))
  }

  function UpdateCheck(s: Settings, db: DB, id: nat, u: Update): Option<Refused>
    requires id in db.tunnels
  {
    var agent := db.tunnels[id].agent;
    var sub := if u.subdomain.Some? then u.subdomain.value else None;
    var dom := if u.customDomains.Some? then u.customDomains.value else None;
    if CheckSubdomain(s, sub, LabelOf(db, agent).Some?).Some? then Some(Unprocessable)
    else if CheckUnique(db, sub, TeamOf(db, agent), Some(id)).Some? then Some(Conflict)
    else CheckDomains(s, db, dom, Some(id))
  }

  // The row with the fields of the update set, apart from the port.
  function Patched(t: Tunnel, u: Update): Tunnel {
    t.(enabled := if u.enabled.Some? then u.enabled.value else t.enabled,
       localIp := if u.localIp.Some? then u.localIp.value else t.localIp,
       localPort := if u.localPort.Some? then u.localPort.value else t.localPort,
       subdomain := if u.subdomain.Some? then u.subdomain.value else t.subdomain,
       customDomains := if u.customDomains.Some? then u.customDomains.value else t.customDomains)
  }

  function UpdateTunnel(s: Settings, db: DB, id: nat, u: Update): Result<DB> {
    if id !in db.tunnels || db.tunnels[id].agent !in db.agents then Err(NotFound)
    else
      var t := db.tunnels[id];
      var check := UpdateCheck(s, db, id, u);
      if check.Some? then Err(check.value)
      else
        var t1 := Patched(t, u);
        if u.remotePort.None? then Ok(db.(tunnels := db.tunnels[id := t1]))
        else if u.remotePort.value.None? then Ok(db.(tunnels := db.tunnels[id := t1.(remotePort := None)]))
        else
          match AllocatePort(s, db, db.agents[t.agent].node, u.remotePort.value, Some(id))
          case Err(e) => Err(e)
          case Ok(port) => Ok(db.(tunnels := db.tunnels[id := t1.(remotePort := Some(port))]))
  }

  function DeleteTunnel(db: DB, id: nat): Result<DB> {
    if id !in db.tunnels then Err(NotFound) else Ok(db.(tunnels := db.tunnels - {id}))
  }

  predicate LabelTaken(db: DB, subLabel: string, exclude: Option<nat>) {
    exists t :: t in db.teams && Some(t) != exclude && db.teams[t].subLabel == Some(subLabel)
  }

  predicate TeamNameTaken(db: DB, name: string, exclude: Option<nat>) {
    exists t :: t in db.teams && Some(t) != exclude && db.teams[t].name == name
  }

  function CreateTeam(db: DB, id: nat, name: string, subLabel: Option<string>, quota: Option<int>): Result<DB>
    requires id !in db.teams
  {
    var n := Strip(name);
    if n == "" then Err(Unprocessable)
    else if TeamNameTaken(db, n, None) then Err(Conflict)
    else
      var l := if Truthy(subLabel) then Slug(subLabel.value) else Slug(n);
      if l.Some? && LabelTaken(db, l.value, None) then Err(Conflict)
      else Ok(db.(teams := db.teams[id := Team(n, l, quota, false)]))
  }

  // A rename derives a new label unless one is given; a given label is slugged.
  function NewLabel(name: Option<string>, subLabel: Option<Option<string>>, current: Option<string>): Option<string> {
    var asked := if subLabel.Some? then subLabel else if name.Some? then Some(Slug(Strip(name.value))) else None;
    if asked.None? then current
    else if Truthy(asked.value) then Slug(asked.value.value)
    else asked.value
  }

  // Why a change of a team is refused.
  function TeamCheck(db: DB, id: nat, name: Option<string>, subLabel: Option<Option<string>>): Option<Refused>
    requires id in db.teams
  {
    var l := NewLabel(name, subLabel, db.teams[id].subLabel);
    if name.Some? && Strip(name.value) == "" then Some(Unprocessable)
    else if name.Some? && TeamNameTaken(db, Strip(name.value), Some(id)) then Some(Conflict)
    else if (name.Some? || subLabel.Some?) && Truthy(l) && LabelTaken(db, l.value, Some(id)) then Some(Conflict)
    else None
  }

  // `usage` is the sum that the database returns for the traffic of the team's tunnels; the
  // suspension follows the quota at once.
  function UpdateTeam(db: DB, id: nat, name: Option<string>, subLabel: Option<Option<string>>,
                      quota: Option<Option<int>>, usage: nat): Result<DB>
  {
    if id !in db.teams then Err(NotFound)
    else if TeamCheck(db, id, name, subLabel).Some? then Err(TeamCheck(db, id, name, subLabel).value)
    else
      var t := db.teams[id];
      var q := if quota.Some? then quota.value else t.quota;
      Ok(db.(teams := db.teams[id :=
        Team(if name.Some? then Strip(name.value) else t.name, NewLabel(name, subLabel, t.subLabel), q, Over(q, usage))]))
  }

  // The traffic poll brings every suspension in line with quota and usage.
  function Poll(db: DB, usages: map<nat, nat>): DB {
    db.(teams := map t | t in db.teams ::
      db.teams[t].(suspended := Over(db.teams[t].quota, if t in usages then usages[t] else 0)))
  }

  function DeleteTeam(db: DB, id: nat): Result<DB> {
    if id !in db.teams then Err(NotFound)
    else if exists a :: a in db.agents && db.agents[a].team == Some(id) then Err(Conflict)
    else Ok(db.(teams := db.teams - {id}))
  }

  function CreateAgent(db: DB, id: nat, node: nat, team: Option<nat>): Result<DB>
    requires id !in db.agents
  {
    if team.Some? && team.value !in db.teams then Err(NotFound)
    else Ok(db.(agents := db.agents[id := Agent(node, team)]))
  }

  // An agent takes its tunnels along.
  function DeleteAgent(db: DB, id: nat): Result<DB> {
    if id !in db.agents then Err(NotFound)
    else Ok(db.(agents := db.agents - {id}, tunnels := db.tunnels - TunnelsOf(db, id)))
  }

  datatype Request =
    | MakeTunnel(id: nat, body: Tunnel)
    | ChangeTunnel(id: nat, update: Update)
    | DropTunnel(id: nat)
    | MakeTeam(id: nat, name: string, subLabel: Option<string>, quota: Option<int>)
    | ChangeTeam(id: nat, newName: Option<string>, newLabel: Option<Option<string>>,
                 newQuota: Option<Option<int>>, usage: nat)
    | DropTeam(id: nat)
    | MakeAgent(id: nat, node: nat, team: Option<nat>)
    | DropAgent(id: nat)
    | PollTraffic(usages: map<nat, nat>)

  // A new row gets an id that is not in use.
  predicate FreshId(db: DB, r: Request) {
    && (r.MakeTunnel? ==> r.id !in db.tunnels)
    && (r.MakeTeam? ==> r.id !in db.teams)
    && (r.MakeAgent? ==> r.id !in db.agents)
  }

  function Serve(s: Settings, db: DB, r: Request): Result<DB>
    requires FreshId(db, r)
  {
    match r
    case MakeTunnel(id, body) => CreateTunnel(s, db, id, body)
    case ChangeTunnel(id, u) => UpdateTunnel(s, db, id, u)
    case DropTunnel(id) => DeleteTunnel(db, id)
    case MakeTeam(id, name, subLabel, quota) => CreateTeam(db, id, name, subLabel, quota)
    case ChangeTeam(id, name, subLabel, quota, usage) => UpdateTeam(db, id, name, subLabel, quota, usage)
    case DropTeam(id) => DeleteTeam(db, id)
    case MakeAgent(id, node, team) => CreateAgent(db, id, node, team)
    case DropAgent(id) => DeleteAgent(db, id)
    case PollTraffic(usages) => Ok(Poll(db, usages))
  }

  // A refused request changes nothing.
  function After(s: Settings, db: DB, r: Request): DB
    requires FreshId(db, r)
  {
    var result := Serve(s, db, r);
    if result.Ok? then result.value else db
  }
}
