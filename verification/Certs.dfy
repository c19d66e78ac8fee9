/**
 The life of an agent's certificate: single-use bootstrap tokens, the pinned serial and the one
 before it, and the denylist that the data plane reads. Signing draws a fresh serial and happens
 before the database write that pins it, so enrolments and renewals are in flight in between.
 A stored serial is the decimal print of a number, which the sentinel "revoked" is not.
 */
module Certs {

  import opened Text

  datatype Pin = NoPin | Revoked | Pinned(serial: nat)

  datatype Row = Row(token: string, used: bool, cert: Pin, prev: Option<nat>)

  datatype Table = Table(rows: map<nat, Row>, denied: set<nat>)

  // The serials a pinned agent may connect with.
  function Pair(r: Row): set<nat> {
    (if r.cert.Pinned? then {r.cert.serial} else {}) + (if r.prev.Some? then {r.prev.value} else {})
  }

  function PairOf(t: Table, a: nat): set<nat> {
    if a in t.rows then Pair(t.rows[a]) else {}
  }

  // The rule at connect. `peer` is the presented serial, if it could be read.
  predicate Admits(t: Table, a: nat, peer: Option<nat>) {
    && a in t.rows
    && var r := t.rows[a];
       r.cert == NoPin || peer.None? || Pinned(peer.value) == r.cert || peer == r.prev
  }

  // Whether that connection also confirms a renewal, so that the older serial goes.
  predicate Confirms(t: Table, a: nat, peer: Option<nat>) {
    && a in t.rows && peer.Some?
    && t.rows[a].cert == Pinned(peer.value) && t.rows[a].prev.Some?
  }

  // --- the writes ---

  // The denylist is written on a best-effort basis.
  function Deny(denied: set<nat>, p: Pin, written: bool): set<nat> {
    if p.Pinned? && written then denied + {p.serial} else denied
  }

  function Cleared(t: Table, a: nat, written: bool): Table {
    if a in t.rows && t.rows[a].prev.Some? then
      Table(t.rows[a := t.rows[a].(prev := None)], Deny(t.denied, Pinned(t.rows[a].prev.value), written))
    else t
  }

  function Renewed(t: Table, a: nat, serial: nat): Table {
    if a !in t.rows then t
    else
      var r := t.rows[a];
      t.(rows := t.rows[a :=
        r.(prev := if r.cert.Pinned? then Some(r.cert.serial) else r.prev, cert := Pinned(serial))])
  }

  function Reissued(t: Table, a: nat, token: string, written: bool): Table {
    if a !in t.rows then t
    else Table(t.rows[a := Row(token, false, Revoked, None)], Deny(t.denied, t.rows[a].cert, written))
  }

  function Deleted(t: Table, a: nat, written: bool): Table {
    if a !in t.rows then t else Table(t.rows - {a}, Deny(t.denied, t.rows[a].cert, written))
  }

  // The conditional update: it asks for the agent and an unused token, not for which token.
  predicate Burns(t: Table, a: nat) {
    a in t.rows && !t.rows[a].used
  }

  function Burned(t: Table, a: nat, serial: nat): Table {
    if Burns(t, a) then t.(rows := t.rows[a := t.rows[a].(used := true, cert := Pinned(serial), prev := None)])
    else t
  }

  class AgentTable {
    var rows: map<nat, Row>
    var denied: set<nat>

    ghost function Value(): Table
      reads this
    {
      Table(rows, denied)
    }

    constructor ()
      ensures Value() == Table(map[], {})
    {
      rows, denied := map[], {};
    }

    method RevokeSerial(p: Pin, written: bool)
      modifies this`denied
      ensures denied == Deny(old(denied), p, written)
    {
      if p.Pinned? && written {
        denied := denied + {p.serial};
      }
    }

    // The decision at connect, and the handoff it may confirm. The clearing opens the row again.
    method Connect(a: nat, peer: Option<nat>, written: bool) returns (ok: bool)
      modifies this
      ensures ok == Admits(old(Value()), a, peer)
      ensures Value() == if Confirms(old(Value()), a, peer) then Cleared(old(Value()), a, written) else old(Value())
    {
      if a !in rows {
        return false;
      }
      var r := rows[a];
      if r.cert != NoPin {
        if peer.Some? && Pinned(peer.value) != r.cert && peer != r.prev {
          return false;
        }
        if peer.Some? && Pinned(peer.value) == r.cert && r.prev.Some? {
          ClearPrev(a, written);
        }
      }
      ok := true;
    }

    method ClearPrev(a: nat, written: bool)
      modifies this
      ensures Value() == Cleared(old(Value()), a, written)
    {
      if a in rows && rows[a].prev.Some? {
        RevokeSerial(Pinned(rows[a].prev.value), written);
        rows := rows[a := rows[a].(prev := None)];
      }
    }

    method Renew(a: nat, serial: nat) returns (ok: bool)
      modifies this
      ensures ok == (a in old(rows)) && Value() == Renewed(old(Value()), a, serial)
    {
      if a !in rows {
        return false;
      }
      if rows[a].cert.Pinned? {
        rows := rows[a := rows[a].(prev := Some(rows[a].cert.serial))];
      }
      rows := rows[a := rows[a].(cert := Pinned(serial))];
      ok := true;
    }

    method Reissue(a: nat, token: string, written: bool) returns (ok: bool)
      modifies this
      ensures ok == (a in old(rows)) && Value() == Reissued(old(Value()), a, token, written)
    {
      if a !in rows {
        return false;
      }
      RevokeSerial(rows[a].cert, written);
      rows := rows[a := rows[a].(token := token, used := false)];
      rows := rows[a := rows[a].(cert := Revoked, prev := None)];
      ok := true;
    }

    method Delete(a: nat, written: bool) returns (ok: bool)
      modifies this
      ensures ok == (a in old(rows)) && Value() == Deleted(old(Value()), a, written)
    {
      if a !in rows {
        return false;
      }
      RevokeSerial(rows[a].cert, written);
      rows := rows - {a};
      ok := true;
    }

    method Burn(a: nat, serial: nat) returns (ok: bool)
      modifies this
      ensures ok == Burns(old(Value()), a) && Value() == Burned(old(Value()), a, serial)
    {
      if a !in rows || rows[a].used {
        return false;
      }
      rows := rows[a := rows[a].(used := true, cert := Pinned(serial), prev := None)];
      ok := true;
    }
  }

  // --- runs ---

  // A signed certificate whose serial is not pinned yet.
  datatype Flight = Enrolling(agent: nat, token: string, serial: nat) | Renewing(agent: nat, serial: nat)

  // `home` records the agent a serial was pinned for, `tokens` the agent a token was minted for;
  // `wins` counts the successful enrolments of
  // a row since it was made, and `reissues` the tokens minted to replace a used one.
  datatype State = State(
    table: Table, flights: map<nat, Flight>, issued: set<nat>, home: map<nat, nat>,
    wins: map<nat, nat>, reissues: map<nat, nat>, tokens: map<string, nat>)

  // Ids may be reused once a row is gone; tokens and serials are drawn fresh.
  datatype Event =
    | Create(a: nat, token: string)
    | LookUp(h: nat, a: nat, token: string, serial: nat)
    | Burn(h: nat)
    | SignRenewal(h: nat, a: nat, serial: nat)
    | PinRenewal(h: nat)
    | Clear(a: nat, written: bool)
    | Reissue(a: nat, token: string, written: bool)
    | Delete(a: nat, written: bool)

  predicate Enabled(s: State, e: Event) {
    match e
    case Create(a, token) => a !in s.table.rows && token !in s.tokens
    case LookUp(h, a, token, serial) =>
      && h !in s.flights && serial !in s.issued
      && a in s.table.rows && s.table.rows[a].token == token && !s.table.rows[a].used
    case Burn(h) => h in s.flights && s.flights[h].Enrolling?
    case SignRenewal(h, _, serial) => h !in s.flights && serial !in s.issued
    case PinRenewal(h) => h in s.flights && s.flights[h].Renewing?
    case Clear(_, _) => true
    case Reissue(a, token, _) => a in s.table.rows && token !in s.tokens
    case Delete(a, _) => a in s.table.rows
  }

  function Count(m: map<nat, nat>, a: nat): nat {
    if a in m then m[a] else 0
  }

  function After(s: State, e: Event): State
    requires Enabled(s, e)
  {
    match e
    case Create(a, token) =>
      s.(table := s.table.(rows := s.table.rows[a := Row(token, false, NoPin, None)]),
         wins := s.wins[a := 0], reissues := s.reissues[a := 0], tokens := s.tokens[token := a])
    case LookUp(h, a, token, serial) =>
      s.(flights := s.flights[h := Enrolling(a, token, serial)], issued := s.issued + {serial})
    case Burn(h) =>
      var f := s.flights[h];
      if Burns(s.table, f.agent) then
        s.(table := Burned(s.table, f.agent, f.serial), flights := s.flights - {h},
           home := s.home[f.serial := f.agent], wins := s.wins[f.agent := Count(s.wins, f.agent) + 1])
      else s.(flights := s.flights - {h})
    case SignRenewal(h, a, serial) =>
      s.(flights := s.flights[h := Renewing(a, serial)], issued := s.issued + {serial})
    case PinRenewal(h) =>
      var f := s.flights[h];
      if f.agent in s.table.rows then
        s.(table := Renewed(s.table, f.agent, f.serial), flights := s.flights - {h},
           home := s.home[f.serial := f.agent])
      else s.(flights := s.flights - {h})
    case Clear(a, written) => s.(table := Cleared(s.table, a, written))
    case Reissue(a, token, written) =>
      s.(table := Reissued(s.table, a, token, written),
         reissues := if s.table.rows[a].used then s.reissues[a := Count(s.reissues, a) + 1] else s.reissues,
         tokens := s.tokens[token := a])
    case Delete(a, written) => s.(table := Deleted(s.table, a, written))
  }

  const START := State(Table(map[], {}), map[], {}, map[], map[], map[], map[])

  ghost predicate IsRun(es: seq<Event>)
    decreases |es|, 0
  {
    es == [] || (IsRun(es[..|es| - 1]) && Enabled(Exec(es[..|es| - 1]), es[|es| - 1]))
  }

  ghost function Exec(es: seq<Event>): State
    requires IsRun(es)
    decreases |es|, 1
  {
    if es == [] then START else After(Exec(es[..|es| - 1]), es[|es| - 1])
  }

  // --- the invariant ---

  // A serial in flight is issued, is in one flight only, and was never pinned.
  ghost predicate FlightsOk(s: State) {
    && (forall h :: h in s.flights ==> s.flights[h].serial in s.issued && s.flights[h].serial !in s.home)
    && (forall h, g :: h in s.flights && g in s.flights && s.flights[h].serial == s.flights[g].serial ==> h == g)
    && (forall x :: x in s.home ==> x in s.issued)
  }

  // A pinned serial is pinned for its own agent.
  ghost predicate AtHome(s: State) {
    forall a, x :: x in PairOf(s.table, a) ==> x in s.home && s.home[x] == a
  }

  // There is an older serial only beside a current one, and it is another one.
  ghost predicate PairsOk(s: State) {
    && AtHome(s)
    && (forall a :: a in s.table.rows && s.table.rows[a].prev.Some? ==>
          s.table.rows[a].cert.Pinned? && s.table.rows[a].cert.serial != s.table.rows[a].prev.value)
  }

  // A serial that was pinned and is not any more.
  ghost predicate Retired(s: State, x: nat) {
    x in s.home && x !in PairOf(s.table, s.home[x])
  }

  ghost predicate DeniedOk(s: State) {
    forall x :: x in s.table.denied ==> Retired(s, x)
  }

  // Every token was won exactly once, or is still unused, or was replaced unused.
  ghost predicate WinsOk(s: State) {
    forall a :: a in s.table.rows ==>
      Count(s.wins, a) + (if s.table.rows[a].used then 0 else 1) == 1 + Count(s.reissues, a)
  }

  // A token in use, or looked up by an enrolment in flight, was minted for that agent.
  ghost predicate TokensOk(s: State) {
    && (forall a :: a in s.table.rows ==> s.table.rows[a].token in s.tokens && s.tokens[s.table.rows[a].token] == a)
    && (forall h :: h in s.flights && s.flights[h].Enrolling? ==>
          s.flights[h].token in s.tokens && s.tokens[s.flights[h].token] == s.flights[h].agent)
  }

  ghost predicate Inv(s: State) {
    FlightsOk(s) && PairsOk(s) && DeniedOk(s) && WinsOk(s) && TokensOk(s)
  }

  // Certificates are signed and pinned; the other events write rows only.
  predicate MovesFlights(e: Event) {
    e.LookUp? || e.Burn? || e.SignRenewal? || e.PinRenewal?
  }

  lemma EventKeepsFlightsInFlight(s: State, e: Event)
    requires FlightsOk(s) && Enabled(s, e) && MovesFlights(e)
    ensures FlightsOk(After(s, e))
  {
    hide Burned, Renewed, Burns;
  }

  lemma EventKeepsFlightsOnRows(s: State, e: Event)
    requires FlightsOk(s) && Enabled(s, e) && !MovesFlights(e)
    ensures FlightsOk(After(s, e))
  {
  }

  lemma EventKeepsFlights(s: State, e: Event)
    requires FlightsOk(s) && Enabled(s, e)
    ensures FlightsOk(After(s, e))
  {
    hide *;
    if MovesFlights(e) {
      EventKeepsFlightsInFlight(s, e);
    } else {
      EventKeepsFlightsOnRows(s, e);
    }
  }

  lemma EventKeepsHome(s: State, e: Event)
    requires FlightsOk(s) && AtHome(s) && Enabled(s, e)
    ensures AtHome(After(s, e))
  {
    var t := After(s, e);
    forall a, x | x in PairOf(t.table, a)
      ensures x in t.home && t.home[x] == a
    {
      assert x in PairOf(s.table, a) ==> x in s.home && s.home[x] == a;
    }
  }

  lemma EventKeepsPairsInFlight(s: State, e: Event)
    requires FlightsOk(s) && PairsOk(s) && Enabled(s, e) && MovesFlights(e)
    ensures PairsOk(After(s, e))
  {
    EventKeepsHome(s, e);
    assert forall a :: a in s.table.rows && s.table.rows[a].cert.Pinned? ==>
      s.table.rows[a].cert.serial in PairOf(s.table, a);
    hide Pair;
  }

  lemma EventKeepsPairsOnRows(s: State, e: Event)
    requires FlightsOk(s) && PairsOk(s) && Enabled(s, e) && !MovesFlights(e)
    ensures PairsOk(After(s, e))
  {
    EventKeepsHome(s, e);
    assert forall a :: a in s.table.rows && s.table.rows[a].cert.Pinned? ==>
      s.table.rows[a].cert.serial in PairOf(s.table, a);
    hide Pair;
  }

  lemma EventKeepsPairs(s: State, e: Event)
    requires FlightsOk(s) && PairsOk(s) && Enabled(s, e)
    ensures PairsOk(After(s, e))
  {
    hide *;
    if MovesFlights(e) {
      EventKeepsPairsInFlight(s, e);
    } else {
      EventKeepsPairsOnRows(s, e);
    }
  }

  lemma RetiredStays(s: State, e: Event, x: nat)
    requires FlightsOk(s) && PairsOk(s) && Enabled(s, e) && Retired(s, x)
    ensures Retired(After(s, e), x) && After(s, e).home[x] == s.home[x]
  {
  }

  lemma EventKeepsDenied(s: State, e: Event)
    requires FlightsOk(s) && PairsOk(s) && DeniedOk(s) && Enabled(s, e)
    ensures DeniedOk(After(s, e))
  {
    var t := After(s, e);
    forall x | x in t.table.denied
      ensures Retired(t, x)
    {
      if x in s.table.denied {
        RetiredStays(s, e, x);
      } else {
        assert x in PairOf(s.table, e.a);
      }
    }
  }

  lemma EventKeepsTokens(s: State, e: Event)
    requires TokensOk(s) && Enabled(s, e)
    ensures TokensOk(After(s, e))
  {
  }

  lemma EventKeepsWinsInFlight(s: State, e: Event)
    requires WinsOk(s) && Enabled(s, e) && MovesFlights(e)
    ensures WinsOk(After(s, e))
  {
    var t := After(s, e);
    forall a | a in t.table.rows
      ensures Count(t.wins, a) + (if t.table.rows[a].used then 0 else 1) == 1 + Count(t.reissues, a)
    {
      assert a in s.table.rows;
    }
  }

  lemma EventKeepsWinsOnRows(s: State, e: Event)
    requires WinsOk(s) && Enabled(s, e) && !MovesFlights(e)
    ensures WinsOk(After(s, e))
  {
  }

  lemma EventKeepsWins(s: State, e: Event)
    requires WinsOk(s) && Enabled(s, e)
    ensures WinsOk(After(s, e))
  {
    hide *;
    if MovesFlights(e) {
      EventKeepsWinsInFlight(s, e);
    } else {
      EventKeepsWinsOnRows(s, e);
    }
  }

  lemma {:induction false} ReachableInv(es: seq<Event>)
    requires IsRun(es)
    ensures Inv(Exec(es))
  {
    if es == [] {
    } else {
      var before, e := es[..|es| - 1], es[|es| - 1];
      ReachableInv(before);
      EventKeepsFlights(Exec(before), e);
      EventKeepsPairs(Exec(before), e);
      EventKeepsDenied(Exec(before), e);
      EventKeepsWins(Exec(before), e);
      EventKeepsTokens(Exec(before), e);
    }
  }

  // --- the guarantees ---

  lemma {:induction false} RetiredForever(es: seq<Event>, more: seq<Event>, x: nat)
    requires IsRun(es) && IsRun(es + more) && Retired(Exec(es), x)
    ensures Retired(Exec(es + more), x) && Exec(es + more).home[x] == Exec(es).home[x]
  {
    if more == [] {
      assert es + more == es;
    } else {
      var before := more[..|more| - 1];
      assert (es + more)[..|es + more| - 1] == es + before;
      RetiredForever(es, before, x);
      ReachableInv(es + before);
      RetiredStays(Exec(es + before), more[|more| - 1], x);
    }
  }

  // Once a serial has left the pair of its agent, whatever happens afterwards, the agent is not
  // admitted with it again: only a row without any pin still lets it in, and such a row was
  // made anew under the same id.
  lemma RetiredIsNeverAdmitted(es: seq<Event>, more: seq<Event>, x: nat)
    requires IsRun(es) && IsRun(es + more) && Retired(Exec(es), x)
    ensures var (t, a) := (Exec(es + more).table, Exec(es).home[x]);
      Admits(t, a, Some(x)) <==> a in t.rows && t.rows[a].cert == NoPin
  {
    RetiredForever(es, more, x);
    assert x !in PairOf(Exec(es + more).table, Exec(es).home[x]);
  }

  // No serial that an agent may still connect with is on the denylist of the data plane.
  lemma PinnedIsNotDenied(es: seq<Event>, a: nat, x: nat)
    requires IsRun(es) && a in Exec(es).table.rows
    requires Exec(es).table.rows[a].cert == Pinned(x) || Exec(es).table.rows[a].prev == Some(x)
    ensures x !in Exec(es).table.denied
  {
    ReachableInv(es);
    assert x in PairOf(Exec(es).table, a);
  }

  // A token lets exactly one certificate in: enrolments won plus the unused token make one more
  // than the used tokens that were replaced.
  lemma OneEnrolmentPerToken(es: seq<Event>, a: nat)
    requires IsRun(es) && a in Exec(es).table.rows
    ensures var s := Exec(es);
      Count(s.wins, a) + (if s.table.rows[a].used then 0 else 1) == 1 + Count(s.reissues, a)
  {
    ReachableInv(es);
  }

  // A used token starts no enrolment, and an unknown one neither.
  lemma UsedTokenIsRefused(s: State, token: string)
    requires forall a :: a in s.table.rows && s.table.rows[a].token == token ==> s.table.rows[a].used
    ensures forall h, a, serial :: !Enabled(s, LookUp(h, a, token, serial))
  {
  }

  // Of two enrolments in flight for one agent, the one that writes first wins and the other is
  // refused, unless the token was replaced in between.
  lemma SecondEnrolmentLoses(s: State, h: nat, g: nat)
    requires h != g && Enabled(s, Burn(h)) && Enabled(s, Burn(g)) && s.flights[h].agent == s.flights[g].agent
    ensures !Burns(After(s, Burn(h)).table, s.flights[g].agent)
    ensures After(After(s, Burn(h)), Burn(g)).table == After(s, Burn(h)).table
  {
  }

  // What becomes of a serial that leaves its pair when the denylist can be written: it is denied
  // exactly when it was the current one of a reissued or deleted agent, or the older one of a
  // confirmed handoff. The older serial of an agent that is reissued, deleted or renewed again
  // is dropped without being denied.
  lemma DroppedIsDeniedExactlyWhen(es: seq<Event>, e: Event, a: nat, x: nat)
    requires IsRun(es) && Enabled(Exec(es), e)
    requires e.Clear? || e.Reissue? || e.Delete? ==> e.written
    requires x in PairOf(Exec(es).table, a) && x !in PairOf(After(Exec(es), e).table, a)
    ensures x in After(Exec(es), e).table.denied <==>
      e.Clear? || ((e.Reissue? || e.Delete?) && Exec(es).table.rows[a].cert == Pinned(x))
  {
    ReachableInv(es);
    hide IsRun, Exec;
    var s := Exec(es);
    assert Retired(s, x) ==> x !in PairOf(s.table, a);
    assert x !in s.table.denied;
  }

  // What a connection needs: a row, and then either no pin, or a serial that cannot be read, or one
  // of the pair. A row whose only pin is the sentinel accepts no serial.
  lemma AdmitsSays(t: Table, a: nat)
    ensures a !in t.rows ==> forall peer :: !Admits(t, a, peer)
    ensures a in t.rows ==> Admits(t, a, None) && !Confirms(t, a, None)
    ensures a in t.rows && t.rows[a].cert.NoPin? ==> forall x :: Admits(t, a, Some(x)) && !Confirms(t, a, Some(x))
    ensures a in t.rows && !t.rows[a].cert.NoPin? ==> forall x :: Admits(t, a, Some(x)) <==> x in PairOf(t, a)
    ensures a in t.rows && t.rows[a].cert.Pinned? ==>
      forall x :: Confirms(t, a, Some(x)) <==> x == t.rows[a].cert.serial && t.rows[a].prev.Some?
  {
  }

  // The denylist only grows, and only by the serial that a step drops, if it can be written.
  lemma DenylistSays(s: State, e: Event, x: nat)
    requires Enabled(s, e)
    ensures x in After(s, e).table.denied <==>
      || x in s.table.denied
      || (e.Clear? && e.written && e.a in s.table.rows && s.table.rows[e.a].prev == Some(x))
      || ((e.Reissue? || e.Delete?) && e.written && s.table.rows[e.a].cert == Pinned(x))
  {
  }

  // What each step writes into the rows: the winner of an enrolment is pinned alone, a renewal is
  // pinned with the current serial kept beside it, a reissue leaves a fresh token and nothing that
  // is accepted, a deletion removes the row; no other row changes.
  lemma RowsSay(s: State, e: Event)
    requires Enabled(s, e)
    ensures var (rows, rows') := (s.table.rows, After(s, e).table.rows);
      match e
      case Create(a, token) => rows' == rows[a := Row(token, false, NoPin, None)]
      case LookUp(_, _, _, _) => rows' == rows
      case Burn(h) =>
        var (a, x) := (s.flights[h].agent, s.flights[h].serial);
        if a in rows && !rows[a].used
        then a in rows' && rows'[a] == Row(rows[a].token, true, Pinned(x), None) && rows' - {a} == rows - {a}
        else rows' == rows
      case SignRenewal(_, _, _) => rows' == rows
      case PinRenewal(h) =>
        var (a, x) := (s.flights[h].agent, s.flights[h].serial);
        if a in rows
        then a in rows' && rows' - {a} == rows - {a}
             && rows'[a].token == rows[a].token && rows'[a].used == rows[a].used && rows'[a].cert == Pinned(x)
             && rows'[a].prev == (if rows[a].cert.Pinned? then Some(rows[a].cert.serial) else rows[a].prev)
        else rows' == rows
      case Clear(a, _) =>
        if a in rows then a in rows' && rows'[a] == Row(rows[a].token, rows[a].used, rows[a].cert, None) && rows' - {a} == rows - {a}
        else rows' == rows
      case Reissue(a, token, _) => rows' == rows[a := Row(token, false, Revoked, None)]
      case Delete(a, _) => rows' == rows - {a}
  {
  }

  // During a handoff both certificates are accepted, and after it only the newer one. A second
  // renewal before that drops the oldest, so an agent that never received the two newer
  // certificates is locked out.
  lemma Handoff(es: seq<Event>, h: nat)
    requires IsRun(es) && Enabled(Exec(es), PinRenewal(h))
    requires var a := Exec(es).flights[h].agent; a in Exec(es).table.rows && Exec(es).table.rows[a].cert.Pinned?
    ensures var s, f := Exec(es), Exec(es).flights[h];
      var r, t := s.table.rows[f.agent], After(s, PinRenewal(h));
      && (forall x :: Admits(t.table, f.agent, Some(x)) <==> x == f.serial || Pinned(x) == r.cert)
      && Confirms(t.table, f.agent, Some(f.serial))
      && (forall written, x ::
            Admits(After(t, Clear(f.agent, written)).table, f.agent, Some(x)) <==> x == f.serial)
      && (r.prev.Some? ==> !Admits(t.table, f.agent, r.prev))
  {
    ReachableInv(es);
    hide IsRun, Exec, Inv;
    var s, f := Exec(es), Exec(es).flights[h];
    HandoffStep(s, h);
    TwoAccepted(After(s, PinRenewal(h)), f.agent, f.serial, s.table.rows[f.agent].cert.serial);
    hide After, Admits;
  }

  // While a row pins a serial and the one before it, these two are accepted; the newer one
  // confirms, and after the confirmation only it is.
  lemma TwoAccepted(t: State, a: nat, newer: nat, older: nat)
    requires a in t.table.rows && newer != older
    requires t.table.rows[a].cert == Pinned(newer) && t.table.rows[a].prev == Some(older)
    ensures forall x :: Admits(t.table, a, Some(x)) <==> x == newer || x == older
    ensures Confirms(t.table, a, Some(newer))
    ensures forall written, x :: Admits(After(t, Clear(a, written)).table, a, Some(x)) <==> x == newer
  {
  }

  lemma HandoffStep(s: State, h: nat)
    requires Inv(s) && Enabled(s, PinRenewal(h))
    requires var a := s.flights[h].agent; a in s.table.rows && s.table.rows[a].cert.Pinned?
    ensures var f := s.flights[h];
      var r, t := s.table.rows[f.agent], After(s, PinRenewal(h));
      && f.agent in t.table.rows && t.table.rows[f.agent].cert == Pinned(f.serial)
      && t.table.rows[f.agent].prev == Some(r.cert.serial)
      && r.cert.serial != f.serial
      && (r.prev.Some? ==> r.prev.value != f.serial && r.prev.value != r.cert.serial)
  {
    var a := s.flights[h].agent;
    assert s.table.rows[a].cert.serial in PairOf(s.table, a);
    assert s.table.rows[a].prev.Some? ==> s.table.rows[a].prev.value in PairOf(s.table, a);
  }

  // No certificate of the agent is accepted, and its row waits for an enrolment.
  predicate ShutOut(s: State, a: nat) {
    a in s.table.rows && s.table.rows[a].cert == Revoked && s.table.rows[a].prev == None
  }

  // The step ends that: a won enrolment, a pinned renewal, or the deletion of the agent.
  predicate EndsShutOut(s: State, e: Event, a: nat)
    requires Enabled(s, e)
  {
    || (e.Burn? && s.flights[e.h].agent == a && Burns(s.table, a))
    || (e.PinRenewal? && s.flights[e.h].agent == a)
    || (e.Delete? && e.a == a)
  }

  lemma ShutOutEndsIff(s: State, a: nat, e: Event)
    requires Enabled(s, e) && ShutOut(s, a)
    ensures forall x :: !Admits(s.table, a, Some(x))
    ensures ShutOut(After(s, e), a) <==> !EndsShutOut(s, e, a)
  {
  }

  ghost predicate NoneEnds(es: seq<Event>, more: seq<Event>, a: nat)
    requires IsRun(es + more)
    decreases |more|
  {
    more == [] ||
    var before := more[..|more| - 1];
    assert (es + more)[..|es + more| - 1] == es + before;
    NoneEnds(es, before, a) && !EndsShutOut(Exec(es + before), more[|more| - 1], a)
  }

  // A reissue shuts every certificate out for as long as no such step happens.
  lemma {:induction false} StaysShutOut(es: seq<Event>, more: seq<Event>, a: nat)
    requires IsRun(es + more) && IsRun(es) && ShutOut(Exec(es), a) && NoneEnds(es, more, a)
    ensures ShutOut(Exec(es + more), a) && forall x :: !Admits(Exec(es + more).table, a, Some(x))
    decreases |more|
  {
    if more == [] {
      assert es + more == es;
    } else {
      var before := more[..|more| - 1];
      assert (es + more)[..|es + more| - 1] == es + before;
      StaysShutOut(es, before, a);
      ShutOutEndsIff(Exec(es + before), a, more[|more| - 1]);
    }
  }

  // An enrolment that looked the token up is in flight; it would win if it wrote now.
  predicate InFlight(s: State, h: nat, token: string) {
    h in s.flights && s.flights[h].Enrolling? && s.flights[h].token == token
  }

  predicate WouldWin(s: State, h: nat, token: string) {
    InFlight(s, h, token) && Burns(s.table, s.flights[h].agent)
  }

  // No row holds the token, and it will not be minted again.
  ghost predicate Replaced(s: State, token: string) {
    token in s.tokens && forall a :: a in s.table.rows ==> s.table.rows[a].token != token
  }

  lemma ReplacedStays(s: State, e: Event, token: string)
    requires Enabled(s, e) && Replaced(s, token)
    ensures Replaced(After(s, e), token)
    ensures forall h :: InFlight(After(s, e), h, token) ==> InFlight(s, h, token)
  {
  }

  lemma {:induction false} NoFlightAppears(es: seq<Event>, more: seq<Event>, token: string)
    requires IsRun(es + more) && IsRun(es) && Replaced(Exec(es), token)
    ensures Replaced(Exec(es + more), token)
    ensures forall h :: InFlight(Exec(es + more), h, token) ==> InFlight(Exec(es), h, token)
    decreases |more|
  {
    if more == [] {
      assert es + more == es;
    } else {
      var before := more[..|more| - 1];
      assert (es + more)[..|es + more| - 1] == es + before;
      NoFlightAppears(es, before, token);
      ReplacedStays(Exec(es + before), more[|more| - 1], token);
    }
  }

  // The token that a reissue replaces can still win an enrolment in some continuation if and only
  // if an enrolment that looked it up was in flight at the reissue.
  lemma OldTokenWinsIff(es: seq<Event>, a: nat, token: string, written: bool)
    requires IsRun(es) && Enabled(Exec(es), Reissue(a, token, written))
    ensures var replaced := Exec(es).table.rows[a].token;
      var fs := es + [Reissue(a, token, written)];
      && IsRun(fs)
      && ((exists more, h :: IsRun(fs + more) && WouldWin(Exec(fs + more), h, replaced)) <==>
          exists h :: InFlight(Exec(fs), h, replaced))
  {
    var replaced := Exec(es).table.rows[a].token;
    var fs := Extend(es, Reissue(a, token, written));
    ReachableInv(es);
    ReachableInv(fs);
    ReissueReplaces(Exec(es), a, token, written);
    hide Inv, After, Enabled;
    if more, h :| IsRun(fs + more) && WouldWin(Exec(fs + more), h, replaced) {
      NoFlightAppears(fs, more, replaced);
      assert InFlight(Exec(fs), h, replaced);
    }
    if h :| InFlight(Exec(fs), h, replaced) {
      FlightOfToken(Exec(fs), h, replaced, a);
      assert fs + [] == fs;
      assert WouldWin(Exec(fs + []), h, replaced);
    }
  }

  lemma ReissueReplaces(s: State, a: nat, token: string, written: bool)
    requires Inv(s) && Enabled(s, Reissue(a, token, written))
    ensures var t := After(s, Reissue(a, token, written));
      && Replaced(t, s.table.rows[a].token) && Burns(t.table, a) && t.tokens[s.table.rows[a].token] == a
      && ShutOut(t, a)
  {
  }

  lemma FlightOfToken(s: State, h: nat, token: string, a: nat)
    requires Inv(s) && InFlight(s, h, token) && token in s.tokens && s.tokens[token] == a
    ensures s.flights[h].agent == a
  {
  }

  lemma Extend(es: seq<Event>, e: Event) returns (fs: seq<Event>)
    requires IsRun(es) && Enabled(Exec(es), e)
    ensures fs == es + [e] && IsRun(fs) && Exec(fs) == After(Exec(es), e)
  {
    fs := es + [e];
    assert fs[..|fs| - 1] == es;
  }

  lemma LookedUp() returns (es: seq<Event>)
    ensures es == [Create(1, "old"), LookUp(0, 1, "old", 7)] && IsRun(es)
    ensures Exec(es) == State(Table(map[1 := Row("old", false, NoPin, None)], {}), map[0 := Enrolling(1, "old", 7)],
                              {7}, map[], map[1 := 0], map[1 := 0], map["old" := 1])
  {
    es := Extend([], Create(1, "old"));
    es := Extend(es, LookUp(0, 1, "old", 7));
  }

  lemma EnrolledAndReissued() returns (es: seq<Event>)
    ensures es == [Create(1, "old"), LookUp(0, 1, "old", 7), Burn(0), Reissue(1, "new", true)] && IsRun(es)
    ensures Exec(es).table == Table(map[1 := Row("new", false, Revoked, None)], {7})
    ensures Exec(es).flights == map[] && Exec(es).issued == {7}
  {
    es := LookedUp();
    es := Extend(es, Burn(0));
    assert Exec(es).table == Table(map[1 := Row("old", true, Pinned(7), None)], {});
    es := Extend(es, Reissue(1, "new", true));
  }

  // Two runs in which a certificate gets pinned although the reissue came first: an enrolment
  // that looked up the old token, and a renewal of an agent that is still connected.
  lemma OldTokenCanWin() returns (es: seq<Event>)
    ensures es == [Create(1, "old"), LookUp(0, 1, "old", 7), Reissue(1, "new", true), Burn(0)]
    ensures IsRun(es) && Admits(Exec(es).table, 1, Some(7)) && Exec(es).table.rows[1].token == "new"
  {
    es := LookedUp();
    es := Extend(es, Reissue(1, "new", true));
    es := Extend(es, Burn(0));
  }

  lemma RenewalPinsAfterReissue() returns (es: seq<Event>)
    ensures es == [Create(1, "old"), LookUp(0, 1, "old", 7), Burn(0), Reissue(1, "new", true),
                   SignRenewal(2, 1, 8), PinRenewal(2)]
    ensures IsRun(es) && Admits(Exec(es).table, 1, Some(8)) && Exec(es).table.denied == {7}
  {
    es := EnrolledAndReissued();
    es := Extend(es, SignRenewal(2, 1, 8));
    es := Extend(es, PinRenewal(2));
  }
}
