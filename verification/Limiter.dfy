/**
 The two-level connection limiter: a global semaphore and one counter per identity. The class
 is the code as one goroutine runs it; the state machine interleaves any number of connection
 handlers, with each channel operation and each lock region as a step of its own.
 */
module Limiter {

  import Sets

  const MAX_CONNS: nat := 60000
  const MAX_CONNS_PER_CN: nat := 10000

  type Counts = map<string, nat>

  // A missing key reads as zero.
  function Get(m: Counts, cn: string): nat {
    if cn in m then m[cn] else 0
  }

  function Raise(m: Counts, cn: string): Counts {
    m[cn := Get(m, cn) + 1]
  }

  // The last holder removes the key.
  function Lower(m: Counts, cn: string): Counts {
    if Get(m, cn) <= 1 then m - {cn} else m[cn := Get(m, cn) - 1]
  }

  class Limiter {
    var sem: nat
    var perCN: Counts

    constructor ()
      ensures sem == 0 && perCN == map[]
    {
      sem, perCN := 0, map[];
    }

    method Acquire() returns (ok: bool)
      modifies this`sem
      ensures ok == (old(sem) < 60000)
      ensures sem == if ok then old(sem) + 1 else old(sem)
    {
      ok := sem < MAX_CONNS;
      if ok {
        sem := sem + 1;
      }
    }

    // A receive from the empty semaphore would block.
    method Release()
      requires sem > 0
      modifies this`sem
      ensures sem == old(sem) - 1
    {
      sem := sem - 1;
    }

    method AcquireCNOnly(cn: string) returns (ok: bool)
      modifies this`perCN
      ensures ok == (Get(old(perCN), cn) < 10000)
      ensures perCN == if ok then Raise(old(perCN), cn) else old(perCN)
    {
      ok := Get(perCN, cn) < MAX_CONNS_PER_CN;
      if ok {
        perCN := perCN[cn := Get(perCN, cn) + 1];
      }
    }

    method ReleaseCNOnly(cn: string)
      modifies this`perCN
      ensures perCN == Lower(old(perCN), cn)
    {
      if Get(perCN, cn) <= 1 {
        perCN := perCN - {cn};
      } else {
        perCN := perCN[cn := perCN[cn] - 1];
      }
    }

    // A slot of each kind, or nothing.
    method AcquireCN(cn: string) returns (ok: bool)
      modifies this
      ensures ok == (old(sem) < 60000 && Get(old(perCN), cn) < 10000)
      ensures sem == if ok then old(sem) + 1 else old(sem)
      ensures perCN == if ok then Raise(old(perCN), cn) else old(perCN)
    {
      ok := Acquire();
      if ok {
        ok := AcquireCNOnly(cn);
        if !ok {
          Release();
        }
      }
    }

    method ReleaseCN(cn: string)
      requires sem > 0
      modifies this
      ensures sem == old(sem) - 1 && perCN == Lower(old(perCN), cn)
    {
      ReleaseCNOnly(cn);
      Release();
    }

    // A public connection that comes and goes leaves no trace, not even a stored zero.
    method ServeOne(cn: string) returns (ok: bool)
      requires forall c :: c in perCN ==> perCN[c] > 0
      modifies this
      ensures sem == old(sem) && perCN == old(perCN)
      ensures ok == (old(sem) < 60000 && Get(old(perCN), cn) < 10000)
    {
      ok := AcquireCN(cn);
      if ok {
        RaiseThenLower(old(perCN), cn);
        ReleaseCN(cn);
      }
    }
  }

  lemma RaiseThenLower(m: Counts, cn: string)
    requires forall c :: c in m ==> m[c] > 0
    ensures Lower(Raise(m, cn), cn) == m
  {
    if cn in m {
      assert Lower(Raise(m, cn), cn) == m[cn := m[cn]];
    }
  }

  // --- any number of handlers at once ---

  // A live handler holds the global slot; `Both` also one of its identity; `Leaving` has given
  // that one back or was refused it. Control and work connections never claim an identity slot.
  datatype Handler = Held | Both(cn: string) | Leaving

  datatype State = State(handlers: map<nat, Handler>, sem: nat, perCN: Counts)

  datatype Event = Enter(h: nat) | Claim(h: nat, cn: string) | Unclaim(h: nat) | Leave(h: nat)

  predicate Is(s: State, h: nat, st: Handler) {
    h in s.handlers && s.handlers[h] == st
  }

  predicate Enabled(s: State, e: Event) {
    match e
    case Enter(h) => h !in s.handlers
    case Claim(h, _) => Is(s, h, Held)
    case Unclaim(h) => h in s.handlers && s.handlers[h].Both?
    case Leave(h) => Is(s, h, Held) || Is(s, h, Leaving)
  }

  // A receive from the empty semaphore blocks, so a leaving handler would never get past it.
  predicate Blocks(s: State, e: Event) {
    e.Leave? && s.sem == 0
  }

  function After(s: State, e: Event): State
    requires Enabled(s, e)
  {
    match e
    case Enter(h) =>
      if s.sem < MAX_CONNS then s.(handlers := s.handlers[h := Held], sem := s.sem + 1) else s
    case Claim(h, cn) =>
      if Get(s.perCN, cn) < MAX_CONNS_PER_CN
      then s.(handlers := s.handlers[h := Both(cn)], perCN := Raise(s.perCN, cn))
      else s.(handlers := s.handlers[h := Leaving])
    case Unclaim(h) =>
      s.(handlers := s.handlers[h := Leaving], perCN := Lower(s.perCN, s.handlers[h].cn))
    case Leave(h) =>
      if Blocks(s, e) then s else s.(handlers := s.handlers - {h}, sem := s.sem - 1)
  }

  const START := State(map[], 0, map[])

  ghost predicate IsRun(es: seq<Event>)
    decreases |es|, 0
  {
    es == [] || (IsRun(es[..|es| - 1]) && Enabled(Exec(es[..|es| - 1]), es[|es| - 1]))
  }

  ghost function Exec(es: seq<Event>): State
    requires IsRun(es)
    decreases |es|, 1
  {
    if es == [] then START else After(Exec(es[..|es| - 1]), es[|es| - 1])
  }

  // The handlers that hold a slot of `cn`.
  ghost function Holders(s: State, cn: string): set<nat> {
    set h | h in s.handlers && s.handlers[h] == Both(cn)
  }

  ghost function Total(m: Counts): nat
    decreases |m|
  {
    if m == map[] then 0
    else
      var cn :| cn in m;
      m[cn] + Total(m - {cn})
  }

  // Every count is the number of its holders, within its bound, and never a stored zero.
  ghost predicate Inv(s: State) {
    && s.sem == |s.handlers| <= MAX_CONNS
    && (forall cn :: Get(s.perCN, cn) == |Holders(s, cn)| <= MAX_CONNS_PER_CN)
    && (forall cn :: cn in s.perCN ==> s.perCN[cn] > 0)
  }

  // A handler that changes its stage changes the holders of at most the two identities.
  lemma HoldersAfter(s: State, h: nat, st: Handler, cn: string)
    requires h in s.handlers ==> s.handlers[h] != st
    ensures var t := s.(handlers := s.handlers[h := st]);
      |Holders(t, cn)| == |Holders(s, cn)|
        + (if st == Both(cn) then 1 else 0) - (if Is(s, h, Both(cn)) then 1 else 0)
  {
    var t := s.(handlers := s.handlers[h := st]);
    if st == Both(cn) {
      assert Holders(t, cn) == Holders(s, cn) + {h};
    } else {
      assert Holders(t, cn) == Holders(s, cn) - {h};
    }
  }

  lemma HoldersWithout(s: State, h: nat, cn: string)
    requires h in s.handlers && !s.handlers[h].Both?
    ensures Holders(s.(handlers := s.handlers - {h}), cn) == Holders(s, cn)
  {
  }

  lemma HoldersDependOnHandlers(s: State, t: State, cn: string)
    requires s.handlers == t.handlers
    ensures Holders(s, cn) == Holders(t, cn)
  {
  }

  lemma EnterKeeps(s: State, h: nat)
    requires Inv(s) && Enabled(s, Enter(h))
    ensures Inv(After(s, Enter(h)))
  {
    var t := After(s, Enter(h));
    if s.sem < MAX_CONNS {
      assert t.handlers.Keys == s.handlers.Keys + {h} && |t.handlers| == |s.handlers| + 1;
      forall cn ensures |Holders(t, cn)| == |Holders(s, cn)| {
        HoldersAfter(s, h, Held, cn);
        HoldersDependOnHandlers(s.(handlers := s.handlers[h := Held]), t, cn);
      }
    }
  }

  lemma ClaimKeeps(s: State, h: nat, cn0: string)
    requires Inv(s) && Enabled(s, Claim(h, cn0))
    ensures Inv(After(s, Claim(h, cn0)))
  {
    var t := After(s, Claim(h, cn0));
    assert t.handlers.Keys == s.handlers.Keys;
    forall cn ensures |Holders(t, cn)| == |Holders(s, cn)| + (if t.handlers[h] == Both(cn) then 1 else 0) {
      HoldersAfter(s, h, t.handlers[h], cn);
      HoldersDependOnHandlers(s.(handlers := s.handlers[h := t.handlers[h]]), t, cn);
    }
  }

  lemma UnclaimKeeps(s: State, h: nat)
    requires Inv(s) && Enabled(s, Unclaim(h))
    ensures Inv(After(s, Unclaim(h)))
  {
    var t := After(s, Unclaim(h));
    assert t.handlers.Keys == s.handlers.Keys;
    forall cn ensures |Holders(t, cn)| == |Holders(s, cn)| - (if s.handlers[h] == Both(cn) then 1 else 0) {
      HoldersAfter(s, h, Leaving, cn);
      HoldersDependOnHandlers(s.(handlers := s.handlers[h := Leaving]), t, cn);
    }
  }

  lemma LeaveKeeps(s: State, h: nat)
    requires Inv(s) && Enabled(s, Leave(h))
    ensures Inv(After(s, Leave(h))) && !Blocks(s, Leave(h))
  {
    assert h in s.handlers.Keys;
    var t := After(s, Leave(h));
    assert t.handlers.Keys == s.handlers.Keys - {h};
    forall cn ensures Holders(t, cn) == Holders(s, cn) {
      HoldersWithout(s, h, cn);
      HoldersDependOnHandlers(s.(handlers := s.handlers - {h}), t, cn);
    }
  }

  lemma EventKeeps(s: State, e: Event)
    requires Inv(s) && Enabled(s, e)
    ensures Inv(After(s, e)) && !Blocks(s, e)
  {
    hide Inv, After, Enabled;
    match e
    case Enter(h) => EnterKeeps(s, h);
    case Claim(h, cn) => ClaimKeeps(s, h, cn);
    case Unclaim(h) => UnclaimKeeps(s, h);
    case Leave(h) => LeaveKeeps(s, h);
  }

  lemma {:induction false} ReachableInv(es: seq<Event>)
    requires IsRun(es)
    ensures Inv(Exec(es))
  {
    if es == [] {
      assert forall cn :: Holders(START, cn) == {};
    } else {
      ReachableInv(es[..|es| - 1]);
      EventKeeps(Exec(es[..|es| - 1]), es[|es| - 1]);
    }
  }

  // A handler never blocks on giving its slot back.
  lemma ReleaseNeverBlocks(es: seq<Event>, e: Event)
    requires IsRun(es) && Enabled(Exec(es), e)
    ensures !Blocks(Exec(es), e)
  {
    ReachableInv(es);
    EventKeeps(Exec(es), e);
  }

  // A connection is turned away exactly when the pool is full, and an identity exactly when it
  // alone holds its whole share: no tenant can use up the share of another.
  lemma RefusedExactlyWhen(es: seq<Event>, h: nat, cn: string)
    requires IsRun(es)
    ensures h !in Exec(es).handlers ==>
      (h !in After(Exec(es), Enter(h)).handlers <==> |Exec(es).handlers| == 60000)
    ensures Is(Exec(es), h, Held) ==>
      (!Is(After(Exec(es), Claim(h, cn)), h, Both(cn)) <==> |Holders(Exec(es), cn)| == 10000)
  {
    ReachableInv(es);
  }

  lemma TotalOfKey(m: Counts, cn: string)
    requires cn in m
    ensures Total(m) == m[cn] + Total(m - {cn})
    decreases |m|
  {
    var c :| c in m && Total(m) == m[c] + Total(m - {c});
    if c != cn {
      TotalOfKey(m - {c}, cn);
      TotalOfKey(m - {cn}, c);
      assert m - {c} - {cn} == m - {cn} - {c};
    }
  }

  ghost function HoldersOfAny(s: State, cns: set<string>): set<nat> {
    set h | h in s.handlers && s.handlers[h].Both? && s.handlers[h].cn in cns
  }

  lemma OneMore(s: State, cns: set<string>, cn: string)
    requires cn in cns
    ensures |HoldersOfAny(s, cns)| == |HoldersOfAny(s, cns - {cn})| + |Holders(s, cn)|
  {
    var rest := HoldersOfAny(s, cns - {cn});
    assert rest !! Holders(s, cn);
    assert HoldersOfAny(s, cns) == rest + Holders(s, cn);
  }

  lemma {:induction false} TotalIsHolders(s: State, m: Counts)
    requires forall cn :: cn in m ==> m[cn] == |Holders(s, cn)|
    ensures Total(m) == |HoldersOfAny(s, m.Keys)|
    decreases |m|
  {
    if m == map[] {
      assert HoldersOfAny(s, m.Keys) == {};
    } else {
      var cn :| cn in m && Total(m) == m[cn] + Total(m - {cn});
      TotalIsHolders(s, m - {cn});
      OneMore(s, m.Keys, cn);
      assert (m - {cn}).Keys == m.Keys - {cn};
    }
  }

  // The identity counters together never exceed the global slots in use, and when the last
  // handler is gone nothing is left in either.
  lemma CountsAddUp(es: seq<Event>)
    requires IsRun(es)
    ensures var s := Exec(es);
      && Total(s.perCN) <= s.sem == |s.handlers| <= MAX_CONNS
      && (s.handlers == map[] ==> s == START)
  {
    hide IsRun, Exec;
    ReachableInv(es);
    var s := Exec(es);
    TotalIsHolders(s, s.perCN);
    Sets.SubsetSize(HoldersOfAny(s, s.perCN.Keys), s.handlers.Keys);
    if s.handlers == map[] {
      forall cn ensures cn !in s.perCN {
        assert Holders(s, cn) == {};
        assert Get(s.perCN, cn) == 0;
      }
    }
  }
}
