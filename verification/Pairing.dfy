/**
 The work-connection pairing protocol under every interleaving. A waiter publishes a pairing
 under a connection id and waits on its one-slot channel; a work connection looks the id up,
 is checked against the owner, and is offered to the channel. Every map access and every
 channel operation is a step of its own.
 */
module Pairing {

  // Where a waiter stands. A bridge or a drained timeout ends in Over; a datagram waiter can
  // also be cancelled.
  datatype Phase = Waiting | Bridged(work: nat) | TimedOut | Cancelled | Over

  // The handler of one public connection or of one datagram proxy.
  datatype Waiter = Waiter(connId: nat, owner: string, datagram: bool, phase: Phase)

  // Where the handler of a work connection stands; `w` is the pairing it has looked up.
  datatype Stage = Handshake | Loaded(w: nat) | Checked(w: nat) | Handed(w: nat) | Dropped

  // `cn` is the identity of its certificate, `asked` the connection id it asks for.
  datatype Work = Work(cn: string, asked: nat, stage: Stage)

  // `ready` holds the filled channels; `closed` the closed work connections; `bridges` and
  // `expired` record what has happened.
  datatype State = State(
    waiters: map<nat, Waiter>, pend: map<nat, nat>, ready: map<nat, nat>,
    works: map<nat, Work>, closed: set<nat>,
    bridges: seq<(nat, nat)>, expired: set<nat>)

  datatype Event =
    | Open(w: nat, connId: nat, owner: string, datagram: bool)
    | Receive(w: nat)
    | Timeout(w: nat)
    | Cancel(w: nat)
    | Drain(w: nat)
    | EndBridge(w: nat)
    | Forget(w: nat)
    | Dial(k: nat, cn: string, asked: nat)
    | Reject(k: nat)
    | Load(k: nat)
    | Check(k: nat)
    | Offer(k: nat)

  predicate In(s: State, w: nat, p: Phase) {
    w in s.waiters && s.waiters[w].phase == p
  }

  // A datagram waiter forgets its pairing as soon as it stops waiting, and before anything
  // else; the others only on return.
  predicate Forgotten(s: State, w: nat)
    requires w in s.waiters
  {
    s.waiters[w].connId !in s.pend
  }

  predicate Enabled(s: State, e: Event) {
    match e
    case Open(w, connId, _, _) => w !in s.waiters && forall v :: v in s.waiters ==> s.waiters[v].connId != connId
    case Receive(w) => In(s, w, Waiting) && w in s.ready
    case Timeout(w) => In(s, w, Waiting)
    case Cancel(w) => In(s, w, Waiting) && s.waiters[w].datagram
    case Drain(w) => In(s, w, TimedOut) && (s.waiters[w].datagram ==> Forgotten(s, w))
    case EndBridge(w) =>
      w in s.waiters && s.waiters[w].phase.Bridged? && (s.waiters[w].datagram ==> Forgotten(s, w))
    case Forget(w) =>
      w in s.waiters && !Forgotten(s, w)
      && if s.waiters[w].datagram then s.waiters[w].phase != Waiting else s.waiters[w].phase == Over
    case Dial(k, _, _) => k !in s.works
    case Reject(k) => k in s.works && s.works[k].stage == Handshake
    case Load(k) => k in s.works && s.works[k].stage == Handshake
    case Check(k) => k in s.works && s.works[k].stage.Loaded? && s.works[k].stage.w in s.waiters
    case Offer(k) => k in s.works && s.works[k].stage.Checked?
  }

  // Enforced whenever the proxy has an owner and the work connection shows an identity.
  predicate Compatible(owner: string, cn: string) {
    owner == "" || cn == "" || cn == owner
  }

  function SetPhase(s: State, w: nat, p: Phase): State
    requires w in s.waiters
  {
    s.(waiters := s.waiters[w := s.waiters[w].(phase := p)])
  }

  function SetStage(s: State, k: nat, st: Stage): State
    requires k in s.works
  {
    s.(works := s.works[k := s.works[k].(stage := st)])
  }

  function Drop(s: State, k: nat): State
    requires k in s.works
  {
    SetStage(s, k, Dropped).(closed := s.closed + {k})
  }

  function After(s: State, e: Event): State
    requires Enabled(s, e)
  {
    match e
    case Open(w, connId, owner, datagram) =>
      s.(waiters := s.waiters[w := Waiter(connId, owner, datagram, Waiting)], pend := s.pend[connId := w])
    case Receive(w) =>
      SetPhase(s, w, Bridged(s.ready[w])).(ready := s.ready - {w}, bridges := s.bridges + [(w, s.ready[w])])
    case Timeout(w) => SetPhase(s, w, TimedOut).(expired := s.expired + {w})
    case Cancel(w) => SetPhase(s, w, Cancelled).(expired := s.expired + {w})
    case Drain(w) =>
      if w in s.ready then SetPhase(s, w, Over).(ready := s.ready - {w}, closed := s.closed + {s.ready[w]})
      else SetPhase(s, w, Over)
    case EndBridge(w) => SetPhase(s, w, Over).(closed := s.closed + {s.waiters[w].phase.work})
    case Forget(w) => s.(pend := s.pend - {s.waiters[w].connId})
    case Dial(k, cn, asked) => s.(works := s.works[k := Work(cn, asked, Handshake)])
    case Reject(k) => Drop(s, k)
    case Load(k) =>
      if s.works[k].asked in s.pend then SetStage(s, k, Loaded(s.pend[s.works[k].asked])) else Drop(s, k)
    case Check(k) =>
      var w := s.works[k].stage.w;
      if Compatible(s.waiters[w].owner, s.works[k].cn) then SetStage(s, k, Checked(w)) else Drop(s, k)
    case Offer(k) =>
      var w := s.works[k].stage.w;
      if w in s.ready then Drop(s, k)
      else SetStage(s, k, Handed(w)).(ready := s.ready[w := k])
  }

  const START := State(map[], map[], map[], map[], {}, [], {})

  ghost predicate IsRun(es: seq<Event>)
    decreases |es|, 0
  {
    es == [] || (IsRun(es[..|es| - 1]) && Enabled(Exec(es[..|es| - 1]), es[|es| - 1]))
  }

  ghost function Exec(es: seq<Event>): State
    requires IsRun(es)
    decreases |es|, 1
  {
    if es == [] then START else After(Exec(es[..|es| - 1]), es[|es| - 1])
  }

  // --- the invariant ---

  // Pairings are published under the id of their waiter.
  ghost predicate PendOk(s: State) {
    forall c :: c in s.pend ==> s.pend[c] in s.waiters && s.waiters[s.pend[c]].connId == c
  }

  // A work connection past the lookup points at the waiter whose id it asked for, and past the
  // check it suits the owner.
  ghost predicate StageOk(s: State, k: nat)
    requires k in s.works
  {
    var st := s.works[k].stage;
    && (st.Loaded? || st.Checked? || st.Handed? ==>
          st.w in s.waiters && s.waiters[st.w].connId == s.works[k].asked)
    && (st.Checked? || st.Handed? ==> Compatible(s.waiters[st.w].owner, s.works[k].cn))
  }

  ghost predicate StagesOk(s: State) {
    forall k :: k in s.works ==> StageOk(s, k)
  }

  // What is in a channel was handed to it and is open.
  ghost predicate ReadyOk(s: State) {
    forall w :: w in s.ready ==>
      w in s.waiters && s.ready[w] in s.works && s.works[s.ready[w]].stage == Handed(w) && s.ready[w] !in s.closed
  }

  // What is bridged was handed to that waiter, is open, and is not in the channel any more.
  ghost predicate BridgedOk(s: State) {
    forall w :: w in s.waiters && s.waiters[w].phase.Bridged? ==>
      var k := s.waiters[w].phase.work;
      k in s.works && s.works[k].stage == Handed(w) && k !in s.closed && (w in s.ready ==> s.ready[w] != k)
  }

  // What was handed over is closed, in the channel, or bridged; closed ones were dropped or
  // handed over.
  ghost predicate HandedOk(s: State) {
    && (forall k :: k in s.works && s.works[k].stage.Handed? && k !in s.closed ==>
          var w := s.works[k].stage.w;
          (w in s.ready && s.ready[w] == k) || In(s, w, Bridged(k)))
    && (forall k :: k in s.works && s.works[k].stage.Dropped? ==> k in s.closed)
    && (forall k :: k in s.closed ==> k in s.works && (s.works[k].stage.Dropped? || s.works[k].stage.Handed?))
  }

  // The record of bridges: each waiter occurs at most once, and an expired one not at all.
  ghost predicate BridgesOk(s: State) {
    && (forall i :: 0 <= i < |s.bridges| ==>
          var (w, k) := s.bridges[i];
          && k in s.works && s.works[k].stage == Handed(w)
          && w in s.waiters && w !in s.expired
          && (In(s, w, Bridged(k)) || (In(s, w, Over) && k in s.closed)))
    && (forall i, j :: 0 <= i < j < |s.bridges| ==> s.bridges[i].0 != s.bridges[j].0)
  }

  ghost predicate ExpiredOk(s: State) {
    && (forall w :: w in s.expired ==> In(s, w, TimedOut) || In(s, w, Cancelled) || In(s, w, Over))
    && (forall w :: In(s, w, TimedOut) || In(s, w, Cancelled) ==> w in s.expired)
  }

  ghost predicate Inv(s: State) {
    && PendOk(s) && StagesOk(s) && ReadyOk(s) && BridgedOk(s) && HandedOk(s) && BridgesOk(s)
    && ExpiredOk(s)
  }

  // --- each step keeps it ---

  // A work connection that is not yet handed over moves on without being handed over.
  ghost predicate Moves(s: State, t: State, k: nat) {
    && (k in s.works ==> !s.works[k].stage.Handed? && !s.works[k].stage.Dropped?)
    && k in t.works && !t.works[k].stage.Handed?
    && t == s.(works := s.works[k := t.works[k]],
               closed := if t.works[k].stage.Dropped? then s.closed + {k} else s.closed)
  }

  lemma MoveKeepsChannels(s: State, t: State, k: nat)
    requires Inv(s) && Moves(s, t, k)
    ensures ReadyOk(t) && BridgedOk(t)
  {
  }

  lemma MoveKeepsRecord(s: State, t: State, k: nat)
    requires Inv(s) && Moves(s, t, k)
    ensures HandedOk(t) && BridgesOk(t) && ExpiredOk(t)
  {
  }

  lemma MoveKeeps(s: State, t: State, k: nat)
    requires Inv(s) && Moves(s, t, k) && StageOk(t, k)
    ensures Inv(t)
  {
    MoveKeepsChannels(s, t, k);
    MoveKeepsRecord(s, t, k);
    forall j | j in t.works
      ensures StageOk(t, j)
    {
      assert j != k ==> StageOk(s, j);
    }
  }

  lemma WorkStepKeeps(s: State, e: Event)
    requires Inv(s) && Enabled(s, e)
    requires e.Dial? || e.Reject? || e.Load? || e.Check? || (e.Offer? && s.works[e.k].stage.w in s.ready)
    ensures Inv(After(s, e))
  {
    hide ReadyOk, BridgedOk, HandedOk, BridgesOk, ExpiredOk;
    if e.k in s.works {
      assert StageOk(s, e.k);
    }
    MoveKeeps(s, After(s, e), e.k);
  }

  lemma HandOverKeeps(s: State, e: Event)
    requires Inv(s) && Enabled(s, e) && e.Offer? && s.works[e.k].stage.w !in s.ready
    ensures Inv(After(s, e))
  {
    HandOverKeepsChannels(s, e.k);
    HandOverKeepsHanded(s, e.k);
    HandOverKeepsRecord(s, e.k);
    HandOverKeepsStages(s, e.k);
    HandOverKeepsWaiters(s, e.k);
    hide PendOk, StagesOk, ReadyOk, BridgedOk, HandedOk, BridgesOk, ExpiredOk;
  }

  lemma HandOverKeepsStages(s: State, k: nat)
    requires Inv(s) && Enabled(s, Offer(k)) && s.works[k].stage.w !in s.ready
    ensures StagesOk(After(s, Offer(k)))
  {
    hide PendOk, ReadyOk, BridgedOk, HandedOk, BridgesOk, ExpiredOk;
    var t := After(s, Offer(k));
    forall j | j in t.works
      ensures StageOk(t, j)
    {
      assert StageOk(s, j);
    }
  }

  lemma HandOverKeepsWaiters(s: State, k: nat)
    requires Inv(s) && Enabled(s, Offer(k)) && s.works[k].stage.w !in s.ready
    ensures PendOk(After(s, Offer(k))) && ExpiredOk(After(s, Offer(k)))
  {
    hide StagesOk, ReadyOk, BridgedOk, HandedOk, BridgesOk;
  }

  lemma HandOverKeepsChannels(s: State, k: nat)
    requires Inv(s) && Enabled(s, Offer(k)) && s.works[k].stage.w !in s.ready
    ensures var t := After(s, Offer(k)); ReadyOk(t) && BridgedOk(t)
  {
    hide PendOk, BridgesOk, ExpiredOk;
  }

  lemma HandOverKeepsHanded(s: State, k: nat)
    requires Inv(s) && Enabled(s, Offer(k)) && s.works[k].stage.w !in s.ready
    ensures HandedOk(After(s, Offer(k)))
  {
    hide PendOk, StagesOk, BridgedOk, BridgesOk, ExpiredOk;
  }

  lemma HandOverKeepsRecord(s: State, k: nat)
    requires Inv(s) && Enabled(s, Offer(k)) && s.works[k].stage.w !in s.ready
    ensures BridgesOk(After(s, Offer(k)))
  {
    hide PendOk, StagesOk, ReadyOk, BridgedOk, HandedOk, ExpiredOk;
  }

  // A step of a waiter leaves the work connections' stages and the known owners alone.
  lemma StagesStay(s: State, t: State)
    requires StagesOk(s) && t.works == s.works
    requires forall w :: w in s.waiters ==>
      w in t.waiters && t.waiters[w].connId == s.waiters[w].connId && t.waiters[w].owner == s.waiters[w].owner
    ensures StagesOk(t)
  {
    forall k | k in t.works
      ensures StageOk(t, k)
    {
      assert StageOk(s, k);
    }
  }

  // Waiters appear, or stop waiting without a connection; nothing else happens.
  ghost predicate Settles(s: State, t: State) {
    && t.works == s.works && t.ready == s.ready && t.closed == s.closed && t.bridges == s.bridges
    && (forall v :: v in s.waiters ==>
          && v in t.waiters
          && t.waiters[v].connId == s.waiters[v].connId && t.waiters[v].owner == s.waiters[v].owner
          && (t.waiters[v].phase == s.waiters[v].phase
              || (s.waiters[v].phase == Waiting
                  && (t.waiters[v].phase == TimedOut || t.waiters[v].phase == Cancelled))))
    && (forall v :: v in t.waiters && v !in s.waiters ==> t.waiters[v].phase == Waiting)
    && (forall v :: v in t.expired <==> v in s.expired || (v in s.waiters && t.waiters[v].phase != s.waiters[v].phase))
  }

  lemma SettlingKeepsChannels(s: State, t: State)
    requires ReadyOk(s) && BridgedOk(s) && HandedOk(s) && Settles(s, t)
    ensures ReadyOk(t) && BridgedOk(t) && HandedOk(t)
  {
  }

  lemma SettlingKeepsRecord(s: State, t: State)
    requires BridgesOk(s) && ExpiredOk(s) && Settles(s, t)
    ensures BridgesOk(t) && ExpiredOk(t)
  {
  }

  lemma SettlingKeeps(s: State, t: State)
    requires Inv(s) && Settles(s, t) && PendOk(t)
    ensures Inv(t)
  {
    StagesStay(s, t);
    SettlingKeepsChannels(s, t);
    SettlingKeepsRecord(s, t);
    hide PendOk, StagesOk, ReadyOk, BridgedOk, HandedOk, BridgesOk, ExpiredOk;
  }

  lemma OpeningSettles(s: State, w: nat, v: Waiter)
    requires PendOk(s) && ExpiredOk(s) && w !in s.waiters && v.phase == Waiting
    requires forall x :: x in s.waiters ==> s.waiters[x].connId != v.connId
    ensures var t := s.(waiters := s.waiters[w := v], pend := s.pend[v.connId := w]); Settles(s, t) && PendOk(t)
  {
  }

  lemma ForgettingSettles(s: State, c: nat)
    requires PendOk(s)
    ensures var t := s.(pend := s.pend - {c}); Settles(s, t) && PendOk(t)
  {
  }

  lemma OpenOrForgetKeeps(s: State, e: Event)
    requires Inv(s) && Enabled(s, e) && (e.Open? || e.Forget?)
    ensures Inv(After(s, e))
  {
    hide PendOk, Settles, StagesOk, ReadyOk, BridgedOk, HandedOk, BridgesOk, ExpiredOk;
    if e.Open? {
      OpeningSettles(s, e.w, Waiter(e.connId, e.owner, e.datagram, Waiting));
    } else {
      ForgettingSettles(s, s.waiters[e.w].connId);
    }
    hide Inv;
    SettlingKeeps(s, After(s, e));
  }

  lemma ExpirySettles(s: State, w: nat, p: Phase)
    requires In(s, w, Waiting) && (p == TimedOut || p == Cancelled) && w !in s.expired && PendOk(s)
    ensures var t := SetPhase(s, w, p).(expired := s.expired + {w}); Settles(s, t) && PendOk(t)
  {
  }

  lemma ExpireKeeps(s: State, e: Event)
    requires Inv(s) && Enabled(s, e) && (e.Timeout? || e.Cancel?)
    ensures Inv(After(s, e))
  {
    assert PendOk(s) && e.w !in s.expired;
    var p := if e.Timeout? then TimedOut else Cancelled;
    ExpirySettles(s, e.w, p);
    hide PendOk, Settles, Inv, StagesOk, ReadyOk, BridgedOk, HandedOk, BridgesOk, ExpiredOk;
    SettlingKeeps(s, SetPhase(s, e.w, p).(expired := s.expired + {e.w}));
  }

  lemma ReceiveKeepsRecord(s: State, e: Event)
    requires Inv(s) && Enabled(s, e) && e.Receive?
    ensures BridgesOk(After(s, e))
  {
    hide PendOk, StagesOk, BridgedOk, HandedOk;
    assert s.ready[e.w] in s.works && s.works[s.ready[e.w]].stage == Handed(e.w);
    assert e.w !in s.expired;
    assert forall i :: 0 <= i < |s.bridges| ==> s.bridges[i].0 != e.w;
  }

  lemma ReceiveKeepsChannels(s: State, w: nat)
    requires Inv(s) && Enabled(s, Receive(w))
    ensures var t := After(s, Receive(w)); ReadyOk(t) && BridgedOk(t)
  {
    hide PendOk, StagesOk, HandedOk, BridgesOk, ExpiredOk;
  }

  lemma ReceiveKeepsHanded(s: State, w: nat)
    requires Inv(s) && Enabled(s, Receive(w))
    ensures HandedOk(After(s, Receive(w)))
  {
    hide PendOk, StagesOk, BridgedOk, BridgesOk, ExpiredOk;
  }

  lemma ReceiveKeepsWaiters(s: State, w: nat)
    requires Inv(s) && Enabled(s, Receive(w))
    ensures PendOk(After(s, Receive(w))) && ExpiredOk(After(s, Receive(w)))
  {
    hide StagesOk, ReadyOk, BridgedOk, HandedOk, BridgesOk;
  }

  lemma ReceiveKeeps(s: State, e: Event)
    requires Inv(s) && Enabled(s, e) && e.Receive?
    ensures Inv(After(s, e))
  {
    StagesStay(s, After(s, e));
    hide PendOk, StagesOk, ReadyOk, BridgedOk, HandedOk, BridgesOk, ExpiredOk;
    ReceiveKeepsChannels(s, e.w);
    ReceiveKeepsHanded(s, e.w);
    ReceiveKeepsRecord(s, e);
    ReceiveKeepsWaiters(s, e.w);
  }

  lemma DrainKeeps(s: State, e: Event)
    requires Inv(s) && Enabled(s, e) && e.Drain?
    ensures Inv(After(s, e))
  {
    StagesStay(s, After(s, e));
    DrainKeepsChannels(s, e.w);
    DrainKeepsHanded(s, e.w);
    DrainKeepsRecord(s, e.w);
    hide ReadyOk, BridgedOk, HandedOk, BridgesOk, ExpiredOk;
  }

  lemma DrainKeepsRecord(s: State, w: nat)
    requires Inv(s) && Enabled(s, Drain(w))
    ensures var t := After(s, Drain(w)); BridgesOk(t) && ExpiredOk(t)
  {
    assert w in s.expired;
    hide PendOk, StagesOk, BridgedOk, HandedOk, ReadyOk;
  }

  lemma DrainKeepsChannels(s: State, w: nat)
    requires Inv(s) && Enabled(s, Drain(w))
    ensures var t := After(s, Drain(w)); ReadyOk(t) && BridgedOk(t)
  {
    hide BridgesOk, StagesOk, ExpiredOk;
  }

  lemma DrainKeepsHanded(s: State, w: nat)
    requires Inv(s) && Enabled(s, Drain(w))
    ensures HandedOk(After(s, Drain(w)))
  {
    hide BridgesOk, StagesOk, ExpiredOk;
  }

  lemma EndBridgeKeepsRecord(s: State, w: nat)
    requires Inv(s) && Enabled(s, EndBridge(w))
    ensures BridgesOk(After(s, EndBridge(w)))
  {
    hide PendOk, StagesOk, ReadyOk, HandedOk;
  }

  lemma EndBridgeKeepsChannels(s: State, w: nat)
    requires Inv(s) && Enabled(s, EndBridge(w))
    ensures var t := After(s, EndBridge(w)); ReadyOk(t) && BridgedOk(t)
  {
    hide PendOk, StagesOk, HandedOk, BridgesOk, ExpiredOk;
  }

  lemma EndBridgeKeepsHanded(s: State, w: nat)
    requires Inv(s) && Enabled(s, EndBridge(w))
    ensures HandedOk(After(s, EndBridge(w)))
  {
    hide PendOk, StagesOk, ReadyOk, BridgesOk, ExpiredOk;
  }

  lemma EndBridgeKeepsWaiters(s: State, w: nat)
    requires Inv(s) && Enabled(s, EndBridge(w))
    ensures PendOk(After(s, EndBridge(w))) && ExpiredOk(After(s, EndBridge(w)))
  {
    hide StagesOk, ReadyOk, BridgedOk, HandedOk, BridgesOk;
  }

  lemma EndBridgeKeeps(s: State, e: Event)
    requires Inv(s) && Enabled(s, e) && e.EndBridge?
    ensures Inv(After(s, e))
  {
    StagesStay(s, After(s, e));
    hide PendOk, StagesOk, ReadyOk, BridgedOk, HandedOk, BridgesOk, ExpiredOk;
    EndBridgeKeepsChannels(s, e.w);
    EndBridgeKeepsHanded(s, e.w);
    EndBridgeKeepsRecord(s, e.w);
    EndBridgeKeepsWaiters(s, e.w);
  }

  lemma EventKeeps(s: State, e: Event)
    requires Inv(s) && Enabled(s, e)
    ensures Inv(After(s, e))
  {
    hide Inv, After;
    match e
    case Open(_, _, _, _) => OpenOrForgetKeeps(s, e);
    case Receive(_) => ReceiveKeeps(s, e);
    case Timeout(_) => ExpireKeeps(s, e);
    case Cancel(_) => ExpireKeeps(s, e);
    case Drain(_) => DrainKeeps(s, e);
    case EndBridge(_) => EndBridgeKeeps(s, e);
    case Forget(_) => OpenOrForgetKeeps(s, e);
    case Dial(_, _, _) => WorkStepKeeps(s, e);
    case Reject(_) => WorkStepKeeps(s, e);
    case Load(_) => WorkStepKeeps(s, e);
    case Check(_) => WorkStepKeeps(s, e);
    case Offer(k) => if s.works[k].stage.w in s.ready { WorkStepKeeps(s, e); } else { HandOverKeeps(s, e); }
  }

  lemma {:induction false} ReachableInv(es: seq<Event>)
    requires IsRun(es)
    ensures Inv(Exec(es))
  {
    if es == [] {
    } else {
      ReachableInv(es[..|es| - 1]);
      EventKeeps(Exec(es[..|es| - 1]), es[|es| - 1]);
    }
  }

  // --- every work connection is in exactly one place ---

  datatype Place = Handler | Channel(w: nat) | Bridge(w: nat) | Closed

  ghost predicate At(s: State, k: nat, p: Place)
    requires k in s.works
  {
    match p
    case Handler =>
      var st := s.works[k].stage;
      st.Handshake? || st.Loaded? || st.Checked?
    case Channel(w) => w in s.ready && s.ready[w] == k
    case Bridge(w) => In(s, w, Bridged(k))
    case Closed => k in s.closed
  }

  lemma ExactlyOnePlace(es: seq<Event>, k: nat)
    requires IsRun(es) && k in Exec(es).works
    ensures exists p :: At(Exec(es), k, p) && forall q :: At(Exec(es), k, q) ==> q == p
  {
    hide IsRun, Exec;
    ReachableInv(es);
    var s := Exec(es);
    var st := s.works[k].stage;
    var p :=
      if st.Handshake? || st.Loaded? || st.Checked? then Handler
      else if k in s.closed then Closed
      else if st.w in s.ready && s.ready[st.w] == k then Channel(st.w)
      else Bridge(st.w);
    assert At(s, k, p);
    forall q | At(s, k, q)
      ensures q == p
    {
    }
  }

  // --- what a bridge guarantees ---

  // No waiter and no work connection is ever bridged twice, no waiter after it gave up, and the
  // two ends belong together: the connection asked for this waiter's id, and when it showed an
  // identity and the proxy has an owner, they are the same.
  lemma BridgesAreSafe(es: seq<Event>)
    requires IsRun(es)
    ensures var s := Exec(es);
      && (forall i, j :: 0 <= i < j < |s.bridges| ==>
            s.bridges[i].0 != s.bridges[j].0 && s.bridges[i].1 != s.bridges[j].1)
      && (forall i :: 0 <= i < |s.bridges| ==>
            var (w, k) := s.bridges[i];
            && w in s.waiters && w !in s.expired && k in s.works
            && s.works[k].asked == s.waiters[w].connId
            && (s.works[k].cn != "" && s.waiters[w].owner != "" ==> s.works[k].cn == s.waiters[w].owner))
  {
    hide IsRun, Exec;
    ReachableInv(es);
    var s := Exec(es);
    forall i | 0 <= i < |s.bridges|
      ensures s.bridges[i].1 in s.works && StageOk(s, s.bridges[i].1)
    {
    }
  }

  // --- what is paired, and what is turned away ---

  // A connection that asks for a waiter whose pairing is published, and does not show another
  // owner, is bridged to it, if it gets through before anything else happens.
  lemma PairsUp(s: State, w: nat, k: nat)
    requires In(s, w, Waiting) && w !in s.ready
    requires s.waiters[w].connId in s.pend && s.pend[s.waiters[w].connId] == w
    requires k in s.works && s.works[k].stage == Handshake && s.works[k].asked == s.waiters[w].connId
    requires s.waiters[w].owner == "" || s.works[k].cn == "" || s.waiters[w].owner == s.works[k].cn
    ensures Enabled(s, Load(k))
    ensures var s1 := After(s, Load(k));
      && Enabled(s1, Check(k))
      && var s2 := After(s1, Check(k));
         && Enabled(s2, Offer(k))
         && var s3 := After(s2, Offer(k));
            && Enabled(s3, Receive(w))
            && var s4 := After(s3, Receive(w));
               In(s4, w, Bridged(k)) && s4.bridges == s.bridges + [(w, k)] && s4.closed == s.closed
  {
  }

  // Why a step closes a work connection that was open.
  predicate TurnedAway(s: State, e: Event, k: nat)
    requires Enabled(s, e)
  {
    || e == Reject(k)
    || (e == Load(k) && s.works[k].asked !in s.pend)
    || (e == Check(k) && var w := s.waiters[s.works[k].stage.w]; w.owner != "" && s.works[k].cn != "" && w.owner != s.works[k].cn)
    || (e == Offer(k) && s.works[k].stage.w in s.ready)
    || (e.Drain? && e.w in s.ready && s.ready[e.w] == k)
    || (e.EndBridge? && s.waiters[e.w].phase == Bridged(k))
  }

  // A work connection is closed exactly if its handshake fails, its pairing is not published, it
  // shows another owner, the channel is full, its waiter drains it after a timeout, or its bridge
  // ends.
  lemma ClosedExactlyWhen(s: State, e: Event, k: nat)
    requires Enabled(s, e) && k !in s.closed
    ensures k in After(s, e).closed <==> TurnedAway(s, e, k)
  {
  }

  // A pairing is published by its waiter's opening and withdrawn when it is forgotten, and by no
  // other step.
  lemma PublishedExactlyWhen(s: State, e: Event, c: nat)
    requires Enabled(s, e)
    ensures var t := After(s, e);
      c in t.pend <==> (e.Open? && e.connId == c) || (c in s.pend && !(e.Forget? && s.waiters[e.w].connId == c))
    ensures c in After(s, e).pend ==>
      After(s, e).pend[c] == if e.Open? && e.connId == c then e.w else s.pend[c]
  {
  }

  // --- what is left behind ---

  // The channel of `w` holds a connection that the waiter will neither receive nor drain.
  predicate LeftIn(s: State, w: nat, k: nat) {
    w in s.ready && s.ready[w] == k && !In(s, w, Waiting) && !In(s, w, TimedOut)
  }

  ghost predicate Stranded(s: State, k: nat) {
    exists w :: LeftIn(s, w, k)
  }

  // The two races: a connection is offered after its waiter was served, drained or cancelled,
  // or a datagram waiter is cancelled while its channel is full.
  predicate Strands(s: State, e: Event, k: nat)
    requires Enabled(s, e)
  {
    || (e == Offer(k) && var w := s.works[k].stage.w; w !in s.ready && !In(s, w, Waiting) && !In(s, w, TimedOut))
    || (e.Cancel? && e.w in s.ready && s.ready[e.w] == k)
  }

  // A timeout never strands what was offered before the drain.
  lemma StrandedExactlyWhen(es: seq<Event>, e: Event, k: nat)
    requires IsRun(es) && Enabled(Exec(es), e) && !Stranded(Exec(es), k)
    ensures Stranded(After(Exec(es), e), k) <==> Strands(Exec(es), e, k)
  {
    hide IsRun, Exec, After, Strands, LeftIn;
    ReachableInv(es);
    var s := Exec(es);
    if Strands(s, e, k) {
      RaceStrands(s, e, k);
    }
    if Stranded(After(s, e), k) {
      var w :| LeftIn(After(s, e), w, k);
      StrandedByRace(s, e, w, k);
    }
  }

  lemma RaceStrands(s: State, e: Event, k: nat)
    requires Inv(s) && Enabled(s, e) && Strands(s, e, k)
    ensures Stranded(After(s, e), k)
  {
    hide Inv;
    assert LeftIn(After(s, e), if e.Cancel? then e.w else s.works[k].stage.w, k);
  }

  predicate IsWorkStep(e: Event) {
    e.Dial? || e.Reject? || e.Load? || e.Check? || e.Offer?
  }

  lemma StrandedByWork(s: State, e: Event, w: nat, k: nat)
    requires ReadyOk(s) && Enabled(s, e) && IsWorkStep(e) && !LeftIn(s, w, k) && LeftIn(After(s, e), w, k)
    ensures Strands(s, e, k)
  {
  }

  lemma StrandedByWaiter(s: State, e: Event, w: nat, k: nat)
    requires ReadyOk(s) && Enabled(s, e) && !IsWorkStep(e) && !LeftIn(s, w, k) && LeftIn(After(s, e), w, k)
    ensures Strands(s, e, k)
  {
  }

  lemma StrandedByRace(s: State, e: Event, w: nat, k: nat)
    requires Inv(s) && Enabled(s, e) && !LeftIn(s, w, k) && LeftIn(After(s, e), w, k)
    ensures Strands(s, e, k)
  {
    assert ReadyOk(s);
    hide *;
    if IsWorkStep(e) {
      StrandedByWork(s, e, w, k);
    } else {
      StrandedByWaiter(s, e, w, k);
    }
  }

  lemma WorkLeavesStranded(s: State, e: Event, w: nat, k: nat)
    requires ReadyOk(s) && Enabled(s, e) && IsWorkStep(e) && LeftIn(s, w, k)
    ensures LeftIn(After(s, e), w, k)
  {
  }

  lemma WaiterLeavesStranded(s: State, e: Event, w: nat, k: nat)
    requires ReadyOk(s) && Enabled(s, e) && !IsWorkStep(e) && LeftIn(s, w, k)
    ensures LeftIn(After(s, e), w, k)
  {
  }

  lemma StrandedStays(s: State, e: Event, w: nat, k: nat)
    requires Inv(s) && Enabled(s, e) && LeftIn(s, w, k)
    ensures LeftIn(After(s, e), w, k)
  {
    assert ReadyOk(s);
    hide *;
    if IsWorkStep(e) {
      WorkLeavesStranded(s, e, w, k);
    } else {
      WaiterLeavesStranded(s, e, w, k);
    }
  }

  lemma {:induction false} StrandedForever(es: seq<Event>, more: seq<Event>, k: nat)
    requires IsRun(es + more) && IsRun(es) && Stranded(Exec(es), k)
    ensures Stranded(Exec(es + more), k)
  {
    if more == [] {
      assert es + more == es;
    } else {
      var before := more[..|more| - 1];
      assert (es + more)[..|es + more| - 1] == es + before;
      StrandedForever(es, before, k);
      var w :| LeftIn(Exec(es + before), w, k);
      ReachableInv(es + before);
      StrandedStays(Exec(es + before), more[|more| - 1], w, k);
    }
  }

  lemma Extend(es: seq<Event>, e: Event) returns (fs: seq<Event>)
    requires IsRun(es) && Enabled(Exec(es), e)
    ensures fs == es + [e] && IsRun(fs) && Exec(fs) == After(Exec(es), e)
  {
    fs := es + [e];
    assert fs[..|fs| - 1] == es;
  }

  // A work connection looks its waiter up, passes the check, and waits for the scheduler.
  lemma OneWaiting(datagram: bool) returns (es: seq<Event>)
    ensures IsRun(es) && |es| == 4
    ensures var s := Exec(es);
      && s.waiters == map[0 := Waiter(7, "a", datagram, Waiting)] && s.pend == map[7 := 0] && s.ready == map[]
      && s.works == map[1 := Work("a", 7, Checked(0))] && s.closed == {}
  {
    es := Extend([], Open(0, 7, "a", datagram));
    es := Extend(es, Dial(1, "a", 7));
    es := Extend(es, Load(1));
    es := Extend(es, Check(1));
  }

  // Both races can happen: the connection is offered only after the drain, or it is in the
  // channel when the datagram waiter is cancelled.
  lemma LateOfferStrands() returns (es: seq<Event>)
    ensures IsRun(es) && Stranded(Exec(es), 1) && In(Exec(es), 0, Over)
    ensures |es| == 7 && es[4..] == [Timeout(0), Drain(0), Offer(1)]
  {
    var start := OneWaiting(false);
    es := Extend(start, Timeout(0));
    es := Extend(es, Drain(0));
    es := Extend(es, Offer(1));
    assert es == start + [Timeout(0), Drain(0), Offer(1)];
    assert LeftIn(Exec(es), 0, 1);
  }

  lemma CancelStrands() returns (es: seq<Event>)
    ensures IsRun(es) && Stranded(Exec(es), 1)
    ensures |es| == 6 && es[4..] == [Offer(1), Cancel(0)]
  {
    var start := OneWaiting(true);
    es := Extend(start, Offer(1));
    es := Extend(es, Cancel(0));
    assert es == start + [Offer(1), Cancel(0)];
    assert LeftIn(Exec(es), 0, 1);
  }
}
