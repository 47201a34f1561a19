/**
 The bookkeeping of SubscriptionManager as a state machine: subscriptions added and removed, server events,
 sessions that start and close, and retransmission tutors that are called back late. First-level
 subscriptions only.
 */
module Subscriptions {

  datatype PhaseType = OFF | WAITING | PAUSED | SUBSCRIBING | PUSHING

  /** What the manager uses of a Subscription; nextReconfId is the last reconfiguration id given out. */
  datatype Sub = Sub(phaseType: PhaseType, phase: nat, nextReconfId: nat)

  /** A retransmission tutor; it stays around, and any late callback may reach it. */
  datatype Tutor =
    | SubscribeTutor(id: nat, phase: nat)
    | UnsubscribeTutor(id: nat)
    | ChangeTutor(id: nat, reconfId: nat)

  datatype Sending = AddSent(id: nat) | DeleteSent(id: nat) | ChangeSent(id: nat, reconfId: nat)

  /** tutors holds every tutor created so far, sent every request handed to the session. */
  datatype Manager = Manager(
    subs: map<nat, Sub>, nextId: nat, pendingDelete: set<nat>, pendingUnsubscribe: set<nat>,
    pendingChanges: map<nat, nat>, sessionAlive: bool, tutors: seq<Tutor>, sent: seq<Sending>)

  function Init(): Manager { Manager(map[], 1, {}, {}, map[], false, [], []) }

  // ---- the phase machine of Subscription ----

  function SetPhase(s: Sub, t: PhaseType): Sub { s.(phaseType := t, phase := s.phase + 1) }

  function SubscriptionSent(s: Sub): Sub { if s.phaseType == SUBSCRIBING then s else SetPhase(s, SUBSCRIBING) }

  // ---- the parts of SubscriptionManager ----

  function SetSub(m: Manager, id: nat, s: Sub): Manager { m.(subs := m.subs[id := s]) }

  /** subscribe and resubscribe. */
  function Subscribe(m: Manager, id: nat): Manager
    requires id in m.subs
  {
    m.(tutors := m.tutors + [SubscribeTutor(id, m.subs[id].phase)], sent := m.sent + [AddSent(id)])
  }

  function Unsubscribe(m: Manager, id: nat): Manager {
    Reunsubscribe(m, id).(pendingDelete := m.pendingDelete + {id}, pendingUnsubscribe := m.pendingUnsubscribe - {id})
  }

  /** The retransmission of a delete. */
  function Reunsubscribe(m: Manager, id: nat): Manager {
    m.(tutors := m.tutors + [UnsubscribeTutor(id)], sent := m.sent + [DeleteSent(id)])
  }

  /** changeFrequency with a given reconfiguration id. */
  function SendChange(m: Manager, id: nat, reconfId: nat): Manager {
    m.(pendingChanges := m.pendingChanges[id := reconfId],
       tutors := m.tutors + [ChangeTutor(id, reconfId)], sent := m.sent + [ChangeSent(id, reconfId)])
  }

  function ChangeFrequency(m: Manager, id: nat): Manager
    requires id in m.subs
  {
    var r := m.subs[id].nextReconfId + 1;
    SendChange(SetSub(m, id, m.subs[id].(nextReconfId := r)), id, r)
  }

  /** The next id is given to a subscription. */
  function Enter(m: Manager, s: Sub): Manager { m.(subs := m.subs[m.nextId := s], nextId := m.nextId + 1) }

  /** doAdd; phase and nextReconfId are what the object brings from earlier uses. */
  function DoAdd(m: Manager, phase: nat, nextReconfId: nat): Manager {
    var added := SetPhase(Sub(OFF, phase, nextReconfId), WAITING);
    if m.sessionAlive then Subscribe(Enter(m, added), m.nextId) else Enter(m, SetPhase(added, PAUSED))
  }

  /** doRemove; a subscription that is not in the table is not affected. */
  function DoRemove(m: Manager, id: nat): Manager {
    if id !in m.subs then m
    else
      var m1 := if m.sessionAlive && m.subs[id].phaseType == SUBSCRIBING
                then m.(pendingUnsubscribe := m.pendingUnsubscribe + {id})
                else if m.sessionAlive && m.subs[id].phaseType == PUSHING then Unsubscribe(m, id)
                else m;
      m1.(subs := m1.subs - {id})
  }

  function PauseAll(m: Manager): Manager {
    m.(subs := map id | id in m.subs :: SetPhase(m.subs[id], PAUSED))
  }

  function OnSessionClose(m: Manager): Manager {
    PauseAll(m.(sessionAlive := false)).(pendingChanges := map[], pendingDelete := {}, pendingUnsubscribe := {})
  }

  /** Each key of the table once, in any order. */
  ghost predicate Enumerates(order: seq<nat>, keys: set<nat>) {
    && (forall id :: id in order <==> id in keys)
    && (forall i, j :: 0 <= i < j < |order| ==> order[i] != order[j])
  }

  /** sendAllSubscriptions over the rest of the copied table. */
  ghost function SendAll(m: Manager, order: seq<nat>): (m': Manager)
    requires forall id :: id in order ==> id in m.subs
    ensures m'.subs.Keys == m.subs.Keys
    decreases |order|
  {
    if order == [] then m
    else
      var woken := SetSub(m, order[0], SetPhase(m.subs[order[0]], WAITING));
      SendAll(Subscribe(woken, order[0]), order[1..])
  }

  // ---- server events ----

  datatype ServerEvent =
    | Data(id: nat)  // an update, an end or clear of snapshot, lost updates, a configuration
    | SubscriptionAck(id: nat)
    | Subscribed(id: nat)
    | SubscriptionError(id: nat)
    | UnsubscriptionAck(id: nat)
    | Unsubscribed(id: nat)
    | Reconfigured(id: nat, reconfId: nat)

  /** extractSubscriptionOrUnsubscribe for an id that is not in the table. */
  function Discard(m: Manager, id: nat): Manager {
    if id in m.pendingDelete then m else Unsubscribe(m, id)
  }

  function OnServer(m: Manager, e: ServerEvent): Manager {
    match e
    case Data(id) => if id in m.subs then m else Discard(m, id)
    case SubscriptionAck(id) => if id in m.subs then SetSub(m, id, SetPhase(m.subs[id], PUSHING)) else Discard(m, id)
    case Subscribed(id) => if id in m.subs then SetSub(m, id, SetPhase(m.subs[id], PUSHING)) else Discard(m, id)
    case SubscriptionError(id) => if id in m.subs then SetSub(m, id, SetPhase(m.subs[id], PAUSED)) else Discard(m, id)
    case UnsubscriptionAck(id) => OnUnsubscription(m, id)
    case Unsubscribed(id) => OnUnsubscription(m, id)
    case Reconfigured(id, reconfId) => ClearChange(m, id, reconfId)
  }

  function OnUnsubscription(m: Manager, id: nat): Manager {
    var m1 := m.(pendingDelete := m.pendingDelete - {id});
    if id in m.pendingUnsubscribe then Unsubscribe(m1, id) else m1
  }

  /** The change is no longer pending if it is the one awaited. */
  function ClearChange(m: Manager, id: nat, reconfId: nat): Manager {
    if id in m.pendingChanges && m.pendingChanges[id] == reconfId then m.(pendingChanges := m.pendingChanges - {id})
    else m
  }

  // ---- tutor callbacks ----

  /** The subscription of a SubscribeTutor is there and has not moved on. */
  predicate InPhase(m: Manager, t: Tutor)
    requires t.SubscribeTutor?
  {
    t.id in m.subs && m.subs[t.id].phase == t.phase
  }

  /** doRecovery. */
  function Recover(m: Manager, t: Tutor): Manager {
    match t
    case SubscribeTutor(id, phase) => if InPhase(m, t) then Subscribe(m, id) else m
    case UnsubscribeTutor(id) => Reunsubscribe(m, id)
    case ChangeTutor(id, reconfId) => if id in m.subs then SendChange(m, id, reconfId) else m
  }

  predicate Succeeded(m: Manager, t: Tutor) {
    match t
    case SubscribeTutor(id, phase) => !InPhase(m, t) || m.subs[id].phaseType == PUSHING
    case UnsubscribeTutor(id) => id !in m.pendingDelete
    case ChangeTutor(id, reconfId) => id !in m.pendingChanges || reconfId < m.pendingChanges[id]
  }

  /** notifySender of the i-th tutor. */
  function OnSent(m: Manager, i: nat, failed: bool): Manager
    requires i < |m.tutors|
  {
    var t := m.tutors[i];
    if t.SubscribeTutor? && !InPhase(m, t) then m
    else if failed then Recover(m, t)
    else if t.SubscribeTutor? then
      var s := SubscriptionSent(m.subs[t.id]);
      SetSub(m, t.id, s).(tutors := m.tutors[i := t.(phase := s.phase)])
    else m
  }

  /** onTimeout; retry tells whether the session is open on HTTP or on another stream connection. */
  function OnTimeout(m: Manager, i: nat, retry: bool): Manager
    requires i < |m.tutors|
  {
    if Succeeded(m, m.tutors[i]) || !retry then m else Recover(m, m.tutors[i])
  }

  function OnAbort(m: Manager, i: nat): Manager
    requires i < |m.tutors|
  {
    match m.tutors[i]
    case SubscribeTutor(_, _) => m
    case UnsubscribeTutor(id) =>
      m.(pendingDelete := m.pendingDelete - {id}, pendingUnsubscribe := m.pendingUnsubscribe - {id})
    case ChangeTutor(id, reconfId) => ClearChange(m, id, reconfId)
  }

  // ---- runs ----

  datatype Event =
    | Add(phase: nat, nextReconfId: nat)
    | Remove(id: nat)
    | Change(id: nat)
    | SessionStart(order: seq<nat>)  // order: the iteration over the table
    | SessionClose
    | Server(event: ServerEvent)
    | Sent(tutor: nat, failed: bool)
    | Timeout(tutor: nat, retry: bool)
    | Abort(tutor: nat)

  ghost function Step(m: Manager, e: Event): Manager {
    match e
    case Add(phase, nextReconfId) => DoAdd(m, phase, nextReconfId)
    case Remove(id) => DoRemove(m, id)
    case Change(id) => if id in m.subs then ChangeFrequency(m, id) else m
    case SessionStart(order) => if Enumerates(order, m.subs.Keys) then SendAll(m.(sessionAlive := true), order) else m
    case SessionClose => OnSessionClose(m)
    case Server(event) => OnServer(m, event)
    case Sent(i, failed) => if i < |m.tutors| then OnSent(m, i, failed) else m
    case Timeout(i, retry) => if i < |m.tutors| then OnTimeout(m, i, retry) else m
    case Abort(i) => if i < |m.tutors| then OnAbort(m, i) else m
  }

  ghost function Run(m: Manager, es: seq<Event>): Manager
    decreases |es|
  {
    if es == [] then m else Run(Step(m, es[0]), es[1..])
  }

  /** The server speaks only of subscriptions it has been told of. */
  ghost predicate NamesIssuedId(m: Manager, e: Event) { e.Server? ==> e.event.id < m.nextId }

  ghost predicate NamesIssuedIds(m: Manager, es: seq<Event>)
    decreases |es|
  {
    es == [] || (NamesIssuedId(m, es[0]) && NamesIssuedIds(Step(m, es[0]), es[1..]))
  }

  // ---- the invariant ----

  /** An id is in one of the three collections at most, and only if it has been given out. */
  ghost predicate Separate(m: Manager) {
    && (forall id :: id in m.subs ==> id < m.nextId && id !in m.pendingDelete && id !in m.pendingUnsubscribe)
    && (forall id :: id in m.pendingDelete ==> id < m.nextId && id !in m.pendingUnsubscribe)
    && (forall id :: id in m.pendingUnsubscribe ==> id < m.nextId)
  }

  ghost predicate TutorOk(m: Manager, t: Tutor) {
    && t.id < m.nextId
    && match t
       case SubscribeTutor(id, phase) =>
         id in m.subs ==>
           && phase <= m.subs[id].phase
           && (phase == m.subs[id].phase ==> m.subs[id].phaseType in {WAITING, SUBSCRIBING})
       case UnsubscribeTutor(id) => id !in m.subs && id !in m.pendingUnsubscribe
       case ChangeTutor(id, reconfId) => id in m.subs ==> reconfId <= m.subs[id].nextReconfId
  }

  ghost predicate TutorsOk(m: Manager) { forall t :: t in m.tutors ==> TutorOk(m, t) }

  /** Whatever is not settled has been given a tutor. */
  ghost predicate Tended(m: Manager) {
    && (forall id :: id in m.subs && m.subs[id].phaseType in {WAITING, SUBSCRIBING} ==>
          SubscribeTutor(id, m.subs[id].phase) in m.tutors)
    && (forall id :: id in m.pendingDelete ==> UnsubscribeTutor(id) in m.tutors)
    && (forall id :: id in m.pendingChanges ==> ChangeTutor(id, m.pendingChanges[id]) in m.tutors)
  }

  ghost predicate NoneOff(m: Manager) { forall id :: id in m.subs ==> m.subs[id].phaseType != OFF }

  ghost predicate Inv(m: Manager) { Separate(m) && TutorsOk(m) && Tended(m) && NoneOff(m) }

  lemma UpdateKeeps(s: seq<Tutor>, i: nat, x: Tutor)
    requires i < |s|
    ensures forall t :: t in s[i := x] ==> t in s || t == x
    ensures forall t :: t in s && t != s[i] ==> t in s[i := x]
    ensures x in s[i := x]
  {
    forall t | t in s && t != s[i] ensures t in s[i := x] {
      var j :| 0 <= j < |s| && s[j] == t;
      assert s[i := x][j] == t;
    }
    assert s[i := x][i] == x;
  }

  // ---- every step keeps it ----

  /** A subscription starts waiting and its request is sent. */
  lemma WakeKeepsInv(m: Manager, id: nat)
    requires Inv(m) && id in m.subs
    ensures Inv(Subscribe(SetSub(m, id, SetPhase(m.subs[id], WAITING)), id))
  {
  }

  lemma UnsubscribeKeepsInv(m: Manager, id: nat)
    requires Inv(m) && id < m.nextId && id !in m.subs
    ensures Inv(Unsubscribe(m, id))
  {
  }

  /** A subscription enters another phase that needs no tutor. */
  lemma SettledKeepsInv(m: Manager, id: nat, t: PhaseType)
    requires Inv(m) && id in m.subs && t in {PAUSED, PUSHING}
    ensures Inv(SetSub(m, id, SetPhase(m.subs[id], t)))
  {
  }

  lemma AddKeepsInv(m: Manager, phase: nat, nextReconfId: nat)
    requires Inv(m)
    ensures Inv(DoAdd(m, phase, nextReconfId))
  {
  }

  lemma RemoveKeepsInv(m: Manager, id: nat)
    requires Inv(m)
    ensures Inv(DoRemove(m, id))
  {
  }

  lemma ChangeKeepsInv(m: Manager, id: nat)
    requires Inv(m) && id in m.subs
    ensures Inv(ChangeFrequency(m, id))
  {
  }

  lemma CloseKeepsInv(m: Manager)
    requires Inv(m)
    ensures Inv(OnSessionClose(m))
  {
  }

  lemma {:induction false} SendAllKeepsInv(m: Manager, order: seq<nat>)
    requires Inv(m) && forall id :: id in order ==> id in m.subs
    ensures Inv(SendAll(m, order))
    decreases |order|
  {
    if order != [] {
      WakeKeepsInv(m, order[0]);
      SendAllKeepsInv(Subscribe(SetSub(m, order[0], SetPhase(m.subs[order[0]], WAITING)), order[0]), order[1..]);
    }
  }

  lemma OnUnsubscriptionKeepsInv(m: Manager, id: nat)
    requires Inv(m) && id < m.nextId
    ensures Inv(OnUnsubscription(m, id))
  {
  }

  lemma ServerKeepsInv(m: Manager, e: ServerEvent)
    requires Inv(m) && e.id < m.nextId
    ensures Inv(OnServer(m, e))
  {
    hide Unsubscribe, OnUnsubscription, Inv, SetSub, SetPhase;
    if !e.UnsubscriptionAck? && !e.Unsubscribed? && !e.Reconfigured? && e.id !in m.subs {
      UnsubscribeKeepsInv(m, e.id);
    } else {
      match e
      case SubscriptionAck(id) => SettledKeepsInv(m, id, PUSHING);
      case Subscribed(id) => SettledKeepsInv(m, id, PUSHING);
      case SubscriptionError(id) => SettledKeepsInv(m, id, PAUSED);
      case UnsubscriptionAck(id) => OnUnsubscriptionKeepsInv(m, id);
      case Unsubscribed(id) => OnUnsubscriptionKeepsInv(m, id);
      case Reconfigured(id, reconfId) => ClearKeepsInv(m, id, reconfId);
      case Data(_) =>
    }
  }

  lemma ClearKeepsInv(m: Manager, id: nat, reconfId: nat)
    requires Inv(m)
    ensures Inv(ClearChange(m, id, reconfId))
  {
  }

  lemma RecoverKeepsInv(m: Manager, t: Tutor)
    requires Inv(m) && t in m.tutors
    ensures Inv(Recover(m, t))
  {
  }

  /** A subscribe request has been sent: the tutor and the subscription enter the next phase together. */
  lemma SentKeepsInv(m: Manager, i: nat, failed: bool)
    requires Inv(m) && i < |m.tutors|
    ensures Inv(OnSent(m, i, failed))
  {
    hide Recover;
    var t := m.tutors[i];
    assert TutorOk(m, t);
    if t.SubscribeTutor? && !failed && InPhase(m, t) {
      var m', x := OnSent(m, i, failed), t.(phase := SubscriptionSent(m.subs[t.id]).phase);
      UpdateKeeps(m.tutors, i, x);
      assert m'.tutors == m.tutors[i := x];
      forall u | u in m'.tutors ensures TutorOk(m', u) {
        assert u != x ==> TutorOk(m, u);
      }
    } else {
      RecoverKeepsInv(m, t);
    }
  }

  lemma AbortKeepsInv(m: Manager, i: nat)
    requires Inv(m) && i < |m.tutors|
    ensures Inv(OnAbort(m, i))
  {
  }

  lemma StepKeepsInv(m: Manager, e: Event)
    requires Inv(m) && NamesIssuedId(m, e)
    ensures Inv(Step(m, e))
  {
    hide Inv, DoAdd, DoRemove, ChangeFrequency, OnSessionClose, SendAll, OnServer, OnSent, Recover, OnAbort;
    match e {
      case Add(phase, nextReconfId) => AddKeepsInv(m, phase, nextReconfId);
      case Remove(id) => RemoveKeepsInv(m, id);
      case Change(id) => if id in m.subs { ChangeKeepsInv(m, id); }
      case SessionStart(order) =>
        if Enumerates(order, m.subs.Keys) {
          AliveKeepsInv(m);
          SendAllKeepsInv(m.(sessionAlive := true), order);
        }
      case SessionClose => CloseKeepsInv(m);
      case Server(event) => ServerKeepsInv(m, event);
      case Sent(i, failed) => if i < |m.tutors| { SentKeepsInv(m, i, failed); }
      case Timeout(i, retry) => if i < |m.tutors| { RecoverKeepsInv(m, m.tutors[i]); }
      case Abort(i) => if i < |m.tutors| { AbortKeepsInv(m, i); }
    }
  }

  lemma AliveKeepsInv(m: Manager)
    requires Inv(m)
    ensures Inv(m.(sessionAlive := true))
  {
  }

  lemma {:induction false} RunKeepsInv(m: Manager, es: seq<Event>)
    requires Inv(m) && NamesIssuedIds(m, es)
    ensures Inv(Run(m, es))
    decreases |es|
  {
    if es != [] {
      StepKeepsInv(m, es[0]);
      RunKeepsInv(Step(m, es[0]), es[1..]);
    }
  }

  lemma InitInv()
    ensures Inv(Init())
  {
  }

  /**
   After every run the table and the two pending sets are pairwise disjoint, and whatever waits for the
   server has been given a tutor.
   */
  lemma CollectionsStayApart(es: seq<Event>)
    requires NamesIssuedIds(Init(), es)
    ensures var m := Run(Init(), es);
      Disjoint(m) && Tended(m) && Inv(m)
  {
    RunKeepsInv(Init(), es);
  }

  ghost predicate Disjoint(m: Manager) {
    && (forall id :: id in m.subs ==> id !in m.pendingDelete && id !in m.pendingUnsubscribe)
    && (forall id :: id in m.pendingDelete ==> id !in m.pendingUnsubscribe)
  }

  // ---- a server that names an id not given out yet ----

  function Adds(n: nat): seq<Event> { if n == 0 then [] else [Add(0, 1)] + Adds(n - 1) }

  predicate LooksUp(e: ServerEvent) { e.Data? || e.SubscriptionAck? || e.Subscribed? || e.SubscriptionError? }

  lemma {:induction false} AddsRun(m: Manager, n: nat)
    ensures var m' := Run(m, Adds(n));
      && m'.pendingDelete == m.pendingDelete && m'.pendingUnsubscribe == m.pendingUnsubscribe
      && forall id :: id in m'.subs <==> id in m.subs || m.nextId <= id < m.nextId + n
    decreases n
  {
    if n > 0 {
      assert Adds(n)[1..] == Adds(n - 1);
      AddsRun(Step(m, Add(0, 1)), n - 1);
    }
  }

  lemma AddsNameIssuedIds(m: Manager, n: nat)
    ensures NamesIssuedIds(m, Adds(n))
    decreases n
  {
    if n > 0 {
      assert Adds(n)[1..] == Adds(n - 1);
      AddsNameIssuedIds(Step(m, Add(0, 1)), n - 1);
    }
  }

  /** A server event leaves the collections apart, whatever is added later, if and only if it names an id
      already given out or belongs to a kind that does not look its id up. */
  lemma ApartForGoodIff(m: Manager, e: ServerEvent)
    requires Inv(m)
    ensures (forall n: nat :: Disjoint(Run(OnServer(m, e), Adds(n)))) <==> (e.id < m.nextId || !LooksUp(e))
  {
    hide OnServer, Inv;
    var m' := OnServer(m, e);
    if e.id < m.nextId || !LooksUp(e) {
      if e.id < m.nextId { ServerKeepsInv(m, e); } else { UnknownIdIsIgnored(m, e); }
      forall n: nat ensures Disjoint(Run(m', Adds(n))) {
        AddsNameIssuedIds(m', n);
        RunKeepsInv(m', Adds(n));
        InvIsDisjoint(Run(m', Adds(n)));
      }
    } else {
      UnknownIdIsDeleted(m, e);
      AddsRun(m', e.id - m.nextId + 1);
      assert !Disjoint(Run(m', Adds(e.id - m.nextId + 1)));
    }
  }

  lemma InvIsDisjoint(m: Manager)
    requires Inv(m)
    ensures Disjoint(m)
  {
  }

  lemma UnknownIdIsIgnored(m: Manager, e: ServerEvent)
    requires Inv(m) && e.id >= m.nextId && !LooksUp(e)
    ensures Inv(OnServer(m, e))
  {
  }

  lemma UnknownIdIsDeleted(m: Manager, e: ServerEvent)
    requires Inv(m) && e.id >= m.nextId && LooksUp(e)
    ensures e.id in OnServer(m, e).pendingDelete && OnServer(m, e).nextId == m.nextId
  {
  }

  // ---- what is sent ----

  function AddSendings(order: seq<nat>): (r: seq<Sending>)
    ensures |r| == |order| && forall i :: 0 <= i < |order| ==> r[i] == AddSent(order[i])
  {
    seq(|order|, i requires 0 <= i < |order| => AddSent(order[i]))
  }

  lemma {:induction false} SendAllSends(m: Manager, order: seq<nat>)
    requires forall id :: id in order ==> id in m.subs
    ensures var m' := SendAll(m, order);
      m' == m.(subs := m'.subs, tutors := m'.tutors, sent := m.sent + AddSendings(order))
    decreases |order|
  {
    hide SetPhase;
    if order == [] {
      assert m.sent + AddSendings(order) == m.sent;
    } else {
      SendAllSends(Subscribe(SetSub(m, order[0], SetPhase(m.subs[order[0]], WAITING)), order[0]), order[1..]);
      assert m.sent + AddSendings(order) == m.sent + [AddSent(order[0])] + AddSendings(order[1..]);
    }
  }

  lemma {:induction false} SendAllWakes(m: Manager, order: seq<nat>, id: nat)
    requires forall x :: x in order ==> x in m.subs
    requires forall i, j :: 0 <= i < j < |order| ==> order[i] != order[j]
    requires id in m.subs
    ensures SendAll(m, order).subs[id] == if id in order then SetPhase(m.subs[id], WAITING) else m.subs[id]
    decreases |order|
  {
    hide SetPhase;
    if order != [] {
      SendAllWakes(Subscribe(SetSub(m, order[0], SetPhase(m.subs[order[0]], WAITING)), order[0]), order[1..], id);
      assert order == [order[0]] + order[1..];
    }
  }

  /** The wake-up of the whole table: every subscription makes one transition, and one request is sent for it. */
  lemma SendAllFacts(m: Manager, order: seq<nat>)
    requires forall id :: id in order ==> id in m.subs
    requires forall i, j :: 0 <= i < j < |order| ==> order[i] != order[j]
    ensures var m' := SendAll(m, order);
      && m' == m.(subs := m'.subs, tutors := m'.tutors, sent := m.sent + AddSendings(order))
      && (forall id :: id in m.subs ==>
            m'.subs[id] == if id in order then SetPhase(m.subs[id], WAITING) else m.subs[id])
  {
    hide SendAll, SetPhase, AddSendings;
    SendAllSends(m, order);
    forall id | id in m.subs
      ensures SendAll(m, order).subs[id] == if id in order then SetPhase(m.subs[id], WAITING) else m.subs[id]
    {
      SendAllWakes(m, order, id);
    }
  }

  /** The requests a step hands to the session. */
  ghost function NewlySent(m: Manager, e: Event): seq<Sending>
    requires m.sent <= Step(m, e).sent
  {
    Step(m, e).sent[|m.sent|..]
  }

  lemma SentGrows(m: Manager, e: Event)
    ensures m.sent <= Step(m, e).sent
  {
    if e.SessionStart? && Enumerates(e.order, m.subs.Keys) { SendAllFacts(m.(sessionAlive := true), e.order); }
  }

  /** A delete that is no retransmission. */
  ghost predicate FirstDelete(m: Manager, m': Manager, id: nat) {
    m'.sent == m.sent + [DeleteSent(id)] && id !in m.pendingDelete && id in m'.pendingDelete && id !in m'.subs
  }

  lemma DeleteOfServer(m: Manager, e: ServerEvent, id: nat)
    requires Separate(m) && e.id < m.nextId && m.sent <= OnServer(m, e).sent
    requires DeleteSent(id) in OnServer(m, e).sent[|m.sent|..]
    ensures FirstDelete(m, OnServer(m, e), id)
  {
  }

  lemma DeleteOfRemove(m: Manager, x: nat, id: nat)
    requires Separate(m) && m.sent <= DoRemove(m, x).sent && DeleteSent(id) in DoRemove(m, x).sent[|m.sent|..]
    ensures FirstDelete(m, DoRemove(m, x), id)
  {
  }

  lemma DeleteOfTutor(m: Manager, t: Tutor, id: nat)
    requires m.sent <= Recover(m, t).sent && DeleteSent(id) in Recover(m, t).sent[|m.sent|..]
    ensures t == UnsubscribeTutor(id) && Recover(m, t).sent == m.sent + [DeleteSent(id)]
  {
  }

  lemma NoOtherDeletes(m: Manager, e: Event, id: nat)
    requires e.Add? || e.Change? || e.SessionStart? || e.SessionClose? || e.Abort?
    requires m.sent <= Step(m, e).sent
    ensures DeleteSent(id) !in NewlySent(m, e)
  {
    if e.SessionStart? && Enumerates(e.order, m.subs.Keys) { SendAllFacts(m.(sessionAlive := true), e.order); }
  }

  /**
   A delete leaves alone in its step; unless it is a retransmission, its id was not waiting for an answer
   to an earlier delete; a retransmission after a timeout only goes out while the answer is missing.
   */
  lemma DeletesAreNotRepeated(m: Manager, e: Event, id: nat)
    requires Inv(m) && NamesIssuedId(m, e) && m.sent <= Step(m, e).sent
    requires DeleteSent(id) in NewlySent(m, e)
    ensures NewlySent(m, e) == [DeleteSent(id)]
    ensures !e.Sent? && !e.Timeout? ==>
      id !in m.pendingDelete && id in Step(m, e).pendingDelete && id !in Step(m, e).subs
    ensures e.Timeout? ==> id in m.pendingDelete
  {
    hide Separate, TutorsOk, Tended, NoneOff;
    hide OnServer, DoAdd, DoRemove, ChangeFrequency, OnSessionClose, Recover, OnAbort;
    match e {
      case Server(event) => DeleteOfServer(m, event, id);
      case Remove(x) => DeleteOfRemove(m, x, id);
      case Sent(i, failed) => DeleteOfTutor(m, m.tutors[i], id);
      case Timeout(i, retry) => DeleteOfTutor(m, m.tutors[i], id);
      case _ => NoOtherDeletes(m, e, id);
    }
  }
}
