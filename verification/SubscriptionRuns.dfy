/** What runs of SubscriptionManager promise: pending deletes, late tutors, session restarts, the newest change. */
module SubscriptionRuns {
  import opened Subscriptions

  // ---- an id removed while it is subscribing ----

  /** A server event that settles whether the subscription exists there. */
  predicate IsAbout(e: Event, id: nat) { e.Server? && e.event.id == id && !e.event.Reconfigured? }

  ghost function DeletesOf(m: Manager, id: nat): nat { multiset(m.sent)[DeleteSent(id)] }

  lemma WaitStep(m: Manager, id: nat, e: Event)
    requires Inv(m) && NamesIssuedId(m, e) && id in m.pendingUnsubscribe && !IsAbout(e, id) && e != SessionClose
    ensures id in Step(m, e).pendingUnsubscribe && DeletesOf(Step(m, e), id) == DeletesOf(m, id)
  {
    SentGrows(m, e);
    var news := NewlySent(m, e);
    assert Step(m, e).sent == m.sent + news;
    WaitsOn(m, id, e);
    if DeleteSent(id) in news { NoDelete(m, id, e); }
  }

  lemma WaitsOn(m: Manager, id: nat, e: Event)
    requires Inv(m) && NamesIssuedId(m, e) && id in m.pendingUnsubscribe && !IsAbout(e, id) && e != SessionClose
    ensures id in Step(m, e).pendingUnsubscribe
  {
    hide Tended, NoneOff;
    if e.SessionStart? && Enumerates(e.order, m.subs.Keys) { SendAllFacts(m.(sessionAlive := true), e.order); }
    if e.Abort? && e.tutor < |m.tutors| { assert TutorOk(m, m.tutors[e.tutor]); }
  }

  lemma NoDelete(m: Manager, id: nat, e: Event)
    requires Inv(m) && NamesIssuedId(m, e) && id in m.pendingUnsubscribe && !IsAbout(e, id) && e != SessionClose
    requires m.sent <= Step(m, e).sent
    ensures DeleteSent(id) !in NewlySent(m, e)
  {
    if DeleteSent(id) in NewlySent(m, e) {
      hide Tended, NoneOff, Step;
      WaitsOn(m, id, e);
      StepKeepsInv(m, e);
      if e.Sent? {
        RetriedDelete(m, id, e);
      } else {
        DeletesAreNotRepeated(m, e, id);
      }
    }
  }

  /** A delete that leaves after a failed sending belongs to a tutor of that id. */
  lemma RetriedDelete(m: Manager, id: nat, e: Event)
    requires Inv(m) && m.sent <= Step(m, e).sent && DeleteSent(id) in NewlySent(m, e) && e.Sent?
    ensures id !in m.pendingUnsubscribe
  {
    hide Tended, NoneOff, Separate;
    assert TutorOk(m, m.tutors[e.tutor]);
  }

  lemma {:induction false} WaitsForTheServer(m: Manager, id: nat, es: seq<Event>)
    requires Inv(m) && NamesIssuedIds(m, es) && id in m.pendingUnsubscribe
    requires forall e :: e in es ==> !IsAbout(e, id) && e != SessionClose
    ensures var m' := Run(m, es);
      Inv(m') && id in m'.pendingUnsubscribe && DeletesOf(m', id) == DeletesOf(m, id)
    decreases |es|
  {
    if es != [] {
      StepKeepsInv(m, es[0]);
      WaitStep(m, id, es[0]);
      assert forall e :: e in es[1..] ==> e in es;
      WaitsForTheServer(Step(m, es[0]), id, es[1..]);
    }
  }

  /**
   Within a session, an id removed while it is subscribing waits in pendingUnsubscribe through everything
   else that happens; the first server event about it sends one delete, and no more was sent before.
   */
  lemma RemovalWhileSubscribing(m: Manager, id: nat, es: seq<Event>, e: ServerEvent)
    requires Inv(m) && m.sessionAlive && id in m.subs && m.subs[id].phaseType == SUBSCRIBING
    requires NamesIssuedIds(Step(m, Remove(id)), es)
    requires forall x :: x in es ==> !IsAbout(x, id) && x != SessionClose
    requires IsAbout(Server(e), id)
    ensures var waiting := Run(Step(m, Remove(id)), es);
      var released := Step(waiting, Server(e));
      && id in waiting.pendingUnsubscribe && DeletesOf(waiting, id) == DeletesOf(m, id)
      && id !in released.pendingUnsubscribe && id in released.pendingDelete
      && DeletesOf(released, id) == DeletesOf(m, id) + 1
  {
    hide Inv;
    var removed := Step(m, Remove(id));
    StepKeepsInv(m, Remove(id));
    WaitsForTheServer(removed, id, es);
    Released(Run(removed, es), id, e);
  }

  lemma Released(m: Manager, id: nat, e: ServerEvent)
    requires Inv(m) && id in m.pendingUnsubscribe && IsAbout(Server(e), id)
    ensures var m' := OnServer(m, e);
      && m'.sent == m.sent + [DeleteSent(id)] && DeletesOf(m', id) == DeletesOf(m, id) + 1
      && id !in m'.pendingUnsubscribe && id in m'.pendingDelete
  {
  }

  // ---- removals and the server's answers ----

  /** A removal tells the server at once if and only if the server has confirmed the subscription in this
      session; while it has not answered yet, the delete is put off; otherwise there is nothing to tell. */
  lemma RemovalSendsIff(m: Manager, id: nat)
    requires Inv(m) && id in m.subs
    ensures var m', s := Step(m, Remove(id)), m.subs[id].phaseType;
      && id !in m'.subs
      && DeletesOf(m', id) == DeletesOf(m, id) + (if m.sessionAlive && s == PUSHING then 1 else 0)
      && (id in m'.pendingDelete <==> m.sessionAlive && s == PUSHING)
      && (id in m'.pendingUnsubscribe <==> m.sessionAlive && s == SUBSCRIBING)
    ensures forall x :: x != id ==> DeletesOf(Step(m, Remove(id)), x) == DeletesOf(m, x)
  {
    hide Tended, TutorsOk, NoneOff;
  }

  /** A subscription added during a session is requested at once, and only it; one added outside is put on hold. */
  lemma AddingSubscribesIff(m: Manager, phase: nat, nextReconfId: nat)
    requires Inv(m)
    ensures var m', id := Step(m, Add(phase, nextReconfId)), m.nextId;
      && id !in m.subs && id in m'.subs
      && m'.sent == m.sent + (if m.sessionAlive then [AddSent(id)] else [])
      && m'.subs[id].phaseType == (if m.sessionAlive then WAITING else PAUSED)
  {
    hide TutorsOk, Tended, NoneOff;
  }

  /** Once the server has answered a delete, its id is in none of the collections, and no tutor of it sends any
      more. */
  lemma AnsweredDeleteIsForgotten(m: Manager, id: nat, e: ServerEvent, retry: bool)
    requires Inv(m) && id in m.pendingDelete && (e == UnsubscriptionAck(id) || e == Unsubscribed(id))
    ensures var m' := OnServer(m, e);
      && id !in m'.subs && id !in m'.pendingDelete && id !in m'.pendingUnsubscribe
      && forall i: nat :: i < |m'.tutors| && m'.tutors[i] == UnsubscribeTutor(id) ==> OnTimeout(m', i, retry) == m'
  {
    hide TutorsOk, Tended, NoneOff;
  }

  predicate Confirms(e: ServerEvent, id: nat) { e == Subscribed(id) || e == SubscriptionAck(id) }

  /** What takes a confirmed subscription out of its place: a removal, a refusal, the end or start of a session. */
  predicate Unsettles(e: Event, id: nat) {
    e == Remove(id) || e == SessionClose || e.SessionStart? || e == Server(SubscriptionError(id))
  }

  lemma ConfirmedStep(m: Manager, id: nat, e: Event)
    requires Inv(m) && NamesIssuedId(m, e) && !Unsettles(e, id)
    requires m.sessionAlive && id in m.subs && m.subs[id].phaseType == PUSHING
    ensures var m' := Step(m, e); m'.sessionAlive && id in m'.subs && m'.subs[id].phaseType == PUSHING
  {
    hide Tended, NoneOff;
    if (e.Sent? || e.Timeout? || e.Abort?) && e.tutor < |m.tutors| { assert TutorOk(m, m.tutors[e.tutor]); }
  }

  lemma {:induction false} StaysConfirmed(m: Manager, id: nat, es: seq<Event>)
    requires Inv(m) && NamesIssuedIds(m, es) && forall e :: e in es ==> !Unsettles(e, id)
    requires m.sessionAlive && id in m.subs && m.subs[id].phaseType == PUSHING
    ensures var m' := Run(m, es); Inv(m') && m'.sessionAlive && id in m'.subs && m'.subs[id].phaseType == PUSHING
    decreases |es|
  {
    hide Step, Inv;
    if es != [] {
      StepKeepsInv(m, es[0]);
      ConfirmedStep(m, id, es[0]);
      assert forall e :: e in es[1..] ==> e in es;
      StaysConfirmed(Step(m, es[0]), id, es[1..]);
    }
  }

  /** A delete that is no retransmission. */
  ghost predicate FirstDeleteIn(m: Manager, e: Event, id: nat) {
    SentGrows(m, e);
    !e.Sent? && !e.Timeout? && DeleteSent(id) in NewlySent(m, e)
  }

  /** How many deletes of an id leave in a run, not counting retransmissions. */
  ghost function FirstDeletes(m: Manager, es: seq<Event>, id: nat): nat
    decreases |es|
  {
    if es == [] then 0
    else (if FirstDeleteIn(m, es[0], id) then 1 else 0) + FirstDeletes(Step(m, es[0]), es[1..], id)
  }

  /** What settles a delete: its answer, its abort, the end of the session. */
  ghost predicate SettlesDelete(m: Manager, e: Event, id: nat) {
    || e == SessionClose || e == Server(UnsubscriptionAck(id)) || e == Server(Unsubscribed(id))
    || (e.Abort? && e.tutor < |m.tutors| && m.tutors[e.tutor] == UnsubscribeTutor(id))
  }

  ghost predicate NeverSettlesDelete(m: Manager, es: seq<Event>, id: nat)
    decreases |es|
  {
    es == [] || (!SettlesDelete(m, es[0], id) && NeverSettlesDelete(Step(m, es[0]), es[1..], id))
  }

  lemma DeleteStaysPending(m: Manager, e: Event, id: nat)
    requires Inv(m) && NamesIssuedId(m, e) && id in m.pendingDelete && !SettlesDelete(m, e, id)
    ensures id in Step(m, e).pendingDelete && !FirstDeleteIn(m, e, id)
  {
    PendingStays(m, e, id);
    hide Step, Inv;
    SentGrows(m, e);
    if FirstDeleteIn(m, e, id) { DeletesAreNotRepeated(m, e, id); }
  }

  lemma PendingStays(m: Manager, e: Event, id: nat)
    requires id in m.pendingDelete && !SettlesDelete(m, e, id)
    ensures id in Step(m, e).pendingDelete
  {
    if e.SessionStart? && Enumerates(e.order, m.subs.Keys) { SendAllFacts(m.(sessionAlive := true), e.order); }
  }

  lemma {:induction false} NoDeleteWhilePending(m: Manager, es: seq<Event>, id: nat)
    requires Inv(m) && NamesIssuedIds(m, es) && id in m.pendingDelete && NeverSettlesDelete(m, es, id)
    ensures FirstDeletes(m, es, id) == 0 && id in Run(m, es).pendingDelete
    decreases |es|
  {
    hide Step, Inv, FirstDeleteIn, SettlesDelete;
    if es != [] {
      StepKeepsInv(m, es[0]);
      DeleteStaysPending(m, es[0], id);
      NoDeleteWhilePending(Step(m, es[0]), es[1..], id);
    }
  }

  /**
   Confirmed by the server, then, after anything that does not unsettle it, removed in the same session: until
   the delete is settled exactly one delete leaves for the subscription, retransmissions apart.
   */
  lemma ConfirmedThenRemoved(m: Manager, e: ServerEvent, before: seq<Event>, id: nat, after: seq<Event>)
    requires Inv(m) && m.sessionAlive && id in m.subs && Confirms(e, id)
    requires NamesIssuedIds(OnServer(m, e), before) && forall x :: x in before ==> !Unsettles(x, id)
    requires var held := Run(OnServer(m, e), before);
      NamesIssuedIds(Step(held, Remove(id)), after) && NeverSettlesDelete(Step(held, Remove(id)), after, id)
    ensures var held := Run(OnServer(m, e), before);
      FirstDeletes(held, [Remove(id)] + after, id) == 1 && id in Run(held, [Remove(id)] + after).pendingDelete
  {
    hide NeverSettlesDelete, NamesIssuedIds, Unsettles;
    assert NamesIssuedId(m, Server(e)) by { assert e.id == id; }
    StepKeepsInv(m, Server(e));
    StaysConfirmed(OnServer(m, e), id, before);
    var held := Run(OnServer(m, e), before);
    hide OnServer, Run;
    StepKeepsInv(held, Remove(id));
    RemovalIsFirstDelete(held, id);
    hide Step, Inv;
    NoDeleteWhilePending(Step(held, Remove(id)), after, id);
    assert ([Remove(id)] + after)[1..] == after;
    RunCons(held, Remove(id), after);
  }

  lemma RunCons(m: Manager, e: Event, es: seq<Event>)
    ensures Run(m, [e] + es) == Run(Step(m, e), es)
  {
    assert ([e] + es)[1..] == es;
  }

  lemma RemovalIsFirstDelete(m: Manager, id: nat)
    requires Inv(m) && m.sessionAlive && id in m.subs && m.subs[id].phaseType == PUSHING
    ensures FirstDeleteIn(m, Remove(id), id) && id in Step(m, Remove(id)).pendingDelete
  {
    hide Tended, TutorsOk, NoneOff;
    SentGrows(m, Remove(id));
    assert Step(m, Remove(id)).sent == m.sent + [DeleteSent(id)];
  }

  /** Refused by the server and then removed, with no new answer or start in between: no delete leaves. */
  lemma RefusedThenRemoved(m: Manager, before: seq<Event>, id: nat)
    requires Inv(m) && id in m.subs
    requires NamesIssuedIds(OnServer(m, SubscriptionError(id)), before)
    requires forall x :: x in before ==>
      !x.SessionStart? && x != Remove(id) && (x.Server? ==> !Confirms(x.event, id))
    ensures var held := Run(OnServer(m, SubscriptionError(id)), before);
      id in held.subs && !FirstDeleteIn(held, Remove(id), id) && id !in Step(held, Remove(id)).pendingDelete
  {
    StepKeepsInv(m, Server(SubscriptionError(id)));
    StaysRefused(OnServer(m, SubscriptionError(id)), id, before);
    var held := Run(OnServer(m, SubscriptionError(id)), before);
    hide OnServer, Run;
    RemovalSendsIff(held, id);
    SentGrows(held, Remove(id));
    assert Step(held, Remove(id)).sent == held.sent;
  }

  lemma RefusedStep(m: Manager, id: nat, e: Event)
    requires Inv(m) && NamesIssuedId(m, e) && id in m.subs && m.subs[id].phaseType == PAUSED
    requires !e.SessionStart? && e != Remove(id) && (e.Server? ==> !Confirms(e.event, id))
    ensures id in Step(m, e).subs && Step(m, e).subs[id].phaseType == PAUSED
  {
    hide Tended, NoneOff;
    if (e.Sent? || e.Timeout? || e.Abort?) && e.tutor < |m.tutors| { assert TutorOk(m, m.tutors[e.tutor]); }
  }

  lemma {:induction false} StaysRefused(m: Manager, id: nat, es: seq<Event>)
    requires Inv(m) && NamesIssuedIds(m, es) && id in m.subs && m.subs[id].phaseType == PAUSED
    requires forall e :: e in es ==> !e.SessionStart? && e != Remove(id) && (e.Server? ==> !Confirms(e.event, id))
    ensures Inv(Run(m, es)) && id in Run(m, es).subs && Run(m, es).subs[id].phaseType == PAUSED
    decreases |es|
  {
    hide Step, Inv;
    if es != [] {
      StepKeepsInv(m, es[0]);
      RefusedStep(m, id, es[0]);
      assert forall e :: e in es[1..] ==> e in es;
      StaysRefused(Step(m, es[0]), id, es[1..]);
    }
  }

  // ---- late tutors ----

  /**
   A tutor's callback, however late, never moves a subscription that is pushing or paused and takes none in
   or out; every subscribe request it sends, which is always a repetition, is for one that is waiting or
   subscribing.
   */
  lemma LateCallbackIsHarmless(m: Manager, e: Event)
    requires Inv(m) && (e.Sent? || e.Timeout? || e.Abort?)
    ensures Step(m, e).subs.Keys == m.subs.Keys
    ensures forall id :: id in m.subs && Step(m, e).subs[id] != m.subs[id] ==>
      && m.subs[id].phaseType == WAITING && Step(m, e).subs[id] == SetPhase(m.subs[id], SUBSCRIBING)
      && e.Sent? && !e.failed && e.tutor < |m.tutors| && m.tutors[e.tutor] == SubscribeTutor(id, m.subs[id].phase)
    ensures m.sent <= Step(m, e).sent
    ensures forall id :: AddSent(id) in NewlySent(m, e) ==>
      id in m.subs && m.subs[id].phaseType in {WAITING, SUBSCRIBING}
  {
    hide Tended, NoneOff, Separate;
    SentGrows(m, e);
    forall id | AddSent(id) in NewlySent(m, e) ensures id in m.subs && m.subs[id].phaseType in {WAITING, SUBSCRIBING} {
      RepeatedRequest(m, e, id);
    }
    hide NewlySent;
    if e.tutor < |m.tutors| { assert TutorOk(m, m.tutors[e.tutor]); }
  }

  lemma RepeatedRequest(m: Manager, e: Event, id: nat)
    requires Inv(m) && (e.Sent? || e.Timeout? || e.Abort?) && m.sent <= Step(m, e).sent
    requires AddSent(id) in NewlySent(m, e)
    ensures id in m.subs && m.subs[id].phaseType in {WAITING, SUBSCRIBING}
  {
    hide Tended, NoneOff, Separate;
    if e.tutor < |m.tutors| { assert TutorOk(m, m.tutors[e.tutor]); }
  }

  ghost predicate Overtaken(m: Manager, i: nat) {
    i < |m.tutors| && m.tutors[i].SubscribeTutor? && !InPhase(m, m.tutors[i])
  }

  lemma OvertakenStep(m: Manager, e: Event, i: nat)
    requires Inv(m) && Overtaken(m, i)
    ensures Overtaken(Step(m, e), i) && Step(m, e).tutors[i] == m.tutors[i]
  {
    hide Tended, NoneOff, Separate;
    assert TutorOk(m, m.tutors[i]);
    if e.SessionStart? {
      hide OnServer, OnSent, OnTimeout, OnAbort, DoAdd, DoRemove, ChangeFrequency, OnSessionClose;
      if Enumerates(e.order, m.subs.Keys) {
        SendAllFacts(m.(sessionAlive := true), e.order);
        SendAllAppends(m.(sessionAlive := true), e.order);
      }
    } else if e.Server? {
      hide SendAll;
    } else {
      hide SendAll, OnServer;
    }
  }

  lemma {:induction false} SendAllAppends(m: Manager, order: seq<nat>)
    requires forall id :: id in order ==> id in m.subs
    ensures m.tutors <= SendAll(m, order).tutors
    decreases |order|
  {
    if order != [] {
      SendAllAppends(Subscribe(SetSub(m, order[0], SetPhase(m.subs[order[0]], WAITING)), order[0]), order[1..]);
    }
  }

  /** Once its subscription has moved on or gone, a tutor changes nothing any more, whatever happens next. */
  lemma {:induction false} OvertakenForGood(m: Manager, es: seq<Event>, i: nat, failed: bool, retry: bool)
    requires Inv(m) && NamesIssuedIds(m, es) && Overtaken(m, i)
    ensures var m' := Run(m, es);
      i < |m'.tutors| && OnSent(m', i, failed) == m' && OnTimeout(m', i, retry) == m' && OnAbort(m', i) == m'
    decreases |es|
  {
    if es != [] {
      StepKeepsInv(m, es[0]);
      OvertakenStep(m, es[0], i);
      OvertakenForGood(Step(m, es[0]), es[1..], i, failed, retry);
    }
  }

  // ---- the end of a session and the start of the next ----

  /** No session: every subscription is on hold and no unsubscription is pending. */
  ghost predicate OnHold(m: Manager) {
    && !m.sessionAlive && m.pendingDelete == {} && m.pendingUnsubscribe == {}
    && forall id :: id in m.subs ==> m.subs[id].phaseType == PAUSED
  }

  lemma OnHoldStep(m: Manager, e: Event)
    requires Inv(m) && OnHold(m) && !e.SessionStart? && !e.Server?
    ensures OnHold(Step(m, e))
  {
    hide Tended, NoneOff, Separate;
    if (e.Sent? || e.Timeout? || e.Abort?) && e.tutor < |m.tutors| { assert TutorOk(m, m.tutors[e.tutor]); }
  }

  lemma {:induction false} StaysOnHold(m: Manager, es: seq<Event>)
    requires Inv(m) && OnHold(m)
    requires forall e :: e in es ==> !e.SessionStart? && !e.Server?
    ensures Inv(Run(m, es)) && OnHold(Run(m, es))
    decreases |es|
  {
    if es != [] {
      StepKeepsInv(m, es[0]);
      OnHoldStep(m, es[0]);
      assert forall e :: e in es[1..] ==> e in es;
      StaysOnHold(Step(m, es[0]), es[1..]);
    }
  }

  /** A frequency change of a registered subscription, or the retry of one that could not be sent. */
  ghost predicate AsksForChange(m: Manager, e: Event) {
    || (e.Change? && e.id in m.subs)
    || (e.Sent? && e.failed && e.tutor < |m.tutors| && m.tutors[e.tutor].ChangeTutor? && m.tutors[e.tutor].id in m.subs)
  }

  lemma NoChangePendingStepIff(m: Manager, e: Event)
    requires m.pendingChanges == map[]
    ensures Step(m, e).pendingChanges == map[] <==> !AsksForChange(m, e)
  {
    if AsksForChange(m, e) {
      assert (if e.Change? then e.id else m.tutors[e.tutor].id) in Step(m, e).pendingChanges;
    }
    if e.SessionStart? && Enumerates(e.order, m.subs.Keys) { SendAllFacts(m.(sessionAlive := true), e.order); }
  }

  ghost predicate NeverAsksForChange(m: Manager, es: seq<Event>)
    decreases |es|
  {
    es == [] || (!AsksForChange(m, es[0]) && NeverAsksForChange(Step(m, es[0]), es[1..]))
  }

  ghost predicate NoChangePendingThroughout(m: Manager, es: seq<Event>)
    decreases |es|
  {
    m.pendingChanges == map[] && (es == [] || NoChangePendingThroughout(Step(m, es[0]), es[1..]))
  }

  /** With no change pending, none is pending all through a run if and only if no event of it asks for one. */
  lemma {:induction false} NoChangePendingIff(m: Manager, es: seq<Event>)
    requires m.pendingChanges == map[]
    ensures NoChangePendingThroughout(m, es) <==> NeverAsksForChange(m, es)
    ensures NoChangePendingThroughout(m, es) ==> Run(m, es).pendingChanges == map[]
    decreases |es|
  {
    hide Step, AsksForChange;
    if es != [] {
      NoChangePendingStepIff(m, es[0]);
      if !AsksForChange(m, es[0]) { NoChangePendingIff(Step(m, es[0]), es[1..]); }
    }
  }

  /**
   After a session has closed, and through any additions, removals and late callbacks, everything is on hold,
   and no change is pending either unless one is asked for; the next start wakes each registered subscription
   from its pause once and sends one request for each.
   */
  lemma RestartSubscribesEachOnce(m: Manager, es: seq<Event>, order: seq<nat>)
    requires Inv(m)
    requires forall e :: e in es ==> !e.SessionStart? && !e.Server?
    requires Enumerates(order, Run(Step(m, SessionClose), es).subs.Keys)
    ensures var held := Run(Step(m, SessionClose), es);
      var started := Step(held, SessionStart(order));
      && OnHold(held)
      && (NeverAsksForChange(Step(m, SessionClose), es) ==> held.pendingChanges == map[])
      && started.sent == held.sent + AddSendings(order)
      && started.subs.Keys == held.subs.Keys
      && (forall id :: id in held.subs ==> started.subs[id] == SetPhase(held.subs[id], WAITING))
      && Inv(started)
  {
    hide Inv;
    StepKeepsInv(m, SessionClose);
    StaysOnHold(Step(m, SessionClose), es);
    NoChangePendingIff(Step(m, SessionClose), es);
    var held := Run(Step(m, SessionClose), es);
    SendAllFacts(held.(sessionAlive := true), order);
    StepKeepsInv(held, SessionStart(order));
  }

  // ---- frequency changes ----

  /** No tutor of a change is newer than the change that is pending. */
  ghost predicate NewestPending(m: Manager) {
    forall t :: t in m.tutors && t.ChangeTutor? && t.id in m.pendingChanges ==> t.reconfId <= m.pendingChanges[t.id]
  }

  /** A change whose request could not be sent is sent again although a newer change is under way. */
  ghost predicate FallsBack(m: Manager, e: Event) {
    && e.Sent? && e.failed && e.tutor < |m.tutors| && m.tutors[e.tutor].ChangeTutor? && m.tutors[e.tutor].id in m.subs
    && exists t :: t in m.tutors && t.ChangeTutor?
                   && t.id == m.tutors[e.tutor].id && t.reconfId > m.tutors[e.tutor].reconfId
  }

  lemma {:induction false} SendAllAddsNoChange(m: Manager, order: seq<nat>)
    requires forall id :: id in order ==> id in m.subs
    ensures forall t :: t in SendAll(m, order).tutors && t.ChangeTutor? ==> t in m.tutors
    decreases |order|
  {
    if order != [] {
      SendAllAddsNoChange(Subscribe(SetSub(m, order[0], SetPhase(m.subs[order[0]], WAITING)), order[0]), order[1..]);
    }
  }

  /** A new change is sent at once, under an id beyond those of all earlier requests for the subscription. */
  lemma NewChangeIsNewest(m: Manager, id: nat)
    requires Inv(m) && id in m.subs
    ensures var m' := ChangeFrequency(m, id);
      && id in m'.pendingChanges && m'.sent == m.sent + [ChangeSent(id, m'.pendingChanges[id])]
      && forall t :: t in m.tutors && t.ChangeTutor? && t.id == id ==> t.reconfId < m'.pendingChanges[id]
  {
    hide Separate, Tended, NoneOff;
    forall t | t in m.tutors && t.ChangeTutor? && t.id == id
      ensures t.reconfId < ChangeFrequency(m, id).pendingChanges[id]
    {
      assert TutorOk(m, t);
    }
  }

  /** Only a change, a failed sending and a timeout touch what is pending other than by clearing it. */
  lemma NoNewChange(m: Manager, e: Event)
    requires !e.Change? && !e.Sent? && !e.Timeout?
    ensures forall t :: t in Step(m, e).tutors && t.ChangeTutor? ==> t in m.tutors
    ensures forall id :: id in Step(m, e).pendingChanges ==>
      id in m.pendingChanges && Step(m, e).pendingChanges[id] == m.pendingChanges[id]
  {
    if e.SessionStart? {
      hide OnServer, OnAbort, DoAdd, DoRemove, OnSessionClose;
      if Enumerates(e.order, m.subs.Keys) {
        SendAllFacts(m.(sessionAlive := true), e.order);
        SendAllAddsNoChange(m.(sessionAlive := true), e.order);
      }
    } else if e.Server? {
      hide SendAll, OnAbort, DoAdd, DoRemove, OnSessionClose;
    } else {
      hide SendAll, OnServer;
    }
  }

  /** A retry that has no newer change beside it keeps the newest one pending. */
  lemma RetryOfNewest(m: Manager, t: Tutor, u: Tutor)
    requires NewestPending(m) && t in m.tutors
    requires t.ChangeTutor? && t.id in m.subs ==>
      forall v :: v in m.tutors && v.ChangeTutor? && v.id == t.id ==> v.reconfId <= t.reconfId
    requires u in Recover(m, t).tutors && u.ChangeTutor? && u.id in Recover(m, t).pendingChanges
    ensures u.reconfId <= Recover(m, t).pendingChanges[u.id]
  {
  }

  lemma NewestStep(m: Manager, e: Event, t: Tutor)
    requires Inv(m) && NewestPending(m) && !FallsBack(m, e)
    requires t in Step(m, e).tutors && t.ChangeTutor? && t.id in Step(m, e).pendingChanges
    ensures t.reconfId <= Step(m, e).pendingChanges[t.id]
  {
    if !e.Change? && !e.Sent? && !e.Timeout? {
      NoNewChange(m, e);
    } else if e.Change? {
      hide Inv;
      if e.id in m.subs { NewChangeIsNewest(m, e.id); }
    } else {
      hide Inv;
      SentOrTimeout(m, e, t);
    }
  }

  lemma SentOrTimeout(m: Manager, e: Event, t: Tutor)
    requires NewestPending(m) && !FallsBack(m, e) && (e.Sent? || e.Timeout?)
    requires t in Step(m, e).tutors && t.ChangeTutor? && t.id in Step(m, e).pendingChanges
    ensures t.reconfId <= Step(m, e).pendingChanges[t.id]
  {
    hide Recover;
    if e.tutor < |m.tutors| {
      var u := m.tutors[e.tutor];
      if Step(m, e) == Recover(m, u) && (if e.Sent? then e.failed else !Succeeded(m, u)) {
        hide Step;
        RetryOfNewest(m, u, t);
      }
    }
  }

  /** The newest change stays the pending one in every step but one kind: the unguarded retry of a failed
      sending, and that one exactly when a newer change has a tutor. */
  lemma NewestStaysPendingIff(m: Manager, e: Event)
    requires Inv(m) && NewestPending(m)
    ensures NewestPending(Step(m, e)) <==> !FallsBack(m, e)
  {
    hide Tended, NoneOff, Separate;
    if FallsBack(m, e) {
      var t :| t in m.tutors && t.ChangeTutor?
               && t.id == m.tutors[e.tutor].id && t.reconfId > m.tutors[e.tutor].reconfId;
      assert t in Step(m, e).tutors;
    } else {
      forall t | t in Step(m, e).tutors && t.ChangeTutor? && t.id in Step(m, e).pendingChanges
        ensures t.reconfId <= Step(m, e).pendingChanges[t.id]
      {
        NewestStep(m, e, t);
      }
    }
  }

  ghost predicate NeverFallsBack(m: Manager, es: seq<Event>)
    decreases |es|
  {
    es == [] || (!FallsBack(m, es[0]) && NeverFallsBack(Step(m, es[0]), es[1..]))
  }

  /** Driven by timeouts, answers and aborts, every run keeps the newest change the pending one. */
  lemma {:induction false} NewestChangeWins(m: Manager, es: seq<Event>)
    requires Inv(m) && NewestPending(m) && NamesIssuedIds(m, es) && NeverFallsBack(m, es)
    ensures NewestPending(Run(m, es)) && Inv(Run(m, es))
    decreases |es|
  {
    if es != [] {
      StepKeepsInv(m, es[0]);
      NewestStaysPendingIff(m, es[0]);
      NewestChangeWins(Step(m, es[0]), es[1..]);
    }
  }

  /** What a tutor is for is still awaited: its subscription is on the way in its phase, its delete has not been
      answered, its change is the pending one of a registered subscription. */
  ghost predicate Awaited(m: Manager, t: Tutor) {
    match t
    case SubscribeTutor(id, phase) =>
      id in m.subs && m.subs[id].phase == phase && m.subs[id].phaseType in {WAITING, SUBSCRIBING}
    case UnsubscribeTutor(id) => id in m.pendingDelete
    case ChangeTutor(id, reconfId) => id in m.subs && id in m.pendingChanges && m.pendingChanges[id] == reconfId
  }

  function RequestFor(t: Tutor): Sending {
    match t
    case SubscribeTutor(id, _) => AddSent(id)
    case UnsubscribeTutor(id) => DeleteSent(id)
    case ChangeTutor(id, reconfId) => ChangeSent(id, reconfId)
  }

  /** A timeout sends the tutor's request once more if and only if a retry is due and what it is for is still
      awaited; nothing else is sent, no subscription moves and nothing else becomes pending. */
  lemma TimeoutResendsIff(m: Manager, i: nat, retry: bool)
    requires Inv(m) && NewestPending(m) && i < |m.tutors|
    ensures var m', t := OnTimeout(m, i, retry), m.tutors[i];
      && m'.sent == m.sent + (if retry && Awaited(m, t) then [RequestFor(t)] else [])
      && m'.subs == m.subs && m'.pendingDelete == m.pendingDelete && m'.pendingChanges == m.pendingChanges
  {
    hide Separate, Tended, NoneOff;
    assert TutorOk(m, m.tutors[i]);
  }

  /** A timeout leaves the pending change alone, and resends no change but that one. */
  lemma OnlyTheNewestIsResent(m: Manager, i: nat, retry: bool)
    requires NewestPending(m) && i < |m.tutors| && m.tutors[i].ChangeTutor?
    ensures var m', id := OnTimeout(m, i, retry), m.tutors[i].id;
      && m'.pendingChanges == m.pendingChanges
      && (m'.sent == m.sent || (id in m.pendingChanges && m'.sent == m.sent + [ChangeSent(id, m.pendingChanges[id])]))
  {
  }

  /** What settles or replaces the pending change of an id. */
  ghost predicate Settles(m: Manager, e: Event, id: nat)
    requires id in m.pendingChanges
  {
    || e == SessionClose || e == Change(id) || e == Server(Reconfigured(id, m.pendingChanges[id])) || FallsBack(m, e)
    || (e.Abort? && e.tutor < |m.tutors| && m.tutors[e.tutor] == ChangeTutor(id, m.pendingChanges[id]))
  }

  /** Its answer, its abort and the end of the session do take the pending change away. */
  lemma SettledChangeIsCleared(m: Manager, e: Event, id: nat)
    requires id in m.pendingChanges
    requires || e == SessionClose || e == Server(Reconfigured(id, m.pendingChanges[id]))
             || (e.Abort? && e.tutor < |m.tutors| && m.tutors[e.tutor] == ChangeTutor(id, m.pendingChanges[id]))
    ensures id !in Step(m, e).pendingChanges
  {
    hide SendAll, DoAdd, DoRemove, OnSent, OnTimeout;
  }

  /** Everything else, an answer to an older change or its abort among it, leaves the change pending. */
  lemma PendingChangeStays(m: Manager, e: Event, id: nat)
    requires Inv(m) && NewestPending(m) && id in m.pendingChanges && !Settles(m, e, id)
    ensures id in Step(m, e).pendingChanges && Step(m, e).pendingChanges[id] == m.pendingChanges[id]
  {
    hide Separate, NoneOff, TutorsOk;
    assert ChangeTutor(id, m.pendingChanges[id]) in m.tutors;
    if e.SessionStart? && Enumerates(e.order, m.subs.Keys) { SendAllFacts(m.(sessionAlive := true), e.order); }
  }

  // ---- changes whose request could not be sent ----

  lemma {:induction false} RunConcat(m: Manager, es: seq<Event>, fs: seq<Event>)
    ensures Run(m, es + fs) == Run(Run(m, es), fs)
    decreases |es|
  {
    hide Step;
    if es == [] {
      assert es + fs == fs;
    } else {
      assert (es + fs)[0] == es[0] && (es + fs)[1..] == es[1..] + fs;
      RunConcat(Step(m, es[0]), es[1..], fs);
    }
  }

  lemma RunOfTwo(m: Manager, e: Event, f: Event)
    ensures Run(m, [e, f]) == Step(Step(m, e), f)
  {
    hide Step;
    assert [e, f][1..] == [f] && [f][1..] == [];
    assert Run(m, [e, f]) == Run(Step(m, e), [f]) == Run(Step(Step(m, e), f), []);
  }

  /** A subscription that has been added and sent with the start of a session, and then confirmed. */
  const SUBSCRIBED_1: Manager :=
    Manager(map[1 := Sub(PUSHING, 5, 1)], 2, {}, {}, map[], true, [SubscribeTutor(1, 4)], [AddSent(1)])

  const STARTED_1: Manager :=
    Manager(map[1 := Sub(WAITING, 3, 1)], 2, {}, {}, map[], true, [SubscribeTutor(1, 3)], [AddSent(1)])

  lemma Started1()
    ensures Step(Step(Init(), Add(0, 1)), SessionStart([1])) == STARTED_1
  {
    hide OnServer, OnSent, OnTimeout, OnAbort, DoRemove, ChangeFrequency, OnSessionClose;
    var added := Step(Init(), Add(0, 1));
    assert added == Manager(map[1 := Sub(PAUSED, 2, 1)], 2, {}, {}, map[], false, [], []);
    assert Enumerates([1], added.subs.Keys);
    assert [1][1..] == [];
  }

  lemma Confirmed1()
    ensures Step(Step(STARTED_1, Sent(0, false)), Server(Subscribed(1))) == SUBSCRIBED_1
  {
    hide SendAll, DoAdd, OnTimeout, OnAbort, DoRemove, ChangeFrequency, OnSessionClose;
    var sent := Step(STARTED_1, Sent(0, false));
    assert sent
        == Manager(map[1 := Sub(SUBSCRIBING, 4, 1)], 2, {}, {}, map[], true, [SubscribeTutor(1, 4)], [AddSent(1)]);
  }

  lemma Subscribed1()
    ensures Run(Init(), [Add(0, 1), SessionStart([1]), Sent(0, false), Server(Subscribed(1))]) == SUBSCRIBED_1
  {
    hide Step;
    Started1();
    Confirmed1();
    RunOfTwo(Init(), Add(0, 1), SessionStart([1]));
    RunOfTwo(STARTED_1, Sent(0, false), Server(Subscribed(1)));
    RunConcat(Init(), [Add(0, 1), SessionStart([1])], [Sent(0, false), Server(Subscribed(1))]);
    assert [Add(0, 1), SessionStart([1])] + [Sent(0, false), Server(Subscribed(1))]
        == [Add(0, 1), SessionStart([1]), Sent(0, false), Server(Subscribed(1))];
  }

  /** A change of a subscribed subscription whose request comes back as failed after the session has closed is
      pending again. */
  lemma FailedSendingOutlivesSession()
    ensures var m := Run(Init(), [Add(0, 1), SessionStart([1]), Sent(0, false), Server(Subscribed(1)),
                                  Change(1), SessionClose, Sent(1, true)]);
      OnHold(m) && m.pendingChanges == map[1 := 2]
  {
    var es, fs := [Add(0, 1), SessionStart([1]), Sent(0, false), Server(Subscribed(1))],
                  [Change(1), SessionClose];
    Subscribed1();
    RunConcat(Init(), es, fs);
    RunConcat(Init(), es + fs, [Sent(1, true)]);
    assert es + fs + [Sent(1, true)] == [Add(0, 1), SessionStart([1]), Sent(0, false), Server(Subscribed(1)),
                                         Change(1), SessionClose, Sent(1, true)];
    RunOfTwo(SUBSCRIBED_1, Change(1), SessionClose);
    ClosedThenFailed();
  }

  lemma ClosedThenFailed()
    ensures var closed := Step(Step(SUBSCRIBED_1, Change(1)), SessionClose);
      var m := Run(closed, [Sent(1, true)]);
      OnHold(m) && m.pendingChanges == map[1 := 2]
  {
    hide SendAll, OnServer, DoRemove, DoAdd, OnTimeout, OnAbort, Succeeded;
    var closed := Step(Step(SUBSCRIBED_1, Change(1)), SessionClose);
    assert closed.tutors == [SubscribeTutor(1, 4), ChangeTutor(1, 2)];
    assert Run(closed, [Sent(1, true)]) == Run(Step(closed, Sent(1, true)), []);
  }

  /** Two changes of a subscribed subscription, the first of which could not be sent: the older one becomes
      pending again, its answer clears the table, and the newer one is given up unanswered. */
  lemma FailedSendingLosesTheNewest()
    ensures var m0 := Run(
        Init(), [Add(0, 1), SessionStart([1]), Sent(0, false), Server(Subscribed(1)), Change(1), Change(1)]);
      var m1 := Run(m0, [Sent(1, true), Server(Reconfigured(1, 2))]);
      && m0.sessionAlive && m0.subs == map[1 := Sub(PUSHING, 5, 3)]
      && m0.pendingChanges == map[1 := 3]
      && m0.tutors == [SubscribeTutor(1, 4), ChangeTutor(1, 2), ChangeTutor(1, 3)]
      && m1.pendingChanges == map[]
      && forall retry :: Step(m1, Timeout(2, retry)) == m1
  {
    var es := [Add(0, 1), SessionStart([1]), Sent(0, false), Server(Subscribed(1))];
    Subscribed1();
    RunConcat(Init(), es, [Change(1), Change(1)]);
    assert es + [Change(1), Change(1)]
        == [Add(0, 1), SessionStart([1]), Sent(0, false), Server(Subscribed(1)), Change(1), Change(1)];
    RunOfTwo(SUBSCRIBED_1, Change(1), Change(1));
    var m0 := Step(Step(SUBSCRIBED_1, Change(1)), Change(1));
    RunOfTwo(m0, Sent(1, true), Server(Reconfigured(1, 2)));
    TwoChanges();
    NothingPendingNothingResent(Run(m0, [Sent(1, true), Server(Reconfigured(1, 2))]), 2);
  }

  lemma TwoChanges()
    ensures var m0 := Step(Step(SUBSCRIBED_1, Change(1)), Change(1));
      var m1 := Step(Step(m0, Sent(1, true)), Server(Reconfigured(1, 2)));
      && m0.sessionAlive && m0.subs == map[1 := Sub(PUSHING, 5, 3)] && m0.pendingChanges == map[1 := 3]
      && m0.tutors == [SubscribeTutor(1, 4), ChangeTutor(1, 2), ChangeTutor(1, 3)]
      && |m1.tutors| > 2 && m1.tutors[2] == ChangeTutor(1, 3) && m1.pendingChanges == map[]
  {
    hide SendAll, OnSessionClose, DoRemove, DoAdd, OnTimeout, OnAbort, Succeeded;
    var m0 := Step(Step(SUBSCRIBED_1, Change(1)), Change(1));
    assert m0.tutors == [SubscribeTutor(1, 4), ChangeTutor(1, 2), ChangeTutor(1, 3)];
  }

  lemma NothingPendingNothingResent(m: Manager, i: nat)
    requires i < |m.tutors| && m.tutors[i].ChangeTutor? && m.pendingChanges == map[]
    ensures forall retry :: Step(m, Timeout(i, retry)) == m
  {
  }
}
