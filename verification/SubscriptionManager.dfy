/** Subscription and SubscriptionManager with their fields, each call proved to do what the state machine says. */
module SubscriptionManagement {
  import opened S = Subscriptions

  class Subscription {
    var tablePhaseType: PhaseType
    var tablePhase: nat
    var nextReconfId: nat
    var subscriptionId: nat

    ghost function View(): Sub
      reads this
    {
      Sub(tablePhaseType, tablePhase, nextReconfId)
    }

    constructor ()
      ensures View() == Sub(OFF, 0, 1)
    {
      tablePhaseType, tablePhase, nextReconfId, subscriptionId := OFF, 0, 1, 0;
    }

    predicate Is(what: PhaseType)
      reads this
    {
      tablePhaseType == what
    }

    predicate CheckPhase(phase: nat)
      reads this
    {
      phase == tablePhase
    }

    method SetPhase(what: PhaseType)
      modifies this`tablePhaseType, this`tablePhase
      ensures View() == S.SetPhase(old(View()), what)
    {
      tablePhaseType := what;
      tablePhase := tablePhase + 1;
    }

    method OnAdd(subId: nat)
      modifies this`tablePhaseType, this`tablePhase, this`subscriptionId
      ensures subscriptionId == subId && View() == S.SetPhase(old(View()), WAITING)
    {
      subscriptionId := subId;
      SetPhase(WAITING);
    }

    method OnStart()
      modifies this`tablePhaseType, this`tablePhase
      ensures View() == S.SetPhase(old(View()), WAITING)
    {
      SetPhase(WAITING);
    }

    method OnRemove()
      modifies this`tablePhaseType, this`tablePhase
      ensures View() == S.SetPhase(old(View()), OFF)
    {
      SetPhase(OFF);
    }

    method OnPause()
      modifies this`tablePhaseType, this`tablePhase
      ensures View() == S.SetPhase(old(View()), PAUSED)
    {
      SetPhase(PAUSED);
    }

    method OnSubscriptionSent()
      modifies this`tablePhaseType, this`tablePhase
      ensures View() == SubscriptionSent(old(View()))
    {
      if Is(SUBSCRIBING) {
        return;
      }
      SetPhase(SUBSCRIBING);
    }

    /** onSubscriptionAck and onSubscribed. */
    method OnSubscribed()
      modifies this`tablePhaseType, this`tablePhase
      ensures View() == S.SetPhase(old(View()), PUSHING)
    {
      SetPhase(PUSHING);
    }

    method OnSubscriptionError()
      modifies this`tablePhaseType, this`tablePhase
      ensures View() == S.SetPhase(old(View()), PAUSED)
    {
      SetPhase(PAUSED);
    }

    method GenerateFrequencyRequest() returns (reconfId: nat)
      modifies this`nextReconfId
      ensures reconfId == old(nextReconfId) + 1 && View() == old(View()).(nextReconfId := reconfId)
    {
      nextReconfId := nextReconfId + 1;
      reconfId := nextReconfId;
    }
  }

  /** sendAllSubscriptions, one subscription further. */
  lemma {:induction false} SendAllSnoc(m: Manager, order: seq<nat>, id: nat)
    requires id in m.subs && forall k :: k in order ==> k in m.subs
    ensures var m1 := SendAll(m, order);
      SendAll(m, order + [id]) == Subscribe(SetSub(m1, id, S.SetPhase(m1.subs[id], WAITING)), id)
    decreases |order|
  {
    if order == [] {
      assert [id][1..] == [];
    } else {
      var woken := Subscribe(SetSub(m, order[0], S.SetPhase(m.subs[order[0]], WAITING)), order[0]);
      SendAllSnoc(woken, order[1..], id);
      assert (order + [id])[1..] == order[1..] + [id];
    }
  }

  lemma EnumeratesOneMore(order: seq<nat>, keys: set<nat>, ids: set<nat>, id: nat)
    requires id in ids && ids <= keys && Enumerates(order, keys - ids)
    ensures Enumerates(order + [id], keys - (ids - {id}))
    ensures forall k :: k in order ==> k in keys
  {
  }

  /** A fresh subscription is paused right away. */
  lemma EnteredThenPaused(m: Manager, s: Sub)
    ensures var m' := Enter(m, s);
      m.nextId in m'.subs && m'.subs[m.nextId] == s && m'.sessionAlive == m.sessionAlive
    ensures SetSub(Enter(m, s), m.nextId, S.SetPhase(s, PAUSED)) == Enter(m, S.SetPhase(s, PAUSED))
  {
  }

  class SubscriptionManager {
    var subscriptions: map<nat, Subscription>
    var pendingDelete: set<nat>
    var pendingUnsubscribe: set<nat>
    var pendingSubscriptionChanges: map<nat, nat>
    var sessionAlive: bool
    var nextSubscriptionId: nat  // IdGenerator's counter
    var tutors: seq<Tutor>       // the tutors of the requests handed out
    ghost var sent: seq<Sending>

    /** Each registered object is filed once, under its own id. */
    ghost predicate Valid()
      reads this, subscriptions.Values
    {
      forall id :: id in subscriptions ==> subscriptions[id].subscriptionId == id
    }

    ghost function Table(): map<nat, Sub>
      reads this`subscriptions, subscriptions.Values
    {
      map id | id in subscriptions :: subscriptions[id].View()
    }

    ghost function View(): (m: Manager)
      reads this, subscriptions.Values
      ensures m.subs.Keys == subscriptions.Keys && m.sessionAlive == sessionAlive && m.nextId == nextSubscriptionId
    {
      Manager(Table(), nextSubscriptionId, pendingDelete, pendingUnsubscribe, pendingSubscriptionChanges,
              sessionAlive, tutors, sent)
    }

    ghost predicate Holds(subscription: Subscription)
      reads this, subscription
    {
      subscription.subscriptionId in subscriptions && subscriptions[subscription.subscriptionId] == subscription
    }

    constructor ()
      ensures Valid() && View() == Init()
    {
      subscriptions, pendingDelete, pendingUnsubscribe, pendingSubscriptionChanges := map[], {}, {}, map[];
      sessionAlive, nextSubscriptionId, tutors, sent := false, 1, [], [];
    }

    /** subscribe, and resubscribe with its timeout. */
    method Subscribe(subscription: Subscription)
      requires Valid() && Holds(subscription)
      modifies this`tutors, this`sent
      ensures Valid() && View() == S.Subscribe(old(View()), subscription.subscriptionId)
    {
      tutors := tutors + [SubscribeTutor(subscription.subscriptionId, subscription.tablePhase)];
      sent := sent + [AddSent(subscription.subscriptionId)];
    }

    method Reunsubscribe(subscriptionId: nat)
      requires Valid()
      modifies this`tutors, this`sent
      ensures Valid() && View() == S.Reunsubscribe(old(View()), subscriptionId)
    {
      tutors := tutors + [UnsubscribeTutor(subscriptionId)];
      sent := sent + [DeleteSent(subscriptionId)];
    }

    method Unsubscribe(subscriptionId: nat)
      requires Valid()
      modifies this`pendingDelete, this`pendingUnsubscribe, this`tutors, this`sent
      ensures Valid() && View() == S.Unsubscribe(old(View()), subscriptionId)
    {
      pendingDelete := pendingDelete + {subscriptionId};
      pendingUnsubscribe := pendingUnsubscribe - {subscriptionId};
      tutors := tutors + [UnsubscribeTutor(subscriptionId)];
      sent := sent + [DeleteSent(subscriptionId)];
    }

    /** changeFrequency with the reconfiguration id of an earlier request. */
    method ChangeFrequencyAgain(subscription: Subscription, reconfId: nat)
      requires Valid() && Holds(subscription)
      modifies this`pendingSubscriptionChanges, this`tutors, this`sent
      ensures Valid() && View() == SendChange(old(View()), subscription.subscriptionId, reconfId)
    {
      var id := subscription.subscriptionId;
      tutors := tutors + [ChangeTutor(id, reconfId)];
      pendingSubscriptionChanges := pendingSubscriptionChanges[id := reconfId];
      sent := sent + [ChangeSent(id, reconfId)];
    }

    method ChangeFrequency(subscription: Subscription)
      requires Valid() && Holds(subscription)
      modifies this`pendingSubscriptionChanges, this`tutors, this`sent, subscription
      ensures Valid() && View() == S.ChangeFrequency(old(View()), subscription.subscriptionId)
    {
      ghost var table, id := Table(), subscription.subscriptionId;
      var reconfId := subscription.GenerateFrequencyRequest();
      assert Table() == table[id := subscription.View()];
      ChangeFrequencyAgain(subscription, reconfId);
    }

    /** The subscription enters the table under the next id. */
    method Register(subscription: Subscription)
      requires Valid() && subscription !in subscriptions.Values
      modifies this`subscriptions, this`nextSubscriptionId, subscription
      ensures Valid() && Holds(subscription) && subscription.subscriptionId == old(nextSubscriptionId)
      ensures View() == Enter(old(View()), S.SetPhase(old(subscription.View()), WAITING))
    {
      ghost var table := Table();
      var subId := nextSubscriptionId;
      nextSubscriptionId := nextSubscriptionId + 1;
      subscriptions := subscriptions[subId := subscription];
      subscription.OnAdd(subId);
      assert Table() == table[subId := subscription.View()];
    }

    method Pause(subscription: Subscription)
      requires Valid() && Holds(subscription)
      modifies subscription
      ensures Valid()
      ensures var id := subscription.subscriptionId;
        && id == old(subscription.subscriptionId)
        && View() == SetSub(old(View()), id, S.SetPhase(old(View()).subs[id], PAUSED))
    {
      ghost var table := Table();
      subscription.OnPause();
      assert Table() == table[subscription.subscriptionId := subscription.View()];
    }

    method DoAdd(subscription: Subscription)
      requires Valid() && subscription !in subscriptions.Values
      modifies this, subscription
      ensures Valid() && View() == S.DoAdd(old(View()), old(subscription.tablePhase), old(subscription.nextReconfId))
    {
      hide View, Table, Valid, SetSub, Enter;
      EnteredThenPaused(View(), S.SetPhase(subscription.View(), WAITING));
      Register(subscription);
      if sessionAlive {
        Subscribe(subscription);
      } else {
        Pause(subscription);
      }
    }

    /** The subscription leaves the table and is off. */
    method Unregister(subscription: Subscription)
      requires Valid() && (Holds(subscription) || subscription !in subscriptions.Values)
      modifies this`subscriptions, subscription
      ensures Valid() && View() == old(View()).(subs := old(View()).subs - {old(subscription.subscriptionId)})
      ensures subscription.Is(OFF) && !Holds(subscription)
    {
      ghost var table := Table();
      var subId := subscription.subscriptionId;
      subscriptions := map id | id in subscriptions && id != subId :: subscriptions[id];
      assert forall id :: id in subscriptions ==> subscriptions[id] != subscription;
      subscription.OnRemove();
      assert Table() == table - {subId};
    }

    /** A subscription that is not registered is off already. */
    method DoRemove(subscription: Subscription)
      requires Valid()
      requires || Holds(subscription)
               || (&& subscription.subscriptionId !in subscriptions && subscription.Is(OFF)
                   && subscription !in subscriptions.Values)
      modifies this, subscription
      ensures Valid() && View() == S.DoRemove(old(View()), old(subscription.subscriptionId))
      ensures subscription.Is(OFF) && !Holds(subscription)
    {
      var subId := subscription.subscriptionId;
      assert subId !in View().subs ==> View().subs - {subId} == View().subs;
      if sessionAlive {
        if subscription.Is(SUBSCRIBING) {
          pendingUnsubscribe := pendingUnsubscribe + {subId};
        } else if subscription.Is(PUSHING) {
          Unsubscribe(subId);
        }
      }
      Unregister(subscription);
    }

    method PauseAllSubscriptions()
      requires Valid()
      modifies subscriptions.Values
      ensures Valid() && View() == PauseAll(old(View()))
    {
      var ids := subscriptions.Keys;
      ghost var table := Table();
      while ids != {}
        invariant ids <= subscriptions.Keys && Valid()
        invariant forall id :: id in subscriptions ==>
          subscriptions[id].View() == if id in ids then table[id] else S.SetPhase(table[id], PAUSED)
      {
        var id :| id in ids;
        ids := ids - {id};
        subscriptions[id].OnPause();
      }
      assert Table() == map id | id in table :: S.SetPhase(table[id], PAUSED);
    }

    method ClearAllPending()
      requires Valid()
      modifies this`pendingSubscriptionChanges, this`pendingDelete, this`pendingUnsubscribe
      ensures Valid()
      ensures View() == old(View()).(pendingChanges := map[], pendingDelete := {}, pendingUnsubscribe := {})
    {
      pendingSubscriptionChanges, pendingDelete, pendingUnsubscribe := map[], {}, {};
    }

    /** The body of sendAllSubscriptions' loop. */
    method WakeUp(id: nat)
      requires Valid() && id in subscriptions
      modifies this`tutors, this`sent, subscriptions[id]
      ensures Valid()
      ensures View() == S.Subscribe(SetSub(old(View()), id, S.SetPhase(old(View()).subs[id], WAITING)), id)
    {
      ghost var table := Table();
      var subscription := subscriptions[id];
      subscription.OnStart();
      assert Table() == table[id := subscription.View()];
      Subscribe(subscription);
    }

    /** sendAllSubscriptions; order is the iteration it happened to take. */
    method SendAllSubscriptions() returns (ghost order: seq<nat>)
      requires Valid()
      modifies this`tutors, this`sent, subscriptions.Values
      ensures Valid() && Enumerates(order, old(View()).subs.Keys)
      ensures View() == SendAll(old(View()), order)
    {
      assert SendAll(View(), []) == View() && Enumerates([], {});
      hide View, Enumerates, SendAll, S.Subscribe, SetSub, S.SetPhase;
      var ids := subscriptions.Keys;
      order := [];
      ghost var before := View();
      while ids != {}
        invariant ids <= subscriptions.Keys && Valid() && unchanged(this`subscriptions)
        invariant Enumerates(order, subscriptions.Keys - ids) && subscriptions.Keys == before.subs.Keys
        invariant View() == SendAll(before, order)
      {
        var id :| id in ids;
        EnumeratesOneMore(order, subscriptions.Keys, ids, id);
        SendAllSnoc(before, order, id);
        ids := ids - {id};
        WakeUp(id);
        order := order + [id];
      }
    }

    method OnSessionStart() returns (ghost order: seq<nat>)
      requires Valid()
      modifies this`sessionAlive, this`tutors, this`sent, subscriptions.Values
      ensures Valid() && View() == Step(old(View()), SessionStart(order))
      ensures Enumerates(order, old(View()).subs.Keys)
    {
      sessionAlive := true;
      order := SendAllSubscriptions();
    }

    method OnSessionClose()
      requires Valid()
      modifies this, subscriptions.Values
      ensures Valid() && View() == S.OnSessionClose(old(View()))
    {
      hide Table, PauseAll;
      sessionAlive := false;
      PauseAllSubscriptions();
      ClearAllPending();
    }

    method ExtractSubscriptionOrUnsubscribe(subscriptionId: nat) returns (subscription: Subscription?)
      requires Valid()
      modifies this`pendingDelete, this`pendingUnsubscribe, this`tutors, this`sent
      ensures Valid() && View() == Step(old(View()), Server(Data(subscriptionId)))
      ensures subscription == if subscriptionId in subscriptions then subscriptions[subscriptionId] else null
    {
      if subscriptionId in subscriptions {
        return subscriptions[subscriptionId];
      }
      if subscriptionId !in pendingDelete {
        Unsubscribe(subscriptionId);
      }
      subscription := null;
    }

    /** onSubscriptionAck, onSubscription and onSubscriptionError. */
    method OnAnswer(event: ServerEvent)
      requires Valid() && (event.SubscriptionAck? || event.Subscribed? || event.SubscriptionError?)
      modifies this, subscriptions.Values
      ensures Valid() && View() == OnServer(old(View()), event)
    {
      ghost var table := Table();
      var subscription := ExtractSubscriptionOrUnsubscribe(event.id);
      if subscription == null {
        return;
      }
      if event.SubscriptionError? {
        subscription.OnSubscriptionError();
      } else {
        subscription.OnSubscribed();
      }
      assert Table() == table[event.id := subscription.View()];
    }

    /** onUnsubscriptionAck and onUnsubscription. */
    method OnUnsubscription(subscriptionId: nat)
      requires Valid()
      modifies this`pendingDelete, this`pendingUnsubscribe, this`tutors, this`sent
      ensures Valid() && View() == S.OnUnsubscription(old(View()), subscriptionId)
    {
      pendingDelete := pendingDelete - {subscriptionId};
      if subscriptionId in pendingUnsubscribe {
        Unsubscribe(subscriptionId);
      }
    }

    /** The answer to a change, and the abort of its tutor. */
    method OnReconfigured(subscriptionId: nat, reconfId: nat)
      requires Valid()
      modifies this`pendingSubscriptionChanges
      ensures Valid() && View() == ClearChange(old(View()), subscriptionId, reconfId)
    {
      if subscriptionId !in pendingSubscriptionChanges {
        return;
      }
      var waitingId := pendingSubscriptionChanges[subscriptionId];
      if reconfId == waitingId {
        pendingSubscriptionChanges := pendingSubscriptionChanges - {subscriptionId};
      }
    }

    // ---- the tutors ----

    method DoRecovery(tutor: Tutor)
      requires Valid()
      modifies this`pendingSubscriptionChanges, this`tutors, this`sent
      ensures Valid() && View() == Recover(old(View()), tutor)
    {
      match tutor
      case SubscribeTutor(id, phase) =>
        if id in subscriptions && subscriptions[id].CheckPhase(phase) {
          Subscribe(subscriptions[id]);
        }
      case UnsubscribeTutor(id) =>
        Reunsubscribe(id);
      case ChangeTutor(id, reconfId) =>
        if id in subscriptions {
          ChangeFrequencyAgain(subscriptions[id], reconfId);
        }
    }

    method VerifySuccess(tutor: Tutor) returns (success: bool)
      requires Valid()
      ensures success <==> Succeeded(View(), tutor)
    {
      match tutor
      case SubscribeTutor(id, phase) =>
        success := id !in subscriptions || !subscriptions[id].CheckPhase(phase) || subscriptions[id].Is(PUSHING);
      case UnsubscribeTutor(id) =>
        success := id !in pendingDelete;
      case ChangeTutor(id, reconfId) =>
        success := id !in pendingSubscriptionChanges || reconfId < pendingSubscriptionChanges[id];
    }

    method NotifySender(i: nat, failed: bool)
      requires Valid() && i < |tutors|
      modifies this, subscriptions.Values
      ensures Valid() && View() == OnSent(old(View()), i, failed)
    {
      var tutor := tutors[i];
      if tutor.SubscribeTutor? && (tutor.id !in subscriptions || !subscriptions[tutor.id].CheckPhase(tutor.phase)) {
        return;
      }
      if failed {
        DoRecovery(tutor);
      } else if tutor.SubscribeTutor? {
        ghost var table := Table();
        var subscription := subscriptions[tutor.id];
        subscription.OnSubscriptionSent();
        assert Table() == table[tutor.id := subscription.View()];
        tutors := tutors[i := SubscribeTutor(tutor.id, subscription.tablePhase)];
      }
    }

    method OnTimeout(i: nat, retry: bool)
      requires Valid() && i < |tutors|
      modifies this`pendingSubscriptionChanges, this`tutors, this`sent
      ensures Valid() && View() == S.OnTimeout(old(View()), i, retry)
    {
      var success := VerifySuccess(tutors[i]);
      if !success && retry {
        DoRecovery(tutors[i]);
      }
    }

    method NotifyAbort(i: nat)
      requires Valid() && i < |tutors|
      modifies this`pendingDelete, this`pendingUnsubscribe, this`pendingSubscriptionChanges
      ensures Valid() && View() == OnAbort(old(View()), i)
    {
      match tutors[i]
      case SubscribeTutor(_, _) =>
      case UnsubscribeTutor(id) =>
        pendingDelete, pendingUnsubscribe := pendingDelete - {id}, pendingUnsubscribe - {id};
      case ChangeTutor(id, reconfId) =>
        OnReconfigured(id, reconfId);
    }
  }
}
