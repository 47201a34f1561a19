/**
 The life of the retransmission tutors of SubscriptionManager: whether what waits for the server still has a
 tutor whose request is queued or whose timer runs.
 */
module SubscriptionTutors {
  import opened Subscriptions
  import opened SubscriptionRuns
  import B = BatchQueue

  // ---- the control queue ----

  /** The requests of tutors in the control queue, by the number of the tutor, and the tutors whose request was
      replaced there before it was sent. */
  datatype Queue = Queue(batch: B.Batch, replaced: set<nat>)

  function KindOf(t: Tutor): B.Kind {
    match t
    case SubscribeTutor(id, _) => B.Subscribe(id)
    case UnsubscribeTutor(id) => B.Unsubscribe(id)
    case ChangeTutor(id, _) => B.ChangeSubscription(id)
  }

  /** The request of the i-th tutor; its lengths play no part. */
  function RequestOf(i: nat, t: Tutor): B.Request { B.Request(i, KindOf(t), 1, 1) }

  function Enqueue(q: Queue, i: nat, t: Tutor): Queue {
    var r := RequestOf(i, t);
    var out := B.Replaced(q.batch, r);
    Queue(B.Added(q.batch, r), if out.Some? then q.replaced + {out.value.id} else q.replaced)
  }

  /** The requests of the tutors from the i-th on are sent, in the order in which the tutors were made. */
  function EnqueueFrom(q: Queue, tutors: seq<Tutor>, i: nat): Queue
    decreases |tutors| - i
  {
    if i >= |tutors| then q else EnqueueFrom(Enqueue(q, i, tutors[i]), tutors, i + 1)
  }

  /** The k-th request of the queue leaves it. */
  function Taken(q: Queue, k: nat): Queue {
    var es := q.batch.entries;
    if k < |es| then q.(batch := q.batch.(entries := es[..k] + es[k + 1..])) else q
  }

  ghost predicate EntryOk(e: B.Entry, tutors: seq<Tutor>, n: nat)
    requires n <= |tutors|
  {
    && e.request.id < n && e.request.kind == KindOf(tutors[e.request.id])
    && e.key == B.KeyOf(e.request.kind, 0)
  }

  /** The queue holds requests of the first n tutors, each under its key. */
  ghost predicate QueueOk(q: Queue, tutors: seq<Tutor>, n: nat)
    requires n <= |tutors|
  {
    && B.ValidBatch(q.batch) && q.batch.batchType == B.CONTROL
    && (forall k :: 0 <= k < |q.batch.entries| ==> EntryOk(q.batch.entries[k], tutors, n))
    && (forall i :: i in q.replaced ==> i < n)
  }

  /** An addition replaces at most one request, of an earlier tutor for the same slot. */
  lemma EnqueueReplaces(q: Queue, tutors: seq<Tutor>, n: nat)
    requires n < |tutors| && QueueOk(q, tutors, n)
    ensures var q' := Enqueue(q, n, tutors[n]);
      && QueueOk(q', tutors, n + 1)
      && forall i :: i in q'.replaced && i !in q.replaced ==>
           i < n && B.SameSlot(KindOf(tutors[i]), KindOf(tutors[n]))
  {
    hide B.KeyOf, B.SameSlot;
    var q', r := Enqueue(q, n, tutors[n]), RequestOf(n, tutors[n]);
    var key, es := B.KeyOf(r.kind, q.batch.nextKey), q.batch.entries;
    AnyNumber(tutors[n], q.batch.nextKey);
    B.AddedIsValid(q.batch, r);
    B.PutKeepsOrder(es, key, r);
    var i := B.IndexOf(es, key);
    if i < |es| {
      assert EntryOk(es[i], tutors, n);
      B.KeySharedIff(es[i].request.kind, r.kind, 0, 0);
    }
    forall k | 0 <= k < |q'.batch.entries| ensures EntryOk(q'.batch.entries[k], tutors, n + 1) {
      if k < |es| { assert EntryOk(es[k], tutors, n); }
    }
  }

  /** A queued request for the slot of a new one does give way to it, and its tutor is known to be replaced. */
  lemma SameSlotGivesWay(q: Queue, tutors: seq<Tutor>, n: nat, k: nat)
    requires n < |tutors| && QueueOk(q, tutors, n) && k < |q.batch.entries|
    requires B.SameSlot(q.batch.entries[k].request.kind, KindOf(tutors[n]))
    ensures var q' := Enqueue(q, n, tutors[n]);
      && q.batch.entries[k].request.id in q'.replaced
      && |q'.batch.entries| == |q.batch.entries| && q'.batch.entries[k].request == RequestOf(n, tutors[n])
  {
    var es, r := q.batch.entries, RequestOf(n, tutors[n]);
    assert EntryOk(es[k], tutors, n);
    AnyNumber(tutors[n], q.batch.nextKey);
    B.KeySharedIff(es[k].request.kind, r.kind, 0, 0);
    hide B.KeyOf, B.SameSlot, KindOf;
    var key := B.KeyOf(r.kind, q.batch.nextKey);
    assert es[k].key == key;
    assert B.IndexOf(es, key) == k;
  }

  /** No tutor's key depends on the counter of the batch. */
  lemma AnyNumber(t: Tutor, n: nat)
    ensures B.TypeOf(KindOf(t)) == B.CONTROL && B.KeyOf(KindOf(t), n) == B.KeyOf(KindOf(t), 0)
  {
  }

  /** Of the requests sent in turn, each replaces only earlier ones for its slot. */
  lemma {:induction false} EnqueueFromReplaces(q: Queue, tutors: seq<Tutor>, n: nat)
    requires n <= |tutors| && QueueOk(q, tutors, n)
    ensures var q' := EnqueueFrom(q, tutors, n);
      && QueueOk(q', tutors, |tutors|)
      && forall i :: i in q'.replaced && i !in q.replaced ==>
           exists j :: n <= j < |tutors| && i < j && B.SameSlot(KindOf(tutors[i]), KindOf(tutors[j]))
    decreases |tutors| - n
  {
    hide QueueOk, Enqueue, B.SameSlot, KindOf;
    if n < |tutors| {
      EnqueueReplaces(q, tutors, n);
      EnqueueFromReplaces(Enqueue(q, n, tutors[n]), tutors, n + 1);
    }
  }

  lemma TakenKeepsQueue(q: Queue, tutors: seq<Tutor>, k: nat)
    requires QueueOk(q, tutors, |tutors|)
    ensures QueueOk(Taken(q, k), tutors, |tutors|)
  {
  }

  // ---- the tutors ----

  /** ended: the tutors that will not be called again; mark: how many there were when the session started. */
  datatype Watch = Watch(m: Manager, ended: set<nat>, mark: nat, queue: Queue)

  /** The callback leaves the tutor without a request in a queue and without a running timer. A tutor whose
      timeout finds the server session closed stops; one that recovers leaves its place to a new one. */
  ghost predicate Ends(m: Manager, e: Event, closed: bool)
    requires (e.Sent? || e.Timeout? || e.Abort?) && e.tutor < |m.tutors|
  {
    var t := m.tutors[e.tutor];
    match e
    case Sent(_, failed) => failed || (t.SubscribeTutor? && !InPhase(m, t))
    case Timeout(_, retry) => closed || retry || Succeeded(m, t)
    case _ => true
  }

  ghost function WatchStep(w: Watch, e: Event, closed: bool): Watch {
    var ended :=
      if !(e.Sent? || e.Timeout? || e.Abort?) || e.tutor >= |w.m.tutors| then w.ended
      else if Ends(w.m, e, closed) then w.ended + {e.tutor} else w.ended - {e.tutor};
    var m' := Step(w.m, e);
    Watch(m', ended, if e.SessionStart? then |w.m.tutors| else w.mark, EnqueueFrom(w.queue, m'.tutors, |w.m.tutors|))
  }

  ghost predicate Held(w: Watch, i: nat, t: Tutor) {
    w.mark <= i < |w.m.tutors| && i !in w.ended && i !in w.queue.replaced && w.m.tutors[i] == t
  }

  ghost predicate HasLive(w: Watch, t: Tutor) { exists i :: Held(w, i, t) }

  /**
   What the surroundings guarantee. The server speaks only during a session and of ids it was told of;
   sessions do not overlap; callbacks come to tutors that exist; a tutor finds its server session closed only
   when that is over; a request that was replaced in the queue is not sent; a subscribe request is aborted only
   if it was replaced there or its tutor no longer wants it to be sent.
   */
  ghost predicate Sound(w: Watch, e: Event, closed: bool) {
    && NamesIssuedId(w.m, e)
    && (e.Server? ==> w.m.sessionAlive)
    && (e.SessionStart? ==> !w.m.sessionAlive && Enumerates(e.order, w.m.subs.Keys))
    && (e.Sent? || e.Timeout? || e.Abort? ==> e.tutor < |w.m.tutors|)
    && (closed ==> e.Timeout? && !e.retry
                   && (!w.m.sessionAlive || e.tutor < w.mark || w.m.tutors[e.tutor].ChangeTutor?))
    && (e.Sent? ==> e.tutor !in w.queue.replaced)
    && (e.Abort? && w.m.tutors[e.tutor].SubscribeTutor? && InPhase(w.m, w.m.tutors[e.tutor]) ==>
          e.tutor in w.queue.replaced)
  }

  /** Every subscription and every delete that waits for the server has a live tutor of this session. */
  ghost predicate Attended(w: Watch) {
    && w.mark <= |w.m.tutors| && (forall i :: i in w.ended ==> i < |w.m.tutors|)
    && QueueOk(w.queue, w.m.tutors, |w.m.tutors|)
    && (!w.m.sessionAlive ==> OnHold(w.m))
    && (forall i :: 0 <= i < w.mark && w.m.tutors[i].SubscribeTutor? ==> !InPhase(w.m, w.m.tutors[i]))
    && (forall id :: id in w.m.subs && w.m.subs[id].phaseType in {WAITING, SUBSCRIBING} ==>
          HasLive(w, SubscribeTutor(id, w.m.subs[id].phase)))
    && (forall id :: id in w.m.pendingDelete ==> HasLive(w, UnsubscribeTutor(id)))
  }

  /** A call or callback, or a request of the queue that leaves in a batch. */
  datatype Move = Call(event: Event, closed: bool) | Leave(k: nat)

  ghost function WatchMove(w: Watch, move: Move): Watch {
    match move
    case Call(e, closed) => WatchStep(w, e, closed)
    case Leave(k) => w.(queue := Taken(w.queue, k))
  }

  ghost function WatchRun(w: Watch, moves: seq<Move>): Watch
    decreases |moves|
  {
    if moves == [] then w else WatchRun(WatchMove(w, moves[0]), moves[1..])
  }

  ghost predicate AllSound(w: Watch, moves: seq<Move>)
    decreases |moves|
  {
    moves == []
    || ((moves[0].Call? ==> Sound(w, moves[0].event, moves[0].closed)) && AllSound(WatchMove(w, moves[0]), moves[1..]))
  }

  // ---- every step keeps it ----

  lemma MarkStays(w: Watch, e: Event, closed: bool)
    requires Inv(w.m) && Attended(w) && Sound(w, e, closed) && !e.SessionStart?
    ensures var w' := WatchStep(w, e, closed);
      && w'.mark <= |w'.m.tutors| && (forall i :: i in w'.ended ==> i < |w'.m.tutors|)
      && QueueOk(w'.queue, w'.m.tutors, |w'.m.tutors|)
      && forall i :: 0 <= i < w'.mark && w'.m.tutors[i].SubscribeTutor? ==> !InPhase(w'.m, w'.m.tutors[i])
  {
    hide Inv, Step, HasLive, OnHold, QueueOk, EnqueueFrom;
    TutorsGrow(w.m, e);
    QueueStep(w, e, closed);
    forall i: nat | i < w.mark && Step(w.m, e).tutors[i].SubscribeTutor?
      ensures !InPhase(Step(w.m, e), Step(w.m, e).tutors[i])
    {
      assert Overtaken(w.m, i);
      OvertakenStep(w.m, e, i);
    }
  }

  /** No tutor goes away or becomes one of another kind. */
  lemma TutorsGrow(m: Manager, e: Event)
    ensures |m.tutors| <= |Step(m, e).tutors|
    ensures forall i :: 0 <= i < |m.tutors| ==>
      var t, t' := m.tutors[i], Step(m, e).tutors[i];
      t' == t || (t.SubscribeTutor? && t'.SubscribeTutor? && t'.id == t.id)
    ensures !e.Sent? ==> m.tutors <= Step(m, e).tutors
  {
    if e.SessionStart? && Enumerates(e.order, m.subs.Keys) { SendAllAppends(m.(sessionAlive := true), e.order); }
  }

  lemma QueueStep(w: Watch, e: Event, closed: bool)
    requires QueueOk(w.queue, w.m.tutors, |w.m.tutors|)
    ensures var w' := WatchStep(w, e, closed);
      && |w.m.tutors| <= |w'.m.tutors| && QueueOk(w'.queue, w'.m.tutors, |w'.m.tutors|)
  {
    hide Step, Ends, EnqueueFrom, QueueOk;
    TutorsGrow(w.m, e);
    KindsStay(w, e);
    EnqueueFromReplaces(w.queue, Step(w.m, e).tutors, |w.m.tutors|);
  }

  lemma KindsStay(w: Watch, e: Event)
    requires QueueOk(w.queue, w.m.tutors, |w.m.tutors|)
    ensures |w.m.tutors| <= |Step(w.m, e).tutors| && QueueOk(w.queue, Step(w.m, e).tutors, |w.m.tutors|)
  {
    hide Step, B.KeyOf, B.ValidBatch;
    TutorsGrow(w.m, e);
    var ts, n := Step(w.m, e).tutors, |w.m.tutors|;
    forall k | 0 <= k < |w.queue.batch.entries| ensures EntryOk(w.queue.batch.entries[k], ts, n) {
      assert EntryOk(w.queue.batch.entries[k], w.m.tutors, n);
    }
  }

  lemma ReplacedIsOld(q: Queue, tutors: seq<Tutor>, n: nat, i: nat)
    requires n <= |tutors| && QueueOk(q, tutors, n) && i >= n
    ensures i !in q.replaced
  {
  }

  /** A request that a step replaces gives way to that of a new and later tutor for its slot. */
  lemma Replacer(w: Watch, e: Event, closed: bool, i: nat) returns (j: nat)
    requires QueueOk(w.queue, w.m.tutors, |w.m.tutors|)
    requires i in WatchStep(w, e, closed).queue.replaced && i !in w.queue.replaced
    ensures var tutors := Step(w.m, e).tutors;
      |w.m.tutors| <= j < |tutors| && i < j && B.SameSlot(KindOf(tutors[i]), KindOf(tutors[j]))
  {
    hide Step, Ends, EnqueueFrom, QueueOk, B.SameSlot;
    KindsStay(w, e);
    var ts, n := Step(w.m, e).tutors, |w.m.tutors|;
    EnqueueFromReplaces(w.queue, ts, n);
    j :| n <= j < |ts| && i < j && B.SameSlot(KindOf(ts[i]), KindOf(ts[j]));
  }

  /** What waits for the server: a subscription in its phase, or a delete. */
  ghost predicate Wanted(m: Manager, t: Tutor) {
    match t
    case SubscribeTutor(id, phase) => id in m.subs && m.subs[id].phase == phase
    case UnsubscribeTutor(id) => id in m.pendingDelete
    case _ => false
  }

  predicate SameId(t: Tutor, u: Tutor) { !t.ChangeTutor? && !u.ChangeTutor? && t.id == u.id }

  lemma SameSlotIff(t: Tutor, u: Tutor)
    requires !t.ChangeTutor?
    ensures B.SameSlot(KindOf(t), KindOf(u)) <==> SameId(t, u)
  {
  }

  /** A step makes one new tutor at most, the one that is wanted in its slot. */
  lemma NewTutor(m: Manager, e: Event, j: nat, t: Tutor)
    requires Inv(m) && Inv(Step(m, e)) && !e.SessionStart?
    requires |m.tutors| <= j < |Step(m, e).tutors| && Wanted(Step(m, e), t) && SameId(t, Step(m, e).tutors[j])
    ensures Step(m, e).tutors == m.tutors + [t]
  {
    hide Tended, NoneOff;
    var m' := Step(m, e);
    OneNewTutor(m, e);
    assert TutorOk(m', m'.tutors[j]);
  }

  lemma OneNewTutor(m: Manager, e: Event)
    requires !e.SessionStart?
    ensures var m' := Step(m, e);
      |m'.tutors| > |m.tutors| ==>
        && m'.tutors == m.tutors + [m'.tutors[|m.tutors|]]
        && (m'.tutors[|m.tutors|].SubscribeTutor? ==> Wanted(m', m'.tutors[|m.tutors|]))
  {
    hide SendAll;
  }

  /** No new tutor is for what is wanted, and no request for it is replaced. */
  ghost predicate Undisturbed(w: Watch, w': Watch, t: Tutor) {
    && (forall j :: |w.m.tutors| <= j < |w'.m.tutors| ==> !SameId(t, w'.m.tutors[j]))
    && (forall i :: 0 <= i < |w.m.tutors| <= |w'.m.tutors| && SameId(t, w'.m.tutors[i]) && i !in w.queue.replaced ==>
          i !in w'.queue.replaced)
  }

  /** What is wanted gets a new tutor in a step, or its tutors keep their places in the queue. */
  lemma SlotIsServed(w: Watch, e: Event, closed: bool, t: Tutor)
    requires Inv(w.m) && Attended(w) && Sound(w, e, closed) && !e.SessionStart? && Wanted(Step(w.m, e), t)
    ensures HasLive(WatchStep(w, e, closed), t) || Undisturbed(w, WatchStep(w, e, closed), t)
  {
    StepKeepsInv(w.m, e);
    hide Inv, HasLive, Step, Wanted, QueueOk, Ends, EnqueueFrom, B.SameSlot, SameId;
    QueueStep(w, e, closed);
    var w', n := WatchStep(w, e, closed), |w.m.tutors|;
    if j: nat :| n <= j < |w'.m.tutors| && SameId(t, w'.m.tutors[j]) {
      NewTutor(w.m, e, j, t);
      if n in w'.queue.replaced {
        ReplacedIsOld(w.queue, w.m.tutors, n, n);
        var l := Replacer(w, e, closed, n);
      }
      assert Held(w', n, t);
    } else {
      forall i | 0 <= i < n && SameId(t, w'.m.tutors[i]) && i !in w.queue.replaced ensures i !in w'.queue.replaced {
        if i in w'.queue.replaced {
          var j := Replacer(w, e, closed, i);
          SameIdIsShared(t, w'.m.tutors[i], w'.m.tutors[j]);
          assert false;
        }
      }
    }
  }

  lemma SameIdIsShared(t: Tutor, u: Tutor, v: Tutor)
    requires SameId(t, u) && B.SameSlot(KindOf(u), KindOf(v))
    ensures SameId(t, v)
  {
  }

  /** A new tutor for what is wanted is held. */
  lemma NewIsHeld(w: Watch, e: Event, closed: bool, t: Tutor)
    requires Inv(w.m) && Attended(w) && Sound(w, e, closed) && !e.SessionStart? && Wanted(Step(w.m, e), t)
    requires Step(w.m, e).tutors == w.m.tutors + [t]
    ensures HasLive(WatchStep(w, e, closed), t)
  {
    hide Inv, Attended, Sound, Step, HasLive, Wanted, Ends, EnqueueFrom;
    SlotIsServed(w, e, closed, t);
    assert WatchStep(w, e, closed).m.tutors[|w.m.tutors|] == t;
    WantedIsNoChange(Step(w.m, e), t);
  }

  lemma WantedIsNoChange(m: Manager, t: Tutor)
    requires Wanted(m, t)
    ensures SameId(t, t)
  {
  }

  /** What is still wanted has a held tutor if its held tutors stay as they are and do not end. */
  lemma StaysHeld(w: Watch, e: Event, closed: bool, t: Tutor)
    requires Inv(w.m) && Attended(w) && Sound(w, e, closed) && !e.SessionStart? && Wanted(Step(w.m, e), t)
    requires HasLive(w, t) && |w.m.tutors| <= |Step(w.m, e).tutors|
    requires forall i: nat :: Held(w, i, t) ==> i !in WatchStep(w, e, closed).ended && Step(w.m, e).tutors[i] == t
    ensures HasLive(WatchStep(w, e, closed), t)
  {
    hide Inv, Attended, Sound, Step, Wanted, Ends, EnqueueFrom, SameId;
    SlotIsServed(w, e, closed, t);
    WantedIsNoChange(Step(w.m, e), t);
    var i: nat :| Held(w, i, t);
    assert HasLive(WatchStep(w, e, closed), t) || Held(WatchStep(w, e, closed), i, t);
  }

  /** Another tutor's callback leaves a held tutor held. */
  lemma OthersStayHeld(w: Watch, e: Event, closed: bool, t: Tutor)
    requires Inv(w.m) && Attended(w) && Sound(w, e, closed) && Wanted(Step(w.m, e), t)
    requires HasLive(w, t) && (e.Sent? || e.Timeout? || e.Abort?) && w.m.tutors[e.tutor] != t
    ensures HasLive(WatchStep(w, e, closed), t)
  {
    hide Inv, Attended, HasLive, Wanted, Ends, Succeeded, EnqueueFrom;
    StaysHeld(w, e, closed, t);
  }

  /** The callback of the very tutor that attends a waiting subscription. */
  lemma OwnCallback(w: Watch, e: Event, closed: bool, id: nat)
    requires Inv(w.m) && Attended(w) && Sound(w, e, closed) && w.m.sessionAlive && (e.Sent? || e.Timeout? || e.Abort?)
    requires id in w.m.subs && w.m.subs[id].phaseType in {WAITING, SUBSCRIBING}
    requires w.m.tutors[e.tutor] == SubscribeTutor(id, w.m.subs[id].phase)
    ensures var w' := WatchStep(w, e, closed);
      id in w'.m.subs && HasLive(w', SubscribeTutor(id, w'.m.subs[id].phase))
  {
    hide Inv, HasLive, EnqueueFrom, QueueOk;
    var w', t := WatchStep(w, e, closed), w.m.tutors[e.tutor];
    assert InPhase(w.m, t) && e.tutor >= w.mark;
    match e {
      case Sent(i, failed) =>
        if failed { NewIsHeld(w, e, closed, t); } else { OwnSending(w, i, closed); }
      case Timeout(i, retry) =>
        if retry { NewIsHeld(w, e, closed, t); } else { StaysHeld(w, e, closed, t); }
      case Abort(i) => StaysHeld(w, e, closed, t);
    }
  }

  /** The request has left: tutor and subscription enter the next phase together. */
  lemma OwnSending(w: Watch, i: nat, closed: bool)
    requires Inv(w.m) && Attended(w) && Sound(w, Sent(i, false), closed) && i >= w.mark
    requires w.m.tutors[i].SubscribeTutor? && InPhase(w.m, w.m.tutors[i])
    ensures HasLive(WatchStep(w, Sent(i, false), closed), Step(w.m, Sent(i, false)).tutors[i])
  {
    hide Inv, HasLive, EnqueueFrom, QueueOk;
    var w' := WatchStep(w, Sent(i, false), closed);
    SlotIsServed(w, Sent(i, false), closed, w'.m.tutors[i]);
    if !HasLive(w', w'.m.tutors[i]) { HeldAt(w', i); }
  }

  lemma HeldAt(w: Watch, i: nat)
    requires w.mark <= i < |w.m.tutors| && i !in w.ended && i !in w.queue.replaced
    ensures HasLive(w, w.m.tutors[i])
  {
    assert Held(w, i, w.m.tutors[i]);
  }

  lemma CallbackAttends(w: Watch, e: Event, closed: bool, id: nat)
    requires Inv(w.m) && Attended(w) && Sound(w, e, closed) && w.m.sessionAlive && (e.Sent? || e.Timeout? || e.Abort?)
    requires var m' := Step(w.m, e); id in m'.subs && m'.subs[id].phaseType in {WAITING, SUBSCRIBING}
    ensures HasLive(WatchStep(w, e, closed), SubscribeTutor(id, Step(w.m, e).subs[id].phase))
  {
    hide Inv, HasLive, WatchStep;
    LateCallbackIsHarmless(w.m, e);
    var t := SubscribeTutor(id, w.m.subs[id].phase);
    if w.m.tutors[e.tutor] == t {
      OwnCallback(w, e, closed, id);
      assert WatchStep(w, e, closed).m == Step(w.m, e) by { StepOf(w, e, closed); }
    } else {
      OthersStayHeld(w, e, closed, t);
    }
  }

  lemma StepOf(w: Watch, e: Event, closed: bool)
    ensures WatchStep(w, e, closed).m == Step(w.m, e)
  {
  }

  /** A call or a server event that leaves a subscription waiting has not touched it, or has added it. */
  lemma CallKeepsPhase(m: Manager, e: Event, id: nat)
    requires !e.Sent? && !e.Timeout? && !e.Abort? && !e.SessionStart?
    requires id in Step(m, e).subs && Step(m, e).subs[id].phaseType in {WAITING, SUBSCRIBING}
    ensures if id in m.subs && id != m.nextId then m.subs[id].phase == Step(m, e).subs[id].phase
                                                  && m.subs[id].phaseType == Step(m, e).subs[id].phaseType
            else id in m.subs || Step(m, e).tutors == m.tutors + [SubscribeTutor(id, Step(m, e).subs[id].phase)]
  {
    hide SendAll, OnSent, OnTimeout, OnAbort;
  }

  lemma IdsAreIssued(m: Manager)
    requires Inv(m)
    ensures m.nextId !in m.subs
  {
  }

  lemma CallAttends(w: Watch, e: Event, closed: bool, id: nat)
    requires Inv(w.m) && Attended(w) && Sound(w, e, closed) && w.m.sessionAlive
    requires !e.Sent? && !e.Timeout? && !e.Abort? && !e.SessionStart?
    requires var m' := Step(w.m, e); id in m'.subs && m'.subs[id].phaseType in {WAITING, SUBSCRIBING}
    ensures HasLive(WatchStep(w, e, closed), SubscribeTutor(id, Step(w.m, e).subs[id].phase))
  {
    hide Inv, Step, HasLive, EnqueueFrom, QueueOk;
    var t := SubscribeTutor(id, Step(w.m, e).subs[id].phase);
    IdsAreIssued(w.m);
    CallKeepsPhase(w.m, e, id);
    if id in w.m.subs {
      TutorsGrow(w.m, e);
      StaysHeld(w, e, closed, t);
    } else {
      NewIsHeld(w, e, closed, t);
    }
  }

  lemma DeleteCallbackAttends(w: Watch, e: Event, closed: bool, id: nat)
    requires Inv(w.m) && Attended(w) && Sound(w, e, closed) && w.m.sessionAlive && (e.Sent? || e.Timeout? || e.Abort?)
    requires id in Step(w.m, e).pendingDelete
    ensures HasLive(WatchStep(w, e, closed), UnsubscribeTutor(id))
  {
    hide Inv, HasLive, EnqueueFrom, QueueOk;
    var t := UnsubscribeTutor(id);
    assert id in w.m.pendingDelete;
    if w.m.tutors[e.tutor] != t {
      OthersStayHeld(w, e, closed, t);
    } else if (e.Sent? && e.failed) || (e.Timeout? && e.retry) {
      NewIsHeld(w, e, closed, t);
    } else {
      StaysHeld(w, e, closed, t);
    }
  }

  lemma DeleteCallAttends(w: Watch, e: Event, closed: bool, id: nat)
    requires Inv(w.m) && Attended(w) && Sound(w, e, closed) && w.m.sessionAlive
    requires !e.Sent? && !e.Timeout? && !e.Abort? && !e.SessionStart? && id in Step(w.m, e).pendingDelete
    ensures HasLive(WatchStep(w, e, closed), UnsubscribeTutor(id))
  {
    hide Inv, HasLive, EnqueueFrom, QueueOk;
    if id in w.m.pendingDelete {
      TutorsGrow(w.m, e);
      StaysHeld(w, e, closed, UnsubscribeTutor(id));
    } else {
      NewIsHeld(w, e, closed, UnsubscribeTutor(id));
    }
  }

  /** The k-th of the tutors made by a start. */
  lemma {:induction false} SendAllTutors(m: Manager, order: seq<nat>, k: nat)
    requires (forall id :: id in order ==> id in m.subs) && k < |order|
    requires forall i, j :: 0 <= i < j < |order| ==> order[i] != order[j]
    ensures var m' := SendAll(m, order);
      && |m'.tutors| == |m.tutors| + |order|
      && m'.tutors[|m.tutors| + k] == SubscribeTutor(order[k], m'.subs[order[k]].phase)
    decreases |order|
  {
    hide SetPhase;
    var woken := Subscribe(SetSub(m, order[0], SetPhase(m.subs[order[0]], WAITING)), order[0]);
    SendAllWakes(m, order, order[0]);
    SendAllWakes(woken, order[1..], order[0]);
    SendAllAppends(woken, order[1..]);
    if k > 0 {
      SendAllTutors(woken, order[1..], k - 1);
    } else if |order| > 1 {
      SendAllTutors(woken, order[1..], 0);
    }
  }

  lemma StartSendsAll(w: Watch, order: seq<nat>)
    requires Enumerates(order, w.m.subs.Keys)
    ensures var w' := WatchStep(w, SessionStart(order), false);
      && w'.m == Step(w.m, SessionStart(order)) == SendAll(w.m.(sessionAlive := true), order)
      && w'.mark == |w.m.tutors| && w'.ended == w.ended
  {
    hide SendAll, EnqueueFrom;
  }

  /** The k-th of the tutors made by a start, in the state after it. */
  lemma StartTutor(m: Manager, order: seq<nat>, k: nat)
    requires Enumerates(order, m.subs.Keys) && k < |order|
    ensures var m' := Step(m, SessionStart(order));
      && |m'.tutors| == |m.tutors| + |order| && order[k] in m'.subs
      && m'.tutors[|m.tutors| + k] == SubscribeTutor(order[k], m'.subs[order[k]].phase)
  {
    hide SendAll;
    SendAllTutors(m.(sessionAlive := true), order, k);
  }

  lemma StartSlotsDiffer(m: Manager, order: seq<nat>, k: nat, l: nat)
    requires Enumerates(order, m.subs.Keys) && k < l < |order|
    ensures var tutors, n := Step(m, SessionStart(order)).tutors, |m.tutors|;
      |tutors| == n + |order| && !B.SameSlot(KindOf(tutors[n + k]), KindOf(tutors[n + l]))
  {
    StartTutor(m, order, k);
    StartTutor(m, order, l);
    hide Step;
  }

  /** No request of a start replaces another one of it. */
  lemma StartReplacesNone(w: Watch, order: seq<nat>, k: nat)
    requires QueueOk(w.queue, w.m.tutors, |w.m.tutors|) && Enumerates(order, w.m.subs.Keys) && k < |order|
    ensures |w.m.tutors| + k !in WatchStep(w, SessionStart(order), false).queue.replaced
  {
    ReplacedIsOld(w.queue, w.m.tutors, |w.m.tutors|, |w.m.tutors| + k);
    hide QueueOk, WatchStep, Step, Enumerates, B.SameSlot, KindOf;
    StartTutor(w.m, order, k);
    if |w.m.tutors| + k in WatchStep(w, SessionStart(order), false).queue.replaced {
      var j := Replacer(w, SessionStart(order), false, |w.m.tutors| + k);
      StartSlotsDiffer(w.m, order, k, j - |w.m.tutors|);
    }
  }

  lemma StartedIsHeld(w: Watch, order: seq<nat>, k: nat)
    requires Enumerates(order, w.m.subs.Keys) && k < |order|
    requires QueueOk(w.queue, w.m.tutors, |w.m.tutors|) && forall i :: i in w.ended ==> i < |w.m.tutors|
    ensures var w' := WatchStep(w, SessionStart(order), false);
      order[k] in w'.m.subs && HasLive(w', SubscribeTutor(order[k], w'.m.subs[order[k]].phase))
  {
    hide HasLive, QueueOk, WatchStep, Step, SendAll, Enumerates;
    StartSendsAll(w, order);
    StartTutor(w.m, order, k);
    StartReplacesNone(w, order, k);
    HeldAt(WatchStep(w, SessionStart(order), false), |w.m.tutors| + k);
  }

  lemma StartAttends(w: Watch, order: seq<nat>)
    requires Inv(w.m) && Attended(w) && Sound(w, SessionStart(order), false)
    ensures Attended(WatchStep(w, SessionStart(order), false))
  {
    hide Inv, HasLive, EnqueueFrom, QueueOk;
    var w', alive := WatchStep(w, SessionStart(order), false), w.m.(sessionAlive := true);
    QueueStep(w, SessionStart(order), false);
    SendAllFacts(alive, order);
    SendAllAppends(alive, order);
    forall i: nat | i < w'.mark && w'.m.tutors[i].SubscribeTutor? ensures !InPhase(w'.m, w'.m.tutors[i]) {
      OldTutorIsPast(w.m, i);
    }
    forall id | id in w'.m.subs ensures HasLive(w', SubscribeTutor(id, w'.m.subs[id].phase)) {
      assert id in order;
      var k :| 0 <= k < |order| && order[k] == id;
      StartedIsHeld(w, order, k);
    }
  }

  lemma OldTutorIsPast(m: Manager, i: nat)
    requires Inv(m) && i < |m.tutors| && m.tutors[i].SubscribeTutor?
    ensures m.tutors[i].id in m.subs ==> m.tutors[i].phase <= m.subs[m.tutors[i].id].phase
  {
    assert TutorOk(m, m.tutors[i]);
  }

  lemma AliveStepAttends(w: Watch, e: Event, closed: bool)
    requires Inv(w.m) && Attended(w) && Sound(w, e, closed) && w.m.sessionAlive
    ensures Attended(WatchStep(w, e, closed))
  {
    hide Inv, HasLive, Step, Ends, OnHold, QueueOk, EnqueueFrom;
    var w' := WatchStep(w, e, closed);
    MarkStays(w, e, closed);
    AliveOrHeld(w.m, e);
    forall id | id in w'.m.subs && w'.m.subs[id].phaseType in {WAITING, SUBSCRIBING}
      ensures HasLive(w', SubscribeTutor(id, w'.m.subs[id].phase))
    {
      if e.Sent? || e.Timeout? || e.Abort? {
        CallbackAttends(w, e, closed, id);
      } else {
        CallAttends(w, e, closed, id);
      }
    }
    forall id | id in w'.m.pendingDelete ensures HasLive(w', UnsubscribeTutor(id)) {
      if e.Sent? || e.Timeout? || e.Abort? {
        DeleteCallbackAttends(w, e, closed, id);
      } else {
        DeleteCallAttends(w, e, closed, id);
      }
    }
  }

  lemma AliveOrHeld(m: Manager, e: Event)
    requires m.sessionAlive && !e.SessionStart?
    ensures !Step(m, e).sessionAlive ==> OnHold(Step(m, e))
  {
  }

  lemma StepAttends(w: Watch, e: Event, closed: bool)
    requires Inv(w.m) && Attended(w) && Sound(w, e, closed)
    ensures Inv(WatchStep(w, e, closed).m) && Attended(WatchStep(w, e, closed))
  {
    StepKeepsInv(w.m, e);
    hide Inv, HasLive, Step, Ends, QueueOk, EnqueueFrom;
    if e.SessionStart? {
      StartAttends(w, e.order);
    } else if w.m.sessionAlive {
      AliveStepAttends(w, e, closed);
    } else {
      MarkStays(w, e, closed);
      OnHoldStep(w.m, e);
    }
  }

  lemma LeaveAttends(w: Watch, k: nat)
    requires Attended(w)
    ensures Attended(WatchMove(w, Leave(k)))
  {
    hide QueueOk, OnHold;
    TakenKeepsQueue(w.queue, w.m.tutors, k);
    var w' := WatchMove(w, Leave(k));
    forall t | HasLive(w, t) ensures HasLive(w', t) {
      var i :| Held(w, i, t);
      assert Held(w', i, t);
    }
  }

  /** In every sound run whatever waits for the server keeps a live tutor, so no request gets lost for good. */
  lemma {:induction false} WaitingIsAttended(w: Watch, moves: seq<Move>)
    requires Inv(w.m) && Attended(w) && AllSound(w, moves)
    ensures Inv(WatchRun(w, moves).m) && Attended(WatchRun(w, moves))
    decreases |moves|
  {
    hide Inv, Attended, Sound, WatchStep;
    if moves != [] {
      match moves[0] {
        case Call(e, closed) => StepAttends(w, e, closed);
        case Leave(k) => LeaveAttends(w, k);
      }
      WaitingIsAttended(WatchMove(w, moves[0]), moves[1..]);
    }
  }

  lemma InitAttended()
    ensures Attended(Watch(Init(), {}, 0, Queue(B.Batch(B.CONTROL, [], 0), {})))
  {
  }
}
