/** HttpRequestManager with its fields, each call proved to do what the scheduler's state machine says. */
module HttpRequests {
  import opened Common
  import opened BatchQueue
  import opened Batching
  import opened S = Scheduler

  /** The first k requests of a queue have been taken off and split by the answers of their tutors. */
  ghost predicate Taken(rs: seq<Request>, k: nat, ready: Ready, sent: seq<Request>, aborted: seq<Request>) {
    k <= |rs| && sent == Keep(rs[..k], ready, true) && aborted == Keep(rs[..k], ready, false)
  }

  lemma TakenNone(rs: seq<Request>, ready: Ready)
    ensures Taken(rs, 0, ready, [], [])
  {
  }

  lemma TakenOneMore(rs: seq<Request>, k: nat, ready: Ready, sent: seq<Request>, aborted: seq<Request>)
    requires k < |rs| && Taken(rs, k, ready, sent, aborted)
    ensures if ready(rs[k]) then Taken(rs, k + 1, ready, sent + [rs[k]], aborted)
            else Taken(rs, k + 1, ready, sent, aborted + [rs[k]])
  {
    assert rs[..k + 1] == rs[..k] + [rs[k]];
    KeepConcat(rs[..k], [rs[k]], ready, true);
    KeepConcat(rs[..k], [rs[k]], ready, false);
    assert Keep([rs[k]], ready, true) == KeepOne(rs[k], ready, true);
    assert Keep([rs[k]], ready, false) == KeepOne(rs[k], ready, false);
  }

  lemma FillStep(rs: seq<Request>, k: nat, length: nat, limit: nat, ready: Ready)
    requires k <= |rs|
    ensures FillCount(rs[k..], length, limit, ready)
         == if k == |rs| || (limit != 0 && length + rs[k].announced >= limit) then 0
            else 1 + FillCount(rs[k + 1..], if ready(rs[k]) then length + 2 + rs[k].wire else length, limit, ready)
  {
  }

  /** shift, seen from the requests the queue held at first. */
  method ShiftAt(batch: BatchRequest, ghost before: Batch, ghost k: nat) returns (r: Request)
    requires batch.Valid() && k < |before.entries| && batch.View() == before.(entries := before.entries[k..])
    modifies batch
    ensures batch.Valid() && batch.View() == before.(entries := before.entries[k + 1..])
    ensures r == Requests(before.entries)[k]
  {
    assert before.entries[k..][1..] == before.entries[k + 1..];
    var shifted := batch.Shift();
    r := shifted.value;
  }

  /** The two loops of sendBatch: what leaves the queue, split by the answers of the tutors. */
  method TakeBatch(batch: BatchRequest, requestLimit: nat, ready: Ready)
    returns (sent: seq<Request>, aborted: seq<Request>)
    requires batch.Valid()
    modifies batch
    ensures batch.Valid()
    ensures var rs := Requests(old(batch.View()).entries);
      && sent == Sent(rs, requestLimit, ready) && aborted == Aborted(rs, requestLimit, ready)
      && batch.View() == old(batch.View()).(entries := old(batch.View()).entries[Consumed(rs, requestLimit, ready)..])
  {
    hide BatchRequest.Valid, BatchRequest.View, BatchRequest.Linked, SkipCount, FillCount, Keep;
    ghost var before := batch.View();
    ghost var rs := Requests(before.entries);
    ghost var skip := SkipCount(rs, ready);
    ghost var k := 0;
    TakenNone(rs, ready);
    sent, aborted := [], [];
    var length: nat := 0;
    while sent == [] && batch.Length() > 0
      invariant batch.Valid() && Taken(rs, k, ready, sent, aborted)
      invariant batch.View() == before.(entries := before.entries[k..])
      invariant sent == [] ==> k <= skip && length == 0
      invariant sent != [] ==> k == skip + 1 && length == rs[skip].wire
      decreases |rs| - k
    {
      TakenOneMore(rs, k, ready, sent, aborted);
      var first := ShiftAt(batch, before, k);
      k := k + 1;
      if ready(first) {
        length := first.wire;
        sent := sent + [first];
      } else {
        aborted := aborted + [first];
      }
    }
    if length == 0 {
      return;
    }
    ghost var end := Consumed(rs, requestLimit, ready);
    while true
      invariant batch.Valid() && Taken(rs, k, ready, sent, aborted)
      invariant batch.View() == before.(entries := before.entries[k..])
      invariant k + FillCount(rs[k..], length, requestLimit, ready) == end
      decreases |rs| - k
    {
      FillStep(rs, k, length, requestLimit, ready);
      var next := batch.GetNextRequestLength();
      if !(requestLimit == 0 || length + next < requestLimit) || batch.Length() <= 0 {
        break;
      }
      TakenOneMore(rs, k, ready, sent, aborted);
      var r := ShiftAt(batch, before, k);
      k := k + 1;
      if ready(r) {
        length := length + 2 + r.wire;
        sent := sent + [r];
      } else {
        aborted := aborted + [r];
      }
    }
  }

  /** SendFrom, field by field. */
  lemma SendFromFields(m: Manager, q: nat, ready: Ready, candidates: set<nat>, sent: seq<Request>,
                       dropped: seq<Request>, queues: seq<Batch>)
    requires Sized(m) && q < QUEUES
    requires var b := m.queues[q];
      var rs := Requests(b.entries);
      && sent == Sent(rs, m.limit, ready) && dropped == Aborted(rs, m.limit, ready)
      && queues == m.queues[q := b.(entries := b.entries[Consumed(rs, m.limit, ready)..])]
    ensures SendFrom(m, q, ready, candidates)
         == Manager(queues, m.limit, m.nextQueue, m.status, m.phase, m.ongoing + sent, m.active || sent != [], m.tasks,
                    m.open || sent != [], m.books.(aborted := m.books.aborted + multiset(dropped)),
                    if sent == [] then m.log else m.log + [Shipment(q, sent, candidates)])
  {
  }

  /** The requests of the queues from q on, in the order in which copyTo takes them. */
  ghost function QueuedFrom(queues: seq<Batch>, q: nat): seq<Request>
    decreases |queues| - q
  {
    if q >= |queues| then [] else Requests(queues[q].entries) + QueuedFrom(queues, q + 1)
  }

  ghost function EmptiedAll(queues: seq<Batch>): (r: seq<Batch>)
    requires |queues| == QUEUES
    ensures |r| == QUEUES && forall i :: 0 <= i < QUEUES ==> r[i] == Emptied(queues[i])
  {
    [Emptied(queues[0]), Emptied(queues[1]), Emptied(queues[2]), Emptied(queues[3])]
  }

  /** One queue holds other entries. */
  ghost function WithEntries(m: Manager, q: nat, entries: seq<Entry>): (m': Manager)
    requires Sized(m) && q < QUEUES
    ensures Sized(m')
  {
    m.(queues := m.queues[q := m.queues[q].(entries := entries)])
  }

  lemma WithEntriesEnds(m: Manager, q: nat)
    requires Sized(m) && q < QUEUES
    ensures var es := m.queues[q].entries;
      && WithEntries(m, q, es[0..]) == m
      && WithEntries(m, q, es[|es|..]) == m.(queues := m.queues[q := Emptied(m.queues[q])])
      && (es != [] ==> WithEntries(m, q, es[1..]) == m.(queues := m.queues[q := WithoutFirst(m.queues[q])]))
  {
    var es := m.queues[q].entries;
    assert es[0..] == es && es[|es|..] == [];
    assert m.queues[q := m.queues[q]] == m.queues;
  }

  lemma WithEntriesOf(m: Manager, q: nat, entries: seq<Entry>)
    requires Sized(m) && q < QUEUES
    ensures WithEntries(m, q, entries).queues[q].entries == entries
  {
  }

  /** The first q queues have been emptied. */
  ghost function QueuesMoved(queues: seq<Batch>, q: nat): (r: seq<Batch>)
    requires |queues| == QUEUES
    ensures |r| == QUEUES && forall i :: 0 <= i < QUEUES ==> r[i] == if i < q then Emptied(queues[i]) else queues[i]
  {
    seq(QUEUES, i requires 0 <= i < QUEUES => if i < q then Emptied(queues[i]) else queues[i])
  }

  lemma QueuesMovedStart(m: Manager)
    requires Sized(m)
    ensures QueuesMoved(m.queues, 0) == m.queues && QueuesMoved(m.queues, QUEUES) == EmptiedAll(m.queues)
    ensures QueuedFrom(m.queues, QUEUES) == []
  {
  }

  lemma QueuesMovedStep(m: Manager, q: nat)
    requires Sized(m) && q < QUEUES
    ensures QueuesMoved(m.queues, q)[q := Emptied(m.queues[q])] == QueuesMoved(m.queues, q + 1)
    ensures QueuedFrom(m.queues, q) == Requests(m.queues[q].entries) + QueuedFrom(m.queues, q + 1)
  {
    hide QueuedFrom;
    assert QueuesMoved(m.queues, q)[q := Emptied(m.queues[q])] == QueuesMoved(m.queues, q + 1);
    QueuedFromStep(m.queues, q);
  }

  lemma QueuedFromStep(queues: seq<Batch>, q: nat)
    requires q < |queues|
    ensures QueuedFrom(queues, q) == Requests(queues[q].entries) + QueuedFrom(queues, q + 1)
  {
  }

  lemma NothingMoved(queues: seq<Batch>, q: nat)
    requires |queues| == QUEUES && q < QUEUES && queues[q].entries != []
    requires forall i :: 0 <= i < q ==> queues[i].entries == []
    ensures QueuesMoved(queues, q) == queues && FirstQueue(queues, 0) == q
  {
  }

  lemma HandOverOrder(m: Manager)
    requires Sized(m)
    ensures HandOver(m) == m.ongoing + QueuedFrom(m.queues, 0)
  {
    hide Requests;
    var q := m.queues;
    assert QueuedFrom(q, 2) == Requests(q[2].entries) + Requests(q[3].entries) by { assert QueuedFrom(q, 4) == []; }
  }

  lemma ReceiveOne(n: Manager, rs: seq<Request>, k: nat, tail: seq<Request>, ready: Ready, limit: nat)
    requires Sized(n) && k < |rs|
    ensures Receive(n, rs[k..] + tail, ready, limit)
         == Receive(AddRequest(n, rs[k], ready), rs[k + 1..] + tail, ready, limit)
  {
    hide S.AddRequest;
    assert (rs[k..] + tail)[0] == rs[k] && (rs[k..] + tail)[1..] == rs[k + 1..] + tail;
  }

  /** An addition is refused by a dismissed manager, which stays as it is, and dismisses no other. */
  lemma AddKeepsDismissed(n: Manager, r: Request, ready: Ready)
    requires Sized(n)
    ensures if Dismissed(n) then S.AddRequest(n, r, ready) == n else !Dismissed(S.AddRequest(n, r, ready))
  {
    if !Dismissed(n) { AddAccepts(n, r, ready); }
  }

  class HttpRequestManager {
    const requestQueues: seq<BatchRequest>  // message, control, destroy, heartbeat
    var requestLimit: nat
    var nextQueue: nat
    var status: Status
    var statusPhase: nat
    var ongoingRequests: seq<Request>
    var activeConnection: bool
    var sessionTasks: multiset<nat>         // dequeue tasks queued on the session thread
    ghost var open: bool
    ghost var books: Books
    ghost var log: seq<Shipment>

    /** The four queues, apart from the other fields. */
    ghost predicate ValidQueues()
      reads requestQueues
    {
      && |requestQueues| == QUEUES
      && (forall i, j :: 0 <= i < j < QUEUES ==> requestQueues[i] != requestQueues[j])
      && (forall i :: 0 <= i < QUEUES ==> requestQueues[i].Valid())
      && requestQueues[0].batchType == MESSAGE && requestQueues[3].batchType == HEARTBEAT
      && requestQueues[1].batchType == CONTROL && requestQueues[2].batchType == CONTROL
    }

    ghost predicate Valid()
      reads this, requestQueues
      ensures Valid() ==> |requestQueues| == QUEUES
    {
      ValidQueues() && nextQueue < QUEUES
    }

    ghost function Queues(): (qs: seq<Batch>)
      reads requestQueues
      requires ValidQueues()
      ensures |qs| == QUEUES && forall i :: 0 <= i < QUEUES ==> qs[i] == requestQueues[i].View()
    {
      [requestQueues[0].View(), requestQueues[1].View(), requestQueues[2].View(), requestQueues[3].View()]
    }

    ghost function View(): (m: Manager)
      reads this, requestQueues
      requires Valid()
      ensures Sized(m) && m.ongoing == ongoingRequests && m.limit == requestLimit && m.queues == Queues()
    {
      Manager(Queues(), requestLimit, nextQueue, status, statusPhase, ongoingRequests, activeConnection,
              sessionTasks, open, books, log)
    }

    constructor ()
      ensures Valid() && View() == Init() && fresh(requestQueues)
    {
      hide BatchRequest.Valid, BatchRequest.View, BatchRequest.Linked;
      var q0 := new BatchRequest(MESSAGE);
      var q1 := new BatchRequest(CONTROL);
      var q2 := new BatchRequest(CONTROL);
      var q3 := new BatchRequest(HEARTBEAT);
      requestQueues := [q0, q1, q2, q3];
      requestLimit, nextQueue, status, statusPhase := 0, 0, IDLE, 1;
      ongoingRequests, activeConnection, sessionTasks, open := [], false, multiset{}, false;
      books, log := Books(multiset{}, multiset{}, multiset{}, multiset{}), [];
    }

    method ChangeStatus(newStatus: Status)
      requires Valid()
      modifies this`status, this`statusPhase
      ensures Valid() && View() == S.ChangeStatus(old(View()), newStatus)
    {
      hide Queues, ValidQueues;
      statusPhase := statusPhase + 1;
      status := newStatus;
    }

    method TakeFromQueue(q: nat, ready: Ready) returns (sent: seq<Request>, dropped: seq<Request>)
      requires ValidQueues() && q < QUEUES
      modifies requestQueues[q]
      ensures ValidQueues() && unchanged(this)
      ensures var b := old(Queues())[q];
        var rs := Requests(b.entries);
        && sent == Sent(rs, requestLimit, ready) && dropped == Aborted(rs, requestLimit, ready)
        && Queues() == old(Queues())[q := b.(entries := b.entries[Consumed(rs, requestLimit, ready)..])]
    {
      hide Sent, Aborted, Consumed, Requests, BatchRequest.Valid, BatchRequest.View, BatchRequest.Linked;
      assert requestQueues[q].View() == Queues()[q];
      sent, dropped := TakeBatch(requestQueues[q], requestLimit, ready);
      OneQueueChanged(q);
      hide Queues;
    }

    /** The other queues are as they were. */
    twostate lemma OneQueueChanged(q: nat)
      requires old(ValidQueues()) && q < QUEUES == |requestQueues| && requestQueues[q].Valid()
      requires forall i :: 0 <= i < QUEUES && requestQueues[i] != requestQueues[q] ==> unchanged(requestQueues[i])
      ensures ValidQueues() && Queues() == old(Queues())[q := requestQueues[q].View()]
    {
      hide BatchRequest.Valid, BatchRequest.View, BatchRequest.Linked;
    }

    /** sendBatch's loops, on one of the queues. */
    method TakeFrom(q: nat, ready: Ready) returns (sent: seq<Request>, dropped: seq<Request>)
      requires Valid() && q < QUEUES
      modifies requestQueues[q]
      ensures Valid()
      ensures var m := old(View());
        var b := m.queues[q];
        var rs := Requests(b.entries);
        && sent == Sent(rs, m.limit, ready) && dropped == Aborted(rs, m.limit, ready)
        && View() == m.(queues := m.queues[q := b.(entries := b.entries[Consumed(rs, m.limit, ready)..])])
    {
      hide Sent, Aborted, Consumed, Requests, Queues, BatchRequest.Valid, BatchRequest.View, BatchRequest.Linked;
      sent, dropped := TakeFromQueue(q, ready);
    }

    /** sendBatch after its loops: the requests become ongoing and, if there are any, the batch goes out. */
    method SendRequests(q: nat, batch: seq<Request>, ghost dropped: seq<Request>, ghost candidates: set<nat>)
      requires Valid()
      modifies this`ongoingRequests, this`activeConnection, this`open, this`books, this`log
      ensures Valid()
      ensures var m := old(View());
        View() == Manager(
          m.queues, m.limit, m.nextQueue, m.status, m.phase, m.ongoing + batch, m.active || batch != [], m.tasks,
          m.open || batch != [], m.books.(aborted := m.books.aborted + multiset(dropped)),
          if batch == [] then m.log else m.log + [Shipment(q, batch, candidates)])
    {
      hide ValidQueues, Queues;
      ongoingRequests := ongoingRequests + batch;
      books := books.(aborted := books.aborted + multiset(dropped));
      if batch != [] {
        activeConnection, open := true, true;
        log := log + [Shipment(q, batch, candidates)];
      }
    }

    method SendBatch(q: nat, ready: Ready, ghost candidates: set<nat>) returns (sent: bool)
      requires Valid() && q < QUEUES
      modifies this, requestQueues[q]
      ensures Valid() && View() == SendFrom(old(View()), q, ready, candidates)
      ensures sent <==> |View().log| > |old(View()).log|
    {
      hide View, Valid, SendFrom, Sent, Aborted, Consumed, Requests;
      var batch, dropped := TakeFrom(q, ready);
      SendFromFields(old(View()), q, ready, candidates, batch, dropped, View().queues);
      SendRequests(q, batch, dropped, candidates);
      sent := batch != [];
    }

    /** One turn of the loop of dequeueControlRequests. */
    method TakeTurn(ready: Ready, ghost candidates: set<nat>) returns (sent: bool)
      requires Valid()
      modifies this, requestQueues
      ensures Valid() && View() == Turn(old(View()), ready, candidates)
      ensures sent <==> |View().log| > |old(View()).log|
    {
      hide SendFrom, BatchRequest.Valid, BatchRequest.View, BatchRequest.Linked, Queues;
      sent := false;
      nextQueue := if nextQueue < |requestQueues| - 1 then nextQueue + 1 else 0;
      if requestQueues[nextQueue].Length() > 0 {
        sent := SendBatch(nextQueue, ready, candidates);
      }
    }

    /** The loop of dequeueControlRequests. */
    method TryAllQueues(ready: Ready, ghost candidates: set<nat>)
      requires Valid()
      modifies this, requestQueues
      ensures Valid() && View() == TryQueues(old(View()), 0, ready, candidates)
    {
      hide Turn, Queues;
      ghost var result := TryQueues(View(), 0, ready, candidates);
      var c := 0;
      while c < |requestQueues|
        invariant Valid() && c <= QUEUES
        invariant result == TryQueues(View(), c, ready, candidates)
      {
        var sent := TakeTurn(ready, candidates);
        if sent {
          ChangeStatus(WAITING);
          return;
        }
        c := c + 1;
      }
    }

    method DequeueControlRequests(phase: nat, ready: Ready)
      requires Valid()
      modifies this, requestQueues
      ensures Valid() && View() == S.DequeueControlRequests(old(View()), phase, ready)
    {
      hide TryQueues, Candidates, BatchRequest.Valid, BatchRequest.View, BatchRequest.Linked;
      if phase != statusPhase {
        return;
      }
      if status != IDLE {
        if status == WAITING {
          return;
        } else if status == END {
          return;
        } else if status == ENDING {
          ChangeStatus(END);
          return;
        }
      }
      TryAllQueues(ready, Candidates(Queues(), ready));
    }

    /** A dequeue task of the session thread runs. */
    method RunSessionTask(phase: nat, ready: Ready)
      requires Valid() && phase in sessionTasks
      modifies this, requestQueues
      ensures Valid() && View() == Step(old(View()), RunTask(phase, ready))
    {
      hide S.DequeueControlRequests, Queues, ValidQueues;
      sessionTasks := sessionTasks - multiset{phase};
      DequeueControlRequests(phase, ready);
    }

    /** addToProperBatch. */
    method AddToProperBatch(request: Request)
      requires Valid()
      modifies this`books, requestQueues[QueueFor(request.kind)]
      ensures Valid() && View() == Enqueue(old(View()), request)
    {
      hide Added, Replaced, BatchRequest.Valid, BatchRequest.View, BatchRequest.Linked;
      assert requestQueues[QueueFor(request.kind)].View() == Queues()[QueueFor(request.kind)];
      var done, replaced := requestQueues[QueueFor(request.kind)].AddRequestToBatch(request);
      OneQueueChanged(QueueFor(request.kind));
      books := books.(accepted := books.accepted + multiset{request}, aborted := books.aborted + Bag(replaced));
    }

    /** addRequest; false stands for the exception of a dismissed manager. */
    method AddRequest(request: Request, ready: Ready) returns (taken: bool)
      requires Valid()
      modifies this, requestQueues
      ensures Valid() && View() == S.AddRequest(old(View()), request, ready)
      ensures taken <==> !Dismissed(old(View()))
    {
      hide Enqueue, TryQueues, Candidates, Queues, BatchRequest.Valid, BatchRequest.View, BatchRequest.Linked;
      taken := true;
      if status == END || status == ENDING {
        return false;
      }
      AddToProperBatch(request);
      EnqueueFacts(old(View()), request);
      if status == IDLE {
        DequeueControlRequests(statusPhase, ready);
      }
    }

    /** onComplete. */
    method OnComplete() returns (alive: bool)
      requires Valid()
      modifies this
      ensures Valid() && View() == S.OnComplete(old(View()))
      ensures alive <==> old(status) != END
    {
      hide Queues, ValidQueues;
      if status == END {
        return false;
      } else if status == ENDING {
        ChangeStatus(END);
      } else {
        ChangeStatus(IDLE);
        sessionTasks := sessionTasks + multiset{statusPhase};
      }
      activeConnection := false;
      alive := true;
    }

    /** The requests of the batch on the wire are finished. */
    method FinishBatch()
      requires Valid()
      modifies this`ongoingRequests, this`open, this`books
      ensures Valid()
      ensures var m := old(View());
        View() == m.(ongoing := [], open := false,
                     books := m.books.(finished := m.books.finished + multiset(m.ongoing)))
    {
      hide Queues, ValidQueues;
      books := books.(finished := books.finished + multiset(ongoingRequests));
      ongoingRequests, open := [], false;
    }

    /** onClosed and onBroken of the listener of the batch on the wire. */
    method OnBatchOver()
      requires Valid()
      modifies this
      ensures Valid() && View() == BatchOver(old(View()))
    {
      hide Queues, ValidQueues;
      FinishBatch();
      if status == END {
        return;
      }
      var alive := OnComplete();
    }

    /** close; closed tells whether the connection is closed with the manager. */
    method Close(waitPending: bool) returns (closed: bool)
      requires Valid()
      modifies this
      ensures Valid() && View() == S.Close(old(View()), waitPending)
      ensures closed <==> old(activeConnection) && !waitPending && nextQueue != DESTROY_QUEUE
    {
      hide Queues, ValidQueues;
      closed := false;
      if !waitPending || !activeConnection {
        if activeConnection {
          if nextQueue != DESTROY_QUEUE {
            closed := true;
          }
        }
        ChangeStatus(END);
      } else {
        ChangeStatus(ENDING);
      }
    }

    method SetRequestLimit(limit: nat)
      requires Valid()
      modifies this`requestLimit
      ensures Valid() && View() == Step(old(View()), SetLimit(limit))
    {
      hide Queues, ValidQueues;
      requestLimit := limit;
    }

    /** The new handler of copyTo shares nothing with this one. */
    ghost predicate Apart(other: HttpRequestManager)
      reads requestQueues, other.requestQueues
    {
      && other != this && ValidQueues() && other.ValidQueues()
      && forall i, j :: 0 <= i < QUEUES && 0 <= j < QUEUES ==> requestQueues[i] != other.requestQueues[j]
    }

    function QueueLength(q: nat): (n: nat)
      requires Valid() && q < QUEUES
      reads this, requestQueues
      ensures n == |View().queues[q].entries|
    {
      requestQueues[q].Length()
    }

    /** The first request of a queue, the k-th it held before, goes to the new handler. */
    method MoveFirst(q: nat, newHandler: HttpRequestManager, ready: Ready, ghost m: Manager, ghost k: nat)
      returns (taken: bool)
      requires Valid() && newHandler.Valid() && Apart(newHandler) && q < QUEUES && Sized(m)
      requires k < |m.queues[q].entries| && View() == WithEntries(m, q, m.queues[q].entries[k..])
      modifies requestQueues[q], newHandler, newHandler.requestQueues
      ensures Valid() && newHandler.Valid() && Apart(newHandler) && unchanged(this)
      ensures View() == WithEntries(m, q, m.queues[q].entries[k + 1..])
      ensures newHandler.View() == S.AddRequest(old(newHandler.View()), Requests(m.queues[q].entries)[k], ready)
      ensures taken <==> !Dismissed(old(newHandler.View()))
    {
      hide S.AddRequest, Requests, View, WithEntries;
      hide BatchRequest.Valid, BatchRequest.View, BatchRequest.Linked;
      var migrating := ShiftQueue(q, m, k);
      taken := AddTo(newHandler, migrating, ready);
    }

    method ShiftQueue(q: nat, ghost m: Manager, ghost k: nat) returns (r: Request)
      requires Valid() && q < QUEUES && Sized(m)
      requires k < |m.queues[q].entries| && View() == WithEntries(m, q, m.queues[q].entries[k..])
      modifies requestQueues[q]
      ensures Valid() && unchanged(this) && View() == WithEntries(m, q, m.queues[q].entries[k + 1..])
      ensures r == Requests(m.queues[q].entries)[k]
    {
      hide Requests, BatchRequest.Valid, BatchRequest.View, BatchRequest.Linked;
      assert requestQueues[q].View() == Queues()[q];
      r := ShiftAt(requestQueues[q], m.queues[q], k);
      OneQueueChanged(q);
    }

    /** addRequest of the new handler, which does not concern this one. */
    method AddTo(newHandler: HttpRequestManager, request: Request, ready: Ready) returns (taken: bool)
      requires Valid() && newHandler.Valid() && Apart(newHandler)
      modifies newHandler, newHandler.requestQueues
      ensures Valid() && newHandler.Valid() && Apart(newHandler) && unchanged(this) && View() == old(View())
      ensures newHandler.View() == S.AddRequest(old(newHandler.View()), request, ready)
      ensures taken <==> !Dismissed(old(newHandler.View()))
    {
      hide S.AddRequest, BatchRequest.Valid, BatchRequest.View, BatchRequest.Linked;
      ghost var queues := Queues();
      taken := newHandler.AddRequest(request, ready);
      assert Queues() == queues;
    }

    /** copyTo's loop over one queue: it empties the queue into the new handler, or the first addition throws. */
    method MoveQueue(q: nat, newHandler: HttpRequestManager, ready: Ready, ghost tail: seq<Request>, ghost limit: nat)
      returns (ok: bool)
      requires Valid() && newHandler.Valid() && Apart(newHandler) && q < QUEUES
      modifies requestQueues[q], newHandler, newHandler.requestQueues
      ensures Valid() && newHandler.Valid() && Apart(newHandler) && unchanged(this)
      ensures ok <==> !Dismissed(old(newHandler.View())) || old(View()).queues[q].entries == []
      ensures ok ==>
        var m := old(View());
        && View() == m.(queues := m.queues[q := Emptied(m.queues[q])])
        && Receive(newHandler.View(), tail, ready, limit)
           == Receive(old(newHandler.View()), Requests(m.queues[q].entries) + tail, ready, limit)
      ensures !ok ==> View() == old(View()).(queues := old(View()).queues[q := WithoutFirst(old(View()).queues[q])])
      ensures if Dismissed(old(newHandler.View())) then newHandler.View() == old(newHandler.View())
              else !Dismissed(newHandler.View())
    {
      hide S.AddRequest, Receive, Requests, View, Valid, Queues, ValidQueues, Apart, WithEntries, Dismissed;
      hide Emptied, WithoutFirst, BatchRequest.Valid, BatchRequest.View, BatchRequest.Linked;
      ghost var m, n := View(), newHandler.View();
      ghost var es, rs := m.queues[q].entries, Requests(m.queues[q].entries);
      ghost var k := 0;
      WithEntriesEnds(m, q);
      assert rs[0..] == rs;
      ok := true;
      while QueueLength(q) > 0
        invariant Valid() && newHandler.Valid() && Apart(newHandler) && unchanged(this) && k <= |rs|
        invariant View() == WithEntries(m, q, es[k..])
        invariant Receive(newHandler.View(), rs[k..] + tail, ready, limit) == Receive(n, rs + tail, ready, limit)
        invariant if Dismissed(n) then k == 0 && newHandler.View() == n else !Dismissed(newHandler.View())
        decreases |rs| - k
      {
        WithEntriesOf(m, q, es[k..]);
        ReceiveOne(newHandler.View(), rs, k, tail, ready, limit);
        AddKeepsDismissed(newHandler.View(), rs[k], ready);
        ok := MoveFirst(q, newHandler, ready, m, k);
        k := k + 1;
        if !ok {
          return;
        }
      }
      WithEntriesOf(m, q, es[k..]);
      assert rs[k..] + tail == tail;
    }

    /** copyTo's loop over the requests in flight. When the first addition throws, that request is gone. */
    method MoveOngoing(newHandler: HttpRequestManager, ready: Ready, ghost tail: seq<Request>) returns (ok: bool)
      requires Valid() && newHandler.Valid() && Apart(newHandler)
      modifies this`ongoingRequests, newHandler, newHandler.requestQueues
      ensures Valid() && newHandler.Valid() && Apart(newHandler)
      ensures ok <==> !Dismissed(old(newHandler.View())) || old(View()).ongoing == []
      ensures ok ==>
        && View() == old(View())
        && Receive(newHandler.View(), tail, ready, View().limit)
           == Receive(old(newHandler.View()), View().ongoing + tail, ready, View().limit)
      ensures !ok ==> View() == old(View()).(ongoing := old(View()).ongoing[1..])
      ensures if Dismissed(old(newHandler.View())) then newHandler.View() == old(newHandler.View())
              else !Dismissed(newHandler.View())
    {
      hide S.AddRequest, Receive, View, Valid, Queues, ValidQueues, Apart;
      ghost var m, n := View(), newHandler.View();
      var i := 0;
      assert m.ongoing[0..] == m.ongoing;
      ok := true;
      while i < |ongoingRequests|
        invariant Valid() && newHandler.Valid() && Apart(newHandler) && View() == m && i <= |m.ongoing|
        invariant Receive(newHandler.View(), m.ongoing[i..] + tail, ready, m.limit)
               == Receive(n, m.ongoing + tail, ready, m.limit)
        invariant if Dismissed(n) then i == 0 && newHandler.View() == n else !Dismissed(newHandler.View())
      {
        ReceiveOne(newHandler.View(), m.ongoing, i, tail, ready, m.limit);
        AddKeepsDismissed(newHandler.View(), m.ongoing[i], ready);
        ok := AddTo(newHandler, ongoingRequests[i], ready);
        if !ok {
          LoseFirstOngoing(newHandler);
          return;
        }
        i := i + 1;
      }
      assert m.ongoing[i..] + tail == tail;
    }

    /** What is left when a request in flight has been moved into a call that throws. */
    method LoseFirstOngoing(ghost newHandler: HttpRequestManager)
      requires Valid() && newHandler.Valid() && Apart(newHandler) && ongoingRequests != []
      modifies this`ongoingRequests
      ensures Valid() && View() == old(View()).(ongoing := old(View()).ongoing[1..])
      ensures newHandler.Valid() && Apart(newHandler) && newHandler.View() == old(newHandler.View())
    {
      hide Queues, ValidQueues;
      ongoingRequests := ongoingRequests[1..];
    }

    /** copyTo's loop over the queues. */
    method MoveQueues(newHandler: HttpRequestManager, ready: Ready) returns (ok: bool)
      requires Valid() && newHandler.Valid() && Apart(newHandler)
      modifies requestQueues, newHandler, newHandler.requestQueues
      ensures Valid() && newHandler.Valid() && Apart(newHandler) && unchanged(this)
      ensures var m, q := old(View()), FirstQueue(old(View()).queues, 0);
        && (ok <==> !Dismissed(old(newHandler.View())) || q == QUEUES)
        && (ok ==> View() == m.(queues := EmptiedAll(m.queues))
                   && Receive(newHandler.View(), [], ready, m.limit)
                      == Receive(old(newHandler.View()), QueuedFrom(m.queues, 0), ready, m.limit))
        && (!ok ==> View() == m.(queues := m.queues[q := WithoutFirst(m.queues[q])])
                    && newHandler.View() == old(newHandler.View()))
    {
      hide S.AddRequest, Receive, Requests, View, Valid, Queues, ValidQueues, Apart, Dismissed;
      hide QueuedFrom, QueuesMoved, EmptiedAll, FirstQueue;
      ghost var m, n := View(), newHandler.View();
      QueuesMovedStart(m);
      var q := 0;
      ok := true;
      while q < |requestQueues|
        invariant Valid() && newHandler.Valid() && Apart(newHandler) && unchanged(this) && q <= QUEUES
        invariant View() == m.(queues := QueuesMoved(m.queues, q))
        invariant Receive(newHandler.View(), QueuedFrom(m.queues, q), ready, m.limit)
               == Receive(n, QueuedFrom(m.queues, 0), ready, m.limit)
        invariant if Dismissed(n) then newHandler.View() == n && forall i :: 0 <= i < q ==> m.queues[i].entries == []
                  else !Dismissed(newHandler.View())
      {
        QueuesMovedStep(m, q);
        ok := MoveQueue(q, newHandler, ready, QueuedFrom(m.queues, q + 1), m.limit);
        if !ok {
          NothingMoved(m.queues, q);
          return;
        }
        q := q + 1;
      }
    }

    method ForgetOngoing(ghost handedOver: seq<Request>)
      requires Valid()
      modifies this`ongoingRequests, this`books
      ensures Valid()
      ensures var m := old(View());
        View() == m.(ongoing := [], books := m.books.(moved := m.books.moved + multiset(handedOver)))
    {
      hide Queues, ValidQueues;
      ongoingRequests, books := [], books.(moved := books.moved + multiset(handedOver));
    }

    /** The end of copyTo. */
    method PassLimit(newHandler: HttpRequestManager, ghost handedOver: seq<Request>)
      requires Valid() && newHandler.Valid() && Apart(newHandler)
      modifies this`ongoingRequests, this`books, newHandler`requestLimit
      ensures Valid() && newHandler.Valid()
      ensures var m := old(View());
        View() == m.(ongoing := [], books := m.books.(moved := m.books.moved + multiset(handedOver)))
      ensures newHandler.View() == old(newHandler.View()).(limit := old(View()).limit)
    {
      hide Queues, ValidQueues;
      newHandler.SetRequestLimit(requestLimit);
      ForgetOngoing(handedOver);
    }

    /** The requests in flight go first, then queue by queue; false stands for the exception of a dismissed
        new handler. */
    method CopyTo(newHandler: HttpRequestManager, ready: Ready) returns (ok: bool)
      requires Valid() && newHandler.Valid() && Apart(newHandler)
      modifies this, requestQueues, newHandler, newHandler.requestQueues
      ensures Valid() && newHandler.Valid()
      ensures ok <==> !Throws(old(View()), old(newHandler.View()))
      ensures ok ==>
        && View() == S.CopyTo(old(View()))
        && newHandler.View() == Receive(old(newHandler.View()), HandOver(old(View())), ready, old(View()).limit)
      ensures !ok ==> View() == Thrown(old(View())) && newHandler.View() == old(newHandler.View())
    {
      hide S.AddRequest, HandOver, QueuedFrom, Queues, ValidQueues, Valid, View, Apart;
      HandOverOrder(View());
      NothingToHandOverIff(View());
      ghost var m := View();
      ok := MoveOngoing(newHandler, ready, QueuedFrom(m.queues, 0));
      if !ok {
        return;
      }
      ok := MoveQueues(newHandler, ready);
      if !ok {
        return;
      }
      PassLimit(newHandler, HandOver(m));
    }
  }
}
