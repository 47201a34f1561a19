/**
 The control-request scheduler of HttpRequestManager as a state machine: what each call does to the whole
 state, and what every run keeps. A task queued on the session thread is the status phase it carries.
 */
module Scheduler {
  import opened Common
  import opened BatchQueue
  import opened Batching

  datatype Status = IDLE | WAITING | ENDING | END

  /** A batch put on the wire: its queue, its requests, and the queues that held a sendable request then. */
  datatype Shipment = Shipment(queue: nat, requests: seq<Request>, candidates: set<nat>)

  /** What became of the requests given to a manager. */
  datatype Books = Books(
    accepted: multiset<Request>, aborted: multiset<Request>, finished: multiset<Request>, moved: multiset<Request>)

  /**
   queues are message, control, destroy, heartbeat in the order of requestQueues; active tells whether
   activeConnection is set, open whether a batch is on the wire. books and log are history:
   what became of the requests, and the batches sent.
   */
  datatype Manager = Manager(
    queues: seq<Batch>, limit: nat, nextQueue: nat, status: Status, phase: nat, ongoing: seq<Request>, active: bool,
    tasks: multiset<nat>, open: bool, books: Books, log: seq<Shipment>)

  const QUEUES := 4
  const DESTROY_QUEUE := 2

  function Init(): Manager {
    Manager([Batch(MESSAGE, [], 0), Batch(CONTROL, [], 0), Batch(CONTROL, [], 0), Batch(HEARTBEAT, [], 0)],
            0, 0, IDLE, 1, [], false, multiset{}, false, Books(multiset{}, multiset{}, multiset{}, multiset{}), [])
  }

  /** addToProperBatch, with the routing of the comment at the head of the class. */
  function QueueFor(kind: Kind): (q: nat)
    ensures q < QUEUES
  {
    match kind
    case Message => 0
    case Heartbeat => 3
    case Destroy(_) => DESTROY_QUEUE
    case _ => 1
  }

  /** Four queues and a turn among them. */
  predicate Sized(m: Manager) { |m.queues| == QUEUES && m.nextQueue < QUEUES }

  function ChangeStatus(m: Manager, status: Status): Manager {
    m.(status := status, phase := m.phase + 1)
  }

  predicate HasSendable(b: Batch, ready: Ready) {
    exists i :: 0 <= i < |b.entries| && ready(b.entries[i].request)
  }

  function Candidates(queues: seq<Batch>, ready: Ready): set<nat>
    requires |queues| == QUEUES
  {
    set q: nat | q < QUEUES && HasSendable(queues[q], ready)
  }

  /** sendBatch on one queue. */
  function SendFrom(m: Manager, q: nat, ready: Ready, candidates: set<nat>): (m': Manager)
    requires Sized(m) && q < QUEUES
    ensures Sized(m')
  {
    var b := m.queues[q];
    var rs := Requests(b.entries);
    var sent := Sent(rs, m.limit, ready);
    var m1 := m.(queues := m.queues[q := b.(entries := b.entries[Consumed(rs, m.limit, ready)..])],
                 ongoing := m.ongoing + sent,
                 books := m.books.(aborted := m.books.aborted + multiset(Aborted(rs, m.limit, ready))));
    if sent == [] then m1
    else m1.(active := true, open := true, log := m.log + [Shipment(q, sent, candidates)])
  }

  function Rotate(q: nat): nat { if q < QUEUES - 1 then q + 1 else 0 }

  /** One turn of the loop of dequeueControlRequests: the rotation, then sendBatch unless the queue is empty. */
  function Turn(m: Manager, ready: Ready, candidates: set<nat>): (m': Manager)
    requires Sized(m)
    ensures Sized(m')
  {
    var m1 := m.(nextQueue := Rotate(m.nextQueue));
    if m1.queues[m1.nextQueue].entries == [] then m1 else SendFrom(m1, m1.nextQueue, ready, candidates)
  }

  /** The loop of dequeueControlRequests from turn c on. */
  function TryQueues(m: Manager, c: nat, ready: Ready, candidates: set<nat>): (m': Manager)
    requires Sized(m) && c <= QUEUES
    ensures Sized(m')
    decreases QUEUES - c
  {
    if c == QUEUES then m
    else
      var m1 := Turn(m, ready, candidates);
      if |m1.log| > |m.log| then ChangeStatus(m1, WAITING) else TryQueues(m1, c + 1, ready, candidates)
  }

  function Dequeue(m: Manager, ready: Ready): (m': Manager)
    requires Sized(m)
    ensures Sized(m')
  {
    TryQueues(m, 0, ready, Candidates(m.queues, ready))
  }

  /** dequeueControlRequests as the task of the given phase runs it. */
  function DequeueControlRequests(m: Manager, phase: nat, ready: Ready): (m': Manager)
    requires Sized(m)
    ensures Sized(m')
  {
    if phase != m.phase then m
    else match m.status
      case IDLE => Dequeue(m, ready)
      case WAITING => m
      case END => m
      case ENDING => ChangeStatus(m, END)
  }

  function Enqueue(m: Manager, r: Request): (m': Manager)
    requires Sized(m)
    ensures Sized(m')
  {
    var q := QueueFor(r.kind);
    m.(queues := m.queues[q := Added(m.queues[q], r)],
       books := m.books.(accepted := m.books.accepted + multiset{r},
                         aborted := m.books.aborted + Bag(Replaced(m.queues[q], r))))
  }

  predicate Dismissed(m: Manager) { m.status == END || m.status == ENDING }

  /** addRequest; a dismissed manager throws and stays as it is. */
  function AddRequest(m: Manager, r: Request, ready: Ready): (m': Manager)
    requires Sized(m)
    ensures Sized(m')
  {
    if Dismissed(m) then m
    else if m.status == IDLE then Dequeue(Enqueue(m, r), ready)
    else Enqueue(m, r)
  }

  /** onComplete. */
  function OnComplete(m: Manager): Manager {
    match m.status
    case END => m
    case ENDING => ChangeStatus(m, END).(active := false)
    case _ =>
      var idle := ChangeStatus(m, IDLE);
      idle.(tasks := idle.tasks + multiset{idle.phase}, active := false)
  }

  /** onClosed or onBroken of the batch on the wire. */
  function BatchOver(m: Manager): Manager {
    OnComplete(m.(ongoing := [], open := false, books := m.books.(finished := m.books.finished + multiset(m.ongoing))))
  }

  function Close(m: Manager, waitPending: bool): Manager {
    ChangeStatus(m, if !waitPending || !m.active then END else ENDING)
  }

  /** What copyTo passes to the new handler, in its order. */
  function HandOver(m: Manager): seq<Request>
    requires Sized(m)
  {
    m.ongoing + Requests(m.queues[0].entries) + Requests(m.queues[1].entries)
      + Requests(m.queues[2].entries) + Requests(m.queues[3].entries)
  }

  function Emptied(b: Batch): Batch { b.(entries := []) }

  function CopyTo(m: Manager): (m': Manager)
    requires Sized(m)
    ensures Sized(m')
  {
    m.(ongoing := [], books := m.books.(moved := m.books.moved + multiset(HandOver(m))),
       queues := [Emptied(m.queues[0]), Emptied(m.queues[1]), Emptied(m.queues[2]), Emptied(m.queues[3])])
  }

  datatype Event =
    | Add(request: Request, ready: Ready)
    | RunTask(phase: nat, ready: Ready)
    | Over
    | CloseManager(waitPending: bool)
    | SetLimit(limit: nat)
    | Copy

  function Step(m: Manager, e: Event): (m': Manager)
    requires Sized(m)
    ensures Sized(m')
  {
    match e
    case Add(r, ready) => AddRequest(m, r, ready)
    case RunTask(phase, ready) =>
      if phase in m.tasks then DequeueControlRequests(m.(tasks := m.tasks - multiset{phase}), phase, ready) else m
    case Over => if m.open then BatchOver(m) else m
    case CloseManager(waitPending) => Close(m, waitPending)
    case SetLimit(limit) => m.(limit := limit)
    case Copy => CopyTo(m)
  }

  function Run(m: Manager, es: seq<Event>): (m': Manager)
    requires Sized(m)
    ensures Sized(m')
    decreases |es|
  {
    if es == [] then m else Run(Step(m, es[0]), es[1..])
  }

  // ---- one dequeue ----

  /** How many queues the rotation from p visits before q. */
  function Distance(p: nat, q: nat): int { if q > p then q - p - 1 else q - p + QUEUES - 1 }

  /** What a turn does to the control part of the state. */
  lemma TurnFacts(m: Manager, ready: Ready, candidates: set<nat>)
    requires Sized(m)
    ensures var m', q := Turn(m, ready, candidates), Rotate(m.nextQueue);
      && m'.nextQueue == q && m'.status == m.status && m'.phase == m.phase && m'.tasks == m.tasks
      && m'.books.accepted == m.books.accepted
      && (forall p :: 0 <= p < QUEUES && p != q ==> m'.queues[p] == m.queues[p])
      && (if HasSendable(m.queues[q], ready)
          then m'.active && m'.open && exists s :: m'.log == m.log + [s] && s.queue == q && s.candidates == candidates
          else m'.log == m.log && m'.ongoing == m.ongoing && m'.active == m.active && m'.open == m.open
               && m'.queues[q].entries == [])
  {
    hide Sent, Aborted, Consumed;
    var b := m.queues[Rotate(m.nextQueue)];
    var rs := Requests(b.entries);
    SendsIff(rs, m.limit, ready);
    if HasSendable(b, ready) {
      var i :| 0 <= i < |b.entries| && ready(b.entries[i].request);
      assert ready(rs[i]);
      var shipment := Shipment(Rotate(m.nextQueue), Sent(rs, m.limit, ready), candidates);
      assert Turn(m, ready, candidates).log == m.log + [shipment];
    } else if b.entries != [] {
      assert forall i :: 0 <= i < |rs| ==> rs[i] == b.entries[i].request;
      assert Sent(rs, m.limit, ready) == [];
    }
  }

  /** How a dequeue ends: either a batch leaves from the candidate nearest in the rotation, or all queues
      are empty and the turn is where it was. */
  ghost predicate Dequeued(m: Manager, m': Manager, start: nat, candidates: set<nat>)
    requires Sized(m')
  {
    && m'.tasks == m.tasks
    && (if candidates == {} then
          && m'.log == m.log && m'.status == m.status && m'.phase == m.phase && m'.ongoing == m.ongoing
          && m'.active == m.active && m'.open == m.open && m'.nextQueue == start && AllQueuesEmpty(m')
        else
          && m'.status == WAITING && m'.phase == m.phase + 1 && m'.active && m'.open
          && |m'.log| == |m.log| + 1 && m'.log[..|m.log|] == m.log && m'.nextQueue == m'.log[|m.log|].queue
          && Nearest(start, m'.log[|m.log|]) && m'.log[|m.log|].candidates == candidates)
  }

  /** The shipment left from the candidate that the rotation from p meets first. */
  ghost predicate Nearest(p: nat, s: Shipment) {
    && s.queue in s.candidates && s.queue < QUEUES
    && forall q :: q in s.candidates ==> Distance(p, s.queue) <= Distance(p, q)
  }

  ghost predicate AllQueuesEmpty(m: Manager)
    requires Sized(m)
  {
    forall q :: 0 <= q < QUEUES ==> m.queues[q].entries == []
  }

  lemma CandidatesAfterTurn(m: Manager, ready: Ready)
    requires Sized(m) && !HasSendable(m.queues[Rotate(m.nextQueue)], ready)
    ensures Candidates(Turn(m, ready, Candidates(m.queues, ready)).queues, ready) == Candidates(m.queues, ready)
  {
    hide Turn;
    TurnFacts(m, ready, Candidates(m.queues, ready));
  }

  lemma {:induction false} TryQueuesFacts(m: Manager, start: nat, c: nat, ready: Ready)
    requires Sized(m) && c <= QUEUES && start < QUEUES
    requires m.nextQueue == if start + c < QUEUES then start + c else start + c - QUEUES
    requires forall q :: 0 <= q < QUEUES && Distance(start, q) < c ==> m.queues[q].entries == []
    ensures Dequeued(m, TryQueues(m, c, ready, Candidates(m.queues, ready)), start, Candidates(m.queues, ready))
    decreases QUEUES - c
  {
    hide Turn;
    var candidates := Candidates(m.queues, ready);
    if c == QUEUES {
      assert forall q :: 0 <= q < QUEUES ==> Distance(start, q) < c;
    } else {
      var q := Rotate(m.nextQueue);
      TurnFacts(m, ready, candidates);
      var m1 := Turn(m, ready, candidates);
      if HasSendable(m.queues[q], ready) {
        var s :| m1.log == m.log + [s] && s.queue == q && s.candidates == candidates;
        assert m1.log[|m.log|] == s && m1.log[..|m.log|] == m.log;
        assert q in candidates;
        forall p | p in candidates ensures Distance(start, q) <= Distance(start, p) {
          assert m.queues[p].entries != [];
        }
      } else {
        CandidatesAfterTurn(m, ready);
        TryQueuesFacts(m1, start, c + 1, ready);
      }
    }
  }

  lemma DequeueFacts(m: Manager, ready: Ready)
    requires Sized(m)
    ensures Dequeued(m, Dequeue(m, ready), m.nextQueue, Candidates(m.queues, ready))
  {
    hide Turn;
    TryQueuesFacts(m, m.nextQueue, 0, ready);
  }

  // ---- the control invariant ----

  /** Each batch left from the candidate nearest after the queue of the batch before it. */
  ghost predicate FairLog(m: Manager) {
    && (m.log != [] ==> m.nextQueue == m.log[|m.log| - 1].queue)
    && (forall k :: 0 <= k < |m.log| ==> m.log[k].queue in m.log[k].candidates && m.log[k].queue < QUEUES)
    && (forall k :: 1 <= k < |m.log| ==> Nearest(m.log[k - 1].queue, m.log[k]))
  }

  /** No task is ahead of the phase; one level with it finds the manager idle; an idle manager that holds a
      request has one; one batch at most is in flight. */
  ghost predicate Awake(m: Manager)
    requires Sized(m)
  {
    && (forall t :: t in m.tasks ==> t <= m.phase)
    && (m.phase in m.tasks ==> m.status == IDLE)
    && (m.status == IDLE && !AllQueuesEmpty(m) ==> m.phase in m.tasks)
    && (m.status == IDLE ==> !m.open && !m.active)
    && (m.status == WAITING ==> m.open && m.active)
    && (m.status == ENDING ==> m.active)  // closing a manager twice may leave it ending with nothing on the wire
    && (!m.open ==> m.ongoing == [])
  }

  ghost predicate Inv(m: Manager) { Sized(m) && FairLog(m) && Awake(m) }

  lemma DequeueKeepsInv(m: Manager, ready: Ready)
    requires Sized(m) && FairLog(m) && m.status == IDLE && !m.open && !m.active && m.ongoing == []
    requires forall t :: t in m.tasks ==> t <= m.phase
    ensures Inv(Dequeue(m, ready))
  {
    hide Dequeue, Candidates;
    DequeueFacts(m, ready);
    var m' := Dequeue(m, ready);
    if Candidates(m.queues, ready) != {} {
      assert forall k :: 0 <= k < |m.log| ==> m'.log[k] == m.log[k];
    }
  }

  lemma EnqueueFacts(m: Manager, r: Request)
    requires Sized(m)
    ensures var m' := Enqueue(m, r);
      m' == m.(queues := m'.queues, books := m'.books) && m'.books.accepted == m.books.accepted + multiset{r}
  {
  }

  lemma AddKeepsInv(m: Manager, r: Request, ready: Ready)
    requires Inv(m)
    ensures Inv(AddRequest(m, r, ready))
  {
    hide Dequeue, Enqueue;
    EnqueueFacts(m, r);
    if m.status == IDLE { DequeueKeepsInv(Enqueue(m, r), ready); }
  }

  lemma TaskKeepsInv(m: Manager, phase: nat, ready: Ready)
    requires Inv(m) && phase in m.tasks
    ensures Inv(DequeueControlRequests(m.(tasks := m.tasks - multiset{phase}), phase, ready))
  {
    hide Dequeue;
    if phase == m.phase { DequeueKeepsInv(m.(tasks := m.tasks - multiset{phase}), ready); }
  }

  lemma OverKeepsInv(m: Manager)
    requires Inv(m)
    ensures Inv(BatchOver(m))
  {
    hide FairLog;
    SameLog(m, BatchOver(m));
  }

  lemma SameLog(m: Manager, m': Manager)
    requires FairLog(m) && m'.log == m.log && m'.nextQueue == m.nextQueue
    ensures FairLog(m')
  {
  }

  lemma CopyKeepsInv(m: Manager)
    requires Inv(m)
    ensures Inv(CopyTo(m)) && AllQueuesEmpty(CopyTo(m)) && CopyTo(m).ongoing == []
  {
  }

  lemma StepKeepsInv(m: Manager, e: Event)
    requires Inv(m)
    ensures Inv(Step(m, e))
  {
    hide AddRequest, DequeueControlRequests, BatchOver, CopyTo;
    match e {
      case Add(r, ready) => AddKeepsInv(m, r, ready);
      case RunTask(phase, ready) => if phase in m.tasks { TaskKeepsInv(m, phase, ready); }
      case Over => OverKeepsInv(m);
      case CloseManager(waitPending) =>
      case SetLimit(limit) =>
      case Copy => CopyKeepsInv(m);
    }
  }

  lemma {:induction false} RunKeepsInv(m: Manager, es: seq<Event>)
    requires Inv(m)
    ensures Inv(Run(m, es))
    decreases |es|
  {
    if es != [] {
      StepKeepsInv(m, es[0]);
      RunKeepsInv(Step(m, es[0]), es[1..]);
    }
  }

  /** After any run, a request that waits in an idle manager has a wake-up of the current phase on its way. */
  lemma NoLostWakeUp(es: seq<Event>)
    ensures var m := Run(Init(), es);
      && (m.status == IDLE && !AllQueuesEmpty(m) ==> m.phase in m.tasks)
      && Inv(m)
  {
    RunKeepsInv(Init(), es);
  }

  /** A batch leaves only from IDLE, and only when none is on the wire; at most one leaves in a step. */
  lemma SendsOnlyWhenIdle(m: Manager, e: Event)
    requires Inv(m)
    ensures Step(m, e).log != m.log ==>
      && m.status == IDLE && !m.open && !m.active
      && Step(m, e).open && |Step(m, e).log| == |m.log| + 1
  {
    hide Dequeue, Added, Replaced, Candidates, Requests;
    match e {
      case Add(r, ready) => DequeueFacts(Enqueue(m, r), ready);
      case RunTask(phase, ready) => DequeueFacts(m.(tasks := m.tasks - multiset{phase}), ready);
      case _ =>
    }
  }

  /** A dequeue task whose phase has passed changes nothing but the list of tasks; one whose phase is current
      never meets the branches for a manager that is waiting or ending. */
  lemma StaleTaskIsHarmless(m: Manager, phase: nat, ready: Ready)
    requires Inv(m) && phase in m.tasks
    ensures phase != m.phase ==> Step(m, RunTask(phase, ready)) == m.(tasks := m.tasks - multiset{phase})
    ensures phase == m.phase ==> m.status == IDLE
    ensures phase == m.phase && Candidates(m.queues, ready) == {} ==> AllQueuesEmpty(Step(m, RunTask(phase, ready)))
    ensures phase == m.phase && Candidates(m.queues, ready) != {} ==> Step(m, RunTask(phase, ready)).status == WAITING
  {
    hide Dequeue;
    DequeueFacts(m.(tasks := m.tasks - multiset{phase}), ready);
  }

  /** Phases never decrease and grow with every change of status, so a task that is overtaken stays so. */
  lemma PhaseNeverDecreases(m: Manager, e: Event)
    requires Inv(m)
    ensures Step(m, e).phase >= m.phase
    ensures Step(m, e).status != m.status ==> Step(m, e).phase > m.phase
  {
    hide Dequeue, Added, Replaced, Candidates, Requests;
    match e {
      case Add(r, ready) => DequeueFacts(Enqueue(m, r), ready);
      case RunTask(phase, ready) => DequeueFacts(m.(tasks := m.tasks - multiset{phase}), ready);
      case _ =>
    }
  }

  // ---- conservation ----

  /** In how many places a request is. */
  function Places(m: Manager, r: Request): nat
    requires Sized(m)
  {
    Copies(m.queues[0], r) + Copies(m.queues[1], r) + Copies(m.queues[2], r) + Copies(m.queues[3], r) + Elsewhere(m, r)
  }

  function Elsewhere(m: Manager, r: Request): nat {
    multiset(m.ongoing)[r] + m.books.aborted[r] + m.books.finished[r] + m.books.moved[r]
  }

  function Copies(b: Batch, r: Request): nat { multiset(Requests(b.entries))[r] }

  lemma PrefixSplits(b: Batch, n: nat, ready: Ready, r: Request)
    requires n <= |b.entries|
    ensures var first := Requests(b.entries)[..n];
      Copies(b, r) == Copies(b.(entries := b.entries[n..]), r)
                      + multiset(Keep(first, ready, true))[r] + multiset(Keep(first, ready, false))[r]
  {
    hide Keep;
    var rs := Requests(b.entries);
    KeepSplits(rs[..n], ready, r);
    assert Requests(b.entries[n..]) == rs[n..];
    assert rs == rs[..n] + rs[n..];
  }

  /** What sendBatch takes off a queue is either sent or aborted. */
  lemma TakenIsSentOrAborted(b: Batch, limit: nat, ready: Ready, r: Request)
    ensures var rs := Requests(b.entries);
      var n := Consumed(rs, limit, ready);
      Copies(b, r) == Copies(b.(entries := b.entries[n..]), r)
                      + multiset(Sent(rs, limit, ready))[r] + multiset(Aborted(rs, limit, ready))[r]
  {
    hide Consumed, Keep, Copies;
    PrefixSplits(b, Consumed(Requests(b.entries), limit, ready), ready, r);
  }

  /** Every queue files each request under its own key, and holds only its own kind. */
  ghost predicate ValidQueues(m: Manager) {
    && Sized(m)
    && ValidBatch(m.queues[0]) && ValidBatch(m.queues[1]) && ValidBatch(m.queues[2]) && ValidBatch(m.queues[3])
    && m.queues[0].batchType == MESSAGE && m.queues[3].batchType == HEARTBEAT
    && m.queues[1].batchType == m.queues[2].batchType == CONTROL
  }

  ghost predicate Balanced(m: Manager, r: Request) { ValidQueues(m) && m.books.accepted[r] == Places(m, r) }

  /** One queue is exchanged: the sum of the places moves by the difference. */
  lemma QueueExchanged(m: Manager, m': Manager, q: nat, b: Batch, r: Request)
    requires ValidQueues(m) && Sized(m') && q < QUEUES && m'.queues == m.queues[q := b]
    requires ValidBatch(b) && b.batchType == m.queues[q].batchType
    ensures ValidQueues(m')
    ensures Places(m', r) - Elsewhere(m', r) == Places(m, r) - Elsewhere(m, r) - Copies(m.queues[q], r) + Copies(b, r)
  {
  }

  lemma SendFromBalances(m: Manager, q: nat, ready: Ready, candidates: set<nat>, r: Request)
    requires Balanced(m, r) && q < QUEUES
    ensures Balanced(SendFrom(m, q, ready, candidates), r)
  {
    hide Consumed, Sent, Aborted, Copies, ValidBatch, Places;
    var b := m.queues[q];
    var rest := b.(entries := b.entries[Consumed(Requests(b.entries), m.limit, ready)..]);
    TakenIsSentOrAborted(b, m.limit, ready, r);
    DroppedIsValid(b, Consumed(Requests(b.entries), m.limit, ready));
    QueueExchanged(m, SendFrom(m, q, ready, candidates), q, rest, r);
  }

  lemma {:induction false} TryQueuesBalances(m: Manager, c: nat, ready: Ready, candidates: set<nat>, r: Request)
    requires Balanced(m, r) && c <= QUEUES
    ensures Balanced(TryQueues(m, c, ready, candidates), r)
    decreases QUEUES - c
  {
    hide SendFrom, Copies, ValidBatch;
    if c < QUEUES {
      SendFromBalances(m.(nextQueue := Rotate(m.nextQueue)), Rotate(m.nextQueue), ready, candidates, r);
      TryQueuesBalances(Turn(m, ready, candidates), c + 1, ready, candidates, r);
    }
  }

  lemma EnqueueBalances(m: Manager, x: Request, r: Request)
    requires Balanced(m, r)
    ensures Balanced(Enqueue(m, x), r)
  {
    hide Added, Replaced, Bag, ValidBatch, Copies, Places;
    var b := m.queues[QueueFor(x.kind)];
    QueueTakes(m, x.kind);
    AddedIsValid(b, x);
    AddedConserves(b, x);
    CopiesAdd(b, Added(b, x), Bag(Replaced(b, x)), x, r);
    QueueExchanged(m, Enqueue(m, x), QueueFor(x.kind), Added(b, x), r);
  }

  lemma QueueTakes(m: Manager, kind: Kind)
    requires ValidQueues(m)
    ensures ValidBatch(m.queues[QueueFor(kind)]) && m.queues[QueueFor(kind)].batchType == TypeOf(kind)
  {
  }

  lemma CopiesAdd(b: Batch, b': Batch, out: multiset<Request>, x: Request, r: Request)
    requires multiset(Requests(b'.entries)) + out == multiset(Requests(b.entries)) + multiset{x}
    ensures Copies(b', r) + out[r] == Copies(b, r) + multiset{x}[r]
  {
    assert (multiset(Requests(b'.entries)) + out)[r] == (multiset(Requests(b.entries)) + multiset{x})[r];
  }

  lemma CopyBalances(m: Manager, r: Request)
    requires Balanced(m, r)
    ensures Balanced(CopyTo(m), r)
  {
  }

  lemma DequeueBalances(m: Manager, ready: Ready, r: Request)
    requires Balanced(m, r)
    ensures Balanced(Dequeue(m, ready), r)
  {
    hide TryQueues, Candidates, ValidBatch, Copies;
    TryQueuesBalances(m, 0, ready, Candidates(m.queues, ready), r);
  }

  lemma AddBalances(m: Manager, x: Request, ready: Ready, r: Request)
    requires Balanced(m, r)
    ensures Balanced(AddRequest(m, x, ready), r)
  {
    hide Dequeue, Enqueue, ValidBatch, Copies;
    EnqueueBalances(m, x, r);
    DequeueBalances(Enqueue(m, x), ready, r);
  }

  lemma TaskBalances(m: Manager, phase: nat, ready: Ready, r: Request)
    requires Balanced(m, r)
    ensures Balanced(DequeueControlRequests(m, phase, ready), r)
  {
    hide Dequeue, ValidBatch, Copies;
    DequeueBalances(m, ready, r);
  }

  lemma OverBalances(m: Manager, r: Request)
    requires Balanced(m, r)
    ensures Balanced(BatchOver(m), r)
  {
    hide ValidBatch, Copies;
    assert multiset([])[r] == 0;
  }

  lemma StepBalances(m: Manager, e: Event, r: Request)
    requires Balanced(m, r)
    ensures Balanced(Step(m, e), r)
  {
    hide AddRequest, DequeueControlRequests, CopyTo, BatchOver, ValidBatch, Copies, Elsewhere;
    match e {
      case Add(x, ready) => AddBalances(m, x, ready, r);
      case RunTask(phase, ready) =>
        var m1 := m.(tasks := m.tasks - multiset{phase});
        SameElsewhere(m, m1, r);
        TaskBalances(m1, phase, ready, r);
      case Over => OverBalances(m, r);
      case Copy => CopyBalances(m, r);
      case _ => SameElsewhere(m, Step(m, e), r);
    }
  }

  lemma SameElsewhere(m: Manager, m': Manager, r: Request)
    requires m'.ongoing == m.ongoing && m'.books == m.books
    ensures Elsewhere(m', r) == Elsewhere(m, r)
  {
  }

  /**
   After any run, every request is in as many places as it was accepted: still queued, in flight, aborted,
   finished with its batch, or handed over. A request accepted once is in exactly one of them.
   */
  lemma {:induction false} EveryRequestIsSomewhere(m: Manager, es: seq<Event>, r: Request)
    requires Balanced(m, r)
    ensures Balanced(Run(m, es), r)
    decreases |es|
  {
    if es != [] {
      StepBalances(m, es[0], r);
      EveryRequestIsSomewhere(Step(m, es[0]), es[1..], r);
    }
  }

  lemma InitBalanced(r: Request)
    ensures Balanced(Init(), r)
  {
  }

  // ---- fairness ----

  lemma {:induction false} DistanceShrinks(log: seq<Shipment>, q: nat, k: nat, n: nat)
    requires q < QUEUES && n > 0 && k + n <= |log|
    requires forall i :: k <= i < k + n ==> q in log[i].candidates && log[i].queue != q && log[i].queue < QUEUES
    requires forall i :: 1 <= i < |log| ==> Nearest(log[i - 1].queue, log[i])
    ensures Distance(log[k + n - 1].queue, q) + n - 1 <= Distance(log[k].queue, q) < QUEUES - 1
  {
    var last := k + n - 1;
    if n > 1 {
      DistanceShrinks(log, q, k, n - 1);
      assert Nearest(log[last - 1].queue, log[last]);
      assert Distance(log[last - 1].queue, log[last].queue) <= Distance(log[last - 1].queue, q);
    }
  }

  /** Round robin: a queue that keeps holding a sendable request is served by one of any four batches in a row. */
  lemma ServedWithinFourBatches(es: seq<Event>, q: nat, k: nat)
    requires q < QUEUES
    ensures var log := Run(Init(), es).log;
      k + QUEUES <= |log| && (forall i :: k <= i < k + QUEUES ==> q in log[i].candidates)
      ==> exists i :: k <= i < k + QUEUES && log[i].queue == q
  {
    NoLostWakeUp(es);
    var log := Run(Init(), es).log;
    if k + QUEUES <= |log| && forall i :: k <= i < k + QUEUES ==> q in log[i].candidates && log[i].queue != q {
      DistanceShrinks(log, q, k, QUEUES);
    }
  }

  // ---- hand-over ----

  /** The new handler of copyTo gets the requests one by one, then the limit. */
  function Receive(n: Manager, rs: seq<Request>, ready: Ready, limit: nat): (n': Manager)
    requires Sized(n)
    ensures Sized(n')
    decreases |rs|
  {
    if rs == [] then n.(limit := limit) else Receive(AddRequest(n, rs[0], ready), rs[1..], ready, limit)
  }

  lemma AddAccepts(n: Manager, r: Request, ready: Ready)
    requires Sized(n) && !Dismissed(n)
    ensures AddRequest(n, r, ready).books.accepted == n.books.accepted + multiset{r}
    ensures !Dismissed(AddRequest(n, r, ready))
  {
    hide Dequeue, Enqueue;
    EnqueueFacts(n, r);
    DequeueAccepts(Enqueue(n, r), ready);
  }

  lemma DequeueAccepts(m: Manager, ready: Ready)
    requires Sized(m) && !Dismissed(m)
    ensures Dequeue(m, ready).books.accepted == m.books.accepted && !Dismissed(Dequeue(m, ready))
  {
    hide TryQueues, Candidates;
    DequeueFacts(m, ready);
    DequeueKeepsAccepted(m, 0, ready, Candidates(m.queues, ready));
  }

  lemma {:induction false} DequeueKeepsAccepted(m: Manager, c: nat, ready: Ready, candidates: set<nat>)
    requires Sized(m) && c <= QUEUES
    ensures TryQueues(m, c, ready, candidates).books.accepted == m.books.accepted
    decreases QUEUES - c
  {
    hide Turn;
    if c < QUEUES {
      TurnFacts(m, ready, candidates);
      DequeueKeepsAccepted(Turn(m, ready, candidates), c + 1, ready, candidates);
    }
  }

  /** The new handler is dismissed: its addRequest throws at the first request it is given. */
  predicate Throws(m: Manager, n: Manager)
    requires Sized(m)
  {
    Dismissed(n) && HandOver(m) != []
  }

  function FirstQueue(queues: seq<Batch>, q: nat): (k: nat)
    requires q <= |queues|
    ensures q <= k <= |queues| && (k < |queues| ==> queues[k].entries != [])
    ensures forall i :: q <= i < k ==> queues[i].entries == []
    decreases |queues| - q
  {
    if q == |queues| || queues[q].entries != [] then q else FirstQueue(queues, q + 1)
  }

  lemma NothingToHandOverIff(m: Manager)
    requires Sized(m)
    ensures HandOver(m) == [] <==> m.ongoing == [] && FirstQueue(m.queues, 0) == QUEUES
  {
  }

  function WithoutFirst(b: Batch): Batch
    requires b.entries != []
  {
    b.(entries := b.entries[1..])
  }

  /** What the exception leaves of the old manager: the request at hand has been taken out and goes nowhere. */
  function Thrown(m: Manager): (m': Manager)
    requires Sized(m)
    ensures Sized(m')
  {
    var q := FirstQueue(m.queues, 0);
    if m.ongoing != [] then m.(ongoing := m.ongoing[1..])
    else if q < QUEUES then m.(queues := m.queues[q := WithoutFirst(m.queues[q])])
    else m
  }

  /** The new handler accepts what it is given, in one piece, and keeps its own books and wake-ups right. */
  lemma {:induction false} ReceiveAccepts(n: Manager, rs: seq<Request>, ready: Ready, limit: nat, r: Request)
    requires Inv(n) && Balanced(n, r) && !Dismissed(n)
    ensures var n' := Receive(n, rs, ready, limit);
      n'.books.accepted == n.books.accepted + multiset(rs) && n'.limit == limit && Inv(n') && Balanced(n', r)
    decreases |rs|
  {
    hide AddRequest, ValidBatch, Places, FairLog, Awake;
    if rs != [] {
      AddAccepts(n, rs[0], ready);
      StepKeepsInv(n, Add(rs[0], ready));
      StepBalances(n, Add(rs[0], ready), r);
      ReceiveAccepts(AddRequest(n, rs[0], ready), rs[1..], ready, limit, r);
      assert rs == [rs[0]] + rs[1..];
    } else {
      StepKeepsInv(n, SetLimit(limit));
      StepBalances(n, SetLimit(limit), r);
    }
  }

  /**
   copyTo leaves the old manager empty; a new handler that is not dismissed accepts exactly the requests
   in flight and the queued ones, and between the two managers no request gets lost or doubled.
   */
  lemma HandOverLosesNothing(m: Manager, n: Manager, ready: Ready, r: Request)
    requires Inv(m) && Balanced(m, r)
    requires Inv(n) && Balanced(n, r) && !Dismissed(n)
    ensures var m', n' := CopyTo(m), Receive(n, HandOver(m), ready, m.limit);
      && AllQueuesEmpty(m') && m'.ongoing == []
      && n'.books.accepted == n.books.accepted + multiset(HandOver(m)) && n'.limit == m.limit
      && Inv(m') && Balanced(m', r) && Inv(n') && Balanced(n', r)
  {
    hide HandOver, ValidBatch, Places, Receive, FairLog, Awake;
    CopyKeepsInv(m);
    CopyBalances(m, r);
    ReceiveAccepts(n, HandOver(m), ready, m.limit, r);
  }
}
