/** What runs of the scheduler promise beyond its invariants: the queues drain, and END is final but for one call. */
module SchedulerRuns {
  import opened Common
  import opened BatchQueue
  import opened Batching
  import opened Scheduler

  // ---- leaving END ----

  /** A manager that has ended stays so, except when it is closed again, gently, with a connection still set. */
  lemma EndIsLeftIff(m: Manager, e: Event)
    requires Sized(m) && m.status == END
    ensures Step(m, e).status != END <==> e == CloseManager(true) && m.active
  {
  }

  /** Closing at once while a batch is on the wire, then closing gently. */
  lemma ClosedTwice(r: Request, ready: Ready)
    requires ready(r)
    ensures var es := [Add(r, ready), CloseManager(false), CloseManager(true)];
      Run(Init(), es[..2]).status == END && Run(Init(), es).status == ENDING
  {
    hide Dequeue, Enqueue, Candidates;
    var es := [Add(r, ready), CloseManager(false), CloseManager(true)];
    var added := Enqueue(Init(), r);
    OnlyRequestIsSendable(r, ready);
    EnqueueFacts(Init(), r);
    DequeueFacts(added, ready);
    var sent := Step(Init(), es[0]);
    assert sent.status == WAITING && sent.active;
    var ended := Step(sent, es[1]);
    assert es[..2][1..] == [es[1]] && es[1..][1..] == [es[2]] && [es[1]][1..] == [] && [es[2]][1..] == [];
    assert Run(Init(), es[..2]) == Run(sent, [es[1]]) == Run(ended, []);
    assert Run(Init(), es) == Run(sent, es[1..]) == Run(ended, [es[2]]) == Run(Step(ended, es[2]), []);
  }

  lemma OnlyRequestIsSendable(r: Request, ready: Ready)
    requires ready(r)
    ensures Candidates(Enqueue(Init(), r).queues, ready) != {}
  {
    var m, q := Enqueue(Init(), r), QueueFor(r.kind);
    assert m.queues[q].entries[0].request == r;
    assert q in Candidates(m.queues, ready);
  }

  lemma DismissedStep(m: Manager, e: Event)
    requires Sized(m) && Dismissed(m)
    ensures var m' := Step(m, e);
      Dismissed(m') && m'.log == m.log && m'.books.accepted == m.books.accepted
  {
    hide Dequeue, Enqueue, HandOver;
  }

  /** A dismissed manager stays dismissed, takes no request and sends none, whatever is called. */
  lemma {:induction false} DismissedForGood(m: Manager, es: seq<Event>)
    requires Inv(m) && Dismissed(m)
    ensures var m' := Run(m, es);
      Inv(m') && Dismissed(m') && m'.log == m.log && m'.books.accepted == m.books.accepted
    decreases |es|
  {
    hide Step, FairLog, Awake;
    if es != [] {
      StepKeepsInv(m, es[0]);
      DismissedStep(m, es[0]);
      DismissedForGood(Step(m, es[0]), es[1..]);
    }
  }

  /** A gentle closing waits for the batch on the wire and no longer: when that is over, after anything but a
      second closing, the manager has ended and its connection is given up. */
  lemma GentleClosingEnds(m: Manager, es: seq<Event>)
    requires Inv(m) && !Dismissed(m) && m.open
    requires forall e :: e in es ==> e != Over && !e.CloseManager?
    ensures var closing := Run(Step(m, CloseManager(true)), es);
      && closing.status == ENDING && closing.open
      && Step(closing, Over).status == END && !Step(closing, Over).open && !Step(closing, Over).active
  {
    hide FairLog;
    StepKeepsInv(m, CloseManager(true));
    StaysEnding(Step(m, CloseManager(true)), es);
  }

  lemma {:induction false} StaysEnding(m: Manager, es: seq<Event>)
    requires Inv(m) && m.status == ENDING && m.open && forall e :: e in es ==> e != Over && !e.CloseManager?
    ensures Inv(Run(m, es)) && Run(m, es).status == ENDING && Run(m, es).open
    decreases |es|
  {
    hide Dequeue, Enqueue, FairLog;
    if es != [] {
      StepKeepsInv(m, es[0]);
      assert forall e :: e in es[1..] ==> e in es;
      StaysEnding(Step(m, es[0]), es[1..]);
    }
  }

  // ---- every batch has one address ----

  /** Requests that go to the same address in the same way: messages, heartbeats, destroy requests, all others. */
  predicate SameAddress(a: Kind, b: Kind) {
    a.Message? == b.Message? && a.Heartbeat? == b.Heartbeat? && a.Destroy? == b.Destroy?
  }

  ghost predicate Holds(b: Batch, kind: Kind) {
    forall i :: 0 <= i < |b.entries| ==> SameAddress(b.entries[i].request.kind, kind)
  }

  ghost predicate OneAddress(rs: seq<Request>) {
    forall i, j :: 0 <= i < |rs| && 0 <= j < |rs| ==> SameAddress(rs[i].kind, rs[j].kind)
  }

  /** Messages, control requests, destroy requests and heartbeats are kept apart, and each batch was of one sort. */
  ghost predicate Routed(m: Manager) {
    && Sized(m)
    && Holds(m.queues[0], Message) && Holds(m.queues[1], Constrain)
    && Holds(m.queues[2], Destroy("")) && Holds(m.queues[3], Heartbeat)
    && forall k :: 0 <= k < |m.log| ==> OneAddress(m.log[k].requests)
  }

  lemma {:induction false} KeepIsPart(rs: seq<Request>, ready: Ready, want: bool, r: Request)
    requires r in Keep(rs, ready, want)
    ensures r in rs
  {
    if rs != [] && r != rs[0] { KeepIsPart(rs[1..], ready, want, r); }
  }

  lemma SentHasOneAddress(b: Batch, limit: nat, ready: Ready, kind: Kind)
    requires Holds(b, kind)
    ensures OneAddress(Sent(Requests(b.entries), limit, ready))
  {
    hide Keep, Consumed;
    var rs := Requests(b.entries);
    var sent := Sent(rs, limit, ready);
    forall i | 0 <= i < |sent| ensures SameAddress(sent[i].kind, kind) {
      KeepIsPart(rs[..Consumed(rs, limit, ready)], ready, true, sent[i]);
      var j :| 0 <= j < |rs| && rs[j] == sent[i];
      assert rs[j] == b.entries[j].request;
    }
  }

  lemma TurnKeepsRouted(m: Manager, ready: Ready, candidates: set<nat>)
    requires Routed(m)
    ensures Routed(Turn(m, ready, candidates))
  {
    hide Sent, Aborted, Consumed, OneAddress;
    var q := Rotate(m.nextQueue);
    var kind := [Message, Constrain, Destroy(""), Heartbeat][q];
    SentHasOneAddress(m.queues[q], m.limit, ready, kind);
  }

  lemma {:induction false} TryQueuesKeepsRouted(m: Manager, c: nat, ready: Ready, candidates: set<nat>)
    requires Routed(m) && c <= QUEUES
    ensures Routed(TryQueues(m, c, ready, candidates))
    decreases QUEUES - c
  {
    hide Turn, Holds, OneAddress;
    if c < QUEUES {
      TurnKeepsRouted(m, ready, candidates);
      TryQueuesKeepsRouted(Turn(m, ready, candidates), c + 1, ready, candidates);
    }
  }

  lemma EnqueueKeepsRouted(m: Manager, r: Request)
    requires Routed(m)
    ensures Routed(Enqueue(m, r))
  {
    hide OneAddress, KeyOf;
  }

  lemma StepKeepsRouted(m: Manager, e: Event)
    requires Routed(m)
    ensures Routed(Step(m, e))
  {
    hide Enqueue, Dequeue, OneAddress, HandOver;
    match e {
      case Add(r, ready) =>
        EnqueueKeepsRouted(m, r);
        DequeueKeepsRouted(Enqueue(m, r), ready);
      case RunTask(phase, ready) => DequeueKeepsRouted(m.(tasks := m.tasks - multiset{phase}), ready);
      case _ =>
    }
  }

  lemma DequeueKeepsRouted(m: Manager, ready: Ready)
    requires Routed(m)
    ensures Routed(Dequeue(m, ready))
  {
    hide TryQueues, Candidates, Holds, OneAddress;
    TryQueuesKeepsRouted(m, 0, ready, Candidates(m.queues, ready));
  }

  /** In every run destroy requests wait in a queue of their own, and no batch mixes them, or messages or
      heartbeats, with anything else: they go to other addresses. */
  lemma {:induction false} EveryBatchHasOneAddress(m: Manager, es: seq<Event>)
    requires Routed(m)
    ensures var m' := Run(m, es);
      && Routed(m')
      && (forall i :: 0 <= i < |m'.queues[1].entries| ==> !m'.queues[1].entries[i].request.kind.Destroy?)
      && (forall i :: 0 <= i < |m'.queues[2].entries| ==> m'.queues[2].entries[i].request.kind.Destroy?)
      && forall k :: 0 <= k < |m'.log| ==> OneAddress(m'.log[k].requests)
    decreases |es|
  {
    hide Step, OneAddress;
    if es != [] {
      StepKeepsRouted(m, es[0]);
      EveryBatchHasOneAddress(Step(m, es[0]), es[1..]);
    }
  }

  lemma InitRouted()
    ensures Routed(Init())
  {
  }

  // ---- messages leave in order ----

  const IsMessage: Ready := (r: Request) => r.kind.Message?

  function MessagesIn(rs: seq<Request>): seq<Request> { Keep(rs, IsMessage, true) }

  /** The messages of all batches so far, in the order in which they went out. */
  function MessagesSent(log: seq<Shipment>): seq<Request>
    decreases |log|
  {
    if log == [] then [] else MessagesSent(log[..|log| - 1]) + MessagesIn(log[|log| - 1].requests)
  }

  /** The messages sent and those that wait behind them. */
  function MessageLine(m: Manager): seq<Request>
    requires Sized(m)
  {
    MessagesSent(m.log) + MessagesIn(Requests(m.queues[0].entries))
  }

  /** The message that an event gives to a manager. */
  function Given(m: Manager, e: Event): seq<Request> {
    if e.Add? && e.request.kind.Message? && !Dismissed(m) then [e.request] else []
  }

  /** The messages that a run gives to the manager, in the order in which it takes them. */
  function MessagesGiven(m: Manager, es: seq<Event>): seq<Request>
    requires Sized(m)
    decreases |es|
  {
    if es == [] then [] else Given(m, es[0]) + MessagesGiven(Step(m, es[0]), es[1..])
  }

  lemma {:induction false} KeepIsSubsequence(rs: seq<Request>, ready: Ready, want: bool)
    ensures Subsequence(Keep(rs, ready, want), rs)
    decreases |rs|
  {
    if rs != [] {
      var n := |rs| - 1;
      KeepNext(rs, n, ready, want);
      assert rs[..n + 1] == rs && rs == rs[..n] + [rs[n]];
      KeepIsSubsequence(rs[..n], ready, want);
      SubsequenceSnoc(Keep(rs[..n], ready, want), rs[..n], rs[n]);
    }
  }

  ghost predicate OnlyMessages(rs: seq<Request>) { forall i :: 0 <= i < |rs| ==> rs[i].kind.Message? }

  lemma {:induction false} AllMessages(rs: seq<Request>)
    requires OnlyMessages(rs)
    ensures MessagesIn(rs) == rs
  {
    if rs != [] { AllMessages(rs[1..]); }
  }

  lemma {:induction false} NoMessages(rs: seq<Request>)
    requires forall i :: 0 <= i < |rs| ==> !rs[i].kind.Message?
    ensures MessagesIn(rs) == []
  {
    if rs != [] { NoMessages(rs[1..]); }
  }

  /** What a batch takes off the message queue leaves the rest behind it, in order. */
  lemma TakenInOrder(rs: seq<Request>, n: nat, ready: Ready)
    requires n <= |rs| && OnlyMessages(rs)
    ensures Subsequence(MessagesIn(Keep(rs[..n], ready, true)) + MessagesIn(rs[n..]), MessagesIn(rs))
  {
    MessagesSplit(rs, n);
    hide Keep, MessagesIn, Subsequence, OnlyMessages;
    var front, back := rs[..n], rs[n..];
    assert front + back == rs;
    var kept := Keep(front, ready, true);
    KeptMessages(front, ready);
    AllMessages(kept);
    AllMessages(back);
    AllMessages(rs);
    KeepIsSubsequence(front, ready, true);
    SubsequenceAppend(kept, front, back);
  }

  lemma MessagesSplit(rs: seq<Request>, n: nat)
    requires n <= |rs| && OnlyMessages(rs)
    ensures OnlyMessages(rs[..n]) && OnlyMessages(rs[n..])
  {
  }

  lemma KeptMessages(rs: seq<Request>, ready: Ready)
    requires OnlyMessages(rs)
    ensures OnlyMessages(Keep(rs, ready, true))
  {
    hide Keep;
    var kept := Keep(rs, ready, true);
    forall i | 0 <= i < |kept| ensures kept[i].kind.Message? { KeepIsPart(rs, ready, true, kept[i]); }
  }

  lemma SentSnoc(log: seq<Shipment>, s: Shipment)
    ensures MessagesSent(log + [s]) == MessagesSent(log) + MessagesIn(s.requests)
  {
    assert (log + [s])[..|log|] == log;
  }

  lemma RequestsOf(b: Batch)
    ensures Requests(b.entries) == seq(|b.entries|, i requires 0 <= i < |b.entries| => b.entries[i].request)
  {
  }

  lemma SendFromKeepsLine(m: Manager, q: nat, ready: Ready, candidates: set<nat>)
    requires Routed(m) && q < QUEUES
    ensures Subsequence(MessageLine(SendFrom(m, q, ready, candidates)), MessageLine(m))
  {
    hide Keep, Consumed, MessagesIn, MessagesSent, OneAddress;
    var b, m' := m.queues[q], SendFrom(m, q, ready, candidates);
    var rs := Requests(b.entries);
    var n, sent := Consumed(rs, m.limit, ready), Sent(rs, m.limit, ready);
    SentSnoc(m.log, Shipment(q, sent, candidates));
    assert Requests(b.entries[n..]) == rs[n..];
    if q == 0 {
      MessageBatch(m, ready, candidates);
    } else {
      OtherBatch(m, q, ready);
      assert MessagesSent(m.log) + [] == MessagesSent(m.log);
      SubsequenceOfItself(MessageLine(m));
    }
  }

  lemma OtherBatch(m: Manager, q: nat, ready: Ready)
    requires Routed(m) && 0 < q < QUEUES
    ensures MessagesIn(Sent(Requests(m.queues[q].entries), m.limit, ready)) == []
  {
    hide Consumed, OneAddress;
    var rs := Requests(m.queues[q].entries);
    var sent := Sent(rs, m.limit, ready);
    forall i | 0 <= i < |sent| ensures !sent[i].kind.Message? {
      KeepIsPart(rs[..Consumed(rs, m.limit, ready)], ready, true, sent[i]);
      var j :| 0 <= j < |rs| && rs[j] == sent[i];
      assert rs[j] == m.queues[q].entries[j].request;
    }
    hide Sent;
    NoMessages(sent);
  }

  lemma MessageBatch(m: Manager, ready: Ready, candidates: set<nat>)
    requires Routed(m)
    ensures Subsequence(MessageLine(SendFrom(m, 0, ready, candidates)), MessageLine(m))
  {
    hide Keep, Consumed, MessagesIn, MessagesSent, OneAddress, Subsequence;
    var b, m' := m.queues[0], SendFrom(m, 0, ready, candidates);
    var rs := Requests(b.entries);
    var n, sent, before := Consumed(rs, m.limit, ready), Sent(rs, m.limit, ready), MessagesSent(m.log);
    TakenInOrder(rs, n, ready);
    SentSnoc(m.log, Shipment(0, sent, candidates));
    assert Requests(b.entries[n..]) == rs[n..];
    SubsequencePrepend(before, MessagesIn(sent) + MessagesIn(rs[n..]), MessagesIn(rs));
    ConcatAssociative(before, MessagesIn(sent), MessagesIn(rs[n..]));
    if sent == [] {
      NoMessages([]);
      assert before + MessagesIn(sent) == before;
    }
  }

  lemma {:induction false} TryQueuesKeepsLine(m: Manager, c: nat, ready: Ready, candidates: set<nat>)
    requires Routed(m) && c <= QUEUES
    ensures Subsequence(MessageLine(TryQueues(m, c, ready, candidates)), MessageLine(m))
    decreases QUEUES - c
  {
    hide SendFrom, Holds, OneAddress, Subsequence, MessagesSent, MessagesIn;
    SubsequenceOfItself(MessageLine(m));
    if c < QUEUES {
      var turned := m.(nextQueue := Rotate(m.nextQueue));
      assert Routed(turned) by { SameRouted(m, turned); }
      SendFromKeepsLine(turned, turned.nextQueue, ready, candidates);
      var m1 := Turn(m, ready, candidates);
      TurnKeepsRouted(m, ready, candidates);
      TryQueuesKeepsLine(m1, c + 1, ready, candidates);
      SubsequenceTransitive(MessageLine(TryQueues(m1, c + 1, ready, candidates)), MessageLine(m1), MessageLine(m));
    }
  }

  lemma SameRouted(m: Manager, m': Manager)
    requires Routed(m) && Sized(m') && m'.queues == m.queues && m'.log == m.log
    ensures Routed(m')
  {
  }

  lemma EnqueueGrowsLine(m: Manager, r: Request)
    requires Routed(m) && ValidQueues(m)
    ensures MessageLine(Enqueue(m, r)) == MessageLine(m) + if r.kind.Message? then [r] else []
  {
    hide Keep, MessagesSent, OneAddress;
    var b, m' := m.queues[0], Enqueue(m, r);
    if r.kind.Message? {
      NumberedKeyIsNew(b);
      var rs, rs' := Requests(b.entries), Requests(m'.queues[0].entries);
      assert rs' == rs + [r];
      KeepConcat(rs, [r], IsMessage, true);
      AllMessages([r]);
      assert MessagesSent(m.log) + (MessagesIn(rs) + [r]) == MessagesSent(m.log) + MessagesIn(rs) + [r];
    } else {
      assert m'.queues[0] == b;
    }
  }

  lemma DequeueKeepsLine(m: Manager, ready: Ready)
    requires Routed(m)
    ensures Subsequence(MessageLine(Dequeue(m, ready)), MessageLine(m))
  {
    hide TryQueues, Candidates, Holds, OneAddress, Subsequence, MessageLine;
    TryQueuesKeepsLine(m, 0, ready, Candidates(m.queues, ready));
  }

  lemma AddKeepsLine(m: Manager, r: Request, ready: Ready)
    requires Routed(m) && ValidQueues(m) && !Dismissed(m)
    ensures Subsequence(MessageLine(AddRequest(m, r, ready)), MessageLine(m) + if r.kind.Message? then [r] else [])
  {
    hide Enqueue, Dequeue, Holds, OneAddress, Subsequence, MessageLine, ValidQueues;
    EnqueueGrowsLine(m, r);
    EnqueueKeepsRouted(m, r);
    SubsequenceOfItself(MessageLine(Enqueue(m, r)));
    DequeueKeepsLine(Enqueue(m, r), ready);
  }

  lemma CopyKeepsLine(m: Manager)
    requires Routed(m)
    ensures Subsequence(MessageLine(CopyTo(m)), MessageLine(m))
  {
    var before, waiting := MessagesSent(m.log), MessagesIn(Requests(m.queues[0].entries));
    NoMessages([]);
    hide Keep, Holds, OneAddress, MessagesSent, HandOver;
    SubsequencePrepend(before, [], waiting);
  }

  lemma StepKeepsLine(m: Manager, e: Event)
    requires Routed(m) && ValidQueues(m)
    ensures Subsequence(MessageLine(Step(m, e)), MessageLine(m) + Given(m, e))
  {
    hide Dequeue, Enqueue, CopyTo, Holds, OneAddress, Subsequence, MessageLine, ValidQueues;
    if e.Add? && !Dismissed(m) {
      AddKeepsLine(m, e.request, e.ready);
    } else {
      assert MessageLine(m) + Given(m, e) == MessageLine(m);
      if e.RunTask? && e.phase in m.tasks && e.phase == m.phase && m.status == IDLE {
        var taken := m.(tasks := m.tasks - multiset{e.phase});
        SameLine(m, taken);
        DequeueKeepsLine(taken, e.ready);
      } else if e == Copy {
        CopyKeepsLine(m);
      } else {
        SameLine(m, Step(m, e));
      }
    }
  }

  lemma SameLine(m: Manager, m': Manager)
    requires Sized(m) && Sized(m') && m'.queues == m.queues && m'.log == m.log
    ensures MessageLine(m') == MessageLine(m) && Subsequence(MessageLine(m'), MessageLine(m))
  {
    SubsequenceOfItself(MessageLine(m));
  }

  lemma SubsequenceThrough<X>(a: seq<X>, b: seq<X>, c: seq<X>, first: seq<X>, rest: seq<X>)
    requires Subsequence(a, b + rest) && Subsequence(b, c + first)
    ensures Subsequence(a, c + (first + rest))
  {
    hide Subsequence;
    SubsequenceAppend(b, c + first, rest);
    ConcatAssociative(c, first, rest);
    SubsequenceTransitive(a, b + rest, c + (first + rest));
  }

  const ANY: Request := Request(0, Heartbeat, 1, 1)

  lemma {:induction false} RunKeepsLine(m: Manager, es: seq<Event>)
    requires Routed(m) && Balanced(m, ANY)
    ensures Subsequence(MessageLine(Run(m, es)), MessageLine(m) + MessagesGiven(m, es))
    decreases |es|
  {
    hide Step, Holds, OneAddress, Balanced, Subsequence, MessageLine;
    if es == [] {
      SubsequenceOfItself(MessageLine(m));
      assert MessageLine(m) + [] == MessageLine(m);
    } else {
      var m1 := Step(m, es[0]);
      BalancedIsValid(m, ANY);
      StepKeepsRouted(m, es[0]);
      StepBalances(m, es[0], ANY);
      StepKeepsLine(m, es[0]);
      RunKeepsLine(m1, es[1..]);
      SubsequenceThrough(MessageLine(Run(m1, es[1..])), MessageLine(m1), MessageLine(m),
                         Given(m, es[0]), MessagesGiven(m1, es[1..]));
    }
  }

  /**
   In every run the messages that have left, and behind them those still queued, are some of the messages given to
   the manager in the very order in which it was given them: no message overtakes another; only those whose tutor
   does not want them sent, or that are handed over, drop out.
   */
  lemma MessagesLeaveInOrder(es: seq<Event>)
    ensures Subsequence(MessageLine(Run(Init(), es)), MessagesGiven(Init(), es))
  {
    InitRouted();
    assert Balanced(Init(), ANY);
    assert MessageLine(Init()) == [];
    RunKeepsLine(Init(), es);
    assert [] + MessagesGiven(Init(), es) == MessagesGiven(Init(), es);
  }

  lemma BalancedIsValid(m: Manager, r: Request)
    requires Balanced(m, r)
    ensures ValidQueues(m)
  {
  }

  // ---- the queues drain ----

  function Queued(m: Manager): nat
    requires Sized(m)
  {
    |m.queues[0].entries| + |m.queues[1].entries| + |m.queues[2].entries| + |m.queues[3].entries|
  }

  /** The batch on the wire, if any, comes to its end, and the dequeue task of the current phase runs. */
  function Round(m: Manager, ready: Ready): (m': Manager)
    requires Sized(m)
    ensures Sized(m')
  {
    var idle := Step(m, Over);
    Step(idle, RunTask(idle.phase, ready))
  }

  function Rounds(m: Manager, readies: seq<Ready>): (m': Manager)
    requires Sized(m)
    ensures Sized(m')
    decreases |readies|
  {
    if readies == [] then m else Rounds(Round(m, readies[0]), readies[1..])
  }

  lemma TurnShrinks(m: Manager, ready: Ready, candidates: set<nat>)
    requires Sized(m)
    ensures var m' := Turn(m, ready, candidates);
      Queued(m') <= Queued(m) && (|m'.log| > |m.log| ==> Queued(m') < Queued(m))
  {
    hide Sent, Consumed, Aborted;
    var b := m.queues[Rotate(m.nextQueue)];
    SentStartsWithFirst(Requests(b.entries), m.limit, ready);
  }

  lemma {:induction false} TryQueuesShrinks(m: Manager, c: nat, ready: Ready, candidates: set<nat>)
    requires Sized(m) && c <= QUEUES
    ensures var m' := TryQueues(m, c, ready, candidates);
      Queued(m') <= Queued(m) && (|m'.log| > |m.log| ==> Queued(m') < Queued(m))
    decreases QUEUES - c
  {
    hide Turn;
    if c < QUEUES {
      TurnShrinks(m, ready, candidates);
      TurnFacts(m, ready, candidates);
      TryQueuesShrinks(Turn(m, ready, candidates), c + 1, ready, candidates);
    }
  }

  lemma DequeueDrains(m: Manager, ready: Ready)
    requires Sized(m)
    ensures var m' := Dequeue(m, ready); Queued(m') < Queued(m) || Queued(m') == 0
  {
    hide TryQueues, Candidates;
    DequeueFacts(m, ready);
    TryQueuesShrinks(m, 0, ready, Candidates(m.queues, ready));
  }

  lemma RoundDrains(m: Manager, ready: Ready)
    requires Inv(m) && !Dismissed(m)
    ensures var m' := Round(m, ready);
      Inv(m') && !Dismissed(m') && (Queued(m') < Queued(m) || Queued(m') == 0)
  {
    hide Dequeue, FairLog;
    var idle := Step(m, Over);
    StepKeepsInv(m, Over);
    StepKeepsInv(idle, RunTask(idle.phase, ready));
    assert idle.status == IDLE && Queued(idle) == Queued(m);
    if idle.phase in idle.tasks {
      var taken := idle.(tasks := idle.tasks - multiset{idle.phase});
      DequeueDrains(taken, ready);
      DequeueFacts(taken, ready);
    }
  }

  /**
   However the tutors answer, an open manager has emptied its four queues after as many rounds as it held
   requests: every round sends something or finds nothing to send.
   */
  lemma {:induction false} QueuesDrain(m: Manager, readies: seq<Ready>)
    requires Inv(m) && !Dismissed(m) && |readies| >= Queued(m)
    ensures AllQueuesEmpty(Rounds(m, readies)) && Inv(Rounds(m, readies))
    decreases |readies|
  {
    hide Round, FairLog, Awake;
    if readies != [] {
      RoundDrains(m, readies[0]);
      QueuesDrain(Round(m, readies[0]), readies[1..]);
    }
  }

  // ---- a hand-over to a dismissed manager ----

  lemma FirstHandedOver(m: Manager)
    requires Sized(m) && HandOver(m) != []
    ensures var q := FirstQueue(m.queues, 0);
      if m.ongoing != [] then HandOver(m)[0] == m.ongoing[0]
      else q < QUEUES && HandOver(m)[0] == m.queues[q].entries[0].request
  {
  }

  lemma CopiesWithoutFirst(b: Batch, r: Request)
    requires b.entries != []
    ensures Copies(b, r) == Copies(WithoutFirst(b), r) + if b.entries[0].request == r then 1 else 0
  {
    var rs := Requests(b.entries);
    assert Requests(b.entries[1..]) == rs[1..];
    assert rs == [rs[0]] + rs[1..];
  }

  /** A hand-over that throws loses the request at hand, and no other. */
  lemma ThrownLosesOne(m: Manager, r: Request)
    requires Balanced(m, r) && HandOver(m) != []
    ensures Balanced(Thrown(m), r) <==> r != HandOver(m)[0]
  {
    hide Copies, ValidBatch, HandOver;
    FirstHandedOver(m);
    if m.ongoing != [] {
      assert m.ongoing == [m.ongoing[0]] + m.ongoing[1..];
    } else {
      var q := FirstQueue(m.queues, 0);
      DroppedIsValid(m.queues[q], 1);
      CopiesWithoutFirst(m.queues[q], r);
      QueueExchanged(m, Thrown(m), q, WithoutFirst(m.queues[q]), r);
    }
  }

  /**
   copyTo conserves every request if and only if it does not throw: otherwise the new manager accepts exactly
   what the old one held, and the old one is left empty.
   */
  lemma HandOverConservesIff(m: Manager, n: Manager, ready: Ready)
    requires Inv(m) && Inv(n) && (forall r :: Balanced(m, r) && Balanced(n, r))
    ensures Throws(m, n) ==> exists r :: !Balanced(Thrown(m), r)
    ensures !Throws(m, n) ==>
      var m', n' := Step(m, Copy), Receive(n, HandOver(m), ready, m.limit);
      && AllQueuesEmpty(m') && m'.ongoing == [] && n'.limit == m.limit
      && n'.books.accepted == n.books.accepted + multiset(HandOver(m))
      && Inv(m') && Inv(n') && forall r :: Balanced(m', r) && Balanced(n', r)
  {
    hide HandOver, Balanced, Receive, FairLog, Awake;
    if Throws(m, n) {
      ThrownLosesOne(m, HandOver(m)[0]);
    } else {
      CopyKeepsInv(m);
      forall r ensures Balanced(CopyTo(m), r) && Balanced(Receive(n, HandOver(m), ready, m.limit), r) {
        HandOverOf(m, n, ready, r);
      }
      HandOverOf(m, n, ready, Request(0, Heartbeat, 1, 1));
    }
  }

  lemma HandOverOf(m: Manager, n: Manager, ready: Ready, r: Request)
    requires Inv(m) && Inv(n) && Balanced(m, r) && Balanced(n, r) && !Throws(m, n)
    ensures var m', n' := CopyTo(m), Receive(n, HandOver(m), ready, m.limit);
      && n'.limit == m.limit && n'.books.accepted == n.books.accepted + multiset(HandOver(m))
      && Balanced(m', r) && Inv(n') && Balanced(n', r)
  {
    hide HandOver, ValidBatch, Places, FairLog, Awake;
    if Dismissed(n) {
      CopyBalances(m, r);
      StepKeepsInv(n, SetLimit(m.limit));
      StepBalances(n, SetLimit(m.limit), r);
    } else {
      HandOverLosesNothing(m, n, ready, r);
    }
  }
}
