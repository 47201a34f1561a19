/** EventDispatcher over EventsThread: registrations, a FIFO queue of tasks, and a worker that may be overtaken
    by removals at any point before it has looked at a task. */
module Listeners {
  import opened Common

  /** An event on its way to a registration; forced events are its start and its end. */
  datatype Task<E> = Task(event: E, wrapper: nat, forced: bool)

  datatype Wrapper<T> = Wrapper(listener: T, alive: bool)

  /** The worker has no task, has taken one off the queue, or has found that it applies. */
  datatype Worker<E> = Idle | Holding(task: Task<E>) | Applying(task: Task<E>)

  /**
   What happened to a registration: the events dispatched to it, how many of these the worker has looked at
   (seen) and how many of those it found it alive for (passed), and whether it has got past the start and end.
   */
  datatype History<E> = History(
    start: E, dispatched: seq<E>, end: Option<E>, started: bool, seen: nat, passed: nat, finished: bool)

  /** listeners: the registration of each listener; trace: the tasks that have been applied. */
  datatype Dispatcher<T, E> = Dispatcher(
    listeners: map<T, nat>, wrappers: seq<Wrapper<T>>, tasks: seq<Task<E>>, worker: Worker<E>, trace: seq<Task<E>>,
    history: seq<History<E>>)

  function Init<T, E>(): Dispatcher<T, E> { Dispatcher(map[], [], [], Idle, [], []) }

  function Queued<T, E>(d: Dispatcher<T, E>, t: Task<E>): Dispatcher<T, E> { d.(tasks := d.tasks + [t]) }

  /** Every registration has its history, and nothing refers to one that does not exist. */
  ghost predicate Sized<T, E>(d: Dispatcher<T, E>) {
    && |d.history| == |d.wrappers|
    && (forall l :: l in d.listeners ==> d.listeners[l] < |d.wrappers|)
    && (forall t :: t in Line(d) ==> t.wrapper < |d.wrappers|)
    && (forall t :: t in Out(d) ==> t.wrapper < |d.wrappers|)
  }

  /** What the worker has still to look at. */
  function Line<T, E>(d: Dispatcher<T, E>): seq<Task<E>> {
    (if d.worker.Holding? then [d.worker.task] else []) + d.tasks
  }

  /** What the worker has applied or is about to apply. */
  function Out<T, E>(d: Dispatcher<T, E>): seq<Task<E>> {
    d.trace + (if d.worker.Applying? then [d.worker.task] else [])
  }

  function AddListener<T, E>(d: Dispatcher<T, E>, l: T, start: E): Dispatcher<T, E> {
    if l in d.listeners then d
    else
      var w := |d.wrappers|;
      Queued(d.(listeners := d.listeners[l := w], wrappers := d.wrappers + [Wrapper(l, true)],
                history := d.history + [History(start, [], None, false, 0, 0, false)]),
             Task(start, w, true))
  }

  ghost function RemoveListener<T, E>(d: Dispatcher<T, E>, l: T, end: E): Dispatcher<T, E>
    requires Sized(d)
  {
    if l !in d.listeners then d
    else
      var w := d.listeners[l];
      Queued(d.(listeners := d.listeners - {l}, wrappers := d.wrappers[w := d.wrappers[w].(alive := false)],
                history := d.history[w := d.history[w].(end := Some(end))]),
             Task(end, w, true))
  }

  /** One turn of the loop of dispatchEvent. */
  ghost function DispatchTo<T, E>(d: Dispatcher<T, E>, w: nat, event: E): Dispatcher<T, E>
    requires Sized(d) && w < |d.wrappers|
  {
    Queued(d.(history := d.history[w := d.history[w].(dispatched := d.history[w].dispatched + [event])]),
           Task(event, w, false))
  }

  /** The loop of dispatchEvent over the listeners, in any order. */
  ghost function Dispatch<T, E>(d: Dispatcher<T, E>, event: E, order: seq<T>): (d': Dispatcher<T, E>)
    requires Sized(d) && forall l :: l in order ==> l in d.listeners
    decreases |order|
  {
    if order == [] then d else Dispatch(DispatchTo(d, d.listeners[order[0]], event), event, order[1..])
  }

  /** The worker takes the next task. */
  function Pop<T, E>(d: Dispatcher<T, E>): Dispatcher<T, E> {
    if d.worker.Idle? && d.tasks != [] then d.(worker := Holding(d.tasks[0]), tasks := d.tasks[1..]) else d
  }

  function Looked<E>(h: History<E>, forced: bool, alive: bool): History<E> {
    if !forced then h.(seen := h.seen + 1, passed := if alive then h.passed + 1 else h.passed)
    else if !h.started then h.(started := true)
    else h.(finished := true)
  }

  /** The worker looks whether the task applies. */
  ghost function Check<T, E>(d: Dispatcher<T, E>): Dispatcher<T, E>
    requires Sized(d)
  {
    if !d.worker.Holding? then d
    else
      var t := d.worker.task;
      assert t in Line(d);
      var alive := d.wrappers[t.wrapper].alive;
      d.(worker := if alive || t.forced then Applying(t) else Idle,
         history := d.history[t.wrapper := Looked(d.history[t.wrapper], t.forced, alive)])
  }

  /** The worker hands the event to the listener. */
  function Apply<T, E>(d: Dispatcher<T, E>): Dispatcher<T, E> {
    if d.worker.Applying? then d.(worker := Idle, trace := d.trace + [d.worker.task]) else d
  }

  datatype Event<T, E> =
    | Add(listener: T, start: E)
    | Remove(listener: T, end: E)
    | Send(event: E, order: seq<T>)  // order: the iteration over the listeners
    | WorkerTakes
    | WorkerLooks
    | WorkerApplies

  ghost predicate Enumerates<T>(order: seq<T>, keys: set<T>) {
    && (forall l :: l in order ==> l in keys)
    && (forall l :: l in keys ==> l in order)
    && (forall i, j :: 0 <= i < j < |order| ==> order[i] != order[j])
  }

  ghost function Step<T, E>(d: Dispatcher<T, E>, e: Event<T, E>): Dispatcher<T, E>
    requires Sized(d)
  {
    match e
    case Add(l, start) => AddListener(d, l, start)
    case Remove(l, end) => RemoveListener(d, l, end)
    case Send(event, order) => if Enumerates(order, d.listeners.Keys) then Dispatch(d, event, order) else d
    case WorkerTakes => Pop(d)
    case WorkerLooks => Check(d)
    case WorkerApplies => Apply(d)
  }

  // ---- the tasks of one registration ----

  function Of<E>(ts: seq<Task<E>>, w: nat): seq<Task<E>> {
    if ts == [] then [] else (if ts[0].wrapper == w then [ts[0]] else []) + Of(ts[1..], w)
  }

  lemma {:induction false} OfConcat<E>(a: seq<Task<E>>, b: seq<Task<E>>, w: nat)
    ensures Of(a + b, w) == Of(a, w) + Of(b, w)
    decreases |a|
  {
    if a == [] {
      assert a + b == b;
    } else {
      assert (a + b)[1..] == a[1..] + b && (a + b)[0] == a[0];
      OfConcat(a[1..], b, w);
      ConcatAssociative(if a[0].wrapper == w then [a[0]] else [], Of(a[1..], w), Of(b, w));
    }
  }

  function Plain<E>(es: seq<E>, w: nat): (ts: seq<Task<E>>)
    ensures |ts| == |es| && forall i :: 0 <= i < |es| ==> ts[i] == Task(es[i], w, false)
  {
    seq(|es|, i requires 0 <= i < |es| => Task(es[i], w, false))
  }

  /** What is still to come for a registration. */
  function ToCome<E>(h: History<E>, w: nat): seq<Task<E>>
    requires h.seen <= |h.dispatched|
  {
    (if h.started then [] else [Task(h.start, w, true)]) + Plain(h.dispatched[h.seen..], w)
      + (if h.end.Some? && !h.finished then [Task(h.end.value, w, true)] else [])
  }

  /** What a registration has got. */
  function Got<E>(h: History<E>, w: nat): seq<Task<E>>
    requires h.passed <= |h.dispatched|
  {
    (if h.started then [Task(h.start, w, true)] else []) + Plain(h.dispatched[..h.passed], w)
      + (if h.end.Some? && h.finished then [Task(h.end.value, w, true)] else [])
  }

  ghost predicate HistoryOk<E>(h: History<E>, alive: bool) {
    && h.passed <= h.seen <= |h.dispatched|
    && (!h.started ==> h.seen == 0 && !h.finished)
    && (alive ==> h.passed == h.seen)
    && (alive <==> h.end == None)
    && (h.finished ==> h.end.Some? && h.seen == |h.dispatched|)
  }

  ghost predicate WrapperOk<T, E>(d: Dispatcher<T, E>, w: nat)
    requires Sized(d) && w < |d.wrappers|
  {
    var h := d.history[w];
    HistoryOk(h, d.wrappers[w].alive) && Of(Line(d), w) == ToCome(h, w) && Of(Out(d), w) == Got(h, w)
  }

  /** A listener is registered under its latest registration, which is the only one alive. */
  ghost predicate Registered<T, E>(d: Dispatcher<T, E>)
    requires Sized(d)
  {
    && (forall l :: l in d.listeners ==> d.wrappers[d.listeners[l]] == Wrapper(l, true))
    && (forall w :: 0 <= w < |d.wrappers| && d.wrappers[w].alive ==>
          d.wrappers[w].listener in d.listeners && d.listeners[d.wrappers[w].listener] == w)
    && (forall v, w :: 0 <= v < w < |d.wrappers| && d.wrappers[w].listener == d.wrappers[v].listener ==>
          !d.wrappers[v].alive)
  }

  ghost predicate Inv<T, E>(d: Dispatcher<T, E>) {
    Sized(d) && Registered(d) && forall w :: 0 <= w < |d.wrappers| ==> WrapperOk(d, w)
  }

  /** Queueing one more task. */
  lemma LineGrows<T, E>(d: Dispatcher<T, E>, t: Task<E>, w: nat)
    ensures Of(Line(Queued(d, t)), w) == Of(Line(d), w) + (if t.wrapper == w then [t] else [])
    ensures Line(Queued(d, t)) == Line(d) + [t]
  {
    OfConcat(Line(d), [t], w);
    assert Line(Queued(d, t)) == Line(d) + [t];
    assert Of([t], w) == (if t.wrapper == w then [t] else []) + Of([t][1..], w);
  }

  // ---- every step keeps the invariant ----

  lemma AddKeepsWrapper<T, E>(d: Dispatcher<T, E>, l: T, start: E, w: nat)
    requires Inv(d) && l !in d.listeners && w <= |d.wrappers|
    ensures var d' := AddListener(d, l, start); Sized(d') && WrapperOk(d', w)
  {
    hide Registered, Line, Out;
    var d' := AddListener(d, l, start);
    AddIsSized(d, l, start);
    var new_ := d.(listeners := d'.listeners, wrappers := d'.wrappers, history := d'.history);
    LineGrows(new_, Task(start, |d.wrappers|, true), w);
    SameLine(d, new_);
    SameOut(d, d');
    if w == |d.wrappers| {
      NoneOf(Line(d), w);
      NoneOf(Out(d), w);
    } else {
      assert WrapperOk(d, w);
      assert d'.history[w] == d.history[w];
    }
  }

  lemma SameLine<T, E>(d: Dispatcher<T, E>, d': Dispatcher<T, E>)
    requires d'.worker == d.worker && d'.tasks == d.tasks
    ensures Line(d') == Line(d)
  {
  }

  lemma SameOut<T, E>(d: Dispatcher<T, E>, d': Dispatcher<T, E>)
    requires d'.worker == d.worker && d'.trace == d.trace
    ensures Out(d') == Out(d)
  {
  }

  lemma {:induction false} NoneOf<E>(ts: seq<Task<E>>, w: nat)
    requires forall t :: t in ts ==> t.wrapper != w
    ensures Of(ts, w) == []
    decreases |ts|
  {
    if ts != [] {
      assert ts[0] in ts;
      NoneOf(ts[1..], w);
    }
  }

  lemma AddIsSized<T, E>(d: Dispatcher<T, E>, l: T, start: E)
    requires Sized(d)
    ensures Sized(AddListener(d, l, start))
  {
  }

  lemma AddKeepsInv<T, E>(d: Dispatcher<T, E>, l: T, start: E)
    requires Inv(d)
    ensures Inv(AddListener(d, l, start))
  {
    hide WrapperOk;
    if l !in d.listeners {
      var d' := AddListener(d, l, start);
      AddIsSized(d, l, start);
      forall w | 0 <= w < |d'.wrappers| ensures WrapperOk(d', w) { AddKeepsWrapper(d, l, start, w); }
    }
  }

  lemma RemoveKeepsInv<T, E>(d: Dispatcher<T, E>, l: T, end: E)
    requires Inv(d)
    ensures Inv(RemoveListener(d, l, end))
  {
    if l in d.listeners {
      var d', v := RemoveListener(d, l, end), d.listeners[l];
      assert Line(d') == Line(d) + [Task(end, v, true)];
      SameOut(d, d');
      assert Sized(d');
      forall w | 0 <= w < |d'.wrappers| ensures WrapperOk(d', w) {
        assert WrapperOk(d, w);
        var mid := d.(listeners := d'.listeners, wrappers := d'.wrappers, history := d'.history);
        LineGrows(mid, Task(end, v, true), w);
        SameLine(d, mid);
      }
    }
  }

  lemma DispatchToKeepsWrapper<T, E>(d: Dispatcher<T, E>, w: nat, event: E, v: nat)
    requires Inv(d) && w < |d.wrappers| && d.wrappers[w].alive && v < |d.wrappers|
    ensures var d' := DispatchTo(d, w, event); Sized(d') && WrapperOk(d', v)
  {
    hide Registered, Out, Line;
    var d', mid := DispatchTo(d, w, event), d.(history := DispatchTo(d, w, event).history);
    LineGrows(mid, Task(event, w, false), v);
    SameLine(d, mid);
    SameOut(d, d');
    assert WrapperOk(d, v);
    if v == w { MoreToCome(d.history[w], event, w); }
  }

  lemma MoreToCome<E>(h: History<E>, event: E, w: nat)
    requires HistoryOk(h, true)
    ensures var h' := h.(dispatched := h.dispatched + [event]);
      HistoryOk(h', true) && ToCome(h', w) == ToCome(h, w) + [Task(event, w, false)] && Got(h', w) == Got(h, w)
  {
  }

  lemma DispatchToKeepsInv<T, E>(d: Dispatcher<T, E>, w: nat, event: E)
    requires Inv(d) && w < |d.wrappers| && d.wrappers[w].alive
    ensures Inv(DispatchTo(d, w, event))
  {
    hide WrapperOk;
    var d' := DispatchTo(d, w, event);
    forall v | 0 <= v < |d'.wrappers| ensures Sized(d') && WrapperOk(d', v) { DispatchToKeepsWrapper(d, w, event, v); }
  }

  lemma {:induction false} DispatchKeepsInv<T, E>(d: Dispatcher<T, E>, event: E, order: seq<T>)
    requires Inv(d) && forall l :: l in order ==> l in d.listeners
    ensures Inv(Dispatch(d, event, order))
    decreases |order|
  {
    hide WrapperOk;
    if order != [] {
      DispatchToKeepsInv(d, d.listeners[order[0]], event);
      DispatchKeepsInv(DispatchTo(d, d.listeners[order[0]], event), event, order[1..]);
    }
  }

  lemma PopKeepsInv<T, E>(d: Dispatcher<T, E>)
    requires Inv(d)
    ensures Inv(Pop(d))
  {
    if d.worker.Idle? && d.tasks != [] {
      assert Line(Pop(d)) == Line(d);
      SameContents(d, Pop(d));
    }
  }

  lemma ApplyKeepsInv<T, E>(d: Dispatcher<T, E>)
    requires Inv(d)
    ensures Inv(Apply(d))
  {
    if d.worker.Applying? {
      assert Out(Apply(d)) == Out(d) && Line(Apply(d)) == Line(d);
      SameContents(d, Apply(d));
    }
  }

  lemma SameContents<T, E>(d: Dispatcher<T, E>, d': Dispatcher<T, E>)
    requires Inv(d) && Line(d') == Line(d) && Out(d') == Out(d)
    requires d'.listeners == d.listeners && d'.wrappers == d.wrappers && d'.history == d.history
    ensures Inv(d')
  {
    hide Line, Out;
    forall w | 0 <= w < |d'.wrappers| ensures WrapperOk(d', w) { assert WrapperOk(d, w); }
  }

  /** What the worker looks at is the first thing still to come for its registration. */
  lemma FirstToCome<E>(h: History<E>, w: nat, alive: bool, rest: seq<Task<E>>, t: Task<E>)
    requires HistoryOk(h, alive) && ToCome(h, w) == [t] + rest
    ensures var h' := Looked(h, t.forced, alive);
      && HistoryOk(h', alive) && ToCome(h', w) == rest
      && Got(h', w) == Got(h, w) + (if alive || t.forced then [t] else [])
  {
    assert ToCome(h, w)[0] == t && ToCome(h, w)[1..] == rest;
    if h.started && h.seen < |h.dispatched| {
      NextIsDispatched(h, w, alive);
    }
  }

  lemma NextIsDispatched<E>(h: History<E>, w: nat, alive: bool)
    requires HistoryOk(h, alive) && h.started && h.seen < |h.dispatched|
    ensures var t, h' := Task(h.dispatched[h.seen], w, false), Looked(h, false, alive);
      && HistoryOk(h', alive) && ToCome(h, w) == [t] + ToCome(h', w)
      && Got(h', w) == Got(h, w) + (if alive then [t] else [])
  {
    hide Plain;
    PlainSplits(h.dispatched, h.seen, w);
    PlainSplits(h.dispatched, h.passed, w);
    var t := Task(h.dispatched[h.seen], w, false);
    ConcatAssociative([t], Plain(h.dispatched[h.seen + 1..], w),
                      if h.end.Some? && !h.finished then [Task(h.end.value, w, true)] else []);
  }

  lemma PlainSplits<E>(es: seq<E>, i: nat, w: nat)
    requires i < |es|
    ensures Plain(es[i..], w) == [Task(es[i], w, false)] + Plain(es[i + 1..], w)
    ensures Plain(es[..i + 1], w) == Plain(es[..i], w) + [Task(es[i], w, false)]
  {
  }

  lemma CheckSplits<T, E>(d: Dispatcher<T, E>)
    requires Sized(d) && d.worker.Holding?
    ensures var d', t := Check(d), d.worker.task;
      && Sized(d') && Line(d) == [t] + Line(d') && t.wrapper < |d.wrappers|
      && Out(d') == Out(d) + (if d.wrappers[t.wrapper].alive || t.forced then [t] else [])
  {
  }

  lemma CheckKeepsWrapper<T, E>(d: Dispatcher<T, E>, w: nat)
    requires Inv(d) && d.worker.Holding? && w < |d.wrappers|
    ensures Sized(Check(d)) && WrapperOk(Check(d), w)
  {
    hide Registered, Out, Line, ToCome, Got, HistoryOk, Looked;
    CheckSplits(d);
    var d', t := Check(d), d.worker.task;
    var news := if d.wrappers[t.wrapper].alive || t.forced then [t] else [];
    assert WrapperOk(d, w);
    OfConcat([t], Line(d'), w);
    OfConcat(Out(d), news, w);
    assert Of([t], w) == if t.wrapper == w then [t] else [];
    if t.wrapper == w { FirstToCome(d.history[w], w, d.wrappers[w].alive, Of(Line(d'), w), t); }
  }

  lemma CheckKeepsInv<T, E>(d: Dispatcher<T, E>)
    requires Inv(d)
    ensures Inv(Check(d))
  {
    hide WrapperOk, Out, Line;
    if d.worker.Holding? {
      CheckSplits(d);
      forall w | 0 <= w < |d.wrappers| ensures WrapperOk(Check(d), w) { CheckKeepsWrapper(d, w); }
    }
  }

  lemma StepKeepsInv<T, E>(d: Dispatcher<T, E>, e: Event<T, E>)
    requires Inv(d)
    ensures Inv(Step(d, e))
  {
    hide Inv, AddListener, RemoveListener, Dispatch, Pop, Check, Apply;
    InvIsSized(d);
    match e {
      case Add(l, start) => AddKeepsInv(d, l, start);
      case Remove(l, end) => RemoveKeepsInv(d, l, end);
      case Send(event, order) => if Enumerates(order, d.listeners.Keys) { DispatchKeepsInv(d, event, order); }
      case WorkerTakes => PopKeepsInv(d);
      case WorkerLooks => CheckKeepsInv(d);
      case WorkerApplies => ApplyKeepsInv(d);
    }
  }

  lemma InvIsSized<T, E>(d: Dispatcher<T, E>)
    requires Inv(d)
    ensures Sized(d)
  {
  }

  /** A run of calls and worker steps, in any interleaving. */
  ghost function Run<T, E>(d: Dispatcher<T, E>, es: seq<Event<T, E>>): (d': Dispatcher<T, E>)
    requires Inv(d)
    ensures Inv(d')
    decreases |es|
  {
    if es == [] then d
    else
      StepKeepsInv(d, es[0]);
      Run(Step(d, es[0]), es[1..])
  }

  lemma InitInv<T, E>()
    ensures Inv(Init<T, E>())
  {
  }

  /** The state after a run from the start. */
  ghost function After<T, E>(es: seq<Event<T, E>>): (d: Dispatcher<T, E>)
    ensures Inv(d)
  {
    InitInv<T, E>();
    Run(Init<T, E>(), es)
  }

  // ---- what a listener sees ----

  /** The start, the dispatched events that the worker reached while the registration was alive, and the end. */
  function Owed<E>(h: History<E>, w: nat): seq<Task<E>>
    requires h.passed <= |h.dispatched|
  {
    [Task(h.start, w, true)] + Plain(h.dispatched[..h.passed], w)
      + (if h.end.Some? then [Task(h.end.value, w, true)] else [])
  }

  /**
   In every interleaving, what has been applied for a registration is the beginning of its start event, the
   events reached before its removal in the order of their dispatch, and its end event; once the queue has
   been worked off it is all of that, and a registration still alive has then got every event dispatched to it.
   */
  lemma TraceOfRegistration<T, E>(es: seq<Event<T, E>>, w: nat)
    requires w < |After(es).wrappers|
    ensures var d := After(es);
      && d.history[w].passed <= |d.history[w].dispatched|
      && Of(d.trace, w) <= Owed(d.history[w], w)
      && (d.worker.Idle? && d.tasks == [] ==> Of(d.trace, w) == Owed(d.history[w], w))
      && (d.worker.Idle? && d.tasks == [] && d.wrappers[w].alive ==>
            Of(d.trace, w) == [Task(d.history[w].start, w, true)] + Plain(d.history[w].dispatched, w))
  {
    TraceIsOwed(After(es), w);
  }

  lemma TraceIsOwed<T, E>(d: Dispatcher<T, E>, w: nat)
    requires Inv(d) && w < |d.wrappers|
    ensures HistoryOk(d.history[w], d.wrappers[w].alive)
    ensures Of(d.trace, w) <= Owed(d.history[w], w)
    ensures d.worker.Idle? && d.tasks == [] ==>
        && Of(d.trace, w) == Owed(d.history[w], w)
        && (d.wrappers[w].alive ==>
              Owed(d.history[w], w) == [Task(d.history[w].start, w, true)] + Plain(d.history[w].dispatched, w))
  {
    assert WrapperOk(d, w);
    var h, alive := d.history[w], d.wrappers[w].alive;
    hide Inv, WrapperOk, HistoryOk, Got, Owed, ToCome, Plain;
    OfConcat(d.trace, if d.worker.Applying? then [d.worker.task] else [], w);
    GotIsOwed(h, w, alive);
    if d.worker.Idle? && d.tasks == [] {
      assert Line(d) == [] && Out(d) == d.trace;
      NothingToCome(h, w, alive);
    }
  }

  lemma GotIsOwed<E>(h: History<E>, w: nat, alive: bool)
    requires HistoryOk(h, alive)
    ensures h.seen <= |h.dispatched| && h.passed <= |h.dispatched|
    ensures Got(h, w) <= Owed(h, w)
  {
  }

  lemma NothingToCome<E>(h: History<E>, w: nat, alive: bool)
    requires HistoryOk(h, alive) && ToCome(h, w) == []
    ensures Got(h, w) == Owed(h, w)
    ensures alive ==> Owed(h, w) == [Task(h.start, w, true)] + Plain(h.dispatched, w)
  {
    assert |ToCome(h, w)|
        == (if h.started then 0 else 1) + (|h.dispatched| - h.seen) + (if h.end.Some? && !h.finished then 1 else 0);
    if alive { assert h.dispatched[..h.passed] == h.dispatched; }
  }

  lemma {:induction false} DispatchRecords<T, E>(d: Dispatcher<T, E>, event: E, order: seq<T>, w: nat)
    requires Inv(d) && w < |d.wrappers| && forall l :: l in order ==> l in d.listeners
    requires forall i, j :: 0 <= i < j < |order| ==> order[i] != order[j]
    ensures var d', l, h := Dispatch(d, event, order), d.wrappers[w].listener, d.history[w];
      && d'.wrappers == d.wrappers && |d'.history| == |d.history|
      && d'.history[w] == if d.wrappers[w].alive && l in order then h.(dispatched := h.dispatched + [event]) else h
    decreases |order|
  {
    if order != [] {
      DispatchToKeepsInv(d, d.listeners[order[0]], event);
      DispatchRecords(DispatchTo(d, d.listeners[order[0]], event), event, order[1..], w);
      assert order == [order[0]] + order[1..];
    }
  }

  /** The worker has a dispatched event for the registration in hand. */
  predicate LooksAt<T, E>(d: Dispatcher<T, E>, w: nat) {
    d.worker.Holding? && d.worker.task.wrapper == w && !d.worker.task.forced
  }

  lemma LookRecords<T, E>(d: Dispatcher<T, E>, w: nat)
    requires Inv(d) && w < |d.wrappers| && d.worker.Holding?
    ensures Check(d).wrappers == d.wrappers && |Check(d).history| == |d.history|
    ensures var h, h' := d.history[w], Check(d).history[w];
      h' == h.(started := h'.started, seen := h'.seen, finished := h'.finished,
               passed := h.passed + (if d.wrappers[w].alive && LooksAt(d, w) then 1 else 0))
  {
    hide WrapperOk, Registered;
    assert d.worker.task in Line(d);
  }

  /**
   What a step adds to the history of a registration: a dispatch adds its event to every registration that
   is alive; a removal ends the registration; one more event passes exactly when the worker looks at a
   dispatched one while the registration is alive. After the removal nothing more is dispatched or passes.
   */
  lemma HistoryRecords<T, E>(d: Dispatcher<T, E>, e: Event<T, E>, w: nat)
    requires Inv(d) && w < |d.wrappers|
    ensures var d' := Step(d, e);
      && |d'.history| == |d'.wrappers| > w
      && d'.wrappers[w].listener == d.wrappers[w].listener
      && (var h, h', alive := d.history[w], d'.history[w], d.wrappers[w].alive;
          && h'.start == h.start
          && h'.dispatched == h.dispatched
              + (if e.Send? && alive && Enumerates(e.order, d.listeners.Keys) then [e.event] else [])
          && h'.end == (if e.Remove? && alive && e.listener == d.wrappers[w].listener then Some(e.end) else h.end)
          && h'.passed == h.passed + (if e == WorkerLooks && alive && LooksAt(d, w) then 1 else 0))
  {
    hide WrapperOk;
    if e.Send? {
      if Enumerates(e.order, d.listeners.Keys) { DispatchRecords(d, e.event, e.order, w); }
    } else if e == WorkerLooks && d.worker.Holding? {
      LookRecords(d, w);
    }
  }

  // ---- one queue for all listeners ----

  /** The tasks that a call puts at the end of the queue. */
  ghost function Queues<T, E>(d: Dispatcher<T, E>, e: Event<T, E>): seq<Task<E>>
    requires Sized(d)
  {
    match e
    case Add(l, start) => if l in d.listeners then [] else [Task(start, |d.wrappers|, true)]
    case Remove(l, end) => if l in d.listeners then [Task(end, d.listeners[l], true)] else []
    case Send(event, order) =>
      if Enumerates(order, d.listeners.Keys) then
        seq(|order|, i requires 0 <= i < |order| => Task(event, d.listeners[order[i]], false))
      else []
    case _ => []
  }

  /** Everything queued in a run, in order. */
  ghost function QueuedIn<T, E>(d: Dispatcher<T, E>, es: seq<Event<T, E>>): seq<Task<E>>
    requires Inv(d)
    decreases |es|
  {
    if es == [] then []
    else
      StepKeepsInv(d, es[0]);
      Queues(d, es[0]) + QueuedIn(Step(d, es[0]), es[1..])
  }

  /** What is applied comes from the part of the queue that has been looked at, in its order. */
  ghost predicate Fifo<T, E>(d: Dispatcher<T, E>, looked: seq<Task<E>>, queued: seq<Task<E>>) {
    queued == looked + Line(d) && Subsequence(Out(d), looked)
  }

  lemma {:induction false} DispatchQueues<T, E>(d: Dispatcher<T, E>, event: E, order: seq<T>)
    requires Inv(d) && forall l :: l in order ==> l in d.listeners
    ensures var d' := Dispatch(d, event, order);
      && Out(d') == Out(d)
      && Line(d') == Line(d)
           + seq(|order|, i requires 0 <= i < |order| => Task(event, d.listeners[order[i]], false))
    decreases |order|
  {
    if order != [] {
      var d1 := DispatchTo(d, d.listeners[order[0]], event);
      DispatchToKeepsInv(d, d.listeners[order[0]], event);
      DispatchQueues(d1, event, order[1..]);
      assert Line(d1) == Line(d) + [Task(event, d.listeners[order[0]], false)];
    }
  }

  lemma CallQueues<T, E>(d: Dispatcher<T, E>, e: Event<T, E>)
    requires Inv(d) && !e.WorkerLooks?
    ensures Inv(Step(d, e)) && Line(Step(d, e)) == Line(d) + Queues(d, e) && Out(Step(d, e)) == Out(d)
  {
    hide WrapperOk, Registered;
    StepKeepsInv(d, e);
    if e.Send? && Enumerates(e.order, d.listeners.Keys) { DispatchQueues(d, e.event, e.order); }
  }

  /** The tasks looked at after one more step. */
  ghost function LookedAt<T, E>(d: Dispatcher<T, E>, e: Event<T, E>, looked: seq<Task<E>>): seq<Task<E>> {
    if e.WorkerLooks? && d.worker.Holding? then looked + [d.worker.task] else looked
  }

  lemma CheckIdle<T, E>(d: Dispatcher<T, E>)
    requires Sized(d) && !d.worker.Holding?
    ensures Check(d) == d
  {
  }

  lemma CallKeepsFifo<T, E>(d: Dispatcher<T, E>, e: Event<T, E>, looked: seq<Task<E>>, queued: seq<Task<E>>)
    requires Inv(d) && Fifo(d, looked, queued) && !e.WorkerLooks?
    ensures Inv(Step(d, e)) && Fifo(Step(d, e), looked, queued + Queues(d, e))
  {
    hide Inv, Line, Out, Subsequence, Step, Queues;
    InvIsSized(d);
    CallQueues(d, e);
    ConcatAssociative(looked, Line(d), Queues(d, e));
  }

  lemma LookKeepsFifo<T, E>(d: Dispatcher<T, E>, looked: seq<Task<E>>, queued: seq<Task<E>>)
    requires Inv(d) && Fifo(d, looked, queued) && d.worker.Holding?
    ensures Inv(Check(d)) && Fifo(Check(d), looked + [d.worker.task], queued)
  {
    hide Inv, Line, Out, Subsequence, Check;
    InvIsSized(d);
    CheckKeepsInv(d);
    CheckSplits(d);
    SubsequenceSnoc(Out(d), looked, d.worker.task);
    ConcatAssociative(looked, [d.worker.task], Line(Check(d)));
    assert Out(d) + [] == Out(d);
  }

  lemma StepKeepsFifo<T, E>(d: Dispatcher<T, E>, e: Event<T, E>, looked: seq<Task<E>>, queued: seq<Task<E>>)
    requires Inv(d) && Fifo(d, looked, queued)
    ensures Inv(Step(d, e)) && Fifo(Step(d, e), LookedAt(d, e, looked), queued + Queues(d, e))
  {
    hide Inv, Fifo, AddListener, RemoveListener, Dispatch, Pop, Apply, Check;
    InvIsSized(d);
    if !e.WorkerLooks? {
      CallKeepsFifo(d, e, looked, queued);
    } else {
      assert queued + Queues(d, e) == queued;
      if d.worker.Holding? { LookKeepsFifo(d, looked, queued); } else { CheckIdle(d); }
    }
  }

  lemma {:induction false} RunKeepsFifo<T, E>(
    d: Dispatcher<T, E>, es: seq<Event<T, E>>, looked: seq<Task<E>>, queued: seq<Task<E>>) returns (all: seq<Task<E>>)
    requires Inv(d) && Fifo(d, looked, queued)
    ensures Fifo(Run(d, es), all, queued + QueuedIn(d, es))
    decreases |es|
  {
    hide Inv, Fifo, Step, Queues;
    InvIsSized(d);
    if es == [] {
      assert queued + QueuedIn(d, es) == queued;
      all := looked;
    } else {
      StepKeepsFifo(d, es[0], looked, queued);
      all := RunKeepsFifo(Step(d, es[0]), es[1..], LookedAt(d, es[0], looked), queued + Queues(d, es[0]));
      ConcatAssociative(queued, Queues(d, es[0]), QueuedIn(Step(d, es[0]), es[1..]));
    }
  }

  /** Everything queued in a run from the start. */
  ghost function AllQueued<T, E>(es: seq<Event<T, E>>): seq<Task<E>> {
    InitInv<T, E>();
    QueuedIn(Init<T, E>(), es)
  }

  /**
   The queue is first in, first out for all listeners together: the events that have been handed over are some of
   the queued ones in the order of their queueing, and the rest of the queue is what comes after all of them.
   */
  lemma AppliedInQueueOrder<T, E>(es: seq<Event<T, E>>) returns (looked: seq<Task<E>>)
    ensures AllQueued(es) == looked + Line(After(es)) && Subsequence(After(es).trace, looked)
  {
    var init := Init<T, E>();
    InitInv<T, E>();
    looked := RunKeepsFifo(init, es, [], []);
    var d := After(es);
    assert [] + QueuedIn(init, es) == QueuedIn(init, es);
    if d.worker.Applying? { PrefixIsSubsequence(d.trace, [d.worker.task], looked); } else { assert Out(d) == d.trace; }
  }

  // ---- registrations of the same listener ----

  /** Tasks of the same listener come in the order of its registrations. */
  ghost predicate InOrder<T, E>(d: Dispatcher<T, E>, ts: seq<Task<E>>)
    requires forall t :: t in ts ==> t.wrapper < |d.wrappers|
  {
    forall i, j :: 0 <= i < j < |ts| && d.wrappers[ts[i].wrapper].listener == d.wrappers[ts[j].wrapper].listener ==>
      ts[i].wrapper <= ts[j].wrapper
  }

  ghost predicate AllInOrder<T, E>(d: Dispatcher<T, E>)
    requires Sized(d)
  {
    InOrder(d, Out(d) + Line(d))
  }

  /** A task for a registration that is its listener's latest goes to the end. */
  lemma QueueKeepsOrder<T, E>(d: Dispatcher<T, E>, d': Dispatcher<T, E>, t: Task<E>)
    requires Sized(d) && Sized(d') && AllInOrder(d)
    requires Out(d') == Out(d) && Line(d') == Line(d) + [t] && t.wrapper < |d'.wrappers|
    requires |d.wrappers| <= |d'.wrappers|
    requires forall w :: 0 <= w < |d.wrappers| ==> d'.wrappers[w].listener == d.wrappers[w].listener
    requires forall w :: 0 <= w < |d.wrappers| && d.wrappers[w].listener == d'.wrappers[t.wrapper].listener ==>
      w <= t.wrapper
    ensures AllInOrder(d')
  {
    hide Line, Out;
    var before := Out(d) + Line(d);
    forall k | 0 <= k < |before| ensures before[k].wrapper < |d.wrappers| {
      assert before[k] in Out(d) || before[k] in Line(d);
    }
    var after := before + [t];
    assert Out(d') + Line(d') == after;
    forall i, j | 0 <= i < j < |after|
                  && d'.wrappers[after[i].wrapper].listener == d'.wrappers[after[j].wrapper].listener
      ensures after[i].wrapper <= after[j].wrapper
    {
      assert after[i] == before[i];
      if j < |before| { assert after[j] == before[j]; }
    }
  }

  lemma AddKeepsOrder<T, E>(d: Dispatcher<T, E>, l: T, start: E)
    requires Inv(d) && AllInOrder(d)
    ensures Inv(AddListener(d, l, start)) && AllInOrder(AddListener(d, l, start))
  {
    hide WrapperOk, InOrder;
    AddKeepsInv(d, l, start);
    if l !in d.listeners { QueueKeepsOrder(d, AddListener(d, l, start), Task(start, |d.wrappers|, true)); }
  }

  lemma RemoveKeepsOrder<T, E>(d: Dispatcher<T, E>, l: T, end: E)
    requires Inv(d) && AllInOrder(d)
    ensures Inv(RemoveListener(d, l, end)) && AllInOrder(RemoveListener(d, l, end))
  {
    hide WrapperOk, InOrder;
    RemoveKeepsInv(d, l, end);
    if l in d.listeners { QueueKeepsOrder(d, RemoveListener(d, l, end), Task(end, d.listeners[l], true)); }
  }

  lemma StepKeepsOrder<T, E>(d: Dispatcher<T, E>, e: Event<T, E>)
    requires Inv(d) && AllInOrder(d)
    ensures Inv(Step(d, e)) && AllInOrder(Step(d, e))
  {
    hide WrapperOk, InOrder, Registered, AddListener, RemoveListener, Dispatch, Check;
    StepKeepsInv(d, e);
    match e {
      case Add(l, start) => AddKeepsOrder(d, l, start);
      case Remove(l, end) => RemoveKeepsOrder(d, l, end);
      case Send(event, order) =>
        if Enumerates(order, d.listeners.Keys) { DispatchKeepsOrder(d, event, order); }
      case WorkerTakes =>
        assert Line(Pop(d)) == Line(d);
        SameOrder(d, Pop(d), Out(d) + Line(d));
      case WorkerApplies =>
        assert Out(Apply(d)) == Out(d) && Line(Apply(d)) == Line(d);
        SameOrder(d, Apply(d), Out(d) + Line(d));
      case WorkerLooks =>
        if d.worker.Holding? { CheckKeepsOrder(d); } else { CheckIdle(d); }
    }
  }

  lemma {:induction false} DispatchKeepsOrder<T, E>(d: Dispatcher<T, E>, event: E, order: seq<T>)
    requires Inv(d) && AllInOrder(d) && forall l :: l in order ==> l in d.listeners
    ensures Inv(Dispatch(d, event, order)) && AllInOrder(Dispatch(d, event, order))
    decreases |order|
  {
    hide WrapperOk, InOrder;
    if order != [] {
      var w := d.listeners[order[0]];
      var d' := DispatchTo(d, w, event);
      DispatchToKeepsInv(d, w, event);
      assert Line(d') == Line(d) + [Task(event, w, false)];
      QueueKeepsOrder(d, d', Task(event, w, false));
      DispatchKeepsOrder(d', event, order[1..]);
    }
  }

  lemma SameOrder<T, E>(d: Dispatcher<T, E>, d': Dispatcher<T, E>, ts: seq<Task<E>>)
    requires d'.wrappers == d.wrappers && forall t :: t in ts ==> t.wrapper < |d.wrappers|
    requires InOrder(d, ts)
    ensures InOrder(d', ts)
  {
  }

  lemma DropKeepsOrder<T, E>(d: Dispatcher<T, E>, d': Dispatcher<T, E>, ts: seq<Task<E>>, k: nat)
    requires k < |ts| && d'.wrappers == d.wrappers && forall t :: t in ts ==> t.wrapper < |d.wrappers|
    requires InOrder(d, ts)
    ensures forall t :: t in ts[..k] + ts[k + 1..] ==> t.wrapper < |d'.wrappers|
    ensures InOrder(d', ts) && InOrder(d', ts[..k] + ts[k + 1..])
  {
  }

  /** Looking at a task leaves it at its place between what is out and what is in line, or drops it there. */
  lemma CheckLines<T, E>(d: Dispatcher<T, E>)
    requires Sized(d) && d.worker.Holding?
    ensures var all, all', k := Out(d) + Line(d), Out(Check(d)) + Line(Check(d)), |Out(d)|;
      k < |all| && (all' == all || all' == all[..k] + all[k + 1..])
  {
  }

  lemma CheckKeepsOrder<T, E>(d: Dispatcher<T, E>)
    requires Inv(d) && AllInOrder(d) && d.worker.Holding?
    ensures Sized(Check(d)) && AllInOrder(Check(d))
  {
    hide InOrder, WrapperOk, Registered, Out, Line;
    CheckKeepsInv(d);
    CheckLines(d);
    DropKeepsOrder(d, Check(d), Out(d) + Line(d), |Out(d)|);
  }

  lemma {:induction false} RunKeepsOrder<T, E>(d: Dispatcher<T, E>, es: seq<Event<T, E>>)
    requires Inv(d) && AllInOrder(d)
    ensures AllInOrder(Run(d, es))
    decreases |es|
  {
    if es != [] {
      StepKeepsOrder(d, es[0]);
      RunKeepsOrder(Step(d, es[0]), es[1..]);
    }
  }

  /** A listener that is added again sees its new start only after the end of its earlier registration. */
  lemma NewStartAfterOldEnd<T, E>(es: seq<Event<T, E>>, i: nat, j: nat)
    requires i < |After(es).trace| && j < |After(es).trace|
    ensures var d := After(es);
      && d.trace[i].wrapper < |d.wrappers| && d.trace[j].wrapper < |d.wrappers|
      && (d.wrappers[d.trace[i].wrapper].listener == d.wrappers[d.trace[j].wrapper].listener ==>
            d.trace[i].wrapper < d.trace[j].wrapper ==> i < j)
  {
    hide Registered, WrapperOk, AllInOrder, Run;
    InitInv<T, E>();
    InitInOrder<T, E>();
    RunKeepsOrder(Init<T, E>(), es);
    TraceInOrder(After(es), i, j);
  }

  lemma InitInOrder<T, E>()
    ensures Sized(Init<T, E>()) && AllInOrder(Init<T, E>())
  {
  }

  lemma TraceInOrder<T, E>(d: Dispatcher<T, E>, i: nat, j: nat)
    requires Sized(d) && AllInOrder(d) && i < |d.trace| && j < |d.trace|
    ensures d.trace[i].wrapper < |d.wrappers| && d.trace[j].wrapper < |d.wrappers|
    ensures d.wrappers[d.trace[i].wrapper].listener == d.wrappers[d.trace[j].wrapper].listener ==>
        d.trace[i].wrapper < d.trace[j].wrapper ==> i < j
  {
    var all := Out(d) + Line(d);
    assert all[i] == d.trace[i] && all[j] == d.trace[j];
    assert d.trace[i] in Out(d) && d.trace[j] in Out(d);
  }

  // ---- the worker catches up ----

  function Cycles<T, E>(n: nat): seq<Event<T, E>> {
    if n == 0 then [] else [WorkerLooks, WorkerApplies, WorkerTakes] + Cycles(n - 1)
  }

  ghost function Cycle<T, E>(d: Dispatcher<T, E>): Dispatcher<T, E>
    requires Inv(d)
  {
    CheckKeepsInv(d);
    Pop(Apply(Check(d)))
  }

  lemma CycleRun<T, E>(d: Dispatcher<T, E>, n: nat)
    requires Inv(d) && n > 0
    ensures Inv(Cycle(d)) && Run(d, Cycles(n)) == Run(Cycle(d), Cycles(n - 1))
  {
    hide WrapperOk, Registered, Sized, Pop, Apply, Check, Out, Line;
    var es := Cycles<T, E>(n);
    StepKeepsInv(d, WorkerLooks);
    StepKeepsInv(Step(d, WorkerLooks), WorkerApplies);
    StepKeepsInv(Step(Step(d, WorkerLooks), WorkerApplies), WorkerTakes);
    assert es[1..] == [WorkerApplies, WorkerTakes] + Cycles<T, E>(n - 1);
    assert es[1..][1..] == [WorkerTakes] + Cycles<T, E>(n - 1);
    assert es[1..][1..][1..] == Cycles<T, E>(n - 1);
    assert Run(d, es) == Run(Step(d, WorkerLooks), es[1..]);
    assert Run(Step(d, WorkerLooks), es[1..]) == Run(Step(Step(d, WorkerLooks), WorkerApplies), es[1..][1..]);
  }

  lemma CycleFacts<T, E>(d: Dispatcher<T, E>, w: nat)
    requires Inv(d) && w < |d.wrappers| && !d.wrappers[w].alive
    ensures var d' := Cycle(d);
      && d'.wrappers == d.wrappers && |d'.history| == |d.history|
      && (if d.tasks == [] then d'.worker.Idle? && d'.tasks == [] else |d'.tasks| == |d.tasks| - 1)
      && d'.history[w].start == d.history[w].start && d'.history[w].passed == d.history[w].passed
      && d'.history[w].dispatched == d.history[w].dispatched && d'.history[w].end == d.history[w].end
  {
  }

  /** Left alone, the worker empties the queue, and a removed listener has got everything it is owed. */
  lemma {:induction false} WorkerCatchesUp<T, E>(d: Dispatcher<T, E>, w: nat)
    requires Inv(d) && w < |d.wrappers| && !d.wrappers[w].alive
    ensures HistoryOk(d.history[w], false)
    ensures var d' := Run(d, Cycles(|d.tasks| + 1));
      d'.worker.Idle? && d'.tasks == [] && Of(d'.trace, w) == Owed(d.history[w], w)
    decreases |d.tasks|
  {
    hide Cycle, Of, Out, Line, HistoryOk, Plain;
    assert WrapperOk(d, w);
    CycleRun(d, |d.tasks| + 1);
    CycleFacts(d, w);
    if d.tasks == [] {
      TraceIsOwed(Cycle(d), w);
    } else {
      WorkerCatchesUp(Cycle(d), w);
    }
  }
}
