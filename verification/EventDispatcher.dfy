/** EventDispatcher and EventsThread with their fields, each call proved to do what the state machine says. */
module EventDispatching {
  import opened Common
  import opened L = Listeners

  class ListenerWrapper<T> {
    const listener: T
    var alive: bool
    ghost const id: nat  // the number of the registration

    constructor (listener: T, ghost id: nat)
      ensures this.listener == listener && this.id == id && alive
    {
      this.listener, this.id, alive := listener, id, true;
    }
  }

  /** A queued task with the wrapper it has captured. */
  datatype Capture<T, E> = Capture(event: E, wrapper: ListenerWrapper<T>, forced: bool)
  {
    ghost function AsTask(): Task<E> { Task(event, wrapper.id, forced) }
  }

  /** The queue and the task the worker has in hand. */
  class EventsThread<A> {
    var tasks: seq<A>
    var task: Option<A>

    constructor ()
      ensures tasks == [] && task == None
    {
      tasks, task := [], None;
    }

    method Queue(task: A)
      modifies this`tasks
      ensures tasks == old(tasks) + [task]
    {
      tasks := tasks + [task];
    }

    /** The locked part of the worker's loop. */
    method Take()
      requires task == None && tasks != []
      modifies this
      ensures task == Some(old(tasks)[0]) && tasks == old(tasks)[1..]
    {
      task := Some(tasks[0]);
      tasks := tasks[1..];
    }
  }

  class EventDispatcher<T(==), E> {
    var listeners: map<T, ListenerWrapper<T>>
    const eventThread: EventsThread<Capture<T, E>>
    var applies: bool  // the test of the task in hand has succeeded
    ghost var wrappers: seq<ListenerWrapper<T>>
    ghost var history: seq<History<E>>
    ghost var trace: seq<Task<E>>

    ghost predicate Linked()
      reads this, eventThread, wrappers
    {
      && (forall i :: 0 <= i < |wrappers| ==> wrappers[i].id == i)
      && (forall l :: l in listeners ==> listeners[l] in wrappers)
      && (forall c :: c in eventThread.tasks ==> c.wrapper in wrappers)
      && (eventThread.task.Some? ==> eventThread.task.value.wrapper in wrappers)
    }

    ghost function Registrations(): map<T, nat>
      reads this`listeners
    {
      map l | l in listeners :: listeners[l].id
    }

    ghost function Wrappers(): (ws: seq<Wrapper<T>>)
      reads this`wrappers, wrappers
      ensures |ws| == |wrappers|
      ensures forall i :: 0 <= i < |ws| ==> ws[i] == Wrapper(wrappers[i].listener, wrappers[i].alive)
    {
      var ws := wrappers;
      seq(|ws|, i requires 0 <= i < |ws| reads ws => Wrapper(ws[i].listener, ws[i].alive))
    }

    ghost function Tasks(): (ts: seq<Task<E>>)
      reads eventThread
      ensures |ts| == |eventThread.tasks| && forall i :: 0 <= i < |ts| ==> ts[i] == eventThread.tasks[i].AsTask()
    {
      seq(|eventThread.tasks|,
          i requires 0 <= i < |eventThread.tasks| reads eventThread => eventThread.tasks[i].AsTask())
    }

    ghost function WorkerState(): Worker<E>
      reads this`applies, eventThread
    {
      if eventThread.task.None? then Idle
      else if applies then Applying(eventThread.task.value.AsTask()) else Holding(eventThread.task.value.AsTask())
    }

    ghost function View(): (d: Dispatcher<T, E>)
      reads this, eventThread, wrappers
      ensures d.listeners.Keys == listeners.Keys
    {
      Dispatcher(Registrations(), Wrappers(), Tasks(), WorkerState(), trace, history)
    }

    ghost predicate Valid()
      reads this, eventThread, wrappers
    {
      Linked() && Inv(View())
    }

    constructor ()
      ensures Valid() && View() == Init()
    {
      eventThread := new EventsThread();
      listeners, applies, wrappers, history, trace := map[], false, [], [], [];
      new;
      assert View() == Init<T, E>();
      InitInv<T, E>();
    }

    method DispatchEventToListener(event: E, wrapper: ListenerWrapper<T>, forced: bool)
      requires Linked() && wrapper in wrappers
      modifies eventThread`tasks
      ensures Linked() && View() == Queued(old(View()), Task(event, wrapper.id, forced))
    {
      ghost var before := Tasks();
      eventThread.Queue(Capture(event, wrapper, forced));
      assert Tasks() == before + [Task(event, wrapper.id, forced)];
    }

    /** A wrapper for a listener that has none. */
    method Register(listener: T, ghost startEvent: E) returns (wrapper: ListenerWrapper<T>)
      requires Linked() && |history| == |wrappers|
      modifies this`listeners, this`wrappers, this`history
      ensures Linked() && wrapper in wrappers && wrapper.id == |old(wrappers)|
      ensures var d := old(View());
        View() == d.(listeners := d.listeners[listener := wrapper.id],
                     wrappers := d.wrappers + [L.Wrapper(listener, true)],
                     history := d.history + [History(startEvent, [], None, false, 0, 0, false)])
    {
      ghost var regs, ws := Registrations(), Wrappers();
      wrapper := new ListenerWrapper(listener, |wrappers|);
      listeners := listeners[listener := wrapper];
      wrappers := wrappers + [wrapper];
      history := history + [History(startEvent, [], None, false, 0, 0, false)];
      assert Registrations() == regs[listener := wrapper.id];
      assert Wrappers() == ws + [L.Wrapper(listener, true)];
    }

    method AddListener(listener: T, startEvent: E)
      requires Valid()
      modifies this, eventThread
      ensures Valid() && View() == L.AddListener(old(View()), listener, startEvent)
    {
      hide Inv;
      InvIsSized(View());
      StepKeepsInv(View(), Add(listener, startEvent));
      if listener in listeners {
        return;
      }
      var wrapper := Register(listener, startEvent);
      DispatchEventToListener(startEvent, wrapper, true);
    }

    /** The listener no longer has a wrapper. */
    method Forget(listener: T)
      requires Linked()
      modifies this`listeners
      ensures Linked()
      ensures var d := old(View()); View() == d.(listeners := d.listeners - {listener})
    {
      ghost var regs := Registrations();
      listeners := map l | l in listeners && l != listener :: listeners[l];
      assert Registrations() == regs - {listener};
    }

    /** The wrapper is no longer alive. */
    method Kill(wrapper: ListenerWrapper<T>, ghost endEvent: E)
      requires Linked() && |history| == |wrappers| && wrapper in wrappers
      modifies this`history, wrapper`alive
      ensures Linked()
      ensures var d, w := old(View()), wrapper.id;
        && w < |d.wrappers| == |d.history|
        && View() == d.(wrappers := d.wrappers[w := d.wrappers[w].(alive := false)],
                        history := d.history[w := d.history[w].(end := Some(endEvent))])
    {
      ghost var regs, ws, ts := Registrations(), Wrappers(), Tasks();
      wrapper.alive := false;
      assert Wrappers() == ws[wrapper.id := ws[wrapper.id].(alive := false)];
      assert Registrations() == regs && Tasks() == ts;
      history := history[wrapper.id := history[wrapper.id].(end := Some(endEvent))];
    }

    /** The wrapper of a listener is dropped and no longer alive. */
    method Retire(listener: T, ghost endEvent: E) returns (wrapper: ListenerWrapper<T>)
      requires Linked() && |history| == |wrappers| && listener in listeners
      modifies this`listeners, this`history, listeners[listener]
      ensures Linked() && wrapper in wrappers && wrapper == old(listeners[listener])
      ensures var d := old(View());
        var w := wrapper.id;
        && w < |d.wrappers| == |d.history|
        && View() == d.(listeners := d.listeners - {listener},
                        wrappers := d.wrappers[w := d.wrappers[w].(alive := false)],
                        history := d.history[w := d.history[w].(end := Some(endEvent))])
    {
      wrapper := listeners[listener];
      assert wrapper in wrappers;
      hide Linked;
      Forget(listener);
      Kill(wrapper, endEvent);
    }

    method RemoveListener(listener: T, endEvent: E)
      requires Valid()
      modifies this, eventThread, listeners.Values
      ensures Valid() && View() == L.RemoveListener(old(View()), listener, endEvent)
    {
      hide Inv;
      InvIsSized(View());
      StepKeepsInv(View(), Remove(listener, endEvent));
      if listener !in listeners {
        return;
      }
      var wrapper := Retire(listener, endEvent);
      DispatchEventToListener(endEvent, wrapper, true);
    }

    /** order is the iteration over the listeners that the loop happened to take. */
    method DispatchEvent(event: E) returns (ghost order: seq<T>)
      requires Valid()
      modifies this`history, eventThread`tasks
      ensures Valid() && Enumerates(order, old(View()).listeners.Keys)
      ensures Sized(old(View())) && View() == Dispatch(old(View()), event, order)
    {
      InvIsSized(View());
      assert Dispatch(View(), event, []) == View() && Enumerates<T>([], {});
      hide Inv, Dispatch, View, Linked, Sized, Enumerates;
      var keys := listeners.Keys;
      order := [];
      ghost var before := View();
      while keys != {}
        invariant keys <= listeners.Keys && Valid() && listeners.Keys == before.listeners.Keys
        invariant Enumerates(order, listeners.Keys - keys)
        invariant (forall l :: l in order ==> l in before.listeners) && View() == Dispatch(before, event, order)
      {
        var key :| key in keys;
        EnumeratesOneMore(order, listeners.Keys, keys, key);
        DispatchSnoc(before, event, order, key);
        keys := keys - {key};
        DispatchOne(event, key);
        order := order + [key];
      }
    }

    method DispatchOne(event: E, key: T)
      requires Valid() && key in View().listeners
      modifies this`history, eventThread`tasks
      ensures Valid() && Sized(old(View()))
      ensures View() == DispatchTo(old(View()), old(View()).listeners[key], event)
    {
      var wrapper := listeners[key];
      RegisteredAlive(View());
      assert View().listeners[key] == wrapper.id;
      DispatchToKeepsInv(View(), wrapper.id, event);
      history := history[wrapper.id := history[wrapper.id].(dispatched := history[wrapper.id].dispatched + [event])];
      DispatchEventToListener(event, wrapper, false);
    }

    /** The worker takes a task off the queue. */
    method WorkerTakes()
      requires Valid()
      modifies this`applies, eventThread
      ensures Valid() && View() == Pop(old(View()))
    {
      hide Inv;
      PopKeepsInv(View());
      ghost var tasks := Tasks();
      if eventThread.task == None && eventThread.tasks != [] {
        eventThread.Take();
        applies := false;
        assert Tasks() == tasks[1..];
      }
    }

    /** The queued function tests whether the event is still wanted. */
    method WorkerLooks()
      requires Valid()
      modifies this`applies, this`history, eventThread`task
      ensures Valid() && View() == Check(old(View()))
    {
      hide Inv;
      InvIsSized(View());
      CheckKeepsInv(View());
      if eventThread.task == None || applies {
        return;
      }
      var c := eventThread.task.value;
      CheckHeld(View());
      hide Check, Looked;
      RecordLook(c, c.wrapper.alive);
      Decide(c, c.wrapper.alive || c.forced);
    }

    /** The history of the registration of the task in hand says that the worker has looked. */
    ghost method RecordLook(c: Capture<T, E>, alive: bool)
      requires Linked() && |history| == |wrappers| && c.wrapper in wrappers
      modifies this`history
      ensures Linked() && c.wrapper.id < |old(history)|
      ensures View() == old(View()).(
        history := old(history)[c.wrapper.id := Looked(old(history)[c.wrapper.id], c.forced, alive)])
    {
      history := history[c.wrapper.id := Looked(history[c.wrapper.id], c.forced, alive)];
    }

    /** The task in hand applies or is dropped. */
    method Decide(c: Capture<T, E>, wanted: bool)
      requires Linked() && eventThread.task == Some(c) && !applies
      modifies this`applies, eventThread`task
      ensures Linked()
      ensures View() == old(View()).(worker := if wanted then Applying(c.AsTask()) else Idle)
    {
      ghost var tasks := Tasks();
      if wanted {
        applies := true;
      } else {
        eventThread.task := None;
      }
      assert Tasks() == tasks;
    }

    /** The queued function calls the listener. */
    method WorkerApplies()
      requires Valid()
      modifies this`applies, this`trace, eventThread`task
      ensures Valid() && View() == Apply(old(View()))
    {
      hide Inv;
      ApplyKeepsInv(View());
      if eventThread.task == None || !applies {
        return;
      }
      ghost var tasks := Tasks();
      trace := trace + [eventThread.task.value.AsTask()];
      eventThread.task, applies := None, false;
      assert Tasks() == tasks;
    }
  }

  lemma EnumeratesOneMore<T>(order: seq<T>, all: set<T>, keys: set<T>, key: T)
    requires key in keys && keys <= all && Enumerates(order, all - keys)
    ensures Enumerates(order + [key], all - (keys - {key}))
    ensures forall k :: k in order ==> k in all
  {
  }

  /** The loop of dispatchEvent, one listener further. */
  lemma {:induction false} DispatchSnoc<T, E>(d: Dispatcher<T, E>, event: E, order: seq<T>, key: T)
    requires Inv(d) && key in d.listeners && forall l :: l in order ==> l in d.listeners
    ensures var d1 := Dispatch(d, event, order);
      && Inv(d1) && d1.listeners == d.listeners
      && Dispatch(d, event, order + [key]) == DispatchTo(d1, d.listeners[key], event)
    decreases |order|
  {
    hide Inv, WrapperOk;
    InvIsSized(d);
    RegisteredAlive(d);
    DispatchKeepsInv(d, event, order);
    if order == [] {
      assert [key][1..] == [] && (order + [key]) == [key];
    } else {
      DispatchToKeepsInv(d, d.listeners[order[0]], event);
      DispatchSnoc(DispatchTo(d, d.listeners[order[0]], event), event, order[1..], key);
      assert (order + [key])[1..] == order[1..] + [key];
    }
  }

  lemma CheckHeld<T, E>(d: Dispatcher<T, E>)
    requires Sized(d) && d.worker.Holding?
    ensures var t := d.worker.task;
      && t.wrapper < |d.wrappers|
      && Check(d) == d.(worker := if d.wrappers[t.wrapper].alive || t.forced then Applying(t) else Idle,
                        history := d.history[t.wrapper := Looked(d.history[t.wrapper], t.forced,
                                                                 d.wrappers[t.wrapper].alive)])
  {
    assert d.worker.task in Line(d);
  }

  lemma RegisteredAlive<T, E>(d: Dispatcher<T, E>)
    requires Inv(d)
    ensures Sized(d)
    ensures forall l :: l in d.listeners ==> d.listeners[l] < |d.wrappers| && d.wrappers[d.listeners[l]].alive
  {
  }
}
