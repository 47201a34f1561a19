/** The reverse heartbeat timer: tasks carry the phase in which they were submitted; times are milliseconds. */
module Heartbeat {

  datatype Task = Task(phase: nat, due: int)

  /** tasks: the detached threads that still sleep; heartbeats: when they were sent; now: the clock. */
  datatype Timer = Timer(
    maxInterval: nat, currentInterval: nat, closed: bool, lastSent: int, phase: nat, bindSent: bool,
    tasks: multiset<Task>, heartbeats: seq<int>, now: int)

  function Init(maxInterval: nat, now: int): Timer {
    Timer(maxInterval, maxInterval, false, now, 0, false, multiset{}, [], now)
  }

  /** The interval in use for a given request of the user and maximum; 0 stands for no heartbeats at all. */
  function Limited(interval: nat, maxInterval: nat): nat {
    if interval == 0 then maxInterval
    else if maxInterval == 0 then interval
    else if interval < maxInterval then interval else maxInterval
  }

  /** The order of intervals, with 0 as infinity. */
  predicate NoLonger(a: nat, b: nat) { b == 0 || (a != 0 && a <= b) }

  /** The interval in use is the longest that is no longer than the user's and the maximum. */
  lemma LimitedIsGreatestLowerBound(interval: nat, maxInterval: nat, d: nat)
    ensures var c := Limited(interval, maxInterval);
      && NoLonger(c, interval) && NoLonger(c, maxInterval)
      && (NoLonger(d, interval) && NoLonger(d, maxInterval) <==> NoLonger(d, c))
  {
  }

  function Submit(t: Timer, ms: int): Timer { t.(tasks := t.tasks + multiset{Task(t.phase, t.now + ms)}) }

  function TimeLeft(t: Timer): int { t.currentInterval - (t.now - t.lastSent) }

  /** schedule: a heartbeat if one is due, and the task of the current phase. */
  function Scheduled(t: Timer): Timer {
    if t.currentInterval == 0 || t.closed then t
    else if TimeLeft(t) <= 0 then Submit(t.(heartbeats := t.heartbeats + [t.now]), t.currentInterval)
    else Submit(t, TimeLeft(t))
  }

  /** setCurrentInterval. A change makes the pending task stale. */
  function IntervalSet(t: Timer, interval: nat): Timer {
    var t1 := t.(currentInterval := Limited(interval, t.maxInterval));
    if t1.currentInterval != t.currentInterval && t.bindSent then Scheduled(t1.(phase := t.phase + 1)) else t1
  }

  function Bound(t: Timer, bindAsControl: bool): Timer {
    var t1 := if bindAsControl then t.(lastSent := t.now) else t;
    if t.bindSent then t1 else Scheduled(t1.(bindSent := true))
  }

  /** A submitted task runs. */
  function Fire(t: Timer, task: Task): Timer {
    var t1 := t.(tasks := t.tasks - multiset{task});
    if task.phase < t.phase then t1 else Scheduled(t1)
  }

  datatype Event =
    | Bind(bindAsControl: bool)
    | ChangeInterval(interval: nat)
    | ControlRequest
    | Close
    | RunTask(task: Task)
    | Tick(ms: nat)

  function Step(t: Timer, e: Event): Timer {
    match e
    case Bind(bindAsControl) => Bound(t, bindAsControl)
    case ChangeInterval(interval) => IntervalSet(t, interval)
    case ControlRequest => t.(lastSent := t.now)
    case Close => t.(closed := true)
    case RunTask(task) => if task in t.tasks then Fire(t, task) else t
    case Tick(ms) => t.(now := t.now + ms)
  }

  function Run(t: Timer, es: seq<Event>): Timer
    decreases |es|
  {
    if es == [] then t else Run(Step(t, es[0]), es[1..])
  }

  // ---- one live task ----

  predicate Active(t: Timer) { t.bindSent && t.currentInterval != 0 && !t.closed }

  /** The last time anything went to the server: a control request or a heartbeat. */
  function LastActivity(t: Timer): int {
    if t.heartbeats != [] && t.heartbeats[|t.heartbeats| - 1] > t.lastSent then t.heartbeats[|t.heartbeats| - 1]
    else t.lastSent
  }

  ghost predicate OneLiveTask(t: Timer) {
    && (forall k :: k in t.tasks ==> k.phase <= t.phase)
    && (forall k, l :: k in t.tasks && l in t.tasks && k.phase == l.phase == t.phase ==> k == l && t.tasks[k] == 1)
    && (!t.bindSent ==> t.tasks == multiset{})
  }

  /** The live task is due before the server can have waited longer than the interval. */
  ghost predicate DueInTime(t: Timer) {
    Active(t) ==> exists k :: k in t.tasks && k.phase == t.phase && k.due <= LastActivity(t) + t.currentInterval
  }

  /** The server has not waited longer than the interval for a sign of the client. */
  predicate InTime(t: Timer) { Active(t) ==> t.now <= LastActivity(t) + t.currentInterval }

  ghost predicate Inv(t: Timer) {
    && OneLiveTask(t) && DueInTime(t)
    && LastActivity(t) <= t.now
    && (t.maxInterval != 0 ==> 0 < t.currentInterval <= t.maxInterval)
  }

  /** The task that schedule submits. */
  function NextTask(t: Timer): Task {
    Task(t.phase, t.now + if TimeLeft(t) <= 0 then t.currentInterval else TimeLeft(t))
  }

  lemma ScheduledTask(t: Timer)
    requires t.currentInterval != 0 && !t.closed && LastActivity(t) <= t.now
    ensures var t' := Scheduled(t);
      && t' == t.(tasks := t.tasks + multiset{NextTask(t)}, heartbeats := t'.heartbeats)
      && LastActivity(t') <= t.now <= LastActivity(t') + t.currentInterval
      && NextTask(t).due <= LastActivity(t') + t.currentInterval
  {
  }

  /** Scheduling in a phase that has no task yet. */
  lemma ScheduleKeepsInv(t: Timer)
    requires t.bindSent && LastActivity(t) <= t.now && (t.maxInterval != 0 ==> 0 < t.currentInterval <= t.maxInterval)
    requires forall k :: k in t.tasks ==> k.phase < t.phase
    ensures Inv(Scheduled(t)) && InTime(Scheduled(t))
  {
    if Active(t) {
      ScheduledTask(t);
      hide Scheduled, LastActivity, NextTask;
      assert NextTask(t).phase == t.phase by { NextTaskPhase(t); }
      assert NextTask(t) in Scheduled(t).tasks && t.tasks[NextTask(t)] == 0;
    }
  }

  lemma NextTaskPhase(t: Timer)
    ensures NextTask(t).phase == t.phase
  {
  }

  lemma FireKeepsInv(t: Timer, task: Task)
    requires Inv(t) && task in t.tasks
    ensures Inv(Fire(t, task))
    ensures InTime(t) ==> InTime(Fire(t, task))
  {
    hide Scheduled;
    var t1 := t.(tasks := t.tasks - multiset{task});
    forall k | k in t1.tasks ensures k in t.tasks && (task.phase == t.phase ==> k.phase < t.phase) {
      assert t1.tasks[k] <= t.tasks[k];
      assert k == task ==> t.tasks[k] > 1;
    }
    if task.phase == t.phase {
      ScheduleKeepsInv(t1);
    } else if Active(t) {
      var k :| k in t.tasks && k.phase == t.phase && k.due <= LastActivity(t) + t.currentInterval;
      assert k in t1.tasks;
    }
  }

  lemma BindKeepsInv(t: Timer, bindAsControl: bool)
    requires Inv(t)
    ensures Inv(Bound(t, bindAsControl))
    ensures InTime(t) ==> InTime(Bound(t, bindAsControl))
  {
    hide Scheduled;
    var t1 := if bindAsControl then t.(lastSent := t.now) else t;
    if !t.bindSent { ScheduleKeepsInv(t1.(bindSent := true)); }
  }

  lemma ChangeKeepsInv(t: Timer, interval: nat)
    requires Inv(t)
    ensures Inv(IntervalSet(t, interval))
    ensures InTime(t) ==> InTime(IntervalSet(t, interval))
  {
    hide Scheduled;
    var t1 := t.(currentInterval := Limited(interval, t.maxInterval));
    if t1.currentInterval != t.currentInterval && t.bindSent { ScheduleKeepsInv(t1.(phase := t.phase + 1)); }
  }

  lemma StepKeepsInv(t: Timer, e: Event)
    requires Inv(t)
    ensures Inv(Step(t, e))
    ensures InTime(t) && OnTime(t, e) ==> InTime(Step(t, e))
  {
    hide Scheduled, Fire, Bound, IntervalSet;
    match e {
      case Bind(bindAsControl) => BindKeepsInv(t, bindAsControl);
      case ChangeInterval(interval) => ChangeKeepsInv(t, interval);
      case RunTask(task) => if task in t.tasks { FireKeepsInv(t, task); }
      case _ =>
    }
  }

  /** Time does not pass over the moment at which the live task is due. */
  ghost predicate OnTime(t: Timer, e: Event) {
    e.Tick? ==> forall k :: k in t.tasks && k.phase == t.phase ==> t.now + e.ms <= k.due
  }

  ghost predicate AlwaysOnTime(t: Timer, es: seq<Event>)
    decreases |es|
  {
    es == [] || (OnTime(t, es[0]) && AlwaysOnTime(Step(t, es[0]), es[1..]))
  }

  lemma InitInv(maxInterval: nat, now: int)
    ensures Inv(Init(maxInterval, now)) && InTime(Init(maxInterval, now))
  {
  }

  lemma {:induction false} RunKeepsInv(t: Timer, es: seq<Event>)
    requires Inv(t)
    ensures Inv(Run(t, es))
    ensures InTime(t) && AlwaysOnTime(t, es) ==> InTime(Run(t, es))
    decreases |es|
  {
    if es != [] {
      StepKeepsInv(t, es[0]);
      RunKeepsInv(Step(t, es[0]), es[1..]);
    }
  }

  // ---- what goes to the server, by the events of a run ----

  /** When control requests and bind requests that count as such were sent in a run. */
  function SendTimes(t: Timer, es: seq<Event>): seq<int>
    decreases |es|
  {
    if es == [] then []
    else
      (if es[0].ControlRequest? || (es[0].Bind? && es[0].bindAsControl) then [t.now] else [])
      + SendTimes(Step(t, es[0]), es[1..])
  }

  /** The time kept in the timer is that of the latest of them. */
  lemma {:induction false} LastSentIsLatest(t: Timer, es: seq<Event>)
    requires t.lastSent <= t.now
    ensures var t' := Run(t, es);
      && t.lastSent <= t'.lastSent <= t'.now
      && (forall x :: x in SendTimes(t, es) ==> x <= t'.lastSent)
      && (t'.lastSent == t.lastSent || t'.lastSent in SendTimes(t, es))
    decreases |es|
  {
    if es != [] {
      ClockAndSending(t, es[0]);
      LastSentIsLatest(Step(t, es[0]), es[1..]);
    }
  }

  lemma ClockAndSending(t: Timer, e: Event)
    ensures Step(t, e).now >= t.now
    ensures Step(t, e).lastSent
         == if e.ControlRequest? || (e.Bind? && e.bindAsControl) then t.now else t.lastSent
  {
  }

  /** A heartbeat is sent only if no control request went out during the last interval, and one at a time. */
  lemma HeartbeatsAreNeeded(t: Timer, e: Event)
    requires Inv(t) && Step(t, e).heartbeats != t.heartbeats
    ensures var t' := Step(t, e);
      && Active(t') && t'.heartbeats == t.heartbeats + [t.now] && t.now - t'.lastSent >= t'.currentInterval > 0
  {
  }

  /** Over any run: a heartbeat leaves only when everything sent before lies at least an interval back. */
  lemma HeartbeatsFollowSilence(maxInterval: nat, now: int, es: seq<Event>, e: Event)
    ensures var t := Run(Init(maxInterval, now), es);
      Step(t, e).heartbeats != t.heartbeats ==>
        && Active(Step(t, e)) && Step(t, e).heartbeats == t.heartbeats + [t.now]
        && forall x :: x in SendTimes(Init(maxInterval, now), es + [e]) ==> t.now - x >= Step(t, e).currentInterval > 0
  {
    var t0 := Init(maxInterval, now);
    InitInv(maxInterval, now);
    hide Init, Step, Run, Inv, Active, SendTimes;
    RunKeepsInv(t0, es);
    SentBeforeStart(maxInterval, now);
    LastSentIsLatest(t0, es);
    if Step(Run(t0, es), e).heartbeats != Run(t0, es).heartbeats {
      HeartbeatsAreNeeded(Run(t0, es), e);
      ClockAndSending(Run(t0, es), e);
      SendTimesSnoc(t0, es, e);
    }
  }

  lemma SentBeforeStart(maxInterval: nat, now: int)
    ensures Init(maxInterval, now).lastSent <= Init(maxInterval, now).now
  {
  }

  lemma {:induction false} SendTimesSnoc(t: Timer, es: seq<Event>, e: Event)
    ensures SendTimes(t, es + [e])
         == SendTimes(t, es)
            + (if e.ControlRequest? || (e.Bind? && e.bindAsControl) then [Run(t, es).now] else [])
    decreases |es|
  {
    hide Step;
    if es == [] {
      assert [e][1..] == [] && es + [e] == [e];
    } else {
      assert (es + [e])[0] == es[0] && (es + [e])[1..] == es[1..] + [e];
      SendTimesSnoc(Step(t, es[0]), es[1..], e);
    }
  }

  lemma StateStep(t: Timer, e: Event)
    ensures var t' := Step(t, e);
      && (t'.bindSent <==> t.bindSent || e.Bind?) && (t'.closed <==> t.closed || e == Close)
      && t'.now == t.now + (if e.Tick? then e.ms else 0)
  {
  }

  /** Whether the session has been bound or closed in a run, and the time that has passed. */
  lemma {:induction false} StateFollows(t: Timer, es: seq<Event>)
    ensures var t' := Run(t, es);
      && (t'.bindSent <==> t.bindSent || exists e :: e in es && e.Bind?)
      && (t'.closed <==> t.closed || Close in es)
      && t'.now == t.now + Elapsed(es)
    decreases |es|
  {
    hide Step;
    if es != [] {
      StateStep(t, es[0]);
      StateFollows(Step(t, es[0]), es[1..]);
      assert forall e :: e in es <==> e == es[0] || e in es[1..];
    }
  }

  function Elapsed(es: seq<Event>): nat
    decreases |es|
  {
    if es == [] then 0 else (if es[0].Tick? then es[0].ms else 0) + Elapsed(es[1..])
  }

  /** After any run the timer works, with its one live task, if and only if a session has been bound, none has
      been closed, and heartbeats are wanted. */
  lemma WorksIff(maxInterval: nat, now: int, es: seq<Event>)
    ensures var t := Run(Init(maxInterval, now), es);
      && t.now == now + Elapsed(es)
      && ((exists k :: k in t.tasks && k.phase == t.phase) && Active(t)
          <==> (exists e :: e in es && e.Bind?) && Close !in es && t.currentInterval != 0)
  {
    InitInv(maxInterval, now);
    StateFollows(Init(maxInterval, now), es);
    RunKeepsInv(Init(maxInterval, now), es);
  }

  /** The interval asked for last in a run, or the one asked for before. */
  function LastAsked(es: seq<Event>, before: nat): nat
    decreases |es|
  {
    if es == [] then before else LastAsked(es[1..], if es[0].ChangeInterval? then es[0].interval else before)
  }

  lemma {:induction false} IntervalFollows(t: Timer, es: seq<Event>, before: nat)
    requires t.currentInterval == Limited(before, t.maxInterval)
    ensures Run(t, es).currentInterval == Limited(LastAsked(es, before), t.maxInterval)
    decreases |es|
  {
    if es != [] {
      IntervalFollows(Step(t, es[0]), es[1..], if es[0].ChangeInterval? then es[0].interval else before);
    }
  }

  /** After any run the interval in use is the longest one within what the user asked for last and the maximum. */
  lemma IntervalIsAsAsked(maxInterval: nat, now: int, es: seq<Event>, d: nat)
    ensures var c := Run(Init(maxInterval, now), es).currentInterval;
      NoLonger(d, c) <==> NoLonger(d, LastAsked(es, 0)) && NoLonger(d, maxInterval)
  {
    IntervalFollows(Init(maxInterval, now), es, 0);
    LimitedIsGreatestLowerBound(LastAsked(es, 0), maxInterval, d);
  }

  /** How many pending tasks carry the current phase. */
  ghost function LiveTasks(t: Timer): set<Task> { set k | k in t.tasks && k.phase == t.phase }

  /**
   After every run there is at most one live task, once; there is one if the timer is bound, enabled and
   open. If tasks run on time, the server never waits longer than the interval: the start of the session, a
   control request or a heartbeat lies no further back. That interval is within the maximum.
   */
  lemma OneTaskAndNoLongGap(maxInterval: nat, now: int, es: seq<Event>)
    ensures var t := Run(Init(maxInterval, now), es);
      && |LiveTasks(t)| <= 1 && (forall k :: k in LiveTasks(t) ==> t.tasks[k] == 1)
      && (Active(t) ==> |LiveTasks(t)| == 1)
      && (AlwaysOnTime(Init(maxInterval, now), es) && Active(t) ==>
            && t.now - LastActivity(t) <= t.currentInterval
            && (LastActivity(t) == now || LastActivity(t) in SendTimes(Init(maxInterval, now), es) + t.heartbeats))
      && (maxInterval != 0 ==> 0 < t.currentInterval <= maxInterval)
  {
    InitInv(maxInterval, now);
    var t := Run(Init(maxInterval, now), es);
    RunKeepsInv(Init(maxInterval, now), es);
    MaximumStays(Init(maxInterval, now), es);
    LastSentIsLatest(Init(maxInterval, now), es);
    if Active(t) {
      var k :| k in t.tasks && k.phase == t.phase && k.due <= LastActivity(t) + t.currentInterval;
      assert k in LiveTasks(t);
    }
    if k :| k in LiveTasks(t) {
      assert LiveTasks(t) == {k};
    } else {
      assert LiveTasks(t) == {};
    }
  }

  lemma {:induction false} MaximumStays(t: Timer, es: seq<Event>)
    ensures Run(t, es).maxInterval == t.maxInterval
    decreases |es|
  {
    if es != [] { MaximumStays(Step(t, es[0]), es[1..]); }
  }

  /** A task of an earlier phase changes nothing but the list of tasks. */
  lemma StaleTaskIsHarmless(t: Timer, task: Task)
    requires Inv(t) && task in t.tasks && task !in LiveTasks(t)
    ensures Step(t, RunTask(task)) == t.(tasks := t.tasks - multiset{task})
  {
  }

  /** No heartbeat follows the closing, whatever still happens. */
  lemma {:induction false} SilentAfterClose(t: Timer, es: seq<Event>)
    requires t.closed
    ensures Run(t, es).closed && Run(t, es).heartbeats == t.heartbeats
    decreases |es|
  {
    if es != [] { SilentAfterClose(Step(t, es[0]), es[1..]); }
  }

  // ---- the timer with its fields ----

  class ReverseHeartbeatTimer {
    const maxIntervalMs: nat
    var currentIntervalMs: int
    var disableHeartbeats: bool
    var closed: bool
    var lastSentTime: int
    var currentPhase: nat
    var bindSent: bool
    var tasks: multiset<Task>
    var clock: int
    ghost var heartbeats: seq<int>

    ghost predicate Valid()
      reads this
    {
      currentIntervalMs >= 0 && disableHeartbeats == (currentIntervalMs == 0)
    }

    ghost function View(): Timer
      reads this
      requires Valid()
    {
      Timer(maxIntervalMs, currentIntervalMs, closed, lastSentTime, currentPhase, bindSent, tasks, heartbeats, clock)
    }

    constructor (interval: nat, now: int)
      ensures Valid() && View() == Init(interval, now)
    {
      maxIntervalMs, currentIntervalMs, disableHeartbeats, closed := interval, -1, false, false;
      lastSentTime, currentPhase, bindSent, tasks, clock, heartbeats := now, 0, false, multiset{}, now, [];
      new;
      SetCurrentInterval(maxIntervalMs);
    }

    method SubmitTask(scheduleTimeMs: int)
      requires Valid()
      modifies this`tasks
      ensures Valid() && View() == Submit(old(View()), scheduleTimeMs)
    {
      tasks := tasks + multiset{Task(currentPhase, clock + scheduleTimeMs)};
    }

    method Schedule()
      requires Valid()
      modifies this`tasks, this`heartbeats
      ensures Valid() && View() == Scheduled(old(View()))
    {
      hide Submit;
      if disableHeartbeats || closed {
        return;
      }
      var timeLeftMs := currentIntervalMs - (clock - lastSentTime);
      if timeLeftMs <= 0 {
        heartbeats := heartbeats + [clock];
        SubmitTask(currentIntervalMs);
      } else {
        SubmitTask(timeLeftMs);
      }
    }

    /** At construction there is no interval yet and nothing is bound. */
    method SetCurrentInterval(interval: nat)
      requires (currentIntervalMs == -1 && !bindSent) || Valid()
      modifies this
      ensures Valid()
      ensures old(Valid()) ==> View() == IntervalSet(old(View()), interval)
      ensures !old(Valid()) ==> currentIntervalMs == Limited(interval, maxIntervalMs)
      ensures !old(Valid()) ==>
        && unchanged(this`closed, this`lastSentTime, this`currentPhase, this`bindSent)
        && unchanged(this`tasks, this`clock, this`heartbeats)
    {
      hide Scheduled;
      var oldIntervalMs := currentIntervalMs;
      if interval == 0 {
        currentIntervalMs := maxIntervalMs;
      } else if maxIntervalMs == 0 {
        currentIntervalMs := interval;
      } else {
        currentIntervalMs := if interval < maxIntervalMs then interval else maxIntervalMs;
      }
      disableHeartbeats := currentIntervalMs == 0;
      if oldIntervalMs != currentIntervalMs {
        if bindSent {
          currentPhase := currentPhase + 1;
          Schedule();
        }
      }
    }

    method OnBindSession(bindAsControl: bool)
      requires Valid()
      modifies this
      ensures Valid() && View() == Bound(old(View()), bindAsControl)
    {
      if bindAsControl {
        lastSentTime := clock;
      }
      if !bindSent {
        bindSent := true;
        Schedule();
      }
    }

    method OnChangeInterval(newInterval: nat)
      requires Valid()
      modifies this
      ensures Valid() && View() == Step(old(View()), ChangeInterval(newInterval))
    {
      SetCurrentInterval(newInterval);
    }

    method OnControlRequest()
      requires Valid()
      modifies this`lastSentTime
      ensures Valid() && View() == Step(old(View()), ControlRequest)
    {
      lastSentTime := clock;
    }

    method OnClose()
      requires Valid()
      modifies this`closed
      ensures Valid() && View() == Step(old(View()), Close)
    {
      closed := true;
    }

    /** A submitted task wakes up. */
    method TaskFired(task: Task)
      requires Valid() && task in tasks && task.phase <= currentPhase
      modifies this`tasks, this`heartbeats
      ensures Valid() && View() == Fire(old(View()), task)
    {
      tasks := tasks - multiset{task};
      if task.phase < currentPhase {
        return;
      }
      Schedule();
    }
  }
}
