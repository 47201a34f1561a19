/**
 The phases of Session and the timers launched in them. Whoever is told of a change of phase may change it
 again before changePhaseType returns, and a timer sleeps on a thread of its own.
 */
module SessionTimers {

  datatype Phase =
    | OFF | SLEEP | CREATING | CREATED | FIRST_PAUSE | FIRST_BINDING | PAUSE | BINDING | RECEIVING | STALLING | STALLED

  /** A timer and the phase it was launched in; the count is all it carries. */
  datatype Timer = Timer(count: nat, launchedIn: Phase)

  /** A timer that got through to the timeout handling, and the phase it found. */
  datatype Handled = Handled(timer: Timer, found: Phase)

  /** asleep: launched timers; awake: those that have passed the test on waking and not yet called onTimeout. */
  datatype State = State(
    phase: Phase, count: nat, asleep: multiset<Timer>, awake: multiset<Timer>, handled: seq<Handled>)

  function Init(): State { State(OFF, 0, multiset{}, multiset{}, []) }

  function Change(s: State, p: Phase): State { if s.phase == p then s else s.(phase := p, count := s.count + 1) }

  function Changes(s: State, ps: seq<Phase>): State
    decreases |ps|
  {
    if ps == [] then s else Changes(Change(s, ps[0]), ps[1..])
  }

  /** changePhaseType; the reaction is what the listener of the change does to the phase in its turn. */
  function Changed(s: State, p: Phase, reaction: seq<Phase>): State {
    if s.phase == p then s else Changes(Change(s, p), reaction)
  }

  /** What changePhaseType returns. */
  predicate Kept(s: State, p: Phase, reaction: seq<Phase>) {
    Changed(s, p, reaction).count == Change(s, p).count
  }

  function Launch(s: State): State { s.(asleep := s.asleep + multiset{Timer(s.count, s.phase)}) }

  /** The pattern of timeoutForStalled and its like: a timer only for a change that has been kept. */
  function ChangeAndLaunch(s: State, p: Phase, reaction: seq<Phase>): State {
    var s1 := Changed(s, p, reaction);
    if Kept(s, p, reaction) then Launch(s1) else s1
  }

  datatype Event =
    | ChangeTo(p: Phase, reaction: seq<Phase>)
    | ChangeToAndLaunch(p: Phase, reaction: seq<Phase>)
    | LaunchTimeout
    | Wake(timer: Timer)
    | OnTimeout(timer: Timer, effect: seq<Phase>)

  function Step(s: State, e: Event): State {
    match e
    case ChangeTo(p, reaction) => Changed(s, p, reaction)
    case ChangeToAndLaunch(p, reaction) => ChangeAndLaunch(s, p, reaction)
    case LaunchTimeout => Launch(s)
    case Wake(t) =>
      if t !in s.asleep then s
      else
        var s1 := s.(asleep := s.asleep - multiset{t});
        if t.count != s.count then s1 else s1.(awake := s.awake + multiset{t})
    case OnTimeout(t, effect) =>
      if t !in s.awake then s
      else
        var s1 := s.(awake := s.awake - multiset{t});
        if t.count != s.count then s1 else Changes(s1.(handled := s.handled + [Handled(t, s.phase)]), effect)
  }

  function Run(s: State, es: seq<Event>): State
    decreases |es|
  {
    if es == [] then s else Run(Step(s, es[0]), es[1..])
  }

  /** A change of phase is counted, one to the phase at hand is none. */
  lemma {:induction false} ChangesFacts(s: State, ps: seq<Phase>)
    ensures var t := Changes(s, ps);
      && t == s.(phase := t.phase, count := t.count) && t.count >= s.count
      && (t.count == s.count <==> forall p :: p in ps ==> p == s.phase)
      && (t.count == s.count ==> t.phase == s.phase)
    decreases |ps|
  {
    if ps != [] {
      ChangesFacts(Change(s, ps[0]), ps[1..]);
      assert ps[0] in ps && forall p :: p in ps <==> p == ps[0] || p in ps[1..];
    }
  }

  /** changePhaseType reports success exactly when there was nothing to change or the reaction left the new
      phase alone; then the session is in the phase asked for. */
  lemma KeptIff(s: State, p: Phase, reaction: seq<Phase>)
    ensures Kept(s, p, reaction) <==> s.phase == p || forall r :: r in reaction ==> r == p
    ensures Kept(s, p, reaction) ==> Changed(s, p, reaction).phase == p
  {
    ChangesFacts(Change(s, p), reaction);
  }

  /** No timer is ahead of the count, and one level with it was launched in the phase at hand. */
  ghost predicate TimerOk(s: State, t: Timer) { t.count <= s.count && (t.count == s.count ==> t.launchedIn == s.phase) }

  ghost predicate Inv(s: State) {
    && (forall t :: t in s.asleep || t in s.awake ==> TimerOk(s, t))
    && (forall k :: 0 <= k < |s.handled| ==> s.handled[k].found == s.handled[k].timer.launchedIn)
  }

  lemma ChangesKeepInv(s: State, ps: seq<Phase>)
    requires Inv(s)
    ensures Inv(Changes(s, ps)) && Changes(s, ps).count >= s.count
  {
    hide Changes;
    ChangesFacts(s, ps);
  }

  lemma ChangedKeepsInv(s: State, p: Phase, reaction: seq<Phase>)
    requires Inv(s)
    ensures Inv(Changed(s, p, reaction)) && Changed(s, p, reaction).count >= s.count
  {
    hide Inv;
    ChangesKeepInv(s, [p] + reaction);
    assert ([p] + reaction)[1..] == reaction;
  }

  lemma LaunchKeepsInv(s: State)
    requires Inv(s)
    ensures Inv(Launch(s))
  {
  }

  lemma WakeKeepsInv(s: State, t: Timer)
    requires Inv(s)
    ensures Inv(Step(s, Wake(t)))
  {
    hide Changes;
    if t in s.asleep { assert TimerOk(s, t); }
  }

  lemma StepKeepsInv(s: State, e: Event)
    requires Inv(s)
    ensures Inv(Step(s, e)) && Step(s, e).count >= s.count
  {
    hide Inv, Changed, Changes, TimerOk;
    match e {
      case ChangeTo(p, reaction) => ChangedKeepsInv(s, p, reaction);
      case ChangeToAndLaunch(p, reaction) =>
        ChangedKeepsInv(s, p, reaction);
        LaunchKeepsInv(Changed(s, p, reaction));
      case LaunchTimeout => LaunchKeepsInv(s);
      case Wake(t) => WakeKeepsInv(s, t);
      case OnTimeout(t, effect) =>
        if t in s.awake {
          TimeoutKeepsInv(s, t);
          if t.count == s.count {
            ChangesKeepInv(s.(awake := s.awake - multiset{t}, handled := s.handled + [Handled(t, s.phase)]), effect);
          }
        }
    }
  }

  lemma TimeoutKeepsInv(s: State, t: Timer)
    requires Inv(s) && t in s.awake
    ensures Inv(s.(awake := s.awake - multiset{t}))
    ensures t.count == s.count ==> Inv(s.(awake := s.awake - multiset{t}, handled := s.handled + [Handled(t, s.phase)]))
  {
    assert TimerOk(s, t);
  }

  /** In every run a timeout is only handled in the phase its timer was launched in. */
  lemma {:induction false} TimersActInTheirPhase(s: State, es: seq<Event>)
    requires Inv(s)
    ensures var s' := Run(s, es);
      && Inv(s') && s'.count >= s.count
      && forall k :: 0 <= k < |s'.handled| ==> s'.handled[k].found == s'.handled[k].timer.launchedIn
    decreases |es|
  {
    hide Step;
    if es != [] {
      StepKeepsInv(s, es[0]);
      TimersActInTheirPhase(Step(s, es[0]), es[1..]);
    }
  }

  lemma InitInv()
    ensures Inv(Init())
  {
  }

  /** After one change of phase no earlier timer is ever handled, even if the phase comes back. */
  lemma OvertakenForGood(s: State, p: Phase, reaction: seq<Phase>, es: seq<Event>, t: Timer, effect: seq<Phase>)
    requires Inv(s) && s.phase != p && t.count <= s.count
    ensures var s' := Run(Step(s, ChangeTo(p, reaction)), es);
      && Step(s', OnTimeout(t, effect)).handled == s'.handled
      && Step(s', Wake(t)).awake == s'.awake
  {
    hide Changes;
    ChangesFacts(Change(s, p), reaction);
    StepKeepsInv(s, ChangeTo(p, reaction));
    TimersActInTheirPhase(Changed(s, p, reaction), es);
  }

  /** The timer that a launch makes, and how many of its kind a state has asleep or awake. */
  function Launched(s: State): Timer { Timer(s.count, s.phase) }

  /** The phase does not change all through a run. */
  predicate PhaseKept(s: State, es: seq<Event>)
    decreases |es|
  {
    es == [] || (Step(s, es[0]).count == s.count && PhaseKept(Step(s, es[0]), es[1..]))
  }

  lemma {:induction false} StaysAsleep(s: State, es: seq<Event>, t: Timer)
    requires t in s.asleep && PhaseKept(s, es) && forall e :: e in es ==> e != Wake(t)
    ensures t in Run(s, es).asleep && Run(s, es).count == s.count
    decreases |es|
  {
    if es != [] {
      assert es[0] in es;
      StepKeepsOthers(s, es[0], t);
      assert forall e :: e in es[1..] ==> e in es;
      StaysAsleep(Step(s, es[0]), es[1..], t);
    }
  }

  lemma {:induction false} StaysAwake(s: State, es: seq<Event>, t: Timer)
    requires t in s.awake && PhaseKept(s, es) && forall e :: e in es ==> !(e.OnTimeout? && e.timer == t)
    ensures t in Run(s, es).awake && Run(s, es).count == s.count
    decreases |es|
  {
    if es != [] {
      assert es[0] in es;
      StepKeepsOthers(s, es[0], t);
      assert forall e :: e in es[1..] ==> e in es;
      StaysAwake(Step(s, es[0]), es[1..], t);
    }
  }

  /** Only its own waking and its own timeout take a timer out of its place. */
  lemma StepKeepsOthers(s: State, e: Event, t: Timer)
    ensures t in s.asleep && e != Wake(t) ==> t in Step(s, e).asleep
    ensures t in s.awake && !(e.OnTimeout? && e.timer == t) ==> t in Step(s, e).awake
  {
    if e.OnTimeout? {
      TimeoutKeepsOthers(s, e.timer, e.effect, t);
    } else if e.Wake? {
      OtherStays(s.asleep, e.timer, t);
    } else if e == LaunchTimeout {
    } else {
      hide Changes, Kept;
      ChangesFacts(Change(s, e.p), e.reaction);
    }
  }

  lemma TimeoutKeepsOthers(s: State, u: Timer, effect: seq<Phase>, t: Timer)
    ensures Step(s, OnTimeout(u, effect)).asleep == s.asleep
    ensures t in s.awake && t != u ==> t in Step(s, OnTimeout(u, effect)).awake
  {
    hide Changes;
    var s1 := s.(awake := s.awake - multiset{u});
    OtherStays(s.awake, u, t);
    ChangesFacts(s1.(handled := s.handled + [Handled(u, s.phase)]), effect);
  }

  lemma OtherStays(timers: multiset<Timer>, u: Timer, t: Timer)
    ensures t in timers && t != u ==> t in timers - multiset{u}
  {
  }

  /**
   A timer that is launched, and that wakes and calls onTimeout while the phase has not changed, is handled:
   none is forgotten.
   */
  lemma LaunchedIsHandled(s: State, before: seq<Event>, after: seq<Event>, effect: seq<Phase>)
    requires PhaseKept(Step(s, LaunchTimeout), before)
    requires forall e :: e in before ==> e != Wake(Launched(s))
    requires var woken := Step(Run(Step(s, LaunchTimeout), before), Wake(Launched(s)));
      PhaseKept(woken, after) && forall e :: e in after ==> !(e.OnTimeout? && e.timer == Launched(s))
    ensures var woken := Step(Run(Step(s, LaunchTimeout), before), Wake(Launched(s)));
      var due := Run(woken, after);
      Step(due, OnTimeout(Launched(s), effect)).handled == due.handled + [Handled(Launched(s), due.phase)]
  {
    hide Run, PhaseKept;
    var t := Launched(s);
    StaysAsleep(Step(s, LaunchTimeout), before, t);
    var woken := Step(Run(Step(s, LaunchTimeout), before), Wake(t));
    StaysAwake(woken, after, t);
    var due := Run(woken, after);
    ChangesFacts(due.(awake := due.awake - multiset{t}, handled := due.handled + [Handled(t, due.phase)]), effect);
  }

  /** timeoutForStalled and its like launch one timer, in the new phase, if and only if nothing else has changed
      the phase in the meantime; a session already in that phase counts as one that has just entered it. */
  lemma LaunchesIff(s: State, p: Phase, reaction: seq<Phase>)
    ensures var kept := s.phase == p || forall x :: x in reaction ==> x == p;
      var s' := Step(s, ChangeToAndLaunch(p, reaction));
      && s'.asleep == s.asleep + (if kept then multiset{Timer(s'.count, p)} else multiset{})
      && (kept ==> s'.phase == p)
  {
    ChangesFacts(Change(s, p), reaction);
  }

  class Session {
    var phase: Phase
    var phaseCount: nat
    var asleep: multiset<Timer>
    var awake: multiset<Timer>
    ghost var handled: seq<Handled>

    ghost function View(): State
      reads this
    {
      State(phase, phaseCount, asleep, awake, handled)
    }

    constructor ()
      ensures View() == Init()
    {
      phase, phaseCount, asleep, awake, handled := OFF, 0, multiset{}, multiset{}, [];
    }

    predicate IsNot(phaseToCheck: Phase)
      reads this
    {
      phase != phaseToCheck
    }

    method SetPhase(newType: Phase)
      modifies this`phase, this`phaseCount
      ensures View() == Change(old(View()), newType)
    {
      if IsNot(newType) {
        phase := newType;
        phaseCount := phaseCount + 1;
      }
    }

    /** What the listener of a change does to the phase, one after the other. */
    method React(reaction: seq<Phase>)
      modifies this`phase, this`phaseCount
      ensures View() == Changes(old(View()), reaction)
    {
      var i := 0;
      assert reaction[0..] == reaction;
      while i < |reaction|
        invariant i <= |reaction|
        invariant Changes(View(), reaction[i..]) == Changes(old(View()), reaction)
      {
        assert reaction[i..][0] == reaction[i] && reaction[i..][1..] == reaction[i + 1..];
        SetPhase(reaction[i]);
        i := i + 1;
      }
    }

    /** changePhaseType. */
    method ChangePhaseType(newType: Phase, reaction: seq<Phase>) returns (kept: bool)
      modifies this`phase, this`phaseCount
      ensures View() == Changed(old(View()), newType, reaction)
      ensures kept <==> Kept(old(View()), newType, reaction)
    {
      var ph := phaseCount;
      if IsNot(newType) {
        SetPhase(newType);
        ph := phaseCount;
        React(reaction);
      }
      kept := ph == phaseCount;
    }

    method LaunchTimeout()
      modifies this`asleep
      ensures View() == Launch(old(View()))
    {
      asleep := asleep + multiset{Timer(phaseCount, phase)};
    }

    /** timeoutForStalled and timeoutForReconnect, by the phase they enter. */
    method TimeoutFor(newType: Phase, reaction: seq<Phase>)
      modifies this`phase, this`phaseCount, this`asleep
      ensures View() == ChangeAndLaunch(old(View()), newType, reaction)
    {
      var kept := ChangePhaseType(newType, reaction);
      if !kept {
        return;
      }
      LaunchTimeout();
    }

    /** The thread of a timer wakes up. */
    method Wakes(timer: Timer)
      requires timer in asleep
      modifies this`asleep, this`awake
      ensures View() == Step(old(View()), Wake(timer))
    {
      asleep := asleep - multiset{timer};
      if timer.count != phaseCount {
        return;
      }
      awake := awake + multiset{timer};
    }

    /** onTimeout; effect is what the handling does to the phase. */
    method HandleTimeout(timer: Timer, effect: seq<Phase>)
      requires timer in awake
      modifies this`awake, this`handled, this`phase, this`phaseCount
      ensures View() == Step(old(View()), OnTimeout(timer, effect))
    {
      awake := awake - multiset{timer};
      if timer.count != phaseCount {
        return;
      }
      handled := handled + [Handled(timer, phase)];
      React(effect);
    }
  }
}
