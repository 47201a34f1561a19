/** The delays between retries: RetryDelayCounter between sessions, RequestTutor between sendings of a request. */
module Backoff {

  function Pow2(n: nat): (p: nat)
    ensures p >= 1
  {
    if n == 0 then 1 else 2 * Pow2(n - 1)
  }

  function Max(a: int, b: int): int { if a < b then b else a }

  function Min(a: int, b: int): int { if a < b then a else b }

  // ---- RetryDelayCounter ----

  const PATIENT_ATTEMPTS := 9
  const LONG_DELAY := 60000

  /** The delay after n increases. */
  function Delay(minDelay: int, n: nat): int {
    Min(Max(LONG_DELAY, minDelay), minDelay * Pow2(if n <= PATIENT_ATTEMPTS then 0 else n - PATIENT_ATTEMPTS))
  }

  /** One increase after n of them. */
  function Increased(minDelay: int, n: nat, currentDelay: int): int {
    var maxDelay := Max(LONG_DELAY, minDelay);
    if n >= PATIENT_ATTEMPTS && currentDelay < maxDelay then Min(maxDelay, currentDelay * 2) else currentDelay
  }

  /** The delay that n increases lead to. */
  function DelayAfter(minDelay: int, n: nat): int {
    if n == 0 then minDelay else Increased(minDelay, n - 1, DelayAfter(minDelay, n - 1))
  }

  /** Doubling with a cap, time after time, is the capped power of two, whatever the sign of the delay. */
  lemma {:induction false} ClosedForm(minDelay: int, n: nat)
    ensures DelayAfter(minDelay, n) == Delay(minDelay, n)
  {
    if n == 0 {
      assert minDelay * Pow2(0) == minDelay;
    } else {
      ClosedForm(minDelay, n - 1);
      if n > PATIENT_ATTEMPTS { Doubled(minDelay, Pow2(n - 1 - PATIENT_ATTEMPTS)); }
    }
  }

  /** Delays never get shorter, never longer than the maximum, and reach it in the end. */
  lemma DelayGrowsToMaximum(minDelay: int, n: nat)
    requires minDelay > 0
    ensures minDelay <= Delay(minDelay, n) <= Delay(minDelay, n + 1) <= Max(LONG_DELAY, minDelay)
    ensures n >= PATIENT_ATTEMPTS + 16 ==> Delay(minDelay, n) == Max(LONG_DELAY, minDelay)
  {
    var k := if n <= PATIENT_ATTEMPTS then 0 else n - PATIENT_ATTEMPTS;
    TimesAtLeastOne(minDelay, Pow2(k));
    if n >= PATIENT_ATTEMPTS {
      assert Pow2(k + 1) == 2 * Pow2(k);
      Doubled(minDelay, Pow2(k));
    }
    if k >= 16 {
      Pow2Grows(16, k);
      assert Pow2(16) == 65536 by { Pow2OfSixteen(); }
      TimesGrows(minDelay, Pow2(k), LONG_DELAY);
    }
  }

  /** Nine increases leave a short delay as it is; the tenth doubles it, the eleventh again; the longest delay is
      a minute. */
  lemma FirstDelays(minDelay: int)
    requires 0 < minDelay <= 15000
    ensures DelayAfter(minDelay, 9) == minDelay
    ensures DelayAfter(minDelay, 10) == 2 * minDelay && DelayAfter(minDelay, 11) == 4 * minDelay
    ensures DelayAfter(minDelay, 25) == 60000
  {
    ClosedForm(minDelay, 9);
    ClosedForm(minDelay, 10);
    ClosedForm(minDelay, 11);
    ClosedForm(minDelay, 25);
    DelayGrowsToMaximum(minDelay, 25);
    assert Pow2(0) == 1 && Pow2(1) == 2 && Pow2(2) == 4;
  }

  lemma TimesAtLeastOne(a: int, p: nat)
    requires a > 0 && p >= 1
    ensures a * p >= a
  {
  }

  lemma Doubled(a: int, p: int)
    ensures a * (2 * p) == 2 * (a * p)
  {
  }

  lemma TimesGrows(a: int, p: int, b: int)
    requires a > 0 && p >= b > 0
    ensures a * p >= b
  {
  }

  lemma {:induction false} Pow2Grows(m: nat, n: nat)
    requires m <= n
    ensures Pow2(m) <= Pow2(n)
  {
    if m < n { Pow2Grows(m, n - 1); }
  }

  lemma Pow2OfSixteen()
    ensures Pow2(16) == 65536
  {
    assert Pow2(4) == 16;
    assert Pow2(8) == 256;
    assert Pow2(12) == 4096;
  }

  class RetryDelayCounter {
    var attempt: nat
    var minDelay: int
    var maxDelay: int
    var currentDelay: int

    /** The delay in use is the closed form of the attempts made. */
    ghost predicate Valid()
      reads this
    {
      maxDelay == Max(LONG_DELAY, minDelay) && currentDelay == Delay(minDelay, attempt)
    }

    constructor (delay: int)
      ensures Valid() && minDelay == delay && attempt == 0
    {
      currentDelay, minDelay, maxDelay, attempt := delay, delay, Max(LONG_DELAY, delay), 0;
      new;
      assert minDelay * Pow2(0) == minDelay;
    }

    method Reset(delay: int)
      modifies this
      ensures Valid() && minDelay == delay && attempt == 0
    {
      currentDelay, minDelay, maxDelay, attempt := delay, delay, Max(LONG_DELAY, delay), 0;
      assert minDelay * Pow2(0) == minDelay;
    }

    method Increase()
      requires Valid()
      modifies this`currentDelay, this`attempt
      ensures Valid() && attempt == old(attempt) + 1
    {
      ClosedForm(minDelay, attempt);
      ClosedForm(minDelay, attempt + 1);
      if attempt >= PATIENT_ATTEMPTS && currentDelay < maxDelay {
        currentDelay := currentDelay * 2;
        if currentDelay > maxDelay {
          currentDelay := maxDelay;
        }
      }
      attempt := attempt + 1;
    }
  }

  // ---- RequestTutor ----

  const MIN_TIMEOUT := 4000

  /**
   The tutors that retransmit. The tutors of subscriptions and of the bandwidth pass their timeout on to the one
   that takes over; the tutor of a forced rebind sends the rebind anew, under a tutor that starts afresh.
   */
  datatype Kind = Lengthening | ForceRebind

  /**
   A request and its retransmissions: the tutor now in charge, the timeouts that were started, and how many
   times the timeout was lengthened on the way. over: nobody is in charge any more.
   */
  datatype Chain = Chain(
    kind: Kind, timeoutMs: int, timeoutIsRunning: bool, links: nat, started: seq<int>, over: bool)

  /** The first tutor of a request, and the one made after it by doRecovery. */
  function FirstTimeout(currentTimeout: int): int { if currentTimeout > 0 then currentTimeout * 2 else MIN_TIMEOUT }

  function Begin(kind: Kind): Chain { Chain(kind, FirstTimeout(0), false, 0, [], false) }

  function Recreate(c: Chain): Chain {
    match c.kind
    case Lengthening => c.(timeoutMs := FirstTimeout(c.timeoutMs), timeoutIsRunning := false, links := c.links + 1)
    case ForceRebind => c.(timeoutMs := FirstTimeout(0), timeoutIsRunning := false)
  }

  function TimeoutStarted(c: Chain): Chain {
    if c.timeoutIsRunning then c else c.(timeoutIsRunning := true, started := c.started + [c.timeoutMs])
  }

  datatype Event =
    | Sent(failed: bool)
    // stop: success, discarded, or the session closed; retry: another tutor takes over
    | TimeoutExpires(stop: bool, retry: bool)

  function Step(c: Chain, e: Event): Chain {
    if c.over then c
    else match e
      case Sent(failed) => if failed then Recreate(c) else TimeoutStarted(c)
      case TimeoutExpires(stop, retry) =>
        if !c.timeoutIsRunning then c
        else if stop then c.(timeoutIsRunning := false, over := true)
        else if retry || c.kind.ForceRebind? then Recreate(c)
        else TimeoutStarted(c.(timeoutIsRunning := false, timeoutMs := c.timeoutMs * 2, links := c.links + 1))
  }

  function Run(c: Chain, es: seq<Event>): Chain
    decreases |es|
  {
    if es == [] then c else Run(Step(c, es[0]), es[1..])
  }

  /** Every lengthening is a doubling; without failed sendings there is one lengthening from start to start. */
  ghost predicate Inv(c: Chain, noFailure: bool) {
    && c.kind.Lengthening?
    && c.timeoutMs == MIN_TIMEOUT * Pow2(c.links)
    && (noFailure ==> forall k :: 0 <= k < |c.started| ==> c.started[k] == MIN_TIMEOUT * Pow2(k))
    && (noFailure && !c.over ==> |c.started| == c.links + (if c.timeoutIsRunning then 1 else 0))
    && (forall k :: 0 <= k < |c.started| ==> c.started[k] <= c.timeoutMs)
    && (forall k :: 1 <= k < |c.started| ==> c.started[k] >= 2 * c.started[k - 1])
    && (!c.timeoutIsRunning && !c.over && c.started != [] ==> 2 * c.started[|c.started| - 1] <= c.timeoutMs)
  }

  lemma RecreateKeepsInv(c: Chain, noFailure: bool)
    requires Inv(c, noFailure) && !c.over && (noFailure ==> c.timeoutIsRunning)
    ensures Inv(Recreate(c), noFailure)
  {
    assert Pow2(c.links + 1) == 2 * Pow2(c.links);
    assert FirstTimeout(c.timeoutMs) == 2 * c.timeoutMs;
  }

  lemma StartKeepsInv(c: Chain, noFailure: bool)
    requires Inv(c, noFailure) && !c.over
    ensures Inv(TimeoutStarted(c), noFailure)
  {
  }

  /** A tutor that reschedules itself: for the moment as if it had been made anew. */
  lemma StepKeepsInv(c: Chain, e: Event, noFailure: bool)
    requires Inv(c, noFailure) && (noFailure ==> e != Sent(true))
    ensures Inv(Step(c, e), noFailure)
  {
    if !c.over {
      assert FirstTimeout(c.timeoutMs) == 2 * c.timeoutMs;
      hide Inv, FirstTimeout;
      if e == Sent(false) {
        StartKeepsInv(c, noFailure);
      } else if e.Sent? || (c.timeoutIsRunning && !e.stop) {
        RecreateKeepsInv(c, noFailure);
        StartKeepsInv(Recreate(c), noFailure);
      } else if c.timeoutIsRunning {
        OverKeepsInv(c, noFailure);
      }
    }
  }

  lemma OverKeepsInv(c: Chain, noFailure: bool)
    requires Inv(c, noFailure)
    ensures Inv(c.(timeoutIsRunning := false, over := true), noFailure)
  {
  }

  /**
   Along any mixture of rescheduled tutors and tutors that take over after a timeout, the k-th timeout of a
   request is 4000 times two to the k; with failed sendings in between, each is still at least twice the one
   before. Inv leaves out the forced rebinds.
   */
  lemma {:induction false} TimeoutsDouble(c: Chain, es: seq<Event>, noFailure: bool)
    requires Inv(c, noFailure) && (noFailure ==> Sent(true) !in es)
    ensures var c' := Run(c, es);
      && (noFailure ==> forall k :: 0 <= k < |c'.started| ==> c'.started[k] == MIN_TIMEOUT * Pow2(k))
      && (forall k :: 1 <= k < |c'.started| ==> c'.started[k] >= 2 * c'.started[k - 1])
      && Inv(c', noFailure)
    decreases |es|
  {
    if es != [] {
      StepKeepsInv(c, es[0], noFailure);
      TimeoutsDouble(Step(c, es[0]), es[1..], noFailure);
    }
  }

  lemma BeginInv(noFailure: bool)
    ensures Inv(Begin(Lengthening), noFailure)
  {
  }

  ghost predicate StaysAtMinimum(c: Chain) {
    && c.kind.ForceRebind? && c.timeoutMs == MIN_TIMEOUT
    && forall k :: 0 <= k < |c.started| ==> c.started[k] == MIN_TIMEOUT
  }

  /** The timeouts of a forced rebind never get longer, whether sendings fail or timeouts expire. */
  lemma {:induction false} RebindTimeoutsStay(c: Chain, es: seq<Event>)
    requires StaysAtMinimum(c)
    ensures StaysAtMinimum(Run(c, es))
    decreases |es|
  {
    if es != [] { RebindTimeoutsStay(Step(c, es[0]), es[1..]); }
  }

  /**
   When no sending fails, the k-th timeout is 4000 times two to the k all along if and only if the request is
   not a forced rebind, or has started one timeout at most.
   */
  lemma TimeoutsDoubleIff(kind: Kind, es: seq<Event>)
    requires Sent(true) !in es
    ensures var c := Run(Begin(kind), es);
      (forall k :: 0 <= k < |c.started| ==> c.started[k] == MIN_TIMEOUT * Pow2(k))
      <==> (kind != ForceRebind || |c.started| <= 1)
  {
    var c := Run(Begin(kind), es);
    match kind {
      case Lengthening =>
        BeginInv(true);
        TimeoutsDouble(Begin(kind), es, true);
      case ForceRebind =>
        RebindTimeoutsStay(Begin(kind), es);
        assert Pow2(0) == 1 && Pow2(1) == 2;
        if |c.started| > 1 { assert c.started[1] == MIN_TIMEOUT; }
    }
  }

  /** A request whose first timeout expires: a forced rebind waits as long the second time, any other twice as
      long, whether a new tutor takes over or the old one goes on. */
  lemma SecondTimeout(kind: Kind, retry: bool)
    ensures var es := [Sent(false), TimeoutExpires(false, retry), Sent(false)];
      Run(Begin(kind), es).started == [4000, if kind == ForceRebind then 4000 else 8000]
  {
    var es := [Sent(false), TimeoutExpires(false, retry), Sent(false)];
    var first := Step(Begin(kind), es[0]);
    var second := Step(Step(first, es[1]), es[2]);
    assert es[1..][1..] == [es[2]] && [es[2]][1..] == [];
    assert Run(Begin(kind), es) == Run(first, es[1..]) == Run(Step(first, es[1]), [es[2]]) == Run(second, []);
  }

  /** A request whose first sending fails: its first timeout is longer, unless it is a forced rebind. */
  lemma FailedFirst(kind: Kind)
    ensures Run(Begin(kind), [Sent(true), Sent(false)]).started == [if kind == ForceRebind then 4000 else 8000]
  {
    var es := [Sent(true), Sent(false)];
    assert es[1..] == [es[1]] && [es[1]][1..] == [];
    assert Run(Begin(kind), es) == Run(Step(Begin(kind), es[0]), [es[1]])
        == Run(Step(Step(Begin(kind), es[0]), es[1]), []);
  }

  /** After a timeout the next one runs at once if the same tutor goes on; a tutor that takes over, and every
      tutor of a forced rebind does, waits for its request to be sent. */
  lemma NextTimeoutStartsIff(c: Chain, retry: bool)
    requires Inv(c, false) || StaysAtMinimum(c)
    requires !c.over && c.timeoutIsRunning
    ensures var c' := Step(c, TimeoutExpires(false, retry));
      && !c'.over
      && (c'.timeoutIsRunning <==> !retry && c.kind != ForceRebind)
      && |c'.started| == |c.started| + (if c'.timeoutIsRunning then 1 else 0)
      && |Step(c', Sent(false)).started| == |c.started| + 1
  {
  }

  /** Once a timeout finds success, or its session closed, no timeout of the request ever starts again. */
  lemma {:induction false} StoppedForGood(c: Chain, es: seq<Event>, retry: bool)
    requires !c.over && c.timeoutIsRunning
    ensures Run(Step(c, TimeoutExpires(true, retry)), es).started == c.started
  {
    OverForGood(Step(c, TimeoutExpires(true, retry)), es);
  }

  lemma {:induction false} OverForGood(c: Chain, es: seq<Event>)
    requires c.over
    ensures Run(c, es) == c
    decreases |es|
  {
    if es != [] { OverForGood(c, es[1..]); }
  }

  /** A tutor with its fields; the chain it belongs to is history. */
  class RequestTutor {
    const kind: Kind
    var timeoutMs: int
    var timeoutIsRunning: bool
    var discarded: bool
    ghost var links: nat
    ghost var started: seq<int>

    ghost function View(): Chain
      reads this
    {
      Chain(kind, timeoutMs, timeoutIsRunning, links, started, false)
    }

    constructor (kind: Kind, currentTimeout: int, ghost links: nat, ghost started: seq<int>)
      ensures View() == Chain(kind, FirstTimeout(currentTimeout), false, links, started, false) && !discarded
    {
      this.kind := kind;
      timeoutMs := if currentTimeout > 0 then currentTimeout * 2 else MIN_TIMEOUT;
      timeoutIsRunning, discarded := false, false;
      this.links, this.started := links, started;
    }

    method StartTimeout()
      modifies this`timeoutIsRunning, this`started
      ensures View() == TimeoutStarted(old(View()))
    {
      if !timeoutIsRunning {
        timeoutIsRunning := true;
        started := started + [timeoutMs];
      }
    }

    /** doRecovery: the request is sent again under a tutor that is told this one's timeout, except that the
        next tutor of a forced rebind is told of none. */
    method DoRecovery() returns (next: RequestTutor)
      ensures fresh(next) && next.View() == Recreate(View()) && !next.discarded
    {
      match kind
      case Lengthening => next := new RequestTutor(kind, timeoutMs, links + 1, started);
      case ForceRebind => next := new RequestTutor(kind, 0, links, started);
    }

    /** The tutor in charge after notifySender. */
    method NotifySender(failed: bool) returns (next: RequestTutor)
      modifies this`timeoutIsRunning, this`started
      ensures next == this || fresh(next)
      ensures next.View() == Step(old(View()), Sent(failed))
    {
      if failed {
        next := DoRecovery();
      } else {
        StartTimeout();
        next := this;
      }
    }

    /**
     onTimeout; null when nobody is in charge afterwards. success is the answer of verifySuccess; the other
     arguments are what it asks of the server session.
     */
    method OnTimeout(success: bool, isClosed: bool, isTransportHttp: bool, isSameStreamConnection: bool)
      returns (next: RequestTutor?)
      requires timeoutIsRunning
      modifies this`timeoutIsRunning, this`timeoutMs, this`links, this`started
      ensures var stop, retry := discarded || success || isClosed, isTransportHttp || !isSameStreamConnection;
        if next == null then Step(old(View()), TimeoutExpires(stop, retry)).over
        else next.View() == Step(old(View()), TimeoutExpires(stop, retry))
    {
      timeoutIsRunning := false;
      if discarded || success {
        return null;
      } else if isClosed {
        return null;
      } else if isTransportHttp || kind == ForceRebind {
        next := DoRecovery();
      } else if !isSameStreamConnection {
        next := DoRecovery();
      } else {
        timeoutMs := timeoutMs * 2;
        links := links + 1;
        StartTimeout();
        next := this;
      }
    }
  }
}
