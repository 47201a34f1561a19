/**
 The session types of SessionManager: calls back from a session carry the phase they were started in, and
 every change of status makes the earlier ones stale.
 */
module SessionPhases {
  import opened Common

  datatype Status =
    | OFF | STREAMING_WS | SWITCHING_STREAMING_WS | POLLING_WS | SWITCHING_POLLING_WS
    | STREAMING_HTTP | SWITCHING_STREAMING_HTTP | POLLING_HTTP | SWITCHING_POLLING_HTTP | END | ERROR

  datatype Transport = WS | HTTP | NoTransport

  /** timeouts: the phases of the switch timeouts that have not run yet. */
  datatype Manager = Manager(status: Status, phase: nat, isFrozen: bool, timeouts: multiset<nat>)

  function Init(): Manager { Manager(OFF, 0, false, multiset{}) }

  const STREAMING_SESSION := false
  const POLLING_SESSION := true
  const WS_SESSION := false
  const HTTP_SESSION := true

  function TransportOf(s: Status): Transport {
    match s
    case STREAMING_WS => WS
    case SWITCHING_STREAMING_WS => WS
    case POLLING_WS => WS
    case SWITCHING_POLLING_WS => WS
    case STREAMING_HTTP => HTTP
    case SWITCHING_STREAMING_HTTP => HTTP
    case POLLING_HTTP => HTTP
    case SWITCHING_POLLING_HTTP => HTTP
    case _ => NoTransport
  }

  predicate IsSwitching(s: Status) {
    || s == SWITCHING_STREAMING_WS || s == SWITCHING_STREAMING_HTTP
    || s == SWITCHING_POLLING_HTTP || s == SWITCHING_POLLING_WS
  }

  /** Neither OFF nor END. */
  predicate IsAlive(s: Status) { s != OFF && s != END }

  /** The status of a session of a given type, and of a switch to it. */
  function Settled(isPolling: bool, isHTTP: bool): Status {
    if isPolling then (if isHTTP then POLLING_HTTP else POLLING_WS)
    else (if isHTTP then STREAMING_HTTP else STREAMING_WS)
  }

  function Switching(isPolling: bool, isHTTP: bool): Status {
    if isPolling then (if isHTTP then SWITCHING_POLLING_HTTP else SWITCHING_POLLING_WS)
    else (if isHTTP then SWITCHING_STREAMING_HTTP else SWITCHING_STREAMING_WS)
  }

  function NextSensePhase(s: Status, isFrozen: bool): Status {
    match s
    case STREAMING_WS => if isFrozen then SWITCHING_STREAMING_WS else SWITCHING_STREAMING_HTTP
    case STREAMING_HTTP => SWITCHING_POLLING_HTTP
    case POLLING_WS => SWITCHING_STREAMING_WS
    case POLLING_HTTP => if isFrozen then SWITCHING_POLLING_HTTP else SWITCHING_STREAMING_WS
    case _ => s
  }

  function NextSlowPhase(s: Status): Status {
    match s
    case STREAMING_WS => SWITCHING_POLLING_WS
    case STREAMING_HTTP => SWITCHING_POLLING_HTTP
    case SWITCHING_STREAMING_HTTP => SWITCHING_POLLING_HTTP
    case SWITCHING_POLLING_HTTP => SWITCHING_POLLING_HTTP
    case _ => ERROR
  }

  function ChangeStatus(m: Manager, s: Status): Manager { m.(status := s, phase := m.phase + 1) }

  /** onSessionClose, as the session calls it with the phase it holds. */
  function OnSessionClose(m: Manager, handlerPhase: nat, noRecovery: bool): Manager {
    if handlerPhase != m.phase then m else ChangeStatus(m, if noRecovery then OFF else m.status)
  }

  /** closeSession; closing is the phase held by the session, if there is one. */
  function CloseSession(m: Manager, closing: Option<nat>, noRecovery: bool): Manager {
    if IsAlive(m.status) && closing.Some? then OnSessionClose(m, closing.value, noRecovery) else m
  }

  /** createSession where it replaces the session. */
  function Replace(m: Manager, isPolling: bool, isHTTP: bool, closing: Option<nat>): Manager {
    ChangeStatus(CloseSession(m, closing, false), Settled(isPolling, isHTTP))
  }

  /** streamSense. */
  function StreamSense(m: Manager, handlerPhase: nat, closing: Option<nat>): Manager {
    if handlerPhase != m.phase then m
    else
      var t := NextSensePhase(m.status, m.isFrozen);
      if t == OFF || t == END then m
      else
        Replace(m, !(t == SWITCHING_STREAMING_WS || t == SWITCHING_STREAMING_HTTP),
                !(t == SWITCHING_STREAMING_WS || t == SWITCHING_POLLING_WS), closing)
  }

  /** switchReady and slowReady. */
  function SwitchReady(m: Manager, handlerPhase: nat): Manager {
    if handlerPhase != m.phase || !IsSwitching(m.status) then m
    else
      ChangeStatus(m, Settled(!(m.status == SWITCHING_STREAMING_WS || m.status == SWITCHING_STREAMING_HTTP),
                              !(m.status == SWITCHING_STREAMING_WS || m.status == SWITCHING_POLLING_WS)))
  }

  /** How the session answers a request to switch: it keeps it in mind, or calls back at once. */
  datatype Answer = Later | SenseNow(closing: Option<nat>) | ReadyNow

  function Answered(m: Manager, a: Answer): Manager {
    match a
    case Later => m
    case SenseNow(closing) => StreamSense(m, m.phase, closing)
    case ReadyNow => SwitchReady(m, m.phase)
  }

  /** createSession; a live session is asked to switch unless that is to be avoided. */
  function CreateSession(m: Manager, isTransportForced: bool, isPolling: bool, isHTTP: bool, avoidSwitch: bool,
                         closing: Option<nat>, a: Answer): Manager {
    var m1 := m.(isFrozen := isTransportForced);
    if !avoidSwitch && IsAlive(m.status) then Answered(ChangeStatus(m1, Switching(isPolling, isHTTP)), a)
    else Replace(m1, isPolling, isHTTP, closing)
  }

  function StartSwitchTimeout(m: Manager): Manager { m.(timeouts := m.timeouts + multiset{m.phase}) }

  function StreamSenseSwitch(m: Manager, handlerPhase: nat, a: Answer): Manager {
    if handlerPhase != m.phase then m
    else
      var t := NextSensePhase(m.status, m.isFrozen);
      if t == OFF || t == END then m else Answered(StartSwitchTimeout(ChangeStatus(m, t)), a)
  }

  /** onSlowRequired; a request to slow down is never answered by sensing. */
  function OnSlowRequired(m: Manager, handlerPhase: nat, readyNow: bool): Manager {
    if handlerPhase != m.phase || NextSlowPhase(m.status) == ERROR then m
    else Answered(StartSwitchTimeout(ChangeStatus(m, NextSlowPhase(m.status))), if readyNow then ReadyNow else Later)
  }

  function SwitchTimeout(m: Manager, ph: nat, closing: Option<nat>): Manager {
    if ph != m.phase || !IsSwitching(m.status) then m
    else
      Replace(m, !(m.status == SWITCHING_STREAMING_WS || m.status == SWITCHING_STREAMING_HTTP),
              !(m.status == SWITCHING_STREAMING_WS || m.status == SWITCHING_POLLING_WS), closing)
  }

  function Retry(m: Manager, handlerPhase: nat, closing: Option<nat>): Manager {
    if handlerPhase != m.phase then m
    else
      Replace(m, !(m.status == STREAMING_WS || m.status == STREAMING_HTTP),
              !(m.status == STREAMING_WS || m.status == POLLING_WS), closing)
  }

  function RecoverSession(m: Manager, handlerPhase: nat): Manager {
    if handlerPhase != m.phase then m
    else
      ChangeStatus(m, Settled(!(m.status == STREAMING_WS || m.status == STREAMING_HTTP),
                              !(m.status == STREAMING_WS || m.status == POLLING_WS)))
  }

  datatype Event =
    | Create(isTransportForced: bool, isPolling: bool, isHTTP: bool, avoidSwitch: bool, closing: Option<nat>,
             answer: Answer)
    | SwitchToWebSocket(closing: Option<nat>, answer: Answer)
    | Close(closing: Option<nat>, noRecovery: bool)
    | Sense(handlerPhase: nat, closing: Option<nat>)
    | SenseSwitch(handlerPhase: nat, answer: Answer)
    | Slow(handlerPhase: nat, readyNow: bool)
    | Ready(handlerPhase: nat)
    | RetryNow(handlerPhase: nat, closing: Option<nat>)
    | Recover(handlerPhase: nat)
    | Closed(handlerPhase: nat, noRecovery: bool)
    | Timeout(ph: nat, closing: Option<nat>)

  function Step(m: Manager, e: Event): Manager {
    match e
    case Create(isTransportForced, isPolling, isHTTP, avoidSwitch, closing, a) =>
      CreateSession(m, isTransportForced, isPolling, isHTTP, avoidSwitch, closing, a)
    case SwitchToWebSocket(closing, a) => CreateSession(m, m.isFrozen, STREAMING_SESSION, WS_SESSION, false, closing, a)
    case Close(closing, noRecovery) => CloseSession(m, closing, noRecovery)
    case Sense(ph, closing) => StreamSense(m, ph, closing)
    case SenseSwitch(ph, a) => StreamSenseSwitch(m, ph, a)
    case Slow(ph, readyNow) => OnSlowRequired(m, ph, readyNow)
    case Ready(ph) => SwitchReady(m, ph)
    case RetryNow(ph, closing) => Retry(m, ph, closing)
    case Recover(ph) => RecoverSession(m, ph)
    case Closed(ph, noRecovery) => OnSessionClose(m, ph, noRecovery)
    case Timeout(ph, closing) =>
      if ph in m.timeouts then SwitchTimeout(m.(timeouts := m.timeouts - multiset{ph}), ph, closing) else m
  }

  function Run(m: Manager, es: seq<Event>): Manager
    decreases |es|
  {
    if es == [] then m else Run(Step(m, es[0]), es[1..])
  }

  // ---- phases ----

  /** A status reached by calls: never ERROR nor END; a timeout whose phase is current finds a switch. */
  ghost predicate Inv(m: Manager) {
    && m.status != ERROR && m.status != END
    && forall t :: t in m.timeouts ==> t <= m.phase && (t == m.phase ==> IsSwitching(m.status))
  }

  lemma ChangeKeepsInv(m: Manager, s: Status)
    requires Inv(m) && s != ERROR && s != END
    ensures Inv(ChangeStatus(m, s))
    ensures IsSwitching(s) ==> Inv(StartSwitchTimeout(ChangeStatus(m, s)))
  {
  }

  lemma SenseKeepsInv(m: Manager, closing: Option<nat>)
    requires Inv(m)
    ensures Inv(StreamSense(m, m.phase, closing))
  {
  }

  lemma ReadyKeepsInv(m: Manager)
    requires Inv(m)
    ensures Inv(SwitchReady(m, m.phase))
  {
  }

  lemma CreateKeepsInv(m: Manager, isTransportForced: bool, isPolling: bool, isHTTP: bool, avoidSwitch: bool,
                       closing: Option<nat>, a: Answer)
    requires Inv(m)
    ensures Inv(CreateSession(m, isTransportForced, isPolling, isHTTP, avoidSwitch, closing, a))
  {
  }

  lemma AnsweredKeepsInv(m: Manager, a: Answer)
    requires Inv(m)
    ensures Inv(Answered(m, a))
  {
    hide StreamSense, SwitchReady;
    match a {
      case Later =>
      case SenseNow(closing) => SenseKeepsInv(m, closing);
      case ReadyNow => ReadyKeepsInv(m);
    }
  }

  lemma SenseSwitchKeepsInv(m: Manager, handlerPhase: nat, a: Answer)
    requires Inv(m)
    ensures Inv(StreamSenseSwitch(m, handlerPhase, a))
  {
    var t := NextSensePhase(m.status, m.isFrozen);
    if handlerPhase == m.phase && t != OFF {
      assert IsSwitching(t);
      hide Answered;
      ChangeKeepsInv(m, t);
      AnsweredKeepsInv(StartSwitchTimeout(ChangeStatus(m, t)), a);
    }
  }

  lemma SlowKeepsInv(m: Manager, handlerPhase: nat, readyNow: bool)
    requires Inv(m)
    ensures Inv(OnSlowRequired(m, handlerPhase, readyNow))
  {
  }

  lemma TimeoutKeepsInv(m: Manager, ph: nat, closing: Option<nat>)
    requires Inv(m)
    ensures Inv(SwitchTimeout(m, ph, closing))
  {
  }

  lemma RetryKeepsInv(m: Manager, handlerPhase: nat, closing: Option<nat>)
    requires Inv(m)
    ensures Inv(Retry(m, handlerPhase, closing)) && Inv(RecoverSession(m, handlerPhase))
  {
  }

  lemma StepKeepsInv(m: Manager, e: Event)
    requires Inv(m)
    ensures Inv(Step(m, e))
  {
    hide CreateSession, StreamSense, StreamSenseSwitch, OnSlowRequired, SwitchReady;
    hide Retry, RecoverSession, SwitchTimeout;
    match e {
      case Create(f, p, h, avoid, closing, a) => CreateKeepsInv(m, f, p, h, avoid, closing, a);
      case SwitchToWebSocket(closing, a) =>
        CreateKeepsInv(m, m.isFrozen, STREAMING_SESSION, WS_SESSION, false, closing, a);
      case Close(closing, noRecovery) => ChangeKeepsInv(m, if noRecovery then OFF else m.status);
      case Sense(ph, closing) => SenseKeepsInv(m, closing); StaleSense(m, ph, closing);
      case SenseSwitch(ph, a) => SenseSwitchKeepsInv(m, ph, a);
      case Slow(ph, readyNow) => SlowKeepsInv(m, ph, readyNow);
      case Ready(ph) => ReadyKeepsInv(m); StaleReady(m, ph);
      case RetryNow(ph, closing) => RetryKeepsInv(m, ph, closing);
      case Recover(ph) => RetryKeepsInv(m, ph, None);
      case Closed(ph, noRecovery) => ChangeKeepsInv(m, if noRecovery then OFF else m.status);
      case Timeout(ph, closing) => TimeoutKeepsInv(m.(timeouts := m.timeouts - multiset{ph}), ph, closing);
    }
  }

  lemma StaleSense(m: Manager, ph: nat, closing: Option<nat>)
    ensures ph != m.phase ==> StreamSense(m, ph, closing) == m
  {
  }

  lemma StaleReady(m: Manager, ph: nat)
    ensures ph != m.phase ==> SwitchReady(m, ph) == m
  {
  }

  lemma StepRaisesPhase(m: Manager, e: Event)
    ensures Step(m, e).phase >= m.phase
    ensures Step(m, e).status != m.status ==> Step(m, e).phase > m.phase
  {
  }

  /** In every run the phase never decreases and neither ERROR nor END is entered. */
  lemma {:induction false} RunKeepsInv(m: Manager, es: seq<Event>)
    requires Inv(m)
    ensures Inv(Run(m, es)) && Run(m, es).phase >= m.phase
    decreases |es|
  {
    hide Step;
    if es != [] {
      StepKeepsInv(m, es[0]);
      StepRaisesPhase(m, es[0]);
      RunKeepsInv(Step(m, es[0]), es[1..]);
    }
  }

  /** The phase with which an event comes from a session or from a timer. */
  function CarriedPhase(e: Event): Option<nat> {
    match e
    case Sense(ph, _) => Some(ph)
    case SenseSwitch(ph, _) => Some(ph)
    case Slow(ph, _) => Some(ph)
    case Ready(ph) => Some(ph)
    case RetryNow(ph, _) => Some(ph)
    case Recover(ph) => Some(ph)
    case Closed(ph, _) => Some(ph)
    case Timeout(ph, _) => Some(ph)
    case _ => None
  }

  /** Once the phase has moved on, a callback or timeout of an earlier phase does nothing, for good. */
  lemma OvertakenForGood(m: Manager, e0: Event, es: seq<Event>, e: Event)
    requires Inv(m) && Step(m, e0).phase > m.phase
    requires CarriedPhase(e).Some? && CarriedPhase(e).value <= m.phase
    ensures var m' := Run(Step(m, e0), es);
      Step(m', e) == if e.Timeout? && e.ph in m'.timeouts then m'.(timeouts := m'.timeouts - multiset{e.ph}) else m'
  {
    StepKeepsInv(m, e0);
    StepRaisesPhase(m, e0);
    RunKeepsInv(Step(m, e0), es);
  }

  // ---- transports ----

  /** A switch ends in the type it was meant for, however it ends. */
  lemma SwitchEndsWhereMeant(isPolling: bool, isHTTP: bool, m: Manager, closing: Option<nat>)
    requires m.status == Switching(isPolling, isHTTP)
    ensures SwitchReady(m, m.phase).status == Settled(isPolling, isHTTP)
    ensures SwitchTimeout(m, m.phase, closing).status == Settled(isPolling, isHTTP)
    ensures StreamSense(m, m.phase, closing).status == Settled(isPolling, isHTTP)
  {
  }

  /** With no transport forced, senses go round: WS streaming, HTTP streaming, HTTP polling, and from the start. */
  lemma SensesGoRound(m: Manager, c0: Option<nat>, c1: Option<nat>, c2: Option<nat>)
    requires !m.isFrozen && m.status == STREAMING_WS
    ensures var m1 := StreamSense(m, m.phase, c0);
      var m2 := StreamSense(m1, m1.phase, c1);
      var m3 := StreamSense(m2, m2.phase, c2);
      m1.status == STREAMING_HTTP && m2.status == POLLING_HTTP && m3.status == STREAMING_WS
  {
  }

  /** With the transport forced, senses end in streaming over WS and in polling over HTTP. */
  lemma ForcedSensesEnd(m: Manager, c0: Option<nat>, c1: Option<nat>)
    requires m.isFrozen && m.status in {STREAMING_WS, POLLING_WS, STREAMING_HTTP, POLLING_HTTP}
    ensures var m1 := StreamSense(m, m.phase, c0);
      var m2 := StreamSense(m1, m1.phase, c1);
      m1.status == m2.status == if m.status in {STREAMING_WS, POLLING_WS} then STREAMING_WS else POLLING_HTTP
  {
  }

  /** A session that is switched by a sense, once it is ready, is of the type that replacing it would give. */
  lemma SwitchingIsReplacing(m: Manager, closing: Option<nat>)
    requires Inv(m) && m.status != OFF && !IsSwitching(m.status)
    ensures var switching := StreamSenseSwitch(m, m.phase, Later);
      && IsSwitching(switching.status)
      && SwitchReady(switching, switching.phase).status == StreamSense(m, m.phase, closing).status
  {
  }

  /** A session that is too slow is switched to polling over the transport it has, if it streams or is being
      switched over HTTP; any other is left as it is. */
  lemma SlowEndsInPolling(m: Manager)
    requires Inv(m)
    ensures var m' := OnSlowRequired(m, m.phase, true);
      if m.status in {STREAMING_WS, STREAMING_HTTP, SWITCHING_STREAMING_HTTP, SWITCHING_POLLING_HTTP} then
        m'.status in {POLLING_WS, POLLING_HTTP} && TransportOf(m'.status) == TransportOf(m.status)
      else m' == m
  {
  }

  /** A session that is started anew or recovered outside a switch is of the same type. */
  lemma RecoveryKeepsType(m: Manager, closing: Option<nat>)
    requires m.status in {STREAMING_WS, POLLING_WS, STREAMING_HTTP, POLLING_HTTP}
    ensures Retry(m, m.phase, closing).status == m.status && RecoverSession(m, m.phase).status == m.status
  {
  }

  /** A session that is replaced is closed in its turn: neither the phase that it held nor the one that it gets
      from its closing is current afterwards. */
  lemma ReplacedIsOvertaken(m: Manager)
    requires Inv(m) && m.status != OFF
    ensures Retry(m, m.phase, Some(m.phase)).phase > CloseSession(m, Some(m.phase), false).phase > m.phase
  {
  }

  /** A closing counts if and only if there is a session to close, and it holds the current phase. */
  lemma ClosingCountsIff(m: Manager, closing: Option<nat>, noRecovery: bool)
    requires Inv(m)
    ensures var m' := Step(m, Close(closing, noRecovery));
      if m.status != OFF && closing == Some(m.phase) then m'.phase > m.phase && (noRecovery <==> m'.status == OFF)
      else m' == m
  {
  }

  /** Sensing changes the transport exactly when it is not frozen and WS streaming or HTTP polling has failed. */
  lemma SenseChangesTransportIff(m: Manager, a: Answer, closing: Option<nat>)
    requires Inv(m)
    ensures TransportOf(StreamSenseSwitch(m, m.phase, a).status) != TransportOf(m.status)
      <==> !m.isFrozen && (m.status == STREAMING_WS || m.status == POLLING_HTTP)
    ensures TransportOf(StreamSense(m, m.phase, closing).status) != TransportOf(m.status)
      <==> !m.isFrozen && (m.status == STREAMING_WS || m.status == POLLING_HTTP)
  {
  }

  /** A retry or a recovery keeps the transport, forced or not, exactly when the session is not in the middle
      of a switch to WS and there is one. */
  lemma RetryKeepsTransportIff(m: Manager, closing: Option<nat>)
    requires Inv(m)
    ensures TransportOf(Retry(m, m.phase, closing).status) == TransportOf(m.status)
      <==> m.status !in {SWITCHING_STREAMING_WS, SWITCHING_POLLING_WS, OFF}
    ensures TransportOf(RecoverSession(m, m.phase).status) == TransportOf(m.status)
      <==> m.status !in {SWITCHING_STREAMING_WS, SWITCHING_POLLING_WS, OFF}
  {
  }

  /** The events that leave the transport in use, for another one or for none. */
  predicate Leaves(m: Manager, e: Event) {
    match e
    case Create(_, _, isHTTP, _, _, _) => TransportOf(m.status) != (if isHTTP then HTTP else WS)
    case SwitchToWebSocket(_, _) => TransportOf(m.status) != WS
    case Close(closing, noRecovery) => noRecovery && closing == Some(m.phase) && m.status != OFF
    case Closed(handlerPhase, noRecovery) => noRecovery && handlerPhase == m.phase && m.status != OFF
    case Sense(handlerPhase, _) =>
      handlerPhase == m.phase && !m.isFrozen && (m.status == STREAMING_WS || m.status == POLLING_HTTP)
    case SenseSwitch(handlerPhase, _) =>
      handlerPhase == m.phase && !m.isFrozen && (m.status == STREAMING_WS || m.status == POLLING_HTTP)
    case RetryNow(handlerPhase, _) =>
      handlerPhase == m.phase && m.status in {SWITCHING_STREAMING_WS, SWITCHING_POLLING_WS, OFF}
    case Recover(handlerPhase) =>
      handlerPhase == m.phase && m.status in {SWITCHING_STREAMING_WS, SWITCHING_POLLING_WS, OFF}
    case _ => false
  }

  lemma CreateChoosesTransport(m: Manager, isTransportForced: bool, isPolling: bool, isHTTP: bool, avoidSwitch: bool,
                               closing: Option<nat>, a: Answer)
    ensures TransportOf(CreateSession(m, isTransportForced, isPolling, isHTTP, avoidSwitch, closing, a).status)
         == if isHTTP then HTTP else WS
  {
  }

  lemma SlowKeepsTransport(m: Manager, handlerPhase: nat, readyNow: bool)
    ensures TransportOf(OnSlowRequired(m, handlerPhase, readyNow).status) == TransportOf(m.status)
  {
  }

  lemma EndingKeepsTransport(m: Manager, ph: nat, closing: Option<nat>)
    ensures TransportOf(SwitchReady(m, ph).status) == TransportOf(SwitchTimeout(m, ph, closing).status)
         == TransportOf(m.status)
  {
  }

  /** A step changes the transport exactly when it is one of the events that leave it. */
  lemma TransportChangesIff(m: Manager, e: Event)
    requires Inv(m)
    ensures TransportOf(Step(m, e).status) != TransportOf(m.status) <==> Leaves(m, e)
  {
    hide CreateSession, StreamSenseSwitch, OnSlowRequired, StreamSense, SwitchReady;
    hide Retry, RecoverSession, SwitchTimeout;
    match e {
      case Create(f, p, h, avoid, closing, a) => CreateChoosesTransport(m, f, p, h, avoid, closing, a);
      case SwitchToWebSocket(closing, a) =>
        CreateChoosesTransport(m, m.isFrozen, STREAMING_SESSION, WS_SESSION, false, closing, a);
      case Close(closing, noRecovery) =>
      case Closed(ph, noRecovery) =>
      case Sense(ph, closing) => StaleSense(m, ph, closing); SenseChangesTransportIff(m, Later, closing);
      case SenseSwitch(ph, a) => StaleSenseSwitch(m, ph, a); SenseChangesTransportIff(m, a, None);
      case Slow(ph, readyNow) => SlowKeepsTransport(m, ph, readyNow);
      case Ready(ph) => EndingKeepsTransport(m, ph, None);
      case Timeout(ph, closing) => EndingKeepsTransport(m.(timeouts := m.timeouts - multiset{ph}), ph, closing);
      case RetryNow(ph, closing) => StaleRetry(m, ph, closing); RetryKeepsTransportIff(m, closing);
      case Recover(ph) => StaleRetry(m, ph, None); RetryKeepsTransportIff(m, None);
    }
  }

  lemma StaleSenseSwitch(m: Manager, ph: nat, a: Answer)
    ensures ph != m.phase ==> StreamSenseSwitch(m, ph, a) == m
  {
  }

  lemma StaleRetry(m: Manager, ph: nat, closing: Option<nat>)
    ensures ph != m.phase ==> Retry(m, ph, closing) == m && RecoverSession(m, ph) == m
  {
  }

  predicate NeverLeaves(m: Manager, es: seq<Event>)
    decreases |es|
  {
    es == [] || (!Leaves(m, es[0]) && NeverLeaves(Step(m, es[0]), es[1..]))
  }

  predicate KeepsTransport(m: Manager, es: seq<Event>, t: Transport)
    decreases |es|
  {
    TransportOf(m.status) == t && (es == [] || KeepsTransport(Step(m, es[0]), es[1..], t))
  }

  /** Over any run, forced or not, the transport stays the same all through if and only if no event of the run
      is one that leaves it. */
  lemma {:induction false} TransportStaysIff(m: Manager, es: seq<Event>)
    requires Inv(m)
    ensures KeepsTransport(m, es, TransportOf(m.status)) <==> NeverLeaves(m, es)
    decreases |es|
  {
    hide Step, Leaves;
    if es != [] {
      StepKeepsInv(m, es[0]);
      TransportChangesIff(m, es[0]);
      if !Leaves(m, es[0]) { TransportStaysIff(Step(m, es[0]), es[1..]); }
    }
  }

  /** A forced WS session is in the middle of a switch when it is closed for a recovery; the retry that follows
      leaves for HTTP polling. */
  lemma ForcedTransportIsLeft()
    ensures var switching := Run(Init(), [Create(true, false, false, false, None, Later), SenseSwitch(1, Later)]);
      var m := Run(switching, [Closed(2, false), RetryNow(3, None)]);
      && switching.isFrozen && switching.status == SWITCHING_STREAMING_WS
      && m.isFrozen && m.status == POLLING_HTTP
  {
    var es, fs := [Create(true, false, false, false, None, Later), SenseSwitch(1, Later)],
                  [Closed(2, false), RetryNow(3, None)];
    assert es[1..] == [es[1]] && es[1..][1..] == [] && fs[1..] == [fs[1]] && fs[1..][1..] == [];
    assert Step(Init(), es[0]) == Manager(STREAMING_WS, 1, true, multiset{});
    var switching := Step(Step(Init(), es[0]), es[1]);
    assert Run(Init(), es) == Run(Step(Init(), es[0]), [es[1]]) == Run(switching, []) == switching;
    assert Run(switching, fs) == Run(Step(switching, fs[0]), [fs[1]]);
  }

  /** The events by which a session or a timer drives the manager: senses, slow-downs, switches, timeouts, and
      retries and recoveries outside a switch to WS. */
  predicate IsDriven(m: Manager, e: Event) {
    || e.Sense? || e.SenseSwitch? || e.Slow? || e.Ready? || e.Timeout? || (e.Closed? && !e.noRecovery)
    || ((e.RetryNow? || e.Recover?) && m.status !in {SWITCHING_STREAMING_WS, SWITCHING_POLLING_WS, OFF})
  }

  predicate AllDriven(m: Manager, es: seq<Event>)
    decreases |es|
  {
    es == [] || (IsDriven(m, es[0]) && AllDriven(Step(m, es[0]), es[1..]))
  }

  lemma FrozenStep(m: Manager, e: Event)
    requires Inv(m) && m.isFrozen && IsDriven(m, e)
    ensures Step(m, e).isFrozen && TransportOf(Step(m, e).status) == TransportOf(m.status)
  {
    TransportChangesIff(m, e);
    hide TransportOf, Settled, NextSensePhase, NextSlowPhase;
  }

  /** With the transport forced, a run leaves it if and only if one of its events does; no run of senses,
      slow-downs, switches, timeouts, and of retries outside a switch to WS, has such an event. */
  lemma {:induction false} FrozenTransportStays(m: Manager, es: seq<Event>)
    requires Inv(m) && m.isFrozen
    ensures KeepsTransport(m, es, TransportOf(m.status)) <==> NeverLeaves(m, es)
    ensures AllDriven(m, es) ==>
      NeverLeaves(m, es) && Run(m, es).isFrozen && TransportOf(Run(m, es).status) == TransportOf(m.status)
    decreases |es|
  {
    hide Step, Leaves, IsDriven;
    TransportStaysIff(m, es);
    if es != [] && IsDriven(m, es[0]) {
      StepKeepsInv(m, es[0]);
      FrozenStep(m, es[0]);
      TransportChangesIff(m, es[0]);
      FrozenTransportStays(Step(m, es[0]), es[1..]);
    }
  }

  /** A request to switch that is answered at once leaves no switch behind. */
  lemma AnsweredSettles(m: Manager, a: Answer)
    requires IsSwitching(m.status)
    ensures if a == Later then Answered(m, a) == m else !IsSwitching(Answered(m, a).status)
    ensures Answered(m, a).timeouts == m.timeouts && Answered(m, a).phase >= m.phase
  {
  }

  lemma CreateIsNotWatched(m: Manager, isTransportForced: bool, isPolling: bool, isHTTP: bool, avoidSwitch: bool,
                           closing: Option<nat>, a: Answer)
    ensures CreateSession(m, isTransportForced, isPolling, isHTTP, avoidSwitch, closing, a).timeouts == m.timeouts
  {
  }

  /** A switch is under way, and no timeout of its phase will end it. */
  predicate Unwatched(m: Manager) { IsSwitching(m.status) && m.phase !in m.timeouts }

  /** createSession asks a live session to switch, which does not answer at once; or a session that is being
      closed, for a recovery, raises the phase in the middle of a switch. */
  predicate LeavesUnwatched(m: Manager, e: Event) {
    match e
    case Create(_, _, _, avoidSwitch, _, a) => !avoidSwitch && IsAlive(m.status) && a == Later
    case SwitchToWebSocket(_, a) => IsAlive(m.status) && a == Later
    case Close(closing, noRecovery) => IsSwitching(m.status) && closing == Some(m.phase) && !noRecovery
    case Closed(handlerPhase, noRecovery) => IsSwitching(m.status) && handlerPhase == m.phase && !noRecovery
    case _ => false
  }

  lemma UnwatchedStepIff(m: Manager, e: Event)
    requires Inv(m)
    ensures Unwatched(Step(m, e)) <==> LeavesUnwatched(m, e) || (Unwatched(m) && Step(m, e).phase == m.phase)
  {
    hide CreateSession, StreamSenseSwitch, OnSlowRequired, StreamSense, SwitchReady;
    hide Retry, RecoverSession, SwitchTimeout;
    match e {
      case Create(f, p, h, avoid, closing, a) => CreateUnwatchedIff(m, f, p, h, avoid, closing, a);
      case SwitchToWebSocket(closing, a) =>
        CreateUnwatchedIff(m, m.isFrozen, STREAMING_SESSION, WS_SESSION, false, closing, a);
      case SenseSwitch(ph, a) => SenseIsWatched(m, ph, a);
      case Slow(ph, readyNow) => SlowIsWatched(m, ph, readyNow);
      case Timeout(ph, closing) => TimeoutIsWatched(m, ph, closing);
      case Close(closing, noRecovery) =>
      case Closed(ph, noRecovery) =>
      case Sense(ph, closing) => SenseSettles(m, ph, closing);
      case Ready(ph) => ReadySettles(m, ph);
      case RetryNow(ph, closing) => RetrySettles(m, ph, closing);
      case Recover(ph) => RetrySettles(m, ph, None);
    }
  }

  /** The session is of a settled type in a new phase, if anything has changed. */
  ghost predicate Settles(m: Manager, m': Manager) { m' == m || (m'.phase > m.phase && !IsSwitching(m'.status)) }

  lemma SenseSettles(m: Manager, handlerPhase: nat, closing: Option<nat>)
    ensures Settles(m, StreamSense(m, handlerPhase, closing))
  {
  }

  lemma ReadySettles(m: Manager, handlerPhase: nat)
    ensures Settles(m, SwitchReady(m, handlerPhase))
  {
  }

  lemma RetrySettles(m: Manager, handlerPhase: nat, closing: Option<nat>)
    ensures Settles(m, Retry(m, handlerPhase, closing)) && Settles(m, RecoverSession(m, handlerPhase))
  {
  }

  lemma TimeoutIsWatched(m: Manager, ph: nat, closing: Option<nat>)
    requires Inv(m)
    ensures var m' := Step(m, Timeout(ph, closing));
      Unwatched(m') <==> Unwatched(m) && m'.phase == m.phase
  {
  }

  lemma SenseIsWatched(m: Manager, handlerPhase: nat, a: Answer)
    requires Inv(m)
    ensures var m' := StreamSenseSwitch(m, handlerPhase, a); m' == m || (m'.phase > m.phase && !Unwatched(m'))
  {
    hide Answered;
    var t := NextSensePhase(m.status, m.isFrozen);
    if IsSwitching(t) { AnsweredSettles(StartSwitchTimeout(ChangeStatus(m, t)), a); }
  }

  lemma SlowIsWatched(m: Manager, handlerPhase: nat, readyNow: bool)
    requires Inv(m)
    ensures var m' := OnSlowRequired(m, handlerPhase, readyNow); m' == m || (m'.phase > m.phase && !Unwatched(m'))
  {
    hide Answered;
    var t := NextSlowPhase(m.status);
    if IsSwitching(t) {
      AnsweredSettles(StartSwitchTimeout(ChangeStatus(m, t)), if readyNow then ReadyNow else Later);
    }
  }

  lemma CreateUnwatchedIff(m: Manager, isTransportForced: bool, isPolling: bool, isHTTP: bool, avoidSwitch: bool,
                           closing: Option<nat>, a: Answer)
    requires Inv(m)
    ensures var m' := CreateSession(m, isTransportForced, isPolling, isHTTP, avoidSwitch, closing, a);
      && m'.phase > m.phase
      && (Unwatched(m') <==> !avoidSwitch && IsAlive(m.status) && a == Later)
  {
    CreateIsNotWatched(m, isTransportForced, isPolling, isHTTP, avoidSwitch, closing, a);
  }

  lemma {:induction false} RunConcat(m: Manager, es: seq<Event>, fs: seq<Event>)
    ensures Run(m, es + fs) == Run(Run(m, es), fs)
    decreases |es|
  {
    hide Step;
    if es == [] {
      assert es + fs == fs;
    } else {
      assert (es + fs)[1..] == es[1..] + fs;
      RunConcat(Step(m, es[0]), es[1..], fs);
    }
  }

  /** The i-th event of a run left a switch unwatched, and no event after it has raised the phase. */
  ghost predicate LeftAt(m: Manager, es: seq<Event>, i: nat) {
    i < |es| && LeavesUnwatched(Run(m, es[..i]), es[i]) && Run(m, es[..i + 1]).phase == Run(m, es).phase
  }

  /** After any run a switch hangs, with no timeout to end it, if and only if one of those events started or
      disturbed it and the phase has not moved since. */
  lemma {:induction false} SwitchHangsIff(m: Manager, es: seq<Event>)
    requires Inv(m) && !Unwatched(m)
    ensures Unwatched(Run(m, es)) <==> exists i :: LeftAt(m, es, i)
    decreases |es|
  {
    hide Step, LeavesUnwatched, Unwatched;
    if es != [] {
      var n := |es| - 1;
      var front, e := es[..n], es[n];
      assert es == front + [e];
      RunConcat(m, front, [e]);
      assert Run(m, es) == Step(Run(m, front), e);
      RunKeepsInv(m, front);
      UnwatchedStepIff(Run(m, front), e);
      StepRaisesPhase(Run(m, front), e);
      SwitchHangsIff(m, front);
      assert es[..n + 1] == es;
      forall i | 0 <= i < n
        ensures LeftAt(m, es, i) <==> LeftAt(m, front, i) && Run(m, es).phase == Run(m, front).phase
      {
        assert es[..i] == front[..i] && es[..i + 1] == front[..i + 1];
        RunConcat(m, front[..i + 1], front[i + 1..]);
        assert front == front[..i + 1] + front[i + 1..];
        RunKeepsInv(m, front[..i + 1]);
        RunKeepsInv(Run(m, front[..i + 1]), front[i + 1..]);
      }
      assert LeftAt(m, es, n) <==> LeavesUnwatched(Run(m, front), e);
    }
  }

  /** Two inputs: a switch by createSession, and a watched switch whose session is closed for a recovery. */
  lemma HangingSwitches()
    ensures var created := Step(Init(), Create(false, false, false, false, None, Later));
      && Unwatched(Step(created, Create(false, true, true, false, None, Later)))
      && (var sensed := Step(created, SenseSwitch(1, Later));
          !Unwatched(sensed) && IsSwitching(sensed.status) && Unwatched(Step(sensed, Closed(2, false))))
  {
    var created := Step(Init(), Create(false, false, false, false, None, Later));
    assert created == Manager(STREAMING_WS, 1, false, multiset{});
    assert Step(created, SenseSwitch(1, Later)) == Manager(SWITCHING_STREAMING_HTTP, 2, false, multiset{2});
  }
}
