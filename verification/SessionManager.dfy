/** SessionManager with its fields, each call proved to do what the state machine says. */
module SessionManagement {
  import opened Common
  import opened S = SessionPhases

  class SessionManager {
    var status: Status
    var statusPhase: nat
    var isFrozen: bool
    var timeouts: multiset<nat>

    ghost function View(): Manager
      reads this
    {
      Manager(status, statusPhase, isFrozen, timeouts)
    }

    constructor ()
      ensures View() == Init()
    {
      status, statusPhase, isFrozen, timeouts := OFF, 0, false, multiset{};
    }

    method ChangeStatus(newStatus: Status)
      modifies this`status, this`statusPhase
      ensures View() == S.ChangeStatus(old(View()), newStatus)
    {
      status := newStatus;
      statusPhase := statusPhase + 1;
    }

    predicate Is(check: Status)
      reads this
    {
      status == check
    }

    method OnSessionClose(handlerPhase: nat, noRecoveryScheduled: bool) returns (phase: nat)
      modifies this`status, this`statusPhase
      ensures View() == S.OnSessionClose(old(View()), handlerPhase, noRecoveryScheduled)
      ensures phase == if handlerPhase == old(statusPhase) then statusPhase else 0
    {
      if handlerPhase != statusPhase {
        return 0;
      }
      ChangeStatus(if noRecoveryScheduled then OFF else status);
      phase := statusPhase;
    }

    /** closing is the phase held by the session that is asked to close. */
    method CloseSession(closing: Option<nat>, noRecoveryScheduled: bool)
      modifies this`status, this`statusPhase
      ensures View() == S.CloseSession(old(View()), closing, noRecoveryScheduled)
    {
      if Is(OFF) || Is(END) {
        return;
      }
      if closing.Some? {
        var phase := OnSessionClose(closing.value, noRecoveryScheduled);
      }
    }

    method StreamSense(handlerPhase: nat, closing: Option<nat>)
      modifies this
      ensures View() == S.StreamSense(old(View()), handlerPhase, closing)
      decreases 1
    {
      if handlerPhase != statusPhase {
        return;
      }
      var switchType := NextSensePhase(status, isFrozen);
      if switchType == OFF || switchType == END {
        return;
      }
      var strOrPoll := if switchType == SWITCHING_STREAMING_WS || switchType == SWITCHING_STREAMING_HTTP
        then STREAMING_SESSION else POLLING_SESSION;
      var wsOrHttp := if switchType == SWITCHING_STREAMING_WS || switchType == SWITCHING_POLLING_WS
        then WS_SESSION else HTTP_SESSION;
      CreateSession(isFrozen, strOrPoll, wsOrHttp, true, closing, Later);
    }

    method SwitchReady(handlerPhase: nat)
      modifies this`status, this`statusPhase
      ensures View() == S.SwitchReady(old(View()), handlerPhase)
    {
      if handlerPhase != statusPhase {
        return;
      }
      var switchType := status;
      if !IsSwitching(status) {
        return;
      }
      var strOrPoll := if switchType == SWITCHING_STREAMING_WS || switchType == SWITCHING_STREAMING_HTTP
        then STREAMING_SESSION else POLLING_SESSION;
      var wsOrHttp := if switchType == SWITCHING_STREAMING_WS || switchType == SWITCHING_POLLING_WS
        then WS_SESSION else HTTP_SESSION;
      ChangeStatus(Settled(strOrPoll, wsOrHttp));
    }

    /** requestSwitch of the session, which may call back at once. */
    method RequestSwitch(a: Answer)
      modifies this
      ensures View() == Answered(old(View()), a)
      decreases 2
    {
      hide S.StreamSense, S.SwitchReady;
      match a
      case Later =>
      case SenseNow(sessionPhase) => StreamSense(statusPhase, sessionPhase);
      case ReadyNow => SwitchReady(statusPhase);
    }

    /** createSession; with avoidSwitch the answer of a session to requestSwitch plays no part. */
    method CreateSession(isTransportForced: bool, isPolling: bool, isHTTP: bool, avoidSwitch: bool,
                         closing: Option<nat>, a: Answer)
      modifies this
      ensures View() == S.CreateSession(old(View()), isTransportForced, isPolling, isHTTP, avoidSwitch, closing, a)
      decreases if avoidSwitch then 0 else 3
    {
      hide Answered;
      isFrozen := isTransportForced;
      if !avoidSwitch && !Is(OFF) && !Is(END) {
        ChangeStatus(Switching(isPolling, isHTTP));
        RequestSwitch(a);
      } else {
        CloseSession(closing, false);
        ChangeStatus(Settled(isPolling, isHTTP));
      }
    }

    method StreamSenseSwitch(handlerPhase: nat, a: Answer)
      modifies this
      ensures View() == S.StreamSenseSwitch(old(View()), handlerPhase, a)
    {
      hide Answered;
      if handlerPhase != statusPhase {
        return;
      }
      var switchType := NextSensePhase(status, isFrozen);
      if switchType == OFF || switchType == END {
        return;
      }
      ChangeStatus(switchType);
      timeouts := timeouts + multiset{statusPhase};
      RequestSwitch(a);
    }

    method OnSlowRequired(handlerPhase: nat, readyNow: bool)
      modifies this
      ensures View() == S.OnSlowRequired(old(View()), handlerPhase, readyNow)
    {
      hide S.SwitchReady;
      if handlerPhase != statusPhase {
        return;
      }
      var switchType := NextSlowPhase(status);
      if switchType == ERROR {
        return;
      }
      ChangeStatus(switchType);
      timeouts := timeouts + multiset{statusPhase};
      if readyNow {
        SwitchReady(statusPhase);
      }
    }

    method SwitchTimeout(ph: nat, closing: Option<nat>)
      requires ph in timeouts
      modifies this
      ensures View() == Step(old(View()), Timeout(ph, closing))
    {
      timeouts := timeouts - multiset{ph};
      if ph != statusPhase {
        return;
      }
      var switchType := status;
      if !IsSwitching(status) {
        return;
      }
      var strOrPoll := if switchType == SWITCHING_STREAMING_WS || switchType == SWITCHING_STREAMING_HTTP
        then STREAMING_SESSION else POLLING_SESSION;
      var wsOrHttp := if switchType == SWITCHING_STREAMING_WS || switchType == SWITCHING_POLLING_WS
        then WS_SESSION else HTTP_SESSION;
      CreateSession(isFrozen, strOrPoll, wsOrHttp, true, closing, Later);
    }

    method Retry(handlerPhase: nat, closing: Option<nat>)
      modifies this
      ensures View() == S.Retry(old(View()), handlerPhase, closing)
    {
      if handlerPhase != statusPhase {
        return;
      }
      var strOrPoll := if Is(STREAMING_WS) || Is(STREAMING_HTTP) then STREAMING_SESSION else POLLING_SESSION;
      var wsOrHttp := if Is(STREAMING_WS) || Is(POLLING_WS) then WS_SESSION else HTTP_SESSION;
      CreateSession(isFrozen, strOrPoll, wsOrHttp, true, closing, Later);
    }

    method RecoverSession(handlerPhase: nat)
      modifies this`status, this`statusPhase
      ensures View() == S.RecoverSession(old(View()), handlerPhase)
    {
      if handlerPhase != statusPhase {
        return;
      }
      var isPolling := if Is(STREAMING_WS) || Is(STREAMING_HTTP) then STREAMING_SESSION else POLLING_SESSION;
      var isHTTP := if Is(STREAMING_WS) || Is(POLLING_WS) then WS_SESSION else HTTP_SESSION;
      ChangeStatus(Settled(isPolling, isHTTP));
    }
  }
}
