/** The monitor of bandwidth requests: a request that a newer one has overtaken is not sent again. */
module Bandwidth {

  /** What has happened to the requests of a session, by the ids their clients gave them. */
  datatype Happened = Allowed(id: nat) | Answered(id: nat)

  /** Requests go out in the order of their ids, and none once its own or a newer answer has come. */
  ghost predicate InOrder(log: seq<Happened>) {
    forall i, j :: 0 <= i < j < |log| && log[j].Allowed? ==>
      if log[i].Allowed? then log[i].id <= log[j].id else log[i].id < log[j].id
  }

  class BandwidthRetransmissionMonitor {
    var lastReceivedRequestId: int
    var lastPendingRequestId: int
    ghost var log: seq<Happened>

    /** The two ids are the newest answered and the newest allowed so far. */
    ghost predicate Valid()
      reads this
    {
      && lastReceivedRequestId >= -1 && lastPendingRequestId >= -1
      && (forall h :: h in log ==> h.id <= if h.Allowed? then lastPendingRequestId else lastReceivedRequestId)
      && (lastReceivedRequestId >= 0 ==> Answered(lastReceivedRequestId) in log)
      && (lastPendingRequestId >= 0 ==> Allowed(lastPendingRequestId) in log)
      && InOrder(log)
    }

    constructor ()
      ensures Valid() && log == []
    {
      lastReceivedRequestId, lastPendingRequestId, log := -1, -1, [];
    }

    /** A request may be sent exactly when that keeps the order of the log. */
    method CanSend(clientId: nat) returns (allowed: bool)
      requires Valid()
      modifies this`lastPendingRequestId, this`log
      ensures Valid()
      ensures allowed <==> InOrder(old(log) + [Allowed(clientId)])
      ensures log == if allowed then old(log) + [Allowed(clientId)] else old(log)
    {
      LogOrder(log, lastReceivedRequestId, lastPendingRequestId, clientId);
      var isForbidden := clientId < lastPendingRequestId || clientId <= lastReceivedRequestId;
      if !isForbidden {
        lastPendingRequestId := clientId;
        log := log + [Allowed(clientId)];
      }
      allowed := !isForbidden;
    }

    method OnReceivedResponse(clientId: nat)
      requires Valid()
      modifies this`lastReceivedRequestId, this`log
      ensures Valid() && log == old(log) + [Answered(clientId)]
    {
      if clientId > lastReceivedRequestId {
        lastReceivedRequestId := clientId;
      }
      log := log + [Answered(clientId)];
    }
  }

  /** The test on the two newest ids decides for the whole log. */
  lemma LogOrder(log: seq<Happened>, received: int, pending: int, clientId: nat)
    requires received >= -1 && pending >= -1 && InOrder(log)
    requires forall h :: h in log ==> h.id <= if h.Allowed? then pending else received
    requires (received >= 0 ==> Answered(received) in log) && (pending >= 0 ==> Allowed(pending) in log)
    ensures InOrder(log + [Allowed(clientId)]) <==> clientId >= pending && clientId > received
  {
    var more := log + [Allowed(clientId)];
    if clientId < pending {
      var i :| 0 <= i < |log| && log[i] == Allowed(pending);
      assert more[i] == log[i] && more[|log|] == Allowed(clientId);
    } else if clientId <= received {
      var i :| 0 <= i < |log| && log[i] == Answered(received);
      assert more[i] == log[i] && more[|log|] == Allowed(clientId);
    } else {
      forall i, j | 0 <= i < j < |more| && more[j].Allowed?
        ensures if more[i].Allowed? then more[i].id <= more[j].id else more[i].id < more[j].id
      {
        assert more[i] == log[i] && log[i] in log;
        if j < |log| { assert more[j] == log[j]; }
      }
    }
  }
}
