/** Which requests of a queue one batch takes: HttpRequestManager::sendBatch. */
module Batching {
  import opened Common
  import opened BatchQueue

  /** The answers of the tutors' shouldBeSent at the time of a dequeue. */
  type Ready = Request -> bool

  /** The requests of rs whose tutor answers want, in order. */
  function Keep(rs: seq<Request>, ready: Ready, want: bool): seq<Request> {
    if rs == [] then [] else KeepOne(rs[0], ready, want) + Keep(rs[1..], ready, want)
  }

  function KeepOne(r: Request, ready: Ready, want: bool): seq<Request> {
    if ready(r) == want then [r] else []
  }

  lemma {:induction false} KeepConcat(a: seq<Request>, b: seq<Request>, ready: Ready, want: bool)
    ensures Keep(a + b, ready, want) == Keep(a, ready, want) + Keep(b, ready, want)
  {
    if a == [] {
      assert a + b == b;
    } else {
      var x, y, z := KeepOne(a[0], ready, want), Keep(a[1..], ready, want), Keep(b, ready, want);
      assert Keep(a + b, ready, want) == x + (y + z) by {
        KeepConcat(a[1..], b, ready, want);
        assert (a + b)[1..] == a[1..] + b;
      }
      ConcatAssociative(x, y, z);
    }
  }

  /** Every request is either sent or aborted. */
  lemma {:induction false} KeepSplits(rs: seq<Request>, ready: Ready, r: Request)
    ensures multiset(Keep(rs, ready, true))[r] + multiset(Keep(rs, ready, false))[r] == multiset(rs)[r]
  {
    if rs != [] {
      KeepSplits(rs[1..], ready, r);
      assert rs == [rs[0]] + rs[1..];
    }
  }

  /** The length of a batch body: the texts and a CR LF between them. */
  function BodyLength(rs: seq<Request>): nat {
    if rs == [] then 0
    else if |rs| == 1 then rs[0].wire
    else BodyLength(rs[..|rs| - 1]) + 2 + rs[|rs| - 1].wire
  }

  lemma BodyLengthSnoc(rs: seq<Request>, r: Request)
    ensures BodyLength(rs + [r]) == if rs == [] then r.wire else BodyLength(rs) + 2 + r.wire
  {
  }

  /** The first loop of sendBatch: how many requests go before one that is to be sent. */
  function SkipCount(rs: seq<Request>, ready: Ready): (n: nat)
    ensures n <= |rs|
    ensures n < |rs| ==> ready(rs[n])
    ensures forall i :: 0 <= i < n ==> !ready(rs[i])
  {
    if rs == [] || ready(rs[0]) then 0 else 1 + SkipCount(rs[1..], ready)
  }

  /** The second loop: how many further requests are taken when the body has the given length. */
  function FillCount(rs: seq<Request>, length: nat, limit: nat, ready: Ready): (n: nat)
    ensures n <= |rs|
  {
    if rs == [] || (limit != 0 && length + rs[0].announced >= limit) then 0
    else 1 + FillCount(rs[1..], if ready(rs[0]) then length + 2 + rs[0].wire else length, limit, ready)
  }

  /** How many requests sendBatch takes off the queue. */
  function Consumed(rs: seq<Request>, limit: nat, ready: Ready): (n: nat)
    ensures n <= |rs|
  {
    var k := SkipCount(rs, ready);
    if k == |rs| then k else k + 1 + FillCount(rs[k + 1..], rs[k].wire, limit, ready)
  }

  function Sent(rs: seq<Request>, limit: nat, ready: Ready): seq<Request> {
    Keep(rs[..Consumed(rs, limit, ready)], ready, true)
  }

  function Aborted(rs: seq<Request>, limit: nat, ready: Ready): seq<Request> {
    Keep(rs[..Consumed(rs, limit, ready)], ready, false)
  }

  lemma {:induction false} KeepNone(rs: seq<Request>, ready: Ready)
    requires forall i :: 0 <= i < |rs| ==> !ready(rs[i])
    ensures Keep(rs, ready, true) == []
  {
    if rs != [] { KeepNone(rs[1..], ready); }
  }

  lemma KeepAfterSkipped(rs: seq<Request>, k: nat, n: nat, ready: Ready)
    requires k < n <= |rs| && ready(rs[k])
    requires forall i :: 0 <= i < k ==> !ready(rs[i])
    ensures Keep(rs[..n], ready, true) == [rs[k]] + Keep(rs[k + 1..n], ready, true)
  {
    KeepNone(rs[..k], ready);
    assert rs[..n] == rs[..k] + rs[k..n];
    KeepConcat(rs[..k], rs[k..n], ready, true);
    assert rs[k..n][1..] == rs[k + 1..n];
  }

  lemma ConsumedPast(rs: seq<Request>, limit: nat, ready: Ready)
    ensures var k, n := SkipCount(rs, ready), Consumed(rs, limit, ready);
      if k == |rs| then n == |rs| else k < n <= |rs|
  {
  }

  lemma KeepFromFirst(rs: seq<Request>, n: nat, ready: Ready)
    requires SkipCount(rs, ready) < n <= |rs|
    ensures var k := SkipCount(rs, ready); Keep(rs[..n], ready, true) == [rs[k]] + Keep(rs[k + 1..n], ready, true)
  {
    hide Keep, SkipCount;
    var k := SkipCount(rs, ready);
    KeepAfterSkipped(rs, k, n, ready);
  }

  lemma KeepNoneOf(rs: seq<Request>, ready: Ready)
    requires SkipCount(rs, ready) == |rs|
    ensures Keep(rs[..|rs|], ready, true) == []
  {
    KeepNone(rs[..|rs|], ready);
  }

  /** The batch starts with the first sendable request. */
  lemma SentStartsWithFirst(rs: seq<Request>, limit: nat, ready: Ready)
    ensures var k, n := SkipCount(rs, ready), Consumed(rs, limit, ready);
      if k == |rs| then Sent(rs, limit, ready) == []
      else n > k && Sent(rs, limit, ready) == [rs[k]] + Keep(rs[k + 1..n], ready, true)
  {
    hide Keep, SkipCount, FillCount, Consumed;
    var k, n := SkipCount(rs, ready), Consumed(rs, limit, ready);
    ConsumedPast(rs, limit, ready);
    if k < |rs| { KeepFromFirst(rs, n, ready); } else { KeepNoneOf(rs, ready); }
  }

  /** A batch is sent exactly when some request of the queue is sendable; otherwise the queue is emptied. */
  lemma SendsIff(rs: seq<Request>, limit: nat, ready: Ready)
    ensures Sent(rs, limit, ready) != [] <==> exists i :: 0 <= i < |rs| && ready(rs[i])
    ensures Sent(rs, limit, ready) == [] ==> Consumed(rs, limit, ready) == |rs|
  {
    SentStartsWithFirst(rs, limit, ready);
    if SkipCount(rs, ready) < |rs| { assert ready(rs[SkipCount(rs, ready)]); }
  }

  /** The body before its last request leaves room for that one, not counting the separator. */
  predicate LastFits(sent: seq<Request>, limit: nat) {
    limit != 0 && |sent| > 1 ==> BodyLength(sent[..|sent| - 1]) + sent[|sent| - 1].wire < limit
  }

  /** What one batch may hold: sizes, and the reason why the filling stopped. */
  ghost predicate WellFilled(sent: seq<Request>, rest: seq<Request>, limit: nat) {
    && LastFits(sent, limit)
    && (rest != [] ==> limit != 0 && BodyLength(sent) + rest[0].announced >= limit)
  }

  lemma FillNext(sent: seq<Request>, rs: seq<Request>, limit: nat, ready: Ready)
    requires sent != [] && LastFits(sent, limit) && FillCount(rs, BodyLength(sent), limit, ready) > 0
    ensures var next := sent + KeepOne(rs[0], ready, true);
      && LastFits(next, limit)
      && FillCount(rs, BodyLength(sent), limit, ready) == 1 + FillCount(rs[1..], BodyLength(next), limit, ready)
  {
    if ready(rs[0]) {
      BodyLengthSnoc(sent, rs[0]);
      assert (sent + [rs[0]])[..|sent|] == sent;
    } else {
      assert sent + [] == sent;
    }
  }

  lemma {:induction false} FillIsWellFilled(sent: seq<Request>, rs: seq<Request>, limit: nat, ready: Ready)
    requires sent != [] && LastFits(sent, limit)
    ensures var n := FillCount(rs, BodyLength(sent), limit, ready);
      WellFilled(sent + Keep(rs[..n], ready, true), rs[n..], limit)
    decreases |rs|
  {
    var n := FillCount(rs, BodyLength(sent), limit, ready);
    if n == 0 {
      assert sent + Keep(rs[..0], ready, true) == sent;
    } else {
      FillNext(sent, rs, limit, ready);
      var one, rest := KeepOne(rs[0], ready, true), rs[1..][..n - 1];
      hide KeepOne, FillCount, BodyLength, LastFits, WellFilled;
      FillIsWellFilled(sent + one, rs[1..], limit, ready);
      assert rs[..n][1..] == rest && rs[n..] == rs[1..][n - 1..];
      ConcatAssociative(sent, one, Keep(rest, ready, true));
    }
  }

  lemma SentIsWellFilled(rs: seq<Request>, limit: nat, ready: Ready)
    requires Sent(rs, limit, ready) != []
    ensures WellFilled(Sent(rs, limit, ready), rs[Consumed(rs, limit, ready)..], limit)
  {
    var k, n := SkipCount(rs, ready), Consumed(rs, limit, ready);
    hide Keep, SkipCount, FillCount;
    SentStartsWithFirst(rs, limit, ready);
    FillIsWellFilled([rs[k]], rs[k + 1..], limit, ready);
    assert rs[k + 1..][..n - k - 1] == rs[k + 1..n];
    assert rs[k + 1..][n - k - 1..] == rs[n..];
  }

  /** The body of the sendable requests among the first j. */
  function BodyUpTo(rs: seq<Request>, j: nat, ready: Ready): nat
    requires j <= |rs|
  {
    BodyLength(Keep(rs[..j], ready, true))
  }

  /** The loop test on the j-th request of the queue. */
  predicate Fits(rs: seq<Request>, j: nat, limit: nat, ready: Ready)
    requires j < |rs|
  {
    limit == 0 || BodyUpTo(rs, j, ready) + rs[j].announced < limit
  }

  /** The i-th request of the queue passes the test and yet does not fit with its separator. */
  predicate Overflows(rs: seq<Request>, i: nat, limit: nat, ready: Ready) {
    var k := SkipCount(rs, ready);
    && k < i < |rs| && ready(rs[i])
    && (forall j :: k < j <= i ==> Fits(rs, j, limit, ready))
    && BodyUpTo(rs, i, ready) + rs[i].wire == limit - 1
  }

  lemma KeepNext(rs: seq<Request>, j: nat, ready: Ready, want: bool)
    requires j < |rs|
    ensures Keep(rs[..j + 1], ready, want)
         == if ready(rs[j]) == want then Keep(rs[..j], ready, want) + [rs[j]] else Keep(rs[..j], ready, want)
  {
    KeepConcat(rs[..j], [rs[j]], ready, want);
    assert rs[..j + 1] == rs[..j] + [rs[j]];
    assert Keep([rs[j]], ready, want) == KeepOne(rs[j], ready, want);
  }

  lemma BodyUpToNext(rs: seq<Request>, j: nat, ready: Ready)
    requires SkipCount(rs, ready) < j < |rs|
    ensures Keep(rs[..j], ready, true) != []
    ensures BodyUpTo(rs, j + 1, ready) == BodyUpTo(rs, j, ready) + if ready(rs[j]) then 2 + rs[j].wire else 0
  {
    hide BodyLength, SkipCount, Keep;
    KeepAfterSkipped(rs, SkipCount(rs, ready), j, ready);
    KeepNext(rs, j, ready, true);
    BodyLengthSnoc(Keep(rs[..j], ready, true), rs[j]);
  }

  lemma FirstBody(rs: seq<Request>, ready: Ready)
    requires SkipCount(rs, ready) < |rs|
    ensures var k := SkipCount(rs, ready); Keep(rs[..k + 1], ready, true) == [rs[k]]
  {
    hide SkipCount, Keep;
    var k := SkipCount(rs, ready);
    KeepNone(rs[..k], ready);
    KeepNext(rs, k, ready, true);
  }

  /** The second loop stops at the first request that fails its test. */
  lemma {:induction false} StopsAtFirstMisfit(rs: seq<Request>, m: nat, limit: nat, ready: Ready)
    requires SkipCount(rs, ready) < m <= |rs|
    requires Consumed(rs, limit, ready) == m + FillCount(rs[m..], BodyUpTo(rs, m, ready), limit, ready)
    ensures var n := Consumed(rs, limit, ready);
      && n >= m && (forall j :: m <= j < n ==> Fits(rs, j, limit, ready))
      && (n < |rs| ==> !Fits(rs, n, limit, ready))
    decreases |rs| - m
  {
    hide SkipCount, BodyUpTo, Consumed;
    if m < |rs| && Fits(rs, m, limit, ready) {
      BodyUpToNext(rs, m, ready);
      assert rs[m..][1..] == rs[m + 1..];
      StopsAtFirstMisfit(rs, m + 1, limit, ready);
    }
  }

  /** The last request that the batch took in, behind the first one. */
  lemma {:induction false} LastTaken(rs: seq<Request>, n: nat, ready: Ready) returns (i: nat)
    requires SkipCount(rs, ready) < n <= |rs| && |Keep(rs[..n], ready, true)| > 1
    ensures SkipCount(rs, ready) < i < n && ready(rs[i]) && BodyUpTo(rs, i + 1, ready) == BodyUpTo(rs, n, ready)
    decreases n
  {
    hide SkipCount, BodyLength, Keep;
    FirstBody(rs, ready);
    i := n - 1;
    KeepNext(rs, i, ready, true);
    if !ready(rs[i]) { i := LastTaken(rs, i, ready); }
  }

  /** Every body is one single request or at most one byte over the limit. */
  lemma BatchSizeBound(rs: seq<Request>, limit: nat, ready: Ready)
    requires limit != 0
    ensures var sent := Sent(rs, limit, ready); |sent| <= 1 || BodyLength(sent) <= limit + 1
  {
    var sent := Sent(rs, limit, ready);
    if sent != [] { SentIsWellFilled(rs, limit, ready); }
  }

  /**
   The limit promised for every body of several requests is broken if and only if the queue holds a request
   that passes the loop test behind others that pass it, and leaves room for one byte where the separator
   needs two: the loop test leaves the separator out.
   */
  lemma LimitIsExceededIff(rs: seq<Request>, limit: nat, ready: Ready)
    requires limit != 0
    ensures |Sent(rs, limit, ready)| > 1 && BodyLength(Sent(rs, limit, ready)) > limit
       <==> exists i :: Overflows(rs, i, limit, ready)
  {
    hide BodyUpTo, SkipCount, FillCount, Consumed, Keep, BodyLength;
    var k, n := SkipCount(rs, ready), Consumed(rs, limit, ready);
    SentStartsWithFirst(rs, limit, ready);
    if k < |rs| {
      BatchGoesOn(rs, limit, ready);
      if |Sent(rs, limit, ready)| > 1 && BodyLength(Sent(rs, limit, ready)) > limit {
        var i := LastTaken(rs, n, ready);
        BodyUpToNext(rs, i, ready);
        SentBody(rs, limit, ready);
        assert Fits(rs, i, limit, ready);
        assert Overflows(rs, i, limit, ready);
      }
      forall i | Overflows(rs, i, limit, ready)
        ensures |Sent(rs, limit, ready)| > 1 && BodyLength(Sent(rs, limit, ready)) > limit
      {
        OverflowEndsBatch(rs, i, limit, ready);
      }
    }
  }

  lemma SingleBody(rs: seq<Request>, ready: Ready)
    requires SkipCount(rs, ready) < |rs|
    ensures BodyUpTo(rs, SkipCount(rs, ready) + 1, ready) == rs[SkipCount(rs, ready)].wire
  {
    hide SkipCount;
    FirstBody(rs, ready);
  }

  lemma SentBody(rs: seq<Request>, limit: nat, ready: Ready)
    ensures BodyLength(Sent(rs, limit, ready)) == BodyUpTo(rs, Consumed(rs, limit, ready), ready)
  {
  }

  lemma OverflowEndsBatch(rs: seq<Request>, i: nat, limit: nat, ready: Ready)
    requires limit != 0 && Overflows(rs, i, limit, ready)
    ensures |Sent(rs, limit, ready)| > 1 && BodyLength(Sent(rs, limit, ready)) == limit + 1
  {
    hide BodyUpTo, SkipCount, FillCount, Consumed, BodyLength, Keep;
    var k, n := SkipCount(rs, ready), Consumed(rs, limit, ready);
    BatchGoesOn(rs, limit, ready);
    assert i + 1 < n ==> Fits(rs, i + 1, limit, ready);
    BodyUpToNext(rs, i, ready);
    SentBody(rs, limit, ready);
    KeepNext(rs, i, ready, true);
  }

  /** What is known of the end of a batch. */
  lemma BatchGoesOn(rs: seq<Request>, limit: nat, ready: Ready)
    requires SkipCount(rs, ready) < |rs|
    ensures var k, n := SkipCount(rs, ready), Consumed(rs, limit, ready);
      && k < n <= |rs| && (forall j :: k < j < n ==> Fits(rs, j, limit, ready))
      && (n < |rs| ==> !Fits(rs, n, limit, ready))
  {
    hide BodyUpTo, SkipCount, FillCount, BodyLength, Keep;
    SingleBody(rs, ready);
    StopsAtFirstMisfit(rs, SkipCount(rs, ready) + 1, limit, ready);
  }

  /** A batch is as large as the test allows: what stays queued would have failed it. */
  lemma BatchIsGreedy(rs: seq<Request>, limit: nat, ready: Ready)
    requires Sent(rs, limit, ready) != [] && Consumed(rs, limit, ready) < |rs|
    ensures limit != 0 && BodyLength(Sent(rs, limit, ready)) + rs[Consumed(rs, limit, ready)].announced >= limit
  {
    SentIsWellFilled(rs, limit, ready);
    assert rs[Consumed(rs, limit, ready)..][0] == rs[Consumed(rs, limit, ready)];
  }

  const SHORT: Request := Request(1, Message, 120, 120)
  const LONG: Request := Request(2, Message, 140, 140)

  /** The documented intent, that the limit is respected by every batch of several requests, fails here:
      262 bytes under a limit of 261. */
  lemma LimitCanBeExceeded(ready: Ready)
    requires ready(SHORT) && ready(LONG)
    ensures Sent([SHORT, LONG], 261, ready) == [SHORT, LONG]
    ensures BodyLength([SHORT, LONG]) == 262
  {
    var rs := [SHORT, LONG];
    assert rs[1..] == [LONG] && [LONG][1..] == [];
    assert FillCount([LONG], 120, 261, ready) == 1 + FillCount([], 262, 261, ready);
    SentStartsWithFirst(rs, 261, ready);
    assert rs[1..2] == [LONG] && Keep([LONG], ready, true) == [LONG];
    BodyLengthSnoc([SHORT], LONG);
    assert [SHORT] + [LONG] == rs;
  }
}
