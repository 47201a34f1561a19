/**
 Session recovery by progressive counting: the counters of TextProtocol and Session, the server that resumes
 a session with PROG, and runs that mix notifications, breaks, recoveries and rebinds.
 */
module Recovery {
  import opened Common

  // ---- the client's counters ----

  /**
   count is Session::dataNotificationCount, currentProg that of the protocol in use; delivered is what was
   passed on. closed: an illegal message has closed the session.
   */
  datatype Client<T> = Client(count: nat, currentProg: Option<int>, delivered: seq<T>, closed: bool)

  /** A countable notification reaches the protocol. */
  function OnNote<T>(c: Client<T>, note: T): Client<T> {
    if c.closed then c
    else if c.currentProg.Some? then
      var prog := c.currentProg.value + 1;
      if prog <= c.count then c.(currentProg := Some(prog))
      else c.(currentProg := Some(prog), count := c.count + 1, delivered := c.delivered + [note])
    else c.(count := c.count + 1, delivered := c.delivered + [note])
  }

  /** PROG: the first one of a protocol sets the counter, a later one is ignored. */
  function OnProg<T>(c: Client<T>, prog: nat): Client<T> {
    if c.closed || c.currentProg.Some? then c
    else c.(currentProg := Some(prog), closed := prog > c.count)
  }

  /** The part of Session the counting needs, with the notifications it has passed on. */
  class Session<T(==)> {
    var dataNotificationCount: nat
    var closed: bool
    ghost var delivered: seq<T>

    /** original is the session this one replaces; its count is carried over. */
    constructor (original: Session?<T>)
      ensures !closed
      ensures original == null ==> dataNotificationCount == 0 && delivered == []
      ensures original != null ==>
        dataNotificationCount == original.dataNotificationCount && delivered == original.delivered
    {
      dataNotificationCount, closed, delivered := 0, false, [];
      new;
      if original != null {
        dataNotificationCount := original.dataNotificationCount;
        delivered := original.delivered;
      }
    }
  }

  class TextProtocol<T(==)> {
    var currentProg: Option<int>
    var session: Session<T>

    constructor (session: Session<T>)
      ensures this.session == session && currentProg == None
    {
      this.session, currentProg := session, None;
    }

    ghost function Counters(): Client<T>
      reads this, session
    {
      Client(session.dataNotificationCount, currentProg, session.delivered, session.closed)
    }

    /** TextProtocol::processCountableNotification; on true the caller passes the notification on. */
    method ProcessCountableNotification(ghost note: T) returns (isNew: bool)
      requires !session.closed
      modifies this`currentProg, session
      ensures Counters() == OnNote(old(Counters()), note)
      ensures isNew <==> session.delivered == old(session.delivered) + [note]
    {
      if currentProg.Some? {
        currentProg := Some(currentProg.value + 1);
        if currentProg.value <= session.dataNotificationCount {
          return false;
        }
      }
      session.dataNotificationCount := session.dataNotificationCount + 1;
      session.delivered := session.delivered + [note];
      isNew := true;
    }

    /** TextProtocol::processPROG, comparing with the session's count. */
    method ProcessPROG(prog: nat)
      requires !session.closed
      modifies this`currentProg, session`closed
      ensures Counters() == OnProg(old(Counters()), prog)
    {
      if currentProg.None? {
        currentProg := Some(prog);
        var sessionProg := session.dataNotificationCount;
        if prog > sessionProg {
          session.closed := true;
        }
      }
    }

    /** TextProtocol::copyPendingRequests, the counter's part. */
    method CopyPendingRequests(protocol: TextProtocol<T>)
      modifies protocol`currentProg
      ensures protocol.currentProg == currentProg
    {
      protocol.currentProg := currentProg;
    }
  }

  /**
   A session takes over from another one, as Session's constructor arranges it: a fresh session with a fresh
   protocol that goes on exactly where the old one was, whatever has been delivered or is being skipped.
   */
  method TakeOver<T(==)>(original: TextProtocol<T>) returns (next: TextProtocol<T>)
    requires !original.session.closed
    ensures fresh(next) && fresh(next.session) && next.Counters() == original.Counters()
  {
    var session := new Session(original.session);
    next := new TextProtocol(session);
    original.CopyPendingRequests(next);
  }

  // ---- the server and the stream ----

  datatype Message<T> = Prog(prog: nat) | Note(note: T)

  function Receive<T>(c: Client<T>, m: Message<T>): Client<T> {
    match m
    case Prog(p) => OnProg(c, p)
    case Note(n) => OnNote(c, n)
  }

  /** sent: how far the server has got on the current connection; wire: sent and not yet read. */
  datatype System<T> = System(client: Client<T>, sent: nat, wire: seq<Message<T>>)

  datatype Event =
    | ServerSends            // the next notification of the session's stream
    | ClientReads            // the head of the connection
    | Recover(resumeAt: nat) // break; a fresh protocol asks to resume; the server answers PROG,resumeAt
    | Rebind                 // the stream moves to a protocol that takes over the old counter

  function Init<T>(): System<T> { System(Client(0, None, [], false), 0, []) }

  function Step<T>(stream: seq<T>, s: System<T>, e: Event): System<T> {
    if s.client.closed then s
    else match e
      case ServerSends =>
        if s.sent < |stream| then s.(sent := s.sent + 1, wire := s.wire + [Note(stream[s.sent])]) else s
      case ClientReads =>
        if s.wire == [] then s else s.(client := Receive(s.client, s.wire[0]), wire := s.wire[1..])
      case Recover(p) =>
        if p > |stream| then s
        else System(s.client.(currentProg := None), p, [Prog(p)])
      case Rebind => s
  }

  function Run<T>(stream: seq<T>, s: System<T>, es: seq<Event>): System<T>
    decreases |es|
  {
    if es == [] then s else Run(stream, Step(stream, s, es[0]), es[1..])
  }

  /** The index of the last notification the client has accounted for on this connection. */
  function Position<T>(c: Client<T>): int {
    if c.currentProg.Some? then c.currentProg.value else c.count
  }

  ghost predicate CarriesStream<T>(stream: seq<T>, wire: seq<Message<T>>, from: nat) {
    from + |wire| <= |stream| && forall k :: 0 <= k < |wire| ==> wire[k] == Note(stream[from + k])
  }

  ghost predicate Inv<T>(stream: seq<T>, s: System<T>) {
    var c := s.client;
    && c.count <= |stream|
    && c.delivered == stream[..c.count]
    && (!c.closed ==> 0 <= Position(c) <= c.count && s.sent <= |stream|)
    && (!c.closed ==>
          if s.wire != [] && s.wire[0].Prog? then
            && c.currentProg.None?
            && CarriesStream(stream, s.wire[1..], s.wire[0].prog)
            && s.wire[0].prog + |s.wire| - 1 == s.sent
          else
            && CarriesStream(stream, s.wire, Position(c))
            && Position(c) + |s.wire| == s.sent)
  }

  lemma StepKeepsInv<T>(stream: seq<T>, s: System<T>, e: Event)
    requires Inv(stream, s)
    ensures Inv(stream, Step(stream, s, e))
  {
  }

  /**
   Exactly once, in order: in every run the notifications passed on are the first dataNotificationCount of
   the server's stream, and the protocol's counter never exceeds that count.
   */
  lemma {:induction false} ExactlyOnceInOrder<T>(stream: seq<T>, s: System<T>, es: seq<Event>)
    requires Inv(stream, s)
    ensures var c := Run(stream, s, es).client;
      && c.count <= |stream| && c.delivered == stream[..c.count]
      && (c.currentProg.Some? && !c.closed ==> c.currentProg.value <= c.count)
    ensures Inv(stream, Run(stream, s, es))
    decreases |es|
  {
    if es != [] {
      StepKeepsInv(stream, s, es[0]);
      ExactlyOnceInOrder(stream, Step(stream, s, es[0]), es[1..]);
    }
  }

  lemma InitInv<T>(stream: seq<T>)
    ensures Inv(stream, Init())
  {
  }

  function Repeat(e: Event, n: nat): seq<Event> { if n == 0 then [] else [e] + Repeat(e, n - 1) }

  ghost predicate Resumable<T>(s: System<T>) {
    !s.client.closed && (s.wire != [] && s.wire[0].Prog? ==> s.wire[0].prog <= s.client.count)
  }

  lemma {:induction false} ServerFinishes<T>(stream: seq<T>, s: System<T>)
    requires Inv(stream, s) && Resumable(s)
    ensures var t := Run(stream, s, Repeat(ServerSends, |stream| - s.sent));
      Inv(stream, t) && Resumable(t) && t.sent == |stream|
    decreases |stream| - s.sent
  {
    if s.sent < |stream| {
      StepKeepsInv(stream, s, ServerSends);
      ServerFinishes(stream, Step(stream, s, ServerSends));
    }
  }

  lemma {:induction false} ClientCatchesUp<T>(stream: seq<T>, s: System<T>)
    requires Inv(stream, s) && Resumable(s)
    ensures var t := Run(stream, s, Repeat(ClientReads, |s.wire|));
      Inv(stream, t) && Resumable(t) && t.wire == [] && t.sent == s.sent
    decreases |s.wire|
  {
    if s.wire != [] {
      StepKeepsInv(stream, s, ClientReads);
      ClientCatchesUp(stream, Step(stream, s, ClientReads));
    }
  }

  /** The server has sent what is left, and the client has read it. */
  ghost function Finished<T>(stream: seq<T>, s: System<T>): System<T>
    requires Inv(stream, s) && Resumable(s)
  {
    var t := Run(stream, s, Repeat(ServerSends, |stream| - s.sent));
    Run(stream, t, Repeat(ClientReads, |t.wire|))
  }

  /** Nothing is lost for good: from every state of a live session, letting the server send what is left and
      the client read it makes the client pass on the whole stream. */
  lemma EveryNotificationArrives<T>(stream: seq<T>, s: System<T>)
    requires Inv(stream, s) && Resumable(s)
    ensures Finished(stream, s).client.delivered == stream
  {
    ServerFinishes(stream, s);
    var t := Run(stream, s, Repeat(ServerSends, |stream| - s.sent));
    ClientCatchesUp(stream, t);
    assert stream[..|stream|] == stream;
  }

  /** A live session closes in exactly one case: it reads a PROG ahead of what it has accounted for. */
  lemma ClosesIff<T>(stream: seq<T>, s: System<T>, e: Event)
    requires Inv(stream, s) && !s.client.closed
    ensures Step(stream, s, e).client.closed
       <==> e.ClientReads? && s.wire != [] && s.wire[0].Prog? && s.wire[0].prog > s.client.count
  {
  }

  /** Each recovery of the run resumes no further than where the client is at that moment. */
  ghost predicate ResumesInReach<T>(stream: seq<T>, s: System<T>, es: seq<Event>)
    decreases |es|
  {
    es != [] ==>
      && (es[0].Recover? ==> es[0].resumeAt <= s.client.count)
      && ResumesInReach(stream, Step(stream, s, es[0]), es[1..])
  }

  /** Such a run never costs the session its life, and all that was sent can still arrive. */
  lemma {:induction false} RecoveriesKeepTheSession<T>(stream: seq<T>, s: System<T>, es: seq<Event>)
    requires Inv(stream, s) && Resumable(s) && ResumesInReach(stream, s, es)
    ensures var t := Run(stream, s, es);
      Inv(stream, t) && Resumable(t) && Finished(stream, t).client.delivered == stream
    decreases |es|
  {
    hide Finished;
    if es == [] {
      EveryNotificationArrives(stream, s);
    } else {
      StepKeepsInv(stream, s, es[0]);
      ClosesIff(stream, s, es[0]);
      RecoveriesKeepTheSession(stream, Step(stream, s, es[0]), es[1..]);
    }
  }

  /** What stands on a connection that resumes at p when n notifications have been sent. */
  function Resent<T>(stream: seq<T>, p: nat, n: nat): seq<Message<T>>
    requires p + n <= |stream|
  {
    [Prog(p)] + seq(n, i requires 0 <= i < n => Note(stream[p + i]))
  }

  lemma {:induction false} SendsFollow<T>(stream: seq<T>, s: System<T>, p: nat, k: nat, n: nat)
    requires !s.client.closed && p + k + n <= |stream| && s.sent == p + k && s.wire == Resent(stream, p, k)
    ensures Run(stream, s, Repeat(ServerSends, n)) == s.(sent := p + k + n, wire := Resent(stream, p, k + n))
    decreases n
  {
    if n > 0 {
      assert Resent(stream, p, k) + [Note(stream[p + k])] == Resent(stream, p, k + 1);
      assert Repeat(ServerSends, n)[1..] == Repeat(ServerSends, n - 1);
      SendsFollow(stream, Step(stream, s, ServerSends), p, k + 1, n - 1);
    }
  }

  /** A recovery that resumes at p, and n sendings: PROG and the notifications from p on are on the connection,
      and the client is alive, has lost and gained nothing and counts anew. */
  lemma RecoveryResumes<T>(stream: seq<T>, s: System<T>, p: nat, n: nat)
    requires !s.client.closed && p + n <= |stream|
    ensures var t := Run(stream, s, [Recover(p)] + Repeat(ServerSends, n));
      && t.wire == Resent(stream, p, n) && t.sent == p + n
      && t.client == Client(s.client.count, None, s.client.delivered, false)
  {
    var es := [Recover(p)] + Repeat(ServerSends, n);
    assert es[1..] == Repeat(ServerSends, n);
    SendsFollow(stream, Step(stream, s, Recover(p)), p, 0, n);
  }

  /** The state after a run from the start. */
  ghost function Reached<T>(stream: seq<T>, es: seq<Event>): (s: System<T>)
    ensures Inv(stream, s)
  {
    InitInv(stream);
    ExactlyOnceInOrder(stream, Init(), es);
    Run(stream, Init(), es)
  }

  // ---- a recovery that takes over the old protocol's counter ----

  function ReceiveAll<T>(c: Client<T>, notes: seq<T>): Client<T>
    decreases |notes|
  {
    if notes == [] then c else ReceiveAll(OnNote(c, notes[0]), notes[1..])
  }

  lemma {:induction false} ReceivedCount<T>(c: Client<T>, notes: seq<T>)
    requires !c.closed && 0 <= Position(c) <= c.count
    ensures var d := ReceiveAll(c, notes);
      && |d.delivered| - |c.delivered| == d.count - c.count
      && d.count == if Position(c) + |notes| > c.count then Position(c) + |notes| else c.count
    decreases |notes|
  {
    if notes != [] { ReceivedCount(OnNote(c, notes[0]), notes[1..]); }
  }

  lemma {:induction false} ReceivedInOrder<T>(stream: seq<T>, c: Client<T>)
    requires !c.closed && 0 <= Position(c) <= c.count <= |stream| && c.delivered == stream[..c.count]
    ensures ReceiveAll(c, stream[Position(c)..]).delivered == stream
    decreases |stream| - Position(c)
  {
    if Position(c) < |stream| {
      var note := stream[Position(c)];
      assert stream[Position(c)..][1..] == stream[Position(c) + 1..];
      if Position(c) == c.count { assert stream[..c.count + 1] == stream[..c.count] + [note]; }
      ReceivedInOrder(stream, OnNote(c, note));
    }
  }

  lemma {:induction false} NothingNewReceived<T>(c: Client<T>, notes: seq<T>)
    requires !c.closed && c.currentProg.Some? && c.currentProg.value + |notes| <= c.count
    ensures ReceiveAll(c, notes).delivered == c.delivered
    decreases |notes|
  {
    if notes != [] { NothingNewReceived(OnNote(c, notes[0]), notes[1..]); }
  }

  /**
   Session's constructor copies the counter of the old protocol into the new one, whose first PROG then
   falls into the branch that does nothing. A recovery after an earlier recovery is therefore exactly-once
   if and only if the server resumes at the old counter itself, or has nothing left to deliver and resumes
   after it.
   */
  lemma CarriedCounterIsRightIff<T>(stream: seq<T>, c: Client<T>, prog: nat)
    requires !c.closed && c.currentProg.Some? && 0 <= c.currentProg.value <= c.count
    requires prog <= |stream| && c.count <= |stream| && c.delivered == stream[..c.count]
    ensures ReceiveAll(OnProg(c, prog), stream[prog..]).delivered == stream
       <==> prog == c.currentProg.value || (c.count == |stream| && prog > c.currentProg.value)
  {
    ReceivedCount(c, stream[prog..]);
    if prog == c.currentProg.value {
      ReceivedInOrder(stream, c);
    } else if c.count == |stream| && prog > c.currentProg.value {
      NothingNewReceived(c, stream[prog..]);
    }
  }

  /** A client that broke off while skipping, recovered with the old counter: resuming before the counter
      repeats a notification, even when nothing is left to deliver; resuming after it loses one. */
  lemma CarriedCounterRepeatsOrLoses()
    ensures ReceiveAll(OnProg(Client(2, Some(1), "ab", false), 0), "abc").delivered == "abbc"
    ensures ReceiveAll(OnProg(Client(2, Some(1), "ab", false), 0), "ab").delivered == "abb"
    ensures ReceiveAll(OnProg(Client(2, Some(0), "ab", false), 1), "abc"[1..]).delivered == "ab"
  {
    assert "abc"[1..][1..][1..] == "" && "ab"[1..][1..] == "";
  }
}
