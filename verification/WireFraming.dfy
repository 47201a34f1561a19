/**
 The body of a control request: parameters written by LightstreamerRequest::addParameter, the session
 parameter of getTransportAwareQueryString, and the requests of one batch put together by BatchedRequest::add.
 */
module WireFraming {
  import opened Common
  import opened Strings
  import Percent

  datatype Param = Param(name: string, value: string)

  /** Parameter names are literals of the library: none holds a separator. */
  predicate PlainName(name: string) {
    forall i :: 0 <= i < |name| ==> !Percent.IsSpecial(name[i])
  }

  predicate Plain(ps: seq<Param>) { forall k :: 0 <= k < |ps| ==> PlainName(ps[k].name) }

  function Piece(p: Param): string { p.name + "=" + Percent.Encode(p.value) }

  function Buffer(ps: seq<Param>): string {
    if ps == [] then "" else (Piece(ps[0]) + "&") + Buffer(ps[1..])
  }

  lemma {:induction false} BufferSnoc(ps: seq<Param>, p: Param)
    ensures Buffer(ps + [p]) == Buffer(ps) + (Piece(p) + "&")
  {
    if ps == [] {
      assert ps + [p] == [p];
      assert Buffer([p][1..]) == "";
    } else {
      BufferSnoc(ps[1..], p);
      assert (ps + [p])[1..] == ps[1..] + [p];
    }
  }

  /** The parameters on the wire: the session comes last, unless it is the default one of the connection. */
  function WithSession(ps: seq<Param>, session: string, defaultSessionId: string): seq<Param> {
    if session != "" && session != defaultSessionId then ps + [Param("LS_session", session)] else ps
  }

  /** The query string is never empty: the server does not allow it. */
  function Query(ps: seq<Param>): string {
    if ps == [] then "\r\n" else Buffer(ps)
  }

  lemma BufferEmptyIff(ps: seq<Param>)
    ensures Buffer(ps) == "" <==> ps == []
  {
  }

  class LightstreamerRequest {
    var buffer: string
    var session: string
    ghost var params: seq<Param>

    ghost predicate Valid() reads this { buffer == Buffer(params) }

    constructor ()
      ensures Valid() && params == [] && session == ""
    {
      buffer, session, params := "", "", [];
    }

    method AddParameter(name: string, value: string)
      requires Valid()
      modifies this`buffer, this`params
      ensures Valid() && params == old(params) + [Param(name, value)]
    {
      var encoded := Percent.PercentEncodeTLCP(value);
      BufferSnoc(params, Param(name, value));
      buffer := buffer + (name + "=" + encoded + "&");
      params := params + [Param(name, value)];
    }

    method GetTransportAwareQueryString(defaultSessionId: string) returns (result: string)
      requires Valid()
      ensures result == Query(WithSession(params, session, defaultSessionId))
      ensures result != ""
    {
      result := buffer;
      BufferSnoc(params, Param("LS_session", session));
      if session != "" {
        var sessionUnneeded := defaultSessionId != "" && defaultSessionId == session;
        if !sessionUnneeded {
          var encoded := Percent.PercentEncodeTLCP(session);
          result := result + ("LS_session" + "=" + encoded + "&");
        }
      }
      BufferEmptyIff(WithSession(params, session, defaultSessionId));
      if |result| == 0 {
        result := result + "\r\n";
      }
    }
  }

  function Body(requests: seq<seq<Param>>): string {
    if requests == [] then ""
    else if |requests| == 1 then Query(requests[0])
    else Query(requests[0]) + "\r\n" + Body(requests[1..])
  }

  lemma {:induction false} BodySnoc(requests: seq<seq<Param>>, ps: seq<Param>)
    ensures Body(requests + [ps]) == if requests == [] then Query(ps) else Body(requests) + "\r\n" + Query(ps)
  {
    hide Query;
    if requests == [] {
      assert requests + [ps] == [ps];
    } else {
      var rest := requests[1..];
      BodySnoc(rest, ps);
      assert (requests + [ps])[1..] == rest + [ps];
      if rest != [] {
        var front := Query(requests[0]) + "\r\n";
        assert Body(requests) == front + Body(rest);
        assert Body(requests + [ps]) == front + (Body(rest) + "\r\n" + Query(ps));
        ConcatAssociative(front, Body(rest), "\r\n");
        ConcatAssociative(front, Body(rest) + "\r\n", Query(ps));
      }
    }
  }

  lemma BodyEmptyIff(requests: seq<seq<Param>>)
    ensures Body(requests) == "" <==> requests == []
  {
  }

  /** HttpRequestManager::BatchedRequest. */
  class BatchedRequest {
    var fullRequest: string
    ghost var requests: seq<seq<Param>>

    ghost predicate Valid() reads this { fullRequest == Body(requests) }

    constructor ()
      ensures Valid() && requests == []
    {
      fullRequest, requests := "", [];
    }

    method Add(request: LightstreamerRequest)
      requires Valid() && request.Valid()
      modifies this
      ensures Valid() && requests == old(requests) + [WithSession(request.params, request.session, "")]
    {
      BodySnoc(requests, WithSession(request.params, request.session, ""));
      BodyEmptyIff(requests);
      if |fullRequest| > 0 {
        fullRequest := fullRequest + "\r\n";
      }
      var query := request.GetTransportAwareQueryString("");
      fullRequest := fullRequest + query;
      requests := requests + [WithSession(request.params, request.session, "")];
    }
  }

  // ---- a server that reads the body ----

  datatype Read = Read(name: string, value: Percent.Unquoted)

  /** The text up to the first CR, then what follows the CR LF. */
  function Lines(s: string): (lines: seq<string>)
    ensures |lines| > 0
    decreases |s|
  {
    var n := Find(s, '\r');
    if n == |s| then [s] else [s[..n]] + Lines(if n + 2 <= |s| then s[n + 2..] else "")
  }

  function ReadPiece(piece: string): Read {
    var n := Find(piece, '=');
    Read(piece[..n], Percent.Unquote(if n < |piece| then piece[n + 1..] else ""))
  }

  /** Every piece that an '&' closes is one parameter. */
  function ReadLine(line: string): seq<Read>
    decreases |line|
  {
    var n := Find(line, '&');
    if n == |line| then [] else [ReadPiece(line[..n])] + ReadLine(line[n + 1..])
  }

  function ReadLines(lines: seq<string>): seq<seq<Read>> {
    if lines == [] then [] else [ReadLine(lines[0])] + ReadLines(lines[1..])
  }

  function Meant(ps: seq<Param>): seq<Read> {
    if ps == [] then [] else [Read(ps[0].name, Percent.Text(ps[0].value))] + Meant(ps[1..])
  }

  function MeantAll(requests: seq<seq<Param>>): (all: seq<seq<Read>>)
    ensures |all| == |requests|
  {
    if requests == [] then [] else [Meant(requests[0])] + MeantAll(requests[1..])
  }

  lemma PieceIsSafe(p: Param)
    requires PlainName(p.name)
    ensures '&' !in Piece(p) && '\r' !in Piece(p)
    ensures ReadPiece(Piece(p)) == Read(p.name, Percent.Text(p.value))
  {
    Percent.EncodeIsSafe(p.value);
    FindIs(Piece(p), '=', |p.name|);
    assert Piece(p)[..|p.name|] == p.name;
    assert Piece(p)[|p.name| + 1..] == Percent.Encode(p.value);
    Percent.UnquoteOfEncode(p.value);
  }

  lemma {:induction false} ReadBuffer(ps: seq<Param>)
    requires Plain(ps)
    ensures ReadLine(Buffer(ps)) == Meant(ps)
    ensures '\r' !in Buffer(ps)
  {
    if ps != [] {
      PieceIsSafe(ps[0]);
      ReadBuffer(ps[1..]);
      var n := |Piece(ps[0])|;
      FindIs(Buffer(ps), '&', n);
      assert Buffer(ps)[..n] == Piece(ps[0]);
      assert Buffer(ps)[n + 1..] == Buffer(ps[1..]);
    }
  }

  lemma LinesCons(line: string, tail: string)
    requires '\r' !in line
    ensures Lines(line + "\r\n" + tail) == [line] + Lines(tail)
    ensures Lines(line) == [line]
  {
    var s := line + "\r\n" + tail;
    assert s[|line|] == '\r';
    FindIs(s, '\r', |line|);
    FindIs(line, '\r', |line|);
    assert s[..|line|] == line;
    assert s[|line| + 2..] == tail;
  }

  lemma LinesOfEmptyQuery(tail: string)
    ensures Lines("\r\n") == ["", ""] && Lines("\r\n" + "\r\n" + tail) == ["", ""] + Lines(tail)
  {
    hide Lines;
    LinesCons("", "");
    assert "" + "\r\n" + "" == "\r\n";
    LinesCons("", tail);
    LinesCons("", "" + "\r\n" + tail);
    assert "" + "\r\n" + ("" + "\r\n" + tail) == "\r\n" + "\r\n" + tail;
    assert [""] + ([""] + Lines(tail)) == ["", ""] + Lines(tail);
  }

  /** What reading the query of one request adds in front of the lines that follow it. */
  lemma LinesOfQuery(ps: seq<Param>, tail: string)
    requires Plain(ps)
    ensures Lines(Query(ps)) == if ps == [] then ["", ""] else [Query(ps)]
    ensures Lines(Query(ps) + "\r\n" + tail) == Lines(Query(ps)) + Lines(tail)
  {
    hide Lines, Plain;
    if ps == [] {
      LinesOfEmptyQuery(tail);
    } else {
      ReadBuffer(ps);
      LinesCons(Query(ps), tail);
    }
  }

  lemma ReadQuery(ps: seq<Param>)
    requires Plain(ps) && ps != []
    ensures ReadLine(Query(ps)) == Meant(ps)
  {
    ReadBuffer(ps);
  }

  lemma {:induction false} MeantConcat(a: seq<Param>, b: seq<Param>)
    ensures Meant(a + b) == Meant(a) + Meant(b)
  {
    if a == [] {
      assert a + b == b;
    } else {
      assert (a + b)[0] == a[0] && (a + b)[1..] == a[1..] + b;
      MeantConcat(a[1..], b);
      ConcatAssociative([Read(a[0].name, Percent.Text(a[0].value))], Meant(a[1..]), Meant(b));
    }
  }

  /** The server reads the parameters of a request and then its session, if and only if there is one and it is
      not the one that the connection takes for granted. */
  lemma SessionIsSentIff(ps: seq<Param>, session: string, defaultSessionId: string)
    requires Plain(ps)
    ensures ReadLine(Query(WithSession(ps, session, defaultSessionId)))
         == Meant(ps) + if session == "" || session == defaultSessionId then []
                        else [Read("LS_session", Percent.Text(session))]
  {
    MeantOfSession(ps, session);
    hide Meant, ReadLine, Buffer, Plain;
    if session != "" && session != defaultSessionId {
      ReadQuery(ps + [Param("LS_session", session)]);
    } else if ps == [] {
      ReadEmptyQuery();
    } else {
      ReadQuery(ps);
    }
  }

  lemma MeantOfSession(ps: seq<Param>, session: string)
    requires Plain(ps)
    ensures Plain(ps + [Param("LS_session", session)])
    ensures Meant(ps + [Param("LS_session", session)]) == Meant(ps) + [Read("LS_session", Percent.Text(session))]
  {
    var last := [Param("LS_session", session)];
    MeantConcat(ps, last);
    assert last[1..] == [];
  }

  lemma ReadEmptyQuery()
    ensures ReadLine("\r\n") == [] == Meant([])
  {
    FindIs("\r\n", '&', 2);
  }

  function EmptyRequests(requests: seq<seq<Param>>): nat {
    if requests == [] then 0 else (if requests[0] == [] then 1 else 0) + EmptyRequests(requests[1..])
  }

  lemma {:induction false} LinesOfBody(requests: seq<seq<Param>>)
    requires requests != [] && forall k :: 0 <= k < |requests| ==> Plain(requests[k])
    ensures |Lines(Body(requests))| == |requests| + EmptyRequests(requests)
    ensures EmptyRequests(requests) == 0 ==> ReadLines(Lines(Body(requests))) == MeantAll(requests)
    ensures EmptyRequests(requests) == 0 <==> forall k :: 0 <= k < |requests| ==> requests[k] != []
  {
    hide Lines, Query, ReadLine, Meant, Plain;
    var rest := requests[1..];
    assert requests == [requests[0]] + rest;
    if requests[0] != [] { ReadQuery(requests[0]); }
    if rest == [] {
      LinesOfQuery(requests[0], "");
    } else {
      LinesOfQuery(requests[0], Body(rest));
      LinesOfBody(rest);
    }
  }

  lemma ReadLinesLength(lines: seq<string>)
    ensures |ReadLines(lines)| == |lines|
  {
  }

  /**
   Splitting a batch body on CR LF, '&' and '=' and unquoting gives back every parameter of every request,
   in order, exactly when each request of the batch has a parameter.
   */
  lemma BatchBodyRoundTrip(requests: seq<seq<Param>>)
    requires requests != [] && forall k :: 0 <= k < |requests| ==> Plain(requests[k])
    ensures ReadLines(Lines(Body(requests))) == MeantAll(requests)
       <==> forall k :: 0 <= k < |requests| ==> requests[k] != []
  {
    LinesOfBody(requests);
    ReadLinesLength(Lines(Body(requests)));
  }

  lemma {:induction false} MeantInjective(a: seq<Param>, b: seq<Param>)
    requires Meant(a) == Meant(b)
    ensures a == b
  {
    if a != [] && b != [] {
      assert Meant(a)[0] == Meant(b)[0] && Meant(a)[1..] == Meant(b)[1..];
      MeantInjective(a[1..], b[1..]);
      assert a == [a[0]] + a[1..] && b == [b[0]] + b[1..];
    }
  }

  lemma {:induction false} MeantAllInjective(a: seq<seq<Param>>, b: seq<seq<Param>>)
    requires MeantAll(a) == MeantAll(b)
    ensures a == b
  {
    if a != [] && b != [] {
      assert MeantAll(a)[0] == MeantAll(b)[0] && MeantAll(a)[1..] == MeantAll(b)[1..];
      MeantInjective(a[0], b[0]);
      MeantAllInjective(a[1..], b[1..]);
      assert a == [a[0]] + a[1..] && b == [b[0]] + b[1..];
    }
  }

  /** Two batches of requests that all have a parameter never share a body. */
  lemma SameBodySameBatch(a: seq<seq<Param>>, b: seq<seq<Param>>)
    requires a != [] && b != [] && Body(a) == Body(b)
    requires forall k :: 0 <= k < |a| ==> Plain(a[k]) && a[k] != []
    requires forall k :: 0 <= k < |b| ==> Plain(b[k]) && b[k] != []
    ensures a == b
  {
    hide Body, Lines, ReadLines, MeantAll, Plain;
    BatchBodyRoundTrip(a);
    BatchBodyRoundTrip(b);
    MeantAllInjective(a, b);
  }
}
