/**
 The update line of the text protocol ("Real-Time Update" section of the Lightstreamer TLCP 2.1.0
 Specifications) and the hand-written loop that reads it, TextProtocol::processUpdate.
 */
module UpdateLine {
  import opened Common
  import Decimal
  import Percent
  import opened Strings

  /** ProtocolConstants::UNCHANGED. */
  const UNCHANGED := "UNCHANGED"

  // ---- reading the fields ----

  /** Why no update reaches the listener although the line was read. */
  datatype Failure =
    | Exception      // std::stoi throws; processUpdate catches and logs
    | HexAssertion   // unquote meets a '%' not followed by two hexadecimal digits
    | UnquoteStuck   // unquote never returns

  /** illegal records that onIllegalMessage was called: the session is being closed, yet the loop goes on. */
  datatype Fields = Values(values: seq<string>, illegal: bool) | Failed(why: Failure, illegal: bool)

  function Unchanged(n: int): (vs: seq<string>)
    ensures |vs| == if n > 0 then n else 0
  {
    if n <= 0 then [] else [UNCHANGED] + Unchanged(n - 1)
  }

  /** What one piece of the line adds to the values. */
  function ReadPiece(piece: string): Fields {
    if piece == "" then Values([UNCHANGED], false)
    else if piece[0] == '#' || piece[0] == '$' then Values([""], |piece| != 1)
    else if piece[0] == '^' then
      match Decimal.Stoi(piece[1..])
      case None => Failed(Exception, false)
      case Some(count) => Values(Unchanged(count), false)
    else
      match Percent.Unquote(piece)
      case Text(text) => Values([text], false)
      case NotHex => Failed(HexAssertion, false)
      case Stuck => Failed(UnquoteStuck, false)
  }

  function Then(a: Fields, b: Fields): Fields {
    if a.Failed? then a
    else if b.Failed? then Failed(b.why, a.illegal || b.illegal)
    else Values(a.values + b.values, a.illegal || b.illegal)
  }

  function ReadPieces(pieces: seq<string>): Fields {
    if pieces == [] then Values([], false) else Then(ReadPiece(pieces[0]), ReadPieces(pieces[1..]))
  }

  lemma ThenAssociative(a: Fields, b: Fields, c: Fields)
    ensures Then(Then(a, b), c) == Then(a, Then(b, c))
  {
  }

  /** What a piece must look like for the loop to get past it. */
  ghost predicate Readable(piece: string) {
    piece != "" && piece[0] != '#' && piece[0] != '$' ==>
      if piece[0] == '^' then Decimal.Stoi(piece[1..]).Some? else Percent.EveryPercentIsTriplet(piece)
  }

  /** Why the loop cannot get past a piece. */
  ghost function WhyUnreadable(piece: string): Failure
    requires !Readable(piece)
  {
    if piece[0] == '^' then Exception else if Percent.IsTruncated(piece) then UnquoteStuck else HexAssertion
  }

  /** How many pieces come before the first that the loop cannot get past. */
  ghost function ReadableCount(pieces: seq<string>): (n: nat)
    ensures n <= |pieces|
  {
    if pieces == [] || !Readable(pieces[0]) then 0 else 1 + ReadableCount(pieces[1..])
  }

  /** A piece that starts with a lone-character marker and has more to it. */
  predicate Misused(piece: string) { |piece| > 1 && (piece[0] == '#' || piece[0] == '$') }

  lemma ReadPieceFacts(piece: string)
    ensures ReadPiece(piece).Values? <==> Readable(piece)
    ensures !Readable(piece) ==> ReadPiece(piece) == Failed(WhyUnreadable(piece), false)
    ensures Readable(piece) ==> (ReadPiece(piece).illegal <==> Misused(piece))
  {
    Percent.UnquoteSucceedsIff(piece);
    Percent.UnquoteIsStuckIff(piece);
  }

  /** The loop ends at the first piece it cannot get past, and that piece says how; the session is closed exactly
      when a marker has been misused before. */
  lemma {:induction false} LoopEndsAtFirstUnreadable(pieces: seq<string>)
    ensures var n, r := ReadableCount(pieces), ReadPieces(pieces);
      && (if n == |pieces| then r.Values? else r.Failed? && !Readable(pieces[n]) && r.why == WhyUnreadable(pieces[n]))
      && (r.illegal <==> exists k :: 0 <= k < n && Misused(pieces[k]))
  {
    hide Readable, ReadPiece, Misused;
    if pieces != [] {
      ReadPieceFacts(pieces[0]);
      LoopEndsAtFirstUnreadable(pieces[1..]);
      var n := ReadableCount(pieces);
      if k :| 0 <= k < n && Misused(pieces[k]) {
        assert k > 0 ==> Misused(pieces[1..][k - 1]);
      }
      if k :| 0 <= k < ReadableCount(pieces[1..]) && Misused(pieces[1..][k]) {
        assert Misused(pieces[k + 1]);
      }
    }
  }

  /** The loop ends with values exactly when it can get past every piece; it closes the session exactly
      when some piece starts with a lone-character marker and has more to it. */
  lemma {:induction false} LoopCompletesIff(pieces: seq<string>)
    ensures ReadPieces(pieces).Values? <==> forall k :: 0 <= k < |pieces| ==> Readable(pieces[k])
    ensures ReadPieces(pieces).Values? ==>
      (ReadPieces(pieces).illegal <==>
        exists k :: 0 <= k < |pieces| && |pieces[k]| > 1 && (pieces[k][0] == '#' || pieces[k][0] == '$'))
  {
    if pieces != [] {
      LoopCompletesIff(pieces[1..]);
      Percent.UnquoteSucceedsIff(pieces[0]);
      assert pieces == [pieces[0]] + pieces[1..];
    }
  }

  /** What the loop of processUpdate has still to read when fieldStart is at a separator. */
  function Remaining(message: string, fieldStart: nat): Fields
    requires fieldStart <= |message|
  {
    if fieldStart < |message| then ReadPieces(SplitOn(message[fieldStart + 1..], '|')) else Values([], false)
  }

  lemma ReadRest(message: string, start: nat, end: nat)
    requires start < |message| && end == FindFrom(message, '|', start + 1)
    ensures Remaining(message, start) == Then(ReadPiece(message[start + 1..end]), Remaining(message, end))
  {
    var rest := message[start + 1..];
    var n := Find(rest, '|');
    assert rest[..n] == message[start + 1..end];
    if end < |message| {
      assert rest[n + 1..] == message[end + 1..];
      assert SplitOn(rest, '|')[1..] == SplitOn(rest[n + 1..], '|');
    } else {
      assert SplitOn(rest, '|') == [rest] && rest == message[start + 1..end];
      assert ReadPieces([rest]) == Then(ReadPiece(rest), ReadPieces([]));
    }
  }

  /** The branches of the loop body: adds what one piece stands for. */
  method ReadField(value: string, values0: seq<string>, illegal0: bool) returns (r: Fields)
    ensures r == Then(Values(values0, illegal0), ReadPiece(value))
  {
    var values, illegal := values0, illegal0;
    if value == "" {
      values := values + [UNCHANGED];
    } else if value[0] == '#' || value[0] == '$' {
      if |value| != 1 {
        illegal := true;
      }
      values := values + [""];
    } else if value[0] == '^' {
      var parsed := Decimal.Stoi(value[1..]);
      if parsed.None? {
        return Failed(Exception, illegal);
      }
      var count := parsed.value;
      while count > 0
        invariant values + Unchanged(count) == values0 + Unchanged(parsed.value)
      {
        count := count - 1;
        values := values + [UNCHANGED];
      }
    } else {
      var unquoted := Percent.UnquoteText(value);
      match unquoted {
        case Text(text) => values := values + [text];
        case NotHex => return Failed(HexAssertion, illegal);
        case Stuck => return Failed(UnquoteStuck, illegal);
      }
    }
    r := Values(values, illegal);
  }

  /** The loop of processUpdate over the fields; fieldsIndex is just after the comma that introduces them. */
  method ReadFields(message: string, fieldsIndex: nat) returns (r: Fields)
    requires 0 < fieldsIndex <= |message| && message[fieldsIndex - 1] == ','
    ensures r == ReadPieces(SplitOn(message[fieldsIndex..], '|'))
  {
    r := Values([], false);
    var fieldStart := fieldsIndex - 1;
    while fieldStart < |message|
      invariant fieldStart <= |message| && r.Values?
      invariant Then(r, Remaining(message, fieldStart)) == ReadPieces(SplitOn(message[fieldsIndex..], '|'))
    {
      var fieldEnd := FindFrom(message, '|', fieldStart + 1);
      var value := message[fieldStart + 1..fieldEnd];
      ReadRest(message, fieldStart, fieldEnd);
      ThenAssociative(r, ReadPiece(value), Remaining(message, fieldEnd));
      r := ReadField(value, r.values, r.illegal);
      if r.Failed? {
        return;
      }
      fieldStart := fieldEnd;
    }
  }

  // ---- the whole line ----

  datatype Update =
    | Update(table: int, item: int, fields: Fields)
    | BadHeader(illegal: bool)       // nothing was counted: std::stoi threw while table and item were read
    | NoFields(table: int, item: int) // illegal, counted, then the assertion on the field separator fails

  /** The header is read before the notification is counted, the fields after. */
  function ReadUpdate(message: string): Update
    requires |message| >= 2 && message[..2] == "U,"
  {
    var c1 := FindFrom(message, ',', 2);
    if c1 == |message| then BadHeader(true)  // the item is then read from "U", where std::stoi throws
    else
      var table := Decimal.Stoi(message[2..c1]);
      var c2 := FindFrom(message, ',', c1 + 1);
      var item := Decimal.Stoi(message[c1 + 1..c2]);
      if table.None? || item.None? then BadHeader(c2 == |message|)
      else if c2 == |message| then NoFields(table.value, item.value)
      else Update(table.value, item.value, ReadPieces(SplitOn(message[c2 + 1..], '|')))
  }

  /** TextProtocol::processUpdate without the counting; the caller has checked the leading "U,". */
  method ProcessUpdate(message: string) returns (u: Update)
    requires |message| >= 2 && message[..2] == "U,"
    ensures u == ReadUpdate(message)
  {
    hide Decimal.Stoi, SplitOn, ReadPieces;
    var c1 := FindFrom(message, ',', 2);
    if c1 == |message| {
      return BadHeader(true);
    }
    var c2 := FindFrom(message, ',', c1 + 1);
    var table := Decimal.Stoi(message[2..c1]);
    var item := Decimal.Stoi(message[c1 + 1..c2]);
    if table.None? || item.None? {
      return BadHeader(c2 == |message|);
    }
    if c2 == |message| {
      return NoFields(table.value, item.value);
    }
    var fields := ReadFields(message, c2 + 1);
    u := Update(table.value, item.value, fields);
  }

  lemma SplitStep(s: string, c: char)
    ensures var n := Find(s, c);
      SplitOn(s, c) == if n == |s| then [s] else [s[..n]] + SplitOn(s[n + 1..], c)
  {
    hide Find;
  }

  /** The line by its commas: what stands between them is the table, the item and the fields. */
  lemma HeaderByCommas(message: string)
    requires |message| >= 2 && message[..2] == "U,"
    ensures var parts, u := SplitOn(message[2..], ','), ReadUpdate(message);
      if |parts| == 1 then u == BadHeader(true)
      else
        var table, item := Decimal.Stoi(parts[0]), Decimal.Stoi(parts[1]);
        if table.None? || item.None? then u == BadHeader(|parts| == 2)
        else if |parts| == 2 then u == NoFields(table.value, item.value)
        else u.Update? && u.table == table.value && u.item == item.value
  {
    hide Decimal.Stoi, ReadPieces, SplitOn, Find;
    var rest := message[2..];
    var n := Find(rest, ',');
    SplitStep(rest, ',');
    if n < |rest| {
      SplitStep(rest[n + 1..], ',');
      var tail := rest[n + 1..];
      assert message[2 + n + 1..] == tail && message[2..2 + n] == rest[..n];
      var k := Find(tail, ',');
      assert message[2 + n + 1..2 + n + 1 + k] == message[2 + n + 1..][..k] == tail[..k];
      if k == |tail| { assert tail[..k] == tail; }
    }
  }

  // ---- what a server writes ----

  /** A field of an update as the server means it. */
  datatype Field = Same | Null | Chars(text: string)

  /** One piece of the line. Encoded carries the server's own choice of percent encoding. */
  datatype Token = One | Run(n: nat) | NullToken | EmptyToken | Encoded(text: string, wire: string)

  predicate ValidToken(t: Token) {
    match t
    case Run(n) => n <= Decimal.INT_MAX
    case Encoded(text, wire) =>
      wire != "" && '|' !in wire && wire[0] != '#' && wire[0] != '$' && wire[0] != '^' && Percent.Encodes(text, wire)
    case _ => true
  }

  function Sames(n: nat): seq<Field> { if n == 0 then [] else [Same] + Sames(n - 1) }

  /** The fields a piece stands for. */
  function Meaning(t: Token): seq<Field> {
    match t
    case One => [Same]
    case Run(n) => Sames(n)
    case NullToken => [Null]
    case EmptyToken => [Chars("")]
    case Encoded(text, _) => [Chars(text)]
  }

  function MeaningOf(ts: seq<Token>): seq<Field> {
    if ts == [] then [] else Meaning(ts[0]) + MeaningOf(ts[1..])
  }

  function PrintToken(t: Token): string {
    match t
    case One => ""
    case Run(n) => "^" + Decimal.ToString(n)
    case NullToken => "#"
    case EmptyToken => "$"
    case Encoded(_, wire) => wire
  }

  function PrintTokens(ts: seq<Token>): (parts: seq<string>)
    ensures |parts| == |ts|
  {
    if ts == [] then [] else [PrintToken(ts[0])] + PrintTokens(ts[1..])
  }

  function PrintUpdate(table: nat, item: nat, ts: seq<Token>): string
    requires |ts| > 0
  {
    "U," + Decimal.ToString(table) + "," + Decimal.ToString(item) + "," + JoinOn(PrintTokens(ts), '|')
  }

  /** How the client sees a field: null and the empty text are one value. */
  function Seen(f: Field): string {
    match f
    case Same => UNCHANGED
    case Null => ""
    case Chars(text) => text
  }

  function SeenAll(fs: seq<Field>): (vs: seq<string>)
    ensures |vs| == |fs|
  {
    if fs == [] then [] else [Seen(fs[0])] + SeenAll(fs[1..])
  }

  lemma SeenSames(n: nat)
    ensures SeenAll(Sames(n)) == Unchanged(n)
  {
  }

  lemma {:induction false} SeenConcat(a: seq<Field>, b: seq<Field>)
    ensures SeenAll(a + b) == SeenAll(a) + SeenAll(b)
  {
    if a == [] {
      assert a + b == b;
    } else {
      SeenConcat(a[1..], b);
      assert (a + b)[0] == a[0] && (a + b)[1..] == a[1..] + b;
      ConcatAssociative([Seen(a[0])], SeenAll(a[1..]), SeenAll(b));
    }
  }

  lemma ReadPrintedToken(t: Token)
    requires ValidToken(t)
    ensures ReadPiece(PrintToken(t)) == Values(SeenAll(Meaning(t)), false)
    ensures '|' !in PrintToken(t)
  {
    match t {
      case Run(n) =>
        Decimal.StoiOfToString(n);
        assert PrintToken(t)[1..] == Decimal.ToString(n);
        SeenSames(n);
      case Encoded(text, wire) => Percent.UnquoteInvertsEveryEncoder(text, wire);
      case _ =>
    }
  }

  lemma {:induction false} ReadPrintedTokens(ts: seq<Token>)
    requires forall k :: 0 <= k < |ts| ==> ValidToken(ts[k])
    ensures ReadPieces(PrintTokens(ts)) == Values(SeenAll(MeaningOf(ts)), false)
    ensures forall k :: 0 <= k < |ts| ==> '|' !in PrintTokens(ts)[k]
  {
    hide Decimal.Stoi, Decimal.ToString, ReadPiece, PrintToken, Meaning, ValidToken;
    if ts != [] {
      ReadPrintedToken(ts[0]);
      ReadPrintedTokens(ts[1..]);
      SeenConcat(Meaning(ts[0]), MeaningOf(ts[1..]));
    }
  }

  lemma NoComma(n: nat)
    ensures ',' !in Decimal.ToString(n)
  {
    assert !Decimal.IsDigit(',');
  }

  /** A comma is found behind a text that has none. */
  lemma FindAfter(before: string, text: string, rest: string)
    requires ',' !in text
    ensures var m, from, to := before + (text + ("," + rest)), |before|, |before| + |text|;
      FindFrom(m, ',', from) == to < |m| && m[from..to] == text && m[to + 1..] == rest
  {
    var m := before + (text + ("," + rest));
    assert m[|before|..] == text + ("," + rest);
    FindIs(m[|before|..], ',', |text|);
  }

  /** Where the two commas after "U," are found, and the three texts between and after them. */
  lemma HeaderOfPrinted(table: nat, item: nat, f: string) returns (c1: nat, c2: nat)
    ensures var m := "U," + Decimal.ToString(table) + "," + Decimal.ToString(item) + "," + f;
      && 2 <= c1 < c2 < |m|
      && FindFrom(m, ',', 2) == c1 && FindFrom(m, ',', c1 + 1) == c2
      && m[2..c1] == Decimal.ToString(table) && m[c1 + 1..c2] == Decimal.ToString(item) && m[c2 + 1..] == f
  {
    var t, i := Decimal.ToString(table), Decimal.ToString(item);
    NoComma(table);
    NoComma(item);
    hide Decimal.ToString, FindFrom;
    var m := "U," + t + "," + i + "," + f;
    c1 := 2 + |t|;
    c2 := c1 + 1 + |i|;
    assert m == "U," + (t + ("," + (i + "," + f)));
    FindAfter("U,", t, i + "," + f);
    assert m == ("U," + t + ",") + (i + ("," + f));
    FindAfter("U," + t + ",", i, f);
  }

  /**
   Reading back a printed line gives the table, the item and every field in its place, null being read as
   the empty text. It holds for every way of grouping unchanged fields and of percent-encoding the values.
   */
  lemma UpdateLineRoundTrip(table: nat, item: nat, ts: seq<Token>)
    requires table <= Decimal.INT_MAX && item <= Decimal.INT_MAX
    requires |ts| > 0 && forall k :: 0 <= k < |ts| ==> ValidToken(ts[k])
    ensures ReadUpdate(PrintUpdate(table, item, ts)) == Update(table, item, Values(SeenAll(MeaningOf(ts)), false))
    ensures |SeenAll(MeaningOf(ts))| == |MeaningOf(ts)|
  {
    hide Decimal.Stoi, Decimal.ToString, Find, FindFrom, SplitOn, JoinOn, ReadPieces, PrintTokens, SeenAll, MeaningOf;
    var message := PrintUpdate(table, item, ts);
    var c1, c2 := HeaderOfPrinted(table, item, JoinOn(PrintTokens(ts), '|'));
    Decimal.StoiOfToString(table);
    Decimal.StoiOfToString(item);
    ReadPrintedTokens(ts);
    SplitOfJoin(PrintTokens(ts), '|');
  }

  // ---- every list of fields has a line ----

  function TripletAll(s: string): string
    requires forall k :: 0 <= k < |s| ==> s[k] as int < 256
  {
    if s == "" then "" else Percent.Triplet(s[0]) + TripletAll(s[1..])
  }

  lemma {:induction false} TripletAllEncodes(s: string)
    requires forall k :: 0 <= k < |s| ==> s[k] as int < 256
    ensures Percent.Encodes(s, TripletAll(s)) && '|' !in TripletAll(s)
    ensures s != "" ==> TripletAll(s) != "" && TripletAll(s)[0] == '%'
  {
    if s != "" {
      TripletAllEncodes(s[1..]);
      var w := TripletAll(s);
      assert w[3..] == TripletAll(s[1..]);
      assert !Percent.IsHex('|');
    }
  }

  /** The printer reaches every list of fields made of bytes, so the round trip covers them all. */
  lemma {:induction false} EveryFieldListIsPrintable(fs: seq<Field>) returns (ts: seq<Token>)
    requires forall k :: 0 <= k < |fs| && fs[k].Chars? ==>
      forall j :: 0 <= j < |fs[k].text| ==> fs[k].text[j] as int < 256
    ensures |ts| == |fs| && MeaningOf(ts) == fs
    ensures forall k :: 0 <= k < |ts| ==> ValidToken(ts[k])
  {
    if fs == [] {
      ts := [];
    } else {
      var rest := EveryFieldListIsPrintable(fs[1..]);
      var t := match fs[0]
        case Same => One
        case Null => NullToken
        case Chars(text) => if text == "" then EmptyToken else Encoded(text, TripletAll(text));
      if fs[0].Chars? { TripletAllEncodes(fs[0].text); }
      ts := [t] + rest;
      assert ts[1..] == rest;
      assert fs == [fs[0]] + fs[1..];
    }
  }
}
