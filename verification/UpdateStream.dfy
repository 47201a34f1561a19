/**
 A whole stream of updates, from the server's rows to the calls of the listener: rows are sent as deltas, printed
 as update lines, read by the loop of processUpdate and merged by updateStructure.
 */
module UpdateStream {
  import opened Common
  import opened DeltaState
  import opened UpdateLine
  import Decimal
  import Percent

  /** The server's next row of an item, the positions it sends, and the tokens it chooses for the line. */
  datatype Line = Line(item: nat, row: seq<Field>, sent: set<int>, tokens: seq<Token>)

  /** The fields that stand on the line. */
  function Sent(l: Line): (fs: seq<Field>)
    ensures |fs| == |l.row|
  {
    seq(|l.row|, i requires 0 <= i < |l.row| => if i + 1 in l.sent then l.row[i] else Same)
  }

  ghost predicate ValidLine(l: Line) {
    && l.item <= Decimal.INT_MAX && |l.row| > 0
    && (forall k :: 0 <= k < |l.tokens| ==> ValidToken(l.tokens[k]))
    && MeaningOf(l.tokens) == Sent(l)
  }

  ghost predicate ValidLines(ls: seq<Line>) { forall n :: 0 <= n < |ls| ==> ValidLine(ls[n]) }

  /** The row as the client sees it. */
  function AsChange(l: Line): Change<int> { Change(l.item, SeenAll(l.row), l.sent) }

  function AsChanges(ls: seq<Line>): (cs: seq<Change<int>>)
    ensures |cs| == |ls| && forall n :: 0 <= n < |ls| ==> cs[n] == AsChange(ls[n])
  {
    seq(|ls|, n requires 0 <= n < |ls| => AsChange(ls[n]))
  }

  ghost function Printed(table: nat, l: Line): string
    requires ValidLine(l)
  {
    PrintUpdate(table, l.item, l.tokens)
  }

  ghost function PrintedAll(table: nat, ls: seq<Line>): (ms: seq<string>)
    requires ValidLines(ls)
    ensures |ms| == |ls| && forall n :: 0 <= n < |ls| ==> ms[n] == Printed(table, ls[n])
  {
    seq(|ls|, n requires 0 <= n < |ls| => Printed(table, ls[n]))
  }

  /** A call of the listener: the item and the values of its row. */
  datatype Call = Call(item: int, values: seq<string>)

  /** The item and the values that processUpdate passes on, if it does. */
  function Received(message: string): Option<Call> {
    if |message| < 2 || message[..2] != "U," then None
    else
      match ReadUpdate(message)
      case Update(_, item, Values(args, _)) => Some(Call(item, args))
      case _ => None
  }

  function RowsAfter(rows: map<int, Stored>, message: string): map<int, Stored> {
    match Received(message)
    case None => rows
    case Some(c) => Updated(rows, c.item, c.values)
  }

  function RowsAfterAll(rows: map<int, Stored>, messages: seq<string>): map<int, Stored>
    decreases |messages|
  {
    if messages == [] then rows else RowsAfterAll(RowsAfter(rows, messages[0]), messages[1..])
  }

  /** What the listener gets for each message. */
  function Calls(rows: map<int, Stored>, messages: seq<string>): seq<Option<Call>>
    decreases |messages|
  {
    if messages == [] then []
    else
      [match Received(messages[0])
       case None => None
       case Some(c) => Some(Call(c.item, Merge(RowOf(rows, c.item), c.values)))]
      + Calls(RowsAfter(rows, messages[0]), messages[1..])
  }

  /** Every row in full. */
  function FullRows(ls: seq<Line>): seq<Option<Call>> {
    seq(|ls|, n requires 0 <= n < |ls| => Some(Call(ls[n].item, SeenAll(ls[n].row))))
  }

  lemma {:induction false} SeenAt(fs: seq<Field>, i: nat)
    requires i < |fs|
    ensures SeenAll(fs)[i] == Seen(fs[i])
  {
    if i > 0 { SeenAt(fs[1..], i - 1); }
  }

  lemma LineIsDelta(table: nat, l: Line)
    requires ValidLine(l) && table <= Decimal.INT_MAX
    ensures Received(Printed(table, l)) == Some(Call(l.item, Delta(AsChange(l))))
  {
    assert l.tokens != [];
    UpdateLineRoundTrip(table, l.item, l.tokens);
    var seen, delta := SeenAll(Sent(l)), Delta(AsChange(l));
    forall i | 0 <= i < |l.row| ensures seen[i] == delta[i] {
      SeenAt(Sent(l), i);
      SeenAt(l.row, i);
    }
    assert seen == delta;
    PrintedStarts(table, l.item, l.tokens);
  }

  lemma PrintedStarts(table: nat, item: nat, ts: seq<Token>)
    requires |ts| > 0
    ensures |PrintUpdate(table, item, ts)| >= 2 && PrintUpdate(table, item, ts)[..2] == "U,"
  {
  }

  /** One line read and merged is one delta. */
  lemma LineStep(table: nat, rows: map<int, Stored>, l: Line)
    requires ValidLine(l) && table <= Decimal.INT_MAX
    ensures var c, m := AsChange(l), Printed(table, l);
      && RowsAfter(rows, m) == Updated(rows, l.item, Delta(c))
      && forall ms: seq<string> :: ms != [] && ms[0] == m ==>
           Calls(rows, ms)
           == [Some(Call(l.item, Merge(RowOf(rows, l.item), Delta(c))))] + Calls(RowsAfter(rows, m), ms[1..])
  {
    hide ValidLine, Printed, Received, Updated, Delta, Merge, RowOf, AsChange;
    LineIsDelta(table, l);
  }

  lemma FullRowsStep(ls: seq<Line>)
    requires ls != []
    ensures FullRows(ls) == [Some(Call(ls[0].item, SeenAll(ls[0].row)))] + FullRows(ls[1..])
    ensures AsChanges(ls)[0] == AsChange(ls[0]) && AsChanges(ls)[1..] == AsChanges(ls[1..])
  {
  }

  lemma PrintedStep(table: nat, ls: seq<Line>)
    requires ls != [] && ValidLines(ls)
    ensures ValidLine(ls[0]) && ValidLines(ls[1..])
    ensures PrintedAll(table, ls)[0] == Printed(table, ls[0])
    ensures PrintedAll(table, ls)[1..] == PrintedAll(table, ls[1..])
  {
  }

  lemma ConsEqualIff<X>(x: X, xs: seq<X>, y: X, ys: seq<X>)
    ensures [x] + xs == [y] + ys <==> x == y && xs == ys
  {
    assert ([x] + xs)[1..] == xs && ([y] + ys)[1..] == ys;
    assert ([x] + xs)[0] == x && ([y] + ys)[0] == y;
  }

  /** Reading and merging the lines is the run of deltas. */
  lemma {:induction false} LinesAreDeltas(table: nat, rows: map<int, Stored>, ls: seq<Line>)
    requires ValidLines(ls) && table <= Decimal.INT_MAX
    ensures Calls(rows, PrintedAll(table, ls)) == FullRows(ls) <==> EveryRowSeen(rows, AsChanges(ls))
    ensures RowsAfterAll(rows, PrintedAll(table, ls)) == ClientAfter(rows, AsChanges(ls))
    decreases |ls|
  {
    if ls != [] {
      hide ValidLines, ValidLine, Printed, PrintedAll, RowsAfter, FullRows, AsChanges, Calls;
      hide Updated, Delta, Merge, RowOf;
      PrintedStep(table, ls);
      FullRowsStep(ls);
      LineStep(table, rows, ls[0]);
      var after := RowsAfter(rows, Printed(table, ls[0]));
      LinesAreDeltas(table, after, ls[1..]);
      ConsEqualIff(Some(Call(ls[0].item, Merge(RowOf(rows, ls[0].item), Delta(AsChange(ls[0]))))),
                   Calls(after, PrintedAll(table, ls[1..])),
                   Some(Call(ls[0].item, SeenAll(ls[0].row))), FullRows(ls[1..]));
    }
  }

  ghost predicate NoMarkerSent(ls: seq<Line>) {
    forall n, i :: 0 <= n < |ls| && 0 <= i < |ls[n].row| && i + 1 in ls[n].sent ==> Seen(ls[n].row[i]) != UNCHANGED
  }

  lemma NoMarkerIff(ls: seq<Line>)
    ensures NoMarkerSent(ls) <==> forall n :: 0 <= n < |ls| ==> !SendsMarker(AsChanges(ls)[n])
  {
    forall n, i | 0 <= n < |ls| && 0 <= i < |ls[n].row| ensures AsChange(ls[n]).row[i] == Seen(ls[n].row[i]) {
      SeenAt(ls[n].row, i);
    }
    forall n | 0 <= n < |ls|
      ensures SendsMarker(AsChanges(ls)[n]) <==>
        exists i :: 0 <= i < |ls[n].row| && i + 1 in ls[n].sent && Seen(ls[n].row[i]) == UNCHANGED
    {
      var c := AsChange(ls[n]);
      if i :| 0 <= i < |c.row| && i + 1 in c.sent && c.row[i] == UNCHANGED {
        assert Seen(ls[n].row[i]) == UNCHANGED;
      }
      if i :| 0 <= i < |ls[n].row| && i + 1 in ls[n].sent && Seen(ls[n].row[i]) == UNCHANGED {
        assert c.row[i] == UNCHANGED;
      }
    }
  }

  /**
   For every run of rows over any mix of items, every choice of the positions sent that leaves out only values
   the client has, and every way of grouping and percent-encoding the fields: the listener is called once for
   each line, with the item and its whole row, exactly when no value sent is the text of the marker; and then
   the client's table is the server's.
   */
  lemma StreamShowsEveryRowIff(table: nat, rows: map<int, Stored>, server: Table<int>, ls: seq<Line>)
    requires table <= Decimal.INT_MAX && ValidLines(ls)
    requires Mirrors(rows, server) && MarkerFree(server) && AllHonest(server, AsChanges(ls))
    ensures Calls(rows, PrintedAll(table, ls)) == FullRows(ls) <==> NoMarkerSent(ls)
    ensures NoMarkerSent(ls) ==> Mirrors(RowsAfterAll(rows, PrintedAll(table, ls)), ServerAfter(server, AsChanges(ls)))
  {
    hide *;
    LinesAreDeltas(table, rows, ls);
    NoMarkerIff(ls);
    DeltasRebuildTheServerTable(rows, server, AsChanges(ls));
  }

  /** Every row of bytes has a line, whichever positions are sent. */
  lemma EveryRowHasALine(item: nat, row: seq<Field>, sent: set<int>) returns (l: Line)
    requires item <= Decimal.INT_MAX && |row| > 0
    requires forall k :: 0 <= k < |row| && row[k].Chars? ==>
      forall j :: 0 <= j < |row[k].text| ==> row[k].text[j] as int < 256
    ensures ValidLine(l) && l.item == item && l.row == row && l.sent == sent
  {
    var bare := Line(item, row, sent, []);
    var ts := EveryFieldListIsPrintable(Sent(bare));
    l := bare.(tokens := ts);
  }
}
