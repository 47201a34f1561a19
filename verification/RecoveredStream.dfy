/** Updates over a session that breaks and recovers: what the listener is told in any run of Recovery. */
module RecoveredStream {
  import opened DeltaState
  import opened UpdateStream
  import Decimal
  import R = Recovery

  lemma {:induction false} HonestPrefix<K>(server: Table<K>, cs: seq<Change<K>>, n: nat)
    requires AllHonest(server, cs) && n <= |cs|
    ensures AllHonest(server, cs[..n])
    decreases n
  {
    hide Honest;
    if n > 0 {
      HonestPrefix(server[cs[0].key := cs[0].row], cs[1..], n - 1);
      assert cs[..n][1..] == cs[1..][..n - 1];
    }
  }

  lemma PrefixOfLines(table: nat, ls: seq<Line>, n: nat)
    requires ValidLines(ls) && n <= |ls|
    ensures ValidLines(ls[..n]) && PrintedAll(table, ls)[..n] == PrintedAll(table, ls[..n])
    ensures AsChanges(ls)[..n] == AsChanges(ls[..n]) && FullRows(ls)[..n] == FullRows(ls[..n])
  {
    hide ValidLine, Printed, AsChange;
  }

  /** What the listener has been told when n lines have been passed on. */
  lemma FirstRows(table: nat, rows: map<int, Stored>, server: Table<int>, ls: seq<Line>, n: nat)
    requires table <= Decimal.INT_MAX && ValidLines(ls) && n <= |ls|
    requires Mirrors(rows, server) && MarkerFree(server) && AllHonest(server, AsChanges(ls))
    ensures var passed := PrintedAll(table, ls)[..n];
      && (Calls(rows, passed) == FullRows(ls)[..n] <==> NoMarkerSent(ls[..n]))
      && (NoMarkerSent(ls[..n]) ==>
            Mirrors(RowsAfterAll(rows, passed), ServerAfter(server, AsChanges(ls)[..n])))
  {
    hide *;
    PrefixOfLines(table, ls, n);
    HonestPrefix(server, AsChanges(ls), n);
    StreamShowsEveryRowIff(table, rows, server, ls[..n]);
  }

  /**
   In every run of sendings, reads, breaks, recoveries and rebinds over a stream of update lines, the listener
   has been called once for each of the first dataNotificationCount lines, in order and with its whole row, and
   the client's table is the server's as of that line, if and only if none of these lines sends the text of the
   marker as a value.
   */
  lemma RowsSurviveRecoveriesIff(table: nat, rows: map<int, Stored>, server: Table<int>, ls: seq<Line>,
                                 es: seq<R.Event>)
    requires table <= Decimal.INT_MAX && ValidLines(ls)
    requires Mirrors(rows, server) && MarkerFree(server) && AllHonest(server, AsChanges(ls))
    ensures var c := R.Reached(PrintedAll(table, ls), es).client;
      && c.count <= |ls|
      && (Calls(rows, c.delivered) == FullRows(ls)[..c.count]
          && Mirrors(RowsAfterAll(rows, c.delivered), ServerAfter(server, AsChanges(ls)[..c.count]))
          <==> NoMarkerSent(ls[..c.count]))
  {
    hide *;
    Delivered(PrintedAll(table, ls), R.Reached(PrintedAll(table, ls), es));
    FirstRows(table, rows, server, ls, R.Reached(PrintedAll(table, ls), es).client.count);
  }

  lemma Delivered(stream: seq<string>, s: R.System<string>)
    requires R.Inv(stream, s)
    ensures s.client.count <= |stream| && s.client.delivered == stream[..s.client.count]
  {
  }

  /** Whenever a run leaves the session resumable, letting the server send the rest and the client read it tells
      the listener every row, if and only if no line sends the marker. */
  lemma NoRowIsLostIff(table: nat, rows: map<int, Stored>, server: Table<int>, ls: seq<Line>, es: seq<R.Event>)
    requires table <= Decimal.INT_MAX && ValidLines(ls)
    requires Mirrors(rows, server) && MarkerFree(server) && AllHonest(server, AsChanges(ls))
    requires R.Resumable(R.Reached(PrintedAll(table, ls), es))
    ensures var stream := PrintedAll(table, ls);
      var c := R.Finished(stream, R.Reached(stream, es)).client;
      Calls(rows, c.delivered) == FullRows(ls) <==> NoMarkerSent(ls)
  {
    hide *;
    R.EveryNotificationArrives(PrintedAll(table, ls), R.Reached(PrintedAll(table, ls), es));
    StreamShowsEveryRowIff(table, rows, server, ls);
  }

  /** In particular whenever every recovery of the run resumes within what the client has accounted for. */
  lemma NoRowIsLostInReach(table: nat, rows: map<int, Stored>, server: Table<int>, ls: seq<Line>, es: seq<R.Event>)
    requires table <= Decimal.INT_MAX && ValidLines(ls)
    requires Mirrors(rows, server) && MarkerFree(server) && AllHonest(server, AsChanges(ls))
    requires R.ResumesInReach(PrintedAll(table, ls), R.Init(), es)
    ensures var stream := PrintedAll(table, ls);
      && R.Resumable(R.Reached(stream, es))
      && (Calls(rows, R.Finished(stream, R.Reached(stream, es)).client.delivered) == FullRows(ls) <==> NoMarkerSent(ls))
  {
    hide *;
    Resumes(PrintedAll(table, ls), es);
    NoRowIsLostIff(table, rows, server, ls, es);
  }

  lemma Resumes(stream: seq<string>, es: seq<R.Event>)
    requires R.ResumesInReach(stream, R.Init(), es)
    ensures R.Resumable(R.Reached(stream, es))
  {
    hide R.Run, R.ResumesInReach;
    R.InitInv(stream);
    R.RecoveriesKeepTheSession(stream, R.Init(), es);
  }
}
