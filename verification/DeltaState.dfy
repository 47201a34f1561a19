/**
 The client's copy of the rows of a subscription: Subscription::prepareChangedSet, updateStructure and the
 key of organizeMPUpdate, against a server that sends each new row as a delta.
 */
module DeltaState {
  import Decimal
  import opened Strings
  import opened UpdateLine

  /** A stored row, by 1-based field position, as the std::map of updateStructure. */
  type Stored = map<int, string>

  /** std::map::operator[]: a missing position reads as the empty string. */
  function At(row: Stored, position: int): string {
    if position in row then row[position] else ""
  }

  /** args after updateStructure. */
  function Merge(row: Stored, args: seq<string>): (merged: seq<string>)
    ensures |merged| == |args|
  {
    seq(|args|, i requires 0 <= i < |args| => if args[i] == UNCHANGED then At(row, i + 1) else args[i])
  }

  /** The positions 1 to n. */
  function Positions(n: nat): (ps: set<int>)
    ensures forall p :: p in ps <==> 1 <= p <= n
  {
    if n == 0 then {} else Positions(n - 1) + {n}
  }

  /** The stored row after updateStructure has left args as merged. */
  function Store(row: Stored, merged: seq<string>): Stored {
    map p | p in row.Keys + Positions(|merged|)
      :: if 1 <= p <= |merged| then merged[p - 1] else row[p]
  }

  function RowOf<K>(rows: map<K, Stored>, key: K): Stored {
    if key in rows then rows[key] else map[]
  }

  function Updated<K>(rows: map<K, Stored>, key: K, args: seq<string>): map<K, Stored> {
    if args == [] then rows else rows[key := Store(RowOf(rows, key), Merge(RowOf(rows, key), args))]
  }

  /** The positions of an update that carry a value. */
  function ChangedSet(args: seq<string>): set<int> {
    set i | 0 <= i < |args| && args[i] != UNCHANGED :: i + 1
  }

  /** Subscription::prepareChangedSet. */
  method PrepareChangedSet(args: seq<string>) returns (changedFields: set<int>)
    ensures changedFields == ChangedSet(args)
    ensures forall p :: p in changedFields <==> 1 <= p <= |args| && args[p - 1] != UNCHANGED
  {
    changedFields := {};
    for i := 0 to |args|
      invariant forall p :: p in changedFields <==> 1 <= p <= i && args[p - 1] != UNCHANGED
    {
      if args[i] != UNCHANGED {
        changedFields := changedFields + {i + 1};
      }
    }
    forall p | p in changedFields ensures p in ChangedSet(args) {
      assert args[p - 1] != UNCHANGED;
    }
  }

  /** The value matrix of a subscription, oldValuesByItem or oldValuesByKey. */
  class Values<K(==)> {
    var rows: map<K, Stored>

    constructor ()
      ensures rows == map[]
    {
      rows := map[];
    }

    /** One turn of the loop of updateStructure: the field's value, stored and returned. */
    method UpdateField(key: K, fieldPos: int, value: string) returns (v: string)
      modifies this
      ensures v == if value != UNCHANGED then value else At(RowOf(old(rows), key), fieldPos)
      ensures rows == old(rows)[key := RowOf(old(rows), key)[fieldPos := v]]
    {
      var current := RowOf(rows, key);
      v := if value != UNCHANGED then value else At(current, fieldPos);
      rows := rows[key := current[fieldPos := v]];
    }

    /** Subscription::updateStructure: rewrites args in place and the stored row with it. */
    method UpdateStructure(key: K, args: array<string>)
      modifies this, args
      ensures args[..] == Merge(RowOf(old(rows), key), old(args[..]))
      ensures rows == Updated(old(rows), key, old(args[..]))
    {
      hide Merge, Updated, RowsAt, RowOf, At;
      ghost var sent, before := args[..], rows;
      ghost var merged := Merge(RowOf(rows, key), sent);
      RowsAtEnds(before, key, sent);
      var i := 0;
      while i < args.Length
        invariant i <= args.Length
        invariant forall j :: 0 <= j < args.Length ==> args[j] == if j < i then merged[j] else sent[j]
        invariant rows == RowsAt(before, key, merged, i)
      {
        RowsAtStep(before, key, sent, i);
        var v := UpdateField(key, i + 1, args[i]);
        args[i] := v;
        i := i + 1;
      }
      assert args[..] == merged;
    }
  }

  /** The stored rows when the loop of updateStructure has done the first i fields. */
  ghost function RowsAt<K>(rows: map<K, Stored>, key: K, merged: seq<string>, i: nat): map<K, Stored>
    requires i <= |merged|
  {
    if i == 0 then rows else rows[key := Store(RowOf(rows, key), merged[..i])]
  }

  lemma RowsAtEnds<K>(rows: map<K, Stored>, key: K, sent: seq<string>)
    ensures var merged := Merge(RowOf(rows, key), sent);
      RowsAt(rows, key, merged, 0) == rows && RowsAt(rows, key, merged, |sent|) == Updated(rows, key, sent)
  {
    var merged := Merge(RowOf(rows, key), sent);
    assert merged[..|sent|] == merged;
  }

  lemma RowsAtStep<K>(rows: map<K, Stored>, key: K, sent: seq<string>, i: nat)
    requires i < |sent|
    ensures var merged := Merge(RowOf(rows, key), sent);
      var now := RowsAt(rows, key, merged, i);
      && merged[i] == (if sent[i] != UNCHANGED then sent[i] else At(RowOf(now, key), i + 1))
      && RowsAt(rows, key, merged, i + 1) == now[key := RowOf(now, key)[i + 1 := merged[i]]]
  {
    var merged := Merge(RowOf(rows, key), sent);
    StoreNothing(RowOf(rows, key));
    StoreOneMore(RowOf(rows, key), merged, i);
  }

  lemma StoreNothing(row: Stored)
    ensures Store(row, []) == row
  {
  }

  lemma StoreOneMore(row: Stored, merged: seq<string>, i: nat)
    requires i < |merged|
    ensures Store(row, merged[..i + 1]) == Store(row, merged[..i])[i + 1 := merged[i]]
    ensures At(Store(row, merged[..i]), i + 1) == At(row, i + 1)
  {
  }

  // ---- a server that sends deltas ----

  /** The server's next row for a key, and the positions whose value it puts on the line. */
  datatype Change<K> = Change(key: K, row: seq<string>, sent: set<int>)

  /** What the client receives: the marker wherever nothing was sent. */
  function Delta<K>(c: Change<K>): (args: seq<string>)
    ensures |args| == |c.row|
  {
    seq(|c.row|, i requires 0 <= i < |c.row| => if i + 1 in c.sent then c.row[i] else UNCHANGED)
  }

  type Table<K> = map<K, seq<string>>

  /** A position may be left out only when the server's previous row of the key has the same value there. */
  ghost predicate Honest<K>(server: Table<K>, c: Change<K>) {
    && |c.row| > 0
    && (c.key in server ==> |server[c.key]| == |c.row|)
    && forall i :: 0 <= i < |c.row| && i + 1 !in c.sent ==> c.key in server && server[c.key][i] == c.row[i]
  }

  ghost predicate SendsMarker<K>(c: Change<K>) {
    exists i :: 0 <= i < |c.row| && i + 1 in c.sent && c.row[i] == UNCHANGED
  }

  /** The stored rows hold exactly the server's rows. */
  ghost predicate Mirrors<K>(rows: map<K, Stored>, server: Table<K>) {
    && rows.Keys == server.Keys
    && forall k :: k in rows ==>
         && rows[k].Keys == Positions(|server[k]|)
         && forall i :: 0 <= i < |server[k]| ==> rows[k][i + 1] == server[k][i]
  }

  ghost predicate MarkerFree<K>(server: Table<K>) {
    forall k, i :: k in server && 0 <= i < |server[k]| ==> server[k][i] != UNCHANGED
  }

  /** One update: the rewritten args are the server's row exactly when the marker was not sent as a value. */
  lemma MergeIsServerRowIff<K>(rows: map<K, Stored>, server: Table<K>, c: Change<K>)
    requires Mirrors(rows, server) && MarkerFree(server) && Honest(server, c)
    ensures Merge(RowOf(rows, c.key), Delta(c)) == c.row <==> !SendsMarker(c)
  {
    var row, merged := RowOf(rows, c.key), Merge(RowOf(rows, c.key), Delta(c));
    forall i | 0 <= i < |c.row|
      ensures i + 1 !in c.sent ==> merged[i] == c.row[i]
      ensures i + 1 in c.sent ==> (merged[i] == c.row[i] <==> c.row[i] != UNCHANGED)
    {
      if c.key in server { assert At(row, i + 1) == server[c.key][i]; } else { assert At(row, i + 1) == ""; }
    }
    if SendsMarker(c) {
      var i :| 0 <= i < |c.row| && i + 1 in c.sent && c.row[i] == UNCHANGED;
      assert merged[i] != c.row[i];
    }
  }

  lemma UpdateKeepsMirror<K>(rows: map<K, Stored>, server: Table<K>, c: Change<K>)
    requires Mirrors(rows, server) && MarkerFree(server) && Honest(server, c) && !SendsMarker(c)
    ensures Mirrors(Updated(rows, c.key, Delta(c)), server[c.key := c.row])
    ensures MarkerFree(server[c.key := c.row])
  {
    MergeIsServerRowIff(rows, server, c);
    hide Merge, Store, Delta, Positions;
    StoreOfRow(RowOf(rows, c.key), c.row);
  }

  /** A stored row with no other positions is overwritten. */
  lemma StoreOfRow(row: Stored, full: seq<string>)
    requires row.Keys <= Positions(|full|)
    ensures Store(row, full).Keys == Positions(|full|)
    ensures forall i :: 0 <= i < |full| ==> Store(row, full)[i + 1] == full[i]
  {
    hide Positions;
    assert row.Keys + Positions(|full|) == Positions(|full|);
  }

  function ServerAfter<K>(server: Table<K>, cs: seq<Change<K>>): Table<K>
    decreases |cs|
  {
    if cs == [] then server else ServerAfter(server[cs[0].key := cs[0].row], cs[1..])
  }

  function ClientAfter<K>(rows: map<K, Stored>, cs: seq<Change<K>>): map<K, Stored>
    decreases |cs|
  {
    if cs == [] then rows else ClientAfter(Updated(rows, cs[0].key, Delta(cs[0])), cs[1..])
  }

  ghost predicate AllHonest<K>(server: Table<K>, cs: seq<Change<K>>)
    decreases |cs|
  {
    cs != [] ==> Honest(server, cs[0]) && AllHonest(server[cs[0].key := cs[0].row], cs[1..])
  }

  /** Each listener call of the run is given the server's whole row. */
  ghost predicate EveryRowSeen<K>(rows: map<K, Stored>, cs: seq<Change<K>>)
    decreases |cs|
  {
    cs != [] ==>
      && Merge(RowOf(rows, cs[0].key), Delta(cs[0])) == cs[0].row
      && EveryRowSeen(Updated(rows, cs[0].key, Delta(cs[0])), cs[1..])
  }

  /**
   Any run of deltas over any mix of keys: the client sees every server row in full, and ends with the
   server's table, exactly when no value sent equals the marker.
   */
  lemma {:induction false} DeltasRebuildTheServerTable<K>(rows: map<K, Stored>, server: Table<K>, cs: seq<Change<K>>)
    requires Mirrors(rows, server) && MarkerFree(server) && AllHonest(server, cs)
    ensures EveryRowSeen(rows, cs) <==> forall n :: 0 <= n < |cs| ==> !SendsMarker(cs[n])
    ensures EveryRowSeen(rows, cs) ==> Mirrors(ClientAfter(rows, cs), ServerAfter(server, cs))
    decreases |cs|
  {
    if cs != [] {
      MergeIsServerRowIff(rows, server, cs[0]);
      if !SendsMarker(cs[0]) {
        UpdateKeepsMirror(rows, server, cs[0]);
        DeltasRebuildTheServerTable(Updated(rows, cs[0].key, Delta(cs[0])), server[cs[0].key := cs[0].row], cs[1..]);
        assert forall n :: 1 <= n < |cs| ==> cs[n] == cs[1..][n - 1];
        assert forall n :: 0 <= n < |cs| - 1 ==> cs[1..][n] == cs[n + 1];
      }
    }
  }

  /** The changed set handed to the listener is what the server sent. */
  lemma ChangedSetIsWhatWasSent<K>(c: Change<K>)
    requires !SendsMarker(c)
    ensures ChangedSet(Delta(c)) == (set p | p in c.sent && 1 <= p <= |c.row|)
  {
    var args := Delta(c);
    forall p | p in c.sent && 1 <= p <= |c.row| ensures p in ChangedSet(args) {
      assert args[p - 1] == c.row[p - 1] != UNCHANGED;
    }
  }

  // ---- COMMAND mode ----

  /** The key under which organizeMPUpdate files a row. */
  function ExtendedKey(item: nat, key: string): string {
    Decimal.ToString(item) + " " + key
  }

  /** Distinct (item, key) pairs never share a row, whatever characters the keys hold. */
  lemma ExtendedKeyInjective(item: nat, key: string, item': nat, key': string)
    requires ExtendedKey(item, key) == ExtendedKey(item', key')
    ensures item == item' && key == key'
  {
    var e, n, n' := ExtendedKey(item, key), |Decimal.ToString(item)|, |Decimal.ToString(item')|;
    FindIs(e, ' ', n);
    FindIs(e, ' ', n');
    assert e[..n] == Decimal.ToString(item) && e[..n] == Decimal.ToString(item');
    Decimal.ToStringInjective(item, item');
    assert e[n + 1..] == key && e[n + 1..] == key';
  }

  /** Subscription::organizeMPUpdate; the empty string is its answer when key or command lie outside the row. */
  method OrganizeMPUpdate(args: seq<string>, item: nat, keyCode: int, commandCode: int,
                          oldValuesByItem: map<nat, Stored>)
      returns (extendedKey: string)
    requires keyCode >= 1 && commandCode >= 1
    ensures extendedKey == CommandKey(args, item, keyCode, commandCode, oldValuesByItem)
  {
    var numFields := |args|;
    if commandCode > numFields || keyCode > numFields {
      return "";
    }
    var currentKey := args[keyCode - 1];
    if currentKey == UNCHANGED {
      extendedKey := Decimal.ToString(item) + " " + At(RowOf(oldValuesByItem, item), keyCode);
    } else {
      extendedKey := Decimal.ToString(item) + " " + currentKey;
    }
  }

  function CommandKey(args: seq<string>, item: nat, keyCode: int, commandCode: int, byItem: map<nat, Stored>): string
    requires keyCode >= 1 && commandCode >= 1
  {
    if commandCode > |args| || keyCode > |args| then ""
    else ExtendedKey(item, Merge(RowOf(byItem, item), args)[keyCode - 1])
  }

  /** An update has no key exactly when its key or its command lies outside the row. */
  lemma KeyOutsideRowIff(args: seq<string>, item: nat, keyCode: int, commandCode: int, byItem: map<nat, Stored>)
    requires keyCode >= 1 && commandCode >= 1
    ensures CommandKey(args, item, keyCode, commandCode, byItem) == "" <==> keyCode > |args| || commandCode > |args|
  {
  }

  /** A position that was never sent reads as the empty text. */
  lemma NeverSentIsEmpty<K>(rows: map<K, Stored>, key: K, args: seq<string>, i: nat)
    requires i < |args| && args[i] == UNCHANGED && i + 1 !in RowOf(rows, key)
    ensures Merge(RowOf(rows, key), args)[i] == "" && RowOf(Updated(rows, key, args), key)[i + 1] == ""
  {
  }

  /**
   In COMMAND mode two updates of the same subscription, each a delta on its own item, are filed under one
   key exactly when the server's rows agree on the item and on the key field.
   */
  lemma CommandRowsNeverClash(rows: map<nat, Stored>, server: Table<nat>, c: Change<nat>,
                              rows': map<nat, Stored>, server': Table<nat>, c': Change<nat>,
                              keyCode: int, commandCode: int)
    requires Mirrors(rows, server) && MarkerFree(server) && Honest(server, c) && !SendsMarker(c)
    requires Mirrors(rows', server') && MarkerFree(server') && Honest(server', c') && !SendsMarker(c')
    requires 1 <= keyCode <= |c.row| && keyCode <= |c'.row| && 1 <= commandCode <= |c.row| && commandCode <= |c'.row|
    ensures CommandKey(Delta(c), c.key, keyCode, commandCode, rows)
         == CommandKey(Delta(c'), c'.key, keyCode, commandCode, rows')
       <==> c.key == c'.key && c.row[keyCode - 1] == c'.row[keyCode - 1]
  {
    MergeIsServerRowIff(rows, server, c);
    MergeIsServerRowIff(rows', server', c');
    var k, k' := c.row[keyCode - 1], c'.row[keyCode - 1];
    if ExtendedKey(c.key, k) == ExtendedKey(c'.key, k') {
      ExtendedKeyInjective(c.key, k, c'.key, k');
    }
  }
}
