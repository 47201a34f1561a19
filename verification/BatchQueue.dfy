/** The queue of one kind of control requests: BatchRequest, a map with a vector of its keys. */
module BatchQueue {
  import opened Common
  import Decimal

  datatype Kind =
    | Message
    | Heartbeat
    | Constrain
    | ForceRebind
    | Subscribe(subId: nat)
    | Unsubscribe(subId: nat)
    | ChangeSubscription(subId: nat)
    | Destroy(session: string)

  /**
   A request with its tutor and listener. wire is the length of its text in a batch, announced the length
   that getNextRequestLength reports; the latter may count an LS_ack parameter that a batch leaves out.
   */
  datatype RawRequest = Request(id: nat, kind: Kind, wire: nat, announced: nat)
  type Request = r: RawRequest | 0 < r.wire <= r.announced witness Request(0, Heartbeat, 1, 1)

  datatype BatchType = MESSAGE | HEARTBEAT | CONTROL

  datatype Entry = Entry(key: string, request: Request)

  /** What a BatchRequest holds: its entries in the order in which their keys were first added. */
  datatype Batch = Batch(batchType: BatchType, entries: seq<Entry>, nextKey: nat)

  /** The batch type whose queue takes the request. */
  function TypeOf(kind: Kind): BatchType {
    match kind
    case Message => MESSAGE
    case Heartbeat => HEARTBEAT
    case _ => CONTROL
  }

  /** The key under which addRequestToBatch files a request. */
  function KeyOf(kind: Kind, nextKey: nat): string {
    match kind
    case Message => Decimal.ToString(nextKey)
    case Heartbeat => Decimal.ToString(nextKey)
    case Constrain => "C"
    case ForceRebind => "F"
    case Subscribe(id) => Decimal.ToString(id)
    case Unsubscribe(id) => Decimal.ToString(id)
    case ChangeSubscription(id) => "X" + Decimal.ToString(id)
    case Destroy(session) => session
  }

  /** A later request replaces an earlier one that is still queued when both are about the same thing. */
  predicate SameSlot(a: Kind, b: Kind) {
    || (a.Constrain? && b.Constrain?)
    || (a.ForceRebind? && b.ForceRebind?)
    || ((a.Subscribe? || a.Unsubscribe?) && (b.Subscribe? || b.Unsubscribe?) && a.subId == b.subId)
    || (a.ChangeSubscription? && b.ChangeSubscription? && a.subId == b.subId)
    || (a.Destroy? && b.Destroy? && a.session == b.session)
  }

  /** Requests of the control queue share a key exactly when they share a slot: no subscription id, however
      it is spelled, is taken for a constraint, a rebind or a change. */
  lemma KeySharedIff(a: Kind, b: Kind, m: nat, n: nat)
    requires TypeOf(a) == TypeOf(b) == CONTROL && a.Destroy? == b.Destroy?
    ensures KeyOf(a, m) == KeyOf(b, n) <==> SameSlot(a, b)
  {
    if KeyOf(a, m) == KeyOf(b, n) && !a.Destroy? {
      var k := KeyOf(a, m);
      if Decimal.IsDigit(k[0]) {
        Decimal.ToStringInjective(a.subId, b.subId);
      } else if k[0] == 'X' {
        assert k[1..] == Decimal.ToString(a.subId) && k[1..] == Decimal.ToString(b.subId);
        Decimal.ToStringInjective(a.subId, b.subId);
      }
    }
  }

  // ---- entries as a map that remembers insertion order ----

  ghost predicate DistinctKeys(es: seq<Entry>) {
    forall i, j :: 0 <= i < j < |es| ==> es[i].key != es[j].key
  }

  ghost predicate HasKey(es: seq<Entry>, key: string) {
    exists i :: 0 <= i < |es| && es[i].key == key
  }

  /** The position of a key, or |es|. */
  function IndexOf(es: seq<Entry>, key: string): (i: nat)
    ensures i <= |es|
    ensures i < |es| ==> es[i].key == key
    ensures forall j :: 0 <= j < i ==> es[j].key != key
  {
    if es == [] || es[0].key == key then 0 else 1 + IndexOf(es[1..], key)
  }

  function Put(es: seq<Entry>, key: string, request: Request): seq<Entry> {
    var i := IndexOf(es, key);
    if i < |es| then es[i := Entry(key, request)] else es + [Entry(key, request)]
  }

  function Requests(es: seq<Entry>): (rs: seq<Request>)
    ensures |rs| == |es| && forall i :: 0 <= i < |es| ==> rs[i] == es[i].request
  {
    seq(|es|, i requires 0 <= i < |es| => es[i].request)
  }

  /** Put keeps every other entry in its place; a known key keeps its place too. */
  lemma PutKeepsOrder(es: seq<Entry>, key: string, request: Request)
    requires DistinctKeys(es)
    ensures var put := Put(es, key, request);
      && DistinctKeys(put)
      && |put| == |es| + (if HasKey(es, key) then 0 else 1)
      && (forall i :: 0 <= i < |es| ==> put[i] == if es[i].key == key then Entry(key, request) else es[i])
      && (!HasKey(es, key) ==> put[|es|] == Entry(key, request))
  {
  }

  /** The requests a batch holds after an addition: the new one is in, the one it replaces, if any, is out. */
  lemma PutConserves(es: seq<Entry>, key: string, request: Request)
    ensures var i := IndexOf(es, key);
      multiset(Requests(Put(es, key, request))) + (if i < |es| then multiset{es[i].request} else multiset{})
      == multiset(Requests(es)) + multiset{request}
  {
    var i := IndexOf(es, key);
    var put := Put(es, key, request);
    if i < |es| {
      assert Requests(put) == Requests(es)[i := request];
    } else {
      assert Requests(put) == Requests(es) + [request];
    }
  }

  ghost predicate ValidBatch(b: Batch) {
    && DistinctKeys(b.entries)
    && (forall i :: 0 <= i < |b.entries| ==> TypeOf(b.entries[i].request.kind) == b.batchType)
    && (b.batchType != CONTROL ==>
          forall i :: 0 <= i < |b.entries| ==> Numbered(b.entries[i].key, b.nextKey))
  }

  ghost predicate Numbered(key: string, nextKey: nat) {
    exists n :: 0 <= n < nextKey && key == Decimal.ToString(n)
  }

  /** The request that an addition replaces and whose tutor is told so. */
  function Replaced(b: Batch, request: Request): Option<Request> {
    if b.batchType != CONTROL then None
    else
      var i := IndexOf(b.entries, KeyOf(request.kind, b.nextKey));
      if i < |b.entries| then Some(b.entries[i].request) else None
  }

  /** A request that may be missing, as a multiset. */
  function Bag(r: Option<Request>): multiset<Request> { if r.Some? then multiset{r.value} else multiset{} }

  function Added(b: Batch, request: Request): Batch {
    var put := Put(b.entries, KeyOf(request.kind, b.nextKey), request);
    b.(entries := put, nextKey := if b.batchType == CONTROL then b.nextKey else b.nextKey + 1)
  }

  lemma NumberedKeyIsNew(b: Batch)
    requires ValidBatch(b) && b.batchType != CONTROL
    ensures !HasKey(b.entries, Decimal.ToString(b.nextKey))
  {
    forall i | 0 <= i < |b.entries| ensures b.entries[i].key != Decimal.ToString(b.nextKey) {
      assert Numbered(b.entries[i].key, b.nextKey);
      var n :| 0 <= n < b.nextKey && b.entries[i].key == Decimal.ToString(n);
      if Decimal.ToString(n) == Decimal.ToString(b.nextKey) { Decimal.ToStringInjective(n, b.nextKey); }
    }
  }

  lemma AddedIsValid(b: Batch, request: Request)
    requires ValidBatch(b) && TypeOf(request.kind) == b.batchType
    ensures ValidBatch(Added(b, request)) && Added(b, request).batchType == b.batchType
    ensures Replaced(b, request).Some? <==> HasKey(b.entries, KeyOf(request.kind, b.nextKey))
  {
    var key, a := KeyOf(request.kind, b.nextKey), Added(b, request);
    PutKeepsOrder(b.entries, key, request);
    PutConserves(b.entries, key, request);
    if b.batchType != CONTROL {
      NumberedKeyIsNew(b);
      assert IndexOf(b.entries, key) == |b.entries|;
      forall i | 0 <= i < |a.entries| ensures Numbered(a.entries[i].key, a.nextKey) {
        if i < |b.entries| {
          assert Numbered(b.entries[i].key, b.nextKey);
        } else {
          assert a.entries[i].key == Decimal.ToString(b.nextKey);
        }
      }
    }
  }

  /** Dropping entries from the front keeps a batch valid. */
  lemma DroppedIsValid(b: Batch, n: nat)
    requires ValidBatch(b) && n <= |b.entries|
    ensures ValidBatch(b.(entries := b.entries[n..]))
  {
  }

  /** The requests a batch holds after an addition: the new one is in, the one it replaces, if any, is out. */
  lemma AddedConserves(b: Batch, request: Request)
    requires ValidBatch(b) && TypeOf(request.kind) == b.batchType
    ensures multiset(Requests(Added(b, request).entries)) + Bag(Replaced(b, request))
         == multiset(Requests(b.entries)) + multiset{request}
  {
    PutConserves(b.entries, KeyOf(request.kind, b.nextKey), request);
    if b.batchType != CONTROL {
      NumberedKeyIsNew(b);
      assert IndexOf(b.entries, KeyOf(request.kind, b.nextKey)) == |b.entries|;
    }
  }

  class BatchRequest {
    var keys: map<string, Request>
    var queue: seq<string>
    const batchType: BatchType
    var messageNextKey: nat

    constructor (batchType: BatchType)
      ensures Valid() && this.batchType == batchType && View() == Batch(batchType, [], 0)
    {
      this.batchType := batchType;
      keys, queue, messageNextKey := map[], [], 0;
    }

    /** The vector holds each key of the map once. */
    ghost predicate Linked()
      reads this
    {
      && (forall i, j :: 0 <= i < j < |queue| ==> queue[i] != queue[j])
      && (forall i :: 0 <= i < |queue| ==> queue[i] in keys)
      && (forall k :: k in keys ==> k in queue)
    }

    ghost function View(): (b: Batch)
      reads this
      requires Linked()
      ensures |b.entries| == |queue| && b.batchType == batchType && b.nextKey == messageNextKey
    {
      var entries :=
        seq(|queue|, i requires 0 <= i < |queue| && Linked() reads this => Entry(queue[i], keys[queue[i]]));
      Batch(batchType, entries, messageNextKey)
    }

    ghost predicate Valid()
      reads this
      ensures Valid() ==> Linked()
    {
      Linked() && ValidBatch(View())
    }

    function Length(): nat
      reads this
    {
      |queue|
    }

    method GetNextRequestLength() returns (n: nat)
      requires Valid()
      ensures n == if View().entries == [] then 0 else View().entries[0].request.announced
    {
      if |queue| <= 0 {
        return 0;
      }
      n := keys[queue[0]].announced;
    }

    method Shift() returns (r: Option<Request>)
      requires Valid()
      modifies this
      ensures Valid()
      ensures old(View()).entries == [] ==> r == None && View() == old(View())
      ensures old(View()).entries != [] ==>
        r == Some(old(View()).entries[0].request) && View() == old(View()).(entries := old(View()).entries[1..])
    {
      if |queue| <= 0 {
        return None;
      }
      ghost var before := View();
      var key := queue[0];
      queue := queue[1..];
      r := Some(keys[key]);
      keys := map k | k in keys && k != key :: keys[k];
      DroppedIsValid(before, 1);
      assert View() == before.(entries := before.entries[1..]);
    }

    method AddRequestInternal(key: string, request: Request)
      requires Linked() && key !in keys
      modifies this`keys, this`queue
      ensures Linked() && View() == old(View()).(entries := old(View()).entries + [Entry(key, request)])
    {
      ghost var before := View();
      keys := keys[key := request];
      queue := queue + [key];
      assert View().entries == before.entries + [Entry(key, request)];
    }

    method SubstituteRequest(key: string, newRequest: Request)
      requires Linked() && key in keys
      modifies this`keys
      ensures Linked() && View() == old(View()).(entries := Put(old(View()).entries, key, newRequest))
    {
      ghost var before := View();
      ghost var j :| 0 <= j < |queue| && queue[j] == key;
      assert before.entries[j].key == key;
      ghost var i := IndexOf(before.entries, key);
      assert queue[i] == key;
      keys := keys[key := newRequest];
      assert View().entries == before.entries[i := Entry(key, newRequest)];
    }

    /** The addRequestToBatch family; replaced is the request whose tutor gets notifyAbort. */
    method AddRequestToBatch(request: Request) returns (accepted: bool, replaced: Option<Request>)
      requires Valid()
      modifies this
      ensures Valid()
      ensures accepted <==> TypeOf(request.kind) == batchType
      ensures accepted ==> replaced == Replaced(old(View()), request) && View() == Added(old(View()), request)
      ensures !accepted ==> replaced == None && View() == old(View())
    {
      if TypeOf(request.kind) != batchType {
        return false, None;
      }
      ghost var before := View();
      AddedIsValid(before, request);
      var key := KeyOf(request.kind, messageNextKey);
      if batchType != CONTROL {
        NumberedKeyIsNew(before);
        assert forall i :: 0 <= i < |queue| ==> queue[i] == before.entries[i].key;
        AddRequestInternal(key, request);
        messageNextKey := messageNextKey + 1;
        assert View() == Added(before, request);
        return true, None;
      }
      assert forall i :: 0 <= i < |queue| ==>
          before.entries[i].key == queue[i] && before.entries[i].request == keys[queue[i]];
      if key in keys {
        replaced := Some(keys[key]);
        SubstituteRequest(key, request);
      } else {
        replaced := None;
        AddRequestInternal(key, request);
      }
      accepted := true;
    }
  }
}
