/** The HTTP endpoints of the order service: POST /orders, GET /orders/{order_id}
    and GET /orders. Both reads fold the order's status hash, which the worker
    writes, over the record stored in the stream. */
module Api {
  import opened Wrappers
  import opened Decimal
  import opened StreamIds
  import opened Models
  import opened RedisClient
  import opened Worker

  /** An endpoint's answer: the body of a 200 response, a 404 or a 500. */
  datatype Response<T> = Ok(body: T) | NotFound | ServerError

  /** Folds a status hash over an order. An empty hash (the key does not
      exist) leaves the order as stored. Otherwise the status comes from the
      hash when it has one, and processed_at becomes whatever the hash holds,
      nothing included. A status string the enumeration does not know raises
      ValueError, which no handler catches: None here, a 500 at the endpoint. */
  function MergeStatus(o: Order, h: Fields): (r: Option<Order>)
    ensures h == map[] ==> r == Some(o)
    ensures r.None? <==> "status" in h && ParseStatus(h["status"]).None?
    ensures r.Some? ==> r.value.(status := o.status, processedAt := o.processedAt) == o
    ensures r.Some? && "status" in h ==> r.value.status.Value() == h["status"]
    ensures r.Some? && "status" !in h ==> r.value.status == o.status
    ensures r.Some? && h != map[] ==>
              && (r.value.processedAt.Some? <==> "processed_at" in h)
              && ("processed_at" in h ==> r.value.processedAt.value == h["processed_at"])
  {
    if h == map[] then Some(o)
    else
      var processedAt := if "processed_at" in h then Some(h["processed_at"]) else None;
      if "status" in h then
        match ParseStatus(h["status"])
        case None => None
        case Some(st) => Some(o.(status := st, processedAt := processedAt))
      else
        Some(o.(processedAt := processedAt))
  }

  /** The response for one order once its status hash `h` is folded in. */
  function Merged(o: Order, h: Fields): (r: Response<Order>)
    ensures r != NotFound
    ensures r == ServerError <==> "status" in h && ParseStatus(h["status"]).None?
    ensures r.Ok? ==> MergeStatus(o, h) == Some(r.body)
  {
    match MergeStatus(o, h)
    case None => ServerError
    case Some(v) => Ok(v)
  }

  /** GET /orders/{order_id} as written: XRANGE on the requested id finds the
      order, and the status hash is then read under the REQUESTED id. */
  function OrderViewAsWritten(stream: seq<Entry>, hashes: map<string, Fields>, orderId: string): (r: Response<Order>)
    ensures r == NotFound <==> FindOrder(stream, orderId).None?
    ensures var h := HGetAll(hashes, StatusKey(orderId));
            r == ServerError <==>
              FindOrder(stream, orderId).Some? && "status" in h && ParseStatus(h["status"]).None?
    ensures r.Ok? ==> MergeStatus(FindOrder(stream, orderId).value, HGetAll(hashes, StatusKey(orderId))) == Some(r.body)
  {
    match FindOrder(stream, orderId)
    case None => NotFound
    case Some(o) => Merged(o, HGetAll(hashes, StatusKey(orderId)))
  }

  /** GET /orders/{order_id} as intended: the status hash is the one filed
      under the id of the order found, where the worker writes it and where
      GET /orders reads it. */
  function OrderView(stream: seq<Entry>, hashes: map<string, Fields>, orderId: string): (r: Response<Order>)
    ensures r == NotFound <==> FindOrder(stream, orderId).None?
    ensures r == ServerError <==>
              && FindOrder(stream, orderId).Some?
              && var h := HGetAll(hashes, StatusKey(FindOrder(stream, orderId).value.id));
                 "status" in h && ParseStatus(h["status"]).None?
    ensures r.Ok? ==>
              var o := FindOrder(stream, orderId).value;
              && r.body.id == o.id
              && MergeStatus(o, HGetAll(hashes, StatusKey(r.body.id))) == Some(r.body)
  {
    match FindOrder(stream, orderId)
    case None => NotFound
    case Some(o) => Merged(o, HGetAll(hashes, StatusKey(o.id)))
  }

  /** Folds each order's own status hash over it; None when any hash holds a
      status the enumeration does not know. */
  function MergeAll(orders: seq<Order>, hashes: map<string, Fields>): (r: Option<seq<Order>>)
    ensures r.Some? ==>
              && |r.value| == |orders|
              && forall k :: 0 <= k < |orders| ==>
                   MergeStatus(orders[k], HGetAll(hashes, StatusKey(orders[k].id))) == Some(r.value[k])
    ensures r.None? <==>
              exists k :: 0 <= k < |orders| && MergeStatus(orders[k], HGetAll(hashes, StatusKey(orders[k].id))).None?
  {
    if orders == [] then Some([])
    else
      match (MergeStatus(orders[0], HGetAll(hashes, StatusKey(orders[0].id))), MergeAll(orders[1..], hashes))
      case (Some(o), Some(os)) => Some([o] + os)
      case (None, _) => None
      case (Some(_), None) =>
        var k :| 0 <= k < |orders| - 1
                 && MergeStatus(orders[1..][k], HGetAll(hashes, StatusKey(orders[1..][k].id))).None?;
        assert orders[1..][k] == orders[k + 1];
        None
  }

  /** Merging one order at a time, as GET /orders does, gives MergeAll. */
  lemma MergeAllPointwise(orders: seq<Order>, hashes: map<string, Fields>, merged: seq<Order>)
    requires |merged| == |orders|
    requires forall k :: 0 <= k < |orders| ==>
               MergeStatus(orders[k], HGetAll(hashes, StatusKey(orders[k].id))) == Some(merged[k])
    ensures MergeAll(orders, hashes) == Some(merged)
  {
    var all := MergeAll(orders, hashes);
    assert all.Some?;
    assert all.value == merged;
  }

  /** GET /orders?limit=`limit`. */
  function ListView(stream: seq<Entry>, hashes: map<string, Fields>, limit: int): (r: Response<seq<Order>>)
    ensures r != NotFound
    ensures r.Ok? ==>
              var os := NewestOrders(stream, limit);
              && |r.body| == |os|
              && forall k :: 0 <= k < |os| ==> MergeStatus(os[k], HGetAll(hashes, StatusKey(os[k].id))) == Some(r.body[k])
    ensures r == ServerError <==>
              var os := NewestOrders(stream, limit);
              exists k :: 0 <= k < |os| && MergeStatus(os[k], HGetAll(hashes, StatusKey(os[k].id))).None?
  {
    match MergeAll(NewestOrders(stream, limit), hashes)
    case None => ServerError
    case Some(os) => Ok(os)
  }

  // ----- The endpoints ---------------------------------------------------
  // Each endpoint method below is specified by the function above with the
  // matching name (GetOrderAsWritten by OrderViewAsWritten, GetOrder by
  // OrderView, ListOrders by ListView); MergeEach, the loop of GET /orders,
  // by MergeAll. The functions carry the endpoint's promises, and each
  // method's ensures ties its answer to its function.

  /** POST /orders: adds the order to the stream; any failure is a 500. The
      server clock's reading and the created_at text are parameters. */
  method CreateOrder(client: RedisStreamClient, order: OrderCreate, nowMs: U64, createdAt: string)
    returns (r: Response<string>)
    requires client.Valid()
    modifies client
    ensures client.Valid()
    ensures client.group == old(client.group) && client.hashes == old(client.hashes)
    ensures match NextId(old(client.lastId), nowMs)
      case None => r == ServerError && client.stream == old(client.stream) && client.lastId == old(client.lastId)
      case Some(id) =>
        && r == Ok(IdToString(id))
        && client.stream == old(client.stream) + [Entry(id, EncodeOrder(order, createdAt))]
        && client.lastId == id
  {
    var id := client.AddOrder(order, nowMs, createdAt);
    if id.None? {
      return ServerError;
    }
    return Ok(id.value);
  }

  /** GET /orders/{order_id} as written. */
  method GetOrderAsWritten(client: RedisStreamClient, orderId: string) returns (r: Response<Order>)
    requires client.Valid()
    ensures r == OrderViewAsWritten(client.stream, client.hashes, orderId)
  {
    var order := client.GetOrder(orderId);
    if order.None? {
      return NotFound;
    }
    var statusUpdate := HGetAll(client.hashes, StatusKey(orderId));
    r := Merged(order.value, statusUpdate);
  }

  /** GET /orders/{order_id} reading the status hash of the order found. */
  method GetOrder(client: RedisStreamClient, orderId: string) returns (r: Response<Order>)
    requires client.Valid()
    ensures r == OrderView(client.stream, client.hashes, orderId)
  {
    var order := client.GetOrder(orderId);
    if order.None? {
      return NotFound;
    }
    var statusUpdate := HGetAll(client.hashes, StatusKey(order.value.id));
    r := Merged(order.value, statusUpdate);
  }

  /** The loop of GET /orders: each order gets its own status hash folded
      in, and the first unknown status ends the loop. */
  method MergeEach(orders: seq<Order>, hashes: map<string, Fields>) returns (r: Option<seq<Order>>)
    ensures r == MergeAll(orders, hashes)
  {
    var merged: seq<Order> := [];
    var i := 0;
    while i < |orders|
      invariant 0 <= i <= |orders| && |merged| == i
      invariant forall k :: 0 <= k < i ==>
                  MergeStatus(orders[k], HGetAll(hashes, StatusKey(orders[k].id))) == Some(merged[k])
    {
      var statusUpdate := HGetAll(hashes, StatusKey(orders[i].id));
      var o := MergeStatus(orders[i], statusUpdate);
      if o.None? {
        return None;
      }
      merged := merged + [o.value];
      i := i + 1;
    }
    MergeAllPointwise(orders, hashes, merged);
    return Some(merged);
  }

  /** GET /orders: the newest records, each with its status hash folded in;
      an unknown status aborts the response with a 500. */
  method ListOrders(client: RedisStreamClient, limit: int) returns (r: Response<seq<Order>>)
    requires client.Valid()
    ensures r == ListView(client.stream, client.hashes, limit)
  {
    var orders := client.GetOrders(limit);
    var merged := MergeEach(orders, client.hashes);
    if merged.None? {
      return ServerError;
    }
    return Ok(merged.value);
  }

  // ----- Properties of the views -----------------------------------------

  /** A record read from an entry carries that entry's id. */
  lemma RecordId(e: Entry)
    requires RecordOf(e).Some?
    ensures RecordOf(e).value.id == IdToString(e.id)
  {
  }

  /** Asked by the id Redis gave it, the detail endpoint as written shows the
      same as the corrected one: the two differ only on other spellings. */
  lemma CanonicalIdsAgree(stream: seq<Entry>, hashes: map<string, Fields>, i: nat)
    requires Increasing(stream) && i < |stream|
    ensures OrderViewAsWritten(stream, hashes, IdToString(stream[i].id))
         == OrderView(stream, hashes, IdToString(stream[i].id))
  {
    FirstMatchOwnId(stream, i);
    if RecordOf(stream[i]).Some? {
      RecordId(stream[i]);
    }
  }

  /** An id without its sequence part, "ms", finds the entry ms-0 but the
      endpoint as written reads the status hash "order:status:ms", which the
      worker never writes: it shows the status stored at creation however
      far processing has got. */
  lemma IncompleteIdShowsStoredStatus(stream: seq<Entry>, hashes: map<string, Fields>, i: nat)
    requires Increasing(stream) && i < |stream| && stream[i].id.seqNo == 0
    requires RecordOf(stream[i]).Some?
    requires StatusKey(NatToString(stream[i].id.ms)) !in hashes
    ensures OrderViewAsWritten(stream, hashes, NatToString(stream[i].id.ms)) == Ok(RecordOf(stream[i]).value)
    ensures OrderView(stream, hashes, NatToString(stream[i].id.ms))
         == Merged(RecordOf(stream[i]).value, HGetAll(hashes, StatusKey(IdToString(stream[i].id))))
  {
    var e := stream[i];
    MatchesMillis(e.id.ms, e.id);
    forall j | 0 <= j < i
      ensures !IdMatches(NatToString(e.id.ms), stream[j].id)
    {
      MatchesMillis(e.id.ms, stream[j].id);
    }
    FirstMatchAt(stream, NatToString(e.id.ms), i);
    RecordId(e);
  }

  /** The finding at its plainest: once the worker has marked the order 5-0
      completed, GET /orders/5 as written still says pending, while the
      corrected endpoint says completed. */
  lemma IncompleteIdExample(order: OrderCreate, createdAt: string, processedAt: string)
    requires processedAt != ""
    ensures var stream := [Entry(StreamId(5, 0), EncodeOrder(order, createdAt))];
            var hashes := map[StatusKey("5-0") := map["status" := "completed", "processed_at" := processedAt]];
            && OrderViewAsWritten(stream, hashes, "5").Ok?
            && OrderViewAsWritten(stream, hashes, "5").body.status == Pending
            && OrderView(stream, hashes, "5").Ok?
            && OrderView(stream, hashes, "5").body.status == Completed
            && OrderView(stream, hashes, "5").body.processedAt == Some(processedAt)
  {
    var id := StreamId(5, 0);
    var stream := [Entry(id, EncodeOrder(order, createdAt))];
    var hashes := map[StatusKey("5-0") := map["status" := "completed", "processed_at" := processedAt]];
    RecordRoundTrip(id, order, createdAt);
    assert NatToString(5) == "5";
    assert IdToString(id) == "5-0";
    assert StatusKey("5") != StatusKey("5-0") by {
      assert |StatusKey("5")| != |StatusKey("5-0")|;
    }
    IncompleteIdShowsStoredStatus(stream, hashes, 0);
  }

  /** Every order GET /orders lists, GET /orders/{id} shows the same way when
      asked by its id. */
  lemma ListAgreesWithGet(stream: seq<Entry>, hashes: map<string, Fields>, limit: int, k: nat)
    requires Increasing(stream)
    requires ListView(stream, hashes, limit).Ok? && k < |ListView(stream, hashes, limit).body|
    ensures OrderView(stream, hashes, ListView(stream, hashes, limit).body[k].id)
         == Ok(ListView(stream, hashes, limit).body[k])
  {
    var orders := NewestOrders(stream, limit);
    var v := ListView(stream, hashes, limit).body[k];
    var o := orders[k];
    assert MergeStatus(o, HGetAll(hashes, StatusKey(o.id))) == Some(v);
    assert v.id == o.id;
    NewestFoundById(stream, limit, k);
    FoundOrderView(stream, hashes, o.id, o, v);
  }

  /** Each order GET /orders lists is what get_order finds under its id. */
  lemma NewestFoundById(stream: seq<Entry>, limit: int, k: nat)
    requires Increasing(stream) && k < |NewestOrders(stream, limit)|
    ensures FindOrder(stream, NewestOrders(stream, limit)[k].id) == Some(NewestOrders(stream, limit)[k])
  {
    // the two lemmas' conclusions meet by congruence alone; with the view
    // functions' definitions in scope the solver wanders instead
    hide *;
    NewestOrderAt(stream, limit, k);
    FoundByOwnId(stream, |stream| - 1 - k, NewestOrders(stream, limit)[k]);
  }

  /** A record read from an entry is what get_order finds under its id. */
  lemma FoundByOwnId(stream: seq<Entry>, i: nat, o: Order)
    requires Increasing(stream) && i < |stream| && RecordOf(stream[i]) == Some(o)
    ensures FindOrder(stream, o.id) == Some(o)
  {
    RecordId(stream[i]);
    FindOwnId(stream, i);
  }

  /** get_order asked by an entry's own id gives that entry's record. */
  lemma FindOwnId(stream: seq<Entry>, i: nat)
    requires Increasing(stream) && i < |stream|
    ensures FindOrder(stream, IdToString(stream[i].id)) == RecordOf(stream[i])
  {
    FirstMatchOwnId(stream, i);
  }

  /** An order found under its own id, whose hash merges, is shown merged. */
  lemma FoundOrderView(stream: seq<Entry>, hashes: map<string, Fields>, q: string, o: Order, v: Order)
    requires FindOrder(stream, q) == Some(o) && o.id == q
    requires MergeStatus(o, HGetAll(hashes, StatusKey(q))) == Some(v)
    ensures OrderView(stream, hashes, q) == Ok(v)
  {
  }

  /** An id that no entry has is answered with 404, by either version. */
  lemma UnknownIdNotFound(stream: seq<Entry>, hashes: map<string, Fields>, x: StreamId)
    requires forall i :: 0 <= i < |stream| ==> stream[i].id != x
    ensures OrderView(stream, hashes, IdToString(x)) == NotFound
    ensures OrderViewAsWritten(stream, hashes, IdToString(x)) == NotFound
  {
    forall i | 0 <= i < |stream|
      ensures !IdMatches(IdToString(x), stream[i].id)
    {
      MatchesOwnId(x, stream[i].id);
    }
  }

  /** Text that is not an id makes XRANGE fail; the client swallows the error
      and the endpoint answers 404. */
  lemma MalformedIdNotFound(stream: seq<Entry>, hashes: map<string, Fields>, orderId: string)
    requires IntervalStart(orderId).None? || IntervalEnd(orderId).None?
    ensures OrderView(stream, hashes, orderId) == NotFound
    ensures OrderViewAsWritten(stream, hashes, orderId) == NotFound
  {
  }

  /** With no status hash at all, GET /orders lists the records as stored. */
  lemma {:induction false} MergeAllWithoutStatuses(orders: seq<Order>)
    ensures MergeAll(orders, map[]) == Some(orders)
  {
    if orders != [] {
      MergeAllWithoutStatuses(orders[1..]);
      assert [orders[0]] + orders[1..] == orders;
    }
  }

  /** With no status hash at all and every entry readable, GET /orders lists
      the newest records as stored, newest first. */
  lemma ListWithoutStatuses(stream: seq<Entry>, records: seq<Order>, limit: int)
    requires |records| == |stream|
    requires forall k :: 0 <= k < |stream| ==> RecordOf(stream[k]) == Some(records[k])
    ensures ListView(stream, map[], limit).Ok?
    ensures |ListView(stream, map[], limit).body| == NewestCount(|stream|, limit)
    ensures forall k :: 0 <= k < NewestCount(|stream|, limit) ==>
              ListView(stream, map[], limit).body[k] == records[|stream| - 1 - k]
  {
    var newest := XRevRange(stream, limit);
    assert forall k :: 0 <= k < |newest| ==> RecordOf(newest[k]) == Some(records[|stream| - 1 - k]);
    MergeAllWithoutStatuses(NewestOrders(stream, limit));
  }

  /** A newly created order reads back as submitted, pending and unprocessed,
      until a status hash exists for it. */
  lemma CreatedOrderReadsBack(stream: seq<Entry>, hashes: map<string, Fields>, id: StreamId,
                              order: OrderCreate, createdAt: string)
    requires Increasing(stream + [Entry(id, EncodeOrder(order, createdAt))])
    requires StatusKey(IdToString(id)) !in hashes
    ensures OrderView(stream + [Entry(id, EncodeOrder(order, createdAt))], hashes, IdToString(id))
         == Ok(Order(IdToString(id), order.customerId, order.productId, order.quantity, order.price,
                     Pending, createdAt, None))
  {
    var s := stream + [Entry(id, EncodeOrder(order, createdAt))];
    FirstMatchOwnId(s, |stream|);
    RecordRoundTrip(id, order, createdAt);
  }

  /** After the worker's two writes for an order, the detail endpoint shows
      the order with the outcome's status and the processing time. */
  lemma ProcessedOrderView(stream: seq<Entry>, hashes: map<string, Fields>, i: nat,
                           success: bool, processedAt: string)
    requires Increasing(stream) && i < |stream| && RecordOf(stream[i]).Some?
    requires processedAt != ""
    ensures var key := StatusKey(IdToString(stream[i].id));
            var h := ApplyStatus(ApplyStatus(HGetAll(hashes, key), Processing, None),
                                 TerminalStatus(success), Some(processedAt));
            (OrderView(stream, hashes[key := h], IdToString(stream[i].id))
             == Ok(RecordOf(stream[i]).value.(status := TerminalStatus(success),
                                             processedAt := Some(processedAt))))
  {
    var key := StatusKey(IdToString(stream[i].id));
    var h := ApplyStatus(ApplyStatus(HGetAll(hashes, key), Processing, None),
                         TerminalStatus(success), Some(processedAt));
    FirstMatchOwnId(stream, i);
    RecordId(stream[i]);
    assert "status" in h;
    assert HGetAll(hashes[key := h], key) == h;
  }
}
