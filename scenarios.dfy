/** Walk-throughs of the service from a server holding nothing yet: each
    method runs one session against a fresh client and states what it sees. */
module Scenarios {
  import opened Wrappers
  import opened StreamIds
  import opened Models
  import opened RedisClient
  import opened Worker
  import opened Api

  /** A client connected to a server with no stream, no group and no hashes. */
  method FreshClient() returns (client: RedisStreamClient)
    ensures fresh(client) && client.Valid()
    ensures client.stream == [] && client.lastId == Zero && client.hashes == map[]
    ensures client.group == Group(Zero, map[], {})
  {
    client := new RedisStreamClient([], Zero, None, map[]);
  }

  /** The record a submitted order reads back as while no worker has seen it. */
  function PendingRecord(id: string, order: OrderCreate, createdAt: string): Order
  {
    Order(id, order.customerId, order.productId, order.quantity, order.price, Pending, createdAt, None)
  }

  /** An order submitted and looked up before any worker runs is pending and
      has no processing time. */
  method SubmitThenLookup(order: OrderCreate, nowMs: U64, createdAt: string)
    returns (id: string, r: Response<Order>)
    ensures id == IdToString(NextId(Zero, nowMs).value)
    ensures r == Ok(PendingRecord(id, order, createdAt))
  {
    var client := FreshClient();
    var created := CreateOrder(client, order, nowMs, createdAt);
    id := created.body;
    CreatedOrderReadsBack([], map[], client.lastId, order, createdAt);
    CanonicalIdsAgree(client.stream, client.hashes, 0);
    r := GetOrderAsWritten(client, id);
  }

  /** An order claimed by a worker and processed successfully is then looked
      up as completed, with the time the worker stamped. */
  method SubmitProcessLookup(order: OrderCreate, nowMs: U64, createdAt: string, claimAt: nat, processedAt: string)
    returns (id: string, r: Response<Order>)
    requires processedAt != ""
    ensures id == IdToString(NextId(Zero, nowMs).value)
    ensures r == Ok(PendingRecord(id, order, createdAt).(status := Completed, processedAt := Some(processedAt)))
  {
    var client := FreshClient();
    var created := CreateOrder(client, order, nowMs, createdAt);
    id := created.body;
    var e := Entry(client.lastId, EncodeOrder(order, createdAt));
    assert client.stream == [e];
    FirstClaimsSeeAll(client.stream);
    var worker := new OrderProcessor("worker-1", client);
    var messages := client.ReadPendingOrders(worker.workerId, 1, claimAt);
    assert messages == [e];
    var outcome := worker.ProcessOrder(IdToString(e.id), e.fields, false, true, processedAt);
    RecordRoundTrip(e.id, order, createdAt);
    ProcessedOrderView([e], map[], 0, true, processedAt);
    CanonicalIdsAgree(client.stream, client.hashes, 0);
    r := GetOrderAsWritten(client, id);
  }

  /** Two workers of the group claim one after the other while a single
      order waits: the first receives it, the second receives nothing. */
  method TwoWorkersOneOrder(order: OrderCreate, nowMs: U64, createdAt: string, now: nat)
    returns (first: seq<Entry>, second: seq<Entry>)
    ensures |first| == 1 && first[0].fields == EncodeOrder(order, createdAt)
    ensures second == []
  {
    var client := FreshClient();
    var created := CreateOrder(client, order, nowMs, createdAt);
    var e := Entry(client.lastId, EncodeOrder(order, createdAt));
    assert client.stream == [e];
    FirstClaimsSeeAll(client.stream);
    var w1 := new OrderProcessor("worker-1", client);
    var w2 := new OrderProcessor("worker-2", client);
    first := client.ReadPendingOrders(w1.workerId, 1, now);
    assert first == [e];
    FirstAboveAt(client.stream, 0);
    second := client.ReadPendingOrders(w2.workerId, 1, now);
  }

  /** Looking up an id that was never handed out answers 404. */
  method LookupUnknown(order: OrderCreate, nowMs: U64, createdAt: string, other: StreamId)
    returns (r: Response<Order>)
    requires other != NextId(Zero, nowMs).value
    ensures r == NotFound
  {
    var client := FreshClient();
    var created := CreateOrder(client, order, nowMs, createdAt);
    UnknownIdNotFound(client.stream, client.hashes, other);
    r := GetOrderAsWritten(client, IdToString(other));
  }

  /** The stream after the first `n` orders were submitted one per
      millisecond, starting at 1 ms. */
  function Submitted(orders: seq<OrderCreate>, createdAt: string, n: nat): (s: seq<Entry>)
    requires n <= |orders| < U64Max
    ensures |s| == n
  {
    if n == 0 then []
    else Submitted(orders, createdAt, n - 1) + [Entry(StreamId(n, 0), EncodeOrder(orders[n - 1], createdAt))]
  }

  /** The k-th submission is entry k of the stream, with id (k+1)-0. */
  lemma {:induction false} SubmittedAt(orders: seq<OrderCreate>, createdAt: string, n: nat, k: nat)
    requires k < n <= |orders| < U64Max
    ensures Submitted(orders, createdAt, n)[k] == Entry(StreamId(k + 1, 0), EncodeOrder(orders[k], createdAt))
  {
    if k < n - 1 {
      SubmittedAt(orders, createdAt, n - 1, k);
    }
  }

  /** The ids the first `n` submissions are given: (k+1)-0 for the k-th. */
  function SubmittedIds(n: nat): (ids: seq<string>)
    requires n < U64Max
    ensures |ids| == n && forall k :: 0 <= k < n ==> ids[k] == IdToString(StreamId(k + 1, 0))
  {
    if n == 0 then [] else SubmittedIds(n - 1) + [IdToString(StreamId(n, 0))]
  }

  /** Submits the orders one per millisecond, starting at 1 ms. */
  method SubmitAll(client: RedisStreamClient, orders: seq<OrderCreate>, createdAt: string)
    returns (ids: seq<string>)
    requires client.Valid() && client.stream == [] && client.lastId == Zero
    requires |orders| < U64Max
    modifies client
    ensures client.Valid() && client.hashes == old(client.hashes)
    ensures client.stream == Submitted(orders, createdAt, |orders|)
    ensures |ids| == |orders| && forall k :: 0 <= k < |orders| ==> ids[k] == IdToString(StreamId(k + 1, 0))
  {
    ids := [];
    var i := 0;
    while i < |orders|
      invariant 0 <= i <= |orders| && |ids| == i
      invariant client.Valid() && client.hashes == old(client.hashes)
      invariant client.stream == Submitted(orders, createdAt, i)
      invariant client.lastId == if i == 0 then Zero else StreamId(i, 0)
      invariant ids == SubmittedIds(i)
    {
      var id := SubmitNext(client, orders, createdAt, i);
      ids := ids + [id];
      i := i + 1;
    }
  }

  /** Submits order i at i+1 ms, after the first i have been submitted. */
  method SubmitNext(client: RedisStreamClient, orders: seq<OrderCreate>, createdAt: string, i: nat)
    returns (id: string)
    requires i < |orders| < U64Max
    requires client.Valid() && client.stream == Submitted(orders, createdAt, i)
    requires client.lastId == if i == 0 then Zero else StreamId(i, 0)
    modifies client
    ensures client.Valid() && client.hashes == old(client.hashes)
    ensures client.stream == Submitted(orders, createdAt, i + 1) && client.lastId == StreamId(i + 1, 0)
    ensures id == IdToString(StreamId(i + 1, 0))
  {
    assert NextId(client.lastId, i + 1) == Some(StreamId(i + 1, 0));
    var created := CreateOrder(client, orders[i], i + 1, createdAt);
    id := created.body;
  }

  /** Each submitted order reads back pending under the id it was given. */
  lemma SubmittedRecords(orders: seq<OrderCreate>, createdAt: string, ids: seq<string>)
    requires |orders| < U64Max && |ids| == |orders|
    requires forall k :: 0 <= k < |orders| ==> ids[k] == IdToString(StreamId(k + 1, 0))
    ensures forall k :: 0 <= k < |orders| ==>
              RecordOf(Submitted(orders, createdAt, |orders|)[k]) == Some(PendingRecord(ids[k], orders[k], createdAt))
  {
    forall k | 0 <= k < |orders|
      ensures RecordOf(Submitted(orders, createdAt, |orders|)[k]) == Some(PendingRecord(ids[k], orders[k], createdAt))
    {
      SubmittedAt(orders, createdAt, |orders|, k);
      RecordRoundTrip(StreamId(k + 1, 0), orders[k], createdAt);
    }
  }

  /** What GET /orders shows of a stream of orders no worker has touched. */
  lemma ListPending(s: seq<Entry>, orders: seq<OrderCreate>, createdAt: string, ids: seq<string>, limit: nat)
    requires |s| == |orders| && |ids| == |orders|
    requires forall k :: 0 <= k < |s| ==> RecordOf(s[k]) == Some(PendingRecord(ids[k], orders[k], createdAt))
    ensures var r := ListView(s, map[], limit);
            && r.Ok? && |r.body| == Min(limit, |orders|)
            && forall k :: 0 <= k < |r.body| ==>
                 r.body[k] == PendingRecord(ids[|orders| - 1 - k], orders[|orders| - 1 - k], createdAt)
  {
    var records := seq(|orders|, k requires 0 <= k < |orders| => PendingRecord(ids[k], orders[k], createdAt));
    ListWithoutStatuses(s, records, limit);
    var body := ListView(s, map[], limit).body;
    forall k | 0 <= k < |body|
      ensures body[k] == PendingRecord(ids[|orders| - 1 - k], orders[|orders| - 1 - k], createdAt)
    {
      assert body[k] == records[|orders| - 1 - k];
    }
  }

  /** Orders submitted one after another and then listed with a limit: the
      list holds the `limit` newest, newest first, each pending. */
  method SubmitManyThenList(orders: seq<OrderCreate>, createdAt: string, limit: nat)
    returns (ids: seq<string>, r: Response<seq<Order>>)
    requires |orders| < U64Max
    ensures |ids| == |orders|
    ensures r.Ok? && |r.body| == Min(limit, |orders|)
    ensures forall k :: 0 <= k < |r.body| ==>
              r.body[k] == PendingRecord(ids[|orders| - 1 - k], orders[|orders| - 1 - k], createdAt)
  {
    var client := FreshClient();
    ids := SubmitAll(client, orders, createdAt);
    SubmittedRecords(orders, createdAt, ids);
    ListPending(client.stream, orders, createdAt, ids, limit);
    r := ListOrders(client, limit);
  }
}
