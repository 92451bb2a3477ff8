/** The order queue's store: the "orders:stream" stream, its consumer group
    "order_processors" and the per-order status hashes "order:status:<id>",
    with the client operations that redis_client.py runs against them. */
module RedisClient {
  import opened Wrappers
  import opened Decimal
  import opened StreamIds
  import opened Models

  /** Key of the order stream. */
  const OrdersStream := "orders:stream"
  /** Id the consumer group is created at, so that it reads from the start. */
  const GroupStart := "0"
  /** Prefix of the status hash keys; SCAN matches it as "order:status:*". */
  const StatusPrefix := "order:status:"

  type Fields = map<string, string>

  /** A stream entry: its id and its field/value pairs. */
  datatype Entry = Entry(id: StreamId, fields: Fields)

  /** An entry delivered to a consumer and not yet acknowledged. */
  datatype PendingEntry = PendingEntry(consumer: string, deliveredAt: nat)

  /** A consumer group: the id of the last entry it delivered, its pending
      entries and the consumers it has seen. */
  datatype Group = Group(lastDelivered: StreamId, pending: map<StreamId, PendingEntry>, consumers: set<string>)

  /** The write commands a client sends, in the order it sends them. */
  datatype Command =
    | XAdd(id: StreamId)
    | XReadGroup(consumer: string, ids: seq<StreamId>)
    | XAck(id: StreamId)
    | HSet(key: string, update: Fields)
    | Del(key: string)

  predicate Increasing(s: seq<Entry>)
  {
    forall i, j :: 0 <= i < j < |s| ==> Below(s[i].id, s[j].id)
  }

  /** What Redis guarantees of its state: stream ids increase, are above 0-0
      and not above the stream's last id, and no hash is empty. */
  ghost predicate WellFormed(stream: seq<Entry>, lastId: StreamId, hashes: map<string, Fields>)
  {
    && Increasing(stream)
    && (forall i :: 0 <= i < |stream| ==> Below(Zero, stream[i].id) && AtMost(stream[i].id, lastId))
    && (forall k :: k in hashes ==> hashes[k] != map[])
  }

  function Ids(s: seq<Entry>): (r: seq<StreamId>)
    ensures |r| == |s| && forall i :: 0 <= i < |s| ==> r[i] == s[i].id
  {
    seq(|s|, i requires 0 <= i < |s| => s[i].id)
  }

  /** The key of a message's status hash: the prefix, then the message id,
      which can be read back from the key. */
  function StatusKey(messageId: string): (k: string)
    ensures |k| == |StatusPrefix| + |messageId|
    ensures k[..|StatusPrefix|] == StatusPrefix && k[|StatusPrefix|..] == messageId
  {
    StatusPrefix + messageId
  }

  /** HGETALL: the fields of a hash, empty when the key does not exist. */
  function HGetAll(hashes: map<string, Fields>, key: string): (h: Fields)
    ensures forall f :: f in h <==> key in hashes && f in hashes[key]
    ensures forall f :: f in h ==> h[f] == hashes[key][f]
  {
    if key in hashes then hashes[key] else map[]
  }

  /** No status key is the stream's key, so HSET never meets the stream. */
  lemma StatusKeysAvoidStream(messageId: string)
    ensures StatusKey(messageId) != OrdersStream
  {
    assert StatusKey(messageId)[5] == ':' && OrdersStream[5] == 's';
  }

  // ----- The order record -----------------------------------------------

  /** The fields add_order writes for a new order. */
  function EncodeOrder(o: OrderCreate, createdAt: string): (u: Fields)
    ensures u.Keys == {"customer_id", "product_id", "quantity", "price", "status", "created_at"}
    ensures && u["customer_id"] == o.customerId && u["product_id"] == o.productId
            && u["price"] == o.price && u["created_at"] == createdAt
    ensures u["quantity"] == IntToString(o.quantity)
    ensures ParseStatus(u["status"]) == Some(Pending)
  {
    StatusRoundTrip(Pending);
    map[
      "customer_id" := o.customerId,
      "product_id" := o.productId,
      "quantity" := IntToString(o.quantity),
      "price" := o.price,
      "status" := Pending.Value(),
      "created_at" := createdAt]
  }

  /** The Order that get_order and get_orders build from an entry; None when
      a field is missing or does not convert (the KeyError or ValueError the
      source catches). */
  function RecordOf(e: Entry): (r: Option<Order>)
    ensures var f := e.fields;
            r.Some? <==>
              && "customer_id" in f && "product_id" in f && "quantity" in f && "price" in f
              && "status" in f && "created_at" in f
              && ParseInt(f["quantity"]).Some? && ParseStatus(f["status"]).Some?
    ensures var f := e.fields;
            r.Some? ==>
              && r.value.id == IdToString(e.id)
              && r.value.customerId == f["customer_id"] && r.value.productId == f["product_id"]
              && ParseInt(f["quantity"]) == Some(r.value.quantity) && r.value.price == f["price"]
              && ParseStatus(f["status"]) == Some(r.value.status) && r.value.createdAt == f["created_at"]
              && (r.value.processedAt.Some? <==> "processed_at" in f)
              && (r.value.processedAt.Some? ==> r.value.processedAt.value == f["processed_at"])
  {
    var f := e.fields;
    if "customer_id" in f && "product_id" in f && "quantity" in f && "price" in f
       && "status" in f && "created_at" in f
    then
      match (ParseInt(f["quantity"]), ParseStatus(f["status"]))
      case (Some(q), Some(st)) =>
        Some(Order(IdToString(e.id), f["customer_id"], f["product_id"], q, f["price"], st,
                   f["created_at"], if "processed_at" in f then Some(f["processed_at"]) else None))
      case _ => None
    else
      None
  }

  /** The records of a run of entries, or None when any one is unreadable. */
  function RecordsOf(es: seq<Entry>): (r: Option<seq<Order>>)
    ensures r.Some? ==> |r.value| == |es| && forall k :: 0 <= k < |es| ==> RecordOf(es[k]) == Some(r.value[k])
    ensures r.None? <==> exists k :: 0 <= k < |es| && RecordOf(es[k]).None?
  {
    if es == [] then Some([])
    else
      match (RecordOf(es[0]), RecordsOf(es[1..]))
      case (Some(o), Some(os)) => Some([o] + os)
      case (None, _) => None
      case (Some(_), None) =>
        var k :| 0 <= k < |es| - 1 && RecordOf(es[1..][k]).None?;
        assert RecordOf(es[k + 1]).None?;
        None
  }

  /** What get_orders answers: the newest `limit` records, newest first, or
      nothing at all when one of them is unreadable. */
  function NewestOrders(s: seq<Entry>, limit: int): (r: seq<Order>)
    ensures (exists k :: 0 <= k < NewestCount(|s|, limit) && RecordOf(NewestEntry(s, k)).None?) ==> r == []
    ensures (forall k :: 0 <= k < NewestCount(|s|, limit) ==> RecordOf(NewestEntry(s, k)).Some?) ==>
              && |r| == NewestCount(|s|, limit)
              && forall k :: 0 <= k < |r| ==> RecordOf(NewestEntry(s, k)) == Some(r[k])
  {
    match RecordsOf(XRevRange(s, limit))
    case None => []
    case Some(os) => os
  }

  /** The k-th order get_orders lists is the record of the k-th newest entry. */
  lemma NewestOrderAt(s: seq<Entry>, limit: int, k: nat)
    requires k < |NewestOrders(s, limit)|
    ensures k < |s| && RecordOf(s[|s| - 1 - k]) == Some(NewestOrders(s, limit)[k])
  {
    assert RecordOf(NewestEntry(s, k)) == Some(NewestOrders(s, limit)[k]);
  }

  /** An entry written by add_order reads back as the submitted order, with
      status pending and no processing time. */
  lemma RecordRoundTrip(id: StreamId, o: OrderCreate, createdAt: string)
    ensures RecordOf(Entry(id, EncodeOrder(o, createdAt)))
         == Some(Order(IdToString(id), o.customerId, o.productId, o.quantity, o.price, Pending, createdAt, None))
  {
    IntToStringRoundTrip(o.quantity);
  }

  // ----- Reading ranges ---------------------------------------------------

  /** XRANGE key lo hi: the entries with lo <= id <= hi, in stream order. */
  function XRange(s: seq<Entry>, lo: StreamId, hi: StreamId): (r: seq<Entry>)
    ensures |r| <= |s|
    ensures forall e :: e in r <==> e in s && Within(lo, e.id, hi)
    ensures Increasing(s) ==> Increasing(r)
  {
    if s == [] then []
    else if Within(lo, s[0].id, hi) then [s[0]] + XRange(s[1..], lo, hi)
    else XRange(s[1..], lo, hi)
  }

  lemma {:induction false} XRangeEmpty(s: seq<Entry>, lo: StreamId, hi: StreamId)
    ensures XRange(s, lo, hi) == [] <==> forall i :: 0 <= i < |s| ==> !Within(lo, s[i].id, hi)
  {
    if s != [] {
      XRangeEmpty(s[1..], lo, hi);
      assert forall i :: 1 <= i < |s| ==> s[i] == s[1..][i - 1];
    }
  }

  /** The first entry of a non-empty XRANGE reply is the first entry in range. */
  lemma {:induction false} XRangeHead(s: seq<Entry>, lo: StreamId, hi: StreamId) returns (i: nat)
    requires XRange(s, lo, hi) != []
    ensures i < |s| && XRange(s, lo, hi)[0] == s[i] && Within(lo, s[i].id, hi)
    ensures forall j :: 0 <= j < i ==> !Within(lo, s[j].id, hi)
  {
    if Within(lo, s[0].id, hi) {
      i := 0;
    } else {
      var k := XRangeHead(s[1..], lo, hi);
      i := k + 1;
      assert forall j :: 1 <= j < i ==> s[j] == s[1..][j - 1];
    }
  }

  /** The entry k places before the newest one. */
  function NewestEntry(s: seq<Entry>, k: nat): Entry
    requires k < |s|
  {
    s[|s| - 1 - k]
  }

  function NewestCount(n: nat, count: int): nat
  {
    if count <= 0 then 0 else Min(count, n)
  }

  /** XREVRANGE key + - COUNT count: the newest entries, newest first; a COUNT
      of zero or less gives no entries. */
  function XRevRange(s: seq<Entry>, count: int): (r: seq<Entry>)
    ensures |r| == NewestCount(|s|, count)
    ensures forall k :: 0 <= k < |r| ==> r[k] == NewestEntry(s, k)
  {
    seq(NewestCount(|s|, count), k requires 0 <= k < NewestCount(|s|, count) => s[|s| - 1 - k])
  }

  // ----- Consumer-group delivery -----------------------------------------

  /** The entries a group whose cursor is `cursor` has never delivered: those
      with a greater id, in stream order. */
  function Undelivered(s: seq<Entry>, cursor: StreamId): (r: seq<Entry>)
    ensures |r| <= |s|
    ensures forall e :: e in r <==> e in s && Below(cursor, e.id)
  {
    if s == [] then []
    else
      assert s == [s[0]] + s[1..];
      if Below(cursor, s[0].id) then [s[0]] + Undelivered(s[1..], cursor)
    else Undelivered(s[1..], cursor)
  }

  /** The position of the first entry above `cursor` (|s| if there is none). */
  function FirstAbove(s: seq<Entry>, cursor: StreamId): (r: nat)
    ensures r <= |s|
    ensures forall i :: 0 <= i < r ==> !Below(cursor, s[i].id)
    ensures r < |s| ==> Below(cursor, s[r].id)
  {
    if s == [] then 0
    else if Below(cursor, s[0].id) then 0
    else 1 + FirstAbove(s[1..], cursor)
  }

  /** In an id-ordered stream the undelivered entries are the suffix that
      starts at the first entry above the cursor: none is skipped. */
  lemma {:induction false} UndeliveredSuffix(s: seq<Entry>, cursor: StreamId)
    requires Increasing(s)
    ensures Undelivered(s, cursor) == s[FirstAbove(s, cursor)..]
  {
    if s != [] {
      UndeliveredSuffix(s[1..], cursor);
      if Below(cursor, s[0].id) {
        assert |s| > 1 ==> Below(cursor, s[1..][0].id);
        assert FirstAbove(s[1..], cursor) == 0;
      }
    }
  }

  /** The position of the first entry that XRANGE with `query` as both
      bounds returns; None when the query matches no entry. */
  function FirstMatch(s: seq<Entry>, query: string): (r: Option<nat>)
    ensures r.Some? ==> && r.value < |s| && IdMatches(query, s[r.value].id)
                        && forall j :: 0 <= j < r.value ==> !IdMatches(query, s[j].id)
    ensures r.None? ==> forall i :: 0 <= i < |s| ==> !IdMatches(query, s[i].id)
  {
    if s == [] then None
    else if IdMatches(query, s[0].id) then Some(0)
    else
      match FirstMatch(s[1..], query)
      case None => None
      case Some(i) => Some(i + 1)
  }

  /** What get_order reads for `query`: the record of the first matching entry. */
  function FindOrder(s: seq<Entry>, query: string): (r: Option<Order>)
    ensures (forall i :: 0 <= i < |s| ==> !IdMatches(query, s[i].id)) ==> r.None?
    ensures forall i :: (0 <= i < |s| && IdMatches(query, s[i].id)
                         && forall j :: 0 <= j < i ==> !IdMatches(query, s[j].id)) ==> r == RecordOf(s[i])
  {
    FirstMatchIsFirst(s, query);
    match FirstMatch(s, query)
    case None => None
    case Some(i) => RecordOf(s[i])
  }

  /** Every matching entry with no match before it is where FirstMatch points. */
  lemma FirstMatchIsFirst(s: seq<Entry>, query: string)
    ensures forall i :: (0 <= i < |s| && IdMatches(query, s[i].id)
                         && forall j :: 0 <= j < i ==> !IdMatches(query, s[j].id)) ==> FirstMatch(s, query) == Some(i)
  {
    forall i | 0 <= i < |s| && IdMatches(query, s[i].id) && forall j :: 0 <= j < i ==> !IdMatches(query, s[j].id)
      ensures FirstMatch(s, query) == Some(i)
    {
      FirstMatchAt(s, query, i);
    }
  }

  /** A matching entry with no match before it is the first match. */
  lemma FirstMatchAt(s: seq<Entry>, query: string, k: nat)
    requires k < |s| && IdMatches(query, s[k].id)
    requires forall j :: 0 <= j < k ==> !IdMatches(query, s[j].id)
    ensures FirstMatch(s, query) == Some(k)
  {
  }

  /** The written form of a stream entry's id finds exactly that entry. */
  lemma FirstMatchOwnId(s: seq<Entry>, i: nat)
    requires Increasing(s) && i < |s|
    ensures FirstMatch(s, IdToString(s[i].id)) == Some(i)
  {
    MatchesOwnId(s[i].id, s[i].id);
    forall j | 0 <= j < i
      ensures !IdMatches(IdToString(s[i].id), s[j].id)
    {
      MatchesOwnId(s[i].id, s[j].id);
    }
    FirstMatchAt(s, IdToString(s[i].id), i);
  }

  /** The entry positions above a cursor taken from the stream itself. */
  lemma FirstAboveAt(s: seq<Entry>, k: nat)
    requires Increasing(s) && k < |s|
    ensures FirstAbove(s, s[k].id) == k + 1
  {
  }

  /** What XREADGROUP ... COUNT count STREAMS key > hands out: at most
      `count` of the undelivered entries, oldest first; nothing when the
      client library refuses a count below 1. */
  function Claimable(s: seq<Entry>, cursor: StreamId, count: int): (r: seq<Entry>)
    ensures |r| <= NewestCount(|s|, count)
    ensures forall e :: e in r ==> e in s && Below(cursor, e.id)
    ensures Increasing(s) ==> r == Window(s, FirstAbove(s, cursor), count)
  {
    var u := Undelivered(s, cursor);
    var r := u[..NewestCount(|u|, count)];
    PrefixMembers(u, NewestCount(|u|, count));
    if Increasing(s) then
      UndeliveredSuffix(s, cursor);
      DropTake(s, FirstAbove(s, cursor), NewestCount(|u|, count));
      r
    else r
  }

  lemma PrefixMembers<T>(s: seq<T>, k: nat)
    requires k <= |s|
    ensures forall e :: e in s[..k] ==> e in s
  {
    forall e | e in s[..k]
      ensures e in s
    {
      var i :| 0 <= i < k && s[..k][i] == e;
      assert s[i] == e;
    }
  }

  lemma DropTake<T>(s: seq<T>, m: nat, k: nat)
    requires m + k <= |s|
    ensures s[m..][..k] == s[m..m + k]
  {
  }


  /** The group's cursor after it delivered `r`. */
  function CursorAfter(cursor: StreamId, r: seq<Entry>): StreamId
  {
    if r == [] then cursor else r[|r| - 1].id
  }

  /** The group after XREADGROUP delivered `messages` to `consumer` at `now`. */
  function ClaimedGroup(g: Group, consumer: string, messages: seq<Entry>, now: nat): (r: Group)
    ensures messages == [] ==> r.lastDelivered == g.lastDelivered
    ensures messages != [] ==> r.lastDelivered == messages[|messages| - 1].id
    ensures forall id :: id in r.pending <==> id in g.pending || id in Ids(messages)
    ensures forall id :: id in Ids(messages) ==> r.pending[id] == PendingEntry(consumer, now)
    ensures forall id :: id in g.pending && id !in Ids(messages) ==> r.pending[id] == g.pending[id]
    ensures r.consumers == g.consumers + {consumer}
  {
    Group(
      CursorAfter(g.lastDelivered, messages),
      g.pending + (map id | id in Ids(messages) :: PendingEntry(consumer, now)),
      g.consumers + {consumer})
  }

  /** A group created at "0" delivers every entry of the stream. */
  lemma FirstClaimsSeeAll(s: seq<Entry>)
    requires Increasing(s) && forall i :: 0 <= i < |s| ==> Below(Zero, s[i].id)
    ensures FirstAbove(s, Zero) == 0 && Undelivered(s, Zero) == s
  {
    UndeliveredSuffix(s, Zero);
  }

  /** Claiming n1 entries and then n2 more hands out exactly what one claim
      of n1 + n2 would: the second claim starts right after the first, so no
      entry is delivered twice and none is skipped. */
  lemma ClaimsCompose(s: seq<Entry>, cursor: StreamId, n1: nat, n2: nat)
    requires Increasing(s) && n1 >= 1 && n2 >= 1
    ensures var r1 := Claimable(s, cursor, n1);
            r1 + Claimable(s, CursorAfter(cursor, r1), n2) == Claimable(s, cursor, n1 + n2)
  {
    var m := FirstAbove(s, cursor);
    var r1 := Claimable(s, cursor, n1);
    var c := CursorAfter(cursor, r1);
    var r2 := Claimable(s, c, n2);
    ClaimableWindow(s, cursor, n1);
    ClaimableWindow(s, cursor, n1 + n2);
    NextClaimStart(s, cursor, n1);
    ClaimableWindow(s, c, n2);
    WindowsJoin(s, m, n1, n2);
    var w1 := Window(s, m, n1);
    assert r1 == w1;
    assert r2 == Window(s, m + |w1|, n2);
    assert r1 + r2 == w1 + Window(s, m + |w1|, n2);
  }

  lemma ClaimableWindow(s: seq<Entry>, cursor: StreamId, count: int)
    requires Increasing(s)
    ensures Claimable(s, cursor, count) == Window(s, FirstAbove(s, cursor), count)
  {
  }

  /** After a claim the next one starts right behind it. */
  lemma NextClaimStart(s: seq<Entry>, cursor: StreamId, count: int)
    requires Increasing(s)
    ensures var r := Claimable(s, cursor, count);
            FirstAbove(s, CursorAfter(cursor, r)) == FirstAbove(s, cursor) + |r|
  {
    ClaimableWindow(s, cursor, count);
    WindowCursor(s, cursor, count);
  }

  /** The cursor after delivering a window of the entries above it stops
      right behind that window. */
  lemma WindowCursor(s: seq<Entry>, cursor: StreamId, count: int)
    requires Increasing(s)
    ensures var m := FirstAbove(s, cursor);
            var w := Window(s, m, count);
            FirstAbove(s, CursorAfter(cursor, w)) == m + |w|
  {
    var m := FirstAbove(s, cursor);
    var w := Window(s, m, count);
    if w != [] {
      WindowAt(s, m, count, |w| - 1);
      FirstAboveAt(s, m + |w| - 1);
    }
  }

  /** The `count` oldest entries from position m on. */
  function Window<T>(s: seq<T>, m: nat, count: int): seq<T>
    requires m <= |s|
  {
    s[m..m + NewestCount(|s| - m, count)]
  }

  lemma WindowAt<T>(s: seq<T>, m: nat, count: int, k: nat)
    requires m <= |s| && k < |Window(s, m, count)|
    ensures m + k < |s| && Window(s, m, count)[k] == s[m + k]
  {
  }

  lemma WindowsJoin<T>(s: seq<T>, m: nat, n1: nat, n2: nat)
    requires m <= |s| && n1 >= 1 && n2 >= 1
    ensures var w1 := Window(s, m, n1);
            m + |w1| <= |s| && w1 + Window(s, m + |w1|, n2) == Window(s, m, n1 + n2)
  {
    var w1 := Window(s, m, n1);
    var m2 := m + |w1|;
    var k := m + NewestCount(|s| - m, n1 + n2);
    assert m2 + NewestCount(|s| - m2, n2) == k;
    assert s[m..m2] + s[m2..k] == s[m..k];
  }

  /** Two successive claims never hand out the same entry. */
  lemma ClaimsDisjoint(s: seq<Entry>, cursor: StreamId, n1: int, n2: int)
    requires Increasing(s)
    ensures var r1 := Claimable(s, cursor, n1);
            var r2 := Claimable(s, CursorAfter(cursor, r1), n2);
            forall i, j :: 0 <= i < |r1| && 0 <= j < |r2| ==> Below(r1[i].id, r2[j].id)
  {
    var r1 := Claimable(s, cursor, n1);
    var c := CursorAfter(cursor, r1);
    var r2 := Claimable(s, c, n2);
    ClaimedUpToCursor(s, cursor, n1);
    forall i, j | 0 <= i < |r1| && 0 <= j < |r2|
      ensures Below(r1[i].id, r2[j].id)
    {
      assert r2[j] in r2;
    }
  }

  /** A claim hands out entries in stream order. */
  lemma ClaimableIncreasing(s: seq<Entry>, cursor: StreamId, count: int)
    requires Increasing(s)
    ensures Increasing(Claimable(s, cursor, count))
  {
    var m := FirstAbove(s, cursor);
    var r := Claimable(s, cursor, count);
    ClaimableWindow(s, cursor, count);
    forall i, j | 0 <= i < j < |r|
      ensures Below(r[i].id, r[j].id)
    {
      WindowAt(s, m, count, i);
      WindowAt(s, m, count, j);
    }
  }

  /** Every claimed entry is at or below the cursor the claim leaves. */
  lemma ClaimedUpToCursor(s: seq<Entry>, cursor: StreamId, count: int)
    requires Increasing(s)
    ensures var r := Claimable(s, cursor, count);
            forall i :: 0 <= i < |r| ==> AtMost(r[i].id, CursorAfter(cursor, r))
  {
    var r := Claimable(s, cursor, count);
    ClaimableWindow(s, cursor, count);
    if r != [] {
      var m := FirstAbove(s, cursor);
      WindowAt(s, m, count, |r| - 1);
      forall i | 0 <= i < |r|
        ensures AtMost(r[i].id, r[|r| - 1].id)
      {
        WindowAt(s, m, count, i);
      }
    }
  }

  // ----- Status hashes ----------------------------------------------------

  /** The fields update_order_status writes: always the status, and the
      processing time only when a non-empty one is given. */
  function StatusUpdate(status: OrderStatus, processedAt: Option<string>): (u: Fields)
    ensures "status" in u && ParseStatus(u["status"]) == Some(status)
    ensures "processed_at" in u <==> processedAt.Some? && processedAt.value != ""
    ensures "processed_at" in u ==> u["processed_at"] == processedAt.value
    ensures u.Keys <= {"status", "processed_at"}
  {
    StatusRoundTrip(status);
    if processedAt.Some? && processedAt.value != "" then
      map["status" := status.Value(), "processed_at" := processedAt.value]
    else
      map["status" := status.Value()]
  }

  /** A status hash after HSET wrote StatusUpdate(status, processedAt) into it:
      the status is replaced, processed_at is replaced only when given, and
      every other field is kept. */
  function ApplyStatus(h: Fields, status: OrderStatus, processedAt: Option<string>): (h': Fields)
    ensures h'.Keys == h.Keys + StatusUpdate(status, processedAt).Keys
    ensures ParseStatus(h'["status"]) == Some(status)
    ensures processedAt.Some? && processedAt.value != "" ==> h'["processed_at"] == processedAt.value
    ensures !(processedAt.Some? && processedAt.value != "") ==>
              ("processed_at" in h' <==> "processed_at" in h)
              && ("processed_at" in h ==> h'["processed_at"] == h["processed_at"])
    ensures forall f :: f in h && f != "status" && f != "processed_at" ==> h'[f] == h[f]
  {
    h + StatusUpdate(status, processedAt)
  }

  /** Python's s.replace(pat, ""): each occurrence of `pat`, scanning left to
      right, is dropped. */
  function RemoveAll(s: string, pat: string): (r: string)
    requires |pat| > 0
    ensures |r| <= |s|
    ensures pat <= s ==> |r| <= |s| - |pat|
    decreases |s|
  {
    if s == [] then []
    else if pat <= s then RemoveAll(s[|pat|..], pat)
    else [s[0]] + RemoveAll(s[1..], pat)
  }

  predicate Occurs(pat: string, s: string)
  {
    exists i :: 0 <= i <= |s| && pat <= s[i..]
  }

  /** The message id get_all_order_statuses reads off a status key. */
  function StripStatusPrefix(key: string): (id: string)
    ensures |id| <= |key|
    ensures StatusPrefix <= key ==> |id| <= |key| - |StatusPrefix|
  {
    RemoveAll(key, StatusPrefix)
  }

  lemma {:induction false} RemoveAllAbsent(s: string, pat: string)
    requires |pat| > 0 && !Occurs(pat, s)
    ensures RemoveAll(s, pat) == s
  {
    if s != [] {
      assert s[0..] == s;
      assert !Occurs(pat, s[1..]) by {
        forall i | 0 <= i <= |s[1..]|
          ensures !(pat <= s[1..][i..])
        {
          assert s[1..][i..] == s[i + 1..];
        }
      }
      RemoveAllAbsent(s[1..], pat);
    }
  }

  /** Any occurrence of the pattern makes replace drop something: together
      with RemoveAllAbsent, the text comes back unchanged exactly when the
      pattern does not occur in it. */
  lemma {:induction false} RemoveAllShrinks(s: string, pat: string)
    requires |pat| > 0 && Occurs(pat, s)
    ensures |RemoveAll(s, pat)| < |s|
    decreases |s|
  {
    if !(pat <= s) {
      var i :| 0 <= i <= |s| && pat <= s[i..];
      assert s[0..] == s;
      assert s[1..][i - 1..] == s[i..];
      RemoveAllShrinks(s[1..], pat);
    }
  }

  /** Stripping recovers a message id that does not itself contain the prefix. */
  lemma StatusKeyStrips(messageId: string)
    requires !Occurs(StatusPrefix, messageId)
    ensures StripStatusPrefix(StatusKey(messageId)) == messageId
  {
    var k := StatusKey(messageId);
    assert StatusPrefix <= k;
    assert k[|StatusPrefix|..] == messageId;
    RemoveAllAbsent(messageId, StatusPrefix);
  }

  /** Because every occurrence is removed, the key of an id that contains the
      prefix strips to the same id as a shorter key. */
  lemma NestedKeyCollides(messageId: string)
    ensures StripStatusPrefix(StatusKey(StatusKey(messageId))) == StripStatusPrefix(StatusKey(messageId))
  {
    var k := StatusKey(StatusKey(messageId));
    assert StatusPrefix <= k;
    assert k[|StatusPrefix|..] == StatusKey(messageId);
  }

  /** Only `StatusKey(messageId)` strips to `messageId` among the status keys. */
  ghost predicate Unambiguous(hashes: map<string, Fields>, messageId: string)
  {
    forall k :: k in hashes && StatusPrefix <= k && StripStatusPrefix(k) == messageId ==> k == StatusKey(messageId)
  }

  // ----- The client -------------------------------------------------------

  class RedisStreamClient {
    /** The entries of "orders:stream", oldest first. */
    var stream: seq<Entry>
    /** The id the stream generated last (0-0 while it has none). */
    var lastId: StreamId
    /** The consumer group "order_processors". */
    var group: Group
    /** The hash keys of the database with their fields. */
    var hashes: map<string, Fields>
    /** The write commands sent so far, oldest first. */
    ghost var log: seq<Command>

    ghost predicate Valid()
      reads this
    {
      WellFormed(stream, lastId, hashes)
    }

    /** Connects to a server holding the given state and creates the group
        at "0" with MKSTREAM; an existing group makes XGROUP CREATE fail with
        BUSYGROUP, which is ignored. */
    constructor (stream0: seq<Entry>, lastId0: StreamId, group0: Option<Group>, hashes0: map<string, Fields>)
      requires WellFormed(stream0, lastId0, hashes0)
      ensures Valid()
      ensures stream == stream0 && lastId == lastId0 && hashes == hashes0 && log == []
      ensures group == if group0.Some? then group0.value else Group(Zero, map[], {})
    {
      stream, lastId, hashes, log := stream0, lastId0, hashes0, [];
      GroupStartIsZero();
      var start := StrictId(GroupStart);
      if group0.Some? {
        group := group0.value;
      } else {
        group := Group(start.value, map[], {});
      }
    }

    /** add_order: XADD with '*'; None stands for the error Redis raises once
        the stream has used the last possible id. */
    method AddOrder(order: OrderCreate, nowMs: U64, createdAt: string) returns (r: Option<string>)
      requires Valid()
      modifies this
      ensures Valid()
      ensures group == old(group) && hashes == old(hashes)
      ensures match NextId(old(lastId), nowMs)
        case None => r.None? && stream == old(stream) && lastId == old(lastId) && log == old(log)
        case Some(id) =>
          && r == Some(IdToString(id))
          && stream == old(stream) + [Entry(id, EncodeOrder(order, createdAt))]
          && lastId == id
          && log == old(log) + [XAdd(id)]
    {
      var id := NextId(lastId, nowMs);
      if id.None? {
        return None;
      }
      stream := stream + [Entry(id.value, EncodeOrder(order, createdAt))];
      lastId := id.value;
      log := log + [XAdd(id.value)];
      r := Some(IdToString(id.value));
    }

    /** get_order: XRANGE with `orderId` as both bounds, the first entry
        converted; None for a malformed id, no entry, or fields that do not
        convert. */
    method GetOrder(orderId: string) returns (r: Option<Order>)
      requires Valid()
      ensures r == FindOrder(stream, orderId)
      ensures forall i :: 0 <= i < |stream| && orderId == IdToString(stream[i].id) ==> r == RecordOf(stream[i])
    {
      forall i | 0 <= i < |stream| && orderId == IdToString(stream[i].id)
        ensures FindOrder(stream, orderId) == RecordOf(stream[i])
      {
        FirstMatchOwnId(stream, i);
      }
      var lo, hi := IntervalStart(orderId), IntervalEnd(orderId);
      if lo.None? || hi.None? {
        return None;
      }
      var result := XRange(stream, lo.value, hi.value);
      XRangeEmpty(stream, lo.value, hi.value);
      if result == [] {
        return None;
      }
      var k := XRangeHead(stream, lo.value, hi.value);
      r := RecordOf(result[0]);
      FirstMatchAt(stream, orderId, k);
    }

    /** get_orders: XREVRANGE with COUNT limit, each entry converted in turn;
        any entry that does not convert turns the whole answer into []. */
    method GetOrders(limit: int) returns (orders: seq<Order>)
      requires Valid()
      ensures |orders| <= NewestCount(|stream|, limit)
      ensures orders != [] ==> |orders| == NewestCount(|stream|, limit)
      ensures forall k :: 0 <= k < |orders| ==> RecordOf(NewestEntry(stream, k)) == Some(orders[k])
      ensures |orders| == NewestCount(|stream|, limit)
              <==> forall k :: 0 <= k < NewestCount(|stream|, limit) ==> RecordOf(NewestEntry(stream, k)).Some?
      ensures orders == NewestOrders(stream, limit)
    {
      var result := XRevRange(stream, limit);
      orders := [];
      var i := 0;
      while i < |result|
        invariant 0 <= i <= |result| && |orders| == i
        invariant forall k :: 0 <= k < i ==> RecordOf(result[k]) == Some(orders[k])
      {
        var o := RecordOf(result[i]);
        if o.None? {
          assert RecordOf(NewestEntry(stream, i)).None?;
          return [];
        }
        orders := orders + [o.value];
        i := i + 1;
      }
    }

    /** read_pending_orders: XREADGROUP GROUP order_processors `consumer`
        COUNT `count` STREAMS orders:stream >. A count below 1 is refused by
        the client library before anything is sent, and that error is caught.
        `now` is the server clock, recorded as the delivery time. */
    method ReadPendingOrders(consumer: string, count: int, now: nat) returns (messages: seq<Entry>)
      requires Valid()
      modifies this
      ensures Valid()
      ensures stream == old(stream) && lastId == old(lastId) && hashes == old(hashes)
      ensures messages == Claimable(stream, old(group.lastDelivered), count)
      ensures count < 1 ==> group == old(group) && log == old(log)
      ensures count >= 1 ==>
                group == ClaimedGroup(old(group), consumer, messages, now)
                && log == old(log) + [XReadGroup(consumer, Ids(messages))]
      ensures |messages| <= NewestCount(|stream|, count) && Increasing(messages)
      ensures forall i :: 0 <= i < |messages| ==>
                messages[i] in stream && Below(old(group.lastDelivered), messages[i].id)
                && AtMost(messages[i].id, group.lastDelivered)
    {
      messages := Claimable(stream, group.lastDelivered, count);
      ClaimableIncreasing(stream, group.lastDelivered, count);
      ClaimedUpToCursor(stream, group.lastDelivered, count);
      forall i | 0 <= i < |messages|
        ensures messages[i] in stream && Below(group.lastDelivered, messages[i].id)
        ensures AtMost(messages[i].id, CursorAfter(group.lastDelivered, messages))
      {
        assert messages[i] in messages;
      }
      if count >= 1 {
        group := ClaimedGroup(group, consumer, messages, now);
        log := log + [XReadGroup(consumer, Ids(messages))];
      }
    }

    /** acknowledge_order: XACK; an id argument that does not parse makes
        Redis answer an error, which reaches the caller (ok is false). */
    method AcknowledgeOrder(messageId: string) returns (ok: bool)
      requires Valid()
      modifies this
      ensures Valid()
      ensures stream == old(stream) && lastId == old(lastId) && hashes == old(hashes)
      ensures ok <==> StrictId(messageId).Some?
      ensures ok ==>
                group == old(group).(pending := old(group).pending - {StrictId(messageId).value})
                && log == old(log) + [XAck(StrictId(messageId).value)]
      ensures !ok ==> group == old(group) && log == old(log)
    {
      var id := StrictId(messageId);
      if id.None? {
        return false;
      }
      group := group.(pending := group.pending - {id.value});
      log := log + [XAck(id.value)];
      ok := true;
    }

    /** update_order_status: HSET of the status, and of processed_at when a
        non-empty one is given, into "order:status:<messageId>". */
    method UpdateOrderStatus(messageId: string, status: OrderStatus, processedAt: Option<string>)
      requires Valid()
      modifies this
      ensures Valid()
      ensures stream == old(stream) && lastId == old(lastId) && group == old(group)
      ensures hashes == old(hashes)[StatusKey(messageId) :=
                ApplyStatus(HGetAll(old(hashes), StatusKey(messageId)), status, processedAt)]
      ensures log == old(log) + [HSet(StatusKey(messageId), StatusUpdate(status, processedAt))]
    {
      var key := StatusKey(messageId);
      hashes := hashes[key := ApplyStatus(HGetAll(hashes, key), status, processedAt)];
      log := log + [HSet(key, StatusUpdate(status, processedAt))];
    }

    /** get_order_status_details: HGETALL of the order's status key. */
    method GetOrderStatusDetails(messageId: string) returns (details: Fields)
      requires Valid()
      ensures details == HGetAll(hashes, StatusKey(messageId))
      ensures details == map[] <==> StatusKey(messageId) !in hashes
    {
      details := HGetAll(hashes, StatusKey(messageId));
    }

    /** delete_order_status: DEL of the order's status key. */
    method DeleteOrderStatus(messageId: string)
      requires Valid()
      modifies this
      ensures Valid()
      ensures stream == old(stream) && lastId == old(lastId) && group == old(group)
      ensures hashes == old(hashes) - {StatusKey(messageId)}
      ensures log == old(log) + [Del(StatusKey(messageId))]
    {
      hashes := hashes - {StatusKey(messageId)};
      log := log + [Del(StatusKey(messageId))];
    }

    /** get_all_order_statuses: one pass of SCAN MATCH "order:status:*" over
        the keys, each key's id read off by stripping the prefix. */
    method GetAllOrderStatuses() returns (statuses: map<string, Fields>)
      requires Valid()
      ensures statuses.Keys == set k | k in hashes && StatusPrefix <= k :: StripStatusPrefix(k)
      ensures forall id :: id in statuses ==>
                exists k :: k in hashes && StatusPrefix <= k && StripStatusPrefix(k) == id && statuses[id] == hashes[k]
      ensures forall id :: StatusKey(id) in hashes && !Occurs(StatusPrefix, id) && Unambiguous(hashes, id) ==>
                id in statuses && statuses[id] == hashes[StatusKey(id)]
    {
      var keys := set k | k in hashes && StatusPrefix <= k;
      var remaining := keys;
      statuses := map[];
      while remaining != {}
        invariant remaining <= keys
        invariant statuses.Keys == set k | k in keys - remaining :: StripStatusPrefix(k)
        invariant forall id :: id in statuses ==>
                    exists k :: k in keys - remaining && StripStatusPrefix(k) == id && statuses[id] == hashes[k]
        decreases |remaining|
      {
        var key :| key in remaining;
        statuses := statuses[StripStatusPrefix(key) := hashes[key]];
        remaining := remaining - {key};
      }
      assert keys - remaining == keys;
      forall id | StatusKey(id) in hashes && !Occurs(StatusPrefix, id) && Unambiguous(hashes, id)
        ensures id in statuses && statuses[id] == hashes[StatusKey(id)]
      {
        StatusKeyStrips(id);
        assert StatusPrefix <= StatusKey(id);
        assert StatusKey(id) in keys;
        var k :| k in keys && StripStatusPrefix(k) == id && statuses[id] == hashes[k];
        assert k == StatusKey(id);
      }
    }
  }
}
