/** The order worker: claims orders from the group, writes their status
    changes and acknowledges them. */
module Worker {
  import opened Wrappers
  import opened StreamIds
  import opened Models
  import opened RedisClient

  /** Why process_order stopped before finishing: a field it prints is missing
      (KeyError), a KeyboardInterrupt arrived in its sleep, or XACK refused
      the message id. */
  datatype ProcessError = MissingField | Interrupted | AckRefused

  /** The fields process_order prints before it writes anything. */
  predicate HasPrintedFields(fields: Fields)
  {
    "customer_id" in fields && "product_id" in fields && "quantity" in fields && "price" in fields
  }

  /** The status an order ends in, given the outcome of the processing step. */
  function TerminalStatus(success: bool): (s: OrderStatus)
    ensures s.IsTerminal()
    ensures s == Completed <==> success
  {
    if success then Completed else Failed
  }

  /** A status hash in which processed_at is present exactly when the stored
      status is terminal. */
  predicate Consistent(h: Fields)
  {
    "status" in h && ParseStatus(h["status"]).Some?
    && ("processed_at" in h <==> ParseStatus(h["status"]).value.IsTerminal())
  }

  /** For an order with no status hash yet, both writes of process_order leave
      a consistent hash: first processing without a time, then the terminal
      status with its time. */
  lemma FreshOrderLifecycle(success: bool, processedAt: string)
    requires processedAt != ""
    ensures var h1 := ApplyStatus(map[], Processing, None);
            var h2 := ApplyStatus(h1, TerminalStatus(success), Some(processedAt));
            && Consistent(h1) && ParseStatus(h1["status"]) == Some(Processing)
            && Consistent(h2) && ParseStatus(h2["status"]) == Some(TerminalStatus(success))
            && h2["processed_at"] == processedAt
  {
  }

  /** Were an order processed a second time, the processing write would keep
      the earlier processed_at beside the status processing. */
  lemma ReprocessingKeepsProcessedAt(h: Fields)
    requires "processed_at" in h
    ensures var h1 := ApplyStatus(h, Processing, None);
            !Consistent(h1) && h1["processed_at"] == h["processed_at"]
  {
  }

  /** Where a KeyboardInterrupt meets one pass of run's loop: not at all,
      before XREADGROUP is sent, or after the claim. An interrupt after the
      claim lands in the sleep of the first process_order, right after its
      processing write, or in the pause of a pass that processed nothing;
      either way that pass is the last one. */
  datatype Interrupt = NoInterrupt | BeforeClaim | AfterClaim

  /** What the outside world does during one pass of run's loop: whether and
      where a KeyboardInterrupt arrives, the server clock at the claim, the
      outcome of the processing step and the text of time.time() after it. */
  datatype Tick = Tick(interrupt: Interrupt, claimAt: nat, success: bool, processedAt: string)

  /** The number of passes before the first interrupted one. */
  function FirstInterrupt(ticks: seq<Tick>): (n: nat)
    ensures n <= |ticks|
    ensures forall i :: 0 <= i < n ==> ticks[i].interrupt == NoInterrupt
    ensures n < |ticks| ==> ticks[n].interrupt != NoInterrupt
  {
    if ticks == [] then 0
    else if ticks[0].interrupt != NoInterrupt then 0
    else 1 + FirstInterrupt(ticks[1..])
  }

  /** The number of passes that send XREADGROUP: the uninterrupted ones, and
      the last one when it is interrupted only after its claim. */
  function Claims(ticks: seq<Tick>): (n: nat)
    ensures FirstInterrupt(ticks) <= n <= |ticks|
    ensures forall i :: 0 <= i < n ==> ticks[i].interrupt != BeforeClaim
    ensures n > FirstInterrupt(ticks) ==> n == FirstInterrupt(ticks) + 1 && ticks[n - 1].interrupt == AfterClaim
    ensures n < |ticks| && n == FirstInterrupt(ticks) ==> ticks[n].interrupt == BeforeClaim
  {
    var p := FirstInterrupt(ticks);
    if p < |ticks| && ticks[p].interrupt == AfterClaim then p + 1 else p
  }

  /** The status hash of `id` holds a terminal status and a processing time. */
  ghost predicate Settled(hashes: map<string, Fields>, id: StreamId)
  {
    var key := StatusKey(IdToString(id));
    && key in hashes && "status" in hashes[key] && "processed_at" in hashes[key]
    && ParseStatus(hashes[key]["status"]).Some? && ParseStatus(hashes[key]["status"]).value.IsTerminal()
  }

  /** Strictly increasing ids. */
  predicate Ascending(ids: seq<StreamId>)
  {
    forall i, j :: 0 <= i < j < |ids| ==> Below(ids[i], ids[j])
  }

  /** The order `id`, claimed after `start`, has been processed to the end:
      it is a stream entry the group has delivered, no longer pending, and its
      status hash is settled. */
  ghost predicate Done(id: StreamId, start: StreamId, stream: seq<Entry>, group: Group,
                       hashes: map<string, Fields>)
  {
    && Below(start, id)
    && AtMost(id, group.lastDelivered)
    && id in Ids(stream)
    && id !in group.pending
    && Settled(hashes, id)
  }

  /** Every order of `ids` is done. */
  ghost predicate AllDone(ids: seq<StreamId>, start: StreamId, stream: seq<Entry>, group: Group,
                          hashes: map<string, Fields>)
  {
    forall i :: 0 <= i < |ids| ==> Done(ids[i], start, stream, group, hashes)
  }

  /** Processing another order keeps an order done. */
  lemma DoneKept(id: StreamId, start: StreamId, stream: seq<Entry>, group: Group,
                 hashes: map<string, Fields>, group': Group, key: string, update: Fields)
    requires Done(id, start, stream, group, hashes)
    requires group'.lastDelivered == group.lastDelivered && group'.pending.Keys <= group.pending.Keys
    requires key != StatusKey(IdToString(id))
    ensures Done(id, start, stream, group', hashes[key := update])
  {
  }

  /** A complete run of process_order on a claimed entry `m` makes it done and
      keeps every order handled before it done. */
  lemma ProcessingStep(ids: seq<StreamId>, start: StreamId, stream: seq<Entry>, group: Group,
                       hashes: map<string, Fields>, m: Entry, group': Group, update: Fields)
    requires AllDone(ids, start, stream, group, hashes)
    requires Ascending(ids)
    requires forall i :: 0 <= i < |ids| ==> Below(ids[i], m.id)
    requires m in stream && Below(start, m.id) && AtMost(m.id, group.lastDelivered)
    requires group'.lastDelivered == group.lastDelivered
    requires group'.pending == group.pending - {m.id}
    requires Settled(hashes[StatusKey(IdToString(m.id)) := update], m.id)
    ensures AllDone(ids + [m.id], start, stream, group', hashes[StatusKey(IdToString(m.id)) := update])
    ensures Ascending(ids + [m.id])
  {
    var key := StatusKey(IdToString(m.id));
    var hashes' := hashes[key := update];
    forall i | 0 <= i < |ids|
      ensures Done(ids[i], start, stream, group', hashes')
    {
      StatusKeyInjective(ids[i], m.id);
      DoneKept(ids[i], start, stream, group, hashes, group', key, update);
    }
    assert m.id in Ids(stream) by {
      var k :| 0 <= k < |stream| && stream[k] == m;
      assert Ids(stream)[k] == m.id;
    }
    AllDoneSnoc(ids, m.id, start, stream, group', hashes');
  }

  lemma AllDoneSnoc(ids: seq<StreamId>, id: StreamId, start: StreamId, stream: seq<Entry>, group: Group,
                    hashes: map<string, Fields>)
    requires AllDone(ids, start, stream, group, hashes)
    requires Done(id, start, stream, group, hashes)
    ensures AllDone(ids + [id], start, stream, group, hashes)
  {
    var ids' := ids + [id];
    forall i | 0 <= i < |ids'|
      ensures Done(ids'[i], start, stream, group, hashes)
    {
      if i < |ids| {
        assert ids'[i] == ids[i];
      }
    }
  }

  /** A later claim keeps an order done: the claim moves the cursor forward
      and adds only entries above the old cursor to the pending list. */
  lemma DoneAfterClaim(ids: seq<StreamId>, start: StreamId, stream: seq<Entry>, group: Group,
                       hashes: map<string, Fields>, consumer: string, messages: seq<Entry>, now: nat)
    requires AllDone(ids, start, stream, group, hashes)
    requires forall k :: 0 <= k < |messages| ==> Below(group.lastDelivered, messages[k].id)
    ensures AllDone(ids, start, stream, ClaimedGroup(group, consumer, messages, now), hashes)
    ensures forall i :: 0 <= i < |ids| ==> AtMost(ids[i], group.lastDelivered)
  {
    forall i | 0 <= i < |ids|
      ensures Done(ids[i], start, stream, ClaimedGroup(group, consumer, messages, now), hashes)
      ensures AtMost(ids[i], group.lastDelivered)
    {
      assert Done(ids[i], start, stream, group, hashes);
      assert ids[i] !in Ids(messages);
    }
  }

  /** The two status writes of process_order settle the order's hash. */
  lemma SettledByProcessing(hashes: map<string, Fields>, id: StreamId, success: bool, processedAt: string)
    requires processedAt != ""
    ensures var key := StatusKey(IdToString(id));
            Settled(hashes[key := ApplyStatus(ApplyStatus(HGetAll(hashes, key), Processing, None),
                                              TerminalStatus(success), Some(processedAt))], id)
  {
  }

  lemma StatusKeyInjective(a: StreamId, b: StreamId)
    requires a != b
    ensures StatusKey(IdToString(a)) != StatusKey(IdToString(b))
  {
    IdToStringInjective(a, b);
    var ka, kb := StatusKey(IdToString(a)), StatusKey(IdToString(b));
    assert ka[|StatusPrefix|..] == IdToString(a);
    assert kb[|StatusPrefix|..] == IdToString(b);
  }

  lemma IdsJoin(a: seq<Entry>, b: seq<Entry>)
    ensures Ids(a + b) == Ids(a) + Ids(b)
  {
    assert |Ids(a + b)| == |Ids(a) + Ids(b)|;
  }

  // ----- What a run does, as values ----------------------------------------

  /** The store as the worker changes it, with the orders it has processed
      to the end, in order. */
  datatype WorkerState = WorkerState(group: Group, hashes: map<string, Fields>, log: seq<Command>,
                                     handled: seq<StreamId>)

  /** The status hashes after the processing write to `key`. */
  function MarkProcessing(hashes: map<string, Fields>, key: string): (r: map<string, Fields>)
    ensures r.Keys == hashes.Keys + {key}
    ensures forall k :: k in hashes && k != key ==> k in r && r[k] == hashes[k]
    ensures key in r && "status" in r[key] && ParseStatus(r[key]["status"]) == Some(Processing)
    ensures forall f :: f in HGetAll(hashes, key) && f != "status" ==> f in r[key] && r[key][f] == hashes[key][f]
  {
    hashes[key := ApplyStatus(HGetAll(hashes, key), Processing, None)]
  }

  /** The status hashes after both writes process_order makes to `key`. */
  function MarkFinished(hashes: map<string, Fields>, key: string, success: bool, processedAt: string)
    : (r: map<string, Fields>)
    ensures r.Keys == hashes.Keys + {key}
    ensures forall k :: k in hashes && k != key ==> k in r && r[k] == hashes[k]
    ensures key in r && "status" in r[key] && ParseStatus(r[key]["status"]) == Some(TerminalStatus(success))
    ensures processedAt != "" ==> "processed_at" in r[key] && r[key]["processed_at"] == processedAt
    ensures forall f :: f in HGetAll(hashes, key) && f != "status" && f != "processed_at" ==>
              f in r[key] && r[key][f] == hashes[key][f]
  {
    hashes[key := ApplyStatus(ApplyStatus(HGetAll(hashes, key), Processing, None),
                              TerminalStatus(success), Some(processedAt))]
  }

  /** process_order on the claimed entry `m`, cut short by an interrupt in
      its sleep: only the processing write has happened. */
  function Begin(st: WorkerState, m: Entry): (r: WorkerState)
    ensures r.group == st.group && r.handled == st.handled
    ensures r.hashes.Keys == st.hashes.Keys + {StatusKey(IdToString(m.id))}
    ensures var key := StatusKey(IdToString(m.id));
            && key in r.hashes && "status" in r.hashes[key]
            && ParseStatus(r.hashes[key]["status"]) == Some(Processing)
            && (forall k :: k in st.hashes && k != key ==> k in r.hashes && r.hashes[k] == st.hashes[k])
            && r.log == st.log + [HSet(key, StatusUpdate(Processing, None))]
  {
    var key := StatusKey(IdToString(m.id));
    st.(hashes := MarkProcessing(st.hashes, key), log := st.log + [HSet(key, StatusUpdate(Processing, None))])
  }

  /** process_order run to the end on the claimed entry `m`: both status
      writes, then XACK, and `m` counts as handled. */
  function Finish(st: WorkerState, m: Entry, success: bool, processedAt: string): (r: WorkerState)
    ensures r.group.lastDelivered == st.group.lastDelivered && r.group.consumers == st.group.consumers
    ensures r.group.pending == st.group.pending - {m.id}
    ensures r.handled == st.handled + [m.id]
    ensures processedAt != "" ==> Settled(r.hashes, m.id)
    ensures forall k :: k in st.hashes && k != StatusKey(IdToString(m.id)) ==> k in r.hashes && r.hashes[k] == st.hashes[k]
    ensures |r.log| == |st.log| + 3 && r.log[..|st.log|] == st.log && r.log[|st.log| + 2] == XAck(m.id)
  {
    var key := StatusKey(IdToString(m.id));
    WorkerState(
      st.group.(pending := st.group.pending - {m.id}),
      MarkFinished(st.hashes, key, success, processedAt),
      st.log + [HSet(key, StatusUpdate(Processing, None)),
                HSet(key, StatusUpdate(TerminalStatus(success), Some(processedAt))),
                XAck(m.id)],
      st.handled + [m.id])
  }

  /** The for-loop of run over a claimed batch: a message without the printed
      fields raises KeyError before any write and the rest of the batch is
      dropped; an interrupt cuts the first processed message short. */
  function Batch(st: WorkerState, ms: seq<Entry>, success: bool, processedAt: string, interrupted: bool)
    : (r: WorkerState)
    ensures r.group.lastDelivered == st.group.lastDelivered && r.group.consumers == st.group.consumers
    ensures st.log <= r.log && st.handled <= r.handled
    decreases |ms|
  {
    if ms == [] || !HasPrintedFields(ms[0].fields) then st
    else if interrupted then Begin(st, ms[0])
    else Batch(Finish(st, ms[0], success, processedAt), ms[1..], success, processedAt, false)
  }

  /** One pass of run's loop: XREADGROUP with COUNT 1, then the batch. */
  function OnePass(s: seq<Entry>, st: WorkerState, consumer: string, t: Tick): (r: WorkerState)
    ensures r.group.lastDelivered == CursorAfter(st.group.lastDelivered, Claimable(s, st.group.lastDelivered, 1))
    ensures st.log + [XReadGroup(consumer, Ids(Claimable(s, st.group.lastDelivered, 1)))] <= r.log
    ensures st.handled <= r.handled
  {
    var ms := Claimable(s, st.group.lastDelivered, 1);
    Batch(st.(group := ClaimedGroup(st.group, consumer, ms, t.claimAt),
              log := st.log + [XReadGroup(consumer, Ids(ms))]),
          ms, t.success, t.processedAt, t.interrupt == AfterClaim)
  }

  /** run over the passes `ticks`: each pass goes on whatever exception its
      batch raised, and the first interrupt ends the loop. */
  function RunSpec(s: seq<Entry>, st: WorkerState, consumer: string, ticks: seq<Tick>): (r: WorkerState)
    ensures st.log <= r.log && st.handled <= r.handled
    decreases |ticks|
  {
    if ticks == [] || ticks[0].interrupt == BeforeClaim then st
    else if ticks[0].interrupt == AfterClaim then OnePass(s, st, consumer, ticks[0])
    else RunSpec(s, OnePass(s, st, consumer, ticks[0]), consumer, ticks[1..])
  }

  /** The position of the first message process_order raises KeyError on,
      |ms| when there is none. */
  function FirstMissing(ms: seq<Entry>): (n: nat)
    ensures n <= |ms|
    ensures forall k :: 0 <= k < n ==> HasPrintedFields(ms[k].fields)
    ensures n < |ms| ==> !HasPrintedFields(ms[n].fields)
  {
    if ms == [] || !HasPrintedFields(ms[0].fields) then 0 else 1 + FirstMissing(ms[1..])
  }

  /** The messages that have every field process_order prints, in order. */
  function Processable(ms: seq<Entry>): (r: seq<Entry>)
    ensures |r| <= |ms|
    ensures forall e :: e in r <==> e in ms && HasPrintedFields(e.fields)
  {
    if ms == [] then []
    else
      assert forall e :: e in ms <==> e == ms[0] || e in ms[1..];
      (if HasPrintedFields(ms[0].fields) then [ms[0]] else []) + Processable(ms[1..])
  }

  lemma {:induction false} ProcessableJoin(a: seq<Entry>, b: seq<Entry>)
    ensures Processable(a + b) == Processable(a) + Processable(b)
  {
    if a == [] {
      assert a + b == b;
    } else {
      assert (a + b)[0] == a[0] && (a + b)[1..] == a[1..] + b;
      ProcessableJoin(a[1..], b);
      var head := if HasPrintedFields(a[0].fields) then [a[0]] else [];
      assert Processable(a + b) == head + Processable(a[1..] + b);
      assert Processable(a) == head + Processable(a[1..]);
    }
  }

  /** The ids of a run of entries, as a set. */
  function IdSet(ms: seq<Entry>): set<StreamId>
  {
    set k | 0 <= k < |ms| :: ms[k].id
  }

  lemma IdSetCons(m: Entry, ms: seq<Entry>)
    ensures IdSet([m] + ms) == {m.id} + IdSet(ms)
  {
    var s := [m] + ms;
    forall id | id in IdSet(s)
      ensures id in {m.id} + IdSet(ms)
    {
      var k :| 0 <= k < |s| && s[k].id == id;
      if k > 0 {
        assert ms[k - 1] == s[k];
      }
    }
    forall id | id in IdSet(ms)
      ensures id in IdSet(s)
    {
      var k :| 0 <= k < |ms| && ms[k].id == id;
      assert s[k + 1] == ms[k];
    }
    assert s[0] == m;
  }

  /** An uninterrupted batch processes exactly the messages before the first
      one without the printed fields, in order, and acknowledges each. */
  lemma {:induction false} BatchOutcome(st: WorkerState, ms: seq<Entry>, success: bool, processedAt: string)
    ensures var r := Batch(st, ms, success, processedAt, false);
            var done := ms[..FirstMissing(ms)];
            && r.handled == st.handled + Ids(done)
            && r.group.pending == st.group.pending - IdSet(done)
    decreases |ms|, 1
  {
    if FirstMissing(ms) == 0 {
      assert ms[..0] == [];
      assert IdSet(ms[..0]) == {};
    } else {
      BatchOutcomeStep(st, ms, success, processedAt);
    }
  }

  lemma {:induction false} BatchOutcomeStep(st: WorkerState, ms: seq<Entry>, success: bool, processedAt: string)
    requires FirstMissing(ms) > 0
    ensures var r := Batch(st, ms, success, processedAt, false);
            var done := ms[..FirstMissing(ms)];
            && r.handled == st.handled + Ids(done)
            && r.group.pending == st.group.pending - IdSet(done)
    decreases |ms|, 0
  {
    var n := FirstMissing(ms);
    var st' := Finish(st, ms[0], success, processedAt);
    assert Batch(st, ms, success, processedAt, false) == Batch(st', ms[1..], success, processedAt, false);
    BatchOutcome(st', ms[1..], success, processedAt);
    assert FirstMissing(ms[1..]) == n - 1;
    assert st'.handled == st.handled + [ms[0].id];
    assert st'.group.pending == st.group.pending - {ms[0].id};
    DoneSplit(st.handled, st.group.pending, ms, n);
  }

  /** The ids of the first n messages, taken as the first id and the rest. */
  lemma DoneSplit(handled: seq<StreamId>, pending: map<StreamId, PendingEntry>, ms: seq<Entry>, n: nat)
    requires 0 < n <= |ms|
    ensures (handled + [ms[0].id]) + Ids(ms[1..][..n - 1]) == handled + Ids(ms[..n])
    ensures (pending - {ms[0].id}) - IdSet(ms[1..][..n - 1]) == pending - IdSet(ms[..n])
  {
    var tail := ms[1..][..n - 1];
    HeadSlice(ms, n);
    IdsJoin([ms[0]], tail);
    assert Ids([ms[0]]) == [ms[0].id];
    JoinAssoc(handled, [ms[0].id], Ids(tail));
    IdSetCons(ms[0], tail);
    MinusUnion(pending, {ms[0].id}, IdSet(tail));
  }

  lemma HeadSlice<T>(s: seq<T>, n: nat)
    requires 0 < n <= |s|
    ensures s[..n] == [s[0]] + s[1..][..n - 1]
  {
  }

  lemma JoinAssoc<T>(a: seq<T>, b: seq<T>, c: seq<T>)
    ensures (a + b) + c == a + (b + c)
  {
  }

  lemma MinusUnion<K, V>(m: map<K, V>, a: set<K>, b: set<K>)
    ensures (m - a) - b == m - (a + b)
  {
  }

  /** A batch an interrupt cuts short processes nothing to the end; when its
      first message has the printed fields, that order keeps status
      processing. */
  lemma InterruptedBatch(st: WorkerState, ms: seq<Entry>, success: bool, processedAt: string)
    ensures var r := Batch(st, ms, success, processedAt, true);
            && r.group == st.group && r.handled == st.handled
            && (ms != [] && HasPrintedFields(ms[0].fields) ==>
                  var key := StatusKey(IdToString(ms[0].id));
                  key in r.hashes && ParseStatus(r.hashes[key]["status"]) == Some(Processing))
            && (ms == [] || !HasPrintedFields(ms[0].fields) ==> r == st)
  {
  }

  /** An interrupt after the claim strands the claimed order: it stays
      pending for this consumer, unacknowledged, with status processing, and
      it is not handled. */
  lemma InterruptedPassStrandsOrder(s: seq<Entry>, st: WorkerState, consumer: string, t: Tick)
    requires t.interrupt == AfterClaim
    ensures var ms := Claimable(s, st.group.lastDelivered, 1);
            var r := OnePass(s, st, consumer, t);
            ms != [] && HasPrintedFields(ms[0].fields) ==>
              var key := StatusKey(IdToString(ms[0].id));
              && ms[0].id in r.group.pending && r.group.pending[ms[0].id] == PendingEntry(consumer, t.claimAt)
              && key in r.hashes && ParseStatus(r.hashes[key]["status"]) == Some(Processing)
              && r.handled == st.handled
  {
    var ms := Claimable(s, st.group.lastDelivered, 1);
    var claimed := st.(group := ClaimedGroup(st.group, consumer, ms, t.claimAt),
                       log := st.log + [XReadGroup(consumer, Ids(ms))]);
    InterruptedBatch(claimed, ms, t.success, t.processedAt);
    if ms != [] {
      assert Ids(ms)[0] == ms[0].id;
    }
  }

  /** The cursor the group goes through when `a` is delivered and then `b`. */
  lemma CursorAfterJoin(cursor: StreamId, a: seq<Entry>, b: seq<Entry>)
    ensures CursorAfter(cursor, a + b) == CursorAfter(CursorAfter(cursor, a), b)
  {
    if b != [] {
      assert (a + b)[|a + b| - 1] == b[|b| - 1];
    } else {
      assert a + b == a;
    }
  }

  /** The passes of a run claim one entry each, from where the previous one
      stopped: the cursor ends after the first Claims(ticks) undelivered
      entries. */
  lemma {:induction false} RunCursor(s: seq<Entry>, st: WorkerState, consumer: string, ticks: seq<Tick>)
    requires Increasing(s)
    ensures var c := st.group.lastDelivered;
            RunSpec(s, st, consumer, ticks).group.lastDelivered == CursorAfter(c, Claimable(s, c, Claims(ticks)))
    decreases |ticks|, 1
  {
    if ticks != [] && ticks[0].interrupt == NoInterrupt {
      RunCursorStep(s, st, consumer, ticks);
    } else {
      var c := st.group.lastDelivered;
      assert Claimable(s, c, 0) == [];
      PassCursor(s, st, consumer, ticks);
    }
  }

  /** The last pass, if any: an interrupt after the claim still moves the
      cursor past the claimed entry. */
  lemma PassCursor(s: seq<Entry>, st: WorkerState, consumer: string, ticks: seq<Tick>)
    requires ticks == [] || ticks[0].interrupt != NoInterrupt
    ensures var c := st.group.lastDelivered;
            RunSpec(s, st, consumer, ticks).group.lastDelivered == CursorAfter(c, Claimable(s, c, Claims(ticks)))
  {
    var c := st.group.lastDelivered;
    assert Claimable(s, c, 0) == [];
  }

  lemma {:induction false} RunCursorStep(s: seq<Entry>, st: WorkerState, consumer: string, ticks: seq<Tick>)
    requires Increasing(s) && ticks != [] && ticks[0].interrupt == NoInterrupt
    ensures var c := st.group.lastDelivered;
            RunSpec(s, st, consumer, ticks).group.lastDelivered == CursorAfter(c, Claimable(s, c, Claims(ticks)))
    decreases |ticks|, 0
  {
    var c := st.group.lastDelivered;
    var st1 := OnePass(s, st, consumer, ticks[0]);
    var c1 := CursorAfter(c, Claimable(s, c, 1));
    assert st1.group.lastDelivered == c1;
    RunCursor(s, st1, consumer, ticks[1..]);
    ClaimsStep(ticks);
    ClaimStep(s, c, Claims(ticks[1..]));
  }

  /** Counting the claiming passes from the second one. */
  lemma ClaimsStep(ticks: seq<Tick>)
    requires ticks != [] && ticks[0].interrupt == NoInterrupt
    ensures FirstInterrupt(ticks) == 1 + FirstInterrupt(ticks[1..])
    ensures Claims(ticks) == 1 + Claims(ticks[1..])
  {
    var p := FirstInterrupt(ticks);
    assert p < |ticks| ==> ticks[1..][p - 1] == ticks[p];
  }

  /** A claim of 1 + k entries is a claim of one followed by a claim of k,
      and the cursor ends where the second leaves it. */
  lemma ClaimStep(s: seq<Entry>, c: StreamId, k: nat)
    requires Increasing(s)
    ensures var r1 := Claimable(s, c, 1);
            var c1 := CursorAfter(c, r1);
            && Claimable(s, c, 1 + k) == r1 + Claimable(s, c1, k)
            && CursorAfter(c1, Claimable(s, c1, k)) == CursorAfter(c, Claimable(s, c, 1 + k))
  {
    var r1 := Claimable(s, c, 1);
    var c1 := CursorAfter(c, r1);
    if k == 0 {
      assert Claimable(s, c1, k) == [];
      assert r1 + [] == r1;
    } else {
      ClaimsCompose(s, c, 1, k);
    }
    CursorAfterJoin(c, r1, Claimable(s, c1, k));
  }

  /** What an uninterrupted pass adds to the handled orders: the claimed
      entry, when it has the printed fields. */
  lemma PassHandled(s: seq<Entry>, st: WorkerState, consumer: string, t: Tick)
    requires t.interrupt == NoInterrupt
    ensures var r1 := Claimable(s, st.group.lastDelivered, 1);
            var st1 := OnePass(s, st, consumer, t);
            && st1.handled == st.handled + Ids(Processable(r1))
            && st1.group.lastDelivered == CursorAfter(st.group.lastDelivered, r1)
  {
    var r1 := Claimable(s, st.group.lastDelivered, 1);
    var claimed := st.(group := ClaimedGroup(st.group, consumer, r1, t.claimAt),
                       log := st.log + [XReadGroup(consumer, Ids(r1))]);
    BatchOutcome(claimed, r1, t.success, t.processedAt);
    ShortBatch(r1);
  }

  /** For a batch of at most one message, the messages processed before the
      first KeyError are the processable ones. */
  lemma ShortBatch(ms: seq<Entry>)
    requires |ms| <= 1
    ensures ms[..FirstMissing(ms)] == Processable(ms)
  {
    if ms != [] {
      assert ms[1..] == [];
    }
  }

  /** run handles, in order, exactly the undelivered entries that its
      uninterrupted passes claimed and that have the printed fields: a
      KeyError in one pass does not stop the later ones. */
  lemma {:induction false} RunHandled(s: seq<Entry>, st: WorkerState, consumer: string, ticks: seq<Tick>)
    requires Increasing(s)
    ensures var c := st.group.lastDelivered;
            RunSpec(s, st, consumer, ticks).handled
            == st.handled + Ids(Processable(Claimable(s, c, FirstInterrupt(ticks))))
    decreases |ticks|, 1
  {
    if ticks != [] && ticks[0].interrupt == NoInterrupt {
      RunHandledStep(s, st, consumer, ticks);
    } else {
      StopHandled(s, st, consumer, ticks);
    }
  }

  /** A run that stops at its first pass handles nothing. */
  lemma StopHandled(s: seq<Entry>, st: WorkerState, consumer: string, ticks: seq<Tick>)
    requires ticks == [] || ticks[0].interrupt != NoInterrupt
    ensures RunSpec(s, st, consumer, ticks).handled == st.handled
    ensures Ids(Processable(Claimable(s, st.group.lastDelivered, FirstInterrupt(ticks)))) == []
  {
    var c := st.group.lastDelivered;
    assert Claimable(s, c, 0) == [];
    if ticks != [] && ticks[0].interrupt == AfterClaim {
      var r1 := Claimable(s, c, 1);
      InterruptedBatch(st.(group := ClaimedGroup(st.group, consumer, r1, ticks[0].claimAt),
                           log := st.log + [XReadGroup(consumer, Ids(r1))]),
                       r1, ticks[0].success, ticks[0].processedAt);
    }
  }

  lemma {:induction false} RunHandledStep(s: seq<Entry>, st: WorkerState, consumer: string, ticks: seq<Tick>)
    requires Increasing(s) && ticks != [] && ticks[0].interrupt == NoInterrupt
    ensures var c := st.group.lastDelivered;
            RunSpec(s, st, consumer, ticks).handled
            == st.handled + Ids(Processable(Claimable(s, c, FirstInterrupt(ticks))))
    decreases |ticks|, 0
  {
    var c := st.group.lastDelivered;
    var r1 := Claimable(s, c, 1);
    var st1 := OnePass(s, st, consumer, ticks[0]);
    var c1 := CursorAfter(c, r1);
    PassHandled(s, st, consumer, ticks[0]);
    assert RunSpec(s, st, consumer, ticks) == RunSpec(s, st1, consumer, ticks[1..]);
    RunHandled(s, st1, consumer, ticks[1..]);
    var k := FirstInterrupt(ticks[1..]);
    var r2 := Claimable(s, c1, k);
    assert RunSpec(s, st, consumer, ticks).handled == (st.handled + Ids(Processable(r1))) + Ids(Processable(r2));
    ClaimsStep(ticks);
    ClaimStep(s, c, k);
    ClaimedIds(st.handled, r1, r2);
  }

  lemma ClaimedIds(handled: seq<StreamId>, r1: seq<Entry>, r2: seq<Entry>)
    ensures (handled + Ids(Processable(r1))) + Ids(Processable(r2)) == handled + Ids(Processable(r1 + r2))
  {
    ProcessableJoin(r1, r2);
    IdsJoin(Processable(r1), Processable(r2));
    JoinAssoc(handled, Ids(Processable(r1)), Ids(Processable(r2)));
  }

  /** process_order run to the end on `m` makes it done and keeps every
      order done before it done. */
  lemma FinishKeepsDone(st: WorkerState, m: Entry, success: bool, processedAt: string,
                        start: StreamId, stream: seq<Entry>)
    requires processedAt != ""
    requires m in stream && Below(start, m.id) && AtMost(m.id, st.group.lastDelivered)
    requires Ascending(st.handled) && forall i :: 0 <= i < |st.handled| ==> Below(st.handled[i], m.id)
    requires AllDone(st.handled, start, stream, st.group, st.hashes)
    ensures var r := Finish(st, m, success, processedAt);
            Ascending(r.handled) && AllDone(r.handled, start, stream, r.group, r.hashes)
  {
    var key := StatusKey(IdToString(m.id));
    var update := ApplyStatus(ApplyStatus(HGetAll(st.hashes, key), Processing, None),
                              TerminalStatus(success), Some(processedAt));
    SettledByProcessing(st.hashes, m.id, success, processedAt);
    ProcessingStep(st.handled, start, stream, st.group, st.hashes, m,
                   st.group.(pending := st.group.pending - {m.id}), update);
  }

  /** The processing write on `m` alone keeps every order done before it done. */
  lemma BeginKeepsDone(st: WorkerState, m: Entry, start: StreamId, stream: seq<Entry>)
    requires forall i :: 0 <= i < |st.handled| ==> Below(st.handled[i], m.id)
    requires AllDone(st.handled, start, stream, st.group, st.hashes)
    ensures var r := Begin(st, m);
            AllDone(r.handled, start, stream, r.group, r.hashes)
  {
    var key := StatusKey(IdToString(m.id));
    var r := Begin(st, m);
    forall i | 0 <= i < |st.handled|
      ensures Done(st.handled[i], start, stream, r.group, r.hashes)
    {
      StatusKeyInjective(st.handled[i], m.id);
      DoneKept(st.handled[i], start, stream, st.group, st.hashes, st.group, key, r.hashes[key]);
    }
  }

  /** A batch of claimed entries keeps every order done before it done, and
      the orders it processes to the end follow them in ascending order. */
  lemma {:induction false} BatchKeepsDone(st: WorkerState, ms: seq<Entry>, success: bool, processedAt: string,
                                          interrupted: bool, start: StreamId, stream: seq<Entry>)
    requires processedAt != ""
    requires Increasing(ms)
    requires forall k :: 0 <= k < |ms| ==>
               ms[k] in stream && Below(start, ms[k].id) && AtMost(ms[k].id, st.group.lastDelivered)
    requires Ascending(st.handled)
    requires st.handled != [] && ms != [] ==> Below(st.handled[|st.handled| - 1], ms[0].id)
    requires AllDone(st.handled, start, stream, st.group, st.hashes)
    ensures var r := Batch(st, ms, success, processedAt, interrupted);
            Ascending(r.handled) && AllDone(r.handled, start, stream, r.group, r.hashes)
    decreases |ms|, 1
  {
    if ms != [] && HasPrintedFields(ms[0].fields) {
      AscendingBelow(st.handled, ms[0].id);
      if interrupted {
        BeginKeepsDone(st, ms[0], start, stream);
      } else {
        BatchKeepsDoneStep(st, ms, success, processedAt, start, stream);
      }
    }
  }

  lemma {:induction false} BatchKeepsDoneStep(st: WorkerState, ms: seq<Entry>, success: bool, processedAt: string,
                                              start: StreamId, stream: seq<Entry>)
    requires processedAt != ""
    requires ms != [] && Increasing(ms)
    requires forall k :: 0 <= k < |ms| ==>
               ms[k] in stream && Below(start, ms[k].id) && AtMost(ms[k].id, st.group.lastDelivered)
    requires Ascending(st.handled) && forall i :: 0 <= i < |st.handled| ==> Below(st.handled[i], ms[0].id)
    requires AllDone(st.handled, start, stream, st.group, st.hashes)
    ensures var r := Batch(Finish(st, ms[0], success, processedAt), ms[1..], success, processedAt, false);
            Ascending(r.handled) && AllDone(r.handled, start, stream, r.group, r.hashes)
    decreases |ms|, 0
  {
    var st1 := Finish(st, ms[0], success, processedAt);
    FinishKeepsDone(st, ms[0], success, processedAt, start, stream);
    assert st1.handled[|st1.handled| - 1] == ms[0].id;
    assert forall k :: 0 <= k < |ms| - 1 ==> ms[1..][k] == ms[k + 1];
    BatchKeepsDone(st1, ms[1..], success, processedAt, false, start, stream);
  }

  /** Every id of an ascending sequence is below anything above its last. */
  lemma AscendingBelow(ids: seq<StreamId>, x: StreamId)
    requires Ascending(ids) && (ids != [] ==> Below(ids[|ids| - 1], x))
    ensures forall i :: 0 <= i < |ids| ==> Below(ids[i], x)
  {
    forall i | 0 <= i < |ids| - 1
      ensures Below(ids[i], ids[|ids| - 1])
    {
    }
  }

  /** One pass keeps every order done before it done and adds the orders it
      processes to the end; the cursor only moves forward. */
  lemma PassKeepsDone(s: seq<Entry>, st: WorkerState, consumer: string, t: Tick, start: StreamId)
    requires Increasing(s) && t.processedAt != ""
    requires AtMost(start, st.group.lastDelivered)
    requires Ascending(st.handled) && AllDone(st.handled, start, s, st.group, st.hashes)
    ensures var r := OnePass(s, st, consumer, t);
            && AtMost(start, r.group.lastDelivered)
            && Ascending(r.handled) && AllDone(r.handled, start, s, r.group, r.hashes)
  {
    var c := st.group.lastDelivered;
    var ms := Claimable(s, c, 1);
    var st1 := st.(group := ClaimedGroup(st.group, consumer, ms, t.claimAt),
                   log := st.log + [XReadGroup(consumer, Ids(ms))]);
    assert forall k :: 0 <= k < |ms| ==> ms[k] in ms;
    DoneAfterClaim(st.handled, start, s, st.group, st.hashes, consumer, ms, t.claimAt);
    ClaimableIncreasing(s, c, 1);
    ClaimedUpToCursor(s, c, 1);
    BatchKeepsDone(st1, ms, t.success, t.processedAt, t.interrupt == AfterClaim, start, s);
  }

  /** A run, from a state whose done orders are ascending, ends in one whose
      done orders are still ascending and all done. */
  lemma {:induction false} RunKeepsDone(s: seq<Entry>, st: WorkerState, consumer: string, ticks: seq<Tick>,
                                        start: StreamId)
    requires Increasing(s)
    requires forall i :: 0 <= i < |ticks| ==> ticks[i].processedAt != ""
    requires AtMost(start, st.group.lastDelivered)
    requires Ascending(st.handled) && AllDone(st.handled, start, s, st.group, st.hashes)
    ensures var r := RunSpec(s, st, consumer, ticks);
            Ascending(r.handled) && AllDone(r.handled, start, s, r.group, r.hashes)
    decreases |ticks|
  {
    if ticks != [] && ticks[0].interrupt != BeforeClaim {
      PassKeepsDone(s, st, consumer, ticks[0], start);
      if ticks[0].interrupt == NoInterrupt {
        assert forall i :: 0 <= i < |ticks| - 1 ==> ticks[1..][i] == ticks[i + 1];
        RunKeepsDone(s, OnePass(s, st, consumer, ticks[0]), consumer, ticks[1..], start);
      }
    }
  }

  /** A run that is out of ticks, or interrupted before its first claim,
      changes nothing. */
  lemma RunStops(s: seq<Entry>, st: WorkerState, consumer: string, ticks: seq<Tick>)
    requires ticks == [] || ticks[0].interrupt == BeforeClaim
    ensures RunSpec(s, st, consumer, ticks) == st
  {
  }

  /** The first entries of a batch, one step of the for-loop at a time. */
  lemma BatchStep(st: WorkerState, ms: seq<Entry>, success: bool, processedAt: string, interrupted: bool)
    requires ms != []
    ensures var r := Batch(st, [ms[0]], success, processedAt, interrupted);
            Batch(st, ms, success, processedAt, interrupted)
            == if HasPrintedFields(ms[0].fields) && !interrupted then Batch(r, ms[1..], success, processedAt, false)
               else r
  {
    assert [ms[0]][1..] == [];
  }

  class OrderProcessor {
    /** The consumer name this worker claims under. */
    const workerId: string
    const client: RedisStreamClient

    constructor (workerId: string, client: RedisStreamClient)
      ensures this.workerId == workerId && this.client == client
    {
      this.workerId := workerId;
      this.client := client;
    }

    /** process_order: mark the order processing, run the processing step
        (its outcome is `success`), write the terminal status with the time
        `processedAt`, then acknowledge. `interrupted` says a KeyboardInterrupt
        arrives in the sleep after the processing write. */
    method ProcessOrder(messageId: string, fields: Fields, interrupted: bool, success: bool, processedAt: string)
      returns (r: Outcome<ProcessError>)
      requires client.Valid()
      modifies client
      ensures client.Valid()
      ensures client.stream == old(client.stream) && client.lastId == old(client.lastId)
      ensures client.group.lastDelivered == old(client.group.lastDelivered)
      ensures client.group.consumers == old(client.group.consumers)
      ensures !HasPrintedFields(fields) ==>
                && r == Fail(MissingField) && client.hashes == old(client.hashes)
                && client.group == old(client.group) && client.log == old(client.log)
      ensures HasPrintedFields(fields) && interrupted ==>
                && r == Fail(Interrupted) && client.group == old(client.group)
                && client.hashes == MarkProcessing(old(client.hashes), StatusKey(messageId))
                && client.log == old(client.log) + [HSet(StatusKey(messageId), StatusUpdate(Processing, None))]
      ensures HasPrintedFields(fields) && !interrupted ==>
                var key := StatusKey(messageId);
                var running := StatusUpdate(Processing, None);
                var done := StatusUpdate(TerminalStatus(success), Some(processedAt));
                && client.hashes == MarkFinished(old(client.hashes), key, success, processedAt)
                && (r == Pass <==> StrictId(messageId).Some?)
                && (r.Fail? ==>
                      && r == Fail(AckRefused) && client.group == old(client.group)
                      && client.log == old(client.log) + [HSet(key, running), HSet(key, done)])
                && (r == Pass ==>
                      && client.group.pending == old(client.group.pending) - {StrictId(messageId).value}
                      && client.log == old(client.log)
                           + [HSet(key, running), HSet(key, done), XAck(StrictId(messageId).value)])
    {
      if !HasPrintedFields(fields) {
        return Fail(MissingField);
      }
      ghost var key, hashes0, log0 := StatusKey(messageId), client.hashes, client.log;
      ghost var running := ApplyStatus(HGetAll(hashes0, key), Processing, None);
      client.UpdateOrderStatus(messageId, Processing, None);
      if interrupted {
        return Fail(Interrupted);
      }
      assert HGetAll(client.hashes, key) == running;
      var status := TerminalStatus(success);
      client.UpdateOrderStatus(messageId, status, Some(processedAt));
      assert client.hashes == hashes0[key := ApplyStatus(running, status, Some(processedAt))];
      ghost var written := client.log;
      assert written == log0 + [HSet(key, StatusUpdate(Processing, None)),
                                HSet(key, StatusUpdate(status, Some(processedAt)))];
      var acked := client.AcknowledgeOrder(messageId);
      r := if acked then Pass else Fail(AckRefused);
    }

    /** One pass of run's for-loop: process_order on a claimed entry, called
        with the entry's id in its text form; `rest` is the part of the batch
        that starts with it. It completes exactly when the entry has the
        printed fields and no interrupt lands in its sleep. */
    method ProcessClaimed(m: Entry, interrupted: bool, success: bool, processedAt: string,
                          ghost handled: seq<StreamId>, ghost rest: seq<Entry>)
      returns (ok: bool)
      requires rest != [] && rest[0] == m
      requires client.Valid()
      modifies client
      ensures client.Valid()
      ensures client.stream == old(client.stream) && client.lastId == old(client.lastId)
      ensures ok <==> HasPrintedFields(m.fields) && !interrupted
      ensures var st := WorkerState(old(client.group), old(client.hashes), old(client.log), handled);
              var st' := WorkerState(client.group, client.hashes, client.log, if ok then handled + [m.id] else handled);
              Batch(st, rest, success, processedAt, interrupted)
              == if ok then Batch(st', rest[1..], success, processedAt, false) else st'
    {
      ParseIdRoundTrip(m.id, 0, true);
      BatchStep(WorkerState(client.group, client.hashes, client.log, handled), rest, success, processedAt, interrupted);
      assert [m][1..] == [];
      var r := ProcessOrder(IdToString(m.id), m.fields, interrupted, success, processedAt);
      ok := r == Pass;
    }

    /** The for-loop of run over one claimed batch: each message is processed
        in turn, and the first exception drops the rest of the batch. `done`
        lists the orders handled before. */
    method ProcessBatch(messages: seq<Entry>, interrupted: bool, success: bool, processedAt: string,
                        done: seq<StreamId>)
      returns (handled: seq<StreamId>)
      requires client.Valid()
      modifies client
      ensures client.Valid()
      ensures client.stream == old(client.stream) && client.lastId == old(client.lastId)
      ensures WorkerState(client.group, client.hashes, client.log, handled)
              == Batch(WorkerState(old(client.group), old(client.hashes), old(client.log), done),
                       messages, success, processedAt, interrupted)
    {
      ghost var st0 := WorkerState(client.group, client.hashes, client.log, done);
      handled := done;
      var j := 0;
      var first := interrupted;
      while j < |messages|
        invariant j <= |messages|
        invariant client.Valid()
        invariant client.stream == old(client.stream) && client.lastId == old(client.lastId)
        invariant Batch(st0, messages, success, processedAt, interrupted)
               == Batch(WorkerState(client.group, client.hashes, client.log, handled), messages[j..],
                        success, processedAt, first)
      {
        var m := messages[j];
        assert messages[j..][1..] == messages[j + 1..];
        var ok := ProcessClaimed(m, first, success, processedAt, handled, messages[j..]);
        if !ok {
          return;
        }
        handled := handled + [m.id];
        first := false;
        j := j + 1;
      }
      assert messages[j..] == [];
    }

    /** One iteration of run's while-loop once it gets past the interrupt
        check: XREADGROUP with COUNT 1, then the for-loop over what came back. */
    method RunPass(tick: Tick, done: seq<StreamId>, ghost rest: seq<Tick>) returns (handled: seq<StreamId>)
      requires rest != [] && rest[0] == tick && tick.interrupt != BeforeClaim
      requires client.Valid()
      modifies client
      ensures client.Valid()
      ensures client.stream == old(client.stream) && client.lastId == old(client.lastId)
      ensures WorkerState(client.group, client.hashes, client.log, handled)
              == OnePass(client.stream, WorkerState(old(client.group), old(client.hashes), old(client.log), done),
                         workerId, tick)
      ensures var st := WorkerState(old(client.group), old(client.hashes), old(client.log), done);
              var st' := WorkerState(client.group, client.hashes, client.log, handled);
              RunSpec(client.stream, st, workerId, rest)
              == if tick.interrupt == AfterClaim then st' else RunSpec(client.stream, st', workerId, rest[1..])
    {
      var messages := client.ReadPendingOrders(workerId, 1, tick.claimAt);
      handled := ProcessBatch(messages, tick.interrupt == AfterClaim, tick.success, tick.processedAt, done);
    }

    /** The while-loop of run: one pass per tick until the first interrupt
        or the end of the ticks, the store ending as RunSpec says. */
    method Loop(ticks: seq<Tick>) returns (iterations: nat, handled: seq<StreamId>)
      requires client.Valid()
      modifies client
      ensures client.Valid()
      ensures client.stream == old(client.stream) && client.lastId == old(client.lastId)
      ensures iterations == FirstInterrupt(ticks)
      ensures WorkerState(client.group, client.hashes, client.log, handled)
              == RunSpec(client.stream, WorkerState(old(client.group), old(client.hashes), old(client.log), []),
                         workerId, ticks)
    {
      ghost var st0 := WorkerState(client.group, client.hashes, client.log, []);
      iterations := 0;
      handled := [];
      while iterations < |ticks|
        invariant iterations <= |ticks|
        invariant forall i :: 0 <= i < iterations ==> ticks[i].interrupt == NoInterrupt
        invariant client.Valid()
        invariant client.stream == old(client.stream) && client.lastId == old(client.lastId)
        invariant RunSpec(client.stream, st0, workerId, ticks)
               == RunSpec(client.stream, WorkerState(client.group, client.hashes, client.log, handled),
                          workerId, ticks[iterations..])
        decreases |ticks| - iterations
      {
        var tick := ticks[iterations];
        assert ticks[iterations..][1..] == ticks[iterations + 1..];
        if tick.interrupt == BeforeClaim {
          RunStops(client.stream, WorkerState(client.group, client.hashes, client.log, handled), workerId,
                   ticks[iterations..]);
          break;
        }
        handled := RunPass(tick, handled, ticks[iterations..]);
        if tick.interrupt == AfterClaim {
          break;
        }
        assert tick.interrupt == NoInterrupt;
        iterations := iterations + 1;
      }
      if iterations == |ticks| {
        assert ticks[iterations..] == [];
        RunStops(client.stream, WorkerState(client.group, client.hashes, client.log, handled), workerId, []);
      }
    }

    /** run: claim one order at a time and process what was claimed, in the
        order it came; an exception drops the rest of the batch and the loop
        goes on, a KeyboardInterrupt ends it. The loop also ends when the
        given ticks run out. `handled` lists the orders processed to the end. */
    method Run(ticks: seq<Tick>) returns (iterations: nat, handled: seq<StreamId>)
      requires client.Valid()
      requires forall i :: 0 <= i < |ticks| ==> ticks[i].processedAt != ""
      modifies client
      ensures client.Valid()
      ensures client.stream == old(client.stream) && client.lastId == old(client.lastId)
      ensures iterations == FirstInterrupt(ticks)
      ensures WorkerState(client.group, client.hashes, client.log, handled)
              == RunSpec(client.stream, WorkerState(old(client.group), old(client.hashes), old(client.log), []),
                         workerId, ticks)
      ensures var c := old(client.group.lastDelivered);
              && client.group.lastDelivered == CursorAfter(c, Claimable(client.stream, c, Claims(ticks)))
              && handled == Ids(Processable(Claimable(client.stream, c, FirstInterrupt(ticks))))
      ensures Ascending(handled)
      ensures AllDone(handled, old(client.group.lastDelivered), client.stream, client.group, client.hashes)
    {
      ghost var start := client.group.lastDelivered;
      ghost var st0 := WorkerState(client.group, client.hashes, client.log, []);
      iterations, handled := Loop(ticks);
      RunCursor(client.stream, st0, workerId, ticks);
      RunHandled(client.stream, st0, workerId, ticks);
      RunKeepsDone(client.stream, st0, workerId, ticks, start);
    }
  }
}
