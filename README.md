# Order queue over a Redis stream, modelled in Dafny

The service takes orders over HTTP. It appends each order to the Redis stream
`orders:stream`. Workers of the consumer group `order_processors` claim the
orders, and each worker drives every order it claims through its status changes:

1. processing;
2. completed or failed;
3. acknowledge.

The worker keeps the status changes in a Redis hash `order:status:<id>` per
order. The read endpoints fold that hash over the record stored in the stream.

The Redis server is modelled as explicit state: the class
`RedisClient.RedisStreamClient` holds these fields:

- `stream`: entries with increasing ids;
- `lastId`: the last id the stream generated;
- `group`: the group's last-delivered id, its pending entries (the consumer and
  delivery time of each) and its consumers;
- `hashes`: the database's hash keys;
- `log`: a ghost record of the write commands sent, in order.

Each client method is a Dafny method on that state that follows the semantics
of the Redis command it sends: XADD with `*`, XRANGE, XREVRANGE, XREADGROUP
with `>`, XACK, HSET, HGETALL, DEL and SCAN. Redis ids are pairs of 64-bit
numbers `ms-seq`. The model reads the id argument forms that Redis documents:

- `-` and `+`;
- a full `ms-seq` and an incomplete `ms`, in plain decimal digits;
- exclusive bounds written `(`;
- a 127-character limit.

Redis's number parser also lets through a few undocumented spellings. The
model refuses them (see "Left out").

Modules, one per file:

- `Wrappers` (wrappers.dfy): Option, the Outcome type and Min.
- `Decimal` (decimal.dfy): `str()` of integers and the decimal strings that
  `int()` and Redis read back.
- `StreamIds` (stream_ids.dfy): id order, the id XADD `*` generates, and id
  arguments.
- `Models` (models.dfy): models.py. This covers the status enumeration and the
  `OrderCreate` and `Order` records.
- `RedisClient` (redis_client.dfy): redis_client.py. This covers the store
  state, the pure meaning of each Redis reply, and the client class.
- `Worker` (worker.dfy): worker.py. The class `OrderProcessor` has
  `process_order` and the `run` loop.
- `Api` (api.dfy): main.py. This covers the status merge, the three endpoints,
  and what the two read endpoints show.
- `Scenarios` (scenarios.dfy): walk-throughs from an empty server. They are
  submit then look up, submit–process–look up, two workers claiming a single
  order, an unknown id, and submit many then list.

Timestamps are parameters: the XADD clock `nowMs`, `created_at`,
`processed_at` and the delivery time. The random outcome of the processing
step is the `bool` parameter `success`. A worker's run is driven by a finite
sequence of `Tick`s. Each tick says whether a KeyboardInterrupt arrives, when
the claim happens, the outcome, and the processing time.

## Model

| member | source | states |
|---|---|---|
| Models.ParseStatus | models.py:5-9 | reading a status string gives the status whose value it is, and nothing for any string that is not one of the four values |
| Models.StatusRoundTrip | models.py:5-9 | every status reads back from its stored value as itself, and no two statuses share a value |
| Decimal.ParseNat | redis_client.py:62 | a string reads as a natural number exactly when it is a non-empty run of digits, and then as its decimal value, leading zeros allowed |
| Decimal.ParseInt | redis_client.py:62 | `int()` reads a string exactly when it is digits, optionally after a single `-`. Digits read as their decimal value, so `007` is 7, and `-` followed by digits reads as minus that value, so `-0` is 0. |
| Decimal.NatToString | redis_client.py:43 | `str()` of a natural number is a non-empty digit string whose decimal value is that number, with no leading zero: it starts with 0 only for 0, and it has one digit exactly below 10 |
| Decimal.IntToString | redis_client.py:43 | `str()` of an integer is `str()` of the number itself when it is not negative. A negative integer gives `-` followed by `str()` of its magnitude, so the text starts with `-` exactly for negative integers and never has a leading zero. |
| Decimal.NatToStringRoundTrip | redis_client.py:43 | reading back the text of a natural number gives that number, a consequence of NatToString's contract |
| Decimal.IntToStringRoundTrip | redis_client.py:43 | `int(str(q))` is `q` for every integer quantity, so add_order followed by get_order keeps the quantity |
| StreamIds.Incr | redis_client.py:55 | the id right after a given one, used for an exclusive start bound: above it, the smallest such, and none only after the largest id |
| StreamIds.Decr | redis_client.py:55 | the id right before a given one, used for an exclusive end bound: below it, the largest such, and none only before 0-0 |
| StreamIds.NextId | redis_client.py:49 | XADD `*` gives an id above the last one with milliseconds at least the clock, the smallest such id, and fails only after the largest possible id |
| StreamIds.IdToString | redis_client.py:49-50 | the id string Redis replies with is 3 to 41 characters of digits and `-`, starting and ending with a digit |
| StreamIds.IdToStringShape | redis_client.py:49-50 | the id string Redis replies with has exactly one `-`, strictly inside, and digits at every other position |
| StreamIds.ParseId | redis_client.py:55 | An id argument over 127 characters is refused. `-` and `+` are 0-0 and the largest id, and a strict reading refuses both. Any other accepted argument starts with a digit and holds only digits and `-`. A digits-only argument of at most 127 characters whose value fits in 64 bits is accepted as that value with the given missing sequence number. |
| StreamIds.ParseIdSplit | redis_client.py:55 | an `ms-seq` argument of at most 127 characters, made of two non-empty digit runs whose values fit in 64 bits, is accepted under every argument kind as the id with those two values |
| StreamIds.ParseIdDashForm | redis_client.py:55 | the converse: an accepted argument that is not `-`, `+` or a bare `ms` splits at its first `-` into two non-empty digit runs whose values fit in 64 bits, and it reads as the id of those values |
| StreamIds.MalformedDashRefused | redis_client.py:55 | `5-` (no sequence) and `5-3-2` (a second `-`) are refused |
| StreamIds.StrictId | redis_client.py:112 | the single-id reading XACK makes: refuses `-` and `+`, and otherwise accepts exactly what the range reading with sequence 0 accepts, with the same value |
| StreamIds.IntervalStart | redis_client.py:55 | An exclusive start `(x` exists unless x is the largest id, and the ids at or after it are exactly those above x. Any other argument is read as an id, with an incomplete `ms` starting at sequence 0. |
| StreamIds.IntervalEnd | redis_client.py:55 | An exclusive end `(x` exists unless x is 0-0, and the ids at or before it are exactly those below x. Any other argument is read as an id, with an incomplete `ms` reaching the largest sequence. |
| StreamIds.ParseIdRoundTrip | redis_client.py:49-50 | the id string XADD returns reads back as that id, whichever way the command parses its argument |
| StreamIds.IdToStringInjective | redis_client.py:49-50 | distinct ids are written as distinct strings |
| StreamIds.MatchesOwnId | redis_client.py:55 | XRANGE with an id's string as both bounds covers exactly that id |
| StreamIds.MatchesMillis | redis_client.py:55 | XRANGE with an incomplete `ms` as both bounds covers exactly the ids with those milliseconds |
| StreamIds.GroupStartIsZero | redis_client.py:29-34 | the group's start argument `"0"` is the id 0-0 |
| RedisClient.StatusKeysAvoidStream | redis_client.py:16 | no status key `order:status:<id>` is the stream's key |
| RedisClient.StatusKey | redis_client.py:128 | the key `order:status:{message_id}` is the prefix followed by the message id, so the id can be read back from the key |
| RedisClient.HGetAll | redis_client.py:148 | HGETALL answers exactly the fields of the hash under the key, with their values, and no fields when the key does not exist |
| RedisClient.EncodeOrder | redis_client.py:40-47 | add_order writes exactly six fields and no processed_at. Customer, product, price and created_at are copied, the quantity is its `str()`, and the status reads back as pending. |
| RedisClient.RecordOf | redis_client.py:58-69 | An entry converts exactly when its six record fields are present and its quantity and status convert. The record carries the entry id's string, each text field as stored, the converted quantity and status, and processed_at exactly when the entry has one. |
| RedisClient.RecordRoundTrip | redis_client.py:38-67 | an entry written by add_order converts back to the order with its customer, product, quantity and price, status pending, its created_at and no processed_at |
| RedisClient.RecordsOf | redis_client.py:77-90 | the records of a run of entries, keeping length and order, or nothing exactly when some entry fails to convert |
| RedisClient.XRange | redis_client.py:55 | an entry is in the XRANGE reply exactly when it is in the stream between the bounds; the reply is no longer than the stream and keeps the ids increasing |
| RedisClient.XRangeEmpty | redis_client.py:55-56 | an XRANGE reply is empty exactly when no entry lies between the bounds |
| RedisClient.XRangeHead | redis_client.py:55-57 | the first entry of a non-empty XRANGE reply is the stream's first entry between the bounds |
| RedisClient.XRevRange | redis_client.py:75 | XREVRANGE COUNT n gives min(n, length) entries, or none when n ≤ 0, and its k-th entry is the k-th newest |
| RedisClient.NewestOrders | redis_client.py:72-90 | get_orders answers [] when one of the newest `limit` entries does not convert; when all convert it answers that many records, the k-th being the record of the k-th newest entry |
| RedisClient.FirstMatch | redis_client.py:55-57 | the position of the first entry an id argument covers, with no covered entry before it, or nothing when it covers none |
| RedisClient.FirstMatchAt | redis_client.py:55-57 | a covered entry with no covered entry before it is the first match |
| RedisClient.FirstMatchIsFirst | redis_client.py:55-57 | every covered entry with no covered entry before it is the one FirstMatch finds, so the first match is unique |
| RedisClient.FirstMatchOwnId | redis_client.py:55-57 | in an increasing stream, the string of an entry's id finds that very entry |
| RedisClient.FindOrder | redis_client.py:52-70 | get_order answers nothing when the argument covers no entry, and otherwise the record (or nothing) of the first entry it covers |
| RedisClient.Undelivered | redis_client.py:95-101 | the entries the `>` id has still to deliver: those of the stream above the group's cursor, and no others |
| RedisClient.FirstAbove | redis_client.py:95-101 | the position of the first entry above the cursor: no entry before it is above the cursor, and the one at it is |
| RedisClient.Claimable | redis_client.py:95-101 | XREADGROUP `>` COUNT n gives at most n entries, each from the stream and above the cursor, and in an increasing stream exactly the next n entries after the cursor |
| RedisClient.ClaimableIncreasing | redis_client.py:95-105 | a claim is handed out oldest first |
| RedisClient.ClaimedUpToCursor | redis_client.py:95-101 | no claimed entry is above the cursor the claim leaves behind |
| RedisClient.FirstClaimsSeeAll | redis_client.py:29-34 | a group created at 0 has every entry of the stream still to deliver |
| RedisClient.ClaimsCompose | redis_client.py:95-101 | claiming n1 entries then n2 entries hands out exactly what one claim of n1 + n2 would, so nothing is skipped or repeated |
| RedisClient.ClaimsDisjoint | redis_client.py:95-101 | every entry of a later claim is above every entry of an earlier claim |
| RedisClient.StatusUpdate | redis_client.py:129-131 | the fields update_order_status writes: always the status, and processed_at exactly when a non-empty one is given |
| RedisClient.ApplyStatus | redis_client.py:134 | HSET sets the status and keeps every other field, and keeps an earlier processed_at unless a new non-empty one is given |
| RedisClient.ClaimedGroup | redis_client.py:95-101 | XREADGROUP moves the cursor to the last entry delivered, or leaves it when none. Each delivered id becomes pending for the consumer at the claim time, every other pending entry is kept, and the consumer joins the group. |
| RedisClient.RemoveAll | redis_client.py:181 | `replace(pat, "")` never lengthens its text, and drops at least the pattern's length when the text starts with it |
| RedisClient.RemoveAllAbsent | redis_client.py:181 | a text without the pattern comes back unchanged |
| RedisClient.RemoveAllShrinks | redis_client.py:181 | a text that contains the pattern comes back shorter, so with RemoveAllAbsent replace changes the text exactly when the pattern occurs |
| RedisClient.StripStatusPrefix | redis_client.py:181 | the id read off a key is no longer than the key, and shorter by at least the prefix when the key is a status key |
| RedisClient.StatusKeyStrips | redis_client.py:181 | removing the prefix from a status key gives back an id that does not contain the prefix |
| RedisClient.NestedKeyCollides | redis_client.py:181 | because replace removes every occurrence, the key of an id that contains the prefix strips to the same id as a shorter key |
| RedisClient.RedisStreamClient.constructor | redis_client.py:27-36 | the group is created at 0-0 with nothing pending when it does not exist; an existing group is left as it is |
| RedisClient.RedisStreamClient.AddOrder | redis_client.py:38-50 | appends exactly one entry, with the next id and the encoded order, and leaves the earlier entries, the group and the hashes alone. It returns the id's string and fails without change only when ids are exhausted. |
| RedisClient.RedisStreamClient.GetOrder | redis_client.py:52-70 | the record of the first entry the argument covers, or nothing when the argument is malformed, covers nothing, or the entry does not convert. For an entry's own id it is that entry's record. |
| RedisClient.RedisStreamClient.GetOrders | redis_client.py:72-90 | the records of the newest `limit` entries, newest first, exactly when all of them convert, and [] otherwise |
| RedisClient.RedisStreamClient.ReadPendingOrders | redis_client.py:92-108 | returns the claimable window after the cursor, oldest first, each entry above the old cursor. For count ≥ 1 it advances the cursor to the last entry returned and adds the returned ids as pending for the consumer; for count < 1 it changes nothing. It never changes the stream or the hashes. |
| RedisClient.RedisStreamClient.AcknowledgeOrder | redis_client.py:110-112 | removes exactly the acknowledged id from the pending entries and leaves the stream, cursor and hashes alone; an id that does not parse is refused with no change |
| RedisClient.RedisStreamClient.UpdateOrderStatus | redis_client.py:114-134 | only the order's status key changes, and it becomes the HSET merge of the update into the old hash |
| RedisClient.RedisStreamClient.GetOrderStatusDetails | redis_client.py:136-154 | the order's status hash, empty exactly when the key does not exist |
| RedisClient.RedisStreamClient.DeleteOrderStatus | redis_client.py:156-159 | only the order's status key is removed |
| RedisClient.RedisStreamClient.GetAllOrderStatuses | redis_client.py:161-187 | the ids are exactly those read off the status keys, each mapped to a status hash it was read from. An id that does not contain the prefix and is claimed by no other key maps to its own hash. |
| Worker.TerminalStatus | worker.py:32-39 | the final status is terminal, and it is completed exactly when the outcome is a success |
| Worker.FreshOrderLifecycle | worker.py:25-43 | from no hash, the first write gives processing with no processed_at, the second gives the terminal status with the time, and each hash has processed_at exactly when its status is terminal |
| Worker.ReprocessingKeepsProcessedAt | worker.py:25 | a second processing write keeps the earlier processed_at beside the status processing |
| Worker.FirstInterrupt | worker.py:52-66 | the number of passes before the first KeyboardInterrupt |
| Worker.Claims | worker.py:52-66 | the number of claims a run makes: at least its passes and at most one more, the extra one only when the first interrupt comes right after its claim, and no claim is made once an interrupt arrives before one |
| Worker.SettledByProcessing | worker.py:25-43 | after both writes the order's hash holds a terminal status and a processing time |
| Worker.ProcessingStep | worker.py:57-59 | after a complete process_order, the entry is done and every order done before it stays done |
| Worker.DoneAfterClaim | worker.py:55 | a later claim keeps every processed order done |
| Worker.OrderProcessor.constructor | worker.py:12-14 | a processor with the given worker id and store client |
| Worker.FirstMissing | worker.py:19-22 | the position of the first message whose printed fields are not all present: every earlier message has them |
| Worker.Processable | worker.py:19-22 | the messages that have every printed field, in order: an entry is among them exactly when it is a message with those fields |
| Worker.ProcessableJoin | worker.py:57-59 | the messages with the printed fields of two batches in a row are those of the first followed by those of the second |
| Worker.MarkProcessing | worker.py:25 | the processing write adds or updates only the order's key, sets its status to processing and keeps its other fields |
| Worker.MarkFinished | worker.py:25-43 | after both writes only the order's key is added or changed. Its status is the outcome's terminal status, processed_at is the given time when it is non-empty, and every other field is kept. |
| Worker.Begin | worker.py:24-29 | the processing write of process_order: the group and the handled orders are unchanged, only the order's hash changes, to status processing, and exactly one HSET is logged |
| Worker.Finish | worker.py:24-46 | a complete process_order: the id leaves the pending entries and joins the handled orders, the hash is settled when the time is non-empty, other hashes are kept, and three commands are logged, the last an XACK of that id |
| Worker.Batch | worker.py:57-59 | processing a batch moves neither the group's cursor nor its set of consumers |
| Worker.BatchOutcome | worker.py:57-59 | without an interrupt, a batch handles exactly the messages before the first one lacking a printed field, in order, and removes exactly their ids from the pending entries |
| Worker.InterruptedBatch | worker.py:24-29 | A batch an interrupt cuts short handles nothing and leaves the group alone. When its first message has the printed fields, that order is left with status processing. Otherwise nothing changes. |
| Worker.InterruptedPassStrandsOrder | worker.py:52-66 | an interrupt after the claim leaves the claimed order pending for this consumer with the claim time, with status processing, and not handled |
| Worker.PassHandled | worker.py:55-59 | an uninterrupted pass adds the claimed entry to the handled orders when it has the printed fields, and moves the cursor past it |
| Worker.OnePass | worker.py:55-59 | one pass of run claims with COUNT 1, leaves the cursor where that claim puts it, logs the XREADGROUP of the claimed ids first, and only adds to the handled orders |
| Worker.RunSpec | worker.py:52-69 | a run of passes only adds to the command log and to the handled orders; RunCursor and RunHandled state where the cursor ends and what is handled |
| Worker.RunCursor | worker.py:52-66 | the cursor after a run is where Claims(ticks) consecutive one-entry claims leave it: one per uninterrupted pass, plus the claim of an interrupted pass whose interrupt came after the claim |
| Worker.RunHandled | worker.py:52-69 | a run handles, in order, exactly the claimed entries that have the printed fields, from its uninterrupted passes; a KeyError in one pass does not stop the later ones |
| Worker.FinishKeepsDone | worker.py:24-46 | a complete process_order makes its order done and keeps the earlier, lower orders done and ascending |
| Worker.BeginKeepsDone | worker.py:24-29 | the processing write alone keeps every earlier order done |
| Worker.BatchKeepsDone | worker.py:57-59 | a batch of claimed entries keeps the done orders done and appends the orders it completes, keeping them ascending |
| Worker.PassKeepsDone | worker.py:55-59 | one pass keeps the done orders done and ascending, adds the ones it completes, and the cursor only moves forward |
| Worker.RunKeepsDone | worker.py:52-69 | a whole run ends with its handled orders ascending, and each one claimed, no longer pending and settled |
| Worker.OrderProcessor.ProcessOrder | worker.py:16-46 | A missing printed field (a KeyError, lines 19-22) changes nothing. An interrupt in the sleep (line 29) leaves only the processing write. Otherwise the store receives the processing write, then the terminal write with the time, then the ack of exactly that id, and the ack fails only for an id that does not parse. |
| Worker.OrderProcessor.ProcessClaimed | worker.py:58-59 | process_order on a claimed entry completes exactly when the printed fields are present and no interrupt lands in its sleep; the store changes by one step of Batch |
| Worker.OrderProcessor.ProcessBatch | worker.py:57-59 | the store after the for-loop is Batch of the store before it: each message is processed in the order returned, up to the first exception or interrupt |
| Worker.OrderProcessor.RunPass | worker.py:55-59 | one past-the-interrupt-check iteration of the loop, a claim with COUNT 1 and then the batch, changes the store exactly as OnePass says; after it the run either ends (an interrupt right after the claim) or goes on with the next tick from the new store |
| Worker.OrderProcessor.Loop | worker.py:48-69 | The while-loop of run: it stops at the first interrupt after exactly that many complete passes, leaves the stream and the id counter alone, and the store (group, hashes, log, handled list) ends as RunSpec applied to the ticks says. |
| Worker.OrderProcessor.Run | worker.py:48-69 | The loop runs until the first interrupt, with exactly that many complete passes, and the store ends as RunSpec says. The cursor ends after the Claims(ticks) entries claimed. The handled orders are, in order, the claimed entries with the printed fields from the uninterrupted passes. They are ascending, each is acknowledged and settled, and the stream is unchanged. |
| Api.MergeStatus | main.py:35-37 | An empty hash leaves the record as stored. Otherwise the status is the hash's status, or the stored one when the hash has none, and processed_at is the hash's value, or nothing when the hash has none. The other fields are kept, and an unknown status fails. |
| Api.Merged | main.py:35-37 | the merge never answers 404; it answers 500 exactly when the hash holds a status the enumeration does not know, and otherwise the record with the hash folded in |
| Api.OrderViewAsWritten | main.py:25-39 | GET /orders/{id} as written answers 404 exactly when get_order finds nothing. It answers 500 exactly when the record is found and the hash under the requested id holds an unknown status. Otherwise it answers the record merged with that hash. |
| Api.OrderView | main.py:25-39 | GET /orders/{id} as intended answers 404 exactly when get_order finds nothing, and 500 exactly when the record is found and the hash filed under the found record's id holds an unknown status. Otherwise it keeps the found record's id and merges that hash. |
| Api.ListView | main.py:41-54 | GET /orders never answers 404. It answers 500 exactly when some listed order's own hash holds an unknown status, and otherwise one merged order per record, in the same order. |
| Api.MergeAll | main.py:47-52 | each listed order merged with its own hash, keeping length and order, or failure exactly when some hash holds an unknown status |
| Api.MergeAllPointwise | main.py:47-52 | merging the orders one at a time gives MergeAll |
| Api.MergeEach | main.py:47-52 | the for-loop of get_orders computes MergeAll |
| Api.CreateOrder | main.py:15-23 | POST /orders appends the order and answers its id, or answers 500 with no change |
| Api.GetOrderAsWritten | main.py:25-39 | GET /orders/{id} as written: 404 when get_order finds nothing, otherwise the record merged with the hash under the requested id |
| Api.GetOrder | main.py:25-39 | GET /orders/{id} with the hash under the found order's id |
| Api.ListOrders | main.py:41-54 | GET /orders: the newest records, newest first, merged each with its own hash |
| Api.RecordId | redis_client.py:59 | a converted record carries its entry's id string |
| Api.CanonicalIdsAgree | main.py:28-34 | asked by an entry's own id string, get_order as written and the corrected one answer the same |
| Api.IncompleteIdShowsStoredStatus | main.py:33-34 | asked by an incomplete `ms`, get_order as written shows entry ms-0 exactly as stored, while the corrected endpoint folds in ms-0's hash |
| Api.IncompleteIdExample | main.py:33-34 | after order 5-0 is completed, GET /orders/5 as written says pending and the corrected endpoint says completed, with the time |
| Api.ListAgreesWithGet | main.py:25-54 | every order GET /orders lists, the corrected GET /orders/{id} shows identically when asked by its id |
| Api.UnknownIdNotFound | main.py:28-30 | an id no entry has is answered with 404 |
| Api.MalformedIdNotFound | main.py:28-30 | an argument XRANGE cannot read is answered with 404 |
| Api.MergeAllWithoutStatuses | main.py:50 | with no status hashes, merging keeps every order as it is |
| Api.ListWithoutStatuses | main.py:41-54 | with no status hashes and every entry readable, GET /orders gives the newest records as stored, newest first |
| Api.CreatedOrderReadsBack | main.py:15-39 | a created order, looked up by the id it was given, reads back as submitted, pending and unprocessed until it has a status hash |
| Api.ProcessedOrderView | main.py:35-37 | after the worker's two writes, GET /orders/{id} shows the outcome's status and the processing time |
| Scenarios.SubmitThenLookup | main.py:15-39 | an order submitted to an empty server and looked up, by the endpoint as written, before any worker runs is pending with no processed_at |
| Scenarios.SubmitProcessLookup | worker.py:16-46 | after a worker claims and successfully processes the order, the lookup by the endpoint as written says completed with the worker's time |
| Scenarios.TwoWorkersOneOrder | redis_client.py:92-108 | with a single order waiting, the first of two workers to claim receives it and the second receives nothing |
| Scenarios.LookupUnknown | main.py:28-30 | looking up an id that was never handed out answers 404 |
| Scenarios.SubmitManyThenList | main.py:41-54 | after orders are submitted one after another, a list with a limit shows the `limit` newest, newest first, each pending |
| Scenarios.ListPending | main.py:41-54 | what GET /orders shows of a stream of orders no worker has touched |

## Left out

- The Redis connection, `ping`, host, port and environment variables (redis_client.py:9-25) are not modelled: they are I/O.
- `print` logging is left out because it has no behaviour.
- The random processing time, `time.sleep` and the 90% success draw (worker.py:28-32) are left out. The outcome is the parameter `success`.
- `time.time()` (redis_client.py:46, worker.py:42) becomes the `createdAt` and `processedAt` text parameters, and the XADD clock becomes `nowMs`. So the model cannot say that processed_at is not earlier than the claim time.
- Float prices are kept as the text the stream holds. `float()` failing on a stored price (redis_client.py:63, 83) and the text `str()` writes for a float are not modelled.
- StreamIds.ParseId: refuses spellings that Redis's fallback number parser (strtoull) accepts beyond the documented forms: a leading `+` or whitespace, such as `+5` or ` 5`, and a sign after the `-`, such as `5-+0` or `5--0`.
- Decimal.ParseInt: reads only an optional `-` followed by digits. Python's `int()` also accepts surrounding whitespace, `+` and underscores.
- The `block=1000` timeout of XREADGROUP (redis_client.py:100) is left out: a claim returns at once.
- SCAN is modelled as one pass over the key set, not as cursor batches.
- There is no concurrency. Each store operation is atomic, and two workers claiming "at the same time" are two successive claims.
- Worker.OrderProcessor.Run: runs over a finite sequence of ticks instead of `while True`. The sleeps after an empty claim and after an exception take no time. The only exceptions are a missing field and a refused ack; connection errors are not modelled.
- Worker.OrderProcessor.Run: a KeyboardInterrupt can arrive at two points of a pass. The first is before the claim. The second is right after the claim, which stands for the sleep of the first process_order just after the processing write (worker.py:29). When no first process_order reaches that sleep, it stands for the pause after an empty claim (worker.py:62) or after an exception (worker.py:69). After an exception the pause runs inside the `except Exception` handler, so an interrupt there is not caught by `except KeyboardInterrupt` and escapes run() as an exception instead of a `break`. The model ends the loop normally in that case, with the same store, and does not tell the two endings apart. Interrupts inside a print, between the terminal write and the XACK, or in a later message's sleep are not modelled.
- Worker.OrderProcessor.Run: each tick gives one outcome and one processing time for its whole batch. That is exact here, because run claims with COUNT 1.
- Worker.OrderProcessor: the command log the proofs speak about is ghost state, not something the client keeps.
- Worker.OrderProcessor.constructor: takes the store client as a parameter instead of opening a connection itself.
- Error answers carry no detail text. FastAPI routing, the root endpoint and pydantic validation (main.py:1-13, 56-66) are left out.
- run.py (launching and stopping processes) is not part of this model.

## Findings

| source | as written | input that shows it | evidently intended | confidence | as-written member | corrected member |
|---|---|---|---|---|---|---|
| main.py:33-34 | get_order reads the status hash under the requested id | GET /orders/5 once order 5-0 is completed: XRANGE finds 5-0, but the hash read is `order:status:5`, which does not exist, so the answer says pending | read the hash under the id of the order found, `order:status:5-0`, as the worker writes it and as get_orders reads it (main.py:48) | medium, not executed | Api.IncompleteIdShowsStoredStatus | Api.GetOrder |
