# depth-feeder in Dafny

A model of the per-tick logic of `depthfeeder.cpp`, a small process that polls
an exchange's order-book ("depth") endpoint every 110 ms, packs the reply into
a flat record of 64-bit numbers and broadcasts it as one UDP datagram. In
dual-source (huobi) mode a second task polls a ticker endpoint and keeps a
reference ask/bid pair that is appended to every record.

The model has two modules.

- `DepthRecord` (`depth_record.dfy`) is the record layout. `Record` is the
  layout as a function: the header `[ts, askCount]`, the ask pairs (price,
  then size) in input order when the first ask price is below the last one
  and reversed otherwise, the bid pairs in input order, and in dual-source
  mode the trailing `(refAsk, refBid)`. `PackRecord` fills a buffer of
  `MAX_DEPTH * 4 + 5` entries through a running index `n`, as the source
  does, with one loop for forward asks, one for reversed asks and one for
  bids (`PushLevels`, `PushLevelsReversed`, each stepping `Push`, the model of
  `depthPack[n++] = x`). It is proved to produce exactly `Record`, with
  `n` entries. The lemmas state the layout position by position. They also
  show that asks sorted in either direction come out non-decreasing, and that
  the reported best ask is then the lowest ask price.
- `Feeder` (`feeder.dfy`) holds the process-wide state as the class
  `Feeder`: `lastTs`, `lastRefTs`, `okAsk`, `okBid`, `isHuobi` and `url`.
  `Configure` is the source selection in `main`. `DepthTick` is the body of
  the depth task, and `RefTick` is the body of the reference-price task.
  Both tasks use the staleness guard `Admits` / `Advance`: a reply is applied
  only if its fetch-start timestamp is strictly greater than the last applied
  one and its body parsed. The trace functions `PublishedStamps` and
  `GuardAfter` replay a run of ticks through that guard. Lemmas about them
  show that the guard never decreases and that published timestamps strictly
  increase, whatever order the replies arrive in. A late reply is never
  published. The methods `OkcoinScenario`, `HuobiScenario` and
  `SelectionScenario` work through an order-book example in both modes. In
  that example the asks `[[101,1],[100,2]]` and the bids `[[99,3],[98,1]]` at
  `ts = 1000` give `[1000, 2, 100, 2, 101, 1, 99, 3, 98, 1]`, and a second
  reply at `ts = 900` is dropped.

Inputs that the source gets from the outside are parameters here:

- the fetch-start timestamp `ts`;
- the decoded reply, with `None` meaning the body did not parse (an empty
  body from a failed fetch does not parse either);
- the decoded `sell`/`buy` values of a ticker;
- the argument vector.

Prices and sizes are integers: the source only compares and copies them.

Three behaviours of the code are worth stating plainly:

- The code only compares the first and the last ask price to pick a
  direction. Asks sorted in neither direction can therefore come out with a
  price drop (`UnsortedAsksMayStayUnsorted`). Asks sorted either way come out
  non-decreasing, and the reported best ask is then the lowest
  (`SortedAsksGiveAscendingRecord`, `BestAskIsLowest`).
- An empty `ticker` still advances `lastRefTs` (depthfeeder.cpp:145-148);
  only the reference prices are left alone. `RefTick` follows the code.
- The code has no check for empty `asks`/`bids`: it indexes `asks[0]`,
  `asks[askNum - 1]` and `bids[0]` directly. `DepthTick` and `PackRecord`
  therefore require at least one ask and one bid whenever the guard admits
  the tick. What the code then really does depends on jsoncpp, which is not
  part of this model.

## Model

| member | source | states |
|---|---|---|
| `DepthRecord.Flatten` | depthfeeder.cpp:103-106 | Writing levels pair by pair yields exactly two entries per level. |
| `DepthRecord.AskSide` | depthfeeder.cpp:101-113 | The ask side written into the record has as many levels as the input. |
| `DepthRecord.Record` | depthfeeder.cpp:99-122 | The record has `2 + 2*askNum + 2*bidNum` entries, plus 2 in dual-source mode. |
| `DepthRecord.FlattenAt` | depthfeeder.cpp:104-105 | Level `k` is written at positions `2k` (price) and `2k+1` (size). |
| `DepthRecord.AskSideAt` | depthfeeder.cpp:101-113 | Ask `k` of the written side is `asks[k]` if the first price is below the last, and `asks[askNum-1-k]` otherwise, the equal case included. |
| `DepthRecord.RecordAskAt` | depthfeeder.cpp:103-112 | The `k`-th ask pair of the record, read at offset `2 + 2k`, is the `k`-th level of the ask side. |
| `DepthRecord.RecordBidAt` | depthfeeder.cpp:115-118 | The `k`-th bid pair, read at offset `2 + 2*askNum + 2k`, is `bids[k]`: the bids follow all the asks, in input order. |
| `DepthRecord.RecordLayout` | depthfeeder.cpp:99-122 | Record length; entry 0 is `ts`, entry 1 is `askNum`; asks in input order when `asks[0].price < asks[askNum-1].price`, reversed otherwise; bids in input order right after the asks; in dual-source mode `(refAsk, refBid)` are the last two entries. |
| `DepthRecord.SortedAsksGiveAscendingRecord` | depthfeeder.cpp:101-113 | If the asks are sorted ascending or descending by price, the ask prices in the record are non-decreasing. |
| `DepthRecord.BestAskIsLowest` | depthfeeder.cpp:102-108 | For asks sorted in either direction, the first ask price written is one of the ask prices and is not above any of them. |
| `DepthRecord.UnsortedAsksMayStayUnsorted` | depthfeeder.cpp:101-113 | Asks sorted in neither direction can give a record whose first ask price is above the second. |
| `DepthRecord.Push` | depthfeeder.cpp:99-100 | `depthPack[n++] = x` appends `x` to the filled prefix and moves the index by one. |
| `DepthRecord.PushLevels` | depthfeeder.cpp:103-106 | The forward loop appends the flattened levels to the filled prefix and moves the index by `2*count`. |
| `DepthRecord.PushLevelsReversed` | depthfeeder.cpp:109-112 | The backward loop appends the flattened reversed levels and moves the index by `2*count`. |
| `DepthRecord.PackRecord` | depthfeeder.cpp:95-123 | With `1 <= askNum`, `1 <= bidNum` and a record of `2 + 2*askNum + 2*bidNum` (+2 in dual-source mode) entries that fits the `MAX_DEPTH*4+5`-entry buffer, the first `n` entries of the buffer are exactly `Record(...)`, and `n` is its length. The reported `ask` is the first ask price written and `bid` the first bid price written. |
| `Feeder.Admits` | depthfeeder.cpp:91 | The guard condition shared by both tasks (also line 144): a reply is applied only if `ts > last` and its body parsed. |
| `Feeder.PublishedStamps` | depthfeeder.cpp:87-130 | The timestamps published by a run of depth tasks, serialized by the mutex, from a starting guard value: at most one per tick, and each is the timestamp of a tick whose body parsed. |
| `Feeder.GuardAfter` | depthfeeder.cpp:87-130 | The guard value after a run of depth tasks: either the starting value or the timestamp of a tick whose body parsed. |
| `Feeder.Advance` | depthfeeder.cpp:91-92 | The guard never decreases; it moves exactly when `ts > last` and the body parsed; when it moves, it moves to `ts`. |
| `Feeder.GuardNeverDecreases` | depthfeeder.cpp:91-92 | Over any run of ticks, the final guard value is at least the initial one. |
| `Feeder.PublishedStampsBounded` | depthfeeder.cpp:91-92 | Every published timestamp is above the initial guard value and at most the final one. |
| `Feeder.PublishedStampsIncrease` | depthfeeder.cpp:91-92 | Over any run of ticks, in whatever order their replies complete, the published fetch-start timestamps strictly increase. |
| `Feeder.LateReplyIsDropped` | depthfeeder.cpp:91-92 | A reply whose fetch started no later than a guard value reached earlier is never published, whatever ticks came in between. |
| `Feeder.Feeder.constructor` | depthfeeder.cpp:67-73 | Initial state: both guards 0, reference pair 0, okcoin mode, empty URL. |
| `Feeder.Feeder.Configure` | depthfeeder.cpp:173-188 | Fewer than 3 arguments, or a selector other than `okcoin`/`huobi`: exit status 0 and nothing configured. `okcoin`: the okcoin depth URL, mode unchanged. `huobi`: the huobi depth URL and dual-source mode. |
| `Feeder.Feeder.DepthTick` | depthfeeder.cpp:84-130 | A datagram is sent exactly when `ts > lastTs` and the reply parsed, and then `lastTs` becomes `ts`. Otherwise nothing is sent and `lastTs` is unchanged. Only `lastTs` is modified. The datagram is `Record(ts, asks, bids, isHuobi, okAsk, okBid)`, `8*n` bytes long, with the reported best ask and bid. |
| `Feeder.Feeder.RefTick` | depthfeeder.cpp:139-151 | `lastRefTs` moves to `ts` exactly when `ts > lastRefTs` and the reply parsed, even if `ticker` is empty. `okAsk`/`okBid` take `sell`/`buy` only when the tick was applied and the ticker is non-empty. Otherwise they keep their values. |

## Left out

- HTTP transport (`curlHttp`, `curlWriteFunc`, depthfeeder.cpp:13-56): a foreign library. A fetch is modelled only through its outcome, a reply that parsed or did not.
- `timestamp()` (depthfeeder.cpp:58-64): a wall-clock call. `ts` is a parameter.
- JSON decoding with jsoncpp, `asDouble`, `asString` and `atof`: a library that is not part of this model. Decoded values are parameters, and a ticker with `sell`/`buy` missing is given as whatever values the decoder produced.
- Floating point: prices, sizes and the `(double)` casts of `ts` and `askNum` (depthfeeder.cpp:99-100) are integers here. No rounding is modelled.
- The 64-bit width of `long long` timestamps: unbounded integers. Wall-clock milliseconds do not get near the limit.
- `sendto`, socket and destination-address setup from `argv[2]`, port 8300, and the `printf` status and usage lines (depthfeeder.cpp:123-127, 174, 179, 182, 186, 190-194): I/O. The model keeps only what is handed to `sendto` (the payload and `8*n` bytes) and the best ask/bid values that the status line prints.
- Mutex, thread creation and detaching, the `SIGALRM` handler that starts one depth task and, in huobi mode, one reference task per tick, `setitimer` at 110 ms and the `pause` loop (depthfeeder.cpp:82, 87, 130, 156-167, 196-211): concurrency and signals. Each task body is one atomic step. This hides the unsynchronised access to `okAsk`/`okBid` from the reference task. It also hides that `refThread` checks and then sets `lastRefTs` without a lock (depthfeeder.cpp:144-145): two overlapping reference tasks can both pass the guard, and the older one can then write `lastRefTs` backwards. `RefTick`'s monotone guard holds only under the one-atomic-step assumption.
- `PackRecord` and `DepthTick`: the buffer is never bounds-checked. A record of more than `MAX_DEPTH*4+5` entries (2049 levels in single-source mode, 2048 in dual-source mode) would overflow the stack array; that is excluded by the precondition rather than modelled.
- `DepthTick`: empty `asks` or `bids` on an admitted tick are excluded by the precondition. The source reads `asks[0]`, `asks[askNum-1]` and `bids[0]` unchecked, and its behaviour then depends on jsoncpp.
