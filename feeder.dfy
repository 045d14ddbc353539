/**
 * The feeder's process-wide state and the three pieces of code that change
 * it: the source selection at startup, the body of the depth task run on
 * every timer tick, and the body of the reference-price task run beside it
 * in dual-source (huobi) mode. Each task body is one atomic step here; the
 * network fetch and the JSON decoding happen before it and arrive as
 * parameters (the fetch-start timestamp and the decoded reply, `None` when
 * the body did not parse).
 */
module Feeder {
  import opened DepthRecord

  datatype Option<T> = None | Some(value: T)

  /** A decoded depth reply: the `asks` and `bids` arrays of `[price, size]`. */
  datatype Depth = Depth(asks: seq<Level>, bids: seq<Level>)

  /** The `sell` and `buy` fields of a non-empty `ticker` object. */
  datatype Quote = Quote(sell: int, buy: int)

  /** A decoded ticker reply; `ticker` is `None` when that member is empty or missing. */
  datatype TickerReply = TickerReply(ticker: Option<Quote>)

  /**
   * What one applied depth tick hands to the socket and to the status line:
   * the record, its length in bytes, and the reported best ask and best bid.
   */
  datatype Datagram = Datagram(payload: seq<int>, byteLength: nat, ask: int, bid: int)

  const OKCOIN_SELECTOR := "okcoin"
  const HUOBI_SELECTOR := "huobi"
  const OKCOIN_DEPTH_URL := "www.okcoin.cn/api/v1/depth.do?symbol=btc_cny"
  const HUOBI_DEPTH_URL := "api.huobi.com/staticmarket/depth_btc_json.js"

  /** Each value of the record is a 64-bit float on the wire. */
  const BYTES_PER_ENTRY: nat := 8

  /**
   * The staleness guard shared by both tasks: a reply is applied only when its
   * fetch started strictly after the last applied one and its body parsed.
   */
  predicate Admits(last: int, ts: int, parsed: bool)
  {
    ts > last && parsed
  }

  /** The guard's value after a tick: it moves to ts exactly when the tick is admitted. */
  function Advance(last: int, ts: int, parsed: bool): (next: int)
    ensures next >= last
    ensures next > last <==> Admits(last, ts, parsed)
    ensures next > last ==> next == ts
  {
    if Admits(last, ts, parsed) then ts else last
  }

  /**
   * The fetch-start timestamps of the ticks that get published, for a run of
   * ticks (ts, parsed) starting from guard value `last`.
   */
  function PublishedStamps(last: int, ticks: seq<(int, bool)>): (r: seq<int>)
    ensures |r| <= |ticks|
    ensures forall i :: 0 <= i < |r| ==> (r[i], true) in ticks
    decreases ticks
  {
    if ticks == [] then []
    else
      var (ts, parsed) := ticks[0];
      (if Admits(last, ts, parsed) then [ts] else []) + PublishedStamps(Advance(last, ts, parsed), ticks[1..])
  }

  /** The guard's value after a run of ticks. */
  function GuardAfter(last: int, ticks: seq<(int, bool)>): (r: int)
    ensures r == last || (r, true) in ticks
    decreases ticks
  {
    if ticks == [] then last
    else GuardAfter(Advance(last, ticks[0].0, ticks[0].1), ticks[1..])
  }

  /** Over any run of ticks the guard never goes back. */
  lemma {:induction false} GuardNeverDecreases(last: int, ticks: seq<(int, bool)>)
    ensures GuardAfter(last, ticks) >= last
    decreases ticks
  {
    if ticks != [] {
      GuardNeverDecreases(Advance(last, ticks[0].0, ticks[0].1), ticks[1..]);
    }
  }

  /**
   * Every published timestamp lies above the starting guard value and at most
   * at the final one.
   */
  lemma {:induction false} PublishedStampsBounded(last: int, ticks: seq<(int, bool)>)
    ensures forall i :: 0 <= i < |PublishedStamps(last, ticks)| ==>
      last < PublishedStamps(last, ticks)[i] <= GuardAfter(last, ticks)
    decreases ticks
  {
    if ticks != [] {
      var (ts, parsed) := ticks[0];
      var next := Advance(last, ts, parsed);
      var rest := PublishedStamps(next, ticks[1..]);
      PublishedStampsBounded(next, ticks[1..]);
      GuardNeverDecreases(next, ticks[1..]);
      assert GuardAfter(last, ticks) == GuardAfter(next, ticks[1..]);
      if Admits(last, ts, parsed) {
        assert PublishedStamps(last, ticks) == [ts] + rest;
      } else {
        assert PublishedStamps(last, ticks) == rest;
      }
    }
  }

  predicate StrictlyIncreasing(s: seq<int>)
  {
    forall i, j :: 0 <= i < j < |s| ==> s[i] < s[j]
  }

  lemma PrependIncreasing(x: int, rest: seq<int>)
    requires StrictlyIncreasing(rest)
    requires forall i :: 0 <= i < |rest| ==> x < rest[i]
    ensures StrictlyIncreasing([x] + rest)
  {
    var all := [x] + rest;
    forall i, j | 0 <= i < j < |all| ensures all[i] < all[j] {
      assert all[j] == rest[j - 1];
      if i > 0 {
        assert all[i] == rest[i - 1];
      }
    }
  }

  /**
   * Over any run of ticks, whatever order their replies arrive in, the
   * published timestamps are strictly increasing.
   */
  lemma {:induction false} PublishedStampsIncrease(last: int, ticks: seq<(int, bool)>)
    ensures StrictlyIncreasing(PublishedStamps(last, ticks))
    decreases ticks
  {
    if ticks != [] {
      var (ts, parsed) := ticks[0];
      var next := Advance(last, ts, parsed);
      var rest := PublishedStamps(next, ticks[1..]);
      PublishedStampsIncrease(next, ticks[1..]);
      if Admits(last, ts, parsed) {
        PublishedStampsBounded(next, ticks[1..]);
        PrependIncreasing(ts, rest);
      }
    }
  }

  /**
   * A tick whose fetch started no later than the last applied one is never
   * published, however many ticks came in between.
   */
  lemma {:induction false} LateReplyIsDropped(last: int, ticks: seq<(int, bool)>, ts: int, parsed: bool)
    requires ts <= last
    ensures PublishedStamps(last, ticks + [(ts, parsed)]) == PublishedStamps(last, ticks)
    decreases ticks
  {
    if ticks == [] {
      assert [(ts, parsed)][1..] == [];
    } else {
      var next := Advance(last, ticks[0].0, ticks[0].1);
      assert (ticks + [(ts, parsed)])[1..] == ticks[1..] + [(ts, parsed)];
      LateReplyIsDropped(next, ticks[1..], ts, parsed);
    }
  }

  class Feeder {
    /** Fetch-start time of the last applied depth reply. */
    var lastTs: int
    /** Fetch-start time of the last applied ticker reply. */
    var lastRefTs: int
    /** The reference pair appended in dual-source mode. */
    var okAsk: int
    var okBid: int
    var isHuobi: bool
    /** The depth endpoint polled on every tick. */
    var url: string

    /** The process state before `main` runs. */
    constructor ()
      ensures lastTs == 0 && lastRefTs == 0
      ensures okAsk == 0 && okBid == 0
      ensures !isHuobi && url == ""
    {
      lastTs := 0;
      lastRefTs := 0;
      okAsk := 0;
      okBid := 0;
      isHuobi := false;
      url := "";
    }

    /**
     * The source selection at startup. With fewer than three arguments or an
     * unknown selector the program exits with status 0 and nothing is
     * configured; otherwise it goes on with the chosen endpoint.
     */
    method Configure(argv: seq<string>) returns (exitStatus: Option<int>)
      modifies this`url, this`isHuobi
      ensures exitStatus.None? <==> |argv| >= 3 && argv[1] in {OKCOIN_SELECTOR, HUOBI_SELECTOR}
      ensures exitStatus.Some? ==> exitStatus.value == 0 && url == old(url) && isHuobi == old(isHuobi)
      ensures exitStatus.None? && argv[1] == OKCOIN_SELECTOR ==>
        url == OKCOIN_DEPTH_URL && isHuobi == old(isHuobi)
      ensures exitStatus.None? && argv[1] == HUOBI_SELECTOR ==>
        url == HUOBI_DEPTH_URL && isHuobi
    {
      if |argv| < 3 {
        return Some(0);
      }
      if argv[1] == OKCOIN_SELECTOR {
        url := OKCOIN_DEPTH_URL;
      } else if argv[1] == HUOBI_SELECTOR {
        url := HUOBI_DEPTH_URL;
        isHuobi := true;
      } else {
        return Some(0);
      }
      exitStatus := None;
    }

    /**
     * One depth task. A reply is applied only when its fetch started after the
     * last applied one and it parsed; then the guard moves to ts and the record
     * is built and sent. Otherwise nothing is sent and nothing changes.
     */
    method DepthTick(ts: int, reply: Option<Depth>) returns (sent: Option<Datagram>)
      requires reply.Some? && Admits(lastTs, ts, true) ==> Packable(reply.value.asks, reply.value.bids, isHuobi)
      modifies this`lastTs
      ensures sent.Some? <==> Admits(old(lastTs), ts, reply.Some?)
      ensures lastTs == Advance(old(lastTs), ts, reply.Some?)
      ensures sent.Some? ==>
        var r := Record(ts, reply.value.asks, reply.value.bids, isHuobi, okAsk, okBid);
        && sent.value.payload == r
        && sent.value.byteLength == BYTES_PER_ENTRY * |r|
        && sent.value.ask == RecordAsk(r, 0).price
        && sent.value.bid == RecordBid(r, |reply.value.asks|, 0).price
    {
      if ts > lastTs && reply.Some? {
        lastTs := ts;
        var payload, n, ask, bid := PackRecord(ts, reply.value.asks, reply.value.bids, isHuobi, okAsk, okBid);
        sent := Some(Datagram(payload, BYTES_PER_ENTRY * n, ask, bid));
      } else {
        sent := None;
      }
    }

    /**
     * One reference-price task. A reply is applied under its own guard; the
     * guard advances even when the ticker is empty, and only a non-empty
     * ticker replaces the reference pair.
     */
    method RefTick(ts: int, reply: Option<TickerReply>)
      modifies this`lastRefTs, this`okAsk, this`okBid
      ensures lastRefTs == Advance(old(lastRefTs), ts, reply.Some?)
      ensures Admits(old(lastRefTs), ts, reply.Some?) && reply.value.ticker.Some? ==>
        okAsk == reply.value.ticker.value.sell && okBid == reply.value.ticker.value.buy
      ensures !(Admits(old(lastRefTs), ts, reply.Some?) && reply.value.ticker.Some?) ==>
        okAsk == old(okAsk) && okBid == old(okBid)
    {
      if ts > lastRefTs && reply.Some? {
        lastRefTs := ts;
        if reply.value.ticker.None? {
          return;
        }
        okAsk := reply.value.ticker.value.sell;
        okBid := reply.value.ticker.value.buy;
      }
    }
  }

  /**
   * Single-source mode: a descending ask list is written ascending, and a
   * reply whose fetch started before the applied one is dropped.
   */
  method OkcoinScenario()
  {
    var depth := Depth([Level(101, 1), Level(100, 2)], [Level(99, 3), Level(98, 1)]);

    var okcoin := new Feeder();
    var exit := okcoin.Configure(["depthfeeder", "okcoin", "127.0.0.1"]);
    assert exit.None? && !okcoin.isHuobi;
    var first := okcoin.DepthTick(1000, Some(depth));
    RecordLayout(1000, depth.asks, depth.bids, false, 0, 0);
    assert first.Some?;
    assert first.value.payload == [1000, 2, 100, 2, 101, 1, 99, 3, 98, 1];
    assert first.value.byteLength == 80;
    assert okcoin.lastTs == 1000;
    var late := okcoin.DepthTick(900, Some(depth));
    assert late.None? && okcoin.lastTs == 1000;
    var unparsed := okcoin.DepthTick(1100, None);
    assert unparsed.None? && okcoin.lastTs == 1000;
  }

  /** Dual-source mode: the reference pair survives an empty ticker and is appended last. */
  method HuobiScenario()
  {
    var depth := Depth([Level(101, 1), Level(100, 2)], [Level(99, 3), Level(98, 1)]);
    var huobi := new Feeder();
    var exit := huobi.Configure(["depthfeeder", "huobi", "127.0.0.1"]);
    assert exit.None? && huobi.isHuobi;
    huobi.RefTick(10, Some(TickerReply(Some(Quote(102, 97)))));
    huobi.RefTick(20, Some(TickerReply(None)));
    assert huobi.lastRefTs == 20 && huobi.okAsk == 102 && huobi.okBid == 97;
    var withRef := huobi.DepthTick(30, Some(depth));
    RecordLayout(30, depth.asks, depth.bids, true, 102, 97);
    assert withRef.Some?;
    assert withRef.value.payload == [30, 2, 100, 2, 101, 1, 99, 3, 98, 1, 102, 97];
    assert withRef.value.byteLength == 96;
  }

  /** An unknown selector or a missing argument configures nothing. */
  method SelectionScenario()
  {
    var unknown := new Feeder();
    var exit := unknown.Configure(["depthfeeder", "bitstamp", "127.0.0.1"]);
    assert exit == Some(0) && unknown.url == "" && !unknown.isHuobi;
    exit := unknown.Configure(["depthfeeder", "huobi"]);
    assert exit == Some(0) && unknown.url == "" && !unknown.isHuobi;
  }
}
