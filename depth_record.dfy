/**
 * The binary record that the depth feeder broadcasts once per applied tick:
 * a flat sequence of numbers
 *
 *   [ts, askCount, ask1.price, ask1.size, ..., bid1.price, bid1.size, ... (, refAsk, refBid)]
 *
 * where the asks are put in ascending direction by comparing the first and
 * the last price, the bids keep the order in which they arrived, and the
 * reference pair is present only in the dual-source (huobi) mode.
 *
 * `Record` is the specification of the layout; `PackRecord` fills a fixed
 * size buffer through a running index the way the feeder does and is proved
 * to produce exactly `Record`.
 */
module DepthRecord {

  /** The book depth the packing buffer is sized for; the buffer holds MAX_DEPTH * 4 + 5 numbers. */
  const MAX_DEPTH: nat := 1024
  const PACK_CAPACITY: nat := MAX_DEPTH * 4 + 5

  /** One price level of an order book, as decoded from `[price, size, ...]`. */
  datatype Level = Level(price: int, size: int)

  /**
   * What the feeder needs of a decoded reply before it may pack it: an ask and
   * a bid to read the best prices from, and a record that fits the buffer.
   */
  predicate Packable(asks: seq<Level>, bids: seq<Level>, withRef: bool)
  {
    1 <= |asks| && 1 <= |bids| && 2 + 2 * |asks| + 2 * |bids| + RefEntries(withRef) <= PACK_CAPACITY
  }

  /** The levels written pair by pair, price first, then size. */
  function Flatten(levels: seq<Level>): (r: seq<int>)
    ensures |r| == 2 * |levels|
  {
    if levels == [] then [] else [levels[0].price, levels[0].size] + Flatten(levels[1..])
  }

  function Reverse(levels: seq<Level>): (r: seq<Level>)
    ensures |r| == |levels|
  {
    if levels == [] then [] else Reverse(levels[1..]) + [levels[0]]
  }

  /**
   * The asks in the order they are written: in input order when the first
   * price is below the last one, otherwise (the equal case included) reversed.
   */
  function AskSide(asks: seq<Level>): (r: seq<Level>)
    ensures |r| == |asks|
  {
    if |asks| > 0 && asks[0].price < asks[|asks| - 1].price then asks else Reverse(asks)
  }

  /** Number of entries the trailing reference pair adds. */
  function RefEntries(withRef: bool): nat
  {
    if withRef then 2 else 0
  }

  /** The whole record handed to the socket. */
  function Record(ts: int, asks: seq<Level>, bids: seq<Level>, withRef: bool, refAsk: int, refBid: int): (r: seq<int>)
    ensures |r| == 2 + 2 * |asks| + 2 * |bids| + RefEntries(withRef)
  {
    [ts, |asks|] + Flatten(AskSide(asks)) + Flatten(bids) + (if withRef then [refAsk, refBid] else [])
  }

  /** The k-th ask pair of a record, read back from its position in the layout. */
  function RecordAsk(r: seq<int>, k: nat): Level
    requires 3 + 2 * k < |r|
  {
    Level(r[2 + 2 * k], r[3 + 2 * k])
  }

  /** The k-th bid pair of a record carrying askCount ask pairs. */
  function RecordBid(r: seq<int>, askCount: nat, k: nat): Level
    requires 3 + 2 * askCount + 2 * k < |r|
  {
    Level(r[2 + 2 * askCount + 2 * k], r[3 + 2 * askCount + 2 * k])
  }

  /** Prices non-decreasing along the sequence. */
  predicate Ascending(levels: seq<Level>)
  {
    forall i, j :: 0 <= i < j < |levels| ==> levels[i].price <= levels[j].price
  }

  /** Prices non-increasing along the sequence. */
  predicate Descending(levels: seq<Level>)
  {
    forall i, j :: 0 <= i < j < |levels| ==> levels[i].price >= levels[j].price
  }

  // ---------------------------------------------------------------------
  // Facts about the building blocks
  // ---------------------------------------------------------------------

  /** Level k sits at positions 2k (price) and 2k+1 (size). */
  lemma {:induction false} FlattenAt(levels: seq<Level>, k: nat)
    requires k < |levels|
    ensures |Flatten(levels)| == 2 * |levels|
    ensures Flatten(levels)[2 * k] == levels[k].price
    ensures Flatten(levels)[2 * k + 1] == levels[k].size
  {
    if k > 0 {
      FlattenAt(levels[1..], k - 1);
    }
  }

  lemma {:induction false} FlattenAppend(s: seq<Level>, t: seq<Level>)
    ensures Flatten(s + t) == Flatten(s) + Flatten(t)
  {
    if s == [] {
      assert s + t == t;
    } else {
      assert (s + t)[1..] == s[1..] + t;
      FlattenAppend(s[1..], t);
    }
  }

  /** Writing one more pair after a flattened prefix. */
  lemma FlattenSnoc(s: seq<Level>, x: Level)
    ensures Flatten(s + [x]) == Flatten(s) + [x.price, x.size]
  {
    FlattenAppend(s, [x]);
    assert [x][1..] == [];
  }

  lemma {:induction false} ReverseAt(s: seq<Level>, k: nat)
    requires k < |s|
    ensures |Reverse(s)| == |s|
    ensures Reverse(s)[k] == s[|s| - 1 - k]
  {
    if k < |s| - 1 {
      ReverseAt(s[1..], k);
    }
  }

  /** The ordering rule for asks, position by position. */
  lemma AskSideAt(asks: seq<Level>, k: nat)
    requires k < |asks|
    ensures |AskSide(asks)| == |asks|
    ensures AskSide(asks)[k] ==
      if asks[0].price < asks[|asks| - 1].price then asks[k] else asks[|asks| - 1 - k]
  {
    ReverseAt(asks, k);
  }

  // ---------------------------------------------------------------------
  // The record layout
  // ---------------------------------------------------------------------

  /** The k-th ask pair of the record is the k-th entry of the ask side. */
  lemma RecordAskAt(ts: int, asks: seq<Level>, bids: seq<Level>, withRef: bool, refAsk: int, refBid: int, k: nat)
    requires k < |asks|
    ensures RecordAsk(Record(ts, asks, bids, withRef, refAsk, refBid), k) == AskSide(asks)[k]
  {
    var side := Flatten(AskSide(asks));
    var front := [ts, |asks|] + side;
    var back := Flatten(bids) + (if withRef then [refAsk, refBid] else []);
    assert Record(ts, asks, bids, withRef, refAsk, refBid) == front + back;
    FlattenAt(AskSide(asks), k);
    assert front[2 + 2 * k] == side[2 * k];
    assert front[3 + 2 * k] == side[2 * k + 1];
  }

  /** The k-th bid pair of the record is the k-th bid of the input. */
  lemma RecordBidAt(ts: int, asks: seq<Level>, bids: seq<Level>, withRef: bool, refAsk: int, refBid: int, k: nat)
    requires k < |bids|
    ensures RecordBid(Record(ts, asks, bids, withRef, refAsk, refBid), |asks|, k) == bids[k]
  {
    var front := [ts, |asks|] + Flatten(AskSide(asks));
    var middle := Flatten(bids);
    var tail: seq<int> := if withRef then [refAsk, refBid] else [];
    assert Record(ts, asks, bids, withRef, refAsk, refBid) == front + (middle + tail);
    FlattenAt(bids, k);
    assert (middle + tail)[2 * k] == middle[2 * k];
    assert (middle + tail)[2 * k + 1] == middle[2 * k + 1];
  }

  /**
   * The record is the header [ts, askCount], then the ask pairs in the
   * direction the ordering rule picks, then the bid pairs in input order, then
   * (in dual-source mode only) the reference pair as the last two entries.
   */
  lemma RecordLayout(ts: int, asks: seq<Level>, bids: seq<Level>, withRef: bool, refAsk: int, refBid: int)
    ensures |Record(ts, asks, bids, withRef, refAsk, refBid)|
         == 2 + 2 * |asks| + 2 * |bids| + RefEntries(withRef)
    ensures Record(ts, asks, bids, withRef, refAsk, refBid)[0] == ts
    ensures Record(ts, asks, bids, withRef, refAsk, refBid)[1] == |asks|
    ensures asks != [] && asks[0].price < asks[|asks| - 1].price ==>
      forall k: nat :: k < |asks| ==>
        RecordAsk(Record(ts, asks, bids, withRef, refAsk, refBid), k) == asks[k]
    ensures asks != [] && asks[0].price >= asks[|asks| - 1].price ==>
      forall k: nat :: k < |asks| ==>
        RecordAsk(Record(ts, asks, bids, withRef, refAsk, refBid), k) == asks[|asks| - 1 - k]
    ensures forall k: nat :: k < |bids| ==>
      RecordBid(Record(ts, asks, bids, withRef, refAsk, refBid), |asks|, k) == bids[k]
    ensures withRef ==>
      Record(ts, asks, bids, withRef, refAsk, refBid)[2 + 2 * |asks| + 2 * |bids|] == refAsk &&
      Record(ts, asks, bids, withRef, refAsk, refBid)[3 + 2 * |asks| + 2 * |bids|] == refBid
  {
    forall k: nat | k < |asks|
      ensures RecordAsk(Record(ts, asks, bids, withRef, refAsk, refBid), k) == AskSide(asks)[k]
    {
      RecordAskAt(ts, asks, bids, withRef, refAsk, refBid, k);
    }
    forall k: nat | k < |asks|
      ensures AskSide(asks)[k] ==
        if asks[0].price < asks[|asks| - 1].price then asks[k] else asks[|asks| - 1 - k]
    {
      AskSideAt(asks, k);
    }
    forall k: nat | k < |bids|
      ensures RecordBid(Record(ts, asks, bids, withRef, refAsk, refBid), |asks|, k) == bids[k]
    {
      RecordBidAt(ts, asks, bids, withRef, refAsk, refBid, k);
    }
  }

  /**
   * With asks sorted in either direction, the ask prices in the record are
   * non-decreasing.
   */
  lemma SortedAsksGiveAscendingRecord(ts: int, asks: seq<Level>, bids: seq<Level>, withRef: bool, refAsk: int, refBid: int)
    requires Ascending(asks) || Descending(asks)
    ensures forall j: nat, k: nat :: j < k < |asks| ==>
      RecordAsk(Record(ts, asks, bids, withRef, refAsk, refBid), j).price
        <= RecordAsk(Record(ts, asks, bids, withRef, refAsk, refBid), k).price
  {
    RecordLayout(ts, asks, bids, withRef, refAsk, refBid);
    var r := Record(ts, asks, bids, withRef, refAsk, refBid);
    var last := |asks| - 1;
    forall j: nat, k: nat | j < k < |asks|
      ensures RecordAsk(r, j).price <= RecordAsk(r, k).price
    {
      if asks[0].price < asks[last].price {
        // a descending input cannot have its first price below its last
        assert Ascending(asks);
      } else if Ascending(asks) {
        // ascending with first >= last: every price is the same
        assert asks[last - j].price <= asks[last].price <= asks[0].price <= asks[last - k].price;
      }
    }
  }

  /**
   * The price reported as the best ask (the first ask price written) is the
   * lowest ask price when the input is sorted in either direction.
   */
  lemma BestAskIsLowest(ts: int, asks: seq<Level>, bids: seq<Level>, withRef: bool, refAsk: int, refBid: int)
    requires 1 <= |asks|
    requires Ascending(asks) || Descending(asks)
    ensures RecordAsk(Record(ts, asks, bids, withRef, refAsk, refBid), 0).price in
      set k | 0 <= k < |asks| :: asks[k].price
    ensures forall k :: 0 <= k < |asks| ==>
      RecordAsk(Record(ts, asks, bids, withRef, refAsk, refBid), 0).price <= asks[k].price
  {
    RecordLayout(ts, asks, bids, withRef, refAsk, refBid);
    var last := |asks| - 1;
    var best := RecordAsk(Record(ts, asks, bids, withRef, refAsk, refBid), 0).price;
    if asks[0].price < asks[last].price {
      assert best == asks[0].price;
    } else {
      assert best == asks[last].price;
      forall k | 0 <= k < |asks| ensures best <= asks[k].price {
        if Ascending(asks) {
          assert asks[last].price <= asks[0].price <= asks[k].price;
        }
      }
    }
  }

  /**
   * Direction is normalized, not order: asks that are not sorted in either
   * direction can come out with a price drop.
   */
  lemma UnsortedAsksMayStayUnsorted()
    ensures var asks := [Level(2, 1), Level(1, 1), Level(3, 1)];
      var r := Record(7, asks, [Level(0, 1)], false, 0, 0);
      RecordAsk(r, 0).price > RecordAsk(r, 1).price
  {
    var asks := [Level(2, 1), Level(1, 1), Level(3, 1)];
    RecordLayout(7, asks, [Level(0, 1)], false, 0, 0);
  }

  // ---------------------------------------------------------------------
  // Packing into the buffer
  // ---------------------------------------------------------------------

  /** `buf[n++] = x`: stores x at the running index and returns the next index. */
  method Push(buf: array<int>, n: nat, x: int) returns (next: nat)
    requires n < buf.Length
    modifies buf
    ensures next == n + 1
    ensures buf[..next] == old(buf[..n]) + [x]
  {
    buf[n] := x;
    next := n + 1;
    assert buf[..next] == buf[..n] + [x];
  }

  /** Writes the levels pair by pair in input order, starting at index n. */
  method PushLevels(buf: array<int>, n: nat, levels: seq<Level>) returns (next: nat)
    requires n + 2 * |levels| <= buf.Length
    modifies buf
    ensures next == n + 2 * |levels|
    ensures buf[..next] == old(buf[..n]) + Flatten(levels)
  {
    ghost var before := buf[..n];
    next := n;
    var i := 0;
    while i < |levels|
      invariant 0 <= i <= |levels|
      invariant next == n + 2 * i
      invariant buf[..next] == before + Flatten(levels[..i])
    {
      next := Push(buf, next, levels[i].price);
      next := Push(buf, next, levels[i].size);
      assert levels[..i + 1] == levels[..i] + [levels[i]];
      FlattenSnoc(levels[..i], levels[i]);
      i := i + 1;
    }
    assert levels[..|levels|] == levels;
  }

  /** Writes the levels pair by pair from the last one to the first, starting at index n. */
  method PushLevelsReversed(buf: array<int>, n: nat, levels: seq<Level>) returns (next: nat)
    requires n + 2 * |levels| <= buf.Length
    modifies buf
    ensures next == n + 2 * |levels|
    ensures buf[..next] == old(buf[..n]) + Flatten(Reverse(levels))
  {
    ghost var before := buf[..n];
    next := n;
    var i := |levels| - 1;
    while i >= 0
      invariant -1 <= i < |levels|
      invariant next == n + 2 * (|levels| - 1 - i)
      invariant buf[..next] == before + Flatten(Reverse(levels[i + 1..]))
    {
      next := Push(buf, next, levels[i].price);
      next := Push(buf, next, levels[i].size);
      assert levels[i..][1..] == levels[i + 1..];
      FlattenSnoc(Reverse(levels[i + 1..]), levels[i]);
      i := i - 1;
    }
    assert levels[0..] == levels;
  }

  /**
   * Fills a buffer of PACK_CAPACITY numbers through the running index n:
   * the header, the asks forward or backward, the bids, and in dual-source
   * mode the reference pair. Returns what is handed to the socket (the
   * first n entries), n itself, and the reported best ask and best bid.
   */
  method PackRecord(ts: int, asks: seq<Level>, bids: seq<Level>, withRef: bool, refAsk: int, refBid: int)
    returns (payload: seq<int>, n: nat, ask: int, bid: int)
    requires Packable(asks, bids, withRef)
    ensures payload == Record(ts, asks, bids, withRef, refAsk, refBid)
    ensures n == |payload| == 2 + 2 * |asks| + 2 * |bids| + RefEntries(withRef)
    ensures ask == RecordAsk(payload, 0).price
    ensures bid == RecordBid(payload, |asks|, 0).price
  {
    var depthPack := new int[PACK_CAPACITY];
    var askNum := |asks|;
    n := 0;
    n := Push(depthPack, n, ts);
    n := Push(depthPack, n, askNum);
    ghost var header := [ts, askNum];
    assert depthPack[..n] == header;
    if asks[0].price < asks[askNum - 1].price {
      ask := asks[0].price;
      n := PushLevels(depthPack, n, asks);
    } else {
      ask := asks[askNum - 1].price;
      n := PushLevelsReversed(depthPack, n, asks);
    }
    ghost var withAsks := header + Flatten(AskSide(asks));
    assert depthPack[..n] == withAsks;
    bid := bids[0].price;
    n := PushLevels(depthPack, n, bids);
    ghost var withBids := withAsks + Flatten(bids);
    assert depthPack[..n] == withBids;
    if withRef {
      n := Push(depthPack, n, refAsk);
      n := Push(depthPack, n, refBid);
      assert depthPack[..n] == withBids + [refAsk, refBid];
    }
    payload := depthPack[..n];

    RecordAskAt(ts, asks, bids, withRef, refAsk, refBid, 0);
    AskSideAt(asks, 0);
    RecordBidAt(ts, asks, bids, withRef, refAsk, refBid, 0);
  }
}
