/**
 * The pure part of the market-stream API (src/realtime_market.rs): kline
 * intervals with their names, the stream names a subscription lists, the
 * mini-ticker checks, and the conversion of a REST kline into the
 * streamed kline record.
 */
module Streams {
  import opened Wrappers
  import opened Text
  import Market

  /** `Interval`; `Min1` is its default. */
  datatype Interval =
    | Sec1 | Min1 | Min3 | Min5 | Min15 | Min30
    | Hour1 | Hour2 | Hour4 | Hour6 | Hour8 | Hour12
    | Day1 | Day3 | Week1 | Month1

  const DefaultInterval: Interval := Min1

  /** `Interval`'s `Display`, which is also its serde name. */
  function IntervalName(i: Interval): string {
    match i
    case Sec1 => "1s"
    case Min1 => "1m"
    case Min3 => "3m"
    case Min5 => "5m"
    case Min15 => "15m"
    case Min30 => "30m"
    case Hour1 => "1h"
    case Hour2 => "2h"
    case Hour4 => "4h"
    case Hour6 => "6h"
    case Hour8 => "8h"
    case Hour12 => "12h"
    case Day1 => "1d"
    case Day3 => "3d"
    case Week1 => "1w"
    case Month1 => "1M"
  }

  /**
   * `Interval::from_str`: exactly the sixteen names are accepted, each
   * giving the interval it names; anything else is an error that quotes
   * the input.
   */
  function ParseInterval(s: string): (r: Result<Interval, string>)
    ensures r.Ok? ==> IntervalName(r.value) == s
    ensures r.Err? ==> r.error == "invalid interval " + s && forall i :: IntervalName(i) != s
  {
    match s
    case "1s" => Ok(Sec1)
    case "1m" => Ok(Min1)
    case "3m" => Ok(Min3)
    case "5m" => Ok(Min5)
    case "15m" => Ok(Min15)
    case "30m" => Ok(Min30)
    case "1h" => Ok(Hour1)
    case "2h" => Ok(Hour2)
    case "4h" => Ok(Hour4)
    case "6h" => Ok(Hour6)
    case "8h" => Ok(Hour8)
    case "12h" => Ok(Hour12)
    case "1d" => Ok(Day1)
    case "3d" => Ok(Day3)
    case "1w" => Ok(Week1)
    case "1M" => Ok(Month1)
    case _ => Err("invalid interval " + s)
  }

  /** Printing an interval and parsing the name gives the interval back. */
  lemma IntervalRoundTrip(i: Interval)
    ensures ParseInterval(IntervalName(i)) == Ok(i)
  {
    var r := ParseInterval(IntervalName(i));
    if r.Ok? {
      IntervalNameInjective(r.value, i);
    }
  }

  lemma ParsesName(s: string, i: Interval)
    requires s == IntervalName(i)
    ensures ParseInterval(s) == Ok(i)
  {
    IntervalRoundTrip(i);
  }

  /** No two intervals share a name. */
  lemma IntervalNameInjective(i: Interval, j: Interval)
    requires IntervalName(i) == IntervalName(j)
    ensures i == j
  {
    assert IntervalName(i)[..|IntervalName(i)|] == IntervalName(j);
  }

  /** The stream name of one (symbol, interval) pair: `<lower-case symbol>@kline_<interval>`. */
  function KlineTopic(symbol: string, i: Interval): string {
    Lower(symbol) + "@kline_" + IntervalName(i)
  }

  /** `KlineEvent::params`: one stream name per pair, in order. */
  function KlineEventParams(symbols: seq<(string, Interval)>): (r: seq<string>)
    ensures |r| == |symbols|
    ensures forall k :: 0 <= k < |symbols| ==> r[k] == KlineTopic(symbols[k].0, symbols[k].1)
  {
    seq(|symbols|, k requires 0 <= k < |symbols| => KlineTopic(symbols[k].0, symbols[k].1))
  }

  /**
   * A kline stream name gives back what it was built from: a lower-case
   * symbol, the marker, and a name `Interval::from_str` parses to the
   * interval.
   */
  lemma KlineTopicParts(symbol: string, i: Interval)
    ensures var t := KlineTopic(symbol, i); var n := |symbol|;
      t[..n] == Lower(symbol) && IsLower(t[..n]) &&
      t[n..n + 7] == "@kline_" &&
      ParseInterval(t[n + 7..]) == Ok(i)
  {
    var l := Lower(symbol);
    LowerIsLowerAndIdempotent(symbol);
    ThreeParts(l, "@kline_", IntervalName(i));
    ParsesName(IntervalName(i), i);
  }

  lemma ThreeParts(a: string, b: string, c: string)
    ensures var t := a + b + c;
      t[..|a|] == a && t[|a|..|a| + |b|] == b && t[|a| + |b|..] == c
  {
  }

  /** The suffix of every mini-ticker stream name. */
  const MiniTickerSuffix: string := "@miniTicker"

  /** `MiniTicker::params`: one stream name per symbol, in order. */
  function MiniTickerParams(symbols: seq<string>): (r: seq<string>)
    ensures |r| == |symbols|
    ensures forall k :: 0 <= k < |symbols| ==> r[k] == symbols[k] + MiniTickerSuffix
  {
    seq(|symbols|, k requires 0 <= k < |symbols| => symbols[k] + MiniTickerSuffix)
  }

  /** `MiniTicker::check_stream`: a suffix test. */
  function CheckStream(stream: string): (r: bool)
    ensures r <==> |stream| >= 10 && stream[|stream| - 10..] == "miniTicker"
  {
    EndsWith(stream, "miniTicker")
  }

  /** `MiniTicker::check_event`: the event type must be exactly `24hrMiniTicker`. */
  function CheckEvent(event: string): (r: bool)
    ensures r <==> event == "24hrMiniTicker"
  {
    event == "24hrMiniTicker"
  }

  /** Every stream `MiniTicker::params` names passes `check_stream`. */
  lemma MiniTickerParamsPassCheck(symbols: seq<string>)
    ensures forall k :: 0 <= k < |symbols| ==> CheckStream(MiniTickerParams(symbols)[k])
  {
    forall k | 0 <= k < |symbols|
      ensures CheckStream(MiniTickerParams(symbols)[k])
    {
      var t := MiniTickerParams(symbols)[k];
      assert t[|t| - 10..] == MiniTickerSuffix[1..];
    }
  }

  /** `KData`, the kline record of the market stream. */
  datatype KData = KData(
    openTime: int,
    closeTime: int,
    symbol: string,
    interval: Interval,
    firstId: int,
    lastId: int,
    open: Market.Decimal,
    close: Market.Decimal,
    high: Market.Decimal,
    low: Market.Decimal,
    volume: Market.Decimal,
    tradeNum: nat,
    isEnd: bool,
    qty: Market.Decimal,
    takeVolume: Market.Decimal,
    takeQty: Market.Decimal,
    ignore: string)

  /**
   * `From<Kline> for KData`: the REST kline's times, prices and volumes
   * carried over, marked finished, with the fields a REST kline lacks set
   * to their defaults and the interval to one minute.
   */
  function KDataOfKline(k: Market.Kline): (d: KData)
    ensures d.symbol == "" && d.ignore == "" && d.interval == Min1
    ensures d.firstId == 0 && d.lastId == 0 && d.isEnd
  {
    KData(k.openTime, k.closeTime, "", Min1, 0, 0, k.open, k.close, k.high, k.low, k.volume,
          k.count, true, k.amount, k.buyVolume, k.buyAmount, "")
  }

  /** The REST kline a streamed kline carries, field by field. */
  function KlineOfKData(d: KData): Market.Kline {
    Market.Kline(d.openTime, d.open, d.high, d.low, d.close, d.volume, d.closeTime,
                 d.qty, d.tradeNum, d.takeVolume, d.takeQty)
  }

  /** The conversion loses nothing of the REST kline: reading it back gives the kline. */
  lemma KDataKeepsKline(k: Market.Kline)
    ensures KlineOfKData(KDataOfKline(k)) == k
    ensures KDataOfKline(k).tradeNum == k.count && KDataOfKline(k).qty == k.amount
    ensures KDataOfKline(k).takeVolume == k.buyVolume && KDataOfKline(k).takeQty == k.buyAmount
  {
  }
}
