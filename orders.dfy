/**
 * The order-side and order-type enumerations of the crate root (src/lib.rs):
 * parsing a side from free text, flipping it, reading it as a boolean, and
 * the defaults.
 */
module Orders {
  import opened Wrappers
  import opened Text

  datatype OrderSide = Buy | Sell

  datatype OrderType = Limit | Market | StopLoss | StopLossLimit | TakeProfit | TakeProfitLimit | LimitMaker

  /** `OrderSide::from_str`: the input is lower-cased first, then matched against the four spellings. */
  function ParseSide(s: string): (r: Result<OrderSide, string>)
    ensures r == Ok(Buy) <==> Lower(s) in ["b", "buy"]
    ensures r == Ok(Sell) <==> Lower(s) in ["s", "sell"]
    ensures r.Err? <==> Lower(s) !in ["b", "buy", "s", "sell"]
    ensures r.Err? ==> r.error == "invalid " + s
  {
    var l := Lower(s);
    if l == "b" || l == "buy" then Ok(Buy)
    else if l == "s" || l == "sell" then Ok(Sell)
    else Err("invalid " + s)
  }

  /** The SCREAMING_SNAKE_CASE name serde writes for a side. */
  function SideName(x: OrderSide): string {
    match x
    case Buy => "BUY"
    case Sell => "SELL"
  }

  /** `OrderSide::rev`. */
  function Rev(x: OrderSide): (r: OrderSide)
    ensures r != x
  {
    match x
    case Buy => Sell
    case Sell => Buy
  }

  /** `OrderSide::bool`: true exactly for a buy. */
  function AsBool(x: OrderSide): (r: bool)
    ensures r <==> x == Buy
  {
    match x
    case Buy => true
    case Sell => false
  }

  /** `Default for OrderSide`. */
  function DefaultSide(): (r: OrderSide)
    ensures AsBool(r)
  {
    Buy
  }

  /** `Default for OrderType`. */
  function DefaultOrderType(): (r: OrderType)
    ensures r.Limit?
  {
    Limit
  }

  /** Flipping twice is the identity, and flipping negates the boolean reading. */
  lemma RevInvolution(x: OrderSide)
    ensures Rev(Rev(x)) == x
    ensures AsBool(Rev(x)) == !AsBool(x)
  {
  }

  /** Parsing ignores case: a string and its lower-cased form parse alike (errors aside, which echo the input). */
  lemma ParseSideIgnoresCase(s: string)
    ensures ParseSide(s).Ok? <==> ParseSide(Lower(s)).Ok?
    ensures ParseSide(s).Ok? ==> ParseSide(s) == ParseSide(Lower(s))
  {
    LowerIsLowerAndIdempotent(s);
  }

  /** The serialised name of every side parses back to that side, as does its one-letter abbreviation. */
  lemma ParseSideName(x: OrderSide)
    ensures ParseSide(SideName(x)) == Ok(x)
    ensures ParseSide(SideName(x)[..1]) == Ok(x)
  {
    match x
    case Buy =>
      assert Lower("BUY") == "buy";
      assert "BUY"[..1] == "B";
      assert Lower("B") == "b";
    case Sell =>
      assert Lower("SELL") == "sell";
      assert "SELL"[..1] == "S";
      assert Lower("S") == "s";
  }
}
