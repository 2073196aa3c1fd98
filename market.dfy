/**
 * REST-style market queries (src/api/market.rs): the latest-price request
 * encoder and response flattener, and the two positional decoders that read a
 * JSON array element by element — a (price, volume) pair and a 12-field kline.
 *
 * JSON values reach the decoders already tokenised (`Json`); decimal parsing
 * belongs to the decimal library and is a parameter `parse`.
 */
module Market {
  import opened Wrappers

  /** A fixed-point decimal: `mantissa / 10^scale`. */
  datatype Decimal = Decimal(mantissa: int, scale: nat)

  /** One JSON array element as the decoders see it. */
  datatype Json = Int(value: int) | Str(text: string) | Other

  /** What serde reports as the unexpected thing in an `invalid_value` error. */
  datatype Unexpected = UOption | UStr(text: string)

  datatype DeError =
    | InvalidValue(unexpected: Unexpected, expected: string)
    | InvalidType(position: nat)
    | TrailingElements

  const MinI64: int := -0x8000_0000_0000_0000
  const MaxI64: int := 0x7FFF_FFFF_FFFF_FFFF
  const MaxU64: int := 0xFFFF_FFFF_FFFF_FFFF

  // ---------------------------------------------------------------- latest price

  datatype QLatestPrice = Symbol(symbol: string) | Symbols(symbols: string) | All

  /** `QLatestPrice::serialize`: a map with at most one entry, keyed by the variant. */
  function SerializeLatestPrice(q: QLatestPrice): (m: map<string, string>)
    ensures q.Symbol? ==> m == map["symbol" := q.symbol]
    ensures q.Symbols? ==> m == map["symbols" := q.symbols]
    ensures q.All? <==> m == map[]
  {
    match q
    case Symbol(s) => var m := map["symbol" := s]; assert "symbol" in m; m
    case Symbols(s) => var m := map["symbols" := s]; assert "symbols" in m; m
    case All => map[]
  }

  /** Different requests never serialise alike. */
  lemma SerializeLatestPriceInjective(a: QLatestPrice, b: QLatestPrice)
    requires SerializeLatestPrice(a) == SerializeLatestPrice(b)
    ensures a == b
  {
    var m := SerializeLatestPrice(a);
    match a
    case Symbol(s) => assert "symbol" in m && m["symbol"] == s;
    case Symbols(s) => assert "symbols" in m && m["symbols"] == s;
    case All =>
  }

  datatype LatestPrice = LatestPrice(symbol: string, price: Decimal)

  /** The response is either one price or an array of them. */
  datatype LatestPrices = Single(item: LatestPrice) | Many(items: seq<LatestPrice>)

  /** `LatestPrices::to_list`. */
  function ToList(p: LatestPrices): (r: seq<LatestPrice>)
    ensures p.Single? ==> r == [p.item]
    ensures p.Many? ==> r == p.items
  {
    match p
    case Single(i) => [i]
    case Many(v) => v
  }

  // ---------------------------------------------------------------- element decoding

  predicate IsI64(j: Json) {
    j.Int? && MinI64 <= j.value <= MaxI64
  }

  predicate IsUsize(j: Json) {
    j.Int? && 0 <= j.value <= MaxU64
  }

  /** Element `i` is a string the decimal parser accepts. */
  predicate DecimalAt(elems: seq<Json>, i: nat, parse: string -> Option<Decimal>) {
    i < |elems| && elems[i].Str? && parse(elems[i].text).Some?
  }

  function DecimalValue(elems: seq<Json>, i: nat, parse: string -> Option<Decimal>): Decimal
    requires DecimalAt(elems, i, parse)
  {
    parse(elems[i].text).value
  }

  // ---------------------------------------------------------------- price/volume pair

  datatype PriceVol = PriceVol(price: Decimal, volume: Decimal)

  /** Both elements of a price/volume pair are present and parse. */
  predicate PriceVolWellFormed(elems: seq<Json>, parse: string -> Option<Decimal>) {
    DecimalAt(elems, 0, parse) && DecimalAt(elems, 1, parse)
  }

  /**
   * `DepthOrderVisitor::visit_seq`: reads two string elements through a
   * cursor and parses each as a decimal; a missing element, a non-string or a
   * string the parser rejects ends the decoding with an error.
   */
  method VisitPriceVol(elems: seq<Json>, parse: string -> Option<Decimal>) returns (r: Result<PriceVol, DeError>, pos: nat)
    ensures pos <= |elems| && pos <= 2
    ensures r.Ok? <==> PriceVolWellFormed(elems, parse)
    ensures r.Ok? ==> pos == 2 && r.value == PriceVol(DecimalValue(elems, 0, parse), DecimalValue(elems, 1, parse))
    ensures |elems| == 0 ==> r == Err(InvalidValue(UOption, "first element"))
    ensures |elems| == 1 && DecimalAt(elems, 0, parse) ==> r == Err(InvalidValue(UOption, "first element"))
  {
    pos := 0;
    if pos >= |elems| {
      return Err(InvalidValue(UOption, "first element")), pos;
    }
    if !elems[pos].Str? {
      return Err(InvalidType(pos)), pos;
    }
    var first := elems[pos].text;
    pos := pos + 1;
    var firstVal := parse(first);
    if firstVal.None? {
      return Err(InvalidValue(UStr(first), "first element")), pos;
    }
    if pos >= |elems| {
      return Err(InvalidValue(UOption, "first element")), pos;
    }
    if !elems[pos].Str? {
      return Err(InvalidType(pos)), pos;
    }
    var second := elems[pos].text;
    pos := pos + 1;
    var secondVal := parse(second);
    if secondVal.None? {
      return Err(InvalidValue(UStr(second), "first element")), pos;
    }
    r := Ok(PriceVol(firstVal.value, secondVal.value));
  }

  // ---------------------------------------------------------------- kline

  datatype Kline = Kline(
    openTime: int,
    open: Decimal,
    high: Decimal,
    low: Decimal,
    close: Decimal,
    volume: Decimal,
    closeTime: int,
    amount: Decimal,
    count: nat,
    buyVolume: Decimal,
    buyAmount: Decimal)

  /** The eleven data positions of a kline array carry values of the expected kinds. */
  predicate KlineFieldsWellFormed(elems: seq<Json>, parse: string -> Option<Decimal>) {
    && |elems| >= 11
    && IsI64(elems[0])
    && DecimalAt(elems, 1, parse) && DecimalAt(elems, 2, parse)
    && DecimalAt(elems, 3, parse) && DecimalAt(elems, 4, parse)
    && DecimalAt(elems, 5, parse)
    && IsI64(elems[6])
    && DecimalAt(elems, 7, parse)
    && IsUsize(elems[8])
    && DecimalAt(elems, 9, parse) && DecimalAt(elems, 10, parse)
  }

  /** ... and the twelfth, the padding, is a string. */
  predicate KlineWellFormed(elems: seq<Json>, parse: string -> Option<Decimal>) {
    KlineFieldsWellFormed(elems, parse) && |elems| >= 12 && elems[11].Str?
  }

  /** The kline the twelve positions describe, field by field. */
  function KlineOf(elems: seq<Json>, parse: string -> Option<Decimal>): Kline
    requires KlineWellFormed(elems, parse)
  {
    Kline(
      elems[0].value,
      DecimalValue(elems, 1, parse), DecimalValue(elems, 2, parse),
      DecimalValue(elems, 3, parse), DecimalValue(elems, 4, parse),
      DecimalValue(elems, 5, parse),
      elems[6].value,
      DecimalValue(elems, 7, parse),
      elems[8].value,
      DecimalValue(elems, 9, parse), DecimalValue(elems, 10, parse))
  }

  /** One step of the cursor: the string at `pos` parsed as a decimal. */
  method NextDecimal(elems: seq<Json>, pos: nat, parse: string -> Option<Decimal>, missing: string, blame: string)
    returns (r: Result<Decimal, DeError>)
    ensures r.Ok? <==> DecimalAt(elems, pos, parse)
    ensures r.Ok? ==> r.value == DecimalValue(elems, pos, parse)
    ensures pos >= |elems| ==> r == Err(InvalidValue(UOption, missing))
    ensures pos < |elems| && elems[pos].Str? && !DecimalAt(elems, pos, parse) ==> r == Err(InvalidValue(UStr(blame), "f64 string"))
  {
    if pos >= |elems| {
      return Err(InvalidValue(UOption, missing));
    }
    if !elems[pos].Str? {
      return Err(InvalidType(pos));
    }
    var v := parse(elems[pos].text);
    if v.None? {
      return Err(InvalidValue(UStr(blame), "f64 string"));
    }
    r := Ok(v.value);
  }

  /** The text of the string element at `pos`, or "" when there is none. */
  function TextAt(elems: seq<Json>, pos: nat): string {
    if pos < |elems| && elems[pos].Str? then elems[pos].text else ""
  }

  /**
   * `KlineVisitor::visit_seq`: reads the twelve positions in order — open time,
   * open, high, low, close, volume, close time, amount, trade count, taker buy
   * volume, taker buy amount, and one ignored padding string — stopping at the
   * first missing, mistyped or unparsable element. The parse-failure message of
   * every field from volume on names the close-price string, as the source does.
   */
  method VisitKline(elems: seq<Json>, parse: string -> Option<Decimal>) returns (r: Result<Kline, DeError>, pos: nat)
    ensures pos <= |elems| && pos <= 12
    ensures r.Ok? <==> KlineWellFormed(elems, parse)
    ensures r.Ok? ==> pos == 12 && r.value == KlineOf(elems, parse)
    ensures |elems| == 0 ==> r == Err(InvalidValue(UOption, "expect open time"))
    ensures KlineFieldsWellFormed(elems, parse) && |elems| == 11 ==> r == Err(InvalidValue(UOption, "expect ignored padded field"))
  {
    pos := 0;
    if pos >= |elems| {
      return Err(InvalidValue(UOption, "expect open time")), pos;
    }
    if !IsI64(elems[pos]) {
      return Err(InvalidType(pos)), pos;
    }
    var openTime := elems[pos].value;
    pos := pos + 1;
    var open := NextDecimal(elems, pos, parse, "open price", TextAt(elems, pos));
    if open.Err? { return Err(open.error), pos; }
    pos := pos + 1;
    var high := NextDecimal(elems, pos, parse, "highest price", TextAt(elems, pos));
    if high.Err? { return Err(high.error), pos; }
    pos := pos + 1;
    var low := NextDecimal(elems, pos, parse, "lowest price", TextAt(elems, pos));
    if low.Err? { return Err(low.error), pos; }
    pos := pos + 1;
    var closeStr := TextAt(elems, pos);
    var close := NextDecimal(elems, pos, parse, "close price", closeStr);
    if close.Err? { return Err(close.error), pos; }
    pos := pos + 1;
    var volume := NextDecimal(elems, pos, parse, "expect volumne", closeStr);
    if volume.Err? { return Err(volume.error), pos; }
    pos := pos + 1;
    if pos >= |elems| {
      return Err(InvalidValue(UOption, "expect close time")), pos;
    }
    if !IsI64(elems[pos]) {
      return Err(InvalidType(pos)), pos;
    }
    var closeTime := elems[pos].value;
    pos := pos + 1;
    var amount := NextDecimal(elems, pos, parse, "amount", closeStr);
    if amount.Err? { return Err(amount.error), pos; }
    pos := pos + 1;
    if pos >= |elems| {
      return Err(InvalidValue(UOption, "expect close time")), pos;
    }
    if !IsUsize(elems[pos]) {
      return Err(InvalidType(pos)), pos;
    }
    var count := elems[pos].value;
    pos := pos + 1;
    var buyVolume := NextDecimal(elems, pos, parse, "amount", closeStr);
    if buyVolume.Err? { return Err(buyVolume.error), pos; }
    pos := pos + 1;
    var buyAmount := NextDecimal(elems, pos, parse, "amount", closeStr);
    if buyAmount.Err? { return Err(buyAmount.error), pos; }
    pos := pos + 1;
    for k := 0 to 1
      invariant KlineFieldsWellFormed(elems, parse) && pos == 11 + k && pos <= |elems|
      invariant k == 1 ==> elems[11].Str?
    {
      if pos >= |elems| {
        return Err(InvalidValue(UOption, "expect ignored padded field")), pos;
      }
      if !elems[pos].Str? {
        return Err(InvalidType(pos)), pos;
      }
      pos := pos + 1;
    }
    r := Ok(Kline(openTime, open.value, high.value, low.value, close.value, volume.value,
                  closeTime, amount.value, count, buyVolume.value, buyAmount.value));
  }

  /**
   * `PriceVol`'s `Deserialize`: `deserialize_tuple(2, ..)` runs the visitor and
   * the JSON deserializer then refuses any element the visitor left unread.
   */
  method DeserializePriceVol(elems: seq<Json>, parse: string -> Option<Decimal>) returns (r: Result<PriceVol, DeError>)
    ensures r.Ok? <==> PriceVolWellFormed(elems, parse) && |elems| == 2
    ensures r.Ok? ==> r.value == PriceVol(DecimalValue(elems, 0, parse), DecimalValue(elems, 1, parse))
    ensures PriceVolWellFormed(elems, parse) && |elems| > 2 ==> r == Err(TrailingElements)
  {
    var v, pos := VisitPriceVol(elems, parse);
    if v.Err? {
      return v;
    }
    if pos < |elems| {
      return Err(TrailingElements);
    }
    r := v;
  }

  /** `Kline`'s `Deserialize`: exactly twelve elements, the last one ignored. */
  method DeserializeKline(elems: seq<Json>, parse: string -> Option<Decimal>) returns (r: Result<Kline, DeError>)
    ensures r.Ok? <==> KlineWellFormed(elems, parse) && |elems| == 12
    ensures r.Ok? ==> r.value == KlineOf(elems, parse)
    ensures |elems| < 12 ==> r.Err?
    ensures KlineWellFormed(elems, parse) && |elems| > 12 ==> r == Err(TrailingElements)
  {
    var v, pos := VisitKline(elems, parse);
    if v.Err? {
      return v;
    }
    if pos < |elems| {
      return Err(TrailingElements);
    }
    r := v;
  }
}
