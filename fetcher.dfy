/**
 * The price fetcher: a table of USD exchange rates with a best-effort refresh, the lookup of one
 * token's USD price through the aggregator and then twelve exchanges in a fixed order, the batch
 * lookup, currency conversion and the choice of display precision.
 *
 * Network replies are inputs: each source's GET either fails (Unreachable) or gives a status and a
 * body that decodes to JSON or not.
 */
module Fetcher {
  import opened Runtime
  import opened PyJson
  import OrderedDict
  import Text

  /** Aggregator (CoinGecko) ids for the tickers whose id is not simply the lower-case ticker. */
  const AggregatorIds: map<string, string> := map[
    "IRYS" := "irys", "BTC" := "bitcoin", "ETH" := "ethereum", "BNB" := "binancecoin",
    "SOL" := "solana", "USDT" := "tether", "USDC" := "usd-coin", "XRP" := "ripple",
    "ADA" := "cardano", "AVAX" := "avalanche-2", "DOT" := "polkadot", "MATIC" := "matic-network",
    "LINK" := "chainlink", "UNI" := "uniswap", "ATOM" := "cosmos"]

  /** The currencies of the rate table. */
  const Currencies: set<string> := {"USD", "EUR", "RUB", "UAH", "KZT"}

  /** The rate table a new fetcher starts with (units of the currency per US dollar). */
  const InitialRates: map<string, Json> :=
    map["USD" := JNum(1.0), "EUR" := JNum(0.92), "RUB" := JNum(92.0), "UAH" := JNum(41.0), "KZT" := JNum(480.0)]

  /** The fixed KRW-per-USD factor applied to the Upbit price. */
  const UpbitKrwPerUsd: real := 1300.0

  /** The fetcher's HTTP session: never opened, open, or closed by leaving the context. */
  datatype Session = NoSession | Open | Closed

  /** What one GET gives: a transport failure or timeout, or a status and a body that is JSON or not. */
  datatype HttpOutcome = Unreachable | Reply(status: int, body: Option<Json>)

  datatype Exchange =
    Binance | Mexc | Okx | Bybit | GateIo | KuCoin | Htx | Coinbase | Bitget | Bitfinex | Kraken | Upbit

  datatype Source = CoinGecko | Market(exchange: Exchange)

  /** The replies one price lookup would get: from the aggregator and from each exchange. */
  datatype Replies = Replies(aggregator: HttpOutcome, market: Exchange -> HttpOutcome)

  /** The exchanges in the order they are tried. */
  const Exchanges: seq<Exchange> :=
    [Binance, Mexc, Okx, Bybit, GateIo, KuCoin, Htx, Coinbase, Bitget, Bitfinex, Kraken, Upbit]

  /** Display precision: whether thousands are grouped and how many decimals are shown. */
  datatype Precision = Precision(grouped: bool, decimals: nat)

  // ---------------------------------------------------------------------------------------------
  // Exchange-rate table

  /** The table has exactly the five currencies and the dollar is 1. */
  ghost predicate RatesValid(rates: map<string, Json>)
  {
    rates.Keys == Currencies && rates["USD"] == JNum(1.0)
  }

  /** The decoded body of a reply that the code reads: status 200 and a body that is JSON. */
  function Body(reply: HttpOutcome): Option<Json>
  {
    if reply.Reply? && reply.status == 200 then reply.body else None
  }

  /** The `rates` object of a rate reply, when the reply has one (anything else makes .get raise). */
  function RatesObject(reply: HttpOutcome): Option<seq<(string, Json)>>
  {
    match Body(reply)
    case None => None
    case Some(data) =>
      match Subscript(data, "rates")
      case Ok(JObj(fields)) => Some(fields)
      case _ => None
  }

  /**
   * The table after a refresh: with an open session and a reply that has a `rates` object, EUR,
   * RUB, UAH and KZT each take the value given there or, when it is missing, a fixed constant;
   * otherwise the table is as it was.
   */
  function RefreshedRates(rates: map<string, Json>, session: Session, reply: HttpOutcome): map<string, Json>
  {
    if session != Open then rates
    else match RatesObject(reply)
      case None => rates
      case Some(fields) =>
        rates["EUR" := OrderedDict.Lookup(fields, "EUR").GetOr(JNum(0.92))]
             ["RUB" := OrderedDict.Lookup(fields, "RUB").GetOr(JNum(92.0))]
             ["UAH" := OrderedDict.Lookup(fields, "UAH").GetOr(JNum(41.0))]
             ["KZT" := OrderedDict.Lookup(fields, "KZT").GetOr(JNum(480.0))]
  }

  /** A refresh keeps the table's currencies and the dollar's rate, whatever the reply. */
  lemma RefreshKeepsTable(rates: map<string, Json>, session: Session, reply: HttpOutcome)
    requires RatesValid(rates)
    ensures RatesValid(RefreshedRates(rates, session, reply))
    ensures RefreshedRates(rates, session, reply)["USD"] == rates["USD"]
  {
  }

  /** Without an open session, or without a `rates` object in a status-200 JSON reply, nothing changes. */
  lemma FailedRefreshKeepsRates(rates: map<string, Json>, session: Session, reply: HttpOutcome)
    requires session != Open || RatesObject(reply).None?
    ensures RefreshedRates(rates, session, reply) == rates
  {
  }

  /**
   * A successful refresh takes each of the four rates from the reply, and a rate missing from the
   * reply is reset to its constant, not kept at its current value.
   */
  lemma RefreshedValues(rates: map<string, Json>, reply: HttpOutcome, fields: seq<(string, Json)>)
    requires RatesValid(rates) && RatesObject(reply) == Some(fields)
    ensures var r := RefreshedRates(rates, Open, reply);
      && (forall c :: c in {"EUR", "RUB", "UAH", "KZT"} && c in OrderedDict.Keys(fields) ==>
            Some(r[c]) == OrderedDict.Lookup(fields, c))
      && ("EUR" !in OrderedDict.Keys(fields) ==> r["EUR"] == JNum(0.92))
      && ("RUB" !in OrderedDict.Keys(fields) ==> r["RUB"] == JNum(92.0))
      && ("UAH" !in OrderedDict.Keys(fields) ==> r["UAH"] == JNum(41.0))
      && ("KZT" !in OrderedDict.Keys(fields) ==> r["KZT"] == JNum(480.0))
  {
  }

  /** Python's price_usd * rate for a currency of the table; any other currency passes through. */
  function ConvertPrice(rates: map<string, Json>, price: Json, currency: string): (r: Result<Json>)
    ensures currency !in rates ==> r == Ok(price)
  {
    if currency !in rates then Ok(price) else Multiply(price, rates[currency])
  }

  /**
   * Conversion with a valid table: the dollar is the identity on numbers, a numeric rate scales the
   * price, an unknown currency leaves the price (even None) as it is, and None in a known currency
   * raises TypeError.
   */
  lemma ConversionMeaning(rates: map<string, Json>, price: Json, currency: string)
    requires RatesValid(rates)
    ensures Number(price).Some? ==> ConvertPrice(rates, price, "USD") == Ok(JNum(Number(price).value))
    ensures currency in Currencies && Number(price).Some? && Number(rates[currency]).Some? ==>
              ConvertPrice(rates, price, currency) == Ok(JNum(Number(price).value * Number(rates[currency]).value))
    ensures currency !in Currencies ==> ConvertPrice(rates, price, currency) == Ok(price)
    ensures currency in Currencies ==> ConvertPrice(rates, JNull, currency) == Raise(TypeError)
  {
    if currency in Currencies {
      assert currency in rates;
      assert ConvertPrice(rates, price, currency) == Multiply(price, rates[currency]);
    }
  }

  // ---------------------------------------------------------------------------------------------
  // Display precision of format_price

  /** The glyph format_price puts before the amount; an unknown currency gets the dollar sign. */
  function CurrencySymbol(currency: string): (r: string)
    ensures currency == "USD" ==> r == "$"
    ensures currency == "EUR" ==> r == "\U{20ac}"
    ensures currency == "RUB" ==> r == "\U{20bd}"
    ensures currency == "UAH" ==> r == "\U{20b4}"
    ensures currency == "KZT" ==> r == "\U{20b8}"
    ensures currency !in Currencies ==> r == "$"
    ensures r == "$" <==> currency !in Currencies - {"USD"}
  {
    match currency
    case "USD" => "$"
    case "EUR" => "\U{20ac}"
    case "RUB" => "\U{20bd}"
    case "UAH" => "\U{20b4}"
    case "KZT" => "\U{20b8}"
    case _ => "$"
  }

  /** format_price's tiers: grouped with 2 decimals from 1000, then 2 from 1, 4 from 0.01, else 8. */
  function FormatPrecision(price: real): (r: Precision)
    ensures r.grouped <==> price >= 1000.0
    ensures r.decimals == 2 <==> price >= 1.0
    ensures r.decimals == 4 <==> 0.01 <= price < 1.0
    ensures r.decimals == 8 <==> price < 0.01
  {
    if price >= 1000.0 then Precision(true, 2)
    else if price >= 1.0 then Precision(false, 2)
    else if price >= 0.01 then Precision(false, 4)
    else Precision(false, 8)
  }

  /** A larger price never gets more decimals. */
  lemma FormatPrecisionMonotone(p: real, q: real)
    requires p <= q
    ensures FormatPrecision(q).decimals <= FormatPrecision(p).decimals
  {
  }

  /**
   * format_price: the currency glyph followed by the amount rendered at the selected precision;
   * `render` stands for Python's float formatting.
   */
  function FormatPrice(price: real, currency: string, render: (real, Precision) -> string): (r: string)
    ensures |r| >= 1 && (r[0] == '$' <==> currency !in Currencies - {"USD"})
    ensures r[1..] == render(price, FormatPrecision(price))
  {
    CurrencySymbol(currency) + render(price, FormatPrecision(price))
  }

  /** Which of the four f-string formats format_price uses, by the size of the price. */
  lemma FormatPriceTiers(price: real, currency: string, render: (real, Precision) -> string)
    ensures price >= 1000.0 ==> FormatPrice(price, currency, render) == CurrencySymbol(currency) + render(price, Precision(true, 2))
    ensures 1.0 <= price < 1000.0 ==> FormatPrice(price, currency, render) == CurrencySymbol(currency) + render(price, Precision(false, 2))
    ensures 0.01 <= price < 1.0 ==> FormatPrice(price, currency, render) == CurrencySymbol(currency) + render(price, Precision(false, 4))
    ensures price < 0.01 ==> FormatPrice(price, currency, render) == CurrencySymbol(currency) + render(price, Precision(false, 8))
  {
  }

  // ---------------------------------------------------------------------------------------------
  // Aggregator step

  /** The aggregator id: the mapped id of the upper-cased ticker, else the lower-cased ticker. */
  function AggregatorId(symbol: string): string
  {
    var upper := Text.Upper(symbol);
    if upper in AggregatorIds then AggregatorIds[upper] else Text.Lower(symbol)
  }

  /** The aggregator id does not depend on how the ticker is capitalised. */
  lemma AggregatorIdIgnoresCase(symbol: string)
    ensures AggregatorId(Text.Upper(symbol)) == AggregatorId(symbol)
    ensures AggregatorId(Text.Lower(symbol)) == AggregatorId(symbol)
    ensures Text.Upper(symbol) !in AggregatorIds ==> AggregatorId(symbol) == Text.Lower(symbol)
  {
    Text.CaseMappingsAbsorb(symbol);
  }

  /** `id in data and 'usd' in data[id]`, then `data[id]['usd']`, with Python's exceptions. */
  function AggregatorLookup(id: string, data: Json): Result<Option<Json>>
  {
    var listed :- Contains(data, id);
    if !listed then Ok(None)
    else
      var entry :- Subscript(data, id);
      var priced :- Contains(entry, "usd");
      if !priced then Ok(None)
      else
        var price :- Subscript(entry, "usd");
        Ok(Some(price))
  }

  /** The aggregator's answer, if its reply yields one; any exception means no answer. */
  function AggregatorQuote(id: string, reply: HttpOutcome): Option<Json>
  {
    match Body(reply)
    case None => None
    case Some(data) =>
      match AggregatorLookup(id, data)
      case Ok(Some(price)) => Some(price)
      case _ => None
  }

  /** Reference reading of the aggregator reply: a status-200 JSON object whose `id` object has `usd`. */
  function UsdField(id: string, reply: HttpOutcome): Option<Json>
  {
    var body := Body(reply);
    if body.Some? && body.value.JObj? then
      var entry := OrderedDict.Lookup(body.value.fields, id);
      if entry.Some? && entry.value.JObj? then OrderedDict.Lookup(entry.value.fields, "usd") else None
    else None
  }

  /**
   * The aggregator gives an answer exactly when its reply is a status-200 JSON object whose `id`
   * entry is an object with a `usd` field, and the answer is that field's value, whatever it is.
   */
  lemma AggregatorQuoteMeaning(id: string, reply: HttpOutcome)
    ensures AggregatorQuote(id, reply) == UsdField(id, reply)
  {
    var body := Body(reply);
    if body.Some? {
      var data := body.value;
      if data.JObj? && id in OrderedDict.Keys(data.fields) {
        var entry := Subscript(data, id).value;
        if entry.JObj? {
          assert Contains(entry, "usd") == Ok("usd" in OrderedDict.Keys(entry.fields));
        } else {
          assert AggregatorLookup(id, data).Raise? || AggregatorLookup(id, data) == Ok(None);
        }
      } else if !data.JObj? {
        assert AggregatorLookup(id, data).Raise? || AggregatorLookup(id, data) == Ok(None);
      }
    }
  }

  // ---------------------------------------------------------------------------------------------
  // Exchange step

  /**
   * float() of the value at a subscript path, as a found price: each subscript in turn, then the
   * conversion, with the first exception raised.
   */
  function FloatAt(data: Json, path: seq<Step>): (r: Result<Option<real>>)
    ensures r.Ok? ==> r.value.Some?
    decreases |path|
  {
    if path == [] then
      var p :- Float(data);
      Ok(Some(p))
    else
      var next :- match path[0] case Key(k) => Subscript(data, k) case At(i) => Index(data, i);
      FloatAt(next, path[1..])
  }

  /** `float(data[...]) if 'key' in data else None`. */
  function IfContains(data: Json, key: string, path: seq<Step>): Result<Option<real>>
  {
    var present :- Contains(data, key);
    if present then FloatAt(data, path) else Ok(None)
  }

  /** Each exchange's rule for reading its price out of the decoded reply. */
  function Extract(x: Exchange, data: Json): Result<Option<real>>
  {
    match x
    case Binance => FloatAt(data, [Key("price")])
    case Mexc | Okx =>
      var present :- Contains(data, "data");
      if !present then Ok(None)
      else
        var list :- Subscript(data, "data");
        var n :- Len(list);
        if n > 0 then FloatAt(data, [Key("data"), At(0), Key("last")]) else Ok(None)
    case Bybit => IfContains(data, "result", [Key("result"), Key("list"), At(0), Key("lastPrice")])
    case GateIo =>
      var n :- Len(data);
      if n > 0 then FloatAt(data, [At(0), Key("last")]) else Ok(None)
    case KuCoin => IfContains(data, "data", [Key("data"), Key("price")])
    case Htx => IfContains(data, "tick", [Key("tick"), Key("close")])
    case Coinbase => FloatAt(data, [Key("data"), Key("amount")])
    case Bitget => IfContains(data, "data", [Key("data"), Key("close")])
    case Bitfinex =>
      var n :- Len(data);
      if n > 6 then FloatAt(data, [At(6)]) else Ok(None)
    case Kraken =>
      var result :- Subscript(data, "result");
      var pairs :- KeyList(result);
      if pairs == [] then Raise(IndexError)
      else FloatAt(data, [Key("result"), Key(pairs[0]), Key("c"), At(0)])
    case Upbit =>
      var n :- Len(data);
      if n > 0 then
        var krw :- FloatAt(data, [At(0), Key("trade_price")]);
        Ok(Some(krw.value / UpbitKrwPerUsd))
      else Ok(None)
  }

  /**
   * Binance reads `price` and Coinbase `data`: a dict without that key raises KeyError; Binance's
   * price is `price` as a float, whatever value float() accepts there.
   */
  lemma ExtractRequiredKey(data: seq<(string, Json)>, v: Json, p: real)
    ensures "price" !in OrderedDict.Keys(data) ==> Extract(Binance, JObj(data)) == Raise(KeyError)
    ensures OrderedDict.Lookup(data, "price") == Some(v) && Float(v) == Ok(p) ==> Extract(Binance, JObj(data)) == Ok(Some(p))
    ensures "data" !in OrderedDict.Keys(data) ==> Extract(Coinbase, JObj(data)) == Raise(KeyError)
    ensures "result" !in OrderedDict.Keys(data) ==> Extract(Kraken, JObj(data)) == Raise(KeyError)
  {
    ExtractBinanceRule(JObj(data));
    if OrderedDict.Lookup(data, "price") == Some(v) && Float(v) == Ok(p) {
      WalkKey(JObj(data), "price", v);
      FloatAtOf(JObj(data), [Key("price")], v, p);
    }
  }

  /** Binance's rule on its own. */
  lemma ExtractBinanceRule(data: Json)
    ensures Extract(Binance, data) == FloatAt(data, [Key("price")])
  {
  }

  /** `data[key]` as a one-step subscript chain. */
  lemma WalkKey(data: Json, key: string, v: Json)
    requires Subscript(data, key) == Ok(v)
    ensures Walk(data, [Key(key)]) == Ok(v)
  {
    assert [Key(key)][1..] == [];
  }

  /** The exchanges whose rule is guarded by a key give no price for a dict without that key. */
  lemma ExtractGuardAbsent(data: seq<(string, Json)>)
    ensures "data" !in OrderedDict.Keys(data) ==>
              forall x :: x in {Mexc, Okx, KuCoin, Bitget} ==> Extract(x, JObj(data)) == Ok(None)
    ensures "result" !in OrderedDict.Keys(data) ==> Extract(Bybit, JObj(data)) == Ok(None)
    ensures "tick" !in OrderedDict.Keys(data) ==> Extract(Htx, JObj(data)) == Ok(None)
  {
  }

  /**
   * MEXC and OKX read `last` of the first entry of the `data` list: an empty list gives no price, and
   * otherwise the price is `last` as a float, whatever value float() accepts there.
   */
  lemma ExtractFirstEntry(x: Exchange, data: seq<(string, Json)>, first: seq<(string, Json)>, rest: seq<Json>, v: Json, p: real)
    requires x == Mexc || x == Okx
    ensures OrderedDict.Lookup(data, "data") == Some(JArr([])) ==> Extract(x, JObj(data)) == Ok(None)
    ensures (&& OrderedDict.Lookup(data, "data") == Some(JArr([JObj(first)] + rest))
             && OrderedDict.Lookup(first, "last") == Some(v) && Float(v) == Ok(p))
              ==> Extract(x, JObj(data)) == Ok(Some(p))
  {
    if && OrderedDict.Lookup(data, "data") == Some(JArr([JObj(first)] + rest))
       && OrderedDict.Lookup(first, "last") == Some(v) && Float(v) == Ok(p)
    {
      ExtractFirstEntryRule(x, data, [JObj(first)] + rest);
      WalkFirstEntry(data, first, rest, v);
      FloatAtOf(JObj(data), [Key("data"), At(0), Key("last")], v, p);
    }
  }

  /** The MEXC/OKX rule once `data` is a non-empty list. */
  lemma ExtractFirstEntryRule(x: Exchange, data: seq<(string, Json)>, items: seq<Json>)
    requires x == Mexc || x == Okx
    requires OrderedDict.Lookup(data, "data") == Some(JArr(items)) && items != []
    ensures Extract(x, JObj(data)) == FloatAt(JObj(data), [Key("data"), At(0), Key("last")])
  {
  }

  /** `data['data'][0]['last']` when the first entry holds `last`. */
  lemma WalkFirstEntry(data: seq<(string, Json)>, first: seq<(string, Json)>, rest: seq<Json>, v: Json)
    requires OrderedDict.Lookup(data, "data") == Some(JArr([JObj(first)] + rest))
    requires OrderedDict.Lookup(first, "last") == Some(v)
    ensures Walk(JObj(data), [Key("data"), At(0), Key("last")]) == Ok(v)
  {
    var path := [Key("data"), At(0), Key("last")];
    WalkFirstKey(first, rest, "last", v);
    assert Walk(JObj(data), path) == Walk(JArr([JObj(first)] + rest), path[1..]);
    assert path[1..] == [At(0), Key("last")];
  }

  /**
   * Gate.io reads `last` of the first entry of the reply list: an empty list gives no price, and a
   * non-empty dict raises KeyError at `data[0]`.
   */
  lemma ExtractGateIo(first: seq<(string, Json)>, rest: seq<Json>, fields: seq<(string, Json)>, v: Json, p: real)
    ensures Extract(GateIo, JArr([])) == Ok(None)
    ensures (OrderedDict.Lookup(first, "last") == Some(v) && Float(v) == Ok(p)) ==>
              Extract(GateIo, JArr([JObj(first)] + rest)) == Ok(Some(p))
    ensures fields != [] ==> Extract(GateIo, JObj(fields)) == Raise(KeyError)
  {
    if OrderedDict.Lookup(first, "last") == Some(v) && Float(v) == Ok(p) {
      ExtractGateIoRule([JObj(first)] + rest);
      WalkFirstKey(first, rest, "last", v);
      FloatAtOf(JArr([JObj(first)] + rest), [At(0), Key("last")], v, p);
    }
    if fields != [] {
      OrderedDict.FromPairsFirstKey(fields);
    }
  }

  /** Gate.io's rule on a non-empty list. */
  lemma ExtractGateIoRule(items: seq<Json>)
    requires items != []
    ensures Extract(GateIo, JArr(items)) == FloatAt(JArr(items), [At(0), Key("last")])
  {
  }

  /** `items[0][key]` for a list whose first item is a dict holding the key. */
  lemma WalkFirstKey(first: seq<(string, Json)>, rest: seq<Json>, key: string, v: Json)
    requires OrderedDict.Lookup(first, key) == Some(v)
    ensures Walk(JArr([JObj(first)] + rest), [At(0), Key(key)]) == Ok(v)
  {
    var path := [At(0), Key(key)];
    assert ([JObj(first)] + rest)[0] == JObj(first);
    assert Walk(JObj(first), path[1..]) == Ok(v) by { assert path[1..][1..] == []; }
  }

  /** The price at a path is float() of the value the subscript chain reaches. */
  lemma {:induction false} FloatAtOf(data: Json, path: seq<Step>, v: Json, p: real)
    requires Walk(data, path) == Ok(v) && Float(v) == Ok(p)
    ensures FloatAt(data, path) == Ok(Some(p))
    decreases |path|
  {
    if path != [] {
      var next := (match path[0] case Key(k) => Subscript(data, k) case At(i) => Index(data, i)).value;
      FloatAtOf(next, path[1..], v, p);
    }
  }

  /** The rules of the exchanges that read nested keys, each on its own. */
  lemma ExtractRule(data: Json)
    ensures Extract(Bybit, data) == IfContains(data, "result", [Key("result"), Key("list"), At(0), Key("lastPrice")])
    ensures Extract(KuCoin, data) == IfContains(data, "data", [Key("data"), Key("price")])
    ensures Extract(Htx, data) == IfContains(data, "tick", [Key("tick"), Key("close")])
    ensures Extract(Coinbase, data) == FloatAt(data, [Key("data"), Key("amount")])
    ensures Extract(Bitget, data) == IfContains(data, "data", [Key("data"), Key("close")])
  {
  }

  /** Kraken's rule once `result` is a non-empty dict: its first key names the pair. */
  lemma ExtractKrakenRule(data: seq<(string, Json)>, result: seq<(string, Json)>)
    requires OrderedDict.Lookup(data, "result") == Some(JObj(result)) && result != []
    ensures Extract(Kraken, JObj(data)) == FloatAt(JObj(data), [Key("result"), Key(result[0].0), Key("c"), At(0)])
  {
    OrderedDict.FromPairsFirstKey(result);
    assert KeyList(JObj(result)).value[0] == result[0].0;
  }

  /** float(data[k1][k2]) when both keys are there and the value converts. */
  lemma FloatAtNested(data: seq<(string, Json)>, k1: string, inner: seq<(string, Json)>, k2: string, v: Json, p: real)
    requires OrderedDict.Lookup(data, k1) == Some(JObj(inner)) && OrderedDict.Lookup(inner, k2) == Some(v)
    requires Float(v) == Ok(p)
    ensures k1 in OrderedDict.Keys(data) && FloatAt(JObj(data), [Key(k1), Key(k2)]) == Ok(Some(p))
  {
    var path := [Key(k1), Key(k2)];
    assert Walk(JObj(inner), path[1..]) == Ok(v) by { assert path[1..][1..] == []; }
    FloatAtOf(JObj(data), path, v, p);
  }

  /**
   * The exchanges that read a key of a nested dict: KuCoin `data.price`, HTX `tick.close` and
   * Bitget `data.close`; the price is that value as a float.
   */
  lemma ExtractNested(data: seq<(string, Json)>, inner: seq<(string, Json)>, v: Json, p: real)
    requires Float(v) == Ok(p)
    ensures (OrderedDict.Lookup(data, "data") == Some(JObj(inner)) && OrderedDict.Lookup(inner, "price") == Some(v)) ==>
              Extract(KuCoin, JObj(data)) == Ok(Some(p))
    ensures (OrderedDict.Lookup(data, "tick") == Some(JObj(inner)) && OrderedDict.Lookup(inner, "close") == Some(v)) ==>
              Extract(Htx, JObj(data)) == Ok(Some(p))
    ensures (OrderedDict.Lookup(data, "data") == Some(JObj(inner)) && OrderedDict.Lookup(inner, "close") == Some(v)) ==>
              Extract(Bitget, JObj(data)) == Ok(Some(p))
  {
    ExtractRule(JObj(data));
    if OrderedDict.Lookup(data, "data") == Some(JObj(inner)) && OrderedDict.Lookup(inner, "price") == Some(v) {
      FloatAtNested(data, "data", inner, "price", v, p);
    }
    if OrderedDict.Lookup(data, "tick") == Some(JObj(inner)) && OrderedDict.Lookup(inner, "close") == Some(v) {
      FloatAtNested(data, "tick", inner, "close", v, p);
    }
    if OrderedDict.Lookup(data, "data") == Some(JObj(inner)) && OrderedDict.Lookup(inner, "close") == Some(v) {
      FloatAtNested(data, "data", inner, "close", v, p);
    }
  }

  /** Coinbase reads `data.amount` without first checking for `data`. */
  lemma ExtractCoinbase(data: seq<(string, Json)>, inner: seq<(string, Json)>, v: Json, p: real)
    requires Float(v) == Ok(p)
    ensures (OrderedDict.Lookup(data, "data") == Some(JObj(inner)) && OrderedDict.Lookup(inner, "amount") == Some(v)) ==>
              Extract(Coinbase, JObj(data)) == Ok(Some(p))
  {
    if OrderedDict.Lookup(data, "data") == Some(JObj(inner)) && OrderedDict.Lookup(inner, "amount") == Some(v) {
      ExtractRule(JObj(data));
      FloatAtNested(data, "data", inner, "amount", v, p);
    }
  }

  /** Bybit reads `lastPrice` of the first entry of `result.list`. */
  lemma ExtractBybit(data: seq<(string, Json)>, result: seq<(string, Json)>, entry: seq<(string, Json)>, rest: seq<Json>, v: Json, p: real)
    requires Float(v) == Ok(p)
    ensures (&& OrderedDict.Lookup(data, "result") == Some(JObj(result))
             && OrderedDict.Lookup(result, "list") == Some(JArr([JObj(entry)] + rest))
             && OrderedDict.Lookup(entry, "lastPrice") == Some(v)) ==>
              Extract(Bybit, JObj(data)) == Ok(Some(p))
  {
    if && OrderedDict.Lookup(data, "result") == Some(JObj(result))
       && OrderedDict.Lookup(result, "list") == Some(JArr([JObj(entry)] + rest))
       && OrderedDict.Lookup(entry, "lastPrice") == Some(v)
    {
      ExtractRule(JObj(data));
      WalkBybit(data, result, entry, rest, v);
      FloatAtOf(JObj(data), [Key("result"), Key("list"), At(0), Key("lastPrice")], v, p);
    }
  }

  lemma WalkBybit(data: seq<(string, Json)>, result: seq<(string, Json)>, entry: seq<(string, Json)>, rest: seq<Json>, v: Json)
    requires OrderedDict.Lookup(data, "result") == Some(JObj(result))
    requires OrderedDict.Lookup(result, "list") == Some(JArr([JObj(entry)] + rest))
    requires OrderedDict.Lookup(entry, "lastPrice") == Some(v)
    ensures "result" in OrderedDict.Keys(data)
    ensures Walk(JObj(data), [Key("result"), Key("list"), At(0), Key("lastPrice")]) == Ok(v)
  {
    var path := [Key("result"), Key("list"), At(0), Key("lastPrice")];
    WalkFirstKey(entry, rest, "lastPrice", v);
    assert path[2..] == [At(0), Key("lastPrice")];
    assert Walk(JObj(result), path[1..]) == Ok(v) by { assert path[1..][1..] == path[2..]; }
  }

  /** Kraken reads the first close price `c[0]` of the first pair listed under `result`. */
  lemma ExtractKraken(data: seq<(string, Json)>, result: seq<(string, Json)>, ticker: seq<(string, Json)>, closes: seq<Json>, v: Json, p: real)
    requires Float(v) == Ok(p)
    ensures (&& OrderedDict.Lookup(data, "result") == Some(JObj(result))
             && result != []
             && OrderedDict.Lookup(result, result[0].0) == Some(JObj(ticker))
             && OrderedDict.Lookup(ticker, "c") == Some(JArr([v] + closes))) ==>
              Extract(Kraken, JObj(data)) == Ok(Some(p))
  {
    if && OrderedDict.Lookup(data, "result") == Some(JObj(result)) && result != []
       && OrderedDict.Lookup(result, result[0].0) == Some(JObj(ticker))
       && OrderedDict.Lookup(ticker, "c") == Some(JArr([v] + closes))
    {
      ExtractKrakenRule(data, result);
      WalkKraken(data, result, ticker, closes, v);
      FloatAtOf(JObj(data), [Key("result"), Key(result[0].0), Key("c"), At(0)], v, p);
    }
  }

  lemma WalkKraken(data: seq<(string, Json)>, result: seq<(string, Json)>, ticker: seq<(string, Json)>, closes: seq<Json>, v: Json)
    requires OrderedDict.Lookup(data, "result") == Some(JObj(result)) && result != []
    requires OrderedDict.Lookup(result, result[0].0) == Some(JObj(ticker))
    requires OrderedDict.Lookup(ticker, "c") == Some(JArr([v] + closes))
    ensures Walk(JObj(data), [Key("result"), Key(result[0].0), Key("c"), At(0)]) == Ok(v)
  {
    var path := [Key("result"), Key(result[0].0), Key("c"), At(0)];
    assert ([v] + closes)[0] == v;
    assert Walk(JArr([v] + closes), path[3..]) == Ok(v) by { assert path[3..][1..] == []; }
    assert Walk(JObj(ticker), path[2..]) == Ok(v) by { assert path[2..][1..] == path[3..]; }
    assert Walk(JObj(result), path[1..]) == Ok(v) by { assert path[1..][1..] == path[2..]; }
  }

  /** Bitfinex reads position 6 of its list as a float, and a shorter list gives no price. */
  lemma ExtractBitfinex(items: seq<Json>, v: Json, p: real)
    ensures |items| <= 6 ==> Extract(Bitfinex, JArr(items)) == Ok(None)
    ensures |items| > 6 && items[6] == v && Float(v) == Ok(p) ==> Extract(Bitfinex, JArr(items)) == Ok(Some(p))
  {
    ExtractBitfinexRule(items);
    if |items| > 6 && items[6] == v && Float(v) == Ok(p) {
      assert Walk(JArr(items), [At(6)]) == Ok(v) by { assert [At(6)][1..] == []; }
      FloatAtOf(JArr(items), [At(6)], v, p);
    }
  }

  /** Bitfinex's rule on its own. */
  lemma ExtractBitfinexRule(items: seq<Json>)
    ensures |items| <= 6 ==> Extract(Bitfinex, JArr(items)) == Ok(None)
    ensures |items| > 6 ==> Extract(Bitfinex, JArr(items)) == FloatAt(JArr(items), [At(6)])
  {
  }

  /**
   * Upbit reads `trade_price` of the first entry of its list as a float, in won, and divides it by
   * the fixed 1300; an empty list gives no price.
   */
  lemma ExtractUpbit(first: seq<(string, Json)>, rest: seq<Json>, v: Json, p: real)
    ensures Extract(Upbit, JArr([])) == Ok(None)
    ensures (OrderedDict.Lookup(first, "trade_price") == Some(v) && Float(v) == Ok(p)) ==>
              Extract(Upbit, JArr([JObj(first)] + rest)) == Ok(Some(p / 1300.0))
  {
    if OrderedDict.Lookup(first, "trade_price") == Some(v) && Float(v) == Ok(p) {
      WalkFirstKey(first, rest, "trade_price", v);
      FloatAtOf(JArr([JObj(first)] + rest), [At(0), Key("trade_price")], v, p);
      ExtractUpbitRule([JObj(first)] + rest, p);
    }
  }

  /** Upbit's rule once the first entry's `trade_price` converts. */
  lemma ExtractUpbitRule(items: seq<Json>, p: real)
    requires |items| > 0 && FloatAt(JArr(items), [At(0), Key("trade_price")]) == Ok(Some(p))
    ensures Extract(Upbit, JArr(items)) == Ok(Some(p / UpbitKrwPerUsd))
  {
  }

  /** Kraken takes the first pair of its `result` dict, so an empty `result` raises IndexError. */
  lemma ExtractKrakenEmpty(data: seq<(string, Json)>)
    requires OrderedDict.Lookup(data, "result") == Some(JObj([]))
    ensures Extract(Kraken, JObj(data)) == Raise(IndexError)
  {
    assert OrderedDict.FromPairs<string, Json>([]) == [];
  }

  /**
   * What an exchange contributes to the chain: its extracted price when the reply has status 200,
   * decodes, extracts without raising and the price is truthy (present and not zero).
   */
  function Quote(x: Exchange, reply: HttpOutcome): (r: Option<real>)
    ensures r.Some? ==> r.value != 0.0
  {
    match Body(reply)
    case None => None
    case Some(data) =>
      match Extract(x, data)
      case Ok(Some(p)) => if p != 0.0 then Some(p) else None
      case _ => None
  }

  /**
   * A quote comes only from a status-200 JSON reply whose rule gives a price without raising, and it
   * is that price; such a price is the quote unless it is 0.
   */
  lemma QuoteMeaning(x: Exchange, reply: HttpOutcome)
    ensures Quote(x, reply).Some? ==>
              reply.Reply? && reply.status == 200 && reply.body.Some? && Extract(x, reply.body.value) == Ok(Quote(x, reply))
    ensures reply.Reply? && reply.status == 200 && reply.body.Some? && Extract(x, reply.body.value).Ok? ==>
              Quote(x, reply) == (if Extract(x, reply.body.value).value == Some(0.0) then None else Extract(x, reply.body.value).value)
  {
  }

  /** An exchange is skipped on a failed GET, a non-200 status, a body that is not JSON, an exception or a price of None or 0. */
  lemma SkippedExchange(x: Exchange, reply: HttpOutcome)
    ensures reply.Unreachable? ==> Quote(x, reply).None?
    ensures reply.Reply? && (reply.status != 200 || reply.body.None?) ==> Quote(x, reply).None?
    ensures reply.Reply? && reply.body.Some? && Extract(x, reply.body.value).Raise? ==> Quote(x, reply).None?
    ensures reply.Reply? && reply.body.Some? && Extract(x, reply.body.value) in {Ok(None), Ok(Some(0.0))} ==>
              Quote(x, reply).None?
  {
  }

  /** Whether each exchange in xs has a quote. */
  function Quoted(xs: seq<Exchange>, market: Exchange -> HttpOutcome): (r: seq<bool>)
    ensures |r| == |xs| && forall j :: 0 <= j < |xs| ==> r[j] == Quote(xs[j], market(xs[j])).Some?
  {
    seq(|xs|, j requires 0 <= j < |xs| => Quote(xs[j], market(xs[j])).Some?)
  }

  /** The position of the first true flag at or after position i. */
  function FirstFrom(flags: seq<bool>, i: nat): (r: Option<nat>)
    requires i <= |flags|
    ensures r.Some? ==> i <= r.value < |flags| && flags[r.value]
    decreases |flags| - i
  {
    if i == |flags| then None
    else if flags[i] then Some(i)
    else FirstFrom(flags, i + 1)
  }

  /** The search from i stops at the first true flag, skipping only false ones. */
  lemma {:induction false} FirstFromMeaning(flags: seq<bool>, i: nat)
    requires i <= |flags|
    ensures FirstFrom(flags, i).Some? ==> forall j :: i <= j < FirstFrom(flags, i).value ==> !flags[j]
    ensures FirstFrom(flags, i).None? ==> forall j :: i <= j < |flags| ==> !flags[j]
    decreases |flags| - i
  {
    if i < |flags| && !flags[i] {
      FirstFromMeaning(flags, i + 1);
    }
  }

  /** The position in xs of the first exchange that has a quote. */
  function Winner(xs: seq<Exchange>, market: Exchange -> HttpOutcome): (r: Option<nat>)
    ensures r.Some? ==> r.value < |xs| && Quote(xs[r.value], market(xs[r.value])).Some?
    ensures r.Some? ==> forall j :: 0 <= j < r.value ==> Quote(xs[j], market(xs[j])).None?
    ensures r.None? ==> forall j :: 0 <= j < |xs| ==> Quote(xs[j], market(xs[j])).None?
  {
    FirstFromMeaning(Quoted(xs, market), 0);
    FirstFrom(Quoted(xs, market), 0)
  }

  /** The winner is determined by its quote and the absence of quotes before it. */
  lemma WinnerAt(xs: seq<Exchange>, market: Exchange -> HttpOutcome, i: nat)
    requires i < |xs| && Quote(xs[i], market(xs[i])).Some?
    requires forall j :: 0 <= j < i ==> Quote(xs[j], market(xs[j])).None?
    ensures Winner(xs, market) == Some(i)
  {
  }

  /** Without any quote there is no winner. */
  lemma NoWinner(xs: seq<Exchange>, market: Exchange -> HttpOutcome)
    requires forall j :: 0 <= j < |xs| ==> Quote(xs[j], market(xs[j])).None?
    ensures Winner(xs, market) == None
  {
  }

  /** With a closed session every GET raises, as if no source could be reached. */
  function Effective(session: Session, replies: Replies): Replies
  {
    if session == Open then replies else Replies(Unreachable, (x: Exchange) => Unreachable)
  }

  /** The Source value of each exchange in xs. */
  function Markets(xs: seq<Exchange>): (r: seq<Source>)
    ensures |r| == |xs| && forall i :: 0 <= i < |xs| ==> r[i] == Market(xs[i])
  {
    seq(|xs|, i requires 0 <= i < |xs| => Market(xs[i]))
  }

  /**
   * get_token_price: without a session it raises RuntimeError; otherwise the aggregator's answer if
   * it has one, else the first exchange quote in the fixed order, else None.
   */
  function TokenPrice(session: Session, symbol: string, replies: Replies): (r: Result<Json>)
    ensures r.Raise? <==> session == NoSession
    ensures r.Raise? ==> r.error == RuntimeError
  {
    if session == NoSession then Raise(RuntimeError)
    else
      var rs := Effective(session, replies);
      match AggregatorQuote(AggregatorId(symbol), rs.aggregator)
      case Some(price) => Ok(price)
      case None =>
        match Winner(Exchanges, rs.market)
        case Some(i) => Ok(JNum(Quote(Exchanges[i], rs.market(Exchanges[i])).value))
        case None => Ok(JNull)
  }

  /** The sources a lookup sends a GET to, in order. */
  function Queried(session: Session, symbol: string, replies: Replies): seq<Source>
  {
    if session == NoSession then []
    else
      var rs := Effective(session, replies);
      if AggregatorQuote(AggregatorId(symbol), rs.aggregator).Some? then [CoinGecko]
      else match Winner(Exchanges, rs.market)
        case Some(i) => [CoinGecko] + Markets(Exchanges[..i + 1])
        case None => [CoinGecko] + Markets(Exchanges)
  }

  /** Without a session the lookup raises before any request. */
  lemma NoSessionRaises(symbol: string, replies: Replies)
    ensures TokenPrice(NoSession, symbol, replies) == Raise(RuntimeError)
    ensures Queried(NoSession, symbol, replies) == []
  {
  }

  /**
   * When the aggregator's reply has a `usd` field for the token's id, that value is the result, even
   * 0 or null, and no exchange is asked.
   */
  lemma AggregatorAnswers(symbol: string, replies: Replies, price: Json)
    requires UsdField(AggregatorId(symbol), replies.aggregator) == Some(price)
    ensures TokenPrice(Open, symbol, replies) == Ok(price)
    ensures Queried(Open, symbol, replies) == [CoinGecko]
  {
    AggregatorQuoteMeaning(AggregatorId(symbol), replies.aggregator);
  }

  /**
   * When the aggregator has no answer, the i-th exchange has a quote and none before it has, that
   * quote is the result and exactly the aggregator and the first i + 1 exchanges are asked.
   */
  lemma ExchangeAnswers(symbol: string, replies: Replies, i: nat, price: real)
    requires UsdField(AggregatorId(symbol), replies.aggregator).None?
    requires i < |Exchanges| && Quote(Exchanges[i], replies.market(Exchanges[i])) == Some(price)
    requires forall j :: 0 <= j < i ==> Quote(Exchanges[j], replies.market(Exchanges[j])).None?
    ensures TokenPrice(Open, symbol, replies) == Ok(JNum(price))
    ensures Queried(Open, symbol, replies) == [CoinGecko] + Markets(Exchanges[..i + 1])
    ensures price != 0.0
  {
    AggregatorQuoteMeaning(AggregatorId(symbol), replies.aggregator);
    WinnerAt(Exchanges, replies.market, i);
  }

  /** When no source answers, the result is None, not an error, after asking every source once. */
  lemma NoSourceAnswers(symbol: string, replies: Replies)
    requires UsdField(AggregatorId(symbol), replies.aggregator).None?
    requires forall j :: 0 <= j < |Exchanges| ==> Quote(Exchanges[j], replies.market(Exchanges[j])).None?
    ensures TokenPrice(Open, symbol, replies) == Ok(JNull)
    ensures Queried(Open, symbol, replies) == [CoinGecko] + Markets(Exchanges) && |Queried(Open, symbol, replies)| == 13
  {
    AggregatorQuoteMeaning(AggregatorId(symbol), replies.aggregator);
  }

  /** After the context is left the session is closed: the lookup no longer raises but finds nothing. */
  lemma ClosedSessionFindsNothing(symbol: string, replies: Replies)
    ensures TokenPrice(Closed, symbol, replies) == Ok(JNull)
  {
    var rs := Effective(Closed, replies);
    assert AggregatorQuote(AggregatorId(symbol), rs.aggregator).None?;
    assert Winner(Exchanges, rs.market).None?;
  }

  // ---------------------------------------------------------------------------------------------
  // Batch lookup

  /** The price found by each lookup of a batch; lookup i sees replies(i). */
  function Prices(session: Session, symbols: seq<string>, replies: nat -> Replies): (r: seq<Json>)
    requires session != NoSession
    ensures |r| == |symbols|
  {
    seq(|symbols|, i requires 0 <= i < |symbols| => TokenPrice(session, symbols[i], replies(i)).value)
  }

  /** get_multiple_prices: dict(zip(symbols, prices)); without a session any lookup raises. */
  function BatchPrices(session: Session, symbols: seq<string>, replies: nat -> Replies): Result<seq<(string, Json)>>
  {
    if symbols == [] then Ok([])
    else if session == NoSession then Raise(RuntimeError)
    else Ok(OrderedDict.FromPairs(OrderedDict.Zip(symbols, Prices(session, symbols, replies))))
  }

  /**
   * Without a session an empty batch is `{}`, since no lookup runs; any other batch raises the
   * first lookup's RuntimeError.
   */
  lemma BatchWithoutSession(symbols: seq<string>, replies: nat -> Replies)
    ensures BatchPrices(NoSession, [], replies) == Ok([])
    ensures symbols != [] ==> TokenPrice(NoSession, symbols[0], replies(0)).Raise?
    ensures symbols != [] ==> BatchPrices(NoSession, symbols, replies) == Raise(TokenPrice(NoSession, symbols[0], replies(0)).error)
  {
  }

  /**
   * With a session the batch never fails: its keys are exactly the input symbols, each once, and
   * each symbol is paired with the price found by its last lookup in the batch.
   */
  lemma BatchMeaning(session: Session, symbols: seq<string>, replies: nat -> Replies)
    requires session != NoSession
    ensures BatchPrices(session, symbols, replies).Ok?
    ensures var d := BatchPrices(session, symbols, replies).value;
      && OrderedDict.UniqueKeys(d)
      && OrderedDict.Keys(d) == (set i | 0 <= i < |symbols| :: symbols[i])
      && forall i :: 0 <= i < |symbols| && (forall j :: i < j < |symbols| ==> symbols[j] != symbols[i]) ==>
           OrderedDict.Lookup(d, symbols[i]) == Some(TokenPrice(session, symbols[i], replies(i)).value)
  {
    OrderedDict.ZipDict(symbols, Prices(session, symbols, replies));
  }

  // ---------------------------------------------------------------------------------------------
  // The fetcher object

  class PriceFetcher {
    var session: Session
    var rates: map<string, Json>

    ghost predicate Valid()
      reads this
    {
      RatesValid(rates)
    }

    constructor ()
      ensures Valid() && session == NoSession && rates == InitialRates
    {
      session := NoSession;
      rates := InitialRates;
    }

    /** Entering the context opens a session. */
    method Enter()
      modifies this`session
      ensures session == Open
    {
      session := Open;
    }

    /** Leaving the context closes an existing session; the attribute is not reset. */
    method Exit()
      modifies this`session
      ensures session == if old(session) == NoSession then NoSession else Closed
    {
      if session != NoSession {
        session := Closed;
      }
    }

    /** update_exchange_rates: overwrites EUR, RUB, UAH and KZT from the reply, or leaves the table. */
    method UpdateExchangeRates(reply: HttpOutcome)
      requires Valid()
      modifies this`rates
      ensures Valid()
      ensures rates == RefreshedRates(old(rates), session, reply)
    {
      if session != Open {
        return;
      }
      var body := Body(reply);
      if body.None? {
        return;
      }
      var table := Subscript(body.value, "rates");
      if !(table.Ok? && table.value.JObj?) {
        return;
      }
      var fields := table.value.fields;
      rates := rates["EUR" := OrderedDict.Lookup(fields, "EUR").GetOr(JNum(0.92))];
      rates := rates["RUB" := OrderedDict.Lookup(fields, "RUB").GetOr(JNum(92.0))];
      rates := rates["UAH" := OrderedDict.Lookup(fields, "UAH").GetOr(JNum(41.0))];
      rates := rates["KZT" := OrderedDict.Lookup(fields, "KZT").GetOr(JNum(480.0))];
    }

    /**
     * The exchange loop of get_token_price: asks the exchanges in order and stops at the first
     * quote, returning its position and the exchanges asked.
     */
    method FirstQuote(xs: seq<Exchange>, market: Exchange -> HttpOutcome) returns (winner: Option<nat>, asked: seq<Source>)
      ensures winner == Winner(xs, market)
      ensures asked == if winner.Some? then Markets(xs[..winner.value + 1]) else Markets(xs)
    {
      asked := [];
      var i := 0;
      while i < |xs|
        invariant 0 <= i <= |xs|
        invariant asked == Markets(xs[..i])
        invariant Winner(xs, market) == FirstFrom(Quoted(xs, market), i)
      {
        var x := xs[i];
        asked := asked + [Market(x)];
        assert asked == Markets(xs[..i + 1]);
        if Quoted(xs, market)[i] {
          assert Quote(x, market(x)).Some?;
          return Some(i), asked;
        }
        assert FirstFrom(Quoted(xs, market), i) == FirstFrom(Quoted(xs, market), i + 1);
        i := i + 1;
      }
      assert xs[..i] == xs;
      winner := None;
    }

    /** get_token_price: the aggregator first, then the exchanges in order until one has a quote. */
    method GetTokenPrice(symbol: string, replies: Replies) returns (price: Result<Json>, queried: seq<Source>)
      ensures price == TokenPrice(session, symbol, replies)
      ensures queried == Queried(session, symbol, replies)
    {
      if session == NoSession {
        return Raise(RuntimeError), [];
      }
      var rs := Effective(session, replies);
      var answer := AggregatorQuote(AggregatorId(symbol), rs.aggregator);
      if answer.Some? {
        return Ok(answer.value), [CoinGecko];
      }
      var winner, asked := FirstQuote(Exchanges, rs.market);
      queried := [CoinGecko] + asked;
      if winner.Some? {
        var x := Exchanges[winner.value];
        price := Ok(JNum(Quote(x, rs.market(x)).value));
      } else {
        price := Ok(JNull);
      }
    }

    /** get_multiple_prices: one lookup per symbol, zipped back onto the symbols as a dict. */
    method GetMultiplePrices(symbols: seq<string>, replies: nat -> Replies) returns (prices: Result<seq<(string, Json)>>)
      ensures prices == BatchPrices(session, symbols, replies)
    {
      if symbols == [] {
        return Ok([]);
      }
      if session == NoSession {
        // every lookup raises; gather passes on the first one's exception
        var price, _ := GetTokenPrice(symbols[0], replies(0));
        BatchWithoutSession(symbols, replies);
        return Raise(price.error);
      }
      var found := LookUpEach(symbols, replies);
      prices := Ok(OrderedDict.FromPairs(OrderedDict.Zip(symbols, found)));
    }

    /** The lookups of the batch, one per symbol in order. */
    method LookUpEach(symbols: seq<string>, replies: nat -> Replies) returns (found: seq<Json>)
      requires session != NoSession
      ensures found == Prices(session, symbols, replies)
    {
      var s := session;
      found := [];
      var i := 0;
      while i < |symbols|
        invariant 0 <= i <= |symbols|
        invariant |found| == i
        invariant forall j :: 0 <= j < i ==> found[j] == TokenPrice(s, symbols[j], replies(j)).value
      {
        var price, _ := GetTokenPrice(symbols[i], replies(i));
        found := found + [price.value];
        i := i + 1;
      }
    }
  }
}
