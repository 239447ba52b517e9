/** The pure parts of `MarketDataService`: the exchange prefix of a quote code,
    the field layout of a quote line, the index names and the market-sentiment
    rule of the overview. The HTTP request is a parameter `fetch` from the
    requested URL to the response; `float()` and `int()` on a field are the
    parameters `toFloat` and `toInt`, which give `None` where Python raises
    `ValueError`. */
module MarketData {
  import opened Basics
  import opened Text

  const BaseUrl := "http://hq.sinajs.cn/list="

  // ----- quote codes -----

  datatype CodeError = UnsupportedSymbol(symbol: string)

  /** `_get_stock_code`: Shanghai symbols start with 6, Shenzhen ones with 0
      or 3; anything else, the empty symbol included, raises `ValueError`. */
  function StockCode(symbol: string): (r: Result<string, CodeError>)
    ensures r.Ok? <==> |symbol| > 0 && (symbol[0] == '6' || symbol[0] == '0' || symbol[0] == '3')
    ensures r.Err? ==> r.error.symbol == symbol
  {
    if StartsWith(symbol, "6") then Ok("sh" + symbol)
    else if StartsWith(symbol, "0") || StartsWith(symbol, "3") then Ok("sz" + symbol)
    else Err(UnsupportedSymbol(symbol))
  }

  /** A quote code: an exchange prefix followed by a symbol of that exchange. */
  predicate IsStockCode(code: string) {
    |code| >= 3
    && ((code[..2] == "sh" && code[2] == '6')
        || (code[..2] == "sz" && (code[2] == '0' || code[2] == '3')))
  }

  /** The symbol a quote code was made from. */
  function SymbolOf(code: string): string
    requires |code| >= 2
  {
    code[2..]
  }

  /** Every code `StockCode` makes is a quote code that gives back its symbol,
      and every quote code is made from its own symbol. */
  lemma {:induction false} StockCodeRoundTrip(symbol: string, code: string)
    ensures StockCode(symbol) == Ok(code) ==> IsStockCode(code) && SymbolOf(code) == symbol
    ensures IsStockCode(code) ==> StockCode(SymbolOf(code)) == Ok(code)
  {
    if StockCode(symbol) == Ok(code) {
      assert code[2..] == symbol && code[..2] + code[2..] == code;
    }
    if IsStockCode(code) {
      assert code[..2] + code[2..] == code;
    }
  }

  // ----- the quote line -----

  /** Separates the variable name from the quoted payload. */
  const PayloadMarker := "=\""

  /** `text.split('="')[1].split(',')`; `None` where the text has no payload
      and indexing the split raises `IndexError`. */
  function QuoteFields(text: string): (r: Option<seq<string>>)
    ensures r.None? <==> !Contains(text, PayloadMarker)
    ensures r.Some? ==> |r.value| >= 1
  {
    match Find(text, PayloadMarker)
    case None => None
    case Some(i) =>
      ContainsAt(text, PayloadMarker, i);
      Some(Split(Split(text, PayloadMarker)[1], ","))
  }

  datatype QuoteError = NoPayload | MissingField(index: nat) | BadNumber(index: nat) | ZeroPreviousClose

  /** `float(data[i])` */
  function FloatField(data: seq<string>, i: nat, toFloat: string -> Option<real>): Result<real, QuoteError> {
    if i >= |data| then Err(MissingField(i))
    else match toFloat(data[i])
      case None => Err(BadNumber(i))
      case Some(x) => Ok(x)
  }

  /** `int(data[i])` */
  function IntField(data: seq<string>, i: nat, toInt: string -> Option<int>): Result<int, QuoteError> {
    if i >= |data| then Err(MissingField(i))
    else match toInt(data[i])
      case None => Err(BadNumber(i))
      case Some(x) => Ok(x)
  }

  /** `(current - close) / close * 100`, which raises `ZeroDivisionError` on a
      previous close of 0. */
  function ChangePercent(current: real, close: real): Result<real, QuoteError> {
    if close == 0.0 then Err(ZeroPreviousClose) else Ok((current - close) / close * 100.0)
  }

  /** The percentage is defined exactly for a non-zero previous close; it is
      the change measured in hundredths of the close, so the current price can
      be recovered from it, and it is positive exactly when the price rose
      above a positive close. */
  lemma {:induction false} ChangePercentSpec(current: real, close: real)
    ensures ChangePercent(current, close).Ok? <==> close != 0.0
    ensures ChangePercent(current, close).Ok? ==>
      var p := ChangePercent(current, close).value;
      p * close == (current - close) * 100.0
      && current == close + close * p / 100.0
      && (close > 0.0 ==> (p > 0.0 <==> current > close) && (p < 0.0 <==> current < close))
  {
    if close != 0.0 {
      var p := (current - close) / close * 100.0;
      assert p * close == (current - close) * 100.0;
      if close > 0.0 {
        if current > close {
          assert p > 0.0;
        }
        if current < close {
          assert p < 0.0;
        }
      }
    }
  }

  /** The dict `get_stock_price` builds from a quote line. */
  datatype StockQuote = StockQuote(
    symbol: string,
    name: string,
    openPrice: real,
    previousClose: real,
    current: real,
    high: real,
    low: real,
    volume: int,
    amount: real,
    change: real,
    changePercent: real)

  /** The parsing part of `get_stock_price`, converting the fields in the
      order the dict literal evaluates them. */
  function StockQuoteOf(symbol: string, text: string, toFloat: string -> Option<real>,
                        toInt: string -> Option<int>): (r: Result<StockQuote, QuoteError>)
    ensures r == Err(NoPayload) <==> !Contains(text, PayloadMarker)
    ensures r.Ok? ==>
      QuoteFields(text).Some? && |QuoteFields(text).value| >= 10
      && r.value.symbol == symbol && r.value.name == QuoteFields(text).value[0]
    ensures r.Ok? ==>
      r.value.change == r.value.current - r.value.previousClose
      && r.value.previousClose != 0.0
      && r.value.changePercent * r.value.previousClose == r.value.change * 100.0
  {
    match QuoteFields(text)
    case None => Err(NoPayload)
    case Some(data) =>
      var openPrice :- FloatField(data, 1, toFloat);
      var close :- FloatField(data, 2, toFloat);
      var current :- FloatField(data, 3, toFloat);
      var high :- FloatField(data, 4, toFloat);
      var low :- FloatField(data, 5, toFloat);
      var volume :- IntField(data, 8, toInt);
      var amount :- FloatField(data, 9, toFloat);
      var percent :- ChangePercent(current, close);
      ChangePercentSpec(current, close);
      Ok(StockQuote(symbol, data[0], openPrice, close, current, high, low, volume, amount,
                    current - close, percent))
  }

  /** A quote line: a head without `=`, the payload marker, then fields joined
      by commas. */
  function QuoteLine(head: string, fields: seq<string>): string {
    head + PayloadMarker + Join(fields, ",")
  }

  predicate PlainField(f: string) {
    ',' !in f && '=' !in f
  }

  /** Reading a quote line gives back its fields. */
  lemma {:induction false} QuoteLineFields(head: string, fields: seq<string>)
    requires '=' !in head && |fields| >= 1
    requires forall i :: 0 <= i < |fields| ==> PlainField(fields[i])
    ensures QuoteFields(QuoteLine(head, fields)) == Some(fields)
  {
    var payload := Join(fields, ",");
    var text := QuoteLine(head, fields);
    FindAfterHead(head, PayloadMarker, payload);
    assert text == head + PayloadMarker + payload;
    assert text[..|head|] == head;
    assert text[|head| + |PayloadMarker|..] == payload;
    JoinChars(fields, ',', '=');
    MissingFirstChar(payload, PayloadMarker);
    assert Split(text, PayloadMarker) == [head, payload];
    SplitJoin(fields, ',');
  }

  /** A character that no part contains is not in their join by another
      character. */
  lemma {:induction false} JoinChars(parts: seq<string>, sep: char, c: char)
    requires c != sep
    requires forall i :: 0 <= i < |parts| ==> c !in parts[i]
    ensures c !in Join(parts, [sep])
  {
    if |parts| > 1 {
      JoinChars(parts[1..], sep, c);
    }
  }

  /** The field layout: field 0 is the name, 1 the open, 2 the previous close,
      3 the current price, 4 the high, 5 the low, 8 the volume and 9 the
      amount; the change and its percentage come from fields 3 and 2. */
  lemma {:induction false} QuoteLayout(symbol: string, head: string, fields: seq<string>,
                    toFloat: string -> Option<real>, toInt: string -> Option<int>)
    requires '=' !in head && |fields| >= 10
    requires forall i :: 0 <= i < |fields| ==> PlainField(fields[i])
    requires forall i :: 1 <= i <= 5 || i == 9 ==> toFloat(fields[i]).Some?
    requires toInt(fields[8]).Some?
    requires toFloat(fields[2]).value != 0.0
    ensures
      var close := toFloat(fields[2]).value;
      var current := toFloat(fields[3]).value;
      StockQuoteOf(symbol, QuoteLine(head, fields), toFloat, toInt)
      == Ok(StockQuote(symbol, fields[0], toFloat(fields[1]).value, close, current,
                       toFloat(fields[4]).value, toFloat(fields[5]).value, toInt(fields[8]).value,
                       toFloat(fields[9]).value, current - close, (current - close) / close * 100.0))
  {
    QuoteLineFields(head, fields);
  }

  /** A quote line with fewer than ten fields whose numbers all convert
      fails on the first missing field. */
  lemma {:induction false} ShortQuoteLine(symbol: string, head: string, fields: seq<string>,
                       toFloat: string -> Option<real>, toInt: string -> Option<int>)
    requires '=' !in head && 1 <= |fields| < 10
    requires forall i :: 0 <= i < |fields| ==> PlainField(fields[i])
    requires forall i :: 1 <= i < |fields| ==> toFloat(fields[i]).Some? && toInt(fields[i]).Some?
    ensures StockQuoteOf(symbol, QuoteLine(head, fields), toFloat, toInt)
      == Err(MissingField(if |fields| <= 5 then |fields| else if |fields| <= 8 then 8 else 9))
  {
    QuoteLineFields(head, fields);
  }

  /** The response to a request. */
  datatype Response = Response(status: int, text: string)

  datatype FetchError = BadSymbol(codeError: CodeError) | HttpStatus(status: int) | Malformed(quoteError: QuoteError)

  /** `get_stock_price`: the quote of the symbol's code, fetched from the
      quote service. */
  function StockPrice(symbol: string, fetch: string -> Response, toFloat: string -> Option<real>,
                      toInt: string -> Option<int>): (r: Result<StockQuote, FetchError>)
    ensures StockCode(symbol).Err? ==> r == Err(BadSymbol(StockCode(symbol).error))
    ensures StockCode(symbol).Ok? ==>
      var response := fetch(BaseUrl + StockCode(symbol).value);
      (r.Err? && r.error.HttpStatus? <==> response.status != 200)
      && (r.Err? && r.error.HttpStatus? ==> r.error.status == response.status)
      && (response.status == 200 ==>
            match StockQuoteOf(symbol, response.text, toFloat, toInt)
            case Ok(q) => r == Ok(q)
            case Err(e) => r == Err(Malformed(e)))
  {
    match StockCode(symbol)
    case Err(e) => Err(BadSymbol(e))
    case Ok(code) =>
      var response := fetch(BaseUrl + code);
      if response.status != 200 then Err(HttpStatus(response.status))
      else
        match StockQuoteOf(symbol, response.text, toFloat, toInt)
        case Err(e) => Err(Malformed(e))
        case Ok(q) => Ok(q)
  }

  // ----- indices -----

  const IndexNames: map<string, string> :=
    map["sh000001" := "上证指数", "sz399001" := "深证成指", "sz399006" := "创业板指", "sh000300" := "沪深300"]

  /** `index_codes.get(index, index)` */
  function IndexName(code: string): (name: string)
    ensures name == code <==> code !in IndexNames
    ensures code in IndexNames ==> name == IndexNames[code]
  {
    if code in IndexNames then IndexNames[code] else code
  }

  /** The dict `get_market_index` builds from a quote line. */
  datatype IndexQuote = IndexQuote(
    name: string,
    current: real,
    change: real,
    changePercent: real,
    volume: int,
    amount: real)

  /** The parsing part of `get_market_index`, in the dict literal's order:
      the current price, the previous close, the division, then volume and
      amount. */
  function IndexQuoteOf(code: string, text: string, toFloat: string -> Option<real>,
                        toInt: string -> Option<int>): (r: Result<IndexQuote, QuoteError>)
    ensures r == Err(NoPayload) <==> !Contains(text, PayloadMarker)
    ensures r.Ok? ==> r.value.name == IndexName(code)
    ensures r.Ok? ==>
      var close := r.value.current - r.value.change;
      close != 0.0 && r.value.changePercent * close == r.value.change * 100.0
  {
    match QuoteFields(text)
    case None => Err(NoPayload)
    case Some(data) =>
      var current :- FloatField(data, 3, toFloat);
      var close :- FloatField(data, 2, toFloat);
      var percent :- ChangePercent(current, close);
      var volume :- IntField(data, 8, toInt);
      var amount :- FloatField(data, 9, toFloat);
      ChangePercentSpec(current, close);
      Ok(IndexQuote(IndexName(code), current, current - close, percent, volume, amount))
  }

  /** `get_market_index` */
  function MarketIndex(code: string, fetch: string -> Response, toFloat: string -> Option<real>,
                       toInt: string -> Option<int>): (r: Result<IndexQuote, FetchError>)
    ensures r.Err? && r.error.HttpStatus? <==> fetch(BaseUrl + code).status != 200
    ensures r.Ok? <==> fetch(BaseUrl + code).status == 200
                       && IndexQuoteOf(code, fetch(BaseUrl + code).text, toFloat, toInt).Ok?
    ensures r.Ok? ==> r.value == IndexQuoteOf(code, fetch(BaseUrl + code).text, toFloat, toInt).value
  {
    var response := fetch(BaseUrl + code);
    if response.status != 200 then Err(HttpStatus(response.status))
    else
      match IndexQuoteOf(code, response.text, toFloat, toInt)
      case Err(e) => Err(Malformed(e))
      case Ok(q) => Ok(q)
  }

  // ----- the overview -----

  const Optimistic := "乐观"
  const Neutral := "中性"
  const Pessimistic := "悲观"

  /** What the overview shows for one index: "N/A" for an error, else the
      current value and the change percentage. */
  datatype IndexDisplay = NotAvailable | Shown(current: real, changePercent: real)

  function Display(r: Result<IndexQuote, FetchError>): IndexDisplay {
    match r
    case Err(_) => NotAvailable
    case Ok(q) => Shown(q.current, q.changePercent)
  }

  /** The sentiment rule of `get_market_overview`: neutral unless all three
      indices were read, then by the mean change percentage against ±1. The
      result is optimistic exactly when all three were read and their changes
      add up to more than 3, and pessimistic exactly when they add up to less
      than -3. */
  function Sentiment(sh: Result<IndexQuote, FetchError>, sz: Result<IndexQuote, FetchError>,
                     cyb: Result<IndexQuote, FetchError>): (r: string)
    ensures r == Optimistic || r == Neutral || r == Pessimistic
    ensures r == Optimistic <==>
      sh.Ok? && sz.Ok? && cyb.Ok?
      && sh.value.changePercent + sz.value.changePercent + cyb.value.changePercent > 3.0
    ensures r == Pessimistic <==>
      sh.Ok? && sz.Ok? && cyb.Ok?
      && sh.value.changePercent + sz.value.changePercent + cyb.value.changePercent < -3.0
  {
    if sh.Ok? && sz.Ok? && cyb.Ok? then
      var average := (sh.value.changePercent + sz.value.changePercent + cyb.value.changePercent) / 3.0;
      if average > 1.0 then Optimistic
      else if average < -1.0 then Pessimistic
      else Neutral
    else Neutral
  }

  /** The same reading with every change percentage negated. */
  function Mirrored(r: Result<IndexQuote, FetchError>): Result<IndexQuote, FetchError> {
    match r
    case Err(e) => Err(e)
    case Ok(q) => Ok(q.(changePercent := -q.changePercent))
  }

  function Swapped(sentiment: string): string {
    if sentiment == Optimistic then Pessimistic
    else if sentiment == Pessimistic then Optimistic
    else sentiment
  }

  /** The rule is symmetric: negating every change swaps optimism and
      pessimism and keeps neutrality. */
  lemma {:induction false} SentimentMirror(sh: Result<IndexQuote, FetchError>, sz: Result<IndexQuote, FetchError>,
                        cyb: Result<IndexQuote, FetchError>)
    ensures Sentiment(Mirrored(sh), Mirrored(sz), Mirrored(cyb)) == Swapped(Sentiment(sh, sz, cyb))
  {
  }

  /** The dict `get_market_overview` returns. */
  datatype MarketOverview = MarketOverview(
    shIndex: IndexDisplay,
    szIndex: IndexDisplay,
    cybIndex: IndexDisplay,
    sentiment: string)

  /** `get_market_overview` over the Shanghai composite, the Shenzhen
      component and the ChiNext index. */
  function Overview(fetch: string -> Response, toFloat: string -> Option<real>,
                    toInt: string -> Option<int>): (r: MarketOverview)
    ensures r.shIndex == NotAvailable <==> MarketIndex("sh000001", fetch, toFloat, toInt).Err?
    ensures r.szIndex == NotAvailable <==> MarketIndex("sz399001", fetch, toFloat, toInt).Err?
    ensures r.cybIndex == NotAvailable <==> MarketIndex("sz399006", fetch, toFloat, toInt).Err?
    ensures r.sentiment == Sentiment(MarketIndex("sh000001", fetch, toFloat, toInt),
                                     MarketIndex("sz399001", fetch, toFloat, toInt),
                                     MarketIndex("sz399006", fetch, toFloat, toInt))
    ensures r.sentiment != Neutral ==>
      r.shIndex.Shown? && r.szIndex.Shown? && r.cybIndex.Shown?
      && (r.sentiment == Optimistic <==>
            r.shIndex.changePercent + r.szIndex.changePercent + r.cybIndex.changePercent > 3.0)
  {
    var sh := MarketIndex("sh000001", fetch, toFloat, toInt);
    var sz := MarketIndex("sz399001", fetch, toFloat, toInt);
    var cyb := MarketIndex("sz399006", fetch, toFloat, toInt);
    MarketOverview(Display(sh), Display(sz), Display(cyb), Sentiment(sh, sz, cyb))
  }
}
