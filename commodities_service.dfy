/**
 * The commodity price service of the farm dashboard: merging the three
 * backend price feeds into one list (`getCommodityPrices`) and the daily
 * price history with its synthesized offline fallback (`getCommodityHistory`).
 *
 * The backend calls are not modelled: their outcomes are inputs. Prices and
 * percentage changes are exact rationals (`real`), not IEEE doubles.
 */
module CommoditiesService {
  import opened Wrappers

  datatype Trend = Up | Down

  /** One commodity's current snapshot, as shown on a dashboard card. */
  datatype CommodityPrice = CommodityPrice(
    name: string,
    price: real,
    unit: string,
    change: real,
    trend: Trend,
    icon: string,
    lastUpdate: string,
    source: Option<string>)

  /** A quote from one of the specialised feeds (CEPEA or the dollar feed). */
  datatype Quote = Quote(price: real, change: real, trend: Trend, source: Option<string>)

  /** The CEPEA payload: an optional quote per tracked agricultural good. */
  datatype CepeaData = CepeaData(soja: Option<Quote>, milho: Option<Quote>, leite: Option<Quote>)

  /**
   * What the three parallel backend calls produced: either one of them (or
   * the merge itself) threw, or each delivered a `data` field that may be
   * null (`None`).
   */
  datatype PriceResponses =
    | Threw
    | Got(cepea: Option<CepeaData>, dollar: Option<Quote>, general: Option<seq<CommodityPrice>>)

  /** The fields that the merge never touches are those of `item`. */
  predicate SameIdentity(r: CommodityPrice, item: CommodityPrice) {
    r.name == item.name && r.unit == item.unit && r.icon == item.icon && r.lastUpdate == item.lastUpdate
  }

  /** The four quoted fields of `r` are exactly those of `q`. */
  predicate Quoted(r: CommodityPrice, q: Quote) {
    r.price == q.price && r.change == q.change && r.trend == q.trend && r.source == q.source
  }

  /**
   * The specialised quote that applies to a commodity name: the CEPEA quote
   * for the three goods CEPEA tracks, the dollar quote for the dollar, and
   * nothing for any other name or for a feed value that is absent.
   */
  function FeedQuote(name: string, cepea: CepeaData, dollar: Option<Quote>): Option<Quote> {
    var feeds := map["Soja" := cepea.soja, "Milho" := cepea.milho, "Leite" := cepea.leite, "Dólar" := dollar];
    if name in feeds then feeds[name] else None
  }

  /** `{...item, price, change, trend, source}` taken from `q`. */
  function WithQuote(item: CommodityPrice, q: Quote): (r: CommodityPrice)
    ensures SameIdentity(r, item) && Quoted(r, q)
  {
    item.(price := q.price, change := q.change, trend := q.trend, source := q.source)
  }

  /** The callback passed to `generalData.map`: the if-chain over the four tracked names. */
  function MergeEntry(item: CommodityPrice, cepea: CepeaData, dollar: Option<Quote>): (r: CommodityPrice)
    ensures SameIdentity(r, item)
    ensures FeedQuote(item.name, cepea, dollar).Some? ==> Quoted(r, FeedQuote(item.name, cepea, dollar).value)
    ensures FeedQuote(item.name, cepea, dollar).None? ==> r == item
  {
    if item.name == "Soja" && cepea.soja.Some? then WithQuote(item, cepea.soja.value)
    else if item.name == "Milho" && cepea.milho.Some? then WithQuote(item, cepea.milho.value)
    else if item.name == "Leite" && cepea.leite.Some? then WithQuote(item, cepea.leite.value)
    else if item.name == "Dólar" && dollar.Some? then WithQuote(item, dollar.value)
    else item
  }

  /**
   * `generalData.map(MergeEntry)`: same length and order as the general list;
   * every entry keeps its identity and takes its quoted fields from the
   * applicable feed, or is passed through unchanged when no feed applies.
   */
  function Merge(general: seq<CommodityPrice>, cepea: CepeaData, dollar: Option<Quote>): (r: seq<CommodityPrice>)
    ensures |r| == |general|
    ensures forall i :: 0 <= i < |r| ==> SameIdentity(r[i], general[i])
    ensures forall i :: 0 <= i < |r| && FeedQuote(general[i].name, cepea, dollar).Some? ==>
      Quoted(r[i], FeedQuote(general[i].name, cepea, dollar).value)
    ensures forall i :: 0 <= i < |r| && FeedQuote(general[i].name, cepea, dollar).None? ==> r[i] == general[i]
  {
    seq(|general|, i requires 0 <= i < |general| => MergeEntry(general[i], cepea, dollar))
  }

  /** The names of a price list, in order. */
  function Names(prices: seq<CommodityPrice>): (names: seq<string>)
    ensures |names| == |prices|
    ensures forall i :: 0 <= i < |prices| ==> names[i] == prices[i].name
  {
    seq(|prices|, i requires 0 <= i < |prices| => prices[i].name)
  }

  /** The hard-coded list returned when any call throws; `now` stands for `new Date().toISOString()`. */
  function FallbackPrices(now: string): (r: seq<CommodityPrice>)
    ensures Names(r) == ["Soja", "Milho", "Leite", "Boi Gordo", "Dólar"]
    ensures forall i :: 0 <= i < |r| ==> (r[i].trend == Up <==> r[i].change > 0.0)
    ensures forall i :: 0 <= i < |r| ==> (r[i].source.Some? <==> i < 3)
    ensures forall i :: 0 <= i < |r| ==> r[i].lastUpdate == now
  {
    [ CommodityPrice("Soja", 158.50, "saca 60kg", 1.2, Up, "🌱", now, Some("CEPEA - Paraná")),
      CommodityPrice("Milho", 90.00, "saca 60kg", -0.5, Down, "🌽", now, Some("CEPEA - Paraná")),
      CommodityPrice("Leite", 2.73, "litro", 0.8, Up, "🥛", now, Some("Conseleite - Paraná")),
      CommodityPrice("Boi Gordo", 312.00, "@", 1.5, Up, "🐂", now, None),
      CommodityPrice("Dólar", 5.23, "R$", -0.5, Down, "💵", now, None) ]
  }

  /**
   * `getCommodityPrices`: never fails. A throw gives the fallback list; a
   * missing CEPEA or general payload gives the general list as it came (or
   * `[]`), ignoring the dollar feed; otherwise the merged list.
   */
  function GetCommodityPrices(responses: PriceResponses, now: string): (r: seq<CommodityPrice>)
    ensures responses.Threw? ==> r == FallbackPrices(now)
    ensures responses.Got? && responses.general.None? ==> r == []
    ensures responses.Got? && responses.general.Some? && responses.cepea.None? ==> r == responses.general.value
    ensures responses.Got? && responses.general.Some? ==> Names(r) == Names(responses.general.value)
    ensures responses.Got? && responses.general.Some? && responses.cepea.Some? ==>
      var general, cepea := responses.general.value, responses.cepea.value;
      forall i :: 0 <= i < |r| ==>
        SameIdentity(r[i], general[i]) &&
        match FeedQuote(general[i].name, cepea, responses.dollar)
        case Some(q) => Quoted(r[i], q)
        case None => r[i] == general[i]
  {
    match responses
    case Threw => FallbackPrices(now)
    case Got(cepea, dollar, general) =>
      if cepea.Some? && general.Some? then Merge(general.value, cepea.value, dollar)
      else general.GetOr([])
  }

  /** The dollar feed is consulted only when the CEPEA payload is present too. */
  lemma DollarNeedsCepea(dollar1: Option<Quote>, dollar2: Option<Quote>, general: Option<seq<CommodityPrice>>, now: string)
    ensures GetCommodityPrices(Got(None, dollar1, general), now) == GetCommodityPrices(Got(None, dollar2, general), now)
  {
  }

  /** With both CEPEA and dollar payloads present, a "Dólar" entry shows the dollar quote. */
  lemma DollarOverride(cepea: CepeaData, q: Quote, general: seq<CommodityPrice>, i: nat, now: string)
    requires i < |general| && general[i].name == "Dólar"
    ensures var r := GetCommodityPrices(Got(Some(cepea), Some(q), Some(general)), now);
      |r| == |general| && SameIdentity(r[i], general[i]) && Quoted(r[i], q)
  {
  }

  /** Merging keeps names unique when the general list has unique names. */
  lemma MergeKeepsNamesUnique(responses: PriceResponses, now: string)
    requires responses.Got? && responses.general.Some?
    requires forall i, j :: 0 <= i < j < |responses.general.value| ==>
      responses.general.value[i].name != responses.general.value[j].name
    ensures var r := GetCommodityPrices(responses, now);
      forall i, j :: 0 <= i < j < |r| ==> r[i].name != r[j].name
  {
    var r := GetCommodityPrices(responses, now);
    assert Names(r) == Names(responses.general.value);
    forall i, j | 0 <= i < j < |r| ensures r[i].name != r[j].name {
      assert Names(r)[i] == r[i].name && Names(r)[j] == r[j].name;
    }
  }

  // ---------------------------------------------------------------------------
  // Price history

  /** One day of history for the five tracked goods; `date` is a day number. */
  datatype CommodityHistory = CommodityHistory(date: int, soja: real, milho: real, leite: real, boiGordo: real, dolar: real)

  /** A value of `Math.random()`. */
  type Fraction = r: real | 0.0 <= r < 1.0 witness 0.0

  /** The five `Math.random()` draws made for one fallback day, in call order. */
  datatype Draw = Draw(soja: Fraction, milho: Fraction, leite: Fraction, boiGordo: Fraction, dolar: Fraction)

  /** The outcome of the history call: its `data` when no error was reported, or a failure (error field or throw). */
  datatype HistoryResponse = Delivered(data: seq<CommodityHistory>) | Failed

  /** Each fallback value lies in its half-open range `[base, base + spread)`. */
  predicate InFallbackRanges(h: CommodityHistory) {
    && 155.0 <= h.soja < 165.0
    && 87.0 <= h.milho < 92.0
    && 2.40 <= h.leite < 2.70
    && 305.0 <= h.boiGordo < 320.0
    && 5.15 <= h.dolar < 5.55
  }

  /** The entry pushed for day `date` from one set of draws. */
  function SynthesizedDay(date: int, d: Draw): (h: CommodityHistory)
    ensures h.date == date && InFallbackRanges(h)
  {
    CommodityHistory(date, 155.0 + d.soja * 10.0, 87.0 + d.milho * 5.0, 2.40 + d.leite * 0.3,
                     305.0 + d.boiGordo * 15.0, 5.15 + d.dolar * 0.4)
  }

  /**
   * The fallback series of `count` days starting at day `first`, the `k`-th
   * day using draws `draws[k]`; a non-positive count gives no days.
   */
  function Synthesized(count: int, first: int, draws: seq<Draw>): (h: seq<CommodityHistory>)
    requires count <= |draws|
    ensures |h| == if count < 0 then 0 else count
    ensures forall k :: 0 <= k < |h| ==> h[k].date == first + k && InFallbackRanges(h[k])
  {
    if count <= 0 then []
    else Synthesized(count - 1, first, draws) + [SynthesizedDay(first + count - 1, draws[count - 1])]
  }

  /** The fallback history for `days` days ending on day `today`. */
  function FallbackHistory(days: int, today: int, draws: seq<Draw>): seq<CommodityHistory>
    requires days <= |draws|
  {
    Synthesized(days, today - days + 1, draws)
  }

  /** Entry `k` of a synthesized series is the one made from `draws[k]`. */
  lemma {:induction false} SynthesizedAt(count: int, first: int, draws: seq<Draw>, k: int)
    requires count <= |draws| && 0 <= k < count
    ensures Synthesized(count, first, draws)[k] == SynthesizedDay(first + k, draws[k])
  {
    if k < count - 1 {
      SynthesizedAt(count - 1, first, draws, k);
    }
  }

  /**
   * The fallback loop of `getCommodityHistory`: `i` runs from `days - 1` down
   * to 0 and each round pushes the entry for `today - i`.
   */
  method SynthesizeHistory(days: int, today: int, draws: seq<Draw>) returns (history: seq<CommodityHistory>)
    requires days <= |draws|
    ensures history == FallbackHistory(days, today, draws)
    ensures |history| == if days < 0 then 0 else days
    ensures |history| > 0 ==> history[|history| - 1].date == today
    ensures forall k :: 0 < k < |history| ==> history[k].date == history[k - 1].date + 1
    ensures forall k :: 0 <= k < |history| ==> InFallbackRanges(history[k])
    ensures forall k :: 0 <= k < |history| ==> history[k] == SynthesizedDay(today - (|history| - 1 - k), draws[k])
  {
    history := [];
    var i := days - 1;
    while i >= 0
      invariant if days > 0 then -1 <= i < days else i == days - 1
      invariant history == Synthesized(days - 1 - i, today - days + 1, draws)
      decreases i
    {
      history := history + [SynthesizedDay(today - i, draws[days - 1 - i])];
      i := i - 1;
    }
    forall k | 0 <= k < |history|
      ensures history[k] == SynthesizedDay(today - (|history| - 1 - k), draws[k])
    {
      SynthesizedAt(days, today - days + 1, draws, k);
    }
  }

  /**
   * `getCommodityHistory`: the remote series verbatim when the call reports
   * no error, the synthesized series otherwise. `days` defaults to 30.
   */
  method GetCommodityHistory(response: HistoryResponse, today: int, draws: seq<Draw>, days: int := 30)
    returns (history: seq<CommodityHistory>)
    requires response.Failed? ==> days <= |draws|
    ensures response.Delivered? ==> history == response.data
    ensures response.Failed? ==> history == FallbackHistory(days, today, draws)
    ensures response.Failed? ==> |history| == if days < 0 then 0 else days
  {
    match response
    case Delivered(data) =>
      history := data;
    case Failed =>
      history := SynthesizeHistory(days, today, draws);
  }
}
