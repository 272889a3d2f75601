/** The fundamental-data summary: the extractor that projects six provider
    fields out of the company-metadata mapping, and the formatter that renders
    the summary as the bilingual text block shown to the user and sent in the
    analysis prompt. Provider values are taken as already-rendered strings. */
module Fundamentals {
  import opened Wrappers
  import opened Templates

  /** Stands in for every provider field the metadata mapping lacks. */
  const Sentinel: string := "N/A"

  // Provider field names looked up in the metadata mapping.
  const PriceKey: string := "currentPrice"
  const MarketCapKey: string := "marketCap"
  const TrailingPeKey: string := "trailingPE"
  const ForwardPeKey: string := "forwardPE"
  const DividendYieldKey: string := "dividendYield"
  const RoeKey: string := "returnOnEquity"

  const TrackedKeys: set<string> :=
    {PriceKey, MarketCapKey, TrailingPeKey, ForwardPeKey, DividendYieldKey, RoeKey}

  // Labels of the summary's top-level entries and of the nested P/E pair.
  const PriceLabel: string := "Current Price (Harga Saham Saat Ini)"
  const MarketCapLabel: string := "Market Cap (Kapitalisasi Pasar)"
  const PeLabel: string := "Price to Earnings Ratio (P/E Ratio)"
  const DividendYieldLabel: string := "Dividend Yield (Hasil Dividen)"
  const RoeLabel: string := "Return on Equity (ROE)"
  const TrailingPeLabel: string := "Trailing P/E"
  const ForwardPeLabel: string := "Forward P/E"

  /** The nested trailing/forward price-to-earnings pair. */
  datatype PeRatio = PeRatio(trailing: string, forward: string)

  /** The fixed-shape summary: five top-level fields, one of them a pair. */
  datatype Summary = Summary(
    currentPrice: string,
    marketCap: string,
    pe: PeRatio,
    dividendYield: string,
    returnOnEquity: string)

  /** A top-level value of the summary seen as a labelled dictionary. */
  datatype Entry = Scalar(value: string) | Pair(entries: map<string, string>)

  /** The provider's value for a key, if the mapping has one. */
  function Lookup(details: map<string, string>, key: string): Option<string>
  {
    if key in details then Some(details[key]) else None
  }

  /** Dictionary lookup with the sentinel as the default. */
  function Get(details: map<string, string>, key: string): string
  {
    Lookup(details, key).GetOr(Sentinel)
  }

  /** Projects the six tracked provider fields into the summary. */
  function Extract(details: map<string, string>): (r: Summary)
    ensures PriceKey in details ==> r.currentPrice == details[PriceKey]
    ensures MarketCapKey in details ==> r.marketCap == details[MarketCapKey]
    ensures TrailingPeKey in details ==> r.pe.trailing == details[TrailingPeKey]
    ensures ForwardPeKey in details ==> r.pe.forward == details[ForwardPeKey]
    ensures DividendYieldKey in details ==> r.dividendYield == details[DividendYieldKey]
    ensures RoeKey in details ==> r.returnOnEquity == details[RoeKey]
    ensures PriceKey !in details ==> r.currentPrice == Sentinel
    ensures MarketCapKey !in details ==> r.marketCap == Sentinel
    ensures TrailingPeKey !in details ==> r.pe.trailing == Sentinel
    ensures ForwardPeKey !in details ==> r.pe.forward == Sentinel
    ensures DividendYieldKey !in details ==> r.dividendYield == Sentinel
    ensures RoeKey !in details ==> r.returnOnEquity == Sentinel
  {
    Summary(
      Get(details, PriceKey),
      Get(details, MarketCapKey),
      PeRatio(Get(details, TrailingPeKey), Get(details, ForwardPeKey)),
      Get(details, DividendYieldKey),
      Get(details, RoeKey))
  }

  /** A metadata mapping carrying exactly the summary's six fields. */
  function Details(s: Summary): (d: map<string, string>)
    ensures d.Keys == TrackedKeys
  {
    map[PriceKey := s.currentPrice,
        MarketCapKey := s.marketCap,
        TrailingPeKey := s.pe.trailing,
        ForwardPeKey := s.pe.forward,
        DividendYieldKey := s.dividendYield,
        RoeKey := s.returnOnEquity]
  }

  /** Every summary is extracted from the mapping that carries its fields. */
  lemma ExtractDetails(s: Summary)
    ensures Extract(Details(s)) == s
  {
  }

  /** A field of the summary holds the sentinel exactly when its key is
      missing or the provider's own value renders as the sentinel. */
  lemma SentinelExactlyWhenMissing(details: map<string, string>)
    ensures Extract(details).currentPrice == Sentinel
            <==> PriceKey !in details || details[PriceKey] == Sentinel
    ensures Extract(details).marketCap == Sentinel
            <==> MarketCapKey !in details || details[MarketCapKey] == Sentinel
    ensures Extract(details).pe.trailing == Sentinel
            <==> TrailingPeKey !in details || details[TrailingPeKey] == Sentinel
    ensures Extract(details).pe.forward == Sentinel
            <==> ForwardPeKey !in details || details[ForwardPeKey] == Sentinel
    ensures Extract(details).dividendYield == Sentinel
            <==> DividendYieldKey !in details || details[DividendYieldKey] == Sentinel
    ensures Extract(details).returnOnEquity == Sentinel
            <==> RoeKey !in details || details[RoeKey] == Sentinel
  {
  }

  /** The summary depends only on the six tracked keys: mappings that agree
      on them (presence and value) give the same summary. */
  lemma ExtractOnlyReadsTracked(a: map<string, string>, b: map<string, string>)
    requires forall k :: k in TrackedKeys ==> (k in a <==> k in b)
    requires forall k :: k in TrackedKeys && k in a && k in b ==> a[k] == b[k]
    ensures Extract(a) == Extract(b)
  {
  }

  /** Adding, changing or removing an untracked key leaves the summary as it was. */
  lemma ExtractIgnoresOtherKeys(details: map<string, string>, key: string, v: string)
    requires key !in TrackedKeys
    ensures Extract(details[key := v]) == Extract(details)
    ensures Extract(details - {key}) == Extract(details)
  {
  }

  /** The summary as the labelled dictionary the formatter reads. */
  function AsDict(s: Summary): (d: map<string, Entry>)
    ensures |d| == 5
    ensures d.Keys == {PriceLabel, MarketCapLabel, PeLabel, DividendYieldLabel, RoeLabel}
    ensures d[PeLabel].Pair?
    ensures d[PeLabel].entries.Keys == {TrailingPeLabel, ForwardPeLabel}
    ensures |d[PeLabel].entries| == 2
    ensures d[PriceLabel] == Scalar(s.currentPrice)
    ensures d[MarketCapLabel] == Scalar(s.marketCap)
    ensures d[PeLabel].entries[TrailingPeLabel] == s.pe.trailing
    ensures d[PeLabel].entries[ForwardPeLabel] == s.pe.forward
    ensures d[DividendYieldLabel] == Scalar(s.dividendYield)
    ensures d[RoeLabel] == Scalar(s.returnOnEquity)
  {
    map[PriceLabel := Scalar(s.currentPrice),
        MarketCapLabel := Scalar(s.marketCap),
        PeLabel := Pair(map[TrailingPeLabel := s.pe.trailing, ForwardPeLabel := s.pe.forward]),
        DividendYieldLabel := Scalar(s.dividendYield),
        RoeLabel := Scalar(s.returnOnEquity)]
  }

  /** The summary's fields in the order the text block shows them. */
  function Fields(s: Summary): (f: seq<string>)
    ensures |f| == 6
  {
    [s.currentPrice, s.marketCap, s.pe.trailing, s.pe.forward, s.dividendYield, s.returnOnEquity]
  }

  function FromFields(f: seq<string>): Summary
    requires |f| == 6
  {
    Summary(f[0], f[1], PeRatio(f[2], f[3]), f[4], f[5])
  }

  /** The literal fragments of the text block, between which the six fields
      are inserted: bold labels, " IDR" after price and market cap, a literal
      "%" after the raw dividend yield and ROE. */
  const BlockTexts: seq<string> := [
    "**" + PriceLabel + "**: ",
    " IDR\n\n" + "**" + MarketCapLabel + "**: ",
    " IDR\n\n" + "**" + PeLabel + "**:\n" + "  - " + TrailingPeLabel + ": ",
    "\n" + "  - " + ForwardPeLabel + ": ",
    "\n\n" + "**" + DividendYieldLabel + "**: ",
    "%\n\n" + "**" + RoeLabel + "**: ",
    "%"
  ]

  const BlockTemplate: seq<Piece> := Interleave(BlockTexts)

  /** Renders the summary as the formatted text block: the seven labels in
      fixed order, each followed by its field's value verbatim, " IDR" right
      after price and market cap and "%" right after the unscaled dividend
      yield and ROE. */
  function Format(s: Summary): (r: string)
    ensures r ==
      "**" + PriceLabel + "**: " + (s.currentPrice + (" IDR\n\n"
      + "**" + MarketCapLabel + "**: " + (s.marketCap + (" IDR\n\n"
      + "**" + PeLabel + "**:\n"
      + "  - " + TrailingPeLabel + ": " + (s.pe.trailing + ("\n"
      + "  - " + ForwardPeLabel + ": " + (s.pe.forward + ("\n\n"
      + "**" + DividendYieldLabel + "**: " + (s.dividendYield + ("%\n\n"
      + "**" + RoeLabel + "**: " + (s.returnOnEquity + "%")))))))))))
  {
    FillInterleave(BlockTexts, Fields(s));
    WeaveSix(BlockTexts, Fields(s));
    Fill(BlockTemplate, Fields(s))
  }

  /** A rendered value as the provider's numbers and the sentinel print:
      no space, no line break, no percent sign. */
  predicate Rendered(v: string)
  {
    ' ' !in v && '\n' !in v && '%' !in v
  }

  predicate AllRendered(s: Summary)
  {
    && Rendered(s.currentPrice) && Rendered(s.marketCap)
    && Rendered(s.pe.trailing) && Rendered(s.pe.forward)
    && Rendered(s.dividendYield) && Rendered(s.returnOnEquity)
  }

  /** Reads a summary back out of a text block; None when the text does not
      have the block's shape. */
  function Parse(text: string): Option<Summary>
  {
    match Unfill(BlockTemplate, text)
    case Some(f) => if |f| == 6 then Some(FromFields(f)) else None
    case None => None
  }

  lemma BlockFits(s: Summary)
    requires AllRendered(s)
    ensures Fits(BlockTemplate, Fields(s))
  {
    var l := BlockTexts;
    var f := Fields(s);
    assert l[1][0] == ' ' && l[2][0] == ' ';
    assert l[3][0] == '\n' && l[4][0] == '\n';
    assert l[5][0] == '%' && l[6][0] == '%';
    assert Separated(l[6..], f[6..]);
    assert Separated(l[5..], f[5..]);
    assert Separated(l[4..], f[4..]);
    assert Separated(l[3..], f[3..]);
    assert Separated(l[2..], f[2..]);
    assert Separated(l[1..], f[1..]);
    FitsInterleave(l, f);
  }

  /** The text block of a summary whose values are rendered reads back as
      that summary. */
  lemma ParseFormat(s: Summary)
    requires AllRendered(s)
    ensures Parse(Format(s)) == Some(s)
  {
    BlockFits(s);
    UnfillFill(BlockTemplate, Fields(s));
  }

  /** Whatever reads back from a text is what formats to that text. */
  lemma FormatParse(text: string, s: Summary)
    requires Parse(text) == Some(s)
    ensures Format(s) == text
  {
    var f :| Unfill(BlockTemplate, text) == Some(f);
    FillUnfill(BlockTemplate, text, f);
    assert Fields(s) == f;
  }

  /** Distinct summaries of rendered values give distinct text blocks. */
  lemma FormatInjective(a: Summary, b: Summary)
    requires AllRendered(a) && AllRendered(b)
    requires Format(a) == Format(b)
    ensures a == b
  {
    ParseFormat(a);
    ParseFormat(b);
  }

  /** End to end: the text block of any metadata mapping whose tracked values
      are rendered reads back as the extracted summary, so each value shown is
      the provider's own or the sentinel. */
  lemma SummaryTextRoundTrip(details: map<string, string>)
    requires forall k :: k in TrackedKeys && k in details ==> Rendered(details[k])
    ensures Parse(Format(Extract(details))) == Some(Extract(details))
  {
    assert PriceKey in TrackedKeys && MarketCapKey in TrackedKeys;
    assert TrailingPeKey in TrackedKeys && ForwardPeKey in TrackedKeys;
    assert DividendYieldKey in TrackedKeys && RoeKey in TrackedKeys;
    ParseFormat(Extract(details));
  }
}
