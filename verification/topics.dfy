/**
 The topic namer: pure builders for the names of the subscription streams
 (`<symbol>@ticker`, `<symbol>@depth<levels>@<speed>ms`, ...), the combined
 multi-stream path that joins several names with `/`, and `Parse`, which
 reads a topic name back. `Parse` is not part of the client; it is the
 inverse against which the builders are checked: every topic whose symbol
 holds no `@` is recovered exactly from its name, so no two such topics
 share a name.
 */
module Topics {

  import opened Options
  import opened Decimal
  import opened Text

  function AllTickerStream(): string { "!ticker@arr" }

  function TickerStream(symbol: string): string { symbol + "@ticker" }

  function AggTradeStream(symbol: string): string { symbol + "@aggTrade" }

  function TradeStream(symbol: string): string { symbol + "@trade" }

  function KlineStream(symbol: string, interval: string): string { symbol + "@kline_" + interval }

  function BookTickerStream(symbol: string): string { symbol + "@bookTicker" }

  function AllBookTickerStream(): string { "!bookTicker" }

  function AllMiniTickerStream(): string { "!miniTicker@arr" }

  function MiniTickerStream(symbol: string): string { symbol + "@miniTicker" }

  /** Levels are meant to be 5, 10 or 20 and the speed 100 or 1000 (ms), but
      any `u16` is formatted; nothing is rejected. */
  function PartialBookDepthStream(symbol: string, levels: U16, updateSpeed: U16): string {
    symbol + "@depth" + Format(levels) + "@" + Format(updateSpeed) + "ms"
  }

  /** The speed is meant to be 100 or 1000 (ms), but any `u16` is formatted. */
  function DiffBookDepthStream(symbol: string, updateSpeed: U16): string {
    symbol + "@depth@" + Format(updateSpeed) + "ms"
  }

  /** Several topic names as one multi-stream path: joined with `/`, in the
      caller's order, without sorting or removing duplicates. */
  function CombinedStream(streams: seq<string>): (r: string)
    ensures |streams| == 0 ==> r == ""
    ensures |streams| == 1 ==> r == streams[0]
    ensures |streams| > 0 ==> |r| == TotalLength(streams) + |streams| - 1
  {
    Join(streams, '/')
  }

  /** One subscription, by the builder that names it. */
  datatype Topic =
    | AllTicker
    | Ticker(symbol: string)
    | AggTrade(symbol: string)
    | Trade(symbol: string)
    | Kline(symbol: string, interval: string)
    | BookTicker(symbol: string)
    | AllBookTicker
    | AllMiniTicker
    | MiniTicker(symbol: string)
    | PartialBookDepth(symbol: string, levels: U16, updateSpeed: U16)
    | DiffBookDepth(symbol: string, updateSpeed: U16)
  {
    /** Market-wide topics carry no symbol. */
    predicate HasSymbol() {
      !(AllTicker? || AllBookTicker? || AllMiniTicker?)
    }

    /** The symbol contains no `@`, so the first `@` of the name ends it. */
    predicate WellFormed() {
      HasSymbol() ==> '@' !in symbol
    }
  }

  /** The name the matching builder gives a topic. */
  function Name(t: Topic): string {
    match t
    case AllTicker => AllTickerStream()
    case Ticker(s) => TickerStream(s)
    case AggTrade(s) => AggTradeStream(s)
    case Trade(s) => TradeStream(s)
    case Kline(s, i) => KlineStream(s, i)
    case BookTicker(s) => BookTickerStream(s)
    case AllBookTicker => AllBookTickerStream()
    case AllMiniTicker => AllMiniTickerStream()
    case MiniTicker(s) => MiniTickerStream(s)
    case PartialBookDepth(s, l, u) => PartialBookDepthStream(s, l, u)
    case DiffBookDepth(s, u) => DiffBookDepthStream(s, u)
  }

  /** The exact name of every topic: a market-wide constant starting with
      `!`, or the symbol, an `@` and the kind's own suffix, with the depth
      levels and speed in decimal. */
  lemma NameText(t: Topic)
    ensures !t.HasSymbol() ==> |Name(t)| > 0 && Name(t)[0] == '!'
    ensures t.HasSymbol() ==> |Name(t)| > |t.symbol| && Name(t)[..|t.symbol|] == t.symbol && Name(t)[|t.symbol|] == '@'
    ensures t.AllTicker? ==> Name(t) == "!ticker@arr"
    ensures t.AllBookTicker? ==> Name(t) == "!bookTicker"
    ensures t.AllMiniTicker? ==> Name(t) == "!miniTicker@arr"
    ensures t.Ticker? ==> Name(t) == t.symbol + "@ticker"
    ensures t.AggTrade? ==> Name(t) == t.symbol + "@aggTrade"
    ensures t.Trade? ==> Name(t) == t.symbol + "@trade"
    ensures t.Kline? ==> Name(t) == t.symbol + "@kline_" + t.interval
    ensures t.BookTicker? ==> Name(t) == t.symbol + "@bookTicker"
    ensures t.MiniTicker? ==> Name(t) == t.symbol + "@miniTicker"
    ensures t.PartialBookDepth? ==>
              Name(t) == t.symbol + "@depth" + Format(t.levels) + "@" + Format(t.updateSpeed) + "ms"
    ensures t.DiffBookDepth? ==> Name(t) == t.symbol + "@depth@" + Format(t.updateSpeed) + "ms"
  {
  }

  /** Reads a topic back from its name. */
  function Parse(name: string): Option<Topic> {
    if name == AllTickerStream() then Some(AllTicker)
    else if name == AllBookTickerStream() then Some(AllBookTicker)
    else if name == AllMiniTickerStream() then Some(AllMiniTicker)
    else
      match SplitAtFirst(name, '@')
      case None => None
      case Some((symbol, kind)) => ParseKind(symbol, kind)
  }

  /** Reads the part of a per-symbol name after its first `@`. */
  function ParseKind(symbol: string, kind: string): Option<Topic> {
    if kind == "ticker" then Some(Ticker(symbol))
    else if kind == "aggTrade" then Some(AggTrade(symbol))
    else if kind == "trade" then Some(Trade(symbol))
    else if kind == "bookTicker" then Some(BookTicker(symbol))
    else if kind == "miniTicker" then Some(MiniTicker(symbol))
    else if |kind| >= 6 && kind[..6] == "kline_" then Some(Kline(symbol, kind[6..]))
    else if |kind| >= 8 && kind[..6] == "depth@" && kind[|kind| - 2..] == "ms" then
      ParseDiffDepth(symbol, kind[6..|kind| - 2])
    else if |kind| >= 7 && kind[..5] == "depth" && kind[|kind| - 2..] == "ms" then
      ParsePartialDepth(symbol, kind[5..|kind| - 2])
    else None
  }

  /** Reads `<speed>` of `depth@<speed>ms`. */
  function ParseDiffDepth(symbol: string, speed: string): Option<Topic> {
    match ParseU16(speed)
    case None => None
    case Some(u) => Some(DiffBookDepth(symbol, u))
  }

  /** Reads `<levels>@<speed>` of `depth<levels>@<speed>ms`. */
  function ParsePartialDepth(symbol: string, body: string): Option<Topic> {
    match SplitAtFirst(body, '@')
    case None => None
    case Some((levels, speed)) =>
      match (ParseU16(levels), ParseU16(speed))
      case (Some(l), Some(u)) => Some(PartialBookDepth(symbol, l, u))
      case _ => None
  }

  /** The first `@` of `symbol + "@" + kind` ends the symbol. */
  lemma SplitSymbol(symbol: string, kind: string)
    requires '@' !in symbol
    ensures SplitAtFirst(symbol + "@" + kind, '@') == Some((symbol, kind))
  {
    SplitAtFirstOf(symbol, '@', kind);
  }

  lemma ParseKlineKind(symbol: string, interval: string)
    ensures ParseKind(symbol, "kline_" + interval) == Some(Kline(symbol, interval))
  {
    var kind := "kline_" + interval;
    assert kind[0] == 'k';
    assert kind[..6] == "kline_" && kind[6..] == interval;
  }

  lemma ParseDiffDepthKind(symbol: string, speed: U16)
    ensures ParseKind(symbol, "depth@" + Format(speed) + "ms") == Some(DiffBookDepth(symbol, speed))
  {
    var digits := Format(speed);
    var kind := "depth@" + digits + "ms";
    assert kind[0] == 'd';
    assert kind[..6] == "depth@" && kind[|kind| - 2..] == "ms";
    assert kind[6..|kind| - 2] == digits;
    ParseFormat(speed);
  }

  /** `depth<levels>@<speed>ms`, with `<levels>` starting with a digit, is
      none of the other kinds of name. */
  lemma PartialDepthKindIsNoOtherKind(l: string, u: string)
    requires |l| > 0 && IsDigit(l[0])
    ensures var kind := "depth" + l + "@" + u + "ms";
      && kind != "ticker" && kind != "aggTrade" && kind != "trade"
      && kind != "bookTicker" && kind != "miniTicker"
      && kind[..6] != "kline_" && kind[..6] != "depth@"
  {
    var kind := "depth" + l + "@" + u + "ms";
    assert kind[0] == 'd' && kind[5] == l[0];
    assert "ticker"[0] == 't' && "aggTrade"[0] == 'a' && "trade"[0] == 't';
    assert "bookTicker"[0] == 'b' && "miniTicker"[0] == 'm';
    assert "kline_"[0] == 'k' && "depth@"[5] == '@';
  }

  /** `depth<levels>@<speed>ms` has the frame the partial-depth branch reads. */
  lemma PartialDepthKindFrame(l: string, u: string)
    ensures var kind := "depth" + l + "@" + u + "ms";
      && |kind| >= 7 && kind[..5] == "depth" && kind[|kind| - 2..] == "ms"
      && kind[5..|kind| - 2] == l + "@" + u
  {
  }

  lemma ParsePartialDepthKind(symbol: string, levels: U16, speed: U16)
    ensures ParseKind(symbol, "depth" + Format(levels) + "@" + Format(speed) + "ms")
         == Some(PartialBookDepth(symbol, levels, speed))
  {
    var l, u := Format(levels), Format(speed);
    PartialDepthKindIsNoOtherKind(l, u);
    PartialDepthKindFrame(l, u);
    FormatHasNoSeparators(levels);
    SplitAtFirstOf(l, '@', u);
    ParseFormat(levels);
    ParseFormat(speed);
  }

  /** Where the market-wide names split at their first `@`. */
  lemma SplitAllTicker()
    ensures SplitAtFirst(AllTickerStream(), '@') == Some(("!ticker", "arr"))
  {
    assert "!ticker" + "@" + "arr" == AllTickerStream();
    SplitSymbol("!ticker", "arr");
  }

  lemma SplitAllMiniTicker()
    ensures SplitAtFirst(AllMiniTickerStream(), '@') == Some(("!miniTicker", "arr"))
  {
    assert "!miniTicker" + "@" + "arr" == AllMiniTickerStream();
    SplitSymbol("!miniTicker", "arr");
  }

  lemma SplitAllBookTicker()
    ensures SplitAtFirst(AllBookTickerStream(), '@') == None
  {
    assert '@' !in AllBookTickerStream();
  }

  /** A per-symbol name is none of the market-wide names. */
  lemma NotMarketWide(symbol: string, kind: string)
    requires '@' !in symbol && kind != "arr"
    ensures symbol + "@" + kind != AllTickerStream()
    ensures symbol + "@" + kind != AllBookTickerStream()
    ensures symbol + "@" + kind != AllMiniTickerStream()
  {
    SplitSymbol(symbol, kind);
    SplitAllTicker();
    SplitAllMiniTicker();
    SplitAllBookTicker();
  }

  /** A per-symbol name whose kind part reads back to `t` reads back to `t`. */
  lemma ParseSymbolName(symbol: string, kind: string, t: Topic)
    requires '@' !in symbol && kind != "arr"
    requires ParseKind(symbol, kind) == Some(t)
    ensures Parse(symbol + "@" + kind) == Some(t)
  {
    NotMarketWide(symbol, kind);
    SplitSymbol(symbol, kind);
  }

  /** The five per-symbol names with a fixed suffix read back. */
  lemma ParseFixedSuffixName(symbol: string, suffix: string, t: Topic)
    requires '@' !in symbol
    requires t.HasSymbol() && t.symbol == symbol
    requires || (suffix == "ticker" && t.Ticker?)
             || (suffix == "aggTrade" && t.AggTrade?)
             || (suffix == "trade" && t.Trade?)
             || (suffix == "bookTicker" && t.BookTicker?)
             || (suffix == "miniTicker" && t.MiniTicker?)
    ensures Parse(symbol + "@" + suffix) == Some(t)
  {
    ParseSymbolName(symbol, suffix, t);
  }

  lemma ParseKlineName(symbol: string, interval: string)
    requires '@' !in symbol
    ensures Parse(KlineStream(symbol, interval)) == Some(Kline(symbol, interval))
  {
    var kind := "kline_" + interval;
    assert KlineStream(symbol, interval) == symbol + "@" + kind;
    ParseKlineKind(symbol, interval);
    ParseSymbolName(symbol, kind, Kline(symbol, interval));
  }

  lemma ParseDiffDepthName(symbol: string, speed: U16)
    requires '@' !in symbol
    ensures Parse(DiffBookDepthStream(symbol, speed)) == Some(DiffBookDepth(symbol, speed))
  {
    var kind := "depth@" + Format(speed) + "ms";
    assert DiffBookDepthStream(symbol, speed) == symbol + "@" + kind;
    ParseDiffDepthKind(symbol, speed);
    ParseSymbolName(symbol, kind, DiffBookDepth(symbol, speed));
  }

  lemma ParsePartialDepthName(symbol: string, levels: U16, speed: U16)
    requires '@' !in symbol
    ensures Parse(PartialBookDepthStream(symbol, levels, speed))
         == Some(PartialBookDepth(symbol, levels, speed))
  {
    var kind := "depth" + Format(levels) + "@" + Format(speed) + "ms";
    assert PartialBookDepthStream(symbol, levels, speed) == symbol + "@" + kind;
    ParsePartialDepthKind(symbol, levels, speed);
    ParseSymbolName(symbol, kind, PartialBookDepth(symbol, levels, speed));
  }

  /** Every well-formed topic is read back exactly from its name, whatever
      its symbol, interval, levels and speed. */
  lemma ParseName(t: Topic)
    requires t.WellFormed()
    ensures Parse(Name(t)) == Some(t)
  {
    match t
    case Kline(s, i) => ParseKlineName(s, i);
    case DiffBookDepth(s, u) => ParseDiffDepthName(s, u);
    case PartialBookDepth(s, l, u) => ParsePartialDepthName(s, l, u);
    case _ =>
      if t.HasSymbol() {
        ParseFixedSuffixTopic(t);
      } else {
        ParseMarketWideName(t);
      }
  }

  /** The three market-wide names read back. */
  lemma ParseMarketWideName(t: Topic)
    requires !t.HasSymbol()
    ensures Parse(Name(t)) == Some(t)
  {
  }

  /** The five per-symbol names with a fixed suffix read back. */
  lemma ParseFixedSuffixTopic(t: Topic)
    requires t.Ticker? || t.AggTrade? || t.Trade? || t.BookTicker? || t.MiniTicker?
    requires t.WellFormed()
    ensures Parse(Name(t)) == Some(t)
  {
    match t
    case Ticker(s) =>
      assert Name(t) == s + "@" + "ticker";
      ParseFixedSuffixName(s, "ticker", t);
    case AggTrade(s) =>
      assert Name(t) == s + "@" + "aggTrade";
      ParseFixedSuffixName(s, "aggTrade", t);
    case Trade(s) =>
      assert Name(t) == s + "@" + "trade";
      ParseFixedSuffixName(s, "trade", t);
    case BookTicker(s) =>
      assert Name(t) == s + "@" + "bookTicker";
      ParseFixedSuffixName(s, "bookTicker", t);
    case MiniTicker(s) =>
      assert Name(t) == s + "@" + "miniTicker";
      ParseFixedSuffixName(s, "miniTicker", t);
  }

  /** No two well-formed topics share a name. */
  lemma NameInjective(t: Topic, u: Topic)
    requires t.WellFormed() && u.WellFormed()
    requires Name(t) == Name(u)
    ensures t == u
  {
    ParseName(t);
    ParseName(u);
  }

  /** Combining two non-empty lists of names is combining each and putting
      one `/` between the two paths. */
  lemma CombinedStreamAppend(a: seq<string>, b: seq<string>)
    requires |a| > 0 && |b| > 0
    ensures CombinedStream(a + b) == CombinedStream(a) + "/" + CombinedStream(b)
  {
    JoinAppend(a, b, '/');
  }

  /** The names are recovered from the combined path, in order, as long as
      none of them contains `/`. */
  lemma CombinedStreamRoundTrip(streams: seq<string>)
    requires |streams| > 0
    requires forall i :: 0 <= i < |streams| ==> '/' !in streams[i]
    ensures Split(CombinedStream(streams), '/') == streams
  {
    SplitJoin(streams, '/');
  }

  /** The symbol (and the kline interval) contain no `/`. */
  predicate PathSafe(t: Topic) {
    && (t.HasSymbol() ==> '/' !in t.symbol)
    && (t.Kline? ==> '/' !in t.interval)
  }

  lemma NameHasNoSlash(t: Topic)
    requires PathSafe(t)
    ensures '/' !in Name(t)
  {
    match t
    case PartialBookDepth(_, l, u) =>
      FormatHasNoSeparators(l);
      FormatHasNoSeparators(u);
    case DiffBookDepth(_, u) =>
      FormatHasNoSeparators(u);
    case _ =>
  }

  /** The names of a list of topics, in order. */
  function Names(topics: seq<Topic>): (names: seq<string>)
    ensures |names| == |topics|
    ensures forall i :: 0 <= i < |topics| ==> names[i] == Name(topics[i])
  {
    seq(|topics|, i requires 0 <= i < |topics| => Name(topics[i]))
  }

  /** The combined path of a subscription determines the subscribed topics:
      splitting it at `/` and reading each piece back gives every topic, in
      the order the caller listed them. */
  lemma CombinedTopicsRoundTrip(topics: seq<Topic>)
    requires |topics| > 0
    requires forall i :: 0 <= i < |topics| ==> topics[i].WellFormed() && PathSafe(topics[i])
    ensures var parts := Split(CombinedStream(Names(topics)), '/');
            |parts| == |topics| && forall i :: 0 <= i < |topics| ==> Parse(parts[i]) == Some(topics[i])
  {
    var names := Names(topics);
    forall i | 0 <= i < |names|
      ensures '/' !in names[i] && Parse(names[i]) == Some(topics[i])
    {
      NameHasNoSlash(topics[i]);
      ParseName(topics[i]);
    }
    CombinedStreamRoundTrip(names);
  }
}
