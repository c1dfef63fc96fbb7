/**
 * The request shaping and response reshaping of the TianQin (TqSdk)
 * datafeed for the host trading platform: symbol case normalisation, the
 * product/suffix split, the vendor identifier, the interval table, time
 * zone reconciliation, the row count, and the assembly of bars from the
 * vendor's kline rows. The vendor client itself is a parameter.
 */
module TqsdkDatafeed {
  import opened Wrappers
  import opened Chars
  import opened Vnpy

  // ---------------------------------------------------------------------
  // Module constants
  // ---------------------------------------------------------------------

  /** Seconds per bar for each interval the vendor serves. */
  const IntervalVt2Tq: map<Interval, int> := map[Minute := 60, Hour := 60 * 60, Daily := 60 * 60 * 24]

  /** Suffixes naming a main (continuous) contract. */
  const MainSuffix: seq<string> := ["888", "88"]

  /** Suffixes naming an index contract. */
  const IndexSuffix: seq<string> := ["999", "99"]

  /** The vendor returns at most this many rows per query. */
  const MaxDataLength := 10000

  /** The vendor's timestamps are eight hours behind the Shanghai wall clock. */
  const VendorClockShift := 8 * 60 * 60

  const GatewayName := "TQ"

  // ---------------------------------------------------------------------
  // Symbol normalisation and classification
  // ---------------------------------------------------------------------

  /** CZCE and CFFEX quote their products in upper case; every other exchange in lower case. */
  predicate UsesUpperCase(exchange: Exchange)
  {
    exchange == CZCE || exchange == CFFEX
  }

  /** The text cased as `exchange` expects it. */
  function Cased(exchange: Exchange, s: string): string
  {
    ChangeCase(UsesUpperCase(exchange), s)
  }

  /** On CZCE/CFFEX the normalised symbol has no lower-case letter, elsewhere no upper-case one. */
  lemma CasedHasExchangeCase(exchange: Exchange, s: string)
    ensures |Cased(exchange, s)| == |s|
    ensures UsesUpperCase(exchange) ==> forall i :: 0 <= i < |s| ==> !IsLowerLetter(Cased(exchange, s)[i])
    ensures !UsesUpperCase(exchange) ==> forall i :: 0 <= i < |s| ==> !IsUpperLetter(Cased(exchange, s)[i])
  {
  }

  /** The index of the first digit of `s`, if any. */
  function FirstDigit(s: string): (r: Option<nat>)
    ensures r.Some? ==> r.value < |s| && IsDigit(s[r.value]) && NoDigits(s[..r.value])
    ensures r.None? <==> NoDigits(s)
  {
    if s == [] then None
    else if IsDigit(s[0]) then Some(0)
    else match FirstDigit(s[1..])
      case None => None
      case Some(i) => assert s[1..][..i] == s[1..i + 1]; Some(i + 1)
  }

  /**
   * Where the scan over the symbol stops: at the first digit, or, when the
   * symbol has none, at its last index (the loop variable keeps its final value).
   */
  function SplitPoint(symbol: string): (k: nat)
    requires |symbol| > 0
    ensures k < |symbol|
  {
    match FirstDigit(symbol)
    case Some(i) => i
    case None => |symbol| - 1
  }

  /** The first digit is the one `FirstDigit` reports. */
  lemma FirstDigitAt(s: string, k: nat)
    requires k < |s| && IsDigit(s[k]) && NoDigits(s[..k])
    ensures FirstDigit(s) == Some(k)
  {
  }

  /**
   * The `for`/`break` scan over the symbol: returns the index at which it
   * stopped.
   */
  method ScanSplitPoint(symbol: string) returns (count: nat)
    requires |symbol| > 0
    ensures count == SplitPoint(symbol)
    ensures HasDigit(symbol) ==> IsDigit(symbol[count]) && NoDigits(symbol[..count])
    ensures !HasDigit(symbol) ==> count == |symbol| - 1
  {
    count := 0;
    var i := 0;
    while i < |symbol|
      invariant 0 <= i <= |symbol|
      invariant NoDigits(symbol[..i])
      invariant i > 0 ==> count == i - 1
      invariant i == 0 ==> count == 0
    {
      count := i;
      if IsDigit(symbol[i]) {
        FirstDigitAt(symbol, i);
        return;
      }
      assert symbol[..i + 1] == symbol[..i] + [symbol[i]];
      i := i + 1;
    }
    assert symbol[..i] == symbol;
  }

  /** The symbol cut at the split point: (product, time_str). */
  function Split(symbol: string): (parts: (string, string))
    requires |symbol| > 0
    ensures parts.0 + parts.1 == symbol
    ensures HasDigit(symbol) ==> NoDigits(parts.0) && |parts.1| > 0 && IsDigit(parts.1[0])
    ensures !HasDigit(symbol) ==> parts.0 == symbol[..|symbol| - 1] && parts.1 == [symbol[|symbol| - 1]]
  {
    var k := SplitPoint(symbol);
    assert symbol[..k] + symbol[k..] == symbol;
    (symbol[..k], symbol[k..])
  }

  /**
   * The vendor identifier for a symbol already cased for its exchange:
   * main and index contracts become `KQ.m@EX.product` / `KQ.i@EX.product`,
   * anything else `EX.symbol`.
   */
  function TqSymbol(exchange: Exchange, symbol: string): string
    requires |symbol| > 0
  {
    var parts := Split(symbol);
    var product := parts.0;
    var timeStr := parts.1;
    if timeStr in MainSuffix then "KQ.m@" + exchange.Value() + "." + Cased(exchange, product)
    else if timeStr in IndexSuffix then "KQ.i@" + exchange.Value() + "." + Cased(exchange, product)
    else exchange.Value() + "." + symbol
  }

  /** The vendor identifier the datafeed queries for the symbol as the caller wrote it. */
  function VendorSymbol(exchange: Exchange, rawSymbol: string): string
    requires |rawSymbol| > 0
  {
    TqSymbol(exchange, Cased(exchange, rawSymbol))
  }

  /** Whether a suffix names a main or an index contract. */
  predicate IsContractSuffix(timeStr: string)
  {
    timeStr in MainSuffix || timeStr in IndexSuffix
  }

  /** Casing the symbol does not move its split point, and cases each part alike. */
  lemma SplitOfCased(exchange: Exchange, rawSymbol: string, k: nat)
    requires k < |rawSymbol| && IsDigit(rawSymbol[k]) && NoDigits(rawSymbol[..k])
    ensures Split(Cased(exchange, rawSymbol)) == (Cased(exchange, rawSymbol[..k]), Cased(exchange, rawSymbol[k..]))
  {
    var upper := UsesUpperCase(exchange);
    var s := Cased(exchange, rawSymbol);
    ChangeCaseSlice(upper, rawSymbol, 0, k);
    ChangeCaseSlice(upper, rawSymbol, k, |rawSymbol|);
    assert s[..k] == Cased(exchange, rawSymbol[..k]) by {
      assert rawSymbol[0..k] == rawSymbol[..k] && s[0..k] == s[..k];
    }
    assert s[k..] == Cased(exchange, rawSymbol[k..]);
    assert IsDigit(s[k]) by { ChangeCaseDigits(upper, rawSymbol); }
    assert NoDigits(s[..k]) by { ChangeCaseDigits(upper, rawSymbol[..k]); }
    FirstDigitAt(s, k);
    assert SplitPoint(s) == k;
  }

  /** A suffix is main (or index) exactly when its cased form is. */
  lemma SuffixClassIgnoresCase(exchange: Exchange, timeStr: string)
    ensures Cased(exchange, timeStr) in MainSuffix <==> timeStr in MainSuffix
    ensures Cased(exchange, timeStr) in IndexSuffix <==> timeStr in IndexSuffix
  {
    var upper := UsesUpperCase(exchange);
    ChangeCaseOnDigits(upper, timeStr, "888");
    ChangeCaseOnDigits(upper, timeStr, "88");
    ChangeCaseOnDigits(upper, timeStr, "999");
    ChangeCaseOnDigits(upper, timeStr, "99");
  }

  /**
   * The vendor identifier in terms of the caller's symbol, whose first digit
   * is at `k`: the suffix from `k` on decides main, index or plain, and the
   * product is the text before `k`, cased for the exchange.
   */
  lemma VendorSymbolWithDigit(exchange: Exchange, rawSymbol: string, k: nat)
    requires k < |rawSymbol| && IsDigit(rawSymbol[k]) && NoDigits(rawSymbol[..k])
    ensures rawSymbol[k..] in MainSuffix ==>
      VendorSymbol(exchange, rawSymbol) == "KQ.m@" + exchange.Value() + "." + Cased(exchange, rawSymbol[..k])
    ensures rawSymbol[k..] in IndexSuffix ==>
      VendorSymbol(exchange, rawSymbol) == "KQ.i@" + exchange.Value() + "." + Cased(exchange, rawSymbol[..k])
    ensures !IsContractSuffix(rawSymbol[k..]) ==>
      VendorSymbol(exchange, rawSymbol) == exchange.Value() + "." + Cased(exchange, rawSymbol)
  {
    SplitOfCased(exchange, rawSymbol, k);
    SuffixClassIgnoresCase(exchange, rawSymbol[k..]);
    ChangeCaseIdempotent(UsesUpperCase(exchange), rawSymbol[..k]);
  }

  /**
   * Without a digit the split is off by one (the last character lands in
   * the suffix), but a one-character suffix is never main or index, so the
   * identifier is still `EX.symbol`.
   */
  lemma VendorSymbolWithoutDigit(exchange: Exchange, rawSymbol: string)
    requires |rawSymbol| > 0 && NoDigits(rawSymbol)
    ensures VendorSymbol(exchange, rawSymbol) == exchange.Value() + "." + Cased(exchange, rawSymbol)
  {
  }

  /** The worked example of the datafeed's own comments: DCE `a888` is `KQ.m@DCE.a`. */
  lemma MainContractExample()
    ensures VendorSymbol(DCE, "a888") == "KQ.m@DCE.a"
  {
    var s := Cased(DCE, "a888");
    assert s[0] == 'a' && s[1] == '8' && s[2] == '8' && s[3] == '8';
    assert s == "a888";
    assert s[..1] == "a" && s[1..] == "888";
    FirstDigitAt(s, 1);
    assert SplitPoint(s) == 1;
    assert Split(s) == ("a", "888");
    assert Cased(DCE, "a") == "a";
  }

  /** CFFEX `IF999` is the index contract `KQ.i@CFFEX.IF`. */
  lemma IndexContractExample()
    ensures VendorSymbol(CFFEX, "IF999") == "KQ.i@CFFEX.IF"
  {
    var s := Cased(CFFEX, "IF999");
    assert s[0] == 'I' && s[1] == 'F' && s[2] == '9' && s[3] == '9' && s[4] == '9';
    assert s == "IF999";
    assert s[..2] == "IF" && s[2..] == "999";
    FirstDigitAt(s, 2);
    assert SplitPoint(s) == 2;
    assert Split(s) == ("IF", "999");
    assert Cased(CFFEX, "IF") == "IF";
  }

  /** A lower-case CZCE main contract is upper-cased: `ma888` is `KQ.m@CZCE.MA`. */
  lemma UpperCasedMainExample()
    ensures VendorSymbol(CZCE, "ma888") == "KQ.m@CZCE.MA"
  {
    var s := Cased(CZCE, "ma888");
    assert s[0] == 'M' && s[1] == 'A' && s[2] == '8' && s[3] == '8' && s[4] == '8';
    assert s == "MA888";
    assert s[..2] == "MA" && s[2..] == "888";
    FirstDigitAt(s, 2);
    assert SplitPoint(s) == 2;
    assert Split(s) == ("MA", "888");
    assert Cased(CZCE, "MA") == "MA";
  }

  /** A mixed-case SHFE dated contract is lower-cased: `RB2410` is `SHFE.rb2410`. */
  lemma LowerCasedDatedExample()
    ensures VendorSymbol(SHFE, "RB2410") == "SHFE.rb2410"
  {
    var s := Cased(SHFE, "RB2410");
    assert s[0] == 'r' && s[1] == 'b' && s[2] == '2' && s[3] == '4' && s[4] == '1' && s[5] == '0';
    assert s == "rb2410";
    assert s[..2] == "rb" && s[2..] == "2410";
    FirstDigitAt(s, 2);
    assert SplitPoint(s) == 2;
    assert Split(s) == ("rb", "2410");
    assert !IsContractSuffix("2410");
  }

  /** A dated contract is passed through: DCE `a2405` is `DCE.a2405`. */
  lemma DatedContractExample()
    ensures VendorSymbol(DCE, "a2405") == "DCE.a2405"
  {
    var s := Cased(DCE, "a2405");
    assert s[0] == 'a' && s[1] == '2' && s[2] == '4' && s[3] == '0' && s[4] == '5';
    assert s == "a2405";
    assert s[..1] == "a" && s[1..] == "2405";
    FirstDigitAt(s, 1);
    assert SplitPoint(s) == 1;
    assert Split(s) == ("a", "2405");
    assert !IsContractSuffix("2405");
  }

  /**
   * The vendor identifier derived step by step: scan for the split point,
   * cut the symbol, and format by the suffix's class.
   */
  method TqSymbolOf(exchange: Exchange, symbol: string) returns (tqSymbol: string)
    requires |symbol| > 0
    ensures tqSymbol == TqSymbol(exchange, symbol)
  {
    var count := ScanSplitPoint(symbol);
    var product, timeStr := symbol[..count], symbol[count..];
    if timeStr in MainSuffix {
      tqSymbol := "KQ.m@" + exchange.Value() + "." + Cased(exchange, product);
    } else if timeStr in IndexSuffix {
      tqSymbol := "KQ.i@" + exchange.Value() + "." + Cased(exchange, product);
    } else {
      tqSymbol := exchange.Value() + "." + symbol;
    }
  }

  // ---------------------------------------------------------------------
  // Interval, time zones and row count
  // ---------------------------------------------------------------------

  /** `INTERVAL_VT2TQ.get(interval)`. */
  function IntervalSeconds(interval: Interval): (r: Option<int>)
    ensures r.Some? <==> interval in {Minute, Hour, Daily}
    ensures r.Some? ==> r.value > 0 && r.value % 60 == 0
  {
    if interval in IntervalVt2Tq then Some(IntervalVt2Tq[interval]) else None
  }

  /** The table's entries. */
  lemma IntervalTable()
    ensures IntervalSeconds(Minute) == Some(60)
    ensures IntervalSeconds(Hour) == Some(3600)
    ensures IntervalSeconds(Daily) == Some(86400)
    ensures IntervalSeconds(Weekly) == None && IntervalSeconds(Tick) == None
  {
  }

  /**
   * The request's start and end after the time-zone fix-up: a naive end
   * borrows the start's zone and vice versa, two naive times both get
   * Shanghai, and two zoned times are left alone.
   */
  function Reconcile(start: DateTime, end: DateTime): (r: (DateTime, DateTime))
    ensures r.0.tz.Some? && r.1.tz.Some?
    ensures r.0.wall == start.wall && r.1.wall == end.wall
    ensures start.tz.Some? ==> r.0 == start
    ensures end.tz.Some? ==> r.1 == end
    ensures start.tz.None? || end.tz.None? ==> r.0.tz == r.1.tz
    ensures start.tz.None? && end.tz.None? ==> r.0.tz == Some(Shanghai)
  {
    if start.tz.None? && end.tz.None? then (start.WithZone(Shanghai), end.WithZone(Shanghai))
    else if start.tz.Some? && end.tz.None? then (start, end.WithZone(start.tz.value))
    else if start.tz.None? && end.tz.Some? then (start.WithZone(end.tz.value), end)
    else (start, end)
  }

  /** Reconciling reconciled times changes nothing. */
  lemma ReconcileIdempotent(start: DateTime, end: DateTime)
    ensures Reconcile(Reconcile(start, end).0, Reconcile(start, end).1) == Reconcile(start, end)
  {
  }

  /** `(end - start).total_seconds()` for two zoned datetimes. */
  function Duration(start: DateTime, end: DateTime): (d: int)
    requires start.tz.Some? && end.tz.Some?
    ensures start.tz == end.tz ==> d == end.wall - start.wall
  {
    (end.wall - end.tz.value.utcOffset) - (start.wall - start.tz.value.utcOffset)
  }

  /** Once reconciled, a range with a naive end point spans its wall-clock difference. */
  lemma ReconciledDuration(start: DateTime, end: DateTime)
    requires start.tz.None? || end.tz.None?
    ensures Duration(Reconcile(start, end).0, Reconcile(start, end).1) == end.wall - start.wall
  {
  }

  /** Python's `int(a / b)`: the quotient truncated toward zero. */
  function TruncDiv(a: int, b: int): (q: int)
    requires b > 0
    ensures 0 <= a ==> 0 <= q && q * b <= a < (q + 1) * b
    ensures a < 0 ==> q <= 0 && (q - 1) * b < a <= q * b
  {
    DivBracket(if a >= 0 then a else -a, b);
    if a >= 0 then a / b else -((-a) / b)
  }

  /** Euclidean division of a non-negative number brackets it between two multiples. */
  lemma DivBracket(a: int, b: int)
    requires 0 <= a && 0 < b
    ensures 0 <= a / b && a / b * b <= a < (a / b + 1) * b
    ensures -(a / b) * b == -(a / b * b) && (-(a / b) - 1) * b == -((a / b + 1) * b)
  {
    var q := a / b;
    assert a == q * b + a % b;
    assert (q + 1) * b == q * b + b;
    assert (-q - 1) * b == -(q * b) - b;
  }

  function Min(a: int, b: int): int { if a <= b then a else b }

  /**
   * `int(duration / secs) or 1`, capped at 10000. A range that ends at
   * least one interval before it starts yields a negative count.
   */
  function DataLength(duration: int, secs: int): (n: int)
    requires secs > 0
    ensures n <= MaxDataLength
    ensures 0 <= duration ==> 1 <= n
    ensures 0 <= duration < secs ==> n == 1
    ensures secs <= duration ==> n == Min(MaxDataLength, duration / secs) && n * secs <= duration
    ensures -secs < duration < 0 ==> n == 1
    ensures duration <= -secs ==> n < 0 && n == -((-duration) / secs)
  {
    var q := TruncDiv(duration, secs);
    var n := if q != 0 then q else 1;
    if n > MaxDataLength then MaxDataLength else n
  }

  /** Equal start and end ask for exactly one row; a day of minutes asks for 1440. */
  lemma DataLengthExamples()
    ensures DataLength(0, 60) == 1
    ensures DataLength(86400, 60) == 1440
    ensures DataLength(30 * 86400, 60) == MaxDataLength
    ensures DataLength(-120, 60) == -2
  {
  }

  // ---------------------------------------------------------------------
  // Rows and bars
  // ---------------------------------------------------------------------

  /** A kline row: the vendor's timestamp in seconds and its price fields. */
  datatype Row = Row(datetime: int, open: real, high: real, low: real, close: real, volume: real, openOi: real)

  /** A row as delivered: `None` when any of its fields is missing. */
  type RawRow = Option<Row>

  /** One query to the vendor's `get_kline_serial`. */
  datatype KlineQuery = KlineQuery(symbol: string, durationSeconds: int, dataLength: int)

  /** The vendor's kline service: the rows it returns for a query. */
  type KlineSerial = KlineQuery -> seq<RawRow>

  /** What the datafeed reports on its diagnostic output. */
  datatype Diagnostic = UnsupportedInterval(intervalValue: string)

  /** The positions of the complete rows, in increasing order. */
  function CompleteIndices(rows: seq<RawRow>): (idx: seq<nat>)
    ensures forall k :: 0 <= k < |idx| ==> idx[k] < |rows| && rows[idx[k]].Some?
    ensures forall k, l :: 0 <= k < l < |idx| ==> idx[k] < idx[l]
    ensures forall j :: 0 <= j < |rows| && rows[j].Some? ==> j in idx
  {
    if rows == [] then []
    else
      var last := |rows| - 1;
      var rest := CompleteIndices(rows[..last]);
      if rows[last].Some? then rest + [last] else rest
  }

  /** `dropna`: the complete rows, in their original order. */
  function DropMissing(rows: seq<RawRow>): seq<Row>
  {
    var idx := CompleteIndices(rows);
    seq(|idx|, k requires 0 <= k < |idx| => rows[idx[k]].value)
  }

  /** Nothing is dropped exactly when every row is complete, and nothing else appears. */
  lemma DropMissingKeepsComplete(rows: seq<RawRow>)
    ensures |DropMissing(rows)| <= |rows|
    ensures |DropMissing(rows)| == |rows| <==> forall j :: 0 <= j < |rows| ==> rows[j].Some?
    ensures forall k :: 0 <= k < |DropMissing(rows)| ==> Some(DropMissing(rows)[k]) in rows
  {
    var idx := CompleteIndices(rows);
    IncreasingIndicesBound(idx, |rows|);
    if forall j :: 0 <= j < |rows| ==> rows[j].Some? {
      IncreasingIndicesCover(idx, rows);
    }
    if |idx| == |rows| {
      forall j | 0 <= j < |rows| ensures rows[j].Some? {
        assert idx[j] == j;
      }
    }
    forall k | 0 <= k < |idx| ensures Some(DropMissing(rows)[k]) in rows {
      assert rows[idx[k]] == Some(DropMissing(rows)[k]);
    }
  }

  /** At most `n` strictly increasing indices lie below `n`; exactly `n` only if `j` is the `j`-th. */
  lemma {:induction false} IncreasingIndicesBound(idx: seq<nat>, n: nat)
    requires forall k :: 0 <= k < |idx| ==> idx[k] < n
    requires forall k, l :: 0 <= k < l < |idx| ==> idx[k] < idx[l]
    ensures |idx| <= n
    ensures |idx| == n ==> forall k :: 0 <= k < |idx| ==> idx[k] == k
  {
    if idx != [] {
      var m := |idx| - 1;
      IncreasingIndicesBound(idx[..m], idx[m]);
      if |idx| == n {
        forall k | 0 <= k < |idx| ensures idx[k] == k {
          if k < m { assert idx[..m][k] == idx[k]; }
        }
      }
    }
  }

  /** If every row is complete, every position is among the indices, so there are as many. */
  lemma {:induction false} IncreasingIndicesCover(idx: seq<nat>, rows: seq<RawRow>)
    requires idx == CompleteIndices(rows)
    requires forall j :: 0 <= j < |rows| ==> rows[j].Some?
    ensures |idx| == |rows|
    decreases |rows|
  {
    if rows != [] {
      var last := |rows| - 1;
      IncreasingIndicesCover(CompleteIndices(rows[..last]), rows[..last]);
    }
  }

  /** The bar built from one complete row. */
  function ToBar(symbol: string, exchange: Exchange, interval: Interval, row: Row): BarData
  {
    BarData(symbol, exchange, interval,
            DateTime(row.datetime + VendorClockShift, Some(Shanghai)),
            row.open, row.high, row.low, row.close, row.volume, row.openOi, GatewayName)
  }

  /** The row a bar came from: the vendor timestamp and the copied fields. */
  function RowOf(bar: BarData): Row
  {
    Row(bar.datetime.wall - VendorClockShift, bar.openPrice, bar.highPrice, bar.lowPrice,
        bar.closePrice, bar.volume, bar.openInterest)
  }

  /**
   * A bar loses nothing of its row: the row is recovered from it, and the
   * bar is stamped with the request, the gateway and Shanghai time.
   */
  lemma ToBarRoundTrip(symbol: string, exchange: Exchange, interval: Interval, row: Row)
    ensures RowOf(ToBar(symbol, exchange, interval, row)) == row
    ensures ToBar(symbol, exchange, interval, row).datetime.tz == Some(Shanghai)
    ensures ToBar(symbol, exchange, interval, row).gatewayName == "TQ"
    ensures ToBar(symbol, exchange, interval, row).symbol == symbol
    ensures ToBar(symbol, exchange, interval, row).exchange == exchange
    ensures ToBar(symbol, exchange, interval, row).interval == interval
  {
  }

  /** The bars for a sequence of complete rows, one per row, in order. */
  function BuildBars(symbol: string, exchange: Exchange, interval: Interval, rows: seq<Row>): seq<BarData>
  {
    seq(|rows|, k requires 0 <= k < |rows| => ToBar(symbol, exchange, interval, rows[k]))
  }

  /**
   * The bars of a vendor reply: one per complete row, in the rows' order,
   * each recovering its row.
   */
  lemma BarsMatchCompleteRows(symbol: string, exchange: Exchange, interval: Interval, rows: seq<RawRow>)
    ensures |BuildBars(symbol, exchange, interval, DropMissing(rows))| == |CompleteIndices(rows)|
    ensures forall k :: 0 <= k < |CompleteIndices(rows)| ==>
      rows[CompleteIndices(rows)[k]] == Some(RowOf(BuildBars(symbol, exchange, interval, DropMissing(rows))[k]))
  {
  }

  /** The loop that appends one bar per complete row. */
  method AssembleBars(symbol: string, exchange: Exchange, interval: Interval, rows: seq<Row>)
    returns (bars: seq<BarData>)
    ensures |bars| == |rows|
    ensures forall k :: 0 <= k < |rows| ==> RowOf(bars[k]) == rows[k]
    ensures bars == BuildBars(symbol, exchange, interval, rows)
  {
    bars := [];
    for i := 0 to |rows|
      invariant bars == BuildBars(symbol, exchange, interval, rows[..i])
    {
      var row := rows[i];
      var bar := BarData(symbol, exchange, interval,
                         DateTime(row.datetime + VendorClockShift, Some(Shanghai)),
                         row.open, row.high, row.low, row.close, row.volume, row.openOi, GatewayName);
      bars := bars + [bar];
    }
    assert rows[..|rows|] == rows;
  }

  // ---------------------------------------------------------------------
  // The datafeed
  // ---------------------------------------------------------------------

  /** A handle on a vendor connection. */
  datatype Handle = Handle(id: nat)

  class Datafeed {
    /** The vendor connection, if one is held. */
    var api: Option<Handle>
    /** The connections closed so far, oldest first. */
    var closed: seq<Handle>

    constructor (api: Option<Handle>)
      ensures this.api == api && closed == []
    {
      this.api := api;
      closed := [];
    }

    /**
     * Queries the bar history for `req`: normalises `req.symbol`, derives
     * the vendor identifier, rejects an unsupported interval, reconciles
     * `req.start`/`req.end`, computes the row count, issues one query to
     * `kline` and turns the complete rows into bars. Returns the bars, the
     * diagnostics written and the queries issued.
     */
    method QueryBarHistory(req: HistoryRequest, kline: KlineSerial)
      returns (bars: seq<BarData>, diagnostics: seq<Diagnostic>, queries: seq<KlineQuery>)
      requires |req.symbol| > 0
      modifies req
      ensures req.symbol == Cased(req.exchange, old(req.symbol))
      ensures req.exchange == old(req.exchange) && req.interval == old(req.interval)
      ensures IntervalSeconds(req.interval).None? ==>
        bars == [] && queries == [] && diagnostics == [UnsupportedInterval(req.interval.Value())] &&
        req.start == old(req.start) && req.end == old(req.end)
      ensures IntervalSeconds(req.interval).Some? ==>
        var secs := IntervalSeconds(req.interval).value;
        (req.start, req.end) == Reconcile(old(req.start), old(req.end)) &&
        diagnostics == [] &&
        queries == [KlineQuery(VendorSymbol(req.exchange, old(req.symbol)), secs,
                               DataLength(Duration(req.start, req.end), secs))] &&
        bars == BuildBars(req.symbol, req.exchange, req.interval, DropMissing(kline(queries[0])))
    {
      diagnostics, queries := [], [];

      if UsesUpperCase(req.exchange) {
        req.symbol := ChangeCase(true, req.symbol);
      } else {
        req.symbol := ChangeCase(false, req.symbol);
      }
      var symbol := req.symbol;

      var tqSymbol := TqSymbolOf(req.exchange, symbol);

      if req.interval !in IntervalVt2Tq {
        diagnostics := diagnostics + [UnsupportedInterval(req.interval.Value())];
        return [], diagnostics, queries;
      }
      var interval := IntervalVt2Tq[req.interval];

      if req.start.tz.None? && req.end.tz.None? {
        req.start := req.start.WithZone(Shanghai);
        req.end := req.end.WithZone(Shanghai);
      } else if req.start.tz.Some? && req.end.tz.None? {
        req.end := req.end.WithZone(req.start.tz.value);
      } else if req.start.tz.None? && req.end.tz.Some? {
        req.start := req.start.WithZone(req.end.tz.value);
      }

      var dataLength := TruncDiv(Duration(req.start, req.end), interval);
      if dataLength == 0 {
        dataLength := 1;
      }
      if dataLength > MaxDataLength {
        dataLength := MaxDataLength;
      }

      var query := KlineQuery(tqSymbol, interval, dataLength);
      queries := queries + [query];
      var rows := DropMissing(kline(query));

      bars := AssembleBars(req.symbol, req.exchange, req.interval, rows);
    }

    /** Closes the held connection, if any, and forgets it; a second call does nothing. */
    method Close()
      modifies this
      ensures api == None
      ensures closed == old(closed) + (if old(api).Some? then [old(api).value] else [])
    {
      if api.Some? {
        closed := closed + [api.value];
        api := None;
      }
    }
  }
}
