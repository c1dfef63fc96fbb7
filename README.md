# vnpy_tqsdk datafeed: request shaping and bar assembly

This project models the core of `TqsdkDatafeed.query_bar_history` from
vnpy_tqsdk. That is the adapter between the vn.py trading platform's
history request and the TianQin (TqSdk) market-data client. It covers
these steps:

- **Case normalisation.** `req.symbol` is rewritten in upper case on CZCE
  and CFFEX and in lower case on every other exchange.
- **Product/suffix split.** The normalised symbol is cut at its first
  digit. When there is no digit, the cut falls at the last index.
- **Vendor identifier.**
  - Suffix `888`/`88` gives the main contract `KQ.m@EX.product`.
  - Suffix `999`/`99` gives the index contract `KQ.i@EX.product`.
  - Any other suffix gives `EX.symbol`.
- **Interval table.** Minute is 60 s, hour is 3600 s and daily is 86400 s.
  Any other interval produces one diagnostic and an empty result.
- **Time-zone reconciliation.** Naive start and end datetimes are fixed up
  as described in the table below.
- **Row count.** `int(duration / secs) or 1`, capped at 10000.
- **Bar assembly.** Rows with a missing field are dropped. Each complete
  row becomes a bar stamped with the request, the gateway tag `TQ`, and
  the vendor time plus eight hours in Shanghai time.
- **`close()`.** The held connection is closed and released.

Modules:

- `Chars` (`chars.dfy`): ASCII `isdigit`, `upper` and `lower`, with lemmas
  about how case changes interact with digits, slicing and repetition.
- `Vnpy` (`vnpy_types.dfy`): the host platform's types.
  - `Exchange` and `Interval` with their string values.
  - `Zone` and `DateTime`, where a naive datetime has `tz == None`.
  - `BarData`.
  - The mutable `HistoryRequest` class.
- `Wrappers` (`wrappers.dfy`): `Option`.
- `TqsdkDatafeed` (`tqsdk_datafeed.dfy`):
  - the module constants;
  - the pure rules as functions with lemmas;
  - the loops (`ScanSplitPoint`, `TqSymbolOf`, `AssembleBars`) as methods
    proved against those functions;
  - the class `Datafeed`, whose `QueryBarHistory` updates the request in
    place and whose `Close` updates the `api` field.

The vendor's `get_kline_serial` is the parameter `kline` of
`QueryBarHistory`. It is a function from a `KlineQuery` (vendor symbol,
seconds per bar, row count) to a sequence of rows. A row with a missing
field is `None`. `QueryBarHistory` also returns the diagnostics it wrote
and the queries it issued. This lets its contract state that an
unsupported interval issues no query.

Two behaviours of the source are reproduced as written:

- When the end precedes the start by at least one interval, the truncated
  quotient is negative and non-zero. `or 1` does not replace it, so the
  row count is negative (`DataLength`, `DataLengthExamples`).
- When a symbol has no digit, the last character lands in the suffix. A
  one-character suffix is never a main or index suffix, so the vendor
  identifier is still `EX.symbol` (`Split`, `VendorSymbolWithoutDigit`).

## Model

| member | source | states |
|---|---|---|
| Chars.ChangeCaseChar | vnpy_tqsdk/tqsdk_datafeed.py:47-50 | `upper()` turns a lower-case letter into the upper-case letter at the same place in the alphabet and `lower()` the reverse; a letter already in the target case and every non-letter are unchanged; after `upper()` no lower-case letter remains, after `lower()` no upper-case one; digits stay digits and non-digits stay non-digits; `Chars.ChangeCase` applies it to every character of a string |
| Chars.ChangeCaseRoundTrip | vnpy_tqsdk/tqsdk_datafeed.py:47-50 | `upper()` and `lower()` only switch case: lowering an upper-cased text gives the lowered text, and upper-casing a lowered text gives the upper-cased text |
| Chars.ChangeCaseSlice | vnpy_tqsdk/tqsdk_datafeed.py:59-60 | casing a symbol and then slicing it gives the same text as slicing and then casing |
| Chars.ChangeCaseIdempotent | vnpy_tqsdk/tqsdk_datafeed.py:63-79 | a second `upper()`/`lower()` of an already cased text changes nothing, so re-casing the product is harmless |
| Chars.ChangeCaseDigits | vnpy_tqsdk/tqsdk_datafeed.py:56-57 | casing keeps the length and each position's digit-ness, so it neither adds nor removes digits |
| Chars.ChangeCaseOnDigits | vnpy_tqsdk/tqsdk_datafeed.py:18-19 | an all-digit suffix is its own upper and lower case, and only that suffix cases to it |
| TqsdkDatafeed.CasedHasExchangeCase | vnpy_tqsdk/tqsdk_datafeed.py:47-51 | `Cased`, the normalisation of lines 47-50, keeps the input's length; on CZCE/CFFEX the result has no lower-case letter, elsewhere no upper-case letter |
| TqsdkDatafeed.FirstDigit | vnpy_tqsdk/tqsdk_datafeed.py:56-58 | when some index is returned, it holds a digit and no earlier index does; none is returned exactly when the text has no digit |
| TqsdkDatafeed.FirstDigitAt | vnpy_tqsdk/tqsdk_datafeed.py:56-58 | a digit with no digit before it is the first digit |
| TqsdkDatafeed.ScanSplitPoint | vnpy_tqsdk/tqsdk_datafeed.py:56-58 | the `for`/`break` scan stops at `SplitPoint`, the first digit; without a digit it ends on the last index, not on the length |
| TqsdkDatafeed.Split | vnpy_tqsdk/tqsdk_datafeed.py:59-60 | `product + time_str` is the symbol; with a digit, the product has no digit and `time_str` starts with the first digit; without one, `time_str` is the last character alone |
| TqsdkDatafeed.SplitOfCased | vnpy_tqsdk/tqsdk_datafeed.py:47-60 | normalising the case does not move the split point; the product and suffix are the cased parts of the caller's symbol |
| TqsdkDatafeed.SuffixClassIgnoresCase | vnpy_tqsdk/tqsdk_datafeed.py:62-71 | a suffix is in `MAIN_SUFFIX` (or `INDEX_SUFFIX`) exactly when its cased form is |
| TqsdkDatafeed.VendorSymbolWithDigit | vnpy_tqsdk/tqsdk_datafeed.py:47-81 | for a symbol whose first digit is at k: a main suffix gives `KQ.m@EX.` plus the product cased for the exchange, an index suffix gives `KQ.i@EX.` plus that product, and any other suffix gives `EX.` plus the normalised symbol; with VendorSymbolWithoutDigit this characterises `VendorSymbol` (the identifier for the caller's symbol) on every non-empty symbol, and `TqSymbol` (the formatting of lines 59-81) on every symbol already cased for its exchange, the only input those lines receive |
| TqsdkDatafeed.VendorSymbolWithoutDigit | vnpy_tqsdk/tqsdk_datafeed.py:56-81 | a symbol without a digit maps to `EX.` plus the normalised symbol, although the split is off by one |
| TqsdkDatafeed.MainContractExample | vnpy_tqsdk/tqsdk_datafeed.py:54-70 | DCE `a888` maps to `KQ.m@DCE.a` |
| TqsdkDatafeed.IndexContractExample | vnpy_tqsdk/tqsdk_datafeed.py:71-75 | CFFEX `IF999` maps to `KQ.i@CFFEX.IF` |
| TqsdkDatafeed.UpperCasedMainExample | vnpy_tqsdk/tqsdk_datafeed.py:47-66 | CZCE `ma888` is upper-cased and maps to `KQ.m@CZCE.MA` |
| TqsdkDatafeed.LowerCasedDatedExample | vnpy_tqsdk/tqsdk_datafeed.py:47-81 | SHFE `RB2410` is lower-cased and maps to `SHFE.rb2410` |
| TqsdkDatafeed.DatedContractExample | vnpy_tqsdk/tqsdk_datafeed.py:80-81 | DCE `a2405` maps to `DCE.a2405` |
| TqsdkDatafeed.TqSymbolOf | vnpy_tqsdk/tqsdk_datafeed.py:56-81 | the scan, the cut and the three-way formatting produce the vendor identifier `TqSymbol` defines |
| TqsdkDatafeed.IntervalSeconds | vnpy_tqsdk/tqsdk_datafeed.py:13-14 | a value is found exactly for minute, hour and daily; it is positive and a whole number of minutes |
| TqsdkDatafeed.IntervalTable | vnpy_tqsdk/tqsdk_datafeed.py:13-14 | minute is 60, hour 3600, daily 86400; weekly and tick have no entry |
| TqsdkDatafeed.Reconcile | vnpy_tqsdk/tqsdk_datafeed.py:89-95 | afterwards both times carry a zone and keep their wall clock; a zoned time is never changed; two naive times both get Shanghai; a single naive time takes the other's zone |
| TqsdkDatafeed.ReconcileIdempotent | vnpy_tqsdk/tqsdk_datafeed.py:89-95 | a second reconciliation changes nothing |
| TqsdkDatafeed.Duration | vnpy_tqsdk/tqsdk_datafeed.py:98 | for times in the same zone, `(end - start).total_seconds()` is the wall-clock difference |
| TqsdkDatafeed.ReconciledDuration | vnpy_tqsdk/tqsdk_datafeed.py:89-98 | when either end was naive, the reconciled range spans exactly its wall-clock difference |
| TqsdkDatafeed.TruncDiv | vnpy_tqsdk/tqsdk_datafeed.py:98 | `int(a / b)` truncates toward zero: the quotient is bracketed from below for non-negative a and from above for negative a |
| TqsdkDatafeed.DataLength | vnpy_tqsdk/tqsdk_datafeed.py:97-100 | never above 10000; at least 1 when start <= end; exactly 1 when the range is shorter than one interval (so for start == end); `min(10000, duration div secs)` once the range spans an interval; negative when the end precedes the start by an interval or more |
| TqsdkDatafeed.DataLengthExamples | vnpy_tqsdk/tqsdk_datafeed.py:97-100 | 0 s of minutes asks for 1 row, a day for 1440, thirty days for 10000, and a range reversed by two minutes for -2 |
| TqsdkDatafeed.CompleteIndices | vnpy_tqsdk/tqsdk_datafeed.py:111 | lists, strictly increasing, exactly the positions of the rows without a missing field |
| TqsdkDatafeed.DropMissingKeepsComplete | vnpy_tqsdk/tqsdk_datafeed.py:111 | `dropna` keeps at most as many rows, all of them from the input; it keeps them all exactly when no row has a missing field; `DropMissing` is the rows at `CompleteIndices`, in order |
| TqsdkDatafeed.ToBarRoundTrip | vnpy_tqsdk/tqsdk_datafeed.py:121-130 | the row is recovered from its bar: vendor time is bar time minus 8 hours, prices, volume and open interest are copied; the bar carries the request's symbol, exchange and interval and is tagged Shanghai and `TQ`; this characterises `ToBar`, the bar built at lines 122-130 |
| TqsdkDatafeed.BarsMatchCompleteRows | vnpy_tqsdk/tqsdk_datafeed.py:110-133 | `BuildBars`, the bar list of lines 117-131, has one bar per complete row, and its k-th bar comes from the k-th complete row, in the rows' order |
| TqsdkDatafeed.AssembleBars | vnpy_tqsdk/tqsdk_datafeed.py:117-133 | the append loop yields one bar per row, in order, each recovering its row |
| TqsdkDatafeed.Datafeed.constructor | vnpy_tqsdk/tqsdk_datafeed.py:27-31 | the datafeed starts holding the given connection, with nothing closed |
| TqsdkDatafeed.Datafeed.QueryBarHistory | vnpy_tqsdk/tqsdk_datafeed.py:33-133 | `req.symbol` becomes the normalised symbol and is used by the later steps. An unsupported interval gives one diagnostic, no bars, no query and untouched times. Otherwise the times are reconciled and exactly one query is issued with the vendor identifier, the interval's seconds and `DataLength`; the bars are those of the reply's complete rows |
| TqsdkDatafeed.Datafeed.Close | vnpy_tqsdk/tqsdk_datafeed.py:135-141 | a held connection is closed once and released; with none held nothing happens, so a second call is harmless |

## Left out

- Creating the vendor client is not modelled. That covers `TqApi`/`TqAuth`, the credentials read from `SETTINGS`, and the path where a failure is turned into `None` plus a traceback (tqsdk_datafeed.py:29-31, 38-44). The constructor takes the connection as a parameter.
- The source builds a fresh client when `self.api` is empty but never stores it in `self.api`. Because client creation is left out, this is not modelled either.
- The vendor call `get_kline_serial` is the function parameter `kline`. Its network behaviour, blocking and timeouts belong to the vendor library.
- The `print` lines at tqsdk_datafeed.py:102-106 only log to standard output and are not modelled. The one diagnostic for an unsupported interval is modelled as the `UnsupportedInterval` value carrying the interval's string. Its Chinese message text is not modelled.
- Prices, volume and open interest are floats in the source. Here they are `real` values that are copied and never computed with.
- The duration is whole seconds, so the float division at line 98 is modelled as truncating integer division. Sub-second parts of the duration and float rounding are not modelled.
- Vendor timestamps are whole seconds. The source receives nanoseconds and converts them through pandas `Timestamp`.
- Chars.ChangeCaseChar: `str.isdigit`, `upper` and `lower` are modelled for ASCII only. Python also treats other Unicode digits as digits and can change a string's length when changing case (for example, `ß`). The model does not capture this.
- TqsdkDatafeed.Duration: a zone is modelled with one fixed offset from UTC, while `ZoneInfo` offsets depend on the date (daylight saving, including Asia/Shanghai's in 1986-1991). When both ends share a zone the offsets cancel and the model agrees with Python. When the ends carry different zones, which lines 89-95 leave alone, Python uses each date's real offset and the model does not, so the durations can differ by the daylight-saving hour.
- The pandas machinery is replaced by a sequence of optional rows (`DataFrame`, `dropna`, `itertuples`).
- `Exchange` lists eight of the host's exchanges, and `Interval` lists minute, hour, daily, weekly and tick. Every other member of the host's enumerations behaves like a non-CZCE/CFFEX exchange or an unsupported interval.
- The model's request always has an `end` and an `interval`; the source's may be `None`. With a `None` interval the source raises at line 85 (`req.interval.value`). With a `None` end and a supported interval it raises reading `req.end.tzinfo`: at line 89 when the start is naive, and at line 92 when the start is aware (the test at line 89 then stops at its first operand). With a `None` end and an unsupported interval it does not raise: it writes the diagnostic and returns `[]` at lines 83-86. The model cannot express that last input.
- An empty symbol makes the source raise, because the loop variable `count` is never bound. `QueryBarHistory` therefore requires a non-empty symbol.
- `BarData` fields the datafeed never sets (turnover and similar) are not modelled.
- `MAIN_SUFFIX_OLD` and `INDEX_SUFFIX_OLD` are not modelled because nothing uses them.
