/**
 * The one-shot export script (scripts/main.py): one request for a fixed
 * window, the test applied to the reply, the candle normalisation shared with the
 * backfill, and the name of the CSV file the backtest later reads. Login and
 * the call itself are not modelled; the reply is an input.
 */
module Export {
  import opened Common
  import opened Candles
  import opened Provider
  import LoadData
  import Backfill

  const OutputDir := "h_data"
  const FromDate := "2025-01-01"
  const ToDate := "2025-01-31"

  /** Column names of the written file: the normalised columns and the appended Return. */
  const CsvColumns: seq<string> := ["Date", "Time", "Timezone", "Open", "High", "Low", "Close", "Return"]

  // ---------------------------------------------------------------------------
  // The request
  // ---------------------------------------------------------------------------

  /** Value of a decimal digit. */
  function DigitValue(c: char): int {
    c as int - '0' as int
  }

  /** A number below 100 written with two digits, zero-padded. */
  function TwoDigits(n: nat): (s: string)
    requires n < 100
    ensures |s| == 2 && IsDigit(s[0]) && IsDigit(s[1])
    ensures 10 * DigitValue(s[0]) + DigitValue(s[1]) == n
  {
    [('0' as int + n / 10) as char, ('0' as int + n % 10) as char]
  }

  /** `HH:MM`. */
  function ClockText(c: Clock): (s: string)
    requires c.hour < 100 && c.minute < 100
    ensures |s| == 5 && s[2] == ':' && ' ' !in s
    ensures 10 * DigitValue(s[0]) + DigitValue(s[1]) == c.hour
    ensures 10 * DigitValue(s[3]) + DigitValue(s[4]) == c.minute
  {
    TwoDigits(c.hour) + ":" + TwoDigits(c.minute)
  }

  /** The request as the dictionary sent to the provider, days written as text. */
  function WireParam(r: Request<string>): map<string, string>
    requires r.fromClock.hour < 100 && r.fromClock.minute < 100
    requires r.toClock.hour < 100 && r.toClock.minute < 100
  {
    map["exchange" := r.exchange, "symboltoken" := r.symbolToken, "interval" := r.interval,
        "fromdate" := r.fromDate + " " + ClockText(r.fromClock),
        "todate" := r.toDate + " " + ClockText(r.toClock)]
  }

  /** Each key of the dictionary holds its own field. */
  lemma WireFields(r: Request<string>)
    requires r.fromClock.hour < 100 && r.fromClock.minute < 100
    requires r.toClock.hour < 100 && r.toClock.minute < 100
    ensures WireParam(r)["fromdate"] == r.fromDate + " " + ClockText(r.fromClock)
    ensures WireParam(r)["todate"] == r.toDate + " " + ClockText(r.toClock)
    ensures WireParam(r)["exchange"] == r.exchange && WireParam(r)["symboltoken"] == r.symbolToken
    ensures WireParam(r)["interval"] == r.interval
  {
    assert "exchange"[0] == 'e' && "symboltoken"[0] == 's' && "interval"[0] == 'i';
    assert "fromdate"[0] == 'f' && "todate"[0] == 't';
  }

  /** The session clocks are written 09:00 and 15:30. */
  lemma SessionClockTexts()
    ensures ClockText(SessionOpen) == "09:00" && ClockText(SessionClose) == "15:30"
  {
    assert TwoDigits(9) == "09" && TwoDigits(0) == "00";
    assert TwoDigits(15) == "15" && TwoDigits(30) == "30";
  }

  /** A `day + " " + HH:MM` field splits at the space back into the day and the clock text. */
  lemma DayIsRecoverable(day: string, c: Clock)
    requires c.hour < 100 && c.minute < 100 && ' ' !in day
    ensures Split(day + " " + ClockText(c), ' ') == [day, ClockText(c)]
  {
    SplitJoin([day, ClockText(c)], ' ');
    assert Join([day, ClockText(c)], ' ') == day + " " + ClockText(c);
  }

  /**
   * The window sent for the days `from` and `to` runs from 09:00 on the
   * first to 15:30 on the last, and each day can be read back as the text
   * before the space.
   */
  lemma RequestWindow(from: string, to: string)
    ensures WireParam(HistoricParam(from, to))["fromdate"] == from + " 09:00"
    ensures WireParam(HistoricParam(from, to))["todate"] == to + " 15:30"
    ensures ' ' !in from ==> Split(WireParam(HistoricParam(from, to))["fromdate"], ' ') == [from, "09:00"]
    ensures ' ' !in to ==> Split(WireParam(HistoricParam(from, to))["todate"], ' ') == [to, "15:30"]
    ensures WireParam(HistoricParam(from, to))["exchange"] == "NSE"
    ensures WireParam(HistoricParam(from, to))["symboltoken"] == "99926000"
    ensures WireParam(HistoricParam(from, to))["interval"] == "ONE_MINUTE"
  {
    WireFields(HistoricParam(from, to));
    SessionClockTexts();
    if ' ' !in from {
      DayIsRecoverable(from, SessionOpen);
    }
    if ' ' !in to {
      DayIsRecoverable(to, SessionClose);
    }
  }

  // ---------------------------------------------------------------------------
  // The reply
  // ---------------------------------------------------------------------------

  /**
   * `not response or 'data' not in response or not response['data']`
   * (main.py:63), for a call that returned.
   */
  predicate NoHistoricalData(r: Reply)
    requires !r.Raised?
    ensures NoHistoricalData(r) <==> r.NoReply? || !r.data.Records? || |r.data.records| == 0
  {
    r.NoReply? || !NonEmptyDict(r) || r.data == Absent || !Truthy(r.data)
  }

  /** The export script rejects exactly the replies the backfill retries. */
  lemma RejectionIsUnusable(r: Reply)
    requires !r.Raised?
    ensures NoHistoricalData(r) <==> !Usable(r)
  {
  }

  // ---------------------------------------------------------------------------
  // The run
  // ---------------------------------------------------------------------------

  /** How the script stops when it writes nothing. */
  datatype ExportError =
    | ApiCallFailed              // the call raised; the exception is logged and re-raised
    | NoHistoricalDataReceived   // ValueError("No historical data received from API.")
    | SplitFailed(error: NormError)

  /** The file written: its path, its header and its rows (the Return texts are not modelled). */
  datatype CsvFile = CsvFile(path: string, header: seq<string>, rows: seq<Row>)

  /** `os.path.join(output_dir, f"{symbol}_{interval}_{from_date}_{to_date}.csv")` on a POSIX system. */
  function OutputName(symbol: string, interval: string, from: string, to: string): (name: string)
    ensures |name| == |OutputDir| + |symbol| + |interval| + |from| + |to| + 8
    ensures name[..|OutputDir| + 1] == OutputDir + "/" && name[|name| - 4..] == ".csv"
  {
    OutputDir + "/" + symbol + "_" + interval + "_" + from + "_" + to + ".csv"
  }

  /**
   * The script from the call on (main.py:56-95): a raised call or a reply
   * without data stops it, a batch whose 'T' split is not two columns wide
   * stops it in the column assignment, and otherwise every record becomes
   * one row of the file, in order.
   */
  function ExportCandles(reply: Reply): (r: Result<CsvFile, ExportError>)
    ensures r == Err(ApiCallFailed) <==> reply.Raised?
    ensures r == Err(NoHistoricalDataReceived) <==> !reply.Raised? && !Usable(reply)
    ensures r.Ok? <==> Usable(reply)
                       && (forall k :: 0 <= k < |reply.data.records| ==> |Split(reply.data.records[k].dateTime, 'T')| <= 2)
                       && (exists k :: 0 <= k < |reply.data.records| && |Split(reply.data.records[k].dateTime, 'T')| == 2)
    ensures r.Ok? ==> r.value.path == OutputName(Symbol, Interval, FromDate, ToDate) && r.value.header == CsvColumns
    ensures r.Ok? ==> |r.value.rows| == |reply.data.records|
                      && forall k :: 0 <= k < |reply.data.records| ==> r.value.rows[k] == NormalizeRecord(reply.data.records[k])
  {
    if reply.Raised? then Err(ApiCallFailed)
    else if NoHistoricalData(reply) then Err(NoHistoricalDataReceived)
    else
      match NormalizeBatch(reply.data.records)
      case Err(e) => Err(SplitFailed(e))
      case Ok(rows) => Ok(CsvFile(OutputName(Symbol, Interval, FromDate, ToDate), CsvColumns, rows))
  }

  /**
   * Both scripts turn the same records into the same rows: the export
   * writes a file exactly when the backfill would keep the chunk, with the
   * same rows, and fails on the split exactly when the backfill would.
   */
  lemma SameRowsAsBackfill(reply: Reply)
    requires Usable(reply)
    ensures ExportCandles(reply).Ok? <==> Backfill.Classify(Some(reply.data.records)).Rows?
    ensures ExportCandles(reply).Ok? ==> ExportCandles(reply).value.rows == Backfill.Classify(Some(reply.data.records)).rows
    ensures forall e :: ExportCandles(reply) == Err(SplitFailed(e)) <==> Backfill.Classify(Some(reply.data.records)) == Backfill.Rejected(e)
  {
    Backfill.ClassifyMeaning(Some(reply.data.records));
  }

  // ---------------------------------------------------------------------------
  // The file name
  // ---------------------------------------------------------------------------

  /** The file the export writes is the one the backtest opens (backtest.py:157). */
  lemma ExportFileIsBacktestInput()
    ensures OutputName(Symbol, Interval, FromDate, ToDate) == "h_data/NIFTY_ONE_MINUTE_2025-01-01_2025-01-31.csv"
  {
    assert OutputDir + "/" + Symbol + "_" == "h_data/NIFTY_";
    assert "h_data/NIFTY_" + Interval + "_" == "h_data/NIFTY_ONE_MINUTE_";
    assert "h_data/NIFTY_ONE_MINUTE_" + FromDate + "_" == "h_data/NIFTY_ONE_MINUTE_2025-01-01_";
    assert "h_data/NIFTY_ONE_MINUTE_2025-01-01_" + ToDate + ".csv" == "h_data/NIFTY_ONE_MINUTE_2025-01-01_2025-01-31.csv";
  }

  /**
   * For one symbol and interval, dates of a fixed width (such as
   * YYYY-MM-DD) give different windows different file names.
   */
  lemma {:induction false} OutputNameInjective(symbol: string, interval: string, from1: string, to1: string, from2: string, to2: string)
    requires |from1| == |from2|
    ensures OutputName(symbol, interval, from1, to1) == OutputName(symbol, interval, from2, to2) <==> from1 == from2 && to1 == to2
  {
    var p := OutputDir + "/" + symbol + "_" + interval + "_";
    var n1, n2 := OutputName(symbol, interval, from1, to1), OutputName(symbol, interval, from2, to2);
    assert n1 == p + from1 + "_" + to1 + ".csv";
    assert n2 == p + from2 + "_" + to2 + ".csv";
    if n1 == n2 {
      assert from1 == n1[|p|..|p| + |from1|];
      assert from2 == n2[|p|..|p| + |from2|];
      assert |to1| == |to2|;
      assert to1 == n1[|p| + |from1| + 1..|p| + |from1| + 1 + |to1|];
      assert to2 == n2[|p| + |from2| + 1..|p| + |from2| + 1 + |to2|];
    }
  }

  // ---------------------------------------------------------------------------
  // Reading the file back
  // ---------------------------------------------------------------------------

  function Opens(rows: seq<Row>): (c: seq<LoadData.Cell>)
    ensures |c| == |rows| && forall k :: 0 <= k < |rows| ==> c[k] == LoadData.Num(rows[k].open)
  {
    seq(|rows|, k requires 0 <= k < |rows| => LoadData.Num(rows[k].open))
  }

  function Highs(rows: seq<Row>): (c: seq<LoadData.Cell>)
    ensures |c| == |rows| && forall k :: 0 <= k < |rows| ==> c[k] == LoadData.Num(rows[k].high)
  {
    seq(|rows|, k requires 0 <= k < |rows| => LoadData.Num(rows[k].high))
  }

  function Lows(rows: seq<Row>): (c: seq<LoadData.Cell>)
    ensures |c| == |rows| && forall k :: 0 <= k < |rows| ==> c[k] == LoadData.Num(rows[k].low)
  {
    seq(|rows|, k requires 0 <= k < |rows| => LoadData.Num(rows[k].low))
  }

  function Closes(rows: seq<Row>): (c: seq<LoadData.Cell>)
    ensures |c| == |rows| && forall k :: 0 <= k < |rows| ==> c[k] == LoadData.Num(rows[k].close)
  {
    seq(|rows|, k requires 0 <= k < |rows| => LoadData.Num(rows[k].close))
  }

  /** A text cell, or a missing one where pandas wrote NaN. */
  function TextCell(o: Option<string>): LoadData.Cell {
    if o.Some? then LoadData.Text(o.value) else LoadData.Missing
  }

  /** The table the backtest reads from the written file, given the texts of its Return column. */
  function CsvFrame(rows: seq<Row>, returnTexts: seq<string>): (f: LoadData.Frame)
    requires |returnTexts| == |rows|
    ensures LoadData.Valid(f) && f.names == CsvColumns && f.height == |rows|
  {
    var f := LoadData.Frame(CsvColumns,
      [seq(|rows|, k requires 0 <= k < |rows| => LoadData.Text(rows[k].date)),
       seq(|rows|, k requires 0 <= k < |rows| => TextCell(rows[k].time)),
       seq(|rows|, k requires 0 <= k < |rows| => TextCell(rows[k].timezone)),
       Opens(rows), Highs(rows), Lows(rows), Closes(rows),
       seq(|rows|, k requires 0 <= k < |rows| => LoadData.Text(returnTexts[k]))],
      |rows|);
    assert LoadData.Distinct(CsvColumns);
    f
  }

  /** The written file's price columns, looked up by name. */
  lemma CsvFramePrices(rows: seq<Row>, returnTexts: seq<string>)
    requires |returnTexts| == |rows|
    ensures var f := CsvFrame(rows, returnTexts);
            && "Open" in f.names && LoadData.Col(f, "Open") == Opens(rows)
            && "High" in f.names && LoadData.Col(f, "High") == Highs(rows)
            && "Low" in f.names && LoadData.Col(f, "Low") == Lows(rows)
            && "Close" in f.names && LoadData.Col(f, "Close") == Closes(rows)
  {
    var f := CsvFrame(rows, returnTexts);
    assert f.names[3] == "Open" && f.names[4] == "High" && f.names[5] == "Low" && f.names[6] == "Close";
    LoadData.IndexOfNameAt(f.names, 3);
    LoadData.IndexOfNameAt(f.names, 4);
    LoadData.IndexOfNameAt(f.names, 5);
    LoadData.IndexOfNameAt(f.names, 6);
  }

  /**
   * The written file's Date column always holds text, and its Time column
   * holds only texts and missing cells, so the two can be joined.
   */
  lemma CsvFrameStamps(rows: seq<Row>, returnTexts: seq<string>)
    requires |returnTexts| == |rows|
    ensures var f := CsvFrame(rows, returnTexts);
            && "Date" in f.names && "Time" in f.names
            && LoadData.Joinable(LoadData.Col(f, "Date"))
            && LoadData.JoinsOnto(LoadData.Col(f, "Date"), LoadData.Col(f, "Time"))
  {
    var f := CsvFrame(rows, returnTexts);
    assert f.names[0] == "Date" && f.names[1] == "Time";
    LoadData.IndexOfNameAt(f.names, 0);
    LoadData.IndexOfNameAt(f.names, 1);
    StampColumnsJoin(rows, LoadData.Col(f, "Date"), LoadData.Col(f, "Time"));
  }

  /**
   * A column of dates takes `+ " "`, and a column of optional times, present
   * or not, can be added to it: no cell of either is a number.
   */
  lemma StampColumnsJoin(rows: seq<Row>, date: seq<LoadData.Cell>, time: seq<LoadData.Cell>)
    requires |date| == |time| == |rows|
    requires forall k :: 0 <= k < |rows| ==> date[k] == LoadData.Text(rows[k].date) && time[k] == TextCell(rows[k].time)
    ensures LoadData.Joinable(date) && LoadData.JoinsOnto(date, time)
  {
    if |rows| > 0 {
      assert date[0].Text?;
    }
  }

  /**
   * The export's file always loads in the backtest: the feed's open, high,
   * low and close are the rows' prices and, the file having no Volume
   * column, its volume is 0 in every row.
   */
  lemma BacktestReadsExport(rows: seq<Row>, returnTexts: seq<string>)
    requires |returnTexts| == |rows|
    ensures LoadData.NoCaseClash(CsvFrame(rows, returnTexts))
    ensures LoadData.Load(CsvFrame(rows, returnTexts)).Ok?
    ensures LoadData.Load(CsvFrame(rows, returnTexts)).value.columns
              == [Opens(rows), Highs(rows), Lows(rows), Closes(rows), LoadData.Constant(|rows|, LoadData.Num(0.0))]
  {
    CsvFramePrices(rows, returnTexts);
    CsvFrameStamps(rows, returnTexts);
    LoadsWithZeroVolume(CsvFrame(rows, returnTexts));
  }

  /**
   * Any table with the written file's columns loads, its volume being 0 in
   * every row, unless its Date column does not hold text or some row has a
   * date and a number for its time.
   */
  lemma LoadsWithZeroVolume(f: LoadData.Frame)
    requires LoadData.Valid(f) && f.names == CsvColumns
    ensures LoadData.NoCaseClash(f) && "Date" in f.names && "Time" in f.names
    ensures LoadData.Load(f).Ok? <==>
              LoadData.Joinable(LoadData.Col(f, "Date")) && LoadData.JoinsOnto(LoadData.Col(f, "Date"), LoadData.Col(f, "Time"))
    ensures LoadData.Load(f).Ok? ==>
              LoadData.Load(f).value.columns
                == [LoadData.Col(f, "Open"), LoadData.Col(f, "High"), LoadData.Col(f, "Low"), LoadData.Col(f, "Close"),
                    LoadData.Constant(f.height, LoadData.Num(0.0))]
  {
    CsvColumnsFacts();
    assert LoadData.NoCaseClash(f);
    assert LoadData.Has(f, "Open", "open") && LoadData.Has(f, "High", "high");
    assert LoadData.Has(f, "Low", "low") && LoadData.Has(f, "Close", "close");
    assert LoadData.VolumeOf(f) == LoadData.Constant(f.height, LoadData.Num(0.0));
  }

  /** The written file has Date and Time, the capitalised price names only, and no Volume. */
  lemma CsvColumnsFacts()
    ensures "Date" in CsvColumns && "Time" in CsvColumns
    ensures "Open" in CsvColumns && "High" in CsvColumns && "Low" in CsvColumns && "Close" in CsvColumns
    ensures "open" !in CsvColumns && "high" !in CsvColumns && "low" !in CsvColumns && "close" !in CsvColumns
    ensures "Volume" !in CsvColumns && "volume" !in CsvColumns
  {
    assert CsvColumns[0] == "Date" && CsvColumns[1] == "Time";
    assert CsvColumns[3] == "Open" && CsvColumns[4] == "High" && CsvColumns[5] == "Low" && CsvColumns[6] == "Close";
    forall i | 0 <= i < |CsvColumns| ensures 'A' <= CsvColumns[i][0] <= 'T' {
    }
    assert "Volume"[0] == 'V' && "volume"[0] == 'v' && "open"[0] == 'o' && "high"[0] == 'h' && "low"[0] == 'l' && "close"[0] == 'c';
  }

  /** The file keeps the normalised columns in order and appends Return. */
  lemma CsvExtendsNormalized()
    ensures CsvColumns == NormalizedColumns + ["Return"]
  {
  }
}
