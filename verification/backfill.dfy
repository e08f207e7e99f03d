/**
 * The backfill script scripts/historical_data_fetch.py: the span from
 * 2005-01-01 to 2025-01-01 is walked in 30-day steps; each step fetches one
 * chunk with up to three attempts, normalises a successful reply and keeps
 * it, or records the chunk as missing.
 *
 * Calendar days are day numbers (days since 1970-01-01). The provider is a
 * function from (request, attempt number) to that attempt's reply.
 */
module Backfill {
  import opened Common
  import opened Candles
  import opened Provider

  type Day = int

  /** The provider: the reply to attempt `a` (0, 1, 2) of a request. */
  type Network = (Request<Day>, nat) -> Reply

  const ChunkDays := 30
  const MaxAttempts := 3
  /** 2005-01-01 and 2025-01-01 as day numbers. */
  const StartDay: Day := 12784
  const EndDay: Day := 20089

  // ---------------------------------------------------------------------------
  // fetch_historical_data (historical_data_fetch.py:50-71)
  // ---------------------------------------------------------------------------

  /** What a fetch returns, with the number of provider calls and of 5-second sleeps it made. */
  datatype Fetched = Fetched(data: Option<seq<RawCandle>>, calls: nat, sleeps: nat)

  /** The attempts from number `a` on, after `a` failed ones. */
  function FetchFrom(net: Network, req: Request<Day>, a: nat): (f: Fetched)
    requires a <= MaxAttempts
    decreases MaxAttempts - a
  {
    if a == MaxAttempts then Fetched(None, MaxAttempts, MaxAttempts)
    else if Usable(net(req, a)) then Fetched(Some(net(req, a).data.records), a + 1, a)
    else FetchFrom(net, req, a + 1)
  }

  /** The result of fetching one request. */
  function Fetch(net: Network, req: Request<Day>): Fetched {
    FetchFrom(net, req, 0)
  }

  /**
   * What a fetch from attempt `a` on means: it stops at the first usable
   * reply and returns its records, and otherwise gives up after the third
   * attempt with None, having slept after every failed attempt.
   */
  lemma {:induction false} FetchFromMeaning(net: Network, req: Request<Day>, a: nat)
    requires a <= MaxAttempts
    ensures var f := FetchFrom(net, req, a);
      (a < MaxAttempts ==> a < f.calls) && 1 <= f.calls <= MaxAttempts
    ensures var f := FetchFrom(net, req, a);
      forall i :: a <= i < f.calls - 1 ==> !Usable(net(req, i))
    ensures var f := FetchFrom(net, req, a);
      f.data.Some? <==> f.calls > a && Usable(net(req, f.calls - 1))
    ensures var f := FetchFrom(net, req, a);
      f.data.Some? ==> f.data.value == net(req, f.calls - 1).data.records && f.sleeps == f.calls - 1
    ensures var f := FetchFrom(net, req, a);
      f.data.None? <==> forall i :: a <= i < MaxAttempts ==> !Usable(net(req, i))
    ensures var f := FetchFrom(net, req, a);
      f.data.None? ==> f.calls == MaxAttempts && f.sleeps == MaxAttempts
    decreases MaxAttempts - a
  {
    if a < MaxAttempts && !Usable(net(req, a)) {
      FetchFromMeaning(net, req, a + 1);
    }
  }

  /**
   * A fetch calls the provider one to three times and stops at the first
   * usable reply; it returns None exactly when all three attempts failed,
   * after three sleeps; any data it returns is a non-empty list.
   */
  lemma FetchMeaning(net: Network, req: Request<Day>)
    ensures 1 <= Fetch(net, req).calls <= MaxAttempts
    ensures forall i :: 0 <= i < Fetch(net, req).calls - 1 ==> !Usable(net(req, i))
    ensures Fetch(net, req).data.Some? ==>
              && Usable(net(req, Fetch(net, req).calls - 1))
              && Fetch(net, req).data.value == net(req, Fetch(net, req).calls - 1).data.records
              && |Fetch(net, req).data.value| > 0
              && Fetch(net, req).sleeps == Fetch(net, req).calls - 1
    ensures Fetch(net, req).data.None? <==> forall i :: 0 <= i < MaxAttempts ==> !Usable(net(req, i))
    ensures Fetch(net, req).data.None? ==> Fetch(net, req).calls == MaxAttempts == Fetch(net, req).sleeps
  {
    FetchFromMeaning(net, req, 0);
  }

  /**
   * Retrying is invisible in the result: a fetch whose first usable reply is
   * attempt `a` returns exactly that reply's records, whatever failed before.
   */
  lemma RetryIsTransparent(net: Network, req: Request<Day>, a: nat)
    requires a < MaxAttempts && Usable(net(req, a))
    requires forall i :: 0 <= i < a ==> !Usable(net(req, i))
    ensures Fetch(net, req) == Fetched(Some(net(req, a).data.records), a + 1, a)
  {
    FetchMeaning(net, req);
  }

  /** `fetch_historical_data(from_date, to_date)`. */
  method FetchHistoricalData(net: Network, from: Day, to: Day) returns (data: Option<seq<RawCandle>>, ghost calls: nat, ghost sleeps: nat)
    ensures Fetched(data, calls, sleeps) == Fetch(net, HistoricParam(from, to))
    ensures data.Some? ==> |data.value| > 0
  {
    var req := HistoricParam(from, to);
    calls, sleeps := 0, 0;
    for attempt := 0 to MaxAttempts
      invariant calls == attempt && sleeps == attempt
      invariant FetchFrom(net, req, attempt) == Fetch(net, req)
    {
      var reply := net(req, attempt);
      calls := calls + 1;
      if reply.Raised? {
        // the exception is logged
      } else if Usable(reply) {
        return Some(reply.data.records), calls, sleeps;
      }
      sleeps := sleeps + 1;
    }
    data := None;
  }

  // ---------------------------------------------------------------------------
  // The 30-day partition (historical_data_fetch.py:73-76, 95)
  // ---------------------------------------------------------------------------

  /** First and last day of chunk `k`. */
  function ChunkFrom(start: Day, k: nat): Day {
    start + 30 * k
  }

  function ChunkTo(start: Day, k: nat): Day {
    start + 30 * (k + 1)
  }

  /** The request of chunk `k`. */
  function ChunkRequest(start: Day, k: nat): Request<Day> {
    HistoricParam(ChunkFrom(start, k), ChunkTo(start, k))
  }

  /** How many times the loop body runs: one per 30-day step taken before the end date. */
  function ChunkCount(start: Day, end: Day): (n: nat)
    ensures ChunkFrom(start, n) >= end
    ensures n > 0 ==> ChunkFrom(start, n - 1) < end
    decreases end - start
  {
    if end <= start then 0 else 1 + ChunkCount(start + ChunkDays, end)
  }

  /** The loop runs ceil((end - start) / 30) times, and not at all over an empty span. */
  lemma ChunkCountIsCeiling(start: Day, end: Day)
    ensures end <= start ==> ChunkCount(start, end) == 0
    ensures end > start ==> ChunkCount(start, end) == (end - start + 29) / 30
  {
  }

  /**
   * The chunks are the loop's iterations: each starts where the previous one
   * ended, every chunk starts before the end date, and the last may run past
   * it by fewer than 30 days.
   */
  lemma ChunksTileTheSpan(start: Day, end: Day, k: nat)
    requires k < ChunkCount(start, end)
    ensures ChunkFrom(start, k) < end
    ensures ChunkTo(start, k) == ChunkFrom(start, k + 1)
    ensures k == ChunkCount(start, end) - 1 ==> end <= ChunkTo(start, k) < end + 30
  {
    var n := ChunkCount(start, end);
    assert ChunkFrom(start, k) <= ChunkFrom(start, n - 1);
  }

  /** The configured span is 244 chunks, and the last one ends on 2025-01-16, past the end date. */
  lemma ConfiguredSpan()
    ensures ChunkCount(StartDay, EndDay) == 244
    ensures ChunkTo(StartDay, 243) == EndDay + 15
  {
    ChunkCountIsCeiling(StartDay, EndDay);
  }

  /** Minutes since day 0, 00:00. */
  function Instant(day: Day, c: Clock): int {
    day * 1440 + c.hour * 60 + c.minute
  }

  /** The request asks for the minute `c` of `day`. */
  predicate Covers(req: Request<Day>, day: Day, c: Clock) {
    Instant(req.fromDate, req.fromClock) <= Instant(day, c) <= Instant(req.toDate, req.toClock)
  }

  /**
   * Adjacent chunks of a run share their boundary day, and with the window
   * widened to 09:00-15:30 every minute of that day's session is requested
   * by both.
   */
  lemma BoundarySessionRequestedTwice(start: Day, end: Day, k: nat, c: Clock)
    requires k + 1 < ChunkCount(start, end)
    requires c.minute < 60
    requires Instant(0, SessionOpen) <= Instant(0, c) <= Instant(0, SessionClose)
    ensures Covers(ChunkRequest(start, k), ChunkTo(start, k), c)
    ensures Covers(ChunkRequest(start, k + 1), ChunkTo(start, k), c)
  {
  }

  // ---------------------------------------------------------------------------
  // The bookkeeping of the main loop (historical_data_fetch.py:45-47, 79-92)
  // ---------------------------------------------------------------------------

  /** `all_data`, `missing_dates`, `first_date`, `last_date`. */
  datatype Ledger = Ledger(allData: seq<seq<Row>>, missing: seq<(Day, Day)>, firstDate: Option<Day>, lastDate: Option<Day>)

  const EmptyLedger := Ledger([], [], None, None)

  /** A run either walks every chunk or stops at the chunk whose records the split rejects. */
  datatype Outcome = Finished(ledger: Ledger) | Crashed(chunk: nat, error: NormError)

  /** What one chunk contributes: no data, normalised rows, or the split's error. */
  datatype ChunkResult = NoData | Rows(rows: seq<Row>) | Rejected(error: NormError)

  /** `if data:` -- a fetch result is truthy when it is a non-empty list. */
  predicate Filled(data: Option<seq<RawCandle>>) {
    data.Some? && |data.value| > 0
  }

  /** The loop body's treatment of what a fetch returned. */
  function Classify(data: Option<seq<RawCandle>>): ChunkResult {
    if Filled(data) then
      match NormalizeBatch(data.value)
      case Err(e) => Rejected(e)
      case Ok(rows) => Rows(rows)
    else NoData
  }

  /** A chunk's rows are the normalised records of a non-empty fetch, its error the split's error, and it is empty otherwise. */
  lemma ClassifyMeaning(data: Option<seq<RawCandle>>)
    ensures Classify(data).NoData? <==> data.None? || data.value == []
    ensures Classify(data).Rows? <==> Filled(data) && NormalizeBatch(data.value).Ok?
    ensures Classify(data).Rows? ==> Classify(data).rows == NormalizeBatch(data.value).value
    ensures Classify(data).Rejected? ==> NormalizeBatch(data.value) == Err(Classify(data).error)
  {
  }

  /** What the chunk [from, to] contributes, fetched from the provider `net`. */
  function ChunkOutcome(net: Network, from: Day, to: Day): ChunkResult {
    Classify(Fetch(net, HistoricParam(from, to)).data)
  }

  /** The contributions of the first `n` chunks of the script against the provider `net`, in order. */
  function ChunkResults(start: Day, net: Network, n: nat): (rs: seq<ChunkResult>)
    ensures |rs| == n
  {
    seq(n, k requires 0 <= k < n => ChunkOutcome(net, ChunkFrom(start, k), ChunkTo(start, k)))
  }

  /** `rs` lists, in order, what the first `|rs|` chunks of the script contribute against the provider `net`. */
  predicate AreChunkResults(start: Day, net: Network, rs: seq<ChunkResult>) {
    forall j: nat {:trigger ChunkOutcome(net, ChunkFrom(start, j), ChunkTo(start, j))} ::
      j < |rs| ==> rs[j] == ChunkOutcome(net, ChunkFrom(start, j), ChunkTo(start, j))
  }

  /** The script's own list of chunk contributions is one, and the only one of its length. */
  lemma ChunkResultsAre(start: Day, net: Network, n: nat)
    ensures AreChunkResults(start, net, ChunkResults(start, net, n))
    ensures forall rs :: |rs| == n && AreChunkResults(start, net, rs) ==> rs == ChunkResults(start, net, n)
  {
    forall rs | |rs| == n && AreChunkResults(start, net, rs) ensures rs == ChunkResults(start, net, n) {
      var cs := ChunkResults(start, net, n);
      forall j | 0 <= j < n ensures rs[j] == cs[j] {
        assert rs[j] == ChunkOutcome(net, ChunkFrom(start, j), ChunkTo(start, j));
      }
    }
  }

  /** The contributions of the first `n` chunks, named without unfolding them. */
  lemma TheChunkResults(start: Day, net: Network, n: nat) returns (rs: seq<ChunkResult>)
    ensures |rs| == n && AreChunkResults(start, net, rs)
  {
    rs := ChunkResults(start, net, n);
    ChunkResultsAre(start, net, n);
  }

  /** One loop body's bookkeeping for the chunk [from, to]. */
  function Record(l: Ledger, from: Day, to: Day, c: ChunkResult): (r: Result<Ledger, NormError>)
    ensures r.Err? <==> c.Rejected?
    ensures r.Err? ==> r.error == c.error
    ensures r.Ok? ==> r.value.allData == l.allData + (if c.Rows? then [c.rows] else [])
    ensures r.Ok? ==> r.value.missing == l.missing + (if c.NoData? then [(from, to)] else [])
    ensures r.Ok? ==> r.value.firstDate == (if c.Rows? && l.firstDate.None? then Some(from) else l.firstDate)
    ensures r.Ok? ==> r.value.lastDate == (if c.Rows? then Some(to) else l.lastDate)
  {
    match c
    case NoData => Ok(l.(missing := l.missing + [(from, to)]))
    case Rejected(e) => Err(e)
    case Rows(rows) =>
      var first := if l.firstDate.None? then Some(from) else l.firstDate;
      Ok(Ledger(l.allData + [rows], l.missing, first, Some(to)))
  }

  /** The state of the script after the first `n` chunks, whose contributions are `rs[..n]`. */
  function Replay(start: Day, rs: seq<ChunkResult>, n: nat): Outcome
    requires n <= |rs|
  {
    if n == 0 then Finished(EmptyLedger)
    else
      match Replay(start, rs, n - 1)
      case Crashed(k, e) => Crashed(k, e)
      case Finished(l) =>
        match Record(l, ChunkFrom(start, n - 1), ChunkTo(start, n - 1), rs[n - 1])
        case Err(e) => Crashed(n - 1, e)
        case Ok(l') => Finished(l')
  }

  /** Once the script has crashed, later chunks are never reached. */
  lemma {:induction false} CrashIsFinal(start: Day, rs: seq<ChunkResult>, k: nat, n: nat)
    requires k <= n <= |rs| && Replay(start, rs, k).Crashed?
    ensures Replay(start, rs, n) == Replay(start, rs, k)
    decreases n - k
  {
    if k < n {
      CrashIsFinal(start, rs, k, n - 1);
    }
  }

  /** The loop runs while the chunk starts before the end date, that is for exactly `ChunkCount` iterations. */
  lemma LoopGuard(start: Day, end: Day, k: nat)
    requires k <= ChunkCount(start, end)
    ensures ChunkFrom(start, k) < end <==> k < ChunkCount(start, end)
  {
  }

  /** The body of the main loop for the chunk [from, to]: fetch it, then record its rows or its absence. */
  method ProcessChunk(net: Network, from: Day, to: Day, l: Ledger, ghost start: Day, ghost k: nat, ghost rs: seq<ChunkResult>)
    returns (r: Result<Ledger, NormError>)
    requires k < |rs| && AreChunkResults(start, net, rs) && from == ChunkFrom(start, k) && to == ChunkTo(start, k)
    ensures r == Record(l, from, to, rs[k])
  {
    assert rs[k] == ChunkOutcome(net, from, to);
    var data, calls, sleeps := FetchHistoricalData(net, from, to);
    var allData, missing, firstDate, lastDate := l.allData, l.missing, l.firstDate, l.lastDate;
    if data.Some? && |data.value| > 0 {
      if firstDate.None? {
        firstDate := Some(from);
      }
      lastDate := Some(to);
      var rows := NormalizeBatch(data.value);
      if rows.Err? {
        return Err(rows.error);
      }
      allData := allData + [rows.value];
    } else {
      missing := missing + [(from, to)];
    }
    return Ok(Ledger(allData, missing, firstDate, lastDate));
  }

  /** The main loop of the script over the span [start, end). */
  method Run(net: Network, start: Day, end: Day) returns (outcome: Outcome, ghost rs: seq<ChunkResult>, ghost pauses: nat)
    ensures |rs| == ChunkCount(start, end) && AreChunkResults(start, net, rs)
    ensures pauses == (if outcome.Crashed? then outcome.chunk else |rs|)
    ensures outcome == Replay(start, rs, |rs|)
    ensures outcome == Replay(start, ChunkResults(start, net, ChunkCount(start, end)), ChunkCount(start, end))
  {
    ghost var n := ChunkCount(start, end);
    rs := TheChunkResults(start, net, n);
    var current := start;
    var k := 0;
    var ledger := EmptyLedger;
    pauses := 0;
    while current < end
      invariant k <= n && pauses == k
      invariant current == ChunkFrom(start, k)
      invariant Replay(start, rs, k) == Finished(ledger)
      decreases end - current
    {
      var next := current + ChunkDays;
      LoopGuard(start, end, k);
      var r := ProcessChunk(net, current, next, ledger, start, k, rs);
      if r.Err? {
        CrashIsFinal(start, rs, k + 1, n);
        ChunkResultsAre(start, net, n);
        return Crashed(k, r.error), rs, pauses;
      }
      ledger := r.value;
      pauses := pauses + 1;  // the 0.4 s rate-limit pause
      current := next;
      k := k + 1;
    }
    LoopGuard(start, end, k);
    outcome := Finished(ledger);
    ChunkResultsAre(start, net, n);
  }

  // ---------------------------------------------------------------------------
  // What the bookkeeping means
  // ---------------------------------------------------------------------------

  /** The chunk contributed rows, or data the split rejected. */
  predicate HasRows(r: ChunkResult) {
    !r.NoData?
  }

  /** The chunks among the first `n` whose fetch returned data, in order. */
  function SuccessIndices(rs: seq<ChunkResult>, n: nat): seq<nat>
    requires n <= |rs|
  {
    if n == 0 then []
    else SuccessIndices(rs, n - 1) + (if HasRows(rs[n - 1]) then [n - 1] else [])
  }

  /** The chunks among the first `n` whose fetch came back empty, in order. */
  function FailureIndices(rs: seq<ChunkResult>, n: nat): seq<nat>
    requires n <= |rs|
  {
    if n == 0 then []
    else FailureIndices(rs, n - 1) + (if HasRows(rs[n - 1]) then [] else [n - 1])
  }

  predicate Increasing(xs: seq<nat>) {
    forall i, j :: 0 <= i < j < |xs| ==> xs[i] < xs[j]
  }

  /** Appending an index larger than every element keeps a list increasing. */
  lemma AppendIncreasing(xs: seq<nat>, k: nat)
    requires Increasing(xs)
    requires forall x :: x in xs ==> x < k
    ensures Increasing(xs + [k])
  {
    var ys := xs + [k];
    forall i, j | 0 <= i < j < |ys|
      ensures ys[i] < ys[j]
    {
      assert ys[i] == xs[i] && xs[i] in xs;
      if j < |xs| {
        assert ys[j] == xs[j];
      }
    }
  }

  /** A chunk is listed as a success iff it contributed something, and as a failure iff it did not. */
  lemma {:induction false} IndicesMembers(rs: seq<ChunkResult>, n: nat)
    requires n <= |rs|
    ensures forall k: nat :: k in SuccessIndices(rs, n) <==> k < n && HasRows(rs[k])
    ensures forall k: nat :: k in FailureIndices(rs, n) <==> k < n && !HasRows(rs[k])
  {
    if n > 0 {
      IndicesMembers(rs, n - 1);
    }
  }

  /** Every chunk is either a success or a failure, and each list is in chunk order. */
  lemma {:induction false} IndicesPartition(rs: seq<ChunkResult>, n: nat)
    requires n <= |rs|
    ensures |SuccessIndices(rs, n)| + |FailureIndices(rs, n)| == n
    ensures Increasing(SuccessIndices(rs, n)) && Increasing(FailureIndices(rs, n))
  {
    if n > 0 {
      IndicesPartition(rs, n - 1);
      IndicesStep(rs, n - 1);
    }
  }

  /** Chunk `n` extends exactly one of the two lists, and keeps it increasing. */
  lemma IndicesStep(rs: seq<ChunkResult>, n: nat)
    requires n < |rs|
    requires Increasing(SuccessIndices(rs, n)) && Increasing(FailureIndices(rs, n))
    ensures SuccessIndices(rs, n + 1) == SuccessIndices(rs, n) + (if HasRows(rs[n]) then [n] else [])
    ensures FailureIndices(rs, n + 1) == FailureIndices(rs, n) + (if HasRows(rs[n]) then [] else [n])
    ensures Increasing(SuccessIndices(rs, n + 1)) && Increasing(FailureIndices(rs, n + 1))
  {
    IndicesMembers(rs, n);
    if HasRows(rs[n]) {
      AppendIncreasing(SuccessIndices(rs, n), n);
    } else {
      AppendIncreasing(FailureIndices(rs, n), n);
    }
  }

  /** One loop iteration after a run that did not crash. */
  lemma ReplayStep(start: Day, rs: seq<ChunkResult>, n: nat)
    requires n < |rs| && Replay(start, rs, n + 1).Finished?
    ensures Replay(start, rs, n).Finished?
    ensures var l, l' := Replay(start, rs, n).ledger, Replay(start, rs, n + 1).ledger;
      if HasRows(rs[n]) then
        && rs[n].Rows?
        && l'.allData == l.allData + [rs[n].rows]
        && l'.missing == l.missing
        && l'.firstDate == (if l.firstDate.None? then Some(ChunkFrom(start, n)) else l.firstDate)
        && l'.lastDate == Some(ChunkTo(start, n))
      else
        l' == l.(missing := l.missing + [(ChunkFrom(start, n), ChunkTo(start, n))])
  {
  }

  /**
   * After a run that did not crash, `all_data` holds the normalised records
   * of the chunks that returned data, in chunk order.
   */
  lemma {:induction false} CollectedRows(start: Day, rs: seq<ChunkResult>, n: nat)
    requires n <= |rs| && Replay(start, rs, n).Finished?
    ensures var l, ok := Replay(start, rs, n).ledger, SuccessIndices(rs, n);
      && |l.allData| == |ok|
      && forall i :: 0 <= i < |ok| ==> ok[i] < n && rs[ok[i]] == Rows(l.allData[i])
  {
    if n > 0 {
      ReplayStep(start, rs, n - 1);
      CollectedRows(start, rs, n - 1);
    }
  }

  /**
   * `first_date` is the start of the first chunk that returned data, never
   * overwritten later, and `last_date` the end of the latest one; both are
   * None exactly when no chunk returned data.
   */
  lemma {:induction false} NamingDates(start: Day, rs: seq<ChunkResult>, n: nat)
    requires n <= |rs| && Replay(start, rs, n).Finished?
    ensures var l, ok := Replay(start, rs, n).ledger, SuccessIndices(rs, n);
      && (l.firstDate.None? <==> ok == [])
      && (l.lastDate.None? <==> ok == [])
      && (ok != [] ==> l.firstDate == Some(ChunkFrom(start, ok[0])) && l.lastDate == Some(ChunkTo(start, ok[|ok| - 1])))
  {
    if n > 0 {
      ReplayStep(start, rs, n - 1);
      NamingDates(start, rs, n - 1);
    }
  }

  /** After a run that did not crash, `missing_dates` holds the (from, to) pairs of the empty chunks, in order. */
  lemma {:induction false} MissingRanges(start: Day, rs: seq<ChunkResult>, n: nat)
    requires n <= |rs| && Replay(start, rs, n).Finished?
    ensures var l, failed := Replay(start, rs, n).ledger, FailureIndices(rs, n);
      && |l.missing| == |failed|
      && forall i :: 0 <= i < |failed| ==> l.missing[i] == (ChunkFrom(start, failed[i]), ChunkTo(start, failed[i]))
  {
    if n > 0 {
      ReplayStep(start, rs, n - 1);
      MissingRanges(start, rs, n - 1);
      if HasRows(rs[n - 1]) {
        assert FailureIndices(rs, n) == FailureIndices(rs, n - 1);
      } else {
        assert FailureIndices(rs, n) == FailureIndices(rs, n - 1) + [n - 1];
      }
    }
  }

  /** A run finishes iff the split rejected none of its chunks. */
  lemma {:induction false} FinishedIffNoRejection(start: Day, rs: seq<ChunkResult>, n: nat)
    requires n <= |rs|
    ensures Replay(start, rs, n).Finished? <==> forall j :: 0 <= j < n ==> !rs[j].Rejected?
  {
    if n > 0 {
      FinishedIffNoRejection(start, rs, n - 1);
    }
  }

  /** A run stops early only at the first chunk whose records the split rejects. */
  lemma {:induction false} CrashMeaning(start: Day, rs: seq<ChunkResult>, n: nat)
    requires n <= |rs| && Replay(start, rs, n).Crashed?
    ensures var k := Replay(start, rs, n).chunk;
      && k < n && rs[k] == Rejected(Replay(start, rs, n).error)
      && forall j :: 0 <= j < k ==> !rs[j].Rejected?
  {
    if Replay(start, rs, n - 1).Crashed? {
      CrashMeaning(start, rs, n - 1);
    } else {
      FinishedIffNoRejection(start, rs, n - 1);
    }
  }

  // ---------------------------------------------------------------------------
  // What is written at the end (historical_data_fetch.py:98-111)
  // ---------------------------------------------------------------------------

  /** The HDF artifact: its name's parts and the concatenated rows. */
  datatype Artifact = Artifact(symbol: string, interval: string, firstDate: Day, lastDate: Day, rows: seq<Row>)

  /** What a run leaves behind: the artifact if any data came in, and the missing-range log if any chunk failed. */
  datatype Written = Written(artifact: Option<Artifact>, missingLog: Option<seq<(Day, Day)>>)

  function Concat(xs: seq<seq<Row>>): seq<Row> {
    if xs == [] then [] else xs[0] + Concat(xs[1..])
  }

  function Persist(l: Ledger): (w: Written)
    ensures w.artifact.Some? <==> |l.allData| > 0 && l.firstDate.Some? && l.lastDate.Some?
    ensures w.artifact.Some? ==> var a := w.artifact.value;
      && a.symbol == Symbol && a.interval == Interval && a.rows == Concat(l.allData)
      && Some(a.firstDate) == l.firstDate && Some(a.lastDate) == l.lastDate
    ensures w.missingLog.Some? <==> |l.missing| > 0
    ensures w.missingLog.Some? ==> w.missingLog.value == l.missing
  {
    var artifact :=
      if |l.allData| > 0 && l.firstDate.Some? && l.lastDate.Some?
      then Some(Artifact(Symbol, Interval, l.firstDate.value, l.lastDate.value, Concat(l.allData)))
      else None;
    Written(artifact, if |l.missing| > 0 then Some(l.missing) else None)
  }

  /**
   * After a full run the artifact is written iff some chunk returned data,
   * and is named after the first day of the first such chunk and the last
   * day of the last; the log is written iff some chunk came back empty.
   */
  lemma PersistMeaning(start: Day, rs: seq<ChunkResult>, n: nat)
    requires n <= |rs| && Replay(start, rs, n).Finished?
    ensures var w, ok := Persist(Replay(start, rs, n).ledger), SuccessIndices(rs, n);
      && (w.artifact.Some? <==> ok != [])
      && (w.artifact.Some? ==> w.artifact.value.firstDate == ChunkFrom(start, ok[0])
                               && w.artifact.value.lastDate == ChunkTo(start, ok[|ok| - 1]))
      && (w.missingLog.Some? <==> FailureIndices(rs, n) != [])
  {
    CollectedRows(start, rs, n);
    NamingDates(start, rs, n);
    MissingRanges(start, rs, n);
  }
}
