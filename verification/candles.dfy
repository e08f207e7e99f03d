/**
 * Candle normalisation shared by the backfill script and the one-shot export
 * script: the provider's combined timestamp is split at 'T' (pandas
 * `str.split('T', expand=True)` assigned to the two columns Date and Time),
 * then the Time text is matched with `re.search` against
 * `([^+]+)(\+\d{2}:\d{2})?` (pandas `str.extract`), and the columns
 * Date, Time, Timezone, Open, High, Low, Close are kept.
 */
module Candles {
  import opened Common

  /** One provider record: `[DateTime, Open, High, Low, Close, Volume]`. */
  datatype RawCandle = RawCandle(dateTime: string, open: real, high: real, low: real, close: real, volume: real)

  /** One normalised row. `time` and `timezone` are `None` where pandas leaves NaN. */
  datatype Row = Row(date: string, time: Option<string>, timezone: Option<string>,
                     open: real, high: real, low: real, close: real)

  /** The parts of one timestamp: Date, Time, Timezone. */
  datatype Stamp = Stamp(date: string, time: Option<string>, timezone: Option<string>)

  /** Raised by the column assignment when the split does not give exactly two columns. */
  datatype NormError = ColumnCountMismatch(width: nat)

  /** Column names the provider's records are read under. */
  const RawColumns: seq<string> := ["DateTime", "Open", "High", "Low", "Close", "Volume"]

  /** Column names (and order) of a normalised frame. */
  const NormalizedColumns: seq<string> := ["Date", "Time", "Timezone", "Open", "High", "Low", "Close"]

  // ---------------------------------------------------------------------------
  // Python's str.split(sep) and its inverse, sep.join(parts)
  // ---------------------------------------------------------------------------

  /** Position of the first occurrence of `c` in `s`. */
  function IndexOf(s: string, c: char): (i: nat)
    requires c in s
    ensures i < |s| && s[i] == c && c !in s[..i]
  {
    if s[0] == c then 0 else 1 + IndexOf(s[1..], c)
  }

  /** `s.split(sep)`: the maximal pieces of `s` between occurrences of `sep`. */
  function Split(s: string, sep: char): (parts: seq<string>)
    ensures |parts| >= 1
    ensures forall k :: 0 <= k < |parts| ==> sep !in parts[k]
    decreases |s|
  {
    if sep !in s then [s]
    else
      var i := IndexOf(s, sep);
      [s[..i]] + Split(s[i + 1..], sep)
  }

  /** `sep.join(parts)`. */
  function Join(parts: seq<string>, sep: char): string
    requires |parts| >= 1
  {
    if |parts| == 1 then parts[0] else parts[0] + [sep] + Join(parts[1..], sep)
  }

  /** If `a` has no `c`, the first `c` of `a + [c] + b` is the one after `a`. */
  lemma IndexOfAfterPrefix(a: string, c: char, b: string)
    requires c !in a
    ensures c in a + [c] + b && IndexOf(a + [c] + b, c) == |a|
  {
    var s := a + [c] + b;
    assert s[|a|] == c;
    assert s[..|a|] == a;
    IndexOfAt(s, c, |a|);
  }

  /** The first occurrence of `c` is the position that holds `c` with none before it. */
  lemma {:induction false} IndexOfAt(s: string, c: char, i: nat)
    requires i < |s| && s[i] == c && c !in s[..i]
    ensures IndexOf(s, c) == i
  {
    if i > 0 {
      assert s[0] == s[..i][0];
      assert s[1..][..i - 1] == s[..i][1..];
      IndexOfAt(s[1..], c, i - 1);
    }
  }

  /** Splitting and re-joining gives back the string. */
  lemma {:induction false} JoinSplit(s: string, sep: char)
    ensures Join(Split(s, sep), sep) == s
    decreases |s|
  {
    if sep in s {
      var i := IndexOf(s, sep);
      JoinSplit(s[i + 1..], sep);
      assert s == s[..i] + [sep] + s[i + 1..];
    }
  }

  /** Joining pieces free of `sep` and splitting again gives back the pieces. */
  lemma {:induction false} SplitJoin(parts: seq<string>, sep: char)
    requires |parts| >= 1
    requires forall k :: 0 <= k < |parts| ==> sep !in parts[k]
    ensures Split(Join(parts, sep), sep) == parts
  {
    if |parts| > 1 {
      var rest := Join(parts[1..], sep);
      IndexOfAfterPrefix(parts[0], sep, rest);
      var s := parts[0] + [sep] + rest;
      assert s[..|parts[0]|] == parts[0];
      assert s[|parts[0]| + 1..] == rest;
      SplitJoin(parts[1..], sep);
    }
  }

  // ---------------------------------------------------------------------------
  // re.search(r'([^+]+)(\+\d{2}:\d{2})?', t)
  // ---------------------------------------------------------------------------

  predicate IsDigit(c: char) {
    '0' <= c <= '9'
  }

  /** `s` starts with the text `\+\d{2}:\d{2}` matches. */
  predicate StartsWithOffset(s: string) {
    |s| >= 6 && s[0] == '+' && IsDigit(s[1]) && IsDigit(s[2]) && s[3] == ':' && IsDigit(s[4]) && IsDigit(s[5])
  }

  /** A `+HH:MM` offset, the only form the pattern's second group accepts. */
  predicate IsOffset(z: string) {
    |z| == 6 && StartsWithOffset(z)
  }

  /** Where the search can first start: the first character that is not '+', or |s|. */
  function SkipPlus(s: string, i: nat): (j: nat)
    requires i <= |s|
    ensures i <= j <= |s|
    ensures forall k :: i <= k < j ==> s[k] == '+'
    ensures j < |s| ==> s[j] != '+'
    decreases |s| - i
  {
    if i == |s| || s[i] != '+' then i else SkipPlus(s, i + 1)
  }

  /** Where the greedy `[^+]+` stops: the first '+' at or after `i`, or |s|. */
  function RunEnd(s: string, i: nat): (j: nat)
    requires i <= |s|
    ensures i <= j <= |s|
    ensures forall k :: i <= k < j ==> s[k] != '+'
    ensures j < |s| ==> s[j] == '+'
    decreases |s| - i
  {
    if i == |s| || s[i] == '+' then i else RunEnd(s, i + 1)
  }

  /**
   * The two groups of the leftmost match in `t`: the first maximal run of
   * non-'+' characters, and the `+HH:MM` directly after it if there is one.
   * Text after the match is dropped; no match at all gives two NaNs.
   */
  function ExtractTime(t: string): (g: (Option<string>, Option<string>))
    ensures g.0.None? <==> forall k :: 0 <= k < |t| ==> t[k] == '+'
    ensures g.0.Some? ==> |g.0.value| > 0 && '+' !in g.0.value
    ensures g.1.Some? ==> g.0.Some? && IsOffset(g.1.value)
  {
    var i := SkipPlus(t, 0);
    if i == |t| then (None, None)
    else
      var j := RunEnd(t, i);
      assert t[i..j][0] == t[i];
      (Some(t[i..j]), if StartsWithOffset(t[j..]) then Some(t[j..j + 6]) else None)
  }

  // ---------------------------------------------------------------------------
  // Per-record and per-batch normalisation
  // ---------------------------------------------------------------------------

  /** Number of columns `str.split('T', expand=True)` produces for the batch. */
  function SplitWidth(rs: seq<RawCandle>): (w: nat)
    ensures forall k :: 0 <= k < |rs| ==> |Split(rs[k].dateTime, 'T')| <= w
    ensures |rs| > 0 ==> exists k :: 0 <= k < |rs| && |Split(rs[k].dateTime, 'T')| == w
  {
    if rs == [] then 0
    else
      var here := |Split(rs[0].dateTime, 'T')|;
      var rest := SplitWidth(rs[1..]);
      assert forall k :: 1 <= k < |rs| ==> rs[k] == rs[1..][k - 1];
      if here >= rest then here else rest
  }

  /**
   * Date, Time and Timezone of one timestamp, in a batch whose split is two
   * columns wide: a timestamp without 'T' keeps all its text in Date.
   */
  function SplitStamp(s: string): (st: Stamp)
    requires |Split(s, 'T')| <= 2
    ensures st.timezone.Some? ==> st.time.Some? && IsOffset(st.timezone.value)
    ensures st.time.Some? ==> '+' !in st.time.value && 'T' !in st.time.value
    ensures 'T' !in st.date
  {
    var parts := Split(s, 'T');
    if |parts| == 1 then Stamp(parts[0], None, None)
    else
      var g := ExtractTime(parts[1]);
      assert g.0.Some? ==> forall k :: 0 <= k < |g.0.value| ==> g.0.value[k] in parts[1];
      Stamp(parts[0], g.0, g.1)
  }

  /** Re-joins the three parts in the provider's layout. */
  function Rejoin(st: Stamp): string {
    st.date + "T" + st.time.GetOr("") + st.timezone.GetOr("")
  }

  /** One provider record as a normalised row; DateTime and Volume are dropped. */
  function NormalizeRecord(r: RawCandle): (row: Row)
    requires |Split(r.dateTime, 'T')| <= 2
    ensures row.open == r.open && row.high == r.high && row.low == r.low && row.close == r.close
    ensures Stamp(row.date, row.time, row.timezone) == SplitStamp(r.dateTime)
  {
    var st := SplitStamp(r.dateTime);
    Row(st.date, st.time, st.timezone, r.open, r.high, r.low, r.close)
  }

  /**
   * The frame rewrite at historical_data_fetch.py:86-89 and main.py:70-79:
   * it raises unless the 'T' split is exactly two columns wide, and otherwise
   * maps every record to its row, in order.
   */
  function NormalizeBatch(rs: seq<RawCandle>): (res: Result<seq<Row>, NormError>)
    requires |rs| > 0
    ensures res.Ok? <==> (forall k :: 0 <= k < |rs| ==> |Split(rs[k].dateTime, 'T')| <= 2)
                         && (exists k :: 0 <= k < |rs| && |Split(rs[k].dateTime, 'T')| == 2)
    ensures res.Ok? ==> |res.value| == |rs|
    ensures res.Ok? ==> forall k :: 0 <= k < |rs| ==> res.value[k] == NormalizeRecord(rs[k])
  {
    var w := SplitWidth(rs);
    if w != 2 then Err(ColumnCountMismatch(w))
    else Ok(seq(|rs|, k requires 0 <= k < |rs| => NormalizeRecord(rs[k])))
  }

  // ---------------------------------------------------------------------------
  // Round trip
  // ---------------------------------------------------------------------------

  /** The greedy run starting at `i` ends at the position `j` the characterisation names. */
  lemma {:induction false} RunEndAt(s: string, i: nat, j: nat)
    requires i <= j <= |s|
    requires forall k :: i <= k < j ==> s[k] != '+'
    requires j < |s| ==> s[j] == '+'
    ensures RunEnd(s, i) == j
    decreases j - i
  {
    if i < j {
      RunEndAt(s, i + 1, j);
    }
  }

  /** `t + z` for a Time without '+' followed by an optional offset is matched as (t, z). */
  lemma ExtractTimeOffset(t: string, z: string)
    requires t != [] && '+' !in t
    requires z == [] || IsOffset(z)
    ensures ExtractTime(t + z) == (Some(t), if z == [] then None else Some(z))
  {
    var s := t + z;
    assert s[0] == t[0];
    assert forall k :: 0 <= k < |t| ==> s[k] == t[k];
    assert |t| < |s| ==> s[|t|] == z[0];
    RunEndAt(s, 0, |t|);
    assert SkipPlus(s, 0) == 0;
    assert s[|t|..] == z;
    assert s[0..|t|] == t;
    if z != [] {
      assert s[|t|..|t| + 6] == z;
    }
  }

  /**
   * For `D + "T" + t + z` with no 'T' in D, a non-empty Time t free of 'T'
   * and '+', and z either empty or `+HH:MM`, the split yields (D, t, z) and
   * re-joining the parts gives back the timestamp.
   */
  lemma StampRoundTrip(d: string, t: string, z: string)
    requires 'T' !in d && 'T' !in t && '+' !in t && t != []
    requires z == [] || IsOffset(z)
    ensures |Split(d + "T" + t + z, 'T')| == 2
    ensures SplitStamp(d + "T" + t + z) == Stamp(d, Some(t), if z == [] then None else Some(z))
    ensures Rejoin(SplitStamp(d + "T" + t + z)) == d + "T" + t + z
  {
    var s := d + "T" + t + z;
    assert 'T' !in t + z by {
      forall k | 0 <= k < |t + z| ensures (t + z)[k] != 'T' {
        if k < |t| { assert (t + z)[k] == t[k]; } else { assert (t + z)[k] == z[k - |t|]; }
      }
    }
    assert s == d + ['T'] + (t + z);
    SplitJoin([d, t + z], 'T');
    assert Join([d, t + z], 'T') == s;
    ExtractTimeOffset(t, z);
  }

  /** An example timestamp splits into its three parts. */
  lemma ExampleStamp()
    ensures |Split("2025-01-05T09:15:00+05:30", 'T')| == 2
    ensures SplitStamp("2025-01-05T09:15:00+05:30") == Stamp("2025-01-05", Some("09:15:00"), Some("+05:30"))
    ensures Rejoin(SplitStamp("2025-01-05T09:15:00+05:30")) == "2025-01-05T09:15:00+05:30"
  {
    var d, t, z := "2025-01-05", "09:15:00", "+05:30";
    assert d + "T" + t + z == "2025-01-05T09:15:00+05:30";
    assert forall k :: 0 <= k < |d| ==> d[k] != 'T';
    assert forall k :: 0 <= k < |t| ==> t[k] != 'T' && t[k] != '+';
    assert IsOffset(z);
    StampRoundTrip(d, t, z);
  }

  /** An RFC 3339 `Z` suffix is not recognised as a zone: it stays inside Time. */
  lemma UtcSuffixStaysInTime()
    ensures |Split("2025-01-05T03:45:00Z", 'T')| == 2
    ensures SplitStamp("2025-01-05T03:45:00Z") == Stamp("2025-01-05", Some("03:45:00Z"), None)
  {
    var d, t := "2025-01-05", "03:45:00Z";
    assert d + "T" + t + "" == "2025-01-05T03:45:00Z";
    assert forall k :: 0 <= k < |d| ==> d[k] != 'T';
    assert forall k :: 0 <= k < |t| ==> t[k] != 'T' && t[k] != '+';
    StampRoundTrip(d, t, "");
  }

  /** An RFC 3339 negative offset is not recognised as a zone: it stays inside Time. */
  lemma NegativeOffsetStaysInTime()
    ensures |Split("2025-01-05T09:15:00-04:00", 'T')| == 2
    ensures SplitStamp("2025-01-05T09:15:00-04:00") == Stamp("2025-01-05", Some("09:15:00-04:00"), None)
  {
    var d, t := "2025-01-05", "09:15:00-04:00";
    assert d + "T" + t + "" == "2025-01-05T09:15:00-04:00";
    assert forall k :: 0 <= k < |d| ==> d[k] != 'T';
    assert forall k :: 0 <= k < |t| ==> t[k] != 'T' && t[k] != '+';
    StampRoundTrip(d, t, "");
  }
}
