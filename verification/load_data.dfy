/**
 * `load_data` of backtest.py (119-146): a table read from CSV is given
 * lowercase OHLC names, a volume column (the source's Volume, or zeros when
 * the file has none) and is cut down to open, high, low, close, volume.
 *
 * A table is modelled column by column, as pandas stores it.
 */
module LoadData {
  import opened Common

  /** One table cell: a number, a text, or a missing value. */
  datatype Cell = Num(n: real) | Text(s: string) | Missing

  /** Named columns of equal height. */
  datatype Frame = Frame(names: seq<string>, columns: seq<seq<Cell>>, height: nat)

  /**
   * A label lookup that fails raises KeyError for the labels it could not
   * find; joining a column that does not hold text to a string raises TypeError.
   */
  datatype LoadError = KeyError(labels: set<string>) | TypeError(column: string)

  /** The columns the backtesting library reads, in order. */
  const FeedColumns: seq<string> := ["open", "high", "low", "close", "volume"]

  /** The file's capitalised names and the lowercase names they are renamed to. */
  const SourceNames: seq<string> := ["Open", "High", "Low", "Close", "Volume"]

  predicate Distinct(names: seq<string>) {
    forall i, j :: 0 <= i < j < |names| ==> names[i] != names[j]
  }

  predicate Valid(f: Frame) {
    |f.names| == |f.columns| && Distinct(f.names)
    && forall i :: 0 <= i < |f.columns| ==> |f.columns[i]| == f.height
  }

  /** Position of a column label. */
  function IndexOfName(names: seq<string>, n: string): (i: nat)
    requires n in names
    ensures i < |names| && names[i] == n
  {
    if names[0] == n then 0 else 1 + IndexOfName(names[1..], n)
  }

  lemma {:induction false} IndexOfNameAt(names: seq<string>, i: nat)
    requires Distinct(names) && i < |names|
    ensures IndexOfName(names, names[i]) == i
  {
    if i > 0 {
      IndexOfNameAt(names[1..], i - 1);
    }
  }

  /** `df[n]`. */
  function Col(f: Frame, n: string): (c: seq<Cell>)
    requires Valid(f) && n in f.names
    ensures |c| == f.height
  {
    f.columns[IndexOfName(f.names, n)]
  }

  /** A column holding `v` in every row. */
  function Constant(height: nat, v: Cell): (c: seq<Cell>)
    ensures |c| == height && forall k :: 0 <= k < height ==> c[k] == v
  {
    seq(height, _ => v)
  }

  /** The label `n` carries after `rename(columns=ren)`. */
  function Label(n: string, ren: map<string, string>): string {
    if n in ren then ren[n] else n
  }

  function Relabel(names: seq<string>, ren: map<string, string>): (r: seq<string>)
    ensures |r| == |names| && forall i :: 0 <= i < |names| ==> r[i] == Label(names[i], ren)
  {
    seq(|names|, i requires 0 <= i < |names| => Label(names[i], ren))
  }

  /** `df.rename(columns=ren)`: every label is renamed at once; the data stay in place. */
  function Rename(f: Frame, ren: map<string, string>): (g: Frame)
    requires Valid(f) && Distinct(Relabel(f.names, ren))
    ensures Valid(g) && g.height == f.height && |g.names| == |f.names|
    ensures forall i :: 0 <= i < |f.names| ==> g.names[i] == Label(f.names[i], ren) && g.columns[i] == f.columns[i]
  {
    Frame(Relabel(f.names, ren), f.columns, f.height)
  }

  /** A renamed column keeps its cells under its new label. */
  lemma RenameKeeps(f: Frame, ren: map<string, string>, n: string)
    requires Valid(f) && Distinct(Relabel(f.names, ren)) && n in f.names
    ensures Label(n, ren) in Rename(f, ren).names
    ensures Col(Rename(f, ren), Label(n, ren)) == Col(f, n)
  {
    var i := IndexOfName(f.names, n);
    var g := Rename(f, ren);
    assert g.names[i] == Label(n, ren);
    IndexOfNameAt(g.names, i);
  }

  /** Every label after renaming is the new label of some label before. */
  lemma RenameOrigin(f: Frame, ren: map<string, string>, m: string) returns (n: string)
    requires Valid(f) && Distinct(Relabel(f.names, ren)) && m in Rename(f, ren).names
    ensures n in f.names && Label(n, ren) == m
  {
    var i := IndexOfName(Rename(f, ren).names, m);
    n := f.names[i];
  }

  /** `df[n] = v`: overwrites the column `n` if there is one, appends it otherwise. */
  function Assign(f: Frame, n: string, v: Cell): (g: Frame)
    requires Valid(f)
    ensures Valid(g) && g.height == f.height
    ensures forall m :: m in g.names <==> m in f.names || m == n
    ensures Col(g, n) == Constant(f.height, v)
    ensures forall m :: m in f.names && m != n ==> Col(g, m) == Col(f, m)
  {
    AssignFacts(f, n, v);
    if n in f.names then Frame(f.names, f.columns[IndexOfName(f.names, n) := Constant(f.height, v)], f.height)
    else Frame(f.names + [n], f.columns + [Constant(f.height, v)], f.height)
  }

  lemma AssignFacts(f: Frame, n: string, v: Cell)
    requires Valid(f)
    ensures var g := if n in f.names then Frame(f.names, f.columns[IndexOfName(f.names, n) := Constant(f.height, v)], f.height)
                     else Frame(f.names + [n], f.columns + [Constant(f.height, v)], f.height);
      && Valid(g)
      && (forall m :: m in g.names <==> m in f.names || m == n)
      && Col(g, n) == Constant(f.height, v)
      && (forall m :: m in f.names && m != n ==> Col(g, m) == Col(f, m))
  {
    if n in f.names {
      var i := IndexOfName(f.names, n);
      var g := Frame(f.names, f.columns[i := Constant(f.height, v)], f.height);
      IndexOfNameAt(f.names, i);
      forall m | m in f.names && m != n ensures Col(g, m) == Col(f, m) {
        IndexOfNameAt(f.names, IndexOfName(f.names, m));
      }
    } else {
      var g := Frame(f.names + [n], f.columns + [Constant(f.height, v)], f.height);
      IndexOfNameAt(g.names, |f.names|);
      forall m | m in f.names && m != n ensures Col(g, m) == Col(f, m) {
        var i := IndexOfName(f.names, m);
        IndexOfNameAt(g.names, i);
      }
    }
  }

  /** `df[ns]`: the listed columns in the listed order, or KeyError for the missing labels. */
  function Select(f: Frame, ns: seq<string>): (r: Result<Frame, LoadError>)
    requires Valid(f) && Distinct(ns)
    ensures r.Ok? <==> forall n :: n in ns ==> n in f.names
    ensures r.Err? ==> r.error == KeyError(set n | n in ns && n !in f.names)
    ensures r.Ok? ==> Valid(r.value) && r.value.names == ns && r.value.height == f.height
    ensures r.Ok? ==> forall i :: 0 <= i < |ns| ==> r.value.columns[i] == Col(f, ns[i])
  {
    if forall n :: n in ns ==> n in f.names then
      Ok(Frame(ns, seq(|ns|, i requires 0 <= i < |ns| => Col(f, ns[i])), f.height))
    else
      Err(KeyError(set n | n in ns && n !in f.names))
  }

  /** No capitalised source name sits beside its own lowercase target in the file. */
  predicate NoCaseClash(f: Frame) {
    && !("Open" in f.names && "open" in f.names)
    && !("High" in f.names && "high" in f.names)
    && !("Low" in f.names && "low" in f.names)
    && !("Close" in f.names && "close" in f.names)
    && !("Volume" in f.names && "volume" in f.names)
  }

  /** The renaming of backtest.py:132-137. */
  const OhlcRenames: map<string, string> := map["Open" := "open", "High" := "high", "Low" := "low", "Close" := "close"]

  /** The file has the column in one case or the other. */
  predicate Has(f: Frame, upper: string, lower: string) {
    upper in f.names || lower in f.names
  }

  /** The file's cells for a feed column: the capitalised column if there is one, else the lowercase one. */
  function Feed(f: Frame, upper: string, lower: string): seq<Cell>
    requires Valid(f) && Has(f, upper, lower)
  {
    if upper in f.names then Col(f, upper) else Col(f, lower)
  }

  /** The file's volume: its Volume column, or 0 in every row when it has none. */
  function VolumeOf(f: Frame): seq<Cell>
    requires Valid(f)
  {
    if "Volume" in f.names then Col(f, "Volume") else Constant(f.height, Num(0.0))
  }

  lemma OhlcRenamesDistinct(f: Frame)
    requires Valid(f) && NoCaseClash(f)
    ensures Distinct(Relabel(f.names, OhlcRenames))
  {
    var r := Relabel(f.names, OhlcRenames);
    forall i, j | 0 <= i < j < |r| ensures r[i] != r[j] {
      assert f.names[i] != f.names[j];
    }
  }

  /** The renaming sends a label to `lower` only from `lower` itself or from its capitalised key. */
  lemma OhlcLabelPreimage(n: string, upper: string, lower: string)
    requires upper in OhlcRenames && OhlcRenames[upper] == lower && Label(n, OhlcRenames) == lower
    ensures n == upper || n == lower
  {
  }

  /** What the OHLC renaming does to the label pair (`upper`, `lower`). */
  lemma {:induction false} LowercasedColumn(f: Frame, upper: string, lower: string)
    requires Valid(f) && NoCaseClash(f) && Distinct(Relabel(f.names, OhlcRenames))
    requires upper in OhlcRenames && OhlcRenames[upper] == lower
    ensures lower in Rename(f, OhlcRenames).names <==> upper in f.names || lower in f.names
    ensures upper in f.names ==> Col(Rename(f, OhlcRenames), lower) == Col(f, upper)
    ensures upper !in f.names && lower in f.names ==> Col(Rename(f, OhlcRenames), lower) == Col(f, lower)
  {
    var g := Rename(f, OhlcRenames);
    if upper in f.names {
      RenameKeeps(f, OhlcRenames, upper);
    } else if lower in f.names {
      assert lower !in OhlcRenames;
      RenameKeeps(f, OhlcRenames, lower);
    } else if lower in g.names {
      var n := RenameOrigin(f, OhlcRenames, lower);
      OhlcLabelPreimage(n, upper, lower);
    }
  }

  /** The OHLC renaming leaves the label `v` (Volume or volume) alone. */
  lemma {:induction false} LowercasedKeeps(f: Frame, v: string)
    requires Valid(f) && Distinct(Relabel(f.names, OhlcRenames))
    requires v !in OhlcRenames && v !in OhlcRenames.Values
    ensures v in Rename(f, OhlcRenames).names <==> v in f.names
    ensures v in f.names ==> Col(Rename(f, OhlcRenames), v) == Col(f, v)
  {
    var g := Rename(f, OhlcRenames);
    if v in f.names {
      RenameKeeps(f, OhlcRenames, v);
    } else if v in g.names {
      var n := RenameOrigin(f, OhlcRenames, v);
    }
  }

  /**
   * Whether `c + " "` goes through. pandas adds a text column cell by cell,
   * passing missing cells through, and raises TypeError on a number; a
   * column with rows but no text at all is stored as numbers (missing cells
   * being NaN), and adding a string to it raises as well.
   */
  predicate Joinable(c: seq<Cell>) {
    (forall k :: 0 <= k < |c| ==> !c[k].Num?) && (|c| == 0 || exists k :: 0 <= k < |c| && c[k].Text?)
  }

  /**
   * Whether `(date + " ") + time` goes through once the left side is a text
   * column. When the element-wise add fails, pandas retries it on the rows
   * where both sides are present only, so missing cells on either side (a
   * Time column of missing cells included) give a missing result, and
   * TypeError remains exactly when a row has a date and a number for its time.
   */
  predicate JoinsOnto(date: seq<Cell>, time: seq<Cell>) {
    forall k :: 0 <= k < |time| && k < |date| ==> !(date[k].Text? && time[k].Num?)
  }

  /**
   * `load_data` on the table read from the file. Joining Date, " " and Time
   * into the index raises KeyError when Date or Time is missing, TypeError
   * when Date does not hold text, and TypeError when some row has a date and
   * a number for its time; Date is looked up and joined before Time.
   * Renaming then needs each of Open, High, Low, Close in either case. The
   * result has exactly the columns open, high, low, close, volume, in that
   * order, the first four taken from the file's column of that name and
   * volume from the file's Volume column or, when there is none, 0 in every row.
   */
  function Load(f: Frame): (r: Result<Frame, LoadError>)
    requires Valid(f) && NoCaseClash(f)
    ensures r.Ok? <==> "Date" in f.names && "Time" in f.names
                       && Joinable(Col(f, "Date")) && JoinsOnto(Col(f, "Date"), Col(f, "Time"))
                       && Has(f, "Open", "open") && Has(f, "High", "high")
                       && Has(f, "Low", "low") && Has(f, "Close", "close")
    ensures "Date" !in f.names ==> r == Err(KeyError({"Date"}))
    ensures "Date" in f.names && !Joinable(Col(f, "Date")) ==> r == Err(TypeError("Date"))
    ensures "Date" in f.names && Joinable(Col(f, "Date")) && "Time" !in f.names ==> r == Err(KeyError({"Time"}))
    ensures "Date" in f.names && Joinable(Col(f, "Date")) && "Time" in f.names
            && !JoinsOnto(Col(f, "Date"), Col(f, "Time"))
            ==> r == Err(TypeError("Time"))
    ensures r.Ok? ==> Valid(r.value) && r.value.names == FeedColumns && r.value.height == f.height
    ensures r.Ok? ==> r.value.columns == [Feed(f, "Open", "open"), Feed(f, "High", "high"), Feed(f, "Low", "low"),
                                          Feed(f, "Close", "close"), VolumeOf(f)]
  {
    if "Date" !in f.names then Err(KeyError({"Date"}))
    else if !Joinable(Col(f, "Date")) then Err(TypeError("Date"))
    else if "Time" !in f.names then Err(KeyError({"Time"}))
    else if !JoinsOnto(Col(f, "Date"), Col(f, "Time")) then Err(TypeError("Time"))
    else
      OhlcRenamesDistinct(f);
      LowercasedKeeps(f, "Volume");
      LowercasedKeeps(f, "volume");
      var f5 := WithVolume(Rename(f, OhlcRenames));
      PreparedColumns(f, f5);
      SelectFeed(f5);
      Select(f5, FeedColumns)
  }

  /** Selecting the five feed columns, spelt out label by label. */
  lemma SelectFeed(g: Frame)
    requires Valid(g)
    ensures Distinct(FeedColumns)
    ensures Select(g, FeedColumns).Ok? <==>
              "open" in g.names && "high" in g.names && "low" in g.names && "close" in g.names && "volume" in g.names
    ensures Select(g, FeedColumns).Ok? ==>
              Select(g, FeedColumns).value.columns == [Col(g, "open"), Col(g, "high"), Col(g, "low"), Col(g, "close"), Col(g, "volume")]
  {
    FeedColumnsDistinct();
    var r := Select(g, FeedColumns);
    if "open" in g.names && "high" in g.names && "low" in g.names && "close" in g.names && "volume" in g.names {
      forall n | n in FeedColumns ensures n in g.names {
        var i :| 0 <= i < 5 && FeedColumns[i] == n;
      }
    }
    if r.Ok? {
      assert r.value.columns[0] == Col(g, "open") && r.value.columns[1] == Col(g, "high");
      assert r.value.columns[2] == Col(g, "low") && r.value.columns[3] == Col(g, "close");
      assert r.value.columns[4] == Col(g, "volume");
    }
  }

  /** The five feed labels differ already in their first letters. */
  lemma FeedColumnsDistinct()
    ensures Distinct(FeedColumns)
  {
    forall i, j | 0 <= i < j < |FeedColumns| ensures FeedColumns[i] != FeedColumns[j] {
      assert FeedColumns[i][0] != FeedColumns[j][0];
    }
  }

  /** The table just before the final selection holds each feed column with the file's cells. */
  lemma PreparedColumns(f: Frame, f5: Frame)
    requires Valid(f) && NoCaseClash(f) && Distinct(Relabel(f.names, OhlcRenames))
    requires !("Volume" in Rename(f, OhlcRenames).names && "volume" in Rename(f, OhlcRenames).names)
    requires f5 == WithVolume(Rename(f, OhlcRenames))
    ensures ("open" in f5.names && "high" in f5.names && "low" in f5.names && "close" in f5.names) <==>
              Has(f, "Open", "open") && Has(f, "High", "high") && Has(f, "Low", "low") && Has(f, "Close", "close")
    ensures "open" in f5.names ==> Has(f, "Open", "open") && Col(f5, "open") == Feed(f, "Open", "open")
    ensures "high" in f5.names ==> Has(f, "High", "high") && Col(f5, "high") == Feed(f, "High", "high")
    ensures "low" in f5.names ==> Has(f, "Low", "low") && Col(f5, "low") == Feed(f, "Low", "low")
    ensures "close" in f5.names ==> Has(f, "Close", "close") && Col(f5, "close") == Feed(f, "Close", "close")
    ensures Col(f5, "volume") == VolumeOf(f)
  {
    LowercasedKeeps(f, "Volume");
    PreparedColumn(f, f5, "Open", "open");
    PreparedColumn(f, f5, "High", "high");
    PreparedColumn(f, f5, "Low", "low");
    PreparedColumn(f, f5, "Close", "close");
  }

  /** One price column of the table just before the final selection. */
  lemma PreparedColumn(f: Frame, f5: Frame, upper: string, lower: string)
    requires Valid(f) && NoCaseClash(f) && Distinct(Relabel(f.names, OhlcRenames))
    requires !("Volume" in Rename(f, OhlcRenames).names && "volume" in Rename(f, OhlcRenames).names)
    requires f5 == WithVolume(Rename(f, OhlcRenames))
    requires upper in OhlcRenames && OhlcRenames[upper] == lower
    ensures lower in f5.names <==> Has(f, upper, lower)
    ensures lower in f5.names ==> Col(f5, lower) == Feed(f, upper, lower)
  {
    LowercasedColumn(f, upper, lower);
    assert lower != "Volume" && lower != "volume";
  }

  /** backtest.py:140-143: a zero volume column when Volume is absent, else Volume renamed. */
  function WithVolume(f: Frame): (g: Frame)
    requires Valid(f) && !("Volume" in f.names && "volume" in f.names)
    ensures Valid(g) && g.height == f.height && "volume" in g.names
    ensures forall m :: m in f.names && m != "Volume" && m != "volume" ==> m in g.names && Col(g, m) == Col(f, m)
    ensures forall m :: m in g.names && m != "volume" ==> m in f.names
    ensures Col(g, "volume") == if "Volume" in f.names then Col(f, "Volume") else Constant(f.height, Num(0.0))
  {
    if "Volume" !in f.names then Assign(f, "volume", Num(0.0))
    else
      var ren := map["Volume" := "volume"];
      var r := Relabel(f.names, ren);
      assert Distinct(r) by {
        forall i, j | 0 <= i < j < |r| ensures r[i] != r[j] {
          assert f.names[i] != f.names[j];
        }
      }
      RenameKeeps(f, ren, "Volume");
      forall m | m in f.names && m != "Volume" && m != "volume" ensures m in Rename(f, ren).names && Col(Rename(f, ren), m) == Col(f, m) {
        RenameKeeps(f, ren, m);
      }
      forall m | m in Rename(f, ren).names && m != "volume" ensures m in f.names {
        var n := RenameOrigin(f, ren, m);
      }
      Rename(f, ren)
  }
}
