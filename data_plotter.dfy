/**
 * The plotting script's loader: `plot_data` reads the logged samples with
 * `csv.DictReader` and appends `float` of the `s1`, `s2`, `t1` and `t2`
 * fields of each row to four lists, in that order. A field that fails to
 * convert with `ValueError` or `KeyError` ends that row, leaving the lists
 * already appended to one longer; any other exception ends the read. The
 * reader's rows and Python's `float` parser are inputs.
 */
module DataPlotter {
  import opened Wrappers

  /** What `row[name]` gives for one column of a `csv.DictReader` row. */
  datatype Field =
      /** The field's text. */
    | Text(text: string)
      /** The row has fewer fields than the header: the reader fills in `None`. */
    | Short
      /** The header has no such column: `KeyError`. */
    | NoColumn

  datatype Row = Row(s1: Field, s2: Field, t1: Field, t2: Field)

  /** How `float(row[name])` ends. */
  datatype Conversion =
    | Value(v: real)
      /** `ValueError` or `KeyError`: the row's handler moves on to the next row. */
    | Skip
      /** Any other exception (`float(None)` raises `TypeError`): the read is abandoned. */
    | Abort

  /** `float(row[name])`, with `parse` standing for Python's `float` on text. */
  function Convert(parse: string -> Option<real>, f: Field): Conversion
  {
    match f
    case Text(t) => if parse(t).Some? then Value(parse(t).value) else Skip
    case NoColumn => Skip
    case Short => Abort
  }

  /** The four lists `s1_vals`, `s2_vals`, `t1_vals`, `t2_vals`. */
  datatype Columns = Columns(s1: seq<real>, s2: seq<real>, t1: seq<real>, t2: seq<real>)
  {
    /** Each list is at least as long as the one appended after it. */
    predicate Ordered()
    {
      |s1| >= |s2| >= |t1| >= |t2|
    }
  }

  const EMPTY: Columns := Columns([], [], [], [])

  datatype Load = Loaded(cols: Columns) | Failed

  /** The row's `try` block: four appends, cut short by a `Skip`, abandoned on an `Abort`. */
  function AddRow(parse: string -> Option<real>, cols: Columns, row: Row): Load
  {
    match Convert(parse, row.s1)
    case Abort => Failed
    case Skip => Loaded(cols)
    case Value(a) =>
      var c1 := cols.(s1 := cols.s1 + [a]);
      match Convert(parse, row.s2)
      case Abort => Failed
      case Skip => Loaded(c1)
      case Value(b) =>
        var c2 := c1.(s2 := c1.s2 + [b]);
        match Convert(parse, row.t1)
        case Abort => Failed
        case Skip => Loaded(c2)
        case Value(c) =>
          var c3 := c2.(t1 := c2.t1 + [c]);
          match Convert(parse, row.t2)
          case Abort => Failed
          case Skip => Loaded(c3)
          case Value(d) => Loaded(c3.(t2 := c3.t2 + [d]))
  }

  /** The lists after reading `rows` in file order. */
  function LoadRows(parse: string -> Option<real>, rows: seq<Row>): Load
    decreases |rows|
  {
    if rows == [] then Loaded(EMPTY)
    else match LoadRows(parse, rows[..|rows| - 1])
      case Failed => Failed
      case Loaded(cols) => AddRow(parse, cols, rows[|rows| - 1])
  }

  /** What `os.path.exists` and `open` find. */
  datatype CsvFile = Missing | Unreadable | Rows(rows: seq<Row>)

  /** How `plot_data` ends: the two scatter plots get the lists of `Plotted`. */
  datatype PlotOutcome = NotFound | ReadError | NoData | Plotted(cols: Columns)

  function PlotResult(parse: string -> Option<real>, file: CsvFile): PlotOutcome
  {
    match file
    case Missing => NotFound
    case Unreadable => ReadError
    case Rows(rows) =>
      match LoadRows(parse, rows)
      case Failed => ReadError
      case Loaded(cols) => if cols.s1 == [] then NoData else Plotted(cols)
  }

  /** A read that has been abandoned stays abandoned whatever rows follow. */
  lemma {:induction false} FailedStays(parse: string -> Option<real>, rows: seq<Row>, i: nat)
    requires i <= |rows| && LoadRows(parse, rows[..i]) == Failed
    ensures LoadRows(parse, rows) == Failed
    decreases |rows| - i
  {
    if i < |rows| {
      assert rows[..i + 1][..i] == rows[..i];
      FailedStays(parse, rows, i + 1);
    } else {
      assert rows[..i] == rows;
    }
  }

  /** A row whose `s1` is missing or not a number adds to none of the lists. */
  lemma BadFirstFieldAddsNothing(parse: string -> Option<real>, cols: Columns, row: Row)
    requires Convert(parse, row.s1).Skip?
    ensures AddRow(parse, cols, row) == Loaded(cols)
  {
  }

  /**
   * A row whose `t1` fails after `s1` and `s2` converted leaves `s1_vals` and
   * `s2_vals` one longer and the `t` lists as they were, so the lists no
   * longer pair up index by index.
   */
  lemma PartialRowAppendsPrefix(parse: string -> Option<real>, cols: Columns, row: Row)
    requires Convert(parse, row.s1).Value? && Convert(parse, row.s2).Value? && Convert(parse, row.t1).Skip?
    ensures AddRow(parse, cols, row)
            == Loaded(Columns(cols.s1 + [Convert(parse, row.s1).v], cols.s2 + [Convert(parse, row.s2).v], cols.t1, cols.t2))
  {
  }

  /** All four fields of the row convert. */
  predicate Numeric(parse: string -> Option<real>, row: Row)
  {
    Convert(parse, row.s1).Value? && Convert(parse, row.s2).Value? &&
    Convert(parse, row.t1).Value? && Convert(parse, row.t2).Value?
  }

  /** A fully numeric row appends one value to each list. */
  lemma NumericRowAppendsAll(parse: string -> Option<real>, cols: Columns, row: Row)
    requires Numeric(parse, row)
    ensures AddRow(parse, cols, row)
            == Loaded(Columns(cols.s1 + [Convert(parse, row.s1).v], cols.s2 + [Convert(parse, row.s2).v],
                              cols.t1 + [Convert(parse, row.t1).v], cols.t2 + [Convert(parse, row.t2).v]))
  {
  }

  /** A row grows each list by at most one value and keeps the lists ordered by length. */
  lemma AddRowOrdered(parse: string -> Option<real>, cols: Columns, row: Row)
    requires cols.Ordered()
    ensures AddRow(parse, cols, row).Loaded? ==>
              var next := AddRow(parse, cols, row).cols;
              next.Ordered() && |next.s1| <= |cols.s1| + 1 &&
              cols.s1 <= next.s1 && cols.s2 <= next.s2 && cols.t1 <= next.t1 && cols.t2 <= next.t2
  {
  }

  /**
   * After any rows, `len(s1_vals) >= len(s2_vals) >= len(t1_vals) >=
   * len(t2_vals)`, and there is at most one value per row.
   */
  lemma {:induction false} LoadRowsOrdered(parse: string -> Option<real>, rows: seq<Row>)
    ensures LoadRows(parse, rows).Loaded? ==>
              LoadRows(parse, rows).cols.Ordered() && |LoadRows(parse, rows).cols.s1| <= |rows|
    decreases |rows|
  {
    if rows != [] {
      var prefix := rows[..|rows| - 1];
      LoadRowsOrdered(parse, prefix);
      if LoadRows(parse, prefix).Loaded? {
        AddRowOrdered(parse, LoadRows(parse, prefix).cols, rows[|rows| - 1]);
      }
    }
  }

  /**
   * When every row is numeric, each list holds one value per row, in file
   * order, and index `k` of every list comes from row `k`.
   */
  lemma {:induction false} NumericRowsAligned(parse: string -> Option<real>, rows: seq<Row>)
    requires forall k :: 0 <= k < |rows| ==> Numeric(parse, rows[k])
    ensures LoadRows(parse, rows).Loaded?
    ensures var c := LoadRows(parse, rows).cols;
            |c.s1| == |c.s2| == |c.t1| == |c.t2| == |rows| &&
            forall k :: 0 <= k < |rows| ==>
              Numeric(parse, rows[k]) &&
              c.s1[k] == Convert(parse, rows[k].s1).v && c.s2[k] == Convert(parse, rows[k].s2).v &&
              c.t1[k] == Convert(parse, rows[k].t1).v && c.t2[k] == Convert(parse, rows[k].t2).v
    decreases |rows|
  {
    if rows != [] {
      var prefix := rows[..|rows| - 1];
      NumericRowsAligned(parse, prefix);
      NumericRowAppendsAll(parse, LoadRows(parse, prefix).cols, rows[|rows| - 1]);
    }
  }

  /** Plots are drawn only from an existing, fully read file that gave at least one `s1` value. */
  lemma PlottedOnlyWithData(parse: string -> Option<real>, file: CsvFile)
    ensures PlotResult(parse, file).Plotted? <==>
              file.Rows? && LoadRows(parse, file.rows).Loaded? && LoadRows(parse, file.rows).cols.s1 != []
    ensures file.Missing? ==> PlotResult(parse, file) == NotFound
    ensures file.Rows? && LoadRows(parse, file.rows).Loaded? && LoadRows(parse, file.rows).cols.s1 == [] ==>
              PlotResult(parse, file) == NoData
  {
  }

  /** `plot_data`. */
  method PlotData(parse: string -> Option<real>, file: CsvFile) returns (outcome: PlotOutcome)
    ensures outcome == PlotResult(parse, file)
  {
    if file.Missing? {
      return NotFound;
    }
    if file.Unreadable? {
      return ReadError;
    }
    var rows := file.rows;
    var s1Vals, s2Vals, t1Vals, t2Vals := [], [], [], [];
    for i := 0 to |rows|
      invariant LoadRows(parse, rows[..i]) == Loaded(Columns(s1Vals, s2Vals, t1Vals, t2Vals))
    {
      assert rows[..i + 1][..i] == rows[..i];
      var row := rows[i];
      var v := Convert(parse, row.s1);
      if v.Abort? {
        FailedStays(parse, rows, i + 1);
        return ReadError;
      }
      if v.Skip? {
        continue;
      }
      s1Vals := s1Vals + [v.v];
      v := Convert(parse, row.s2);
      if v.Abort? {
        FailedStays(parse, rows, i + 1);
        return ReadError;
      }
      if v.Skip? {
        continue;
      }
      s2Vals := s2Vals + [v.v];
      v := Convert(parse, row.t1);
      if v.Abort? {
        FailedStays(parse, rows, i + 1);
        return ReadError;
      }
      if v.Skip? {
        continue;
      }
      t1Vals := t1Vals + [v.v];
      v := Convert(parse, row.t2);
      if v.Abort? {
        FailedStays(parse, rows, i + 1);
        return ReadError;
      }
      if v.Skip? {
        continue;
      }
      t2Vals := t2Vals + [v.v];
    }
    assert rows[..|rows|] == rows;
    if s1Vals == [] {
      return NoData;
    }
    return Plotted(Columns(s1Vals, s2Vals, t1Vals, t2Vals));
  }
}
