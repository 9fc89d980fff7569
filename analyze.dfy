/**
 * The `analyze` program: from each score column's mean and sample standard deviation
 * over `n` complete rows, a two-sample z statistic for every ordered pair of columns,
 * the p-value `Φ(-|z|)` of each, a console flag for every pair of distinct non-Google
 * columns whose |z| exceeds 2, and the two tables written as CSV.
 *
 * Computing the means and deviations (a data-frame library) is not modelled: they are
 * given as a `Summary`. The square root and the standard normal CDF are parameters,
 * and so is the decimal form of a finite double.
 */
module Analyze {
  import opened Wrappers
  import opened Floats
  import opened Strings
  import opened Csv

  /** The score columns compared, in table order. */
  const Columns: seq<string> := [
    "google_us_score",
    "google_uk_score",
    "default_english_us_score",
    "default_english_uk_score",
    "american_english_us_score",
    "british_english_uk_score",
    "american_english_seo_us_score",
    "british_english_seo_uk_score"
  ]

  /** A column's mean and sample standard deviation. */
  datatype Moments = Moments(mean: real, std: real)

  type Summary = map<string, Moments>

  /** The column name that marks the baseline columns, left out of the console flags. */
  const Baseline: string := "google"

  /**
   * `z_score(col1, col2)`: the difference of the means, second minus first, over the
   * square root of the summed variances of the means.
   */
  function Z(summary: Summary, c1: string, c2: string, n: nat, sqrt: real -> real): Float
    requires c1 in summary && c2 in summary && n > 0
  {
    var a := summary[c1];
    var b := summary[c2];
    Div(b.mean - a.mean, sqrt(b.std * b.std / n as real + a.std * a.std / n as real))
  }

  /** Swapping the columns negates the statistic: the denominator is the same both ways. */
  lemma ZAntisymmetric(summary: Summary, c1: string, c2: string, n: nat, sqrt: real -> real)
    requires c1 in summary && c2 in summary && n > 0
    ensures Z(summary, c2, c1, n, sqrt) == Neg(Z(summary, c1, c2, n, sqrt))
  {
    var a := summary[c1];
    var b := summary[c2];
    var d := sqrt(b.std * b.std / n as real + a.std * a.std / n as real);
    assert a.std * a.std / n as real + b.std * b.std / n as real == b.std * b.std / n as real + a.std * a.std / n as real;
    DivNeg(b.mean - a.mean, d);
    assert a.mean - b.mean == -(b.mean - a.mean);
  }

  /** A column compared with itself gives zero, or NaN when the denominator is zero. */
  lemma ZDiagonal(summary: Summary, c: string, n: nat, sqrt: real -> real)
    requires c in summary && n > 0
    ensures var z := Z(summary, c, c, n, sqrt);
      z == Finite(0.0) || z.NaN?
    ensures var s := summary[c];
      Z(summary, c, c, n, sqrt).NaN? <==> sqrt(s.std * s.std / n as real + s.std * s.std / n as real) == 0.0
  {
  }

  /** `p_value_from_z_score`: the normal CDF at `-|z|`. */
  function PValue(z: Float, cdf: Float -> Float): Float
  {
    cdf(Neg(Abs(z)))
  }

  /** The p-value depends on `|z|` only. */
  lemma PValueEven(z: Float, cdf: Float -> Float)
    ensures PValue(Neg(z), cdf) == PValue(z, cdf)
    ensures PValue(Abs(z), cdf) == PValue(z, cdf)
  {
    AbsNeg(z);
    assert Abs(Abs(z)) == Abs(z);
  }

  /** Both columns of a pair compare the same way in either order. */
  lemma PValueSymmetric(summary: Summary, c1: string, c2: string, n: nat, sqrt: real -> real, cdf: Float -> Float)
    requires c1 in summary && c2 in summary && n > 0
    ensures PValue(Z(summary, c1, c2, n, sqrt), cdf) == PValue(Z(summary, c2, c1, n, sqrt), cdf)
  {
    ZAntisymmetric(summary, c1, c2, n, sqrt);
    PValueEven(Z(summary, c1, c2, n, sqrt), cdf);
  }

  // ---------------------------------------------------------------- matrices

  /** The z statistic of every ordered pair of `names`, row `i` holding the pairs starting at `names[i]`. */
  function ZMatrix(summary: Summary, names: seq<string>, n: nat, sqrt: real -> real): (m: seq<seq<Float>>)
    requires forall c :: c in names ==> c in summary
    requires n > 0
    ensures |m| == |names|
    ensures forall i :: 0 <= i < |names| ==> |m[i]| == |names|
    ensures forall i, j :: 0 <= i < |names| && 0 <= j < |names| ==> m[i][j] == Z(summary, names[i], names[j], n, sqrt)
  {
    seq(|names|, i requires 0 <= i < |names| =>
      seq(|names|, j requires 0 <= j < |names| => Z(summary, names[i], names[j], n, sqrt)))
  }

  /** The p-value of every ordered pair of `names`. */
  function PMatrix(summary: Summary, names: seq<string>, n: nat, sqrt: real -> real, cdf: Float -> Float)
    : (m: seq<seq<Float>>)
    requires forall c :: c in names ==> c in summary
    requires n > 0
    ensures |m| == |names|
    ensures forall i :: 0 <= i < |names| ==> |m[i]| == |names|
    ensures forall i, j :: 0 <= i < |names| && 0 <= j < |names| ==>
      m[i][j] == PValue(ZMatrix(summary, names, n, sqrt)[i][j], cdf)
  {
    seq(|names|, i requires 0 <= i < |names| =>
      seq(|names|, j requires 0 <= j < |names| => PValue(Z(summary, names[i], names[j], n, sqrt), cdf)))
  }

  /** The z matrix is antisymmetric, its diagonal zero or NaN. */
  lemma ZMatrixAntisymmetric(summary: Summary, names: seq<string>, n: nat, sqrt: real -> real)
    requires forall c :: c in names ==> c in summary
    requires n > 0
    ensures var m := ZMatrix(summary, names, n, sqrt);
      forall i, j :: 0 <= i < |names| && 0 <= j < |names| ==> m[j][i] == Neg(m[i][j])
    ensures var m := ZMatrix(summary, names, n, sqrt);
      forall i :: 0 <= i < |names| ==> m[i][i] == Finite(0.0) || m[i][i].NaN?
  {
    var m := ZMatrix(summary, names, n, sqrt);
    forall i, j | 0 <= i < |names| && 0 <= j < |names| ensures m[j][i] == Neg(m[i][j]) {
      ZAntisymmetric(summary, names[i], names[j], n, sqrt);
    }
    forall i | 0 <= i < |names| ensures m[i][i] == Finite(0.0) || m[i][i].NaN? {
      ZDiagonal(summary, names[i], n, sqrt);
    }
  }

  /** The p matrix is symmetric. */
  lemma PMatrixSymmetric(summary: Summary, names: seq<string>, n: nat, sqrt: real -> real, cdf: Float -> Float)
    requires forall c :: c in names ==> c in summary
    requires n > 0
    ensures var m := PMatrix(summary, names, n, sqrt, cdf);
      forall i, j :: 0 <= i < |names| && 0 <= j < |names| ==> m[i][j] == m[j][i]
  {
    var m := PMatrix(summary, names, n, sqrt, cdf);
    forall i, j | 0 <= i < |names| && 0 <= j < |names| ensures m[i][j] == m[j][i] {
      PValueSymmetric(summary, names[i], names[j], n, sqrt, cdf);
    }
  }

  // ---------------------------------------------------------------- console flags

  /** The pair is printed: distinct columns, neither a baseline, and `|z| > 2`. */
  predicate Flagged(summary: Summary, c1: string, c2: string, n: nat, sqrt: real -> real)
    requires c1 in summary && c2 in summary && n > 0
  {
    && c1 != c2
    && !Contains(c1, Baseline)
    && !Contains(c2, Baseline)
    && Exceeds(Abs(Z(summary, c1, c2, n, sqrt)), 2.0)
  }

  /** A printed line: the two columns and the statistic. */
  datatype Flag = Flag(c1: string, c2: string, z: Float)

  /** The lines printed while `col2` runs over `cols` with `col1` fixed. */
  function RowFlags(summary: Summary, c1: string, cols: seq<string>, n: nat, sqrt: real -> real): (r: seq<Flag>)
    requires c1 in summary && n > 0
    requires forall c :: c in cols ==> c in summary
  {
    if cols == [] then []
    else
      var c2 := cols[|cols| - 1];
      RowFlags(summary, c1, cols[..|cols| - 1], n, sqrt)
        + (if Flagged(summary, c1, c2, n, sqrt) then [Flag(c1, c2, Z(summary, c1, c2, n, sqrt))] else [])
  }

  /** The lines printed while `col1` runs over `rows` and `col2` over `cols`. */
  function Flags(summary: Summary, rows: seq<string>, cols: seq<string>, n: nat, sqrt: real -> real): (r: seq<Flag>)
    requires n > 0
    requires forall c :: c in rows ==> c in summary
    requires forall c :: c in cols ==> c in summary
  {
    if rows == [] then []
    else Flags(summary, rows[..|rows| - 1], cols, n, sqrt) + RowFlags(summary, rows[|rows| - 1], cols, n, sqrt)
  }

  /** Every line of a row is a flagged pair starting at that row's column, with its statistic. */
  lemma {:induction false} RowFlagsSound(summary: Summary, c1: string, cols: seq<string>, n: nat, sqrt: real -> real,
                                         f: Flag)
    requires c1 in summary && n > 0
    requires forall c :: c in cols ==> c in summary
    requires f in RowFlags(summary, c1, cols, n, sqrt)
    ensures f.c1 == c1 && f.c2 in cols
    ensures Flagged(summary, f.c1, f.c2, n, sqrt) && f.z == Z(summary, f.c1, f.c2, n, sqrt)
  {
    var init := cols[..|cols| - 1];
    if f in RowFlags(summary, c1, init, n, sqrt) {
      RowFlagsSound(summary, c1, init, n, sqrt, f);
      assert f.c2 in init;
    }
  }

  /** Every flagged pair starting at the row's column appears among the row's lines. */
  lemma {:induction false} RowFlagsComplete(summary: Summary, c1: string, cols: seq<string>, n: nat,
                                            sqrt: real -> real, c2: string)
    requires c1 in summary && n > 0
    requires forall c :: c in cols ==> c in summary
    requires c2 in cols && Flagged(summary, c1, c2, n, sqrt)
    ensures Flag(c1, c2, Z(summary, c1, c2, n, sqrt)) in RowFlags(summary, c1, cols, n, sqrt)
  {
    var init := cols[..|cols| - 1];
    if c2 != cols[|cols| - 1] {
      assert c2 in init by {
        var k :| 0 <= k < |cols| && cols[k] == c2;
        assert init[k] == c2;
      }
      RowFlagsComplete(summary, c1, init, n, sqrt, c2);
    }
  }

  /** Soundness: every printed line is a flagged pair of the two lists, with its statistic. */
  lemma {:induction false} FlagsSound(summary: Summary, rows: seq<string>, cols: seq<string>, n: nat,
                                      sqrt: real -> real, f: Flag)
    requires n > 0
    requires forall c :: c in rows ==> c in summary
    requires forall c :: c in cols ==> c in summary
    requires f in Flags(summary, rows, cols, n, sqrt)
    ensures f.c1 in rows && f.c2 in cols
    ensures Flagged(summary, f.c1, f.c2, n, sqrt) && f.z == Z(summary, f.c1, f.c2, n, sqrt)
  {
    var init := rows[..|rows| - 1];
    if f in Flags(summary, init, cols, n, sqrt) {
      FlagsSound(summary, init, cols, n, sqrt, f);
      assert f.c1 in init;
    } else {
      RowFlagsSound(summary, rows[|rows| - 1], cols, n, sqrt, f);
    }
  }

  /** Completeness: every flagged pair of the two lists is printed. */
  lemma {:induction false} FlagsComplete(summary: Summary, rows: seq<string>, cols: seq<string>, n: nat,
                                         sqrt: real -> real, c1: string, c2: string)
    requires n > 0
    requires forall c :: c in rows ==> c in summary
    requires forall c :: c in cols ==> c in summary
    requires c1 in rows && c2 in cols && Flagged(summary, c1, c2, n, sqrt)
    ensures Flag(c1, c2, Z(summary, c1, c2, n, sqrt)) in Flags(summary, rows, cols, n, sqrt)
  {
    var init := rows[..|rows| - 1];
    if c1 == rows[|rows| - 1] {
      RowFlagsComplete(summary, c1, cols, n, sqrt, c2);
    } else {
      assert c1 in init by {
        var k :| 0 <= k < |rows| && rows[k] == c1;
        assert init[k] == c1;
      }
      FlagsComplete(summary, init, cols, n, sqrt, c1, c2);
    }
  }

  /** The two Google columns are never printed. */
  lemma GoogleNeverFlagged(summary: Summary, n: nat, sqrt: real -> real, f: Flag)
    requires n > 0
    requires forall c :: c in Columns ==> c in summary
    requires f in Flags(summary, Columns, Columns, n, sqrt)
    ensures f.c1 != Columns[0] && f.c1 != Columns[1]
    ensures f.c2 != Columns[0] && f.c2 != Columns[1]
  {
    FlagsSound(summary, Columns, Columns, n, sqrt, f);
    assert OccursAt(Columns[0], Baseline, 0);
    assert OccursAt(Columns[1], Baseline, 0);
  }

  /** The nested loop of `main`: every ordered pair in turn, printing the flagged ones. */
  method FlagPairs(summary: Summary, names: seq<string>, n: nat, sqrt: real -> real) returns (flags: seq<Flag>)
    requires n > 0
    requires forall c :: c in names ==> c in summary
    ensures flags == Flags(summary, names, names, n, sqrt)
  {
    flags := [];
    for i := 0 to |names|
      invariant flags == Flags(summary, names[..i], names, n, sqrt)
    {
      var c1 := names[i];
      assert names[..i + 1][..i] == names[..i];
      ghost var before := flags;
      for j := 0 to |names|
        invariant flags == before + RowFlags(summary, c1, names[..j], n, sqrt)
      {
        var c2 := names[j];
        assert names[..j + 1][..j] == names[..j];
        if c1 == c2 {
          continue;
        }
        if Contains(c1, Baseline) || Contains(c2, Baseline) {
          continue;
        }
        var z := Z(summary, c1, c2, n, sqrt);
        if Exceeds(Abs(z), 2.0) {
          flags := flags + [Flag(c1, c2, z)];
        }
      }
      assert names[..|names|] == names;
    }
    assert names[..|names|] == names;
  }

  // ---------------------------------------------------------------- tables

  /** `format!("{cell}")` of each cell of a row. */
  function Cells(row: seq<Float>, show: real -> string): (r: seq<string>)
    ensures |r| == |row|
    ensures forall k :: 0 <= k < |row| ==> r[k] == Display(row[k], show)
  {
    if row == [] then [] else Cells(row[..|row| - 1], show) + [Display(row[|row| - 1], show)]
  }

  /** The records after the header: each row's name, then its cells. */
  function TableRows(data: seq<seq<Float>>, names: seq<string>, show: real -> string): (r: seq<seq<string>>)
    requires |data| <= |names|
    ensures |r| == |data|
    ensures forall i :: 0 <= i < |data| ==> r[i] == [names[i]] + Cells(data[i], show)
  {
    if data == [] then [] else TableRows(data[..|data| - 1], names, show) + [[names[|data| - 1]] + Cells(data[|data| - 1], show)]
  }

  /** The file `write_table` produces: a blank corner and the column names, then the rows. */
  function Table(data: seq<seq<Float>>, names: seq<string>, show: real -> string): (r: seq<seq<string>>)
    requires |data| <= |names|
    ensures |r| == |data| + 1
    ensures r[0] == [""] + names
    ensures r[1..] == TableRows(data, names, show)
  {
    [[""] + names] + TableRows(data, names, show)
  }

  /** In a square table every record has one field more than there are columns. */
  lemma TableWidth(data: seq<seq<Float>>, names: seq<string>, show: real -> string)
    requires |data| == |names|
    requires forall i :: 0 <= i < |data| ==> |data[i]| == |names|
    ensures forall k :: 0 <= k < |Table(data, names, show)| ==> |Table(data, names, show)[k]| == |names| + 1
  {
    var t := Table(data, names, show);
    var rows := TableRows(data, names, show);
    forall k | 0 <= k < |t| ensures |t[k]| == |names| + 1 {
      if k > 0 {
        assert t[k] == rows[k - 1];
      }
    }
  }

  /** Record `i + 1` starts with the name of column `i` and holds row `i`'s cells after it. */
  lemma TableRecord(data: seq<seq<Float>>, names: seq<string>, show: real -> string, i: nat)
    requires |data| <= |names| && i < |data|
    ensures Table(data, names, show)[i + 1][0] == names[i]
    ensures Table(data, names, show)[i + 1][1..] == Cells(data[i], show)
  {
    var t := Table(data, names, show);
    assert t[i + 1] == TableRows(data, names, show)[i];
  }

  /** Writes each cell of `row`, in order. */
  method WriteCells(w: Writer, row: seq<Float>, show: real -> string)
    modifies w
    ensures w.records == old(w.records)
    ensures w.current == old(w.current) + Cells(row, show)
  {
    for j := 0 to |row|
      invariant w.records == old(w.records)
      invariant w.current == old(w.current) + Cells(row[..j], show)
    {
      assert row[..j + 1][..j] == row[..j];
      w.WriteField(Display(row[j], show));
    }
    assert row[..|row|] == row;
  }

  /** One more data row adds its record to the end. */
  lemma TableRowsStep(data: seq<seq<Float>>, names: seq<string>, show: real -> string, i: nat)
    requires i < |data| <= |names|
    ensures TableRows(data[..i + 1], names, show) == TableRows(data[..i], names, show) + [[names[i]] + Cells(data[i], show)]
  {
    var prefix := data[..i + 1];
    assert prefix[..i] == data[..i];
    assert prefix[i] == data[i];
  }

  /** The header record of `write_table`: a blank corner cell, then the column names. */
  method WriteTableHeader(w: Writer, names: seq<string>)
    requires w.current == []
    modifies w
    ensures w.records == old(w.records) + [[""] + names]
    ensures w.current == []
  {
    w.WriteField("");
    assert w.current == [""];
    w.WriteFields(names);
    w.EndRecord();
  }

  /** One data record of `write_table`: the row's column name, then its cells. */
  method WriteTableRow(w: Writer, name: string, row: seq<Float>, show: real -> string)
    requires w.current == []
    modifies w
    ensures w.records == old(w.records) + [[name] + Cells(row, show)]
    ensures w.current == []
  {
    w.WriteField(name);
    assert w.current == [name];
    WriteCells(w, row, show);
    w.EndRecord();
  }

  /** `write_table`: the header record, then for each data row its column name and its cells. */
  method WriteTable(data: seq<seq<Float>>, names: seq<string>, show: real -> string) returns (w: Writer)
    requires |data| <= |names|
    ensures w.records == Table(data, names, show) && w.current == []
  {
    w := new Writer();
    WriteTableHeader(w, names);
    assert data[..0] == [];
    for i := 0 to |data|
      invariant w.records == [[""] + names] + TableRows(data[..i], names, show)
      invariant w.current == []
    {
      WriteTableRow(w, names[i], data[i], show);
      TableRowsStep(data, names, show, i);
    }
    assert data[..|data|] == data;
  }

  /**
   * `main` after the summary: the flags over `Columns`, then the z table and the p
   * table, each an 8 by 8 matrix with its names.
   */
  method Analyze(summary: Summary, n: nat, sqrt: real -> real, cdf: Float -> Float, show: real -> string)
    returns (flags: seq<Flag>, zTable: Writer, pTable: Writer)
    requires n > 0
    requires forall c :: c in Columns ==> c in summary
    ensures flags == Flags(summary, Columns, Columns, n, sqrt)
    ensures zTable.records == Table(ZMatrix(summary, Columns, n, sqrt), Columns, show)
    ensures pTable.records == Table(PMatrix(summary, Columns, n, sqrt, cdf), Columns, show)
    ensures |zTable.records| == 9 && |pTable.records| == 9
  {
    flags := FlagPairs(summary, Columns, n, sqrt);
    zTable := WriteTable(ZMatrix(summary, Columns, n, sqrt), Columns, show);
    pTable := WriteTable(PMatrix(summary, Columns, n, sqrt, cdf), Columns, show);
  }
}
