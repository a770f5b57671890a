/**
 * Tabular data as the front ends see it through pandas: a `DataFrame` is an
 * ordered list of distinct column names and a list of rows. A row maps column
 * names to cells; a column a row has no entry for holds a missing value (NaN).
 * The row index is the row's position (`ignore_index=True` renumbers it).
 */
module Tables {

  datatype Cell = Num(n: int) | Text(s: string)

  type Row = map<string, Cell>

  datatype Table = Table(columns: seq<string>, rows: seq<Row>)

  predicate Distinct(s: seq<string>) {
    forall i, j :: 0 <= i < j < |s| ==> s[i] != s[j]
  }

  /** Column names are unique and every cell sits in a column of the table. */
  predicate WellFormed(t: Table) {
    && Distinct(t.columns)
    && forall i, c :: 0 <= i < |t.rows| && c in t.rows[i] ==> c in t.columns
  }

  type Frame = t: Table | WellFormed(t) witness Table([], [])

  /** `pd.DataFrame()`: no columns and no rows. */
  const EMPTY_FRAME: Frame := Table([], [])

  /** `df.empty`: pandas calls a frame empty when either axis has length zero. */
  predicate IsEmpty(t: Table) {
    |t.columns| == 0 || |t.rows| == 0
  }

  /** The two decoders the front ends dispatch to: `pd.read_excel` and `pd.read_csv`. */
  datatype Format = Xlsx | Csv

  /** What a decoder does with one upload: a frame, an `ImportError` because the
      spreadsheet engine is not installed, or any other failure to parse. */
  datatype ReadOutcome = Parsed(frame: Frame) | MissingEngine | Unreadable

  /** A decoder applied to the bytes of one upload. */
  type Reader = Format -> ReadOutcome

  /** Number of rows of all tables together. */
  function TotalRows(ts: seq<Table>): nat {
    if ts == [] then 0 else |ts[0].rows| + TotalRows(ts[1..])
  }

  lemma {:induction false} TotalRowsAppend(a: seq<Table>, b: seq<Table>)
    ensures TotalRows(a + b) == TotalRows(a) + TotalRows(b)
  {
    if a == [] {
      assert a + b == b;
    } else {
      assert (a + b)[1..] == a[1..] + b;
      TotalRowsAppend(a[1..], b);
    }
  }

  /** Replacing one table changes the total by the difference of their row counts. */
  lemma TotalRowsUpdate(ts: seq<Table>, k: nat, t: Table)
    requires k < |ts|
    ensures TotalRows(ts[k := t]) == TotalRows(ts) - |ts[k].rows| + |t.rows|
  {
    assert ts == ts[..k] + [ts[k]] + ts[k + 1..];
    assert ts[k := t] == ts[..k] + [t] + ts[k + 1..];
    TotalRowsAppend(ts[..k] + [ts[k]], ts[k + 1..]);
    TotalRowsAppend(ts[..k], [ts[k]]);
    TotalRowsAppend(ts[..k] + [t], ts[k + 1..]);
    TotalRowsAppend(ts[..k], [t]);
  }

  /** The column union pandas builds when it concatenates frames whose columns
      differ: the columns of `a`, then those of `b` not seen yet, in order. */
  function MergeColumns(a: seq<string>, b: seq<string>): (r: seq<string>)
    ensures Distinct(a) ==> Distinct(r)
    ensures forall c :: c in r <==> c in a || c in b
    ensures |a| <= |r| && r[..|a|] == a
    decreases |b|
  {
    if b == [] then a
    else
      var a' := if b[0] in a then a else a + [b[0]];
      assert forall c :: c in a' <==> c in a || c == b[0];
      assert a'[..|a|] == a;
      MergeColumns(a', b[1..])
  }

  /** Nothing is merged away when no column repeats. */
  lemma {:induction false} MergeColumnsDisjoint(a: seq<string>, b: seq<string>)
    requires Distinct(a + b)
    ensures MergeColumns(a, b) == a + b
    decreases |b|
  {
    if b != [] {
      assert b[0] !in a by {
        assert (a + b)[|a|] == b[0];
        forall i | 0 <= i < |a| ensures a[i] != b[0] {
          assert (a + b)[i] == a[i];
        }
      }
      assert a + b == (a + [b[0]]) + b[1..];
      MergeColumnsDisjoint(a + [b[0]], b[1..]);
    }
  }

  /**
   * `pd.concat(frames, ignore_index=True)`: the rows of all frames one after
   * the other, in the order given, under the union of their columns. (pandas
   * raises on an empty list; every caller in the front ends guards that case,
   * and here it gives the empty frame.)
   */
  function Concat(ts: seq<Frame>): (r: Frame)
    ensures |r.rows| == TotalRows(ts)
  {
    if ts == [] then EMPTY_FRAME
    else
      var init := Concat(ts[..|ts| - 1]);
      var last := ts[|ts| - 1];
      var t := Table(MergeColumns(init.columns, last.columns), init.rows + last.rows);
      assert WellFormed(t) by {
        forall i, c | 0 <= i < |t.rows| && c in t.rows[i] ensures c in t.columns {
          if i < |init.rows| {
            assert t.rows[i] == init.rows[i];
          } else {
            assert t.rows[i] == last.rows[i - |init.rows|];
          }
        }
      }
      assert ts == ts[..|ts| - 1] + [last];
      TotalRowsAppend(ts[..|ts| - 1], [last]);
      t
  }

  /** Row `j` of table `k` lands at position (rows of the tables before `k`) + `j`:
      concatenation keeps insertion order and loses no row. */
  lemma {:induction false} ConcatRowAt(ts: seq<Frame>, k: nat, j: nat)
    requires k < |ts| && j < |ts[k].rows|
    ensures TotalRows(ts[..k]) + j < |Concat(ts).rows|
    ensures Concat(ts).rows[TotalRows(ts[..k]) + j] == ts[k].rows[j]
    decreases |ts|
  {
    var init := ts[..|ts| - 1];
    if k == |ts| - 1 {
      assert ts[..k] == init;
    } else {
      assert init[..k] == ts[..k];
      assert init[k] == ts[k];
      ConcatRowAt(init, k, j);
    }
  }

  /** Where row `j` of table `k` lands in a concatenation: after the rows of the tables before `k`. */
  function Offset(ts: seq<Table>, k: nat, j: nat): nat
    requires k <= |ts|
  {
    TotalRows(ts[..k]) + j
  }

  /** `r` holds row `j` of table `k` at `Offset(ts, k, j)`. */
  predicate RowsInOrder(ts: seq<Frame>, r: Table) {
    forall k: nat, j: nat :: k < |ts| && j < |ts[k].rows| ==>
      Offset(ts, k, j) < |r.rows| && r.rows[Offset(ts, k, j)] == ts[k].rows[j]
  }

  /** The concatenation holds every row of every frame, frame after frame. */
  lemma ConcatRowsInOrder(ts: seq<Frame>)
    ensures RowsInOrder(ts, Concat(ts))
  {
    var r := Concat(ts);
    forall k: nat, j: nat | k < |ts| && j < |ts[k].rows|
      ensures Offset(ts, k, j) < |r.rows| && r.rows[Offset(ts, k, j)] == ts[k].rows[j]
    {
      ConcatRowAt(ts, k, j);
    }
  }

  /** The columns of a concatenation of several frames: those of all but the
      last merged with the last one's. */
  lemma ConcatColumnsStep(ts: seq<Frame>)
    requires ts != []
    ensures Concat(ts).columns == MergeColumns(Concat(ts[..|ts| - 1]).columns, ts[|ts| - 1].columns)
  {
  }

  /** Every column of every frame is a column of the concatenation. */
  lemma {:induction false} ConcatColumnsCover(ts: seq<Frame>)
    ensures forall k, c :: 0 <= k < |ts| && c in ts[k].columns ==> c in Concat(ts).columns
    decreases |ts|
  {
    if ts != [] {
      var init := ts[..|ts| - 1];
      ConcatColumnsCover(init);
      ConcatColumnsStep(ts);
      forall k, c | 0 <= k < |ts| && c in ts[k].columns ensures c in Concat(ts).columns {
        if k < |ts| - 1 {
          assert init[k] == ts[k];
        }
      }
    }
  }

  /** Every column of the concatenation is a column of some frame. */
  lemma {:induction false} ConcatColumnsFrom(ts: seq<Frame>)
    ensures forall c :: c in Concat(ts).columns ==> exists k :: 0 <= k < |ts| && c in ts[k].columns
    decreases |ts|
  {
    if ts != [] {
      var init := ts[..|ts| - 1];
      ConcatColumnsFrom(init);
      ConcatColumnsStep(ts);
      forall c | c in Concat(ts).columns ensures exists k :: 0 <= k < |ts| && c in ts[k].columns {
        if c in Concat(init).columns {
          var k :| 0 <= k < |init| && c in init[k].columns;
          assert ts[k] == init[k];
        } else {
          assert c in ts[|ts| - 1].columns;
        }
      }
    }
  }

  /** The first frame's columns come first, in their own order. */
  lemma {:induction false} ConcatColumnsPrefix(ts: seq<Frame>)
    requires ts != []
    ensures |ts[0].columns| <= |Concat(ts).columns| && Concat(ts).columns[..|ts[0].columns|] == ts[0].columns
    decreases |ts|
  {
    var init := ts[..|ts| - 1];
    ConcatColumnsStep(ts);
    if |ts| == 1 {
      assert init == [];
      assert [] + ts[0].columns == ts[0].columns;
      MergeColumnsDisjoint([], ts[0].columns);
    } else {
      ConcatColumnsPrefix(init);
      assert init[0] == ts[0];
      var p := Concat(init).columns;
      assert Concat(ts).columns[..|p|] == p;
      assert Concat(ts).columns[..|ts[0].columns|] == p[..|ts[0].columns|];
    }
  }

  /** Every column of every frame is a column of the concatenation and vice
      versa; the first frame's columns come first, in their own order. */
  lemma ConcatColumns(ts: seq<Frame>)
    ensures forall k, c :: 0 <= k < |ts| && c in ts[k].columns ==> c in Concat(ts).columns
    ensures forall c :: c in Concat(ts).columns ==> exists k :: 0 <= k < |ts| && c in ts[k].columns
    ensures ts != [] ==>
      |ts[0].columns| <= |Concat(ts).columns| && Concat(ts).columns[..|ts[0].columns|] == ts[0].columns
  {
    ConcatColumnsCover(ts);
    ConcatColumnsFrom(ts);
    if ts != [] {
      ConcatColumnsPrefix(ts);
    }
  }

  /** Concatenating a single frame gives that frame back. */
  lemma {:induction false} ConcatSingleton(t: Frame)
    ensures Concat([t]) == t
  {
    assert [t][..0] == [];
    assert [] + t.columns == t.columns;
    MergeColumnsDisjoint([], t.columns);
    assert [] + t.rows == t.rows;
    assert Concat([t]) == Table(MergeColumns([], t.columns), [] + t.rows);
  }

  /** Concatenating one more frame appends its rows. */
  lemma ConcatSnoc(ts: seq<Frame>, t: Frame)
    ensures Concat(ts + [t]).rows == Concat(ts).rows + t.rows
  {
    assert (ts + [t])[..|ts|] == ts;
  }
}
