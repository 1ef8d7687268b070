/**
 * The month helpers of the dashboard (streamlit_app/utils/data.py): a small
 * data-frame model, ensure_month_fields, and sort_month with its _key. A
 * frame is a list of column names and a list of rows, each row a map from
 * column name to cell.
 */
module Frames {
  import opened Wrappers

  /** A cell: a missing value (NaN), a string, or an integer. */
  datatype Cell = Missing | Str(s: string) | Int(n: int)

  type Row = map<string, Cell>

  datatype Frame = Frame(columns: seq<string>, rows: seq<Row>)

  const MONTH_ID_NORM: string := "month_id_norm"
  const MONTH_LABEL: string := "month_label"
  const SORT_KEY: string := "_sort_key"
  const UNKNOWN: string := "Unknown"

  predicate DistinctColumns(cols: seq<string>) {
    forall i, j :: 0 <= i < j < |cols| ==> cols[i] != cols[j]
  }

  /** Distinct column names, and every row has a cell for exactly those columns. */
  predicate WellFormed(f: Frame) {
    DistinctColumns(f.columns) && forall i :: 0 <= i < |f.rows| ==> f.rows[i].Keys == set c | c in f.columns
  }

  /** df.empty: no rows or no columns. */
  predicate IsEmpty(f: Frame) {
    |f.rows| == 0 || |f.columns| == 0
  }

  function DigitChar(d: int): char
    requires 0 <= d < 10
  {
    "0123456789"[d]
  }

  function NatToString(n: nat): string
    decreases n
  {
    if n < 10 then [DigitChar(n)] else NatToString(n / 10) + [DigitChar(n % 10)]
  }

  /** str(cell), as astype(str) renders it: NaN becomes "nan". */
  function AsStr(c: Cell): string {
    match c
    case Missing => "nan"
    case Str(s) => s
    case Int(n) => if n < 0 then "-" + NatToString(-n) else NatToString(n)
  }

  function Get(row: Row, col: string): Cell {
    if col in row then row[col] else Missing
  }

  /** df[col] as a list of cells. */
  function Column(f: Frame, col: string): (r: seq<Cell>)
    ensures |r| == |f.rows|
  {
    seq(|f.rows|, i requires 0 <= i < |f.rows| => Get(f.rows[i], col))
  }

  /** df[name] = values: overwrite the column in place, or append it at the end. */
  function SetColumn(f: Frame, name: string, values: seq<Cell>): (r: Frame)
    requires |values| == |f.rows|
  {
    Frame(if name in f.columns then f.columns else f.columns + [name],
          seq(|f.rows|, i requires 0 <= i < |f.rows| => f.rows[i][name := values[i]]))
  }

  function Constant(v: Cell, n: nat): (r: seq<Cell>)
    ensures |r| == n
  {
    seq(n, _ => v)
  }

  /** series.astype(str): every cell becomes text, a missing one the text "nan". */
  function AsStrColumn(cells: seq<Cell>): (r: seq<Cell>)
    ensures |r| == |cells|
    ensures forall i :: 0 <= i < |r| ==> r[i].Str?
    ensures forall i :: 0 <= i < |r| && cells[i].Missing? ==> r[i] == Str("nan")
    ensures forall i :: 0 <= i < |r| && cells[i].Str? ==> r[i] == cells[i]
  {
    seq(|cells|, i requires 0 <= i < |cells| => Str(AsStr(cells[i])))
  }

  /** series.fillna(fill): missing cells take the fill value. */
  function FillNa(cells: seq<Cell>, fill: seq<Cell>): (r: seq<Cell>)
    requires |fill| == |cells|
    ensures |r| == |cells|
    ensures forall i :: 0 <= i < |r| && cells[i].Missing? ==> r[i] == fill[i]
    ensures forall i :: 0 <= i < |r| && !cells[i].Missing? ==> r[i] == cells[i]
    ensures (forall i :: 0 <= i < |fill| ==> !fill[i].Missing?) ==> forall i :: 0 <= i < |r| ==> !r[i].Missing?
  {
    seq(|cells|, i requires 0 <= i < |cells| => if cells[i].Missing? then fill[i] else cells[i])
  }

  /** cols plus month_id_norm and then month_label, each appended only if missing. */
  function WithMonthColumns(cols: seq<string>): seq<string> {
    var c := if MONTH_ID_NORM in cols then cols else cols + [MONTH_ID_NORM];
    if MONTH_LABEL in c then c else c + [MONTH_LABEL]
  }

  /**
   * ensure_month_fields, parameterised by where missing values are filled:
   * after the conversion to text (as written) or before it (fillBeforeText).
   */
  function EnsureMonthFieldsWith(df: Option<Frame>, monthCol: string, fillBeforeText: bool): Frame {
    match df
    case None => Frame(WithMonthColumns([]), [])
    case Some(f) =>
      if IsEmpty(f) then Frame(WithMonthColumns(f.columns), [])
      else if monthCol !in f.columns then
        var n := |f.rows|;
        SetColumn(SetColumn(f, MONTH_ID_NORM, Constant(Str(UNKNOWN), n)), MONTH_LABEL, Constant(Str(UNKNOWN), n))
      else
        var n := |f.rows|;
        var month := Column(f, monthCol);
        var norm := if fillBeforeText then AsStrColumn(FillNa(month, Constant(Str(UNKNOWN), n)))
                    else FillNa(AsStrColumn(month), Constant(Str(UNKNOWN), n));
        var out := SetColumn(f, MONTH_ID_NORM, norm);
        if MONTH_LABEL !in out.columns then SetColumn(out, MONTH_LABEL, Column(out, MONTH_ID_NORM))
        else
          var labelCells := Column(out, MONTH_LABEL);
          var labels := if fillBeforeText then AsStrColumn(FillNa(labelCells, Column(out, MONTH_ID_NORM)))
                        else FillNa(AsStrColumn(labelCells), Column(out, MONTH_ID_NORM));
          SetColumn(out, MONTH_LABEL, labels)
  }

  /** ensure_month_fields as written: astype(str) runs before fillna, so a missing month becomes "nan". */
  function EnsureMonthFields(df: Option<Frame>, monthCol: string): Frame {
    EnsureMonthFieldsWith(df, monthCol, false)
  }

  /** ensure_month_fields as evidently intended: a missing month becomes "Unknown", a missing label the month. */
  function EnsureMonthFieldsFilled(df: Option<Frame>, monthCol: string): Frame {
    EnsureMonthFieldsWith(df, monthCol, true)
  }

  lemma SetColumnFacts(f: Frame, name: string, values: seq<Cell>)
    requires |values| == |f.rows| && WellFormed(f)
    ensures WellFormed(SetColumn(f, name, values))
    ensures |SetColumn(f, name, values).rows| == |f.rows|
    ensures forall i :: 0 <= i < |f.rows| ==> Get(SetColumn(f, name, values).rows[i], name) == values[i]
    ensures forall i, c :: 0 <= i < |f.rows| && c != name ==>
      Get(SetColumn(f, name, values).rows[i], c) == Get(f.rows[i], c)
  {
    var r := SetColumn(f, name, values);
    forall i | 0 <= i < |r.rows| ensures r.rows[i].Keys == set c | c in r.columns {
      assert r.rows[i] == f.rows[i][name := values[i]];
    }
  }

  /**
   * The columns: the input's, in order, then month_id_norm and month_label
   * each appended only if missing; well-formedness is kept.
   */
  lemma EnsureMonthFieldsColumns(df: Option<Frame>, monthCol: string, fillBeforeText: bool)
    requires df.Some? ==> WellFormed(df.value)
    ensures EnsureMonthFieldsWith(df, monthCol, fillBeforeText).columns ==
      WithMonthColumns(if df.Some? then df.value.columns else [])
    ensures WellFormed(EnsureMonthFieldsWith(df, monthCol, fillBeforeText))
  {
    if df.Some? && !IsEmpty(df.value) {
      var f := df.value;
      var n := |f.rows|;
      if monthCol !in f.columns {
        SetColumnFacts(f, MONTH_ID_NORM, Constant(Str(UNKNOWN), n));
        var g := SetColumn(f, MONTH_ID_NORM, Constant(Str(UNKNOWN), n));
        SetColumnFacts(g, MONTH_LABEL, Constant(Str(UNKNOWN), n));
      } else {
        var month := Column(f, monthCol);
        var norm := if fillBeforeText then AsStrColumn(FillNa(month, Constant(Str(UNKNOWN), n)))
                    else FillNa(AsStrColumn(month), Constant(Str(UNKNOWN), n));
        SetColumnFacts(f, MONTH_ID_NORM, norm);
        var out := SetColumn(f, MONTH_ID_NORM, norm);
        if MONTH_LABEL !in out.columns {
          SetColumnFacts(out, MONTH_LABEL, Column(out, MONTH_ID_NORM));
        } else {
          var labelCells := Column(out, MONTH_LABEL);
          var labels := if fillBeforeText then AsStrColumn(FillNa(labelCells, Column(out, MONTH_ID_NORM)))
                        else FillNa(AsStrColumn(labelCells), Column(out, MONTH_ID_NORM));
          SetColumnFacts(out, MONTH_LABEL, labels);
        }
      }
    } else if df.Some? {
      assert WithMonthColumns(df.value.columns) == WithMonthColumns(df.value.columns);
      DistinctWithMonthColumns(df.value.columns);
    } else {
      DistinctWithMonthColumns([]);
    }
  }

  lemma DistinctWithMonthColumns(cols: seq<string>)
    requires DistinctColumns(cols)
    ensures DistinctColumns(WithMonthColumns(cols))
  {
  }

  /**
   * The cells: an empty or missing frame gives no rows; otherwise the rows are
   * kept, other columns untouched; without month_col both fields are
   * "Unknown"; with it, month_id_norm is str(month) and month_label is
   * str(label) or, when there is no label column, month_id_norm.
   */
  lemma EnsureMonthFieldsCells(df: Option<Frame>, monthCol: string)
    ensures df.None? || IsEmpty(df.value) ==> EnsureMonthFields(df, monthCol).rows == []
    ensures df.Some? && !IsEmpty(df.value) ==>
      var f := df.value;
      var r := EnsureMonthFields(df, monthCol);
      && |r.rows| == |f.rows|
      && (forall i, c :: 0 <= i < |f.rows| && c != MONTH_ID_NORM && c != MONTH_LABEL ==>
            Get(r.rows[i], c) == Get(f.rows[i], c))
      && (monthCol !in f.columns ==> forall i :: 0 <= i < |f.rows| ==>
            Get(r.rows[i], MONTH_ID_NORM) == Str(UNKNOWN) && Get(r.rows[i], MONTH_LABEL) == Str(UNKNOWN))
      && (monthCol in f.columns ==> forall i :: 0 <= i < |f.rows| ==>
            && Get(r.rows[i], MONTH_ID_NORM) == Str(AsStr(Get(f.rows[i], monthCol)))
            && Get(r.rows[i], MONTH_LABEL) ==
                 if MONTH_LABEL in f.columns then Str(AsStr(Get(f.rows[i], MONTH_LABEL)))
                 else Str(AsStr(Get(f.rows[i], monthCol))))
  {
  }

  /** With fillBeforeText a missing month becomes "Unknown" and a missing label falls back to month_id_norm. */
  lemma EnsureMonthFieldsFilledCells(f: Frame, monthCol: string, i: int)
    requires !IsEmpty(f) && monthCol in f.columns && 0 <= i < |f.rows|
    ensures var r := EnsureMonthFieldsFilled(Some(f), monthCol);
      && |r.rows| == |f.rows|
      && Get(r.rows[i], MONTH_ID_NORM) ==
           (if Get(f.rows[i], monthCol).Missing? then Str(UNKNOWN) else Str(AsStr(Get(f.rows[i], monthCol))))
      && (MONTH_LABEL in f.columns && Get(f.rows[i], MONTH_LABEL).Missing? ==>
           Get(r.rows[i], MONTH_LABEL) == Get(r.rows[i], MONTH_ID_NORM))
      && (MONTH_LABEL !in f.columns ==> Get(r.rows[i], MONTH_LABEL) == Get(r.rows[i], MONTH_ID_NORM))
  {
  }

  /** A one-row frame whose month cell is missing. */
  function MissingMonthFrame(): Frame {
    Frame(["month_id"], [map["month_id" := Missing]])
  }

  /** As written, the missing month surfaces as the month "nan"; as intended, as "Unknown". */
  lemma MissingMonthBecomesNan()
    ensures Get(EnsureMonthFields(Some(MissingMonthFrame()), "month_id").rows[0], MONTH_ID_NORM) == Str("nan")
    ensures Get(EnsureMonthFieldsFilled(Some(MissingMonthFrame()), "month_id").rows[0], MONTH_ID_NORM) == Str(UNKNOWN)
  {
    var f := MissingMonthFrame();
    assert !IsEmpty(f) && "month_id" in f.columns;
    assert Get(f.rows[0], "month_id") == Missing;
    EnsureMonthFieldsCells(Some(f), "month_id");
    EnsureMonthFieldsFilledCells(f, "month_id", 0);
  }

  // ---------------------------------------------------------------------------
  // sort_month and _key
  // ---------------------------------------------------------------------------

  /** s.replace("-", ""). */
  function RemoveDashes(s: string): (r: string)
    ensures '-' !in r
    ensures |r| <= |s|
    decreases |s|
  {
    if s == [] then []
    else (if s[0] == '-' then [] else [s[0]]) + RemoveDashes(s[1..])
  }

  /** _key: a 'YYYY-MM' string loses its dashes; every other string is its own key. */
  function MonthKey(s: string): string {
    if |s| == 7 && s[4] == '-' then RemoveDashes(s) else s
  }

  lemma RemoveDashesNoDash(s: string)
    requires '-' !in s
    ensures RemoveDashes(s) == s
  {
    if s != [] {
      assert '-' !in s[1..] by {
        forall k | 0 <= k < |s[1..]| ensures s[1..][k] != '-' { assert s[1..][k] == s[k + 1]; }
      }
      RemoveDashesNoDash(s[1..]);
    }
  }

  /** 'YYYY-MM' with no other dash maps to 'YYYYMM'; a 'YYYYMM' key is unchanged; keys are fixed points. */
  lemma MonthKeyFormats(s: string)
    ensures |s| == 7 && s[4] == '-' && '-' !in s[..4] && '-' !in s[5..] ==> MonthKey(s) == s[..4] + s[5..]
    ensures |s| == 6 ==> MonthKey(s) == s
    ensures MonthKey(MonthKey(s)) == MonthKey(s)
  {
    if |s| == 7 && s[4] == '-' {
      var r := RemoveDashes(s);
      assert |r| != 7 || r[4] != '-' by {
        if |r| == 7 { assert r[4] in r; }
      }
      if '-' !in s[..4] && '-' !in s[5..] {
        RemoveDashesSplit(s[..4], s[4..]);
        assert s == s[..4] + s[4..];
        assert s[4..] == ['-'] + s[5..];
        RemoveDashesSplit(['-'], s[5..]);
        RemoveDashesNoDash(s[..4]);
        RemoveDashesNoDash(s[5..]);
        assert RemoveDashes(['-']) == [];
      }
    }
  }

  lemma {:induction false} RemoveDashesSplit(a: string, b: string)
    ensures RemoveDashes(a + b) == RemoveDashes(a) + RemoveDashes(b)
    decreases |a|
  {
    if a != [] {
      assert (a + b)[1..] == a[1..] + b;
      RemoveDashesSplit(a[1..], b);
    } else {
      assert a + b == b;
    }
  }

  /** Python's string order: code point by code point, a proper prefix first. */
  predicate LexLe(a: string, b: string)
    decreases |a|
  {
    |a| == 0 || (|b| > 0 && (a[0] < b[0] || (a[0] == b[0] && LexLe(a[1..], b[1..]))))
  }

  lemma {:induction false} LexLeTotal(a: string, b: string)
    ensures LexLe(a, b) || LexLe(b, a)
    decreases |a|
  {
    if |a| > 0 && |b| > 0 && a[0] == b[0] {
      LexLeTotal(a[1..], b[1..]);
    }
  }

  lemma {:induction false} LexLeTransitive(a: string, b: string, c: string)
    requires LexLe(a, b) && LexLe(b, c)
    ensures LexLe(a, c)
    decreases |a|
  {
    if |a| > 0 && a[0] == b[0] && b[0] == c[0] {
      LexLeTransitive(a[1..], b[1..], c[1..]);
    }
  }

  /** The sort key of a row: _key(str(month_id_norm)). */
  function RowKey(row: Row): string {
    MonthKey(AsStr(Get(row, MONTH_ID_NORM)))
  }

  predicate SortedByKey(rows: seq<Row>) {
    forall i, j :: 0 <= i < j < |rows| ==> LexLe(RowKey(rows[i]), RowKey(rows[j]))
  }

  /** A row with its _sort_key value. */
  datatype KeyedRow = KeyedRow(key: string, row: Row)

  /** out["_sort_key"] = out["month_id_norm"].map(_key). */
  function WithKeys(rows: seq<Row>): (r: seq<KeyedRow>)
    ensures |r| == |rows|
    ensures KeysMatch(r)
    ensures StripKeys(r) == rows
  {
    seq(|rows|, i requires 0 <= i < |rows| => KeyedRow(RowKey(rows[i]), rows[i]))
  }

  function StripKeys(ks: seq<KeyedRow>): (r: seq<Row>)
    ensures |r| == |ks|
    ensures forall i :: 0 <= i < |ks| ==> r[i] == ks[i].row
  {
    seq(|ks|, i requires 0 <= i < |ks| => ks[i].row)
  }

  predicate KeysSorted(ks: seq<KeyedRow>) {
    forall i, j :: 0 <= i < j < |ks| ==> LexLe(ks[i].key, ks[j].key)
  }

  /** Every _sort_key value is the key of its row. */
  predicate KeysMatch(ks: seq<KeyedRow>) {
    forall i :: 0 <= i < |ks| ==> ks[i].key == RowKey(ks[i].row)
  }

  function InsertKeyed(x: KeyedRow, ks: seq<KeyedRow>): seq<KeyedRow>
    decreases |ks|
  {
    if ks == [] then [x]
    else if LexLe(x.key, ks[0].key) then [x] + ks
    else [ks[0]] + InsertKeyed(x, ks[1..])
  }

  /** sort_values("_sort_key"), by insertion (stable; pandas' default quicksort leaves ties unordered). */
  function SortKeyed(ks: seq<KeyedRow>): seq<KeyedRow>
    decreases |ks|
  {
    if ks == [] then [] else InsertKeyed(ks[0], SortKeyed(ks[1..]))
  }

  lemma {:induction false} StripKeysCons(x: KeyedRow, ks: seq<KeyedRow>)
    ensures StripKeys([x] + ks) == [x.row] + StripKeys(ks)
  {
    var l, r := StripKeys([x] + ks), [x.row] + StripKeys(ks);
    assert |l| == |r|;
    forall i | 0 <= i < |l| ensures l[i] == r[i] {
      if i > 0 { assert ([x] + ks)[i] == ks[i - 1]; }
    }
  }

  lemma {:induction false} InsertKeyedPermutes(x: KeyedRow, ks: seq<KeyedRow>)
    ensures multiset(StripKeys(InsertKeyed(x, ks))) == multiset(StripKeys(ks)) + multiset{x.row}
    decreases |ks|
  {
    if ks == [] {
      assert StripKeys([x]) == [x.row];
    } else if LexLe(x.key, ks[0].key) {
      StripKeysCons(x, ks);
    } else {
      InsertKeyedPermutes(x, ks[1..]);
      assert ks == [ks[0]] + ks[1..];
      StripKeysCons(ks[0], ks[1..]);
      StripKeysCons(ks[0], InsertKeyed(x, ks[1..]));
    }
  }

  lemma {:induction false} InsertKeyedMatch(x: KeyedRow, ks: seq<KeyedRow>)
    requires KeysMatch(ks) && x.key == RowKey(x.row)
    ensures KeysMatch(InsertKeyed(x, ks))
    decreases |ks|
  {
    if ks != [] && !LexLe(x.key, ks[0].key) {
      var tail := ks[1..];
      assert KeysMatch(tail) by {
        forall i | 0 <= i < |tail| ensures tail[i].key == RowKey(tail[i].row) {
          assert tail[i] == ks[i + 1];
        }
      }
      InsertKeyedMatch(x, tail);
      var rest := InsertKeyed(x, tail);
      var r := [ks[0]] + rest;
      forall i | 0 <= i < |r| ensures r[i].key == RowKey(r[i].row) {
        if i > 0 { assert r[i] == rest[i - 1]; }
      }
    } else if ks != [] {
      var r := [x] + ks;
      forall i | 0 <= i < |r| ensures r[i].key == RowKey(r[i].row) {
        if i > 0 { assert r[i] == ks[i - 1]; }
      }
    }
  }

  /** Every key of ks is at least k. */
  predicate KeysAtLeast(k: string, ks: seq<KeyedRow>) {
    forall j :: 0 <= j < |ks| ==> LexLe(k, ks[j].key)
  }

  lemma {:induction false} InsertKeyedBound(k: string, x: KeyedRow, ks: seq<KeyedRow>)
    requires KeysAtLeast(k, ks) && LexLe(k, x.key)
    ensures KeysAtLeast(k, InsertKeyed(x, ks))
    decreases |ks|
  {
    if ks != [] && !LexLe(x.key, ks[0].key) {
      InsertKeyedBound(k, x, ks[1..]);
      assert InsertKeyed(x, ks) == [ks[0]] + InsertKeyed(x, ks[1..]);
    }
  }

  lemma {:induction false} InsertKeyedSorted(x: KeyedRow, ks: seq<KeyedRow>)
    requires KeysSorted(ks)
    ensures KeysSorted(InsertKeyed(x, ks))
    decreases |ks|
  {
    if ks != [] {
      if LexLe(x.key, ks[0].key) {
        var r := [x] + ks;
        forall i, j | 0 <= i < j < |r| ensures LexLe(r[i].key, r[j].key) {
          if i == 0 && j > 1 {
            LexLeTransitive(x.key, ks[0].key, ks[j - 1].key);
          }
        }
      } else {
        var tail := ks[1..];
        InsertKeyedSorted(x, tail);
        LexLeTotal(x.key, ks[0].key);
        assert KeysAtLeast(ks[0].key, tail);
        InsertKeyedBound(ks[0].key, x, tail);
        var ins := InsertKeyed(x, tail);
        var r := [ks[0]] + ins;
        assert InsertKeyed(x, ks) == r;
        forall i, j | 0 <= i < j < |r| ensures LexLe(r[i].key, r[j].key) {
          assert r[j] == ins[j - 1];
          if i > 0 {
            assert r[i] == ins[i - 1];
          }
        }
      }
    }
  }

  /** The sorted rows are a permutation of the input, ordered by key, each key still its row's. */
  lemma {:induction false} SortKeyedFacts(ks: seq<KeyedRow>)
    ensures multiset(StripKeys(SortKeyed(ks))) == multiset(StripKeys(ks))
    ensures KeysSorted(SortKeyed(ks))
    ensures KeysMatch(ks) ==> KeysMatch(SortKeyed(ks))
    decreases |ks|
  {
    if ks != [] {
      var rest := SortKeyed(ks[1..]);
      SortKeyedFacts(ks[1..]);
      InsertKeyedPermutes(ks[0], rest);
      InsertKeyedSorted(ks[0], rest);
      assert ks == [ks[0]] + ks[1..];
      StripKeysCons(ks[0], ks[1..]);
      if KeysMatch(ks) {
        assert KeysMatch(ks[1..]) by {
          forall i | 0 <= i < |ks[1..]| ensures ks[1..][i].key == RowKey(ks[1..][i].row) {
            assert ks[1..][i] == ks[i + 1];
          }
        }
        InsertKeyedMatch(ks[0], rest);
      }
    }
  }

  /** The columns without _sort_key. */
  function DropSortKeyColumn(cols: seq<string>): (r: seq<string>)
    ensures SORT_KEY !in r
    ensures forall c :: c in r <==> c in cols && c != SORT_KEY
    decreases |cols|
  {
    if cols == [] then []
    else (if cols[0] == SORT_KEY then [] else [cols[0]]) + DropSortKeyColumn(cols[1..])
  }

  /** The rows without a _sort_key cell. */
  function DropSortKeyCells(rows: seq<Row>): (r: seq<Row>)
    ensures |r| == |rows|
    ensures forall i :: 0 <= i < |r| ==> SORT_KEY !in r[i] && RowKey(r[i]) == RowKey(rows[i])
    ensures forall i, c :: 0 <= i < |r| && c in rows[i] && c != SORT_KEY ==> c in r[i] && r[i][c] == rows[i][c]
  {
    seq(|rows|, i requires 0 <= i < |rows| => rows[i] - {SORT_KEY})
  }

  /**
   * sort_month: a missing or empty frame, or one without month_id_norm, comes
   * back as it is; otherwise every row gets its _sort_key, the rows are
   * ordered by it, and the _sort_key column is dropped (an existing column
   * of that name included). A row's key depends only on month_id_norm, so
   * the rows are stripped of an old _sort_key cell first.
   */
  function SortMonth(df: Option<Frame>): Option<Frame> {
    match df
    case None => None
    case Some(f) =>
      if IsEmpty(f) || MONTH_ID_NORM !in f.columns then df
      else Some(Frame(DropSortKeyColumn(f.columns), StripKeys(SortKeyed(WithKeys(DropSortKeyCells(f.rows))))))
  }

  /** sort_month returns a permutation of the rows (minus _sort_key), ordered by month key. */
  lemma SortMonthFacts(df: Option<Frame>)
    ensures df.None? ==> SortMonth(df).None?
    ensures df.Some? && (IsEmpty(df.value) || MONTH_ID_NORM !in df.value.columns) ==> SortMonth(df) == df
    ensures df.Some? && !IsEmpty(df.value) && MONTH_ID_NORM in df.value.columns ==>
      && SortMonth(df).Some?
      && multiset(SortMonth(df).value.rows) == multiset(DropSortKeyCells(df.value.rows))
      && SortedByKey(SortMonth(df).value.rows)
      && SORT_KEY !in SortMonth(df).value.columns
      && (forall c :: c in SortMonth(df).value.columns <==> c in df.value.columns && c != SORT_KEY)
  {
    if df.Some? && !IsEmpty(df.value) && MONTH_ID_NORM in df.value.columns {
      var rows := DropSortKeyCells(df.value.rows);
      var ks := WithKeys(rows);
      var sorted := SortKeyed(ks);
      SortKeyedFacts(ks);
      assert StripKeys(ks) == rows;
      assert KeysMatch(ks);
      var out := StripKeys(sorted);
      forall i, j | 0 <= i < j < |out| ensures LexLe(RowKey(out[i]), RowKey(out[j])) {
        assert out[i] == sorted[i].row && out[j] == sorted[j].row;
      }
    }
  }

  /** Dropping the _sort_key cell does not change a row's key. */
  lemma DropKeepsRowKey(row: Row)
    ensures RowKey(row - {SORT_KEY}) == RowKey(row)
  {
    assert MONTH_ID_NORM != SORT_KEY;
  }

  /** 'YYYY-MM' and 'YYYYMM' spellings of the same month sort as equal keys. */
  lemma MonthKeySpellingsAgree(yyyy: string, mm: string)
    requires |yyyy| == 4 && |mm| == 2 && '-' !in yyyy && '-' !in mm
    ensures MonthKey(yyyy + "-" + mm) == MonthKey(yyyy + mm)
  {
    var s := yyyy + "-" + mm;
    assert s[..4] == yyyy && s[5..] == mm && s[4] == '-';
    MonthKeyFormats(s);
    MonthKeyFormats(yyyy + mm);
  }
}
