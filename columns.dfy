/** The column classifier (which columns the two aggregation drop-downs offer)
    and the missing-values chart, both computed from the backend's summary. */
module ColumnClassifier {
  import opened JsValue

  /** Per-column metadata reported by the summary endpoint. */
  datatype ColumnMeta = ColumnMeta(column: string, dtype: string, missing: int, unique: int)

  datatype Summary = Summary(numRows: int, numColumns: int, columns: seq<ColumnMeta>)

  /** dtype tags of columns that may be grouped by. */
  predicate IsStringDtype(dtype: string)
  {
    dtype == "String" || dtype == "Utf8" || dtype == "Categorical"
  }

  /** dtype tags of columns that may be aggregated. */
  const NumericDtypes: seq<string> := ["Int64", "Int32", "Int16", "Int8", "Float64", "Float32"]

  predicate IsNumericDtype(dtype: string)
  {
    dtype in NumericDtypes
  }

  predicate IsStringColumn(c: ColumnMeta)
  {
    IsStringDtype(c.dtype)
  }

  predicate IsNumericColumn(c: ColumnMeta)
  {
    IsNumericDtype(c.dtype)
  }

  predicate HasMissing(c: ColumnMeta)
  {
    c.missing > 0
  }

  /** `Array.prototype.filter` over column metadata. */
  function Filter(cols: seq<ColumnMeta>, keep: ColumnMeta -> bool): seq<ColumnMeta>
    decreases |cols|
  {
    if cols == [] then []
    else (if keep(cols[0]) then [cols[0]] else []) + Filter(cols[1..], keep)
  }

  /** `.map((col) => col.column)`. */
  function Names(cols: seq<ColumnMeta>): (r: seq<string>)
    ensures |r| == |cols|
  {
    seq(|cols|, (i: int) requires 0 <= i < |cols| => cols[i].column)
  }

  /** `.map((col) => col.missing)`. */
  function MissingCounts(cols: seq<ColumnMeta>): (r: seq<int>)
    ensures |r| == |cols|
  {
    seq(|cols|, (i: int) requires 0 <= i < |cols| => cols[i].missing)
  }

  // ----- Specification of "filter, keeping order": positions in increasing order

  /** `idx` lists, strictly increasing, exactly the positions of `cols` whose
      entry satisfies `keep`. */
  ghost predicate Enumerates(idx: seq<nat>, cols: seq<ColumnMeta>, keep: ColumnMeta -> bool)
  {
    (forall k :: 0 <= k < |idx| ==> idx[k] < |cols| && keep(cols[idx[k]]))
    && (forall k, l :: 0 <= k < l < |idx| ==> idx[k] < idx[l])
    && (forall i :: 0 <= i < |cols| && keep(cols[i]) ==> i in idx)
  }

  /** `names` are the names of the columns satisfying `keep`, in `cols` order,
      one entry per such column. */
  ghost predicate NamesInOrder(names: seq<string>, cols: seq<ColumnMeta>, keep: ColumnMeta -> bool)
  {
    exists idx :: Enumerates(idx, cols, keep) && |idx| == |names|
      && forall k :: 0 <= k < |idx| ==> names[k] == cols[idx[k]].column
  }

  ghost function Shift(idx: seq<nat>): (r: seq<nat>)
    ensures |r| == |idx|
    ensures forall k :: 0 <= k < |idx| ==> r[k] == idx[k] + 1
  {
    seq(|idx|, (k: int) requires 0 <= k < |idx| => idx[k] + 1)
  }

  ghost function Positions(cols: seq<ColumnMeta>, keep: ColumnMeta -> bool): (r: seq<nat>)
    ensures forall k :: 0 <= k < |r| ==> r[k] < |cols|
    decreases |cols|
  {
    if cols == [] then []
    else (if keep(cols[0]) then [0] else []) + Shift(Positions(cols[1..], keep))
  }

  /** The positions of a non-empty sequence: possibly 0, then those of its tail moved up by one. */
  lemma PositionsStep(cols: seq<ColumnMeta>, keep: ColumnMeta -> bool, h: nat)
    requires cols != [] && h == (if keep(cols[0]) then 1 else 0)
    ensures |Positions(cols, keep)| == h + |Positions(cols[1..], keep)|
    ensures h == 1 ==> Positions(cols, keep)[0] == 0
    ensures forall k :: h <= k < |Positions(cols, keep)| ==>
              Positions(cols, keep)[k] == Positions(cols[1..], keep)[k - h] + 1
  {
    var pt := Positions(cols[1..], keep);
    var sh := Shift(pt);
    if keep(cols[0]) {
      assert Positions(cols, keep) == [0] + sh;
    } else {
      assert Positions(cols, keep) == sh;
    }
  }

  lemma {:induction false} PositionKept(cols: seq<ColumnMeta>, keep: ColumnMeta -> bool, k: nat)
    requires k < |Positions(cols, keep)|
    ensures keep(cols[Positions(cols, keep)[k]])
    decreases |cols|
  {
    var h := if keep(cols[0]) then 1 else 0;
    PositionsStep(cols, keep, h);
    if k >= h {
      var pt := Positions(cols[1..], keep);
      PositionKept(cols[1..], keep, k - h);
      assert cols[Positions(cols, keep)[k]] == cols[1..][pt[k - h]];
    }
  }

  lemma PositionsInRange(cols: seq<ColumnMeta>, keep: ColumnMeta -> bool)
    ensures forall k :: 0 <= k < |Positions(cols, keep)| ==>
              Positions(cols, keep)[k] < |cols| && keep(cols[Positions(cols, keep)[k]])
  {
    forall k | 0 <= k < |Positions(cols, keep)| ensures keep(cols[Positions(cols, keep)[k]]) {
      PositionKept(cols, keep, k);
    }
  }

  lemma {:induction false} PositionsIncreasing(cols: seq<ColumnMeta>, keep: ColumnMeta -> bool)
    ensures forall k, l :: 0 <= k < l < |Positions(cols, keep)| ==>
              Positions(cols, keep)[k] < Positions(cols, keep)[l]
    decreases |cols|
  {
    if cols != [] {
      PositionsStep(cols, keep, if keep(cols[0]) then 1 else 0);
      PositionsIncreasing(cols[1..], keep);
    }
  }

  lemma {:induction false} PositionListed(cols: seq<ColumnMeta>, keep: ColumnMeta -> bool, i: nat)
    requires i < |cols| && keep(cols[i])
    ensures i in Positions(cols, keep)
    decreases |cols|
  {
    var h := if keep(cols[0]) then 1 else 0;
    PositionsStep(cols, keep, h);
    var p := Positions(cols, keep);
    if i == 0 {
      assert p[0] == 0;
    } else {
      var pt := Positions(cols[1..], keep);
      assert keep(cols[1..][i - 1]);
      PositionListed(cols[1..], keep, i - 1);
      var k :| 0 <= k < |pt| && pt[k] == i - 1;
      assert p[h + k] == i;
    }
  }

  lemma PositionsComplete(cols: seq<ColumnMeta>, keep: ColumnMeta -> bool)
    ensures forall i :: 0 <= i < |cols| && keep(cols[i]) ==> i in Positions(cols, keep)
  {
    forall i | 0 <= i < |cols| && keep(cols[i]) ensures i in Positions(cols, keep) {
      PositionListed(cols, keep, i);
    }
  }

  /** The filter keeps exactly the entries at the enumerated positions, in order. */
  lemma {:induction false} FilterAtPositions(cols: seq<ColumnMeta>, keep: ColumnMeta -> bool)
    ensures |Filter(cols, keep)| == |Positions(cols, keep)|
    ensures forall k :: 0 <= k < |Filter(cols, keep)| ==>
              Filter(cols, keep)[k] == cols[Positions(cols, keep)[k]]
    decreases |cols|
  {
    if cols != [] {
      PositionsStep(cols, keep, if keep(cols[0]) then 1 else 0);
      FilterAtPositions(cols[1..], keep);
      var h := if keep(cols[0]) then 1 else 0;
      var p := Positions(cols, keep);
      var pt := Positions(cols[1..], keep);
      var ft := Filter(cols[1..], keep);
      var f := Filter(cols, keep);
      assert f == (if keep(cols[0]) then [cols[0]] else []) + ft;
      forall k | h <= k < |f| ensures f[k] == cols[p[k]] {
        assert f[k] == ft[k - h];
      }
    }
  }

  /** Filtering keeps, in order, exactly the entries at the enumerated
      positions, and keeps nothing exactly when no entry qualifies. */
  lemma FilterSelects(cols: seq<ColumnMeta>, keep: ColumnMeta -> bool)
    ensures Enumerates(Positions(cols, keep), cols, keep)
    ensures |Filter(cols, keep)| == |Positions(cols, keep)|
    ensures forall k :: 0 <= k < |Filter(cols, keep)| ==>
              Filter(cols, keep)[k] == cols[Positions(cols, keep)[k]]
    ensures |Filter(cols, keep)| == 0 <==> forall i :: 0 <= i < |cols| ==> !keep(cols[i])
  {
    PositionsInRange(cols, keep);
    PositionsIncreasing(cols, keep);
    PositionsComplete(cols, keep);
    FilterAtPositions(cols, keep);
    var idx := Positions(cols, keep);
    if exists i :: 0 <= i < |cols| && keep(cols[i]) {
      var i :| 0 <= i < |cols| && keep(cols[i]);
      assert i in idx;
    }
    if |idx| > 0 {
      assert keep(cols[idx[0]]);
    }
  }

  /** Filtering and then taking names lists the kept columns' names in order. */
  lemma FilteredNamesInOrder(cols: seq<ColumnMeta>, keep: ColumnMeta -> bool)
    ensures NamesInOrder(Names(Filter(cols, keep)), cols, keep)
  {
    FilterSelects(cols, keep);
    var idx := Positions(cols, keep);
    assert forall k :: 0 <= k < |idx| ==> Names(Filter(cols, keep))[k] == cols[idx[k]].column;
  }

  /** A name listed at a position comes from the column at the enumerated position. */
  lemma ListedNameHasColumn(names: seq<string>, cols: seq<ColumnMeta>, keep: ColumnMeta -> bool,
                            idx: seq<nat>, k: nat)
    requires Enumerates(idx, cols, keep) && |idx| == |names|
    requires forall k' :: 0 <= k' < |idx| ==> names[k'] == cols[idx[k']].column
    requires k < |names|
    ensures idx[k] < |cols| && keep(cols[idx[k]]) && cols[idx[k]].column == names[k]
  {
  }

  /** A qualifying column's name is listed. */
  lemma QualifyingColumnListed(names: seq<string>, cols: seq<ColumnMeta>, keep: ColumnMeta -> bool,
                               idx: seq<nat>, i: nat)
    requires Enumerates(idx, cols, keep) && |idx| == |names|
    requires forall k' :: 0 <= k' < |idx| ==> names[k'] == cols[idx[k']].column
    requires i < |cols| && keep(cols[i])
    ensures cols[i].column in names
  {
    assert i in idx;
    var k :| 0 <= k < |idx| && idx[k] == i;
    assert names[k] == cols[i].column;
  }

  /** With the enumeration in hand: a name is listed exactly when a column
      satisfying `keep` carries it. */
  lemma EnumeratedNamesMembership(names: seq<string>, cols: seq<ColumnMeta>, keep: ColumnMeta -> bool,
                                  idx: seq<nat>, x: string)
    requires Enumerates(idx, cols, keep) && |idx| == |names|
    requires forall k :: 0 <= k < |idx| ==> names[k] == cols[idx[k]].column
    ensures x in names ==> exists i :: 0 <= i < |cols| && keep(cols[i]) && cols[i].column == x
    ensures (exists i :: 0 <= i < |cols| && keep(cols[i]) && cols[i].column == x) ==> x in names
  {
    if x in names {
      var k :| 0 <= k < |names| && names[k] == x;
      ListedNameHasColumn(names, cols, keep, idx, k);
    }
    if exists i :: 0 <= i < |cols| && keep(cols[i]) && cols[i].column == x {
      var i :| 0 <= i < |cols| && keep(cols[i]) && cols[i].column == x;
      QualifyingColumnListed(names, cols, keep, idx, i);
    }
  }

  /** A name survives filtering and taking names exactly when some column
      satisfying `keep` carries it. */
  lemma FilteredNamesMembership(cols: seq<ColumnMeta>, keep: ColumnMeta -> bool, x: string)
    ensures x in Names(Filter(cols, keep)) <==> exists i :: 0 <= i < |cols| && keep(cols[i]) && cols[i].column == x
  {
    FilterSelects(cols, keep);
    var idx := Positions(cols, keep);
    var names := Names(Filter(cols, keep));
    assert forall k :: 0 <= k < |idx| ==> names[k] == cols[idx[k]].column;
    EnumeratedNamesMembership(names, cols, keep, idx, x);
  }

  // ----- The classifier

  /** getStringColumns: without a summary every uploaded column is offered;
      with one, the string-typed columns in summary order. */
  function StringColumns(summary: Option<Summary>, columns: seq<string>): (r: seq<string>)
    ensures summary.None? ==> r == columns
    ensures summary.Some? ==> NamesInOrder(r, summary.value.columns, IsStringColumn)
  {
    if summary.None? then columns
    else
      FilteredNamesInOrder(summary.value.columns, IsStringColumn);
      Names(Filter(summary.value.columns, IsStringColumn))
  }

  /** getNumericColumns: without a summary every uploaded column is offered;
      with one, the numeric-typed columns in summary order. */
  function NumericColumns(summary: Option<Summary>, columns: seq<string>): (r: seq<string>)
    ensures summary.None? ==> r == columns
    ensures summary.Some? ==> NamesInOrder(r, summary.value.columns, IsNumericColumn)
  {
    if summary.None? then columns
    else
      FilteredNamesInOrder(summary.value.columns, IsNumericColumn);
      Names(Filter(summary.value.columns, IsNumericColumn))
  }

  /** Before a summary exists, both drop-downs offer the same uploaded columns. */
  lemma NoSummaryOffersSameColumns(columns: seq<string>)
    ensures StringColumns(None, columns) == NumericColumns(None, columns) == columns
  {
  }

  /** A name is a categorical candidate exactly when a column of that name has
      a string dtype. */
  lemma CategoricalCandidateIff(s: Summary, columns: seq<string>, x: string)
    ensures x in StringColumns(Some(s), columns)
            <==> exists i :: 0 <= i < |s.columns| && IsStringDtype(s.columns[i].dtype) && s.columns[i].column == x
  {
    FilteredNamesMembership(s.columns, IsStringColumn, x);
  }

  /** A name is a numeric candidate exactly when a column of that name has a
      numeric dtype. */
  lemma NumericCandidateIff(s: Summary, columns: seq<string>, x: string)
    ensures x in NumericColumns(Some(s), columns)
            <==> exists i :: 0 <= i < |s.columns| && IsNumericDtype(s.columns[i].dtype) && s.columns[i].column == x
  {
    FilteredNamesMembership(s.columns, IsNumericColumn, x);
  }

  /** Column names are unique within a summary. */
  predicate DistinctNames(cols: seq<ColumnMeta>)
  {
    forall i, j :: 0 <= i < |cols| && 0 <= j < |cols| && cols[i].column == cols[j].column ==> i == j
  }

  /** No dtype tag is both string-like and numeric. */
  lemma DtypeSetsDisjoint(dtype: string)
    ensures !(IsStringDtype(dtype) && IsNumericDtype(dtype))
  {
  }

  /** With unique column names, no column is offered in both drop-downs. */
  lemma CandidatesDisjoint(s: Summary, columns: seq<string>, x: string)
    requires DistinctNames(s.columns)
    ensures !(x in StringColumns(Some(s), columns) && x in NumericColumns(Some(s), columns))
  {
    CategoricalCandidateIff(s, columns, x);
    NumericCandidateIff(s, columns, x);
    if x in StringColumns(Some(s), columns) && x in NumericColumns(Some(s), columns) {
      var i :| 0 <= i < |s.columns| && IsStringDtype(s.columns[i].dtype) && s.columns[i].column == x;
      var j :| 0 <= j < |s.columns| && IsNumericDtype(s.columns[j].dtype) && s.columns[j].column == x;
      assert i == j;
      DtypeSetsDisjoint(s.columns[i].dtype);
      assert false;
    }
  }

  /** With unique column names, a column whose dtype is in neither set (a
      boolean or a date, say) is offered in neither drop-down. */
  lemma UnclassifiedColumnExcluded(s: Summary, columns: seq<string>, i: nat)
    requires DistinctNames(s.columns)
    requires i < |s.columns|
    requires !IsStringDtype(s.columns[i].dtype) && !IsNumericDtype(s.columns[i].dtype)
    ensures s.columns[i].column !in StringColumns(Some(s), columns)
    ensures s.columns[i].column !in NumericColumns(Some(s), columns)
  {
    var x := s.columns[i].column;
    CategoricalCandidateIff(s, columns, x);
    NumericCandidateIff(s, columns, x);
  }

  /** One city column of dtype Utf8 and one sales column of dtype Float64. */
  lemma ScenarioCitySales()
    ensures var s := Summary(10, 2, [ColumnMeta("city", "Utf8", 0, 3), ColumnMeta("sales", "Float64", 2, 50)]);
            StringColumns(Some(s), []) == ["city"] && NumericColumns(Some(s), []) == ["sales"]
  {
    var s := Summary(10, 2, [ColumnMeta("city", "Utf8", 0, 3), ColumnMeta("sales", "Float64", 2, 50)]);
    assert Filter(s.columns, IsStringColumn) == [s.columns[0]];
    assert Filter(s.columns, IsNumericColumn) == [s.columns[1]];
  }

  // ----- Missing-values chart

  /** The bar trace and layout of the missing-values chart. */
  datatype MissingChart = MissingChart(
    x: seq<string>,
    y: seq<int>,
    name: string,
    title: string,
    xTitle: string,
    yTitle: string,
    height: nat)

  /** The columns with missing values, in order, with their counts. */
  lemma MissingColumnsInOrder(cols: seq<ColumnMeta>)
    ensures |Filter(cols, HasMissing)| == 0 <==> forall i :: 0 <= i < |cols| ==> cols[i].missing <= 0
    ensures exists idx :: Enumerates(idx, cols, HasMissing)
              && |idx| == |Names(Filter(cols, HasMissing))| == |MissingCounts(Filter(cols, HasMissing))|
              && forall k :: 0 <= k < |idx| ==> Names(Filter(cols, HasMissing))[k] == cols[idx[k]].column
                                                && MissingCounts(Filter(cols, HasMissing))[k] == cols[idx[k]].missing
  {
    FilterSelects(cols, HasMissing);
    var idx := Positions(cols, HasMissing);
    var f := Filter(cols, HasMissing);
    assert forall k :: 0 <= k < |idx| ==> Names(f)[k] == cols[idx[k]].column && MissingCounts(f)[k] == cols[idx[k]].missing;
  }

  /** renderSummaryChart: nothing without a summary or when no column has a
      missing value; otherwise one bar per column with missing values, in
      summary order, whose height is that column's missing count. */
  function MissingValuesChart(summary: Option<Summary>): (r: Option<MissingChart>)
    ensures r.None? <==> summary.None? || forall i :: 0 <= i < |summary.value.columns| ==> summary.value.columns[i].missing <= 0
    ensures r.Some? ==> var cols := summary.value.columns;
              exists idx :: Enumerates(idx, cols, HasMissing) && |idx| == |r.value.x| == |r.value.y|
                && forall k :: 0 <= k < |idx| ==> r.value.x[k] == cols[idx[k]].column && r.value.y[k] == cols[idx[k]].missing
    ensures r.Some? ==> r.value.height == 400 && r.value.title == "Missing Values by Column"
  {
    if summary.None? then None
    else
      var cols := summary.value.columns;
      var missingData := Filter(cols, HasMissing);
      MissingColumnsInOrder(cols);
      if |missingData| == 0 then None
      else
        Some(MissingChart(Names(missingData), MissingCounts(missingData), "Missing Values",
                          "Missing Values by Column", "Columns", "Count of Missing Values", 400))
  }
}
