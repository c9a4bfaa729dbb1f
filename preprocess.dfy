/**
 * Inference preprocessing (api/inference_preprocess.py): the column-by-column
 * rewrite that turns an uploaded customer table into the classifier's input.
 * The source rewrites the caller's DataFrame in place, one listed column at a
 * time, so the table is a class whose methods reassign its rows; the rewrite
 * as a whole is specified by the function `Preprocessed`.
 */
module InferencePreprocess {
  import opened Frames

  const TotalCharges := "TotalCharges"
  const Tenure := "tenure"
  const MonthlyCharges := "MonthlyCharges"
  const TotalSpend := "TotalSpend"
  const AvgChargesPerMonth := "AvgChargesPerMonth"
  const TenureGroupColumn := "tenure_group"

  /** Columns whose "No internet service" / "No phone service" collapse to "No". */
  const ServiceColumns: seq<string> :=
    ["OnlineSecurity", "OnlineBackup", "DeviceProtection", "TechSupport",
     "StreamingTV", "StreamingMovies", "MultipleLines"]

  /** Columns encoded Yes -> 1, anything else -> 0. */
  const YesNoColumns: seq<string> :=
    ["Partner", "Dependents", "PhoneService", "PaperlessBilling",
     "OnlineSecurity", "OnlineBackup", "DeviceProtection", "TechSupport",
     "StreamingTV", "StreamingMovies", "MultipleLines"]

  /** Right-inclusive band edges for `pd.cut`; the last band is unbounded above. */
  const TenureEdges: seq<real> := [-0.1, 12.0, 24.0, 48.0, 60.0]
  const TenureLabels: seq<string> := ["0-12", "13-24", "25-48", "49-60", "61+"]

  predicate Distinct(cs: seq<string>) {
    forall i, j :: 0 <= i < j < |cs| ==> cs[i] != cs[j]
  }

  // ---------------------------------------------------------------------
  // Cell rewrites

  /** `to_numeric(errors="coerce").fillna(0)`. */
  function CoerceOrZero(v: Value): (r: Value)
    ensures r.Num?
    ensures ToNumeric(v).Some? ==> r.x == ToNumeric(v).value
    ensures ToNumeric(v).None? ==> r.x == 0.0
  {
    match ToNumeric(v)
    case Some(x) => Num(x)
    case None => Num(0.0)
  }

  /** `.replace({"No internet service": "No", "No phone service": "No"})`. */
  function CollapseSentinel(v: Value): (r: Value)
    ensures v == Str("No internet service") || v == Str("No phone service") ==> r == Str("No")
    ensures v != Str("No internet service") && v != Str("No phone service") ==> r == v
  {
    if v == Str("No internet service") || v == Str("No phone service") then Str("No") else v
  }

  /** `.map({"Yes": 1, "No": 0}).fillna(0).astype(int)`. */
  function EncodeYesNo(v: Value): (r: Value)
    ensures r == Num(1.0) || r == Num(0.0)
    ensures r == Num(1.0) <==> v == Str("Yes")
  {
    if v == Str("Yes") then Num(1.0) else Num(0.0)
  }

  /** `tenure.replace(0, 1)`: exactly zero becomes one, every other cell is kept. */
  function NonZeroTenure(v: Value): (r: Value)
    requires Numeric(v)
    ensures Numeric(r) && r != Num(0.0)
    ensures v != Num(0.0) ==> r == v
  {
    if v == Num(0.0) then Num(1.0) else v
  }

  /**
   * `pd.cut(x, bins=edges, labels=labels)` for strictly increasing edges whose
   * last band is open above: label k when edges[k] < x <= edges[k + 1]. A value
   * at or below the first edge gets no band.
   */
  function Cut(x: real, edges: seq<real>, labels: seq<string>): (r: Option<string>)
    requires |edges| == |labels| > 0
    decreases |edges|
  {
    if x <= edges[0] then None
    else if |edges| == 1 || x <= edges[1] then Some(labels[0])
    else Cut(x, edges[1..], labels[1..])
  }

  function TenureGroup(v: Value): (r: Value)
    requires Numeric(v)
    ensures r == Missing || (r.Str? && r.s in TenureLabels)
  {
    if v.Missing? then Missing
    else
      var band := Cut(v.x, TenureEdges, TenureLabels);
      if band.Some? then Str(band.value) else Missing
  }

  /** The five bands, written out: right-inclusive, the first including 0. */
  lemma TenureBands(t: real)
    ensures TenureGroup(Num(t)) == Str("0-12") <==> -0.1 < t <= 12.0
    ensures TenureGroup(Num(t)) == Str("13-24") <==> 12.0 < t <= 24.0
    ensures TenureGroup(Num(t)) == Str("25-48") <==> 24.0 < t <= 48.0
    ensures TenureGroup(Num(t)) == Str("49-60") <==> 48.0 < t <= 60.0
    ensures TenureGroup(Num(t)) == Str("61+") <==> 60.0 < t
    ensures TenureGroup(Num(t)) == Missing <==> t <= -0.1
  {
    assert TenureEdges[1..][1..][1..][1..] == [60.0];
    assert TenureLabels[1..][1..][1..][1..] == ["61+"];
  }

  lemma TenureBandExamples()
    ensures TenureGroup(Num(0.0)) == Str("0-12")
    ensures TenureGroup(Num(12.0)) == Str("0-12")
    ensures TenureGroup(Num(13.0)) == Str("13-24")
    ensures TenureGroup(Num(61.0)) == Str("61+")
  {
    TenureBands(0.0);
    TenureBands(12.0);
    TenureBands(13.0);
    TenureBands(61.0);
  }

  // ---------------------------------------------------------------------
  // Table rewrites

  /** `df[c] = f(df[c])` on a column the table has. */
  function MapColumn(t: Table, c: string, f: Value -> Value): (r: Table)
    requires Rectangular(t) && c in t.columns
    ensures Rectangular(r) && r.columns == t.columns && |r.rows| == |t.rows|
    ensures forall i :: 0 <= i < |t.rows| ==> r.rows[i] == t.rows[i][c := f(t.rows[i][c])]
  {
    Table(t.columns, seq(|t.rows|, i requires 0 <= i < |t.rows| => t.rows[i][c := f(t.rows[i][c])]))
  }

  /** `for c in cs: if c in df.columns: df[c] = f(df[c])`. */
  function MapColumns(t: Table, cs: seq<string>, f: Value -> Value): (r: Table)
    requires Rectangular(t) && Distinct(cs)
    ensures Rectangular(r) && r.columns == t.columns && |r.rows| == |t.rows|
    ensures forall i, k :: 0 <= i < |t.rows| && k in t.columns ==>
      r.rows[i][k] == if k in cs then f(t.rows[i][k]) else t.rows[i][k]
    decreases |cs|
  {
    if cs == [] then t
    else
      var prev := MapColumns(t, cs[..|cs| - 1], f);
      var c := cs[|cs| - 1];
      assert forall k :: k in cs <==> k in cs[..|cs| - 1] || k == c;
      assert c !in cs[..|cs| - 1];
      if c in prev.columns then MapColumn(prev, c, f) else prev
  }

  /** `df[c] = values` (a new column is added, an existing one replaced). */
  function SetColumn(t: Table, c: string, values: seq<Value>): (r: Table)
    requires Rectangular(t) && |values| == |t.rows|
    ensures Rectangular(r) && r.columns == t.columns + {c} && |r.rows| == |t.rows|
    ensures forall i :: 0 <= i < |t.rows| ==> r.rows[i] == t.rows[i][c := values[i]]
  {
    Table(t.columns + {c}, seq(|t.rows|, i requires 0 <= i < |t.rows| => t.rows[i][c := values[i]]))
  }

  /** What the source needs to do its arithmetic and binning without raising. */
  predicate Preprocessable(t: Table) {
    Rectangular(t) &&
    (Tenure in t.columns ==>
      (forall i :: 0 <= i < |t.rows| ==> Numeric(t.rows[i][Tenure])) &&
      (MonthlyCharges in t.columns ==> forall i :: 0 <= i < |t.rows| ==> Numeric(t.rows[i][MonthlyCharges])))
  }

  function CoerceTotalCharges(t: Table): (r: Table)
    requires Rectangular(t)
  {
    if TotalCharges in t.columns then MapColumn(t, TotalCharges, CoerceOrZero) else t
  }

  /** Feature engineering's needs: the source's own, and TotalCharges already coerced. */
  predicate Engineerable(t: Table) {
    Preprocessable(t) &&
    (TotalCharges in t.columns ==> forall i :: 0 <= i < |t.rows| ==> t.rows[i][TotalCharges].Num?)
  }

  /** `df["MonthlyCharges"] * df["tenure"]`, with the raw tenure. */
  function SpendColumn(t: Table): (vs: seq<Value>)
    requires Engineerable(t) && Tenure in t.columns && MonthlyCharges in t.columns
    ensures |vs| == |t.rows|
  {
    seq(|t.rows|, i requires 0 <= i < |t.rows| => Times(t.rows[i][MonthlyCharges], t.rows[i][Tenure]))
  }

  /** `df["TotalCharges"] / tenure_nonzero`. */
  function AvgColumn(t: Table): (vs: seq<Value>)
    requires Engineerable(t) && Tenure in t.columns && TotalCharges in t.columns
    ensures |vs| == |t.rows|
  {
    seq(|t.rows|, i requires 0 <= i < |t.rows| => Divide(t.rows[i][TotalCharges], NonZeroTenure(t.rows[i][Tenure])))
  }

  /** `pd.cut(df["tenure"], ...)`. */
  function GroupColumn(t: Table): (vs: seq<Value>)
    requires Engineerable(t) && Tenure in t.columns
    ensures |vs| == |t.rows|
  {
    seq(|t.rows|, i requires 0 <= i < |t.rows| => TenureGroup(t.rows[i][Tenure]))
  }

  /** Lines 29-42: TotalSpend, AvgChargesPerMonth and tenure_group, all keyed on a tenure column. */
  function Engineer(t: Table): (r: Table)
    requires Engineerable(t)
  {
    if Tenure !in t.columns then t
    else
      var t1 := if MonthlyCharges in t.columns then SetColumn(t, TotalSpend, SpendColumn(t)) else t;
      var t2 := if TotalCharges in t.columns then SetColumn(t1, AvgChargesPerMonth, AvgColumn(t)) else t1;
      SetColumn(t2, TenureGroupColumn, GroupColumn(t))
  }

  lemma DistinctLists()
    ensures Distinct(ServiceColumns) && Distinct(YesNoColumns)
  {
  }

  /** What lines 6-26 do to one cell of column `k`. */
  function EncodeCell(k: string, v: Value): Value {
    if k in YesNoColumns then EncodeYesNo(v)
    else if k == TotalCharges then CoerceOrZero(v)
    else v
  }

  lemma ColumnNames()
    ensures Tenure !in YesNoColumns && MonthlyCharges !in YesNoColumns && TotalCharges !in YesNoColumns
    ensures Tenure !in ServiceColumns && MonthlyCharges !in ServiceColumns && TotalCharges !in ServiceColumns
    ensures forall c :: c in ServiceColumns ==> c in YesNoColumns
  {
  }

  /** Lines 6-26: TotalCharges coerced, sentinels collapsed, yes/no columns encoded. */
  function Encoded(t: Table): (r: Table)
    requires Rectangular(t)
    ensures Rectangular(r) && r.columns == t.columns && |r.rows| == |t.rows|
    ensures forall i, k :: 0 <= i < |t.rows| && k in t.columns ==> r.rows[i][k] == EncodeCell(k, t.rows[i][k])
  {
    DistinctLists();
    var coerced := CoerceTotalCharges(t);
    var collapsed := MapColumns(coerced, ServiceColumns, CollapseSentinel);
    var r := MapColumns(collapsed, YesNoColumns, EncodeYesNo);
    EncodedSteps(t, coerced, collapsed, r);
    r
  }

  lemma EncodedSteps(t: Table, coerced: Table, collapsed: Table, r: Table)
    requires Rectangular(t) && Distinct(ServiceColumns) && Distinct(YesNoColumns)
    requires coerced == CoerceTotalCharges(t)
    requires collapsed == MapColumns(coerced, ServiceColumns, CollapseSentinel)
    requires r == MapColumns(collapsed, YesNoColumns, EncodeYesNo)
    ensures forall i, k :: 0 <= i < |t.rows| && k in t.columns ==> r.rows[i][k] == EncodeCell(k, t.rows[i][k])
  {
    ColumnNames();
    forall i, k | 0 <= i < |t.rows| && k in t.columns
      ensures r.rows[i][k] == EncodeCell(k, t.rows[i][k])
    {
      var v := t.rows[i][k];
      if k in ServiceColumns {
        assert coerced.rows[i][k] == v;
        assert collapsed.rows[i][k] == CollapseSentinel(v);
        assert EncodeYesNo(CollapseSentinel(v)) == EncodeYesNo(v);
      } else if k == TotalCharges {
        assert collapsed.rows[i][k] == coerced.rows[i][k];
      } else {
        assert collapsed.rows[i][k] == v;
      }
    }
  }

  /** Cleaning leaves tenure and MonthlyCharges as they were and TotalCharges a number, which feature engineering needs. */
  lemma EncodedPreprocessable(t: Table)
    requires Preprocessable(t)
    ensures Engineerable(Encoded(t))
    ensures forall i :: 0 <= i < |t.rows| ==>
      (Tenure in t.columns ==> Encoded(t).rows[i][Tenure] == t.rows[i][Tenure]) &&
      (MonthlyCharges in t.columns ==> Encoded(t).rows[i][MonthlyCharges] == t.rows[i][MonthlyCharges]) &&
      (TotalCharges in t.columns ==> Encoded(t).rows[i][TotalCharges] == CoerceOrZero(t.rows[i][TotalCharges]))
  {
    ColumnNames();
    var r := Encoded(t);
    forall i | 0 <= i < |t.rows|
      ensures Tenure in t.columns ==> r.rows[i][Tenure] == t.rows[i][Tenure]
      ensures MonthlyCharges in t.columns ==> r.rows[i][MonthlyCharges] == t.rows[i][MonthlyCharges]
      ensures TotalCharges in t.columns ==> r.rows[i][TotalCharges] == CoerceOrZero(t.rows[i][TotalCharges])
    {
    }
  }

  /** The whole of `preprocess_inference`, as a function of the input table. */
  function Preprocessed(t: Table): (r: Table)
    requires Preprocessable(t)
    ensures |r.rows| == |t.rows|
    ensures t.columns <= r.columns
  {
    EncodedPreprocessable(t);
    Engineer(Encoded(t))
  }

  // ---------------------------------------------------------------------
  // What preprocessing promises

  predicate Derived(c: string) {
    c == TotalSpend || c == AvgChargesPerMonth || c == TenureGroupColumn
  }

  /** A column no step of preprocessing reads into or writes. */
  predicate Untouched(c: string) {
    c != TotalCharges && c !in ServiceColumns && c !in YesNoColumns && !Derived(c)
  }

  /** Feature engineering leaves every column that is not a derived one as it found it. */
  lemma EngineerKeeps(t: Table, i: nat, k: string)
    requires Preprocessable(t) && i < |t.rows| && k in t.columns && !Derived(k)
    ensures var r := Preprocessed(t);
      k in r.columns && |r.rows| == |t.rows| && r.rows[i][k] == EncodeCell(k, t.rows[i][k])
  {
    EncodedPreprocessable(t);
  }

  /** After preprocessing, TotalCharges is a number in every row; what did not parse is 0. */
  lemma TotalChargesNumeric(t: Table, i: nat)
    requires Preprocessable(t) && i < |t.rows| && TotalCharges in t.columns
    ensures var r := Preprocessed(t);
      TotalCharges in r.columns && i < |r.rows| &&
      r.rows[i][TotalCharges] == Num(if ToNumeric(t.rows[i][TotalCharges]).Some? then ToNumeric(t.rows[i][TotalCharges]).value else 0.0)
  {
    ColumnNames();
    EngineerKeeps(t, i, TotalCharges);
  }

  /** Every listed yes/no column holds 0 or 1, and 1 exactly where the input said "Yes". */
  lemma YesNoEncoded(t: Table, i: nat, c: string)
    requires Preprocessable(t) && i < |t.rows| && c in YesNoColumns && c in t.columns
    ensures var r := Preprocessed(t);
      c in r.columns && i < |r.rows| &&
      (r.rows[i][c] == Num(1.0) || r.rows[i][c] == Num(0.0)) &&
      (r.rows[i][c] == Num(1.0) <==> t.rows[i][c] == Str("Yes"))
  {
    EngineerKeeps(t, i, c);
  }

  /** A column that no step names comes out exactly as it went in. */
  lemma OtherColumnsUnchanged(t: Table, i: nat, c: string)
    requires Preprocessable(t) && i < |t.rows| && c in t.columns && Untouched(c)
    ensures var r := Preprocessed(t);
      c in r.columns && i < |r.rows| && r.rows[i][c] == t.rows[i][c]
  {
    EngineerKeeps(t, i, c);
  }

  /** The derived columns exist exactly when tenure does, TotalSpend needing MonthlyCharges too. */
  lemma PreprocessedColumns(t: Table)
    requires Preprocessable(t)
    ensures var r := Preprocessed(t);
      r.columns == t.columns +
        (if Tenure in t.columns then
          {TenureGroupColumn} +
          (if MonthlyCharges in t.columns then {TotalSpend} else {}) +
          (if TotalCharges in t.columns then {AvgChargesPerMonth} else {})
         else {})
  {
  }

  /** Lines 29-42 cell by cell: the spend uses raw tenure, the average uses tenure with 0 read as 1. */
  lemma DerivedCells(t: Table, i: nat)
    requires Preprocessable(t) && i < |t.rows| && Tenure in t.columns
    ensures var r := Preprocessed(t); var tenure := t.rows[i][Tenure];
      Numeric(tenure) && |r.rows| == |t.rows| &&
      TenureGroupColumn in r.columns && r.rows[i][TenureGroupColumn] == TenureGroup(tenure) &&
      (MonthlyCharges in t.columns ==>
        TotalSpend in r.columns && Numeric(t.rows[i][MonthlyCharges]) &&
        r.rows[i][TotalSpend] == Times(t.rows[i][MonthlyCharges], tenure)) &&
      (TotalCharges in t.columns ==>
        AvgChargesPerMonth in r.columns &&
        r.rows[i][AvgChargesPerMonth] == Divide(CoerceOrZero(t.rows[i][TotalCharges]), NonZeroTenure(tenure)))
  {
    ColumnNames();
    EncodedPreprocessable(t);
  }

  // ---------------------------------------------------------------------
  // The DataFrame the source mutates

  class DataFrame {
    var columns: set<string>
    var rows: seq<Row>

    function Snapshot(): Table
      reads this
    {
      Table(columns, rows)
    }

    ghost predicate Valid()
      reads this
    {
      Rectangular(Snapshot())
    }

    constructor (t: Table)
      requires Rectangular(t)
      ensures Valid() && Snapshot() == t
    {
      columns := t.columns;
      rows := t.rows;
    }

    /** `df.copy()`. */
    method Copy() returns (d: DataFrame)
      requires Valid()
      ensures fresh(d) && d.Valid() && d.Snapshot() == Snapshot()
    {
      d := new DataFrame(Snapshot());
    }

    /** `df[c] = df[c].<rewrite>` for a column the frame has. */
    method RewriteColumn(c: string, f: Value -> Value)
      requires Valid() && c in columns
      modifies this
      ensures Valid()
      ensures Snapshot() == MapColumn(old(Snapshot()), c, f)
    {
      rows := MapColumn(Snapshot(), c, f).rows;
    }

    /** `df[c] = values`. */
    method AssignColumn(c: string, values: seq<Value>)
      requires Valid() && |values| == |rows|
      modifies this
      ensures Valid()
      ensures Snapshot() == SetColumn(old(Snapshot()), c, values)
    {
      var t := SetColumn(Snapshot(), c, values);
      columns, rows := t.columns, t.rows;
    }

    /** One pass of the source's `for c in cs: if c in df.columns: df[c] = ...` loops. */
    method RewriteListed(cs: seq<string>, f: Value -> Value)
      requires Valid() && Distinct(cs)
      modifies this
      ensures Valid()
      ensures Snapshot() == MapColumns(old(Snapshot()), cs, f)
    {
      for j := 0 to |cs|
        invariant Valid()
        invariant Snapshot() == MapColumns(old(Snapshot()), cs[..j], f)
      {
        assert cs[..j + 1][..j] == cs[..j];
        if cs[j] in columns {
          RewriteColumn(cs[j], f);
        }
      }
      assert cs[..|cs|] == cs;
    }
  }

  /** `preprocess_inference(df)`: rewrites `df` in place and returns that same frame. */
  method PreprocessInference(df: DataFrame) returns (out: DataFrame)
    requires df.Valid() && Preprocessable(df.Snapshot())
    modifies df
    ensures out == df && df.Valid()
    ensures df.Snapshot() == Preprocessed(old(df.Snapshot()))
  {
    DistinctLists();
    if TotalCharges in df.columns {
      df.RewriteColumn(TotalCharges, CoerceOrZero);
    }
    df.RewriteListed(ServiceColumns, CollapseSentinel);
    df.RewriteListed(YesNoColumns, EncodeYesNo);
    ghost var t0 := old(df.Snapshot());
    assert df.Snapshot() == Encoded(t0);
    EncodedPreprocessable(t0);
    if Tenure in df.columns {
      var encoded := df.Snapshot();
      if MonthlyCharges in df.columns {
        df.AssignColumn(TotalSpend, SpendColumn(encoded));
      }
      if TotalCharges in df.columns {
        df.AssignColumn(AvgChargesPerMonth, AvgColumn(encoded));
      }
      df.AssignColumn(TenureGroupColumn, GroupColumn(encoded));
    }
    out := df;
  }
}
