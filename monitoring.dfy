/**
 * Drift detection (api/agents/monitoring_agent.py): a new batch of customer
 * records is compared with the training baseline, feature by feature, with a
 * mean-shift rule for the three numerical features and a proportion-shift
 * rule for the four categorical ones. Warnings are kept as structured alerts;
 * their text formatting is not modelled.
 */
module MonitoringAgent {
  import opened Frames

  const NumericalFeatures: seq<string> := ["tenure", "MonthlyCharges", "TotalCharges"]
  const CategoricalFeatures: seq<string> := ["Contract", "InternetService", "PaymentMethod", "gender"]

  /** Relative mean change above which a numerical feature has drifted. */
  const NumericalThreshold: real := 0.10
  /** Proportion change above which a category has shifted. */
  const CategoricalThreshold: real := 0.20

  datatype Direction = Increased | Decreased

  /** The `warning` string of a finding, by kind; `NoAlert` is the empty string. */
  datatype Alert =
    | NoAlert
    | InsufficientData(feature: string)
    | MeanShift(feature: string, direction: Direction, change: real, baselineMean: real, newMean: real)
    | DistributionShift(feature: string, maxShift: real, affected: set<Value>)

  function Abs(x: real): (r: real)
    ensures r >= 0.0 && (r == x || r == -x)
  {
    if x < 0.0 then -x else x
  }

  // ---------------------------------------------------------------------
  // Numerical rule

  /** `pd.to_numeric(col, errors="coerce").dropna()`: the numbers, in order. */
  function Cleaned(col: seq<Value>): (xs: seq<real>)
    ensures |xs| <= |col|
  {
    if col == [] then [] else Cleaned(col[..|col| - 1]) + Numbers(col[|col| - 1])
  }

  /** What one cell contributes to the cleaned sample. */
  function Numbers(v: Value): (xs: seq<real>)
    ensures |xs| <= 1
  {
    match ToNumeric(v)
    case Some(x) => [x]
    case None => []
  }

  /** The cleaned sample is empty exactly when no cell of the column coerces to a number. */
  lemma {:induction false} CleanedEmpty(col: seq<Value>)
    ensures |Cleaned(col)| == 0 <==> forall i :: 0 <= i < |col| ==> ToNumeric(col[i]).None?
  {
    if i :| 0 <= i < |col| && ToNumeric(col[i]).Some? {
      CleanedKeeps(col, i);
    } else {
      CleanedNothing(col);
    }
  }

  /** Cleaning works cell by cell: a split column cleans to the two cleaned halves, in order. */
  lemma {:induction false} CleanedConcat(a: seq<Value>, b: seq<Value>)
    ensures Cleaned(a + b) == Cleaned(a) + Cleaned(b)
  {
    if b != [] {
      var init := b[..|b| - 1];
      assert (a + b)[..|a + b| - 1] == a + init;
      assert (a + b)[|a + b| - 1] == b[|b| - 1];
      CleanedConcat(a, init);
      assert Cleaned(a + b) == Cleaned(a + init) + Numbers(b[|b| - 1]);
      assert Cleaned(b) == Cleaned(init) + Numbers(b[|b| - 1]);
    } else {
      assert a + b == a;
    }
  }

  /** A single cell is kept, as its number, exactly when it coerces. */
  lemma CleanedCell(v: Value)
    ensures Cleaned([v]) == if ToNumeric(v).Some? then [ToNumeric(v).value] else []
  {
    assert [v][..0] == [];
  }

  lemma {:induction false} CleanedKeeps(col: seq<Value>, i: nat)
    requires i < |col| && ToNumeric(col[i]).Some?
    ensures |Cleaned(col)| > 0
  {
    if i < |col| - 1 {
      var init := col[..|col| - 1];
      assert init[i] == col[i];
      CleanedKeeps(init, i);
    }
  }

  lemma {:induction false} CleanedNothing(col: seq<Value>)
    requires forall i :: 0 <= i < |col| ==> ToNumeric(col[i]).None?
    ensures Cleaned(col) == []
  {
    if col != [] {
      var init := col[..|col| - 1];
      assert forall i :: 0 <= i < |init| ==> init[i] == col[i];
      CleanedNothing(init);
    }
  }

  function Sum(xs: seq<real>): real {
    if xs == [] then 0.0 else Sum(xs[..|xs| - 1]) + xs[|xs| - 1]
  }

  function Mean(xs: seq<real>): real
    requires |xs| > 0
  {
    Sum(xs) / |xs| as real
  }

  /** `mean_change_pct`: 0 when the baseline mean is 0, else the relative change. */
  function MeanChange(newMean: real, baselineMean: real): (pct: real)
    ensures pct >= 0.0
    ensures baselineMean == 0.0 ==> pct == 0.0
    ensures baselineMean != 0.0 ==> pct * Abs(baselineMean) == Abs(newMean - baselineMean)
  {
    if baselineMean != 0.0 then Abs((newMean - baselineMean) / baselineMean) else 0.0
  }

  datatype NumericalDrift = NumericalDrift(
    driftDetected: bool,
    warning: Alert,
    newMean: Option<real>,
    baselineMean: Option<real>,
    meanChangePct: Option<real>)

  /** The verdict of `_check_numerical_drift` once both cleaned samples are non-empty, from their means. */
  function DriftFromMeans(newMean: real, baselineMean: real, feature: string): NumericalDrift {
    var pct := MeanChange(newMean, baselineMean);
    var drift := pct > NumericalThreshold;
    var warning :=
      if drift then MeanShift(feature, if newMean > baselineMean then Increased else Decreased, pct, baselineMean, newMean)
      else NoAlert;
    NumericalDrift(drift, warning, Some(newMean), Some(baselineMean), Some(pct))
  }

  /** `_check_numerical_drift`. */
  function CheckNumericalDrift(newCol: seq<Value>, baselineCol: seq<Value>, feature: string): (d: NumericalDrift)
    ensures d.meanChangePct.None? <==> |Cleaned(newCol)| == 0 || |Cleaned(baselineCol)| == 0
    ensures d.driftDetected ==> d.meanChangePct.Some? && d.meanChangePct.value > NumericalThreshold
    ensures d.driftDetected <==> d.warning.MeanShift?
  {
    var newValues := Cleaned(newCol);
    var baselineValues := Cleaned(baselineCol);
    if |newValues| == 0 || |baselineValues| == 0 then
      NumericalDrift(false, InsufficientData(feature), None, None, None)
    else
      DriftFromMeans(Mean(newValues), Mean(baselineValues), feature)
  }

  /** An empty cleaned sample on either side: no drift, no statistics, an "insufficient data" warning. */
  lemma NumericalInsufficient(newCol: seq<Value>, baselineCol: seq<Value>, feature: string)
    requires |Cleaned(newCol)| == 0 || |Cleaned(baselineCol)| == 0
    ensures var d := CheckNumericalDrift(newCol, baselineCol, feature);
      !d.driftDetected && d.warning == InsufficientData(feature) &&
      d.newMean == None && d.baselineMean == None && d.meanChangePct == None
  {
  }

  /** With a non-zero baseline, the 10% rule compares the absolute change with a tenth of the baseline's magnitude. */
  lemma MeanChangeAbove(newMean: real, baselineMean: real)
    requires baselineMean != 0.0
    ensures MeanChange(newMean, baselineMean) > NumericalThreshold <==>
      Abs(newMean - baselineMean) > NumericalThreshold * Abs(baselineMean)
  {
    ScaleCompare(MeanChange(newMean, baselineMean), NumericalThreshold, Abs(baselineMean), Abs(newMean - baselineMean));
  }

  /** A ratio `p` of `d` to a positive `a` exceeds `t` exactly when `d` exceeds `t` times `a`. */
  lemma ScaleCompare(p: real, t: real, a: real, d: real)
    requires a > 0.0 && p * a == d
    ensures p > t <==> d > t * a
    ensures p >= t <==> d >= t * a
  {
    if p > t {
      ProductSign(p - t, a);
      assert (p - t) * a == p * a - t * a;
    } else {
      ProductSign(t - p, a);
      assert (t - p) * a == t * a - p * a;
    }
  }

  lemma ProductSign(x: real, a: real)
    requires a > 0.0
    ensures x > 0.0 ==> x * a > 0.0
    ensures x >= 0.0 ==> x * a >= 0.0
  {
  }

  /** The verdict from two means: a zero baseline never drifts, otherwise the 10% rule; a warning exactly on drift, naming the direction. */
  lemma DriftFromMeansRule(n: real, b: real, feature: string)
    ensures var d := DriftFromMeans(n, b, feature);
      d.newMean == Some(n) && d.baselineMean == Some(b) &&
      (b == 0.0 ==> !d.driftDetected) &&
      (b != 0.0 ==> (d.driftDetected <==> Abs(n - b) > NumericalThreshold * Abs(b))) &&
      (d.driftDetected <==> d.warning != NoAlert) &&
      (d.driftDetected ==> d.warning.MeanShift? && (d.warning.direction == Increased <==> n > b))
  {
    if b != 0.0 {
      MeanChangeAbove(n, b);
    }
  }

  /** Drift is exactly a relative mean change strictly above 0.10; a zero baseline mean never drifts. */
  lemma NumericalDriftRule(newCol: seq<Value>, baselineCol: seq<Value>, feature: string, n: real, b: real)
    requires |Cleaned(newCol)| > 0 && |Cleaned(baselineCol)| > 0
    requires n == Mean(Cleaned(newCol)) && b == Mean(Cleaned(baselineCol))
    ensures CheckNumericalDrift(newCol, baselineCol, feature).newMean == Some(n)
    ensures CheckNumericalDrift(newCol, baselineCol, feature).baselineMean == Some(b)
    ensures b == 0.0 ==> !CheckNumericalDrift(newCol, baselineCol, feature).driftDetected
    ensures b != 0.0 ==>
      (CheckNumericalDrift(newCol, baselineCol, feature).driftDetected <==> Abs(n - b) > NumericalThreshold * Abs(b))
    ensures CheckNumericalDrift(newCol, baselineCol, feature).driftDetected <==>
      CheckNumericalDrift(newCol, baselineCol, feature).warning != NoAlert
    ensures CheckNumericalDrift(newCol, baselineCol, feature).driftDetected ==>
      CheckNumericalDrift(newCol, baselineCol, feature).warning.MeanShift? &&
      (CheckNumericalDrift(newCol, baselineCol, feature).warning.direction == Increased <==> n > b)
  {
    assert CheckNumericalDrift(newCol, baselineCol, feature) == DriftFromMeans(n, b, feature);
    DriftFromMeansRule(n, b, feature);
  }

  /** A batch mean of 75 against a baseline mean of 65 is an increase of about 15.4%, which drifts. */
  lemma MonthlyChargesScenario(newCol: seq<Value>, baselineCol: seq<Value>)
    requires |Cleaned(newCol)| > 0 && |Cleaned(baselineCol)| > 0
    requires Mean(Cleaned(newCol)) == 75.0 && Mean(Cleaned(baselineCol)) == 65.0
    ensures var d := CheckNumericalDrift(newCol, baselineCol, "MonthlyCharges");
      d.driftDetected && d.meanChangePct == Some(10.0 / 65.0) &&
      d.warning == MeanShift("MonthlyCharges", Increased, 10.0 / 65.0, 65.0, 75.0)
  {
  }

  // ---------------------------------------------------------------------
  // Categorical rule

  /** How often `c` occurs in a column. */
  function Count(col: seq<Value>, c: Value): (n: nat)
    ensures n <= |col|
  {
    if col == [] then 0
    else Count(col[..|col| - 1], c) + (if col[|col| - 1] == c then 1 else 0)
  }

  /** The cells `value_counts` sees: everything but NaN. */
  function Present(col: seq<Value>): (ps: seq<Value>)
    ensures |ps| <= |col|
    ensures forall v :: v in ps <==> v in col && !v.Missing?
  {
    if col == [] then []
    else
      var rest := Present(col[..|col| - 1]);
      var last := col[|col| - 1];
      assert forall v :: v in col <==> v in col[..|col| - 1] || v == last;
      if last.Missing? then rest else rest + [last]
  }

  /** Counting over one more cell adds one exactly when that cell is the value counted. */
  lemma CountSnoc(col: seq<Value>, v: Value, c: Value)
    ensures Count(col + [v], c) == Count(col, c) + (if v == c then 1 else 0)
  {
    assert (col + [v])[..|col|] == col;
  }

  /** Dropping NaN keeps every other value's count and removes exactly the NaN cells. */
  lemma {:induction false} PresentCounts(col: seq<Value>, c: Value)
    ensures !c.Missing? ==> Count(Present(col), c) == Count(col, c)
    ensures |Present(col)| == |col| - Count(col, Missing)
  {
    if col != [] {
      var init := col[..|col| - 1];
      var last := col[|col| - 1];
      PresentCounts(init, c);
      if !last.Missing? {
        CountSnoc(Present(init), last, c);
      }
    }
  }

  /** The categories of a column: its distinct non-NaN values. */
  function Categories(col: seq<Value>): (cs: set<Value>)
    ensures forall c :: c in cs <==> c in col && !c.Missing?
  {
    set c | c in col && !c.Missing?
  }

  /** `value_counts(normalize=True).get(c, 0)`: the count of `c` over the number of non-NaN cells. */
  function Proportion(col: seq<Value>, c: Value): (p: real)
    ensures 0.0 <= p <= 1.0
    ensures |Present(col)| == 0 ==> p == 0.0
    ensures |Present(col)| > 0 ==> p == Count(Present(col), c) as real / |Present(col)| as real
  {
    var present := Present(col);
    if |present| == 0 then 0.0
    else
      RatioBounds(Count(present, c), |present|);
      Count(present, c) as real / |present| as real
  }

  /** A count out of a positive total is a share between 0 and 1. */
  lemma RatioBounds(k: nat, n: nat)
    requires 0 < n && k <= n
    ensures 0.0 <= k as real / n as real <= 1.0
  {
    var q := k as real / n as real;
    assert q * n as real == k as real;
    ScaleCompare(q, 0.0, n as real, k as real);
    ScaleCompare(q, 1.0, n as real, k as real);
  }

  function Distribution(col: seq<Value>): (d: map<Value, real>)
    ensures d.Keys == Categories(col)
  {
    map c | c in Categories(col) :: Proportion(col, c)
  }

  /** The counts of the values `cs` among the cells `ps`, added up in whatever order the values are picked. */
  ghost function TotalCount(ps: seq<Value>, cs: set<Value>): nat
    decreases cs
  {
    if cs == {} then 0
    else
      var c :| c in cs;
      Count(ps, c) + TotalCount(ps, cs - {c})
  }

  /** How many cells of `xs` hold one of the values `cs`. */
  function CountIn(xs: seq<Value>, cs: set<Value>): (n: nat)
    ensures n <= |xs|
  {
    if xs == [] then 0
    else CountIn(xs[..|xs| - 1], cs) + (if xs[|xs| - 1] in cs then 1 else 0)
  }

  /** Taking one value `c` out of `cs` takes away exactly the cells equal to `c`. */
  lemma {:induction false} CountInSplit(xs: seq<Value>, cs: set<Value>, c: Value)
    requires c in cs
    ensures CountIn(xs, cs) == Count(xs, c) + CountIn(xs, cs - {c})
  {
    if xs != [] {
      CountInSplit(xs[..|xs| - 1], cs, c);
    }
  }

  lemma {:induction false} CountInNone(xs: seq<Value>)
    ensures CountIn(xs, {}) == 0
  {
    if xs != [] {
      CountInNone(xs[..|xs| - 1]);
    }
  }

  /** When `cs` holds every cell of `xs`, all cells are counted. */
  lemma {:induction false} CountInAll(xs: seq<Value>, cs: set<Value>)
    requires forall v :: v in xs ==> v in cs
    ensures CountIn(xs, cs) == |xs|
  {
    if xs != [] {
      var init := xs[..|xs| - 1];
      assert forall v :: v in init ==> v in xs;
      assert xs[|xs| - 1] in xs;
      CountInAll(init, cs);
    }
  }

  /** Whatever order the values are picked in, their counts add up to the cells holding one of them. */
  lemma {:induction false} TotalCountIn(ps: seq<Value>, cs: set<Value>)
    ensures TotalCount(ps, cs) == CountIn(ps, cs)
    decreases cs
  {
    if cs == {} {
      CountInNone(ps);
    } else {
      var c :| c in cs && TotalCount(ps, cs) == Count(ps, c) + TotalCount(ps, cs - {c});
      TotalCountIn(ps, cs - {c});
      CountInSplit(ps, cs, c);
    }
  }

  /**
   * `value_counts(normalize=True)` is a distribution: the counts of a column's
   * categories add up to its number of non-NaN cells, the common denominator
   * of every share (`Proportion`).
   */
  lemma CategoryCountsAddUp(col: seq<Value>)
    ensures TotalCount(Present(col), Categories(col)) == |Present(col)|
  {
    TotalCountIn(Present(col), Categories(col));
    CountInAll(Present(col), Categories(col));
  }

  function Shift(newCol: seq<Value>, baselineCol: seq<Value>, c: Value): (s: real)
    ensures s >= 0.0
  {
    Abs(Proportion(newCol, c) - Proportion(baselineCol, c))
  }

  /** The categories seen on either side. */
  function AllCategories(newCol: seq<Value>, baselineCol: seq<Value>): set<Value> {
    Categories(newCol) + Categories(baselineCol)
  }

  /** The largest shift over a set of categories, starting from 0. */
  ghost function MaxShiftOver(newCol: seq<Value>, baselineCol: seq<Value>, cs: set<Value>): (m: real)
    ensures m >= 0.0
    ensures forall c :: c in cs ==> Shift(newCol, baselineCol, c) <= m
    ensures m == 0.0 || exists c :: c in cs && Shift(newCol, baselineCol, c) == m
    decreases cs
  {
    if cs == {} then 0.0
    else
      var c :| c in cs;
      var rest := MaxShiftOver(newCol, baselineCol, cs - {c});
      var s := Shift(newCol, baselineCol, c);
      if s > rest then s else rest
  }

  /** `max_shift`. */
  ghost function MaxShift(newCol: seq<Value>, baselineCol: seq<Value>): real {
    MaxShiftOver(newCol, baselineCol, AllCategories(newCol, baselineCol))
  }

  /** The categories listed in `shifted_categories`. */
  ghost function Affected(newCol: seq<Value>, baselineCol: seq<Value>): set<Value> {
    set c | c in AllCategories(newCol, baselineCol) && Shift(newCol, baselineCol, c) > CategoricalThreshold
  }

  /** A maximum is determined by being an upper bound that is 0 or attained. */
  lemma MaxUnique(newCol: seq<Value>, baselineCol: seq<Value>, cs: set<Value>, m: real)
    requires m >= 0.0
    requires forall c :: c in cs ==> Shift(newCol, baselineCol, c) <= m
    requires m == 0.0 || exists c :: c in cs && Shift(newCol, baselineCol, c) == m
    ensures m == MaxShiftOver(newCol, baselineCol, cs)
  {
    var top := MaxShiftOver(newCol, baselineCol, cs);
    if m != 0.0 {
      var c :| c in cs && Shift(newCol, baselineCol, c) == m;
      assert m <= top;
    }
    if top != 0.0 {
      var c :| c in cs && Shift(newCol, baselineCol, c) == top;
      assert top <= m;
    }
  }

  lemma {:induction false} CountAbsent(col: seq<Value>, c: Value)
    requires c !in col
    ensures Count(col, c) == 0
  {
    if col != [] {
      CountAbsent(col[..|col| - 1], c);
    }
  }

  /** A category a column never shows (or NaN) has proportion 0 there. */
  lemma AbsentCategory(col: seq<Value>, c: Value)
    requires c !in Categories(col)
    ensures Proportion(col, c) == 0.0
  {
    CountAbsent(Present(col), c);
  }

  /** Without any category on either side there is no shift and no affected category. */
  lemma NoCategoriesNoShift(newCol: seq<Value>, baselineCol: seq<Value>)
    requires forall i :: 0 <= i < |newCol| ==> newCol[i].Missing?
    requires forall i :: 0 <= i < |baselineCol| ==> baselineCol[i].Missing?
    ensures MaxShift(newCol, baselineCol) == 0.0 && Affected(newCol, baselineCol) == {}
  {
    assert AllCategories(newCol, baselineCol) == {};
  }

  /** The feature drifts iff some category shifted by more than 0.20, i.e. the affected list is non-empty. */
  lemma CategoricalDriftIffAffected(newCol: seq<Value>, baselineCol: seq<Value>)
    ensures MaxShift(newCol, baselineCol) > CategoricalThreshold <==> Affected(newCol, baselineCol) != {}
  {
    var m := MaxShift(newCol, baselineCol);
    if m > CategoricalThreshold {
      var c :| c in AllCategories(newCol, baselineCol) && Shift(newCol, baselineCol, c) == m;
      assert c in Affected(newCol, baselineCol);
    }
    if Affected(newCol, baselineCol) != {} {
      var c :| c in Affected(newCol, baselineCol);
      assert Shift(newCol, baselineCol, c) <= m;
    }
  }

  /** One entry of `shifted_categories`. */
  datatype ShiftedCategory = ShiftedCategory(category: Value, newProportion: real, baselineProportion: real, change: real)

  function CategoriesOf(shifted: seq<ShiftedCategory>): set<Value> {
    set e | e in shifted :: e.category
  }

  lemma CategoriesOfAppend(shifted: seq<ShiftedCategory>, e: ShiftedCategory)
    ensures CategoriesOf(shifted + [e]) == CategoriesOf(shifted) + {e.category}
  {
    assert forall x :: x in shifted + [e] <==> x in shifted || x == e;
  }

  /** The categories of `cs` whose shift exceeds 0.20. */
  ghost function AffectedAmong(newCol: seq<Value>, baselineCol: seq<Value>, cs: set<Value>): set<Value> {
    set c | c in cs && Shift(newCol, baselineCol, c) > CategoricalThreshold
  }

  lemma AffectedAmongAdd(newCol: seq<Value>, baselineCol: seq<Value>, cs: set<Value>, c: Value)
    ensures AffectedAmong(newCol, baselineCol, cs + {c}) ==
      AffectedAmong(newCol, baselineCol, cs) + (if Shift(newCol, baselineCol, c) > CategoricalThreshold then {c} else {})
  {
  }

  datatype CategoricalDrift = CategoricalDrift(
    driftDetected: bool,
    warning: Alert,
    maxShift: real,
    shifted: seq<ShiftedCategory>,
    newDistribution: map<Value, real>,
    baselineDistribution: map<Value, real>)

  ghost function CategoricalAlert(newCol: seq<Value>, baselineCol: seq<Value>, feature: string): Alert {
    if MaxShift(newCol, baselineCol) > CategoricalThreshold
    then DistributionShift(feature, MaxShift(newCol, baselineCol), Affected(newCol, baselineCol))
    else NoAlert
  }

  /** The entries of `shifted_categories`: one per category, each with its two proportions and its change. */
  ghost predicate ShiftedEntries(newCol: seq<Value>, baselineCol: seq<Value>, shifted: seq<ShiftedCategory>) {
    (forall i, j :: 0 <= i < j < |shifted| ==> shifted[i].category != shifted[j].category) &&
    (forall e :: e in shifted ==>
      e.newProportion == Proportion(newCol, e.category) &&
      e.baselineProportion == Proportion(baselineCol, e.category) &&
      e.change == Shift(newCol, baselineCol, e.category))
  }

  /** Everything `_check_categorical_drift` promises about its result. */
  ghost predicate CategoricalResult(newCol: seq<Value>, baselineCol: seq<Value>, feature: string, r: CategoricalDrift) {
    r.maxShift == MaxShift(newCol, baselineCol) &&
    r.driftDetected == (r.maxShift > CategoricalThreshold) &&
    r.warning == CategoricalAlert(newCol, baselineCol, feature) &&
    CategoriesOf(r.shifted) == Affected(newCol, baselineCol) &&
    ShiftedEntries(newCol, baselineCol, r.shifted) &&
    r.newDistribution == Distribution(newCol) &&
    r.baselineDistribution == Distribution(baselineCol)
  }

  /**
   * `_check_categorical_drift`: visits the union of categories in an
   * unspecified order (the source iterates over a Python set), keeping the
   * running maximum shift and collecting the categories above the threshold.
   */
  method CheckCategoricalDrift(newCol: seq<Value>, baselineCol: seq<Value>, feature: string)
    returns (r: CategoricalDrift)
    ensures CategoricalResult(newCol, baselineCol, feature, r)
    ensures r.driftDetected <==> |r.shifted| > 0
  {
    var allCategories := Categories(newCol) + Categories(baselineCol);
    var maxShift := 0.0;
    var shifted: seq<ShiftedCategory> := [];
    var todo := allCategories;
    ghost var visited: set<Value> := {};
    ghost var argmax: Value := Missing;
    while todo != {}
      invariant visited + todo == allCategories && visited !! todo
      invariant maxShift >= 0.0
      invariant forall c :: c in visited ==> Shift(newCol, baselineCol, c) <= maxShift
      invariant maxShift == 0.0 || (argmax in visited && Shift(newCol, baselineCol, argmax) == maxShift)
      invariant CategoriesOf(shifted) == AffectedAmong(newCol, baselineCol, visited)
      invariant ShiftedEntries(newCol, baselineCol, shifted)
      decreases todo
    {
      var category :| category in todo;
      var newProp := Proportion(newCol, category);
      var baselineProp := Proportion(baselineCol, category);
      var change := Abs(newProp - baselineProp);
      assert change == Shift(newCol, baselineCol, category);
      if change > maxShift {
        maxShift := change;
        argmax := category;
      }
      AffectedAmongAdd(newCol, baselineCol, visited, category);
      if change > CategoricalThreshold {
        var entry := ShiftedCategory(category, newProp, baselineProp, change);
        assert category !in CategoriesOf(shifted);
        CategoriesOfAppend(shifted, entry);
        shifted := shifted + [entry];
      }
      visited := visited + {category};
      todo := todo - {category};
    }
    assert visited == allCategories;
    MaxUnique(newCol, baselineCol, allCategories, maxShift);
    CategoricalDriftIffAffected(newCol, baselineCol);
    var drift := maxShift > CategoricalThreshold;
    var warning := if drift then DistributionShift(feature, maxShift, CategoriesOf(shifted)) else NoAlert;
    r := CategoricalDrift(drift, warning, maxShift, shifted, Distribution(newCol), Distribution(baselineCol));
    if |shifted| > 0 {
      assert shifted[0].category in CategoriesOf(shifted);
    }
  }

  // ---------------------------------------------------------------------
  // Batch level

  /** A configured feature is checked only when both frames have it. */
  predicate InBoth(newData: Table, baseline: Table, f: string) {
    f in newData.columns && f in baseline.columns
  }

  predicate Comparable(newData: Table, baseline: Table) {
    Rectangular(newData) && Rectangular(baseline)
  }

  function NumericalFinding(newData: Table, baseline: Table, f: string): NumericalDrift
    requires Comparable(newData, baseline) && InBoth(newData, baseline, f)
  {
    CheckNumericalDrift(Column(newData, f), Column(baseline, f), f)
  }

  ghost function CategoricalFindingAlert(newData: Table, baseline: Table, f: string): Alert
    requires Comparable(newData, baseline) && InBoth(newData, baseline, f)
  {
    CategoricalAlert(Column(newData, f), Column(baseline, f), f)
  }

  ghost predicate CategoricalDrifted(newData: Table, baseline: Table, f: string)
    requires Comparable(newData, baseline) && InBoth(newData, baseline, f)
  {
    MaxShift(Column(newData, f), Column(baseline, f)) > CategoricalThreshold
  }

  /** The warnings the numerical loop appends for the features `fs`, in order. */
  function NumericalWarnings(newData: Table, baseline: Table, fs: seq<string>): seq<Alert>
    requires Comparable(newData, baseline)
  {
    if fs == [] then []
    else
      var f := fs[|fs| - 1];
      NumericalWarnings(newData, baseline, fs[..|fs| - 1]) +
      (if InBoth(newData, baseline, f) && NumericalFinding(newData, baseline, f).driftDetected
       then [NumericalFinding(newData, baseline, f).warning] else [])
  }

  /** The warnings the categorical loop appends for the features `fs`, in order. */
  ghost function CategoricalWarnings(newData: Table, baseline: Table, fs: seq<string>): seq<Alert>
    requires Comparable(newData, baseline)
  {
    if fs == [] then []
    else
      var f := fs[|fs| - 1];
      CategoricalWarnings(newData, baseline, fs[..|fs| - 1]) +
      (if InBoth(newData, baseline, f) && CategoricalDrifted(newData, baseline, f)
       then [CategoricalFindingAlert(newData, baseline, f)] else [])
  }

  ghost predicate SomeNumericalDrift(newData: Table, baseline: Table, fs: seq<string>)
    requires Comparable(newData, baseline)
  {
    exists f :: f in fs && InBoth(newData, baseline, f) && NumericalFinding(newData, baseline, f).driftDetected
  }

  lemma SomeNumericalDriftStep(newData: Table, baseline: Table, fs: seq<string>, f: string)
    requires Comparable(newData, baseline)
    ensures SomeNumericalDrift(newData, baseline, fs + [f]) <==>
      SomeNumericalDrift(newData, baseline, fs) || (InBoth(newData, baseline, f) && NumericalFinding(newData, baseline, f).driftDetected)
  {
    assert forall g :: g in fs + [f] <==> g in fs || g == f;
  }

  ghost predicate SomeCategoricalDrift(newData: Table, baseline: Table, fs: seq<string>)
    requires Comparable(newData, baseline)
  {
    exists f :: f in fs && InBoth(newData, baseline, f) && CategoricalDrifted(newData, baseline, f)
  }

  /** Every drifted feature contributes one warning, so warnings exist iff some feature drifted. */
  lemma {:induction false} NumericalWarningsIffDrift(newData: Table, baseline: Table, fs: seq<string>)
    requires Comparable(newData, baseline)
    ensures |NumericalWarnings(newData, baseline, fs)| > 0 <==> SomeNumericalDrift(newData, baseline, fs)
    ensures forall a :: a in NumericalWarnings(newData, baseline, fs) ==> a.MeanShift?
  {
    if fs != [] {
      var init := fs[..|fs| - 1];
      var f := fs[|fs| - 1];
      assert fs == init + [f];
      NumericalWarningsIffDrift(newData, baseline, init);
      NumericalPassStep(newData, baseline, init, f);
      if InBoth(newData, baseline, f) {
        DriftWarningIsMeanShift(newData, baseline, f);
      }
    }
  }

  lemma DriftWarningIsMeanShift(newData: Table, baseline: Table, f: string)
    requires Comparable(newData, baseline) && InBoth(newData, baseline, f)
    ensures NumericalFinding(newData, baseline, f).driftDetected ==> NumericalFinding(newData, baseline, f).warning.MeanShift?
  {
  }

  lemma {:induction false} CategoricalWarningsIffDrift(newData: Table, baseline: Table, fs: seq<string>)
    requires Comparable(newData, baseline)
    ensures |CategoricalWarnings(newData, baseline, fs)| > 0 <==> SomeCategoricalDrift(newData, baseline, fs)
    ensures forall a :: a in CategoricalWarnings(newData, baseline, fs) ==> a.DistributionShift?
  {
    if fs != [] {
      var init := fs[..|fs| - 1];
      var f := fs[|fs| - 1];
      CategoricalWarningsIffDrift(newData, baseline, init);
      assert forall g :: g in fs <==> g in init || g == f;
    }
  }

  // ---------------------------------------------------------------------
  // Coverage summary

  function Covered(newData: Table, baseline: Table, fs: seq<string>): seq<string> {
    if fs == [] then []
    else
      var f := fs[|fs| - 1];
      Covered(newData, baseline, fs[..|fs| - 1]) + (if InBoth(newData, baseline, f) then [f] else [])
  }

  function Uncovered(newData: Table, baseline: Table, fs: seq<string>): seq<string> {
    if fs == [] then []
    else
      var f := fs[|fs| - 1];
      Uncovered(newData, baseline, fs[..|fs| - 1]) + (if InBoth(newData, baseline, f) then [] else [f])
  }

  /** `Covered` keeps exactly the listed features present in both frames, `Uncovered` the others. */
  lemma {:induction false} CoverageMembers(newData: Table, baseline: Table, fs: seq<string>)
    ensures forall f :: f in Covered(newData, baseline, fs) <==> f in fs && InBoth(newData, baseline, f)
    ensures forall f :: f in Uncovered(newData, baseline, fs) <==> f in fs && !InBoth(newData, baseline, f)
    ensures |Covered(newData, baseline, fs)| + |Uncovered(newData, baseline, fs)| == |fs|
  {
    if fs != [] {
      CoverageMembers(newData, baseline, fs[..|fs| - 1]);
      assert forall g :: g in fs <==> g in fs[..|fs| - 1] || g == fs[|fs| - 1];
    }
  }

  datatype SummaryStats = SummaryStats(
    newRows: nat,
    baselineRows: nat,
    sizeRatio: real,
    numericalAnalyzed: seq<string>,
    categoricalAnalyzed: seq<string>,
    missing: seq<string>)

  /** One coverage loop: the features present in both frames, and the rest, in list order. */
  method SplitCoverage(newData: Table, baseline: Table, features: seq<string>)
    returns (analyzed: seq<string>, missing: seq<string>)
    ensures analyzed == Covered(newData, baseline, features)
    ensures missing == Uncovered(newData, baseline, features)
  {
    analyzed, missing := [], [];
    for j := 0 to |features|
      invariant analyzed == Covered(newData, baseline, features[..j])
      invariant missing == Uncovered(newData, baseline, features[..j])
    {
      var feature := features[j];
      assert features[..j + 1][..j] == features[..j];
      if feature in newData.columns && feature in baseline.columns {
        analyzed := analyzed + [feature];
      } else {
        missing := missing + [feature];
      }
    }
    assert features[..|features|] == features;
  }

  /** `_generate_summary_stats`. */
  method GenerateSummaryStats(newData: Table, baseline: Table, numericalFeatures: seq<string>, categoricalFeatures: seq<string>)
    returns (s: SummaryStats)
    ensures s.newRows == |newData.rows| && s.baselineRows == |baseline.rows|
    ensures |baseline.rows| == 0 ==> s.sizeRatio == 0.0
    ensures |baseline.rows| > 0 ==> s.sizeRatio == |newData.rows| as real / |baseline.rows| as real
    ensures s.numericalAnalyzed == Covered(newData, baseline, numericalFeatures)
    ensures s.categoricalAnalyzed == Covered(newData, baseline, categoricalFeatures)
    ensures s.missing == Uncovered(newData, baseline, numericalFeatures) + Uncovered(newData, baseline, categoricalFeatures)
  {
    var ratio := if |baseline.rows| > 0 then |newData.rows| as real / |baseline.rows| as real else 0.0;
    var numerical, missingNumerical := SplitCoverage(newData, baseline, numericalFeatures);
    var categorical, missingCategorical := SplitCoverage(newData, baseline, categoricalFeatures);
    s := SummaryStats(|newData.rows|, |baseline.rows|, ratio, numerical, categorical, missingNumerical + missingCategorical);
  }

  /** Each configured feature lands in exactly one of the three coverage lists, which together hold seven names. */
  lemma CoveragePartition(newData: Table, baseline: Table, f: string)
    requires f in NumericalFeatures || f in CategoricalFeatures
    ensures var num := Covered(newData, baseline, NumericalFeatures);
      var cat := Covered(newData, baseline, CategoricalFeatures);
      var miss := Uncovered(newData, baseline, NumericalFeatures) + Uncovered(newData, baseline, CategoricalFeatures);
      (if f in num then 1 else 0) + (if f in cat then 1 else 0) + (if f in miss then 1 else 0) == 1 &&
      |num| + |cat| + |miss| == 7
  {
    CoverageMembers(newData, baseline, NumericalFeatures);
    CoverageMembers(newData, baseline, CategoricalFeatures);
  }

  // ---------------------------------------------------------------------
  // check_for_drift

  datatype DriftResults = DriftResults(
    driftDetected: bool,
    driftWarnings: seq<Alert>,
    numericalDrift: map<string, NumericalDrift>,
    categoricalDrift: map<string, CategoricalDrift>,
    visualizations: seq<(string, string)>,
    summaryStats: SummaryStats)

  /** The `numerical_drift` map after the loop has visited `fs`. */
  function NumericalResults(newData: Table, baseline: Table, fs: seq<string>): map<string, NumericalDrift>
    requires Comparable(newData, baseline)
  {
    if fs == [] then map[]
    else
      var f := fs[|fs| - 1];
      var prior := NumericalResults(newData, baseline, fs[..|fs| - 1]);
      if InBoth(newData, baseline, f) then prior[f := NumericalFinding(newData, baseline, f)] else prior
  }

  /** The map has an entry exactly for each listed feature present in both frames, holding that feature's finding. */
  lemma {:induction false} NumericalResultsEntries(newData: Table, baseline: Table, fs: seq<string>)
    requires Comparable(newData, baseline)
    ensures NumericalResults(newData, baseline, fs).Keys == set f | f in fs && InBoth(newData, baseline, f)
    ensures forall f :: f in NumericalResults(newData, baseline, fs) ==>
      NumericalResults(newData, baseline, fs)[f] == NumericalFinding(newData, baseline, f)
  {
    if fs != [] {
      var init := fs[..|fs| - 1];
      NumericalResultsEntries(newData, baseline, init);
      assert forall g :: g in fs <==> g in init || g == fs[|fs| - 1];
    }
  }

  /** What one more feature adds to the flag, the warnings and the map of the numerical loop. */
  lemma NumericalPassStep(newData: Table, baseline: Table, fs: seq<string>, f: string)
    requires Comparable(newData, baseline)
    ensures !InBoth(newData, baseline, f) ==>
      (SomeNumericalDrift(newData, baseline, fs + [f]) <==> SomeNumericalDrift(newData, baseline, fs)) &&
      NumericalWarnings(newData, baseline, fs + [f]) == NumericalWarnings(newData, baseline, fs)
    ensures InBoth(newData, baseline, f) ==>
      var info := NumericalFinding(newData, baseline, f);
      (SomeNumericalDrift(newData, baseline, fs + [f]) <==> SomeNumericalDrift(newData, baseline, fs) || info.driftDetected) &&
      NumericalWarnings(newData, baseline, fs + [f]) ==
        NumericalWarnings(newData, baseline, fs) + (if info.driftDetected then [info.warning] else [])
    ensures NumericalResults(newData, baseline, fs + [f]) ==
      if InBoth(newData, baseline, f) then NumericalResults(newData, baseline, fs)[f := NumericalFinding(newData, baseline, f)]
      else NumericalResults(newData, baseline, fs)
  {
    assert (fs + [f])[..|fs|] == fs;
    SomeNumericalDriftStep(newData, baseline, fs, f);
  }

  /** Lines 40-47: the numerical loop of `check_for_drift` over `features`. */
  method NumericalPass(newData: Table, baseline: Table, features: seq<string>)
    returns (drifted: bool, warnings: seq<Alert>, results: map<string, NumericalDrift>)
    requires Comparable(newData, baseline)
    ensures drifted <==> SomeNumericalDrift(newData, baseline, features)
    ensures warnings == NumericalWarnings(newData, baseline, features)
    ensures results.Keys == set f | f in features && InBoth(newData, baseline, f)
    ensures forall f :: f in results ==> InBoth(newData, baseline, f) && results[f] == NumericalFinding(newData, baseline, f)
  {
    drifted, warnings, results := false, [], map[];
    for j := 0 to |features|
      invariant drifted <==> SomeNumericalDrift(newData, baseline, features[..j])
      invariant warnings == NumericalWarnings(newData, baseline, features[..j])
      invariant results == NumericalResults(newData, baseline, features[..j])
    {
      var feature := features[j];
      assert features[..j + 1] == features[..j] + [feature];
      NumericalPassStep(newData, baseline, features[..j], feature);
      if feature in newData.columns && feature in baseline.columns {
        var info := NumericalFinding(newData, baseline, feature);
        results := results[feature := info];
        if info.driftDetected {
          drifted := true;
          warnings := warnings + [info.warning];
        }
      }
    }
    assert features[..|features|] == features;
    NumericalResultsEntries(newData, baseline, features);
  }

  /** Lines 50-57: the categorical loop of `check_for_drift` over `features`. */
  method CategoricalPass(newData: Table, baseline: Table, features: seq<string>)
    returns (drifted: bool, warnings: seq<Alert>, results: map<string, CategoricalDrift>)
    requires Comparable(newData, baseline)
    ensures drifted <==> SomeCategoricalDrift(newData, baseline, features)
    ensures warnings == CategoricalWarnings(newData, baseline, features)
    ensures results.Keys == set f | f in features && InBoth(newData, baseline, f)
    ensures forall f :: f in results ==>
      InBoth(newData, baseline, f) && CategoricalResult(Column(newData, f), Column(baseline, f), f, results[f])
  {
    drifted, warnings, results := false, [], map[];
    for j := 0 to |features|
      invariant drifted <==> SomeCategoricalDrift(newData, baseline, features[..j])
      invariant warnings == CategoricalWarnings(newData, baseline, features[..j])
      invariant results.Keys == set f | f in features[..j] && InBoth(newData, baseline, f)
      invariant forall f :: f in results ==>
        InBoth(newData, baseline, f) && CategoricalResult(Column(newData, f), Column(baseline, f), f, results[f])
    {
      var feature := features[j];
      assert features[..j + 1][..j] == features[..j];
      assert forall g :: g in features[..j + 1] <==> g in features[..j] || g == feature;
      if feature in newData.columns && feature in baseline.columns {
        var info := CheckCategoricalDrift(Column(newData, feature), Column(baseline, feature), feature);
        results := results[feature := info];
        if info.driftDetected {
          drifted := true;
          warnings := warnings + [info.warning];
        }
      }
    }
    assert features[..|features|] == features;
  }

  /**
   * `check_for_drift`. The charts come from plotting code outside this model
   * and are passed in as (name, base64 image) pairs in dictionary order.
   */
  method CheckForDrift(newData: Table, baseline: Table, visualizations: seq<(string, string)>)
    returns (r: DriftResults)
    requires Comparable(newData, baseline)
    ensures r.driftDetected <==>
      SomeNumericalDrift(newData, baseline, NumericalFeatures) || SomeCategoricalDrift(newData, baseline, CategoricalFeatures)
    ensures r.driftWarnings ==
      NumericalWarnings(newData, baseline, NumericalFeatures) + CategoricalWarnings(newData, baseline, CategoricalFeatures)
    ensures r.numericalDrift.Keys == set f | f in NumericalFeatures && InBoth(newData, baseline, f)
    ensures forall f :: f in r.numericalDrift ==>
      InBoth(newData, baseline, f) && r.numericalDrift[f] == NumericalFinding(newData, baseline, f)
    ensures r.categoricalDrift.Keys == set f | f in CategoricalFeatures && InBoth(newData, baseline, f)
    ensures forall f :: f in r.categoricalDrift ==>
      InBoth(newData, baseline, f) && CategoricalResult(Column(newData, f), Column(baseline, f), f, r.categoricalDrift[f])
    ensures r.visualizations == visualizations
    ensures r.summaryStats.newRows == |newData.rows| && r.summaryStats.baselineRows == |baseline.rows|
    ensures |baseline.rows| == 0 ==> r.summaryStats.sizeRatio == 0.0
    ensures |baseline.rows| > 0 ==> r.summaryStats.sizeRatio == |newData.rows| as real / |baseline.rows| as real
    ensures r.summaryStats.numericalAnalyzed == Covered(newData, baseline, NumericalFeatures)
    ensures r.summaryStats.categoricalAnalyzed == Covered(newData, baseline, CategoricalFeatures)
    ensures r.summaryStats.missing ==
      Uncovered(newData, baseline, NumericalFeatures) + Uncovered(newData, baseline, CategoricalFeatures)
  {
    var numericalDrifted, numericalWarnings, numerical := NumericalPass(newData, baseline, NumericalFeatures);
    var categoricalDrifted, categoricalWarnings, categorical := CategoricalPass(newData, baseline, CategoricalFeatures);
    var summary := GenerateSummaryStats(newData, baseline, NumericalFeatures, CategoricalFeatures);
    r := DriftResults(numericalDrifted || categoricalDrifted, numericalWarnings + categoricalWarnings,
      numerical, categorical, visualizations, summary);
  }

  /** The batch flag is set exactly when the warning list is non-empty, and every listed warning reports a drift. */
  lemma DriftIffWarnings(newData: Table, baseline: Table)
    requires Comparable(newData, baseline)
    ensures var ws := NumericalWarnings(newData, baseline, NumericalFeatures) + CategoricalWarnings(newData, baseline, CategoricalFeatures);
      (|ws| > 0 <==> SomeNumericalDrift(newData, baseline, NumericalFeatures) || SomeCategoricalDrift(newData, baseline, CategoricalFeatures)) &&
      (forall a :: a in ws ==> a.MeanShift? || a.DistributionShift?)
  {
    NumericalWarningsIffDrift(newData, baseline, NumericalFeatures);
    CategoricalWarningsIffDrift(newData, baseline, CategoricalFeatures);
  }

  // ---------------------------------------------------------------------
  // Heatmap score collection (the part of _create_drift_summary_heatmap before plotting)

  /** The numerical features that get a score: checked, with both samples non-empty. */
  function ScoredNumerical(newData: Table, baseline: Table, fs: seq<string>): seq<(string, real)>
    requires Comparable(newData, baseline)
  {
    if fs == [] then []
    else
      var f := fs[|fs| - 1];
      ScoredNumerical(newData, baseline, fs[..|fs| - 1]) +
      (if InBoth(newData, baseline, f) && NumericalFinding(newData, baseline, f).meanChangePct.Some?
       then [(f, NumericalFinding(newData, baseline, f).meanChangePct.value)] else [])
  }

  /** The categorical features that get a score: every one present in both frames. */
  ghost function ScoredCategorical(newData: Table, baseline: Table, fs: seq<string>): seq<(string, real)>
    requires Comparable(newData, baseline)
  {
    if fs == [] then []
    else
      var f := fs[|fs| - 1];
      ScoredCategorical(newData, baseline, fs[..|fs| - 1]) +
      (if InBoth(newData, baseline, f) then [(f, MaxShift(Column(newData, f), Column(baseline, f)))] else [])
  }

  function Names(scored: seq<(string, real)>): (fs: seq<string>)
    ensures |fs| == |scored|
    ensures forall i :: 0 <= i < |scored| ==> fs[i] == scored[i].0
  {
    seq(|scored|, i requires 0 <= i < |scored| => scored[i].0)
  }

  function Scores(scored: seq<(string, real)>): (ss: seq<real>)
    ensures |ss| == |scored|
    ensures forall i :: 0 <= i < |scored| ==> ss[i] == scored[i].1
  {
    seq(|scored|, i requires 0 <= i < |scored| => scored[i].1)
  }

  /** Lines 292-298: the numerical scores, in list order. */
  method NumericalScores(newData: Table, baseline: Table, features: seq<string>) returns (scored: seq<(string, real)>)
    requires Comparable(newData, baseline)
    ensures scored == ScoredNumerical(newData, baseline, features)
  {
    scored := [];
    for j := 0 to |features|
      invariant scored == ScoredNumerical(newData, baseline, features[..j])
    {
      var feature := features[j];
      assert features[..j + 1][..j] == features[..j];
      if feature in newData.columns && feature in baseline.columns {
        var info := NumericalFinding(newData, baseline, feature);
        if info.meanChangePct.Some? {
          scored := scored + [(feature, info.meanChangePct.value)];
        }
      }
    }
    assert features[..|features|] == features;
  }

  /** Lines 300-304: the categorical scores, in list order. */
  method CategoricalScores(newData: Table, baseline: Table, features: seq<string>) returns (scored: seq<(string, real)>)
    requires Comparable(newData, baseline)
    ensures scored == ScoredCategorical(newData, baseline, features)
  {
    scored := [];
    for j := 0 to |features|
      invariant scored == ScoredCategorical(newData, baseline, features[..j])
    {
      var feature := features[j];
      assert features[..j + 1][..j] == features[..j];
      if feature in newData.columns && feature in baseline.columns {
        var info := CheckCategoricalDrift(Column(newData, feature), Column(baseline, feature), feature);
        scored := scored + [(feature, info.maxShift)];
      }
    }
    assert features[..|features|] == features;
  }

  /**
   * Lines 288-307: the parallel lists of feature names and drift scores the
   * heatmap plots, or `None` where the source returns "" because no feature
   * could be scored.
   */
  method HeatmapScores(newData: Table, baseline: Table, numericalFeatures: seq<string>, categoricalFeatures: seq<string>)
    returns (r: Option<(seq<string>, seq<real>)>)
    requires Comparable(newData, baseline)
    ensures var scored := ScoredNumerical(newData, baseline, numericalFeatures) + ScoredCategorical(newData, baseline, categoricalFeatures);
      (r.None? <==> scored == []) &&
      (r.Some? ==> r.value.0 == Names(scored) && r.value.1 == Scores(scored))
  {
    var numerical := NumericalScores(newData, baseline, numericalFeatures);
    var categorical := CategoricalScores(newData, baseline, categoricalFeatures);
    var scored := numerical + categorical;
    var features := Names(scored);
    var driftScores := Scores(scored);
    if |features| == 0 {
      r := None;
    } else {
      r := Some((features, driftScores));
    }
  }

  /** Every categorical feature present in both frames is scored, whatever its data. */
  lemma {:induction false} CategoricalAlwaysScored(newData: Table, baseline: Table, fs: seq<string>)
    requires Comparable(newData, baseline)
    ensures Names(ScoredCategorical(newData, baseline, fs)) == Covered(newData, baseline, fs)
  {
    if fs != [] {
      CategoricalAlwaysScored(newData, baseline, fs[..|fs| - 1]);
    }
  }

  /** A numerical feature is scored iff it is checked and both cleaned samples are non-empty. */
  lemma {:induction false} NumericalScoredIff(newData: Table, baseline: Table, fs: seq<string>, f: string)
    requires Comparable(newData, baseline)
    ensures f in Names(ScoredNumerical(newData, baseline, fs)) <==>
      f in fs && InBoth(newData, baseline, f) &&
      |Cleaned(Column(newData, f))| > 0 && |Cleaned(Column(baseline, f))| > 0
  {
    if fs != [] {
      var init := fs[..|fs| - 1];
      var last := fs[|fs| - 1];
      NumericalScoredIff(newData, baseline, init, f);
      assert forall g :: g in fs <==> g in init || g == last;
      var scoredInit := ScoredNumerical(newData, baseline, init);
      var scored := ScoredNumerical(newData, baseline, fs);
      if scored == scoredInit {
        assert Names(scored) == Names(scoredInit);
      } else {
        assert Names(scored) == Names(scoredInit) + [last];
      }
    }
  }
}
