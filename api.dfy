/**
 * The HTTP endpoints of api/main.py that carry logic: churn prediction with
 * thresholding, a summary and an optional top-K selection; the
 * recommendations report endpoint, which chains drift analysis,
 * recommendations and the report; and the guards and report lookup of the
 * e-mail endpoint. The trained classifier, the baseline file, the report
 * file and the file system are parameters; SMTP and MIME are not modelled.
 */
module ChurnApi {
  import opened Frames
  import opened InferencePreprocess
  import MonitoringAgent
  import opened RecommendationAgent

  // ---------------------------------------------------------------------
  // Thresholding and summary (predict_churn, lines 86 and 102-112)

  /** `[int(p >= threshold) for p in proba]`. */
  function Predictions(proba: seq<real>, threshold: real): (preds: seq<int>)
    ensures |preds| == |proba|
    ensures forall i :: 0 <= i < |proba| ==> preds[i] == (if proba[i] >= threshold then 1 else 0)
  {
    seq(|proba|, i requires 0 <= i < |proba| => if proba[i] >= threshold then 1 else 0)
  }

  function Sum(xs: seq<int>): int {
    if xs == [] then 0 else Sum(xs[..|xs| - 1]) + xs[|xs| - 1]
  }

  /** How many probabilities reach the threshold. */
  function CountAtLeast(proba: seq<real>, threshold: real): (n: nat)
    ensures n <= |proba|
  {
    if proba == [] then 0
    else CountAtLeast(proba[..|proba| - 1], threshold) + (if proba[|proba| - 1] >= threshold then 1 else 0)
  }

  /** `sum(preds)` counts the customers at or above the threshold. */
  lemma {:induction false} ChurnCountIsAtLeast(proba: seq<real>, threshold: real)
    ensures Sum(Predictions(proba, threshold)) == CountAtLeast(proba, threshold)
  {
    if proba != [] {
      var init := proba[..|proba| - 1];
      ChurnCountIsAtLeast(init, threshold);
      assert Predictions(proba, threshold)[..|proba| - 1] == Predictions(init, threshold);
    }
  }

  /** Raising the threshold never adds churners. */
  lemma {:induction false} ThresholdMonotone(proba: seq<real>, low: real, high: real)
    requires low <= high
    ensures CountAtLeast(proba, high) <= CountAtLeast(proba, low)
  {
    if proba != [] {
      ThresholdMonotone(proba[..|proba| - 1], low, high);
    }
  }

  datatype PredictionSummary = PredictionSummary(
    totalCustomers: nat,
    churnCount: int,
    noChurnCount: int,
    churnPercentage: real,
    noChurnPercentage: real)

  /** The `summary` dictionary; percentages are 0 for an empty upload. */
  function Summary(preds: seq<int>): (s: PredictionSummary)
    ensures s.totalCustomers == |preds|
    ensures s.churnCount + s.noChurnCount == s.totalCustomers
    ensures s.totalCustomers == 0 ==> s.churnPercentage == 0.0 && s.noChurnPercentage == 0.0
    ensures s.totalCustomers > 0 ==> s.churnPercentage + s.noChurnPercentage == 100.0
    ensures s.totalCustomers > 0 ==> s.churnPercentage * s.totalCustomers as real == 100.0 * s.churnCount as real
    ensures s.totalCustomers > 0 ==> s.noChurnPercentage * s.totalCustomers as real == 100.0 * s.noChurnCount as real
  {
    var total := |preds|;
    var churn := Sum(preds);
    var noChurn := total - churn;
    if total > 0 then
      SharesAddUp(churn, noChurn, total);
      Percentage(churn, total);
      Percentage(noChurn, total);
      PredictionSummary(total, churn, noChurn, 100.0 * churn as real / total as real, 100.0 * noChurn as real / total as real)
    else
      PredictionSummary(total, churn, noChurn, 0.0, 0.0)
  }

  /**
   * The counts partition the upload, each percentage is 100 times its count
   * over the upload size, and the two add up to 100 (0 and 0 when nothing
   * was uploaded).
   */
  lemma SummaryConsistent(proba: seq<real>, threshold: real)
    ensures var s := Summary(Predictions(proba, threshold));
      s.totalCustomers == |proba| &&
      s.churnCount == CountAtLeast(proba, threshold) &&
      s.churnCount + s.noChurnCount == s.totalCustomers &&
      0 <= s.noChurnCount &&
      (s.totalCustomers == 0 ==> s.churnPercentage == 0.0 && s.noChurnPercentage == 0.0) &&
      (s.totalCustomers > 0 ==> s.churnPercentage + s.noChurnPercentage == 100.0) &&
      (s.totalCustomers > 0 ==> s.churnPercentage == 100.0 * CountAtLeast(proba, threshold) as real / |proba| as real) &&
      (s.totalCustomers > 0 ==>
        s.noChurnPercentage == 100.0 * (|proba| - CountAtLeast(proba, threshold)) as real / |proba| as real)
  {
    var preds := Predictions(proba, threshold);
    ChurnCountIsAtLeast(proba, threshold);
    var s := Summary(preds);
    assert s.totalCustomers == |proba| && s.churnCount == CountAtLeast(proba, threshold);
  }

  /** A percentage of a positive total, multiplied back by the total, gives 100 times the part. */
  lemma Percentage(part: int, total: nat)
    requires total > 0
    ensures (100.0 * part as real / total as real) * total as real == 100.0 * part as real
  {
  }

  lemma SharesAddUp(part: int, rest: int, total: nat)
    requires total > 0 && part + rest == total
    ensures 100.0 * part as real / total as real + 100.0 * rest as real / total as real == 100.0
  {
    var n := total as real;
    assert 100.0 * part as real / n + 100.0 * rest as real / n == 100.0 * (part + rest) as real / n;
  }

  // ---------------------------------------------------------------------
  // Top-K (DataFrame.nlargest(k, 'churn_probability'), keep='first')

  /** Row `i` ranks before row `j`: a higher probability, or the same one and an earlier row. */
  predicate Before(proba: seq<real>, i: nat, j: nat)
    requires i < |proba| && j < |proba|
  {
    proba[i] > proba[j] || (proba[i] == proba[j] && i < j)
  }

  predicate InRange(proba: seq<real>, s: seq<nat>) {
    forall a :: 0 <= a < |s| ==> s[a] < |proba|
  }

  /** Strictly ranked, hence without repetitions. */
  predicate Ranked(proba: seq<real>, s: seq<nat>) {
    InRange(proba, s) &&
    forall a, b :: 0 <= a < b < |s| ==> Before(proba, s[a], s[b])
  }

  function Insert(proba: seq<real>, x: nat, s: seq<nat>): (r: seq<nat>)
    requires x < |proba| && InRange(proba, s)
    ensures |r| == |s| + 1 && InRange(proba, r)
    ensures forall v :: v in r <==> v == x || v in s
  {
    if s == [] then [x]
    else if Before(proba, x, s[0]) then [x] + s
    else [s[0]] + Insert(proba, x, s[1..])
  }

  lemma {:induction false} InsertRanked(proba: seq<real>, x: nat, s: seq<nat>)
    requires x < |proba| && Ranked(proba, s) && x !in s
    ensures Ranked(proba, Insert(proba, x, s))
  {
    if s != [] && !Before(proba, x, s[0]) {
      InsertRanked(proba, x, s[1..]);
      var r := Insert(proba, x, s);
      assert Before(proba, s[0], x);
      forall b | 0 < b < |r|
        ensures Before(proba, s[0], r[b])
      {
        assert r[b] in Insert(proba, x, s[1..]);
      }
    }
  }

  /** The first `m` row indices in ranking order. */
  function RankedIndices(proba: seq<real>, m: nat): (r: seq<nat>)
    requires m <= |proba|
    ensures |r| == m && InRange(proba, r)
    ensures forall v :: v in r <==> 0 <= v < m
  {
    if m == 0 then []
    else
      var rest := RankedIndices(proba, m - 1);
      Insert(proba, m - 1, rest)
  }

  lemma {:induction false} RankedIndicesRanked(proba: seq<real>, m: nat)
    requires m <= |proba|
    ensures Ranked(proba, RankedIndices(proba, m))
  {
    if m > 0 {
      RankedIndicesRanked(proba, m - 1);
      InsertRanked(proba, m - 1, RankedIndices(proba, m - 1));
    }
  }

  function Min(a: int, b: int): int {
    if a < b then a else b
  }

  /** The rows `nlargest(k)` returns, as row indices, best first. */
  function TopKIndices(proba: seq<real>, k: nat): (top: seq<nat>)
    ensures |top| == Min(k, |proba|) && InRange(proba, top)
  {
    RankedIndices(proba, |proba|)[..Min(k, |proba|)]
  }

  /**
   * The top-K selection returns min(k, n) distinct rows in descending
   * probability, earlier rows first on ties, and every row it leaves out
   * ranks below every row it keeps.
   */
  lemma TopKSelection(proba: seq<real>, k: nat)
    ensures var top := TopKIndices(proba, k);
      |top| == Min(k, |proba|) && InRange(proba, top) &&
      (forall a, b :: 0 <= a < b < |top| ==> top[a] != top[b] && proba[top[a]] >= proba[top[b]]) &&
      (forall a, j :: 0 <= a < |top| && 0 <= j < |proba| && j !in top ==>
        proba[top[a]] > proba[j] || (proba[top[a]] == proba[j] && top[a] < j))
  {
    var all := RankedIndices(proba, |proba|);
    RankedIndicesRanked(proba, |proba|);
    var top := TopKIndices(proba, k);
    forall a, j | 0 <= a < |top| && 0 <= j < |proba| && j !in top
      ensures Before(proba, top[a], j)
    {
      assert j in all;
      var b :| 0 <= b < |all| && all[b] == j;
      assert b >= |top|;
    }
  }

  /** With k at least the number of rows, every row is returned. */
  lemma TopKAll(proba: seq<real>, k: nat)
    requires k >= |proba|
    ensures |TopKIndices(proba, k)| == |proba|
    ensures forall v :: v in TopKIndices(proba, k) <==> 0 <= v < |proba|
  {
    assert TopKIndices(proba, k) == RankedIndices(proba, |proba|);
  }

  function SelectRows(rows: seq<Row>, indices: seq<nat>): (r: seq<Row>)
    requires forall a :: 0 <= a < |indices| ==> indices[a] < |rows|
    ensures |r| == |indices| && forall a :: 0 <= a < |indices| ==> r[a] == rows[indices[a]]
  {
    seq(|indices|, a requires 0 <= a < |indices| => rows[indices[a]])
  }

  // ---------------------------------------------------------------------
  // predict_churn

  const ProbabilityColumn: string := "churn_probability"
  const PredictionColumn: string := "prediction"

  function ProbabilityValues(proba: seq<real>): (vs: seq<Value>)
    ensures |vs| == |proba| && forall i :: 0 <= i < |proba| ==> vs[i] == Num(proba[i])
  {
    seq(|proba|, i requires 0 <= i < |proba| => Num(proba[i]))
  }

  function PredictionValues(preds: seq<int>): (vs: seq<Value>)
    ensures |vs| == |preds| && forall i :: 0 <= i < |preds| ==> vs[i] == Num(preds[i] as real)
  {
    seq(|preds|, i requires 0 <= i < |preds| => Num(preds[i] as real))
  }

  /** The uploaded table with the two prediction columns added. */
  function Scored(upload: Table, proba: seq<real>, threshold: real): (t: Table)
    requires Rectangular(upload) && |proba| == |upload.rows|
    ensures Rectangular(t) && |t.rows| == |upload.rows|
  {
    var withProbability := SetColumn(upload, ProbabilityColumn, ProbabilityValues(proba));
    SetColumn(withProbability, PredictionColumn, PredictionValues(Predictions(proba, threshold)))
  }

  /**
   * The response rows are the uploaded rows, untouched by preprocessing,
   * plus the probability and a 0/1 prediction that is 1 exactly at or above
   * the threshold.
   */
  lemma ScoredRows(upload: Table, proba: seq<real>, threshold: real, i: int)
    requires Rectangular(upload) && |proba| == |upload.rows| && 0 <= i < |proba|
    ensures var row := Scored(upload, proba, threshold).rows[i];
      row.Keys == upload.columns + {ProbabilityColumn, PredictionColumn} &&
      (forall c :: c in upload.columns && c != ProbabilityColumn && c != PredictionColumn ==> row[c] == upload.rows[i][c]) &&
      row[ProbabilityColumn] == Num(proba[i]) &&
      (row[PredictionColumn] == Num(1.0) <==> proba[i] >= threshold) &&
      (row[PredictionColumn] == Num(0.0) <==> proba[i] < threshold)
  {
  }

  datatype PredictionResponse = PredictionResponse(
    data: seq<Row>,
    summary: PredictionSummary,
    thresholdUsed: real,
    kValueApplied: Option<int>)

  /** The response rows: the top `k` scored rows when `k` is a positive number, else all of them in upload order. */
  function ResponseRows(scored: Table, proba: seq<real>, k: Option<int>): seq<Row>
    requires |proba| == |scored.rows|
  {
    if k.Some? && k.value > 0 then SelectRows(scored.rows, TopKIndices(proba, k.value)) else scored.rows
  }

  /**
   * `predict_churn`, after the CSV upload is decoded. The uploaded frame is
   * copied, the frame itself is preprocessed in place, and `classify`
   * stands for the trained pipeline's positive-class probabilities. A
   * classifier answer of the wrong length fails the column assignment.
   */
  method PredictChurn(df: DataFrame, classify: Table -> seq<real>, threshold: real, k: Option<int>)
    returns (r: Result<PredictionResponse>)
    requires df.Valid() && Preprocessable(df.Snapshot())
    modifies df
    ensures df.Valid() && df.Snapshot() == Preprocessed(old(df.Snapshot()))
    ensures var upload := old(df.Snapshot());
      var proba := classify(Preprocessed(upload));
      (r.Failure? <==> |proba| != |upload.rows|) &&
      (r.Success? ==>
        r.value.data == ResponseRows(Scored(upload, proba, threshold), proba, k) &&
        r.value.summary == Summary(Predictions(proba, threshold)) &&
        r.value.thresholdUsed == threshold && r.value.kValueApplied == k)
  {
    var originalData := df.Copy();
    var processed := PreprocessInference(df);
    var proba := classify(processed.Snapshot());
    if |proba| != |originalData.rows| {
      return Failure("ValueError: Length of values does not match length of index");
    }
    var preds := Predictions(proba, threshold);
    originalData.AssignColumn(ProbabilityColumn, ProbabilityValues(proba));
    originalData.AssignColumn(PredictionColumn, PredictionValues(preds));
    var resultData;
    if k.Some? && k.value > 0 {
      resultData := SelectRows(originalData.rows, TopKIndices(proba, k.value));
    } else {
      resultData := originalData.rows;
    }
    r := Success(PredictionResponse(resultData, Summary(preds), threshold, k));
  }

  // ---------------------------------------------------------------------
  // generate_recommendations_report_endpoint

  datatype ReportResponse =
    | ReportGenerated(
        report: HtmlReport,
        totalCustomers: nat,
        highRiskCustomers: nat,
        totalRevenueAtRisk: Value,
        criticalCases: nat,
        preview: seq<Recommendation>)
    | ReportFailed(error: string)

  /**
   * The endpoint's guarded drift check: no results when the baseline could
   * not be loaded, otherwise those of `check_for_drift`.
   */
  method DriftAnalysis(churners: Table, baseline: Option<Table>, visualizations: seq<(string, string)>)
    returns (d: Option<MonitoringAgent.DriftResults>)
    requires Rectangular(churners)
    requires baseline.Some? ==> Rectangular(baseline.value)
    ensures d.Some? <==> baseline.Some?
    ensures d.Some? ==>
      var b := baseline.value;
      (d.value.driftDetected <==>
        MonitoringAgent.SomeNumericalDrift(churners, b, MonitoringAgent.NumericalFeatures) ||
        MonitoringAgent.SomeCategoricalDrift(churners, b, MonitoringAgent.CategoricalFeatures)) &&
      d.value.driftWarnings ==
        MonitoringAgent.NumericalWarnings(churners, b, MonitoringAgent.NumericalFeatures) +
        MonitoringAgent.CategoricalWarnings(churners, b, MonitoringAgent.CategoricalFeatures) &&
      d.value.visualizations == visualizations
  {
    d := None;
    if baseline.Some? {
      var results := MonitoringAgent.CheckForDrift(churners, baseline.value, visualizations);
      d := Some(results);
    }
  }

  /**
   * The endpoint once the entries exist: the totals, the HTML report and
   * the response, for `topKCustomers` input rows.
   */
  method ReportSummary(topKCustomers: nat, recs: seq<Recommendation>, driftResults: Option<MonitoringAgent.DriftResults>)
    returns (r: ReportResponse)
    requires Figures(recs)
    ensures r.ReportGenerated?
    ensures r.totalCustomers == topKCustomers && r.highRiskCustomers == |recs|
    ensures r.totalRevenueAtRisk == SumValues(RevenuesAtRisk(recs))
    ensures r.criticalCases == CountTier(recs, Critical)
    ensures r.preview == recs[..Min(3, |recs|)]
    ensures r.report.highRiskCount == |recs| && r.report.totalCustomers == topKCustomers
    ensures r.report.criticalCount == CountTier(recs, Critical)
    ensures r.report.criticalShare == CriticalShare(CountTier(recs, Critical), |recs|)
    ensures r.report.averageChurnProbability == AverageChurn(recs)
    ensures |r.report.cards| == |recs| && forall i :: 0 <= i < |recs| ==> r.report.cards[i] == CardFor(recs[i])
    ensures driftResults.None? ==> r.report.drift == NoDriftSection
    ensures driftResults.Some? && !driftResults.value.driftDetected ==> r.report.drift == NoDriftNotice
    ensures driftResults.Some? && driftResults.value.driftDetected ==>
      r.report.drift == DriftAlerts(driftResults.value.driftWarnings, ChartsOf(driftResults.value.visualizations))
  {
    var totalRevenueAtRisk := SumValues(RevenuesAtRisk(recs));
    var criticalCases := CountTier(recs, Critical);
    var averageChurn := AverageChurn(recs);
    var report := GenerateHtmlReport(recs, topKCustomers, totalRevenueAtRisk, driftResults, Some(criticalCases), Some(averageChurn));
    r := ReportGenerated(report, topKCustomers, |recs|, totalRevenueAtRisk, criticalCases, recs[..Min(3, |recs|)]);
  }

  /**
   * `generate_recommendations_report_endpoint`. `baseline` is the training
   * sample `load_baseline_data` returns, `None` when it cannot be loaded;
   * `visualizations` stands for the drift charts. Writing the report file
   * is not modelled: the report is returned. The critical share uses the
   * guarded division (see `CriticalShare`).
   */
  method GenerateRecommendationsReportEndpoint(
    churnersData: seq<Row>,
    baseline: Option<Table>,
    visualizations: seq<(string, string)>)
    returns (r: ReportResponse)
    requires baseline.Some? ==> Rectangular(baseline.value)
    ensures r.ReportFailed? <==> exists i :: 0 <= i < |churnersData| && !Scorable(FromRecords(churnersData).rows[i])
    ensures r.ReportGenerated? ==>
      var churners := FromRecords(churnersData);
      var recs := RecommendationsOf(churners.rows);
      r.totalCustomers == |churnersData| && r.highRiskCustomers == |churnersData| &&
      r.totalRevenueAtRisk == SumValues(RevenuesAtRisk(recs)) &&
      r.criticalCases == CountTier(recs, Critical) &&
      r.preview == recs[..Min(3, |recs|)] &&
      r.report.highRiskCount == |recs| && r.report.totalCustomers == |churnersData| &&
      r.report.criticalCount == CountTier(recs, Critical) &&
      r.report.criticalShare == CriticalShare(CountTier(recs, Critical), |recs|) &&
      r.report.averageChurnProbability == AverageChurn(recs) &&
      |r.report.cards| == |recs| &&
      (forall i :: 0 <= i < |recs| ==> r.report.cards[i] == CardFor(recs[i])) &&
      (baseline.None? ==> r.report.drift == NoDriftSection) &&
      (baseline.Some? ==>
        var b := baseline.value;
        (r.report.drift.DriftAlerts? <==>
          MonitoringAgent.SomeNumericalDrift(churners, b, MonitoringAgent.NumericalFeatures) ||
          MonitoringAgent.SomeCategoricalDrift(churners, b, MonitoringAgent.CategoricalFeatures)) &&
        (!r.report.drift.DriftAlerts? ==> r.report.drift == NoDriftNotice) &&
        (r.report.drift.DriftAlerts? ==>
          r.report.drift.alerts ==
            MonitoringAgent.NumericalWarnings(churners, b, MonitoringAgent.NumericalFeatures) +
            MonitoringAgent.CategoricalWarnings(churners, b, MonitoringAgent.CategoricalFeatures) &&
          r.report.drift.charts == ChartsOf(visualizations)))
  {
    var churners := FromRecords(churnersData);
    var driftResults := DriftAnalysis(churners, baseline, visualizations);
    var generated := GenerateRecommendationsReport(churners);
    if generated.Failure? {
      return ReportFailed("Error generating recommendations report: " + generated.error);
    }
    r := ReportSummary(|churners.rows|, generated.value, driftResults);
  }

  /** The report's critical share is a percentage, 0 for an empty request. */
  lemma EndpointCriticalShare(rows: seq<Row>)
    requires forall i :: 0 <= i < |rows| ==> Scorable(rows[i])
    ensures var recs := RecommendationsOf(rows);
      0.0 <= CriticalShare(CountTier(recs, Critical), |recs|) <= 100.0 &&
      (rows == [] ==> CriticalShare(CountTier(recs, Critical), |recs|) == 0.0)
  {
    var recs := RecommendationsOf(rows);
    CriticalShareCorrected(CountTier(recs, Critical), |recs|);
  }

  // ---------------------------------------------------------------------
  // send_email: guards and report lookup (lines 211-229 and 244-273)

  datatype EmailRequest = EmailRequest(recipientEmail: Option<string>, resultsCsvPath: Option<string>)

  /** The environment variables the endpoint reads. */
  datatype Environment = Environment(smtpPort: Option<string>, emailUsername: Option<string>, emailPassword: Option<string>)

  /** Python falsiness of an optional string: `None` or "". */
  predicate Blank(s: Option<string>) {
    s.None? || s.value == ""
  }

  predicate IsSpace(ch: char) {
    ch == ' ' || 9 <= ch as int <= 13
  }

  function TrimStart(s: string): (r: string)
    ensures |r| <= |s| && r == s[|s| - |r|..]
    ensures r == [] || !IsSpace(r[0])
    ensures forall i :: 0 <= i < |s| - |r| ==> IsSpace(s[i])
  {
    if s != [] && IsSpace(s[0]) then TrimStart(s[1..]) else s
  }

  function TrimEnd(s: string): (r: string)
    ensures |r| <= |s| && r == s[..|r|]
    ensures r == [] || !IsSpace(r[|r| - 1])
    ensures forall i :: |r| <= i < |s| ==> IsSpace(s[i])
  {
    if s != [] && IsSpace(s[|s| - 1]) then TrimEnd(s[..|s| - 1]) else s
  }

  /** `str.strip()` for ASCII whitespace. */
  function Strip(s: string): string {
    TrimEnd(TrimStart(s))
  }

  predicate OccursAt(s: string, needle: string, i: nat) {
    i + |needle| <= |s| && s[i..i + |needle|] == needle
  }

  /** `needle in s` on strings. */
  predicate Contains(s: string, needle: string) {
    exists i: nat :: i <= |s| && OccursAt(s, needle, i)
  }

  /** A report worth sending: more than 100 characters once stripped, and mentions "Churn Prediction". */
  predicate MeaningfulReport(content: string) {
    |Strip(content)| > 100 && Contains(content, "Churn Prediction")
  }

  /** `int(s)` on stripped text: an optionally signed, non-empty run of decimal digits. */
  function ParseInteger(s: string): (n: Option<int>)
    ensures n.Some? <==>
      (|s| > 0 && AllDigits(s)) || (|s| > 1 && (s[0] == '-' || s[0] == '+') && AllDigits(s[1..]))
    ensures n.Some? ==> (n.value < 0 ==> s[0] == '-')
  {
    var digits := if |s| > 0 && (s[0] == '-' || s[0] == '+') then s[1..] else s;
    if |digits| > 0 && AllDigits(digits) then
      Some(if s[0] == '-' then -(DigitsValue(digits) as int) else DigitsValue(digits))
    else None
  }

  /** `int(os.getenv("SMTP_PORT", "587"))`: the setting is stripped of blanks, then read as an integer. */
  function SmtpPort(setting: Option<string>): (port: Option<int>)
    ensures setting.None? ==> port == Some(587)
  {
    if setting.None? then Some(587) else ParseInteger(Strip(setting.value))
  }

  /** Every integer's decimal spelling reads back as that integer. */
  lemma ParseIntegerFormat(n: int)
    ensures ParseInteger(FormatInt(n)) == Some(n)
  {
    var text := FormatInt(n);
    var digits := FormatNat(if n < 0 then -n else n);
    DigitsOfFormat(if n < 0 then -n else n);
    if n < 0 {
      assert text[1..] == digits;
    } else {
      assert IsDigit(text[0]);
    }
  }

  /** A port written as a plain decimal integer, in any padding of blanks, reads back as that integer. */
  lemma SmtpPortReadsBack(n: int, pad: string)
    requires forall i :: 0 <= i < |pad| ==> IsSpace(pad[i])
    ensures SmtpPort(Some(pad + FormatInt(n) + pad)) == Some(n)
  {
    var text := FormatInt(n);
    var digits := FormatNat(if n < 0 then -n else n);
    assert text[0] == '-' || IsDigit(text[0]);
    assert text[|text| - 1] == digits[|digits| - 1];
    StripPadded(pad, text);
    ParseIntegerFormat(n);
  }

  lemma {:induction false} StripPadded(pad: string, text: string)
    requires forall i :: 0 <= i < |pad| ==> IsSpace(pad[i])
    requires |text| > 0 && !IsSpace(text[0]) && !IsSpace(text[|text| - 1])
    ensures Strip(pad + text + pad) == text
  {
    TrimStartPadded(pad, text + pad);
    assert pad + text + pad == pad + (text + pad);
    TrimEndPadded(text, pad);
  }

  lemma {:induction false} TrimStartPadded(pad: string, s: string)
    requires forall i :: 0 <= i < |pad| ==> IsSpace(pad[i])
    requires |s| > 0 && !IsSpace(s[0])
    ensures TrimStart(pad + s) == s
  {
    if pad != [] {
      assert (pad + s)[1..] == pad[1..] + s;
      TrimStartPadded(pad[1..], s);
    }
  }

  lemma {:induction false} TrimEndPadded(s: string, pad: string)
    requires forall i :: 0 <= i < |pad| ==> IsSpace(pad[i])
    requires |s| > 0 && !IsSpace(s[|s| - 1])
    ensures TrimEnd(s + pad) == s
  {
    if pad != [] {
      assert (s + pad)[..|s + pad| - 1] == s + pad[..|pad| - 1];
      TrimEndPadded(s, pad[..|pad| - 1]);
    } else {
      assert s + pad == s;
    }
  }

  /** The three places the report is looked for, in order. */
  function ReportLocations(projectRoot: string): seq<string> {
    [projectRoot + "/telecom_churn_frontend/drift_report.html", projectRoot + "/reports/drift_report.html", "drift_report.html"]
  }

  /**
   * The file system as the lookup sees it: a path that is present exists;
   * its entry is the file's text, or `None` when reading it raises.
   */
  type Files = map<string, Option<string>>

  predicate UsableAt(files: Files, path: string) {
    path in files && files[path].Some? && MeaningfulReport(files[path].value)
  }

  /** The first location holding a meaningful report, with its text. */
  function FirstReport(paths: seq<string>, files: Files): (found: Option<(string, string)>)
    ensures found.Some? ==> found.value.0 in paths && UsableAt(files, found.value.0) && files[found.value.0] == Some(found.value.1)
    ensures found.None? <==> forall p :: p in paths ==> !UsableAt(files, p)
  {
    if paths == [] then None
    else if UsableAt(files, paths[0]) then Some((paths[0], files[paths[0]].value))
    else FirstReport(paths[1..], files)
  }

  /** Every location before the one chosen holds no meaningful report. */
  lemma {:induction false} FirstReportIsFirst(paths: seq<string>, files: Files)
    requires FirstReport(paths, files).Some?
    ensures exists k ::
      0 <= k < |paths| && paths[k] == FirstReport(paths, files).value.0 && (forall j :: 0 <= j < k ==> !UsableAt(files, paths[j]))
  {
    var found := FirstReport(paths, files).value.0;
    if UsableAt(files, paths[0]) {
      assert paths[0] == found;
    } else {
      var rest := paths[1..];
      assert FirstReport(rest, files) == FirstReport(paths, files);
      FirstReportIsFirst(rest, files);
      var k :| 0 <= k < |rest| && rest[k] == found && (forall j :: 0 <= j < k ==> !UsableAt(files, rest[j]));
      forall j | 0 <= j < k + 1
        ensures !UsableAt(files, paths[j])
      {
        if j > 0 {
          assert paths[j] == rest[j - 1];
        }
      }
      assert paths[k + 1] == found;
    }
  }

  datatype EmailOutcome =
    | MissingRecipient
    | InvalidConfiguration
    | MissingCredentials
    | NoValidReport
    | ReadyToSend(reportPath: string, html: string, smtpPort: int)

  /** What the endpoint decides, guard by guard, before it builds and sends the message. */
  function EmailDecision(request: EmailRequest, env: Environment, projectRoot: string, files: Files): (outcome: EmailOutcome)
    ensures Blank(request.recipientEmail) <==> outcome == MissingRecipient
    ensures outcome.ReadyToSend? ==> MeaningfulReport(outcome.html) && outcome.reportPath in ReportLocations(projectRoot)
  {
    if Blank(request.recipientEmail) then MissingRecipient
    else if SmtpPort(env.smtpPort).None? then InvalidConfiguration
    else if Blank(env.emailUsername) || Blank(env.emailPassword) then MissingCredentials
    else
      var found := FirstReport(ReportLocations(projectRoot), files);
      if found.None? then NoValidReport
      else ReadyToSend(found.value.0, found.value.1, SmtpPort(env.smtpPort).value)
  }

  /**
   * The guards apply in order: a missing recipient is reported even when
   * the credentials are missing too, and no report is looked up before
   * both credentials are set. A message is prepared exactly when every
   * guard passes and some location holds a meaningful report.
   */
  lemma EmailGuardOrder(request: EmailRequest, env: Environment, projectRoot: string, files: Files)
    ensures var outcome := EmailDecision(request, env, projectRoot, files);
      (Blank(request.recipientEmail) <==> outcome == MissingRecipient) &&
      (outcome == MissingCredentials ==> !Blank(request.recipientEmail) && (Blank(env.emailUsername) || Blank(env.emailPassword))) &&
      (outcome.ReadyToSend? <==>
        !Blank(request.recipientEmail) && SmtpPort(env.smtpPort).Some? &&
        !Blank(env.emailUsername) && !Blank(env.emailPassword) &&
        exists p :: p in ReportLocations(projectRoot) && UsableAt(files, p)) &&
      (outcome.ReadyToSend? ==> MeaningfulReport(outcome.html) && outcome.reportPath in ReportLocations(projectRoot))
  {
  }

  /**
   * `send_email` up to the message construction: the guards, then the
   * lookup loop, which skips missing, unreadable and trivial files and
   * stops at the first meaningful report.
   */
  method SendEmail(request: EmailRequest, env: Environment, projectRoot: string, files: Files)
    returns (outcome: EmailOutcome)
    ensures outcome == EmailDecision(request, env, projectRoot, files)
  {
    if Blank(request.recipientEmail) {
      return MissingRecipient;
    }
    var port := SmtpPort(env.smtpPort);
    if port.None? {
      return InvalidConfiguration;
    }
    if Blank(env.emailUsername) || Blank(env.emailPassword) {
      return MissingCredentials;
    }
    var possibleReportPaths := ReportLocations(projectRoot);
    var reportPath: Option<string> := None;
    var htmlContent := "";
    var i := 0;
    while i < |possibleReportPaths| && reportPath.None?
      invariant 0 <= i <= |possibleReportPaths|
      invariant reportPath.None? ==> FirstReport(possibleReportPaths, files) == FirstReport(possibleReportPaths[i..], files)
      invariant reportPath.Some? ==> FirstReport(possibleReportPaths, files) == Some((reportPath.value, htmlContent))
      decreases |possibleReportPaths| - i, if reportPath.None? then 1 else 0
    {
      var path := possibleReportPaths[i];
      assert possibleReportPaths[i..][1..] == possibleReportPaths[i + 1..];
      if path in files {
        var read := files[path];
        if read.Some? {
          var content := read.value;
          if |Strip(content)| > 100 && Contains(content, "Churn Prediction") {
            reportPath := Some(path);
            htmlContent := content;
          }
        }
      }
      if reportPath.None? {
        i := i + 1;
      }
    }
    if reportPath.None? {
      assert possibleReportPaths[i..] == [];
      return NoValidReport;
    }
    outcome := ReadyToSend(reportPath.value, htmlContent, port.value);
  }
}
