/**
 * Retention recommendations (api/agents/recommendation_agent.py): one
 * recommendation per at-risk customer, with an urgency tier and up to four
 * rule-based retention actions, and the report that lists them. The report
 * is kept as a structured document: the HTML mark-up, CSS and time stamp
 * around its fields are not modelled.
 */
module RecommendationAgent {
  import opened Frames
  import MonitoringAgent

  // ---------------------------------------------------------------------
  // Urgency

  datatype Tier = Critical | High | Medium | Low

  function TierName(t: Tier): string {
    match t
    case Critical => "CRITICAL"
    case High => "HIGH"
    case Medium => "MEDIUM"
    case Low => "LOW"
  }

  /** 3 for CRITICAL down to 0 for LOW. */
  function Rank(t: Tier): nat {
    match t
    case Critical => 3
    case High => 2
    case Medium => 1
    case Low => 0
  }

  /**
   * `_calculate_urgency_level`: strict cut-offs at 0.8, 0.6 and 0.4 on the
   * churn probability; the tenure argument is accepted and ignored, and a
   * NaN probability fails every comparison.
   */
  function UrgencyLevel(churnProbability: Value, tenure: Value): (t: Tier)
    requires Numeric(churnProbability)
    ensures t == Critical <==> churnProbability.Num? && churnProbability.x > 0.8
    ensures t == High <==> churnProbability.Num? && 0.6 < churnProbability.x <= 0.8
    ensures t == Medium <==> churnProbability.Num? && 0.4 < churnProbability.x <= 0.6
    ensures t == Low <==> churnProbability.Missing? || churnProbability.x <= 0.4
  {
    if Greater(churnProbability, 0.8) then Critical
    else if Greater(churnProbability, 0.6) then High
    else if Greater(churnProbability, 0.4) then Medium
    else Low
  }

  /** A higher probability never yields a lower tier, whatever the two tenures. */
  lemma UrgencyMonotone(p: real, q: real, tenure1: Value, tenure2: Value)
    requires p <= q
    ensures Rank(UrgencyLevel(Num(p), tenure1)) <= Rank(UrgencyLevel(Num(q), tenure2))
  {
  }

  /** The boundaries themselves fall into the lower tier. */
  lemma UrgencyBoundaries(tenure: Value)
    ensures UrgencyLevel(Num(0.81), tenure) == Critical
    ensures UrgencyLevel(Num(0.8), tenure) == High
    ensures UrgencyLevel(Num(0.6), tenure) == Medium
    ensures UrgencyLevel(Num(0.4), tenure) == Low
    ensures UrgencyLevel(Missing, tenure) == Low
  {
  }

  // ---------------------------------------------------------------------
  // Retention actions

  const MonthToMonth: string := "Month-to-month"
  const OneYear: string := "One year"

  /** The retention actions the rules can recommend. */
  datatype Action =
    | UrgentContractOffer
    | ContractUpgradeOffer
    | ContractExtensionOffer
    | PremiumPackage
    | MidTierBundle
    | LoyaltyDiscount
    | SuccessManager
    | LoyaltyRewards
    | LongTermBenefits
    | TechSupportOffer
    | SecurityTrial
    | BackupOffer
    | ProtectionOffer
    | StreamingBundle
    | AutoPayIncentive
    | FiberUpgrade

  /** The text of each action as it appears in the report. */
  function ActionText(a: Action): string {
    match a
    case UrgentContractOffer => "URGENT: Offer immediate 20% discount for 12-month contract commitment"
    case ContractUpgradeOffer => "Offer 15% discount for 12-month contract upgrade"
    case ContractExtensionOffer => "Offer 10% discount for 24-month contract extension"
    case PremiumPackage => "Consider premium retention package with added value services"
    case MidTierBundle => "Offer mid-tier service bundle with 10% discount"
    case LoyaltyDiscount => "Provide loyalty discount and service upgrade options"
    case SuccessManager => "Assign dedicated customer success manager for first-year support"
    case LoyaltyRewards => "Offer loyalty rewards and service enhancement consultation"
    case LongTermBenefits => "Recognize long-term loyalty with exclusive benefits program"
    case TechSupportOffer => "Offer complimentary tech support for 6 months"
    case SecurityTrial => "Provide free online security service trial"
    case BackupOffer => "Include free cloud backup service"
    case ProtectionOffer => "Offer device protection plan at 50% discount"
    case StreamingBundle => "Bundle streaming services at promotional rate"
    case AutoPayIncentive => "Incentivize automatic payment setup with billing discount"
    case FiberUpgrade => "Offer fiber upgrade with installation incentives"
  }

  /** The arguments of `_generate_personalized_recommendation`. */
  datatype Profile = Profile(
    contract: Value,
    internetService: Value,
    monthlyCharges: Value,
    tenure: Value,
    paymentMethod: Value,
    techSupport: Value,
    onlineSecurity: Value,
    onlineBackup: Value,
    deviceProtection: Value,
    streamingTV: Value,
    streamingMovies: Value,
    churnProbability: Value)

  /** The comparisons the rules perform do not raise: charges and tenure are always compared, the probability only for month-to-month contracts. */
  predicate Comparable(p: Profile) {
    Numeric(p.monthlyCharges) && Numeric(p.tenure) &&
    (p.contract == Str(MonthToMonth) ==> Numeric(p.churnProbability))
  }

  /** The contract offer: none for a two-year or unknown contract. */
  function ContractActions(p: Profile): (acts: seq<Action>)
    requires Comparable(p)
    ensures |acts| <= 1
  {
    if p.contract == Str(MonthToMonth) then
      if Greater(p.churnProbability, 0.7) then [UrgentContractOffer] else [ContractUpgradeOffer]
    else if p.contract == Str(OneYear) then [ContractExtensionOffer]
    else []
  }

  function PricingAction(monthlyCharges: Value): (a: Action)
    requires Numeric(monthlyCharges)
    ensures a == PremiumPackage <==> monthlyCharges.Num? && monthlyCharges.x > 80.0
    ensures a == MidTierBundle <==> monthlyCharges.Num? && 50.0 < monthlyCharges.x <= 80.0
    ensures a == LoyaltyDiscount <==> monthlyCharges.Missing? || monthlyCharges.x <= 50.0
  {
    if Greater(monthlyCharges, 80.0) then PremiumPackage
    else if Greater(monthlyCharges, 50.0) then MidTierBundle
    else LoyaltyDiscount
  }

  function TenureAction(tenure: Value): (a: Action)
    requires Numeric(tenure)
    ensures a == SuccessManager <==> tenure.Num? && tenure.x < 12.0
    ensures a == LoyaltyRewards <==> tenure.Num? && 12.0 <= tenure.x < 24.0
    ensures a == LongTermBenefits <==> tenure.Missing? || tenure.x >= 24.0
  {
    if Less(tenure, 12.0) then SuccessManager
    else if Less(tenure, 24.0) then LoyaltyRewards
    else LongTermBenefits
  }

  function When(condition: bool, action: Action): seq<Action> {
    if condition then [action] else []
  }

  /** The service, streaming, payment and internet actions, in rule order. */
  function ServiceActions(p: Profile): seq<Action> {
    When(p.techSupport == Str("No"), TechSupportOffer) +
    When(p.onlineSecurity == Str("No"), SecurityTrial) +
    When(p.onlineBackup == Str("No"), BackupOffer) +
    When(p.deviceProtection == Str("No"), ProtectionOffer) +
    When(p.streamingTV == Str("No") && p.streamingMovies == Str("No"), StreamingBundle) +
    When(p.paymentMethod == Str("Electronic check"), AutoPayIncentive) +
    When(p.internetService == Str("DSL"), FiberUpgrade)
  }

  /** Every action the rules produce, in priority order. */
  function CandidateActions(p: Profile): seq<Action>
    requires Comparable(p)
  {
    ContractActions(p) + [PricingAction(p.monthlyCharges), TenureAction(p.tenure)] + ServiceActions(p)
  }

  /** `recommendations[:4]`. */
  function RecommendedActions(p: Profile): seq<Action>
    requires Comparable(p)
  {
    var all := CandidateActions(p);
    if |all| <= 4 then all else all[..4]
  }

  /** `" | ".join(...)`. */
  function Join(segments: seq<string>, separator: string): string {
    if |segments| == 0 then ""
    else if |segments| == 1 then segments[0]
    else segments[0] + separator + Join(segments[1..], separator)
  }

  /** The texts of a list of actions, in order. */
  function Texts(acts: seq<Action>): (texts: seq<string>)
    ensures |texts| == |acts|
  {
    seq(|acts|, i requires 0 <= i < |acts| => ActionText(acts[i]))
  }

  /** `_generate_personalized_recommendation`. */
  function PersonalizedRecommendation(p: Profile): string
    requires Comparable(p)
  {
    Join(Texts(RecommendedActions(p)), " | ")
  }

  /**
   * The recommendation text opens with the highest-priority action kept and
   * closes with the last one kept, so nothing precedes the first or follows
   * the last of the at most four actions.
   */
  lemma PersonalizedRecommendationEnds(p: Profile)
    requires Comparable(p)
    ensures var acts := RecommendedActions(p);
      var text := PersonalizedRecommendation(p);
      var first := ActionText(acts[0]);
      var last := ActionText(acts[|acts| - 1]);
      |first| <= |text| && text[..|first|] == first &&
      |last| <= |text| && text[|text| - |last|..] == last
  {
    JoinEnds(Texts(RecommendedActions(p)), " | ");
  }

  /** The contract rule: which offer, if any, heads the list. */
  lemma ContractOfferRule(p: Profile)
    requires Comparable(p)
    ensures ContractActions(p) == [UrgentContractOffer] <==>
      p.contract == Str(MonthToMonth) && p.churnProbability.Num? && p.churnProbability.x > 0.7
    ensures ContractActions(p) == [ContractUpgradeOffer] <==>
      p.contract == Str(MonthToMonth) && (p.churnProbability.Missing? || p.churnProbability.x <= 0.7)
    ensures ContractActions(p) == [ContractExtensionOffer] <==> p.contract == Str(OneYear)
    ensures ContractActions(p) == [] <==> p.contract != Str(MonthToMonth) && p.contract != Str(OneYear)
  {
  }

  /** Every customer gets a pricing and a tenure action, and never more than four actions. */
  lemma ActionCount(p: Profile)
    requires Comparable(p)
    ensures 2 <= |RecommendedActions(p)| <= 4
    ensures |RecommendedActions(p)| == if |CandidateActions(p)| < 4 then |CandidateActions(p)| else 4
    ensures PricingAction(p.monthlyCharges) in RecommendedActions(p)
    ensures TenureAction(p.tenure) in RecommendedActions(p)
  {
    var acts := RecommendedActions(p);
    var contract := ContractActions(p);
    assert acts[|contract|] == PricingAction(p.monthlyCharges);
    assert acts[|contract| + 1] == TenureAction(p.tenure);
  }

  /**
   * A month-to-month or one-year customer gets the contract, pricing and
   * tenure actions first, so at most the first service action fits.
   */
  lemma ContractCustomerActions(p: Profile)
    requires Comparable(p)
    requires p.contract == Str(MonthToMonth) || p.contract == Str(OneYear)
    ensures var acts := RecommendedActions(p);
      acts[..3] == ContractActions(p) + [PricingAction(p.monthlyCharges), TenureAction(p.tenure)] &&
      (|acts| == 3 <==> ServiceActions(p) == []) &&
      (|acts| == 4 ==> acts[3] == ServiceActions(p)[0])
  {
    var acts := RecommendedActions(p);
    assert |ContractActions(p)| == 1;
    assert acts[..3] == CandidateActions(p)[..3];
  }

  /** Any other customer gets the pricing and tenure actions first, then up to two service actions. */
  lemma NoContractOfferActions(p: Profile)
    requires Comparable(p)
    requires p.contract != Str(MonthToMonth) && p.contract != Str(OneYear)
    ensures var acts := RecommendedActions(p);
      var services := ServiceActions(p);
      acts == [PricingAction(p.monthlyCharges), TenureAction(p.tenure)] + (if |services| <= 2 then services else services[..2])
  {
  }

  /** A month-to-month customer at 0.75 without tech support: urgent offer first, tech support fourth. */
  lemma UrgentScenario(p: Profile)
    requires p.contract == Str(MonthToMonth) && p.churnProbability == Num(0.75) && p.techSupport == Str("No")
    requires Numeric(p.monthlyCharges) && Numeric(p.tenure)
    ensures RecommendedActions(p)[0] == UrgentContractOffer
    ensures |RecommendedActions(p)| == 4 && RecommendedActions(p)[3] == TechSupportOffer
  {
    ContractCustomerActions(p);
  }

  function Occurrences(s: string, ch: char): nat {
    if s == [] then 0 else (if s[0] == ch then 1 else 0) + Occurrences(s[1..], ch)
  }

  lemma {:induction false} OccurrencesConcat(a: string, b: string, ch: char)
    ensures Occurrences(a + b, ch) == Occurrences(a, ch) + Occurrences(b, ch)
  {
    if a == [] {
      assert a + b == b;
    } else {
      assert (a + b)[1..] == a[1..] + b;
      OccurrencesConcat(a[1..], b, ch);
    }
  }

  lemma {:induction false} OccurrencesAbsent(s: string, ch: char)
    requires ch !in s
    ensures Occurrences(s, ch) == 0
  {
    if s != [] {
      OccurrencesAbsent(s[1..], ch);
    }
  }

  /** Joining pipe-free segments with " | " leaves exactly one pipe between neighbours. */
  lemma {:induction false} JoinPipes(segments: seq<string>)
    requires |segments| > 0
    requires forall i :: 0 <= i < |segments| ==> '|' !in segments[i]
    ensures Occurrences(Join(segments, " | "), '|') == |segments| - 1
  {
    OccurrencesAbsent(segments[0], '|');
    if |segments| > 1 {
      JoinPipes(segments[1..]);
      OccurrencesConcat(segments[0], " | ", '|');
      OccurrencesConcat(segments[0] + " | ", Join(segments[1..], " | "), '|');
    }
  }

  /** The joined text starts with the first segment and ends with the last. */
  lemma {:induction false} JoinEnds(segments: seq<string>, separator: string)
    requires |segments| > 0
    ensures var text := Join(segments, separator);
      var last := segments[|segments| - 1];
      |segments[0]| <= |text| && text[..|segments[0]|] == segments[0] &&
      |last| <= |text| && text[|text| - |last|..] == last
  {
    if |segments| > 1 {
      JoinEnds(segments[1..], separator);
      var rest := Join(segments[1..], separator);
      var text := segments[0] + separator + rest;
      assert text[..|segments[0]|] == segments[0];
      assert text[|text| - |rest|..] == rest;
    }
  }

  /** The recommendation text of the urgent scenario begins with the urgent offer and ends with the tech-support offer. */
  lemma UrgentScenarioText(p: Profile)
    requires p.contract == Str(MonthToMonth) && p.churnProbability == Num(0.75) && p.techSupport == Str("No")
    requires Numeric(p.monthlyCharges) && Numeric(p.tenure)
    ensures var text := PersonalizedRecommendation(p);
      var first := ActionText(UrgentContractOffer);
      var last := ActionText(TechSupportOffer);
      |first| <= |text| && text[..|first|] == first &&
      |last| <= |text| && text[|text| - |last|..] == last
  {
    UrgentScenario(p);
    var texts := Texts(RecommendedActions(p));
    assert texts[0] == ActionText(UrgentContractOffer);
    assert texts[|texts| - 1] == ActionText(TechSupportOffer);
    JoinEnds(texts, " | ");
  }

  // ---------------------------------------------------------------------
  // generate_recommendations_report

  /** One entry of the report list. */
  datatype Recommendation = Recommendation(
    customerId: Value,
    churnProbability: Value,
    urgencyLevel: Tier,
    revenueAtRisk: Value,
    recommendation: string,
    contractType: Value,
    monthlyCharges: Value,
    tenureMonths: Value,
    internetService: Value,
    paymentMethod: Value)

  const Unknown: Value := Str("Unknown")

  /** The profile read from a customer row, with the source's defaults for absent columns. */
  function ProfileOf(row: Row): Profile {
    Profile(
      Get(row, "Contract", Unknown),
      Get(row, "InternetService", Unknown),
      Get(row, "MonthlyCharges", Num(0.0)),
      Get(row, "tenure", Num(0.0)),
      Get(row, "PaymentMethod", Unknown),
      Get(row, "TechSupport", Unknown),
      Get(row, "OnlineSecurity", Unknown),
      Get(row, "OnlineBackup", Unknown),
      Get(row, "DeviceProtection", Unknown),
      Get(row, "StreamingTV", Unknown),
      Get(row, "StreamingMovies", Unknown),
      Get(row, "churn_probability", Num(0.0)))
  }

  /** A row whose probability, charges and tenure can be compared with numbers (otherwise Python raises TypeError). */
  predicate Scorable(row: Row) {
    Numeric(Get(row, "churn_probability", Num(0.0))) &&
    Numeric(Get(row, "MonthlyCharges", Num(0.0))) &&
    Numeric(Get(row, "tenure", Num(0.0)))
  }

  /** The error a comparison between a string and a number raises. */
  const ComparisonError := "TypeError: comparison of a string with a number"

  /** The report entry for one customer row. */
  function RecommendationFor(row: Row): (r: Result<Recommendation>)
    ensures r.Success? <==> Scorable(row)
    ensures r.Success? ==> Numeric(r.value.churnProbability) && Numeric(r.value.revenueAtRisk)
  {
    var p := ProfileOf(row);
    if !Scorable(row) then Failure(ComparisonError)
    else
      Success(Recommendation(
        Get(row, "customerID", Unknown),
        Times(p.churnProbability, Num(100.0)),
        UrgencyLevel(p.churnProbability, p.tenure),
        Times(p.monthlyCharges, Num(12.0)),
        PersonalizedRecommendation(p),
        p.contract,
        p.monthlyCharges,
        p.tenure,
        p.internetService,
        p.paymentMethod))
  }

  /** The entry's figures: probability in percent, a year of charges at risk, and the urgency of the raw probability. */
  lemma RecommendationFigures(row: Row)
    requires Scorable(row)
    ensures var r := RecommendationFor(row).value;
      var prob := Get(row, "churn_probability", Num(0.0));
      var charges := Get(row, "MonthlyCharges", Num(0.0));
      (prob.Num? ==> r.churnProbability == Num(prob.x * 100.0) && (r.urgencyLevel == Critical <==> prob.x > 0.8)) &&
      (charges.Num? ==> r.revenueAtRisk == Num(charges.x * 12.0)) &&
      ("MonthlyCharges" !in row ==> r.revenueAtRisk == Num(0.0)) &&
      ("churn_probability" !in row ==> r.urgencyLevel == Low) &&
      ("customerID" !in row ==> r.customerId == Unknown)
  {
  }

  /** The recommendations of a table whose rows all score, in row order. */
  function RecommendationsOf(rows: seq<Row>): (recs: seq<Recommendation>)
    requires forall i :: 0 <= i < |rows| ==> Scorable(rows[i])
    ensures |recs| == |rows|
    ensures Figures(recs)
  {
    if rows == [] then []
    else RecommendationsOf(rows[..|rows| - 1]) + [RecommendationFor(rows[|rows| - 1]).value]
  }

  /** Entry `i` of the list is the recommendation for row `i`. */
  lemma {:induction false} RecommendationsOfEntries(rows: seq<Row>)
    requires forall i :: 0 <= i < |rows| ==> Scorable(rows[i])
    ensures forall i :: 0 <= i < |rows| ==> RecommendationFor(rows[i]) == Success(RecommendationsOf(rows)[i])
  {
    if rows != [] {
      var init := rows[..|rows| - 1];
      RecommendationsOfEntries(init);
      var recs := RecommendationsOf(rows);
      assert recs == RecommendationsOf(init) + [RecommendationFor(rows[|rows| - 1]).value];
      forall i | 0 <= i < |rows|
        ensures RecommendationFor(rows[i]) == Success(recs[i])
      {
        if i < |init| {
          assert rows[i] == init[i];
        }
      }
    }
  }

  /** The entries of one more row are those of the rows before it followed by its own entry. */
  lemma RecommendationsOfSnoc(rows: seq<Row>, i: nat)
    requires i < |rows|
    requires forall j :: 0 <= j <= i ==> Scorable(rows[j])
    ensures RecommendationsOf(rows[..i + 1]) == RecommendationsOf(rows[..i]) + [RecommendationFor(rows[i]).value]
  {
    assert rows[..i + 1][..i] == rows[..i];
  }

  /** One pass of the report loop: the entry of row `i` joins the entries before it. */
  method AppendRecommendation(rows: seq<Row>, i: nat, recs: seq<Recommendation>) returns (next: seq<Recommendation>)
    requires i < |rows|
    requires forall j :: 0 <= j <= i ==> Scorable(rows[j])
    requires recs == RecommendationsOf(rows[..i])
    ensures next == RecommendationsOf(rows[..i + 1])
  {
    RecommendationsOfSnoc(rows, i);
    next := recs + [RecommendationFor(rows[i]).value];
  }

  /**
   * `generate_recommendations_report`: walks the rows in order; a row that
   * makes a comparison raise aborts the whole report.
   */
  method GenerateRecommendationsReport(churners: Table) returns (r: Result<seq<Recommendation>>)
    ensures r.Success? <==> forall i :: 0 <= i < |churners.rows| ==> Scorable(churners.rows[i])
    ensures r.Success? ==> r.value == RecommendationsOf(churners.rows)
  {
    var recommendations: seq<Recommendation> := [];
    for i := 0 to |churners.rows|
      invariant forall j :: 0 <= j < i ==> Scorable(churners.rows[j])
      invariant recommendations == RecommendationsOf(churners.rows[..i])
    {
      if !Scorable(churners.rows[i]) {
        return Failure(ComparisonError);
      }
      recommendations := AppendRecommendation(churners.rows, i, recommendations);
    }
    assert churners.rows[..|churners.rows|] == churners.rows;
    r := Success(recommendations);
  }

  // ---------------------------------------------------------------------
  // generate_html_report

  function CountTier(recs: seq<Recommendation>, tier: Tier): (n: nat)
    ensures n <= |recs|
  {
    if recs == [] then 0
    else CountTier(recs[..|recs| - 1], tier) + (if recs[|recs| - 1].urgencyLevel == tier then 1 else 0)
  }

  /** Every entry has exactly one tier, so the four tier counts add up to the number of entries. */
  lemma {:induction false} TierCountsAddUp(recs: seq<Recommendation>)
    ensures CountTier(recs, Critical) + CountTier(recs, High) + CountTier(recs, Medium) + CountTier(recs, Low) == |recs|
  {
    if recs != [] {
      TierCountsAddUp(recs[..|recs| - 1]);
    }
  }

  /** A tier is counted at least once exactly when some entry has it. */
  lemma {:induction false} CountTierPositive(recs: seq<Recommendation>, tier: Tier)
    ensures CountTier(recs, tier) > 0 <==> exists i :: 0 <= i < |recs| && recs[i].urgencyLevel == tier
  {
    if recs != [] {
      var init := recs[..|recs| - 1];
      CountTierPositive(init, tier);
      if exists i :: 0 <= i < |init| && init[i].urgencyLevel == tier {
        var i :| 0 <= i < |init| && init[i].urgencyLevel == tier;
        assert recs[i] == init[i];
      }
      if exists i :: 0 <= i < |recs| && recs[i].urgencyLevel == tier {
        var i :| 0 <= i < |recs| && recs[i].urgencyLevel == tier;
        if i < |init| {
          assert init[i] == recs[i];
        }
      }
    }
  }

  /** Python's `sum` over numeric cells: NaN absorbs. */
  function SumValues(vs: seq<Value>): (s: Value)
    requires forall i :: 0 <= i < |vs| ==> Numeric(vs[i])
    ensures Numeric(s)
    ensures s.Num? <==> forall i :: 0 <= i < |vs| ==> vs[i].Num?
  {
    if vs == [] then Num(0.0)
    else
      var rest := SumValues(vs[..|vs| - 1]);
      var last := vs[|vs| - 1];
      if rest.Num? && last.Num? then Num(rest.x + last.x) else Missing
  }

  /** Summing in two parts and adding the results is summing the whole, NaN absorbing on either side. */
  lemma {:induction false} SumValuesConcat(a: seq<Value>, b: seq<Value>)
    requires forall i :: 0 <= i < |a| ==> Numeric(a[i])
    requires forall i :: 0 <= i < |b| ==> Numeric(b[i])
    ensures forall i :: 0 <= i < |a + b| ==> Numeric((a + b)[i])
    ensures var whole := SumValues(a + b);
      var left := SumValues(a);
      var right := SumValues(b);
      whole == if left.Num? && right.Num? then Num(left.x + right.x) else Missing
  {
    if b == [] {
      assert a + b == a;
    } else {
      var init := b[..|b| - 1];
      assert (a + b)[..|a + b| - 1] == a + init;
      assert (a + b)[|a + b| - 1] == b[|b| - 1];
      SumValuesConcat(a, init);
    }
  }

  /** The recommendations' figures are numeric cells (the inputs were checked before the multiplications). */
  predicate Figures(recs: seq<Recommendation>) {
    forall i :: 0 <= i < |recs| ==> Numeric(recs[i].churnProbability) && Numeric(recs[i].revenueAtRisk)
  }

  function ChurnPercentages(recs: seq<Recommendation>): (vs: seq<Value>)
    requires Figures(recs)
    ensures |vs| == |recs| && forall i :: 0 <= i < |recs| ==> vs[i] == recs[i].churnProbability && Numeric(vs[i])
  {
    seq(|recs|, i requires 0 <= i < |recs| => recs[i].churnProbability)
  }

  function RevenuesAtRisk(recs: seq<Recommendation>): (vs: seq<Value>)
    requires Figures(recs)
    ensures |vs| == |recs| && forall i :: 0 <= i < |recs| ==> vs[i] == recs[i].revenueAtRisk && Numeric(vs[i])
  {
    seq(|recs|, i requires 0 <= i < |recs| => recs[i].revenueAtRisk)
  }

  /** The average churn percentage of the group, 0 for an empty group. */
  function AverageChurn(recs: seq<Recommendation>): (avg: Value)
    requires Figures(recs)
    ensures Numeric(avg)
    ensures recs == [] ==> avg == Num(0.0)
    ensures recs != [] && SumValues(ChurnPercentages(recs)).Num? ==>
      avg.Num? && avg.x * |recs| as real == SumValues(ChurnPercentages(recs)).x
  {
    if recs == [] then Num(0.0) else Divide(SumValues(ChurnPercentages(recs)), Num(|recs| as real))
  }

  /** The "% of high-risk" line as written: `critical_count / len(recommendations) * 100`. */
  function CriticalShareAsWritten(criticalCount: int, n: nat): (r: Result<real>)
    ensures r.Failure? <==> n == 0
  {
    if n == 0 then Failure("ZeroDivisionError: division by zero")
    else Success(criticalCount as real / n as real * 100.0)
  }

  /** An empty recommendation list makes the report fail, although every other figure has an empty-list fallback. */
  lemma EmptyReportFails(criticalCount: int)
    ensures CriticalShareAsWritten(criticalCount, 0).Failure?
    ensures AverageChurn([]) == Num(0.0)
  {
  }

  /** The share as evidently intended: 0% of nothing. */
  function CriticalShare(criticalCount: int, n: nat): (share: real)
    ensures n == 0 ==> share == 0.0
    ensures n > 0 ==> share * n as real == criticalCount as real * 100.0
  {
    if n == 0 then 0.0 else criticalCount as real / n as real * 100.0
  }

  /** The corrected share agrees with the written one wherever that one is defined, and is a percentage. */
  lemma CriticalShareCorrected(criticalCount: int, n: nat)
    ensures n > 0 ==> CriticalShareAsWritten(criticalCount, n) == Success(CriticalShare(criticalCount, n))
    ensures 0 <= criticalCount <= n ==> 0.0 <= CriticalShare(criticalCount, n) <= 100.0
  {
    if 0 <= criticalCount <= n && n > 0 {
      var share := CriticalShare(criticalCount, n);
      assert share * n as real == criticalCount as real * 100.0;
      assert share == criticalCount as real * 100.0 / n as real;
    }
  }

  function LowerChar(ch: char): char {
    if 'A' <= ch <= 'Z' then (ch as int + 32) as char else ch
  }

  function UpperChar(ch: char): char {
    if 'a' <= ch <= 'z' then (ch as int - 32) as char else ch
  }

  predicate IsLetter(ch: char) {
    'A' <= ch <= 'Z' || 'a' <= ch <= 'z'
  }

  /** `str.lower()` on ASCII text. */
  function Lower(s: string): (r: string)
    ensures |r| == |s|
  {
    seq(|s|, i requires 0 <= i < |s| => LowerChar(s[i]))
  }

  /** The CSS class of an urgency badge. */
  function BadgeClass(t: Tier): string {
    "urgency-" + Lower(TierName(t))
  }

  lemma BadgeClasses()
    ensures BadgeClass(Critical) == "urgency-critical" && BadgeClass(High) == "urgency-high"
    ensures BadgeClass(Medium) == "urgency-medium" && BadgeClass(Low) == "urgency-low"
  {
  }

  /** `str.replace('_', ' ')`. */
  function Unsnake(s: string): (r: string)
    ensures |r| == |s| && '_' !in r
  {
    seq(|s|, i requires 0 <= i < |s| => if s[i] == '_' then ' ' else s[i])
  }

  /** `str.title()` on ASCII text: a letter is upper-cased after a non-letter and lower-cased after a letter. */
  function Title(s: string): (r: string)
    ensures |r| == |s|
  {
    seq(|s|, i requires 0 <= i < |s| =>
      if !IsLetter(s[i]) then s[i]
      else if i == 0 || !IsLetter(s[i - 1]) then UpperChar(s[i])
      else LowerChar(s[i]))
  }

  /** One chart of the drift section. */
  datatype Chart = Chart(title: string, image: string)

  /** The drift section: none, the "no significant drift" notice, or the alerts with their charts. */
  datatype DriftSection =
    | NoDriftSection
    | NoDriftNotice
    | DriftAlerts(alerts: seq<MonitoringAgent.Alert>, charts: seq<Chart>)

  /** The charts shown: one per visualisation with non-empty data, in order. */
  function ChartsOf(visualizations: seq<(string, string)>): seq<Chart> {
    if visualizations == [] then []
    else
      var (name, data) := visualizations[|visualizations| - 1];
      ChartsOf(visualizations[..|visualizations| - 1]) +
      (if |data| > 0 then [Chart(Title(Unsnake(name)), data)] else [])
  }

  /** One customer card. */
  datatype Card = Card(
    customerId: Value,
    badgeClass: string,
    urgencyLevel: Tier,
    churnProbability: Value,
    revenueAtRisk: Value,
    contractType: Value,
    tenureMonths: Value,
    monthlyCharges: Value,
    internetService: Value,
    paymentMethod: Value,
    recommendation: string)

  function CardFor(rec: Recommendation): Card {
    Card(rec.customerId, BadgeClass(rec.urgencyLevel), rec.urgencyLevel, rec.churnProbability, rec.revenueAtRisk,
      rec.contractType, rec.tenureMonths, rec.monthlyCharges, rec.internetService, rec.paymentMethod, rec.recommendation)
  }

  /** The report's content: summary cards, drift section and customer cards. */
  datatype HtmlReport = HtmlReport(
    totalCustomers: int,
    highRiskCount: nat,
    criticalCount: int,
    criticalShare: real,
    totalRevenueAtRisk: Value,
    averageChurnProbability: Value,
    drift: DriftSection,
    cards: seq<Card>)

  /** Lines 182-191: an empty list of charts draws nothing; otherwise one chart per non-empty visualisation. */
  method DriftCharts(visualizations: seq<(string, string)>) returns (charts: seq<Chart>)
    ensures charts == ChartsOf(visualizations)
  {
    charts := [];
    for j := 0 to |visualizations|
      invariant charts == ChartsOf(visualizations[..j])
    {
      assert visualizations[..j + 1][..j] == visualizations[..j];
      var (name, data) := visualizations[j];
      if |data| > 0 {
        charts := charts + [Chart(Title(Unsnake(name)), data)];
      }
    }
    assert visualizations[..|visualizations|] == visualizations;
  }

  /** The customer cards, one per entry, in order. */
  method RenderCards(recs: seq<Recommendation>) returns (cards: seq<Card>)
    ensures |cards| == |recs|
    ensures forall i :: 0 <= i < |recs| ==> cards[i] == CardFor(recs[i])
  {
    cards := [];
    for i := 0 to |recs|
      invariant |cards| == i
      invariant forall j :: 0 <= j < i ==> cards[j] == CardFor(recs[j])
    {
      cards := cards + [CardFor(recs[i])];
    }
  }

  /**
   * `generate_html_report`, with the critical share guarded against an
   * empty list. `criticalCases` and `averageChurn` are the optional
   * arguments; when absent they are computed from the list.
   */
  method GenerateHtmlReport(
    recs: seq<Recommendation>,
    totalCustomers: int,
    totalRevenueAtRisk: Value,
    driftResults: Option<MonitoringAgent.DriftResults>,
    criticalCases: Option<int>,
    averageChurn: Option<Value>)
    returns (report: HtmlReport)
    requires Figures(recs)
    ensures report.totalCustomers == totalCustomers && report.highRiskCount == |recs|
    ensures report.totalRevenueAtRisk == totalRevenueAtRisk
    ensures report.criticalCount == if criticalCases.Some? then criticalCases.value else CountTier(recs, Critical)
    ensures report.criticalShare == CriticalShare(report.criticalCount, |recs|)
    ensures report.averageChurnProbability == if averageChurn.Some? then averageChurn.value else AverageChurn(recs)
    ensures driftResults.None? ==> report.drift == NoDriftSection
    ensures driftResults.Some? && !driftResults.value.driftDetected ==> report.drift == NoDriftNotice
    ensures driftResults.Some? && driftResults.value.driftDetected ==>
      report.drift == DriftAlerts(driftResults.value.driftWarnings, ChartsOf(driftResults.value.visualizations))
    ensures |report.cards| == |recs|
    ensures forall i :: 0 <= i < |recs| ==> report.cards[i] == CardFor(recs[i])
  {
    var criticalCount := if criticalCases.Some? then criticalCases.value else CountTier(recs, Critical);
    var average := if averageChurn.Some? then averageChurn.value else AverageChurn(recs);
    var drift := NoDriftSection;
    if driftResults.Some? && driftResults.value.driftDetected {
      var charts := DriftCharts(driftResults.value.visualizations);
      drift := DriftAlerts(driftResults.value.driftWarnings, charts);
    } else if driftResults.Some? {
      drift := NoDriftNotice;
    }
    var cards := RenderCards(recs);
    report := HtmlReport(totalCustomers, |recs|, criticalCount, CriticalShare(criticalCount, |recs|),
      totalRevenueAtRisk, average, drift, cards);
  }

  /** Each card shows its customer's badge class, derived from the tier name in lower case. */
  lemma CardBadges(recs: seq<Recommendation>, i: int)
    requires 0 <= i < |recs|
    ensures CardFor(recs[i]).badgeClass == "urgency-" + Lower(TierName(recs[i].urgencyLevel))
    ensures CardFor(recs[i]).customerId == recs[i].customerId
    ensures recs[i].urgencyLevel == Critical ==> CardFor(recs[i]).badgeClass == "urgency-critical"
  {
    BadgeClasses();
  }

  /** The positions of the visualisations that carry data. */
  function WithData(visualizations: seq<(string, string)>): set<int> {
    set i | 0 <= i < |visualizations| && |visualizations[i].1| > 0
  }

  /** Adding one visualisation adds its position exactly when it carries data. */
  lemma WithDataStep(visualizations: seq<(string, string)>)
    requires visualizations != []
    ensures var n := |visualizations|;
      |WithData(visualizations)| == |WithData(visualizations[..n - 1])| + (if |visualizations[n - 1].1| > 0 then 1 else 0)
  {
    var n := |visualizations|;
    var init := visualizations[..n - 1];
    var before := WithData(init);
    var after := WithData(visualizations);
    var added: set<int> := if |visualizations[n - 1].1| > 0 then {n - 1} else {};
    forall i
      ensures i in after <==> i in before || i in added
    {
      if 0 <= i < n - 1 {
        assert init[i] == visualizations[i];
      }
    }
    assert after == before + added;
    assert before !! added;
  }

  /** Charts keep the order of the visualisations and skip exactly the empty ones. */
  lemma {:induction false} ChartsCount(visualizations: seq<(string, string)>)
    ensures |ChartsOf(visualizations)| == |WithData(visualizations)|
  {
    if visualizations != [] {
      ChartsCount(visualizations[..|visualizations| - 1]);
      WithDataStep(visualizations);
    }
  }
}
