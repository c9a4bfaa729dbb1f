# Churn prediction service: a verified model of its decision logic

This project models the deterministic core of a telecom churn-prediction
service in Dafny. The service scores uploaded customer tables with a trained
classifier. It turns each high-risk customer into a retention recommendation
with an urgency tier. It compares incoming data with the training baseline to
raise data-drift alerts. It renders a report and e-mails it.

The model covers five parts:

- `frames.dfy` (module `Frames`): the table vocabulary.
  - A cell is a string, a number or NaN (`Missing`).
  - A row is a map from column name to cell; a table is a set of columns plus rows.
  - Also here: `pd.DataFrame(records)` and `pd.to_numeric(errors="coerce")` for plain decimal text.
- `preprocess.dfy` (module `InferencePreprocess`): `preprocess_inference`.
  - A `DataFrame` class whose columns are rewritten in place, step by step, as the source does.
  - Each step is proved equal to a pure specification `Preprocessed`.
  - Lemmas state what every column holds afterwards.
- `monitoring.dfy` (module `MonitoringAgent`): the drift rules.
  - The numerical rule (relative change of the mean above 0.10).
  - The categorical rule (largest change of a category's share above 0.20).
  - `check_for_drift`, the coverage summary, and the score collection of the drift heatmap.
- `recommendations.dfy` (module `RecommendationAgent`): the recommendation rules.
  - Urgency tiers and the prioritised action list. Each of the sixteen retention actions is a constructor of an `Action` enumeration; `ActionText` gives the exact wording the source appends.
  - The per-customer report entries and the report aggregates.
  - The structure of the HTML report: summary figures, drift section, one card per customer.
- `api.dfy` (module `ChurnApi`): the logic of the HTTP endpoints.
  - Thresholding, the prediction summary and top-K selection of `predict_churn`.
  - The report endpoint, which chains drift analysis, recommendations and the report.
  - The guards and report lookup of `send_email`.

Numbers are exact `real`s. Anything that raises in Python becomes a `Failure`
or an explicit outcome value: a string compared with a number, a division by
zero, an unparsable port. Where such an error is caught, the model follows the
source's handler. The one exception is the division by zero of the report's
critical share on an empty list (see "## Findings"): that behaviour is modelled
on its own, and the report endpoint uses the corrected share.

Apart from that finding, where the code and its description disagree, the model follows the code:

- `pd.cut` labels a tenure of -0.1 or less as NaN.
- The tenure argument of `_calculate_urgency_level` is ignored.

## Model

| member | source | states |
|---|---|---|
| Frames.FromRecords | api/main.py:135 | the columns are exactly the keys seen in some record; each row keeps its record's values and holds NaN where the record lacks a column; one row per record |
| Frames.CoerceNumeric | api/inference_preprocess.py:7 | numbers pass unchanged, NaN stays NaN, a string becomes the number it spells or NaN |
| Frames.ParseFormatInt | api/inference_preprocess.py:7 | coercion reads back the decimal spelling of every integer |
| InferencePreprocess.CoerceOrZero | api/inference_preprocess.py:7 | the result is always a number: the coerced value when coercion succeeds, else 0 |
| InferencePreprocess.CollapseSentinel | api/inference_preprocess.py:16 | "No internet service" and "No phone service" become "No"; every other value is unchanged |
| InferencePreprocess.EncodeYesNo | api/inference_preprocess.py:26 | the result is 1 or 0, and it is 1 exactly when the cell is "Yes" |
| InferencePreprocess.NonZeroTenure | api/inference_preprocess.py:30 | the result is never 0, and every non-zero value is kept |
| InferencePreprocess.TenureGroup | api/inference_preprocess.py:38-42 | a tenure gets NaN or one of the five labels |
| InferencePreprocess.TenureBands | api/inference_preprocess.py:38-42 | each label holds exactly on its right-closed band (-0.1,12], (12,24], (24,48], (48,60], (60,inf); NaN exactly at -0.1 or below |
| InferencePreprocess.TenureBandExamples | api/inference_preprocess.py:38-42 | 0 and 12 give "0-12", 13 gives "13-24", 61 gives "61+" |
| InferencePreprocess.MapColumn | api/inference_preprocess.py:7 | rewriting one column changes only that column's cells, keeps the columns and the row count |
| InferencePreprocess.MapColumns | api/inference_preprocess.py:14-16 | rewriting the listed columns changes exactly those cells and leaves every other cell as it was |
| InferencePreprocess.SetColumn | api/inference_preprocess.py:33 | assigning a column adds it (or replaces it) with the given value in each row; every other cell is kept |
| InferencePreprocess.ColumnNames | api/inference_preprocess.py:10-23 | the seven service columns are among the yes/no columns; tenure, MonthlyCharges and TotalCharges are in neither list |
| InferencePreprocess.Encoded | api/inference_preprocess.py:6-26 | after the three cleaning steps a yes/no column holds its 1/0 code, TotalCharges its number-or-0, and every other cell is unchanged |
| InferencePreprocess.EncodedSteps | api/inference_preprocess.py:6-26 | coercion, then sentinel collapse, then yes/no encoding compose to that cell-wise rewrite |
| InferencePreprocess.EncodedPreprocessable | api/inference_preprocess.py:6-30 | cleaning leaves tenure and MonthlyCharges as they were and TotalCharges the coerced number or 0, so feature engineering can run on its output |
| InferencePreprocess.EngineerKeeps | api/inference_preprocess.py:29-42 | feature engineering keeps every non-derived column as cleaning left it |
| InferencePreprocess.TotalChargesNumeric | api/inference_preprocess.py:6-7 | after preprocessing TotalCharges is a number in every row, 0 where the input did not parse |
| InferencePreprocess.YesNoEncoded | api/inference_preprocess.py:18-26 | after preprocessing a present yes/no column holds only 0 or 1, and 1 exactly where the input was "Yes" |
| InferencePreprocess.OtherColumnsUnchanged | api/inference_preprocess.py:4-44 | a column no step names comes out exactly as it went in |
| InferencePreprocess.PreprocessedColumns | api/inference_preprocess.py:29-42 | the output columns are the input columns plus tenure_group when tenure is present, TotalSpend when MonthlyCharges is present too, and AvgChargesPerMonth when TotalCharges is present too |
| InferencePreprocess.DerivedCells | api/inference_preprocess.py:29-42 | TotalSpend is MonthlyCharges times the raw tenure; AvgChargesPerMonth is the coerced TotalCharges over tenure with 0 read as 1; tenure_group is the band of the tenure |
| InferencePreprocess.Preprocessed | api/inference_preprocess.py:4-44 | the whole of `preprocess_inference` keeps one row per input row and every input column; that it adds only the derived columns is `PreprocessedColumns`, and its cells by `TotalChargesNumeric`, `YesNoEncoded`, `OtherColumnsUnchanged` and `DerivedCells` |
| InferencePreprocess.DataFrame.Copy | api/main.py:77 | the copy is a fresh frame with the same contents |
| InferencePreprocess.DataFrame.RewriteColumn | api/inference_preprocess.py:7 | in place, the frame becomes the one-column rewrite of its old contents |
| InferencePreprocess.DataFrame.AssignColumn | api/inference_preprocess.py:33-38 | in place, the frame becomes its old contents with the column assigned |
| InferencePreprocess.DataFrame.RewriteListed | api/inference_preprocess.py:14-26 | the loop over a column list rewrites, in place, exactly the listed columns |
| InferencePreprocess.PreprocessInference | api/inference_preprocess.py:4-44 | the caller's frame is rewritten in place into `Preprocessed` of its old contents and is itself returned |
| MonitoringAgent.Cleaned | api/agents/monitoring_agent.py:77-78 | coercing and dropping NaN keeps at most as many values as the column has |
| MonitoringAgent.CleanedConcat | api/agents/monitoring_agent.py:77-78 | cleaning works cell by cell and keeps order: a split column cleans to its two cleaned halves, one after the other |
| MonitoringAgent.CleanedCell | api/agents/monitoring_agent.py:77-78 | a single cell is kept, as the number it coerces to, exactly when it coerces |
| MonitoringAgent.CleanedKeeps | api/agents/monitoring_agent.py:77-78 | a column with one cell that coerces to a number keeps a non-empty cleaned sample |
| MonitoringAgent.CleanedNothing | api/agents/monitoring_agent.py:77-78 | a column none of whose cells coerces is cleaned to nothing |
| MonitoringAgent.CleanedEmpty | api/agents/monitoring_agent.py:77-80 | the cleaned sample is empty exactly when no cell of the column coerces to a number |
| MonitoringAgent.MeanChange | api/agents/monitoring_agent.py:96-100 | the change is never negative, is 0 when the baseline mean is 0, and otherwise times the baseline's magnitude equals the distance between the means |
| MonitoringAgent.NumericalInsufficient | api/agents/monitoring_agent.py:80-89 | an empty cleaned sample on either side gives no drift, no statistics and an "insufficient data" warning |
| MonitoringAgent.MeanChangeAbove | api/agents/monitoring_agent.py:96-103 | with a non-zero baseline mean, the change exceeds 0.10 exactly when the means differ by more than a tenth of the baseline's magnitude |
| MonitoringAgent.NumericalDriftRule | api/agents/monitoring_agent.py:92-109 | with both samples non-empty: a zero baseline mean never drifts; otherwise drift holds exactly when the relative change exceeds 0.10; a warning is issued exactly on drift and says "increased" exactly when the new mean is larger |
| MonitoringAgent.DriftFromMeansRule | api/agents/monitoring_agent.py:92-109 | from two means: both are reported; a zero baseline never drifts; otherwise drift holds exactly when the means differ by more than a tenth of the baseline's magnitude; a warning exactly on drift, "increased" exactly when the new mean is larger |
| MonitoringAgent.MonthlyChargesScenario | api/agents/monitoring_agent.py:92-109 | means of 75 against 65 drift upward by 10/65 |
| MonitoringAgent.CheckNumericalDrift | api/agents/monitoring_agent.py:72-118 | `mean_change_pct` is absent exactly when either cleaned sample is empty; a drift has a change above 0.10 and exactly the drifts carry a mean-shift warning; the rule itself is stated by `NumericalInsufficient` and `NumericalDriftRule` |
| MonitoringAgent.Present | api/agents/monitoring_agent.py:126-127 | `value_counts` sees exactly the non-NaN cells |
| MonitoringAgent.PresentCounts | api/agents/monitoring_agent.py:126-127 | dropping NaN keeps every non-NaN value as often as the column holds it, and removes exactly the NaN cells, so `value_counts` counts each non-NaN cell once |
| MonitoringAgent.Categories | api/agents/monitoring_agent.py:130 | the categories of a column are exactly its distinct non-NaN values |
| MonitoringAgent.Proportion | api/agents/monitoring_agent.py:126-137 | a category's share lies between 0 and 1; it is 0 for a column without non-NaN cells and otherwise the category's count over the number of non-NaN cells |
| MonitoringAgent.RatioBounds | api/agents/monitoring_agent.py:126-127 | a count out of a larger non-zero total is a share between 0 and 1 |
| MonitoringAgent.Distribution | api/agents/monitoring_agent.py:165-166 | the reported distribution has exactly the column's categories as keys |
| MonitoringAgent.CategoryCountsAddUp | api/agents/monitoring_agent.py:126-127 | the counts of a column's categories, added up in any order, come to its number of non-NaN cells: the shares, each a count over that number, divide the whole column among the categories |
| MonitoringAgent.TotalCountIn | api/agents/monitoring_agent.py:126-127 | counts of a set of values added up in any order equal the number of cells holding one of them |
| MonitoringAgent.MaxShiftOver | api/agents/monitoring_agent.py:132-143 | the maximum shift is at least 0, bounds every category's shift, and is 0 or attained by some category |
| MonitoringAgent.MaxUnique | api/agents/monitoring_agent.py:132-143 | any non-negative upper bound that is 0 or attained is that maximum, whatever order the categories are visited in |
| MonitoringAgent.AbsentCategory | api/agents/monitoring_agent.py:136-137 | a category absent from one side counts as share 0 there |
| MonitoringAgent.NoCategoriesNoShift | api/agents/monitoring_agent.py:132-153 | with no categories on either side the maximum shift is 0 and nothing is affected |
| MonitoringAgent.CategoricalDriftIffAffected | api/agents/monitoring_agent.py:145-153 | the maximum shift exceeds 0.20 exactly when some category's shift exceeds 0.20 |
| MonitoringAgent.CheckCategoricalDrift | api/agents/monitoring_agent.py:122-168 | over the union of categories, in any visiting order: the maximum shift, drift exactly above 0.20, shifted entries for exactly the categories above 0.20 with their shares and change, both distributions; drift exactly when the shifted list is non-empty |
| MonitoringAgent.NumericalWarningsIffDrift | api/agents/monitoring_agent.py:40-47 | the numerical pass collects a warning exactly when some checked feature drifted, and only mean-shift warnings |
| MonitoringAgent.CategoricalWarningsIffDrift | api/agents/monitoring_agent.py:50-57 | the categorical pass collects a warning exactly when some checked feature drifted, and only distribution-shift warnings |
| MonitoringAgent.CoverageMembers | api/agents/monitoring_agent.py:364-375 | a feature is listed as analysed exactly when both frames have it, as missing exactly when one lacks it; the two lists together are as long as the configured list |
| MonitoringAgent.SplitCoverage | api/agents/monitoring_agent.py:364-375 | the loop splits a feature list, in order, into the analysed and the missing features |
| MonitoringAgent.GenerateSummaryStats | api/agents/monitoring_agent.py:346-377 | the row counts, the size ratio (0 for an empty baseline, else the quotient), and the coverage lists in configured order |
| MonitoringAgent.CoveragePartition | api/agents/monitoring_agent.py:364-375 | each of the seven configured features lands in exactly one of the three coverage lists, and the lists hold seven entries together |
| MonitoringAgent.NumericalResultsEntries | api/agents/monitoring_agent.py:40-47 | the numerical map has an entry exactly for each listed feature present in both frames, holding that feature's finding |
| MonitoringAgent.NumericalPassStep | api/agents/monitoring_agent.py:40-47 | one more feature adds a warning and sets the flag exactly when it is in both frames and drifted, and adds its finding to the map exactly when it is in both frames |
| MonitoringAgent.NumericalPass | api/agents/monitoring_agent.py:40-47 | the numerical loop's flag, its warnings in list order, and one finding per feature present in both frames |
| MonitoringAgent.CategoricalPass | api/agents/monitoring_agent.py:50-57 | the categorical loop's flag, its warnings in list order, and one categorical result per feature present in both frames |
| MonitoringAgent.CheckForDrift | api/agents/monitoring_agent.py:14-69 | the flag holds exactly when some checked feature drifted; the warnings are the numerical ones then the categorical ones; per-feature results exactly for features in both frames; the charts pass through; the summary holds both row counts, the size ratio (0 for an empty baseline), the analysed lists and the missing features in configured order |
| MonitoringAgent.DriftIffWarnings | api/agents/monitoring_agent.py:40-57 | the batch has a warning exactly when it has drift, and every warning is a mean shift or a distribution shift |
| MonitoringAgent.NumericalScores | api/agents/monitoring_agent.py:292-297 | the loop collects the scored numerical features in list order |
| MonitoringAgent.CategoricalScores | api/agents/monitoring_agent.py:300-304 | the loop collects the categorical features with their maximum shift in list order |
| MonitoringAgent.HeatmapScores | api/agents/monitoring_agent.py:288-307 | no heatmap exactly when no feature was scored; otherwise equally long lists of names and scores, numerical first |
| MonitoringAgent.CategoricalAlwaysScored | api/agents/monitoring_agent.py:300-304 | every categorical feature present in both frames is scored, in order |
| MonitoringAgent.NumericalScoredIff | api/agents/monitoring_agent.py:292-297 | a numerical feature is scored exactly when both frames have it and both cleaned samples are non-empty |
| RecommendationAgent.UrgencyLevel | api/agents/recommendation_agent.py:125-134 | CRITICAL above 0.8, HIGH on (0.6, 0.8], MEDIUM on (0.4, 0.6], LOW otherwise or for NaN, each in both directions |
| RecommendationAgent.UrgencyMonotone | api/agents/recommendation_agent.py:125-134 | a higher probability never gives a lower tier, whatever the tenures |
| RecommendationAgent.UrgencyBoundaries | api/agents/recommendation_agent.py:125-134 | 0.81 is CRITICAL, 0.8 HIGH, 0.6 MEDIUM, 0.4 LOW, NaN LOW |
| RecommendationAgent.ContractActions | api/agents/recommendation_agent.py:73-79 | the contract rule contributes at most one action |
| RecommendationAgent.PricingAction | api/agents/recommendation_agent.py:82-87 | premium package above 80, mid-tier bundle on (50, 80], loyalty discount otherwise, each in both directions |
| RecommendationAgent.TenureAction | api/agents/recommendation_agent.py:90-95 | success manager below 12, loyalty rewards on [12, 24), long-term benefits otherwise, each in both directions |
| RecommendationAgent.ContractOfferRule | api/agents/recommendation_agent.py:73-79 | month-to-month above 0.7 gets the urgent 20% offer, month-to-month otherwise the 15% offer, one year the 10% extension, any other contract nothing |
| RecommendationAgent.ActionCount | api/agents/recommendation_agent.py:81-122 | between 2 and 4 actions are kept, the first four of the candidates, always including the pricing and the tenure action |
| RecommendationAgent.RecommendedActions | api/agents/recommendation_agent.py:64-122 | `recommendations[:4]` of the rule-ordered candidates; its contract is carried by `ActionCount` (two to four actions, always the pricing and the tenure action, four whenever four or more were produced), `ContractCustomerActions` and `NoContractOfferActions` (which actions come first) |
| RecommendationAgent.ContractCustomerActions | api/agents/recommendation_agent.py:73-122 | a month-to-month or one-year customer gets contract, pricing and tenure actions first and at most one service action, the first applicable one |
| RecommendationAgent.NoContractOfferActions | api/agents/recommendation_agent.py:81-122 | any other customer gets pricing, tenure and the first two applicable service actions |
| RecommendationAgent.UrgentScenario | api/agents/recommendation_agent.py:73-122 | a month-to-month customer at 0.75 without tech support gets the urgent offer first and the tech-support offer fourth |
| RecommendationAgent.JoinPipes | api/agents/recommendation_agent.py:122 | joining pipe-free segments with the pipe separator gives exactly one pipe fewer than there are segments |
| RecommendationAgent.JoinEnds | api/agents/recommendation_agent.py:122 | the joined text starts with the first segment and ends with the last |
| RecommendationAgent.PersonalizedRecommendation | api/agents/recommendation_agent.py:64-122 | `_generate_personalized_recommendation`: the kept actions' texts joined by a pipe between spaces; its contract is carried by `PersonalizedRecommendationEnds` (where the text begins and ends), `JoinPipes` (the number of separators) and `Texts` (the literal wording) |
| RecommendationAgent.PersonalizedRecommendationEnds | api/agents/recommendation_agent.py:64-122 | the recommendation text opens with the first kept action's text and closes with the last one's |
| RecommendationAgent.Texts | api/agents/recommendation_agent.py:73-122 | one action text per kept action |
| RecommendationAgent.UrgentScenarioText | api/agents/recommendation_agent.py:64-122 | that customer's text starts with the urgent offer and ends with the tech-support offer |
| RecommendationAgent.RecommendationFor | api/agents/recommendation_agent.py:18-58 | an entry is produced exactly when the probability, charges and tenure are comparable with numbers |
| RecommendationAgent.RecommendationFigures | api/agents/recommendation_agent.py:19-58 | the percentage is probability times 100 and matches the CRITICAL tier; revenue at risk is 12 times the monthly charges, 0 when they are missing; a missing probability gives LOW; a missing id gives "Unknown" |
| RecommendationAgent.RecommendationsOf | api/agents/recommendation_agent.py:6-61 | one entry per scorable row, every percentage and revenue a number |
| RecommendationAgent.RecommendationsOfEntries | api/agents/recommendation_agent.py:18-58 | the entry at each position is the one the row at that position produces |
| RecommendationAgent.AppendRecommendation | api/agents/recommendation_agent.py:58 | appending the next row's entry extends the entries of the rows before it to those of one row more |
| RecommendationAgent.GenerateRecommendationsReport | api/agents/recommendation_agent.py:6-61 | succeeds exactly when every row is scorable, and then returns `RecommendationsOf` of the rows: one entry per row, in order |
| RecommendationAgent.CountTier | api/main.py:154 | the number of entries of a tier never exceeds the number of entries |
| RecommendationAgent.TierCountsAddUp | api/main.py:154 | every entry has exactly one tier: the four tier counts add up to the number of entries |
| RecommendationAgent.CountTierPositive | api/main.py:154 | a tier's count is positive exactly when some entry has that tier |
| RecommendationAgent.SumValues | api/main.py:150 | a sum of numeric cells is a number exactly when no term is NaN |
| RecommendationAgent.SumValuesConcat | api/main.py:150 | summing two parts and adding the results is summing the whole, with NaN on either side giving NaN |
| RecommendationAgent.AverageChurn | api/main.py:157 | the average is 0 for no entries, and otherwise times the count equals the sum of the percentages |
| RecommendationAgent.CriticalShareAsWritten | api/agents/recommendation_agent.py:463 | the share as written fails exactly when there are no entries |
| RecommendationAgent.EmptyReportFails | api/agents/recommendation_agent.py:157-463 | an empty list gets an average of 0 but the share line still fails |
| RecommendationAgent.CriticalShare | api/agents/recommendation_agent.py:463 | the share is 0 for no entries, and otherwise times the count equals 100 times the critical count |
| RecommendationAgent.CriticalShareCorrected | api/agents/recommendation_agent.py:463 | for non-empty lists the corrected share equals the one as written, and it stays within 0..100 |
| RecommendationAgent.BadgeClasses | api/agents/recommendation_agent.py:485 | the four tiers give the badge classes urgency-critical, urgency-high, urgency-medium and urgency-low |
| RecommendationAgent.Unsnake | api/agents/recommendation_agent.py:185 | replacing underscores keeps the length and leaves no underscore |
| RecommendationAgent.DriftCharts | api/agents/recommendation_agent.py:182-191 | the loop draws one chart per visualisation with non-empty data, in order |
| RecommendationAgent.GenerateHtmlReport | api/agents/recommendation_agent.py:137-512 | passed counts and averages are used when given, else computed; no drift section without drift results, the notice without drift, otherwise the warnings in order and the charts; one card per entry, in order |
| RecommendationAgent.CardBadges | api/agents/recommendation_agent.py:484-490 | each card's badge class is "urgency-" and the lower-cased tier, and it carries its entry's customer id |
| RecommendationAgent.ChartsCount | api/agents/recommendation_agent.py:182-191 | there are as many charts as there are positions holding a visualisation with non-empty data |
| RecommendationAgent.RenderCards | api/agents/recommendation_agent.py:483-490 | the card loop renders one card per entry, in order, each the card of its entry |
| ChurnApi.Predictions | api/main.py:86 | one prediction per probability: 1 exactly when it reaches the threshold, else 0 |
| ChurnApi.ChurnCountIsAtLeast | api/main.py:103 | the churn count is the number of probabilities at or above the threshold |
| ChurnApi.ThresholdMonotone | api/main.py:86 | raising the threshold never raises the churn count |
| ChurnApi.SummaryConsistent | api/main.py:102-112 | the total is the upload size and the churn count is the number of probabilities at or above the threshold; the two counts add up to the total; for a non-empty upload the churn percentage is 100 times that count over the upload size, the no-churn percentage 100 times the rest over it, and the two add up to 100; both are 0 for an empty upload |
| ChurnApi.Summary | api/main.py:102-112 | the `summary` dictionary: the total is the upload size and the churn and no-churn counts add up to it; for a non-empty upload each percentage times the total is 100 times its count, and the two add up to 100; both are 0 for an empty upload |
| ChurnApi.InsertRanked | api/main.py:95 | inserting a new row index into a ranked list keeps it ranked by probability, descending, earlier rows first on ties |
| ChurnApi.RankedIndices | api/main.py:95 | ranking the first m rows yields each of them exactly once |
| ChurnApi.RankedIndicesRanked | api/main.py:95 | that ranking is in descending probability, earlier rows first on ties |
| ChurnApi.TopKSelection | api/main.py:93-96 | the top k are min(k, n) distinct rows in descending probability, and every row left out ranks below every row kept |
| ChurnApi.TopKAll | api/main.py:93-96 | a k at least the upload size selects every row |
| ChurnApi.TopKIndices | api/main.py:95 | `nlargest(k)` returns min(k, n) row indices, all in range; their order and the rows left out are stated by `TopKSelection` |
| ChurnApi.SelectRows | api/main.py:95-96 | selecting rows by index returns those rows in index order |
| ChurnApi.ScoredRows | api/main.py:89-90 | each scored row keeps the upload's other cells and adds the probability and a prediction of 1 exactly at or above the threshold |
| ChurnApi.PredictChurn | api/main.py:74-119 | the upload is preprocessed in place; the response holds the scored rows (top k when k is positive, else all in upload order), the summary, the threshold and k; a probability list of the wrong length is a failure |
| ChurnApi.DriftAnalysis | api/main.py:137-143 | drift results exist exactly when a baseline was loaded; then the flag holds exactly when some numerical or categorical feature drifted, the warnings are the numerical ones then the categorical ones, and the charts pass through |
| ChurnApi.ReportSummary | api/main.py:148-186 | the response counts the upload and the entries, sums the revenue, counts the critical entries, previews the first three entries, and its report carries the same counts, the critical share, the average probability, one card per entry and the drift section that the drift results call for |
| ChurnApi.GenerateRecommendationsReportEndpoint | api/main.py:133-193 | fails exactly when some row is not scorable; otherwise the total, the revenue sum, the critical count, a preview of the first three entries, and a report whose drift section follows the baseline (none without one, the notice without drift, the warnings and charts with drift) |
| ChurnApi.EndpointCriticalShare | api/main.py:153-167 | the report's critical share lies within 0..100 and is 0 for an empty upload |
| ChurnApi.TrimStart | api/main.py:254 | stripping the front removes exactly the leading ASCII whitespace (space, tab, newline, vertical tab, form feed, carriage return) |
| ChurnApi.TrimEnd | api/main.py:254 | stripping the back removes exactly the trailing ASCII whitespace |
| ChurnApi.ParseInteger | api/main.py:220 | a text reads as an integer exactly when it is a non-empty run of ASCII digits, optionally after one sign; only a text with a minus sign reads as a negative number |
| ChurnApi.ParseIntegerFormat | api/main.py:220 | the decimal spelling of every integer, with or without a minus sign, reads back as that integer |
| ChurnApi.SmtpPort | api/main.py:220 | an unset port reads as 587 |
| ChurnApi.SmtpPortReadsBack | api/main.py:220 | any integer written in decimal, padded with blanks, reads back as that port |
| ChurnApi.FirstReport | api/main.py:244-265 | a found report is at a candidate location, exists, reads, and is meaningful; none is found exactly when no candidate qualifies |
| ChurnApi.FirstReportIsFirst | api/main.py:244-259 | the report found is at the first qualifying candidate location |
| ChurnApi.EmailDecision | api/main.py:211-265 | a blank recipient, and only that, gives the missing-recipient answer; a prepared message always carries a meaningful report from one of the candidate locations; the full guard order is `EmailGuardOrder` |
| ChurnApi.EmailGuardOrder | api/main.py:211-273 | a blank recipient fails first, whatever else is wrong; missing credentials fail only once the recipient is set; a message is prepared exactly when every guard passes and some location holds a meaningful report |
| ChurnApi.SendEmail | api/main.py:207-273 | the guards and the loop over candidate locations reach the decision that `EmailDecision` specifies |

## Left out

- Reading the uploaded CSV, FastAPI routing and CORS, writing the report file, SMTP and MIME: input/output plumbing. The endpoints take tables, record lists, an environment and a file map as parameters.
- Model loading and `predict_proba`: a foreign library. `PredictChurn` takes the classifier as a function parameter, and the decision threshold read from JSON is a parameter.
- `load_baseline_data`: a file-system search. The report endpoint takes the baseline as an `Option`; `None` stands for a load that raised, which the source catches and turns into `drift_results = None`.
- Chart drawing and base64 encoding of the drift visualisations and of the heatmap image: plotting. The visualisations are a parameter of `CheckForDrift` and of the endpoint; of the heatmap only the score collection is modelled.
- Text formatting: the HTML and CSS literals, the timestamp, and the wording of the warning strings. A warning is an `Alert` value carrying the same facts (feature, direction, change, means, affected categories), and the report is a record of sections and cards.
- `round(..., 2)`, `:.1%` and `:.2f`: floating-point rounding and display. All arithmetic is exact over `real`.
- `new_std` and `baseline_std`: reported only, never used in a decision.
- `high_count` in `generate_html_report`: computed but never used.
- RecommendationFor: the entry's percentage and revenue are not rounded to two places.
- GenerateRecommendationsReportEndpoint: the revenue total is not rounded, and the `report_path` of the response is not modelled. Exceptions raised inside `check_for_drift` on a loadable baseline are not modelled.
- PersonalizedRecommendation: the segment count of the joined text is proved for pipe-free segments in general (`JoinPipes`), not for the sixteen literal action texts, whose pipe-freeness the model does not state: the character-by-character membership test over literals of up to 70 characters is beyond what the verifier settles within its resource limit. What is stated about the text itself is how it begins and ends (`PersonalizedRecommendationEnds`).
- CheckCategoricalDrift: the order of `shifted_categories` follows Python's set iteration order and is left unspecified. The affected categories inside the warning are a set.
- Cleaned: `pd.to_numeric` is modelled for plain decimal text with an optional sign and point. Exponents, "inf", "nan" and surrounding blanks in a cell coerce to NaN in the model.
- CoerceNumeric: only plain decimal text with an optional sign and point parses. Exponents ("1e3"), "inf", "nan" and numbers padded with blanks become NaN, where `pd.to_numeric` parses them.
- CoerceOrZero: inherits the plain-decimal limit of `CoerceNumeric`, so the text forms it does not parse become 0 instead of their number.
- TotalChargesNumeric: inherits the plain-decimal limit of `CoerceNumeric`; a TotalCharges cell written with an exponent or blank padding is 0 in the model.
- SmtpPort: `int()` is modelled for an optionally signed run of ASCII digits with surrounding blanks. Underscores between digits and non-ASCII digits are rejected. A value that does not parse gives the outcome `InvalidConfiguration`, where the source's outer handler reports the `ValueError`.
- PreprocessInference: tenure and MonthlyCharges must be numbers or NaN. A string tenure makes `pd.cut` raise, after the cleaning steps have already rewritten the frame. A string MonthlyCharges raises at the multiplication when the tenure column holds floats. With an integer tenure column Python instead repeats the string, and TotalSpend holds text. The model has no integer/float distinction, so neither case is modelled.
- PredictChurn: requires the upload's tenure and MonthlyCharges cells to be numbers or NaN (the requires of `PreprocessInference`). In the source a string there is an uncaught error while predicting (or, with an integer tenure column, text in TotalSpend); the model does not describe those uploads.
- PreprocessInference: `astype(int)` and the categorical dtype of `tenure_group` are represented as the reals 1 and 0 and as label strings.
- GenerateHtmlReport: on an empty list the source raises `ZeroDivisionError` at the critical-share line. The model uses the corrected share, 0, and renders the report. The as-written behaviour is `CriticalShareAsWritten` and `EmptyReportFails` (see "## Findings").
- ReportSummary: on an empty list of entries it produces a report, because `GenerateHtmlReport` uses the corrected share. The source's report raises there.
- GenerateRecommendationsReportEndpoint: an empty upload is answered with a report whose critical share is 0. The source answers `success: False` with the `ZeroDivisionError` message. This follows the corrected share of "## Findings".
- EndpointCriticalShare: the share of 0 for an empty upload is the corrected behaviour. The source's endpoint fails on an empty upload.
- Distribution: that the shares make up a whole is stated over the counts (`CategoryCountsAddUp`). A sum of the real-valued shares equal to 1 is not stated as a lemma.
- TrimStart: only ASCII whitespace is stripped. Python's `str.strip()` and `int()` also strip other whitespace, such as the separator characters 0x1C-0x1F, U+0085 and U+00A0.
- TrimEnd: only ASCII whitespace is stripped, as for `TrimStart`.
- GenerateHtmlReport: a `drift_results` dict that is present but empty is not representable; the only caller passes `None` or a full result.
- `EmailRequest` is imported from `api/schema.py` but not defined there. The model takes its two fields from their uses in `send_email`.
- `results_csv_path` and everything after the report lookup in `send_email` (message body, attachment, sending) is not modelled.

## Findings

| source | as written | input that shows it | evidently intended | confidence | as-written member | corrected member |
|---|---|---|---|---|---|---|
| api/agents/recommendation_agent.py:463 | the critical share divides by `len(recommendations)`, although lines 157 and 159 guard the empty list | `churners_data = []`: the report raises `ZeroDivisionError` and the endpoint answers `success: False` | a share of 0 for an empty list, as the average is | not executed | RecommendationAgent.EmptyReportFails | RecommendationAgent.CriticalShareCorrected |
