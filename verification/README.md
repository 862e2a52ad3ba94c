# Policy dashboard data processing, in Dafny

The policy dashboard publishes Japan's administrative project review data
(行政事業レビュー). Its data processing reads four CSV tables:

- basic project information;
- performance indicators;
- review verdicts;
- spending per recipient.

From these it writes eight JSON aggregates for the front end:

- projects per ministry, per project category and per main expense type;
- indicator kinds and per-project achievement;
- the verdict distribution, a per-ministry verdict table and a random selection
  of improvement cases;
- payments per contract method;
- amounts per recipient type and the fifty largest recipients;
- a scalar summary.

Two variants compute the aggregates:

- The batch script (`scripts/processData.js`) runs free functions from `main`.
- The deployed `DataProcessor` class (`lambda/processData.js`) keeps the four
  tables in fields. Before aggregating spending, it reorders its spending
  table in place at random and keeps only the first fifty thousand rows.

The front end reshapes row arrays into chart data with the helpers of
`ChartUtils.js`. They cover relative change, a colour ladder, and bar,
treemap, scatter, mean and multi-stage data.

## How the model is organised

| module | models |
|---|---|
| `Rows` | The four row kinds as datatypes, and the first-match join `basicInfoData.find(...)`. A CSV cell is `Option<string>`, and a cell is truthy when it is a non-empty string. |
| `Seqs`, `Sorting` | Sums, counts and first-appearance order over sequences. `SortDesc` is the descending sort that `Array.prototype.sort((a, b) => key(b) - key(a))` performs. Like the engine's sort it is stable, by construction: an element is inserted after every element whose key is at least its own. No lemma states stability. |
| `Categories` | The count-per-value distribution that five aggregators share: ministry, project category, expense type, verdict and contract method. |
| `Summaries` | The summary object. |
| `Performance`, `Reviews`, `Spending` | The other aggregators. |
| `Pipeline` | The script's `main`. |
| `Lambda` | The `DataProcessor` class. Its fields are the four tables, and `ProcessSpendingData` reassigns the spending table. |
| `Charts` | The chart helpers. |

The source's loops are modelled as methods with loop invariants. Each method
is proved equal to a specification function, and lemmas state the properties
of that function. Random orders are parameters that must be permutations of
what the source shuffles.

## Model

| member | source | states |
|---|---|---|
| Seqs.Distinct | policy-dashboard/scripts/processData.js:105 | `[...new Set(xs)]`: no duplicates, exactly the members of `xs`, no longer than `xs` |
| Sorting.SortDesc | policy-dashboard/scripts/processData.js:42 | the sorted sequence is a permutation of the input (same multiset, same length) |
| Sorting.SortDescSorted | policy-dashboard/scripts/processData.js:42 | the sorted sequence is non-increasing in the key |
| Rows.FindProject | policy-dashboard/scripts/processData.js:125 | `None` exactly when no row has the id; otherwise a row with the id, and no earlier row has it |
| Rows.JoinedFields | policy-dashboard/scripts/processData.js:125-131 | the joined name and ministry (`ProjectNameOf`, `MinistryOf`) are those of the first row with the id, or 不明 when no row has it |
| Categories.Counts | policy-dashboard/scripts/processData.js:28-33 | the counter object has a key exactly for each non-empty cell value |
| Categories.CountsAreMultiplicities | policy-dashboard/scripts/processData.js:28-33 | each counter equals the number of rows with that value |
| Categories.PresentValuesMeaning | policy-dashboard/scripts/processData.js:30 | a value is counted exactly when it is a non-empty cell of some row; its multiplicity is its number of rows |
| Categories.Keys | policy-dashboard/scripts/processData.js:36 | the key order of the counter object has no duplicates and exactly its keys |
| Categories.KeysAreDistinctValues | policy-dashboard/scripts/processData.js:36 | the key order is the non-empty values in order of first appearance |
| Categories.CountsStep | policy-dashboard/scripts/processData.js:30-32 | one more row bumps its own value's counter only, and appends the value to the key order when it is new |
| Categories.CountValue | policy-dashboard/scripts/processData.js:29-32 | one loop step: the new counter object and key order, as `CountsStep` describes |
| Categories.CountCategories | policy-dashboard/scripts/processData.js:28-33 | the loop leaves the counter object, its key order and the number of rows with a value |
| Categories.Entries | policy-dashboard/scripts/processData.js:36-41 | one entry per key, in key order, with its count and `count / denominator * 100` |
| Categories.Tabulate | policy-dashboard/scripts/processData.js:36-42 | the counting loop followed by the map and sort equals the distribution |
| Categories.Distribution | policy-dashboard/scripts/processData.js:36-42 | one entry per distinct non-empty value of the column |
| Categories.MinistryDistribution | policy-dashboard/scripts/processData.js:25-43 | `ministryData`: at most one entry per project |
| Categories.ProjectTypeDistribution | policy-dashboard/scripts/processData.js:46-64 | `projectTypeData`: at most one entry per project |
| Categories.ExpenseTypeDistribution | policy-dashboard/scripts/processData.js:67-85 | `expenseTypeData`: at most one entry per project |
| Categories.ProcessMinistryData | policy-dashboard/scripts/processData.js:25-43 | projects per ministry, percentages of all projects |
| Categories.ProcessProjectTypeData | policy-dashboard/scripts/processData.js:46-64 | projects per project category, percentages of all projects |
| Categories.ProcessExpenseTypeData | policy-dashboard/scripts/processData.js:67-85 | projects per main expense type, percentages of all projects |
| Categories.EntriesWeights | policy-dashboard/scripts/processData.js:36-41 | a weight over the entries sums like the matching weight over the keys |
| Categories.ReorderedEntriesAreEntries | policy-dashboard/scripts/processData.js:42 | after any reordering, each entry is the entry of one of the keys |
| Categories.ReorderedEntriesCover | policy-dashboard/scripts/processData.js:42 | after any reordering, every key still has an entry |
| Categories.ReorderedEntriesUnique | policy-dashboard/scripts/processData.js:42 | after any reordering of distinct keys' entries, no category repeats |
| Categories.DistributionOrder | policy-dashboard/scripts/processData.js:36-42 | entries come largest count first, and no category appears twice |
| Categories.DistributionEntry | policy-dashboard/scripts/processData.js:36-42 | each entry is a non-empty value of the column, with its number of rows (at least one) and its percentage of the denominator |
| Categories.DistributionCovers | policy-dashboard/scripts/processData.js:28-42 | every non-empty value of the column has an entry with its number of rows |
| Categories.EntriesCountSum | policy-dashboard/scripts/processData.js:36-41 | before sorting, the counts add up to the number of rows with a value |
| Categories.DistributionCountSum | policy-dashboard/scripts/processData.js:36-42 | the counts add up to the number of rows with a value, at most the number of rows |
| Categories.PercentagesOfCounts | policy-dashboard/scripts/processData.js:40 | each percentage is its count's share of the denominator, times 100 |
| Categories.DistributionPercentageSum | policy-dashboard/scripts/processData.js:36-42 | the percentages add up to the share of rows with a value, never more than 100 |
| Summaries.Summarize | policy-dashboard/scripts/processData.js:346-354 | `totalProjects` is the number of projects; new plus ending projects are at most that; improvement reviews are at most the number of evaluations |
| Summaries.CategoryCountIsMultiplicity | policy-dashboard/scripts/processData.js:348-349 | the `.filter(...).length` count of a category is its multiplicity in the category column |
| Summaries.SummaryMatchesProjectTypes | policy-dashboard/scripts/processData.js:346-354 | when there are new (ending) projects, the project-type distribution has an entry for 新規開始事業 (終了事業) with the summary's count |
| Summaries.CategoryHasEntry | policy-dashboard/scripts/processData.js:46-64 | a category some project holds has an entry in the project-type distribution with its number of projects |
| Performance.KindTallyCounts | policy-dashboard/scripts/processData.js:89-101 | `typeCount` keeps exactly the three seeded kinds, each with its number of rows |
| Performance.UnknownKindIgnored | policy-dashboard/scripts/processData.js:98 | a row whose kind is empty, missing or not a seeded kind changes no count |
| Performance.TypeDistribution | policy-dashboard/scripts/processData.js:136 | three entries, in the seeded order アクティビティ, アウトプット, アウトカム, each with its number of rows |
| Performance.CountKinds | policy-dashboard/scripts/processData.js:96-101 | the loop leaves the seeded tally with each kind's row count |
| Performance.Ratios | policy-dashboard/scripts/processData.js:108-122 | the achievement ratios of one project, at most one per row |
| Performance.RatiosNonEmpty | policy-dashboard/scripts/processData.js:114-124 | a project has ratios exactly when it has an output row with a target above zero and an actual value (`ValidIndicator`, lines 109 and 118) |
| Performance.AccumulateAchievement | policy-dashboard/scripts/processData.js:111-122 | `totalAchievement` is the sum of the project's ratios and `validIndicators` is their number |
| Performance.Achievements | policy-dashboard/scripts/processData.js:107-133 | at most one record per id |
| Performance.CollectAchievements | policy-dashboard/scripts/processData.js:104-133 | the loop pushes exactly the records of the ids with valid indicators, in id order |
| Performance.ProcessPerformanceData | policy-dashboard/scripts/processData.js:88-139 | the kind distribution and the sorted per-project achievements |
| Performance.ProjectPerformance | policy-dashboard/scripts/processData.js:124-137 | `projectPerformance`: at most one record per distinct project id, so at most one per row |
| Performance.AchievementsMeaning | policy-dashboard/scripts/processData.js:107-133 | each record belongs to an id with ratios and holds its mean; every such id has its record; distinct ids give distinct records |
| Performance.PerformanceMembership | policy-dashboard/scripts/processData.js:105-133 | a project has a record exactly when it has a valid output indicator |
| Performance.PerformanceEntries | policy-dashboard/scripts/processData.js:124-137 | records are sorted by achievement, largest first; each holds the mean ratio and the joined name and ministry (不明 without a match); no project has two records |
| Reviews.ReviewDistributionCounts | policy-dashboard/scripts/processData.js:143-159 | one entry per non-empty verdict, with its number of evaluations; counts sum to at most the number of evaluations; largest count first |
| Reviews.ReviewDistribution | policy-dashboard/scripts/processData.js:143-159 | `reviewDistribution`: at most one entry per evaluation |
| Reviews.Joined | policy-dashboard/scripts/processData.js:163-171 | the (ministry, verdict) pairs of the evaluations that join to a ministry, at most one per evaluation |
| Reviews.JoinedCounts | policy-dashboard/scripts/processData.js:163-171 | a ministry's pairs are exactly its evaluations with an id, a verdict and a matching project |
| Reviews.Tallies | policy-dashboard/scripts/processData.js:162-188 | every ministry in `ministryReviews` has a total of at least one |
| Reviews.MinistryOrder | policy-dashboard/scripts/processData.js:191 | the key order of `ministryReviews` has no duplicates and exactly its keys |
| Reviews.MinistryOrderLength | policy-dashboard/scripts/processData.js:191 | there are no more ministry keys than counted pairs |
| Reviews.TalliesStep | policy-dashboard/scripts/processData.js:172-184 | a pair creates the ministry's seeded row if it is new, bumps that verdict's counter and the total, and touches no other ministry |
| Reviews.TallyKey | policy-dashboard/scripts/processData.js:172-182 | a ministry has a row exactly when it has a pair |
| Reviews.TallyTotal | policy-dashboard/scripts/processData.js:173-184 | a row holds the five seeded verdicts; its total is its number of pairs; its improvement count is at most the total |
| Reviews.TallyCount | policy-dashboard/scripts/processData.js:183 | a row's counter for a verdict is the number of that ministry's pairs with it |
| Reviews.ReviewRows | policy-dashboard/scripts/processData.js:191-198 | one row per ministry, in key order, with its improvement rate |
| Reviews.TallyMinistries | policy-dashboard/scripts/processData.js:162-188 | the loop fills `ministryReviews` and its key order as the pairs dictate |
| Reviews.RateBounds | policy-dashboard/scripts/processData.js:193-196 | an improvement rate lies between 0 and 100 |
| Reviews.RowFacts | policy-dashboard/scripts/processData.js:191-198 | a row has the seeded verdicts, a total of at least one, per-verdict counters equal to pair counts, and a rate between 0 and 100 |
| Reviews.MinistryReviewsMeaning | policy-dashboard/scripts/processData.js:162-199 | `ministryReviewArray` is sorted by rate, highest first, and every row has what `RowFacts` states |
| Reviews.MinistryReviewsCover | policy-dashboard/scripts/processData.js:163-199 | every ministry with a counted evaluation has a row |
| Reviews.MinistryReviewsUnique | policy-dashboard/scripts/processData.js:191-199 | no ministry has two rows |
| Reviews.MinistryReviews | policy-dashboard/scripts/processData.js:191-199 | `ministryReviewArray`: at most one row per evaluation |
| Reviews.CandidatesMeaning | policy-dashboard/scripts/processData.js:202-217 | each candidate has an improvement verdict, a non-empty narrative and the joined name and ministry; candidates are at most the improvement verdicts |
| Reviews.Candidates | policy-dashboard/scripts/processData.js:202-217 | at most one candidate per evaluation |
| Reviews.ImprovementCases | policy-dashboard/scripts/processData.js:218-219 | the first `min(10, candidates)` of the shuffled candidates: that many, and a sub-multiset of the candidates |
| Reviews.ImprovementCasesFacts | policy-dashboard/scripts/processData.js:202-219 | there are `min(10, candidates)` cases, each a candidate, and no more than `summary.improvementProjects` |
| Reviews.ProcessReviewData | policy-dashboard/scripts/processData.js:142-226 | the three parts of `reviewMetrics` |
| Spending.ProcessContractData | policy-dashboard/scripts/processData.js:229-249 | rows per contract method, percentages of the rows that name a method |
| Spending.ContractDistribution | policy-dashboard/scripts/processData.js:229-249 | at most one entry per spending row |
| Spending.ContractCounts | policy-dashboard/scripts/processData.js:233-248 | one entry per method that occurs, with its number of rows, largest count first |
| Spending.ContractPercentages | policy-dashboard/scripts/processData.js:231-247 | counts add up to `totalCount`; once one row names a method, the percentages add up to 100 |
| Spending.TypeOrder | policy-dashboard/scripts/processData.js:276 | the key order of `typeDistribution` has no duplicates and exactly its keys |
| Spending.TypeOrderLength | policy-dashboard/scripts/processData.js:276 | there are no more recipient types than rows |
| Spending.TypeData | policy-dashboard/scripts/processData.js:276-282 | `typeData`: at most one entry per row |
| Spending.TypeTotalsMeaning | policy-dashboard/scripts/processData.js:256-263 | a type is a key exactly when some row names it, and its amount is the sum of its rows' amounts |
| Spending.GrandTotalIsTypedAmount | policy-dashboard/scripts/processData.js:280 | the `Object.values(...).reduce` total is the sum of the amounts of all rows that name a type |
| Spending.TypeEntries | policy-dashboard/scripts/processData.js:276-281 | one entry per type, in key order |
| Spending.TypeEntriesAmounts | policy-dashboard/scripts/processData.js:276-281 | the entries' amounts sum to the type totals |
| Spending.SortedTypeEntriesFrom | policy-dashboard/scripts/processData.js:282 | after sorting, each entry is the entry of a type |
| Spending.SortedTypeEntryOf | policy-dashboard/scripts/processData.js:282 | after sorting, every type still has its entry |
| Spending.SortedTypeEntriesUnique | policy-dashboard/scripts/processData.js:282 | after sorting, no type has two entries |
| Spending.SortedTypeShares | policy-dashboard/scripts/processData.js:280-282 | over the sorted entries, the percentages sum to the amounts' share of the total |
| Spending.TypeDataEntry | policy-dashboard/scripts/processData.js:276-282 | each `typeData` entry is a type some row names, with the sum of its rows' amounts and its share of the total |
| Spending.TypeDataCovers | policy-dashboard/scripts/processData.js:261-282 | every type some row names has an entry |
| Spending.TypeDataOrder | policy-dashboard/scripts/processData.js:282 | `typeData` is sorted by amount, largest first, with one entry per type |
| Spending.TypeDataAmounts | policy-dashboard/scripts/processData.js:276-282 | the amounts of `typeData` add up to the amounts of all typed rows |
| Spending.TypeDataShares | policy-dashboard/scripts/processData.js:280 | unless the typed amounts add up to zero, the percentages add up to 100 |
| Spending.IndexOfName | policy-dashboard/scripts/processData.js:266 | `find` by name: the first recipient with that name, or none has it |
| Spending.AddPayment | policy-dashboard/scripts/processData.js:265-272 | one row keeps every existing recipient's name and type in place, adds at most one recipient, and afterwards its recipient is in the list |
| Spending.AddPaymentValid | policy-dashboard/scripts/processData.js:265-272 | one qualifying row keeps the list free of repeated names and its amounts positive |
| Spending.RecipientsValid | policy-dashboard/scripts/processData.js:256-273 | `topRecipients` never holds a name twice, and every amount in it is positive |
| Spending.RecordOf | policy-dashboard/scripts/processData.js:266 | the recipient of that name, if any, is in the list |
| Spending.AddPaymentRecord | policy-dashboard/scripts/processData.js:265-272 | a row adds its amount to its own recipient, or creates it with its type or 不明, and leaves other names alone |
| Spending.RecipientRecord | policy-dashboard/scripts/processData.js:256-273 | a recipient exists exactly when some row pays it; its amount is the sum of its rows; its type is that of its first row |
| Spending.RecordOfMember | policy-dashboard/scripts/processData.js:266 | in a list without repeated names, looking up a member's name finds that member |
| Spending.RecipientEntry | policy-dashboard/scripts/processData.js:256-273 | each recipient's amount is the sum of the rows paying it, and it has a first paying row |
| Spending.RecipientsCover | policy-dashboard/scripts/processData.js:265-272 | every qualifying row has its recipient in the list |
| Spending.Round | policy-dashboard/scripts/processData.js:290 | `Math.round`: the nearest integer, halves rounded up |
| Spending.RoundMonotone | policy-dashboard/scripts/processData.js:290 | rounding keeps the order of amounts |
| Spending.TopRecipients | policy-dashboard/scripts/processData.js:285-292 | `min(50, n)` records, the rounded head of the amount-sorted list |
| Spending.TopRecipientFrom | policy-dashboard/scripts/processData.js:285-292 | each listed record is a recipient with its amount rounded |
| Spending.TopRecipientsOrder | policy-dashboard/scripts/processData.js:285-292 | the list is in non-increasing rounded amount, with no name twice |
| Spending.TopRecipientsCutoff | policy-dashboard/lambda/processData.js:334-341 | a recipient left out is paid, after rounding, no more than any listed one |
| Spending.SampleFacts | policy-dashboard/lambda/processData.js:297-303 | the sample has `min(50000, n)` rows drawn from the table; the whole table when it is no larger |
| Spending.Sample | policy-dashboard/lambda/processData.js:297-303 | the first `min(50000, n)` rows of the shuffled table: that many, and a sub-multiset of it |
| Spending.AddType | policy-dashboard/scripts/processData.js:261-263 | one step of the type totals and their key order |
| Spending.AddRecipient | policy-dashboard/scripts/processData.js:265-272 | one step of the recipient list |
| Spending.AccumulateSpending | policy-dashboard/scripts/processData.js:256-273 | the loop leaves the type totals, their key order and the recipient list |
| Spending.ProcessSpendingData | policy-dashboard/scripts/processData.js:252-298 | `spendingMetrics` of the given rows |
| Spending.SpendingOf | policy-dashboard/scripts/processData.js:294-297 | `spendingMetrics`: at most one type entry per row and at most fifty top recipients |
| Pipeline.RunScript | policy-dashboard/scripts/processData.js:327-354 | `main` computes the eight records in order |
| Pipeline.ArtifactsAgree | policy-dashboard/scripts/processData.js:327-354 | across files: ministry counts total at most `totalProjects`; the project-type file has the summary's new and ending counts; improvement cases are at most `improvementProjects` |
| Lambda.DataProcessor.constructor | policy-dashboard/lambda/processData.js:8-13 | all four tables start empty |
| Lambda.DataProcessor.ProcessMinistryData | policy-dashboard/lambda/processData.js:43-64 | the ministry distribution of the object's basic table |
| Lambda.DataProcessor.ProcessProjectTypeData | policy-dashboard/lambda/processData.js:67-88 | the project-type distribution of the basic table |
| Lambda.DataProcessor.ProcessExpenseTypeData | policy-dashboard/lambda/processData.js:91-112 | the expense-type distribution of the basic table |
| Lambda.DataProcessor.ProcessPerformanceData | policy-dashboard/lambda/processData.js:115-171 | the performance metrics of the object's tables |
| Lambda.DataProcessor.ProcessReviewData | policy-dashboard/lambda/processData.js:174-262 | the review metrics of the object's tables |
| Lambda.DataProcessor.ProcessContractData | policy-dashboard/lambda/processData.js:265-288 | the contract distribution of the spending table |
| Lambda.DataProcessor.ProcessSpendingData | policy-dashboard/lambda/processData.js:291-350 | the table is reordered in place (same multiset); the other tables are unchanged; metrics are those of its first `min(50000, n)` rows |
| Lambda.DataProcessor.ProcessSummary | policy-dashboard/lambda/processData.js:353-367 | the summary of the object's tables |
| Lambda.DataProcessor.ProcessAll | policy-dashboard/lambda/processData.js:370-392 | loads the tables, runs the eight steps in order, and leaves the spending table reordered |
| Lambda.TypedAmountIsSum | policy-dashboard/lambda/processData.js:310-312 | the typed amount is a plain sum over the rows |
| Lambda.LambdaMatchesScript | policy-dashboard/lambda/processData.js:297-331 | the two variants differ only in spending; the sample has `min(50000, n)` rows from the table; for at most 50000 rows the type amounts add up to the script's |
| Charts.CalculateChange | policy-dashboard/src/utils/charts/ChartUtils.js:54-57 | 0 for a missing or zero previous value; otherwise `previous` grown by `r` percent is `current` |
| Charts.ChangeSign | policy-dashboard/src/utils/charts/ChartUtils.js:54-57 | from a positive previous value, the change is positive (negative) exactly when the value rose (fell) |
| Charts.ColorByValue | policy-dashboard/src/utils/charts/ChartUtils.js:65-74 | always one of the four status colours |
| Charts.ColorCountsThresholds | policy-dashboard/src/utils/charts/ChartUtils.js:65-74 | with ordered thresholds, the colour's rank is the number of thresholds the value reaches |
| Charts.ColorMonotone | policy-dashboard/src/utils/charts/ChartUtils.js:65-74 | with ordered thresholds, a larger value never gets a lower colour |
| Charts.DefaultThresholdsOrdered | policy-dashboard/src/utils/charts/ChartUtils.js:65-73 | the default thresholds 75/50/0 are ordered, and the band edges get the expected colours |
| Charts.Bars | policy-dashboard/src/utils/charts/ChartUtils.js:90-93 | one `{label, value}` per item, in order |
| Charts.PrepareBarChartData | policy-dashboard/src/utils/charts/ChartUtils.js:84-94 | `[]` for a missing or empty array; otherwise the array is sorted in place by value, largest first, and the result is its head's bars |
| Charts.BarChartShape | policy-dashboard/src/utils/charts/ChartUtils.js:87-93 | `min(limit, n)` bars, largest value first |
| Charts.BarChartEntries | policy-dashboard/src/utils/charts/ChartUtils.js:87-93 | every bar is the label and value of an input item |
| Charts.BarChartCutoff | policy-dashboard/src/utils/charts/ChartUtils.js:87-89 | an item left out has no larger value than any bar shown |
| Charts.BarChartData | policy-dashboard/src/utils/charts/ChartUtils.js:87-93 | at most one bar per item |
| Charts.LeavesOf | policy-dashboard/src/utils/charts/ChartUtils.js:134-137 | one `{id, value}` leaf per item, in order |
| Charts.ParentNames | policy-dashboard/src/utils/charts/ChartUtils.js:115 | each item's parent value, or その他 |
| Charts.Branches | policy-dashboard/src/utils/charts/ChartUtils.js:114-131 | one branch per name, holding that parent value's leaves |
| Charts.LeavesUnderNone | policy-dashboard/src/utils/charts/ChartUtils.js:114-129 | a parent value no item has gathers no leaves |
| Charts.AddToGroup | policy-dashboard/src/utils/charts/ChartUtils.js:115-128 | one reducer call: push the leaf into its parent's branch, creating it (and its key) first if new |
| Charts.GroupReduce | policy-dashboard/src/utils/charts/ChartUtils.js:114-129 | after the reduce, every parent value holds the leaves of its items; parent values are kept in the order they were first met |
| Charts.GroupItems | policy-dashboard/src/utils/charts/ChartUtils.js:114-131 | the reduce followed by `Object.values` equals the grouped children |
| Charts.GroupByParent | policy-dashboard/src/utils/charts/ChartUtils.js:114-131 | at most one branch per item |
| Charts.ObjectValues | policy-dashboard/src/utils/charts/ChartUtils.js:131 | `Object.values`: the values in key order |
| Charts.PrepareTreemapData | policy-dashboard/src/utils/charts/ChartUtils.js:104-141 | the treemap of the data |
| Charts.TreemapData | policy-dashboard/src/utils/charts/ChartUtils.js:104-141 | at most one root |
| Charts.TreemapShape | policy-dashboard/src/utils/charts/ChartUtils.js:104-141 | no treemap exactly for a missing or empty array; otherwise one root `root` with flat leaves, or the grouped branches when a parent key is given |
| Charts.LeavesUnderFacts | policy-dashboard/src/utils/charts/ChartUtils.js:114-129 | a branch holds one leaf per item with its parent value, each item's leaf, and only those |
| Charts.GroupIdsDistinct | policy-dashboard/src/utils/charts/ChartUtils.js:116-121 | branch ids are pairwise different |
| Charts.GroupHoldsItem | policy-dashboard/src/utils/charts/ChartUtils.js:115-126 | every item's leaf sits in the branch of its parent value |
| Charts.GroupLeafSource | policy-dashboard/src/utils/charts/ChartUtils.js:115-126 | every leaf of a branch comes from an item with that parent value |
| Charts.GroupLeafCount | policy-dashboard/src/utils/charts/ChartUtils.js:114-131 | grouping neither loses nor duplicates an item: the branches hold `n` leaves in all |
| Charts.ScatterData | policy-dashboard/src/utils/charts/ChartUtils.js:153-168 | `[]` for a missing array; otherwise one point per item with its id, x and y, and size and group exactly when their key is given |
| Charts.CalculateMean | policy-dashboard/src/utils/charts/ChartUtils.js:176-181 | 0 for a missing or empty array; otherwise the mean times the number of items is the sum of the converted cells |
| Charts.MeanBounds | policy-dashboard/src/utils/charts/ChartUtils.js:176-181 | the mean lies within any bounds that every converted cell lies within |
| Charts.MeanOfNumbers | policy-dashboard/src/utils/charts/ChartUtils.js:176-181 | when every cell is a number, the result is the arithmetic mean of the cells |
| Charts.Seed | policy-dashboard/src/utils/charts/ChartUtils.js:197-200 | a new group's object has exactly the stages as keys, each at 0 |
| Charts.AddStages | policy-dashboard/src/utils/charts/ChartUtils.js:204-208 | adding an item keeps the group's stage keys |
| Charts.AddStagesMeaning | policy-dashboard/src/utils/charts/ChartUtils.js:204-208 | each stage rises by the item's converted value, once per listing of that stage |
| Charts.AddedOnce | policy-dashboard/src/utils/charts/ChartUtils.js:204-208 | with stages listed once, a listed stage gets the item's value once |
| Charts.GroupTotals | policy-dashboard/src/utils/charts/ChartUtils.js:194-211 | a group's object has exactly the stages as keys |
| Charts.GroupTotalsMeaning | policy-dashboard/src/utils/charts/ChartUtils.js:194-211 | each stage total is what the group's items add to it, starting from 0 |
| Charts.StageTotals | policy-dashboard/src/utils/charts/ChartUtils.js:194-211 | with stages listed once, each stage total is the sum of that stage over the group's items |
| Charts.MultiStageShape | policy-dashboard/src/utils/charts/ChartUtils.js:190-220 | no rows exactly for a missing or empty array; never two rows for one group |
| Charts.MultiStageRow | policy-dashboard/src/utils/charts/ChartUtils.js:214-219 | each row is some item's group, with exactly the stages as keys |
| Charts.MultiStageCovers | policy-dashboard/src/utils/charts/ChartUtils.js:194-219 | every item's group has a row |
| Charts.SeedStages | policy-dashboard/src/utils/charts/ChartUtils.js:198-200 | the seeding loop builds `Seed(stages)` |
| Charts.AddItemStages | policy-dashboard/src/utils/charts/ChartUtils.js:204-208 | the adding loop builds `AddStages` |
| Charts.AddToStages | policy-dashboard/src/utils/charts/ChartUtils.js:195-210 | one reducer call: seed the item's group if new, add the item to it, leave other groups alone, append a new group to the key order |
| Charts.StageReduce | policy-dashboard/src/utils/charts/ChartUtils.js:194-211 | after the reduce, every group holds its totals; groups are kept in the order they were first met |
| Charts.StageEntries | policy-dashboard/src/utils/charts/ChartUtils.js:214-219 | one `{group, ...values}` row per key, in key order |
| Charts.PrepareMultiStageData | policy-dashboard/src/utils/charts/ChartUtils.js:190-220 | the multi-stage rows of the data |
| Charts.MultiStageData | policy-dashboard/src/utils/charts/ChartUtils.js:190-220 | no rows for a missing array; otherwise at most one row per item |

## Left out

- Reading CSV files (Papa Parse), writing JSON files, creating the output
  directory and logging are not modelled. The tables are parameters, and the
  results are return values.
- Random orders are parameters. `sort(() => 0.5 - Math.random())` is not a
  valid comparator, so JavaScript promises no distribution of orders; the
  model only requires the given order to be a permutation of the input.
- Numbers are unbounded reals. Floating-point rounding is not modelled.
- `toFixed(1)` string formatting and `Intl.NumberFormat` are not modelled.
  Percentages, achievements and improvement rates stay exact reals.
- Numeric cells and ids are compared as values. A numeric cell holding non-numeric text (which JavaScript turns into `NaN`) is modelled
  as missing, and `parseFloat` of such text as 0.
- Sorting.SortDesc: sorts achievements and improvement rates by their exact
  values. The source subtracts the `toFixed(1)` strings, that is, the values
  rounded to one decimal, so items within a rounding step may come out in a
  different order.
- Categories.Keys: JavaScript lists integer-like object keys (such as "2023")
  before all other keys, in ascending order. The model keeps every key in
  order of first appearance. The sort that follows hides this except among
  equal counts.
- Reviews.MinistryOrder: keeps the `ministryReviews` keys in order of first
  appearance; an integer-like ministry name would come first in JavaScript.
  The sort by rate hides this except among equal rates.
- Spending.TypeOrder: keeps the `typeDistribution` keys in order of first
  appearance; an integer-like type label would come first in JavaScript.
  The sort by amount hides this except among equal amounts.
- Charts.GroupReduce: keeps parent values in order of first appearance, and so
  do `GroupByParent` and `PrepareTreemapData`. For parent values "2024" then
  "2023", `Object.values` gives the 2023 branch first; the model gives the
  2024 branch first. Nothing sorts the branches afterwards.
- Charts.StageReduce: keeps groups in order of first appearance, and so do
  `StageEntries`, `MultiStageData` and `PrepareMultiStageData`. For groups
  "2024" then "2023", `Object.entries` gives the 2023 row first; the model
  gives the 2024 row first.
- Keys that collide with `Object.prototype` members (such as `constructor`)
  are not modelled. Such keys read as truthy in `counts[v] || 0`.
- Reviews.Tallies: the verdict counters and `total` are kept apart. In the
  source, a verdict spelled `ministry` or `total` would overwrite those fields
  of the row object.
- Spending.Share: a percentage over a zero total is `None`. JavaScript writes
  the string `NaN` or `Infinity` there.
- The source's `find` returns an object that it then
  mutates (`existingRecipient.amount += amount`). The model rebuilds the list
  with the updated record, so there is no aliasing to model.
- Charts.MultiStageData: when a stage is itself named `group`, the source's
  `{group, ...values}` lets the stage value overwrite the group name. The
  model keeps the two fields separate.
- Charts.StageTotals: holds only for stages listed once. A stage listed twice
  is added twice, as in the source. `AddStagesMeaning` states that general
  case.
- Charts.AddStages: `item[stage] !== undefined` followed by
  `Number(item[stage]) || 0` adds 0 for an undefined cell, so the test is
  modelled as adding `NumberOrZero`.
- The chart helpers take a key as the accessor it selects. `item[key]` over
  a missing key is not modelled, nor is the `NaN` that subtraction then gives
  the bar chart's comparator. A negative bar `limit` cuts from the end, as
  `slice` does.
- The chart helpers take an argument that is not an array as `None`. JavaScript's distinction between `null`, `undefined` and
  other non-arrays is not kept.
- Charts.CalculateMean: `Number(v) || 0` is modelled on a cell that is a
  number or missing. String-to-number conversion is not modelled.
