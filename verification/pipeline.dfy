/** The batch script's `main`: every aggregate over the four loaded tables, and
    the summary object, as the records it writes out. Reading the CSV files and
    writing the JSON files are not modelled; the tables are given. */
module Pipeline {
  import opened Seqs
  import opened Rows
  import opened Categories
  import opened Summaries
  import opened Performance
  import opened Reviews
  import opened Spending

  /** The eight JSON files `main` writes, in the order it computes them. */
  datatype Artifacts = Artifacts(
    ministryData: seq<CategoryCount>,
    projectTypeData: seq<CategoryCount>,
    expenseTypeData: seq<CategoryCount>,
    performanceMetrics: PerformanceMetrics,
    reviewMetrics: ReviewMetrics,
    contractData: seq<CategoryCount>,
    spendingMetrics: SpendingMetrics,
    summary: Summary)

  /** What `main` writes for the given tables; `shuffledCases` is the order the
      random comparator gave the improvement candidates. The script aggregates
      the spending table whole, without sampling. */
  function ScriptArtifacts(basic: seq<BasicInfo>, indicators: seq<Indicator>, evals: seq<Evaluation>,
                           payments: seq<Payment>, shuffledCases: seq<ImprovementCase>): Artifacts
    requires multiset(shuffledCases) == multiset(Candidates(evals, basic))
  {
    Artifacts(
      MinistryDistribution(basic),
      ProjectTypeDistribution(basic),
      ExpenseTypeDistribution(basic),
      PerformanceMetrics(TypeDistribution(indicators), ProjectPerformance(indicators, basic)),
      ReviewMetrics(ReviewDistribution(evals), MinistryReviews(evals, basic), ImprovementCases(evals, basic, shuffledCases)),
      ContractDistribution(payments),
      SpendingOf(payments),
      Summarize(basic, evals))
  }

  /** `main`: the seven aggregators, then the summary. */
  method RunScript(basic: seq<BasicInfo>, indicators: seq<Indicator>, evals: seq<Evaluation>,
                   payments: seq<Payment>, shuffledCases: seq<ImprovementCase>) returns (out: Artifacts)
    requires multiset(shuffledCases) == multiset(Candidates(evals, basic))
    ensures out == ScriptArtifacts(basic, indicators, evals, payments, shuffledCases)
  {
    var ministryData := ProcessMinistryData(basic);
    var projectTypeData := ProcessProjectTypeData(basic);
    var expenseTypeData := ProcessExpenseTypeData(basic);
    var performanceMetrics := ProcessPerformanceData(indicators, basic);
    var reviewMetrics := ProcessReviewData(evals, basic, shuffledCases);
    var contractData := ProcessContractData(payments);
    var spendingMetrics := ProcessSpendingData(payments);
    var summary := Summarize(basic, evals);
    out := Artifacts(ministryData, projectTypeData, expenseTypeData, performanceMetrics,
                     reviewMetrics, contractData, spendingMetrics, summary);
  }

  /** The files agree with each other: the ministry counts add up to no more than
      `totalProjects`; the project-type file has an entry for new (ending)
      projects whose count is the summary's whenever there are any; and there
      are no more improvement cases than `improvementProjects`. */
  lemma ArtifactsAgree(basic: seq<BasicInfo>, indicators: seq<Indicator>, evals: seq<Evaluation>,
                       payments: seq<Payment>, shuffledCases: seq<ImprovementCase>)
    requires multiset(shuffledCases) == multiset(Candidates(evals, basic))
    ensures SumOver(ScriptArtifacts(basic, indicators, evals, payments, shuffledCases).ministryData, CountKey)
            <= ScriptArtifacts(basic, indicators, evals, payments, shuffledCases).summary.totalProjects as real
    ensures ScriptArtifacts(basic, indicators, evals, payments, shuffledCases).summary.newProjects > 0 ==>
      exists e :: e in ScriptArtifacts(basic, indicators, evals, payments, shuffledCases).projectTypeData
                  && e.category == NEW_PROJECT
                  && e.count == ScriptArtifacts(basic, indicators, evals, payments, shuffledCases).summary.newProjects
    ensures ScriptArtifacts(basic, indicators, evals, payments, shuffledCases).summary.endingProjects > 0 ==>
      exists e :: e in ScriptArtifacts(basic, indicators, evals, payments, shuffledCases).projectTypeData
                  && e.category == ENDING_PROJECT
                  && e.count == ScriptArtifacts(basic, indicators, evals, payments, shuffledCases).summary.endingProjects
    ensures |ScriptArtifacts(basic, indicators, evals, payments, shuffledCases).reviewMetrics.improvementCases|
            <= ScriptArtifacts(basic, indicators, evals, payments, shuffledCases).summary.improvementProjects
  {
    DistributionCountSum(MinistryColumn(basic), |basic|);
    SummaryMatchesProjectTypes(basic, evals);
    ImprovementCasesFacts(evals, basic, shuffledCases);
  }
}
