/** The deployed variant of the pipeline: a `DataProcessor` object whose fields
    hold the four loaded tables and whose methods run the aggregators over them.
    Unlike the batch script it aggregates spending over a random sample of at
    most fifty thousand rows, reordering its own spending table in place to draw
    it. Reading the CSV files and writing the JSON files are not modelled; the
    tables and the random orders are given. */
module Lambda {
  import opened Seqs
  import opened Rows
  import opened Categories
  import opened Summaries
  import opened Performance
  import opened Reviews
  import opened Spending
  import opened Pipeline

  class DataProcessor {
    var basicInfoData: seq<BasicInfo>
    var performanceData: seq<Indicator>
    var evaluationData: seq<Evaluation>
    var spendingData: seq<Payment>

    /** All four tables start empty. */
    constructor()
      ensures basicInfoData == [] && performanceData == [] && evaluationData == [] && spendingData == []
    {
      basicInfoData := [];
      performanceData := [];
      evaluationData := [];
      spendingData := [];
    }

    method ProcessMinistryData() returns (r: seq<CategoryCount>)
      ensures r == MinistryDistribution(basicInfoData)
    {
      r := Categories.ProcessMinistryData(basicInfoData);
    }

    method ProcessProjectTypeData() returns (r: seq<CategoryCount>)
      ensures r == ProjectTypeDistribution(basicInfoData)
    {
      r := Categories.ProcessProjectTypeData(basicInfoData);
    }

    method ProcessExpenseTypeData() returns (r: seq<CategoryCount>)
      ensures r == ExpenseTypeDistribution(basicInfoData)
    {
      r := Categories.ProcessExpenseTypeData(basicInfoData);
    }

    method ProcessPerformanceData() returns (metrics: PerformanceMetrics)
      ensures metrics == PerformanceMetrics(TypeDistribution(performanceData), ProjectPerformance(performanceData, basicInfoData))
    {
      metrics := Performance.ProcessPerformanceData(performanceData, basicInfoData);
    }

    /** `shuffledCases` is the order the random comparator gave the candidates. */
    method ProcessReviewData(shuffledCases: seq<ImprovementCase>) returns (metrics: ReviewMetrics)
      requires multiset(shuffledCases) == multiset(Candidates(evaluationData, basicInfoData))
      ensures metrics == ReviewMetrics(ReviewDistribution(evaluationData), MinistryReviews(evaluationData, basicInfoData),
                                       ImprovementCases(evaluationData, basicInfoData, shuffledCases))
    {
      metrics := Reviews.ProcessReviewData(evaluationData, basicInfoData, shuffledCases);
    }

    method ProcessContractData() returns (r: seq<CategoryCount>)
      ensures r == ContractDistribution(spendingData)
    {
      r := Spending.ProcessContractData(spendingData);
    }

    /** `this.spendingData.sort(() => 0.5 - Math.random())` reorders the table in
        place into `shuffled`, some permutation of it; the first `sampleSize`
        rows are then aggregated. The other tables are left alone. */
    method ProcessSpendingData(shuffled: seq<Payment>) returns (metrics: SpendingMetrics)
      requires multiset(shuffled) == multiset(spendingData)
      modifies this
      ensures spendingData == shuffled
      ensures multiset(spendingData) == multiset(old(spendingData))
      ensures basicInfoData == old(basicInfoData) && performanceData == old(performanceData)
              && evaluationData == old(evaluationData)
      ensures metrics == SpendingOf(Sample(shuffled))
    {
      var sampleSize := Min(SAMPLE_SIZE, |spendingData|);
      assert |shuffled| == |spendingData| by {
        assert |multiset(shuffled)| == |multiset(spendingData)|;
      }
      spendingData := shuffled;
      var sampledData := spendingData[..sampleSize];
      metrics := Spending.ProcessSpendingData(sampledData);
    }

    method ProcessSummary() returns (summary: Summary)
      ensures summary == Summarize(basicInfoData, evaluationData)
    {
      summary := Summarize(basicInfoData, evaluationData);
    }

    /** The object holds the given tables. */
    predicate Holds(basic: seq<BasicInfo>, indicators: seq<Indicator>, evals: seq<Evaluation>, payments: seq<Payment>)
      reads this
    {
      basicInfoData == basic && performanceData == indicators && evaluationData == evals && spendingData == payments
    }

    /** `processAll`: load the tables, then run the summary and the seven
        aggregators in that order. Contract methods are counted before the
        spending table is reordered. */
    method ProcessAll(basic: seq<BasicInfo>, indicators: seq<Indicator>, evals: seq<Evaluation>, payments: seq<Payment>,
                      shuffledCases: seq<ImprovementCase>, shuffledPayments: seq<Payment>)
      returns (out: Artifacts)
      requires multiset(shuffledCases) == multiset(Candidates(evals, basic))
      requires multiset(shuffledPayments) == multiset(payments)
      modifies this
      ensures basicInfoData == basic && performanceData == indicators && evaluationData == evals
      ensures spendingData == shuffledPayments
      ensures out == LambdaArtifacts(basic, indicators, evals, payments, shuffledCases, shuffledPayments)
    {
      basicInfoData := basic;
      performanceData := indicators;
      evaluationData := evals;
      spendingData := payments;
      var summary := ProcessSummary();
      assert Holds(basic, indicators, evals, payments);
      var ministryData := ProcessMinistryData();
      assert Holds(basic, indicators, evals, payments);
      var projectTypeData := ProcessProjectTypeData();
      assert Holds(basic, indicators, evals, payments);
      var expenseTypeData := ProcessExpenseTypeData();
      assert Holds(basic, indicators, evals, payments);
      var performanceMetrics := ProcessPerformanceData();
      assert Holds(basic, indicators, evals, payments);
      var reviewMetrics := ProcessReviewData(shuffledCases);
      assert Holds(basic, indicators, evals, payments);
      var contractData := ProcessContractData();
      assert Holds(basic, indicators, evals, payments);
      var spendingMetrics := ProcessSpendingData(shuffledPayments);
      out := Artifacts(ministryData, projectTypeData, expenseTypeData, performanceMetrics,
                       reviewMetrics, contractData, spendingMetrics, summary);
    }
  }

  /** What `processAll` writes: the script's records, except that spending is
      aggregated over the sample drawn from `shuffledPayments`. */
  function LambdaArtifacts(basic: seq<BasicInfo>, indicators: seq<Indicator>, evals: seq<Evaluation>, payments: seq<Payment>,
                           shuffledCases: seq<ImprovementCase>, shuffledPayments: seq<Payment>): Artifacts
    requires multiset(shuffledCases) == multiset(Candidates(evals, basic))
  {
    ScriptArtifacts(basic, indicators, evals, payments, shuffledCases).(spendingMetrics := SpendingOf(Sample(shuffledPayments)))
  }

  /** The typed amount is a plain sum over the rows. */
  lemma {:induction false} TypedAmountIsSum(ps: seq<Payment>)
    ensures TypedAmount(ps) == SumOver(ps, (p: Payment) => if Present(p.recipientType) then AmountOf(p) else 0.0)
  {
    if ps != [] {
      TypedAmountIsSum(ps[..|ps| - 1]);
    }
  }

  /** The two pipelines differ only in spending. The deployed one aggregates
      `min(50000, n)` rows drawn from the table; when the table has at most
      that many rows, the sample is the whole table reordered, and the type
      amounts it reports add up to the same total as the script's. */
  lemma LambdaMatchesScript(basic: seq<BasicInfo>, indicators: seq<Indicator>, evals: seq<Evaluation>, payments: seq<Payment>,
                            shuffledCases: seq<ImprovementCase>, shuffledPayments: seq<Payment>)
    requires multiset(shuffledCases) == multiset(Candidates(evals, basic))
    requires multiset(shuffledPayments) == multiset(payments)
    ensures LambdaArtifacts(basic, indicators, evals, payments, shuffledCases, shuffledPayments).(spendingMetrics := SpendingOf(payments))
            == ScriptArtifacts(basic, indicators, evals, payments, shuffledCases)
    ensures |Sample(shuffledPayments)| == Min(SAMPLE_SIZE, |payments|)
    ensures multiset(Sample(shuffledPayments)) <= multiset(payments)
    ensures |payments| <= SAMPLE_SIZE ==>
      SumOver(LambdaArtifacts(basic, indicators, evals, payments, shuffledCases, shuffledPayments).spendingMetrics.typeDistribution, AmountKey)
      == SumOver(ScriptArtifacts(basic, indicators, evals, payments, shuffledCases).spendingMetrics.typeDistribution, AmountKey)
  {
    SampleFacts(payments, shuffledPayments);
    if |payments| <= SAMPLE_SIZE {
      var sample := Sample(shuffledPayments);
      TypeDataAmounts(sample);
      TypeDataAmounts(payments);
      TypedAmountIsSum(sample);
      TypedAmountIsSum(payments);
      SumOverPermutation(sample, payments, (p: Payment) => if Present(p.recipientType) then AmountOf(p) else 0.0);
    }
  }
}
