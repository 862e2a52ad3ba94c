/** `processReviewData`: the verdict distribution, the per-ministry verdict table
    with its improvement rate, and a random selection of at most ten improvement
    cases. */
module Reviews {
  import opened Seqs
  import opened Sorting
  import opened Rows
  import opened Categories
  import opened Summaries

  /** `reviewDistribution`: verdict counts, percentages of all evaluations. */
  function ReviewDistribution(evals: seq<Evaluation>): (r: seq<CategoryCount>)
    ensures |r| <= |evals|
  {
    Distribution(VerdictColumn(evals), |evals|)
  }

  /** The verdict distribution has one entry per distinct non-empty verdict with
      the number of evaluations holding it; the counts add up to at most the
      number of evaluations, and the entries come largest count first. */
  lemma ReviewDistributionCounts(evals: seq<Evaluation>)
    ensures NonIncreasing(ReviewDistribution(evals), CountKey)
    ensures SumOver(ReviewDistribution(evals), CountKey) <= |evals| as real
    ensures forall e :: e in ReviewDistribution(evals) ==>
      e.count == multiset(VerdictColumn(evals))[Some(e.category)] >= 1
    ensures forall i :: 0 <= i < |evals| && Present(evals[i].verdict) ==>
      exists e :: e in ReviewDistribution(evals) && e.category == evals[i].verdict.value
  {
    var col := VerdictColumn(evals);
    var r := ReviewDistribution(evals);
    DistributionOrder(col, |evals|);
    DistributionCountSum(col, |evals|);
    forall e | e in r ensures e.count == multiset(col)[Some(e.category)] >= 1 {
      var i :| 0 <= i < |r| && r[i] == e;
      DistributionEntry(col, |evals|, i);
    }
    forall i | 0 <= i < |evals| && Present(evals[i].verdict)
      ensures exists e :: e in r && e.category == evals[i].verdict.value
    {
      assert col[i] == evals[i].verdict;
      DistributionCovers(col, |evals|, col[i].value);
      var j :| 0 <= j < |r| && r[j].category == col[i].value;
      assert r[j] in r;
    }
  }

  // ---- Per-ministry verdict table ----

  /** An evaluation is counted for ministry `m` when it has an id and a verdict,
      its id joins to a basic-information row, and that row names ministry `m`. */
  predicate JoinsTo(e: Evaluation, basic: seq<BasicInfo>, m: string) {
    && Present(e.projectId) && Present(e.verdict)
    && var info := FindProject(basic, e.projectId);
       info.Some? && Present(info.value.ministry) && info.value.ministry.value == m
  }

  /** The (ministry, verdict) pairs of the counted evaluations, in row order. */
  function Joined(evals: seq<Evaluation>, basic: seq<BasicInfo>): (r: seq<(string, string)>)
    ensures |r| <= |evals|
  {
    if evals == [] then []
    else
      var e := evals[|evals| - 1];
      var info := FindProject(basic, e.projectId);
      Joined(evals[..|evals| - 1], basic)
        + (if Present(e.projectId) && Present(e.verdict) && info.Some? && Present(info.value.ministry)
           then [(info.value.ministry.value, e.verdict.value)] else [])
  }

  /** Number of pairs for ministry `m`. */
  function PairsOf(pairs: seq<(string, string)>, m: string): nat {
    if pairs == [] then 0
    else PairsOf(pairs[..|pairs| - 1], m) + (if pairs[|pairs| - 1].0 == m then 1 else 0)
  }

  lemma PairsOfSnoc(pairs: seq<(string, string)>, pair: (string, string), m: string)
    ensures PairsOf(pairs + [pair], m) == PairsOf(pairs, m) + if pair.0 == m then 1 else 0
  {
    assert (pairs + [pair])[..|pairs|] == pairs;
  }

  /** One more evaluation adds its pair, if it is counted. */
  lemma JoinedStep(evals: seq<Evaluation>, basic: seq<BasicInfo>)
    requires evals != []
    ensures var e := evals[|evals| - 1];
      var info := FindProject(basic, e.projectId);
      Joined(evals, basic) == Joined(evals[..|evals| - 1], basic)
        + if Present(e.projectId) && Present(e.verdict) && info.Some? && Present(info.value.ministry)
          then [(info.value.ministry.value, e.verdict.value)] else []
  {
  }

  /** The pairs of ministry `m` are its counted evaluations. */
  lemma {:induction false} JoinedCounts(evals: seq<Evaluation>, basic: seq<BasicInfo>, m: string, p: Evaluation -> bool)
    requires forall e :: p(e) <==> JoinsTo(e, basic, m)
    ensures PairsOf(Joined(evals, basic), m) == Count(evals, p)
  {
    if evals != [] {
      var init := evals[..|evals| - 1];
      var e := evals[|evals| - 1];
      JoinedCounts(init, basic, m, p);
      JoinedStep(evals, basic);
      var info := FindProject(basic, e.projectId);
      if Present(e.projectId) && Present(e.verdict) && info.Some? && Present(info.value.ministry) {
        var pair := (info.value.ministry.value, e.verdict.value);
        assert Joined(evals, basic) == Joined(init, basic) + [pair];
        PairsOfSnoc(Joined(init, basic), pair, m);
        assert p(e) <==> info.value.ministry.value == m;
        assert Count(evals, p) == Count(init, p) + if p(e) then 1 else 0;
      } else {
        assert !p(e);
        assert Joined(init, basic) + [] == Joined(init, basic);
      }
    }
  }

  /** The five verdicts every ministry row is seeded with, at zero. */
  const SEEDED_VERDICTS: map<string, nat> :=
    map[AS_IS := 0, PARTIAL_IMPROVEMENT := 0, FUNDAMENTAL_IMPROVEMENT := 0, SCHEDULED_END := 0, ABOLISHED := 0]

  /** The counters of one ministry: one per verdict seen (and the five seeded), and `total`. */
  datatype MinistryTally = MinistryTally(counts: map<string, nat>, total: nat)

  /** One counted evaluation with verdict `v` for a ministry whose tally is `t`
      (or which has none yet). */
  function AddVerdict(t: Option<MinistryTally>, v: string): MinistryTally {
    var base := if t.Some? then t.value else MinistryTally(SEEDED_VERDICTS, 0);
    MinistryTally(Bump(base.counts, v), base.total + 1)
  }

  /** `ministryReviews` after the pairs. */
  function Tallies(pairs: seq<(string, string)>): (m: map<string, MinistryTally>)
    ensures forall k :: k in m ==> m[k].total > 0
  {
    if pairs == [] then map[]
    else
      var m := Tallies(pairs[..|pairs| - 1]);
      var (k, v) := pairs[|pairs| - 1];
      m[k := AddVerdict(if k in m then Some(m[k]) else None, v)]
  }

  /** The key order of `ministryReviews` (`Object.values`): a ministry becomes a
      key when it is first counted. */
  function MinistryOrder(pairs: seq<(string, string)>): (r: seq<string>)
    ensures NoDuplicates(r)
    ensures forall k :: k in r <==> k in Tallies(pairs)
  {
    if pairs == [] then []
    else
      var init := pairs[..|pairs| - 1];
      var k := pairs[|pairs| - 1].0;
      MinistryOrder(init) + (if k in Tallies(init) then [] else [k])
  }

  /** There are no more ministries than pairs. */
  lemma {:induction false} MinistryOrderLength(pairs: seq<(string, string)>)
    ensures |MinistryOrder(pairs)| <= |pairs|
  {
    if pairs != [] {
      MinistryOrderLength(pairs[..|pairs| - 1]);
    }
  }

  lemma TalliesStep(pairs: seq<(string, string)>, k: string, v: string)
    ensures Tallies(pairs + [(k, v)]) == Tallies(pairs)[k := AddVerdict(if k in Tallies(pairs) then Some(Tallies(pairs)[k]) else None, v)]
    ensures MinistryOrder(pairs + [(k, v)]) == MinistryOrder(pairs) + (if k in Tallies(pairs) then [] else [k])
  {
    var w := pairs + [(k, v)];
    assert w[..|w| - 1] == pairs;
    assert w[|w| - 1] == (k, v);
  }

  /** `item[v] || 0` */
  function CountOf(counts: map<string, nat>, v: string): nat {
    if v in counts then counts[v] else 0
  }

  /** A ministry has a tally exactly when it has a pair. */
  lemma {:induction false} TallyKey(pairs: seq<(string, string)>, k: string)
    ensures k in Tallies(pairs) <==> PairsOf(pairs, k) > 0
  {
    if pairs != [] {
      TallyKey(pairs[..|pairs| - 1], k);
    }
  }

  /** A ministry's tally holds the five seeded verdicts and a total equal to the
      number of its pairs, of which the two improvement verdicts are a part. */
  lemma {:induction false} TallyTotal(pairs: seq<(string, string)>, k: string)
    requires k in Tallies(pairs)
    ensures SEEDED_VERDICTS.Keys <= Tallies(pairs)[k].counts.Keys
    ensures Tallies(pairs)[k].total == PairsOf(pairs, k)
    ensures ImprovementCount(Tallies(pairs)[k].counts) <= Tallies(pairs)[k].total
  {
    var init := pairs[..|pairs| - 1];
    var (j, u) := pairs[|pairs| - 1];
    if j != k || k in Tallies(init) {
      TallyTotal(init, k);
    } else {
      TallyKey(init, k);
    }
  }

  /** A ministry's counter for verdict `v` is the number of its pairs with `v`. */
  lemma {:induction false} TallyCount(pairs: seq<(string, string)>, k: string, v: string)
    requires k in Tallies(pairs)
    ensures CountOf(Tallies(pairs)[k].counts, v) == multiset(pairs)[(k, v)]
  {
    var init := pairs[..|pairs| - 1];
    var (j, u) := pairs[|pairs| - 1];
    assert pairs == init + [(j, u)];
    assert multiset(pairs)[(k, v)] == multiset(init)[(k, v)] + if (j, u) == (k, v) then 1 else 0;
    TalliesStep(init, j, u);
    if j != k {
      TallyCount(init, k, v);
    } else {
      var tallies := Tallies(init);
      var t := if k in tallies then Some(tallies[k]) else None;
      CountOfAddVerdict(t, u, v);
      if k in tallies {
        TallyCount(init, k, v);
      } else {
        TallyKey(init, k);
        ZeroPairs(init, k, v);
      }
    }
  }

  /** Counting one more verdict `u` raises the counter of `u` alone. */
  lemma CountOfAddVerdict(t: Option<MinistryTally>, u: string, v: string)
    ensures CountOf(AddVerdict(t, u).counts, v)
            == (if t.Some? then CountOf(t.value.counts, v) else 0) + if u == v then 1 else 0
  {
    assert CountOf(SEEDED_VERDICTS, v) == 0;
  }

  /** A ministry without pairs has no pair with any verdict. */
  lemma {:induction false} ZeroPairs(pairs: seq<(string, string)>, k: string, v: string)
    requires PairsOf(pairs, k) == 0
    ensures multiset(pairs)[(k, v)] == 0
  {
    if pairs != [] {
      var init := pairs[..|pairs| - 1];
      assert pairs == init + [pairs[|pairs| - 1]];
      ZeroPairs(init, k, v);
    }
  }

  /** One row of `ministryReviewArray`: the counters, the total and the improvement
      rate `(一部改善 + 抜本的改善) / total * 100`. */
  datatype MinistryReview = MinistryReview(ministry: string, counts: map<string, nat>, total: nat, improvementRate: real)

  function RateKey(r: MinistryReview): real { r.improvementRate }

  /** `improvementCount / item.total * 100` */
  function Rate(improvementCount: nat, total: nat): real
    requires total > 0
  {
    improvementCount as real / total as real * 100.0
  }

  /** `(item['事業内容の一部改善'] || 0) + (item['事業全体の抜本的な改善'] || 0)` */
  function ImprovementCount(counts: map<string, nat>): nat {
    CountOf(counts, PARTIAL_IMPROVEMENT) + CountOf(counts, FUNDAMENTAL_IMPROVEMENT)
  }

  function ReviewRow(k: string, t: MinistryTally): MinistryReview
    requires t.total > 0
  {
    MinistryReview(k, t.counts, t.total, Rate(ImprovementCount(t.counts), t.total))
  }

  function ReviewRows(keys: seq<string>, tallies: map<string, MinistryTally>): (r: seq<MinistryReview>)
    requires forall k :: k in keys ==> k in tallies && tallies[k].total > 0
    ensures |r| == |keys|
    ensures forall i :: 0 <= i < |keys| ==> r[i] == ReviewRow(keys[i], tallies[keys[i]])
  {
    if keys == [] then []
    else ReviewRows(keys[..|keys| - 1], tallies) + [ReviewRow(keys[|keys| - 1], tallies[keys[|keys| - 1]])]
  }

  /** `ministryReviewArray`, sorted by improvement rate, largest first. */
  function MinistryReviews(evals: seq<Evaluation>, basic: seq<BasicInfo>): (r: seq<MinistryReview>)
    ensures |r| <= |evals|
  {
    var pairs := Joined(evals, basic);
    MinistryOrderLength(pairs);
    SortDesc(ReviewRows(MinistryOrder(pairs), Tallies(pairs)), RateKey)
  }

  /** The `evaluationData.forEach` loop that fills `ministryReviews`. */
  method TallyMinistries(evals: seq<Evaluation>, basic: seq<BasicInfo>) returns (ministryReviews: map<string, MinistryTally>, order: seq<string>)
    ensures ministryReviews == Tallies(Joined(evals, basic))
    ensures order == MinistryOrder(Joined(evals, basic))
  {
    ministryReviews := map[];
    order := [];
    for i := 0 to |evals|
      invariant ministryReviews == Tallies(Joined(evals[..i], basic))
      invariant order == MinistryOrder(Joined(evals[..i], basic))
    {
      var review := evals[i];
      assert evals[..i + 1][..i] == evals[..i];
      var pairs := Joined(evals[..i], basic);
      var projectId := review.projectId;
      var reviewResult := review.verdict;
      if projectId.Some? && projectId.value != "" && reviewResult.Some? && reviewResult.value != "" {
        var basicInfo := FindProject(basic, projectId);
        if basicInfo.Some? {
          var ministry := basicInfo.value.ministry;
          if ministry.Some? && ministry.value != "" {
            var m := ministry.value;
            assert Joined(evals[..i + 1], basic) == pairs + [(m, reviewResult.value)];
            TalliesStep(pairs, m, reviewResult.value);
            var existing := if m in ministryReviews then Some(ministryReviews[m]) else None;
            if m !in ministryReviews {
              order := order + [m];
            }
            ministryReviews := ministryReviews[m := AddVerdict(existing, reviewResult.value)];
          } else {
            assert Joined(evals[..i + 1], basic) == pairs;
          }
        } else {
          assert Joined(evals[..i + 1], basic) == pairs;
        }
      } else {
        assert Joined(evals[..i + 1], basic) == pairs;
      }
    }
    assert evals[..|evals|] == evals;
  }

  lemma RateBounds(improvementCount: nat, total: nat)
    requires improvementCount <= total && total > 0
    ensures 0.0 <= Rate(improvementCount, total) <= 100.0
  {
  }

  /** Before sorting, row `i` is the row of the `i`-th counted ministry, with a
      rate between 0 and 100. */
  lemma ReviewRowAt(pairs: seq<(string, string)>, i: int)
    requires 0 <= i < |MinistryOrder(pairs)|
    ensures ReviewRows(MinistryOrder(pairs), Tallies(pairs))[i].ministry == MinistryOrder(pairs)[i]
    ensures MinistryOrder(pairs)[i] in Tallies(pairs)
    ensures ReviewRows(MinistryOrder(pairs), Tallies(pairs))[i]
            == ReviewRow(MinistryOrder(pairs)[i], Tallies(pairs)[MinistryOrder(pairs)[i]])
    ensures 0.0 <= ReviewRows(MinistryOrder(pairs), Tallies(pairs))[i].improvementRate <= 100.0
  {
    var k := MinistryOrder(pairs)[i];
    var t := Tallies(pairs)[k];
    TallyTotal(pairs, k);
    RateBounds(ImprovementCount(t.counts), t.total);
  }

  /** What a row of the table holds about its ministry's pairs. */
  lemma RowFacts(pairs: seq<(string, string)>, row: MinistryReview)
    requires row in ReviewRows(MinistryOrder(pairs), Tallies(pairs))
    ensures SEEDED_VERDICTS.Keys <= row.counts.Keys
    ensures row.total == PairsOf(pairs, row.ministry) >= 1
    ensures forall v :: CountOf(row.counts, v) == multiset(pairs)[(row.ministry, v)]
    ensures row.improvementRate == Rate(ImprovementCount(row.counts), row.total)
    ensures 0.0 <= row.improvementRate <= 100.0
  {
    var rows := ReviewRows(MinistryOrder(pairs), Tallies(pairs));
    var i :| 0 <= i < |rows| && rows[i] == row;
    ReviewRowAt(pairs, i);
    TallyTotal(pairs, row.ministry);
    forall v ensures CountOf(row.counts, v) == multiset(pairs)[(row.ministry, v)] {
      TallyCount(pairs, row.ministry, v);
    }
  }

  /** Each row of `ministryReviewArray` holds the five seeded verdicts, a counter
      per verdict equal to the number of counted evaluations of its ministry with
      that verdict, a total of at least one equal to the number of its counted
      evaluations, and the improvement rate, between 0 and 100; the rows come
      highest rate first. */
  lemma MinistryReviewsMeaning(evals: seq<Evaluation>, basic: seq<BasicInfo>)
    ensures NonIncreasing(MinistryReviews(evals, basic), RateKey)
    ensures forall row :: row in MinistryReviews(evals, basic) ==>
      && SEEDED_VERDICTS.Keys <= row.counts.Keys
      && row.total == PairsOf(Joined(evals, basic), row.ministry) >= 1
      && (forall v :: CountOf(row.counts, v) == multiset(Joined(evals, basic))[(row.ministry, v)])
      && row.improvementRate == Rate(ImprovementCount(row.counts), row.total)
      && 0.0 <= row.improvementRate <= 100.0
  {
    var pairs := Joined(evals, basic);
    var rows := ReviewRows(MinistryOrder(pairs), Tallies(pairs));
    var r := MinistryReviews(evals, basic);
    SortDescSorted(rows, RateKey);
    forall row | row in r
      ensures && SEEDED_VERDICTS.Keys <= row.counts.Keys
              && row.total == PairsOf(pairs, row.ministry) >= 1
              && (forall v :: CountOf(row.counts, v) == multiset(pairs)[(row.ministry, v)])
              && row.improvementRate == Rate(ImprovementCount(row.counts), row.total)
              && 0.0 <= row.improvementRate <= 100.0
    {
      assert row in multiset(r);
      RowFacts(pairs, row);
    }
  }

  /** `ministryReviewArray` has a row for every ministry with a counted evaluation. */
  lemma MinistryReviewsCover(evals: seq<Evaluation>, basic: seq<BasicInfo>, k: string)
    requires PairsOf(Joined(evals, basic), k) > 0
    ensures exists row :: row in MinistryReviews(evals, basic) && row.ministry == k
  {
    var pairs := Joined(evals, basic);
    var order := MinistryOrder(pairs);
    var rows := ReviewRows(order, Tallies(pairs));
    TallyKey(pairs, k);
    var i :| 0 <= i < |order| && order[i] == k;
    ReviewRowAt(pairs, i);
    assert rows[i] in multiset(rows);
    assert rows[i] in MinistryReviews(evals, basic);
  }

  function RowMinistry(row: MinistryReview): string { row.ministry }

  /** No ministry has two rows in `ministryReviewArray`. */
  lemma MinistryReviewsUnique(evals: seq<Evaluation>, basic: seq<BasicInfo>)
    ensures forall i, j :: 0 <= i < j < |MinistryReviews(evals, basic)| ==>
      MinistryReviews(evals, basic)[i].ministry != MinistryReviews(evals, basic)[j].ministry
  {
    var pairs := Joined(evals, basic);
    var order := MinistryOrder(pairs);
    var rows := ReviewRows(order, Tallies(pairs));
    var r := MinistryReviews(evals, basic);
    assert forall i :: 0 <= i < |rows| ==> RowMinistry(rows[i]) == order[i];
    PermutationNames(rows, r, RowMinistry);
    assert forall i, j :: 0 <= i < j < |r| ==> RowMinistry(r[i]) != RowMinistry(r[j]);
  }

  // ---- Improvement cases ----

  datatype ImprovementCase = ImprovementCase(projectId: Text, reviewType: Text, improvement: Text, projectName: Text, ministry: Text)

  /** The case record of an evaluation, joined to its project's name and ministry. */
  function CaseOf(e: Evaluation, basic: seq<BasicInfo>): ImprovementCase {
    var info := FindProject(basic, e.projectId);
    ImprovementCase(e.projectId, e.verdict, e.improvement, ProjectNameOf(info), MinistryOf(info))
  }

  /** The cases before the shuffle: evaluations with an improvement verdict, as
      case records, keeping those with a non-empty narrative. */
  function Candidates(evals: seq<Evaluation>, basic: seq<BasicInfo>): (r: seq<ImprovementCase>)
    ensures |r| <= |evals|
  {
    if evals == [] then []
    else
      var e := evals[|evals| - 1];
      Candidates(evals[..|evals| - 1], basic)
        + (if IsImprovementVerdict(e.verdict) && Present(CaseOf(e, basic).improvement) then [CaseOf(e, basic)] else [])
  }

  /** Every candidate has an improvement verdict, a narrative and its project's
      joined name and ministry; there are at most as many as evaluations with an
      improvement verdict. */
  lemma {:induction false} CandidatesMeaning(evals: seq<Evaluation>, basic: seq<BasicInfo>)
    ensures forall c :: c in Candidates(evals, basic) ==>
      && IsImprovementVerdict(c.reviewType) && Present(c.improvement)
      && c.projectName == ProjectNameOf(FindProject(basic, c.projectId))
      && c.ministry == MinistryOf(FindProject(basic, c.projectId))
    ensures |Candidates(evals, basic)| <= Count(evals, IsImprovementReview)
  {
    if evals != [] {
      CandidatesMeaning(evals[..|evals| - 1], basic);
    }
  }

  /** `.sort(() => 0.5 - Math.random()).slice(0, 10)`: `shuffled` is the order the
      random comparator produced, some permutation of the candidates. */
  function ImprovementCases(evals: seq<Evaluation>, basic: seq<BasicInfo>, shuffled: seq<ImprovementCase>): (r: seq<ImprovementCase>)
    requires multiset(shuffled) == multiset(Candidates(evals, basic))
    ensures |r| == Min(10, |Candidates(evals, basic)|)
    ensures multiset(r) <= multiset(Candidates(evals, basic))
  {
    assert |shuffled| == |multiset(shuffled)| == |Candidates(evals, basic)|;
    assert shuffled == shuffled[..Min(10, |shuffled|)] + shuffled[Min(10, |shuffled|)..];
    shuffled[..Min(10, |shuffled|)]
  }

  /** At most ten cases, as many as there are candidates up to ten, each one a
      candidate (an improvement verdict with a narrative), so no more than
      `summary.improvementProjects`. */
  lemma ImprovementCasesFacts(evals: seq<Evaluation>, basic: seq<BasicInfo>, shuffled: seq<ImprovementCase>)
    requires multiset(shuffled) == multiset(Candidates(evals, basic))
    ensures var r := ImprovementCases(evals, basic, shuffled);
      && |r| == Min(10, |Candidates(evals, basic)|) <= 10
      && |r| <= Summarize(basic, evals).improvementProjects
      && multiset(r) <= multiset(Candidates(evals, basic))
      && (forall c :: c in r ==>
            && IsImprovementVerdict(c.reviewType) && Present(c.improvement)
            && c.projectName == ProjectNameOf(FindProject(basic, c.projectId))
            && c.ministry == MinistryOf(FindProject(basic, c.projectId)))
  {
    var r := ImprovementCases(evals, basic, shuffled);
    var cands := Candidates(evals, basic);
    CandidatesMeaning(evals, basic);
    assert |shuffled| == |multiset(shuffled)| == |cands|;
    assert shuffled == r + shuffled[|r|..];
    assert multiset(r) <= multiset(shuffled);
    forall c | c in r ensures c in cands {
      assert c in multiset(r);
    }
  }

  datatype ReviewMetrics = ReviewMetrics(
    reviewDistribution: seq<CategoryCount>,
    ministryReviewArray: seq<MinistryReview>,
    improvementCases: seq<ImprovementCase>)

  /** `processReviewData(reviewData, basicInfoData)`, with the random order of the
      candidates given as `shuffled`. */
  method ProcessReviewData(evals: seq<Evaluation>, basic: seq<BasicInfo>, shuffled: seq<ImprovementCase>) returns (metrics: ReviewMetrics)
    requires multiset(shuffled) == multiset(Candidates(evals, basic))
    ensures metrics == ReviewMetrics(ReviewDistribution(evals), MinistryReviews(evals, basic), ImprovementCases(evals, basic, shuffled))
  {
    var reviewDistribution := Tabulate(VerdictColumn(evals), |evals|);
    var ministryReviews, order := TallyMinistries(evals, basic);
    var ministryReviewArray := SortDesc(ReviewRows(order, ministryReviews), RateKey);
    var improvementCases := shuffled[..Min(10, |shuffled|)];
    metrics := ReviewMetrics(reviewDistribution, ministryReviewArray, improvementCases);
  }
}
