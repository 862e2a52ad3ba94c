/** The scalar summary: the number of projects, of new and of ending projects,
    and of evaluations whose verdict asks for an improvement. */
module Summaries {
  import opened Seqs
  import opened Rows
  import opened Categories

  datatype Summary = Summary(totalProjects: nat, newProjects: nat, endingProjects: nat, improvementProjects: nat)

  predicate IsNewProject(b: BasicInfo) { b.category == Some(NEW_PROJECT) }

  predicate IsEndingProject(b: BasicInfo) { b.category == Some(ENDING_PROJECT) }

  predicate IsImprovementReview(e: Evaluation) { IsImprovementVerdict(e.verdict) }

  /** The summary object: plain `.filter(...).length` counts. A project is new or
      ending but not both, so the two counts never exceed the number of projects. */
  function Summarize(basic: seq<BasicInfo>, evals: seq<Evaluation>): (s: Summary)
    ensures s.totalProjects == |basic|
    ensures s.newProjects + s.endingProjects <= s.totalProjects
    ensures s.improvementProjects <= |evals|
  {
    CountDisjoint(basic, IsNewProject, IsEndingProject);
    Summary(|basic|, Count(basic, IsNewProject), Count(basic, IsEndingProject), Count(evals, IsImprovementReview))
  }

  /** Counting the rows of one category is counting that value in the category column. */
  lemma {:induction false} CategoryCountIsMultiplicity(basic: seq<BasicInfo>, p: BasicInfo -> bool, k: string)
    requires forall b :: p(b) <==> b.category == Some(k)
    ensures Count(basic, p) == multiset(CategoryColumn(basic))[Some(k)]
  {
    if basic != [] {
      var init := basic[..|basic| - 1];
      CategoryCountIsMultiplicity(init, p, k);
      assert CategoryColumn(basic) == CategoryColumn(init) + [basic[|basic| - 1].category];
    }
  }

  /** The summary agrees with the project-type distribution: when there are new
      (ending) projects, that distribution has an entry for 新規開始事業 (終了事業)
      whose count is `newProjects` (`endingProjects`). */
  lemma SummaryMatchesProjectTypes(basic: seq<BasicInfo>, evals: seq<Evaluation>)
    ensures Summarize(basic, evals).newProjects > 0 ==>
      exists e :: e in ProjectTypeDistribution(basic) && e.category == NEW_PROJECT
                  && e.count == Summarize(basic, evals).newProjects
    ensures Summarize(basic, evals).endingProjects > 0 ==>
      exists e :: e in ProjectTypeDistribution(basic) && e.category == ENDING_PROJECT
                  && e.count == Summarize(basic, evals).endingProjects
  {
    CategoryCountIsMultiplicity(basic, IsNewProject, NEW_PROJECT);
    CategoryCountIsMultiplicity(basic, IsEndingProject, ENDING_PROJECT);
    CategoryHasEntry(basic, NEW_PROJECT);
    CategoryHasEntry(basic, ENDING_PROJECT);
  }

  /** A category held by some project has an entry in the project-type
      distribution whose count is the number of projects holding it. */
  lemma CategoryHasEntry(basic: seq<BasicInfo>, k: string)
    requires k != ""
    ensures multiset(CategoryColumn(basic))[Some(k)] > 0 ==>
      exists e :: e in ProjectTypeDistribution(basic) && e.category == k
                  && e.count == multiset(CategoryColumn(basic))[Some(k)]
  {
    var col := CategoryColumn(basic);
    if multiset(col)[Some(k)] > 0 {
      assert Some(k) in col;
      DistributionCovers(col, |basic|, k);
      var d := ProjectTypeDistribution(basic);
      var i :| 0 <= i < |d| && d[i].category == k && d[i].count == multiset(col)[Some(k)];
      assert d[i] in d;
    }
  }
}
