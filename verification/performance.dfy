/** `processPerformanceData`: the number of indicator rows of each of the three
    seeded kinds, and the mean achievement rate `actual / target * 100` of the
    valid output indicators of every project, joined to its name and ministry. */
module Performance {
  import opened Seqs
  import opened Sorting
  import opened Rows

  /** The keys of the `typeCount` object, in its key order. */
  const KINDS: seq<string> := [ACTIVITY, OUTPUT, OUTCOME]

  /** Number of rows whose kind cell is exactly `k`. */
  function KindRows(rows: seq<Indicator>, k: string): nat {
    if rows == [] then 0
    else KindRows(rows[..|rows| - 1], k) + (if rows[|rows| - 1].kind == Some(k) then 1 else 0)
  }

  /** `typeCount` after the rows: seeded with the three kinds at zero, a row adds
      one to its kind only when that kind is already a key. */
  function KindTally(rows: seq<Indicator>): map<string, nat> {
    if rows == [] then map[ACTIVITY := 0, OUTPUT := 0, OUTCOME := 0]
    else
      var m := KindTally(rows[..|rows| - 1]);
      var k := rows[|rows| - 1].kind;
      if Present(k) && k.value in m then m[k.value := m[k.value] + 1] else m
  }

  /** The tally keeps exactly the three seeded keys, and each holds the number of
      rows of that kind. */
  lemma {:induction false} KindTallyCounts(rows: seq<Indicator>)
    ensures KindTally(rows).Keys == {ACTIVITY, OUTPUT, OUTCOME}
    ensures forall k :: k in KindTally(rows) ==> KindTally(rows)[k] == KindRows(rows, k)
  {
    if rows != [] {
      KindTallyCounts(rows[..|rows| - 1]);
    }
  }

  /** A row whose kind is empty, missing or not one of the three changes no count. */
  lemma UnknownKindIgnored(rows: seq<Indicator>, row: Indicator)
    requires row.kind !in {Some(ACTIVITY), Some(OUTPUT), Some(OUTCOME)}
    ensures KindTally(rows + [row]) == KindTally(rows)
  {
    assert (rows + [row])[..|rows|] == rows;
    KindTallyCounts(rows);
  }

  datatype KindCount = KindCount(kind: string, count: nat)

  /** `Object.entries(typeCount).map(([type, count]) => ({ type, count }))` */
  function TypeDistribution(rows: seq<Indicator>): (r: seq<KindCount>)
    ensures |r| == 3
    ensures forall i :: 0 <= i < 3 ==> r[i] == KindCount(KINDS[i], KindRows(rows, KINDS[i]))
  {
    KindTallyCounts(rows);
    var m := KindTally(rows);
    [KindCount(ACTIVITY, m[ACTIVITY]), KindCount(OUTPUT, m[OUTPUT]), KindCount(OUTCOME, m[OUTCOME])]
  }

  /** The indicator loop of `processPerformanceData`. */
  method CountKinds(rows: seq<Indicator>) returns (typeCount: map<string, nat>)
    ensures typeCount == KindTally(rows)
  {
    typeCount := map[ACTIVITY := 0, OUTPUT := 0, OUTCOME := 0];
    for i := 0 to |rows|
      invariant typeCount == KindTally(rows[..i])
    {
      var kind := rows[i].kind;
      assert rows[..i + 1][..i] == rows[..i];
      if kind.Some? && kind.value != "" && kind.value in typeCount {
        typeCount := typeCount[kind.value := typeCount[kind.value] + 1];
      }
    }
    assert rows[..|rows|] == rows;
  }

  /** An output indicator with a target above zero and an actual value. */
  predicate ValidIndicator(row: Indicator) {
    row.kind == Some(OUTPUT) && row.target.Some? && row.actual.Some? && row.target.value > 0.0
  }

  function Ratio(row: Indicator): real
    requires ValidIndicator(row)
  {
    row.actual.value / row.target.value * 100.0
  }

  /** The achievement ratios of the valid indicators of project `id`, in row order. */
  function Ratios(rows: seq<Indicator>, id: Text): (r: seq<real>)
    ensures |r| <= |rows|
  {
    if rows == [] then []
    else
      var row := rows[|rows| - 1];
      Ratios(rows[..|rows| - 1], id) + (if row.projectId == id && ValidIndicator(row) then [Ratio(row)] else [])
  }

  /** A project has ratios exactly when it has a valid indicator row. */
  lemma {:induction false} RatiosNonEmpty(rows: seq<Indicator>, id: Text)
    ensures Ratios(rows, id) != [] <==> exists i :: 0 <= i < |rows| && rows[i].projectId == id && ValidIndicator(rows[i])
  {
    if rows != [] {
      var init := rows[..|rows| - 1];
      RatiosNonEmpty(init, id);
      assert forall i :: 0 <= i < |init| ==> init[i] == rows[i];
    }
  }

  lemma RatiosStep(rows: seq<Indicator>, row: Indicator, id: Text)
    ensures Ratios(rows + [row], id)
            == Ratios(rows, id) + if row.projectId == id && ValidIndicator(row) then [Ratio(row)] else []
  {
    assert (rows + [row])[..|rows|] == rows;
  }

  /** The loop over the output rows of one project: `totalAchievement` and
      `validIndicators`. */
  method AccumulateAchievement(rows: seq<Indicator>, id: Text) returns (totalAchievement: real, validIndicators: nat)
    ensures totalAchievement == Sum(Ratios(rows, id))
    ensures validIndicators == |Ratios(rows, id)|
  {
    totalAchievement := 0.0;
    validIndicators := 0;
    for i := 0 to |rows|
      invariant totalAchievement == Sum(Ratios(rows[..i], id))
      invariant validIndicators == |Ratios(rows[..i], id)|
    {
      var row := rows[i];
      assert rows[..i + 1] == rows[..i] + [row];
      RatiosStep(rows[..i], row, id);
      var before := Ratios(rows[..i], id);
      if row.projectId == id && row.kind == Some(OUTPUT) && row.target.Some? && row.actual.Some? && row.target.value > 0.0 {
        var ratio := row.actual.value / row.target.value * 100.0;
        assert Ratios(rows[..i + 1], id) == before + [ratio];
        SumSnoc(before, ratio);
        totalAchievement := totalAchievement + ratio;
        validIndicators := validIndicators + 1;
      } else {
        assert Ratios(rows[..i + 1], id) == before;
      }
    }
    assert rows[..|rows|] == rows;
  }

  datatype ProjectAchievement = ProjectAchievement(projectId: Text, achievement: real, projectName: Text, ministry: Text)

  function AchievementKey(p: ProjectAchievement): real { p.achievement }

  /** The record pushed for a project with valid indicators: the mean ratio, and
      the name and ministry of the first basic-information row with that id. */
  function Achieve(id: Text, ratios: seq<real>, basic: seq<BasicInfo>): ProjectAchievement
    requires ratios != []
  {
    var info := FindProject(basic, id);
    ProjectAchievement(id, Mean(ratios), ProjectNameOf(info), MinistryOf(info))
  }

  /** The records of the projects in `ids` that have valid indicators, in order. */
  function Achievements(ids: seq<Text>, rows: seq<Indicator>, basic: seq<BasicInfo>): (r: seq<ProjectAchievement>)
    ensures |r| <= |ids|
  {
    if ids == [] then []
    else
      var id := ids[|ids| - 1];
      var ratios := Ratios(rows, id);
      Achievements(ids[..|ids| - 1], rows, basic) + (if ratios == [] then [] else [Achieve(id, ratios, basic)])
  }

  function IdColumn(rows: seq<Indicator>): (c: seq<Text>)
    ensures |c| == |rows| && forall i :: 0 <= i < |rows| ==> c[i] == rows[i].projectId
  {
    seq(|rows|, i requires 0 <= i < |rows| => rows[i].projectId)
  }

  /** `[...new Set(performanceData.map(row => row['予算事業ID']))]` */
  function ProjectIds(rows: seq<Indicator>): seq<Text> {
    Distinct(IdColumn(rows))
  }

  /** `projectPerformance` after its sort, largest achievement first. */
  function ProjectPerformance(rows: seq<Indicator>, basic: seq<BasicInfo>): (r: seq<ProjectAchievement>)
    ensures |r| <= |ProjectIds(rows)| <= |rows|
  {
    SortDesc(Achievements(ProjectIds(rows), rows, basic), AchievementKey)
  }

  datatype PerformanceMetrics = PerformanceMetrics(typeDistribution: seq<KindCount>, projectPerformance: seq<ProjectAchievement>)

  /** The `uniqueProjectIds.forEach` loop that fills `projectPerformance`. */
  method CollectAchievements(ids: seq<Text>, rows: seq<Indicator>, basic: seq<BasicInfo>) returns (projectPerformance: seq<ProjectAchievement>)
    ensures projectPerformance == Achievements(ids, rows, basic)
  {
    projectPerformance := [];
    for j := 0 to |ids|
      invariant projectPerformance == Achievements(ids[..j], rows, basic)
    {
      var id := ids[j];
      assert ids[..j + 1][..j] == ids[..j];
      var totalAchievement, validIndicators := AccumulateAchievement(rows, id);
      if validIndicators > 0 {
        var info := FindProject(basic, id);
        var record := ProjectAchievement(id, totalAchievement / validIndicators as real, ProjectNameOf(info), MinistryOf(info));
        assert record == Achieve(id, Ratios(rows, id), basic);
        projectPerformance := projectPerformance + [record];
      }
    }
    assert ids[..|ids|] == ids;
  }

  /** `processPerformanceData(performanceData, basicInfoData)` */
  method ProcessPerformanceData(rows: seq<Indicator>, basic: seq<BasicInfo>) returns (metrics: PerformanceMetrics)
    ensures metrics == PerformanceMetrics(TypeDistribution(rows), ProjectPerformance(rows, basic))
  {
    var typeCount := CountKinds(rows);
    KindTallyCounts(rows);
    var projectPerformance := CollectAchievements(ProjectIds(rows), rows, basic);
    var typeDistribution := [KindCount(ACTIVITY, typeCount[ACTIVITY]), KindCount(OUTPUT, typeCount[OUTPUT]), KindCount(OUTCOME, typeCount[OUTCOME])];
    metrics := PerformanceMetrics(typeDistribution, SortDesc(projectPerformance, AchievementKey));
  }

  /** The records built over a list of ids are those of its ids with ratios; one
      per such id, and no two for the same id when the ids are distinct. */
  lemma {:induction false} AchievementsMeaning(ids: seq<Text>, rows: seq<Indicator>, basic: seq<BasicInfo>)
    ensures forall e :: e in Achievements(ids, rows, basic) ==>
      e.projectId in ids && Ratios(rows, e.projectId) != [] && e == Achieve(e.projectId, Ratios(rows, e.projectId), basic)
    ensures forall id :: id in ids && Ratios(rows, id) != [] ==> Achieve(id, Ratios(rows, id), basic) in Achievements(ids, rows, basic)
    ensures NoDuplicates(ids) ==> forall i, j :: 0 <= i < j < |Achievements(ids, rows, basic)| ==>
      Achievements(ids, rows, basic)[i].projectId != Achievements(ids, rows, basic)[j].projectId
  {
    if ids != [] {
      var init := ids[..|ids| - 1];
      var id := ids[|ids| - 1];
      assert ids == init + [id];
      AchievementsMeaning(init, rows, basic);
      var a := Achievements(init, rows, basic);
      if NoDuplicates(ids) {
        assert NoDuplicates(init);
        assert id !in init;
        forall e | e in a ensures e.projectId != id {
        }
      }
    }
  }

  /** A project has a record in `projectPerformance` exactly when it has at least
      one valid output indicator. */
  lemma PerformanceMembership(rows: seq<Indicator>, basic: seq<BasicInfo>, id: Text)
    ensures (exists e :: e in ProjectPerformance(rows, basic) && e.projectId == id)
        <==> exists i :: 0 <= i < |rows| && rows[i].projectId == id && ValidIndicator(rows[i])
  {
    var ids := ProjectIds(rows);
    var a := Achievements(ids, rows, basic);
    var r := ProjectPerformance(rows, basic);
    AchievementsMeaning(ids, rows, basic);
    RatiosNonEmpty(rows, id);
    if exists i :: 0 <= i < |rows| && rows[i].projectId == id && ValidIndicator(rows[i]) {
      var i :| 0 <= i < |rows| && rows[i].projectId == id && ValidIndicator(rows[i]);
      assert IdColumn(rows)[i] == id;
      var e := Achieve(id, Ratios(rows, id), basic);
      assert e in multiset(a);
      assert e in r;
    }
    if exists e :: e in r && e.projectId == id {
      var e :| e in r && e.projectId == id;
      assert e in multiset(r);
      assert e in a;
    }
  }

  /** Every record holds the mean of its project's ratios and the name and
      ministry of the first basic-information row with that id, or 不明 when
      there is none; records are sorted by achievement, largest first, and no
      project has two. */
  lemma PerformanceEntries(rows: seq<Indicator>, basic: seq<BasicInfo>)
    ensures var r := ProjectPerformance(rows, basic);
      && NonIncreasing(r, AchievementKey)
      && (forall e :: e in r ==>
            && Ratios(rows, e.projectId) != []
            && e.achievement == Mean(Ratios(rows, e.projectId))
            && e.projectName == ProjectNameOf(FindProject(basic, e.projectId))
            && e.ministry == MinistryOf(FindProject(basic, e.projectId))
            && ((forall j :: 0 <= j < |basic| ==> basic[j].projectId != e.projectId) ==>
                  e.projectName == Some(UNKNOWN) && e.ministry == Some(UNKNOWN)))
      && (forall i, j :: 0 <= i < j < |r| ==> r[i].projectId != r[j].projectId)
  {
    var ids := ProjectIds(rows);
    var a := Achievements(ids, rows, basic);
    var r := ProjectPerformance(rows, basic);
    AchievementsMeaning(ids, rows, basic);
    SortDescSorted(a, AchievementKey);
    forall e | e in r
      ensures e in a
    {
      assert e in multiset(r);
    }
    assert NoDuplicates(a) by {
      forall i, j | 0 <= i < j < |a| ensures a[i] != a[j] {
        assert a[i].projectId != a[j].projectId;
      }
    }
    PermutationNoDuplicates(a, r);
    forall i, j | 0 <= i < j < |r| ensures r[i].projectId != r[j].projectId {
      assert r[i] in a && r[j] in a;
      var p :| 0 <= p < |a| && a[p] == r[i];
      var q :| 0 <= q < |a| && a[q] == r[j];
      assert p != q;
      if p < q {
        assert a[p].projectId != a[q].projectId;
      } else {
        assert a[q].projectId != a[p].projectId;
      }
    }
  }
}
