/** The categorical distribution shared by the ministry, project-type,
    expense-type, verdict and contract-method aggregators: count the rows per
    non-empty cell value, attach `count / denominator * 100`, sort by count,
    largest first. Only the denominator differs between the aggregators. */
module Categories {
  import opened Seqs
  import opened Sorting
  import opened Rows

  /** The non-empty cell values, in row order. */
  function PresentValues(vals: seq<Text>): (r: seq<string>)
    ensures |r| <= |vals|
  {
    if vals == [] then []
    else
      var init := vals[..|vals| - 1];
      var v := vals[|vals| - 1];
      assert vals == init + [v];
      PresentValues(init) + (if Present(v) then [v.value] else [])
  }

  /** The counter object `counts[v] = (counts[v] || 0) + 1`, filled in row order
      from every present cell value `v`. */
  function Counts(vals: seq<Text>): (m: map<string, nat>)
    ensures forall k :: k in m <==> k in PresentValues(vals)
  {
    if vals == [] then map[]
    else
      var m := Counts(vals[..|vals| - 1]);
      var v := vals[|vals| - 1];
      assert vals == vals[..|vals| - 1] + [v];
      if Present(v) then Bump(m, v.value) else m
  }

  /** `counts[k] = (counts[k] || 0) + 1` */
  function Bump(m: map<string, nat>, k: string): (r: map<string, nat>)
    ensures k in r && r[k] == (if k in m then m[k] else 0) + 1
    ensures forall j :: j != k ==> (j in r <==> j in m) && (j in m ==> r[j] == m[j])
  {
    m[k := (if k in m then m[k] else 0) + 1]
  }

  /** A present value is a non-empty cell; its multiplicity among the present
      values is the number of rows holding it. */
  lemma {:induction false} PresentValuesMeaning(vals: seq<Text>)
    ensures forall k :: k in PresentValues(vals) <==> k != "" && Some(k) in vals
    ensures forall k :: k != "" ==> multiset(PresentValues(vals))[k] == multiset(vals)[Some(k)]
  {
    if vals != [] {
      var init := vals[..|vals| - 1];
      var v := vals[|vals| - 1];
      assert vals == init + [v];
      PresentValuesMeaning(init);
    }
  }

  /** Each counter holds the number of rows with that value. */
  lemma {:induction false} CountsAreMultiplicities(vals: seq<Text>)
    ensures forall k :: k in Counts(vals) ==> Counts(vals)[k] == multiset(PresentValues(vals))[k]
  {
    if vals != [] {
      var init := vals[..|vals| - 1];
      var v := vals[|vals| - 1];
      assert vals == init + [v];
      CountsAreMultiplicities(init);
    }
  }

  /** The key order of that object (`Object.entries`): a value becomes a key when
      it is first counted. */
  function Keys(vals: seq<Text>): (r: seq<string>)
    ensures NoDuplicates(r)
    ensures forall k :: k in r <==> k in Counts(vals)
  {
    if vals == [] then []
    else
      var init := vals[..|vals| - 1];
      var v := vals[|vals| - 1];
      assert vals == init + [v];
      Keys(init) + (if Present(v) && v.value !in Counts(init) then [v.value] else [])
  }

  /** One more row: the counter of its value, if present, goes up by one, and the
      value becomes the last key if it was not a key yet. */
  lemma CountsStep(vals: seq<Text>, v: Text)
    ensures Counts(vals + [v]) == if Present(v) then Bump(Counts(vals), v.value) else Counts(vals)
    ensures Keys(vals + [v]) == Keys(vals) + (if Present(v) && v.value !in Counts(vals) then [v.value] else [])
    ensures |PresentValues(vals + [v])| == |PresentValues(vals)| + if Present(v) then 1 else 0
  {
    var w := vals + [v];
    assert w[..|w| - 1] == vals;
    assert w[|w| - 1] == v;
  }

  /** The keys are the present values in order of first appearance. */
  lemma {:induction false} KeysAreDistinctValues(vals: seq<Text>)
    ensures Keys(vals) == Distinct(PresentValues(vals))
  {
    if vals != [] {
      var init := vals[..|vals| - 1];
      var v := vals[|vals| - 1];
      assert vals == init + [v];
      KeysAreDistinctValues(init);
      CountsStep(init, v);
      var pv := PresentValues(init);
      if Present(v) {
        assert PresentValues(vals) == pv + [v.value];
        assert (pv + [v.value])[..|pv|] == pv;
      } else {
        assert PresentValues(vals) == pv;
      }
    }
  }

  datatype CategoryCount = CategoryCount(category: string, count: nat, percentage: real)

  function CountKey(e: CategoryCount): real { e.count as real }

  function PercentageKey(e: CategoryCount): real { e.percentage }

  function Entry(k: string, counts: map<string, nat>, denominator: nat): CategoryCount
    requires k in counts && denominator > 0
  {
    CategoryCount(k, counts[k], counts[k] as real / denominator as real * 100.0)
  }

  /** `Object.entries(counts).map(([k, count]) => ({k, count, percentage}))` */
  function Entries(keys: seq<string>, counts: map<string, nat>, denominator: nat): (r: seq<CategoryCount>)
    requires forall k :: k in keys ==> k in counts
    requires keys != [] ==> denominator > 0
    ensures |r| == |keys|
    ensures forall i :: 0 <= i < |keys| ==> r[i] == Entry(keys[i], counts, denominator)
  {
    if keys == [] then []
    else Entries(keys[..|keys| - 1], counts, denominator) + [Entry(keys[|keys| - 1], counts, denominator)]
  }

  /** The distribution of the present values of `vals`, percentages taken of
      `denominator`, sorted by count, largest first. */
  function Distribution(vals: seq<Text>, denominator: nat): (r: seq<CategoryCount>)
    requires |PresentValues(vals)| <= denominator
    ensures |r| == |Distinct(PresentValues(vals))|
  {
    KeysAreDistinctValues(vals);
    var keys := Keys(vals);
    assert keys != [] ==> keys[0] in Counts(vals) && keys[0] in PresentValues(vals);
    SortDesc(Entries(keys, Counts(vals), denominator), CountKey)
  }

  /** Projects per ministry (`ministryData`), percentages of all projects: at
      most one entry per project. */
  function MinistryDistribution(basic: seq<BasicInfo>): (r: seq<CategoryCount>)
    ensures |r| <= |basic|
  {
    Distribution(MinistryColumn(basic), |basic|)
  }

  /** Projects per project category (`projectTypeData`), percentages of all projects: at
      most one entry per project. */
  function ProjectTypeDistribution(basic: seq<BasicInfo>): (r: seq<CategoryCount>)
    ensures |r| <= |basic|
  {
    Distribution(CategoryColumn(basic), |basic|)
  }

  /** Projects per main expense type (`expenseTypeData`), percentages of all projects: at
      most one entry per project. */
  function ExpenseTypeDistribution(basic: seq<BasicInfo>): (r: seq<CategoryCount>)
    ensures |r| <= |basic|
  {
    Distribution(ExpenseColumn(basic), |basic|)
  }

  /** One row of that loop: `if (v) counts[v] = (counts[v] || 0) + 1`, with the
      key order the object keeps. */
  method CountValue(counts: map<string, nat>, keys: seq<string>, v: Text)
    returns (counts': map<string, nat>, keys': seq<string>)
    ensures counts' == if Present(v) then Bump(counts, v.value) else counts
    ensures keys' == keys + if Present(v) && v.value !in counts then [v.value] else []
  {
    counts', keys' := counts, keys;
    if v.Some? && v.value != "" {
      if v.value !in counts {
        keys' := keys + [v.value];
      }
      counts' := counts[v.value := (if v.value in counts then counts[v.value] else 0) + 1];
    }
  }

  /** The loop every categorical aggregator runs over its column; `present` is
      the number of rows with a value (`totalCount` of the contract aggregator). */
  method CountCategories(vals: seq<Text>) returns (counts: map<string, nat>, keys: seq<string>, present: nat)
    ensures counts == Counts(vals) && keys == Keys(vals)
    ensures present == |PresentValues(vals)|
  {
    counts := map[];
    keys := [];
    present := 0;
    for i := 0 to |vals|
      invariant counts == Counts(vals[..i]) && keys == Keys(vals[..i])
      invariant present == |PresentValues(vals[..i])|
    {
      var v := vals[i];
      assert vals[..i + 1] == vals[..i] + [v];
      CountsStep(vals[..i], v);
      counts, keys := CountValue(counts, keys, v);
      if v.Some? && v.value != "" {
        present := present + 1;
      }
    }
    assert vals[..|vals|] == vals;
  }

  /** Sorting and percentages over counted categories (the `.map(...).sort(...)` stage). */
  method Tabulate(vals: seq<Text>, denominator: nat) returns (r: seq<CategoryCount>)
    requires |PresentValues(vals)| <= denominator
    ensures r == Distribution(vals, denominator)
  {
    var counts, keys, _ := CountCategories(vals);
    assert keys != [] ==> keys[0] in Counts(vals) && keys[0] in PresentValues(vals);
    r := SortDesc(Entries(keys, counts, denominator), CountKey);
  }

  /** `processMinistryData(basicInfoData)` */
  method ProcessMinistryData(basic: seq<BasicInfo>) returns (r: seq<CategoryCount>)
    ensures r == MinistryDistribution(basic)
  {
    r := Tabulate(MinistryColumn(basic), |basic|);
  }

  /** `processProjectTypeData(basicInfoData)` */
  method ProcessProjectTypeData(basic: seq<BasicInfo>) returns (r: seq<CategoryCount>)
    ensures r == ProjectTypeDistribution(basic)
  {
    r := Tabulate(CategoryColumn(basic), |basic|);
  }

  /** `processExpenseTypeData(basicInfoData)` */
  method ProcessExpenseTypeData(basic: seq<BasicInfo>) returns (r: seq<CategoryCount>)
    ensures r == ExpenseTypeDistribution(basic)
  {
    r := Tabulate(ExpenseColumn(basic), |basic|);
  }

  lemma {:induction false} EntriesWeights(keys: seq<string>, counts: map<string, nat>, denominator: nat,
                                          w: CategoryCount -> real, g: string -> real)
    requires forall k :: k in keys ==> k in counts
    requires keys != [] ==> denominator > 0
    requires forall k :: k in keys ==> g(k) == w(Entry(k, counts, denominator))
    ensures SumOver(Entries(keys, counts, denominator), w) == SumOver(keys, g)
  {
    if keys != [] {
      var init := keys[..|keys| - 1];
      EntriesWeights(init, counts, denominator, w, g);
      assert Entries(keys, counts, denominator)[..|keys| - 1] == Entries(init, counts, denominator);
    }
  }

  function CategoryName(e: CategoryCount): string { e.category }

  /** Any reordering of the entries holds only entries of the keys... */
  lemma ReorderedEntriesAreEntries(keys: seq<string>, counts: map<string, nat>, denominator: nat, r: seq<CategoryCount>)
    requires forall k :: k in keys ==> k in counts
    requires keys != [] ==> denominator > 0
    requires multiset(r) == multiset(Entries(keys, counts, denominator))
    ensures forall i :: 0 <= i < |r| ==>
      denominator > 0 && r[i].category in keys && r[i] == Entry(r[i].category, counts, denominator)
  {
    var entries := Entries(keys, counts, denominator);
    forall i | 0 <= i < |r|
      ensures denominator > 0 && r[i].category in keys && r[i] == Entry(r[i].category, counts, denominator)
    {
      assert r[i] in multiset(entries);
      var a :| 0 <= a < |entries| && entries[a] == r[i];
    }
  }

  /** ...an entry for every key... */
  lemma ReorderedEntriesCover(keys: seq<string>, counts: map<string, nat>, denominator: nat, r: seq<CategoryCount>)
    requires forall k :: k in keys ==> k in counts
    requires keys != [] ==> denominator > 0
    requires multiset(r) == multiset(Entries(keys, counts, denominator))
    ensures forall a :: 0 <= a < |keys| ==> exists i :: 0 <= i < |r| && r[i].category == keys[a]
  {
    var entries := Entries(keys, counts, denominator);
    forall a | 0 <= a < |keys|
      ensures exists i :: 0 <= i < |r| && r[i].category == keys[a]
    {
      assert entries[a] in multiset(r);
      var i :| 0 <= i < |r| && r[i] == entries[a];
    }
  }

  /** ...and, when the keys are distinct, one entry per key. */
  lemma ReorderedEntriesUnique(keys: seq<string>, counts: map<string, nat>, denominator: nat, r: seq<CategoryCount>)
    requires NoDuplicates(keys)
    requires forall k :: k in keys ==> k in counts
    requires keys != [] ==> denominator > 0
    requires multiset(r) == multiset(Entries(keys, counts, denominator))
    ensures forall i, j :: 0 <= i < j < |r| ==> r[i].category != r[j].category
  {
    var entries := Entries(keys, counts, denominator);
    assert forall a :: 0 <= a < |entries| ==> CategoryName(entries[a]) == keys[a];
    PermutationNames(entries, r, CategoryName);
    forall i, j | 0 <= i < j < |r| ensures r[i].category != r[j].category {
      assert CategoryName(r[i]) != CategoryName(r[j]);
    }
  }

  /** The entries of a distribution come largest count first and never repeat
      a category. */
  lemma DistributionOrder(vals: seq<Text>, denominator: nat)
    requires |PresentValues(vals)| <= denominator
    ensures NonIncreasing(Distribution(vals, denominator), CountKey)
    ensures forall i, j :: 0 <= i < j < |Distribution(vals, denominator)| ==>
      Distribution(vals, denominator)[i].category != Distribution(vals, denominator)[j].category
  {
    var keys := Keys(vals);
    assert keys != [] ==> keys[0] in Counts(vals) && keys[0] in PresentValues(vals);
    SortDescSorted(Entries(keys, Counts(vals), denominator), CountKey);
    ReorderedEntriesUnique(keys, Counts(vals), denominator, Distribution(vals, denominator));
  }

  /** Each entry of a distribution is a non-empty value of the column with its
      number of rows (at least one) and that number's share of the denominator. */
  lemma DistributionEntry(vals: seq<Text>, denominator: nat, i: int)
    requires |PresentValues(vals)| <= denominator
    requires 0 <= i < |Distribution(vals, denominator)|
    ensures Distribution(vals, denominator)[i].category != ""
    ensures Some(Distribution(vals, denominator)[i].category) in vals
    ensures Distribution(vals, denominator)[i].count == multiset(vals)[Some(Distribution(vals, denominator)[i].category)] >= 1
    ensures denominator > 0
    ensures Distribution(vals, denominator)[i].percentage
            == Distribution(vals, denominator)[i].count as real / denominator as real * 100.0
  {
    var keys := Keys(vals);
    var counts := Counts(vals);
    var r := Distribution(vals, denominator);
    assert keys != [] ==> keys[0] in counts && keys[0] in PresentValues(vals);
    ReorderedEntriesAreEntries(keys, counts, denominator, r);
    PresentValuesMeaning(vals);
    CountsAreMultiplicities(vals);
    assert r[i].category in counts;
  }

  /** Every non-empty value of the column has an entry, with its number of rows. */
  lemma DistributionCovers(vals: seq<Text>, denominator: nat, k: string)
    requires |PresentValues(vals)| <= denominator
    requires k != "" && Some(k) in vals
    ensures exists i :: 0 <= i < |Distribution(vals, denominator)|
                        && Distribution(vals, denominator)[i].category == k
                        && Distribution(vals, denominator)[i].count == multiset(vals)[Some(k)]
  {
    var keys := Keys(vals);
    var r := Distribution(vals, denominator);
    PresentValuesMeaning(vals);
    assert k in keys;
    assert keys != [] ==> keys[0] in Counts(vals) && keys[0] in PresentValues(vals);
    ReorderedEntriesCover(keys, Counts(vals), denominator, r);
    var a :| 0 <= a < |keys| && keys[a] == k;
    var i :| 0 <= i < |r| && r[i].category == k;
    DistributionEntry(vals, denominator, i);
  }

  /** Before sorting, the counts add up to the number of rows with a value. */
  lemma EntriesCountSum(vals: seq<Text>, denominator: nat)
    requires Keys(vals) != [] ==> denominator > 0
    ensures SumOver(Entries(Keys(vals), Counts(vals), denominator), CountKey) == |PresentValues(vals)| as real
  {
    var keys := Keys(vals);
    var pv := PresentValues(vals);
    var f := k => multiset(pv)[k] as real;
    assert SumOver(Entries(keys, Counts(vals), denominator), CountKey) == SumOver(keys, f) by {
      CountsAreMultiplicities(vals);
      EntriesWeights(keys, Counts(vals), denominator, CountKey, f);
    }
    assert SumOver(keys, f) == |pv| as real by {
      KeysAreDistinctValues(vals);
      DistinctMultiplicities(pv, f);
    }
  }

  /** The counts of a distribution add up to the number of rows with a value,
      which is at most the number of rows. */
  lemma DistributionCountSum(vals: seq<Text>, denominator: nat)
    requires |PresentValues(vals)| <= denominator
    ensures SumOver(Distribution(vals, denominator), CountKey) == |PresentValues(vals)| as real <= |vals| as real
  {
    var keys := Keys(vals);
    assert keys != [] ==> keys[0] in PresentValues(vals);
    EntriesCountSum(vals, denominator);
    SumOverPermutation(Distribution(vals, denominator), Entries(keys, Counts(vals), denominator), CountKey);
  }

  lemma PercentageAtMost100(part: real, whole: real)
    requires 0.0 <= part <= whole && whole > 0.0
    ensures part / whole * 100.0 <= 100.0
  {
  }

  /** Each percentage of a distribution is its count's share of the denominator. */
  lemma PercentagesOfCounts(vals: seq<Text>, denominator: nat)
    requires |PresentValues(vals)| <= denominator && denominator > 0
    ensures forall e :: e in Distribution(vals, denominator) ==>
      PercentageKey(e) == CountKey(e) / denominator as real * 100.0
  {
    var keys := Keys(vals);
    var entries := Entries(keys, Counts(vals), denominator);
    forall e | e in SortDesc(entries, CountKey) ensures e in entries {
      assert e in multiset(entries);
    }
  }

  /** The percentages of a distribution add up to the share of rows with a value:
      at most 100, and exactly 100 when the denominator is that number of rows. */
  lemma DistributionPercentageSum(vals: seq<Text>, denominator: nat)
    requires |PresentValues(vals)| <= denominator
    ensures denominator > 0 ==>
      SumOver(Distribution(vals, denominator), PercentageKey) == |PresentValues(vals)| as real / denominator as real * 100.0 <= 100.0
  {
    if denominator > 0 {
      var r := Distribution(vals, denominator);
      PercentagesOfCounts(vals, denominator);
      SumOverPercent(r, CountKey, PercentageKey, denominator as real);
      DistributionCountSum(vals, denominator);
      PercentageAtMost100(|PresentValues(vals)| as real, denominator as real);
    }
  }
}
