/** The chart helpers of the dashboard front end: relative change, the status
    colour ladder, and the reshaping of row arrays into bar, treemap, scatter and
    multi-stage chart data.

    A JavaScript argument that may be missing or not an array is `Option<...>`:
    `None` stands for every value that fails `!data || !Array.isArray(data)`.
    Reading `item[key]` is a function from the item to the cell, so a key is
    modelled by the accessor it selects. */
module Charts {
  import opened Seqs
  import opened Sorting
  import opened Rows

  // ---- calculateChange ----

  /** `calculateChange(current, previous)`: 0 when `previous` is missing or zero,
      otherwise the change from `previous` to `current` in percent of `previous`. */
  function CalculateChange(current: real, previous: Option<real>): (r: real)
    ensures previous.None? || previous.value == 0.0 ==> r == 0.0
    ensures previous.Some? && previous.value != 0.0 ==> previous.value + previous.value * r / 100.0 == current
  {
    if previous.None? || previous.value == 0.0 then 0.0
    else
      var p := previous.value;
      var r := (current - p) / p * 100.0;
      assert p * r / 100.0 == current - p;
      r
  }

  /** From a positive previous value, the change is positive exactly when the
      value went up, and negative exactly when it went down. */
  lemma ChangeSign(current: real, previous: real)
    requires previous > 0.0
    ensures CalculateChange(current, Some(previous)) > 0.0 <==> current > previous
    ensures CalculateChange(current, Some(previous)) < 0.0 <==> current < previous
  {
    var r := CalculateChange(current, Some(previous));
    assert previous * r / 100.0 == current - previous;
    if r > 0.0 {
      assert previous * r > 0.0;
    } else if r < 0.0 {
      assert previous * r < 0.0;
    } else {
      assert previous * r == 0.0;
    }
  }

  // ---- getColorByValue ----

  // `CHART_COLORS.status`
  const POSITIVE_COLOR := "#29C7AC"
  const NEUTRAL_COLOR := "#5ADBFF"
  const NEGATIVE_COLOR := "#FF9671"
  const ALERT_COLOR := "#FF6F91"

  datatype Thresholds = Thresholds(positive: real, neutral: real, negative: real)

  /** The default threshold object of `getColorByValue`. */
  const DEFAULT_THRESHOLDS := Thresholds(75.0, 50.0, 0.0)

  /** Thresholds from the highest band down. */
  predicate Ordered(t: Thresholds) { t.positive >= t.neutral >= t.negative }

  /** `getColorByValue(value, thresholds)`: the first band, from the top, whose
      threshold the value reaches; the alert colour below all three. */
  function ColorByValue(value: real, t: Thresholds): (c: string)
    ensures c in {POSITIVE_COLOR, NEUTRAL_COLOR, NEGATIVE_COLOR, ALERT_COLOR}
  {
    if value >= t.positive then POSITIVE_COLOR
    else if value >= t.neutral then NEUTRAL_COLOR
    else if value >= t.negative then NEGATIVE_COLOR
    else ALERT_COLOR
  }

  /** The place of a status colour in the ladder, alert lowest. */
  function ColorRank(c: string): nat {
    if c == POSITIVE_COLOR then 3
    else if c == NEUTRAL_COLOR then 2
    else if c == NEGATIVE_COLOR then 1
    else 0
  }

  /** How many of the three thresholds the value reaches. */
  function ThresholdsReached(value: real, t: Thresholds): nat {
    (if value >= t.positive then 1 else 0) + (if value >= t.neutral then 1 else 0)
      + (if value >= t.negative then 1 else 0)
  }

  /** With ordered thresholds, the colour's rank is the number of thresholds
      the value reaches. */
  lemma ColorCountsThresholds(value: real, t: Thresholds)
    requires Ordered(t)
    ensures ColorRank(ColorByValue(value, t)) == ThresholdsReached(value, t)
  {
  }

  /** With ordered thresholds (the default ones are), a larger value never gets
      a lower colour. */
  lemma ColorMonotone(v: real, w: real, t: Thresholds)
    requires Ordered(t) && v <= w
    ensures ColorRank(ColorByValue(v, t)) <= ColorRank(ColorByValue(w, t))
  {
    ColorCountsThresholds(v, t);
    ColorCountsThresholds(w, t);
  }

  lemma DefaultThresholdsOrdered()
    ensures Ordered(DEFAULT_THRESHOLDS)
    ensures ColorByValue(75.0, DEFAULT_THRESHOLDS) == POSITIVE_COLOR
    ensures ColorByValue(50.0, DEFAULT_THRESHOLDS) == NEUTRAL_COLOR
    ensures ColorByValue(0.0, DEFAULT_THRESHOLDS) == NEGATIVE_COLOR
    ensures ColorByValue(-0.5, DEFAULT_THRESHOLDS) == ALERT_COLOR
  {
  }

  // ---- prepareBarChartData ----

  const DEFAULT_BAR_LIMIT := 10

  /** `{ label, value }` */
  datatype Bar<V> = Bar(barLabel: V, barValue: real)

  function BarOf<T, V>(x: T, labelOf: T -> V, valueOf: T -> real): Bar<V> {
    Bar(labelOf(x), valueOf(x))
  }

  /** `.map(item => ({ label, value }))` */
  function Bars<T, V>(xs: seq<T>, labelOf: T -> V, valueOf: T -> real): (r: seq<Bar<V>>)
    ensures |r| == |xs|
    ensures forall i :: 0 <= i < |xs| ==> r[i] == BarOf(xs[i], labelOf, valueOf)
  {
    if xs == [] then [] else Bars(xs[..|xs| - 1], labelOf, valueOf) + [BarOf(xs[|xs| - 1], labelOf, valueOf)]
  }

  /** The bars of a non-empty array: sorted by value, largest first, cut at
      `.slice(0, limit)`. */
  function BarChartData<T, V>(xs: seq<T>, labelOf: T -> V, valueOf: T -> real, limit: int): (r: seq<Bar<V>>)
    ensures |r| <= |xs|
  {
    var sorted := SortDesc(xs, valueOf);
    Bars(sorted[..SliceEnd(|sorted|, limit)], labelOf, valueOf)
  }

  /** `prepareBarChartData(data, labelKey, valueKey, limit)`. The array is sorted
      in place, so the caller's array is left in that order. */
  method PrepareBarChartData<T, V>(data: Option<array<T>>, labelOf: T -> V, valueOf: T -> real, limit: int)
    returns (r: seq<Bar<V>>)
    modifies if data.Some? then {data.value} else {}
    ensures data.None? ==> r == []
    ensures data.Some? ==> data.value[..] == SortDesc(old(data.value[..]), valueOf)
    ensures data.Some? ==> r == if data.value.Length == 0 then [] else BarChartData(old(data.value[..]), labelOf, valueOf, limit)
  {
    if data.None? || data.value.Length == 0 {
      return [];
    }
    var a := data.value;
    var sorted := SortDesc(a[..], valueOf);
    ghost var before := a[..];
    for i := 0 to a.Length
      invariant forall j :: 0 <= j < i ==> a[j] == sorted[j]
      invariant before == old(a[..])
    {
      a[i] := sorted[i];
    }
    assert a[..] == sorted;
    r := Bars(sorted[..SliceEnd(a.Length, limit)], labelOf, valueOf);
  }

  /** Bars come largest value first; with a non-negative limit there are
      `min(limit, n)` of them. */
  lemma BarChartShape<T, V>(xs: seq<T>, labelOf: T -> V, valueOf: T -> real, limit: int)
    ensures limit >= 0 ==> |BarChartData(xs, labelOf, valueOf, limit)| == Min(limit, |xs|)
    ensures forall i, j :: 0 <= i < j < |BarChartData(xs, labelOf, valueOf, limit)| ==>
      BarChartData(xs, labelOf, valueOf, limit)[i].barValue >= BarChartData(xs, labelOf, valueOf, limit)[j].barValue
  {
    SortDescSorted(xs, valueOf);
  }

  /** Every bar is the label and value of an input item. */
  lemma BarChartEntries<T, V>(xs: seq<T>, labelOf: T -> V, valueOf: T -> real, limit: int, i: int)
    requires 0 <= i < |BarChartData(xs, labelOf, valueOf, limit)|
    ensures exists x :: x in xs && BarChartData(xs, labelOf, valueOf, limit)[i] == BarOf(x, labelOf, valueOf)
  {
    var sorted := SortDesc(xs, valueOf);
    assert sorted[i] in multiset(xs);
  }

  /** An item left out of the bars has no larger value than any shown bar. */
  lemma BarChartCutoff<T, V>(xs: seq<T>, labelOf: T -> V, valueOf: T -> real, limit: int, x: T)
    requires multiset(xs)[x] > multiset(SortDesc(xs, valueOf)[..SliceEnd(|xs|, limit)])[x]
    ensures forall i :: 0 <= i < |BarChartData(xs, labelOf, valueOf, limit)| ==>
      BarChartData(xs, labelOf, valueOf, limit)[i].barValue >= valueOf(x)
  {
    var sorted := SortDesc(xs, valueOf);
    SortDescSorted(xs, valueOf);
    PrefixDominates(sorted, valueOf, SliceEnd(|xs|, limit), x);
  }

  // ---- prepareTreemapData ----

  const ROOT_ID := "root"
  /** Name of the group of items without a parent value (その他, "other"). */
  const OTHER_PARENT := "その他"

  datatype Leaf<I, W> = Leaf(id: I, value: W)

  /** A group node of the grouped treemap: a parent value and its items. */
  datatype Branch<I, W> = Branch(id: string, children: seq<Leaf<I, W>>)

  /** The children of the root: items directly, or one branch per parent value. */
  datatype Children<I, W> = Flat(leaves: seq<Leaf<I, W>>) | Grouped(branches: seq<Branch<I, W>>)

  datatype Root<I, W> = Root(id: string, children: Children<I, W>)

  function LeafOf<T, I, W>(x: T, id: T -> I, value: T -> W): Leaf<I, W> { Leaf(id(x), value(x)) }

  /** `data.map(item => ({ id, value }))` */
  function LeavesOf<T, I, W>(xs: seq<T>, id: T -> I, value: T -> W): (r: seq<Leaf<I, W>>)
    ensures |r| == |xs|
    ensures forall i :: 0 <= i < |xs| ==> r[i] == LeafOf(xs[i], id, value)
  {
    if xs == [] then [] else LeavesOf(xs[..|xs| - 1], id, value) + [LeafOf(xs[|xs| - 1], id, value)]
  }

  /** `item[parentKey] || 'その他'` */
  function ParentName<T>(x: T, parent: T -> Text): string {
    if Present(parent(x)) then parent(x).value else OTHER_PARENT
  }

  function ParentNames<T>(xs: seq<T>, parent: T -> Text): (r: seq<string>)
    ensures |r| == |xs|
    ensures forall i :: 0 <= i < |xs| ==> r[i] == ParentName(xs[i], parent)
  {
    if xs == [] then [] else ParentNames(xs[..|xs| - 1], parent) + [ParentName(xs[|xs| - 1], parent)]
  }

  /** The leaves of the items whose parent value is `n`, in input order. */
  function LeavesUnder<T, I, W>(xs: seq<T>, id: T -> I, value: T -> W, parent: T -> Text, n: string): seq<Leaf<I, W>> {
    if xs == [] then []
    else
      var x := xs[|xs| - 1];
      LeavesUnder(xs[..|xs| - 1], id, value, parent, n) + (if ParentName(x, parent) == n then [LeafOf(x, id, value)] else [])
  }

  /** The grouped children: one branch per parent value, in order of first
      appearance (`Object.values(grouped)`), holding exactly its items. */
  function Branches<T, I, W>(names: seq<string>, xs: seq<T>, id: T -> I, value: T -> W, parent: T -> Text): (r: seq<Branch<I, W>>)
    ensures |r| == |names|
    ensures forall i :: 0 <= i < |names| ==> r[i] == Branch(names[i], LeavesUnder(xs, id, value, parent, names[i]))
  {
    if names == [] then []
    else
      var n := names[|names| - 1];
      Branches(names[..|names| - 1], xs, id, value, parent) + [Branch(n, LeavesUnder(xs, id, value, parent, n))]
  }

  /** One branch per distinct parent value, in order of first appearance. */
  function GroupByParent<T, I, W>(xs: seq<T>, id: T -> I, value: T -> W, parent: T -> Text): (r: seq<Branch<I, W>>)
    ensures |r| <= |xs|
  {
    Branches(Distinct(ParentNames(xs, parent)), xs, id, value, parent)
  }

  /** The treemap of `data`; `parent` is `None` when `parentKey` is not given. */
  function TreemapData<T, I, W>(data: Option<seq<T>>, id: T -> I, value: T -> W, parent: Option<T -> Text>): (r: seq<Root<I, W>>)
    ensures |r| <= 1
  {
    if data.None? || data.value == [] then []
    else if parent.Some? then [Root(ROOT_ID, Grouped(GroupByParent(data.value, id, value, parent.value)))]
    else [Root(ROOT_ID, Flat(LeavesOf(data.value, id, value)))]
  }

  lemma LeavesUnderStep<T, I, W>(xs: seq<T>, x: T, id: T -> I, value: T -> W, parent: T -> Text, n: string)
    ensures LeavesUnder(xs + [x], id, value, parent, n)
            == LeavesUnder(xs, id, value, parent, n) + if ParentName(x, parent) == n then [LeafOf(x, id, value)] else []
  {
    assert (xs + [x])[..|xs|] == xs;
  }

  /** A parent value no item has gathers no leaves. */
  lemma {:induction false} LeavesUnderNone<T, I, W>(xs: seq<T>, id: T -> I, value: T -> W, parent: T -> Text, n: string)
    requires n !in ParentNames(xs, parent)
    ensures LeavesUnder(xs, id, value, parent, n) == []
  {
    if xs != [] {
      var init := xs[..|xs| - 1];
      assert ParentNames(xs, parent) == ParentNames(init, parent) + [ParentName(xs[|xs| - 1], parent)];
      LeavesUnderNone(init, id, value, parent, n);
    }
  }

  lemma ParentNamesStep<T>(xs: seq<T>, x: T, parent: T -> Text)
    ensures ParentNames(xs + [x], parent) == ParentNames(xs, parent) + [ParentName(x, parent)]
  {
    assert (xs + [x])[..|xs|] == xs;
  }

  /** `acc` and its key order hold, for every parent value of `xs`, the branch
      of the items of `xs` with that value. */
  ghost predicate GroupState<T, I, W>(acc: map<string, Branch<I, W>>, order: seq<string>, xs: seq<T>,
                             id: T -> I, value: T -> W, parent: T -> Text) {
    && order == Distinct(ParentNames(xs, parent))
    && (forall n :: n in acc <==> n in order)
    && (forall n :: n in acc ==> acc[n] == Branch(n, LeavesUnder(xs, id, value, parent, n)))
  }

  /** `acc[n].children.push(leaf)`, creating the branch first if needed. */
  function PushLeaf<I, W>(acc: map<string, Branch<I, W>>, n: string, leaf: Leaf<I, W>): map<string, Branch<I, W>> {
    var b := if n in acc then acc[n] else Branch(n, []);
    acc[n := b.(children := b.children + [leaf])]
  }

  /** One call of the reducer. */
  method AddToGroup<T, I, W>(acc: map<string, Branch<I, W>>, order: seq<string>, item: T,
                          id: T -> I, value: T -> W, parent: T -> Text)
    returns (acc': map<string, Branch<I, W>>, order': seq<string>)
    ensures acc' == PushLeaf(acc, ParentName(item, parent), LeafOf(item, id, value))
    ensures order' == order + if ParentName(item, parent) in acc then [] else [ParentName(item, parent)]
  {
    var p := parent(item);
    var parentValue := if p.Some? && p.value != "" then p.value else OTHER_PARENT;
    acc', order' := acc, order;
    if parentValue !in acc' {
      acc' := acc'[parentValue := Branch(parentValue, [])];
      order' := order' + [parentValue];
    }
    acc' := acc'[parentValue := acc'[parentValue].(children := acc'[parentValue].children + [Leaf(id(item), value(item))])];
  }

  lemma GroupOrderStep<T>(order: seq<string>, xs: seq<T>, x: T, parent: T -> Text)
    requires order == Distinct(ParentNames(xs, parent))
    ensures Distinct(ParentNames(xs + [x], parent))
            == order + if ParentName(x, parent) in order then [] else [ParentName(x, parent)]
  {
    var names := ParentNames(xs, parent);
    ParentNamesStep(xs, x, parent);
    assert (names + [ParentName(x, parent)])[..|names|] == names;
  }

  lemma GroupBranchesStep<T, I, W>(acc: map<string, Branch<I, W>>, xs: seq<T>, x: T,
                                id: T -> I, value: T -> W, parent: T -> Text)
    requires forall n :: n in acc <==> n in ParentNames(xs, parent)
    requires forall n :: n in acc ==> acc[n] == Branch(n, LeavesUnder(xs, id, value, parent, n))
    ensures forall n :: n in PushLeaf(acc, ParentName(x, parent), LeafOf(x, id, value)) ==>
      PushLeaf(acc, ParentName(x, parent), LeafOf(x, id, value))[n]
        == Branch(n, LeavesUnder(xs + [x], id, value, parent, n))
  {
    var k := ParentName(x, parent);
    var acc' := PushLeaf(acc, k, LeafOf(x, id, value));
    forall n | n in acc'
      ensures acc'[n] == Branch(n, LeavesUnder(xs + [x], id, value, parent, n))
    {
      LeavesUnderStep(xs, x, id, value, parent, n);
      if n == k && k !in acc {
        LeavesUnderNone(xs, id, value, parent, k);
      }
    }
  }

  /** One reducer call keeps `GroupState` over one more item. */
  lemma GroupStateStep<T, I, W>(acc: map<string, Branch<I, W>>, order: seq<string>,
                             acc': map<string, Branch<I, W>>, order': seq<string>, xs: seq<T>, i: nat,
                             id: T -> I, value: T -> W, parent: T -> Text)
    requires i < |xs|
    requires GroupState(acc, order, xs[..i], id, value, parent)
    requires acc' == PushLeaf(acc, ParentName(xs[i], parent), LeafOf(xs[i], id, value))
    requires order' == order + if ParentName(xs[i], parent) in acc then [] else [ParentName(xs[i], parent)]
    ensures GroupState(acc', order', xs[..i + 1], id, value, parent)
  {
    PrefixSnoc(xs, i);
    GroupOrderStep(order, xs[..i], xs[i], parent);
    GroupBranchesStep(acc, xs[..i], xs[i], id, value, parent);
  }

  /** The `data.reduce` that groups the items by parent value into `acc`. */
  method GroupReduce<T, I, W>(xs: seq<T>, id: T -> I, value: T -> W, parent: T -> Text)
    returns (acc: map<string, Branch<I, W>>, order: seq<string>)
    ensures GroupState(acc, order, xs, id, value, parent)
  {
    acc, order := map[], [];
    for i := 0 to |xs|
      invariant GroupState(acc, order, xs[..i], id, value, parent)
    {
      var acc', order' := AddToGroup(acc, order, xs[i], id, value, parent);
      GroupStateStep(acc, order, acc', order', xs, i, id, value, parent);
      acc, order := acc', order';
    }
    assert xs[..|xs|] == xs;
  }

  /** The grouped children: the reduce, then `Object.values(grouped)`. */
  method GroupItems<T, I, W>(xs: seq<T>, id: T -> I, value: T -> W, parent: T -> Text)
    returns (children: seq<Branch<I, W>>)
    ensures children == GroupByParent(xs, id, value, parent)
  {
    var acc, order := GroupReduce(xs, id, value, parent);
    children := ObjectValues(acc, order);
    assert forall i :: 0 <= i < |order| ==> children[i] == Branches(order, xs, id, value, parent)[i];
  }

  /** `prepareTreemapData(data, idKey, valueKey, parentKey)`. */
  method PrepareTreemapData<T, I, W>(data: Option<seq<T>>, id: T -> I, value: T -> W, parent: Option<T -> Text>)
    returns (r: seq<Root<I, W>>)
    ensures r == TreemapData(data, id, value, parent)
  {
    if data.None? || data.value == [] {
      return [];
    }
    var children: Children<I, W>;
    if parent.Some? {
      var grouped := GroupItems(data.value, id, value, parent.value);
      children := Grouped(grouped);
    } else {
      children := Flat(LeavesOf(data.value, id, value));
    }
    r := [Root(ROOT_ID, children)];
  }

  /** No treemap for a missing or empty array; otherwise a single root, whose
      children are grouped exactly when a parent key is given. */
  lemma TreemapShape<T, I, W>(data: Option<seq<T>>, id: T -> I, value: T -> W, parent: Option<T -> Text>)
    ensures TreemapData(data, id, value, parent) == [] <==> data.None? || data.value == []
    ensures TreemapData(data, id, value, parent) != [] ==>
      && |TreemapData(data, id, value, parent)| == 1
      && TreemapData(data, id, value, parent)[0].id == ROOT_ID
      && (TreemapData(data, id, value, parent)[0].children.Grouped? <==> parent.Some?)
  {
  }

  /** The leaves gathered under `n` are the items whose parent value is `n`:
      one per such item, each made from such an item. */
  lemma {:induction false} LeavesUnderFacts<T, I, W>(xs: seq<T>, id: T -> I, value: T -> W, parent: T -> Text, n: string)
    ensures |LeavesUnder(xs, id, value, parent, n)| == multiset(ParentNames(xs, parent))[n]
    ensures forall i :: 0 <= i < |xs| && ParentName(xs[i], parent) == n ==>
      LeafOf(xs[i], id, value) in LeavesUnder(xs, id, value, parent, n)
    ensures forall l :: l in LeavesUnder(xs, id, value, parent, n) ==>
      exists i :: 0 <= i < |xs| && ParentName(xs[i], parent) == n && l == LeafOf(xs[i], id, value)
  {
    if xs != [] {
      var init := xs[..|xs| - 1];
      var x := xs[|xs| - 1];
      assert xs == init + [x];
      LeavesUnderFacts(init, id, value, parent, n);
      ParentNamesStep(init, x, parent);
      var tail := if ParentName(x, parent) == n then [LeafOf(x, id, value)] else [];
      assert LeavesUnder(xs, id, value, parent, n) == LeavesUnder(init, id, value, parent, n) + tail;
      forall l | l in LeavesUnder(xs, id, value, parent, n)
        ensures exists i :: 0 <= i < |xs| && ParentName(xs[i], parent) == n && l == LeafOf(xs[i], id, value)
      {
        if l !in LeavesUnder(init, id, value, parent, n) {
          assert ParentName(xs[|xs| - 1], parent) == n && l == LeafOf(xs[|xs| - 1], id, value);
        } else {
          var i :| 0 <= i < |init| && ParentName(init[i], parent) == n && l == LeafOf(init[i], id, value);
          assert xs[i] == init[i];
        }
      }
    }
  }

  /** Branch ids are pairwise different: one branch per parent value. */
  lemma GroupIdsDistinct<T, I, W>(xs: seq<T>, id: T -> I, value: T -> W, parent: T -> Text)
    ensures forall i, j :: 0 <= i < j < |GroupByParent(xs, id, value, parent)| ==>
      GroupByParent(xs, id, value, parent)[i].id != GroupByParent(xs, id, value, parent)[j].id
  {
    var names := Distinct(ParentNames(xs, parent));
    assert NoDuplicates(names);
  }

  /** Every item sits, as its leaf, in the branch named by its parent value
      (`その他` when it has none). */
  lemma GroupHoldsItem<T, I, W>(xs: seq<T>, id: T -> I, value: T -> W, parent: T -> Text, i: nat)
    requires i < |xs|
    ensures exists j :: 0 <= j < |GroupByParent(xs, id, value, parent)|
                        && GroupByParent(xs, id, value, parent)[j].id == ParentName(xs[i], parent)
                        && LeafOf(xs[i], id, value) in GroupByParent(xs, id, value, parent)[j].children
  {
    var names := Distinct(ParentNames(xs, parent));
    var n := ParentName(xs[i], parent);
    assert ParentNames(xs, parent)[i] == n;
    var j :| 0 <= j < |names| && names[j] == n;
    LeavesUnderFacts(xs, id, value, parent, n);
    assert GroupByParent(xs, id, value, parent)[j] == Branch(n, LeavesUnder(xs, id, value, parent, n));
  }

  /** Every leaf of a branch comes from an item with that branch's parent value. */
  lemma GroupLeafSource<T, I, W>(xs: seq<T>, id: T -> I, value: T -> W, parent: T -> Text, j: nat, l: Leaf<I, W>)
    requires j < |GroupByParent(xs, id, value, parent)|
    requires l in GroupByParent(xs, id, value, parent)[j].children
    ensures exists i :: 0 <= i < |xs| && ParentName(xs[i], parent) == GroupByParent(xs, id, value, parent)[j].id
                        && l == LeafOf(xs[i], id, value)
  {
    var n := Distinct(ParentNames(xs, parent))[j];
    LeavesUnderFacts(xs, id, value, parent, n);
  }

  /** Number of leaves over all branches. */
  function LeafTotal<I, W>(bs: seq<Branch<I, W>>): nat {
    if bs == [] then 0 else LeafTotal(bs[..|bs| - 1]) + |bs[|bs| - 1].children|
  }

  lemma {:induction false} BranchesLeafTotal<T, I, W>(names: seq<string>, xs: seq<T>, id: T -> I, value: T -> W, parent: T -> Text)
    ensures LeafTotal(Branches(names, xs, id, value, parent)) as real
            == SumOver(names, n => |LeavesUnder(xs, id, value, parent, n)| as real)
  {
    if names != [] {
      var init := names[..|names| - 1];
      BranchesLeafTotal(init, xs, id, value, parent);
      var bs := Branches(names, xs, id, value, parent);
      assert bs[..|init|] == Branches(init, xs, id, value, parent);
    }
  }

  /** Grouping loses and duplicates no item: the branches hold `|xs|` leaves. */
  lemma GroupLeafCount<T, I, W>(xs: seq<T>, id: T -> I, value: T -> W, parent: T -> Text)
    ensures LeafTotal(GroupByParent(xs, id, value, parent)) == |xs|
  {
    var names := ParentNames(xs, parent);
    var f := n => |LeavesUnder(xs, id, value, parent, n)| as real;
    forall n | n in names ensures f(n) == multiset(names)[n] as real {
      LeavesUnderFacts(xs, id, value, parent, n);
    }
    DistinctMultiplicities(names, f);
    BranchesLeafTotal(Distinct(names), xs, id, value, parent);
  }

  /** `Object.values(obj)` of an object whose keys, in order, are `order`. */
  method ObjectValues<K, W>(obj: map<K, W>, order: seq<K>) returns (vs: seq<W>)
    requires forall k :: k in order ==> k in obj
    ensures |vs| == |order|
    ensures forall i :: 0 <= i < |order| ==> vs[i] == obj[order[i]]
  {
    vs := [];
    for i := 0 to |order|
      invariant |vs| == i
      invariant forall j :: 0 <= j < i ==> vs[j] == obj[order[j]]
    {
      vs := vs + [obj[order[i]]];
    }
  }

  // ---- prepareScatterData ----

  /** `{ id, x, y }`, with `size` and `group` set only when their key is given. */
  datatype ScatterPoint<V> = ScatterPoint(id: V, x: V, y: V, size: Option<V>, group: Option<V>)

  function PointOf<T, V>(item: T, id: T -> V, x: T -> V, y: T -> V,
                         size: Option<T -> V>, group: Option<T -> V>): ScatterPoint<V> {
    ScatterPoint(id(item), x(item), y(item),
                 if size.Some? then Some(size.value(item)) else None,
                 if group.Some? then Some(group.value(item)) else None)
  }

  /** `prepareScatterData(data, xKey, yKey, idKey, sizeKey, groupKey)`: one point
      per item, in input order; nothing for a missing or empty array. */
  function ScatterData<T, V>(data: Option<seq<T>>, id: T -> V, x: T -> V, y: T -> V,
                             size: Option<T -> V>, group: Option<T -> V>): (r: seq<ScatterPoint<V>>)
    ensures data.None? ==> r == []
    ensures data.Some? ==> |r| == |data.value|
    ensures data.Some? ==> forall i :: 0 <= i < |r| ==>
      && r[i].id == id(data.value[i]) && r[i].x == x(data.value[i]) && r[i].y == y(data.value[i])
      && (r[i].size.Some? <==> size.Some?) && (size.Some? ==> r[i].size.value == size.value(data.value[i]))
      && (r[i].group.Some? <==> group.Some?) && (group.Some? ==> r[i].group.value == group.value(data.value[i]))
  {
    if data.None? then []
    else
      var xs := data.value;
      seq(|xs|, i requires 0 <= i < |xs| => PointOf(xs[i], id, x, y, size, group))
  }

  // ---- calculateMean ----

  /** `Number(v) || 0`: a cell that does not convert to a number (`None`,
      including an absent one) counts as 0. */
  function NumberOrZero(v: Option<real>): real {
    if v.Some? then v.value else 0.0
  }

  /** The converted cells, in order. */
  function Numbers<T>(xs: seq<T>, key: T -> Option<real>): (r: seq<real>)
    ensures |r| == |xs|
    ensures forall i :: 0 <= i < |xs| ==> r[i] == NumberOrZero(key(xs[i]))
  {
    seq(|xs|, i requires 0 <= i < |xs| => NumberOrZero(key(xs[i])))
  }

  /** `calculateMean(data, key)`: 0 for a missing or empty array; otherwise the
      sum of the converted cells over the number of items, so that a cell that
      is not a number lowers the mean instead of being skipped. */
  function CalculateMean<T>(data: Option<seq<T>>, key: T -> Option<real>): (r: real)
    ensures data.None? || data.value == [] ==> r == 0.0
    ensures data.Some? && data.value != [] ==> r * |data.value| as real == Sum(Numbers(data.value, key))
  {
    if data.None? || data.value == [] then 0.0
    else Sum(Numbers(data.value, key)) / |data.value| as real
  }

  lemma {:induction false} SumBounds(xs: seq<real>, lo: real, hi: real)
    requires forall i :: 0 <= i < |xs| ==> lo <= xs[i] <= hi
    ensures lo * |xs| as real <= Sum(xs) <= hi * |xs| as real
  {
    if xs != [] {
      SumBounds(xs[..|xs| - 1], lo, hi);
    }
  }

  lemma QuotientBounds(total: real, n: real, lo: real, hi: real)
    requires n > 0.0 && lo * n <= total <= hi * n
    ensures lo <= total / n <= hi
  {
    assert total / n * n == total;
  }

  /** The mean lies within any bounds all converted cells lie within. */
  lemma MeanBounds<T>(xs: seq<T>, key: T -> Option<real>, lo: real, hi: real)
    requires xs != []
    requires forall i :: 0 <= i < |xs| ==> lo <= NumberOrZero(key(xs[i])) <= hi
    ensures lo <= CalculateMean(Some(xs), key) <= hi
  {
    var n := |xs| as real;
    var m := CalculateMean(Some(xs), key);
    var total := Sum(Numbers(xs, key));
    SumBounds(Numbers(xs, key), lo, hi);
    assert m == total / n;
    QuotientBounds(total, n, lo, hi);
  }

  /** When every cell is a number, `calculateMean` is the arithmetic mean of the cells. */
  lemma MeanOfNumbers<T>(xs: seq<T>, key: T -> Option<real>, values: seq<real>)
    requires xs != [] && |values| == |xs|
    requires forall i :: 0 <= i < |xs| ==> key(xs[i]) == Some(values[i])
    ensures CalculateMean(Some(xs), key) == Mean(values)
  {
    assert Numbers(xs, key) == values;
  }

  // ---- prepareMultiStageData ----

  /** `{ group, ...values }`: a group name and its per-stage totals. */
  datatype StageRow = StageRow(group: string, values: map<string, real>)

  /** The object `stages.forEach(stage => acc[group][stage] = 0)` builds. */
  function Seed(stages: seq<string>): (m: map<string, real>)
    ensures forall s :: s in m <==> s in stages
    ensures forall s :: s in m ==> m[s] == 0.0
  {
    if stages == [] then map[] else Seed(stages[..|stages| - 1])[stages[|stages| - 1] := 0.0]
  }

  /** `stages.forEach(stage => acc[group][stage] += Number(item[stage]) || 0)`:
      a stage listed twice is added twice. (The `!== undefined` test only skips
      adding 0.) */
  function AddStages<T>(m: map<string, real>, stages: seq<string>, item: T, cell: (T, string) -> Option<real>): (m': map<string, real>)
    requires forall s :: s in stages ==> s in m
    ensures m'.Keys == m.Keys
  {
    if stages == [] then m
    else
      var init := stages[..|stages| - 1];
      var last := stages[|stages| - 1];
      assert last in stages;
      var m0 := AddStages(m, init, item, cell);
      m0[last := m0[last] + NumberOrZero(cell(item, last))]
  }

  /** What one item adds to stage `s`: its value once per listing of `s`. */
  function Added(stages: seq<string>, s: string, v: real): real {
    SumOver(stages, t => if t == s then v else 0.0)
  }

  /** Adding an item raises each stage by the item's value for it, once per
      listing of the stage, and leaves stages not listed alone. */
  lemma {:induction false} AddStagesMeaning<T>(m: map<string, real>, stages: seq<string>, item: T,
                                               cell: (T, string) -> Option<real>, s: string)
    requires forall t :: t in stages ==> t in m
    requires s in m
    ensures AddStages(m, stages, item, cell)[s] == m[s] + Added(stages, s, NumberOrZero(cell(item, s)))
  {
    if stages != [] {
      AddStagesMeaning(m, stages[..|stages| - 1], item, cell, s);
    }
  }

  /** In a list without repeats, a listed stage gets the item's value once. */
  lemma {:induction false} AddedOnce(stages: seq<string>, s: string, v: real)
    requires NoDuplicates(stages)
    ensures Added(stages, s, v) == if s in stages then v else 0.0
  {
    if stages != [] {
      var init := stages[..|stages| - 1];
      assert NoDuplicates(init);
      AddedOnce(init, s, v);
      assert stages == init + [stages[|stages| - 1]];
    }
  }

  /** What `acc[g]` holds after the reduce over `xs`: the seed, plus every item
      of group `g` added in. */
  function GroupTotals<T>(xs: seq<T>, group: T -> string, stages: seq<string>,
                          cell: (T, string) -> Option<real>, g: string): (m: map<string, real>)
    ensures forall s :: s in m <==> s in stages
  {
    if xs == [] then Seed(stages)
    else
      var m0 := GroupTotals(xs[..|xs| - 1], group, stages, cell, g);
      var x := xs[|xs| - 1];
      if group(x) == g then AddStages(m0, stages, x, cell) else m0
  }

  function GroupsOf<T>(xs: seq<T>, group: T -> string): (r: seq<string>)
    ensures |r| == |xs|
    ensures forall i :: 0 <= i < |xs| ==> r[i] == group(xs[i])
  {
    seq(|xs|, i requires 0 <= i < |xs| => group(xs[i]))
  }

  function StageRows<T>(names: seq<string>, xs: seq<T>, group: T -> string, stages: seq<string>,
                        cell: (T, string) -> Option<real>): (r: seq<StageRow>)
    ensures |r| == |names|
    ensures forall i :: 0 <= i < |names| ==> r[i] == StageRow(names[i], GroupTotals(xs, group, stages, cell, names[i]))
  {
    seq(|names|, i requires 0 <= i < |names| => StageRow(names[i], GroupTotals(xs, group, stages, cell, names[i])))
  }

  /** `prepareMultiStageData(data, stages, groupKey)`: one row per group, in
      the order the groups were first met (the key insertion order). The group
      is the property key `item[groupKey]` converts to. */
  function MultiStageData<T>(data: Option<seq<T>>, stages: seq<string>, group: T -> string,
                             cell: (T, string) -> Option<real>): (r: seq<StageRow>)
    ensures data.None? ==> r == []
    ensures data.Some? ==> |r| <= |data.value|
  {
    if data.None? || data.value == [] then []
    else StageRows(Distinct(GroupsOf(data.value, group)), data.value, group, stages, cell)
  }

  /** The stage `s` of the items of group `g`, summed; 0 for other items. */
  function GroupStageSum<T>(xs: seq<T>, group: T -> string, cell: (T, string) -> Option<real>, g: string, s: string): real {
    SumOver(xs, x => if group(x) == g then NumberOrZero(cell(x, s)) else 0.0)
  }

  /** What the items of group `g` add to stage `s`, listing by listing. */
  function GroupStageAdded<T>(xs: seq<T>, group: T -> string, stages: seq<string>,
                              cell: (T, string) -> Option<real>, g: string, s: string): real {
    SumOver(xs, x => if group(x) == g then Added(stages, s, NumberOrZero(cell(x, s))) else 0.0)
  }

  /** Each stage total is what the group's items add to it, starting from the
      seed 0. */
  lemma {:induction false} GroupTotalsMeaning<T>(xs: seq<T>, group: T -> string, stages: seq<string>,
                                                 cell: (T, string) -> Option<real>, g: string, s: string)
    requires s in stages
    ensures GroupTotals(xs, group, stages, cell, g)[s] == GroupStageAdded(xs, group, stages, cell, g, s)
  {
    if xs != [] {
      var init := xs[..|xs| - 1];
      var x := xs[|xs| - 1];
      GroupTotalsMeaning(init, group, stages, cell, g, s);
      if group(x) == g {
        AddStagesMeaning(GroupTotals(init, group, stages, cell, g), stages, x, cell, s);
      }
    }
  }

  /** With each stage listed once, a row's value for a stage is that stage's
      sum over the items of the row's group. */
  lemma StageTotals<T>(xs: seq<T>, group: T -> string, stages: seq<string>,
                       cell: (T, string) -> Option<real>, g: string, s: string)
    requires NoDuplicates(stages) && s in stages
    ensures GroupTotals(xs, group, stages, cell, g)[s] == GroupStageSum(xs, group, cell, g, s)
  {
    GroupTotalsMeaning(xs, group, stages, cell, g, s);
    forall x | x in xs
      ensures (if group(x) == g then Added(stages, s, NumberOrZero(cell(x, s))) else 0.0)
              == (if group(x) == g then NumberOrZero(cell(x, s)) else 0.0)
    {
      AddedOnce(stages, s, NumberOrZero(cell(x, s)));
    }
    SumOverCongruent(xs, x => if group(x) == g then Added(stages, s, NumberOrZero(cell(x, s))) else 0.0,
                     x => if group(x) == g then NumberOrZero(cell(x, s)) else 0.0);
  }

  /** No rows for a missing or empty array, and never two rows for one group. */
  lemma MultiStageShape<T>(data: Option<seq<T>>, stages: seq<string>, group: T -> string,
                           cell: (T, string) -> Option<real>)
    ensures MultiStageData(data, stages, group, cell) == [] <==> data.None? || data.value == []
    ensures forall i, j :: 0 <= i < j < |MultiStageData(data, stages, group, cell)| ==>
      MultiStageData(data, stages, group, cell)[i].group != MultiStageData(data, stages, group, cell)[j].group
  {
    if data.Some? && data.value != [] {
      var names := Distinct(GroupsOf(data.value, group));
      assert GroupsOf(data.value, group)[0] in names;
      assert NoDuplicates(names);
    }
  }

  /** Each row is the group of some item, with exactly the stages as keys. */
  lemma MultiStageRow<T>(xs: seq<T>, stages: seq<string>, group: T -> string,
                         cell: (T, string) -> Option<real>, i: nat)
    requires i < |MultiStageData(Some(xs), stages, group, cell)|
    ensures exists k :: 0 <= k < |xs| && group(xs[k]) == MultiStageData(Some(xs), stages, group, cell)[i].group
    ensures forall s :: s in MultiStageData(Some(xs), stages, group, cell)[i].values <==> s in stages
  {
    var names := Distinct(GroupsOf(xs, group));
    var k :| 0 <= k < |xs| && GroupsOf(xs, group)[k] == names[i];
  }

  /** Each item's group has a row. */
  lemma MultiStageCovers<T>(xs: seq<T>, stages: seq<string>, group: T -> string,
                            cell: (T, string) -> Option<real>, k: nat)
    requires k < |xs|
    ensures exists i :: 0 <= i < |MultiStageData(Some(xs), stages, group, cell)|
                        && MultiStageData(Some(xs), stages, group, cell)[i].group == group(xs[k])
  {
    var names := Distinct(GroupsOf(xs, group));
    assert GroupsOf(xs, group)[k] in names;
    var i :| 0 <= i < |names| && names[i] == group(xs[k]);
    assert MultiStageData(Some(xs), stages, group, cell) == StageRows(names, xs, group, stages, cell);
    assert MultiStageData(Some(xs), stages, group, cell)[i].group == names[i];
  }

  /** `stages.forEach(stage => { acc[group][stage] = 0; })` */
  method SeedStages(stages: seq<string>) returns (m: map<string, real>)
    ensures m == Seed(stages)
  {
    m := map[];
    for i := 0 to |stages|
      invariant m == Seed(stages[..i])
    {
      PrefixSnoc(stages, i);
      m := m[stages[i] := 0.0];
    }
    assert stages[..|stages|] == stages;
  }

  /** The second `stages.forEach` of the reducer, adding one item into its group. */
  method AddItemStages<T>(m: map<string, real>, stages: seq<string>, item: T, cell: (T, string) -> Option<real>)
    returns (m': map<string, real>)
    requires forall s :: s in stages ==> s in m
    ensures m' == AddStages(m, stages, item, cell)
  {
    m' := m;
    for i := 0 to |stages|
      invariant m' == AddStages(m, stages[..i], item, cell)
    {
      PrefixSnoc(stages, i);
      assert (stages[..i] + [stages[i]])[..i] == stages[..i];
      m' := m'[stages[i] := m'[stages[i]] + NumberOrZero(cell(item, stages[i]))];
    }
    assert stages[..|stages|] == stages;
  }

  /** `acc` and its key order hold, for every group of `xs`, the totals of `xs`. */
  ghost predicate StageState<T>(acc: map<string, map<string, real>>, order: seq<string>, xs: seq<T>,
                                group: T -> string, stages: seq<string>, cell: (T, string) -> Option<real>) {
    && order == Distinct(GroupsOf(xs, group))
    && (forall g :: g in acc <==> g in order)
    && (forall g :: g in acc ==> acc[g] == GroupTotals(xs, group, stages, cell, g))
    && (forall g :: g !in acc ==> GroupTotals(xs, group, stages, cell, g) == Seed(stages))
  }

  /** One reducer call: seed the item's group if it is new, then add the item. */
  method AddToStages<T>(acc: map<string, map<string, real>>, order: seq<string>, item: T,
                        group: T -> string, stages: seq<string>, cell: (T, string) -> Option<real>)
    returns (acc': map<string, map<string, real>>, order': seq<string>)
    requires forall g :: g in acc ==> forall s :: s in stages ==> s in acc[g]
    ensures group(item) in acc'
    ensures forall g :: g in acc' <==> g in acc || g == group(item)
    ensures forall g :: g in acc && g != group(item) ==> acc'[g] == acc[g]
    ensures acc'[group(item)] == AddStages(if group(item) in acc then acc[group(item)] else Seed(stages), stages, item, cell)
    ensures order' == order + if group(item) in acc then [] else [group(item)]
  {
    var g := group(item);
    acc', order' := acc, order;
    if g !in acc' {
      var seed := SeedStages(stages);
      acc' := acc'[g := seed];
      order' := order' + [g];
    }
    var added := AddItemStages(acc'[g], stages, item, cell);
    acc' := acc'[g := added];
  }

  lemma GroupTotalsSnoc<T>(ys: seq<T>, x: T, group: T -> string, stages: seq<string>,
                           cell: (T, string) -> Option<real>, h: string)
    ensures GroupTotals(ys + [x], group, stages, cell, h)
            == if group(x) == h then AddStages(GroupTotals(ys, group, stages, cell, h), stages, x, cell)
               else GroupTotals(ys, group, stages, cell, h)
  {
    assert (ys + [x])[..|ys|] == ys;
  }

  lemma GroupsOfSnoc<T>(ys: seq<T>, x: T, group: T -> string)
    ensures GroupsOf(ys + [x], group) == GroupsOf(ys, group) + [group(x)]
  {
  }

  lemma StageOrderStep<T>(order: seq<string>, ys: seq<T>, x: T, group: T -> string)
    requires order == Distinct(GroupsOf(ys, group))
    ensures Distinct(GroupsOf(ys + [x], group)) == order + if group(x) in order then [] else [group(x)]
  {
    GroupsOfSnoc(ys, x, group);
    DistinctSnoc(GroupsOf(ys, group), group(x));
    DistinctMembers(GroupsOf(ys, group));
  }

  lemma StageTotalsStep<T>(acc: map<string, map<string, real>>, acc': map<string, map<string, real>>,
                           ys: seq<T>, x: T, group: T -> string, stages: seq<string>, cell: (T, string) -> Option<real>)
    requires forall g :: g in acc ==> acc[g] == GroupTotals(ys, group, stages, cell, g)
    requires forall g :: g !in acc ==> GroupTotals(ys, group, stages, cell, g) == Seed(stages)
    requires forall g :: g in acc' <==> g in acc || g == group(x)
    requires forall g :: g in acc && g != group(x) ==> acc'[g] == acc[g]
    requires group(x) in acc'
    requires acc'[group(x)] == AddStages(GroupTotals(ys, group, stages, cell, group(x)), stages, x, cell)
    ensures forall g :: g in acc' ==> acc'[g] == GroupTotals(ys + [x], group, stages, cell, g)
    ensures forall g :: g !in acc' ==> GroupTotals(ys + [x], group, stages, cell, g) == Seed(stages)
  {
    forall g | g in acc' ensures acc'[g] == GroupTotals(ys + [x], group, stages, cell, g) {
      GroupTotalsSnoc(ys, x, group, stages, cell, g);
    }
    forall g | g !in acc' ensures GroupTotals(ys + [x], group, stages, cell, g) == Seed(stages) {
      GroupTotalsSnoc(ys, x, group, stages, cell, g);
    }
  }

  lemma StageStateStep<T>(acc: map<string, map<string, real>>, order: seq<string>,
                          acc': map<string, map<string, real>>, order': seq<string>, ys: seq<T>, x: T,
                          group: T -> string, stages: seq<string>, cell: (T, string) -> Option<real>)
    requires StageState(acc, order, ys, group, stages, cell)
    requires forall g :: g in acc' <==> g in acc || g == group(x)
    requires forall g :: g in acc && g != group(x) ==> acc'[g] == acc[g]
    requires group(x) in acc'
    requires acc'[group(x)] == AddStages(if group(x) in acc then acc[group(x)] else Seed(stages), stages, x, cell)
    requires order' == order + if group(x) in acc then [] else [group(x)]
    ensures StageState(acc', order', ys + [x], group, stages, cell)
  {
    StageOrderStep(order, ys, x, group);
    StageTotalsStep(acc, acc', ys, x, group, stages, cell);
  }

  /** The `data.reduce` that sums the items into per-group stage totals. */
  method StageReduce<T>(xs: seq<T>, group: T -> string, stages: seq<string>, cell: (T, string) -> Option<real>)
    returns (acc: map<string, map<string, real>>, order: seq<string>)
    ensures StageState(acc, order, xs, group, stages, cell)
  {
    acc, order := map[], [];
    for i := 0 to |xs|
      invariant StageState(acc, order, xs[..i], group, stages, cell)
    {
      var acc', order' := AddToStages(acc, order, xs[i], group, stages, cell);
      StageStateStep(acc, order, acc', order', xs[..i], xs[i], group, stages, cell);
      PrefixSnoc(xs, i);
      acc, order := acc', order';
    }
    assert xs[..|xs|] == xs;
  }

  /** `Object.entries(groupedData).map(([group, values]) => ({ group, ...values }))` */
  method StageEntries(acc: map<string, map<string, real>>, order: seq<string>) returns (rows: seq<StageRow>)
    requires forall g :: g in order ==> g in acc
    ensures |rows| == |order|
    ensures forall k :: 0 <= k < |order| ==> rows[k] == StageRow(order[k], acc[order[k]])
  {
    rows := [];
    for j := 0 to |order|
      invariant |rows| == j
      invariant forall k :: 0 <= k < j ==> rows[k] == StageRow(order[k], acc[order[k]])
    {
      rows := rows + [StageRow(order[j], acc[order[j]])];
    }
  }

  /** `prepareMultiStageData(data, stages, groupKey)`. */
  method PrepareMultiStageData<T>(data: Option<seq<T>>, stages: seq<string>, group: T -> string,
                                  cell: (T, string) -> Option<real>)
    returns (rows: seq<StageRow>)
    ensures rows == MultiStageData(data, stages, group, cell)
  {
    if data.None? || data.value == [] {
      return [];
    }
    var acc, order := StageReduce(data.value, group, stages, cell);
    rows := StageEntries(acc, order);
  }
}
