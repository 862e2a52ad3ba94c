/** The spending-table aggregators: rows per contract method, the amount paid
    per recipient type with its share of the whole, and the fifty recipients
    paid the most. */
module Spending {
  import opened Seqs
  import opened Sorting
  import opened Rows
  import opened Categories

  // ---- Contract methods ----

  /** `contractData`: rows counted per contract method, each percentage taken of
      the rows that name a method (`totalCount`). */
  function ContractDistribution(payments: seq<Payment>): (r: seq<CategoryCount>)
    ensures |r| <= |payments|
  {
    var col := ContractMethodColumn(payments);
    Distribution(col, |PresentValues(col)|)
  }

  /** `processContractData`: one pass counts the methods and `totalCount`. */
  method ProcessContractData(payments: seq<Payment>) returns (contractData: seq<CategoryCount>)
    ensures contractData == ContractDistribution(payments)
  {
    var col := ContractMethodColumn(payments);
    var contractCounts, keys, totalCount := CountCategories(col);
    assert keys != [] ==> keys[0] in Counts(col) && keys[0] in PresentValues(col);
    contractData := SortDesc(Entries(keys, contractCounts, totalCount), CountKey);
  }

  /** Every method that occurs has one entry with its number of rows, and the
      entries come largest count first. */
  lemma ContractCounts(payments: seq<Payment>)
    ensures NonIncreasing(ContractDistribution(payments), CountKey)
    ensures forall e :: e in ContractDistribution(payments) ==>
      e.count == multiset(ContractMethodColumn(payments))[Some(e.category)] >= 1
    ensures forall i :: 0 <= i < |payments| && Present(payments[i].contractMethod) ==>
      exists e :: e in ContractDistribution(payments) && e.category == payments[i].contractMethod.value
  {
    var col := ContractMethodColumn(payments);
    var r := ContractDistribution(payments);
    DistributionOrder(col, |PresentValues(col)|);
    forall e | e in r ensures e.count == multiset(col)[Some(e.category)] >= 1 {
      var i :| 0 <= i < |r| && r[i] == e;
      DistributionEntry(col, |PresentValues(col)|, i);
    }
    forall i | 0 <= i < |payments| && Present(payments[i].contractMethod)
      ensures exists e :: e in r && e.category == payments[i].contractMethod.value
    {
      assert col[i] == payments[i].contractMethod;
      DistributionCovers(col, |PresentValues(col)|, col[i].value);
      var j :| 0 <= j < |r| && r[j].category == col[i].value;
      assert r[j] in r;
    }
  }

  /** The counts add up to the rows that name a method, and as soon as one row
      does, the percentages add up to exactly 100. */
  lemma ContractPercentages(payments: seq<Payment>)
    ensures SumOver(ContractDistribution(payments), CountKey) == |PresentValues(ContractMethodColumn(payments))| as real
    ensures (exists i :: 0 <= i < |payments| && Present(payments[i].contractMethod)) ==>
      SumOver(ContractDistribution(payments), PercentageKey) == 100.0
  {
    var col := ContractMethodColumn(payments);
    var n := |PresentValues(col)|;
    DistributionCountSum(col, n);
    if exists i :: 0 <= i < |payments| && Present(payments[i].contractMethod) {
      var i :| 0 <= i < |payments| && Present(payments[i].contractMethod);
      PresentValuesMeaning(col);
      assert col[i].value in PresentValues(col);
      DistributionPercentageSum(col, n);
      WholePercent(n as real);
    }
  }

  // ---- Amount per recipient type ----

  /** `parseFloat(amount) || 0`: a missing or unreadable amount counts as zero. */
  function AmountOf(p: Payment): real {
    if p.amount.Some? then p.amount.value else 0.0
  }

  /** `typeDistribution[k] || 0` */
  function Lookup(m: map<string, real>, k: string): real {
    if k in m then m[k] else 0.0
  }

  /** The amounts of a type map as a weight function over its keys. */
  function Weights(m: map<string, real>): string -> real {
    k => Lookup(m, k)
  }

  /** `if (type) typeDistribution[type] = (typeDistribution[type] || 0) + amount` */
  function AddTypeAmount(m: map<string, real>, p: Payment): map<string, real> {
    if Present(p.recipientType) then m[p.recipientType.value := Lookup(m, p.recipientType.value) + AmountOf(p)]
    else m
  }

  /** `typeDistribution` after the rows: each non-empty recipient type with the
      amounts of its rows added up. */
  function TypeTotals(ps: seq<Payment>): map<string, real> {
    if ps == [] then map[]
    else AddTypeAmount(TypeTotals(ps[..|ps| - 1]), ps[|ps| - 1])
  }

  /** The key order of `typeDistribution`: types in order of first appearance. */
  function TypeOrder(ps: seq<Payment>): (r: seq<string>)
    ensures NoDuplicates(r)
    ensures forall k :: k in r <==> k in TypeTotals(ps)
  {
    if ps == [] then []
    else
      var p := ps[|ps| - 1];
      TypeOrder(ps[..|ps| - 1])
        + (if Present(p.recipientType) && p.recipientType.value !in TypeTotals(ps[..|ps| - 1])
           then [p.recipientType.value] else [])
  }

  /** Reference sum: the amounts of the rows whose type is `t`. */
  function AmountOfType(ps: seq<Payment>, t: string): real {
    if ps == [] then 0.0
    else AmountOfType(ps[..|ps| - 1], t) + (if ps[|ps| - 1].recipientType == Some(t) then AmountOf(ps[|ps| - 1]) else 0.0)
  }

  /** Reference sum: the amounts of the rows that name a type at all. */
  function TypedAmount(ps: seq<Payment>): real {
    if ps == [] then 0.0
    else TypedAmount(ps[..|ps| - 1]) + (if Present(ps[|ps| - 1].recipientType) then AmountOf(ps[|ps| - 1]) else 0.0)
  }

  /** `Object.values(typeDistribution).reduce((a, b) => a + b, 0)` */
  function GrandTotal(ps: seq<Payment>): real {
    SumOver(TypeOrder(ps), Weights(TypeTotals(ps)))
  }

  /** A recipient type with its amount and its percentage of the grand total; the
      percentage is `None` when the grand total is zero, where the division
      yields no number. */
  datatype TypeAmount = TypeAmount(recipientType: string, amount: real, percentage: Option<real>)

  function AmountKey(e: TypeAmount): real { e.amount }

  function ShareKey(e: TypeAmount): real { if e.percentage.Some? then e.percentage.value else 0.0 }

  /** `amount / total * 100`, with no number when the total is zero. */
  function Share(amount: real, total: real): Option<real> {
    if total == 0.0 then None else Some(amount / total * 100.0)
  }

  function TypeEntry(k: string, totals: map<string, real>, grand: real): TypeAmount {
    TypeAmount(k, Lookup(totals, k), Share(Lookup(totals, k), grand))
  }

  function TypeEntries(keys: seq<string>, totals: map<string, real>, grand: real): (r: seq<TypeAmount>)
    ensures |r| == |keys|
    ensures forall i :: 0 <= i < |keys| ==> r[i] == TypeEntry(keys[i], totals, grand)
  {
    if keys == [] then []
    else TypeEntries(keys[..|keys| - 1], totals, grand) + [TypeEntry(keys[|keys| - 1], totals, grand)]
  }

  /** There are no more types than rows. */
  lemma {:induction false} TypeOrderLength(ps: seq<Payment>)
    ensures |TypeOrder(ps)| <= |ps|
  {
    if ps != [] {
      TypeOrderLength(ps[..|ps| - 1]);
    }
  }

  /** `typeData`: the entries of `typeDistribution`, largest amount first. */
  function TypeData(ps: seq<Payment>): (r: seq<TypeAmount>)
    ensures |r| <= |ps|
  {
    TypeOrderLength(ps);
    SortDesc(TypeEntries(TypeOrder(ps), TypeTotals(ps), GrandTotal(ps)), AmountKey)
  }

  /** A type is a key exactly when some row names it, and its amount is the sum
      of the amounts of those rows. */
  lemma {:induction false} TypeTotalsMeaning(ps: seq<Payment>, t: string)
    ensures t in TypeTotals(ps) <==> t != "" && exists i :: 0 <= i < |ps| && ps[i].recipientType == Some(t)
    ensures t != "" ==> Lookup(TypeTotals(ps), t) == AmountOfType(ps, t)
  {
    if ps != [] {
      var init := ps[..|ps| - 1];
      TypeTotalsMeaning(init, t);
      assert forall i :: 0 <= i < |init| ==> ps[i] == init[i];
      if t != "" && exists i :: 0 <= i < |ps| && ps[i].recipientType == Some(t) {
        var i :| 0 <= i < |ps| && ps[i].recipientType == Some(t);
        if i < |init| {
          assert init[i].recipientType == Some(t);
        }
      }
    }
  }

  /** Adding `d` to the amount of a type already listed adds `d` to the total. */
  lemma WeightsBump(order: seq<string>, totals0: map<string, real>, totals1: map<string, real>, k: string, d: real)
    requires NoDuplicates(order) && k in order
    requires Lookup(totals1, k) == Lookup(totals0, k) + d
    requires forall j :: j != k ==> Lookup(totals1, j) == Lookup(totals0, j)
    ensures SumOver(order, Weights(totals1)) == SumOver(order, Weights(totals0)) + d
  {
    SumOverBump(order, Weights(totals0), Weights(totals1), k, d);
  }

  /** Listing a new type adds its amount to the total. */
  lemma WeightsAppend(order: seq<string>, totals0: map<string, real>, totals1: map<string, real>, k: string)
    requires k !in order
    requires forall j :: j != k ==> Lookup(totals1, j) == Lookup(totals0, j)
    ensures SumOver(order + [k], Weights(totals1)) == SumOver(order, Weights(totals0)) + Lookup(totals1, k)
  {
    assert (order + [k])[..|order|] == order;
    SumOverCongruent(order, Weights(totals0), Weights(totals1));
  }

  /** The grand total is the sum of the amounts of all rows that name a type. */
  lemma {:induction false} GrandTotalIsTypedAmount(ps: seq<Payment>)
    ensures GrandTotal(ps) == TypedAmount(ps)
  {
    if ps != [] {
      var init := ps[..|ps| - 1];
      var p := ps[|ps| - 1];
      GrandTotalIsTypedAmount(init);
      var order0, totals0 := TypeOrder(init), TypeTotals(init);
      if Present(p.recipientType) {
        var k := p.recipientType.value;
        var totals1 := totals0[k := Lookup(totals0, k) + AmountOf(p)];
        assert TypeTotals(ps) == totals1;
        assert TypedAmount(ps) == TypedAmount(init) + AmountOf(p);
        if k in totals0 {
          assert TypeOrder(ps) == order0;
          WeightsBump(order0, totals0, totals1, k, AmountOf(p));
          assert GrandTotal(ps) == SumOver(order0, Weights(totals1));
        } else {
          assert TypeOrder(ps) == order0 + [k];
          WeightsAppend(order0, totals0, totals1, k);
          assert GrandTotal(ps) == SumOver(order0 + [k], Weights(totals1));
          assert Lookup(totals1, k) == AmountOf(p);
        }
      } else {
        assert TypeTotals(ps) == totals0;
        assert TypeOrder(ps) == order0;
      }
    }
  }

  lemma {:induction false} TypeEntriesAmounts(keys: seq<string>, totals: map<string, real>, grand: real)
    ensures SumOver(TypeEntries(keys, totals, grand), AmountKey) == SumOver(keys, Weights(totals))
  {
    if keys != [] {
      var r := TypeEntries(keys, totals, grand);
      TypeEntriesAmounts(keys[..|keys| - 1], totals, grand);
      assert r[..|r| - 1] == TypeEntries(keys[..|keys| - 1], totals, grand);
    }
  }

  /** Each sorted entry is the entry of one of the keys. */
  lemma SortedTypeEntriesFrom(keys: seq<string>, totals: map<string, real>, grand: real)
    ensures forall i :: 0 <= i < |keys| ==>
      && SortDesc(TypeEntries(keys, totals, grand), AmountKey)[i].recipientType in keys
      && SortDesc(TypeEntries(keys, totals, grand), AmountKey)[i]
         == TypeEntry(SortDesc(TypeEntries(keys, totals, grand), AmountKey)[i].recipientType, totals, grand)
  {
    var entries := TypeEntries(keys, totals, grand);
    var r := SortDesc(entries, AmountKey);
    forall i | 0 <= i < |r|
      ensures r[i].recipientType in keys && r[i] == TypeEntry(r[i].recipientType, totals, grand)
    {
      assert r[i] in multiset(entries);
    }
  }

  function TypeName(e: TypeAmount): string { e.recipientType }

  /** Sorting the entries keeps an entry for every key. */
  lemma SortedTypeEntryOf(keys: seq<string>, totals: map<string, real>, grand: real, k: string)
    requires k in keys
    ensures exists i :: 0 <= i < |keys| && SortDesc(TypeEntries(keys, totals, grand), AmountKey)[i].recipientType == k
  {
    var entries := TypeEntries(keys, totals, grand);
    var r := SortDesc(entries, AmountKey);
    var a :| 0 <= a < |keys| && keys[a] == k;
    assert entries[a] in multiset(r);
    var i :| 0 <= i < |r| && r[i] == entries[a];
  }

  /** Sorting the entries of distinct keys keeps their types distinct. */
  lemma SortedTypeEntriesUnique(keys: seq<string>, totals: map<string, real>, grand: real)
    requires NoDuplicates(keys)
    ensures forall i, j :: 0 <= i < j < |keys| ==>
      SortDesc(TypeEntries(keys, totals, grand), AmountKey)[i].recipientType
        != SortDesc(TypeEntries(keys, totals, grand), AmountKey)[j].recipientType
  {
    var entries := TypeEntries(keys, totals, grand);
    var r := SortDesc(entries, AmountKey);
    assert forall i :: 0 <= i < |entries| ==> TypeName(entries[i]) == keys[i];
    PermutationNames(entries, r, TypeName);
    assert forall i, j :: 0 <= i < j < |r| ==> TypeName(r[i]) != TypeName(r[j]);
  }

  /** Each entry of `typeData` is a type some row names, with the sum of the
      amounts of those rows and that sum's share of the amounts of all typed
      rows (no number when those add up to zero). */
  lemma TypeDataEntry(ps: seq<Payment>, i: nat)
    requires i < |TypeData(ps)|
    ensures var e := TypeData(ps)[i];
      && e.recipientType != ""
      && (exists j :: 0 <= j < |ps| && ps[j].recipientType == Some(e.recipientType))
      && e.amount == AmountOfType(ps, e.recipientType)
      && e.percentage == Share(e.amount, TypedAmount(ps))
  {
    var keys, totals, grand := TypeOrder(ps), TypeTotals(ps), GrandTotal(ps);
    SortedTypeEntriesFrom(keys, totals, grand);
    var e := TypeData(ps)[i];
    assert TypeData(ps) == SortDesc(TypeEntries(keys, totals, grand), AmountKey);
    assert e.recipientType in keys && e == TypeEntry(e.recipientType, totals, grand);
    TypeTotalsMeaning(ps, e.recipientType);
    GrandTotalIsTypedAmount(ps);
  }

  /** Every type some row names has its entry in `typeData`. */
  lemma TypeDataCovers(ps: seq<Payment>, j: nat)
    requires j < |ps| && Present(ps[j].recipientType)
    ensures exists i :: 0 <= i < |TypeData(ps)| && TypeData(ps)[i].recipientType == ps[j].recipientType.value
  {
    var keys, totals, grand := TypeOrder(ps), TypeTotals(ps), GrandTotal(ps);
    var k := ps[j].recipientType.value;
    TypeTotalsMeaning(ps, k);
    assert k in keys;
    SortedTypeEntryOf(keys, totals, grand, k);
    assert TypeData(ps) == SortDesc(TypeEntries(keys, totals, grand), AmountKey);
    var i :| 0 <= i < |keys| && SortDesc(TypeEntries(keys, totals, grand), AmountKey)[i].recipientType == k;
    assert TypeData(ps)[i].recipientType == k;
  }

  /** `typeData` is sorted by amount, largest first, with one entry per type. */
  lemma TypeDataOrder(ps: seq<Payment>)
    ensures NonIncreasing(TypeData(ps), AmountKey)
    ensures forall i, j :: 0 <= i < j < |TypeData(ps)| ==> TypeData(ps)[i].recipientType != TypeData(ps)[j].recipientType
  {
    var entries := TypeEntries(TypeOrder(ps), TypeTotals(ps), GrandTotal(ps));
    assert TypeData(ps) == SortDesc(entries, AmountKey);
    SortDescSorted(entries, AmountKey);
    SortedTypeEntriesUnique(TypeOrder(ps), TypeTotals(ps), GrandTotal(ps));
  }

  /** Over sorted entries, the percentages sum to the amounts' share of `grand`. */
  lemma SortedTypeShares(keys: seq<string>, totals: map<string, real>, grand: real)
    requires grand != 0.0
    ensures SumOver(SortDesc(TypeEntries(keys, totals, grand), AmountKey), ShareKey)
         == SumOver(SortDesc(TypeEntries(keys, totals, grand), AmountKey), AmountKey) / grand * 100.0
  {
    var entries := TypeEntries(keys, totals, grand);
    var r := SortDesc(entries, AmountKey);
    forall e | e in r ensures ShareKey(e) == AmountKey(e) / grand * 100.0 {
      assert e in multiset(entries);
      var a :| 0 <= a < |entries| && entries[a] == e;
    }
    SumOverPercent(r, AmountKey, ShareKey, grand);
  }

  /** The amounts of `typeData` add up to the amounts of all typed rows. */
  lemma TypeDataAmounts(ps: seq<Payment>)
    ensures SumOver(TypeData(ps), AmountKey) == TypedAmount(ps)
  {
    var keys, totals, grand := TypeOrder(ps), TypeTotals(ps), GrandTotal(ps);
    var entries := TypeEntries(keys, totals, grand);
    SumOverPermutation(TypeData(ps), entries, AmountKey);
    TypeEntriesAmounts(keys, totals, grand);
    GrandTotalIsTypedAmount(ps);
  }

  /** Unless the typed rows add up to zero, the percentages of `typeData` add up
      to exactly 100. */
  lemma TypeDataShares(ps: seq<Payment>)
    requires TypedAmount(ps) != 0.0
    ensures SumOver(TypeData(ps), ShareKey) == 100.0
  {
    var keys, totals, grand := TypeOrder(ps), TypeTotals(ps), GrandTotal(ps);
    GrandTotalIsTypedAmount(ps);
    TypeDataAmounts(ps);
    assert TypeData(ps) == SortDesc(TypeEntries(keys, totals, grand), AmountKey);
    SortedTypeShares(keys, totals, grand);
    WholePercent(grand);
  }

  // ---- Recipients ----

  /** `{ name, amount, type }` of `topRecipients`. */
  datatype Recipient = Recipient(name: string, amount: real, recipientType: string)

  /** `type || '不明'` */
  function TypeLabel(t: Text): string {
    if Present(t) then t.value else UNKNOWN
  }

  /** `name && amount > 0`: the rows that pay a recipient. */
  predicate Qualifies(p: Payment) {
    Present(p.recipient) && AmountOf(p) > 0.0
  }

  predicate PaysTo(p: Payment, n: string) {
    Qualifies(p) && p.recipient.value == n
  }

  predicate UniqueNames(rs: seq<Recipient>) {
    forall i, j :: 0 <= i < j < |rs| ==> rs[i].name != rs[j].name
  }

  /** `topRecipients.find(r => r.name === name)`, as an index. */
  function IndexOfName(rs: seq<Recipient>, n: string): (r: Option<nat>)
    ensures r.Some? ==> r.value < |rs| && rs[r.value].name == n && forall j :: 0 <= j < r.value ==> rs[j].name != n
    ensures r.None? ==> forall j :: 0 <= j < |rs| ==> rs[j].name != n
  {
    if rs == [] then None
    else if rs[0].name == n then Some(0)
    else match IndexOfName(rs[1..], n)
      case None => None
      case Some(i) => Some(i + 1)
  }

  /** One qualifying row: add its amount to the recipient of that name, or
      append a new recipient labelled with this row's type. */
  function AddPayment(rs: seq<Recipient>, p: Payment): (r: seq<Recipient>)
    requires Qualifies(p)
    ensures |rs| <= |r| <= |rs| + 1
    ensures forall i :: 0 <= i < |rs| ==> r[i].name == rs[i].name && r[i].recipientType == rs[i].recipientType
    ensures exists i :: 0 <= i < |r| && r[i].name == p.recipient.value
  {
    var name := p.recipient.value;
    match IndexOfName(rs, name)
    case Some(i) => rs[i := rs[i].(amount := rs[i].amount + AmountOf(p))]
    case None =>
      var added := rs + [Recipient(name, AmountOf(p), TypeLabel(p.recipientType))];
      assert added[|rs|].name == name;
      added
  }

  /** `topRecipients` after the rows. */
  function Recipients(ps: seq<Payment>): seq<Recipient> {
    if ps == [] then []
    else
      var p := ps[|ps| - 1];
      var rs := Recipients(ps[..|ps| - 1]);
      if Qualifies(p) then AddPayment(rs, p) else rs
  }

  /** One recipient per name, each paid a positive amount. */
  predicate ValidRecipients(rs: seq<Recipient>) {
    UniqueNames(rs) && forall i :: 0 <= i < |rs| ==> rs[i].amount > 0.0
  }

  lemma AddPaymentValid(rs: seq<Recipient>, p: Payment)
    requires Qualifies(p) && ValidRecipients(rs)
    ensures ValidRecipients(AddPayment(rs, p))
  {
  }

  /** The recipient list never holds a name twice, and every amount in it is
      positive. */
  lemma {:induction false} RecipientsValid(ps: seq<Payment>)
    ensures ValidRecipients(Recipients(ps))
  {
    if ps != [] {
      RecipientsValid(ps[..|ps| - 1]);
      if Qualifies(ps[|ps| - 1]) {
        AddPaymentValid(Recipients(ps[..|ps| - 1]), ps[|ps| - 1]);
      }
    }
  }

  /** Reference sum: the amounts of the qualifying rows that pay `n`. */
  function PaidTo(ps: seq<Payment>, n: string): real {
    if ps == [] then 0.0
    else PaidTo(ps[..|ps| - 1], n) + (if PaysTo(ps[|ps| - 1], n) then AmountOf(ps[|ps| - 1]) else 0.0)
  }

  /** Row `j` is the first row that pays `n`. */
  predicate FirstPaymentTo(ps: seq<Payment>, n: string, j: int) {
    0 <= j < |ps| && PaysTo(ps[j], n) && forall i :: 0 <= i < j ==> !PaysTo(ps[i], n)
  }

  /** The recipient named `n`, if any. */
  function RecordOf(rs: seq<Recipient>, n: string): (r: Option<Recipient>)
    ensures r.Some? ==> r.value in rs && r.value.name == n
    ensures r.None? ==> forall i :: 0 <= i < |rs| ==> rs[i].name != n
  {
    match IndexOfName(rs, n)
    case None => None
    case Some(i) => Some(rs[i])
  }

  lemma IndexOfNameSameNames(a: seq<Recipient>, b: seq<Recipient>, n: string)
    requires |a| == |b| && forall i :: 0 <= i < |a| ==> a[i].name == b[i].name
    ensures IndexOfName(a, n) == IndexOfName(b, n)
  {
    var x, y := IndexOfName(a, n), IndexOfName(b, n);
    if x.Some? && y.Some? {
      assert !(x.value < y.value) && !(y.value < x.value);
    }
  }

  lemma IndexOfNameAppend(rs: seq<Recipient>, x: Recipient, n: string)
    ensures IndexOfName(rs + [x], n) ==
      if IndexOfName(rs, n).Some? then IndexOfName(rs, n)
      else if x.name == n then Some(|rs|) else None
  {
    var a, b := IndexOfName(rs + [x], n), IndexOfName(rs, n);
    assert forall i :: 0 <= i < |rs| ==> (rs + [x])[i] == rs[i];
    if b.Some? {
      assert (rs + [x])[b.value].name == n;
      assert a.Some? && !(a.value < b.value) && !(b.value < a.value);
    } else if x.name == n {
      assert (rs + [x])[|rs|].name == n;
    }
  }

  /** How one qualifying row changes the recipient named `n`. */
  lemma AddPaymentRecord(rs: seq<Recipient>, p: Payment, n: string)
    requires Qualifies(p)
    ensures RecordOf(AddPayment(rs, p), n) ==
      if p.recipient.value != n then RecordOf(rs, n)
      else if RecordOf(rs, n).Some? then Some(RecordOf(rs, n).value.(amount := RecordOf(rs, n).value.amount + AmountOf(p)))
      else Some(Recipient(n, AmountOf(p), TypeLabel(p.recipientType)))
  {
    var name := p.recipient.value;
    var r := AddPayment(rs, p);
    match IndexOfName(rs, name)
    case Some(i) =>
      IndexOfNameSameNames(rs, r, n);
    case None =>
      IndexOfNameAppend(rs, Recipient(name, AmountOf(p), TypeLabel(p.recipientType)), n);
  }

  /** A recipient named `n` exists exactly when some row pays `n`; its amount is
      the sum of those rows' amounts, and its type is the label of the first of
      them (later rows never change it). */
  lemma {:induction false} RecipientRecord(ps: seq<Payment>, n: string)
    ensures RecordOf(Recipients(ps), n).Some? <==> exists j :: 0 <= j < |ps| && PaysTo(ps[j], n)
    ensures RecordOf(Recipients(ps), n).None? ==> PaidTo(ps, n) == 0.0
    ensures RecordOf(Recipients(ps), n).Some? ==>
      var r := RecordOf(Recipients(ps), n).value;
      && r.name == n
      && r.amount == PaidTo(ps, n)
      && exists j :: FirstPaymentTo(ps, n, j) && r.recipientType == TypeLabel(ps[j].recipientType)
  {
    if ps != [] {
      var init := ps[..|ps| - 1];
      var p := ps[|ps| - 1];
      RecipientRecord(init, n);
      var rs0 := Recipients(init);
      assert forall j :: 0 <= j < |init| ==> ps[j] == init[j];
      if Qualifies(p) {
        AddPaymentRecord(rs0, p, n);
      }
      if RecordOf(rs0, n).Some? {
        var j :| FirstPaymentTo(init, n, j) && RecordOf(rs0, n).value.recipientType == TypeLabel(init[j].recipientType);
        assert FirstPaymentTo(ps, n, j);
      } else if PaysTo(p, n) {
        assert FirstPaymentTo(ps, n, |init|);
      }
    }
  }

  /** In a list without repeated names, looking up a member's name finds that member. */
  lemma RecordOfMember(rs: seq<Recipient>, i: int)
    requires UniqueNames(rs) && 0 <= i < |rs|
    ensures RecordOf(rs, rs[i].name) == Some(rs[i])
  {
    var k := IndexOfName(rs, rs[i].name);
    assert k.Some? && !(k.value < i) && !(i < k.value);
  }

  /** Each recipient in `topRecipients` is paid the sum of its rows and carries
      the type of its first row. */
  lemma RecipientEntry(ps: seq<Payment>, i: int)
    requires 0 <= i < |Recipients(ps)|
    ensures Recipients(ps)[i].amount == PaidTo(ps, Recipients(ps)[i].name)
    ensures exists j :: FirstPaymentTo(ps, Recipients(ps)[i].name, j)
                        && Recipients(ps)[i].recipientType == TypeLabel(ps[j].recipientType)
  {
    var rs := Recipients(ps);
    RecipientsValid(ps);
    RecordOfMember(rs, i);
    RecipientRecord(ps, rs[i].name);
  }

  /** Every qualifying row has its recipient in `topRecipients`. */
  lemma RecipientsCover(ps: seq<Payment>, j: int)
    requires 0 <= j < |ps| && Qualifies(ps[j])
    ensures exists i :: 0 <= i < |Recipients(ps)| && Recipients(ps)[i].name == ps[j].recipient.value
  {
    var rs := Recipients(ps);
    var n := ps[j].recipient.value;
    assert PaysTo(ps[j], n);
    RecipientRecord(ps, n);
    var r := RecordOf(rs, n).value;
    var i :| 0 <= i < |rs| && rs[i] == r;
  }

  // ---- The fifty largest recipients ----

  const TOP_RECIPIENTS := 50

  /** A recipient whose amount `Math.round` has made a whole number. */
  datatype RankedRecipient = RankedRecipient(name: string, amount: int, recipientType: string)

  /** `Math.round`: the nearest integer, halves rounded up. */
  function Round(x: real): (n: int)
    ensures x - 0.5 < n as real <= x + 0.5
  {
    (x + 0.5).Floor
  }

  lemma RoundMonotone(x: real, y: real)
    requires y <= x
    ensures Round(y) <= Round(x)
  {
  }

  function RecipientAmount(r: Recipient): real { r.amount }

  function RecipientName(r: Recipient): string { r.name }

  function Ranked(r: Recipient): RankedRecipient {
    RankedRecipient(r.name, Round(r.amount), r.recipientType)
  }

  /** `sortedRecipients`: the recipients sorted by amount, largest first, cut to
      fifty, with amounts rounded. */
  function TopRecipients(rs: seq<Recipient>): (top: seq<RankedRecipient>)
    ensures |top| == Min(TOP_RECIPIENTS, |rs|)
    ensures forall i :: 0 <= i < |top| ==> top[i] == Ranked(SortDesc(rs, RecipientAmount)[i])
  {
    var s := SortDesc(rs, RecipientAmount);
    var kept := s[..Min(TOP_RECIPIENTS, |s|)];
    seq(|kept|, i requires 0 <= i < |kept| => Ranked(kept[i]))
  }

  /** Each listed recipient is a recipient of the input, its amount rounded. */
  lemma TopRecipientFrom(rs: seq<Recipient>, i: nat)
    requires i < |TopRecipients(rs)|
    ensures exists r :: r in rs && TopRecipients(rs)[i] == Ranked(r)
  {
    var s := SortDesc(rs, RecipientAmount);
    assert s[i] in multiset(rs);
    assert s[i] in rs && TopRecipients(rs)[i] == Ranked(s[i]);
  }

  /** The list is in non-increasing order of rounded amount, and no name occurs
      twice. */
  lemma TopRecipientsOrder(rs: seq<Recipient>)
    requires UniqueNames(rs)
    ensures forall i, j :: 0 <= i < j < |TopRecipients(rs)| ==>
      TopRecipients(rs)[i].amount >= TopRecipients(rs)[j].amount
      && TopRecipients(rs)[i].name != TopRecipients(rs)[j].name
  {
    var s := SortDesc(rs, RecipientAmount);
    var top := TopRecipients(rs);
    SortDescSorted(rs, RecipientAmount);
    assert forall i, j :: 0 <= i < j < |rs| ==> RecipientName(rs[i]) != RecipientName(rs[j]);
    PermutationNames(rs, s, RecipientName);
    forall i, j | 0 <= i < j < |top| ensures top[i].amount >= top[j].amount && top[i].name != top[j].name {
      RoundMonotone(s[i].amount, s[j].amount);
      assert RecipientName(s[i]) != RecipientName(s[j]);
    }
  }

  /** A recipient left out of the list is paid no more, after rounding, than
      any listed one. */
  lemma TopRecipientsCutoff(rs: seq<Recipient>, x: Recipient)
    requires x in rs
    requires forall i :: 0 <= i < |TopRecipients(rs)| ==> TopRecipients(rs)[i].name != x.name
    ensures forall i :: 0 <= i < |TopRecipients(rs)| ==> Round(x.amount) <= TopRecipients(rs)[i].amount
  {
    var s := SortDesc(rs, RecipientAmount);
    var k := Min(TOP_RECIPIENTS, |s|);
    var kept := s[..k];
    var top := TopRecipients(rs);
    SortDescSorted(rs, RecipientAmount);
    assert forall i :: 0 <= i < |kept| ==> kept[i] != x by {
      forall i | 0 <= i < |kept| ensures kept[i] != x {
        assert top[i].name == kept[i].name;
      }
    }
    assert x in multiset(s) - multiset(kept);
    PrefixDominates(s, RecipientAmount, k, x);
    forall i | 0 <= i < |top| ensures Round(x.amount) <= top[i].amount {
      RoundMonotone(s[i].amount, x.amount);
    }
  }

  // ---- Sampling and the whole spending aggregate ----

  const SAMPLE_SIZE := 50000

  /** `sampleSize`: at most fifty thousand rows. */
  function SampleSize(n: nat): nat { Min(SAMPLE_SIZE, n) }

  /** The first `sampleSize` rows of the randomly reordered table. */
  function Sample(shuffled: seq<Payment>): (r: seq<Payment>)
    ensures |r| == Min(SAMPLE_SIZE, |shuffled|)
    ensures multiset(r) <= multiset(shuffled)
  {
    assert shuffled == shuffled[..SampleSize(|shuffled|)] + shuffled[SampleSize(|shuffled|)..];
    shuffled[..SampleSize(|shuffled|)]
  }

  /** Taken from a reordering of the table, the sample has `min(50000, n)` rows,
      all drawn from the table, and it is the whole table when that is small. */
  lemma SampleFacts(data: seq<Payment>, shuffled: seq<Payment>)
    requires multiset(shuffled) == multiset(data)
    ensures |Sample(shuffled)| == Min(SAMPLE_SIZE, |data|)
    ensures multiset(Sample(shuffled)) <= multiset(data)
    ensures |data| <= SAMPLE_SIZE ==> multiset(Sample(shuffled)) == multiset(data)
  {
    assert |shuffled| == |multiset(shuffled)| == |data|;
    assert shuffled == Sample(shuffled) + shuffled[SampleSize(|shuffled|)..];
  }

  /** `spendingMetrics` */
  datatype SpendingMetrics = SpendingMetrics(typeDistribution: seq<TypeAmount>, topRecipients: seq<RankedRecipient>)

  function SpendingOf(ps: seq<Payment>): (m: SpendingMetrics)
    ensures |m.typeDistribution| <= |ps|
    ensures |m.topRecipients| <= TOP_RECIPIENTS
  {
    SpendingMetrics(TypeData(ps), TopRecipients(Recipients(ps)))
  }

  /** What row `i` does to the type totals and their order. */
  lemma TypeStep(ps: seq<Payment>, i: nat)
    requires i < |ps|
    ensures TypeTotals(ps[..i + 1]) == AddTypeAmount(TypeTotals(ps[..i]), ps[i])
    ensures TypeOrder(ps[..i + 1]) ==
      TypeOrder(ps[..i]) + if Present(ps[i].recipientType) && ps[i].recipientType.value !in TypeTotals(ps[..i])
                           then [ps[i].recipientType.value] else []
  {
    assert ps[..i + 1][..i] == ps[..i];
  }

  /** What row `i` does to the recipient list. */
  lemma RecipientStep(ps: seq<Payment>, i: nat)
    requires i < |ps|
    ensures Recipients(ps[..i + 1]) ==
      if Qualifies(ps[i]) then AddPayment(Recipients(ps[..i]), ps[i]) else Recipients(ps[..i])
  {
    assert ps[..i + 1][..i] == ps[..i];
  }

  /** `if (type) typeDistribution[type] = (typeDistribution[type] || 0) + amount`,
      together with the key order the object keeps. */
  method AddType(m: map<string, real>, keys: seq<string>, row: Payment)
    returns (m': map<string, real>, keys': seq<string>)
    ensures m' == AddTypeAmount(m, row)
    ensures keys' == keys + if Present(row.recipientType) && row.recipientType.value !in m then [row.recipientType.value] else []
  {
    m', keys' := m, keys;
    var recipientType := row.recipientType;
    if Present(recipientType) {
      if recipientType.value !in m {
        keys' := keys + [recipientType.value];
      }
      m' := m[recipientType.value := Lookup(m, recipientType.value) + AmountOf(row)];
    }
  }

  /** `topRecipients.find(r => r.name === name)`, then either
      `existingRecipient.amount += amount` or `topRecipients.push(...)`. */
  method AddRecipient(rs: seq<Recipient>, row: Payment) returns (r: seq<Recipient>)
    requires Qualifies(row)
    ensures r == AddPayment(rs, row)
  {
    var name, amount := row.recipient.value, AmountOf(row);
    var existing := IndexOfName(rs, name);
    if existing.Some? {
      var j := existing.value;
      r := rs[j := rs[j].(amount := rs[j].amount + amount)];
    } else {
      r := rs + [Recipient(name, amount, TypeLabel(row.recipientType))];
    }
  }

  /** The pass of `processSpendingData` over the rows: it fills the type totals,
      their key order and the recipient list. */
  method AccumulateSpending(ps: seq<Payment>)
    returns (typeDistribution: map<string, real>, typeKeys: seq<string>, topRecipients: seq<Recipient>)
    ensures typeDistribution == TypeTotals(ps)
    ensures typeKeys == TypeOrder(ps)
    ensures topRecipients == Recipients(ps)
  {
    typeDistribution := map[];
    typeKeys := [];
    topRecipients := [];
    for i := 0 to |ps|
      invariant typeDistribution == TypeTotals(ps[..i])
      invariant typeKeys == TypeOrder(ps[..i])
      invariant topRecipients == Recipients(ps[..i])
    {
      var row := ps[i];
      TypeStep(ps, i);
      RecipientStep(ps, i);
      typeDistribution, typeKeys := AddType(typeDistribution, typeKeys, row);
      if Present(row.recipient) && AmountOf(row) > 0.0 {
        topRecipients := AddRecipient(topRecipients, row);
      }
    }
    assert ps[..|ps|] == ps;
  }

  /** `processSpendingData`: the pass over the rows, then `typeData` and the
      fifty largest recipients. */
  method ProcessSpendingData(ps: seq<Payment>) returns (metrics: SpendingMetrics)
    ensures metrics == SpendingOf(ps)
  {
    var typeDistribution, typeKeys, topRecipients := AccumulateSpending(ps);
    var grand := SumOver(typeKeys, Weights(typeDistribution));
    var typeData := SortDesc(TypeEntries(typeKeys, typeDistribution, grand), AmountKey);
    metrics := SpendingMetrics(typeData, TopRecipients(topRecipients));
  }
}
