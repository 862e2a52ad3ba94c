/** The four loaded tables of a project-review extract, one datatype per row kind,
    and the first-match join from a project id into the basic-information table.

    A CSV cell is `Text`: `None` when the row has no such column (the parser then
    leaves the property undefined), `Some(s)` otherwise. The aggregators test cells
    with JavaScript truthiness, under which only the empty string is falsy, so a
    cell is `Present` when it is `Some` of a non-empty string. Numeric cells are
    `Option<real>`: `None` for an empty or missing cell. */
module Rows {

  datatype Option<+T> = None | Some(value: T)

  type Text = Option<string>

  predicate Present(t: Text) { t.Some? && t.value != "" }

  /** Sentinel written where a join finds no basic-information row (不明, "unknown"). */
  const UNKNOWN := "不明"

  // Project categories (事業区分).
  const NEW_PROJECT := "新規開始事業"
  const ENDING_PROJECT := "終了事業"

  // Indicator kinds (種別).
  const ACTIVITY := "アクティビティ"
  const OUTPUT := "アウトプット"
  const OUTCOME := "アウトカム"

  // Verdicts of the administrative review team (行政事業レビュー推進チームの所見).
  const AS_IS := "現状通り"
  const PARTIAL_IMPROVEMENT := "事業内容の一部改善"
  const FUNDAMENTAL_IMPROVEMENT := "事業全体の抜本的な改善"
  const SCHEDULED_END := "終了予定"
  const ABOLISHED := "廃止"

  /** One of the two verdicts that ask for an improvement, compared exactly. */
  predicate IsImprovementVerdict(verdict: Text) {
    verdict == Some(PARTIAL_IMPROVEMENT) || verdict == Some(FUNDAMENTAL_IMPROVEMENT)
  }

  /** A row of the basic-information table (基本情報_事業概要等). */
  datatype BasicInfo = BasicInfo(
    projectId: Text,   // 予算事業ID
    ministry: Text,    // 政策所管府省庁
    category: Text,    // 事業区分
    expense: Text,     // 主要経費
    name: Text)        // 事業名

  /** A row of the performance table (効果発現経路_目標・実績). */
  datatype Indicator = Indicator(
    projectId: Text,       // 予算事業ID
    kind: Text,            // 種別（アクティビティ・アウトプット・アウトカム）
    target: Option<real>,  // 2023年度目標値
    actual: Option<real>)  // 2023年度実績値

  /** A row of the review table (点検・評価). */
  datatype Evaluation = Evaluation(
    projectId: Text,    // 予算事業ID
    verdict: Text,      // 行政事業レビュー推進チームの所見
    improvement: Text)  // 所見を踏まえた改善点／概算要求における反映状況

  /** A row of the spending table (支出先_支出情報). */
  datatype Payment = Payment(
    contractMethod: Text,  // 契約方式等
    recipient: Text,       // 支出先名
    recipientType: Text,   // 法人種別
    amount: Option<real>)  // 支出先の合計支出額, as parsed by parseFloat

  function MinistryColumn(basic: seq<BasicInfo>): (c: seq<Text>)
    ensures |c| == |basic| && forall i :: 0 <= i < |basic| ==> c[i] == basic[i].ministry
  {
    seq(|basic|, i requires 0 <= i < |basic| => basic[i].ministry)
  }

  function CategoryColumn(basic: seq<BasicInfo>): (c: seq<Text>)
    ensures |c| == |basic| && forall i :: 0 <= i < |basic| ==> c[i] == basic[i].category
  {
    seq(|basic|, i requires 0 <= i < |basic| => basic[i].category)
  }

  function ExpenseColumn(basic: seq<BasicInfo>): (c: seq<Text>)
    ensures |c| == |basic| && forall i :: 0 <= i < |basic| ==> c[i] == basic[i].expense
  {
    seq(|basic|, i requires 0 <= i < |basic| => basic[i].expense)
  }

  function VerdictColumn(evals: seq<Evaluation>): (c: seq<Text>)
    ensures |c| == |evals| && forall i :: 0 <= i < |evals| ==> c[i] == evals[i].verdict
  {
    seq(|evals|, i requires 0 <= i < |evals| => evals[i].verdict)
  }

  function ContractMethodColumn(payments: seq<Payment>): (c: seq<Text>)
    ensures |c| == |payments| && forall i :: 0 <= i < |payments| ==> c[i] == payments[i].contractMethod
  {
    seq(|payments|, i requires 0 <= i < |payments| => payments[i].contractMethod)
  }

  /** `basicInfoData.find(item => item['予算事業ID'] === id)`: the first row with
      that id, compared with strict equality (an undefined id matches an undefined id). */
  function FindProject(basic: seq<BasicInfo>, id: Text): (r: Option<BasicInfo>)
    ensures r.None? <==> forall i :: 0 <= i < |basic| ==> basic[i].projectId != id
    ensures r.Some? ==> exists i :: 0 <= i < |basic| && basic[i] == r.value && basic[i].projectId == id
                                    && forall j :: 0 <= j < i ==> basic[j].projectId != id
  {
    if basic == [] then None
    else if basic[0].projectId == id then Some(basic[0])
    else
      var r := FindProject(basic[1..], id);
      assert r.Some? ==> exists i :: 0 <= i < |basic[1..]| && basic[1..][i] == r.value && basic[1..][i].projectId == id
                                    && forall j :: 0 <= j < i ==> basic[1..][j].projectId != id;
      assert forall i :: 1 <= i < |basic| ==> basic[i] == basic[1..][i - 1];
      r
  }

  /** The joined name and ministry of an id: those of the first row with that
      id, or 不明 when no row has it. */
  lemma JoinedFields(basic: seq<BasicInfo>, id: Text)
    ensures (forall i :: 0 <= i < |basic| ==> basic[i].projectId != id) ==>
      ProjectNameOf(FindProject(basic, id)) == Some(UNKNOWN) && MinistryOf(FindProject(basic, id)) == Some(UNKNOWN)
    ensures forall i :: 0 <= i < |basic| && basic[i].projectId == id && (forall j :: 0 <= j < i ==> basic[j].projectId != id) ==>
      ProjectNameOf(FindProject(basic, id)) == basic[i].name && MinistryOf(FindProject(basic, id)) == basic[i].ministry
  {
  }

  /** `basicInfo ? basicInfo['事業名'] : '不明'` */
  function ProjectNameOf(info: Option<BasicInfo>): Text {
    if info.Some? then info.value.name else Some(UNKNOWN)
  }

  /** `basicInfo ? basicInfo['政策所管府省庁'] : '不明'` */
  function MinistryOf(info: Option<BasicInfo>): Text {
    if info.Some? then info.value.ministry else Some(UNKNOWN)
  }
}
