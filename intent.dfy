// The query intent classifier: a cascade of first-match keyword tests that turns a
// question into the intent record the search and the answer stages read.
module Intent {
  import opened Wrappers
  import opened Text

  datatype DataType = BalanceSheet | IncomeStatement | CashFlow | UnknownType

  function DataTypeName(d: DataType): string {
    match d
    case BalanceSheet => "balance_sheet"
    case IncomeStatement => "income_statement"
    case CashFlow => "cash_flow"
    case UnknownType => "unknown"
  }

  datatype Granularity = Overview | Specific | MetricLevel

  function GranularityName(g: Granularity): string {
    match g
    case Overview => "overview"
    case Specific => "specific"
    case MetricLevel => "metric"
  }

  /** A list of captured year groups, a relative-time label, or nothing. */
  datatype TimeFocus = NoFocus | Years(groups: seq<string>) | Relative(kind: string)

  datatype QueryIntent = QueryIntent(
    dataType: DataType,
    granularity: Granularity,
    timeFocus: TimeFocus,
    comparison: bool,
    calculation: bool,
    originalQuery: string)

  // ---- keyword tables, in the order the source iterates them ----

  const BalanceSheetTerms: seq<string> :=
    ["资产负债表", "资产", "负债", "权益", "balance sheet", "asset", "liability", "equity"]
  const IncomeStatementTerms: seq<string> :=
    ["损益表", "利润表", "收入", "支出", "盈利", "利润", "income statement", "profit", "revenue", "expense"]
  const CashFlowTerms: seq<string> :=
    ["现金流量表", "现金流", "经营活动", "投资活动", "筹资活动", "cash flow", "operating", "investing", "financing"]

  const FinancialTerms: seq<(DataType, seq<string>)> :=
    [(BalanceSheet, BalanceSheetTerms), (IncomeStatement, IncomeStatementTerms), (CashFlow, CashFlowTerms)]

  const OverviewTerms: seq<string> := ["整体", "概览", "概述", "总体", "全部", "overview", "summary", "entire"]
  const SpecificTerms: seq<string> := ["具体", "详细", "明细", "详情", "specific", "detail", "detailed"]
  const MetricTerms: seq<string> := ["指标", "比率", "占比", "比例", "百分比", "ratio", "percentage", "proportion"]

  const GranularityTerms: seq<(Granularity, seq<string>)> :=
    [(Overview, OverviewTerms), (Specific, SpecificTerms), (MetricLevel, MetricTerms)]

  /** Question phrases that make an otherwise unclassified query metric-level. */
  const QuestionTerms: seq<string> := ["多少", "多大", "多么", "是什么", "how much", "what is"]

  const ComparisonTerms: seq<string> :=
    ["对比", "比较", "差异", "变化", "增长", "下降", "compare", "comparison", "difference", "growth", "decrease"]

  /** The comparison patterns after `比.*多` and `比.*少`; all are literal text. */
  const ComparisonLiterals: seq<string> :=
    ["高于", "低于", "大于", "小于", "超过", "不如", "胜过", "不及", "增长", "下降",
     "rise", "drop", "higher than", "lower than", "more than", "less than"]

  const CalculationTerms: seq<string> :=
    ["计算", "求", "多少", "总计", "总额", "总数", "calculate", "compute", "sum", "total"]

  /** The calculation patterns; all are literal text. */
  const CalculationLiterals: seq<string> :=
    ["百分之", "占比", "比例", "总和", "平均", "增长率", "下降率", "平均值", "总计",
     "percentage", "ratio", "sum", "average", "growth rate", "decline rate", "total"]

  const RelativeTimeTerms: seq<(string, seq<string>)> :=
    [("current", ["今年", "本年", "当前", "现在", "current", "this year"]),
     ("previous", ["去年", "上年", "上一年", "last year", "previous year"]),
     ("next", ["明年", "下一年", "next year"]),
     ("recent", ["近年", "最近", "近期", "recent", "lately"])]

  // ---- detectors ----

  /** The first data type, in table order, with a term in the query; `unknown` otherwise. */
  function DetectDataType(q: string): (d: DataType)
    ensures d == BalanceSheet <==> ContainsAny(q, BalanceSheetTerms)
    ensures d == IncomeStatement <==> !ContainsAny(q, BalanceSheetTerms) && ContainsAny(q, IncomeStatementTerms)
    ensures d == CashFlow <==>
      !ContainsAny(q, BalanceSheetTerms) && !ContainsAny(q, IncomeStatementTerms) && ContainsAny(q, CashFlowTerms)
  {
    assert FinancialTerms[0].1 == BalanceSheetTerms && FinancialTerms[1].1 == IncomeStatementTerms
           && FinancialTerms[2].1 == CashFlowTerms;
    match FirstMatch(FinancialTerms, q)
    case Some(k) => FinancialTerms[k].0
    case None => UnknownType
  }

  /** The first granularity group with a term in the query, else metric for a question
      such as "多少" or "how much", else specific. */
  function DetectGranularity(q: string): (g: Granularity)
    ensures g == Overview <==> ContainsAny(q, OverviewTerms)
    ensures g == Specific <==>
      !ContainsAny(q, OverviewTerms)
      && (ContainsAny(q, SpecificTerms) || (!ContainsAny(q, MetricTerms) && !ContainsAny(q, QuestionTerms)))
    ensures g == MetricLevel <==>
      !ContainsAny(q, OverviewTerms) && !ContainsAny(q, SpecificTerms)
      && (ContainsAny(q, MetricTerms) || ContainsAny(q, QuestionTerms))
  {
    assert GranularityTerms[0].1 == OverviewTerms && GranularityTerms[1].1 == SpecificTerms
           && GranularityTerms[2].1 == MetricTerms;
    match FirstMatch(GranularityTerms, q)
    case Some(k) => GranularityTerms[k].0
    case None => if ContainsAny(q, QuestionTerms) then MetricLevel else Specific
  }

  /** The year pattern first, on the query as typed; then the first relative-time group
      with a term in it. */
  function DetectTimeFocus(q: string): (t: TimeFocus)
    ensures t.Years? <==> exists j :: 0 <= j && YearAt(q, j)
    ensures t.Years? ==> |t.groups| > 0 && forall k :: 0 <= k < |t.groups| ==> t.groups[k] in ["19", "20"]
    ensures t.Years? ==> t.groups == YearGroups(q)
    ensures t.Relative? ==> exists k :: 0 <= k < |RelativeTimeTerms| && t.kind == RelativeTimeTerms[k].0
                                        && ContainsAny(q, RelativeTimeTerms[k].1)
                                        && forall j :: 0 <= j < k ==> !ContainsAny(q, RelativeTimeTerms[j].1)
    ensures t == NoFocus <==>
      (forall j :: 0 <= j ==> !YearAt(q, j))
      && forall k :: 0 <= k < |RelativeTimeTerms| ==> !ContainsAny(q, RelativeTimeTerms[k].1)
  {
    var years := YearGroups(q);
    if |years| > 0 then Years(years)
    else
      match FirstMatch(RelativeTimeTerms, q)
      case Some(k) => Relative(RelativeTimeTerms[k].0)
      case None => NoFocus
  }

  /** A year focus lists the captured group of every match of the leftmost
      non-overlapping chain of year matches in the query, in order. */
  lemma TimeFocusYears(q: string)
    ensures DetectTimeFocus(q).Years? ==>
              GroupsAt(DetectTimeFocus(q).groups, q, YearStartsFrom(q, 0)) && YearChain(q, 0, YearStartsFrom(q, 0))
  {
    YearGroupsFindall(q, 0);
  }

  predicate NoNewline(s: string, lo: int, hi: int)
    requires 0 <= lo <= hi <= |s|
  {
    forall m :: lo <= m < hi ==> s[m] != '\n'
  }

  /** Some `a` before position `k` is not followed by a newline up to `k`. */
  ghost predicate OpenAt(s: string, a: char, k: int)
    requires 0 <= k <= |s|
  {
    exists i :: 0 <= i < k && s[i] == a && NoNewline(s, i + 1, k)
  }

  /** `re.search('a.*b', s)` for two characters: a `b` after an `a` on the same line. */
  ghost predicate FollowsInLine(s: string, a: char, b: char, k: int) {
    exists i, j :: 0 <= i < j < |s| && k <= j && s[i] == a && s[j] == b && NoNewline(s, i + 1, j)
  }

  /** The left-to-right scan behind that search, from position `k`; `open` records
      whether an `a` is pending on the current line. */
  function SearchPair(s: string, a: char, b: char, k: nat, open: bool): (r: bool)
    requires k <= |s| && (open <==> OpenAt(s, a, k))
    ensures r <==> FollowsInLine(s, a, b, k)
    decreases |s| - k
  {
    if k == |s| then false
    else if open && s[k] == b then
      var i :| 0 <= i < k && s[i] == a && NoNewline(s, i + 1, k);
      assert FollowsInLine(s, a, b, k);
      true
    else
      var open' := s[k] == a || (open && s[k] != '\n');
      OpenStep(s, a, k);
      var r := SearchPair(s, a, b, k + 1, open');
      assert FollowsInLine(s, a, b, k) ==> FollowsInLine(s, a, b, k + 1) by {
        if FollowsInLine(s, a, b, k) {
          var i, j :| 0 <= i < j < |s| && k <= j && s[i] == a && s[j] == b && NoNewline(s, i + 1, j);
          if j == k {
            assert OpenAt(s, a, k);
            assert false;
          }
        }
      }
      r
  }

  lemma OpenStep(s: string, a: char, k: nat)
    requires k < |s|
    ensures OpenAt(s, a, k + 1) <==> s[k] == a || (OpenAt(s, a, k) && s[k] != '\n')
  {
    if s[k] == a {
      assert NoNewline(s, k + 1, k + 1);
    }
    if OpenAt(s, a, k) && s[k] != '\n' {
      var i :| 0 <= i < k && s[i] == a && NoNewline(s, i + 1, k);
      assert NoNewline(s, i + 1, k + 1);
    }
    if OpenAt(s, a, k + 1) && s[k] != a {
      var i :| 0 <= i < k + 1 && s[i] == a && NoNewline(s, i + 1, k + 1);
      assert NoNewline(s, i + 1, k);
    }
  }

  function SearchPairIn(s: string, a: char, b: char): (r: bool)
    ensures r <==> FollowsInLine(s, a, b, 0)
  {
    SearchPair(s, a, b, 0, false)
  }

  /** A comparison term, `比` followed on the same line by `多` or `少`, or a literal
      comparison phrase. */
  function DetectComparison(q: string): (c: bool)
    ensures c <==> ContainsAny(q, ComparisonTerms) || FollowsInLine(q, '比', '多', 0)
                   || FollowsInLine(q, '比', '少', 0) || ContainsAny(q, ComparisonLiterals)
  {
    ContainsAny(q, ComparisonTerms)
    || SearchPairIn(q, '比', '多') || SearchPairIn(q, '比', '少')
    || ContainsAny(q, ComparisonLiterals)
  }

  function DetectCalculation(q: string): bool {
    ContainsAny(q, CalculationTerms) || ContainsAny(q, CalculationLiterals)
  }

  /** `analyze_intent`: everything but the time focus is read from the lowered query. */
  function AnalyzeIntent(query: string): (r: QueryIntent)
    ensures r.originalQuery == query
    ensures r.timeFocus == DetectTimeFocus(query)
    ensures var lower := ToLower(query);
            && r.dataType == DetectDataType(lower) && r.granularity == DetectGranularity(lower)
            && r.comparison == DetectComparison(lower) && r.calculation == DetectCalculation(lower)
  {
    var lower := ToLower(query);
    QueryIntent(DetectDataType(lower), DetectGranularity(lower), DetectTimeFocus(query),
                DetectComparison(lower), DetectCalculation(lower), query)
  }

  // ---- properties ----

  /** Any query mentioning "多少" or "total", in any letter case, asks for a calculation. */
  lemma CalculationKeywords(q: string)
    requires Contains(ToLower(q), "多少") || Contains(ToLower(q), "total")
    ensures AnalyzeIntent(q).calculation
  {
    assert CalculationTerms[2] == "多少" && CalculationTerms[9] == "total";
  }

  /** A query such as "2022年的总资产是多少?" gets a year focus: the four digits start
      with "20", and the captured group is reported. */
  lemma YearQueryFocus(q: string, j: nat)
    requires YearAt(q, j)
    ensures AnalyzeIntent(q).timeFocus.Years?
    ensures forall k :: 0 <= k < |AnalyzeIntent(q).timeFocus.groups| ==>
              AnalyzeIntent(q).timeFocus.groups[k] in ["19", "20"]
  {
  }

  /** Letter case changes only the stored query text and the time focus, which is matched
      against the query as typed. */
  lemma IntentIgnoresCase(q: string)
    ensures AnalyzeIntent(ToLower(q)).dataType == AnalyzeIntent(q).dataType
    ensures AnalyzeIntent(ToLower(q)).granularity == AnalyzeIntent(q).granularity
    ensures AnalyzeIntent(ToLower(q)).comparison == AnalyzeIntent(q).comparison
    ensures AnalyzeIntent(ToLower(q)).calculation == AnalyzeIntent(q).calculation
  {
    ToLowerIdempotent(q);
  }

  /** A query with neither granularity terms nor question phrases is specific. */
  lemma DefaultGranularity(q: string)
    requires forall k :: 0 <= k < |GranularityTerms| ==> !ContainsAny(ToLower(q), GranularityTerms[k].1)
    requires !ContainsAny(ToLower(q), QuestionTerms)
    ensures AnalyzeIntent(q).granularity == Specific
  {
    assert GranularityTerms[0].1 == OverviewTerms && GranularityTerms[1].1 == SpecificTerms
           && GranularityTerms[2].1 == MetricTerms;
  }
}
