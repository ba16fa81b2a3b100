// The semantic annotator: labels an extracted table with a type, writes a description,
// pulls out the key financial figures and splits the surrounding page text.
module Semantic {
  import opened Wrappers
  import opened Text
  import opened Tables

  // ---- table type ----

  const BalanceSheetType: string := "financial_balance_sheet"
  const IncomeStatementType: string := "financial_income_statement"
  const CashFlowType: string := "financial_cash_flow"
  const ComparisonType: string := "comparison_table"
  const GenericType: string := "generic_table"

  const TitleGroups: seq<(string, seq<string>)> := [
    (BalanceSheetType, ["资产负债", "balance sheet"]),
    (IncomeStatementType, ["收益", "income", "profit", "loss", "损益"]),
    (CashFlowType, ["现金流", "cash flow"])
  ]

  const ColumnGroups: seq<(string, seq<string>)> := [
    (BalanceSheetType, ["资产", "负债", "equity", "asset", "liability"]),
    (IncomeStatementType, ["revenue", "expense", "收入", "支出", "成本", "利润"]),
    (CashFlowType, ["cash", "flow", "现金", "流量"])
  ]

  /** The title as the annotator reads it: `table_data.get('title', '')`, with `None`
      and a missing key both read as no title. */
  function TitleOf(d: TableData): string {
    if d.title.Some? then d.title.value else ""
  }

  function LowerAll(ss: seq<string>): (r: seq<string>)
    ensures |r| == |ss| && forall k :: 0 <= k < |ss| ==> r[k] == ToLower(ss[k])
  {
    seq(|ss|, k requires 0 <= k < |ss| => ToLower(ss[k]))
  }

  /** The lowered column names joined by spaces. */
  function ColumnText(g: Frame): string {
    Join(LowerAll(g.columns), " ")
  }

  /** `_classify_table_type`: title keywords first, then column keywords, each in the
      order balance sheet, income statement, cash flow; then two or more year matches
      in the column names make a comparison table; otherwise a generic table. */
  function ClassifyTableType(g: Frame, title: string): (r: string)
    ensures r in [BalanceSheetType, IncomeStatementType, CashFlowType, ComparisonType, GenericType]
  {
    match FirstMatch(TitleGroups, ToLower(title))
    case Some(k) => TitleGroups[k].0
    case None =>
      match FirstMatch(ColumnGroups, ColumnText(g))
      case Some(k) => ColumnGroups[k].0
      case None => if |YearGroups(ColumnText(g))| >= 2 then ComparisonType else GenericType
  }

  /** Some keyword of one of the groups occurs in `s`. */
  predicate AnyGroupMatches(groups: seq<(string, seq<string>)>, s: string) {
    exists k :: 0 <= k < |groups| && ContainsAny(s, groups[k].1)
  }

  predicate IsFinancialType(t: string) {
    t in [BalanceSheetType, IncomeStatementType, CashFlowType]
  }

  /** The type is a financial statement exactly when a title or column keyword occurs;
      it is a comparison table exactly when none does and the column names hold two
      year matches; a title keyword overrides any column keyword; and a title naming a
      balance sheet always gives a balance sheet. */
  lemma ClassifyTableTypeFacts(g: Frame, title: string)
    ensures var r := ClassifyTableType(g, title);
            IsFinancialType(r) <==> AnyGroupMatches(TitleGroups, ToLower(title)) || AnyGroupMatches(ColumnGroups, ColumnText(g))
    ensures var r := ClassifyTableType(g, title);
            r == ComparisonType <==>
              !AnyGroupMatches(TitleGroups, ToLower(title)) && !AnyGroupMatches(ColumnGroups, ColumnText(g))
              && |YearGroups(ColumnText(g))| >= 2
    ensures AnyGroupMatches(TitleGroups, ToLower(title)) ==>
              exists k :: 0 <= k < |TitleGroups| && ClassifyTableType(g, title) == TitleGroups[k].0
                          && ContainsAny(ToLower(title), TitleGroups[k].1)
    ensures ContainsAny(ToLower(title), TitleGroups[0].1) ==> ClassifyTableType(g, title) == BalanceSheetType
  {
    var t := FirstMatch(TitleGroups, ToLower(title));
    var c := FirstMatch(ColumnGroups, ColumnText(g));
    if t.Some? {
      assert ContainsAny(ToLower(title), TitleGroups[t.value].1);
    } else if c.Some? {
      assert ContainsAny(ColumnText(g), ColumnGroups[c.value].1);
    }
  }

  /** The first title group with a keyword in the lowered title names the type, whatever
      the columns hold: balance sheet before income statement before cash flow. */
  lemma ClassifyByTitle(g: Frame, title: string, k: nat)
    requires k < |TitleGroups| && ContainsAny(ToLower(title), TitleGroups[k].1)
    requires forall j :: 0 <= j < k ==> !ContainsAny(ToLower(title), TitleGroups[j].1)
    ensures ClassifyTableType(g, title) == TitleGroups[k].0
  {
    var t := FirstMatch(TitleGroups, ToLower(title));
    assert t.Some? && t.value == k;
  }

  /** With no title keyword, the first column group with a keyword in the column text names
      the type, in the same order. */
  lemma ClassifyByColumns(g: Frame, title: string, k: nat)
    requires !AnyGroupMatches(TitleGroups, ToLower(title))
    requires k < |ColumnGroups| && ContainsAny(ColumnText(g), ColumnGroups[k].1)
    requires forall j :: 0 <= j < k ==> !ContainsAny(ColumnText(g), ColumnGroups[j].1)
    ensures ClassifyTableType(g, title) == ColumnGroups[k].0
  {
    var t := FirstMatch(TitleGroups, ToLower(title));
    assert t.None?;
    var c := FirstMatch(ColumnGroups, ColumnText(g));
    assert c.Some? && c.value == k;
  }

  // ---- numbers in a row or column ----

  /** `isinstance(v, (int, float))`, or a string that is all digits once the commas and
      dots are deleted. */
  predicate IsNumeric(c: Cell) {
    match c
    case Num(_) => true
    case Str(s) => AllDigits(Without(Without(s, ','), '.'))
    case Missing => false
  }

  /** The position of the last numeric cell among the first `n`. */
  function LastNumericIndex(cells: seq<Cell>, n: nat): (k: Option<nat>)
    requires n <= |cells|
    ensures k.None? <==> forall j :: 0 <= j < n ==> !IsNumeric(cells[j])
    ensures k.Some? ==> k.value < n && IsNumeric(cells[k.value]) && forall j :: k.value < j < n ==> !IsNumeric(cells[j])
  {
    if n == 0 then None
    else if IsNumeric(cells[n - 1]) then Some(n - 1)
    else LastNumericIndex(cells, n - 1)
  }

  /** `str()` of the last numeric cell, if any. */
  function LastNumeric(cells: seq<Cell>): Option<string> {
    match LastNumericIndex(cells, |cells|)
    case None => None
    case Some(k) => Some(CellText(cells[k]))
  }

  /** A row label or column name mentions one of the keywords, both lowered. */
  predicate LabelMatches(name: string, keywords: seq<string>) {
    ContainsAny(ToLower(name), LowerAll(keywords))
  }

  /** Row `j` is labelled with a keyword and holds a number. */
  predicate RowHasTotal(g: Frame, keywords: seq<string>, j: nat)
    requires j < |g.rows|
  {
    LabelMatches(g.index[j], keywords) && LastNumeric(g.rows[j]).Some?
  }

  /** Column `j` is named with a keyword and holds a number. */
  predicate ColumnHasTotal(g: Frame, keywords: seq<string>, j: nat)
    requires j < |g.columns|
  {
    LabelMatches(g.columns[j], keywords) && LastNumeric(Column(g, j)).Some?
  }

  /** The first position from `from` on whose flag is set. */
  function FirstSet(flags: seq<bool>, from: nat): (k: Option<nat>)
    requires from <= |flags|
    ensures k.Some? ==> from <= k.value < |flags|
    decreases |flags| - from
  {
    if from == |flags| then None
    else if flags[from] then Some(from)
    else FirstSet(flags, from + 1)
  }

  /** None exactly when no flag from `from` on is set; otherwise a set flag with none
      set before it. */
  lemma {:induction false} FirstSetFacts(flags: seq<bool>, from: nat)
    requires from <= |flags|
    ensures FirstSet(flags, from).None? <==> forall j :: from <= j < |flags| ==> !flags[j]
    ensures FirstSet(flags, from).Some? ==>
              var k := FirstSet(flags, from).value;
              from <= k < |flags| && flags[k] && forall j :: from <= j < k ==> !flags[j]
    decreases |flags| - from
  {
    if from < |flags| && !flags[from] {
      FirstSetFacts(flags, from + 1);
    }
  }

  /** The positions, among the first `n`, whose flag is set, in increasing order. */
  function SetPositions(flags: seq<bool>, n: nat): (pos: seq<nat>)
    requires n <= |flags|
    ensures |pos| <= n
    ensures forall i :: 0 <= i < |pos| ==> pos[i] < n && flags[pos[i]]
    ensures forall i, j :: 0 <= i < j < |pos| ==> pos[i] < pos[j]
    ensures forall e :: 0 <= e < n ==> (flags[e] <==> e in pos)
  {
    if n == 0 then []
    else SetPositions(flags, n - 1) + (if flags[n - 1] then [n - 1] else [])
  }

  function RowFlags(g: Frame, keywords: seq<string>): (flags: seq<bool>)
    ensures |flags| == |g.rows| && forall j :: 0 <= j < |g.rows| ==> flags[j] == RowHasTotal(g, keywords, j)
  {
    seq(|g.rows|, j requires 0 <= j < |g.rows| => RowHasTotal(g, keywords, j))
  }

  function ColumnFlags(g: Frame, keywords: seq<string>): (flags: seq<bool>)
    ensures |flags| == |g.columns| && forall j :: 0 <= j < |g.columns| ==> flags[j] == ColumnHasTotal(g, keywords, j)
  {
    seq(|g.columns|, j requires 0 <= j < |g.columns| => ColumnHasTotal(g, keywords, j))
  }

  /** What `_find_financial_total` returns: rows are searched before columns. */
  function FinancialTotal(g: Frame, keywords: seq<string>): Option<string> {
    match FirstSet(RowFlags(g, keywords), 0)
    case Some(r) => LastNumeric(g.rows[r])
    case None =>
      match FirstSet(ColumnFlags(g, keywords), 0)
      case Some(c) => LastNumeric(Column(g, c))
      case None => None
  }

  /** `_find_financial_total`: scans the row labels, then the column names, and returns
      at the first match that holds a number. */
  method FindFinancialTotal(g: Frame, keywords: seq<string>) returns (total: Option<string>)
    ensures total == FinancialTotal(g, keywords)
  {
    var lowered := LowerAll(keywords);
    ghost var rowFlags := RowFlags(g, keywords);
    ghost var columnFlags := ColumnFlags(g, keywords);
    for r := 0 to |g.index|
      invariant FirstSet(rowFlags, 0) == FirstSet(rowFlags, r)
    {
      if ContainsAny(ToLower(g.index[r]), lowered) {
        var numeric := LastNumeric(g.rows[r]);
        if numeric.Some? {
          assert RowHasTotal(g, keywords, r);
          return numeric;
        }
      }
      assert !RowHasTotal(g, keywords, r);
    }
    for c := 0 to |g.columns|
      invariant FirstSet(rowFlags, 0).None?
      invariant FirstSet(columnFlags, 0) == FirstSet(columnFlags, c)
    {
      if ContainsAny(ToLower(g.columns[c]), lowered) {
        var numeric := LastNumeric(Column(g, c));
        if numeric.Some? {
          assert ColumnHasTotal(g, keywords, c);
          return numeric;
        }
      }
      assert !ColumnHasTotal(g, keywords, c);
    }
    return None;
  }

  /** Where the total is read: the last numeric cell of the first matching row, or else
      of the first matching column. */
  function TotalPosition(g: Frame, keywords: seq<string>): Option<(nat, nat)> {
    match FirstSet(RowFlags(g, keywords), 0)
    case Some(r) =>
      (match LastNumericIndex(g.rows[r], |g.rows[r]|)
       case Some(c) => Some((r, c))
       case None => None)
    case None =>
      match FirstSet(ColumnFlags(g, keywords), 0)
      case Some(c) =>
        (match LastNumericIndex(Column(g, c), |g.rows|)
         case Some(r) => Some((r, c))
         case None => None)
      case None => None
  }

  /** There is a total exactly when some labelled row or named column holds a number,
      and the total is then the text of a numeric cell in a matching row or column. */
  lemma FinancialTotalFacts(g: Frame, keywords: seq<string>)
    ensures FinancialTotal(g, keywords).None? <==>
              (forall r :: 0 <= r < |g.rows| ==> !RowHasTotal(g, keywords, r))
              && (forall c :: 0 <= c < |g.columns| ==> !ColumnHasTotal(g, keywords, c))
    ensures FinancialTotal(g, keywords).Some? <==> TotalPosition(g, keywords).Some?
    ensures TotalPosition(g, keywords).Some? ==>
              var (r, c) := TotalPosition(g, keywords).value;
              && r < |g.rows| && c < |g.columns| && IsNumeric(g.rows[r][c])
              && FinancialTotal(g, keywords).value == CellText(g.rows[r][c])
              && (LabelMatches(g.index[r], keywords) || LabelMatches(g.columns[c], keywords))
  {
    FirstSetFacts(RowFlags(g, keywords), 0);
    FirstSetFacts(ColumnFlags(g, keywords), 0);
    match FirstSet(RowFlags(g, keywords), 0)
    case Some(r) =>
      assert RowHasTotal(g, keywords, r);
      assert |g.rows[r]| == |g.columns|;
    case None =>
      match FirstSet(ColumnFlags(g, keywords), 0)
      case Some(c) =>
        assert ColumnHasTotal(g, keywords, c);
        var col := Column(g, c);
        var r := LastNumericIndex(col, |col|).value;
        assert col[r] == g.rows[r][c];
      case None =>
  }

  // ---- key metrics ----

  const BalanceSheetMetrics: seq<(string, seq<string>)> := [
    ("总资产", ["资产总", "总资产", "total asset", "资产合计"]),
    ("流动资产", ["流动资产", "current asset"]),
    ("非流动资产", ["非流动资产", "固定资产", "长期资产", "non-current asset"]),
    ("总负债", ["负债总", "总负债", "total liabilit", "负债合计"]),
    ("流动负债", ["流动负债", "current liabilit"]),
    ("非流动负债", ["非流动负债", "长期负债", "non-current liabilit"]),
    ("所有者权益", ["权益总", "总权益", "equity", "股东权益", "所有者权益"])
  ]

  const IncomeStatementMetrics: seq<(string, seq<string>)> := [
    ("营业收入", ["营业收入", "总收入", "revenue", "sales", "营业额"]),
    ("营业成本", ["营业成本", "成本", "cost", "expense"]),
    ("毛利润", ["毛利", "毛利润", "gross profit"]),
    ("营业利润", ["营业利润", "operating profit"]),
    ("净利润", ["净利润", "利润总额", "net income", "net profit", "profit"]),
    ("每股收益", ["每股收益", "每股盈利", "eps", "earnings per share"])
  ]

  const CashFlowMetrics: seq<(string, seq<string>)> := [
    ("经营活动现金流量", ["经营活动", "operating"]),
    ("投资活动现金流量", ["投资活动", "investing"]),
    ("筹资活动现金流量", ["筹资活动", "financing"]),
    ("现金净增加额", ["现金净增加", "现金净增加额", "net increase"])
  ]

  /** The keyword map of a table type, in its insertion order; none for other types. */
  function MetricMap(tableType: string): Option<seq<(string, seq<string>)>> {
    if tableType == BalanceSheetType then Some(BalanceSheetMetrics)
    else if tableType == IncomeStatementType then Some(IncomeStatementMetrics)
    else if tableType == CashFlowType then Some(CashFlowMetrics)
    else None
  }

  /** A non-empty total. */
  predicate Truthy(v: Option<string>) {
    v.Some? && v.value != ""
  }

  function TruthyFlags(g: Frame, entries: seq<(string, seq<string>)>): (flags: seq<bool>)
    ensures |flags| == |entries| && forall e :: 0 <= e < |entries| ==> flags[e] == Truthy(FinancialTotal(g, entries[e].1))
  {
    seq(|entries|, e requires 0 <= e < |entries| => Truthy(FinancialTotal(g, entries[e].1)))
  }

  /** The positions, among the first `n` map entries, of those with a non-empty total. */
  function TruthyEntries(g: Frame, entries: seq<(string, seq<string>)>, n: nat): (pos: seq<nat>)
    requires n <= |entries|
    ensures |pos| <= n
    ensures forall i :: 0 <= i < |pos| ==> pos[i] < n && Truthy(FinancialTotal(g, entries[pos[i]].1))
    ensures forall i, j :: 0 <= i < j < |pos| ==> pos[i] < pos[j]
    ensures forall e :: 0 <= e < n ==> (Truthy(FinancialTotal(g, entries[e].1)) <==> e in pos)
  {
    SetPositions(TruthyFlags(g, entries), n)
  }

  function MetricOf(g: Frame, entry: (string, seq<string>)): KeyMetric
    requires Truthy(FinancialTotal(g, entry.1))
  {
    KeyMetric(entry.0, FinancialTotal(g, entry.1).value, entry.1)
  }

  /** The metric each map entry contributes: one exactly when its total is non-empty. */
  function EntryMetrics(g: Frame, entries: seq<(string, seq<string>)>): (opts: seq<Option<KeyMetric>>)
    ensures |opts| == |entries|
  {
    seq(|entries|, k requires 0 <= k < |entries| =>
      if Truthy(FinancialTotal(g, entries[k].1)) then Some(MetricOf(g, entries[k])) else None)
  }

  /** The present values among the first `n` options, in order. */
  function Somes<T>(opts: seq<Option<T>>, n: nat): seq<T>
    requires n <= |opts|
  {
    if n == 0 then [] else Somes(opts, n - 1) + (if opts[n - 1].Some? then [opts[n - 1].value] else [])
  }

  lemma SomesStep<T>(opts: seq<Option<T>>, n: nat)
    requires n < |opts|
    ensures opts[n].None? ==> Somes(opts, n + 1) == Somes(opts, n)
    ensures opts[n].Some? ==> Somes(opts, n + 1) == Somes(opts, n) + [opts[n].value]
  {
  }

  /** The `i`-th present value is the option at the `i`-th set flag. */
  lemma {:induction false} SomesPositions<T>(opts: seq<Option<T>>, flags: seq<bool>, n: nat)
    requires n <= |opts| == |flags| && forall k :: 0 <= k < |opts| ==> flags[k] == opts[k].Some?
    ensures |Somes(opts, n)| == |SetPositions(flags, n)|
    ensures forall i :: 0 <= i < |Somes(opts, n)| ==> Somes(opts, n)[i] == opts[SetPositions(flags, n)[i]].value
  {
    if n > 0 {
      SomesPositions(opts, flags, n - 1);
      var prev, pos := SetPositions(flags, n - 1), SetPositions(flags, n);
      var before, now := Somes(opts, n - 1), Somes(opts, n);
      if flags[n - 1] {
        assert pos == prev + [n - 1];
        assert now == before + [opts[n - 1].value];
        forall i | 0 <= i < |now| ensures now[i] == opts[pos[i]].value {
          if i < |prev| {
            assert now[i] == before[i] && pos[i] == prev[i];
          }
        }
      } else {
        assert pos == prev;
        assert now == before;
      }
    }
  }

  /** The metrics of the first `n` map entries that have a non-empty total, in map order. */
  function MetricsUpTo(g: Frame, entries: seq<(string, seq<string>)>, n: nat): seq<KeyMetric>
    requires n <= |entries|
  {
    Somes(EntryMetrics(g, entries), n)
  }

  function KeyMetrics(g: Frame, tableType: string): seq<KeyMetric> {
    match MetricMap(tableType)
    case None => []
    case Some(entries) => MetricsUpTo(g, entries, |entries|)
  }

  /** The `i`-th metric comes from the `i`-th entry with a non-empty total. */
  lemma MetricsUpToPositions(g: Frame, entries: seq<(string, seq<string>)>, n: nat)
    requires n <= |entries|
    ensures var pos := TruthyEntries(g, entries, n);
            && |MetricsUpTo(g, entries, n)| == |pos|
            && forall i :: 0 <= i < |pos| ==> MetricsUpTo(g, entries, n)[i] == MetricOf(g, entries[pos[i]])
  {
    SomesPositions(EntryMetrics(g, entries), TruthyFlags(g, entries), n);
  }

  /** `_extract_key_metrics`. */
  method ExtractKeyMetrics(g: Frame, tableType: string) returns (metrics: seq<KeyMetric>)
    ensures metrics == KeyMetrics(g, tableType)
  {
    var table := MetricMap(tableType);
    if table.None? {
      return [];
    }
    metrics := MetricsOfEntries(g, table.value);
  }

  /** The loop of `_extract_key_metrics` over one keyword map. */
  method MetricsOfEntries(g: Frame, entries: seq<(string, seq<string>)>) returns (metrics: seq<KeyMetric>)
    ensures metrics == MetricsUpTo(g, entries, |entries|)
  {
    metrics := [];
    for k := 0 to |entries|
      invariant metrics == MetricsUpTo(g, entries, k)
    {
      var metric := EntryTotal(g, entries, k);
      MetricsUpToStep(g, entries, k, metric);
      if metric.Some? {
        metrics := metrics + [metric.value];
      }
    }
  }

  lemma MetricsUpToStep(g: Frame, entries: seq<(string, seq<string>)>, k: nat, metric: Option<KeyMetric>)
    requires k < |entries| && metric == EntryMetrics(g, entries)[k]
    ensures MetricsUpTo(g, entries, k + 1) == MetricsUpTo(g, entries, k) + (if metric.Some? then [metric.value] else [])
  {
    SomesStep(EntryMetrics(g, entries), k);
  }

  /** The total of map entry `k`, and the metric it contributes when it is non-empty. */
  method EntryTotal(g: Frame, entries: seq<(string, seq<string>)>, k: nat) returns (metric: Option<KeyMetric>)
    requires k < |entries|
    ensures metric == EntryMetrics(g, entries)[k]
  {
    var value := FindFinancialTotal(g, entries[k].1);
    EntryMetricIs(g, entries, k, value);
    if value.Some? && value.value != "" {
      metric := Some(KeyMetric(entries[k].0, value.value, entries[k].1));
    } else {
      metric := None;
    }
  }

  lemma EntryMetricIs(g: Frame, entries: seq<(string, seq<string>)>, k: nat, value: Option<string>)
    requires k < |entries| && value == FinancialTotal(g, entries[k].1)
    ensures EntryMetrics(g, entries)[k] ==
      if value.Some? && value.value != "" then Some(KeyMetric(entries[k].0, value.value, entries[k].1)) else None
  {
  }

  /** Tables that are not financial statements have no key metrics. A financial table
      lists, in its keyword map's order, one metric for each entry whose total is
      non-empty, carrying the entry's name, keywords and total. */
  lemma KeyMetricsFacts(g: Frame, tableType: string)
    ensures MetricMap(tableType).None? ==> KeyMetrics(g, tableType) == []
    ensures MetricMap(tableType).Some? ==>
              var entries := MetricMap(tableType).value;
              var pos := TruthyEntries(g, entries, |entries|);
              |KeyMetrics(g, tableType)| == |pos| <= |entries|
              && forall i :: 0 <= i < |pos| ==>
                   KeyMetrics(g, tableType)[i] == KeyMetric(entries[pos[i]].0, FinancialTotal(g, entries[pos[i]].1).value, entries[pos[i]].1)
                   && KeyMetrics(g, tableType)[i].value != ""
  {
    if MetricMap(tableType).Some? {
      var entries := MetricMap(tableType).value;
      MetricsUpToPositions(g, entries, |entries|);
    }
  }

  // ---- description ----

  /** The figures a financial description states, with the words that introduce them. */
  function FinancialFacts(tableType: string): seq<(string, seq<string>)> {
    if tableType == BalanceSheetType then
      [(" 资产总额为", ["资产总", "总资产", "total asset", "资产合计"]),
       (" 负债总额为", ["负债总", "总负债", "total liabilit", "负债合计"]),
       (" 所有者权益为", ["权益总", "总权益", "equity", "股东权益", "所有者权益"])]
    else if tableType == IncomeStatementType then
      [(" 营业收入为", ["营业收入", "总收入", "revenue", "sales", "营业额"]),
       (" 净利润为", ["净利润", "利润总额", "net income", "net profit", "profit"])]
    else if tableType == CashFlowType then
      [(" 经营活动现金流量为", ["经营活动", "operating"]),
       (" 投资活动现金流量为", ["投资活动", "investing"]),
       (" 筹资活动现金流量为", ["筹资活动", "financing"])]
    else []
  }

  function FactsText(g: Frame, facts: seq<(string, seq<string>)>): string {
    if |facts| == 0 then ""
    else
      var value := FinancialTotal(g, facts[0].1);
      (if Truthy(value) then facts[0].0 + value.value + "。" else "") + FactsText(g, facts[1..])
  }

  /** `_describe_financial_table`. */
  function FinancialDescription(g: Frame, tableType: string): string {
    FactsText(g, FinancialFacts(tableType))
  }

  /** The column list: the first five names, and the total count when there are more. */
  function ColumnList(g: Frame): string {
    if |g.columns| > 5 then Join(g.columns[..5], ", ") + " 等" + NatToString(|g.columns|) + "个列"
    else Join(g.columns, ", ")
  }

  /** The opening sentence: the shape of the frame and the quoted title, if any. */
  function ShapeSentence(g: Frame, title: string): string {
    "表格包含" + NatToString(|g.index|) + "行和" + NatToString(|g.columns|) + "列数据"
    + (if title != "" then "，标题为\"" + title + "\"" else "")
    + "。"
  }

  /** What `_generate_table_description` returns; the comparison and generic suffixes
      (float statistics) are given. */
  function Description(g: Frame, title: string, tableType: string,
                       comparisonText: Frame -> string, genericText: Frame -> string): string {
    ShapeSentence(g, title) + " 包含的列有：" + ColumnList(g) + "。"
    + (if StartsWith(tableType, "financial_") then FinancialDescription(g, tableType)
       else if tableType == ComparisonType then comparisonText(g)
       else genericText(g))
  }

  /** `_generate_table_description`: the sentence is built piece by piece. */
  method GenerateTableDescription(g: Frame, title: string, tableType: string,
                                  comparisonText: Frame -> string, genericText: Frame -> string)
    returns (description: string)
    ensures description == Description(g, title, tableType, comparisonText, genericText)
  {
    description := "表格包含" + NatToString(|g.index|) + "行和" + NatToString(|g.columns|) + "列数据";
    if title != "" {
      description := description + ("，标题为\"" + title + "\"");
    }
    description := description + "。";
    assert description == ShapeSentence(g, title);
    var colsText := Join(if |g.columns| > 5 then g.columns[..5] else g.columns, ", ");
    if |g.columns| > 5 {
      colsText := colsText + " 等" + NatToString(|g.columns|) + "个列";
    }
    assert colsText == ColumnList(g);
    description := description + " 包含的列有：" + colsText + "。";
    var suffix;
    if StartsWith(tableType, "financial_") {
      suffix := FinancialDescription(g, tableType);
    } else if tableType == ComparisonType {
      suffix := comparisonText(g);
    } else {
      suffix := genericText(g);
    }
    description := description + suffix;
  }

  /** The description opens with the row and column counts, which read back as the
      frame's shape; a short column list is given in full, and a longer one names the
      first five columns and then the column count. */
  lemma DescriptionFacts(g: Frame, title: string, tableType: string,
                         comparisonText: Frame -> string, genericText: Frame -> string)
    ensures var d := Description(g, title, tableType, comparisonText, genericText);
            var head := "表格包含" + NatToString(|g.index|) + "行和" + NatToString(|g.columns|) + "列数据";
            StartsWith(d, head)
    ensures DigitsValue(NatToString(|g.index|)) == |g.index| && DigitsValue(NatToString(|g.columns|)) == |g.columns|
    ensures |g.columns| <= 5 ==> ColumnList(g) == Join(g.columns, ", ")
    ensures |g.columns| > 5 ==> ColumnList(g) == Join(g.columns[..5], ", ") + (" 等" + NatToString(|g.columns|) + "个列")
  {
    var d := Description(g, title, tableType, comparisonText, genericText);
    var head := "表格包含" + NatToString(|g.index|) + "行和" + NatToString(|g.columns|) + "列数据";
    assert d == head + (d[|head|..]);
    NatToStringRoundTrip(|g.index|);
    NatToStringRoundTrip(|g.columns|);
    if |g.columns| > 5 {
      var j := Join(g.columns[..5], ", ");
      assert ColumnList(g) == j + (" 等" + NatToString(|g.columns|) + "个列");
    }
  }

  // ---- surrounding text ----

  /** One item of the small pattern language the reference patterns use: a single
      character from a set, a run of whitespace (`\s*`) or a run of digits (`\d+`). */
  datatype Atom = OneOf(chars: seq<char>) | Spaces | Digits

  function Lit(s: string): (p: seq<Atom>)
    ensures |p| == |s| && forall k :: 0 <= k < |s| ==> p[k] == OneOf([s[k]])
  {
    seq(|s|, k requires 0 <= k < |s| => OneOf([s[k]]))
  }

  /** `表\s*\d+`, `[Tt]able\s*\d+`, `如[图表]所示` and `as shown in the [table|figure]`;
      the last is a character class, so it matches one character after "the ". */
  const ReferencePatterns: seq<seq<Atom>> := [
    [OneOf("表"), Spaces, Digits],
    [OneOf("Tt")] + Lit("able") + [Spaces, Digits],
    [OneOf("如"), OneOf("图表"), OneOf("所"), OneOf("示")],
    Lit("as shown in the ") + [OneOf("table|figure")]
  ]

  /** A pattern can only match a non-empty text: it starts with a single character. */
  predicate Anchored(p: seq<Atom>) {
    |p| > 0 && p[0].OneOf?
  }

  /** The end of the run of characters satisfying the class from `i` on. */
  function SkipSpaces(s: string, i: nat): (j: nat)
    requires i <= |s|
    ensures i <= j <= |s| && (forall k :: i <= k < j ==> IsSpace(s[k])) && (j == |s| || !IsSpace(s[j]))
    decreases |s| - i
  {
    if i < |s| && IsSpace(s[i]) then SkipSpaces(s, i + 1) else i
  }

  function SkipDigits(s: string, i: nat): (j: nat)
    requires i <= |s|
    ensures i <= j <= |s| && (forall k :: i <= k < j ==> IsDigit(s[k])) && (j == |s| || !IsDigit(s[j]))
    decreases |s| - i
  {
    if i < |s| && IsDigit(s[i]) then SkipDigits(s, i + 1) else i
  }

  /** Where a match of `p` starting at `i` ends. Runs are taken greedily; the patterns
      used put a digit run after each whitespace run, and the two classes are disjoint,
      so greedy matching finds the same matches as backtracking. */
  function MatchFrom(s: string, i: nat, p: seq<Atom>): (e: Option<nat>)
    requires i <= |s|
    ensures e.Some? ==> i <= e.value <= |s|
    ensures e.Some? && Anchored(p) ==> i < e.value
    decreases |p|
  {
    if |p| == 0 then Some(i)
    else
      match p[0]
      case OneOf(cs) => if i < |s| && s[i] in cs then MatchFrom(s, i + 1, p[1..]) else None
      case Spaces => MatchFrom(s, SkipSpaces(s, i), p[1..])
      case Digits =>
        var j := SkipDigits(s, i);
        if j > i then MatchFrom(s, j, p[1..]) else None
  }

  /** `re.findall(p, s[i..])`: non-overlapping matches, left to right. */
  function FindAll(s: string, p: seq<Atom>, i: nat): seq<string>
    requires i <= |s| && Anchored(p)
    decreases |s| - i
  {
    if i == |s| then []
    else
      match MatchFrom(s, i, p)
      case Some(e) => [s[i..e]] + FindAll(s, p, e)
      case None => FindAll(s, p, i + 1)
  }

  /** `r` is the text a match of `p` at `j` covers. */
  predicate MatchedAt(s: string, p: seq<Atom>, j: nat, r: string) {
    j + |r| <= |s| && s[j..j + |r|] == r && MatchFrom(s, j, p) == Some(j + |r|)
  }

  /** `FindAll` finds something exactly when the pattern matches somewhere from `i` on. */
  lemma {:induction false} FindAllFinds(s: string, p: seq<Atom>, i: nat)
    requires i <= |s| && Anchored(p)
    ensures |FindAll(s, p, i)| > 0 <==> exists j :: i <= j <= |s| && MatchFrom(s, j, p).Some?
    decreases |s| - i
  {
    if i == |s| {
      forall j | i <= j <= |s|
        ensures MatchFrom(s, j, p).None?
      {
        assert j == |s|;
      }
    } else if MatchFrom(s, i, p).Some? {
      var e := MatchFrom(s, i, p).value;
      assert |FindAll(s, p, i)| == 1 + |FindAll(s, p, e)|;
      assert i <= i <= |s| && MatchFrom(s, i, p).Some?;
    } else {
      FindAllFinds(s, p, i + 1);
      assert FindAll(s, p, i) == FindAll(s, p, i + 1);
      forall j | i <= j <= |s| && MatchFrom(s, j, p).Some?
        ensures i + 1 <= j
      {
      }
    }
  }

  /** Everything `FindAll` finds is the text of a match at or after `i`. */
  lemma {:induction false} FindAllMatches(s: string, p: seq<Atom>, i: nat, k: nat)
    requires i <= |s| && Anchored(p) && k < |FindAll(s, p, i)|
    ensures exists j :: i <= j && MatchedAt(s, p, j, FindAll(s, p, i)[k])
    decreases |s| - i
  {
    var r := FindAll(s, p, i);
    if MatchFrom(s, i, p).Some? {
      var e := MatchFrom(s, i, p).value;
      var rest := FindAll(s, p, e);
      assert r == [s[i..e]] + rest;
      if k == 0 {
        assert MatchedAt(s, p, i, r[k]);
      } else {
        FindAllMatches(s, p, e, k - 1);
        assert r[k] == rest[k - 1];
        var j :| e <= j && MatchedAt(s, p, j, rest[k - 1]);
        assert i <= j;
      }
    } else {
      FindAllMatches(s, p, i + 1, k);
      assert r == FindAll(s, p, i + 1);
      var j :| i + 1 <= j && MatchedAt(s, p, j, r[k]);
      assert i <= j;
    }
  }

  /** `j` is the leftmost position at or after `from` where `p` matches. */
  ghost predicate LeftmostMatch(s: string, p: seq<Atom>, from: nat, j: nat)
    requires from <= |s|
  {
    from <= j <= |s| && MatchFrom(s, j, p).Some? && forall m :: from <= m < j ==> MatchFrom(s, m, p).None?
  }

  /** `st` lists the starts of the matches `re.findall` takes scanning from `i`: the
      leftmost match, then the leftmost one at or after the end of the previous, and no
      match after the end of the last. */
  ghost predicate MatchChain(s: string, p: seq<Atom>, i: nat, st: seq<nat>)
    requires i <= |s|
  {
    && (forall k :: 0 <= k < |st| ==> st[k] <= |s| && MatchFrom(s, st[k], p).Some?)
    && (|st| == 0 ==> forall j :: i <= j <= |s| ==> MatchFrom(s, j, p).None?)
    && (|st| > 0 ==> LeftmostMatch(s, p, i, st[0])
                     && forall j :: MatchFrom(s, st[|st| - 1], p).value <= j <= |s| ==> MatchFrom(s, j, p).None?)
    && forall k :: 0 <= k < |st| - 1 ==> LeftmostMatch(s, p, MatchFrom(s, st[k], p).value, st[k + 1])
  }

  /** `r` holds the text of the match at each start in `st`. */
  ghost predicate MatchTexts(r: seq<string>, s: string, p: seq<Atom>, st: seq<nat>) {
    |r| == |st| && forall k :: 0 <= k < |st| ==> MatchedAt(s, p, st[k], r[k])
  }

  /** The starts of the matches `FindAll(s, p, i)` reports. */
  function FindAllStarts(s: string, p: seq<Atom>, i: nat): seq<nat>
    requires i <= |s| && Anchored(p)
    decreases |s| - i
  {
    if i == |s| then []
    else
      match MatchFrom(s, i, p)
      case Some(e) => [i] + FindAllStarts(s, p, e)
      case None => FindAllStarts(s, p, i + 1)
  }

  lemma MatchChainTake(s: string, p: seq<Atom>, i: nat, st: seq<nat>)
    requires i < |s| && Anchored(p) && MatchFrom(s, i, p).Some?
    requires MatchChain(s, p, MatchFrom(s, i, p).value, st)
    ensures MatchChain(s, p, i, [i] + st)
  {
    var q := [i] + st;
    assert LeftmostMatch(s, p, i, q[0]);
    forall k | 0 <= k < |q| - 1
      ensures LeftmostMatch(s, p, MatchFrom(s, q[k], p).value, q[k + 1])
    {
      if k > 0 {
        assert q[k] == st[k - 1] && q[k + 1] == st[k];
      }
    }
  }

  lemma MatchChainSkip(s: string, p: seq<Atom>, i: nat, st: seq<nat>)
    requires i < |s| && MatchFrom(s, i, p).None? && MatchChain(s, p, i + 1, st)
    ensures MatchChain(s, p, i, st)
  {
    if |st| > 0 {
      assert LeftmostMatch(s, p, i, st[0]);
    }
  }

  lemma MatchTextsTake(s: string, p: seq<Atom>, i: nat, r: seq<string>, st: seq<nat>)
    requires i <= |s| && MatchFrom(s, i, p).Some? && MatchTexts(r, s, p, st)
    ensures MatchTexts([s[i..MatchFrom(s, i, p).value]] + r, s, p, [i] + st)
  {
    var e := MatchFrom(s, i, p).value;
    assert MatchedAt(s, p, i, s[i..e]);
    var r', st' := [s[i..e]] + r, [i] + st;
    forall k | 0 <= k < |st'|
      ensures MatchedAt(s, p, st'[k], r'[k])
    {
      if k > 0 {
        assert r'[k] == r[k - 1] && st'[k] == st[k - 1];
      }
    }
  }

  /** `FindAll` is `re.findall`: the text of every match of the leftmost non-overlapping
      chain from `i`, in order. */
  lemma {:induction false} FindAllChain(s: string, p: seq<Atom>, i: nat)
    requires i <= |s| && Anchored(p)
    ensures MatchTexts(FindAll(s, p, i), s, p, FindAllStarts(s, p, i))
    ensures MatchChain(s, p, i, FindAllStarts(s, p, i))
    decreases |s| - i
  {
    if i == |s| {
      assert MatchFrom(s, i, p).None?;
    } else if MatchFrom(s, i, p).Some? {
      var e := MatchFrom(s, i, p).value;
      FindAllChain(s, p, e);
      MatchTextsTake(s, p, i, FindAll(s, p, e), FindAllStarts(s, p, e));
      MatchChainTake(s, p, i, FindAllStarts(s, p, e));
    } else {
      FindAllChain(s, p, i + 1);
      MatchChainSkip(s, p, i, FindAllStarts(s, p, i + 1));
    }
  }

  lemma ReferencePatternsAnchored()
    ensures forall k :: 0 <= k < |ReferencePatterns| ==> Anchored(ReferencePatterns[k])
  {
  }

  /** The references of every pattern, in pattern order. */
  function ReferencesOf(s: string, n: nat): seq<string>
    requires n <= |ReferencePatterns|
  {
    ReferencePatternsAnchored();
    if n == 0 then [] else ReferencesOf(s, n - 1) + FindAll(s, ReferencePatterns[n - 1], 0)
  }

  /** Where a non-empty title first occurs in the text (`title and title in text`). */
  function TitlePosition(text: string, title: string): (p: Option<nat>)
    ensures p.Some? <==> |title| > 0 && Contains(text, title)
    ensures p.Some? ==> OccursAt(text, title, p.value) && forall q :: 0 <= q < p.value ==> !OccursAt(text, title, q)
  {
    if |title| > 0 then FindFirst(text, title) else None
  }

  /** The text before and after the table: around the first occurrence of the title,
      or the whole of a short text, or the two ends of a long one. */
  function Surroundings(text: string, title: string): (string, string) {
    match TitlePosition(text, title)
    case Some(p) => (Strip(text[..p]), Strip(text[p + |title|..]))
    case None =>
      if |text| <= 400 then (text, "")
      else (Strip(text[..200]), Strip(text[|text| - 200..]))
  }

  /** The context record of a table; empty text gives an empty record. */
  function ContextOf(text: string, title: string): Context {
    if |text| == 0 then Context("", "", [])
    else
      var (preceding, following) := Surroundings(text, title);
      Context(preceding, following, ReferencesOf(text, |ReferencePatterns|))
  }

  /** `_extract_structured_context`: the context dictionary, filled in step by step. */
  method ExtractStructuredContext(text: string, title: string) returns (ctx: Context)
    ensures ctx == ContextOf(text, title)
  {
    ctx := Context("", "", []);
    if |text| == 0 {
      return;
    }
    var preceding, following := SurroundingText(text, title);
    var references := FindReferences(text);
    ctx := Context(preceding, following, references);
  }

  /** The preceding and following text of a non-empty text. */
  method SurroundingText(text: string, title: string) returns (preceding: string, following: string)
    ensures (preceding, following) == Surroundings(text, title)
  {
    preceding := "";
    following := "";
    var position := TitlePosition(text, title);
    if position.Some? {
      var p := position.value;
      preceding := Strip(text[..p]);
      following := Strip(text[p + |title|..]);
    } else if |text| <= 400 {
      preceding := text;
    } else {
      preceding := Strip(text[..200]);
      following := Strip(text[|text| - 200..]);
    }
  }

  /** The references of every pattern, pattern by pattern. */
  method FindReferences(text: string) returns (references: seq<string>)
    ensures references == ReferencesOf(text, |ReferencePatterns|)
  {
    references := [];
    ReferencePatternsAnchored();
    for k := 0 to |ReferencePatterns|
      invariant references == ReferencesOf(text, k)
    {
      var matches := FindAll(text, ReferencePatterns[k], 0);
      references := references + matches;
    }
  }

  /** With the title in the text, the parts before and after its first occurrence are
      the stripped preceding and following text, and they rebuild the text around it. */
  lemma ContextSplitsAtTitle(text: string, title: string)
    requires |title| > 0 && Contains(text, title)
    ensures TitlePosition(text, title).Some?
    ensures var p := TitlePosition(text, title).value;
            var ctx := ContextOf(text, title);
            && text == text[..p] + title + text[p + |title|..]
            && ctx.preceding == Strip(text[..p]) && ctx.following == Strip(text[p + |title|..])
  {
    var p := TitlePosition(text, title).value;
    SplitAround(text, title, p);
    assert Surroundings(text, title) == (Strip(text[..p]), Strip(text[p + |title|..]));
  }

  /** An occurrence cuts the text into what comes before, the occurrence and what follows. */
  lemma SplitAround(text: string, title: string, p: int)
    requires OccursAt(text, title, p)
    ensures text == text[..p] + title + text[p + |title|..]
  {
    assert text == text[..p] + text[p..p + |title|] + text[p + |title|..];
  }

  /** Without the title, short text is kept whole and unstripped, and long text is cut to
      its first and last 200 characters, stripped; the parts are never longer than 200
      characters then. */
  lemma ContextWithoutTitle(text: string, title: string)
    requires |text| > 0 && !(|title| > 0 && Contains(text, title))
    ensures |text| <= 400 ==> ContextOf(text, title).preceding == text && ContextOf(text, title).following == ""
    ensures |text| > 400 ==> |ContextOf(text, title).preceding| <= 200 && |ContextOf(text, title).following| <= 200
  {
    if |text| > 400 {
      StripSlice(text[..200]);
      StripSlice(text[|text| - 200..]);
    }
  }

  /** Every reference is a piece of the text that one of the patterns matches. */
  lemma {:induction false} ReferencesAreMatches(s: string, n: nat)
    requires n <= |ReferencePatterns|
    ensures forall r :: r in ReferencesOf(s, n) ==>
              exists k, j :: 0 <= k < n && MatchedAt(s, ReferencePatterns[k], j, r)
  {
    ReferencePatternsAnchored();
    if n > 0 {
      ReferencesAreMatches(s, n - 1);
      var found := FindAll(s, ReferencePatterns[n - 1], 0);
      assert ReferencesOf(s, n) == ReferencesOf(s, n - 1) + found;
      forall r | r in found
        ensures exists k, j :: 0 <= k < n && MatchedAt(s, ReferencePatterns[k], j, r)
      {
        var k :| 0 <= k < |found| && found[k] == r;
        FindAllMatches(s, ReferencePatterns[n - 1], 0, k);
        var j :| 0 <= j && MatchedAt(s, ReferencePatterns[n - 1], j, found[k]);
      }
    }
  }

  // ---- the annotator ----

  /** `enhance_table`: no data frame or an empty one gives nothing; a list in its place
      fails on `.empty`; otherwise the table is typed, described, mined for metrics and
      placed in its text, and `table_data` is kept as it is. */
  method EnhanceTable(data: TableData, surroundingText: string,
                      comparisonText: Frame -> string, genericText: Frame -> string)
    returns (r: Result<Option<EnhancedTable>>)
    ensures data.frame.NoFrame? ==> r == Ok(None)
    ensures data.frame.ListFrame? ==> r.Err?
    ensures data.frame.DataFrame? && IsEmpty(data.frame.frame) ==> r == Ok(None)
    ensures data.frame.DataFrame? && !IsEmpty(data.frame.frame) ==>
              var g := data.frame.frame;
              var title := TitleOf(data);
              var tableType := ClassifyTableType(g, title);
              r == Ok(Some(EnhancedTable(data, tableType,
                                         Some(Description(g, title, tableType, comparisonText, genericText)),
                                         KeyMetrics(g, tableType), ContextOf(surroundingText, title))))
  {
    match data.frame
    case NoFrame =>
      return Ok(None);
    case ListFrame =>
      return Err("AttributeError: 'list' object has no attribute 'empty'");
    case DataFrame(g) =>
      if IsEmpty(g) {
        return Ok(None);
      }
      var title := TitleOf(data);
      var tableType := ClassifyTableType(g, title);
      var description := GenerateTableDescription(g, title, tableType, comparisonText, genericText);
      var keyMetrics := ExtractKeyMetrics(g, tableType);
      var context := ExtractStructuredContext(surroundingText, title);
      return Ok(Some(EnhancedTable(data, tableType, Some(description), keyMetrics, context)));
  }
}
