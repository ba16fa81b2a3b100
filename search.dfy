// The query processor: enriches the question with intent keywords, sends it to the
// index, and re-ranks what comes back (one full-table chunk per table, score boosts
// by intent, a stable sort by score and ranks renumbered from 1).
module Search {
  import opened Wrappers
  import opened Text
  import opened Tables
  import opened Intent
  import Collections
  import Indexer

  // ---- query enrichment ----

  function DataTypeBundle(d: DataType): Option<string> {
    match d
    case BalanceSheet => Some("资产负债表 资产 负债 权益 balance sheet")
    case IncomeStatement => Some("损益表 收入 利润 盈利 income statement profit revenue")
    case CashFlow => Some("现金流量表 现金流 经营活动 cash flow statement")
    case UnknownType => None
  }

  function GranularityBundle(g: Granularity): string {
    match g
    case Overview => "整体 概览 总体 summary overview"
    case Specific => "具体 详细 明细 specific details"
    case MetricLevel => "指标 比率 占比 ratio percentage"
  }

  const ComparisonBundle: string := "对比 比较 差异 变化 comparison difference"
  const CalculationBundle: string := "计算 总计 计算结果 calculation total"

  /** Python truthiness of the `time_focus` entry. */
  predicate HasTimeFocus(t: TimeFocus) {
    match t
    case NoFocus => false
    case Years(gs) => |gs| > 0
    case Relative(k) => k != ""
  }

  function TimeBundle(t: TimeFocus): string
    requires HasTimeFocus(t)
  {
    match t
    case Years(gs) => "年份 " + Join(gs, " ") + " year"
    case Relative(k) => "时间 " + k + " time period"
  }

  function Opt(b: bool, s: string): seq<string> {
    if b then [s] else []
  }

  /** The pieces of the enriched query: the query itself, then the data type, granularity,
      comparison, calculation and time bundles, each only when the intent calls for it. */
  function EnhanceParts(query: string, intent: QueryIntent): (parts: seq<string>)
    ensures |parts| >= 2 && parts[0] == query
    ensures |parts| == 2 + (if intent.dataType != UnknownType then 1 else 0)
                         + (if intent.comparison then 1 else 0) + (if intent.calculation then 1 else 0)
                         + (if HasTimeFocus(intent.timeFocus) then 1 else 0)
  {
    [query]
    + (match DataTypeBundle(intent.dataType) case Some(b) => [b] case None => [])
    + [GranularityBundle(intent.granularity)]
    + Opt(intent.comparison, ComparisonBundle)
    + Opt(intent.calculation, CalculationBundle)
    + (if HasTimeFocus(intent.timeFocus) then [TimeBundle(intent.timeFocus)] else [])
  }

  /** `_enhance_query`. */
  function EnhanceQuery(query: string, intent: QueryIntent): string {
    Join(EnhanceParts(query, intent), " ")
  }

  /** The enriched query always starts with the query as typed; an intent with an unknown
      data type, no comparison, no calculation and no time focus adds only the
      granularity bundle. */
  lemma EnhanceQueryShape(query: string, intent: QueryIntent)
    ensures StartsWith(EnhanceQuery(query, intent), query)
    ensures intent.dataType == UnknownType && !intent.comparison && !intent.calculation
            && !HasTimeFocus(intent.timeFocus)
            ==> EnhanceQuery(query, intent) == query + " " + GranularityBundle(intent.granularity)
  {
    var parts := EnhanceParts(query, intent);
    JoinStartsWithFirst(parts, " ");
    if intent.dataType == UnknownType && !intent.comparison && !intent.calculation
       && !HasTimeFocus(intent.timeFocus) {
      var g := GranularityBundle(intent.granularity);
      assert parts == [query, g];
      assert parts[1..] == [g];
      assert Join(parts, " ") == query + " " + Join([g], " ");
    }
  }

  /** The bundles sit in the source's order: the data-type bundle (when the type is known)
      right after the query, then the granularity bundle, then the comparison and the
      calculation bundles when asked for, and the time bundle last. */
  lemma EnhancePartsOrder(query: string, intent: QueryIntent)
    ensures var parts := EnhanceParts(query, intent);
            var d := if intent.dataType != UnknownType then 1 else 0;
            var c := if intent.comparison then 1 else 0;
            && (intent.dataType != UnknownType ==> parts[1] == DataTypeBundle(intent.dataType).value)
            && parts[1 + d] == GranularityBundle(intent.granularity)
            && (intent.comparison ==> parts[2 + d] == ComparisonBundle)
            && (intent.calculation ==> parts[2 + d + c] == CalculationBundle)
            && (HasTimeFocus(intent.timeFocus) ==> parts[|parts| - 1] == TimeBundle(intent.timeFocus))
  {
  }

  /** With a truthy time focus the enriched query ends with the time bundle: the years
      joined by blanks for a year list, the period name for a relative focus. */
  lemma EnhanceQueryTime(query: string, intent: QueryIntent)
    requires HasTimeFocus(intent.timeFocus)
    ensures intent.timeFocus.Years? ==>
              EndsWith(EnhanceQuery(query, intent), " 年份 " + Join(intent.timeFocus.groups, " ") + " year")
    ensures intent.timeFocus.Relative? ==>
              EndsWith(EnhanceQuery(query, intent), " 时间 " + intent.timeFocus.kind + " time period")
  {
    var parts := EnhanceParts(query, intent);
    var b := TimeBundle(intent.timeFocus);
    assert parts[|parts| - 1] == b;
    JoinEndsWithLast(parts, " ");
    assert EnhanceQuery(query, intent) == Join(parts, " ");
    if intent.timeFocus.Years? {
      assert " " + b == " 年份 " + Join(intent.timeFocus.groups, " ") + " year";
    } else {
      assert " " + b == " 时间 " + intent.timeFocus.kind + " time period";
    }
  }

  /** With a year focus the enriched query ends with the year bundle. */
  lemma EnhanceQueryYears(query: string, intent: QueryIntent)
    requires intent.timeFocus.Years? && |intent.timeFocus.groups| > 0
    ensures EndsWith(EnhanceQuery(query, intent), " 年份 " + Join(intent.timeFocus.groups, " ") + " year")
  {
    EnhanceQueryTime(query, intent);
  }

  // ---- table type and relevance text ----

  const TypeHints: seq<(string, seq<string>)> := [
    ("balance_sheet", ["资产负债表", "balance sheet", "资产", "负债"]),
    ("income_statement", ["损益表", "income statement", "利润", "收入"]),
    ("cash_flow", ["现金流量表", "cash flow", "现金"])
  ]

  /** `_extract_table_type`: the chunk's recorded table type, else the first type whose
      hint occurs in the lowered content, else nothing. */
  function ExtractTableType(data: Payload): (r: Option<string>)
    ensures data.metadata.tableType.Some? ==> r == data.metadata.tableType
    ensures data.metadata.tableType.None? ==>
              match FirstMatch(TypeHints, ToLower(data.content))
              case Some(k) => r == Some(TypeHints[k].0)
              case None => r.None?
  {
    if data.metadata.tableType.Some? then data.metadata.tableType
    else
      match FirstMatch(TypeHints, ToLower(data.content))
      case Some(k) => Some(TypeHints[k].0)
      case None => None
  }

  /** A chunk that records no type and whose content mentions a balance-sheet word is
      taken to be a balance sheet. */
  lemma InferredBalanceSheet(data: Payload, k: nat)
    requires data.metadata.tableType.None?
    requires k < |TypeHints[0].1| && Contains(ToLower(data.content), TypeHints[0].1[k])
    ensures ExtractTableType(data) == Some("balance_sheet")
  {
    assert ContainsAny(ToLower(data.content), TypeHints[0].1);
  }

  function ChunkSentence(c: ChunkType): Option<string> {
    match c
    case TableFull => Some("此结果显示完整表格信息")
    case TableMetric => Some("此结果包含您可能关注的具体指标")
    case TableRow => Some("此结果展示表格中的特定行数据")
    case TableColumn => Some("此结果展示表格中的特定列数据")
    case TableDescription => Some("此结果提供表格的整体描述")
    case TableTitle => None
  }

  const ChangeTerms: seq<string> := ["增长", "下降", "变化", "比较", "对比"]

  /** `[year for year in years if year in content]`. */
  function MatchedYears(years: seq<string>, content: string): (r: seq<string>)
    ensures |r| <= |years|
    ensures forall k :: 0 <= k < |r| ==> r[k] in years && Contains(content, r[k])
    ensures forall k :: 0 <= k < |years| && Contains(content, years[k]) ==> years[k] in r
  {
    if |years| == 0 then []
    else (if Contains(content, years[0]) then [years[0]] else []) + MatchedYears(years[1..], content)
  }

  /** The comprehension keeps the list's order and its repeats: it distributes over
      concatenation, */
  lemma {:induction false} MatchedYearsAppend(a: seq<string>, b: seq<string>, content: string)
    ensures MatchedYears(a + b, content) == MatchedYears(a, content) + MatchedYears(b, content)
    decreases |a|
  {
    if |a| == 0 {
      assert a + b == b;
    } else {
      assert (a + b)[0] == a[0] && (a + b)[1..] == a[1..] + b;
      MatchedYearsAppend(a[1..], b, content);
    }
  }

  /** and one year is kept exactly when the content holds it. */
  lemma MatchedYearsOne(y: string, content: string)
    ensures MatchedYears([y], content) == (if Contains(content, y) then [y] else [])
  {
    assert [y][1..] == [];
  }

  function TimeSentence(t: TimeFocus, content: string): seq<string> {
    match t
    case NoFocus => []
    case Years(gs) =>
      var found := MatchedYears(gs, content);
      if |found| > 0 then ["包含相关年份数据: " + Join(found, ", ")] else []
    case Relative(k) => if k != "" && Contains(content, k) then ["包含相关时间段: " + k] else []
  }

  function ExplanationParts(data: Payload, intent: QueryIntent): seq<string> {
    (match ChunkSentence(data.chunkType) case Some(s) => [s] case None => [])
    + (if intent.granularity == MetricLevel && data.metadata.metricName.Some?
       then ["包含您查询的指标类型: " + data.metadata.metricName.value] else [])
    + Opt(intent.comparison && ContainsAny(ToLower(data.content), ChangeTerms), "包含可用于比较分析的数据")
    + TimeSentence(intent.timeFocus, data.content)
  }

  /** `_explain_relevance`: the sentences joined by "; ". */
  function ExplainRelevance(data: Payload, intent: QueryIntent): string {
    Join(ExplanationParts(data, intent), "; ")
  }

  /** The chunk-type sentence comes first; a title chunk has none, and without metric,
      comparison or time cues a title chunk gets an empty explanation. */
  lemma ExplainRelevanceShape(data: Payload, intent: QueryIntent)
    ensures ChunkSentence(data.chunkType).Some? ==>
              StartsWith(ExplainRelevance(data, intent), ChunkSentence(data.chunkType).value)
    ensures data.chunkType == TableTitle && data.metadata.metricName.None? && !intent.comparison
            && intent.timeFocus.NoFocus?
            ==> ExplainRelevance(data, intent) == ""
  {
    var parts := ExplanationParts(data, intent);
    if ChunkSentence(data.chunkType).Some? {
      JoinStartsWithFirst(parts, "; ");
    }
  }

  /** The time sentence comes last. A year focus adds it exactly when some focus year
      occurs in the content, and it then lists the matched years joined by ", "; a
      relative focus adds it exactly when the content names the period. Otherwise the
      time focus leaves the explanation as it would be without one. */
  lemma ExplainRelevanceTime(data: Payload, intent: QueryIntent)
    ensures intent.timeFocus.Years? && (exists k :: 0 <= k < |intent.timeFocus.groups| && Contains(data.content, intent.timeFocus.groups[k]))
            ==> EndsWith(ExplainRelevance(data, intent),
                         "包含相关年份数据: " + Join(MatchedYears(intent.timeFocus.groups, data.content), ", "))
    ensures intent.timeFocus.Relative? && intent.timeFocus.kind != "" && Contains(data.content, intent.timeFocus.kind)
            ==> EndsWith(ExplainRelevance(data, intent), "包含相关时间段: " + intent.timeFocus.kind)
    ensures !(intent.timeFocus.Years? && exists k :: 0 <= k < |intent.timeFocus.groups| && Contains(data.content, intent.timeFocus.groups[k]))
            && !(intent.timeFocus.Relative? && intent.timeFocus.kind != "" && Contains(data.content, intent.timeFocus.kind))
            ==> ExplainRelevance(data, intent) == ExplainRelevance(data, intent.(timeFocus := NoFocus))
  {
    var parts := ExplanationParts(data, intent);
    var ts := TimeSentence(intent.timeFocus, data.content);
    var bare := ExplanationParts(data, intent.(timeFocus := NoFocus));
    assert parts == bare + ts;
    if |ts| > 0 {
      assert parts[|parts| - 1] == ts[0];
      JoinEndsWithPart(parts, "; ");
    } else {
      assert parts == bare;
    }
  }

  // ---- scoring ----

  const FullBoost: real := 1.1

  function GranularityFactor(g: Granularity, c: ChunkType): real {
    if g == Overview && (c == TableFull || c == TableDescription) then 1.2
    else if g == Specific && (c == TableRow || c == TableColumn) then 1.2
    else if g == MetricLevel && c == TableMetric then 1.3
    else 1.0
  }

  function CalculationFactor(intent: QueryIntent, c: ChunkType): real {
    if intent.calculation && c == TableMetric then 1.2 else 1.0
  }

  /** The data type named by the intent occurs in the chunk's table type. */
  predicate TypeMatches(intent: QueryIntent, data: Payload) {
    intent.dataType != UnknownType
    && match ExtractTableType(data)
       case Some(t) => t != "" && Contains(t, DataTypeName(intent.dataType))
       case None => false
  }

  function TypeFactor(intent: QueryIntent, data: Payload): real {
    if TypeMatches(intent, data) then 1.15 else 1.0
  }

  /** `_adjust_by_intent`: multiplies the score by the granularity, calculation and
      table-type factors in turn. */
  method AdjustByIntent(score: real, data: Payload, intent: QueryIntent) returns (adjusted: real)
    ensures adjusted == score * GranularityFactor(intent.granularity, data.chunkType)
                              * CalculationFactor(intent, data.chunkType) * TypeFactor(intent, data)
  {
    adjusted := score;
    if intent.granularity == Overview && (data.chunkType == TableFull || data.chunkType == TableDescription) {
      adjusted := adjusted * 1.2;
    } else if intent.granularity == Specific && (data.chunkType == TableRow || data.chunkType == TableColumn) {
      adjusted := adjusted * 1.2;
    } else if intent.granularity == MetricLevel && data.chunkType == TableMetric {
      adjusted := adjusted * 1.3;
    }
    if intent.calculation && data.chunkType == TableMetric {
      adjusted := adjusted * 1.2;
    }
    if intent.dataType != UnknownType {
      var tableType := ExtractTableType(data);
      if tableType.Some? && tableType.value != "" && Contains(tableType.value, DataTypeName(intent.dataType)) {
        adjusted := adjusted * 1.15;
      }
    }
  }

  /** The whole multiplier a chunk's raw score receives in post-processing. */
  function Boost(data: Payload, intent: QueryIntent): real {
    (if data.chunkType == TableFull then FullBoost else 1.0)
    * GranularityFactor(intent.granularity, data.chunkType)
    * CalculationFactor(intent, data.chunkType) * TypeFactor(intent, data)
  }

  /** At most one granularity factor applies, every factor is at least 1, and so the
      boost lies between 1 and 1.1 * 1.3 * 1.2 * 1.15; a metric chunk can never get the
      full-table boost and a title chunk gets at most the table-type factor. */
  lemma BoostBounds(data: Payload, intent: QueryIntent)
    ensures GranularityFactor(intent.granularity, data.chunkType) in {1.0, 1.2, 1.3}
    ensures 1.0 <= Boost(data, intent) <= FullBoost * 1.3 * 1.2 * 1.15
    ensures data.chunkType == TableTitle ==> Boost(data, intent) == TypeFactor(intent, data)
    ensures data.chunkType == TableMetric ==>
              Boost(data, intent) == 1.3 * CalculationFactor(intent, data.chunkType) * TypeFactor(intent, data)
              || Boost(data, intent) == CalculationFactor(intent, data.chunkType) * TypeFactor(intent, data)
  {
    var g := GranularityFactor(intent.granularity, data.chunkType);
    var c := CalculationFactor(intent, data.chunkType);
    var t := TypeFactor(intent, data);
    var f := if data.chunkType == TableFull then FullBoost else 1.0;
    assert 1.0 <= f <= FullBoost && 1.0 <= g <= 1.3 && 1.0 <= c <= 1.2 && 1.0 <= t <= 1.15;
    assert 1.0 <= f * g <= FullBoost * 1.3;
    assert 1.0 <= f * g * c <= FullBoost * 1.3 * 1.2;
  }

  // ---- post-processing ----

  /** A re-ranked result. */
  datatype Processed = Processed(
    score: real, rank: nat, content: string, chunkType: ChunkType,
    metadata: Metadata, tableIdx: nat, explanation: string)

  /** The enhanced record built for one raw hit, before de-duplication. */
  function Enhance(r: Indexer.SearchResult, intent: QueryIntent): Processed {
    Processed(r.score * Boost(r.data, intent), r.rank, r.data.content, r.data.chunkType,
              r.data.metadata, r.data.tableIdx, ExplainRelevance(r.data, intent))
  }

  function TableIdOfHit(r: Indexer.SearchResult): string {
    r.data.metadata.tableId
  }

  /** The tables whose full chunk occurs among the first `n` hits. */
  function SeenIds(raw: seq<Indexer.SearchResult>, n: nat): (seen: set<string>)
    requires n <= |raw|
  {
    if n == 0 then {}
    else
      var prev := SeenIds(raw, n - 1);
      if raw[n - 1].data.chunkType == TableFull then prev + {TableIdOfHit(raw[n - 1])} else prev
  }

  lemma {:induction false} SeenIdsIff(raw: seq<Indexer.SearchResult>, n: nat)
    requires n <= |raw|
    ensures forall id :: id in SeenIds(raw, n) <==>
              exists j :: 0 <= j < n && raw[j].data.chunkType == TableFull && TableIdOfHit(raw[j]) == id
  {
    if n > 0 {
      SeenIdsIff(raw, n - 1);
    }
  }

  /** Hit `k` survives de-duplication: it is not a full chunk, or it is the first full
      chunk of its table. */
  predicate KeptAt(raw: seq<Indexer.SearchResult>, k: nat)
    requires k < |raw|
  {
    raw[k].data.chunkType != TableFull || TableIdOfHit(raw[k]) !in SeenIds(raw, k)
  }

  /** The positions of the surviving hits among the first `n`, in retrieval order. */
  function KeptIndices(raw: seq<Indexer.SearchResult>, n: nat): (ids: seq<nat>)
    requires n <= |raw|
    ensures |ids| <= n
  {
    if n == 0 then []
    else KeptIndices(raw, n - 1) + (if KeptAt(raw, n - 1) then [n - 1] else [])
  }

  /** The kept positions are increasing and are exactly the hits kept. */
  lemma {:induction false} KeptIndicesFacts(raw: seq<Indexer.SearchResult>, n: nat)
    requires n <= |raw|
    ensures forall i :: 0 <= i < |KeptIndices(raw, n)| ==> KeptIndices(raw, n)[i] < n
    ensures forall i, j :: 0 <= i < j < |KeptIndices(raw, n)| ==> KeptIndices(raw, n)[i] < KeptIndices(raw, n)[j]
    ensures forall k :: 0 <= k < n ==> (KeptAt(raw, k) <==> k in KeptIndices(raw, n))
  {
    if n > 0 {
      KeptIndicesFacts(raw, n - 1);
      var prev := KeptIndices(raw, n - 1);
      var ids := KeptIndices(raw, n);
      assert ids == prev + (if KeptAt(raw, n - 1) then [n - 1] else []);
      forall k | 0 <= k < n
        ensures KeptAt(raw, k) <==> k in ids
      {
        if k < n - 1 {
          assert k in ids <==> k in prev;
        }
      }
    }
  }

  /** The enhanced records of the surviving hits among the first `n`, in retrieval order. */
  function Filtered(raw: seq<Indexer.SearchResult>, intent: QueryIntent, n: nat): (r: seq<Processed>)
    requires n <= |raw|
    ensures |r| <= n
  {
    var ids := KeptIndices(raw, n);
    KeptIndicesFacts(raw, n);
    seq(|ids|, i requires 0 <= i < |ids| => Enhance(raw[ids[i]], intent))
  }

  function ScoreOf(p: Processed): real {
    p.score
  }

  /** Ranks renumbered `1 ..` in list order. */
  function Renumbered(s: seq<Processed>): seq<Processed>
  {
    seq(|s|, i requires 0 <= i < |s| => s[i].(rank := i + 1))
  }

  /** What `_post_process_results` returns. */
  function PostProcessed(raw: seq<Indexer.SearchResult>, intent: QueryIntent): seq<Processed> {
    Renumbered(Collections.SortDesc(Filtered(raw, intent, |raw|), ScoreOf))
  }

  /** The enhanced record of one hit: the full-table boost, then `_adjust_by_intent`. */
  method EnhanceHit(r: Indexer.SearchResult, intent: QueryIntent) returns (enhanced: Processed)
    ensures enhanced == Enhance(r, intent)
  {
    var data := r.data;
    var score := r.score;
    if data.chunkType == TableFull {
      score := score * FullBoost;
    }
    var adjusted := AdjustByIntent(score, data, intent);
    enhanced := Processed(adjusted, r.rank, data.content, data.chunkType, data.metadata,
                          data.tableIdx, ExplainRelevance(data, intent));
  }

  /** The loop of `_post_process_results` that builds, boosts and de-duplicates. */
  method BoostAndDedup(raw: seq<Indexer.SearchResult>, intent: QueryIntent) returns (processed: seq<Processed>)
    ensures processed == Filtered(raw, intent, |raw|)
  {
    processed := [];
    var seen: set<string> := {};
    for k := 0 to |raw|
      invariant processed == Filtered(raw, intent, k)
      invariant seen == SeenIds(raw, k)
    {
      processed, seen := BoostAndDedupStep(raw, intent, k, processed, seen);
    }
  }

  /** One pass of that loop: the hit's record is kept unless it is a full chunk of a
      table already seen, and a kept full chunk marks its table seen. */
  method BoostAndDedupStep(raw: seq<Indexer.SearchResult>, intent: QueryIntent, k: nat,
                           processed: seq<Processed>, seen: set<string>)
    returns (processed': seq<Processed>, seen': set<string>)
    requires k < |raw| && processed == Filtered(raw, intent, k) && seen == SeenIds(raw, k)
    ensures processed' == Filtered(raw, intent, k + 1) && seen' == SeenIds(raw, k + 1)
  {
    var tableId := raw[k].data.metadata.tableId;
    var enhanced := EnhanceHit(raw[k], intent);
    FilteredStep(raw, intent, k);
    processed', seen' := processed, seen;
    if tableId !in seen || enhanced.chunkType != TableFull {
      processed' := processed + [enhanced];
      if enhanced.chunkType == TableFull {
        seen' := seen + {tableId};
      }
    }
  }

  /** The final loop of `_post_process_results`: `rank = i + 1`. */
  method RenumberRanks(s: seq<Processed>) returns (r: seq<Processed>)
    ensures r == Renumbered(s)
  {
    r := s;
    for i := 0 to |r|
      invariant |r| == |s|
      invariant forall j :: 0 <= j < i ==> r[j] == s[j].(rank := j + 1)
      invariant forall j :: i <= j < |r| ==> r[j] == s[j]
    {
      r := r[i := r[i].(rank := i + 1)];
    }
  }

  /** `_post_process_results`: builds and boosts a record per hit, drops every full chunk
      of a table already seen, sorts by score (stable, best first) and renumbers ranks. */
  method PostProcessResults(raw: seq<Indexer.SearchResult>, intent: QueryIntent) returns (processed: seq<Processed>)
    ensures processed == PostProcessed(raw, intent)
  {
    processed := BoostAndDedup(raw, intent);
    processed := Collections.SortDesc(processed, ScoreOf);
    processed := RenumberRanks(processed);
  }

  // ---- properties of post-processing ----

  /** One more hit appends its record exactly when it survives. */
  lemma FilteredStep(raw: seq<Indexer.SearchResult>, intent: QueryIntent, k: nat)
    requires k < |raw|
    ensures Filtered(raw, intent, k + 1)
         == Filtered(raw, intent, k) + (if KeptAt(raw, k) then [Enhance(raw[k], intent)] else [])
  {
    var ids := KeptIndices(raw, k);
    assert KeptIndices(raw, k + 1) == ids + (if KeptAt(raw, k) then [k] else []);
  }

  /** The surviving records are the enhanced records of exactly the kept hits. */
  lemma FilteredExactly(raw: seq<Indexer.SearchResult>, intent: QueryIntent)
    ensures forall p :: p in Filtered(raw, intent, |raw|) ==>
              exists k :: 0 <= k < |raw| && KeptAt(raw, k) && p == Enhance(raw[k], intent)
    ensures forall k :: 0 <= k < |raw| && KeptAt(raw, k) ==> Enhance(raw[k], intent) in Filtered(raw, intent, |raw|)
  {
    var ids := KeptIndices(raw, |raw|);
    var f := Filtered(raw, intent, |raw|);
    KeptIndicesFacts(raw, |raw|);
    forall k | 0 <= k < |raw| && KeptAt(raw, k)
      ensures Enhance(raw[k], intent) in f
    {
      var i :| 0 <= i < |ids| && ids[i] == k;
      assert f[i] == Enhance(raw[k], intent);
    }
  }

  /** Non-full chunks are never dropped. */
  lemma NonFullKept(raw: seq<Indexer.SearchResult>, intent: QueryIntent, k: nat)
    requires k < |raw| && raw[k].data.chunkType != TableFull
    ensures Enhance(raw[k], intent) in Filtered(raw, intent, |raw|)
  {
    FilteredExactly(raw, intent);
  }

  /** A full chunk survives exactly when no earlier hit is a full chunk of the same table. */
  lemma FullKeptIff(raw: seq<Indexer.SearchResult>, k: nat)
    requires k < |raw| && raw[k].data.chunkType == TableFull
    ensures KeptAt(raw, k) <==>
              forall j :: 0 <= j < k && raw[j].data.chunkType == TableFull ==> TableIdOfHit(raw[j]) != TableIdOfHit(raw[k])
  {
    SeenIdsIff(raw, k);
  }

  /** A surviving full chunk shares its table with no earlier full chunk. */
  lemma KeptFullIsFirst(raw: seq<Indexer.SearchResult>, a: nat, b: nat)
    requires a < b < |raw| && KeptAt(raw, b)
    requires raw[a].data.chunkType == TableFull && raw[b].data.chunkType == TableFull
    ensures TableIdOfHit(raw[a]) != TableIdOfHit(raw[b])
  {
    SeenIdsIff(raw, b);
  }

  /** So no two surviving records are full chunks of the same table. */
  lemma FilteredOneFullPerTable(raw: seq<Indexer.SearchResult>, intent: QueryIntent)
    ensures var f := Filtered(raw, intent, |raw|);
            forall i, j :: 0 <= i < j < |f| && f[i].chunkType == TableFull && f[j].chunkType == TableFull ==>
              f[i].metadata.tableId != f[j].metadata.tableId
  {
    var ids := KeptIndices(raw, |raw|);
    var f := Filtered(raw, intent, |raw|);
    KeptIndicesFacts(raw, |raw|);
    forall i, j | 0 <= i < j < |f| && f[i].chunkType == TableFull && f[j].chunkType == TableFull
      ensures f[i].metadata.tableId != f[j].metadata.tableId
    {
      assert f[i] == Enhance(raw[ids[i]], intent) && f[j] == Enhance(raw[ids[j]], intent);
      assert raw[ids[i]].data.chunkType == TableFull && raw[ids[j]].data.chunkType == TableFull;
      assert f[i].metadata.tableId == TableIdOfHit(raw[ids[i]]) && f[j].metadata.tableId == TableIdOfHit(raw[ids[j]]);
      assert ids[j] in ids && ids[i] < ids[j];
      KeptFullIsFirst(raw, ids[i], ids[j]);
    }
  }

  /** The output has no more entries than the input, is sorted by score with ties in
      retrieval order, is ranked 1 .. n, and holds exactly the surviving records. */
  lemma PostProcessedFacts(raw: seq<Indexer.SearchResult>, intent: QueryIntent, v: real)
    ensures var out := PostProcessed(raw, intent);
            var kept := Filtered(raw, intent, |raw|);
            var sorted := Collections.SortDesc(kept, ScoreOf);
            && |out| == |kept| <= |raw|
            && (forall i :: 0 <= i < |out| ==> out[i].rank == i + 1 && out[i] == sorted[i].(rank := i + 1))
            && (forall i, j :: 0 <= i < j < |out| ==> out[i].score >= out[j].score)
            && multiset(sorted) == multiset(kept)
            && Collections.WithKey(sorted, ScoreOf, v) == Collections.WithKey(kept, ScoreOf, v)
  {
    var kept := Filtered(raw, intent, |raw|);
    var sorted := Collections.SortDesc(kept, ScoreOf);
    assert PostProcessed(raw, intent) == Renumbered(sorted);
    Collections.SortDescStable(kept, ScoreOf, v);
    Collections.SortDescPerm(kept, ScoreOf);
  }

  // ---- the whole query ----

  /** `process_query`: enrich, encode, search, post-process; a failed search fails. */
  method ProcessQuery(index: Indexer.VectorIndexBuilder, query: string, intent: QueryIntent, topK: nat,
                      encode: string -> seq<real>, sim: (seq<real>, seq<real>) -> real,
                      knn: (seq<real>, nat) -> seq<(nat, real)>)
    returns (res: Result<seq<Processed>>)
    requires index.Valid()
    ensures index.index.BruteForce? ==>
              match Indexer.BruteForceSearch(index.index.vectors, encode(EnhanceQuery(query, intent)), sim, topK, index.idToData)
              case Ok(hits) => res == Ok(PostProcessed(hits, intent))
              case Err(e) => res == Err(e)
    ensures index.index.NotBuilt? ==> res == Ok([])
    ensures index.index.Hnsw? ==>
              match Indexer.HnswResults(knn(encode(EnhanceQuery(query, intent)), topK), index.idToData, 0)
              case Ok(hits) => res == Ok(PostProcessed(hits, intent))
              case Err(e) => res == Err(e)
  {
    var enhanced := EnhanceQuery(query, intent);
    var queryVector := encode(enhanced);
    var raw := index.Search(queryVector, topK, sim, knn);
    match raw
    case Err(e) =>
      res := Err(e);
    case Ok(hits) =>
      var processed := PostProcessResults(hits, intent);
      res := Ok(processed);
  }
}
