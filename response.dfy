// The answer builder: keeps the enhanced tables with an index from table id to
// position, routes a query to one of five response styles by its intent, and writes
// the specific and metric answers together with the tables they cite.
module Response {
  import opened Wrappers
  import opened Text
  import opened Tables
  import opened Intent
  import Collections
  import Search

  type Hit = Search.Processed

  /** One entry of `source_tables`. */
  datatype SourceTable = SourceTable(tableId: string, title: string, page: int, score: real)

  /** The returned dict: its `text` and `source_tables`. */
  datatype Reply = Reply(text: string, sourceTables: seq<SourceTable>)

  /** A renderer for the overview, calculation and comparison styles, whose text rests
      on float arithmetic and an unordered set of metric names. */
  type Renderer = (seq<Hit>, QueryIntent, seq<EnhancedTable>, map<string, nat>) -> Reply

  /** The pieces the answers use but that are not part of this model: three renderers,
      the regex search for a metric name in the query, and the trend sentence. */
  datatype Helpers = Helpers(
    overview: Renderer,
    calculation: Renderer,
    comparison: Renderer,
    metricFromQuery: string -> Option<string>,
    trendInfo: (seq<Hit>, string) -> Option<string>)

  const NotFoundText: string := "未找到与您查询相关的表格信息。请尝试使用不同的关键词或更具体的问题。"

  function TableIdOf(t: EnhancedTable): string {
    t.data.meta.tableId
  }

  /** `{table['table_data']['metadata']['table_id']: i for i, table in enumerate(tables)}`. */
  function TableIndex(tables: seq<EnhancedTable>): map<string, nat> {
    Collections.LastIndexMap(tables, TableIdOf)
  }

  /** Every position in the index names a table. */
  predicate IndexFits(tables: seq<EnhancedTable>, index: map<string, nat>) {
    forall id :: id in index ==> index[id] < |tables|
  }

  lemma TableIndexFits(tables: seq<EnhancedTable>)
    ensures IndexFits(tables, TableIndex(tables))
    ensures forall id :: id in TableIndex(tables) ==> TableIdOf(tables[TableIndex(tables)[id]]) == id
  {
  }

  /** A non-empty string held in an option. */
  predicate Truthy(v: Option<string>) {
    v.Some? && v.value != ""
  }

  // ---- calculation type and time ----

  const CalculationTypes: seq<(string, seq<string>)> := [
    ("percentage", ["占比", "比例", "百分比", "percentage", "ratio", "proportion"]),
    ("growth", ["增长率", "增长了多少", "下降了多少", "变化率", "growth rate", "increase rate"]),
    ("sum", ["总和", "总计", "合计", "sum", "total"]),
    ("average", ["平均", "平均值", "average", "mean"])
  ]

  /** `_extract_calculation_type`. */
  function ExtractCalculationType(query: string): (r: string)
    ensures r in ["percentage", "growth", "sum", "average", "general"]
  {
    LabelOf(CalculationTypes, ToLower(query), "general")
  }

  /** The kind is the first group, in the order percentage, growth, sum, average, with a
      term in the lowered query, and "general" exactly when no group has one. */
  lemma CalculationTypeFacts(query: string)
    ensures ExtractCalculationType(query) == "general" <==>
              forall k :: 0 <= k < |CalculationTypes| ==> !ContainsAny(ToLower(query), CalculationTypes[k].1)
    ensures forall k :: 0 <= k < |CalculationTypes| && ExtractCalculationType(query) == CalculationTypes[k].0 ==>
              ContainsAny(ToLower(query), CalculationTypes[k].1)
              && forall j :: 0 <= j < k ==> !ContainsAny(ToLower(query), CalculationTypes[j].1)
    ensures ContainsAny(ToLower(query), CalculationTypes[0].1) ==> ExtractCalculationType(query) == "percentage"
  {
    LabelOfFacts(CalculationTypes, ToLower(query), "general");
  }

  /** `_format_time_info`; its callers pass it only a truthy `time_focus`, never an
      empty list (on which `time_info[0]` would raise). */
  function FormatTimeInfo(t: TimeFocus): (r: string)
    requires t.Years? ==> |t.groups| > 0
  {
    match t
    case Years(gs) => if |gs| == 1 then gs[0] + "年" else gs[0] + "年到" + gs[|gs| - 1] + "年"
    case Relative(k) =>
      if k == "current" then "当前年度"
      else if k == "previous" then "上一年度"
      else if k == "next" then "下一年度"
      else if k == "recent" then "近期"
      else k
    case NoFocus => "None"
  }

  /** A list names its first entry and, when longer, its last; the four relative labels
      become four different Chinese phrases and any other string is kept. */
  lemma FormatTimeInfoFacts(t: TimeFocus)
    requires t.Years? ==> |t.groups| > 0
    ensures t.Years? ==> StartsWith(FormatTimeInfo(t), t.groups[0] + "年")
    ensures t.Years? ==> EndsWith(FormatTimeInfo(t), t.groups[|t.groups| - 1] + "年")
    ensures t.Years? && |t.groups| == 1 ==> FormatTimeInfo(t) == t.groups[0] + "年"
    ensures t.Relative? && t.kind !in RelativeKinds ==> FormatTimeInfo(t) == t.kind
    ensures forall a, b :: a in RelativeKinds && b in RelativeKinds && a != b ==>
              FormatTimeInfo(Relative(a)) != FormatTimeInfo(Relative(b))
  {
    if t.Years? {
      FormatYears(t.groups);
    }
    RelativeLabelsDiffer();
  }

  const RelativeKinds: seq<string> := ["current", "previous", "next", "recent"]

  lemma FormatYears(gs: seq<string>)
    requires |gs| > 0
    ensures StartsWith(FormatTimeInfo(Years(gs)), gs[0] + "年")
    ensures EndsWith(FormatTimeInfo(Years(gs)), gs[|gs| - 1] + "年")
    ensures |gs| == 1 ==> FormatTimeInfo(Years(gs)) == gs[0] + "年"
  {
    var r := FormatTimeInfo(Years(gs));
    if |gs| > 1 {
      assert r == (gs[0] + "年") + ("到" + gs[|gs| - 1] + "年");
      assert r == (gs[0] + "年到") + (gs[|gs| - 1] + "年");
    } else {
      assert r == (gs[0] + "年") + "";
      assert r == "" + (gs[0] + "年");
    }
  }

  lemma RelativeLabelsDiffer()
    ensures forall a, b :: a in RelativeKinds && b in RelativeKinds && a != b ==>
              FormatTimeInfo(Relative(a)) != FormatTimeInfo(Relative(b))
  {
    forall a, b | a in RelativeKinds && b in RelativeKinds && a != b
      ensures FormatTimeInfo(Relative(a)) != FormatTimeInfo(Relative(b))
    {
      assert a == "current" || a == "previous" || a == "next" || a == "recent";
      assert b == "current" || b == "previous" || b == "next" || b == "recent";
    }
  }

  // ---- suggested metrics ----

  /** A metric chunk whose metadata names its metric. */
  predicate IsNamedMetric(h: Hit) {
    h.chunkType == TableMetric && h.metadata.metricName.Some?
  }

  /** `_extract_suggested_metrics`: the metric names of the metric hits, as a set. */
  method ExtractSuggestedMetrics(hits: seq<Hit>) returns (names: set<string>)
    ensures forall x :: x in names <==> exists i :: 0 <= i < |hits| && IsNamedMetric(hits[i]) && hits[i].metadata.metricName.value == x
  {
    var metrics: seq<string> := [];
    for i := 0 to |hits|
      invariant forall x :: x in metrics <==> exists j :: 0 <= j < i && IsNamedMetric(hits[j]) && hits[j].metadata.metricName.value == x
    {
      if hits[i].chunkType == TableMetric && hits[i].metadata.metricName.Some? {
        metrics := metrics + [hits[i].metadata.metricName.value];
      }
    }
    names := set x | x in metrics;
  }

  // ---- cited tables ----

  /** `relevant_tables` already lists the table. */
  predicate ListsTable(ts: seq<SourceTable>, id: string) {
    exists j :: 0 <= j < |ts| && ts[j].tableId == id
  }

  /** The source entry for a hit: the table's title (`'表格'` without one), the hit's page
      counted from 1 and its score. */
  function SourceFor(h: Hit, t: EnhancedTable): SourceTable {
    SourceTable(h.metadata.tableId, t.data.title.GetOr("表格"), h.metadata.page + 1, h.score)
  }

  /** The hit names a table the index knows. */
  predicate Indexed(h: Hit, index: map<string, nat>) {
    h.metadata.tableId != "" && h.metadata.tableId in index
  }

  /** `e` is the entry cited for hit `h`. */
  predicate CitedFrom(e: SourceTable, h: Hit, tables: seq<EnhancedTable>, index: map<string, nat>) {
    Indexed(h, index) && index[h.metadata.tableId] < |tables| && e == SourceFor(h, tables[index[h.metadata.tableId]])
  }

  /** The tables cited after the first `n` hits: a hit adds its table when the index
      knows it and it is not cited yet. */
  function SourcesUpTo(hits: seq<Hit>, tables: seq<EnhancedTable>, index: map<string, nat>, n: nat): seq<SourceTable>
    requires IndexFits(tables, index) && n <= |hits|
  {
    if n == 0 then []
    else
      var prev := SourcesUpTo(hits, tables, index, n - 1);
      var h := hits[n - 1];
      if Indexed(h, index) && !ListsTable(prev, h.metadata.tableId) then
        prev + [SourceFor(h, tables[index[h.metadata.tableId]])]
      else prev
  }

  /** The cited tables have distinct, indexed ids; each is the entry of one of the hits;
      every hit whose table the index knows has its table cited; and there are no more
      entries than hits. */
  lemma SourcesFacts(hits: seq<Hit>, tables: seq<EnhancedTable>, index: map<string, nat>, n: nat)
    requires IndexFits(tables, index) && n <= |hits|
    ensures var s := SourcesUpTo(hits, tables, index, n);
            && |s| <= n
            && (forall a, b :: 0 <= a < b < |s| ==> s[a].tableId != s[b].tableId)
            && (forall a :: 0 <= a < |s| ==> s[a].tableId != "" && s[a].tableId in index)
            && (forall a :: 0 <= a < |s| ==> exists j :: 0 <= j < n && CitedFrom(s[a], hits[j], tables, index))
            && (forall j :: 0 <= j < n && Indexed(hits[j], index) ==> ListsTable(s, hits[j].metadata.tableId))
  {
    SourcesDistinct(hits, tables, index, n);
    SourcesCited(hits, tables, index, n);
    SourcesCover(hits, tables, index, n);
  }

  /** No two cited entries share an id. */
  ghost predicate DistinctIds(s: seq<SourceTable>) {
    forall a, b :: 0 <= a < b < |s| ==> s[a].tableId != s[b].tableId
  }

  /** Every cited entry has an id the index knows. */
  ghost predicate AllIndexed(s: seq<SourceTable>, index: map<string, nat>) {
    forall a :: 0 <= a < |s| ==> s[a].tableId != "" && s[a].tableId in index
  }

  /** Every cited entry is the entry of one of the first `n` hits. */
  ghost predicate AllCited(s: seq<SourceTable>, hits: seq<Hit>, n: nat, tables: seq<EnhancedTable>, index: map<string, nat>)
    requires n <= |hits|
  {
    forall a :: 0 <= a < |s| ==> exists j :: 0 <= j < n && CitedFrom(s[a], hits[j], tables, index)
  }

  /** Every one of the first `n` hits whose table is indexed has that table cited. */
  ghost predicate CoversIndexed(s: seq<SourceTable>, hits: seq<Hit>, n: nat, index: map<string, nat>)
    requires n <= |hits|
  {
    forall j :: 0 <= j < n && Indexed(hits[j], index) ==> ListsTable(s, hits[j].metadata.tableId)
  }

  lemma {:induction false} SourcesDistinct(hits: seq<Hit>, tables: seq<EnhancedTable>, index: map<string, nat>, n: nat)
    requires IndexFits(tables, index) && n <= |hits|
    ensures |SourcesUpTo(hits, tables, index, n)| <= n
    ensures DistinctIds(SourcesUpTo(hits, tables, index, n))
    ensures AllIndexed(SourcesUpTo(hits, tables, index, n), index)
  {
    if n > 0 {
      SourcesDistinct(hits, tables, index, n - 1);
      var prev := SourcesUpTo(hits, tables, index, n - 1);
      var h := hits[n - 1];
      if Indexed(h, index) && !ListsTable(prev, h.metadata.tableId) {
        var s := prev + [SourceFor(h, tables[index[h.metadata.tableId]])];
        assert SourcesUpTo(hits, tables, index, n) == s;
        forall a, b | 0 <= a < b < |s|
          ensures s[a].tableId != s[b].tableId
        {
          if b == |prev| {
            assert s[a] == prev[a];
          }
        }
      }
    }
  }

  lemma {:induction false} SourcesCited(hits: seq<Hit>, tables: seq<EnhancedTable>, index: map<string, nat>, n: nat)
    requires IndexFits(tables, index) && n <= |hits|
    ensures AllCited(SourcesUpTo(hits, tables, index, n), hits, n, tables, index)
  {
    if n > 0 {
      SourcesCited(hits, tables, index, n - 1);
      var prev := SourcesUpTo(hits, tables, index, n - 1);
      var s := SourcesUpTo(hits, tables, index, n);
      var h := hits[n - 1];
      forall a | 0 <= a < |s|
        ensures exists j :: 0 <= j < n && CitedFrom(s[a], hits[j], tables, index)
      {
        if a < |prev| {
          assert s[a] == prev[a];
          var j :| 0 <= j < n - 1 && CitedFrom(prev[a], hits[j], tables, index);
          assert CitedFrom(s[a], hits[j], tables, index);
        } else {
          assert CitedFrom(s[a], hits[n - 1], tables, index);
        }
      }
    }
  }

  lemma {:induction false} SourcesCover(hits: seq<Hit>, tables: seq<EnhancedTable>, index: map<string, nat>, n: nat)
    requires IndexFits(tables, index) && n <= |hits|
    ensures CoversIndexed(SourcesUpTo(hits, tables, index, n), hits, n, index)
  {
    if n > 0 {
      SourcesCover(hits, tables, index, n - 1);
      var prev := SourcesUpTo(hits, tables, index, n - 1);
      var s := SourcesUpTo(hits, tables, index, n);
      var h := hits[n - 1];
      assert s == prev || (Indexed(h, index) && s == prev + [SourceFor(h, tables[index[h.metadata.tableId]])]);
      forall j | 0 <= j < n && Indexed(hits[j], index)
        ensures ListsTable(s, hits[j].metadata.tableId)
      {
        if j < n - 1 {
          var b :| 0 <= b < |prev| && prev[b].tableId == hits[j].metadata.tableId;
          assert s[b] == prev[b];
        } else if s != prev {
          assert s[|prev|].tableId == hits[j].metadata.tableId;
        }
      }
    }
  }

  // ---- the specific answer ----

  /** `content[:n] + "..."` when longer than `n`. */
  function Preview(content: string, n: nat): (r: string)
    ensures |content| <= n ==> r == content
    ensures |content| > n ==> |r| == n + 3 && StartsWith(r, content[..n]) && EndsWith(r, "...")
  {
    if |content| > n then content[..n] + "..." else content
  }

  function PageText(h: Hit): string {
    IntToString(h.metadata.page + 1)
  }

  /** The two lines the specific answer writes for the `i`-th hit (counted from 0). */
  function SpecificLines(i: nat, h: Hit): seq<string> {
    var number := "\n" + NatToString(i + 1) + ". ";
    var page := " (第" + PageText(h) + "页)：";
    match h.chunkType
    case TableFull => [number + "找到相关表格" + page, "   " + Preview(h.content, 150)]
    case TableMetric => [number + "找到相关指标" + page, "   " + h.content]
    case TableRow => [number + "找到相关数据" + page, "   " + h.content]
    case TableColumn => [number + "找到相关数据" + page, "   " + h.content]
    case _ => [number + "相关信息" + page, "   " + Preview(h.content, 150)]
  }

  function SpecificLinesUpTo(hits: seq<Hit>, n: nat): (lines: seq<string>)
    requires n <= |hits|
    ensures |lines| == 2 * n
  {
    if n == 0 then [] else SpecificLinesUpTo(hits, n - 1) + SpecificLines(n - 1, hits[n - 1])
  }

  const SpecificHeader: string := "关于您查询的具体信息："
  const SpecificFooter: string := "\n您可以查看相关表格以获取更详细的信息。"

  function TimeLines(intent: QueryIntent, before: string, after: string): seq<string> {
    if Search.HasTimeFocus(intent.timeFocus) then [before + FormatTimeInfo(intent.timeFocus) + after] else []
  }

  /** What `_generate_specific_response` returns: up to three hits, each with its two
      lines, the time sentence when the intent has a time focus, and the closing line. */
  function SpecificReply(hits: seq<Hit>, intent: QueryIntent, tables: seq<EnhancedTable>, index: map<string, nat>): Reply
    requires IndexFits(tables, index)
  {
    var top := Top3(hits);
    var parts := [SpecificHeader] + SpecificLinesUpTo(top, |top|)
                 + TimeLines(intent, "\n以上数据涉及", "的信息。") + [SpecificFooter];
    Reply(Join(parts, "\n"), SourcesUpTo(top, tables, index, |top|))
  }

  // ---- the metric answer ----

  /** The first three elements, `s[:3]`. */
  function Top3<T>(s: seq<T>): (r: seq<T>)
    ensures |r| <= 3 && |r| == (if |s| < 3 then |s| else 3)
    ensures forall i :: 0 <= i < |r| ==> r[i] == s[i]
  {
    if |s| <= 3 then s else s[..3]
  }

  /** `[r for r in results if r['chunk_type'] == 'table_metric']`. */
  function MetricHits(hits: seq<Hit>): (m: seq<Hit>)
    ensures |m| <= |hits|
    ensures forall i :: 0 <= i < |m| ==> m[i].chunkType == TableMetric && m[i] in hits
    ensures |m| == 0 <==> forall i :: 0 <= i < |hits| ==> hits[i].chunkType != TableMetric
  {
    if |hits| == 0 then []
    else
      var init := hits[..|hits| - 1];
      var last := hits[|hits| - 1];
      assert forall i :: 0 <= i < |init| ==> init[i] == hits[i];
      var m := MetricHits(init);
      assert forall x :: x in init ==> x in hits;
      m + (if last.chunkType == TableMetric then [last] else [])
  }

  /** The hits the metric answer works from: the metric hits if there are any, else the
      first three hits. */
  function MetricResults(hits: seq<Hit>): seq<Hit> {
    var m := MetricHits(hits);
    if |m| > 0 then m else Top3(hits)
  }

  /** The two lines the metric answer writes for a hit. */
  function MetricLines(h: Hit): seq<string> {
    if IsNamedMetric(h) then
      ["\n- " + h.metadata.metricName.value + ": " + h.metadata.metricValue.GetOr("未提供"),
       "  (数据来源: 第" + PageText(h) + "页表格)"]
    else
      ["\n- " + Preview(h.content, 100), "  (数据来源: 第" + PageText(h) + "页)"]
  }

  function MetricLinesUpTo(hits: seq<Hit>, n: nat): (lines: seq<string>)
    requires n <= |hits|
    ensures |lines| == 2 * n
  {
    if n == 0 then [] else MetricLinesUpTo(hits, n - 1) + MetricLines(hits[n - 1])
  }

  /** `metric_name` after the loop: the loop overwrites it with the name of each named
      metric hit, so it ends as the last such name, or the name found in the query. */
  function FinalMetricName(hits: seq<Hit>, n: nat, fromQuery: Option<string>): Option<string>
    requires n <= |hits|
  {
    if n == 0 then fromQuery
    else if IsNamedMetric(hits[n - 1]) then hits[n - 1].metadata.metricName
    else FinalMetricName(hits, n - 1, fromQuery)
  }

  function MetricHeader(fromQuery: Option<string>): string {
    if Truthy(fromQuery) then "关于\"" + fromQuery.value + "\"的查询结果：" else "您查询的指标信息如下："
  }

  function MetricTail(results: seq<Hit>, intent: QueryIntent, name: Option<string>, h: Helpers): seq<string> {
    if Truthy(name) && Search.HasTimeFocus(intent.timeFocus) then
      var trend := h.trendInfo(results, name.value);
      ["\n该指标在" + FormatTimeInfo(intent.timeFocus) + "的数据如上所示。"]
      + (if trend.Some? && trend.value != "" then [trend.value] else [])
    else []
  }

  /** What `_generate_metric_response` returns. */
  function MetricReply(hits: seq<Hit>, intent: QueryIntent, tables: seq<EnhancedTable>, index: map<string, nat>,
                       h: Helpers): Reply
    requires IndexFits(tables, index)
  {
    var results := MetricResults(hits);
    var listed := Top3(results);
    var fromQuery := h.metricFromQuery(intent.originalQuery);
    var name := FinalMetricName(listed, |listed|, fromQuery);
    var parts := [MetricHeader(fromQuery)] + MetricLinesUpTo(listed, |listed|) + MetricTail(results, intent, name, h);
    Reply(Join(parts, "\n"), SourcesUpTo(listed, tables, index, |listed|))
  }

  /** The positions of the metric chunks among the hits, in increasing order. */
  function MetricPositions(hits: seq<Hit>): (pos: seq<nat>)
    ensures forall k :: 0 <= k < |pos| ==> pos[k] < |hits|
  {
    if |hits| == 0 then []
    else MetricPositions(hits[..|hits| - 1]) + (if hits[|hits| - 1].chunkType == TableMetric then [|hits| - 1] else [])
  }

  /** The metric positions are increasing and are exactly the positions of metric chunks. */
  lemma {:induction false} MetricPositionsFacts(hits: seq<Hit>)
    ensures forall k, l :: 0 <= k < l < |MetricPositions(hits)| ==> MetricPositions(hits)[k] < MetricPositions(hits)[l]
    ensures forall i :: 0 <= i < |hits| ==> (hits[i].chunkType == TableMetric <==> i in MetricPositions(hits))
  {
    if |hits| > 0 {
      var n := |hits| - 1;
      var init := hits[..n];
      MetricPositionsFacts(init);
      var pos := MetricPositions(init);
      var all := MetricPositions(hits);
      assert all == pos + (if hits[n].chunkType == TableMetric then [n] else []);
      forall i | 0 <= i < |hits|
        ensures hits[i].chunkType == TableMetric <==> i in all
      {
        if i < n {
          assert init[i] == hits[i];
          assert i in all <==> i in pos;
        }
      }
    }
  }

  /** `m` holds the hits at positions `pos`, one for one. */
  ghost predicate AtPositions(m: seq<Hit>, hits: seq<Hit>, pos: seq<nat>) {
    |m| == |pos| && forall k :: 0 <= k < |m| ==> pos[k] < |hits| && m[k] == hits[pos[k]]
  }

  /** One step of building a filtered list and its positions: extending the prefix `hits[..n]`
      by `hits[n]`, taken or not. */
  lemma AtPositionsStep(m0: seq<Hit>, p0: seq<nat>, hits: seq<Hit>, n: nat, take: bool, m: seq<Hit>, p: seq<nat>)
    requires n < |hits| && AtPositions(m0, hits[..n], p0)
    requires m == m0 + (if take then [hits[n]] else []) && p == p0 + (if take then [n] else [])
    ensures AtPositions(m, hits, p)
  {
    forall k | 0 <= k < |m0|
      ensures p[k] < |hits| && m[k] == hits[p[k]]
    {
      assert hits[..n][p0[k]] == hits[p0[k]];
    }
  }

  /** The metric hits are the hits at the metric positions: every metric hit is kept,
      once, in retrieval order. */
  lemma {:induction false} MetricHitsPositions(hits: seq<Hit>)
    ensures AtPositions(MetricHits(hits), hits, MetricPositions(hits))
  {
    if |hits| > 0 {
      var n := |hits| - 1;
      MetricHitsPositions(hits[..n]);
      AtPositionsStep(MetricHits(hits[..n]), MetricPositions(hits[..n]), hits, n, hits[n].chunkType == TableMetric,
                      MetricHits(hits), MetricPositions(hits));
    }
  }

  /** When some hit is a metric chunk the metric answer lists only metric chunks, the
      first three of them in retrieval order; otherwise it lists the first three hits. */
  lemma MetricSelection(hits: seq<Hit>)
    ensures var results := MetricResults(hits);
            var listed := Top3(results);
            && |listed| <= 3
            && ((exists i :: 0 <= i < |hits| && hits[i].chunkType == TableMetric) ==>
                  && results == MetricHits(hits)
                  && |listed| == (if |MetricPositions(hits)| < 3 then |MetricPositions(hits)| else 3)
                  && forall k :: 0 <= k < |listed| ==> listed[k] == hits[MetricPositions(hits)[k]])
            && ((forall i :: 0 <= i < |hits| ==> hits[i].chunkType != TableMetric) ==>
                  listed == Top3(hits))
  {
    MetricHitsPositions(hits);
    MetricPositionsFacts(hits);
  }

  // ---- routing ----

  /** The answer `generate_response` gives for the current tables and index. */
  function Respond(hits: seq<Hit>, intent: QueryIntent, tables: seq<EnhancedTable>, index: map<string, nat>,
                   h: Helpers): Reply
    requires IndexFits(tables, index)
  {
    if |hits| == 0 then Reply(NotFoundText, [])
    else if intent.granularity == Overview then h.overview(hits, intent, tables, index)
    else if intent.granularity == MetricLevel then MetricReply(hits, intent, tables, index, h)
    else if intent.calculation then h.calculation(hits, intent, tables, index)
    else if intent.comparison then h.comparison(hits, intent, tables, index)
    else SpecificReply(hits, intent, tables, index)
  }

  /** Routing: no hits give the fixed apology and no tables; otherwise overview wins,
      then the metric level, then calculation before comparison, and a specific query
      with neither gets the specific answer. */
  lemma RespondRouting(hits: seq<Hit>, intent: QueryIntent, tables: seq<EnhancedTable>, h: Helpers)
    ensures IndexFits(tables, TableIndex(tables))
    ensures |hits| == 0 ==> Respond(hits, intent, tables, TableIndex(tables), h) == Reply(NotFoundText, [])
    ensures |hits| > 0 && intent.granularity == Overview ==>
              Respond(hits, intent, tables, TableIndex(tables), h) == h.overview(hits, intent, tables, TableIndex(tables))
    ensures |hits| > 0 && intent.granularity == MetricLevel ==>
              Respond(hits, intent, tables, TableIndex(tables), h) == MetricReply(hits, intent, tables, TableIndex(tables), h)
    ensures |hits| > 0 && intent.granularity == Specific && intent.calculation ==>
              Respond(hits, intent, tables, TableIndex(tables), h) == h.calculation(hits, intent, tables, TableIndex(tables))
    ensures |hits| > 0 && intent.granularity == Specific && !intent.calculation && intent.comparison ==>
              Respond(hits, intent, tables, TableIndex(tables), h) == h.comparison(hits, intent, tables, TableIndex(tables))
    ensures |hits| > 0 && intent.granularity == Specific && !intent.calculation && !intent.comparison ==>
              Respond(hits, intent, tables, TableIndex(tables), h) == SpecificReply(hits, intent, tables, TableIndex(tables))
  {
    TableIndexFits(tables);
  }

  /** The tables a specific answer cites: at most three, distinct, all known to the
      index, each the entry of one of the three hits shown, and every indexed table among
      those hits cited. Its text opens with the header and closes with the footer. */
  lemma SpecificReplyFacts(hits: seq<Hit>, intent: QueryIntent, tables: seq<EnhancedTable>, index: map<string, nat>)
    requires IndexFits(tables, index)
    ensures var r := SpecificReply(hits, intent, tables, index);
            var top := Top3(hits);
            && |r.sourceTables| <= 3
            && (forall a, b :: 0 <= a < b < |r.sourceTables| ==> r.sourceTables[a].tableId != r.sourceTables[b].tableId)
            && (forall a :: 0 <= a < |r.sourceTables| ==> r.sourceTables[a].tableId in index)
            && (forall a :: 0 <= a < |r.sourceTables| ==> exists j :: 0 <= j < |top| && CitedFrom(r.sourceTables[a], top[j], tables, index))
            && (forall j :: 0 <= j < |top| && Indexed(top[j], index) ==> ListsTable(r.sourceTables, top[j].metadata.tableId))
            && StartsWith(r.text, SpecificHeader)
            && EndsWith(r.text, "\n" + SpecificFooter)
  {
    var top := Top3(hits);
    SourcesFacts(top, tables, index, |top|);
    var parts := [SpecificHeader] + SpecificLinesUpTo(top, |top|)
                 + TimeLines(intent, "\n以上数据涉及", "的信息。") + [SpecificFooter];
    JoinStartsWithFirst(parts, "\n");
    JoinEndsWithLast(parts, "\n");
  }

  /** The same citation facts for the metric answer, over the hits it lists; its text
      opens with the header for the metric named in the query, when there is one. */
  lemma MetricReplyFacts(hits: seq<Hit>, intent: QueryIntent, tables: seq<EnhancedTable>, index: map<string, nat>, h: Helpers)
    requires IndexFits(tables, index)
    ensures var r := MetricReply(hits, intent, tables, index, h);
            var listed := Top3(MetricResults(hits));
            && |r.sourceTables| <= 3
            && (forall a, b :: 0 <= a < b < |r.sourceTables| ==> r.sourceTables[a].tableId != r.sourceTables[b].tableId)
            && (forall a :: 0 <= a < |r.sourceTables| ==> r.sourceTables[a].tableId in index)
            && (forall a :: 0 <= a < |r.sourceTables| ==> exists j :: 0 <= j < |listed| && CitedFrom(r.sourceTables[a], listed[j], tables, index))
            && (forall j :: 0 <= j < |listed| && Indexed(listed[j], index) ==> ListsTable(r.sourceTables, listed[j].metadata.tableId))
            && StartsWith(r.text, MetricHeader(h.metricFromQuery(intent.originalQuery)))
  {
    var results := MetricResults(hits);
    var listed := Top3(results);
    SourcesFacts(listed, tables, index, |listed|);
    var fromQuery := h.metricFromQuery(intent.originalQuery);
    var name := FinalMetricName(listed, |listed|, fromQuery);
    var parts := [MetricHeader(fromQuery)] + MetricLinesUpTo(listed, |listed|) + MetricTail(results, intent, name, h);
    JoinStartsWithFirst(parts, "\n");
  }

  /** With no named metric hit listed, the closing sentence is about the name found in
      the query. */
  lemma {:induction false} FinalMetricNameFromQuery(hits: seq<Hit>, n: nat, fromQuery: Option<string>)
    requires n <= |hits|
    requires forall i :: 0 <= i < n ==> !IsNamedMetric(hits[i])
    ensures FinalMetricName(hits, n, fromQuery) == fromQuery
  {
    if n > 0 {
      FinalMetricNameFromQuery(hits, n - 1, fromQuery);
    }
  }

  /** Otherwise it is about the last named metric hit listed. */
  lemma {:induction false} FinalMetricNameLast(hits: seq<Hit>, n: nat, fromQuery: Option<string>, i: nat)
    requires i < n <= |hits| && IsNamedMetric(hits[i])
    requires forall j :: i < j < n ==> !IsNamedMetric(hits[j])
    ensures FinalMetricName(hits, n, fromQuery) == hits[i].metadata.metricName
  {
    if i < n - 1 {
      FinalMetricNameLast(hits, n - 1, fromQuery, i);
    }
  }

  // ---- the generator object ----

  class ResponseGenerator {
    var enhancedTables: seq<EnhancedTable>
    var tableIndex: map<string, nat>

    ghost predicate Valid()
      reads this
    {
      tableIndex == TableIndex(enhancedTables)
    }

    constructor(tables: seq<EnhancedTable>)
      ensures enhancedTables == tables && Valid()
    {
      enhancedTables := tables;
      tableIndex := map[];
      new;
      RebuildIndex();
    }

    /** The `for i, table in enumerate(...)` loop that fills `self.table_index`. */
    method RebuildIndex()
      modifies this
      ensures enhancedTables == old(enhancedTables) && Valid()
    {
      tableIndex := map[];
      for i := 0 to |enhancedTables|
        invariant enhancedTables == old(enhancedTables)
        invariant tableIndex == Collections.LastIndexMapUpTo(enhancedTables, TableIdOf, i)
      {
        tableIndex := tableIndex[TableIdOf(enhancedTables[i]) := i];
      }
    }

    /** `generate_response`: new tables replace the old ones and the index is rebuilt
        before the query is answered. */
    method GenerateResponse(hits: seq<Hit>, intent: QueryIntent, tables: seq<EnhancedTable>, h: Helpers)
      returns (reply: Reply)
      requires Valid()
      modifies this
      ensures Valid()
      ensures |tables| > 0 ==> enhancedTables == tables
      ensures |tables| == 0 ==> enhancedTables == old(enhancedTables)
      ensures reply == Respond(hits, intent, enhancedTables, TableIndex(enhancedTables), h)
    {
      if |tables| > 0 {
        enhancedTables := tables;
        RebuildIndex();
      }
      TableIndexFits(enhancedTables);
      if |hits| == 0 {
        return Reply(NotFoundText, []);
      }
      if intent.granularity == Overview {
        reply := h.overview(hits, intent, enhancedTables, tableIndex);
      } else if intent.granularity == MetricLevel {
        reply := GenerateMetricResponse(hits, intent, h);
      } else if intent.calculation {
        reply := h.calculation(hits, intent, enhancedTables, tableIndex);
      } else if intent.comparison {
        reply := h.comparison(hits, intent, enhancedTables, tableIndex);
      } else {
        reply := GenerateSpecificResponse(hits, intent);
      }
    }

    /** The check both answers make before citing a hit's table: it has an id the index
        knows and is not cited yet. */
    method CiteTable(relevant: seq<SourceTable>, hit: Hit) returns (cited: seq<SourceTable>)
      requires Valid()
      ensures IndexFits(enhancedTables, tableIndex)
      ensures cited == if Indexed(hit, tableIndex) && !ListsTable(relevant, hit.metadata.tableId)
                       then relevant + [SourceFor(hit, enhancedTables[tableIndex[hit.metadata.tableId]])]
                       else relevant
    {
      TableIndexFits(enhancedTables);
      cited := relevant;
      var id := hit.metadata.tableId;
      if id != "" && id in tableIndex && !ListsTable(relevant, id) {
        var table := enhancedTables[tableIndex[id]];
        cited := relevant + [SourceTable(id, table.data.title.GetOr("表格"), hit.metadata.page + 1, hit.score)];
      }
    }

    /** `_generate_specific_response`. */
    method GenerateSpecificResponse(hits: seq<Hit>, intent: QueryIntent) returns (reply: Reply)
      requires Valid()
      ensures reply == SpecificReply(hits, intent, enhancedTables, tableIndex)
    {
      TableIndexFits(enhancedTables);
      var top := Top3(hits);
      var parts := [SpecificHeader];
      var relevant: seq<SourceTable> := [];
      for i := 0 to |top|
        invariant parts == [SpecificHeader] + SpecificLinesUpTo(top, i)
        invariant relevant == SourcesUpTo(top, enhancedTables, tableIndex, i)
      {
        parts, relevant := ListSpecific(top, i, parts, relevant);
      }
      if Search.HasTimeFocus(intent.timeFocus) {
        parts := parts + ["\n以上数据涉及" + FormatTimeInfo(intent.timeFocus) + "的信息。"];
      }
      assert parts == [SpecificHeader] + SpecificLinesUpTo(top, |top|) + TimeLines(intent, "\n以上数据涉及", "的信息。");
      parts := parts + [SpecificFooter];
      reply := Reply(Join(parts, "\n"), relevant);
    }

    /** One pass of the loop of `_generate_specific_response`: the hit's two lines and
        its table. */
    method ListSpecific(top: seq<Hit>, i: nat, parts: seq<string>, relevant: seq<SourceTable>)
      returns (parts': seq<string>, relevant': seq<SourceTable>)
      requires Valid() && i < |top| && IndexFits(enhancedTables, tableIndex)
      requires parts == [SpecificHeader] + SpecificLinesUpTo(top, i)
      requires relevant == SourcesUpTo(top, enhancedTables, tableIndex, i)
      ensures parts' == [SpecificHeader] + SpecificLinesUpTo(top, i + 1)
      ensures relevant' == SourcesUpTo(top, enhancedTables, tableIndex, i + 1)
    {
      var entry := DescribeSpecificHit(i, top[i]);
      parts' := parts + entry;
      assert parts' == [SpecificHeader] + (SpecificLinesUpTo(top, i) + entry);
      relevant' := CiteTable(relevant, top[i]);
    }

    /** The two lines `_generate_specific_response` writes for the `i`-th hit. */
    method DescribeSpecificHit(i: nat, hit: Hit) returns (entry: seq<string>)
      ensures entry == SpecificLines(i, hit)
    {
      var content := hit.content;
      var page := hit.metadata.page + 1;
      var number := "\n" + NatToString(i + 1) + ". ";
      var pageNote := " (第" + IntToString(page) + "页)：";
      if hit.chunkType == TableFull {
        entry := [number + "找到相关表格" + pageNote, "   " + Preview(content, 150)];
      } else if hit.chunkType == TableMetric {
        entry := [number + "找到相关指标" + pageNote, "   " + content];
      } else if hit.chunkType == TableRow || hit.chunkType == TableColumn {
        entry := [number + "找到相关数据" + pageNote, "   " + content];
      } else {
        entry := [number + "相关信息" + pageNote, "   " + Preview(content, 150)];
      }
    }

    /** `_generate_metric_response`: the header, the listed hits, then the closing lines. */
    method GenerateMetricResponse(hits: seq<Hit>, intent: QueryIntent, h: Helpers) returns (reply: Reply)
      requires Valid()
      ensures reply == MetricReply(hits, intent, enhancedTables, tableIndex, h)
    {
      var results := MetricHits(hits);
      if |results| == 0 {
        results := Top3(hits);
      }
      var fromQuery := h.metricFromQuery(intent.originalQuery);
      var header: string;
      if fromQuery.Some? && fromQuery.value != "" {
        header := "关于\"" + fromQuery.value + "\"的查询结果：";
      } else {
        header := "您查询的指标信息如下：";
      }
      var listed := Top3(results);
      var lines, relevant, metricName := ListMetrics(listed, fromQuery);
      var tail := ClosingLines(results, intent, metricName, h);
      reply := Reply(Join([header] + lines + tail, "\n"), relevant);
    }

    /** The loop of `_generate_metric_response` over the listed hits: two lines per hit,
        the tables cited, and `metric_name` as the loop leaves it. */
    method ListMetrics(listed: seq<Hit>, fromQuery: Option<string>)
      returns (lines: seq<string>, relevant: seq<SourceTable>, metricName: Option<string>)
      requires Valid()
      ensures IndexFits(enhancedTables, tableIndex)
      ensures lines == MetricLinesUpTo(listed, |listed|)
      ensures relevant == SourcesUpTo(listed, enhancedTables, tableIndex, |listed|)
      ensures metricName == FinalMetricName(listed, |listed|, fromQuery)
    {
      TableIndexFits(enhancedTables);
      lines := [];
      relevant := [];
      metricName := fromQuery;
      for i := 0 to |listed|
        invariant lines == MetricLinesUpTo(listed, i)
        invariant relevant == SourcesUpTo(listed, enhancedTables, tableIndex, i)
        invariant metricName == FinalMetricName(listed, i, fromQuery)
      {
        lines, relevant, metricName := ListMetric(listed, i, fromQuery, lines, relevant, metricName);
      }
    }

    /** One pass of that loop: the hit's two lines, its table and the name it leaves. */
    method ListMetric(listed: seq<Hit>, i: nat, fromQuery: Option<string>,
                      lines: seq<string>, relevant: seq<SourceTable>, metricName: Option<string>)
      returns (lines': seq<string>, relevant': seq<SourceTable>, metricName': Option<string>)
      requires Valid() && i < |listed| && IndexFits(enhancedTables, tableIndex)
      requires lines == MetricLinesUpTo(listed, i)
      requires relevant == SourcesUpTo(listed, enhancedTables, tableIndex, i)
      requires metricName == FinalMetricName(listed, i, fromQuery)
      ensures lines' == MetricLinesUpTo(listed, i + 1)
      ensures relevant' == SourcesUpTo(listed, enhancedTables, tableIndex, i + 1)
      ensures metricName' == FinalMetricName(listed, i + 1, fromQuery)
    {
      var entry;
      entry, metricName' := DescribeMetricHit(listed[i], metricName);
      lines' := lines + entry;
      relevant' := CiteTable(relevant, listed[i]);
    }

    /** One pass of that loop: the hit's two lines, and `metric_name`, replaced by the
        hit's metric name when it has one. */
    method DescribeMetricHit(hit: Hit, metricName: Option<string>) returns (entry: seq<string>, name: Option<string>)
      ensures entry == MetricLines(hit)
      ensures name == if IsNamedMetric(hit) then hit.metadata.metricName else metricName
    {
      var page := hit.metadata.page + 1;
      name := metricName;
      if hit.chunkType == TableMetric && hit.metadata.metricName.Some? {
        name := hit.metadata.metricName;
        var value := hit.metadata.metricValue.GetOr("未提供");
        entry := ["\n- " + name.value + ": " + value, "  (数据来源: 第" + IntToString(page) + "页表格)"];
      } else {
        entry := ["\n- " + Preview(hit.content, 100), "  (数据来源: 第" + IntToString(page) + "页)"];
      }
    }

    /** The closing sentence about the metric's time span and the trend sentence. */
    method ClosingLines(results: seq<Hit>, intent: QueryIntent, metricName: Option<string>, h: Helpers)
      returns (tail: seq<string>)
      ensures tail == MetricTail(results, intent, metricName, h)
    {
      tail := [];
      if metricName.Some? && metricName.value != "" && Search.HasTimeFocus(intent.timeFocus) {
        tail := ["\n该指标在" + FormatTimeInfo(intent.timeFocus) + "的数据如上所示。"];
        var trend := h.trendInfo(results, metricName.value);
        if trend.Some? && trend.value != "" {
          tail := tail + [trend.value];
        }
      }
    }
  }
}
