// The chunk generator: every enhanced table is cut into text chunks (the whole table,
// its title, each key metric, up to ten rows, up to five columns, its description),
// and each chunk's text is passed to the sentence encoder.
module Embeddings {
  import opened Wrappers
  import opened Text
  import opened Tables

  const MaxRowChunks: nat := 10
  const MaxColumnChunks: nat := 5
  const PreviewRows: nat := 3

  function MinNat(a: nat, b: nat): nat { if a <= b then a else b }

  /** `col=val` for the pairs that `zip(columns, row)` forms. */
  function ZipPairs(columns: seq<string>, row: seq<Cell>): seq<string>
  {
    seq(MinNat(|columns|, |row|), k requires 0 <= k < MinNat(|columns|, |row|) => columns[k] + "=" + CellText(row[k]))
  }

  /** `_create_row_representation`. */
  function RowText(columns: seq<string>, row: seq<Cell>): string {
    "行数据: " + Join(ZipPairs(columns, row), ", ")
  }

  function MetricText(m: KeyMetric): string {
    m.name + ": " + m.value
  }

  function MetricTexts(ms: seq<KeyMetric>): (r: seq<string>)
    ensures |r| == |ms| && forall k :: 0 <= k < |ms| ==> r[k] == MetricText(ms[k])
  {
    seq(|ms|, k requires 0 <= k < |ms| => MetricText(ms[k]))
  }

  function TitleText(d: TableData): string
    requires HasTitle(d)
  {
    "表格标题: " + d.title.value
  }

  function DescriptionText(desc: string): string {
    "表格描述: " + desc
  }

  /** Rows `0 .. min(3, rows) - 1` of the preview, each as its `col=val` pairs. */
  function PreviewTexts(g: Frame): seq<string>
  {
    var n := MinNat(PreviewRows, |g.rows|);
    seq(n, k requires 0 <= k < n => Join(ZipPairs(g.columns, g.rows[k]), ", "))
  }

  /** The labelled segments of the whole-table text, in their fixed order. */
  function FullTextParts(t: EnhancedTable): seq<string> {
    (if HasTitle(t.data) then [TitleText(t.data)] else [])
    + ["表格类型: " + t.tableType]
    + (match t.description case Some(d) => [DescriptionText(d)] case None => [])
    + (if |t.keyMetrics| > 0 then ["关键指标: " + Join(MetricTexts(t.keyMetrics), ", ")] else [])
    + (match t.data.frame
       case DataFrame(g) => ["表格列: " + Join(g.columns, ", "), "数据预览: " + Join(PreviewTexts(g), "; ")]
       case _ => [])
  }

  /** `_create_table_representation`: the segments joined by single spaces. */
  function FullText(t: EnhancedTable): string {
    Join(FullTextParts(t), " ")
  }

  /** The whole-table text opens with the title segment when there is a title, and with
      the type segment otherwise. */
  lemma FullTextStart(t: EnhancedTable)
    ensures HasTitle(t.data) ==> StartsWith(FullText(t), TitleText(t.data))
    ensures !HasTitle(t.data) ==> StartsWith(FullText(t), "表格类型: " + t.tableType)
  {
    JoinStartsWithFirst(FullTextParts(t), " ");
  }

  // ---- the chunks of one table, as a specification ----

  function FullChunk(t: EnhancedTable, idx: nat, encode: string -> seq<real>): Chunk {
    var text := FullText(t);
    Chunk(encode(text), idx, TableFull, text,
          BaseMetadata(t.data.meta).(tableType := Some(t.tableType), nestingLevel := Some(t.data.meta.nestingLevel)))
  }

  function TitleChunks(t: EnhancedTable, idx: nat, encode: string -> seq<real>): seq<Chunk> {
    if HasTitle(t.data) then
      var text := TitleText(t.data);
      [Chunk(encode(text), idx, TableTitle, text, BaseMetadata(t.data.meta))]
    else []
  }

  function MetricChunk(t: EnhancedTable, idx: nat, m: KeyMetric, encode: string -> seq<real>): Chunk {
    var text := MetricText(m);
    Chunk(encode(text), idx, TableMetric, text,
          BaseMetadata(t.data.meta).(metricName := Some(m.name), metricValue := Some(m.value)))
  }

  function RowChunk(t: EnhancedTable, idx: nat, g: Frame, r: nat, encode: string -> seq<real>): Chunk
    requires r < |g.rows|
  {
    var text := RowText(g.columns, g.rows[r]);
    Chunk(encode(text), idx, TableRow, text, BaseMetadata(t.data.meta).(rowIdx := Some(r)))
  }

  function ColumnChunk(t: EnhancedTable, idx: nat, g: Frame, c: nat, encode: string -> seq<real>,
                       describeColumn: (seq<Cell>, string) -> string): Chunk
    requires c < |g.columns|
  {
    var text := describeColumn(Column(g, c), g.columns[c]);
    Chunk(encode(text), idx, TableColumn, text, BaseMetadata(t.data.meta).(columnName := Some(g.columns[c])))
  }

  function RowCount(t: EnhancedTable): nat {
    match t.data.frame
    case DataFrame(g) => MinNat(MaxRowChunks, |g.rows|)
    case _ => 0
  }

  function ColumnCount(t: EnhancedTable): nat {
    match t.data.frame
    case DataFrame(g) => MinNat(MaxColumnChunks, |g.columns|)
    case _ => 0
  }

  function DescriptionChunks(t: EnhancedTable, idx: nat, encode: string -> seq<real>): seq<Chunk> {
    match t.description
    case Some(d) =>
      var text := DescriptionText(d);
      [Chunk(encode(text), idx, TableDescription, text, BaseMetadata(t.data.meta))]
    case None => []
  }

  /** One chunk per key metric, whose text is "name: value" and whose metadata names both. */
  function MetricChunks(t: EnhancedTable, idx: nat, encode: string -> seq<real>): (cs: seq<Chunk>)
    ensures |cs| == |t.keyMetrics|
    ensures forall k :: 0 <= k < |cs| ==>
              && cs[k].chunkType == TableMetric
              && cs[k].content == t.keyMetrics[k].name + ": " + t.keyMetrics[k].value
              && cs[k].metadata.metricName == Some(t.keyMetrics[k].name)
              && cs[k].metadata.metricValue == Some(t.keyMetrics[k].value)
  {
    seq(|t.keyMetrics|, k requires 0 <= k < |t.keyMetrics| => MetricChunk(t, idx, t.keyMetrics[k], encode))
  }

  /** One chunk for each of the first rows, numbered from 0, holding that row's pairs. */
  function RowChunks(t: EnhancedTable, idx: nat, encode: string -> seq<real>): (cs: seq<Chunk>)
    ensures |cs| == RowCount(t)
    ensures forall r :: 0 <= r < |cs| ==>
              && cs[r].chunkType == TableRow
              && cs[r].metadata.rowIdx == Some(r)
              && cs[r].content == RowText(t.data.frame.frame.columns, t.data.frame.frame.rows[r])
              && cs[r].embedding == encode(cs[r].content)
              && cs[r].tableIdx == idx
  {
    match t.data.frame
    case DataFrame(g) => seq(RowCount(t), r requires 0 <= r < RowCount(t) => RowChunk(t, idx, g, r, encode))
    case _ => []
  }

  function ColumnChunks(t: EnhancedTable, idx: nat, encode: string -> seq<real>,
                        describeColumn: (seq<Cell>, string) -> string): (cs: seq<Chunk>)
    ensures |cs| == ColumnCount(t)
    ensures forall c :: 0 <= c < |cs| ==>
              && cs[c].chunkType == TableColumn
              && cs[c].metadata.columnName == Some(t.data.frame.frame.columns[c])
              && cs[c].content == describeColumn(Column(t.data.frame.frame, c), t.data.frame.frame.columns[c])
              && cs[c].embedding == encode(cs[c].content)
              && cs[c].tableIdx == idx
  {
    match t.data.frame
    case DataFrame(g) =>
      seq(ColumnCount(t), c requires 0 <= c < ColumnCount(t) => ColumnChunk(t, idx, g, c, encode, describeColumn))
    case _ => []
  }

  /** What `_process_table` returns, segment by segment: the full chunk, the title chunk,
      the metric chunks, the row chunks, the column chunks and the description chunk. */
  function TableChunks(t: EnhancedTable, idx: nat, encode: string -> seq<real>,
                       describeColumn: (seq<Cell>, string) -> string): seq<Chunk>
  {
    [FullChunk(t, idx, encode)]
    + TitleChunks(t, idx, encode)
    + MetricChunks(t, idx, encode)
    + RowChunks(t, idx, encode)
    + ColumnChunks(t, idx, encode, describeColumn)
    + DescriptionChunks(t, idx, encode)
  }

  // ---- the generator itself ----

  /** The metric loop of `_process_table`. */
  method EmitMetrics(t: EnhancedTable, idx: nat, encode: string -> seq<real>) returns (chunks: seq<Chunk>)
    ensures chunks == MetricChunks(t, idx, encode)
  {
    chunks := [];
    ghost var spec := MetricChunks(t, idx, encode);
    for k := 0 to |t.keyMetrics|
      invariant chunks == spec[..k]
    {
      var m := t.keyMetrics[k];
      var metricText := m.name + ": " + m.value;
      chunks := chunks + [Chunk(encode(metricText), idx, TableMetric, metricText,
                                BaseMetadata(t.data.meta).(metricName := Some(m.name), metricValue := Some(m.value)))];
      assert spec[..k + 1] == spec[..k] + [spec[k]];
    }
    assert spec[..|t.keyMetrics|] == spec;
  }

  /** The row loop of `_process_table`: at most `MaxRowChunks` rows. */
  method EmitRows(t: EnhancedTable, idx: nat, encode: string -> seq<real>) returns (chunks: seq<Chunk>)
    ensures chunks == RowChunks(t, idx, encode)
  {
    chunks := [];
    if t.data.frame.DataFrame? {
      var g := t.data.frame.frame;
      var maxRows := MinNat(MaxRowChunks, |g.rows|);
      ghost var spec := RowChunks(t, idx, encode);
      for r := 0 to maxRows
        invariant chunks == spec[..r]
      {
        var rowText := RowText(g.columns, g.rows[r]);
        chunks := chunks + [Chunk(encode(rowText), idx, TableRow, rowText, BaseMetadata(t.data.meta).(rowIdx := Some(r)))];
        assert spec[..r + 1] == spec[..r] + [spec[r]];
      }
      assert spec[..maxRows] == spec;
    }
  }

  /** The column loop of `_process_table`: at most `MaxColumnChunks` columns. */
  method EmitColumns(t: EnhancedTable, idx: nat, encode: string -> seq<real>,
                     describeColumn: (seq<Cell>, string) -> string) returns (chunks: seq<Chunk>)
    ensures chunks == ColumnChunks(t, idx, encode, describeColumn)
  {
    chunks := [];
    if t.data.frame.DataFrame? {
      var g := t.data.frame.frame;
      var maxCols := MinNat(MaxColumnChunks, |g.columns|);
      ghost var spec := ColumnChunks(t, idx, encode, describeColumn);
      for c := 0 to maxCols
        invariant chunks == spec[..c]
      {
        var colText := describeColumn(Column(g, c), g.columns[c]);
        chunks := chunks + [Chunk(encode(colText), idx, TableColumn, colText,
                                  BaseMetadata(t.data.meta).(columnName := Some(g.columns[c])))];
        assert spec[..c + 1] == spec[..c] + [spec[c]];
      }
      assert spec[..maxCols] == spec;
    }
  }

  /** `_process_table`: appends the chunks of one table in order. */
  method ProcessTable(t: EnhancedTable, idx: nat, encode: string -> seq<real>,
                      describeColumn: (seq<Cell>, string) -> string)
    returns (chunks: seq<Chunk>)
    ensures chunks == TableChunks(t, idx, encode, describeColumn)
  {
    var meta := t.data.meta;
    var tableText := FullText(t);
    chunks := [Chunk(encode(tableText), idx, TableFull, tableText,
                     BaseMetadata(meta).(tableType := Some(t.tableType), nestingLevel := Some(meta.nestingLevel)))];
    if HasTitle(t.data) {
      var titleText := "表格标题: " + t.data.title.value;
      chunks := chunks + [Chunk(encode(titleText), idx, TableTitle, titleText, BaseMetadata(meta))];
    }
    ghost var head := [FullChunk(t, idx, encode)] + TitleChunks(t, idx, encode);
    assert chunks == head;
    var metricChunks := EmitMetrics(t, idx, encode);
    var rowChunks := EmitRows(t, idx, encode);
    var columnChunks := EmitColumns(t, idx, encode, describeColumn);
    chunks := chunks + metricChunks + rowChunks + columnChunks;
    ghost var body := chunks;
    if t.description.Some? {
      var descText := "表格描述: " + t.description.value;
      chunks := chunks + [Chunk(encode(descText), idx, TableDescription, descText, BaseMetadata(meta))];
    }
    assert chunks == body + DescriptionChunks(t, idx, encode);
  }

  /** The per-table chunk lists, concatenated in order. */
  function Flatten(parts: seq<seq<Chunk>>): seq<Chunk> {
    if |parts| == 0 then [] else Flatten(parts[..|parts| - 1]) + parts[|parts| - 1]
  }

  /** The chunk list of every table, tagged with its position. */
  function PerTable(tables: seq<EnhancedTable>, encode: string -> seq<real>,
                    describeColumn: (seq<Cell>, string) -> string): seq<seq<Chunk>>
  {
    seq(|tables|, i requires 0 <= i < |tables| => TableChunks(tables[i], i, encode, describeColumn))
  }

  function AllChunks(tables: seq<EnhancedTable>, encode: string -> seq<real>,
                     describeColumn: (seq<Cell>, string) -> string): seq<Chunk>
  {
    Flatten(PerTable(tables, encode, describeColumn))
  }

  /** `generate_embeddings`: concatenates the per-table lists in table order. */
  method GenerateEmbeddings(tables: seq<EnhancedTable>, encode: string -> seq<real>,
                            describeColumn: (seq<Cell>, string) -> string)
    returns (all: seq<Chunk>)
    ensures all == AllChunks(tables, encode, describeColumn)
  {
    ghost var parts := PerTable(tables, encode, describeColumn);
    all := [];
    for i := 0 to |tables|
      invariant all == Flatten(parts[..i])
    {
      var tableChunks := ProcessTable(tables[i], i, encode, describeColumn);
      FlattenStep(parts, i);
      all := all + tableChunks;
    }
    assert parts[..|tables|] == parts;
  }

  lemma FlattenStep(parts: seq<seq<Chunk>>, i: nat)
    requires i < |parts|
    ensures Flatten(parts[..i + 1]) == Flatten(parts[..i]) + parts[i]
  {
    assert parts[..i + 1][..i] == parts[..i];
  }

  // ---- properties of the chunk lists ----

  /** Chunk counts: one full chunk, one per truthy title, one per metric, min(10, rows)
      rows and min(5, columns) columns when a data frame is present, one per description. */
  lemma TableChunksCount(t: EnhancedTable, idx: nat, encode: string -> seq<real>,
                         describeColumn: (seq<Cell>, string) -> string)
    ensures |TableChunks(t, idx, encode, describeColumn)| ==
      1 + (if HasTitle(t.data) then 1 else 0) + |t.keyMetrics| + RowCount(t) + ColumnCount(t)
      + (if t.description.Some? then 1 else 0)
  {
  }

  /** Every chunk of `cs` names table position `idx` and the id and page of `meta`. */
  predicate TaggedWith(cs: seq<Chunk>, idx: nat, meta: TableMeta) {
    forall k :: 0 <= k < |cs| ==>
      cs[k].tableIdx == idx && cs[k].metadata.tableId == meta.tableId && cs[k].metadata.page == meta.page
  }

  /** No chunk of `cs` is a full chunk or carries a table type or nesting level. */
  predicate PartChunks(cs: seq<Chunk>) {
    forall k :: 0 <= k < |cs| ==>
      cs[k].chunkType != TableFull && cs[k].metadata.tableType.None? && cs[k].metadata.nestingLevel.None?
  }

  lemma ConcatTagged(a: seq<Chunk>, b: seq<Chunk>, idx: nat, meta: TableMeta)
    requires TaggedWith(a, idx, meta) && TaggedWith(b, idx, meta)
    ensures TaggedWith(a + b, idx, meta)
  {
    assert forall k :: |a| <= k < |a + b| ==> (a + b)[k] == b[k - |a|];
  }

  lemma ConcatPart(a: seq<Chunk>, b: seq<Chunk>)
    requires PartChunks(a) && PartChunks(b)
    ensures PartChunks(a + b)
  {
    assert forall k :: |a| <= k < |a + b| ==> (a + b)[k] == b[k - |a|];
  }

  /** Each segment after the full chunk is tagged with its table and is a part chunk. */
  lemma SegmentsTagged(t: EnhancedTable, idx: nat, encode: string -> seq<real>,
                       describeColumn: (seq<Cell>, string) -> string)
    ensures var m := t.data.meta;
            && TaggedWith(TitleChunks(t, idx, encode), idx, m) && PartChunks(TitleChunks(t, idx, encode))
            && TaggedWith(MetricChunks(t, idx, encode), idx, m) && PartChunks(MetricChunks(t, idx, encode))
            && TaggedWith(RowChunks(t, idx, encode), idx, m) && PartChunks(RowChunks(t, idx, encode))
            && TaggedWith(ColumnChunks(t, idx, encode, describeColumn), idx, m)
            && PartChunks(ColumnChunks(t, idx, encode, describeColumn))
            && TaggedWith(DescriptionChunks(t, idx, encode), idx, m) && PartChunks(DescriptionChunks(t, idx, encode))
  {
  }

  /** The full chunk comes first and is the only one; every chunk names its table's
      position, id and page; only the full chunk carries the type and nesting level. */
  lemma TableChunksShape(t: EnhancedTable, idx: nat, encode: string -> seq<real>,
                         describeColumn: (seq<Cell>, string) -> string)
    ensures var cs := TableChunks(t, idx, encode, describeColumn);
            && |cs| > 0
            && cs[0].chunkType == TableFull
            && cs[0].content == FullText(t)
            && cs[0].metadata.tableType == Some(t.tableType)
            && cs[0].metadata.nestingLevel == Some(t.data.meta.nestingLevel)
            && TaggedWith(cs, idx, t.data.meta)
            && PartChunks(cs[1..])
  {
    SegmentsTagged(t, idx, encode, describeColumn);
    AssembleTagged([FullChunk(t, idx, encode)], TitleChunks(t, idx, encode), MetricChunks(t, idx, encode),
                   RowChunks(t, idx, encode), ColumnChunks(t, idx, encode, describeColumn),
                   DescriptionChunks(t, idx, encode), idx, t.data.meta);
  }

  /** A tagged head chunk followed by tagged part chunks. */
  lemma AssembleTagged(full: seq<Chunk>, a: seq<Chunk>, b: seq<Chunk>, c: seq<Chunk>, d: seq<Chunk>, e: seq<Chunk>,
                       idx: nat, m: TableMeta)
    requires |full| == 1 && TaggedWith(full, idx, m)
    requires TaggedWith(a, idx, m) && TaggedWith(b, idx, m) && TaggedWith(c, idx, m)
    requires TaggedWith(d, idx, m) && TaggedWith(e, idx, m)
    requires PartChunks(a) && PartChunks(b) && PartChunks(c) && PartChunks(d) && PartChunks(e)
    ensures TaggedWith(full + a + b + c + d + e, idx, m)
    ensures (full + a + b + c + d + e)[0] == full[0]
    ensures PartChunks((full + a + b + c + d + e)[1..])
  {
    ConcatPart(a, b);
    ConcatPart(a + b, c);
    ConcatPart(a + b + c, d);
    ConcatPart(a + b + c + d, e);
    ConcatTagged(a, b, idx, m);
    ConcatTagged(a + b, c, idx, m);
    ConcatTagged(a + b + c, d, idx, m);
    ConcatTagged(a + b + c + d, e, idx, m);
    var rest := a + b + c + d + e;
    ConcatTagged(full, rest, idx, m);
    assert full + a + b + c + d + e == full + rest;
    assert (full + rest)[1..] == rest;
  }

  /** The middle parts of a concatenation are its slices at the summed lengths. */
  lemma ConcatSlices(s: seq<Chunk>, a: seq<Chunk>, b: seq<Chunk>, c: seq<Chunk>, d: seq<Chunk>, e: seq<Chunk>)
    requires s == a + b + c + d + e
    ensures |a| + |b| + |c| + |d| <= |s|
    ensures s[|a|..|a| + |b|] == b
    ensures s[|a| + |b|..|a| + |b| + |c|] == c
    ensures s[|a| + |b| + |c|..|a| + |b| + |c| + |d|] == d
  {
    assert s == a + (b + (c + (d + e)));
  }

  lemma TableChunksTagged(t: EnhancedTable, idx: nat, encode: string -> seq<real>,
                          describeColumn: (seq<Cell>, string) -> string)
    ensures TaggedWith(TableChunks(t, idx, encode, describeColumn), idx, t.data.meta)
  {
    TableChunksShape(t, idx, encode, describeColumn);
  }

  /** Where each segment sits in the chunk list of a table: the metric, row and column
      chunks follow the full chunk and the title chunk, in that order. */
  lemma TableChunksLayout(t: EnhancedTable, idx: nat, encode: string -> seq<real>,
                          describeColumn: (seq<Cell>, string) -> string)
    ensures var cs := TableChunks(t, idx, encode, describeColumn);
            var m0 := 1 + (if HasTitle(t.data) then 1 else 0);
            var r0 := m0 + |t.keyMetrics|;
            var c0 := r0 + RowCount(t);
            && c0 + ColumnCount(t) <= |cs|
            && cs[m0..r0] == MetricChunks(t, idx, encode)
            && cs[r0..c0] == RowChunks(t, idx, encode)
            && cs[c0..c0 + ColumnCount(t)] == ColumnChunks(t, idx, encode, describeColumn)
  {
    var head := [FullChunk(t, idx, encode)] + TitleChunks(t, idx, encode);
    ConcatSlices(TableChunks(t, idx, encode, describeColumn), head, MetricChunks(t, idx, encode),
                 RowChunks(t, idx, encode), ColumnChunks(t, idx, encode, describeColumn),
                 DescriptionChunks(t, idx, encode));
    assert |head| == 1 + (if HasTitle(t.data) then 1 else 0);
  }

  /** Table positions never decrease along `cs`, and all lie below `n`. */
  predicate OrderedBelow(cs: seq<Chunk>, n: nat) {
    && (forall k :: 0 <= k < |cs| ==> cs[k].tableIdx < n)
    && (forall a, b :: 0 <= a < b < |cs| ==> cs[a].tableIdx <= cs[b].tableIdx)
  }

  /** Every chunk of the `i`-th part names position `i`. */
  predicate PartsIndexed(parts: seq<seq<Chunk>>) {
    forall i, k :: 0 <= i < |parts| && 0 <= k < |parts[i]| ==> parts[i][k].tableIdx == i
  }

  lemma {:induction false} FlattenOrdered(parts: seq<seq<Chunk>>)
    requires PartsIndexed(parts)
    ensures OrderedBelow(Flatten(parts), |parts|)
  {
    if |parts| > 0 {
      var init := parts[..|parts| - 1];
      var last := parts[|parts| - 1];
      assert PartsIndexed(init);
      FlattenOrdered(init);
      var pre := Flatten(init);
      var all := pre + last;
      assert forall k :: |pre| <= k < |all| ==> all[k] == last[k - |pre|];
    }
  }

  /** Across tables the chunks appear in table order, each tagged with a valid position. */
  lemma AllChunksOrdered(tables: seq<EnhancedTable>, encode: string -> seq<real>,
                         describeColumn: (seq<Cell>, string) -> string)
    ensures OrderedBelow(AllChunks(tables, encode, describeColumn), |tables|)
  {
    var parts := PerTable(tables, encode, describeColumn);
    forall i | 0 <= i < |tables|
      ensures TaggedWith(parts[i], i, tables[i].data.meta)
    {
      TableChunksTagged(tables[i], i, encode, describeColumn);
    }
    FlattenOrdered(parts);
  }
}
