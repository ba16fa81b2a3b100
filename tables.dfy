// The records that flow through the pipeline: an extracted table with its data frame,
// the table after semantic enhancement, and the text chunks cut from it for the index.
module Tables {
  import opened Wrappers

  /** A data frame cell: a number (an `int` or `float` value, kept as its `str()` text),
      a string, or a missing value such as `None`. */
  datatype Cell = Num(text: string) | Str(s: string) | Missing

  /** `str(value)`. */
  function CellText(c: Cell): string {
    match c
    case Num(t) => t
    case Str(s) => s
    case Missing => "None"
  }

  /** A data frame: row labels, column names and one row of cells per label. */
  datatype Grid = Grid(index: seq<string>, columns: seq<string>, rows: seq<seq<Cell>>)

  predicate Rectangular(g: Grid) {
    |g.rows| == |g.index| && forall r :: 0 <= r < |g.rows| ==> |g.rows[r]| == |g.columns|
  }

  type Frame = g: Grid | Rectangular(g) witness Grid([], [], [])

  /** `df.empty`: no rows or no columns. */
  predicate IsEmpty(g: Frame) {
    |g.index| == 0 || |g.columns| == 0
  }

  /** `df.iloc[:, c]`. */
  function Column(g: Frame, c: nat): (col: seq<Cell>)
    requires c < |g.columns|
    ensures |col| == |g.rows| && forall r :: 0 <= r < |g.rows| ==> col[r] == g.rows[r][c]
  {
    seq(|g.rows|, r requires 0 <= r < |g.rows| => g.rows[r][c])
  }

  /** The `dataframe` entry of a table record: absent, a plain list, or a data frame. */
  datatype FrameField = NoFrame | ListFrame | DataFrame(frame: Frame)

  datatype TableMeta = TableMeta(tableId: string, page: int, nestingLevel: int)

  /** An extracted table; `title` is `None` when the key is absent or holds `None`. */
  datatype TableData = TableData(meta: TableMeta, title: Option<string>, frame: FrameField)

  /** Python truthiness of the title entry. */
  predicate HasTitle(d: TableData) {
    d.title.Some? && d.title.value != ""
  }

  datatype KeyMetric = KeyMetric(name: string, value: string, keywords: seq<string>)

  datatype Context = Context(preceding: string, following: string, references: seq<string>)

  /** A table after semantic enhancement; `description` is `None` when the key is absent. */
  datatype EnhancedTable = EnhancedTable(
    data: TableData,
    tableType: string,
    description: Option<string>,
    keyMetrics: seq<KeyMetric>,
    context: Context)

  datatype ChunkType = TableFull | TableTitle | TableMetric | TableRow | TableColumn | TableDescription

  function ChunkTypeName(c: ChunkType): string {
    match c
    case TableFull => "table_full"
    case TableTitle => "table_title"
    case TableMetric => "table_metric"
    case TableRow => "table_row"
    case TableColumn => "table_column"
    case TableDescription => "table_description"
  }

  /** The metadata dict of a chunk; an absent key is `None`. */
  datatype Metadata = Metadata(
    tableId: string,
    page: int,
    tableType: Option<string>,
    nestingLevel: Option<int>,
    metricName: Option<string>,
    metricValue: Option<string>,
    rowIdx: Option<nat>,
    columnName: Option<string>)

  /** Metadata holding only the table id and page. */
  function BaseMetadata(m: TableMeta): Metadata {
    Metadata(m.tableId, m.page, None, None, None, None, None, None)
  }

  /** One embedded chunk as the chunk generator emits it. */
  datatype Chunk = Chunk(embedding: seq<real>, tableIdx: nat, chunkType: ChunkType, content: string, metadata: Metadata)

  /** What the index keeps for a chunk: everything but the vector. */
  datatype Payload = Payload(tableIdx: nat, chunkType: ChunkType, content: string, metadata: Metadata)

  function PayloadOf(c: Chunk): Payload {
    Payload(c.tableIdx, c.chunkType, c.content, c.metadata)
  }
}
