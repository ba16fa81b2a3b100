# Nested-table PDF processor — a Dafny model of its core

The processor pulls tables out of financial PDF reports, works out which tables sit
inside which, describes each table in words, cuts it into text chunks that are embedded
and indexed, and answers questions in Chinese or English by retrieving chunks and
writing a reply that cites the tables it used. This project models the logic between
the PDF readers and the neural networks, and proves what that logic guarantees:

- **Nesting** (`nesting.dfy`): the detector's containment test on bounding boxes, the
  page-by-page, largest-first parent assignment over an array of detected tables, and
  the `while changed` loop that computes nesting levels.
- **Intent** (`intent.dfy`): the keyword classifier that turns a query into a data type,
  a granularity, a time focus and the comparison and calculation flags.
- **Search** (`search.py` → `search.dfy`): query enhancement, score boosts, removal of
  repeated full-table hits, the stable re-sort and the renumbering of ranks.
- **Embeddings** (`embeddings.dfy`): the chunks generated per table, in their order.
- **Indexer** (`indexer.dfy`): the index builder object, its id-to-payload map, and the
  HNSW and brute-force search paths.
- **Semantic** (`semantic.dfy`): table classification, the description text, key
  metrics found from financial totals, and the context around a table. It models both
  copies of the semantic enhancer.
- **Response** (`response.dfy`): the response generator object with its table index,
  the routing by intent, and the specific and metric answers with their cited tables.
- **PdfText** (`pdf_text.dfy`): the choice of text extractor, the merging of the two
  extractors' pages, and the cleaning of table text.

Shared pieces: `wrappers.dfy` (Option, Result), `text.dfy` (substring search, ASCII
lower-casing, Python's whitespace set and `strip`, `join`, decimal rendering, the
`(19|20)\d{2}` year scan), `collections.dfy` (a stable descending sort and the
last-index map that a dict built with `enumerate` gives), and `tables.dfy` (the records
that pass between the stages).

Calls into libraries are parameters of the model:
- the sentence encoder (`encode`);
- cosine similarity (`sim`);
- the HNSW nearest-neighbour query (`knn`);
- the text that rests on pandas statistics: column summaries, the comparison-table and
  generic-table descriptions;
- the overview, calculation and comparison renderers and the regex helpers of the
  response generator.

Some behaviour of the code is worth stating plainly:
- After post-processing, ranks count from 1 (`src/querying/search.py:114-116`). The
  ranks the index returns count from 0.
- The time focus of a query with years is the list `re.findall` returns for
  `(19|20)\d{2}`. That list holds the captured century, "19" or "20", not the whole year
  (`src/querying/intent_analysis.py:70-74`). Query enhancement and relevance
  explanations use those two-character strings as they are.
- `build_index` sets the embedding size from the first vector before `np.array` turns
  the vectors into a matrix, so vectors of unequal length raise ValueError after that size
  has changed and before the index and id map change. The model takes NumPy's behaviour
  from version 1.24 on, where a ragged list is rejected. A successful build writes ids
  `0..n-1` into the existing id map without clearing it, so entries from a longer earlier
  build survive (`src/vector_indexing/indexer.py:33-50`).
- In brute-force search, `np.dot` raises ValueError for a query vector whose length is
  not the index's dimension (`src/vector_indexing/indexer.py:95-99`).
- Nesting levels are raised until no table has a level at or below its parent's
  (`src/table_extraction/detector.py:192-201`). With parents strictly larger in area,
  this reaches each table's depth in the parent chain.
- The title split in `_extract_structured_context` is guarded by `len(parts) == 2`. That
  guard always holds, because the title was found in the text first.
- `[table|figure]` in the fourth reference pattern is a character class. The pattern
  matches "as shown in the " followed by one of those letters or `|`.
- Six f-strings put bare ASCII double quotes around an interpolated name:
  `src/table_extraction/semantic_enhancer.py:85`, both copies of
  `semantic_enhancer.py:230` and of `semantic_enhancer.py:241`, and
  `src/querying/response.py:116`. The second quote ends
  the f-string in its literal part, so these lines are a SyntaxError in Python and
  `response.py` and both copies of `semantic_enhancer.py` do not import as written. The
  model follows the evident intent: the literal quotes the other copy of line 85
  escapes.

Preconditions that come from how the data is built:
- `Nesting.DetectNestedRelationships` asks that table ids be distinct and that every
  parent id present names a table of strictly larger area. The detector builds each
  table with `parent_id` None and ids `page_<p>_table_<i>` (`detector.py:114-121`), so
  both hold on entry.
- The response functions ask that the table index fit the table list. The generator's
  own index always does (`Response.TableIndexFits`).

## Model

| member | source | states |
|---|---|---|
| Nesting.IsContained | src/table_extraction/detector.py:152-175 | a box that counts as contained has a strictly smaller area than its container |
| Nesting.IsContainedIff | src/table_extraction/detector.py:152-175 | contained exactly when the boxes overlap with positive area, the overlap exceeds 0.85 of the inner area, and the inner area is below 0.9 of the outer |
| Nesting.NotContainedInEqualArea | src/table_extraction/detector.py:170-175 | two boxes of equal area never contain each other |
| Nesting.InsideIsContained | src/table_extraction/detector.py:152-175 | a proper box lying wholly inside another whose area is more than 1/0.9 times its own is contained |
| Nesting.DisjointNotContained | src/table_extraction/detector.py:157-164 | boxes side by side with no horizontal overlap are not contained |
| Nesting.PageOrderFacts | src/table_extraction/detector.py:129-139 | a page's largest-first list holds exactly the tables of that page, each once |
| Nesting.LastOuter | src/table_extraction/detector.py:142-147 | the parent the double loop leaves is the last table in the page order that contains the inner table, and none when no table does |
| Nesting.EnclosingSpec | src/table_extraction/detector.py:137-147 | a table gets a new parent exactly when some table on its page contains it; that parent has the smallest area among the tables containing it |
| Nesting.GroupByPage | src/table_extraction/detector.py:129-134 | the loop builds the page map and the list of pages in first-seen order that the grouping specifies |
| Nesting.PageIndexKeys | src/table_extraction/detector.py:129-134 | a page has a group exactly when it is in the list of pages |
| Nesting.PageIndexCovers | src/table_extraction/detector.py:129-134 | every table's page has a group |
| Nesting.PageIndexMembers | src/table_extraction/detector.py:129-134 | a page's group is the positions of that page's tables, in input order |
| Nesting.PagesSeenDistinct | src/table_extraction/detector.py:129-134 | each page is listed once |
| Nesting.AssignParents | src/table_extraction/detector.py:137-147 | the table array afterwards is every table with its parent replaced by its tightest same-page container, or kept when none |
| Nesting.WithParentsLarger | src/table_extraction/detector.py:142-147 | after parent assignment every parent id names a table of strictly larger area |
| Nesting.DepthBound | src/table_extraction/detector.py:182-201 | a table's depth is at most the number of tables larger than it, below the table count |
| Nesting.RaisePass | src/table_extraction/detector.py:194-201 | one pass keeps levels within depth; a pass that changes something strictly shrinks the distance to the depths; a pass that changes nothing leaves every child above its parent |
| Nesting.FixpointIsDepth | src/table_extraction/detector.py:192-201 | when no child sits at or below its parent and no level exceeds its depth, every level equals its depth |
| Nesting.FixpointIsNested | src/table_extraction/detector.py:192-201 | the state the loop stops in is the table list with every level set to its depth |
| Nesting.ResetLevels | src/table_extraction/detector.py:187-189 | every level becomes 0 and nothing else changes |
| Nesting.CalculateNestingLevels | src/table_extraction/detector.py:182-201 | the loop terminates with each table's level equal to the length of its parent chain, nothing else changed |
| Nesting.DetectNestedRelationships | src/table_extraction/detector.py:126-150 | the tables end with their tightest-container parents and the matching levels, and parents stay larger |
| Nesting.LevelsFollowParents | src/table_extraction/detector.py:182-201 | a parentless table has level 0, a child has its parent's level plus one, and no level reaches the table count |
| Intent.DetectDataType | src/querying/intent_analysis.py:46-52 | balance sheet, income statement, cash flow: the first type whose keywords occur, each case an if-and-only-if |
| Intent.DetectGranularity | src/querying/intent_analysis.py:54-65 | overview, specific or metric exactly when their keywords, question words or defaults apply in that order |
| Intent.DetectTimeFocus | src/querying/intent_analysis.py:67-88 | a year list exactly when a year occurs, equal to the year scan's groups, each "19"/"20"; otherwise the relative period of the first term group, in dictionary order, that the query contains, with no earlier group contained; none exactly when neither |
| Intent.TimeFocusYears | src/querying/intent_analysis.py:69-74 | a year focus is the century groups read at the leftmost, non-overlapping year matches, taken left to right, with no year match after the last |
| Intent.SearchPairIn | src/querying/intent_analysis.py:97-99 | the search for `比.*多` succeeds exactly when the second character follows the first on the same line |
| Intent.DetectComparison | src/querying/intent_analysis.py:90-122 | comparison exactly when a comparison keyword, a `比…多`/`比…少` pair on one line, or a literal pattern occurs |
| Intent.AnalyzeIntent | src/querying/intent_analysis.py:30-44 | the time focus is found in the original query, every other axis in the lowered query, and the query is kept |
| Intent.CalculationKeywords | src/querying/intent_analysis.py:124-128 | a query mentioning 多少 or total asks for a calculation |
| Intent.YearQueryFocus | src/querying/intent_analysis.py:67-74 | a query containing a 19xx/20xx year has a year time focus |
| Intent.IntentIgnoresCase | src/querying/intent_analysis.py:30-44 | lower-casing the query first changes none of the keyword axes |
| Intent.DefaultGranularity | src/querying/intent_analysis.py:54-65 | with no granularity keyword and no question word the granularity is specific |
| Search.EnhanceParts | src/querying/search.py:32-72 | the enhanced query starts with the query and has one more part per applicable hint; which part holds which bundle is stated by Search.EnhancePartsOrder |
| Search.EnhancePartsOrder | src/querying/search.py:32-67 | the parts come in the source's order: the query, the data-type bundle when the type is known, the granularity bundle, the comparison bundle when asked, the calculation bundle when asked, and last the time bundle when the time focus is set |
| Search.EnhanceQueryTime | src/querying/search.py:60-67 | with any time focus set the enhanced query ends with `年份 <years joined by blanks> year` for years and `时间 <period> time period` for a relative period |
| Search.EnhanceQueryShape | src/querying/search.py:32-72 | the enhanced query begins with the query; with nothing else set it is the query plus the granularity bundle |
| Search.EnhanceQueryYears | src/querying/search.py:60-64 | with a year focus the enhanced query ends with `年份 <years> year` |
| Search.ExtractTableType | src/querying/search.py:141-156 | the stored table type wins; otherwise the first type whose hint occurs in the lowered content, or none |
| Search.InferredBalanceSheet | src/querying/search.py:147-150 | content mentioning a balance-sheet hint, without a stored type, is typed balance_sheet |
| Search.MatchedYears | src/querying/search.py:186-190 | every focus year that occurs in the content is kept and nothing else is; order and repeats are stated by Search.MatchedYearsAppend and Search.MatchedYearsOne |
| Search.MatchedYearsAppend | src/querying/search.py:189 | the comprehension distributes over concatenation of the year list, so it keeps the list's order and its repeats |
| Search.MatchedYearsOne | src/querying/search.py:189 | a single year is kept exactly when the content holds it |
| Search.ExplainRelevanceShape | src/querying/search.py:158-194 | the explanation opens with the chunk-type sentence; a title chunk with nothing else to say gets an empty one |
| Search.ExplainRelevanceTime | src/querying/search.py:186-194 | with a year focus of which some year occurs in the content, the explanation ends with `包含相关年份数据: ` and the matched years joined by ", "; with a relative focus the content names, it ends with `包含相关时间段: ` and the period; otherwise the time focus changes nothing |
| Search.AdjustByIntent | src/querying/search.py:120-139 | the adjusted score is the score times the granularity, calculation and data-type factors |
| Search.BoostBounds | src/querying/search.py:98-103 | the total boost lies between 1 and 1.1·1.3·1.2·1.15; title chunks get only the type factor |
| Search.SeenIdsIff | src/querying/search.py:80-108 | a table id is seen exactly when an earlier full-table hit carried it |
| Search.KeptIndicesFacts | src/querying/search.py:105-108 | the kept positions are increasing and are exactly the hits the de-duplication keeps |
| Search.FilteredStep | src/querying/search.py:82-108 | each hit adds its enhanced form when kept and nothing otherwise |
| Search.FilteredExactly | src/querying/search.py:82-108 | the output holds exactly the enhanced forms of the kept hits |
| Search.NonFullKept | src/querying/search.py:105-106 | every chunk other than a full table is kept |
| Search.FullKeptIff | src/querying/search.py:105-108 | a full-table hit is kept exactly when no earlier full-table hit has its table id |
| Search.KeptFullIsFirst | src/querying/search.py:105-108 | a kept full-table hit has a table id no earlier full-table hit has |
| Search.FilteredOneFullPerTable | src/querying/search.py:105-108 | at most one full-table chunk per table survives |
| Search.EnhanceHit | src/querying/search.py:84-103 | the enhanced hit matches the specification of one loop step |
| Search.BoostAndDedup | src/querying/search.py:77-108 | the loop builds exactly the kept, boosted hits in retrieval order |
| Search.BoostAndDedupStep | src/querying/search.py:82-108 | one hit appends its boosted form exactly when kept, and a kept full chunk marks its table seen |
| Search.RenumberRanks | src/querying/search.py:114-116 | the ranks are rewritten as the renumbering specifies |
| Search.PostProcessResults | src/querying/search.py:74-118 | the method returns the post-processing specification |
| Search.PostProcessedFacts | src/querying/search.py:74-118 | the results are the kept hits permuted by descending score, ties in retrieval order, ranked 1, 2, … |
| Search.ProcessQuery | src/querying/search.py:16-30 | the query is enhanced, encoded, searched and post-processed, per index kind; a brute-force dimension mismatch and an unknown HNSW id are errors |
| Embeddings.FullTextStart | src/vector_indexing/embeddings.py:144-182 | the full-table text opens with the title line when there is a title, else with the table type |
| Embeddings.MetricChunks | src/vector_indexing/embeddings.py:63-78 | one metric chunk per key metric, in order, with `name: value` and the metric's name and value in its metadata |
| Embeddings.RowChunks | src/vector_indexing/embeddings.py:80-101 | one row chunk for each of the first ten rows, numbered by row, holding the row text and its encoding, tagged with the table |
| Embeddings.ColumnChunks | src/vector_indexing/embeddings.py:103-125 | one column chunk for each of the first five columns, carrying the column name, the column's description as content and the encoding of that content, tagged with the table |
| Embeddings.EmitMetrics | src/vector_indexing/embeddings.py:63-78 | the metric loop builds exactly the metric chunks |
| Embeddings.EmitRows | src/vector_indexing/embeddings.py:80-101 | the row loop builds exactly the row chunks |
| Embeddings.EmitColumns | src/vector_indexing/embeddings.py:103-125 | the column loop builds exactly the column chunks |
| Embeddings.ProcessTable | src/vector_indexing/embeddings.py:28-142 | a table yields its full, title, metric, row, column and description chunks in that order |
| Embeddings.GenerateEmbeddings | src/vector_indexing/embeddings.py:15-26 | the chunks of all tables, concatenated in table order |
| Embeddings.TableChunksCount | src/vector_indexing/embeddings.py:28-142 | a table yields 1 + title + metrics + min(10, rows) + min(5, columns) + description chunks |
| Embeddings.TableChunksShape | src/vector_indexing/embeddings.py:33-46 | the first chunk is the full table with its type and nesting level; all chunks carry the table's id, page and index |
| Embeddings.TableChunksLayout | src/vector_indexing/embeddings.py:63-125 | the metric, row and column chunks sit in consecutive blocks at the positions the order implies |
| Embeddings.TableChunksTagged | src/vector_indexing/embeddings.py:34-137 | every chunk of a table carries that table's id, page and index |
| Embeddings.AllChunksOrdered | src/vector_indexing/embeddings.py:15-26 | the table index of the chunks never decreases along the output |
| Indexer.Rebuilt | src/vector_indexing/indexer.py:44-50 | ids 0..n-1 get the new payloads, older higher ids keep theirs, no other id appears |
| Indexer.StaleEntriesSurvive | src/vector_indexing/indexer.py:44-50 | after a longer build then a shorter one, the ids past the second build still hold the first build's payloads |
| Indexer.OrderFacts | src/vector_indexing/indexer.py:104 | the argsort lists every vector index once |
| Indexer.TopIndicesShape | src/vector_indexing/indexer.py:104 | the selection holds min(k, n) distinct indices below n |
| Indexer.TopIndicesRanked | src/vector_indexing/indexer.py:104 | similarity does not increase along the selection and no index left out is more similar than one kept |
| Indexer.TopIndicesFacts | src/vector_indexing/indexer.py:104 | the top min(k, n) indices are distinct, in descending similarity, and none left out is more similar |
| Indexer.BruteForceFacts | src/vector_indexing/indexer.py:94-114 | brute force returns min(k, n) distinct hits ranked from 0, with score = similarity, distance = 1 − score, descending, and no better vector omitted |
| Indexer.HnswResults | src/vector_indexing/indexer.py:81-93 | HNSW hits succeed exactly when every id is mapped, keeping the neighbour order, with score = 1 − distance, ranks from 0 and the id's payload as data |
| Indexer.VectorIndexBuilder.constructor | src/vector_indexing/indexer.py:9-24 | HNSW is used only when requested and available; the index starts unbuilt and empty |
| Indexer.VectorIndexBuilder.BuildIndex | src/vector_indexing/indexer.py:26-57 | no embeddings change nothing; vectors of unequal length fail with ValueError after only the embedding size has changed; otherwise the index kind, size, id map and returned info are set |
| Indexer.VectorIndexBuilder.Search | src/vector_indexing/indexer.py:75-116 | an unbuilt index gives no hits; a brute-force query of another dimension fails with ValueError; otherwise the HNSW or brute-force results |
| Indexer.CollectResults | src/vector_indexing/indexer.py:103-114 | the brute-force loop builds exactly the specified hits |
| Semantic.ClassifyTableType | src/table_processing/semantic_enhancer.py:46-76 | the type is one of the five labels |
| Semantic.ClassifyTableTypeFacts | src/table_processing/semantic_enhancer.py:46-76 | financial exactly when a title or column keyword occurs, title keywords first; comparison exactly when neither occurs and the column text holds two or more years |
| Semantic.ClassifyByTitle | src/table_processing/semantic_enhancer.py:48-56 | the first title keyword group, in source order, that the lower-cased title contains decides the financial type |
| Semantic.ClassifyByColumns | src/table_processing/semantic_enhancer.py:58-67 | with no title group matching, the first column keyword group, in source order, that the joined lower-cased column names contain decides the financial type |
| Semantic.LastNumericIndex | src/table_processing/semantic_enhancer.py:156-162 | the last numeric cell, and none exactly when no cell is numeric |
| Semantic.FindFinancialTotal | src/table_processing/semantic_enhancer.py:149-176 | the loops return the specified total |
| Semantic.FinancialTotalFacts | src/table_processing/semantic_enhancer.py:149-176 | none exactly when no matching row or column has a numeric value; otherwise the text of a numeric cell in a row or column whose label matches |
| Semantic.TruthyEntries | src/table_processing/semantic_enhancer.py:288-296 | exactly the metric entries whose total is non-empty, in map order |
| Semantic.FirstSetFacts | src/table_processing/semantic_enhancer.py:152-174 | the search returns the first set flag, and none exactly when no flag is set |
| Semantic.MetricsOfEntries | src/table_processing/semantic_enhancer.py:288-296 | the loop over the keyword map builds the specified metrics list |
| Semantic.EntryTotal | src/table_processing/semantic_enhancer.py:289-296 | an entry yields its metric exactly when its total is non-empty |
| Semantic.MetricsUpToPositions | src/table_processing/semantic_enhancer.py:288-296 | the metrics list holds, in map order, one metric for each entry whose total is non-empty, built from that entry |
| Semantic.ExtractKeyMetrics | src/table_processing/semantic_enhancer.py:247-298 | the loop returns the specified metrics |
| Semantic.KeyMetricsFacts | src/table_processing/semantic_enhancer.py:247-298 | non-financial types have no metrics; otherwise one metric per entry with a total, in order, holding that total |
| Semantic.GenerateTableDescription | src/table_extraction/semantic_enhancer.py:78-105 | the description is the size sentence, the column list and the text for the table's kind |
| Semantic.DescriptionFacts | src/table_processing/semantic_enhancer.py:80-92 | the description opens with the row and column counts, which read back as the counts; up to five columns are all listed; beyond five, the first five are listed followed by " 等n个列" with the column count |
| Semantic.FindAllFinds | src/table_processing/semantic_enhancer.py:334-336 | the scan finds something exactly when the pattern matches somewhere |
| Semantic.FindAllMatches | src/table_processing/semantic_enhancer.py:334-336 | every string found is a match of the pattern in the text |
| Semantic.FindAllChain | src/table_processing/semantic_enhancer.py:334-336 | the strings found are the matches at the leftmost non-overlapping match positions, in order, each search resuming where the previous match ended, with no match after the last |
| Semantic.ReferencePatternsAnchored | src/table_processing/semantic_enhancer.py:327-332 | no reference pattern matches the empty string |
| Semantic.ReferencesAreMatches | src/table_processing/semantic_enhancer.py:327-336 | every reference found matches one of the four patterns |
| Semantic.TitlePosition | src/table_processing/semantic_enhancer.py:312-313 | the split point is the first occurrence of a non-empty title |
| Semantic.ExtractStructuredContext | src/table_processing/semantic_enhancer.py:300-337 | the method returns the specified context |
| Semantic.SurroundingText | src/table_processing/semantic_enhancer.py:310-324 | the preceding and following text are the specified ones |
| Semantic.FindReferences | src/table_processing/semantic_enhancer.py:326-337 | the references are the matches of every pattern, in pattern order |
| Semantic.ContextSplitsAtTitle | src/table_processing/semantic_enhancer.py:312-316 | with the title present, the text before and after its first occurrence, stripped |
| Semantic.ContextWithoutTitle | src/table_processing/semantic_enhancer.py:317-324 | without it, a short text is all preceding; a long one gives at most 200 characters each side |
| Semantic.EnhanceTable | src/table_processing/semantic_enhancer.py:15-44 | no frame or an empty one gives None; a list frame raises; otherwise type, description, metrics and context of the table |
| Response.TableIndexFits | src/querying/response.py:13-16 | every indexed id maps to a position holding a table with that id |
| Response.ExtractCalculationType | src/querying/response.py:565-586 | the kind is one of percentage, growth, sum, average, general |
| Text.LabelOfFacts | src/querying/response.py:565-586 | with distinct labels, the label names the first group with a term present, and the default means none has one |
| Response.CalculationTypeFacts | src/querying/response.py:565-586 | the first group with a term in the lowered query wins; general exactly when none has one |
| Response.FormatTimeInfoFacts | src/querying/response.py:614-630 | a year list names its first and last entries; the four relative periods get four distinct phrases; anything else is kept |
| Response.ExtractSuggestedMetrics | src/querying/response.py:517-530 | exactly the metric names of the metric hits |
| Response.SourcesFacts | src/querying/response.py:490-502 | the cited tables are distinct, indexed, each from one of the hits, and every indexed hit's table is cited |
| Response.MetricHits | src/querying/response.py:102-103 | only metric chunks, taken from the hits; empty exactly when no hit is a metric |
| Response.MetricPositionsFacts | src/querying/response.py:103 | the metric positions increase and are exactly the positions of the metric chunks |
| Response.MetricHitsPositions | src/querying/response.py:103 | the metric list is the hits at the metric positions, one for one: every metric hit kept once, in retrieval order |
| Response.MetricSelection | src/querying/response.py:102-120 | with any metric hit, the listed hits are the first min(3, n) metric hits in retrieval order; otherwise the first three hits |
| Response.RespondRouting | src/querying/response.py:18-44 | no hits give the apology; then overview, metric, calculation, comparison, specific, in that order |
| Response.SpecificReplyFacts | src/querying/response.py:463-515 | at most three distinct indexed tables cited from the top three hits; header first and footer last |
| Response.MetricReplyFacts | src/querying/response.py:100-181 | at most three distinct indexed tables, each cited from one of the listed hits; the header names the queried metric |
| Response.FinalMetricNameFromQuery | src/querying/response.py:120-125 | with no named metric hit listed, the closing sentence's metric is the queried name |
| Response.FinalMetricNameLast | src/querying/response.py:120-125 | otherwise it is the name of the last named metric hit listed |
| Response.ResponseGenerator.constructor | src/querying/response.py:8-16 | the tables are stored and the index matches them |
| Response.ResponseGenerator.RebuildIndex | src/querying/response.py:20-26 | the index is rebuilt from the tables, which stay the same |
| Response.ResponseGenerator.GenerateResponse | src/querying/response.py:18-44 | new tables replace the old and rebuild the index; the reply is the routed answer |
| Response.ResponseGenerator.CiteTable | src/querying/response.py:490-502 | a hit's table is appended exactly when it is indexed and not yet cited |
| Response.ResponseGenerator.GenerateSpecificResponse | src/querying/response.py:463-515 | the loop returns the specified specific answer |
| Response.ResponseGenerator.ListSpecific | src/querying/response.py:470-500 | one hit adds its two lines and cites its table as specified |
| Response.ResponseGenerator.DescribeSpecificHit | src/querying/response.py:470-488 | the two lines written for a hit depend on its chunk type as specified |
| Response.ResponseGenerator.GenerateMetricResponse | src/querying/response.py:100-181 | the method returns the specified metric answer |
| Response.ResponseGenerator.ListMetrics | src/querying/response.py:120-165 | the loop's lines, cited tables and final metric name are the specified ones |
| Response.ResponseGenerator.ListMetric | src/querying/response.py:120-165 | one hit adds its two lines, cites its table and updates the metric name as specified |
| Response.ResponseGenerator.DescribeMetricHit | src/querying/response.py:121-152 | a named metric hit writes name and value and replaces the metric name; others write a preview |
| Response.ResponseGenerator.ClosingLines | src/querying/response.py:167-176 | the time sentence and trend appear only with a metric name and a time focus |
| PdfText.MergeFacts | src/utils/pdf_utils.py:47-71 | the merge is as long as the longer list; a shared page is the longer reading, pdfplumber only when strictly longer; the rest comes from the longer list |
| PdfText.ExtractTextHybrid | src/utils/pdf_utils.py:47-71 | the loop returns the specified merge |
| PdfText.ExtractTextFromPdf | src/utils/pdf_utils.py:8-17 | the three names pick their extractor; any other name is a ValueError |
| PdfText.CollapseSpacesFacts | src/utils/pdf_utils.py:175 | the only whitespace left is the blank, and no two whitespace characters remain adjacent |
| PdfText.CollapseNoSpace | src/utils/pdf_utils.py:175 | text without whitespace is left unchanged |
| PdfText.CollapseRun | src/utils/pdf_utils.py:175 | a whole whitespace run between two pieces becomes exactly one blank between the pieces' collapsed forms, so all other content is kept in order |
| PdfText.RemoveSpecial | src/utils/pdf_utils.py:178 | only word, whitespace and the listed punctuation characters remain; that each such character stays is stated by PdfText.RemoveSpecialAppend and PdfText.RemoveSpecialOne |
| PdfText.RemoveSpecialAppend | src/utils/pdf_utils.py:178 | the substitution distributes over concatenation, so it works character by character and keeps order |
| PdfText.RemoveSpecialOne | src/utils/pdf_utils.py:178 | one character stays exactly when it is a word character, whitespace or listed punctuation, and goes otherwise |
| PdfText.RemoveSpecialFromInput | src/utils/pdf_utils.py:178 | every character left comes from the input |
| PdfText.CleanTableText | src/utils/pdf_utils.py:169-172 | falsy text cleans to the empty string |
| PdfText.CleanTableTextFacts | src/utils/pdf_utils.py:169-180 | the result holds only blanks and kept characters, has no outer whitespace, and keeps every word or punctuation character of the input in order |
| PdfText.CleanAcrossRun | src/utils/pdf_utils.py:169-180 | two wanted characters that the input separates only by whitespace are separated by exactly one blank: cleaning the whole is cleaning each side joined by a blank |

## Left out

- PDF reading and table detection (pdfplumber, PyMuPDF, PyPDF2, the detection network, `extract_text_around_table`, `get_pdf_metadata`, `is_scanned_pdf`): library I/O. The two extractors' page lists are inputs.
- `src/table_extraction/structure.py`, `src/utils/visualization.py` and the example scripts are not part of this model.
- The sentence encoder, cosine similarity and the HNSW graph: parameters. `_build_hnsw_index`'s construction settings are not modelled.
- `save_index` and `load_index`: file I/O.
- Column statistics and the comparison-table and generic-table descriptions: pandas and floating point. They are parameters.
- The response generator's overview, calculation and comparison answers and its regex helpers (`_extract_metric_from_query`, `_extract_comparison_entities`, `_extract_numeric_value`, `_find_related_total`, `_extract_values_by_time`, `_extract_trend_info`, `_extract_comparison_values`): float arithmetic over regex matches. They are parameters.
- Score arithmetic is exact real arithmetic, not IEEE doubles.
- Logging with `print` is not modelled.
- Indexer.TopIndicesFacts: ties in similarity go to the lower index. numpy's default argsort does not promise an order for ties.
- Intent.AnalyzeIntent: `lower()` is modelled on ASCII letters only. Other cased scripts are left as they are.
- Semantic.FinancialTotalFacts: a numeric cell is an int or float value or a digit string; `isdigit` is taken as ASCII digits. Duplicate row labels, for which `df.loc` returns a frame, are not modelled. Nor are duplicate column names: `df[col].values` (`src/table_processing/semantic_enhancer.py:169`) is then 2-D, no element passes the numeric test and the source skips that column, while the model reads `Column(g, c)`.
- Response.SpecificReplyFacts: a table whose title entry holds None is cited with the title "表格".
- Response.ExtractSuggestedMetrics: the `key_metrics` branch is left out, because search results never carry that key.
- PdfText.RemoveSpecial: `\w` is a parameter (`isWord`), not Python's Unicode word class.
- Intent.DetectTimeFocus: `\d` in `(19|20)\d{2}` is taken as the ASCII digits. Python 3 also matches every other Unicode decimal digit, so a year such as "20２３" gives a time focus in the source and none here.
- Semantic.ClassifyTableType: the year count over the column text, which decides the comparison type, reads `\d` as the ASCII digits; a year written in other Unicode decimal digits counts in the source and not here.
- Semantic.ClassifyTableTypeFacts: states the year-column rule with the same ASCII reading of `\d`.
- Nesting.IsContained: the 0.85 overlap ratio and the 0.9 area ratio are compared in exact real arithmetic; the detector divides IEEE doubles, which can round a ratio across a threshold.
- Indexer.VectorIndexBuilder.Search: in the HNSW branch the query goes to `knn`, a parameter, unchecked; the dimension check hnswlib makes is not modelled.
- Semantic.ReferencesAreMatches: `\s` is Python's whitespace set and `\d` is ASCII digits; other Unicode digits are not matched.
