# ChatDB core, modelled in Dafny

ChatDB turns English questions about a MySQL database into SQL. It also
suggests sample queries, and it loads a folder of CSV files as tables. This
project models the core of all three parts and proves properties of the
model:

- **The interpreter** (`query_interpreter.py`). It holds the operator and
  aggregation phrase tables. It filters and reverts the query's tokens, maps
  tokens to tables and columns with a fuzzy matcher, and runs the
  `detect_*` intent detectors. It infers related tables from primary-key
  and `_id` patterns. It assembles the SELECT statement.
- **The sample-query generator** (`query_generation.py`). It picks an
  aggregation column and an even-distribution GROUP BY column. It adds the
  GROUP BY, JOIN and ORDER BY clauses. Those change a shared
  `select_columns` set, so they are modelled as methods on a `SelectColumns`
  class that change its `items`. It also covers related tables by
  compatible common columns, LIMIT/OFFSET pagination, the final punctuation,
  table weights, the curated five-query selection and the keyword retry loop.
- **The CSV loader** (`mysql_functions.py`). It infers primary and foreign
  keys and builds the CREATE TABLE column definitions. It escapes literals,
  buffers rows into INSERT batches, and orders uploads so that tables with
  no foreign keys come first.

External services are inputs or parameters:

- The database schema is a `Schema` value: an ordered sequence of tables
  with named, typed columns.
- `difflib.get_close_matches` is a `Matcher`, a function that returns either
  no match or one of the candidates.
- NLTK's lemmatiser is a `string -> string` parameter.
- Row counts and the even-distribution group counts are inputs.
- Every `random` draw is a parameter. A precondition bounds it to the range
  the source draws from.

Modules:

- `Options` and `Text` hold shared helpers: contains, join, replace,
  whitespace collapsing, digits.
- `Identifiers`: backtick quoting.
- `Discovery`: first-seen distinct lists.
- `Schemas`.
- `Matching`.
- `SchemaMatcher`, `WhereConditions`, `IntentDetectors`, `KeyInference`,
  `RelatedTables`, `SqlRenderer` and `TokenFilter`: the interpreter.
- `SampleColumns`, `ClauseBuilders`, `CommonColumns` and `SampleQueries`:
  the generator.
- `Loader`: the CSV loader.

## Model

| member | source | states |
|---|---|---|
| Identifiers.WrapIdentifier | query_generation.py:5-6 | the name framed by exactly one backtick on each side |
| Identifiers.CleanIdentifier | query_generation.py:9-10 | the result holds no backtick and is no longer than the input |
| Identifiers.CleanWrapRoundTrip | query_interpreter.py:50-56 | cleaning a wrapped backtick-free name gives the name back |
| Identifiers.CleanIdempotent | query_interpreter.py:55-56 | cleaning twice is the same as cleaning once |
| Discovery.FirstMatch | query_interpreter.py:143-146 | the index of the first token whose match is the given value |
| Discovery.DiscoverMember | query_interpreter.py:143-146 | a value is in the discovered list iff some token matched it |
| Discovery.DiscoverMembers | query_interpreter.py:143-146 | the same, for every value at once |
| Discovery.DiscoverDistinct | query_interpreter.py:145-146 | the "if not already in the list" append never creates duplicates |
| Discovery.DiscoverPrefix | query_interpreter.py:143-146 | what the first k matches discover is a prefix of the final list |
| Discovery.PositionInDiscover | query_interpreter.py:143-146 | a value enters the list at the point of its first match |
| Discovery.DiscoverOrder | query_interpreter.py:143-146 | earlier entries of the list were first matched earlier |
| Discovery.Enumerate | query_interpreter.py:454-458 | a chosen listing of a set has each element exactly once |
| Schemas.ColumnsOf | query_interpreter.py:70-79 | an unknown table has no columns |
| Schemas.TableOf | query_interpreter.py:70-79 | the named table is in the schema, and its column names are its ColumnsOf |
| Schemas.AllColumnsMember | query_interpreter.py:175 | every column of every table is in the flattened column list |
| Matching.MatchAll | query_interpreter.py:133-135 | one match result per token |
| Matching.MatchAllMembers | query_interpreter.py:133-135 | every truthy match is one of the candidates |
| SchemaMatcher.UnclaimedMember | query_interpreter.py:148-149 | a token is left for column matching iff it is not a matched table name |
| SchemaMatcher.DiscoverMatches | query_interpreter.py:156-160 | the matching loop lists exactly the distinct truthy matches, in first-seen order |
| SchemaMatcher.MapTokensToSchema | query_interpreter.py:138-170 | the mapped tables are the matched tables; the columns of each matched table are its matched columns |
| SchemaMatcher.MatchedTablesAreSchemaTables | query_interpreter.py:143-146 | the matched tables are distinct schema tables, and a table is matched iff some token matches it |
| SchemaMatcher.MatchedTablesInDiscoveryOrder | query_interpreter.py:143-146 | matched tables appear in order of their first matching token |
| SchemaMatcher.MatchedColumnsOfTable | query_interpreter.py:152-160 | distinct columns of that table; a column is listed iff an unclaimed token matches it |
| WhereConditions.OperatorAtFirstHit | query_interpreter.py:181-184 | the operator found is the one for the first phrase, in longest-first order, that starts at the position |
| WhereConditions.OperatorAtMiss | query_interpreter.py:181-184 | no operator is found iff no phrase starts at the position |
| WhereConditions.OperatorAtLongestFirst | query_interpreter.py:181-184 | phrases are tried longest first, so "greater than or equal to" wins over "greater than" |
| WhereConditions.FindOperator | query_interpreter.py:181-184 | the phrase-length loop finds exactly the longest-first operator after the column |
| WhereConditions.ReadValue | query_interpreter.py:185-190 | the value is None past the end, an int for digits, and the quoted token otherwise |
| WhereConditions.DetectWhereConditions | query_interpreter.py:173-198 | the loop returns exactly the conditions of the token scan |
| WhereConditions.ScanHit | query_interpreter.py:179-193 | after a column, an operator phrase and a value, one condition is recorded and the scan resumes after the value |
| WhereConditions.ScanMiss | query_interpreter.py:194-197 | a token that starts no condition is skipped |
| WhereConditions.HitStep | query_interpreter.py:191-192 | recording a hit and jumping past the value keeps the scan's conditions in order |
| WhereConditions.ScanFrom | query_interpreter.py:177-197 | a scan from a position detects nothing before it |
| WhereConditions.ScanDetectionSound | query_interpreter.py:177-197 | each detection is well formed: the column is a schema column, the operator comes from the table, the value has its kind |
| WhereConditions.DetectionAtSound | query_interpreter.py:179-191 | the condition recorded at a column with an operator phrase is well formed |
| WhereConditions.ScanSound | query_interpreter.py:177-197 | the same for every detection of the scan |
| WhereConditions.ScanOrdered | query_interpreter.py:177-197 | detections appear in increasing token position |
| WhereConditions.ScanComplete | query_interpreter.py:177-197 | every column-operator-value occurrence that the scan reaches is detected |
| WhereConditions.ConditionsOfScan | query_interpreter.py:177-197 | the conditions are the projections of the detections |
| WhereConditions.ConditionsLength | query_interpreter.py:177-197 | one condition per detection |
| IntentDetectors.AnyTokenIn | query_interpreter.py:201-204 | true iff some token is one of the words |
| IntentDetectors.DetectJoin | query_interpreter.py:201-204 | true iff some token is a join word, or the lower-cased query contains one |
| IntentDetectors.FirstGroupCue | query_interpreter.py:284-294 | the first position with a "by"/"group" cue followed by a matched column |
| IntentDetectors.DetectGroupBy | query_interpreter.py:284-294 | a non-empty schema column, and none iff no position has a group cue |
| IntentDetectors.FirstAggregationCue | query_interpreter.py:296-307 | the first aggregation word followed by a matched column |
| IntentDetectors.DetectAggregation | query_interpreter.py:296-307 | the function comes from the aggregation table and the column is a schema column; none iff no cue |
| IntentDetectors.LastCuedNumber | query_interpreter.py:309-320 | the last digit token whose previous token is a cue word (later matches overwrite earlier ones) |
| IntentDetectors.DetectLimitAndOffset | query_interpreter.py:309-320 | the last limit number, or none; the last offset number, or 0 |
| IntentDetectors.FirstSortCue | query_interpreter.py:322-343 | the first sort-cue word position |
| IntentDetectors.DetectLimitAndSort | query_interpreter.py:322-343 | a direction iff some sort cue; DESC iff the first cue is a descending word; no sort column without a direction |
| KeyInference.LastIndexOf | mysql_functions.py:122 | the last index of the character, or -1 |
| KeyInference.SplitextRoot | mysql_functions.py:122 | the root is a prefix of the file name |
| KeyInference.SplitextRootOfCsv | mysql_functions.py:122 | the root of "t.csv" is t for a dot-free t |
| KeyInference.CandidateKeys | mysql_functions.py:138 | exactly three candidate key names |
| KeyInference.LastPresent | query_interpreter.py:228-230 | a candidate present in the columns (the later one wins); none iff no candidate is present |
| KeyInference.PrimaryKeyPreference | query_interpreter.py:226-230 | the preference among the three candidates: the last present one |
| KeyInference.DetectPrimaryKeys | mysql_functions.py:136-142 | the loop builds exactly the primary-key entries, table by table |
| KeyInference.PrimaryKeyEntrySound | query_interpreter.py:223-230 | every entry is a table with its inferred key |
| KeyInference.PrimaryKeyEntryComplete | query_interpreter.py:223-230 | every table with an inferred key has an entry |
| KeyInference.PrimaryKeyEntriesUnique | query_interpreter.py:223-230 | at most one entry per table, as in the source's dictionary |
| RelatedTables.FindRelatedTables | query_interpreter.py:215-248 | a pair is related iff the two tables differ and share a column that is a primary key or ends in "_id"; each entry lists those columns |
| RelatedTables.RelatedFrom | query_interpreter.py:233-246 | the related pairs from one table are exactly its related partners |
| RelatedTables.RelatedSymmetric | query_interpreter.py:233-246 | (a, b) is related iff (b, a) is, with the same join columns |
| SqlRenderer.FirstWithId | query_interpreter.py:381 | the first common column containing "id" |
| SqlRenderer.JoinColumn | query_interpreter.py:381 | a common column, and it contains "id" iff any common column does |
| SqlRenderer.QualifyColumn | query_interpreter.py:430-436 | a column of none of the tables stays unqualified |
| SqlRenderer.WhereParts | query_interpreter.py:428-440 | one rendered part per condition |
| SqlRenderer.RenderConditions | query_interpreter.py:428-440 | the loop renders exactly the WHERE clause |
| SqlRenderer.JoinStage | query_interpreter.py:377-411 | the join fails exactly on a missing relation; otherwise the join clause, select set and sort column of the join step |
| SqlRenderer.AggregationStage | query_interpreter.py:414-425 | the select set, GROUP BY clause and sort column after aggregation |
| SqlRenderer.OrderByStage | query_interpreter.py:443-445 | the ORDER BY clause of the final sort column |
| SqlRenderer.LimitStage | query_interpreter.py:448-451 | the LIMIT/OFFSET clause |
| SqlRenderer.WhereStage | query_interpreter.py:428-440 | the WHERE clause, empty without conditions |
| SqlRenderer.SelectStage | query_interpreter.py:454-457 | a listing of the select set, or of * when it is empty |
| SqlRenderer.Finish | query_interpreter.py:413-470 | after a successful join step, the assembled query for some listing of the select set, starting with SELECT and single-spaced |
| SqlRenderer.GenerateSqlQuery | query_interpreter.py:345-475 | the no-table and no-join error messages; otherwise the assembled query for some listing of the select set, starting with SELECT and single-spaced |
| SqlRenderer.RenderShape | query_interpreter.py:461-470 | every rendered query starts with SELECT and is single-spaced |
| SqlRenderer.TemplateShape | query_interpreter.py:461-470 | the normalised template starts with "SELECT " followed by the list |
| SqlRenderer.AggregateSelect | query_interpreter.py:414-425 | with an aggregation, the aggregate expression is selected, and GROUP BY appears iff a group column was detected |
| SqlRenderer.JoinSelect | query_interpreter.py:389-401 | after a join, every selected item other than * is an aliased column of one of the two tables |
| SqlRenderer.WhereClauseShape | query_interpreter.py:428-440 | the WHERE clause is empty iff there are no conditions, and otherwise starts with "WHERE " |
| SqlRenderer.LimitClauseCases | query_interpreter.py:448-451 | nothing iff neither a non-zero limit nor a non-zero offset; exactly "LIMIT n" with a limit and no offset, "LIMIT n OFFSET m" with both, and "OFFSET m" with an offset alone |
| TokenFilter.FilterTokens | query_interpreter.py:112-120 | the filter loop keeps exactly the tokens of the filter |
| TokenFilter.KeptMeaning | query_interpreter.py:112-120 | each kept token comes from some input token, as its restored quote or as its normalised form that is not a stop word or is a column; every quote and every such normalised token is kept; no more tokens come out than go in |
| TokenFilter.StopWordsDropped | query_interpreter.py:117-120 | no kept unquoted token is a stop word that is not a column |
| TokenFilter.RevertToken | query_interpreter.py:123-126 | columns are kept; other tokens get spaces for underscores |
| TokenFilter.Revert | query_interpreter.py:123-126 | the revert step maps each token on its own |
| TokenFilter.RevertKeepsColumns | query_interpreter.py:123-126 | a column name survives the revert step unchanged |
| TokenFilter.QuotedUnderscoresLost | query_interpreter.py:112-126 | as written: the quoted text "new_york" comes back as "new york" |
| TokenFilter.KeptTagged | query_interpreter.py:112-120 | the tagged filter keeps no more tokens than it is given |
| TokenFilter.KeptTaggedText | query_interpreter.py:112-120 | without the tags, the tagged filter is the source's filter |
| TokenFilter.QuotedKeptVerbatim | query_interpreter.py:112-126 | corrected: a quoted string is returned verbatim |
| TokenFilter.IntendedAgreesOnUnquoted | query_interpreter.py:123-126 | without quotes, the corrected filter is the source's filter |
| SampleColumns.FirstAmountLike | query_generation.py:43-47 | the first numeric column whose name suggests an amount |
| SampleColumns.FindAggregationColumn | query_generation.py:43-47 | an amount-like numeric column when there is one; none iff there is none |
| SampleColumns.NonAmount | query_generation.py:93-98 | the GROUP BY candidates are the categorical and numeric columns that are not amount-like, in order |
| SampleColumns.QuarterCount | query_generation.py:36-41 | the number of groups whose count is at least a quarter of the total (4·count ≥ total), never more than the number of groups |
| SampleColumns.QuarterCountPositive | query_generation.py:36-41 | the count is positive iff some group reaches a quarter of the total |
| SampleColumns.QuarterCountTwo | query_generation.py:36-41 | the count is above one iff two different groups each reach a quarter of the total |
| SampleColumns.EvenlyDistributedMeaning | query_generation.py:36-41 | a column is evenly distributed iff two different groups each hold at least a quarter of its rows |
| SampleColumns.QuarterSumBounds | query_generation.py:36-41 | the rows of the groups reaching a quarter are at most all rows, and at least a quarter of the total for each such group |
| SampleColumns.AtMostFourQuarters | query_generation.py:36-41 | at most four groups can each hold a quarter of the rows |
| ClauseBuilders.SelectColumns.constructor | query_generation.py:204-207 | the select set starts as the given items |
| ClauseBuilders.SelectColumns.Replace | query_generation.py:126-127 | clear then update: the items become the new set |
| ClauseBuilders.SelectColumns.Add | query_generation.py:141 | the item is added |
| ClauseBuilders.FirstEven | query_generation.py:100-101 | the first candidate that is evenly distributed |
| ClauseBuilders.FindGroupColumn | query_generation.py:99-101 | the candidate loop returns the group column |
| ClauseBuilders.GroupColumn | query_generation.py:93-101 | an evenly distributed, non-amount-like categorical or numeric column; none iff no candidate is evenly distributed |
| ClauseBuilders.AggregateItem | query_generation.py:114-122 | the aggregate call on the column, or COUNT(*) when there is no column |
| ClauseBuilders.GroupedSelect | query_generation.py:116-122 | the group column and the aggregate item, and nothing else |
| ClauseBuilders.GroupNotAggregated | query_generation.py:116-122 | the group column is never the aggregate item |
| ClauseBuilders.AddGroupByClause | query_generation.py:92-130 | no change when no column qualifies; otherwise GROUP BY on the chosen column, with the description, description column and select set updated |
| ClauseBuilders.AddJoinClause | query_generation.py:155-200 | no change without a related table; otherwise the ON clause on the common columns, the joining phrase, and the aliased columns of both tables as the select set |
| ClauseBuilders.FirstTick | query_generation.py:171-183 | the position of the first backtick |
| ClauseBuilders.FirstTickOf | query_generation.py:171-183 | the first backtick of a framed name closes its first part |
| ClauseBuilders.SplitAtBacktick | query_generation.py:171-183 | an aliased name splits back into its table and column |
| ClauseBuilders.AliasedForm | query_generation.py:171-183 | the aliased form of a table and column |
| ClauseBuilders.AliasedInjective | query_generation.py:171-183 | distinct backtick-free (table, column) pairs get distinct aliases |
| ClauseBuilders.AliasedSetMember | query_generation.py:171-180 | an alias is in a table's aliased set iff its column is |
| ClauseBuilders.JoinSelectMembers | query_generation.py:170-187 | after a join, the first table keeps all its columns and the second loses the join column |
| ClauseBuilders.SortTarget | query_generation.py:133-140 | the sort column, qualified by the table iff the query joins |
| ClauseBuilders.AddOrderByClause | query_generation.py:132-151 | ORDER BY on the target and direction, with the description updated and the column selected |
| CommonColumns.PairsWith | query_generation.py:330-335 | the pairs of one column with the compatible columns of the other table |
| CommonColumns.CommonPairs | query_generation.py:330-335 | a pair is listed iff the two columns share name and base type |
| CommonColumns.FindRelatedTablesWithCommonColumns | query_generation.py:313-340 | an entry for every table, never relating a table to itself, only with non-empty pairs |
| CommonColumns.CommonPairSound | query_generation.py:330-335 | both sides of a pair name the same column, present in both tables with the same base type |
| CommonColumns.CommonPairsSymmetric | query_generation.py:330-335 | a pair is found from one side iff the swapped pair is found from the other, so either side finds pairs iff the other does |
| CommonColumns.RelatedSymmetric | query_generation.py:313-340 | t2 is related to t1 iff t1 is related to t2 |
| SampleQueries.Paginate | query_generation.py:246-256 | under the threshold, no change; otherwise LIMIT, plus OFFSET exactly when no aggregate marker occurs |
| SampleQueries.PageInsideResult | query_generation.py:249-251 | with the draw in its range, the page lies within the result and the offset is at most 20 |
| SampleQueries.Finalize | query_generation.py:262 | the description ends with "." and the query with exactly one ";" |
| SampleQueries.FinalizeKeepsKeyword | query_generation.py:421-422 | finalising keeps a keyword found in the query |
| SampleQueries.Weight | query_generation.py:455-468 | 10 iff the row count is known and within the threshold, otherwise 1 |
| SampleQueries.Weights | query_generation.py:455-468 | one weight per table, each the table's weight |
| SampleQueries.WeightMonotone | query_generation.py:455-468 | a smaller known row count never gives a smaller weight |
| SampleQueries.FirstWith | query_generation.py:300-304 | the first query containing the keyword |
| SampleQueries.Pass | query_generation.py:300-304 | one keyword pass moves at most one query from the pool to the selection, losing none |
| SampleQueries.KeywordPass | query_generation.py:300-304 | one pass of the loop moves exactly what the pass specification moves |
| SampleQueries.PassesPreserve | query_generation.py:299-304 | the keyword passes move queries and lose none |
| SampleQueries.CoversPermuted | query_generation.py:299-304 | keyword coverage depends only on which queries are held |
| SampleQueries.CoversExtended | query_generation.py:307-308 | adding queries keeps coverage |
| SampleQueries.PassesCover | query_generation.py:299-304 | every keyword some pool query contains is covered by the selection |
| SampleQueries.DistinctCount | query_generation.py:289-310 | a duplicate-free list holds each value at most once |
| SampleQueries.FillDrawn | query_generation.py:307-308 | filling reaches five samples or exhausts the rest, taking them from the rest |
| SampleQueries.CuratedDrawn | query_generation.py:295-310 | the curated selection has min(5, pool size) samples, all drawn from the pool |
| SampleQueries.SubDistinct | query_generation.py:289-310 | a sub-multiset of a distinct list is distinct |
| SampleQueries.CuratedMeaning | query_generation.py:295-310 | min(5, pool size) distinct queries, all from the pool, covering every keyword that some pool query contains |
| SampleQueries.FindWith | query_generation.py:300-304 | the search loop finds the first query with the keyword |
| SampleQueries.KeywordPasses | query_generation.py:299-304 | the keyword loop computes the passes |
| SampleQueries.FillSelection | query_generation.py:307-308 | the fill loop tops the selection up to five |
| SampleQueries.CurateSelection | query_generation.py:295-310 | the whole selection equals the curated specification |
| SampleQueries.ClausePlan | query_generation.py:372-386 | the keyword's own clause is always planned, and JOIN and GROUP BY are never planned together |
| SampleQueries.FirstSuccess | query_generation.py:359-431 | the first attempt that contains the keyword after paging |
| SampleQueries.ConstructWithKeyword | query_generation.py:359-431 | the retry loop returns the first successful attempt, finalised; none iff no attempt succeeds |
| SampleQueries.KeywordSampleMeaning | query_generation.py:421-422 | a returned sample's query ends with ";" and contains the keyword |
| Loader.AddRefsLoop | mysql_functions.py:146-150 | the inner loops append exactly the references of the fold |
| Loader.FindForeignKeys | mysql_functions.py:127-152 | the foreign-key map of the tables and their inferred primary keys |
| Loader.AddRefsSound | mysql_functions.py:148-150 | every appended reference is a column of the table, names another table, and matches that table's key |
| Loader.AddColumnsSound | mysql_functions.py:145-150 | the same for all columns of a table |
| Loader.ForeignKeyMapSound | mysql_functions.py:145-150 | the same for the whole map |
| Loader.AddRefsMonotone | mysql_functions.py:148-150 | appending keeps earlier references |
| Loader.AddRefsAdds | mysql_functions.py:148-150 | a matching key is appended |
| Loader.AddColumnsMonotone | mysql_functions.py:146-150 | later columns keep earlier references |
| Loader.AddColumnsAdds | mysql_functions.py:146-150 | every matching column gets its reference |
| Loader.ForeignKeyMapComplete | mysql_functions.py:145-150 | every column that is another table's primary key is recorded as a reference to it |
| Loader.ForeignKeysMeaning | mysql_functions.py:127-152 | (column, table) is listed for t iff the column is t's, the table is another one, and the column is that table's primary key; listed tables have at least one reference |
| Loader.ReferenceIsPrimaryKey | mysql_functions.py:148-150 | every reference names a table whose primary key is the referencing column |
| Loader.NormalizeColumn | mysql_functions.py:170-171 | no spaces remain |
| Loader.FirstRef | mysql_functions.py:175-178 | the first foreign key on the column (the loop breaks) |
| Loader.Reference | mysql_functions.py:175-178 | a reference is the first foreign-key entry for the column; none iff there is none |
| Loader.SpecOf | mysql_functions.py:169-178 | as written: PRIMARY KEY on every column that is one of the candidates |
| Loader.TwoPrimaryKeys | mysql_functions.py:165-173 | as written: a "users" table with both user_id and userid declares two primary keys |
| Loader.IntendedSpecOf | mysql_functions.py:169-178 | corrected: PRIMARY KEY only on the one chosen key |
| Loader.NormalizedNames | mysql_functions.py:170 | one normalised name per column |
| Loader.IntendedSpecs | mysql_functions.py:169-179 | one definition per column |
| Loader.SinglePrimaryKey | mysql_functions.py:169-179 | corrected: with distinct normalised names, at most one PRIMARY KEY, and exactly one when some candidate is present |
| Loader.BuildColumnDef | mysql_functions.py:170-178 | corrected: the column definition with PRIMARY KEY only on the detected key, and the first matching REFERENCES entry |
| Loader.BuildColumnDefs | mysql_functions.py:168-180 | corrected: the comma-joined column definitions, one per column in order |
| Loader.Escape | mysql_functions.py:203 | every quote is doubled |
| Loader.EscapeRoundTrip | mysql_functions.py:203-204 | undoubling the escaped text gives the original back, and the escape is well formed |
| Loader.RenderValue | mysql_functions.py:198-204 | NULL for a missing value or "NULL"; raw text for INT and FLOAT; otherwise a quoted escape |
| Loader.QuotedLiteralRoundTrip | mysql_functions.py:202-204 | a quoted literal decodes back to the value's text |
| Loader.RowValues | mysql_functions.py:195-204 | one literal per cell, each the cell's RenderValue |
| Loader.RenderRow | mysql_functions.py:205 | a parenthesised row whose inside is the cells' literals joined with ", " |
| Loader.BuildRow | mysql_functions.py:195-205 | the loop over a row's cells renders the row |
| Loader.BatchRows | mysql_functions.py:193-216 | the batches flatten back to the rows, all batches but the last are full, the last is non-empty, and there are no batches iff no rows |
| Loader.InsertStatement | mysql_functions.py:207-216 | the statement starts with the INSERT head, ends with ";", and between them holds the batch's rows joined with ", " |
| Loader.ValuesLists | mysql_functions.py:207-216 | one values list per batch |
| Loader.JoinBatches | mysql_functions.py:207-216 | the batches' values lists joined together are all rows joined at once |
| Loader.InsertStatements | mysql_functions.py:193-216 | one INSERT statement per batch, in order; the batches flatten to the rows, all but the last are full, there are no statements iff no rows, and together their values lists are exactly the rows |
| Loader.Independent | mysql_functions.py:246-248 | a table is independent iff it has no foreign keys |
| Loader.Dependent | mysql_functions.py:249-251 | a table is dependent iff it has foreign keys |
| Loader.UploadOrderMeaning | mysql_functions.py:246-261 | the upload order holds exactly the tables, no table is both independent and dependent, and independent tables come before dependent ones |
| Loader.UploadOrderPermutes | mysql_functions.py:246-261 | the upload order is a permutation of the tables: each is uploaded as often as it is listed |
| Loader.DependentAreKeyed | mysql_functions.py:249-251 | a loaded table is dependent iff the foreign-key map lists it |

## Left out

- Database input and output is not modelled. Connecting, `SHOW TABLES`, `DESCRIBE`, `SELECT COUNT(*)`, query execution, exceptions and printing are replaced by inputs: the schema, row counts and group counts.
- NLTK is not modelled. Tokenisation and stop-word lists are inputs, and the lemmatiser is a parameter.
- `difflib.get_close_matches` is abstract. The model keeps only the guarantee that a match is one of the candidates.
- The regular-expression rewriting in `preprocess_query` (query_interpreter.py:87-107) is left out.
- The quote extraction and placeholders are inputs: a map from placeholder to quoted text.
- `random` is modelled only by its range. Every draw is a parameter bounded as the source bounds it.
- The shuffle in sample selection is left out, because the pool is taken as already shuffled.
- Floating point is not modelled. The even-distribution share is stated exactly with integers.
- Python set iteration order is not modelled. A listing of a set is an arbitrary choice of order, and the contracts hold for every such order.
- `infer_column_types` and pandas frame handling are not modelled. Column types and cell values are inputs, and NaN is a `Missing` cell.
- `extract_columns_by_type` is not modelled. The categorical and numeric column lists are inputs.
- `add_where_clause` is left out. It samples values from the database.
- The composition in `construct_dynamic_query` is modelled only through its parts: the clause builders, pagination and `Finalize`.
- The random choice of clauses in `construct_dynamic_query` beyond the keyword plan is left out.
- `generate_sample_queries` and `generate_sample_queries_with_keyword` are modelled only through their parts: weights, selection and the keyword loop. The table draw itself is random and left out.
- `get_table_row_counts` is left out. It is database input; the counts are inputs.
- `Lower`, `isdigit` and whitespace are ASCII only. Whitespace is the ASCII set Python treats as whitespace, including the separators U+001C to U+001F. Unicode case folding, Unicode digits and non-ASCII whitespace are not modelled.
- `str(value)` for INT and FLOAT cells is the cell's text as given.
- `chatdb.py` is not part of this model. It is the interactive front end.
- Code that is commented out in the source is not modelled.
- Loader.BuildColumnDef: renders the corrected primary-key rule (IntendedSpecOf, PRIMARY KEY only on the detected key), not the as-written rule (SpecOf, PRIMARY KEY on every candidate name). The as-written behaviour is kept in SpecOf and TwoPrimaryKeys.
- Loader.BuildColumnDefs: builds the column definitions with the same corrected rule, through BuildColumnDef.

## Findings

| source | as written | input that shows it | evidently intended | confidence | as-written member | corrected member |
|---|---|---|---|---|---|---|
| query_interpreter.py:123-126 | the revert step checks for the placeholder prefix on tokens that were already replaced by their quoted text, so underscores inside quoted strings become spaces | the query `show rows where city is "new_york"`: the quoted token comes back as `new york` | quoted strings are returned verbatim | not executed | TokenFilter.QuotedUnderscoresLost | TokenFilter.QuotedKeptVerbatim |
| mysql_functions.py:165-173 | PRIMARY KEY is added to every column whose normalised name is any of the three candidate names | a `users.csv` with columns `user_id` and `userid` gets two PRIMARY KEY clauses, and MySQL rejects the CREATE TABLE | one primary key per table, the one the key inference chooses | not executed | Loader.TwoPrimaryKeys | Loader.SinglePrimaryKey |
