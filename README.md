# ARIA by ProIngenius — a Dafny model of its core

ARIA is a relationship-banking assistant for premium account executives. It has
three parts:

- an Express server (`server/`) that reads client cards from a JSON-lines file,
  lists, pages and filters them, and builds per-client insights with an LLM and a
  rule-based fallback;
- a Python RAG service (`server/api_rag/`) that indexes the same cards in a vector
  collection, answers questions over them, and reports portfolio balances from two
  JSON files;
- a React client (`client/src/`) whose pages filter, count, sort and colour what the
  server returns.

The model has one Dafny module per core source file, plus four shared modules:

- `Wrappers`: `Option` and `Result`;
- `Seqs`: filter, count, sums, batching and flattening;
- `Strings`: JavaScript's `trim`, `split`, `join`, case mapping, `includes`,
  `padStart` and `parseInt`, and decimal rendering;
- `Bands`: the green, yellow and red colour scheme the dashboards share.

How each kind of source code is modelled:

- **Pure code** becomes functions with named results, plus lemmas. This covers
  category rules, colour bands, filters, the SQL aggregates of the chat assistant and
  the seed row mapping.
- **Code that updates state in place** becomes classes whose methods carry `modifies`
  clauses and state the new state. This covers:
  - the client cache of the data loader;
  - the mock local database;
  - the vector collection and the RAG service;
  - the lazily created singletons of the Python API;
  - the page state of the React views.
- **Loops become methods with loop invariants**, each proved against a specification
  function. This covers the JSONL line loop, the filter builder, the paging, the
  batch inserts of the seed script, the batch indexing and the match formatter.

Everything outside the program is a parameter of the operation that uses it:

- file contents and whether a file exists;
- `JSON.parse` and `parseFloat`;
- the rows the database returns;
- every LLM, embedding, Chroma query and HTTP `fetch` outcome;
- clock readings.

## Model

| member | source | states |
|---|---|---|
| DataLoader.AsClient | server/data-loader.ts:67-68 | A parsed line is accepted as a client exactly when it has a truthy `cliente_id` and `perfil`; the client keeps both. |
| DataLoader.NonBlankLines | server/data-loader.ts:58 | After `split('\n').filter(line => line.trim())`, no kept line is blank. |
| DataLoader.Kept | server/data-loader.ts:63-75 | The clients taken from the lines number at most the lines, and each has a non-empty id. |
| DataLoader.ErrorCount | server/data-loader.ts:61-74 | The error count never exceeds the number of lines. |
| DataLoader.KeptPlusErrors | server/data-loader.ts:63-75 | Every line is counted exactly once: kept clients plus errors equal the number of lines. |
| DataLoader.KeptConcat | server/data-loader.ts:63-68 | Lines are handled one at a time in order: the clients of a concatenation are the clients of each part, concatenated. |
| DataLoader.KeptCountsAcceptedLines | server/data-loader.ts:63-75 | The kept clients are the lines that parse to an acceptable object; the errors are all other lines. |
| DataLoader.ParseLines | server/data-loader.ts:60-75 | The line loop returns exactly the kept clients and the error count of the lines. |
| DataLoader.LoadedFrom | server/data-loader.ts:52-58 | A missing or unreadable file yields no clients; every loaded client has a non-empty id. |
| DataLoader.FindById | server/data-loader.ts:102 | `find` returns nothing exactly when no client has the id; otherwise it returns the first client with that id. |
| DataLoader.JsRound | server/data-loader.ts:139-140 | `Math.round` gives the integer within half of its argument, rounding halves up. |
| DataLoader.ComputeStats | server/data-loader.ts:112-141 | Statistics of an empty list are all zero. Otherwise the sector counts and the sex counts each add up to the total, and the two averages are the rounded means of age and income, with missing values counted as 0. |
| DataLoader.StatsCounts | server/data-loader.ts:124-128 | The counts are the public-sector clients, the rest, the `FEMENINO` clients and the rest. |
| DataLoader.ClientStore.constructor | server/data-loader.ts:35 | The cache starts empty. |
| DataLoader.ClientStore.LoadClients | server/data-loader.ts:42-89 | A filled cache is returned unchanged. Otherwise the file is loaded, and the result is cached when the file exists, even when it is empty. |
| DataLoader.ClientStore.ClearClientsCache | server/data-loader.ts:148-150 | The cache is emptied. |
| DataLoader.ClientStore.GetClientById | server/data-loader.ts:96-103 | An empty id finds nothing and loads nothing; any other id is looked up with `FindById` in the cached or freshly loaded list, and an empty cache is filled exactly when the file exists. |
| DataLoader.ClientStore.GetClientStats | server/data-loader.ts:109-142 | The statistics are `ComputeStats` of the cached or freshly loaded list; an empty cache is filled exactly when the file exists. |
| DataLoader.LoadTwice | server/data-loader.ts:44-46 | Once an existing file has been loaded, a second load returns the same clients, even from another file. |
| Routes.ParamInt | server/routes.ts:18-19 | An absent query parameter parses to `NaN`. |
| Routes.IntOr | server/routes.ts:18-19 | `parseInt(x) \|\| d` is the parsed integer unless it is `NaN` or 0, in which case it is the default. |
| Routes.IntOrOfRendered | server/routes.ts:18-19 | A positive integer rendered in decimal is read back as itself. |
| Routes.FilterStepsSelect | server/routes.ts:23-40 | The four optional filters, applied one after another, keep exactly the clients that pass every supplied filter, in order. |
| Routes.SectorStage | server/routes.ts:25-28 | The sector step keeps the clients whose flag is 1 for `publico` and 0 for any other value. |
| Routes.MinEdadStage | server/routes.ts:30-32 | The minimum-age step composes with the sector step. |
| Routes.MaxEdadStage | server/routes.ts:34-36 | The maximum-age step composes with the previous steps. |
| Routes.MinIngresoStage | server/routes.ts:38-40 | The minimum-income step completes the selection. |
| Routes.SliceIndex | server/routes.ts:43 | `slice` clamps an index into `0..length`. |
| Routes.JsSlice | server/routes.ts:43 | A slice is never longer than the list, nor longer than `end - start`. |
| Routes.JsCeilDiv | server/routes.ts:51 | `Math.ceil(total / limit)` is the ceiling quotient for a positive limit and at most 0 for a negative one. |
| Routes.ListClients | server/routes.ts:13-53 | The page and limit are read with their defaults; the total counts the selected clients; the page is the window `(page - 1) * limit` of the selected clients; the page count is the ceiling of total over limit. |
| Routes.PageWindow | server/routes.ts:20 | For page ≥ 1 and limit ≥ 1, the page is a contiguous part of the filtered list and has at most `limit` clients. |
| Routes.FirstPage | server/routes.ts:43 | The first page is the first batch of the filtered list. |
| Routes.PageIsBatch | server/routes.ts:43 | Page k + 1 is exactly the k-th batch of `limit` consecutive clients. |
| Routes.PagesReassemble | server/routes.ts:51 | Pages 1 to `totalPages`, concatenated, give the whole filtered list back, and none of them is empty. |
| Routes.DetailRoute | server/routes.ts:72-85 | An unknown id gives 404 `Client not found`; a known id gives the client. |
| Routes.InsightsRoute | server/routes.ts:88-108 | An unknown id gives 404; a client without income gives 500 `Error generating insights`; a known client with an income always gets 200, whose body carries the client's id, profile, summary and its insights. |
| Routes.UnknownIdIsNotFound | server/routes.ts:76-78 | The detail and insights routes both answer 404 for an unknown id, whatever the LLM would have said. |
| Routes.MetricsRoute | server/routes.ts:113-133 | A good upstream body is forwarded; any failure gives the fixed fallback figures with status 200. |
| Routes.FallbackNetIsDifference | server/routes.ts:126-131 | The fallback net balance is captaciones minus colocaciones. |
| Routes.SaldoTipo | server/routes.ts:138 | `tipo` defaults to `neto` when absent or empty. |
| Routes.SaldoRoute | server/routes.ts:136-151 | The upstream body for the resolved `tipo` is forwarded; a failure gives 500 `Error fetching saldo metrics`. |
| Routes.RagAskRoute | server/routes.ts:156-177 | Without `q` the route answers 400 and forwards nothing. Otherwise it forwards `q` and `top_k` (default 5), and relays the body or answers 500. |
| AiInsights.EdadCategoria | server/ai-insights.ts:115 | `joven` below 35, `medio` from 35 to under 55, `senior` otherwise, including a missing age. |
| AiInsights.IngresoCategoria | server/ai-insights.ts:116 | `bajo` below 2000, `medio` from 2000 to under 6000, `alto` from 6000. |
| AiInsights.Estabilidad | server/ai-insights.ts:121 | Stability is `alta` exactly when job tenure exceeds 50 months. |
| AiInsights.Engagement | server/ai-insights.ts:122 | Digital engagement is high exactly below age 40. |
| AiInsights.MomentosVida | server/ai-insights.ts:130 | Retirement above 55, career start below 35, consolidation otherwise. |
| AiInsights.AgeFiftyFiveBands | server/ai-insights.ts:115 | At exactly 55 the age category is `senior` but the life moment is still consolidation, not retirement. |
| AiInsights.ProductosNba | server/ai-insights.ts:126-128 | Three products: the public-sector list exactly when the flag is 1, the private list otherwise. |
| AiInsights.Churn | server/ai-insights.ts:133 | The churn alert is raised exactly when the income is 0. |
| AiInsights.Snapshot | server/ai-insights.ts:119 | The executive snapshot is never empty. |
| AiInsights.PatronTransaccional | server/ai-insights.ts:121 | The transaction-pattern text is never empty. |
| AiInsights.CrossSell | server/ai-insights.ts:129 | The cross-sell text is never empty. |
| AiInsights.FixedTextsFilled | server/ai-insights.ts:123 | Every fixed text of the fallback is non-empty. |
| AiInsights.GenerateBasicInsights | server/ai-insights.ts:113-138 | The fallback's products, churn, life moment, engagement, snapshot, transaction pattern and cross-sell text follow the category rules and text builders above. |
| AiInsights.BasicInsightsFilled | server/ai-insights.ts:113-137 | Every field of the fallback insights is filled. |
| AiInsights.GenerateClientInsights | server/ai-insights.ts:25-111 | A missing income fails with a `TypeError`, thrown at line 39 before the `try`. Otherwise the parsed LLM answer is used, and the rule-based fallback replaces any failure. |
| AiInsights.FallbackIsFilled | server/ai-insights.ts:97-110 | When the LLM fails, the insights still exist and are fully filled. |
| AriaChat.Avg | server/aria-chat.ts:114-115 | SQL `avg` is null exactly when the column has no non-null value. |
| AriaChat.SqlSum | server/aria-chat.ts:236-237 | SQL `sum` over no rows is null. |
| AriaChat.Column | server/aria-chat.ts:114-115 | One value per row: the column read from each row, in order. |
| AriaChat.NonNull | server/aria-chat.ts:114-115 | SQL aggregates skip nulls: never more values than rows. |
| AriaChat.GetGeneralStats | server/aria-chat.ts:111-126 | The total is the row count; the age average is null exactly when no age is known. |
| AriaChat.GeneralStatsSexoBound | server/aria-chat.ts:118-119 | Men plus women never exceed the total. |
| AriaChat.GeneralStatsSectorPartition | server/aria-chat.ts:116-117 | Public plus private plus rows whose flag is some other value make up the total. |
| AriaChat.PushedIf | server/aria-chat.ts:131-133 | A condition is pushed exactly when its parameter is supplied. |
| AriaChat.PushedIfMeaning | server/aria-chat.ts:131-133 | A row passes the pushed conditions exactly when the condition holds or the parameter was not supplied. |
| AriaChat.ConditionsCount | server/aria-chat.ts:129-165 | One condition per supplied parameter. |
| AriaChat.ConditionsMeaning | server/aria-chat.ts:129-171 | A row passes `and(...conditions)` exactly when it matches every supplied criterion; with none supplied, every row passes. |
| AriaChat.SatisfiesAllConcat | server/aria-chat.ts:171 | `and` over two condition lists in a row holds exactly when both hold. |
| AriaChat.LikePlainIsContains | server/aria-chat.ts:154-156 | For a fragment without `%`, `_` or the escape character, `LIKE '%fragment%'` matches exactly the strings that contain it. |
| AriaChat.ProfesionWildcard | server/aria-chat.ts:154-156 | A `_` in the profession is a wildcard: `abc` matches `%a_c%` though it does not contain `a_c`. |
| AriaChat.PushIf | server/aria-chat.ts:131-133 | One `if (...) conditions.push(...)` step appends the condition exactly when it is supplied. |
| AriaChat.BuildConditions | server/aria-chat.ts:128-165 | The condition list has one entry per supplied parameter and selects exactly the matching rows. |
| AriaChat.SectorLabel | server/aria-chat.ts:184 | `Público` exactly when the flag is 1. |
| AriaChat.Summarize | server/aria-chat.ts:177-187 | A summary keeps the client id and labels the sector. |
| AriaChat.SummarizeAll | server/aria-chat.ts:177-187 | One summary per row, in order. |
| AriaChat.SearchClients | server/aria-chat.ts:128-188 | Returns `SearchOutcome`: a negative limit fails. Otherwise the result is the first `limit \|\| 10` matching rows, summarised, and `cantidad` is their number. |
| AriaChat.DistinctKeys | server/aria-chat.ts:204 | GROUP BY yields each non-null key once, every row's key among them, and no key that no row has. |
| AriaChat.SumCountsAppend | server/aria-chat.ts:199 | The group counts of a longer key list add the new group's count. |
| AriaChat.GroupsCover | server/aria-chat.ts:196-225 | The group counts over the distinct keys add up to the rows that have a key. |
| AriaChat.Segments | server/aria-chat.ts:197-224 | One segment per key, labelled by it, with its row count. |
| AriaChat.SumCantidadIsSumCounts | server/aria-chat.ts:197-224 | The segments' `cantidad` fields add up to the group counts of their keys. |
| AriaChat.GetSegmentation | server/aria-chat.ts:191-232 | The criterion defaults to `sector`; segments exist exactly for `sector`, `generacion` and `nse`. |
| AriaChat.SectorSegmentsCover | server/aria-chat.ts:196-204 | The two sector segments count every row. |
| AriaChat.GeneracionSegmentsCover | server/aria-chat.ts:205-214 | The generation segments count exactly the rows with a generation. |
| AriaChat.NseSegmentsCover | server/aria-chat.ts:215-224 | The NSE segments count exactly the rows with an NSE. |
| AriaChat.SegmentationCoversRows | server/aria-chat.ts:191-232 | For each criterion, the segment counts add up to the rows the grouping can place. |
| AriaChat.GetProductAnalysis | server/aria-chat.ts:234-258 | The counts of clients holding products are bounded by the rows; the totals are null exactly when there are no rows. |
| AriaChat.ProductTotalsAreSumsOfBreakdown | server/aria-chat.ts:235-250 | Total captaciones and colocaciones equal the sums of their four product columns. |
| AriaChat.FindRow | server/aria-chat.ts:260-264 | Nothing is found exactly when no row has the id; a found row has it. |
| AriaChat.GetSpecificClient | server/aria-chat.ts:260-320 | Not found gives the fixed message with the id. Found gives the profile, with per-client totals that treat missing balances as 0. |
| AriaChat.PerClientTotalsAddUp | server/aria-chat.ts:302-309 | The per-client totals summed over all rows equal the portfolio totals of the product analysis. |
| AriaChat.AnalyzeUserQuestion | server/aria-chat.ts:14-83 | A failed call, empty content or unparsable content all fall back to general statistics. Parsable content is used. A network failure propagates. |
| AriaChat.GetMetrics | server/aria-chat.ts:322-328 | `captaciones` and `colocaciones` give the product analysis; anything else gives general statistics. |
| AriaChat.RoutineFor | server/aria-chat.ts:86-109 | Each of the five named types selects its routine; any other type selects general statistics. |
| AriaChat.ExecuteQuery | server/aria-chat.ts:86-109 | Returns `QueryOutcome`: a missing database gives the database error; a search, segmentation or client lookup without parameters gives the missing-parameters error; otherwise each routine's result on the database rows, the search being `SearchOutcome`. |
| AriaChat.AnswerText | server/aria-chat.ts:382-391 | The reply is never empty: the model's content, the no-answer text when the content is empty, or the apology on error. |
| AriaChat.GenerateAriaResponse | server/aria-chat.ts:331-392 | Never empty. Any failure gives the apology. Otherwise, for every routine, the text is the apology when `QueryOutcome` of the classified query fails and the model's answer to that outcome's data when it succeeds. |
| DbLocal.LocalDB.constructor | server/db-local.ts:12-16 | No clients, no metrics, not initialised. |
| DbLocal.LocalDB.InitLocalDB | server/db-local.ts:21-33 | Returns the same record, now initialised, with its data untouched. |
| DbLocal.LocalDB.GetLocalDB | server/db-local.ts:38-43 | Returns the same record, initialised. |
| DbLocal.InitTwice | server/db-local.ts:21-33 | Initialising twice returns the same record both times. |
| DbLocal.NaNSum | server/db-local.ts:68-69 | The `reduce` sum is `NaN` exactly when some client lacks the field. |
| DbLocal.MockMean | server/db-local.ts:73-74 | 0 for no clients; otherwise the rounded mean, or `NaN` if the sum is. |
| DbLocal.ComputeMockStats | server/db-local.ts:62-79 | The total is the client count; private is total minus public; women is total minus men. |
| DbLocal.NaNSumsAgree | server/db-local.ts:68-69 | With every age and income present, the mock sums equal the loader's. |
| DbLocal.MockStatsAgainstLoader | server/db-local.ts:62-79 | On complete data the mock agrees with `getClientStats` on total, sectors and averages. |
| DbLocal.Then | server/db-local.ts:59-85 | Awaiting any query gives one row: the mock statistics of the loaded clients. A filled cache stays as it was; an empty one is filled with the loaded clients exactly when the file exists. |
| DbLocal.Perform | server/db-local.ts:91-101 | Every mock write reports zero rows. |
| SeedDatabase.Field | server/seed-database.ts:7-77 | A header's text is present exactly when the record has the header. |
| SeedDatabase.ParseText | server/seed-database.ts:92-95 | Absent, blank or `ND` gives null; anything else gives the trimmed, non-empty text. |
| SeedDatabase.ParseTextPaddedND | server/seed-database.ts:93-94 | The `ND` test is applied before trimming, so ` ND ` is kept as `ND`. |
| SeedDatabase.ParseIntSafe | server/seed-database.ts:86-90 | No data gives null; otherwise the result is `parseInt(value, 10)`. |
| SeedDatabase.ParseNumber | server/seed-database.ts:80-84 | No data gives null; otherwise the result is `parseFloat`. |
| SeedDatabase.ParseIntSafeOfRendered | server/seed-database.ts:86-90 | A rendered natural number parses back to itself. |
| SeedDatabase.ClienteId | server/seed-database.ts:120 | `cli_` followed by at least five digits. |
| SeedDatabase.ClienteIdRoundTrip | server/seed-database.ts:120 | The digits of an id parse back to its index. |
| SeedDatabase.ClienteIdInjective | server/seed-database.ts:120 | Different indices give different ids. |
| SeedDatabase.ParseCell | server/seed-database.ts:132-201 | Each column goes through the parser its kind names. |
| SeedDatabase.Facts | server/seed-database.ts:123-127 | The summary's facts use the `\|\|` defaults `ND` and 0, and otherwise the parsed income and years of employment; the sector is `público` exactly when the flag parses to 1. |
| SeedDatabase.Resumen | server/seed-database.ts:128 | The summary line is never empty. |
| SeedDatabase.ParseCells | server/seed-database.ts:132-201 | One parsed cell per column, in order. |
| SeedDatabase.ToRecord | server/seed-database.ts:118-204 | A row gets the id of its index, every column, and the summary of its facts. |
| SeedDatabase.ToRecords | server/seed-database.ts:115-205 | Record k is the mapping of CSV row k with index k. |
| SeedDatabase.SeededIdsDistinct | server/seed-database.ts:118-120 | No two seeded clients share an id. |
| SeedDatabase.InsertMappedBatches | server/seed-database.ts:112-210 | The inserts are consecutive batches of 100 of the mapped records, and `inserted` counts every record. |
| SeedDatabase.SeedClients | server/seed-database.ts:97-213 | The batches, concatenated, are exactly the mapped CSV records, each inserted once, in order. |
| SeedDatabase.OrNull | server/seed-database.ts:227-232 | `x \|\| null` keeps truthy values and nulls the rest. |
| SeedDatabase.ToMetadata | server/seed-database.ts:225-233 | `pii` is 1 exactly when truthy; the name is copied; each optional field is copied when truthy and absent otherwise. |
| SeedDatabase.ToMetadataAll | server/seed-database.ts:225-233 | One metadata row per column, in order. |
| SeedDatabase.SeedColumnMetadata | server/seed-database.ts:215-247 | A missing `columns` is an empty list; the batches reassemble to the mapped columns. |
| MetricsService.NewService | server/api_rag/metrics_service.py:10-25 | The service exists exactly when both files load; the first failure is reported. |
| MetricsService.GetSaldo | server/api_rag/metrics_service.py:27-75 | Any `tipo` other than the three, after lower-casing, fails with the `Tipo inválido` message. The three give their figure, columns and client count; `neto` also gives both components. |
| MetricsService.GetSaldoIgnoresCase | server/api_rag/metrics_service.py:37 | The answer depends only on the lower-cased `tipo`. |
| MetricsService.UpperNetoAccepted | server/api_rag/metrics_service.py:37-39 | `NETO` is accepted. |
| MetricsService.NetoIsDifference | server/api_rag/metrics_service.py:64-75 | Before rounding, the net balance is captaciones minus colocaciones. |
| MetricsService.GetSaldoPorProducto | server/api_rag/metrics_service.py:77-94 | The detected columns, the definitions and the client count are copied from the two files. |
| MetricsService.GetTotalsSummary | server/api_rag/metrics_service.py:96-105 | The three figures are the rounded totals; the client count is copied. |
| MetricsService.SummaryNetoAgreesIffConsistent | server/api_rag/metrics_service.py:101 | The summary's stored net equals the computed net exactly when the totals file is consistent. |
| RagService.ResolveApiKey | server/api_rag/rag_service.py:24-26 | The explicit key wins, then the environment key. With neither truthy, the constructor raises the missing-key error. |
| RagService.TraverseMeaning | server/api_rag/rag_service.py:65-68 | Parsing all lines succeeds exactly when every line parses, giving one value per line. Otherwise it fails with the first line's error. |
| RagService.LoadRowCards | server/api_rag/rag_service.py:60-70 | An unreadable file fails; otherwise the non-blank lines are parsed in order. |
| RagService.ParseKeptLines | server/api_rag/rag_service.py:65-68 | The loop parses exactly the kept lines, stopping at the first error. |
| RagService.CardEntry | server/api_rag/rag_service.py:89-101 | A card without `cliente_id`, `resumen` or `perfil` raises a `KeyError` for the first one missing. Otherwise the entry has the card's id and summary, and the profile fields default to `UNKNOWN` or 0. |
| RagService.BuildIndexLists | server/api_rag/rag_service.py:85-101 | The three lists are built exactly when every card converts, aligned with the entries; otherwise the first error is raised. |
| RagService.IndexedIdsAreCardIds | server/api_rag/rag_service.py:89-101 | The id, metadata id and document at position k are those of card k. |
| RagService.Collection.constructor | server/api_rag/rag_service.py:55-58 | A new collection is empty. |
| RagService.Collection.Count | server/api_rag/rag_service.py:75 | The count is the number of stored ids. |
| RagService.Collection.Add | server/api_rag/rag_service.py:116-121 | Lists of unequal length are rejected, leaving the collection unchanged; otherwise all four lists are appended. |
| RagService.TotalBatchesIsBatchCount | server/api_rag/rag_service.py:104-105 | `(n + 99) // 100` is the number of batches. |
| RagService.IndexInBatches | server/api_rag/rag_service.py:103-124 | On success every id, document and metadata is appended, in batches of 100. On an embedding failure only whole leading batches were added. |
| RagService.EnsureIndexed | server/api_rag/rag_service.py:72-126 | A non-empty collection is left alone. Otherwise a bad file or card fails before anything is added, and success stores exactly the planned entries. |
| RagService.IndexFile | server/api_rag/rag_service.py:81-126 | Indexing an empty collection from the file, with the same outcomes. |
| RagService.IndexCards | server/api_rag/rag_service.py:84-126 | Indexing an empty collection from parsed cards, with the same outcomes. |
| RagService.Formatted | server/api_rag/rag_service.py:156-167 | The result is well formed exactly when every indexed list is long enough; then there is one match per id, and a distance exactly when distances were returned. |
| RagService.FormatMatches | server/api_rag/rag_service.py:156-167 | The formatting loop computes `Formatted`. |
| RagService.Search | server/api_rag/rag_service.py:136-167 | Embed the query, query the collection, format the matches. |
| RagService.AskWithGpt | server/api_rag/rag_service.py:169-219 | A failed search propagates. An answer carries the search's matches, `context_used` equal to their number, and the LLM's text for their context. |
| RagService.Rag.constructor | server/api_rag/rag_service.py:14-43 | The service keeps its key and collection, under the name `clientes_cartera`. |
| RagService.Rag.GetStats | server/api_rag/rag_service.py:221-228 | `ready` exactly when the collection holds documents, `empty` otherwise. |
| RagService.NewRag | server/api_rag/rag_service.py:14-43 | No key raises before anything is indexed. A populated collection is reused as is. Otherwise indexing either completes or leaves a strict prefix. |
| RagService.RetryAfterPartialIndex | server/api_rag/rag_service.py:72-79 | After a failed first indexing left documents behind, a retry sees a non-empty collection and never completes the index. |
| RagApi.HealthReport | server/api_rag/main.py:92-121 | Always `ok` with metrics ready. The key counts as configured only above 20 characters. The RAG status comes from the service, or is `ready_to_init` or `needs_api_key` before it exists. |
| RagApi.HealthStatusValues | server/api_rag/main.py:100-111 | The RAG status is one of four values and `ready` exactly when an initialised collection is non-empty. |
| RagApi.MetricsFor | server/api_rag/main.py:43-50 | A cached service is reused; otherwise a new one is loaded. |
| RagApi.SaldoReply | server/api_rag/main.py:170-179 | A bad `tipo` or bad JSON gives 400; a missing file gives 500 with the message; otherwise the balance. |
| RagApi.ServiceReply | server/api_rag/main.py:189-212 | A service that cannot load gives 500 with the endpoint's prefix; otherwise its answer. |
| RagApi.TopK | server/api_rag/main.py:128 | `top_k` defaults to 5 and must lie in 1..20. |
| RagApi.Api.constructor | server/api_rag/main.py:31-32 | Neither service exists yet. |
| RagApi.Api.GetRagService | server/api_rag/main.py:34-41 | An existing service is returned unchanged. A new one is kept only if construction succeeds; it uses the given store and the resolved key. A filled store is kept as it is; an empty one is indexed with the planned cards, completely on success and in part on failure. |
| RagApi.Api.GetMetricsService | server/api_rag/main.py:43-50 | Same singleton rule for the metrics service. |
| RagApi.Api.Health | server/api_rag/main.py:86-123 | A metrics failure gives 500 `Error en health check`; otherwise the health report. It never creates the RAG service, and the metrics singleton afterwards is the cached or newly loaded one, or none. |
| RagApi.Api.Ask | server/api_rag/main.py:125-149 | Missing `q` or an out-of-range `top_k` gives 422 with no side effect. An existing service is left as it is. The answer is 200 exactly when the service exists, the search succeeds and the LLM answers; it then carries the search's matches, their number and the LLM's answer to their context. Errors give 500. |
| RagApi.Api.Saldo | server/api_rag/main.py:151-179 | Missing `tipo` gives 422; otherwise `SaldoReply` of the metrics service, and the metrics singleton afterwards is the cached or newly loaded one, or none. |
| RagApi.Api.SaldoPorProducto | server/api_rag/main.py:181-196 | The product breakdown, or 500 `Error obteniendo productos`; the metrics singleton afterwards is the cached or newly loaded one, or none. |
| RagApi.Api.Summary | server/api_rag/main.py:198-212 | The totals summary, or 500 `Error obteniendo resumen`; the metrics singleton afterwards is the cached or newly loaded one, or none. |
| RagApi.MetricsServiceTwice | server/api_rag/main.py:43-50 | Once loaded, the metrics service is returned again. |
| RagApi.RagServiceTwice | server/api_rag/main.py:34-41 | Once created, the RAG service is returned again. |
| RagApi.HealthBeforeAsk | server/api_rag/main.py:100-111 | Before the first question, health reports zero documents and a status set by the key. |
| CampaignSummary.Insert | client/src/components/campaign-summary-widget.tsx:25-26 | Inserting adds exactly one element. |
| CampaignSummary.InsertPermutes | client/src/components/campaign-summary-widget.tsx:25-26 | Inserting adds the element and loses none. |
| CampaignSummary.InsertDescending | client/src/components/campaign-summary-widget.tsx:25-26 | Inserting into a descending list keeps it descending. |
| CampaignSummary.SortByPercentage | client/src/components/campaign-summary-widget.tsx:25-26 | The sort is a permutation in descending order of percentage. |
| CampaignSummary.InsertKeepsTies | client/src/components/campaign-summary-widget.tsx:25-26 | The new element goes before every existing element with its percentage. |
| CampaignSummary.SortIsStable | client/src/components/campaign-summary-widget.tsx:25-26 | Campaigns with equal percentages keep their original order, as JavaScript's stable sort does. |
| CampaignSummary.TopCampaigns | client/src/components/campaign-summary-widget.tsx:24-27 | At most three campaigns, descending: a prefix of the sorted list. |
| CampaignSummary.TopIsMaximal | client/src/components/campaign-summary-widget.tsx:24-27 | The top campaigns and the rest make up the list, and no campaign left out has a larger percentage. |
| CampaignSummary.TotalsConcat | client/src/components/campaign-summary-widget.tsx:29-30 | Both `reduce` sums distribute over concatenation. |
| CampaignSummary.InsertKeepsTotals | client/src/components/campaign-summary-widget.tsx:29-30 | Inserting a campaign into the sorted list adds exactly its figures to both totals. |
| CampaignSummary.SortKeepsTotals | client/src/components/campaign-summary-widget.tsx:25-30 | Sorting changes neither total. |
| CampaignSummary.TotalsCoverEveryCampaign | client/src/components/campaign-summary-widget.tsx:25-30 | The totals cover every campaign, not only the three shown. |
| CampaignSummary.ImpactLabel | client/src/components/campaign-summary-widget.tsx:95 | `Alto` and `Medio` for their levels, `Bajo` for anything else. |
| CampaignSummary.ImpactColorMatchesLabel | client/src/components/campaign-summary-widget.tsx:32-36 | The badge colour and label always agree. |
| Recommendations.WithoutId | client/src/pages/recommendations.tsx:113 | No campaign with the id remains. |
| Recommendations.WithoutIdKeepsOthers | client/src/pages/recommendations.tsx:113 | Every other campaign remains, and only the campaigns with the id are removed. |
| Recommendations.WithoutIdKeepsOrder | client/src/pages/recommendations.tsx:113 | Removal keeps the order. |
| Recommendations.WithoutAbsentId | client/src/pages/recommendations.tsx:113 | Removing an absent id changes nothing. |
| Recommendations.WithoutIdIdempotent | client/src/pages/recommendations.tsx:122 | Accepting or dismissing the same id twice is the same as once. |
| Recommendations.ImpactTab | client/src/pages/recommendations.tsx:129-131 | A tab holds only campaigns of its impact. |
| Recommendations.ImpactTabsPartition | client/src/pages/recommendations.tsx:129-131 | With three-valued impacts, every campaign is in exactly one tab. |
| Recommendations.CountTabs | client/src/pages/recommendations.tsx:157-168 | The tab counts are the list length and the three tab lengths. |
| Recommendations.TabCountsAddUp | client/src/pages/recommendations.tsx:157-168 | The three impact tabs add up to `Todas`. |
| Recommendations.InitialTabCounts | client/src/pages/recommendations.tsx:12-109 | The page opens with 6 campaigns: 3 high, 2 medium and 1 low. |
| Recommendations.TabCountsOfPattern | client/src/pages/recommendations.tsx:12-109 | Any six campaigns with that impact pattern give those counts. |
| Recommendations.RecommendationsPage.constructor | client/src/pages/recommendations.tsx:12-109 | The state starts with the six campaigns. |
| Recommendations.RecommendationsPage.HandleAccept | client/src/pages/recommendations.tsx:111-118 | Removes the campaign and toasts `Campaña Iniciada`. |
| Recommendations.RecommendationsPage.HandleDismiss | client/src/pages/recommendations.tsx:120-127 | Removes the campaign and toasts `Campaña Descartada`. |
| Recommendations.AcceptThenDismiss | client/src/pages/recommendations.tsx:111-127 | Accepting then dismissing one id removes it once, with two different toasts. |
| Notifications.FilterByType | client/src/pages/notifications.tsx:217-220 | `all` is the whole list; any other type keeps only its own notifications. |
| Notifications.FilterByTypeExact | client/src/pages/notifications.tsx:217-220 | No notification of the type is lost, and none is invented. |
| Notifications.FilterByTypeKeepsOrder | client/src/pages/notifications.tsx:217-220 | The filter distributes over concatenation. |
| Notifications.CountTypes | client/src/pages/notifications.tsx:222-225 | Each count is the length of its tab. |
| Notifications.TypeCountsSum | client/src/pages/notifications.tsx:222-225 | With four-valued types, the four counts add up to the `Todas` count. |
| Notifications.PageKindsFourValued | client/src/pages/notifications.tsx:32-187 | Every alert on the page has one of the four types. |
| Notifications.PriorityColor | client/src/pages/notifications.tsx:189-200 | The colour is empty exactly for an unknown priority. |
| Notifications.TypeColor | client/src/pages/notifications.tsx:202-215 | The border colour is empty exactly for an unknown type. |
| Notifications.TypeColorsDistinct | client/src/pages/notifications.tsx:202-215 | The four types have four different colours. |
| Notifications.PriorityLabel | client/src/pages/notifications.tsx:286 | `Alta` exactly for `high`, `Media` exactly for `medium`, `Baja` otherwise. |
| Notifications.PriorityLabelMatchesColor | client/src/pages/notifications.tsx:189-200 | Label and colour agree on the three priorities; an unknown priority reads `Baja` with no colour. |
| ClientsPage.QueryParamsOf | client/src/pages/clients.tsx:42-49 | `page` and `limit=24` always, then `sector` exactly when the filter is not `all`. |
| ClientsPage.Lookup | client/src/pages/clients.tsx:42-49 | A parameter is missing exactly when no pair has its name. |
| ClientsPage.QueryReadBack | client/src/pages/clients.tsx:42-49 | The server reads back the page, a limit of 24, and the sector exactly when one was sent. |
| ClientsPage.SearchFilter | client/src/pages/clients.tsx:66-70 | The search succeeds exactly when no client reaches `resumen.toLowerCase()` without a summary. On success it keeps the matching clients in order; a failure is the `TypeError`. |
| ClientsPage.FilteredClients | client/src/pages/clients.tsx:66-70 | No data yet gives an empty list. |
| ClientsPage.EmptyTermKeepsAll | client/src/pages/clients.tsx:67 | An empty term keeps every client. |
| ClientsPage.SearchKeepsExactly | client/src/pages/clients.tsx:66-70 | A successful search keeps exactly the matching clients. |
| ClientsPage.SummariesPresentNeverThrow | client/src/pages/clients.tsx:69 | When every client has a summary, the search never throws. |
| ClientsPage.SectorLabel | client/src/pages/clients.tsx:130-150 | `Público` exactly when the flag is 1. |
| ClientsPage.SectorLabelAgreesWithServer | client/src/pages/clients.tsx:130 | The badge agrees with the server's sector filter. |
| ClientsPage.IngresoBand | client/src/pages/clients.tsx:131-132 | A missing income reads `alto`. |
| ClientsPage.IngresoBandMatchesInsights | client/src/pages/clients.tsx:131-132 | With an income present, the badge uses the server's insight bands. |
| ClientsPage.ClientsPageState.constructor | client/src/pages/clients.tsx:37-39 | Page 1, filter `all`, empty search. |
| ClientsPage.ClientsPageState.BuildQueryParams | client/src/pages/clients.tsx:42-49 | Builds `QueryParamsOf` of the state. |
| ClientsPage.ClientsPageState.PrevPage | client/src/pages/clients.tsx:190 | Never goes below page 1. |
| ClientsPage.ClientsPageState.NextPage | client/src/pages/clients.tsx:201 | Never goes above `totalPages`. |
| ClientsPage.ClientsPageState.SetSectorFilter | client/src/pages/clients.tsx:95 | Changes the filter and keeps the page. |
| ClientsPage.StepPages | client/src/pages/clients.tsx:186-206 | Both buttons keep an in-range page in range. |
| PortfolioPage.FilteredClients | client/src/pages/portfolio.tsx:90-94 | Every listed client contains the term, ignoring case, and has the chosen segment. |
| PortfolioPage.FilteredExactly | client/src/pages/portfolio.tsx:90-94 | A client is listed exactly when it matches both conditions. |
| PortfolioPage.NoFilterKeepsAll | client/src/pages/portfolio.tsx:90-94 | An empty term with `all` lists every client. |
| PortfolioPage.HeadingCount | client/src/pages/portfolio.tsx:145 | Listed plus hidden clients make up the whole list. |
| PortfolioPage.FallbackKeepsEveryInitial | client/src/pages/portfolio.tsx:159-162 | A three-word name shows three initials here but two on the profile card. |
| ClientProfileCard.FirstChars | client/src/components/client-profile-card.tsx:35-36 | One character per non-empty word. |
| ClientProfileCard.EmptyWordsIgnored | client/src/components/client-profile-card.tsx:35-36 | Empty words contribute nothing. |
| ClientProfileCard.FirstCharsOfNonEmpty | client/src/components/client-profile-card.tsx:35-36 | For non-empty words, the result is each word's first character, in order. |
| ClientProfileCard.Initials | client/src/components/client-profile-card.tsx:33-36 | At most one initial per word. |
| ClientProfileCard.InitialsOfWords | client/src/components/client-profile-card.tsx:33-36 | A name of single-spaced words gives each word's first letter, in order. |
| ClientProfileCard.GetInitials | client/src/components/client-profile-card.tsx:32-39 | At most two upper-cased initials: the first two. |
| ClientProfileCard.GetInitialsStable | client/src/components/client-profile-card.tsx:37-38 | Upper-casing the initials again changes nothing. |
| ClientProfileCard.SentimentColor | client/src/components/client-profile-card.tsx:41-50 | A colour exactly for the three sentiments; otherwise `undefined`. |
| ClientProfileCard.SentimentLabel | client/src/components/client-profile-card.tsx:86-88 | One of three labels, or nothing. |
| ClientProfileCard.SentimentBadgeDefined | client/src/components/client-profile-card.tsx:41-50 | A colour exactly when there is a label; different sentiments differ in both. |
| CopilotPanel.Panel.constructor | client/src/components/copilot-panel.tsx:22-30 | The transcript is the greeting alone and the box is empty. |
| CopilotPanel.Panel.SetInput | client/src/components/copilot-panel.tsx:30 | Typing changes only the box. |
| CopilotPanel.Panel.HandleSend | client/src/components/copilot-panel.tsx:32-44 | A blank input changes nothing. Otherwise the untrimmed input is appended as a user message, the box is cleared and a reply is scheduled. |
| CopilotPanel.Panel.DeliverReply | client/src/components/copilot-panel.tsx:46-55 | The canned reply, with its two sources, is appended. |
| CopilotPanel.SendThenReply | client/src/components/copilot-panel.tsx:32-56 | A send followed by its reply appends exactly the user's message, whose id is the send-time clock, and then the assistant's, whose id is one more than the clock read when the timer fires. |
| Analytics.HealthBand | client/src/pages/analytics.tsx:16-20 | Green from 80, yellow from 60 to under 80, red below 60. |
| Analytics.HealthColor | client/src/pages/analytics.tsx:16-20 | The text colour of the health band. |
| Analytics.HealthBgColor | client/src/pages/analytics.tsx:22-26 | The background colour of the same band. |
| Analytics.HealthLabel | client/src/pages/analytics.tsx:63 | `Excelente`, `Aceptable` or `Crítico` by band. |
| Analytics.HealthDisplayAgrees | client/src/pages/analytics.tsx:16-26 | Text colour, background and label agree. |
| Analytics.ContactedBand | client/src/pages/analytics.tsx:29-33 | Green from 75, yellow from 60 to under 75, red below 60. |
| Analytics.ContactedColor | client/src/pages/analytics.tsx:29-33 | The text colour of the contacted band. |
| Analytics.ContactedBgColor | client/src/pages/analytics.tsx:35-39 | The background colour of the same band. |
| Analytics.ContactedLabel | client/src/pages/analytics.tsx:118 | `Óptimo`, `Mejorar` or `Urgente` by band. |
| Analytics.ScalesDiffer | client/src/pages/analytics.tsx:16-39 | Both scales are red below 60; from 75 to under 80 contacted is green while health is yellow. |
| Analytics.ShownFigures | client/src/pages/analytics.tsx:9-13 | The figures shown (85 and 78) both read green. |
| Bands.ColorsDistinguishBands | client/src/pages/analytics.tsx:16-26 | Different bands have different text and background colours. |
| Strings.Trim | server/data-loader.ts:58 | `trim()` is never longer than its input and leaves no whitespace at either end. |
| Strings.TrimIsInfix | server/data-loader.ts:58 | What `trim()` keeps is the part of the input right after its leading whitespace, followed only by whitespace: nothing else is removed. |
| Strings.TrimIdempotent | server/data-loader.ts:58 | Trimming twice trims nothing more. |
| Strings.Split | client/src/components/client-profile-card.tsx:34 | `split(sep)` gives at least one piece, and no piece holds the separator. |
| Strings.SplitJoin | client/src/components/client-profile-card.tsx:34-36 | Joining the pieces with the separator gives the string back. |
| Strings.ToLower | client/src/pages/clients.tsx:68 | `toLowerCase()` keeps the length and maps each character. |
| Strings.ToLowerIdempotent | client/src/pages/portfolio.tsx:91 | Lower-casing twice is lower-casing once. |
| Strings.Contains | client/src/pages/clients.tsx:68 | `includes(t)` holds exactly when `t` occurs at some position. |
| Strings.NatToString | server/seed-database.ts:120 | `String(n)` is non-empty decimal digits with no leading zero. |
| Strings.PadStart | server/seed-database.ts:120 | `padStart` reaches the width with pad characters on the left and keeps the string at the end. |
| Strings.ParseIntOfPadded | server/seed-database.ts:120 | `parseInt` reads a zero-padded rendering of n back as n. |
| Strings.NatToStringInjective | server/seed-database.ts:120 | Different numbers give different zero-padded renderings. |
| PortfolioHealth.MargenBand | client/src/components/portfolio-health-widget.tsx:25-29 | Green from 4, yellow from 3 to under 4, red below 3. |
| PortfolioHealth.MargenColor | client/src/components/portfolio-health-widget.tsx:25-29 | The text colour of the margin band. |
| PortfolioHealth.MargenBgColor | client/src/components/portfolio-health-widget.tsx:31-35 | The background colour of the same band. |
| PortfolioHealth.MargenLabel | client/src/components/portfolio-health-widget.tsx:83 | `Excelente`, `Aceptable` or `Bajo` by band. |
| PortfolioHealth.VinculacionBand | client/src/components/portfolio-health-widget.tsx:38-42 | Green from 60, yellow from 45 to under 60, red below 45. |
| PortfolioHealth.VinculacionColor | client/src/components/portfolio-health-widget.tsx:38-42 | The text colour of the vinculación band. |
| PortfolioHealth.VinculacionBgColor | client/src/components/portfolio-health-widget.tsx:44-48 | The background colour of the same band. |
| PortfolioHealth.MoraBand | client/src/components/portfolio-health-widget.tsx:51-55 | Green below 3, yellow from 3 to 5 inclusive, red above 5. |
| PortfolioHealth.MoraColor | client/src/components/portfolio-health-widget.tsx:51-55 | The text colour of the mora band. |
| PortfolioHealth.MoraBgColor | client/src/components/portfolio-health-widget.tsx:57-61 | The background colour of the same band. |
| PortfolioHealth.MoraLabel | client/src/components/portfolio-health-widget.tsx:96 | `Excelente`, `Controlado` or `Crítico` by band. |
| PortfolioHealth.ColorsAgree | client/src/components/portfolio-health-widget.tsx:25-61 | For each metric, text and background colours agree. |
| PortfolioHealth.MoraFiveIsYellow | client/src/components/portfolio-health-widget.tsx:50-55 | Exactly 5% is still `Controlado`. |
| PortfolioHealth.ShownFigures | client/src/components/portfolio-health-widget.tsx:20-22 | 4.25% reads green `Excelente`, 62% green, and 3.8% yellow `Controlado`. |

## Left out

- **External calls.** None of these is modelled; each becomes a parameter holding its outcome:
  - the OpenAI chat and embedding calls;
  - ChromaDB's persistence, `get_or_create` and nearest-neighbour ranking;
  - HTTP `fetch` between the Node server and the Python API;
  - Postgres and drizzle SQL generation;
  - `JSON.parse`, `json.loads` and `parseFloat`;
  - file reads and `existsSync`.
- **Side effects.** Logging, `console` output and `process.exit` are not modelled.
- **Startup and shutdown.** The Python API's startup and shutdown hooks are not modelled.
- **Root endpoint.** The Python API's root endpoint is fixed text and is not modelled.
- **Seed script `main`.** The script deletes both tables and exits; that sequence is I/O and is not modelled. Each seed function is modelled.
- **Floating point.** Numbers are exact reals; `NaN` appears only where the code can produce it from a missing field.
- **Rounding.** These are not modelled:
  - Python's `round(x, 2)`, which is passed in as a parameter;
  - `toFixed` and `toLocaleString` text, which is passed in as a number format.

  `Math.round` of a mean is modelled exactly.
- **Case mapping.** `toLowerCase`, `toUpperCase` and Python's `lower()` are modelled on ASCII letters only.
- **Line splitting and trimming.** Line splitting is on `\n` only. Trimming uses JavaScript's whitespace set restricted to the ASCII and common Unicode spaces.
- **Percent-encoding.** `encodeURIComponent` and the query-string encoding of `q` and `tipo` are not modelled; the forwarded values are the raw strings.
- **JSON null.** A JSON `null` is not told apart from an absent key; both are `None`.
- **Chroma ids.** Chroma's rejection of duplicate ids within a batch is not modelled.
- **FastAPI validation.** Its 422 responses are a single `Unprocessable` reply; its error body is not modelled. A non-integer `top_k` is outside the model, because it is an `Option<int>`.
- **React.** Rendering, JSX and display-only text are not modelled. Neither are the timer delay of the copilot reply, animations and routing (`setLocation`).
- **React state captured by closures.** In `handleAccept`, `handleDismiss` and `handleSend`, a handler that runs twice before a re-render reads an old `campaigns` or `messages`. The model applies each update to the current state.
- **Vinculación colours.** The widget defines these functions but never renders them. They are modelled, but no label is attached.
- **Tab counts of the notifications page.** PageKindsFourValued shows that the four counts add up to 15. The individual counts of 4, 4, 3 and 4 are not proved.
- **CopilotPanel.Panel.Valid.** It does not mention the greeting. That the transcript starts with the greeting follows from the constructor and from every other method only appending.
- **AiInsights.GenerateClientInsights.** A well-formed LLM answer is taken as the parsed insights, whatever its contents. A reply that parses to an incomplete object is not modelled.
- **AriaChat.ExecuteQuery.** This is the real Postgres path, so the SQL aggregates are specified over a list of rows. The mock `db` of `server/db-local.ts` answers every query with the mock statistics, and DbLocal.Then models that separately.
- **MetricsService.GetSaldo**, **MetricsService.GetSaldoPorProducto** and **MetricsService.GetTotalsSummary**: both JSON files are modelled as complete records. A file that parses but lacks a key or has a value of the wrong type raises `KeyError` or `TypeError` in the source, which the endpoints turn into a 500 at server/api_rag/main.py:178, 195 and 211. The model does not represent such a file.
- **AriaChat.SearchClients** and **AriaChat.DistinctKeys**: SQL leaves the order of rows after `LIMIT` without `ORDER BY`, and the order of groups without `ORDER BY`, to the database. The model takes table order for the rows and first appearance for the groups.
- **Other server files.** `server/db.ts` and `shared/schema.ts` are not part of this model, beyond the fields the modelled code reads.
