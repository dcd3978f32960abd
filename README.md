# Sign dictionary back end and favourites store, modelled in Dafny

This project models the core of a sign-language dictionary service: the Go
synchroniser that copies the dictionary from a paginated JSON source into
PostgreSQL, the one-shot bulk loader of the older API server, the word search and
the JSON list handlers of the HTTP API, and the favourites store of the web front
end. Each part is proved against a specification written as Dafny functions.

- **Synchroniser** (`internal/sign/sync.go`, modules `Records` and `Sync`).
  `Sync` empties the sign tables and makes sure the fallback category
  "odefinierade" exists. It then requests pages 1, 2, … of the data URL. It stops
  after the first empty page, after page 999, or at the first error.
  `loadFromURL` handles one page:
  - it reads each record's id by removing one leading "0" and parsing the rest as a decimal;
  - it reads the record's date;
  - it queues the statements for the sign, its words, its categories (or the fallback join) and its phrases;
  - it sends all of them as one batch, which takes effect entirely or not at all.

  The module `Catalog` gives these statements their effect on the tables.
- **Bulk loader** (`cmd/api/main.go` `loadData`, module `Loader`). It empties the
  sign tables and queues each record's statements. Before it queues a record, it
  sends the batch if the batch holds 1000 statements or more. At the end it sends
  the last batch, if that batch is not empty.
- **Sign feed** (`cmd/api/main.go` `/signs.json`, module `Feed`). The WHERE clause
  comes from the optional `changed_at` parameter. The rows are framed as one JSON
  array; the module `Http` holds the framing loop that all three list handlers
  share.
- **Search** (`internal/sign/api.go`, module `Search`). `WordIndex` builds its SQL
  from the query string:
  - an optional category filter;
  - a tsquery built from the words of `q`;
  - `$n` placeholders numbered by a counter;
  - ordering by rank when there is a search, and by the lower-cased word otherwise.

  `CategoryIndex` only frames its rows.
- **Favourites** (`frontend/src/stores/favorites.js`, module `Favorites`).
  `isFavorite` is the JavaScript `in` test on a plain object. `toggleFavorite`
  deletes the entry when `in` holds and sets it otherwise.

Things outside the code are parameters of the model:
- the database, as a store plus a set of round trips that fail in transport;
- the HTTP source, as a function from URL to response;
- the JSON decoder, as the sequence of decoded or malformed elements;
- `url.Parse`, `time.Parse` and the search regular expression, as functions or pre-parsed values.

Two behaviours of the code that the model keeps:
- The synchroniser stores the hidden words split on ", " without trimming or
  filtering them.
- A row that fails to scan after `[` was written leaves a 200 response with a
  cut-off body. `WriteHeader(500)` comes too late to change the status.

## Model

| member | source | states |
|---|---|---|
| Text.Split | internal/sign/sync.go:124 | `strings.Split` always returns at least one piece |
| Text.JoinSplit | internal/sign/sync.go:124-128 | joining the pieces of a split with the same separator gives back the string |
| Text.JoinSnoc | internal/sign/api.go:113-119 | writing a separator before every element but the first builds exactly the joined string |
| Text.TrimSpaceSpec | internal/sign/sync.go:130 | `TrimSpace` cuts off exactly the leading and trailing white space; the result neither starts nor ends with white space |
| Text.TrimSpaceEmpty | internal/sign/sync.go:130-133 | a trimmed piece is empty exactly when the piece is all white space |
| Text.TrimPrefix | internal/sign/sync.go:103 | one leading prefix is removed when present; otherwise the string is unchanged |
| Text.LeadingZero | internal/sign/sync.go:103 | a leading zero does not change the value of a digit string |
| Text.ItoaSpec | internal/sign/sync.go:58 | `strconv.Itoa` writes at least one digit, no leading zero, and the value |
| Text.AtoiItoa | internal/sign/sync.go:58 | `strconv.Atoi` reads back what `strconv.Itoa` wrote |
| Text.Atoi | internal/sign/api.go:37 | a parsed value lies in the 64-bit range |
| Text.ByteLen | internal/sign/api.go:58 | the byte length is at least the number of characters |
| Text.ByteLenOne | internal/sign/api.go:58 | `len(match) == 1` holds exactly for a single ASCII character |
| Text.EscapeQuotes | internal/sign/api.go:57 | escaping never shortens and never starts with a bare quote |
| Text.UnescapeEscape | internal/sign/api.go:57 | escaping loses nothing: unescaping gives back the match |
| Text.EscapedQuotesArePrefixed | internal/sign/api.go:57 | every quote in the escaped text follows a backslash |
| Catalog.NullIf | internal/sign/sync.go:116 | `NULLIF(s, '')` is NULL exactly for the empty string |
| Catalog.SignRowOf | internal/sign/sync.go:114-125 | the stored sign row: `unusual` iff the frequency is non-empty; NULL transcription, vocable and hidden words exactly for '' and `['']` |
| Catalog.PgInt | internal/sign/sync.go:138 | a raw text id read as `int4` lies in the `int4` range |
| Catalog.SignRef | internal/sign/sync.go:135-140 | a dependent row finds its sign exactly when the raw id reads as the id of a stored sign |
| Catalog.Truncated | internal/sign/sync.go:38-43 | the truncate empties signs, joins, words and phrases and keeps the categories |
| Catalog.ExecAllAppend | internal/sign/sync.go:189-194 | sending `a + b` is sending `a`, then `b` on the store `a` left |
| Catalog.ExecPreserves | internal/sign/sync.go:135-183 | each statement keeps the foreign keys and never drops or renames a category |
| Catalog.ExecAllPreserves | internal/sign/sync.go:189-194 | a batch that succeeds keeps the foreign keys and the categories |
| Catalog.ApplyPreserves | internal/sign/sync.go:38-54 | truncate and statements keep the foreign keys and the categories |
| Catalog.ExecKeepsCategories | internal/sign/sync.go:144-161 | no statement drops or renames a category, whatever the store |
| Catalog.ExecAllKeepsCategories | internal/sign/sync.go:189-194 | nor does a batch that succeeds |
| Catalog.JoinsFollowInsertsAppend | internal/sign/sync.go:189-194 | batches whose category joins follow their inserts still do when sent one after the other |
| Catalog.ExecReplay | internal/sign/sync.go:135-183 | a statement that succeeded has the same effect on a store that already holds its categories, and leaves those categories as they are |
| Catalog.ExecAllReplay | internal/sign/sync.go:189-194 | a batch whose joins follow their inserts, run again on a store that already holds the categories it ends with, succeeds with the same effect on every other table |
| Records.SameSignId | internal/sign/sync.go:103-140 | the parsed id of the sign row and the raw id of the dependent rows denote the same sign, except for a raw id like "0-5" |
| Records.NormalizeIdExamples | internal/sign/sync.go:103-106 | "004" is 4, "0" is rejected, "0-5" is -5 but is not an `int4` for PostgreSQL |
| Records.CategoryStmtsShape | internal/sign/sync.go:144-161 | category k queues its insert at 2k and its join at 2k+1 |
| Records.PhraseStmtsShape | internal/sign/sync.go:175-183 | phrase k is inserted at k with the URL `base + movie` |
| Records.WordRows | internal/sign/sync.go:128-141 | one word row per non-blank piece, all for the sign |
| Records.WordRowsTrimmed | internal/sign/sync.go:128-141 | every stored word is non-empty and trimmed |
| Records.WordRowsInOrder | internal/sign/sync.go:128-141 | each non-blank piece becomes the row after those of the non-blank pieces before it |
| Records.PhraseRows | internal/sign/sync.go:175-183 | phrase row k carries phrase k and its absolute URL |
| Records.ExecWords | internal/sign/sync.go:128-141 | the word inserts of a stored sign succeed and append its word rows |
| Records.ExecPhrases | internal/sign/sync.go:175-183 | the phrase inserts of a stored sign succeed and append its phrase rows |
| Records.ExecCategories | internal/sign/sync.go:144-161 | the category statements succeed; the categories gain the slugs; existing names are kept; the sign is joined to exactly its slugs |
| Records.SignStage | internal/sign/sync.go:113-125 | the sign insert stores the row under the parsed id, and the later statements find it by the raw id |
| Records.CategoryStage | internal/sign/sync.go:143-161 | the category statements change only the categories and the joins |
| Records.FallbackStage | internal/sign/sync.go:163-172 | a record without categories is joined to the fallback category alone |
| Records.RecordStages | internal/sign/sync.go:113-183 | the stores a record's statements pass through, stage by stage |
| Records.RecordStored | internal/sign/sync.go:113-183 | a new record loads completely: foreign keys hold, category names are kept, and the sign, word and phrase rows are added |
| Records.RecordJoins | internal/sign/sync.go:143-172 | the sign is joined to exactly its categories' slugs, or to the fallback alone |
| Records.RecordKeepsOthers | internal/sign/sync.go:143-172 | other signs' joins are unchanged, and every slug of the record exists |
| Records.QueueWords | internal/sign/sync.go:128-141 | the word loop queues exactly the word statements |
| Records.QueueCategories | internal/sign/sync.go:144-161 | the category loop queues exactly the category statements |
| Records.QueuePhrases | internal/sign/sync.go:175-183 | the phrase loop queues exactly the phrase statements |
| Records.QueueRecord | internal/sign/sync.go:113-183 | one loop body queues exactly the record's statements, in order |
| Records.RecordJoinsFollowInserts | internal/sign/sync.go:143-161 | every category join of a record directly follows the insert of its category |
| Sync.WithPageReadsBack | internal/sign/sync.go:57-59 | the page URL changes only the `page` key, which holds one value that reads back as the page number |
| Sync.WithPageTwice | internal/sign/sync.go:56-59 | setting the page again replaces the previous page |
| Sync.PageSpecStep | internal/sign/sync.go:98-185 | a record that normalises adds one to the count and its statements to the batch |
| Sync.PageSpecStops | internal/sign/sync.go:98-111 | after a failing record nothing more is queued |
| Sync.PageSpecOutcome | internal/sign/sync.go:98-186 | the count is the number of records before the first failure; the error is that record's; the batch is empty iff those records queue nothing |
| Sync.RoundTrip | internal/sign/sync.go:189-194 | a round trip succeeds iff its transport works and every statement applies; otherwise the store is unchanged |
| Sync.PagesStep | internal/sign/sync.go:61-68 | one loop turn: the page fails, ends the loop when empty, or hands on to the next page |
| Sync.NormalizerNonEmpty | internal/sign/sync.go:113-125 | every normalised record queues at least its sign insert |
| Sync.LoadPageCount | internal/sign/sync.go:74-197 | a page counts 0 iff the source sends an empty array; a loaded page counts all its records |
| Sync.LoadPageAtomic | internal/sign/sync.go:188-196 | the page URL is requested; a failed page leaves the store unchanged; a loaded page applies its whole batch |
| Sync.LoadPagePreserves | internal/sign/sync.go:74-197 | a page keeps the foreign keys and the categories |
| Sync.LoaderFacts | internal/sign/sync.go:74-197 | `loadFromURL` records its request, counts 0 only for empty pages, and keeps the store consistent |
| Sync.PagesRequested | internal/sign/sync.go:56-69 | pages are requested in increasing order from the first, never beyond 999 |
| Sync.PagesFailOnPage | internal/sign/sync.go:61-64 | the loop reports only page errors |
| Sync.PagesStop | internal/sign/sync.go:56-69 | every page but the last held records; without an error, the last page was empty or was page 999; an error names the last page |
| Sync.PagesPreserve | internal/sign/sync.go:56-69 | the loop keeps the foreign keys and the categories |
| Sync.SyncStore | internal/sign/sync.go:37-69 | once pages are reached, the store is consistent and holds the fallback category under its old name or "Odefinierade" |
| Sync.SyncRequests | internal/sign/sync.go:31-72 | pages 1, 2, … are requested, at most 999, and none when the truncate or the fallback insert failed |
| Sync.SyncStops | internal/sign/sync.go:56-69 | a sync stops only on an empty page, page 999 or the failing page |
| Sync.ExactPages | internal/sign/sync.go:56-69 | in a sync that succeeds, if pages 1..k are non-empty and page k+1 is empty, exactly k+1 pages are requested |
| Sync.PageJoinsFollowInserts | internal/sign/sync.go:98-186 | the batch of a page keeps every category join right after the insert of its category |
| Sync.LoaderAppliesBatches | internal/sign/sync.go:74-197 | a page that loads records its request and applies the statements of its records |
| Sync.PagesCommit | internal/sign/sync.go:56-69 | a loop that ends without an error has applied the statements of every page it requested, in page order |
| Sync.SyncCommits | internal/sign/sync.go:31-72 | a sync that succeeds replaces the store: the fallback insert and the statements of pages 1..k, applied to the truncated store, build exactly what it leaves |
| Sync.SyncSpecCommits | internal/sign/sync.go:31-72 | the same for `Sync` as written, each page contributing the statements of its records |
| Sync.LoadPageReplay | internal/sign/sync.go:74-197 | without transport faults, a page that loaded loads again with the same count and the same effect on a store that differs only by holding more categories |
| Sync.PagesReplay | internal/sign/sync.go:56-69 | the same for the whole pagination loop |
| Sync.SyncIdempotent | internal/sign/sync.go:31-72 | without transport faults, syncing again after a sync that succeeded also succeeds and leaves the same store |
| Sync.QueueItem | internal/sign/sync.go:99-183 | one record either queues its statements or gives the reason it is rejected |
| Sync.QueuePage | internal/sign/sync.go:98-186 | the record loop computes the page specification |
| Sync.SyncClient.constructor | internal/sign/sync.go:22-29 | a new client has made no round trip and no request |
| Sync.SyncClient.Send | internal/sign/sync.go:189-194 | one round trip, all or nothing |
| Sync.SyncClient.Fetch | internal/sign/sync.go:77-86 | a GET records its URL and returns the source's answer |
| Sync.SyncClient.LoadFromUrl | internal/sign/sync.go:74-197 | `loadFromURL` computes the page specification, including its state change |
| Sync.SyncClient.LoadPages | internal/sign/sync.go:56-71 | the pagination loop computes the loop specification |
| Sync.SyncClient.Sync | internal/sign/sync.go:31-72 | `Sync` computes the sync specification |
| Loader.TagStmtsShape | cmd/api/main.go:243-257 | tag k queues its insert at 2k and its join at 2k+1 |
| Loader.WordStmtsShape | cmd/api/main.go:260-267 | word k is inserted at position k |
| Loader.ExampleStmtsShape | cmd/api/main.go:270-277 | example k is inserted at position k |
| Loader.RecordStmtsShape | cmd/api/main.go:236-277 | a record queues its sign, then its tags, words and examples, with 1 + 2·tags + words + examples statements |
| Loader.StmtsLength | cmd/api/main.go:225 | the batch length is the sum of the record sizes |
| Loader.PlanCovers | cmd/api/main.go:216-288 | the sent groups followed by the pending records are the records; pending is empty only before the first record |
| Loader.PlanInOrder | cmd/api/main.go:216-288 | every queued statement is in exactly one batch, in queue order |
| Loader.PlanFlushes | cmd/api/main.go:225-233 | a group is sent when it reaches 1000 statements and not before |
| Loader.PlanPrefix | cmd/api/main.go:220-233 | later records only add groups after those already sent |
| Loader.ExecLegacyTags | cmd/api/main.go:243-257 | what one statement does to the tags and the joins |
| Loader.FirstTagWins | cmd/api/main.go:244-249 | `ON CONFLICT (id) DO NOTHING`: the first name given to a tag id wins |
| Loader.JoinsDeduplicated | cmd/api/main.go:251-256 | joins add their pairs as a set |
| Loader.TruncatedLegacy | cmd/api/main.go:201-207 | the truncate empties signs, joins, words and examples and keeps the tags |
| Loader.LegacyRoundTrip | cmd/api/main.go:226-229 | a round trip succeeds iff its transport works and the batch applies; a committed batch is logged |
| Loader.SendAllPrefix | cmd/api/main.go:227-229 | after a failed batch nothing more is sent |
| Loader.StmtsEmpty | cmd/api/main.go:281 | records queue nothing only when there are none |
| Loader.SendAllLog | cmd/api/main.go:225-288 | sending batches logs a prefix of them, and all of them when none fails |
| Loader.SendAllStore | cmd/api/main.go:225-288 | the store is the one the logged statements build |
| Loader.ScheduleCovers | cmd/api/main.go:216-288 | the batches hold every statement, in order, and none of them is empty |
| Loader.FlushedBeforeSchedule | cmd/api/main.go:225-233 | the flushed groups are a prefix of the full schedule |
| Loader.LoadItemsLog | cmd/api/main.go:216-290 | the load logs a prefix of the schedule and applies it in order; all of it when it succeeds |
| Loader.LoadItemsQueued | cmd/api/main.go:216-290 | what is committed is a prefix of the decoded records' statements, in non-empty batches; all of them on success |
| Loader.ScheduledPrefix | cmd/api/main.go:220-233 | a prefix of the schedule before a malformed record is a prefix of all the statements |
| Loader.LoadDataCommits | cmd/api/main.go:187-291 | after the truncate, the committed batches rebuild the store from empty tables; a successful load commits every record |
| Loader.NonEmptyBatches | cmd/api/main.go:225 | groups of 1000 statements or more queue something |
| Loader.PlanStep | cmd/api/main.go:225-240 | decoding one record flushes a full pending group or extends it |
| Loader.ScheduleSend | cmd/api/main.go:280-288 | the last batch is sent after the flushes, and only when it is not empty |
| Loader.FlushFails | cmd/api/main.go:225-229 | a flush that fails ends the load, whatever follows |
| Loader.LegacyDb.constructor | cmd/api/main.go:187 | a fresh pool has made no round trip and committed nothing |
| Loader.LegacyDb.Send | cmd/api/main.go:226-229 | one round trip, all or nothing |
| Loader.QueueTags | cmd/api/main.go:243-257 | the tag loop queues exactly the tag statements |
| Loader.QueueWords | cmd/api/main.go:260-267 | the word loop queues exactly the word statements |
| Loader.QueueExamples | cmd/api/main.go:270-277 | the example loop queues exactly the example statements |
| Loader.QueueLegacyRecord | cmd/api/main.go:235-277 | the loop body queues exactly the record's statements |
| Loader.QueuedNoFlush | cmd/api/main.go:225-240 | queuing without a flush extends the pending group |
| Loader.QueuedFlush | cmd/api/main.go:225-233 | a flush sends the pending group, or ends the load with its failure |
| Loader.LoadRecord | cmd/api/main.go:225-277 | one decode-loop turn keeps the loop invariant, or ends the load as specified |
| Loader.QueuedLast | cmd/api/main.go:280-290 | once every record is queued, the load ends with the last batch, if any |
| Loader.LoadLast | cmd/api/main.go:280-290 | the final send computes the load specification |
| Loader.LoadItemsInto | cmd/api/main.go:216-290 | the decode loop computes the load specification |
| Loader.LoadData | cmd/api/main.go:187-291 | `loadData` computes the load specification, including every error path |
| Http.Writer.WriteHeader | cmd/api/main.go:149 | the status is set only if no header went out yet |
| Http.Writer.Write | cmd/api/main.go:141 | the first write sends 200, and every write appends |
| Http.Scanned | cmd/api/main.go:147-152 | the rows before the first scan error all scanned |
| Http.WriteRows | cmd/api/main.go:141-162 | the framing loop writes the framed body and returns the number of rows written |
| Http.FramedEmpty | cmd/api/main.go:141-162 | no rows give `[]` |
| Http.FramedSnoc | cmd/api/main.go:154-159 | a scanned row adds itself, after a comma unless it is the first |
| Http.FramedCut | cmd/api/main.go:147-152 | a scan error leaves the body of the earlier rows without the closing bracket |
| Feed.BuildFilter | cmd/api/main.go:64-77 | the handler's slices equal the filter specification |
| Feed.FilterCases | cmd/api/main.go:64-77 | 400 iff `changed_at` is present and does not parse; otherwise the WHERE clause is `TRUE`, or `TRUE AND updated_at > $1` with the parsed time as the only parameter |
| Feed.ServeSigns | cmd/api/main.go:58-162 | the handler answers 405, 400, 500 or 200 with the framed rows, as specified |
| Feed.SignsServed | cmd/api/main.go:133-162 | an accepted query that runs is answered 200, and its body is bracketed when every row scans |
| Search.Terms | internal/sign/api.go:56-66 | term k is match k, quoted |
| Search.PrefixTerms | internal/sign/api.go:56-66 | prefix term k is match k, quoted, with `:*` when it is longer than one byte |
| Search.BuildTerms | internal/sign/api.go:56-66 | the match loop builds both term lists |
| Search.QuotedReadsBack | internal/sign/api.go:57 | a term is the escaped match between quotes and reads back as the match |
| Search.PrefixMarked | internal/sign/api.go:58-65 | only a match longer than one byte is marked as a prefix |
| Search.TsQueryNoMatches | internal/sign/api.go:68 | no matches give `() \| ()` |
| Search.BuildWordQuery | internal/sign/api.go:30-73 | the handler's `where`, `orderBy` and `params` equal the query specification |
| Search.AddClauseAgrees | internal/sign/api.go:44-46 | appending a clause with its parameter keeps every `$n` pointing at the n-th parameter |
| Search.WordQueryWellFormed | internal/sign/api.go:33-72 | 400 iff `category_id` is non-empty and not an int; every `$n` names the n-th parameter; a search orders by its own last parameter |
| Search.RankOrderIsNotWordOrder | internal/sign/api.go:72 | the rank order differs from the word order |
| Search.FirstPlaceholder | internal/sign/api.go:44 | the category clause reads `$1` |
| Search.WordQueryCategory | internal/sign/api.go:36-47 | with a category, the first parameter is `[]int{id}`, read by `words_view.categories @> $1` |
| Search.WordQuerySearch | internal/sign/api.go:50-73 | the search parameter exists iff `q` is non-empty; it is last and holds the tsquery; ordering is by rank exactly then |
| Search.WordIndex | internal/sign/api.go:29-121 | the handler answers 400, 500 or 200 with the framed rows, as specified |
| Search.CategoryIndex | internal/sign/api.go:123-164 | the handler answers 500 or 200 with the framed rows |
| Favorites.FavoritesStore.constructor | frontend/src/stores/favorites.js:4-6 | the store starts empty |
| Favorites.FavoritesStore.ToggleFavorite | frontend/src/stores/favorites.js:13-20 | the action computes the toggle specification and keeps every entry under its own key |
| Favorites.IsFavoriteOwnKey | frontend/src/stores/favorites.js:8-10 | `isFavorite(id)` holds iff the id's key is an entry (for non-inherited keys) |
| Favorites.NumKeysDistinct | frontend/src/stores/favorites.js:14-19 | distinct integer ids have distinct keys |
| Favorites.NumKeyNotInherited | frontend/src/stores/favorites.js:9 | an integer id is never an inherited property name |
| Favorites.ToggleRemoves | frontend/src/stores/favorites.js:14-17 | toggling a present id removes that key and nothing else |
| Favorites.ToggleInserts | frontend/src/stores/favorites.js:19 | toggling an absent id maps it to the sign |
| Favorites.ToggleFlips | frontend/src/stores/favorites.js:13-20 | toggling flips `in` for the key, unless it is inherited, and keeps every other key and value |
| Favorites.ToggleTwice | frontend/src/stores/favorites.js:13-20 | toggling an absent sign twice restores the map |
| Favorites.ToggleInheritedIsNoop | frontend/src/stores/favorites.js:14-17 | an id named like an inherited property cannot become a favourite; its toggle changes nothing |

## Left out

- The JSON decoder is replaced by its results. In the source, `dec.Decode(&s)` reuses one variable for every record, so a field missing from a record keeps the previous record's value. The model decodes every record on its own.
- `dec.Token()` is only checked for an error. The source does not check that the token is `[`, and neither does the model. Data after the array is not read by the source and is not modelled.
- `url.Parse`, `time.Parse` and `time.ParseInLocation` are inputs of the model, and so is the search regular expression. Their grammars are not modelled, and a timestamp is an integer.
- The HTTP status of a fetched page is not checked by the source. The model treats every answer as a body or a transport error.
- In `loadData`, a failed GET calls `log.Fatalf`, which ends the process. The model ends the load with `GetFailed` and changes nothing.
- Database-generated ids are not modelled. This covers `RESTART IDENTITY` and the category ids, so a category is known by its slug. Errors carry their kind, not their message text.
- Catalog.PgInt: does not accept the white space around a number that PostgreSQL's `int4` input allows, because the ids come from JSON strings and are otherwise read as written.
- Response headers (`Content-Type`, `Cache-Control`) are not modelled. Logging, timing and request contexts are not modelled either.
- A database error while iterating rows is not reported: the source never calls `rows.Err()`, and the model's rows are the ones `rows.Next()` yields.
- The server setup, the routing, the graceful shutdown and the HTTP client timeout are not modelled.
- `SignShow`, `cmd/api/migrate.go`, `cmd/proxy/main.go`, `TransformJSONStream`, `BuildIndexes` and `OldSign` are not part of this model.
- The legacy tables `loadData` writes (`tags`, `signs_tags`, `words`, `examples`), their `ref_id` keys, and which of them `TRUNCATE ... CASCADE` empties are assumed, because their schema is not part of this model. `Loader.ExecLegacy` checks no foreign key on them.
- The record type `loadData` decodes, with `RefID`, `VideoURL`, `Tags`, `Words` and `Examples`, is not among the sources. `Loader.LegacySign` holds the fields the loader reads.
- Favorites.FavoritesStore.ToggleFavorite: the Pinia persistence plugin, which restores the favourites from local storage, is not modelled, so the store starts empty. Ids that are non-integer numbers are not modelled. Integer ids of magnitude 10^21 or more are not modelled either: JavaScript writes them in exponent form (`1e+21`), and integers beyond 2^53 are not exact, while `Favorites.Key` writes every integer in plain decimal.
