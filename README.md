# Retrieval pipeline of the anime line and scene search backend

This project models, in Dafny, the retrieval core of the anitool search backend (`backend/main.py`).
A query is embedded. The index for the requested scope is chosen. A candidate pool of `top_k * 5` (line
search) or `top_k * 2` (scene search) records is fetched from that vector index. The pool is sent
to a rerank service, the answer is fused back into records, and each record becomes a response item.

The embedding service, the rerank service, the FAISS engine and `json.loads` are oracles, passed in as
function values:

- `Embedder.EmbedService` stands for one embedding call. It gives rows, or the error it raised.
- `Rerank.RerankService` stands for the rerank request. It gives `(index, relevance)` pairs, and `[]` for
  any transport, status or parse failure.
- `VectorIndex.Engine` is the loaded FAISS index. It is a `const` field of `BaseIndex` and gives the
  `(position, score)` row of an ANN search.
- `VectorIndex.Parser` is `json.loads` on one metadata line.

The futures of the embedding thread pool complete in an arbitrary order. That order is an input: a
permutation of the batch numbers.

Files:

- `wrappers.dfy`: `Option` and `Result`.
- `records.dfy`: JSON values and metadata records, Python truthiness, and `Gather`. `Gather` is the
  filter of the index search: drop hits outside `[0, len)` and copy the addressed record with a score
  field set. The fusion loop does the same once its negative indices are read from the end.
- `embedder.dfy`: the batch plan, `_embed_raw`, `_embed_batched`, and the order-preservation proofs.
- `vector_index.dfy`: metadata loading and `class BaseIndex` with its `Search`.
- `rerank.dfy`: `QwenReranker.rerank`'s early return, `_apply_rerank`, the stable fallback sort, and
  fusion.
- `format.dfy`: `_resolve_web_path`, `_format_subtitle_results`, `_format_reply_results` and the scene
  formatting loop.
- `endpoints.dfy`: scope lookup and the `search_match`, `search_reply` and `scene_search` handlers.

A formatter gives `None` where the Python code raises, for example on an image path that is a number.
The endpoints turn that `None` into an escaping exception, `Raised(...)`. An embedding failure
becomes `EmbedFailed`, and the handlers' own `HTTPException(500, ...)` becomes `HttpError`.

Three behaviours of the code that a reader may not expect are kept as written:

- The fusion branch of `_apply_rerank` does not truncate to `top_k`; it relies on the rerank service
  honouring `top_n`. `Rerank.RerankedBound` and the endpoints' length clause therefore assume that the
  service answers at most `top_n` pairs.
- The fusion loop tests only `idx < len(candidates)`. A negative index counts from the end, and one
  below `-len(candidates)` raises IndexError, which escapes the handler. The stage and the endpoints
  model this (`Rerank.FuseAsWritten`); the loop that only keeps indices in range is
  `Rerank.FuseInRange` (see Findings).
- `top_k` is a plain Python `int`. A negative `top_k` makes `candidates[:top_k]` drop items from the
  end. `Rerank.PyPrefix` models this.

## Model

| member | source | states |
|---|---|---|
| `Embedder.BatchCount` | backend/main.py:116 | the number of batches `range(0, n, 10)` yields is the least count whose batches cover `n` texts, and it is 0 exactly for empty input |
| `Embedder.Plan` | backend/main.py:98-116 | batch k starts at offset `10k`; every batch holds between 1 and 10 texts, and every batch but the last exactly 10 |
| `Embedder.EmbedRaw` | backend/main.py:101-109 | an empty batch yields no rows and makes no service call |
| `Embedder.EmbedBatched` | backend/main.py:114-127 | empty input gives no rows and issues no call; otherwise one call per batch. The result succeeds exactly when sequential, batch-order embedding succeeds, and then equals it, whatever the completion order. A failure carries the error of a failing batch, and no partial rows are returned |
| `Embedder.Stack` | backend/main.py:125-127 | stacking the slots in slot order, when slot k holds batch k's rows for every k, gives exactly the sequential, batch-order result |
| `Embedder.InOrderSucceeds` | backend/main.py:114-127 | sequential embedding succeeds exactly when every batch's call succeeds, and then yields the batches' rows concatenated in batch order |
| `Embedder.PlanCovers` | backend/main.py:116 | the batches, concatenated in order, give back the input texts |
| `Embedder.EmbedRowsAligned` | backend/main.py:114-127 | if the service answers one row per text, output row i belongs to text i: it is row `i % 10` of batch `i / 10`, and text i is item `i % 10` of that batch |
| `VectorIndex.LoadMeta` | backend/main.py:199-206 | loading never yields more records than the file has lines |
| `VectorIndex.LoadMetaAppend` | backend/main.py:200-206 | loading is line by line: the records of two stretches of a file are those of each, in file order |
| `VectorIndex.SkipsBadLine` | backend/main.py:202-206 | a blank or unparsable line contributes no record and does not disturb the others |
| `VectorIndex.KeepsGoodLine` | backend/main.py:202-204 | a non-blank line that parses contributes its record, in file position |
| `VectorIndex.LoadMetaAllGood` | backend/main.py:200-206 | when every line is good, record i is the parse of line i |
| `VectorIndex.LoadMetaSound` | backend/main.py:200-206 | every loaded record is the parse of some non-blank, parsable line |
| `VectorIndex.MalformedLineShifts` | backend/main.py:200-218 | with the middle one of three lines malformed, two records load. A hit at position 2 is dropped, and a hit at position 1 receives the record of line 2 |
| `VectorIndex.BaseIndex.constructor` | backend/main.py:197-206 | `meta` is exactly the records of the non-blank, parsable lines, in file order |
| `VectorIndex.BaseIndex.Search` | backend/main.py:209-218 | the result is `Gather` of the engine's hits over `meta` with "score" set. It is never longer than the engine's answer, every item has a numeric score, and `meta` is unchanged |
| `Records.Gather` | backend/main.py:212-218 | the filtered output is never longer than the engine's answer |
| `Records.Kept` | backend/main.py:214 | the kept hit numbers index the answer and address a record |
| `Records.KeptExact` | backend/main.py:213-214 | a hit is kept exactly when its position lies in `[0, len)`; kept hits are listed once each, in engine order |
| `Records.GatherAt` | backend/main.py:213-217 | output j is a copy of the record addressed by the j-th kept hit, with that hit's score set |
| `Records.GatherAllInRange` | backend/main.py:213-217 | when every hit is in range, the output lines up one-to-one with the hits |
| `Records.GatherAppend` | backend/main.py:213-217 | filtering two answers in sequence is filtering their concatenation |
| `Records.GatherScoresNumeric` | backend/main.py:215-216 | every output record has a numeric score when the field set is "score", or when every source record already has one |
| `Records.WithScore` | backend/main.py:215-216 | the copy has the field set to the score, and every other field as before |
| `Rerank.RerankCall` | backend/main.py:137-138 | no documents gives no pairs without calling the service |
| `Rerank.PyPrefix` | backend/main.py:444 | `s[:k]` is a prefix of `s`; for `k >= 0` it has `k` items, or all of `s` if there are fewer; for `k < 0` it has `len(s) + k` items, or none when that is not positive |
| `Rerank.Docs` | backend/main.py:446 | one document per candidate, its text field or "" when absent |
| `Rerank.SortByScore` | backend/main.py:451 | the fallback order is a permutation of the pool |
| `Rerank.InsertByScore` | backend/main.py:451 | inserting adds exactly the one record |
| `Rerank.SortSorted` | backend/main.py:451 | the fallback order has scores descending |
| `Rerank.SortStable` | backend/main.py:451 | the fallback order is stable: for every score, the records with that score keep their pool order |
| `Rerank.SortKeepsSorted` | backend/main.py:451 | a pool already in descending order is left unchanged by the fallback sort |
| `Rerank.InsertSorted` | backend/main.py:451 | inserting into a descending list keeps it descending |
| `Rerank.InsertStable` | backend/main.py:451 | inserting into any list puts the record before all records of its own score and keeps their order |
| `Rerank.WithScoreValueAppend` | backend/main.py:451 | selecting by score distributes over concatenation |
| `Rerank.FuseAsWritten` | backend/main.py:454-459 | the fusion loop as written: it never returns more records than the answer has pairs, and when it fails the error is IndexError |
| `Rerank.FuseAsWrittenWraps` | backend/main.py:454-459 | the loop raises IndexError exactly when some index is below `-len(candidates)`; otherwise it gives `Gather` of the answer with negative indices read from the end |
| `Rerank.FuseAsWrittenAgrees` | backend/main.py:454-459 | on answers with no negative index, the source's loop gives exactly `Gather` |
| `Rerank.NegativeIndexWraps` | backend/main.py:455-456 | the answer `[(-1, 0.5)]` fuses in the last of two candidates as written, where the in-range loop drops it; the answer `[(-3, 0.5)]` raises IndexError |
| `Rerank.RerankedBound` | backend/main.py:442-459 | for `top_k >= 0`, a stage that does not raise returns at most `top_k` records, provided the service answered at most `top_k` pairs |
| `Rerank.SortedPrefix` | backend/main.py:451-452 | the fallback result is descending and holds only pool records |
| `Rerank.SortedPrefixStable` | backend/main.py:451-452 | after the cut to `top_k`, for each score, the records with that score are a prefix of the pool's records with that score |
| `Rerank.FallbackOrder` | backend/main.py:450-452 | with an empty rerank answer the result is the pool stably sorted by score descending and cut to `top_k`. A pool already in search order comes back as its own prefix |
| `Rerank.FusionOrder` | backend/main.py:454-459 | with a non-empty answer the stage raises IndexError exactly when some index is below `-len(candidates)`. Otherwise the result follows the service's order: output j is the candidate of the j-th pair whose index, read from the end when negative, addresses the pool, with `_rerank_score` set to that pair's score; pairs at or past the end are dropped |
| `Rerank.FusionExample` | backend/main.py:454-459 | five candidates with the answer `[(3, 0.9), (0, 0.5)]` give candidate 3 with 0.9, then candidate 0 with 0.5 |
| `Rerank.RerankedScoresNumeric` | backend/main.py:442-459 | every record a stage that does not raise returns keeps the numeric score its candidate had |
| `Rerank.ApplyRerank` | backend/main.py:442-459 | an empty pool gives []. No reranker gives `candidates[:top_k]`. An empty answer sorts the caller's list in place and returns its prefix. Otherwise the loop's fused records or its IndexError, and the list is left as it was |
| `Rerank.SortInPlace` | backend/main.py:451 | the list's contents become their stable descending order |
| `Rerank.Fuse` | backend/main.py:449-459 | the fusion loop over the caller's list gives exactly `FuseAsWritten`: copies with `_rerank_score` set, negative indices from the end, IndexError below `-len` |
| `Rerank.FuseInRange` | backend/main.py:454-458 | the corrected loop yields `Gather` of the answer over the pool with "_rerank_score" set, never longer than the answer |
| `Format.StripLeft` | backend/main.py:343 | the result is a suffix of the input, preceded only by separators, and does not start with one |
| `Format.StripRight` | backend/main.py:343 | the result is a prefix of the input, followed only by separators, and does not end with one |
| `Format.Strip` | backend/main.py:343 | `strip("/\\")` is a contiguous slice with only separators around it, and it neither starts nor ends with a separator |
| `Format.ResolveWebPath` | backend/main.py:329-349 | "" stays "", a path starting with "http" is returned unchanged, and any other path becomes "/images/" followed by the path with its leading and trailing slashes and backslashes stripped |
| `Format.SeparatorsIgnored` | backend/main.py:343-349 | adding slashes or backslashes around a relative path does not change its URL |
| `Format.StripAround` | backend/main.py:343 | separators added on both sides are stripped away |
| `Format.StripLeftAround` | backend/main.py:343 | leading separators are stripped away |
| `Format.StripRightAround` | backend/main.py:343 | trailing separators are stripped away |
| `Format.StripLeftSuffix` | backend/main.py:343 | stripping on the left does not depend on trailing separators |
| `Format.WebPathOf` | backend/main.py:334-337 | a falsy field gives "" and a string is resolved; a value of any other type raises |
| `Format.Normalize` | backend/main.py:474 | `(s + 1) / 2` lies in [0, 1] exactly when `s` lies in [-1, 1], and it is inverted by `2c - 1` |
| `Format.CoarseScoreOf` | backend/main.py:474 | a numeric score s gives `(s + 1) / 2`, and a missing score gives 0.5 |
| `Format.FormatSubtitle` | backend/main.py:463-476 | a record is formatted exactly when its image path and its score can be read |
| `Format.FormatReply` | backend/main.py:481-498 | a record is formatted exactly when its episode number, answer image path and score can be read |
| `Format.FormatScene` | backend/main.py:403-411 | a record is formatted exactly when its image path can be read |
| `Format.FormatSubtitleResults` | backend/main.py:461-477 | exactly one item per record, in order, or a failure when some record cannot be formatted |
| `Format.FormatReplyResults` | backend/main.py:479-499 | exactly one item per record, in order, or a failure when some record cannot be formatted |
| `Format.FormatSceneResults` | backend/main.py:402-411 | exactly one item per record, in order, or a failure when some record cannot be formatted |
| `Format.SubtitleFormatted` | backend/main.py:461-477 | a record with a numeric score and a string path is formatted. Its coarse score is the normalised score, in [0, 1] when the score is in [-1, 1], and its rerank score is `_rerank_score` or None |
| `Endpoints.ResolveScope` | backend/main.py:357 | the requested scope's index if it is loaded, else scope 1's index, else none |
| `Endpoints.EncodeQuery` | backend/main.py:360 | embedding one query is one service call on the one-text batch |
| `Endpoints.ToPool` | backend/main.py:361 | the pool list holds the search results, in order |
| `Endpoints.SearchMatch` | backend/main.py:354-366 | a missing embedder raises 500 before the lookup. No index for the scope or scope 1 gives an empty result. Otherwise: the embedding error; the IndexError of the rerank stage; or one subtitle item per reranked record of the `top_k * 5` pool, in order, failing when a record cannot be formatted. With a non-negative `top_k` and an honest reranker there are at most `top_k` items |
| `Endpoints.SearchReply` | backend/main.py:369-381 | as for match search, over the reply indexes, reranking on "question_text" and formatting reply items |
| `Endpoints.SceneSearch` | backend/main.py:391-415 | a missing image index raises 500 before the embedder is checked. Otherwise as for match search, with a `top_k * 2` pool and scene items |
| `Endpoints.BoundFromHonestReranker` | backend/main.py:442-459 | with an honest reranker and `top_k >= 0`, a rerank stage that does not raise returns at most `top_k` records |

## Left out

- The FastAPI application, its routes, CORS, static mounts and SPA serving (backend/main.py:240, 303-326, 417-437) are HTTP and filesystem plumbing. The handlers are modelled as methods from a request to a result.
- `UsageLogger` (backend/main.py:70-89) and the handlers' logging calls (backend/main.py:364-365, 379-380, 413-414) are file I/O. They run before the handler returns and outside any try, so a failed open or write, or a missing `request.client`, turns the response into a 500. That failure path is not modelled: the handlers here succeed or fail as if logging always succeeds.
- The embedding request, the rerank HTTP request and `QwenChat.extract_scenes` with the `/scene/analyze` handler (backend/main.py:104, 146-155, 164-192, 384-388) are network calls. Embedding and reranking are oracles here; scene extraction is not part of this model.
- The thread pool's scheduling (backend/main.py:121-125) is left out. Completion order is an input permutation. The pool width of 4 only bounds concurrency.
- `faiss.read_index`, `faiss.normalize_L2` and the ANN search (backend/main.py:198, 210-211) are foreign float numerics. The engine is an oracle that receives the query and `k`. Query normalisation is inside it, and a read failure at load time is not modelled.
- `np.vstack` fails on rows of different widths, and `np.zeros` gives a `(0, D)` shape. The model has no matrix shapes: rows are sequences and an empty result is `[]`.
- Splitting the metadata file into lines and decoding it as UTF-8 are left out. The file is given as its sequence of lines, and `json.loads` is the `Parser` oracle.
- `AppConfig`, environment variables and `load_resources` (backend/main.py:49-66, 253-298) are left out. A scope or index that failed to load is simply absent from `Services`.
- Rerank.SortByScore: the sort key `x.get("score", 0)` is total here. A missing score is 0, a boolean is 0 or 1, and any other type reads as 0. Python would raise TypeError when it compares such a score with a number. Every record that reaches the sort comes from `BaseIndex.Search`, which sets a numeric score (`Records.GatherScoresNumeric`), so the case does not arise in the modelled pipeline.
- Rerank.RerankedBound: the length bound is stated only for answers of at most `top_k` pairs, because the fusion branch does not truncate.
- Endpoints.SearchMatch: the length bound on the response assumes the rerank service honours `top_n`, for the same reason.
- Scores are real numbers, not 32-bit floats.
- Python's `str.isspace` is modelled by its fixed list of whitespace characters.

## Findings

| source | as written | input that shows it | evidently intended | confidence | as-written member | corrected member |
|---|---|---|---|---|---|---|
| backend/main.py:455 | a fusion pair is dropped only when `idx >= len(candidates)`, so a negative index is a Python index from the end (and below `-len` raises IndexError) | pool `[a, b]` with rerank answer `[(-1, 0.5)]` returns `b` with rerank score 0.5 | keep only indices in `[0, len(candidates))`, the same test the index search applies | low: the rerank service should never return a negative index; not executed | `Rerank.NegativeIndexWraps` | `Rerank.FuseInRange` |
