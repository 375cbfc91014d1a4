# news-aggregator-ai, modelled in Dafny

This project models the core of the news-aggregator-ai repository, a news site in several parts:

- The Express backend pulls headlines from NewsAPI. It summarises them through a Python worker that runs beside it. It stores them in MongoDB and serves them through a one-minute cache.
- A Python script pulls three RSS feeds into the same collection.
- A Prisma script imports headlines into the SQL table.
- The Next.js front end holds the rest:
  - the sign-up endpoint, which has a per-IP rate limit;
  - the AI ranking endpoint, which has a Redis rate limit, a Redis cache and a retry policy around the Hugging Face call;
  - the preferences page, which reconciles localStorage with the database;
  - the home page with its category carousels.

There is one module per source file:

| module | file | form |
|---|---|---|
| `Common` | shared | `Option`, a JSON value, JavaScript truthiness, ASCII lower-casing, trimming, whitespace words |
| `SummarizerChannel` | backend/services/summarization/summarizer.js | class `Channel` holding the pending queue and the output buffer, plus an event-level specification |
| `SummarizerWorker` | backend/services/summarization/summarizer.py | functions for the length and timeout arithmetic, cleaning, and the per-line reply |
| `ArticleStore` | MongoDB collection | class `ArticleCollection`, plus the sorted queries of backend/controllers/newsController.js |
| `NewsController` | backend/controllers/newsController.js | the `fetchNewsAPI` pipeline, as a method over the collection with a specification function |
| `RssFetcher` | backend/services/rss_fetcher.py | the nested feed/entry loops, as methods over the collection, plus the script's exit code |
| `NewsRoutes` | backend/routes/newsRoutes.js | class `NewsRouter`, which owns `newsCache` |
| `ImportNews` | scripts/importnews.js | the check-then-create loop over class `NewsTable` |
| `SignupApi` | frontend/pages/api/auth/signup.js | class `SignupHandler`, which owns `signupAttempts` and the users table |
| `NewsRankApi` | frontend/pages/api/news-rank.js | the retry loop as a method; class `Redis`; the handler |
| `PreferencesPage` | frontend/pages/preferences.js | pure list edits; class `PreferencesPage` for the sequenced storage effects |
| `HomePage` | frontend/pages/index.js | pure carousel construction and category picking |

Foreign behaviour enters as parameters, so every property holds whatever the foreign code does:

- `JSON.parse` and `json.loads` are a partial function `string -> Option<Json>`.
- The transformers model, with its elapsed-time check, is a function returning `InTime`, `Late` or `Raised`.
- Date parsing is `string -> Option<int>`. The clock is an `int` argument.
- Fetch and HTTP answers are datatypes.
- `validator.isEmail` and `bcrypt.hash` are functions.
- The database being reachable is a `bool`.
- The Hugging Face call is `attempt -> outcome`.
- `Math.random` is a sequence of picks.

## Model

| member | source | states |
|---|---|---|
| SummarizerChannel.Channel.constructor | backend/services/summarization/summarizer.js:29-31 | The channel starts with no pending request and an empty buffer. |
| SummarizerChannel.Channel.SummarizeBatch | backend/services/summarization/summarizer.js:55-71 | Appends exactly one request, with its deadline 20000 ms after submission, at the back of the queue. Writes exactly one JSON array text followed by a newline. |
| SummarizerChannel.Channel.OnStdout | backend/services/summarization/summarizer.js:33-52 | Handles one stdout chunk as the event specification `OnChunk` says, and keeps the queue valid. |
| SummarizerChannel.Channel.OnTimeout | backend/services/summarization/summarizer.js:57-61 | Handles a fired timer as `OnTimer` says, and keeps the queue valid. |
| SummarizerChannel.Channel.OnStderr | backend/services/summarization/summarizer.js:10-20 | A stderr chunk is logged iff it mentions neither "Device set to use cpu" nor "Device set to use mps". |
| SummarizerChannel.ChunkWithoutBracketOnlyBuffers | backend/services/summarization/summarizer.js:33-36 | If the trimmed buffer does not end with `]`, the chunk is only appended; nothing is dispatched and the queue is unchanged. |
| SummarizerChannel.ParsedResponseResolvesOldest | backend/services/summarization/summarizer.js:37-46 | A response that parses resolves exactly the oldest pending request with the parsed value. The rest of the queue keeps its order and the buffer is emptied. |
| SummarizerChannel.UndeliverableResponseIsDropped | backend/services/summarization/summarizer.js:41-50 | A parse failure, or a response with nothing pending, empties the buffer and leaves the queue as it was. |
| SummarizerChannel.TimerRemovesOnlyItsRequest | backend/services/summarization/summarizer.js:57-61 | A due timeout rejects its own request with "Summarization timeout." and removes only that entry. All others keep their relative order. |
| SummarizerChannel.TimerIdleUnlessDue | backend/services/summarization/summarizer.js:57-61 | A timer that is not yet due, or whose request has already settled, changes nothing. |
| SummarizerChannel.ExitLeavesChannel | backend/services/summarization/summarizer.js:22-24 | Worker exit changes neither the queue nor the buffer, and settles nothing. |
| SummarizerChannel.StepAccounts | backend/services/summarization/summarizer.js:33-71 | Every event keeps the queue valid. It settles only requests that were pending, settles none twice, and keeps every unsettled request pending. Only a submission adds to the queue. |
| SummarizerChannel.RunAccounts | backend/services/summarization/summarizer.js:33-71 | Over any run of events: no request is settled twice, and a settled request is no longer pending. Every unsettled request is still pending. Resolutions go to requests in strictly increasing submission order, each older than every request still pending. |
| SummarizerChannel.Find | backend/services/summarization/summarizer.js:60 | Finds the position of the request with a given identity, or reports that none is pending. |
| SummarizerChannel.OnSubmit | backend/services/summarization/summarizer.js:55-67 | The state after `summarizeBatch`: a request with the next identity and a deadline 20000 ms after submission goes to the back of the queue; the buffer is untouched. Its effect is proved in StepAccounts. |
| SummarizerChannel.OnChunk | backend/services/summarization/summarizer.js:33-52 | The state and settlement after one stdout chunk. The chunk is appended. When the trimmed buffer ends with `]` it is parsed: a parsed value resolves the oldest pending request if there is one, and the buffer is cleared whether or not the parse succeeded. |
| SummarizerChannel.OnTimer | backend/services/summarization/summarizer.js:57-61 | A due timer of a pending request rejects it with "Summarization timeout." and filters out only that request; any other timer changes nothing. |
| SummarizerChannel.Step | backend/services/summarization/summarizer.js:33-71 | One event (submission, stdout chunk, timer, stderr chunk, worker exit) applied to the state, with the promises it settles. |
| SummarizerChannel.Run | backend/services/summarization/summarizer.js:33-71 | A sequence of events applied in order, with every settlement in the order it happens; RunAccounts states what any run keeps. |
| Common.StringArrayTextIsOneLine | backend/services/summarization/summarizer.js:67 | The JSON text of a string array holds no newline and ends with `]`. |
| SummarizerWorker.LengthBounds | backend/services/summarization/summarizer.py:40-47 | For 10 or more words: `4 <= min_length < max_length <= 120`, and `max_length` is below the word count. |
| SummarizerWorker.DynamicTimeout | backend/services/summarization/summarizer.py:55 | The timeout lies in [3, 9]. |
| SummarizerWorker.CutToCapWords | backend/services/summarization/summarizer.py:49-52 | An input longer than 120 words is cut to exactly its first 120 words; a shorter one keeps all its words. |
| SummarizerWorker.TimeoutIsAlwaysThree | backend/services/summarization/summarizer.py:49-55 | Because the cut comes first, the timeout the model is given is always 3. |
| SummarizerWorker.ModelCallArguments | backend/services/summarization/summarizer.py:34-57 | When the model is called, its text has at most 120 words and its bounds satisfy the invariants above. |
| SummarizerWorker.ShortOrInvalidInputSkipsModel | backend/services/summarization/summarizer.py:28-37 | A non-string gives "Error: Invalid input type". A string of fewer than 10 words comes back unchanged. In both cases the model is not consulted. |
| SummarizerWorker.ReplaceEllipsis | backend/services/summarization/summarizer.py:23 | The result contains no "…" character. |
| SummarizerWorker.ReplaceEllipsisRule | backend/services/summarization/summarizer.py:24 | "…" becomes "...", every other character is kept, and the replacement distributes over concatenation; a text without "…" comes back unchanged. |
| SummarizerWorker.CleanText | backend/services/summarization/summarizer.py:21-25 | `clean_text` without `html.unescape`: "…" replaced, then stripped. What it yields is stated by CleanTextIsClean. |
| SummarizerWorker.CleanTextIsClean | backend/services/summarization/summarizer.py:21-25 | The cleaned text is the replaced text with a whitespace run cut off each end and nothing else removed. It has no "…" and neither starts nor ends with whitespace. |
| SummarizerWorker.TakeChars | backend/services/summarization/summarizer.py:64 | `text[:150]` is the prefix of length min(n, 150). |
| SummarizerWorker.SilentLines | backend/services/summarization/summarizer.py:76-92 | A line produces no output iff it is blank after stripping or is not valid JSON. |
| SummarizerWorker.ReplyIsOneLine | backend/services/summarization/summarizer.py:106-115 | Every reply is written as exactly one newline-terminated line. |
| SummarizerWorker.ArrayAnswer | backend/services/summarization/summarizer.py:95-110 | An array gets one summary per dictionary element, summarised from its `content`. Non-dictionary elements are skipped. |
| SummarizerWorker.DictContentsCount | backend/services/summarization/summarizer.py:95 | The number of contents is exactly the number of dictionary elements. |
| SummarizerWorker.StringBatchGetsEmptyArray | backend/services/summarization/summarizer.py:95-110 | An array of strings, which is what the controller sends, gets the reply `[]`. |
| SummarizerWorker.NonIterableGetsErrorObject | backend/services/summarization/summarizer.py:83-115 | A JSON scalar makes the worker reply with an error object. That object does not end with `]`, so the channel keeps buffering it. |
| SummarizerWorker.SummarizeText | backend/services/summarization/summarizer.py:28-70 | `summarize_text`: a non-string gives "Error: Invalid input type"; under 10 words the text itself; otherwise the model gets the text cut to 120 words with the computed bounds and timeout, and its outcome becomes the cleaned summary, the first 150 characters plus "...", or "Error summarizing: " and the message. |
| SummarizerWorker.Answer | backend/services/summarization/summarizer.py:84-105 | The reply to one decoded request: for an array, one summary per dictionary element's `content`; for a dictionary or a string, no summaries; for any other value, the "object is not iterable" error. |
| SummarizerWorker.ProcessLine | backend/services/summarization/summarizer.py:76-115 | One iteration of `process_input`: no output for a blank or undecodable line, otherwise the reply line. |
| NewsController.KeepUnblocked | backend/controllers/newsController.js:83-86 | No kept candidate comes from a blocked source. |
| NewsController.KeepUnblockedMembers | backend/controllers/newsController.js:83-86 | A candidate is kept iff it is present and its lower-cased source name is not `dealcatcher.com`. |
| NewsController.KeepUnblockedAppend | backend/controllers/newsController.js:83-86 | The filter keeps the candidates' order: it distributes over concatenation. |
| NewsController.SummariserInputs | backend/controllers/newsController.js:94-96 | One text per kept candidate, in order: the title (a null title prints as "null"), a space, then the description or "". |
| NewsController.MergeSummary | backend/controllers/newsController.js:98-100 | The merged summary is `summaries[i]` when that is truthy, else the description, else "No summary available.". It is never falsy. |
| NewsController.ToRecord | backend/controllers/newsController.js:107-114 | A record keeps the candidate's url and a truthy summary. Its image is never "". It carries no keywords and no relevance. |
| NewsController.MergeAll | backend/controllers/newsController.js:98-100 | The `forEach` merges every kept candidate's summary, as `MergeSummary` specifies, in order. |
| NewsController.CollectNew | backend/controllers/newsController.js:103-116 | The check loop builds exactly the records of the candidates whose url was absent from the collection before the loop, in order. |
| NewsController.FetchNewsApi | backend/controllers/newsController.js:58-128 | The collection grows by exactly the records the pipeline builds, appended in order. |
| NewsController.AbortedRunsInsertNothing | backend/controllers/newsController.js:62-96 | Nothing is inserted for a blank or missing URL, a non-OK status, a missing `articles` array, an empty filtered list, or a summariser failure. |
| NewsController.NewRecordsPerUrl | backend/controllers/newsController.js:103-116 | A url already stored gets no new record. Otherwise it gets one record per kept candidate carrying it. |
| NewsController.InBatchDuplicatesBothInserted | backend/controllers/newsController.js:103-121 | All checks happen before the single insert, so two candidates with the same new url are both inserted. |
| NewsController.StringBatchFallsBackToDescriptions | backend/controllers/newsController.js:94-100 | Against the worker as written, the batch of strings comes back as `[]`. Every record then falls back to its description or "No summary available.". |
| NewsController.NewRecords | backend/controllers/newsController.js:103-116 | `newArticles`: in candidate order, one record for each kept candidate whose url the collection did not hold before the loop. Its counts are stated by NewRecordsPerUrl. |
| NewsController.NewsApiInserts | backend/controllers/newsController.js:58-128 | What one run of `fetchNewsAPI` inserts: nothing on a missing url, a failed fetch, a non-OK status, a missing `articles` array, an empty filtered list or a rejected summarisation; otherwise the new records. |
| ArticleStore.ArticleCollection.constructor | backend/controllers/newsController.js:29-32 | The collection starts with the given documents. |
| ArticleStore.ArticleCollection.InsertOne | backend/services/rss_fetcher.py:105 | Appends one document and returns its position as its id. |
| ArticleStore.ArticleCollection.InsertMany | backend/controllers/newsController.js:119-121 | Appends the batch, in order. |
| ArticleStore.SortDescIsSortedPermutation | backend/controllers/newsController.js:169-172 | The descending sort returns a permutation of its input that is sorted by the key. |
| ArticleStore.DbNewsIsAllNewestFirst | backend/controllers/newsController.js:166-178 | `getDbNews` returns every stored article, newest first, with no limit despite the comment. |
| ArticleStore.WithRelevanceKeeps | backend/controllers/newsController.js:187 | A document passes the `$exists` filter iff it has a relevance. |
| ArticleStore.RankedNewsIsTopScored | backend/controllers/newsController.js:184-192 | `getRankedNews` returns min(50, n) of the n stored articles with a relevance, in descending relevance. Every scored article left out scores at most the last one returned, and all are returned when n <= 50. |
| ArticleStore.DbNews | backend/controllers/newsController.js:166-178 | `find().sort({publishedAt: -1})`; stated by DbNewsIsAllNewestFirst. |
| ArticleStore.WithRelevance | backend/controllers/newsController.js:187 | Every document it keeps has a relevance, and it keeps a sub-multiset of the collection. |
| ArticleStore.RankedNews | backend/controllers/newsController.js:184-192 | The scored documents sorted by descending relevance, cut to 50; stated by RankedNewsIsTopScored. |
| NewsRoutes.NewsRouter.constructor | backend/routes/newsRoutes.js:16-19 | The cache starts with no data and timestamp 0. |
| NewsRoutes.NewsRouter.GetNews | backend/routes/newsRoutes.js:27-54 | The reply and the new cache are those of the route's specification function, computed from the old cache. |
| NewsRoutes.NewsRouter.GetNewsRank | backend/routes/newsRoutes.js:59-72 | `/news-rank` answers from the ranked query, or with an error. It neither reads nor writes the cache. |
| NewsRoutes.HitIffFresh | backend/routes/newsRoutes.js:33-38 | The database is left alone iff the cache holds data younger than 60000 ms. A hit returns exactly the cached data and leaves the cache as it was. |
| NewsRoutes.InitialCacheMisses | backend/routes/newsRoutes.js:16-19 | The initial cache always misses. |
| NewsRoutes.StaleAtExactlySixtySeconds | backend/routes/newsRoutes.js:22-35 | At an age of exactly 60000 ms the entry is stale. |
| NewsRoutes.MissRefreshesCache | backend/routes/newsRoutes.js:33-49 | A miss stores the newest-first articles under the time read before the query, and replies with exactly that data. |
| NewsRoutes.DbErrorKeepsCache | backend/routes/newsRoutes.js:50-53 | A failing query leaves the cache unchanged and forwards the error. |
| NewsRoutes.RefreshServesForOneMinute | backend/routes/newsRoutes.js:33-49 | After a refresh, any request in the next 60000 ms is served the same reply without a query. |
| NewsRoutes.ServeNews | backend/routes/newsRoutes.js:27-54 | One `GET /news`: a fresh cache is served as is; otherwise the newest-first articles are read, cached with the time, and served, or the error is forwarded. |
| RssFetcher.ImageUrl | backend/services/rss_fetcher.py:92-93 | The image is the `url` of the first media item, or None when there is no media. |
| RssFetcher.FeedWork | backend/services/rss_fetcher.py:61 | At most `limit` entries of a feed are visited. |
| RssFetcher.WorkBound | backend/services/rss_fetcher.py:57-61 | A run visits at most `limit` entries of each listed feed and none of any other name, so at most `limit` times the number of feeds in all. |
| RssFetcher.VisitEntry | backend/services/rss_fetcher.py:63-107 | One entry: skipped if its link is stored; otherwise built and inserted at once. |
| RssFetcher.VisitFeed | backend/services/rss_fetcher.py:57-107 | The inner loop performs the specification's steps over the feed's first `limit` entries. |
| RssFetcher.FetchRssArticles | backend/services/rss_fetcher.py:45-111 | The collection and the returned list are those of the specification fold over all feeds. |
| RssFetcher.RunScript | backend/services/rss_fetcher.py:115-131 | The exit code and the collection are those of the script's specification function. |
| RssFetcher.FoldSplit | backend/services/rss_fetcher.py:57-61 | Visiting two runs of entries one after the other is the same as visiting their concatenation. |
| RssFetcher.FoldStopped | backend/services/rss_fetcher.py:125-131 | Once an exception has escaped, nothing further happens. |
| RssFetcher.FoldKeepsRunInvariant | backend/services/rss_fetcher.py:57-107 | The stored documents stay a prefix. No document added in the run repeats a non-empty url stored before it. |
| RssFetcher.NoNonEmptyUrlTwice | backend/services/rss_fetcher.py:66-68 | Two documents sharing a url, the later one added by the run, can only share the empty url. |
| RssFetcher.EmptyLinksAlwaysInserted | backend/services/rss_fetcher.py:41-42 | An empty link never counts as existing, so every entry with one is inserted. |
| RssFetcher.RunIsSound | backend/services/rss_fetcher.py:45-111 | A run only appends, at most one document per visited entry. A non-empty link is inserted at most once and never when already stored. A run that ends normally has inserted every empty-link entry and holds every new non-empty link of a visited entry exactly once. |
| RssFetcher.ScriptRunIsSound | backend/services/rss_fetcher.py:115-131 | With the import repaired, the script exits 0 or 1 and adds at most 20 documents per feed. On exit 0 every visited entry with a new link is stored exactly once, and every entry without a link is inserted. |
| RssFetcher.ImportFailsAsWritten | backend/services/rss_fetcher.py:21 | As written, the import of `extract_keywords` fails. The script exits 1 and inserts nothing. |
| RssFetcher.ReturnedListIsInserted | backend/services/rss_fetcher.py:105-111 | The returned list is exactly the inserted documents, in insertion order, each with its id. |
| RssFetcher.MissingSummaryStoredEmpty | backend/services/rss_fetcher.py:87-89 | An entry without a summary is stored with the summary "". |
| RssFetcher.PublishedAt | backend/services/rss_fetcher.py:73-84 | The parsed publication date, or the current time when the entry has none, an empty one, or one that does not parse. |
| RssFetcher.EntryDoc | backend/services/rss_fetcher.py:70-103 | The document of a new entry: its title or "No Title", its link or "", the feed name, the date, the summarised summary, the first media url and the keywords. |
| RssFetcher.Step | backend/services/rss_fetcher.py:63-107 | One entry: nothing once stopped or when its link is stored; the run stops when the keyword extractor raises; otherwise the document is inserted and returned. |
| RssFetcher.Fold | backend/services/rss_fetcher.py:57-107 | The entries visited in order, each by Step. |
| RssFetcher.ScriptOutcome | backend/services/rss_fetcher.py:115-131 | The exit status (1 when an exception escaped, else 0) and the collection after the run. |
| ImportNews.MakeRow | scripts/importnews.js:33-43 | A row is built iff the article has a source object and a parseable date. It keeps the url. Its source and category are non-empty, and its content is never "". |
| ImportNews.NewsTable.constructor | scripts/importnews.js:6 | The table starts with the given rows. |
| ImportNews.NewsTable.Create | scripts/importnews.js:33-43 | A row is appended exactly when the database accepts it. |
| ImportNews.RunImport | scripts/importnews.js:6-58 | The table after the loop is the specification's, and the exit code is always 0. |
| ImportNews.ImportAddsNoRepeatedUrl | scripts/importnews.js:20-43 | The run only appends, at most one row per article, and no added row repeats an earlier url, so a url repeated within one batch is inserted at most once. Every article whose row is built and accepted has its url in the table afterwards. |
| ImportNews.FailureIsIsolated | scripts/importnews.js:46-48 | A failing article changes nothing, and the loop continues as if it had not been there. |
| ImportNews.NothingToImport | scripts/importnews.js:13-16 | A failed fetch, or a response with no or empty `articles`, leaves the table as it was. |
| ImportNews.ImportStep | scripts/importnews.js:20-48 | One article: skipped when its url is taken; otherwise its row is created when it can be built and the database accepts it, and a failure changes nothing. |
| ImportNews.ImportAll | scripts/importnews.js:20-49 | The articles visited in order, each by ImportStep. |
| ImportNews.ImportRun | scripts/importnews.js:6-58 | The table after the script: unchanged after a failed fetch or without articles, otherwise after ImportAll. |
| SignupApi.Counted | frontend/pages/api/auth/signup.js:22-35 | A missing or expired window restarts at count 1, expiring 15 minutes later. A live window counts one more. |
| SignupApi.SignupHandler.constructor | frontend/pages/api/auth/signup.js:10-12 | The limiter starts empty. |
| SignupApi.SignupHandler.Handle | frontend/pages/api/auth/signup.js:14-101 | The response and the new limiter and users state are those of the handler's specification. |
| SignupApi.NonPostIsNotCounted | frontend/pages/api/auth/signup.js:16-18 | A non-POST request gets 405 and changes no state. |
| SignupApi.EveryPostIsCounted | frontend/pages/api/auth/signup.js:23-42 | Every POST increments its IP's count, including requests later rejected. Other IPs are untouched. The answer is 429 iff the count exceeds 5. |
| SignupApi.AtMostFivePerWindow | frontend/pages/api/auth/signup.js:7-42 | From a window's start, at most 5 requests from one IP pass the limiter within the 15 minutes. |
| SignupApi.CreatedExactlyWhenValid | frontend/pages/api/auth/signup.js:44-97 | 201 iff: the request is a counted POST within the limit; all three fields are present; the normalised email is valid and unused; the password is strong; and the database is up. Exactly then the user is stored under the normalised email with the hashed password. Otherwise the users are untouched. A POST within the limit with a missing field gets 400 "All fields are required"; a valid one for a stored email gets 400 "User already exists". |
| SignupApi.WeakPasswordRefused | frontend/pages/api/auth/signup.js:60-67 | A password shorter than 8, or one without a digit, is refused with 400. |
| SignupApi.NormalisedEmailIsCanonical | frontend/pages/api/auth/signup.js:53 | The normalised email has no upper-case letter and no surrounding whitespace. |
| SignupApi.ClientIp | frontend/pages/api/auth/signup.js:20 | The limiter key: `x-forwarded-for`, else the socket address, else "unknown", each only when non-empty. |
| SignupApi.StrongPassword | frontend/pages/api/auth/signup.js:60-67 | At least 8 UTF-16 code units and an ASCII digit. |
| SignupApi.Register | frontend/pages/api/auth/signup.js:44-97 | The checks after the limiter, in the source's order: fields, email format, password, database, existing user, then creation; stated by CreatedExactlyWhenValid. |
| SignupApi.Signup | frontend/pages/api/auth/signup.js:14-101 | The whole handler: 405 for a non-POST, counting, 429 over the limit, then Register. |
| NewsRankApi.AttemptError | frontend/pages/api/news-rank.js:45-57 | An attempt fails iff it threw or answered a non-array. A non-array gives an error with neither code nor status. |
| NewsRankApi.WaitMs | frontend/pages/api/news-rank.js:75 | The wait is never longer than 15000 ms. |
| NewsRankApi.FetchRanking | frontend/pages/api/news-rank.js:36-85 | The attempt loop returns the result, the waits and the number of calls of the retry specification. |
| NewsRankApi.RetryBounds | frontend/pages/api/news-rank.js:36-85 | At most `maxRetries` calls are made. The i-th wait is `min(delay * attempt, 15000)`. Giving up happens only after every attempt has been made. |
| NewsRankApi.FatalErrorIsRethrown | frontend/pages/api/news-rank.js:66-81 | An error that is not retryable is rethrown at once, after one call and no wait. |
| NewsRankApi.TransientFailuresExhaust | frontend/pages/api/news-rank.js:67-84 | When every attempt fails with ENOTFOUND, ECONNRESET, ETIMEDOUT or 503, the loop ends by giving up. |
| NewsRankApi.HandlerRetriesThreeTimes | frontend/pages/api/news-rank.js:155 | With the handler's settings, persistent timeouts mean three calls, waits of 5000, 10000 and 15000 ms, then giving up. |
| NewsRankApi.Redis.constructor | frontend/pages/api/news-rank.js:8-9 | Redis starts empty. |
| NewsRankApi.Redis.Incr | frontend/pages/api/news-rank.js:22-23 | INCR returns the old counter plus one and stores it. |
| NewsRankApi.Redis.Expire | frontend/pages/api/news-rank.js:24-27 | EXPIRE records the key's time-to-live. |
| NewsRankApi.Redis.SetRanked | frontend/pages/api/news-rank.js:170-175 | SET with EX stores the value and its time-to-live. |
| NewsRankApi.IsRateLimited | frontend/pages/api/news-rank.js:18-31 | The limiter's new Redis state and verdict are those of its specification. |
| NewsRankApi.RateLimitRule | frontend/pages/api/news-rank.js:18-31 | Every call increments the counter. The expiry is set to 300 s only when the counter becomes 1. A request is limited iff the counter exceeds 10. |
| NewsRankApi.AtMostTenPerWindow | frontend/pages/api/news-rank.js:18-31 | Within one counter's lifetime, at most 10 requests are admitted. |
| NewsRankApi.Handle | frontend/pages/api/news-rank.js:90-182 | The status, body, Redis state and number of model calls are those of the handler's specification. |
| NewsRankApi.GuardsComeFirst | frontend/pages/api/news-rank.js:91-108 | Non-GET gives 405, then no session gives 401, then rate-limited gives 429. None of them calls the model or touches the cache. |
| NewsRankApi.CacheHitSkipsRanking | frontend/pages/api/news-rank.js:127-132 | A cache hit returns the cached list with 200 and makes no call. |
| NewsRankApi.NoRecentArticlesSkipsRanking | frontend/pages/api/news-rank.js:135-147 | When no article is from the last 72 hours, the reply is 200 with `[]` and no call is made. |
| NewsRankApi.Recent | frontend/pages/api/news-rank.js:135-143 | An article is kept iff it was published within the last 72 hours. |
| NewsRankApi.RankTexts | frontend/pages/api/news-rank.js:150-152 | One "title - summary" text per article, in order. |
| NewsRankApi.Attach | frontend/pages/api/news-rank.js:160-165 | Each article is kept in order, and its relevance is the score at its index when there is one. |
| NewsRankApi.RankedReplyIsCached | frontend/pages/api/news-rank.js:135-181 | At most 3 calls are made. A non-empty 200 reply holds only recent stored articles and is cached with a 600 s ttl. Any other outcome is 500 and leaves the cache as it was. |
| NewsRankApi.PromptMentionsEveryPreference | frontend/pages/api/news-rank.js:121-124 | Every category and keyword appears in the prompt. |
| NewsRankApi.RetryFrom | frontend/pages/api/news-rank.js:36-85 | The attempts from a given one on: success returns the scores; a retryable error waits and tries again while attempts remain; any other error is rethrown; and past the last attempt the loop gives up. |
| NewsRankApi.RateLimit | frontend/pages/api/news-rank.js:18-31 | INCR of the user's counter, EXPIRE 300 only when it becomes 1, and refusal when it exceeds 10. |
| NewsRankApi.Prompt | frontend/pages/api/news-rank.js:121-124 | "Categories: " and the categories joined by spaces, then "; Keywords: " and the keywords joined by spaces. |
| NewsRankApi.RankText | frontend/pages/api/news-rank.js:150-152 | The title (a null title prints as "null"), a space, and the summary or "". |
| NewsRankApi.RankHandler | frontend/pages/api/news-rank.js:90-182 | The whole handler: the method, session and rate-limit guards, the cache lookup, the recent articles, the retried ranking call, and the cached reply. |
| PreferencesPage.Without | frontend/pages/preferences.js:98-100 | The filter removes exactly the given value and never grows the list. |
| PreferencesPage.PreferencesPage.constructor | frontend/pages/preferences.js:14-18 | The page starts with no categories, no keywords, an empty input and no message. |
| PreferencesPage.PreferencesPage.ToggleCategory | frontend/pages/preferences.js:96-102 | Only the category list changes, to its toggled value. |
| PreferencesPage.PreferencesPage.AddTag | frontend/pages/preferences.js:105-111 | Only the keywords and the input change, to their `addKeyword` values. |
| PreferencesPage.PreferencesPage.RemoveTag | frontend/pages/preferences.js:114-116 | Only the keywords change, to their `removeKeyword` value. |
| PreferencesPage.PreferencesPage.FetchPreferences | frontend/pages/preferences.js:22-64 | Signed out, a failed GET, or unreadable local storage: nothing changes. Otherwise the page shows the resolved copy, posts the local copy or stores the database copy as the resolution says, and does nothing else. |
| PreferencesPage.PreferencesPage.AutoSave | frontend/pages/preferences.js:70-93 | Always writes `{categories, keywords, updatedAt}` locally. Posts the same payload only when signed in. The message reports the outcome of the POST. |
| PreferencesPage.ToggleFlipsMembership | frontend/pages/preferences.js:96-102 | Toggling flips the category's membership and leaves every other category's membership alone. An absent category is appended at the end. |
| PreferencesPage.ToggleTwiceRestores | frontend/pages/preferences.js:96-102 | Toggling an absent category twice gives back the original list. |
| PreferencesPage.AddKeywordRule | frontend/pages/preferences.js:105-111 | A keyword is added and the input cleared iff the trimmed input is non-empty and new; otherwise both stay as they were. A duplicate-free list stays duplicate-free. |
| PreferencesPage.RemoveUndoesAdd | frontend/pages/preferences.js:105-116 | Removing a keyword just added gives back the list it was added to. |
| PreferencesPage.RemoveKeywordRule | frontend/pages/preferences.js:114-116 | Every copy of the tag is removed and every other keyword is kept. |
| PreferencesPage.NewerCopyWins | frontend/pages/preferences.js:31-51 | With both copies dated, the local copy is shown and posted iff it is strictly newer. A tie goes to the database copy, which is then written locally. |
| PreferencesPage.SingleCopyIsUsed | frontend/pages/preferences.js:52-59 | With only local preferences (or no date to compare), local is shown and nothing is written. With only database preferences, they are shown and stored locally. |
| PreferencesPage.ResolutionNeverGoesBack | frontend/pages/preferences.js:31-59 | A POST happens only for a strictly newer local copy. A local write only ever stores a database copy that is not older. |
| PreferencesPage.Toggle | frontend/pages/preferences.js:96-102 | `toggleCategory`: a selected category is filtered out, an unselected one appended. |
| PreferencesPage.AddKeyword | frontend/pages/preferences.js:105-111 | `addKeyword`: the trimmed input is appended and the input cleared when it is non-empty and new; otherwise nothing changes. |
| PreferencesPage.Resolve | frontend/pages/preferences.js:31-59 | Which copy `fetchPreferences` shows, and whether it posts the local copy or stores the database copy locally. |
| PreferencesPage.WithoutAppend | frontend/pages/preferences.js:114-116 | Filtering a list extended by one element filters the list and keeps the new element unless it is the one removed, so the rest keep their order. |
| HomePage.RemoveAt | frontend/pages/index.js:34-36 | Taking one element out keeps the rest as a multiset. |
| HomePage.Shuffle | frontend/pages/index.js:35 | The random-comparator sort yields a permutation of the array. |
| HomePage.PickIsDistinctSubset | frontend/pages/index.js:34-37 | `pickRandomCategories` returns min(n, length) distinct members of the array. |
| HomePage.VisitorGetsThreeDistinctDefaults | frontend/pages/index.js:21-37 | A signed-out visitor gets 3 distinct default categories. |
| HomePage.DefaultsDistinct | frontend/pages/index.js:21-31 | The nine default categories are pairwise distinct. |
| HomePage.Carousel | frontend/pages/index.js:75-80 | An article is in a category's carousel iff it is in the latest list and its present category equals the name, ignoring case. |
| HomePage.Carousels | frontend/pages/index.js:74-81 | One carousel per chosen category, in category order. |
| HomePage.CarouselIsOrderedFilter | frontend/pages/index.js:75-80 | A carousel keeps the latest list's order: it distributes over concatenation. |
| HomePage.UncategorisedInNoCarousel | frontend/pages/index.js:77 | An article without a category appears in no carousel. |
| HomePage.CaseDoesNotMatter | frontend/pages/index.js:78-79 | Category names that differ only in case get the same carousel. |
| HomePage.DisplayedIsCappedPrefix | frontend/pages/index.js:172-174 | A carousel shows the first min(8, n) articles, and none for a missing list. |
| HomePage.FetchDataShape | frontend/pages/index.js:41-82 | After a successful fetch the carousels match the chosen categories one for one. AI-ranked news is non-empty only when signed in with ranking enabled. Visitors get 3 categories and signed-in users their own. |
| HomePage.FailureKeepsCarousels | frontend/pages/index.js:83-86 | A failing request sets the error message and leaves the carousels and the categories as they were. |
| HomePage.PickRandomCategories | frontend/pages/index.js:34-37 | The first n of the shuffled array; stated by PickIsDistinctSubset. |
| HomePage.Displayed | frontend/pages/index.js:172-174 | The first 8 articles of a list, or none for a missing list. |
| HomePage.FetchData | frontend/pages/index.js:41-86 | One run of `fetchData`: latest news, then AI news when wanted, then the categories and their carousels, stopping with the error message at the first request that throws. |

## Left out

- Process spawning, pipes, `cron.schedule`, `setTimeout` and `clearTimeout` are left out. Timers are explicit `Timer` events; the cron schedule and the debounces are not modelled.
- The Express, Next.js and React wiring is left out (`res.json`, hooks, rendering, `next(error)` beyond an outcome tag), as are the UI-only pages and thin wrappers around single Prisma calls.
- Floating point: Hugging Face scores are opaque JSON values. The relevance sort of the ranked reply (news-rank.js:160-165) is not modelled, and stored relevance is an integer.
- `elapsed_time`, `html.unescape` and the transformers pipeline are left out. The model's outcome is a parameter.
- SummarizerWorker.ReplyLine: `json.dumps` with its default `ensure_ascii` escapes non-ASCII characters as `\uXXXX`. The model escapes only quotes, backslashes and control characters. The reply is still one line, which is what the properties rely on.
- SummarizerWorker.Answer: JSON numbers are integers. A request that is a JSON float such as `1.5` would get "'float' object is not iterable" in Python; the model cannot express that input.
- SummarizerWorker.ArrayAnswer: summaries are listed in submission order. `as_completed` returns them in completion order, which is a concurrency concern.
- ArticleStore.DbNewsIsAllNewestFirst: the order among documents with equal `publishedAt` is the insertion sort's. MongoDB leaves it unspecified.
- ArticleStore.ArticleCollection.InsertOne: MongoDB's `ObjectId` is modelled as the document's position, and the serialised id is that number.
- NewsController.SummariserInputs: a null title prints as "null". A candidate with no `title` key at all would print "undefined"; NewsAPI sends null, so the model has no separate absent title.
- NewsController.NewRecordsPerUrl: `findOne({url})` with an undefined url matches a stored document without a url, like any other value. Query semantics beyond equality on the url are not modelled.
- NewsController.FetchNewsApi: `axios-retry` and the `fetch` call are collapsed into one response datatype. `new Date(publishedAt)` is taken as an integer that is always valid.
- RssFetcher: the first loop over the feeds only parses and prints, so only its parsing is kept. The keyword extractor is a parameter, because summarizer.py does not define it (see Findings).
- Dates are integers throughout. A date that JavaScript parses to `Invalid Date` is modelled as a failed parse in scripts/importnews.js. In frontend/pages/preferences.js the dates are compared as given, and the NaN comparisons of invalid dates are not modelled.
- Case folding and whitespace are ASCII-only. `toLowerCase` and `trim` on other Unicode characters are not modelled. Python's `str.strip` and `str.split` in summarizer.py also count the separators \x1c to \x1f as whitespace; the model does not, so Python splits and strips at such a character where the model keeps it.
- SignupApi.Counted: requires `now > 0`, which `Date.now()` always satisfies: an unknown IP's default expiry of 0 then always counts as expired, as the source intends.
- SignupApi.Signup: a body field of a type other than string, or a missing request body, would throw in the source and give 500. The model takes every field as an optional string.
- SignupApi: `bcrypt.hash` and `validator.isEmail` are parameters. A database failure at any point is one flag that yields 500.
- NewsRankApi: Redis expiry is recorded as a ttl per key, not as time passing. The cached list is stored as a value, so the `JSON.stringify`/`JSON.parse` round trip is taken as the identity.
- NewsRankApi.Recent: Prisma's `orderBy publishedAt desc` is left out. The recent articles keep table order.
- NewsRankApi.Handle: the session's email stands for `session.user.email`. A missing user or preferences row, and any Prisma failure, are one case that yields 500.
- NewsRankApi.FetchRanking: the waits are recorded, not slept.
- PreferencesPage.AutoSave: the 2-second clearing of "Preferences saved." and the 500 ms debounce are left out.
- PreferencesPage.PreferencesPage.FetchPreferences: a failed POST of the newer local copy is caught by the same `catch`. The model records the POST as made and still shows the local copy, which the source has already set before the POST.
- HomePage.Shuffle: `sort(() => 0.5 - Math.random())` is modelled as a shuffle driven by a sequence of picks. The distribution of the JavaScript sort with a random comparator is not modelled; only that it permutes.
- HomePage: rendering, dark mode and the `NewsCard` component are left out.
- SummarizerWorker.DynamicTimeout: the 3 to 9 range is proved, but because the text is cut to 120 words first, the value is always 3 (TimeoutIsAlwaysThree). The longer timeouts are unreachable as written.

## Findings

| source | as written | input that shows it | evidently intended | confidence | as-written member | corrected member |
|---|---|---|---|---|---|---|
| backend/services/rss_fetcher.py:21 | `from services.summarization.summarizer import summarize_text as generate_summary, extract_keywords`, but summarizer.py defines no `extract_keywords` | any run of the script: the import raises `ImportError` before `main` | an existing keyword extractor is imported, and the run stores every new feed entry once | not executed | RssFetcher.ImportFailsAsWritten | RssFetcher.ScriptRunIsSound |
