/*
 * The personalised ranking route frontend/pages/api/news-rank.js: method
 * and session guards, a per-user request counter kept in Redis, a cached
 * ranking per user, and the call to the Hugging Face sentence-similarity
 * API with its retry policy.
 *
 * The Redis keys the route touches are the fields of class `Redis`; the
 * session lookup is the parameter `session` (the e-mail of the signed-in
 * user); the user's preference row is `prefs`; the `newsArticle` table is
 * `rows`; `Date.now()` is `now`; what axios.post returns or throws on each
 * attempt is the parameter `call`.
 */
module NewsRankApi {
  import opened Common

  const RATE_LIMIT: nat := 10
  const RATE_WINDOW_S: int := 300
  const RANKED_TTL_S: int := 600
  const RECENT_MS: int := 3 * 24 * 60 * 60 * 1000
  const MAX_RETRIES: int := 3
  const RETRY_DELAY_MS: int := 5000
  const MAX_WAIT_MS: int := 15000

  const INVALID_FORMAT: string := "Invalid response format from Hugging Face API"
  const GAVE_UP: string := "Hugging Face API failed after multiple attempts"
  const METHOD_NOT_ALLOWED: string := "Method Not Allowed"
  const UNAUTHORIZED: string := "Unauthorized"
  const TOO_MANY_REQUESTS: string := "Too many requests, please try again later."
  const INTERNAL_ERROR: string := "Internal Server Error"

  // ------------------------------------------------------------ retry policy

  /** What the ranking call throws: an axios error carries a `code` for a
      network failure and a `response.status` for an HTTP one. */
  datatype HfError = HfError(code: Option<string>, status: Option<int>, message: string)

  /** The outcome of one axios.post. */
  datatype CallOutcome =
    | Responded(data: Json)
    | Failed(error: HfError)

  datatype Ranking =
    | Scores(scores: seq<Json>)
    | Thrown(error: HfError)  // an attempt's own error, rethrown
    | GaveUp                  // "failed after multiple attempts"

  /** The result of `fetchHuggingFaceRanking`, the waits it slept, in order,
      and how many calls it made. */
  datatype RetryRun = RetryRun(result: Ranking, waits: seq<int>, calls: nat)

  const INVALID_FORMAT_ERROR: HfError := HfError(None, None, INVALID_FORMAT)

  /** The error an attempt ends with, or None when it returns the data: a
      response that is not an array raises an error without code or status. */
  function AttemptError(o: CallOutcome): (e: Option<HfError>)
    ensures e.None? <==> o.Responded? && o.data.JArr?
    ensures o.Responded? && !o.data.JArr? ==> e == Some(INVALID_FORMAT_ERROR)
  {
    match o
    case Responded(JArr(_)) => None
    case Responded(_) => Some(INVALID_FORMAT_ERROR)
    case Failed(error) => Some(error)
  }

  predicate ShouldRetry(e: HfError, attempt: int, maxRetries: int)
  {
    || e.code == Some("ENOTFOUND")
    || e.code == Some("ECONNRESET")
    || e.code == Some("ETIMEDOUT")
    || e.status == Some(503)
    || (e.status == Some(429) && attempt < maxRetries)
  }

  function WaitMs(delay: int, attempt: int): (w: int)
    ensures w <= MAX_WAIT_MS
  {
    if delay * attempt < MAX_WAIT_MS then delay * attempt else MAX_WAIT_MS
  }

  /** The attempts from `attempt` up to `maxRetries`. */
  function RetryFrom(call: int -> CallOutcome, maxRetries: int, delay: int, attempt: int): RetryRun
    decreases if attempt <= maxRetries then maxRetries - attempt + 1 else 0
  {
    if attempt > maxRetries then RetryRun(GaveUp, [], 0)
    else match AttemptError(call(attempt))
      case None => RetryRun(Scores(call(attempt).data.items), [], 1)
      case Some(e) =>
        if ShouldRetry(e, attempt, maxRetries) then
          var rest := RetryFrom(call, maxRetries, delay, attempt + 1);
          RetryRun(rest.result, [WaitMs(delay, attempt)] + rest.waits, rest.calls + 1)
        else RetryRun(Thrown(e), [], 1)
  }

  /** `fetchHuggingFaceRanking(texts, prompt, maxRetries, delay)`; `call`
      already has the texts and the prompt applied. */
  method FetchRanking(call: int -> CallOutcome, maxRetries: int, delay: int) returns (run: RetryRun)
    ensures run == RetryFrom(call, maxRetries, delay, 1)
  {
    var attempt := 1;
    var waits: seq<int> := [];
    var calls := 0;
    while attempt <= maxRetries
      invariant 1 <= attempt
      invariant var rest := RetryFrom(call, maxRetries, delay, attempt);
        RetryFrom(call, maxRetries, delay, 1) == RetryRun(rest.result, waits + rest.waits, calls + rest.calls)
      decreases maxRetries - attempt + 1
    {
      var response := call(attempt);
      calls := calls + 1;
      if response.Responded? && response.data.JArr? {
        return RetryRun(Scores(response.data.items), waits, calls);
      }
      var error := if response.Responded? then INVALID_FORMAT_ERROR else response.error;
      var shouldRetry := ShouldRetry(error, attempt, maxRetries);
      if !shouldRetry {
        return RetryRun(Thrown(error), waits, calls);
      }
      waits := waits + [WaitMs(delay, attempt)];
      attempt := attempt + 1;
    }
    run := RetryRun(GaveUp, waits, calls);
  }

  /** At most one call per attempt number left, a wait only before a
      further attempt or before giving up, each wait `min(delay * attempt,
      15000)`, and giving up only after every attempt was retried. */
  lemma {:induction false} RetryBounds(call: int -> CallOutcome, maxRetries: int, delay: int, attempt: int)
    ensures var run := RetryFrom(call, maxRetries, delay, attempt);
      var left := if attempt <= maxRetries then maxRetries - attempt + 1 else 0;
      && run.calls <= left
      && |run.waits| <= run.calls
      && (forall i :: 0 <= i < |run.waits| ==> run.waits[i] == WaitMs(delay, attempt + i))
      && (run.result.GaveUp? ==> run.calls == left && |run.waits| == left)
    decreases if attempt <= maxRetries then maxRetries - attempt + 1 else 0
  {
    if attempt <= maxRetries {
      var e := AttemptError(call(attempt));
      if e.Some? && ShouldRetry(e.value, attempt, maxRetries) {
        RetryBounds(call, maxRetries, delay, attempt + 1);
        var rest := RetryFrom(call, maxRetries, delay, attempt + 1);
        var run := RetryFrom(call, maxRetries, delay, attempt);
        assert run.waits == [WaitMs(delay, attempt)] + rest.waits;
        forall i | 0 <= i < |run.waits| ensures run.waits[i] == WaitMs(delay, attempt + i) {
          if i > 0 {
            assert run.waits[i] == rest.waits[i - 1];
          }
        }
      }
    }
  }

  /** An error that is not worth retrying (including a response that is not
      an array, and a 429 on the last attempt) ends the run at once with
      that error. */
  lemma FatalErrorIsRethrown(call: int -> CallOutcome, maxRetries: int, delay: int, attempt: int)
    requires attempt <= maxRetries
    requires AttemptError(call(attempt)).Some?
    requires !ShouldRetry(AttemptError(call(attempt)).value, attempt, maxRetries)
    ensures RetryFrom(call, maxRetries, delay, attempt)
            == RetryRun(Thrown(AttemptError(call(attempt)).value), [], 1)
  {
  }

  /** A network failure (ENOTFOUND, ECONNRESET, ETIMEDOUT) or a 503 on every
      remaining attempt exhausts the attempts and gives up. */
  lemma {:induction false} TransientFailuresExhaust(call: int -> CallOutcome, maxRetries: int, delay: int, attempt: int)
    requires forall k :: attempt <= k <= maxRetries ==>
      call(k).Failed? && (call(k).error.status == Some(503) || call(k).error.code == Some("ECONNRESET")
                          || call(k).error.code == Some("ENOTFOUND") || call(k).error.code == Some("ETIMEDOUT"))
    ensures RetryFrom(call, maxRetries, delay, attempt).result.GaveUp?
    decreases if attempt <= maxRetries then maxRetries - attempt + 1 else 0
  {
    if attempt <= maxRetries {
      TransientFailuresExhaust(call, maxRetries, delay, attempt + 1);
    }
  }

  /** The handler's settings, when every attempt fails transiently: three
      calls, waits of 5, 10 and 15 seconds, then the "failed after multiple
      attempts" error. */
  lemma HandlerRetriesThreeTimes(call: int -> CallOutcome)
    requires forall k :: 1 <= k <= MAX_RETRIES ==> call(k).Failed? && call(k).error.code == Some("ETIMEDOUT")
    ensures RetryFrom(call, MAX_RETRIES, RETRY_DELAY_MS, 1) == RetryRun(GaveUp, [5000, 10000, 15000], 3)
  {
    TransientFailuresExhaust(call, MAX_RETRIES, RETRY_DELAY_MS, 1);
    RetryBounds(call, MAX_RETRIES, RETRY_DELAY_MS, 1);
    var run := RetryFrom(call, MAX_RETRIES, RETRY_DELAY_MS, 1);
    assert run.waits[0] == 5000 && run.waits[1] == 10000 && run.waits[2] == 15000;
  }

  // ------------------------------------------------------------ the handler

  datatype RankArticle = RankArticle(title: Option<string>, summary: Option<string>, publishedAt: int)

  /** `user.preferences`; a missing list is None. */
  datatype Prefs = Prefs(categories: Option<seq<string>>, keywords: Option<seq<string>>)

  /** An article with the score at its index (None when the API returned
      fewer scores than texts). */
  datatype Scored = Scored(article: RankArticle, relevance: Option<Json>)

  datatype Body =
    | ErrorBody(error: string)
    | Articles(articles: seq<Scored>)

  /** The Redis keys the route uses: the `rl:<email>` counters, the
      `ranked-news:<email>` entries, and the expiry set on each key. */
  datatype RedisState = RedisState(counters: map<string, nat>, ttl: map<string, int>, cached: map<string, seq<Scored>>)

  datatype HandlerOutcome = HandlerOutcome(status: int, body: Body, redis: RedisState, calls: nat)

  function RateKey(email: string): string { "rl:" + email }
  function CacheKey(email: string): string { "ranked-news:" + email }

  /** `isRateLimited(email)`: the new state and whether the request is refused. */
  function RateLimit(r: RedisState, email: string): (RedisState, bool)
  {
    var key := RateKey(email);
    var usage := (if key in r.counters then r.counters[key] else 0) + 1;
    var r' := r.(counters := r.counters[key := usage]);
    if usage == 1 then (r'.(ttl := r'.ttl[key := RATE_WINDOW_S]), usage > RATE_LIMIT)
    else (r', usage > RATE_LIMIT)
  }

  /** `Categories: <categories joined by spaces>; Keywords: <keywords joined by spaces>`. */
  function Prompt(p: Prefs): string
  {
    "Categories: " + Join(OrElse(p.categories, []), " ") + "; Keywords: " + Join(OrElse(p.keywords, []), " ")
  }

  /** The text ranked for one article: its title, a space, and its summary or "". */
  function RankText(a: RankArticle): string
  {
    Template(a.title) + " " + OrStr(a.summary, "")
  }

  function RankTexts(articles: seq<RankArticle>): (texts: seq<string>)
    ensures |texts| == |articles|
    ensures forall i :: 0 <= i < |articles| ==> texts[i] == RankText(articles[i])
  {
    seq(|articles|, i requires 0 <= i < |articles| => RankText(articles[i]))
  }

  /** The articles of the last 72 hours. */
  function Recent(rows: seq<RankArticle>, now: int): (r: seq<RankArticle>)
    ensures forall a :: a in r <==> a in rows && a.publishedAt >= now - RECENT_MS
  {
    if rows == [] then []
    else
      var rest := Recent(rows[1..], now);
      assert forall a :: a in rows <==> a == rows[0] || a in rows[1..];
      if rows[0].publishedAt >= now - RECENT_MS then [rows[0]] + rest else rest
  }

  /** Each article with `relevance: scores[i]`. */
  function Attach(articles: seq<RankArticle>, scores: seq<Json>): (r: seq<Scored>)
    ensures |r| == |articles|
    ensures forall i :: 0 <= i < |r| ==> r[i].article == articles[i]
    ensures forall i :: 0 <= i < |r| ==> r[i].relevance == if i < |scores| then Some(scores[i]) else None
  {
    seq(|articles|, i requires 0 <= i < |articles| => Scored(articles[i], if i < |scores| then Some(scores[i]) else None))
  }

  /** The whole handler; `call(texts, prompt, attempt)` is axios.post on one attempt. */
  function RankHandler(r: RedisState, httpMethod: string, session: Option<string>, prefs: Option<Prefs>,
                       rows: seq<RankArticle>, now: int, call: (seq<string>, string, int) -> CallOutcome): HandlerOutcome
  {
    if httpMethod != "GET" then HandlerOutcome(405, ErrorBody(METHOD_NOT_ALLOWED), r, 0)
    else if session.None? then HandlerOutcome(401, ErrorBody(UNAUTHORIZED), r, 0)
    else
      var email := session.value;
      var (r1, limited) := RateLimit(r, email);
      if limited then HandlerOutcome(429, ErrorBody(TOO_MANY_REQUESTS), r1, 0)
      else if prefs.None? then HandlerOutcome(500, ErrorBody(INTERNAL_ERROR), r1, 0)
      else
        var prompt := Prompt(prefs.value);
        var key := CacheKey(email);
        if key in r1.cached then HandlerOutcome(200, Articles(r1.cached[key]), r1, 0)
        else
          var articles := Recent(rows, now);
          if articles == [] then HandlerOutcome(200, Articles([]), r1, 0)
          else
            var texts := RankTexts(articles);
            var run := RetryFrom(t => call(texts, prompt, t), MAX_RETRIES, RETRY_DELAY_MS, 1);
            match run.result
            case Thrown(_) | GaveUp => HandlerOutcome(500, ErrorBody(INTERNAL_ERROR), r1, run.calls)
            case Scores(scores) =>
              var ranked := Attach(articles, scores);
              HandlerOutcome(200, Articles(ranked),
                             r1.(cached := r1.cached[key := ranked], ttl := r1.ttl[key := RANKED_TTL_S]), run.calls)
  }

  class Redis {
    var counters: map<string, nat>
    var ttl: map<string, int>
    var cached: map<string, seq<Scored>>

    constructor ()
      ensures counters == map[] && ttl == map[] && cached == map[]
    {
      counters := map[];
      ttl := map[];
      cached := map[];
    }

    function State(): RedisState
      reads this
    {
      RedisState(counters, ttl, cached)
    }

    /** INCR: a missing counter counts as 0. */
    method Incr(key: string) returns (usage: nat)
      modifies this
      ensures usage == (if key in old(counters) then old(counters)[key] else 0) + 1
      ensures counters == old(counters)[key := usage] && ttl == old(ttl) && cached == old(cached)
    {
      usage := (if key in counters then counters[key] else 0) + 1;
      counters := counters[key := usage];
    }

    method Expire(key: string, seconds: int)
      modifies this
      ensures ttl == old(ttl)[key := seconds] && counters == old(counters) && cached == old(cached)
    {
      ttl := ttl[key := seconds];
    }

    /** SET key value EX seconds. */
    method SetRanked(key: string, value: seq<Scored>, seconds: int)
      modifies this
      ensures cached == old(cached)[key := value] && ttl == old(ttl)[key := seconds] && counters == old(counters)
    {
      cached := cached[key := value];
      ttl := ttl[key := seconds];
    }
  }

  /** `isRateLimited(email)`. */
  method IsRateLimited(redis: Redis, email: string) returns (limited: bool)
    modifies redis
    ensures (redis.State(), limited) == RateLimit(old(redis.State()), email)
  {
    var key := RateKey(email);
    var usage := redis.Incr(key);
    if usage == 1 {
      redis.Expire(key, RATE_WINDOW_S);
    }
    limited := usage > RATE_LIMIT;
  }

  /** `handler(req, res)`: the status, the JSON body, and how many ranking
      calls were made. */
  method Handle(redis: Redis, httpMethod: string, session: Option<string>, prefs: Option<Prefs>,
                rows: seq<RankArticle>, now: int, call: (seq<string>, string, int) -> CallOutcome)
    returns (status: int, body: Body, calls: nat)
    modifies redis
    ensures HandlerOutcome(status, body, redis.State(), calls)
            == RankHandler(old(redis.State()), httpMethod, session, prefs, rows, now, call)
  {
    calls := 0;
    if httpMethod != "GET" {
      return 405, ErrorBody(METHOD_NOT_ALLOWED), calls;
    }
    if session.None? {
      return 401, ErrorBody(UNAUTHORIZED), calls;
    }
    var email := session.value;
    var isLimited := IsRateLimited(redis, email);
    if isLimited {
      return 429, ErrorBody(TOO_MANY_REQUESTS), calls;
    }
    if prefs.None? {
      return 500, ErrorBody(INTERNAL_ERROR), calls;
    }
    var combinedPrefs := Prompt(prefs.value);
    var cacheKey := CacheKey(email);
    if cacheKey in redis.cached {
      return 200, Articles(redis.cached[cacheKey]), calls;
    }
    var articles := Recent(rows, now);
    if |articles| == 0 {
      return 200, Articles([]), calls;
    }
    var texts := RankTexts(articles);
    var run := FetchRanking(t => call(texts, combinedPrefs, t), MAX_RETRIES, RETRY_DELAY_MS);
    calls := run.calls;
    if !run.result.Scores? {
      return 500, ErrorBody(INTERNAL_ERROR), calls;
    }
    var rankedArticles := Attach(articles, run.result.scores);
    redis.SetRanked(cacheKey, rankedArticles, RANKED_TTL_S);
    status, body := 200, Articles(rankedArticles);
  }

  // ------------------------------------------------------------ properties

  /** A non-GET request, a missing session or a rate-limited user is
      answered before any preference, cache or article work: no ranking
      call, no cache change, and only the user's own counter (and, when it
      was new, its expiry) touched. */
  lemma GuardsComeFirst(r: RedisState, httpMethod: string, session: Option<string>, prefs: Option<Prefs>,
                        rows: seq<RankArticle>, now: int, call: (seq<string>, string, int) -> CallOutcome)
    ensures var o := RankHandler(r, httpMethod, session, prefs, rows, now, call);
      && (httpMethod != "GET" ==> o.status == 405 && o.redis == r)
      && (httpMethod == "GET" && session.None? ==> o.status == 401 && o.redis == r)
      && (httpMethod == "GET" && session.Some? && RateLimit(r, session.value).1 ==>
            o.status == 429 && o.redis == RateLimit(r, session.value).0)
      && (o.status in {405, 401, 429} ==> o.calls == 0 && o.redis.cached == r.cached)
  {
  }

  /** `isRateLimited` adds one to the counter on every call, sets the
      300-second expiry only when the counter becomes 1, and refuses
      exactly when it passes 10. */
  lemma RateLimitRule(r: RedisState, email: string)
    ensures var (r', limited) := RateLimit(r, email);
      var key := RateKey(email);
      var usage := (if key in r.counters then r.counters[key] else 0) + 1;
      && r'.counters == r.counters[key := usage]
      && r'.cached == r.cached
      && (usage == 1 ==> r'.ttl == r.ttl[key := RATE_WINDOW_S])
      && (usage != 1 ==> r'.ttl == r.ttl)
      && (limited <==> usage > RATE_LIMIT)
  {
  }

  /** How many of `n` successive calls for one user are let through while
      the counter does not expire. */
  function Admitted(r: RedisState, email: string, n: nat): nat
    decreases n
  {
    if n == 0 then 0
    else
      var (r', limited) := RateLimit(r, email);
      (if limited then 0 else 1) + Admitted(r', email, n - 1)
  }

  /** From a counter at `c`, at most `10 - c` further requests get through
      before it expires; from a fresh counter, at most 10. */
  lemma {:induction false} AtMostTenPerWindow(r: RedisState, email: string, n: nat)
    ensures var c := if RateKey(email) in r.counters then r.counters[RateKey(email)] else 0;
      Admitted(r, email, n) <= if c >= RATE_LIMIT then 0 else RATE_LIMIT - c
    decreases n
  {
    if n > 0 {
      var (r', limited) := RateLimit(r, email);
      AtMostTenPerWindow(r', email, n - 1);
    }
  }

  /** A cached ranking is returned before the article query, without a
      ranking call and without refreshing the cache. */
  lemma CacheHitSkipsRanking(r: RedisState, email: string, prefs: Prefs, rows: seq<RankArticle>, now: int,
                             call: (seq<string>, string, int) -> CallOutcome)
    requires !RateLimit(r, email).1
    requires CacheKey(email) in r.cached
    ensures RankHandler(r, "GET", Some(email), Some(prefs), rows, now, call)
            == HandlerOutcome(200, Articles(r.cached[CacheKey(email)]), RateLimit(r, email).0, 0)
  {
    assert CacheKey(email) in RateLimit(r, email).0.cached;
  }

  /** Without an article from the last 72 hours the reply is an empty list,
      the ranking API is not called and nothing is cached. */
  lemma NoRecentArticlesSkipsRanking(r: RedisState, email: string, prefs: Prefs, rows: seq<RankArticle>, now: int,
                                     call: (seq<string>, string, int) -> CallOutcome)
    requires !RateLimit(r, email).1
    requires CacheKey(email) !in r.cached
    requires forall i :: 0 <= i < |rows| ==> rows[i].publishedAt < now - RECENT_MS
    ensures RankHandler(r, "GET", Some(email), Some(prefs), rows, now, call)
            == HandlerOutcome(200, Articles([]), RateLimit(r, email).0, 0)
  {
    NothingRecent(rows, now);
  }

  lemma {:induction false} NothingRecent(rows: seq<RankArticle>, now: int)
    requires forall i :: 0 <= i < |rows| ==> rows[i].publishedAt < now - RECENT_MS
    ensures Recent(rows, now) == []
  {
    if rows != [] {
      assert forall i :: 0 <= i < |rows[1..]| ==> rows[1..][i] == rows[i + 1];
      NothingRecent(rows[1..], now);
    }
  }

  /** A successful ranking replies with every recent article, each with the
      score at its position, and caches exactly that reply for 600 seconds;
      a failed one replies 500 and caches nothing. At most three calls are made. */
  lemma RankedReplyIsCached(r: RedisState, email: string, prefs: Prefs, rows: seq<RankArticle>, now: int,
                            call: (seq<string>, string, int) -> CallOutcome)
    requires !RateLimit(r, email).1
    requires CacheKey(email) !in r.cached
    ensures var o := RankHandler(r, "GET", Some(email), Some(prefs), rows, now, call);
      var key := CacheKey(email);
      && o.calls <= MAX_RETRIES
      && (o.status == 200 && o.body.articles != [] ==>
            && o.redis.cached == r.cached[key := o.body.articles]
            && o.redis.ttl[key] == RANKED_TTL_S
            && (forall s :: s in o.body.articles ==> s.article in rows && s.article.publishedAt >= now - RECENT_MS))
      && (o.status != 200 ==> o.status == 500 && o.redis.cached == r.cached)
  {
    var r1 := RateLimit(r, email).0;
    var articles := Recent(rows, now);
    if articles != [] {
      var texts := RankTexts(articles);
      var prompt := Prompt(prefs);
      RetryBounds(t => call(texts, prompt, t), MAX_RETRIES, RETRY_DELAY_MS, 1);
      var run := RetryFrom(t => call(texts, prompt, t), MAX_RETRIES, RETRY_DELAY_MS, 1);
      if run.result.Scores? {
        var ranked := Attach(articles, run.result.scores);
        forall s | s in ranked ensures s.article in rows && s.article.publishedAt >= now - RECENT_MS {
          var i :| 0 <= i < |ranked| && ranked[i] == s;
          assert s.article == articles[i];
        }
      }
    }
  }

  /** Every category and every keyword appears in the ranking prompt. */
  lemma PromptMentionsEveryPreference(p: Prefs, w: string)
    requires w in OrElse(p.categories, []) || w in OrElse(p.keywords, [])
    ensures Contains(Prompt(p), w)
  {
    var cats := Join(OrElse(p.categories, []), " ");
    var kws := Join(OrElse(p.keywords, []), " ");
    var head := "Categories: ";
    var mid := "; Keywords: ";
    assert Prompt(p) == head + cats + mid + kws;
    if w in OrElse(p.categories, []) {
      JoinContainsEach(OrElse(p.categories, []), " ", w);
      ContainsInside(head, cats, mid + kws, w);
      assert head + cats + mid + kws == head + cats + (mid + kws);
    } else {
      JoinContainsEach(OrElse(p.keywords, []), " ", w);
      ContainsInside(head + cats + mid, kws, "", w);
      assert head + cats + mid + kws + "" == Prompt(p);
    }
  }

  lemma {:induction false} JoinContainsEach(ws: seq<string>, sep: string, w: string)
    requires w in ws
    ensures Contains(Join(ws, sep), w)
  {
    if |ws| == 1 {
      assert OccursAt(Join(ws, sep), w, 0);
    } else if ws[0] == w {
      assert Join(ws, sep)[..|w|] == w;
      assert OccursAt(Join(ws, sep), w, 0);
    } else {
      assert w in ws[1..];
      JoinContainsEach(ws[1..], sep, w);
      ContainsInside(ws[0] + sep, Join(ws[1..], sep), "", w);
      assert ws[0] + sep + Join(ws[1..], sep) + "" == Join(ws, sep);
    }
  }

  lemma ContainsInside(a: string, s: string, b: string, w: string)
    requires Contains(s, w)
    ensures Contains(a + s + b, w)
  {
    var i :| 0 <= i <= |s| - |w| && OccursAt(s, w, i);
    var t := a + s + b;
    assert t[|a| + i..|a| + i + |w|] == s[i..i + |w|];
    assert OccursAt(t, w, |a| + i);
  }
}
