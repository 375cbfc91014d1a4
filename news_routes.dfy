/*
 * The Express routes of backend/routes/newsRoutes.js: `GET /news`, served
 * through a one-entry in-memory cache that lives for 60 seconds, and
 * `GET /news-rank`, which goes to the collection every time.
 *
 * `Date.now()` is the parameter `now`; whether the database query throws is
 * the parameter `dbUp`; whether the authentication middleware let the
 * request through is `authenticated`.
 */
module NewsRoutes {
  import opened Common
  import opened ArticleStore

  const CACHE_DURATION_MS: int := 60 * 1000

  /** The module-level `newsCache` record; `data` holds the `articles` of
      `{ articles }`, or None for `null`. */
  datatype CacheState = CacheState(data: Option<seq<Doc>>, timestamp: int)

  /** What the handler did with the response. */
  datatype NewsReply =
    | Served(articles: seq<Doc>)  // res.json({ articles })
    | Forwarded                   // next(error)

  datatype RankReply =
    | Ranked(articles: seq<Doc>)  // res.json({ articles })
    | ServerError                 // status 500, "Error fetching ranked news"
    | Unauthorized                // status 401 from the middleware

  /** The result of one `GET /news`: the reply, the new cache, and whether
      `getDbNews` was called. */
  datatype NewsOutcome = NewsOutcome(reply: NewsReply, cache: CacheState, queried: bool)

  const INITIAL_CACHE: CacheState := CacheState(None, 0)

  /** The cached entry may be served at time `now`. */
  predicate Fresh(c: CacheState, now: int)
  {
    c.data.Some? && now - c.timestamp < CACHE_DURATION_MS
  }

  /** One `GET /news` against a cache `c` and a collection holding `docs`. */
  function ServeNews(c: CacheState, now: int, docs: seq<Doc>, dbUp: bool): NewsOutcome
  {
    if Fresh(c, now) then NewsOutcome(Served(c.data.value), c, false)
    else if !dbUp then NewsOutcome(Forwarded, c, true)
    else
      var articles := DbNews(docs);
      NewsOutcome(Served(articles), CacheState(Some(articles), now), true)
  }

  class NewsRouter {
    var newsCache: CacheState

    constructor ()
      ensures newsCache == INITIAL_CACHE
    {
      newsCache := CacheState(None, 0);
    }

    /** `GET /news`. */
    method GetNews(now: int, store: ArticleCollection, dbUp: bool) returns (reply: NewsReply, queried: bool)
      modifies this
      ensures NewsOutcome(reply, newsCache, queried) == ServeNews(old(newsCache), now, store.docs, dbUp)
    {
      if newsCache.data.Some? && now - newsCache.timestamp < CACHE_DURATION_MS {
        return Served(newsCache.data.value), false;
      }
      queried := true;
      if !dbUp {
        return Forwarded, queried;
      }
      var articles := DbNews(store.docs);
      newsCache := CacheState(Some(articles), now);
      reply := Served(articles);
    }

    /** `GET /news-rank`: it has no access to `newsCache`, which it can
        therefore neither serve from nor change. */
    method GetNewsRank(authenticated: bool, store: ArticleCollection, dbUp: bool) returns (reply: RankReply)
      ensures reply == if !authenticated then Unauthorized
                       else if dbUp then Ranked(RankedNews(store.docs))
                       else ServerError
    {
      if !authenticated {
        return Unauthorized;
      }
      if !dbUp {
        return ServerError;
      }
      reply := Ranked(RankedNews(store.docs));
    }
  }

  // ------------------------------------------------------------ properties

  /** A request is answered from the cache, without a database query and
      without changing the cache, exactly when the entry is present and
      younger than 60 seconds. */
  lemma HitIffFresh(c: CacheState, now: int, docs: seq<Doc>, dbUp: bool)
    ensures var o := ServeNews(c, now, docs, dbUp);
      (!o.queried <==> Fresh(c, now))
      && (!o.queried ==> o.reply == Served(c.data.value) && o.cache == c)
  {
  }

  /** The initial cache never answers. */
  lemma InitialCacheMisses(now: int, docs: seq<Doc>, dbUp: bool)
    ensures ServeNews(INITIAL_CACHE, now, docs, dbUp).queried
  {
  }

  /** An entry exactly 60000 ms old is stale. */
  lemma StaleAtExactlySixtySeconds(c: CacheState, docs: seq<Doc>, dbUp: bool)
    ensures ServeNews(c, c.timestamp + CACHE_DURATION_MS, docs, dbUp).queried
  {
  }

  /** On a miss with the database up, the reply is the collection newest
      first, and the cache holds that reply, stamped with the time read
      before the query. */
  lemma MissRefreshesCache(c: CacheState, now: int, docs: seq<Doc>)
    requires !Fresh(c, now)
    ensures var o := ServeNews(c, now, docs, true);
      && o.reply == Served(DbNews(docs))
      && o.cache == CacheState(Some(DbNews(docs)), now)
      && multiset(o.reply.articles) == multiset(docs)
      && SortedDesc(o.reply.articles, PublishedKey)
  {
    DbNewsIsAllNewestFirst(docs);
  }

  /** When the query throws, the error goes to `next` and the cache is unchanged. */
  lemma DbErrorKeepsCache(c: CacheState, now: int, docs: seq<Doc>)
    requires !Fresh(c, now)
    ensures ServeNews(c, now, docs, false) == NewsOutcome(Forwarded, c, true)
  {
  }

  /** After a refresh at time `t`, every request during the next 60 seconds
      gets the same articles without a query, even if the collection has
      changed or the database is down in the meantime. */
  lemma RefreshServesForOneMinute(c: CacheState, t: int, docs: seq<Doc>, later: int, docs': seq<Doc>, dbUp': bool)
    requires !Fresh(c, t)
    requires t <= later < t + CACHE_DURATION_MS
    ensures var first := ServeNews(c, t, docs, true);
      var second := ServeNews(first.cache, later, docs', dbUp');
      !second.queried && second.reply == first.reply && second.cache == first.cache
  {
    var first := ServeNews(c, t, docs, true);
    assert first.cache == CacheState(Some(DbNews(docs)), t);
    assert Fresh(first.cache, later);
  }
}
