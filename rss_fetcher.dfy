/*
 * The RSS ingestion script backend/services/rss_fetcher.py: for each feed in
 * dictionary order, the first `limit` entries are checked against the
 * collection and each new one is summarised and inserted at once, so later
 * checks in the same run see it.
 *
 * feedparser is the parameter `feedEntries` (the entries of the feed at a
 * url); dateutil's parse with the conversion to UTC is `parseDate`; the
 * keyword extractor is `extractKeywords`, which yields None when it raises;
 * the summarisation model is `model`, as in the worker.
 */
module RssFetcher {
  import opened Common
  import opened ArticleStore
  import SummarizerWorker

  const FEED_NAMES: seq<string> := ["The Verge", "TechCrunch", "Engadget"]
  const FEED_URLS: seq<string> := [
    "https://www.theverge.com/rss/index.xml",
    "https://techcrunch.com/feed/",
    "https://www.engadget.com/rss.xml"]
  const FEED_LIMIT: nat := 20
  const NO_TITLE: string := "No Title"

  /** The names summarizer.py defines at module level. */
  const SUMMARIZER_NAMES: set<string> :=
    {"os", "sys", "json", "torch", "html", "time", "concurrent", "pipeline",
     "device", "summarizer", "clean_text", "summarize_text", "process_input"}
  /** The names rss_fetcher.py imports from summarizer.py. */
  const IMPORTED_NAMES: set<string> := {"summarize_text", "extract_keywords"}

  /** One feed entry; None stands for a key the entry lacks. `mediaContent`
      holds, for each media item, the value of its `url` key. */
  datatype Entry = Entry(
    link: Option<string>,
    title: Option<string>,
    published: Option<string>,
    summary: Option<string>,
    mediaContent: Option<seq<Option<string>>>)

  /** A document as the run returns it, with its `_id`. */
  datatype Inserted = Inserted(id: nat, doc: Doc)

  /** The state of one run: the collection, the returned list, and whether
      the run is still going (false once an exception escaped). */
  datatype RunState = RunState(docs: seq<Doc>, articles: seq<Inserted>, ok: bool)

  type Model = (string, SummarizerWorker.Bounds, int) -> SummarizerWorker.ModelOutcome

  /** `article_exists`: an empty url never exists. */
  predicate ArticleExists(docs: seq<Doc>, url: string)
  {
    url != [] && HasUrl(docs, Some(url))
  }

  /** `media_content[0].get("url") if media_content else None`, where a missing
      `media_content` defaults to `[{}]`. */
  function ImageUrl(e: Entry): (u: Option<string>)
    ensures e.mediaContent.None? || e.mediaContent.value == [] ==> u.None?
    ensures e.mediaContent.Some? && e.mediaContent.value != [] ==> u == e.mediaContent.value[0]
  {
    match e.mediaContent
    case None => None
    case Some(items) => if items == [] then None else items[0]
  }

  /** The publication time: the parsed date, else the current time. */
  function PublishedAt(e: Entry, parseDate: string -> Option<int>, now: int): int
  {
    if e.published.None? || e.published.value == [] then now
    else OrElse(parseDate(e.published.value), now)
  }

  /** The document built for a new entry of feed `source`. */
  function EntryDoc(source: string, e: Entry, keywords: seq<string>,
                    parseDate: string -> Option<int>, model: Model, now: int): Doc
  {
    Doc(
      OrElse(e.title, NO_TITLE),
      Some(OrElse(e.link, "")),
      source,
      PublishedAt(e, parseDate, now),
      JStr(SummarizerWorker.SummarizeText(JStr(OrElse(e.summary, "")), model)),
      ImageUrl(e),
      Some(keywords),
      None)
  }

  /** The (feed name, entry) pairs visited for one feed: its first `limit` entries. */
  function FeedWork(source: string, entries: seq<Entry>, limit: nat): (w: seq<(string, Entry)>)
    ensures |w| <= limit
  {
    var batch := if |entries| <= limit then entries else entries[..limit];
    seq(|batch|, i requires 0 <= i < |batch| => (source, batch[i]))
  }

  /** The (feed name, entry) pairs a run visits, in order: the first `limit`
      entries of each feed, feeds in dictionary order. */
  function Work(names: seq<string>, urls: seq<string>, feedEntries: string -> seq<Entry>, limit: nat)
    : (w: seq<(string, Entry)>)
    requires |names| == |urls|
  {
    if names == [] then []
    else FeedWork(names[0], feedEntries(urls[0]), limit) + Work(names[1..], urls[1..], feedEntries, limit)
  }

  /** One iteration of the inner loop. */
  function Step(st: RunState, item: (string, Entry), extractKeywords: string -> Option<seq<string>>,
                parseDate: string -> Option<int>, model: Model, now: int): RunState
  {
    var (source, e) := item;
    var url := OrElse(e.link, "");
    if !st.ok || ArticleExists(st.docs, url) then st
    else match extractKeywords(OrElse(e.summary, ""))
      case None => st.(ok := false)
      case Some(keywords) =>
        var doc := EntryDoc(source, e, keywords, parseDate, model, now);
        RunState(st.docs + [doc], st.articles + [Inserted(|st.docs|, doc)], true)
  }

  /** The state after visiting `items` in order, starting from `st`. */
  function Fold(st: RunState, items: seq<(string, Entry)>, extractKeywords: string -> Option<seq<string>>,
                parseDate: string -> Option<int>, model: Model, now: int): RunState
    decreases |items|
  {
    if items == [] then st
    else Fold(Step(st, items[0], extractKeywords, parseDate, model, now), items[1..],
              extractKeywords, parseDate, model, now)
  }

  /** Once an exception has escaped, nothing further happens. */
  lemma {:induction false} FoldStopped(st: RunState, items: seq<(string, Entry)>,
                                       extractKeywords: string -> Option<seq<string>>,
                                       parseDate: string -> Option<int>, model: Model, now: int)
    requires !st.ok
    ensures Fold(st, items, extractKeywords, parseDate, model, now) == st
  {
    if items != [] {
      FoldStopped(st, items[1..], extractKeywords, parseDate, model, now);
    }
  }

  /** The inner loop's body: check one entry and insert it when it is new. */
  method VisitEntry(store: ArticleCollection, articles: seq<Inserted>, source: string, e: Entry,
                    extractKeywords: string -> Option<seq<string>>,
                    parseDate: string -> Option<int>, model: Model, now: int)
    returns (articles': seq<Inserted>, ok: bool)
    modifies store
    ensures RunState(store.docs, articles', ok)
            == Step(RunState(old(store.docs), articles, true), (source, e), extractKeywords, parseDate, model, now)
  {
    articles' := articles;
    ok := true;
    var url := OrElse(e.link, "");
    var found := ArticleExists(store.docs, url);
    if found {
      return;
    }
    var keywords := extractKeywords(OrElse(e.summary, ""));
    if keywords.None? {
      ok := false;
      return;
    }
    var doc := EntryDoc(source, e, keywords.value, parseDate, model, now);
    var id := store.InsertOne(doc);
    articles' := articles + [Inserted(id, doc)];
  }

  lemma {:induction false} FoldSplit(st: RunState, xs: seq<(string, Entry)>, ys: seq<(string, Entry)>,
                                     extractKeywords: string -> Option<seq<string>>,
                                     parseDate: string -> Option<int>, model: Model, now: int)
    ensures Fold(st, xs + ys, extractKeywords, parseDate, model, now)
            == Fold(Fold(st, xs, extractKeywords, parseDate, model, now), ys, extractKeywords, parseDate, model, now)
    decreases |xs|
  {
    if xs == [] {
      assert xs + ys == ys;
    } else {
      assert (xs + ys)[1..] == xs[1..] + ys;
      FoldSplit(Step(st, xs[0], extractKeywords, parseDate, model, now), xs[1..], ys,
                extractKeywords, parseDate, model, now);
    }
  }

  /** The inner loop over one feed's first `limit` entries. */
  method VisitFeed(store: ArticleCollection, articles: seq<Inserted>, source: string, entries: seq<Entry>,
                   limit: nat, extractKeywords: string -> Option<seq<string>>,
                   parseDate: string -> Option<int>, model: Model, now: int)
    returns (articles': seq<Inserted>, ok: bool)
    modifies store
    ensures RunState(store.docs, articles', ok)
            == Fold(RunState(old(store.docs), articles, true), FeedWork(source, entries, limit),
                    extractKeywords, parseDate, model, now)
  {
    ghost var work := FeedWork(source, entries, limit);
    ghost var target := Fold(RunState(store.docs, articles, true), work, extractKeywords, parseDate, model, now);
    var batch := if |entries| <= limit then entries else entries[..limit];
    articles' := articles;
    ok := true;
    var j := 0;
    while j < |batch|
      invariant 0 <= j <= |batch| == |work|
      invariant Fold(RunState(store.docs, articles', true), work[j..], extractKeywords, parseDate, model, now) == target
    {
      assert work[j..][0] == work[j] == (source, batch[j]);
      assert work[j..][1..] == work[j + 1..];
      articles', ok := VisitEntry(store, articles', source, batch[j], extractKeywords, parseDate, model, now);
      if !ok {
        FoldStopped(RunState(store.docs, articles', ok), work[j + 1..], extractKeywords, parseDate, model, now);
        return;
      }
      j := j + 1;
    }
  }

  /** `fetch_rss_articles(limit)`: returns the inserted documents with their
      ids, and whether the run ended without an exception. */
  method FetchRssArticles(store: ArticleCollection, feedEntries: string -> seq<Entry>, limit: nat,
                          extractKeywords: string -> Option<seq<string>>,
                          parseDate: string -> Option<int>, model: Model, now: int)
    returns (articles: seq<Inserted>, ok: bool)
    modifies store
    ensures var st := Fold(RunState(old(store.docs), [], true), Work(FEED_NAMES, FEED_URLS, feedEntries, limit),
                           extractKeywords, parseDate, model, now);
      store.docs == st.docs && articles == st.articles && ok == st.ok
  {
    ghost var final := Fold(RunState(store.docs, [], true), Work(FEED_NAMES, FEED_URLS, feedEntries, limit),
                            extractKeywords, parseDate, model, now);
    articles := [];
    ok := true;
    var f := 0;
    while f < |FEED_NAMES|
      invariant 0 <= f <= |FEED_NAMES|
      invariant Fold(RunState(store.docs, articles, true), Work(FEED_NAMES[f..], FEED_URLS[f..], feedEntries, limit),
                     extractKeywords, parseDate, model, now) == final
    {
      ghost var before := RunState(store.docs, articles, true);
      ghost var later := Work(FEED_NAMES[f + 1..], FEED_URLS[f + 1..], feedEntries, limit);
      assert FEED_NAMES[f..][1..] == FEED_NAMES[f + 1..] && FEED_URLS[f..][1..] == FEED_URLS[f + 1..];
      assert Work(FEED_NAMES[f..], FEED_URLS[f..], feedEntries, limit)
             == FeedWork(FEED_NAMES[f], feedEntries(FEED_URLS[f]), limit) + later;
      FoldSplit(before, FeedWork(FEED_NAMES[f], feedEntries(FEED_URLS[f]), limit), later,
                extractKeywords, parseDate, model, now);
      articles, ok := VisitFeed(store, articles, FEED_NAMES[f], feedEntries(FEED_URLS[f]), limit,
                                extractKeywords, parseDate, model, now);
      if !ok {
        FoldStopped(RunState(store.docs, articles, ok), later, extractKeywords, parseDate, model, now);
        return;
      }
      f := f + 1;
    }
    assert FEED_NAMES[3..] == [] && FEED_URLS[3..] == [];
  }

  /** The `__main__` block, with the import of line 21 resolving: exit status
      1 when an exception escaped the run, 0 otherwise; documents inserted
      before the exception stay in the collection. */
  function ScriptOutcome(stored: seq<Doc>, feedEntries: string -> seq<Entry>,
                         extractKeywords: string -> Option<seq<string>>,
                         parseDate: string -> Option<int>, model: Model, now: int): (int, seq<Doc>)
  {
    var st := Fold(RunState(stored, [], true), Work(FEED_NAMES, FEED_URLS, feedEntries, FEED_LIMIT),
                   extractKeywords, parseDate, model, now);
    (if st.ok then 0 else 1, st.docs)
  }

  method RunScript(store: ArticleCollection, feedEntries: string -> seq<Entry>,
                   extractKeywords: string -> Option<seq<string>>,
                   parseDate: string -> Option<int>, model: Model, now: int)
    returns (exitCode: int)
    modifies store
    ensures (exitCode, store.docs) == ScriptOutcome(old(store.docs), feedEntries, extractKeywords, parseDate, model, now)
  {
    var articles, ok := FetchRssArticles(store, feedEntries, FEED_LIMIT, extractKeywords, parseDate, model, now);
    exitCode := if ok then 0 else 1;
  }

  /** The script as written: line 21 imports `extract_keywords`, which
      summarizer.py does not define, so the import raises before the `try`
      of the `__main__` block and the process ends with status 1. */
  function ScriptOutcomeAsWritten(stored: seq<Doc>, feedEntries: string -> seq<Entry>,
                                  extractKeywords: string -> Option<seq<string>>,
                                  parseDate: string -> Option<int>, model: Model, now: int): (int, seq<Doc>)
  {
    if IMPORTED_NAMES <= SUMMARIZER_NAMES then ScriptOutcome(stored, feedEntries, extractKeywords, parseDate, model, now)
    else (1, stored)
  }

  /** As written, every run exits with status 1 and inserts nothing, whatever
      the feeds hold. */
  lemma ImportFailsAsWritten(stored: seq<Doc>, feedEntries: string -> seq<Entry>,
                             extractKeywords: string -> Option<seq<string>>,
                             parseDate: string -> Option<int>, model: Model, now: int)
    ensures ScriptOutcomeAsWritten(stored, feedEntries, extractKeywords, parseDate, model, now) == (1, stored)
  {
    assert "extract_keywords" in IMPORTED_NAMES;
    assert "extract_keywords" !in SUMMARIZER_NAMES;
  }

  // ------------------------------------------------------------ properties of a run

  /** No document from position `from` on carries a non-empty url that an
      earlier document already carries. */
  predicate NoRepeatedUrl(docs: seq<Doc>, from: nat)
  {
    forall i :: from <= i < |docs| && docs[i].url != Some("") ==> !HasUrl(docs[..i], docs[i].url)
  }

  /** What a run from a collection holding `stored` keeps true: the stored
      documents stay in front, added documents repeat no non-empty url, and
      the returned list is exactly the added documents, in insertion order,
      each with its id. */
  predicate RunInvariant(st: RunState, stored: seq<Doc>)
  {
    && |stored| <= |st.docs|
    && st.docs[..|stored|] == stored
    && NoRepeatedUrl(st.docs, |stored|)
    && |st.articles| == |st.docs| - |stored|
    && (forall i :: 0 <= i < |st.articles| ==> st.articles[i] == Inserted(|stored| + i, st.docs[|stored| + i]))
  }

  lemma StepKeepsRunInvariant(st: RunState, item: (string, Entry), stored: seq<Doc>,
                              extractKeywords: string -> Option<seq<string>>,
                              parseDate: string -> Option<int>, model: Model, now: int)
    requires RunInvariant(st, stored)
    ensures RunInvariant(Step(st, item, extractKeywords, parseDate, model, now), stored)
  {
    var (source, e) := item;
    var url := OrElse(e.link, "");
    var keywords := extractKeywords(OrElse(e.summary, ""));
    if st.ok && !ArticleExists(st.docs, url) && keywords.Some? {
      var doc := EntryDoc(source, e, keywords.value, parseDate, model, now);
      AppendKeepsRunInvariant(st, doc, stored);
    }
  }

  /** Appending a document whose url is empty or not yet stored keeps the
      run invariant. */
  lemma AppendKeepsRunInvariant(st: RunState, doc: Doc, stored: seq<Doc>)
    requires RunInvariant(st, stored)
    requires doc.url == Some("") || !HasUrl(st.docs, doc.url)
    ensures RunInvariant(RunState(st.docs + [doc], st.articles + [Inserted(|st.docs|, doc)], true), stored)
  {
    var st' := RunState(st.docs + [doc], st.articles + [Inserted(|st.docs|, doc)], true);
    assert st'.docs[..|stored|] == st.docs[..|stored|];
    forall i | |stored| <= i < |st'.docs| && st'.docs[i].url != Some("")
      ensures !HasUrl(st'.docs[..i], st'.docs[i].url)
    {
      if i < |st.docs| {
        assert st'.docs[..i] == st.docs[..i] && st'.docs[i] == st.docs[i];
      } else {
        assert st'.docs[..i] == st.docs && st'.docs[i] == doc;
      }
    }
    forall i | 0 <= i < |st'.articles|
      ensures st'.articles[i] == Inserted(|stored| + i, st'.docs[|stored| + i])
    {
      if i < |st.articles| {
        assert st'.articles[i] == st.articles[i] && st'.docs[|stored| + i] == st.docs[|stored| + i];
      }
    }
  }

  lemma {:induction false} FoldKeepsRunInvariant(st: RunState, items: seq<(string, Entry)>, stored: seq<Doc>,
                                                 extractKeywords: string -> Option<seq<string>>,
                                                 parseDate: string -> Option<int>, model: Model, now: int)
    requires RunInvariant(st, stored)
    ensures RunInvariant(Fold(st, items, extractKeywords, parseDate, model, now), stored)
    decreases |items|
  {
    if items != [] {
      StepKeepsRunInvariant(st, items[0], stored, extractKeywords, parseDate, model, now);
      FoldKeepsRunInvariant(Step(st, items[0], extractKeywords, parseDate, model, now), items[1..], stored,
                            extractKeywords, parseDate, model, now);
    }
  }

  /** Two documents that share a url, the later one added by the run, share
      the empty url. */
  lemma NoNonEmptyUrlTwice(docs: seq<Doc>, from: nat, k: nat, i: nat)
    requires NoRepeatedUrl(docs, from)
    requires k < i < |docs| && from <= i && docs[k].url == docs[i].url
    ensures docs[i].url == Some("")
  {
    assert docs[..i][k] == docs[k];
    assert HasUrl(docs[..i], docs[i].url);
  }

  /** A run adds at most one document per visited entry. */
  lemma {:induction false} FoldGrowth(st: RunState, items: seq<(string, Entry)>,
                                      extractKeywords: string -> Option<seq<string>>,
                                      parseDate: string -> Option<int>, model: Model, now: int)
    ensures |Fold(st, items, extractKeywords, parseDate, model, now).docs| <= |st.docs| + |items|
    decreases |items|
  {
    if items != [] {
      FoldGrowth(Step(st, items[0], extractKeywords, parseDate, model, now), items[1..],
                 extractKeywords, parseDate, model, now);
    }
  }

  /** How many of `items` come from the feed named `source`. */
  function ItemCount(items: seq<(string, Entry)>, source: string): nat
  {
    if items == [] then 0
    else (if items[0].0 == source then 1 else 0) + ItemCount(items[1..], source)
  }

  /** How many documents of the feed named `source` the collection holds. */
  function SourceCount(docs: seq<Doc>, source: string): nat
  {
    if docs == [] then 0
    else SourceCount(docs[..|docs| - 1], source) + if docs[|docs| - 1].source == source then 1 else 0
  }

  lemma {:induction false} ItemCountAppend(xs: seq<(string, Entry)>, ys: seq<(string, Entry)>, source: string)
    ensures ItemCount(xs + ys, source) == ItemCount(xs, source) + ItemCount(ys, source)
    decreases |xs|
  {
    if xs == [] {
      assert xs + ys == ys;
    } else {
      assert (xs + ys)[1..] == xs[1..] + ys;
      ItemCountAppend(xs[1..], ys, source);
    }
  }

  /** Items that all come from one feed count for that feed only. */
  lemma {:induction false} OneFeedCount(items: seq<(string, Entry)>, feed: string, source: string)
    requires forall i :: 0 <= i < |items| ==> items[i].0 == feed
    ensures ItemCount(items, source) == if source == feed then |items| else 0
    decreases |items|
  {
    if items != [] {
      OneFeedCount(items[1..], feed, source);
    }
  }

  /** At most `limit` entries are visited per feed: a name listed once
      contributes at most `limit` entries, a name not listed none. */
  lemma {:induction false} WorkBound(names: seq<string>, urls: seq<string>, feedEntries: string -> seq<Entry>,
                                     limit: nat, source: string)
    requires |names| == |urls|
    ensures ItemCount(Work(names, urls, feedEntries, limit), source) <= limit * multiset(names)[source]
    ensures |Work(names, urls, feedEntries, limit)| <= limit * |names|
  {
    if names != [] {
      var head := FeedWork(names[0], feedEntries(urls[0]), limit);
      var rest := Work(names[1..], urls[1..], feedEntries, limit);
      WorkBound(names[1..], urls[1..], feedEntries, limit, source);
      ItemCountAppend(head, rest, source);
      OneFeedCount(head, names[0], source);
      assert names == [names[0]] + names[1..];
      var here := if names[0] == source then 1 else 0;
      assert multiset(names)[source] == here + multiset(names[1..])[source];
      MulAdd(limit, here, multiset(names[1..])[source]);
      MulAdd(limit, 1, |names[1..]|);
    }
  }

  lemma MulAdd(k: nat, a: nat, b: nat)
    ensures k * (a + b) == k * a + k * b
  {
  }

  /** Each of the three feeds is listed once. */
  lemma FeedNamesOnce(source: string)
    ensures multiset(FEED_NAMES)[source] == if source in FEED_NAMES then 1 else 0
  {
    assert FEED_NAMES == ["The Verge"] + ["TechCrunch"] + ["Engadget"];
    assert multiset(FEED_NAMES) == multiset{"The Verge", "TechCrunch", "Engadget"};
  }

  /** A run adds at most as many documents of a feed as it visits entries
      of that feed. */
  lemma {:induction false} FoldSourceGrowth(st: RunState, items: seq<(string, Entry)>, source: string,
                                            extractKeywords: string -> Option<seq<string>>,
                                            parseDate: string -> Option<int>, model: Model, now: int)
    ensures SourceCount(Fold(st, items, extractKeywords, parseDate, model, now).docs, source)
            <= SourceCount(st.docs, source) + ItemCount(items, source)
    decreases |items|
  {
    if items != [] {
      var st1 := Step(st, items[0], extractKeywords, parseDate, model, now);
      FoldSourceGrowth(st1, items[1..], source, extractKeywords, parseDate, model, now);
      if st1.docs != st.docs {
        var (feed, e) := items[0];
        var keywords := extractKeywords(OrElse(e.summary, ""));
        var doc := EntryDoc(feed, e, keywords.value, parseDate, model, now);
        assert st1.docs == st.docs + [doc];
        assert st1.docs[..|st1.docs| - 1] == st.docs;
      }
    }
  }

  lemma {:induction false} FoldOkBackwards(st: RunState, items: seq<(string, Entry)>,
                                           extractKeywords: string -> Option<seq<string>>,
                                           parseDate: string -> Option<int>, model: Model, now: int)
    ensures Fold(st, items, extractKeywords, parseDate, model, now).ok ==> st.ok
    decreases |items|
  {
    if items != [] {
      FoldOkBackwards(Step(st, items[0], extractKeywords, parseDate, model, now), items[1..],
                      extractKeywords, parseDate, model, now);
    }
  }

  function CountEmptyLinks(items: seq<(string, Entry)>): nat
  {
    if items == [] then 0
    else (if OrElse(items[0].1.link, "") == "" then 1 else 0) + CountEmptyLinks(items[1..])
  }

  /** An entry with an empty or missing link is never found in the
      collection, so a run that ends normally inserts every such entry. */
  lemma {:induction false} EmptyLinksAlwaysInserted(st: RunState, items: seq<(string, Entry)>,
                                                    extractKeywords: string -> Option<seq<string>>,
                                                    parseDate: string -> Option<int>, model: Model, now: int)
    requires Fold(st, items, extractKeywords, parseDate, model, now).ok
    ensures CountUrl(Fold(st, items, extractKeywords, parseDate, model, now).docs, Some(""))
            == CountUrl(st.docs, Some("")) + CountEmptyLinks(items)
    decreases |items|
  {
    if items != [] {
      var st1 := Step(st, items[0], extractKeywords, parseDate, model, now);
      FoldOkBackwards(st1, items[1..], extractKeywords, parseDate, model, now);
      EmptyLinksAlwaysInserted(st1, items[1..], extractKeywords, parseDate, model, now);
      StepEmptyLinkCount(st, items[0], extractKeywords, parseDate, model, now);
    }
  }

  lemma StepEmptyLinkCount(st: RunState, item: (string, Entry),
                           extractKeywords: string -> Option<seq<string>>,
                           parseDate: string -> Option<int>, model: Model, now: int)
    requires Step(st, item, extractKeywords, parseDate, model, now).ok
    ensures CountUrl(Step(st, item, extractKeywords, parseDate, model, now).docs, Some(""))
            == CountUrl(st.docs, Some("")) + if OrElse(item.1.link, "") == "" then 1 else 0
  {
    var (source, e) := item;
    var url := OrElse(e.link, "");
    var keywords := extractKeywords(OrElse(e.summary, ""));
    if !ArticleExists(st.docs, url) && keywords.Some? {
      var doc := EntryDoc(source, e, keywords.value, parseDate, model, now);
      CountUrlAppend(st.docs, [doc], Some(""));
      assert [doc][..0] == [];
    }
  }

  /** The url under which an entry is checked and stored. */
  function Link(e: Entry): string
  {
    OrElse(e.link, "")
  }

  /** A run only extends the collection. */
  lemma {:induction false} FoldExtends(st: RunState, items: seq<(string, Entry)>,
                                       extractKeywords: string -> Option<seq<string>>,
                                       parseDate: string -> Option<int>, model: Model, now: int)
    ensures var docs := Fold(st, items, extractKeywords, parseDate, model, now).docs;
      |st.docs| <= |docs| && docs[..|st.docs|] == st.docs
    decreases |items|
  {
    if items != [] {
      var st1 := Step(st, items[0], extractKeywords, parseDate, model, now);
      StepExtends(st, items[0], extractKeywords, parseDate, model, now);
      FoldExtends(st1, items[1..], extractKeywords, parseDate, model, now);
      assert Fold(st, items, extractKeywords, parseDate, model, now)
             == Fold(st1, items[1..], extractKeywords, parseDate, model, now);
      PrefixOfPrefix(st.docs, st1.docs, Fold(st1, items[1..], extractKeywords, parseDate, model, now).docs);
    }
  }

  lemma PrefixOfPrefix(a: seq<Doc>, b: seq<Doc>, c: seq<Doc>)
    requires |a| <= |b| <= |c| && b[..|a|] == a && c[..|b|] == b
    ensures c[..|a|] == a
  {
    assert c[..|a|] == c[..|b|][..|a|];
  }

  lemma StepExtends(st: RunState, item: (string, Entry),
                    extractKeywords: string -> Option<seq<string>>,
                    parseDate: string -> Option<int>, model: Model, now: int)
    ensures var docs := Step(st, item, extractKeywords, parseDate, model, now).docs;
      |st.docs| <= |docs| && docs[..|st.docs|] == st.docs
  {
    var docs := Step(st, item, extractKeywords, parseDate, model, now).docs;
    assert docs == st.docs || docs[..|st.docs|] == st.docs;
  }

  /** A step that leaves the run going has the entry's non-empty link stored
      afterwards: it was found, or the entry was inserted. */
  lemma StepStoresLink(st: RunState, item: (string, Entry),
                       extractKeywords: string -> Option<seq<string>>,
                       parseDate: string -> Option<int>, model: Model, now: int)
    requires Step(st, item, extractKeywords, parseDate, model, now).ok
    requires Link(item.1) != ""
    ensures HasUrl(Step(st, item, extractKeywords, parseDate, model, now).docs, Some(Link(item.1)))
  {
    var st1 := Step(st, item, extractKeywords, parseDate, model, now);
    if !ArticleExists(st.docs, Link(item.1)) {
      assert st1.docs[|st1.docs| - 1].url == Some(Link(item.1));
    }
  }

  /** A run that ends normally has stored the link of every visited entry
      that has a non-empty one. */
  lemma {:induction false} FoldStoresLinks(st: RunState, items: seq<(string, Entry)>, k: nat,
                                           extractKeywords: string -> Option<seq<string>>,
                                           parseDate: string -> Option<int>, model: Model, now: int)
    requires Fold(st, items, extractKeywords, parseDate, model, now).ok
    requires k < |items| && Link(items[k].1) != ""
    ensures HasUrl(Fold(st, items, extractKeywords, parseDate, model, now).docs, Some(Link(items[k].1)))
    decreases |items|
  {
    var st1 := Step(st, items[0], extractKeywords, parseDate, model, now);
    FoldOkBackwards(st1, items[1..], extractKeywords, parseDate, model, now);
    if k == 0 {
      StepStoresLink(st, items[0], extractKeywords, parseDate, model, now);
      FoldExtends(st1, items[1..], extractKeywords, parseDate, model, now);
      var docs := Fold(st1, items[1..], extractKeywords, parseDate, model, now).docs;
      var i :| 0 <= i < |st1.docs| && st1.docs[i].url == Some(Link(items[0].1));
      assert docs[i] == docs[..|st1.docs|][i];
    } else {
      assert items[1..][k - 1] == items[k];
      FoldStoresLinks(st1, items[1..], k - 1, extractKeywords, parseDate, model, now);
    }
  }

  lemma {:induction false} CountUrlAbsent(docs: seq<Doc>, u: Option<string>)
    requires !HasUrl(docs, u)
    ensures CountUrl(docs, u) == 0
    decreases |docs|
  {
    if docs != [] {
      var p := docs[..|docs| - 1];
      assert !HasUrl(p, u) by {
        forall i | 0 <= i < |p| ensures p[i].url != u {
          assert p[i] == docs[i];
        }
      }
      CountUrlAbsent(p, u);
    }
  }

  /** A non-empty url that the first `from` documents lack and that no later
      document repeats is held by at most one document. */
  lemma {:induction false} CountUrlOnce(docs: seq<Doc>, from: nat, u: string)
    requires from <= |docs| && u != ""
    requires NoRepeatedUrl(docs, from) && !HasUrl(docs[..from], Some(u))
    ensures CountUrl(docs, Some(u)) == if HasUrl(docs, Some(u)) then 1 else 0
    decreases |docs|
  {
    if |docs| == from {
      assert docs[..from] == docs;
      CountUrlAbsent(docs, Some(u));
    } else {
      var p := docs[..|docs| - 1];
      assert NoRepeatedUrl(p, from) by {
        forall i | from <= i < |p| && p[i].url != Some("") ensures !HasUrl(p[..i], p[i].url) {
          assert p[..i] == docs[..i] && p[i] == docs[i];
        }
      }
      assert p[..from] == docs[..from];
      CountUrlOnce(p, from, u);
      if docs[|docs| - 1].url == Some(u) {
        assert !HasUrl(docs[..|docs| - 1], Some(u));
      } else {
        assert HasUrl(docs, Some(u)) ==> HasUrl(p, Some(u)) by {
          if HasUrl(docs, Some(u)) {
            var i :| 0 <= i < |docs| && docs[i].url == Some(u);
            assert p[i] == docs[i];
          }
        }
        assert HasUrl(p, Some(u)) ==> HasUrl(docs, Some(u)) by {
          if HasUrl(p, Some(u)) {
            var i :| 0 <= i < |p| && p[i].url == Some(u);
            assert docs[i] == p[i];
          }
        }
      }
    }
  }

  /** A run that ends normally holds each new non-empty link of a visited
      entry exactly once. */
  lemma NewLinkStoredOnce(stored: seq<Doc>, items: seq<(string, Entry)>, k: nat,
                          extractKeywords: string -> Option<seq<string>>,
                          parseDate: string -> Option<int>, model: Model, now: int)
    requires RunInvariant(Fold(RunState(stored, [], true), items, extractKeywords, parseDate, model, now), stored)
    requires Fold(RunState(stored, [], true), items, extractKeywords, parseDate, model, now).ok
    requires k < |items| && Link(items[k].1) != "" && !HasUrl(stored, Some(Link(items[k].1)))
    ensures CountUrl(Fold(RunState(stored, [], true), items, extractKeywords, parseDate, model, now).docs,
                     Some(Link(items[k].1))) == 1
  {
    var docs := Fold(RunState(stored, [], true), items, extractKeywords, parseDate, model, now).docs;
    FoldStoresLinks(RunState(stored, [], true), items, k, extractKeywords, parseDate, model, now);
    CountUrlOnce(docs, |stored|, Link(items[k].1));
  }

  /** Any run, over any list of entries, keeps the stored documents in front,
      adds each non-empty url at most once and never when already stored,
      adds at most one document per entry, and, when it ends normally, has
      added every entry without a link and holds every new link of a
      visited entry exactly once. */
  lemma RunIsSound(stored: seq<Doc>, items: seq<(string, Entry)>,
                   extractKeywords: string -> Option<seq<string>>,
                   parseDate: string -> Option<int>, model: Model, now: int)
    ensures var st := Fold(RunState(stored, [], true), items, extractKeywords, parseDate, model, now);
      && |stored| <= |st.docs| <= |stored| + |items|
      && st.docs[..|stored|] == stored
      && NoRepeatedUrl(st.docs, |stored|)
      && (st.ok ==> CountUrl(st.docs, Some("")) == CountUrl(stored, Some("")) + CountEmptyLinks(items))
      && (st.ok ==> forall k :: 0 <= k < |items| && Link(items[k].1) != "" && !HasUrl(stored, Some(Link(items[k].1)))
                      ==> CountUrl(st.docs, Some(Link(items[k].1))) == 1)
  {
    var init := RunState(stored, [], true);
    var st := Fold(init, items, extractKeywords, parseDate, model, now);
    assert stored[..|stored|] == stored;
    FoldKeepsRunInvariant(init, items, stored, extractKeywords, parseDate, model, now);
    FoldGrowth(init, items, extractKeywords, parseDate, model, now);
    if st.ok {
      EmptyLinksAlwaysInserted(init, items, extractKeywords, parseDate, model, now);
      forall k | 0 <= k < |items| && Link(items[k].1) != "" && !HasUrl(stored, Some(Link(items[k].1)))
        ensures CountUrl(st.docs, Some(Link(items[k].1))) == 1
      {
        NewLinkStoredOnce(stored, items, k, extractKeywords, parseDate, model, now);
      }
    }
  }

  /** The corrected script exits with status 0 or 1; keeps the stored
      documents in front; adds each non-empty url at most once and never
      when already stored; adds at most 20 documents per feed and none of
      any other source; and, when it exits with status 0, has inserted every
      visited entry without a link and every visited entry whose link was
      not stored, once. */
  lemma ScriptRunIsSound(stored: seq<Doc>, feedEntries: string -> seq<Entry>,
                         extractKeywords: string -> Option<seq<string>>,
                         parseDate: string -> Option<int>, model: Model, now: int)
    ensures var (code, docs) := ScriptOutcome(stored, feedEntries, extractKeywords, parseDate, model, now);
      var work := Work(FEED_NAMES, FEED_URLS, feedEntries, FEED_LIMIT);
      && (code == 0 || code == 1)
      && |stored| <= |docs| <= |stored| + FEED_LIMIT * |FEED_NAMES|
      && docs[..|stored|] == stored
      && NoRepeatedUrl(docs, |stored|)
      && (forall source :: SourceCount(docs, source)
                           <= SourceCount(stored, source) + if source in FEED_NAMES then FEED_LIMIT else 0)
      && (code == 0 ==> CountUrl(docs, Some("")) == CountUrl(stored, Some("")) + CountEmptyLinks(work))
      && (code == 0 ==> forall k :: 0 <= k < |work| && Link(work[k].1) != "" && !HasUrl(stored, Some(Link(work[k].1)))
                         ==> CountUrl(docs, Some(Link(work[k].1))) == 1)
  {
    var work := Work(FEED_NAMES, FEED_URLS, feedEntries, FEED_LIMIT);
    var init := RunState(stored, [], true);
    RunIsSound(stored, work, extractKeywords, parseDate, model, now);
    WorkBound(FEED_NAMES, FEED_URLS, feedEntries, FEED_LIMIT, "");
    var docs := Fold(init, work, extractKeywords, parseDate, model, now).docs;
    forall source
      ensures SourceCount(docs, source) <= SourceCount(stored, source) + if source in FEED_NAMES then FEED_LIMIT else 0
    {
      FoldSourceGrowth(init, work, source, extractKeywords, parseDate, model, now);
      WorkBound(FEED_NAMES, FEED_URLS, feedEntries, FEED_LIMIT, source);
      FeedNamesOnce(source);
    }
  }

  /** The list a run returns is exactly what it added to the collection, in
      insertion order, each with its id. */
  lemma ReturnedListIsInserted(stored: seq<Doc>, items: seq<(string, Entry)>,
                               extractKeywords: string -> Option<seq<string>>,
                               parseDate: string -> Option<int>, model: Model, now: int)
    ensures var st := Fold(RunState(stored, [], true), items, extractKeywords, parseDate, model, now);
      && |st.articles| == |st.docs| - |stored|
      && forall i :: 0 <= i < |st.articles| ==> st.articles[i] == Inserted(|stored| + i, st.docs[|stored| + i])
  {
    assert stored[..|stored|] == stored;
    FoldKeepsRunInvariant(RunState(stored, [], true), items, stored, extractKeywords, parseDate, model, now);
  }

  /** An entry without a summary is stored with an empty summary: the empty
      text has fewer than ten words and comes back unchanged. */
  lemma MissingSummaryStoredEmpty(source: string, e: Entry, keywords: seq<string>,
                                  parseDate: string -> Option<int>, model: Model, now: int)
    requires e.summary.None?
    ensures EntryDoc(source, e, keywords, parseDate, model, now).summary == JStr("")
  {
    assert Words("") == [];
  }
}
