/*
 * The NewsAPI ingestion job of backend/controllers/newsController.js
 * (`fetchNewsAPI`): fetch, drop blocked sources, summarise through the worker
 * channel, merge the summaries, check each url against the collection, and
 * insert the new records in one `insertMany`.
 *
 * The HTTP fetch is the parameter `response`; the awaited `summarizeBatch`
 * is the parameter `summarize`, which yields the array the channel resolved
 * with, or None when the request was rejected (its timeout). Dates are
 * integers, and a missing or empty `publishedAt` is None.
 */
module NewsController {
  import opened Common
  import opened ArticleStore
  import SummarizerWorker

  const BLOCKED_SOURCES: seq<string> := ["dealcatcher.com"]
  const NO_SUMMARY: string := "No summary available."
  const NO_TITLE: string := "No Title"
  const UNKNOWN_SOURCE: string := "Unknown"

  /** One element of the NewsAPI `articles` array. */
  datatype Candidate = Candidate(
    title: Option<string>,
    description: Option<string>,
    url: Option<string>,
    sourceName: Option<string>,   // `article.source?.name`
    publishedAt: Option<int>,
    urlToImage: Option<string>)

  /** What fetching the NewsAPI url produced. */
  datatype ApiResponse =
    | Failed                                  // fetch or response.json() threw
    | HttpError(status: int)                  // `!response.ok`
    | Body(articles: Option<seq<Candidate>>)  // None: no `articles` array

  /** The lower-cased source name (missing: "") is on the blocklist. */
  predicate Blocked(c: Candidate)
  {
    ToLower(OrElse(c.sourceName, "")) in BLOCKED_SOURCES
  }

  /** The blocklist `filter`. */
  function KeepUnblocked(cs: seq<Candidate>): (r: seq<Candidate>)
    ensures |r| <= |cs|
    ensures forall i :: 0 <= i < |r| ==> !Blocked(r[i])
  {
    if cs == [] then []
    else (if Blocked(cs[0]) then [] else [cs[0]]) + KeepUnblocked(cs[1..])
  }

  /** The filter works element by element: filtering a concatenation
      concatenates the filtered parts, so the kept candidates keep their order. */
  lemma {:induction false} KeepUnblockedAppend(xs: seq<Candidate>, ys: seq<Candidate>)
    ensures KeepUnblocked(xs + ys) == KeepUnblocked(xs) + KeepUnblocked(ys)
  {
    if xs == [] {
      assert xs + ys == ys;
    } else {
      assert (xs + ys)[1..] == xs[1..] + ys;
      KeepUnblockedAppend(xs[1..], ys);
    }
  }

  /** A candidate survives the filter exactly when it is not blocked. */
  lemma {:induction false} KeepUnblockedMembers(cs: seq<Candidate>, c: Candidate)
    ensures c in KeepUnblocked(cs) <==> c in cs && !Blocked(c)
  {
    if cs != [] {
      KeepUnblockedMembers(cs[1..], c);
      assert cs == [cs[0]] + cs[1..];
    }
  }

  /** `article.title + " " + (article.description || "")`; a null title
      prints as "null". */
  function SummariserInput(c: Candidate): string
  {
    Template(c.title) + " " + OrStr(c.description, "")
  }

  function SummariserInputs(kept: seq<Candidate>): (texts: seq<string>)
    ensures |texts| == |kept|
    ensures forall i :: 0 <= i < |kept| ==> texts[i] == SummariserInput(kept[i])
  {
    seq(|kept|, i requires 0 <= i < |kept| => SummariserInput(kept[i]))
  }

  /** `summaries[i] || article.description || "No summary available."`: a
      truthy summary from the worker wins, then a non-empty description, so
      the merged summary is never empty. */
  function MergeSummary(summaries: seq<Json>, i: nat, c: Candidate): (s: Json)
    ensures Truthy(s)
    ensures i < |summaries| && Truthy(summaries[i]) ==> s == summaries[i]
    ensures !(i < |summaries| && Truthy(summaries[i])) ==> s == JStr(OrStr(c.description, NO_SUMMARY))
  {
    if i < |summaries| && Truthy(summaries[i]) then summaries[i]
    else JStr(OrStr(c.description, NO_SUMMARY))
  }

  /** The `forEach` that sets `article.summary` on every kept candidate. */
  function MergedSummaries(kept: seq<Candidate>, summaries: seq<Json>): (m: seq<Json>)
    ensures |m| == |kept|
  {
    seq(|kept|, i requires 0 <= i < |kept| => MergeSummary(summaries, i, kept[i]))
  }

  /** The record pushed into `newArticles`: the url is the candidate's, the
      summary is never empty, and an empty image url becomes null. */
  function ToRecord(c: Candidate, summary: Json, now: int): (d: Doc)
    ensures d.url == c.url
    ensures Truthy(d.summary)
    ensures d.urlToImage != Some("")
    ensures d.keywords.None? && d.relevance.None?
  {
    Doc(
      OrElse(c.title, NO_TITLE),
      c.url,
      OrElse(c.sourceName, UNKNOWN_SOURCE),
      OrElse(c.publishedAt, now),
      if Truthy(summary) then summary else JStr(OrStr(c.description, NO_SUMMARY)),
      if c.urlToImage.Some? && c.urlToImage.value != [] then c.urlToImage else None,
      None,
      None)
  }

  /** `newArticles` after the first `n` kept candidates were checked against
      the collection as it was before the loop. */
  function NewRecords(stored: seq<Doc>, kept: seq<Candidate>, merged: seq<Json>, now: int, n: nat): seq<Doc>
    requires n <= |kept| == |merged|
  {
    if n == 0 then []
    else
      NewRecords(stored, kept, merged, now, n - 1)
      + (if HasUrl(stored, kept[n - 1].url) then [] else [ToRecord(kept[n - 1], merged[n - 1], now)])
  }

  /** The records one run of `fetchNewsAPI` inserts into a collection holding `stored`. */
  function NewsApiInserts(apiUrl: Option<string>, response: ApiResponse,
                          summarize: seq<string> -> Option<seq<Json>>,
                          stored: seq<Doc>, now: int): seq<Doc>
  {
    if apiUrl.None? || Trim(apiUrl.value) == [] then []
    else match response
      case Failed => []
      case HttpError(_) => []
      case Body(None) => []
      case Body(Some(articles)) =>
        var kept := KeepUnblocked(articles);
        if kept == [] then []
        else match summarize(SummariserInputs(kept))
          case None => []
          case Some(summaries) =>
            NewRecords(stored, kept, MergedSummaries(kept, summaries), now, |kept|)
  }

  /** `fetchNewsAPI`. */
  method FetchNewsApi(store: ArticleCollection, apiUrl: Option<string>, response: ApiResponse,
                      summarize: seq<string> -> Option<seq<Json>>, now: int)
    returns (inserted: seq<Doc>)
    modifies store
    ensures inserted == NewsApiInserts(apiUrl, response, summarize, old(store.docs), now)
    ensures store.docs == old(store.docs) + inserted
  {
    inserted := [];
    if apiUrl.None? || Trim(apiUrl.value) == [] {
      return;
    }
    if !response.Body? || response.articles.None? {
      return;
    }
    var kept := KeepUnblocked(response.articles.value);
    if |kept| == 0 {
      return;
    }
    var result := summarize(SummariserInputs(kept));
    if result.None? {
      return;
    }
    var merged := MergeAll(kept, result.value);
    var newArticles := CollectNew(store, kept, merged, now);
    if |newArticles| > 0 {
      store.InsertMany(newArticles);
    }
    inserted := newArticles;
  }

  /** The `forEach` that merges the summaries into the kept candidates. */
  method MergeAll(kept: seq<Candidate>, summaries: seq<Json>) returns (merged: seq<Json>)
    ensures merged == MergedSummaries(kept, summaries)
  {
    merged := [];
    var i := 0;
    while i < |kept|
      invariant 0 <= i <= |kept|
      invariant merged == MergedSummaries(kept, summaries)[..i]
    {
      merged := merged + [MergeSummary(summaries, i, kept[i])];
      i := i + 1;
    }
    assert MergedSummaries(kept, summaries)[..|kept|] == MergedSummaries(kept, summaries);
  }

  /** The loop that checks every kept candidate against the collection and
      builds `newArticles`; the collection is not written meanwhile. */
  method CollectNew(store: ArticleCollection, kept: seq<Candidate>, merged: seq<Json>, now: int)
    returns (newArticles: seq<Doc>)
    requires |kept| == |merged|
    ensures newArticles == NewRecords(store.docs, kept, merged, now, |kept|)
  {
    newArticles := [];
    var i := 0;
    while i < |kept|
      invariant 0 <= i <= |kept|
      invariant newArticles == NewRecords(store.docs, kept, merged, now, i)
    {
      var found := HasUrl(store.docs, kept[i].url);
      if !found {
        newArticles := newArticles + [ToRecord(kept[i], merged[i], now)];
      }
      i := i + 1;
    }
  }

  // ------------------------------------------------------------ properties

  /** Nothing is inserted when the url is blank, the fetch fails or is not OK,
      the body has no articles array, every candidate is blocked, or the
      summariser request is rejected. */
  lemma AbortedRunsInsertNothing(apiUrl: Option<string>, response: ApiResponse,
                                 summarize: seq<string> -> Option<seq<Json>>, stored: seq<Doc>, now: int)
    requires || apiUrl.None? || Trim(apiUrl.value) == []
             || !response.Body? || response.articles.None?
             || KeepUnblocked(response.articles.value) == []
             || summarize(SummariserInputs(KeepUnblocked(response.articles.value))).None?
    ensures NewsApiInserts(apiUrl, response, summarize, stored, now) == []
  {
  }

  function CountCandidateUrl(cs: seq<Candidate>, u: Option<string>): nat
  {
    if cs == [] then 0
    else CountCandidateUrl(cs[..|cs| - 1], u) + if cs[|cs| - 1].url == u then 1 else 0
  }

  /** Every url is checked against the collection as it was before the run:
      a url already stored gets no new record, and a url not stored gets one
      record per candidate carrying it, so duplicates inside one batch are
      all inserted. */
  lemma {:induction false} NewRecordsPerUrl(stored: seq<Doc>, kept: seq<Candidate>, merged: seq<Json>,
                                            now: int, n: nat, u: Option<string>)
    requires n <= |kept| == |merged|
    ensures CountUrl(NewRecords(stored, kept, merged, now, n), u)
            == if HasUrl(stored, u) then 0 else CountCandidateUrl(kept[..n], u)
  {
    if n > 0 {
      NewRecordsPerUrl(stored, kept, merged, now, n - 1, u);
      NewRecordsStepCount(stored, kept, merged, now, n, u);
      assert kept[..n][..n - 1] == kept[..n - 1];
    }
  }

  lemma NewRecordsStepCount(stored: seq<Doc>, kept: seq<Candidate>, merged: seq<Json>,
                            now: int, n: nat, u: Option<string>)
    requires 0 < n <= |kept| == |merged|
    ensures CountUrl(NewRecords(stored, kept, merged, now, n), u)
            == CountUrl(NewRecords(stored, kept, merged, now, n - 1), u)
               + if !HasUrl(stored, kept[n - 1].url) && kept[n - 1].url == u then 1 else 0
  {
    var c := kept[n - 1];
    var before := NewRecords(stored, kept, merged, now, n - 1);
    var extra := if HasUrl(stored, c.url) then [] else [ToRecord(c, merged[n - 1], now)];
    CountUrlAppend(before, extra, u);
    if !HasUrl(stored, c.url) {
      assert extra[0].url == c.url;
      assert extra[..0] == [];
    }
  }

  /** Two candidates with the same url that is not yet stored are both inserted. */
  lemma InBatchDuplicatesBothInserted(stored: seq<Doc>, kept: seq<Candidate>, merged: seq<Json>,
                                      now: int, j: nat, k: nat)
    requires |kept| == |merged| && j < k < |kept|
    requires kept[j].url == kept[k].url && !HasUrl(stored, kept[j].url)
    ensures CountUrl(NewRecords(stored, kept, merged, now, |kept|), kept[j].url) >= 2
  {
    var u := kept[j].url;
    NewRecordsPerUrl(stored, kept, merged, now, |kept|, u);
    assert kept[..|kept|] == kept;
    CandidateCountAtLeastTwo(kept, j, k, u);
  }

  lemma {:induction false} CandidateCountAtLeastTwo(cs: seq<Candidate>, j: nat, k: nat, u: Option<string>)
    requires j < k < |cs| && cs[j].url == u && cs[k].url == u
    ensures CountCandidateUrl(cs, u) >= 2
  {
    var prefix := cs[..|cs| - 1];
    if k == |cs| - 1 {
      CandidateCountAtLeastOne(prefix, j, u);
    } else {
      CandidateCountAtLeastTwo(prefix, j, k, u);
    }
  }

  lemma {:induction false} CandidateCountAtLeastOne(cs: seq<Candidate>, j: nat, u: Option<string>)
    requires j < |cs| && cs[j].url == u
    ensures CountCandidateUrl(cs, u) >= 1
  {
    if j < |cs| - 1 {
      CandidateCountAtLeastOne(cs[..|cs| - 1], j, u);
    }
  }

  /** Every kept candidate is handed to the summariser, in order, as its title
      and description; and when the worker answers with an empty array, as it
      does for a batch of plain strings, every record falls back to the
      description or to "No summary available.". */
  lemma StringBatchFallsBackToDescriptions(kept: seq<Candidate>,
                                           model: (string, SummarizerWorker.Bounds, int) -> SummarizerWorker.ModelOutcome)
    ensures var batch := seq(|kept|, i requires 0 <= i < |kept| => JStr(SummariserInputs(kept)[i]));
      SummarizerWorker.Answer(JArr(batch), model) == SummarizerWorker.Summaries([])
    ensures forall i :: 0 <= i < |kept| ==>
      MergedSummaries(kept, [])[i] == JStr(OrStr(kept[i].description, NO_SUMMARY))
  {
    var batch := seq(|kept|, i requires 0 <= i < |kept| => JStr(SummariserInputs(kept)[i]));
    SummarizerWorker.StringBatchGetsEmptyArray(batch, model);
  }
}
