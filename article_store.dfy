/*
 * The MongoDB article collection shared by the Node.js controller
 * (backend/controllers/newsController.js) and the Python RSS fetcher
 * (backend/services/rss_fetcher.py), with the two read queries of the
 * controller: `getDbNews` and `getRankedNews`.
 *
 * The collection is an ordered sequence of documents. `findOne({url})` is
 * membership of the url among the documents; inserts append. MongoDB's sort
 * leaves the order of equal keys open; the model fixes one order, and the
 * lemmas state only what any order would satisfy.
 */
module ArticleStore {
  import opened Common

  /** Documents that `getRankedNews` returns at most. */
  const RANKED_LIMIT: nat := 50

  /** One stored article. `url` is None when the document has no url;
      `keywords` is present on documents written by the RSS fetcher;
      `relevance` is present on documents that carry a ranking score. */
  datatype Doc = Doc(
    title: string,
    url: Option<string>,
    source: string,
    publishedAt: int,
    summary: Json,
    urlToImage: Option<string>,
    keywords: Option<seq<string>>,
    relevance: Option<int>)

  /** `findOne({ url })` finds a document. */
  predicate HasUrl(docs: seq<Doc>, url: Option<string>)
  {
    exists i :: 0 <= i < |docs| && docs[i].url == url
  }

  /** The collection, as the pipelines see it. */
  class ArticleCollection {
    var docs: seq<Doc>

    constructor (initial: seq<Doc>)
      ensures docs == initial
    {
      docs := initial;
    }

    /** `insert_one`: the new document goes last; its id is its position. */
    method InsertOne(doc: Doc) returns (id: nat)
      modifies this
      ensures docs == old(docs) + [doc]
      ensures id == |old(docs)| && docs[id] == doc
    {
      id := |docs|;
      docs := docs + [doc];
    }

    /** `insertMany`. */
    method InsertMany(batch: seq<Doc>)
      modifies this
      ensures docs == old(docs) + batch
    {
      docs := docs + batch;
    }
  }

  /** How many documents carry `u` as their url. */
  function CountUrl(docs: seq<Doc>, u: Option<string>): nat
  {
    if docs == [] then 0
    else CountUrl(docs[..|docs| - 1], u) + if docs[|docs| - 1].url == u then 1 else 0
  }

  lemma CountUrlAppend(docs: seq<Doc>, extra: seq<Doc>, u: Option<string>)
    requires |extra| <= 1
    ensures CountUrl(docs + extra, u) == CountUrl(docs, u) + CountUrl(extra, u)
  {
    if extra != [] {
      assert (docs + extra)[..|docs + extra| - 1] == docs;
    } else {
      assert docs + extra == docs;
    }
  }

  // ------------------------------------------------------------ sorting by a key

  function PublishedKey(d: Doc): int { d.publishedAt }

  function RelevanceKey(d: Doc): int
  {
    if d.relevance.Some? then d.relevance.value else 0
  }

  predicate SortedDesc(s: seq<Doc>, key: Doc -> int)
  {
    forall i, j :: 0 <= i < j < |s| ==> key(s[i]) >= key(s[j])
  }

  function InsertDesc(d: Doc, s: seq<Doc>, key: Doc -> int): seq<Doc>
  {
    if s == [] then [d]
    else if key(d) >= key(s[0]) then [d] + s
    else [s[0]] + InsertDesc(d, s[1..], key)
  }

  /** A descending sort by `key` (`.sort({ key: -1 })`). */
  function SortDesc(s: seq<Doc>, key: Doc -> int): seq<Doc>
  {
    if s == [] then [] else InsertDesc(s[0], SortDesc(s[1..], key), key)
  }

  /** Every key in `s` is at most `v`. */
  predicate AtMost(s: seq<Doc>, v: int, key: Doc -> int)
  {
    forall i :: 0 <= i < |s| ==> key(s[i]) <= v
  }

  lemma SortedCons(x: Doc, t: seq<Doc>, key: Doc -> int)
    ensures SortedDesc([x] + t, key) <==> AtMost(t, key(x), key) && SortedDesc(t, key)
  {
    var s := [x] + t;
    if AtMost(t, key(x), key) && SortedDesc(t, key) {
      forall i, j | 0 <= i < j < |s| ensures key(s[i]) >= key(s[j]) {
        assert s[j] == t[j - 1];
        if i > 0 { assert s[i] == t[i - 1]; }
      }
    }
    if SortedDesc(s, key) {
      forall i | 0 <= i < |t| ensures key(t[i]) <= key(x) {
        assert t[i] == s[i + 1] && x == s[0];
        assert key(s[0]) >= key(s[i + 1]);
      }
      forall i, j | 0 <= i < j < |t| ensures key(t[i]) >= key(t[j]) {
        assert t[i] == s[i + 1] && t[j] == s[j + 1];
      }
    }
  }

  lemma {:induction false} InsertDescPermutes(d: Doc, s: seq<Doc>, key: Doc -> int)
    ensures multiset(InsertDesc(d, s, key)) == multiset(s) + multiset{d}
  {
    if s != [] && key(d) < key(s[0]) {
      InsertDescPermutes(d, s[1..], key);
      assert s == [s[0]] + s[1..];
    }
  }

  lemma {:induction false} InsertDescAtMost(d: Doc, s: seq<Doc>, v: int, key: Doc -> int)
    requires AtMost(s, v, key) && key(d) <= v
    ensures AtMost(InsertDesc(d, s, key), v, key)
  {
    if s != [] && key(d) < key(s[0]) {
      InsertDescAtMost(d, s[1..], v, key);
      var r := InsertDesc(d, s[1..], key);
      forall i | 0 <= i < 1 + |r| ensures key(([s[0]] + r)[i]) <= v {
        if i > 0 { assert ([s[0]] + r)[i] == r[i - 1]; }
      }
    } else if s != [] {
      forall i | 0 <= i < 1 + |s| ensures key(([d] + s)[i]) <= v {
        if i > 0 { assert ([d] + s)[i] == s[i - 1]; }
      }
    }
  }

  lemma {:induction false} InsertDescSorted(d: Doc, s: seq<Doc>, key: Doc -> int)
    requires SortedDesc(s, key)
    ensures SortedDesc(InsertDesc(d, s, key), key)
  {
    if s == [] {
    } else {
      assert s == [s[0]] + s[1..];
      SortedCons(s[0], s[1..], key);
      if key(d) >= key(s[0]) {
        forall i | 0 <= i < |s| ensures key(s[i]) <= key(d) {
          if i > 0 { assert key(s[0]) >= key(s[i]); }
        }
        SortedCons(d, s, key);
      } else {
        InsertDescSorted(d, s[1..], key);
        InsertDescAtMost(d, s[1..], key(s[0]), key);
        SortedCons(s[0], InsertDesc(d, s[1..], key), key);
      }
    }
  }

  /** The sort returns the same documents, ordered by key from high to low. */
  lemma {:induction false} SortDescIsSortedPermutation(s: seq<Doc>, key: Doc -> int)
    ensures multiset(SortDesc(s, key)) == multiset(s)
    ensures SortedDesc(SortDesc(s, key), key)
  {
    if s != [] {
      SortDescIsSortedPermutation(s[1..], key);
      InsertDescPermutes(s[0], SortDesc(s[1..], key), key);
      InsertDescSorted(s[0], SortDesc(s[1..], key), key);
      assert s == [s[0]] + s[1..];
    }
  }

  // ------------------------------------------------------------ the two queries

  /** `getDbNews`: every document, newest first. */
  function DbNews(docs: seq<Doc>): seq<Doc>
  {
    SortDesc(docs, PublishedKey)
  }

  /** `getDbNews` returns all stored documents, not 50 of them, newest first. */
  lemma DbNewsIsAllNewestFirst(docs: seq<Doc>)
    ensures multiset(DbNews(docs)) == multiset(docs)
    ensures |DbNews(docs)| == |docs|
    ensures SortedDesc(DbNews(docs), PublishedKey)
  {
    SortDescIsSortedPermutation(docs, PublishedKey);
    assert |DbNews(docs)| == |multiset(DbNews(docs))|;
  }

  /** `find({ relevance: { $exists: true } })`. */
  function WithRelevance(docs: seq<Doc>): (r: seq<Doc>)
    ensures forall i :: 0 <= i < |r| ==> r[i].relevance.Some?
    ensures multiset(r) <= multiset(docs)
  {
    if docs == [] then []
    else
      assert docs == [docs[0]] + docs[1..];
      (if docs[0].relevance.Some? then [docs[0]] else []) + WithRelevance(docs[1..])
  }

  /** A document is kept exactly when it carries a relevance score. */
  lemma {:induction false} WithRelevanceKeeps(docs: seq<Doc>, d: Doc)
    ensures d in WithRelevance(docs) <==> d in docs && d.relevance.Some?
  {
    if docs != [] {
      WithRelevanceKeeps(docs[1..], d);
      assert docs == [docs[0]] + docs[1..];
    }
  }

  function Take(s: seq<Doc>, n: nat): (r: seq<Doc>)
    ensures |r| == if |s| < n then |s| else n
    ensures r == s[..|r|]
  {
    if |s| <= n then s else s[..n]
  }

  /** `getRankedNews`: the scored documents, highest relevance first, at most 50. */
  function RankedNews(docs: seq<Doc>): seq<Doc>
  {
    Take(SortDesc(WithRelevance(docs), RelevanceKey), RANKED_LIMIT)
  }

  /** The ranked list holds min(50, n) of the n scored documents, each with
      a relevance score, ordered from the highest score; no higher-scored
      stored document is left out; and it holds every scored document when
      there are at most 50. */
  lemma RankedNewsIsTopScored(docs: seq<Doc>)
    ensures var r := RankedNews(docs);
      var scored := WithRelevance(docs);
      && |r| == (if |scored| < RANKED_LIMIT then |scored| else RANKED_LIMIT)
      && multiset(r) <= multiset(scored)
      && (forall i :: 0 <= i < |r| ==> r[i].relevance.Some? && r[i] in docs)
      && SortedDesc(r, RelevanceKey)
      && (r != [] ==> forall d :: d in multiset(scored) - multiset(r) ==> RelevanceKey(d) <= RelevanceKey(r[|r| - 1]))
      && (|scored| <= RANKED_LIMIT ==> multiset(r) == multiset(scored))
  {
    var scored := WithRelevance(docs);
    var sorted := SortDesc(scored, RelevanceKey);
    SortDescIsSortedPermutation(scored, RelevanceKey);
    var r := RankedNews(docs);
    TopOfSorted(sorted, scored);
    forall i | 0 <= i < |r| ensures r[i].relevance.Some? && r[i] in docs {
      assert r[i] == sorted[i];
      assert sorted[i] in multiset(scored);
      WithRelevanceKeeps(docs, sorted[i]);
    }
  }

  /** The first 50 of a descending ordering of `scored`: min(50, n) of its
      elements, in descending order, with every element left out scoring at
      most the last one kept, and all of them when n <= 50. */
  lemma TopOfSorted(sorted: seq<Doc>, scored: seq<Doc>)
    requires multiset(sorted) == multiset(scored) && SortedDesc(sorted, RelevanceKey)
    ensures var r := Take(sorted, RANKED_LIMIT);
      && |r| == (if |scored| < RANKED_LIMIT then |scored| else RANKED_LIMIT)
      && multiset(r) <= multiset(scored)
      && SortedDesc(r, RelevanceKey)
      && (r != [] ==> forall d :: d in multiset(scored) - multiset(r) ==> RelevanceKey(d) <= RelevanceKey(r[|r| - 1]))
      && (|scored| <= RANKED_LIMIT ==> multiset(r) == multiset(scored))
  {
    var r := Take(sorted, RANKED_LIMIT);
    assert |sorted| == |scored| by {
      assert |multiset(sorted)| == |multiset(scored)|;
    }
    assert r == sorted[..|r|];
    PrefixSorted(sorted, |r|);
    assert multiset(r) <= multiset(scored) by {
      assert sorted == r + sorted[|r|..];
    }
    if r != [] {
      PrefixLeavesOutLower(sorted, |r|);
    }
    if |scored| <= RANKED_LIMIT {
      assert r == sorted;
    }
  }

  lemma PrefixSorted(sorted: seq<Doc>, n: nat)
    requires SortedDesc(sorted, RelevanceKey) && n <= |sorted|
    ensures SortedDesc(sorted[..n], RelevanceKey)
  {
    forall i, j | 0 <= i < j < n ensures RelevanceKey(sorted[..n][i]) >= RelevanceKey(sorted[..n][j]) {
      assert sorted[..n][i] == sorted[i] && sorted[..n][j] == sorted[j];
    }
  }

  /** Cutting a descending list after `n` elements leaves out only elements
      whose key is at most the last one kept. */
  lemma PrefixLeavesOutLower(sorted: seq<Doc>, n: nat)
    requires SortedDesc(sorted, RelevanceKey) && 0 < n <= |sorted|
    ensures forall d :: d in multiset(sorted) - multiset(sorted[..n]) ==> RelevanceKey(d) <= RelevanceKey(sorted[n - 1])
  {
    var rest := sorted[n..];
    assert sorted == sorted[..n] + rest;
    assert multiset(sorted) - multiset(sorted[..n]) == multiset(rest);
    assert AtMost(rest, RelevanceKey(sorted[n - 1]), RelevanceKey) by {
      forall j | 0 <= j < |rest| ensures RelevanceKey(rest[j]) <= RelevanceKey(sorted[n - 1]) {
        assert rest[j] == sorted[n + j];
      }
    }
    forall d | d in multiset(rest) ensures RelevanceKey(d) <= RelevanceKey(sorted[n - 1]) {
      assert d in rest;
    }
  }
}
