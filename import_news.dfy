/*
 * The one-off import script scripts/importnews.js: fetch the technology
 * headlines and, article by article, look the url up in the Prisma
 * `newsArticle` table and create a row when it is absent. A failure on one
 * article is logged and the loop goes on; the process always exits with 0.
 *
 * The HTTP fetch is the parameter `fetched`; `new Date(...)` is `parseDate`
 * (None for an invalid date); the database's own acceptance of a row (its
 * schema, which is not part of this model) is `dbAccepts`.
 */
module ImportNews {
  import opened Common

  const UNKNOWN_SOURCE: string := "Unknown"
  const GENERAL_CATEGORY: string := "general"

  /** One element of the fetched `articles` array. `source` is None when the
      article has no `source` object, and holds its `name` otherwise. */
  datatype Article = Article(
    title: Option<string>,
    url: Option<string>,
    source: Option<Option<string>>,
    publishedAt: Option<string>,
    content: Option<string>,
    keywords: Option<seq<string>>,
    category: Option<string>)

  /** A row of the `newsArticle` table. */
  datatype Row = Row(
    title: Option<string>,
    url: Option<string>,
    source: string,
    publishedAt: int,
    content: Option<string>,
    keywords: seq<string>,
    category: string)

  datatype FetchResult =
    | FetchFailed                              // fetch or response.json() threw
    | Fetched(articles: Option<seq<Article>>)  // None: no `articles`

  /** `findFirst({ where: { url } })` finds a row. Prisma ignores a filter
      whose value is undefined, so a missing url finds any row. */
  predicate UrlTaken(rows: seq<Row>, url: Option<string>)
  {
    if url.None? then rows != []
    else exists i :: 0 <= i < |rows| && rows[i].url == url
  }

  /** The row built from an article, or None when building it throws: a
      missing `source` object makes `article.source.name` throw, and a
      missing or unparseable date makes an invalid Date that Prisma refuses. */
  function MakeRow(a: Article, parseDate: string -> Option<int>): (r: Option<Row>)
    ensures r.Some? <==> a.source.Some? && a.publishedAt.Some? && parseDate(a.publishedAt.value).Some?
    ensures r.Some? ==> r.value.url == a.url && r.value.source != "" && r.value.category != ""
                        && r.value.content != Some("")
  {
    if a.source.None? || a.publishedAt.None? then None
    else match parseDate(a.publishedAt.value)
      case None => None
      case Some(date) =>
        Some(Row(
          a.title,
          a.url,
          OrStr(a.source.value, UNKNOWN_SOURCE),
          date,
          if a.content.Some? && a.content.value != [] then a.content else None,
          OrElse(a.keywords, []),
          OrStr(a.category, GENERAL_CATEGORY)))
  }

  /** One iteration of the loop, with its `try`/`catch`. */
  function ImportStep(rows: seq<Row>, a: Article, parseDate: string -> Option<int>, dbAccepts: Row -> bool): seq<Row>
  {
    if UrlTaken(rows, a.url) then rows
    else match MakeRow(a, parseDate)
      case None => rows
      case Some(row) => if dbAccepts(row) then rows + [row] else rows
  }

  /** The table after the loop has visited `articles` in order. */
  function ImportAll(rows: seq<Row>, articles: seq<Article>, parseDate: string -> Option<int>,
                     dbAccepts: Row -> bool): seq<Row>
  {
    if articles == [] then rows
    else ImportStep(ImportAll(rows, articles[..|articles| - 1], parseDate, dbAccepts),
                    articles[|articles| - 1], parseDate, dbAccepts)
  }

  /** The table after one run of the script. */
  function ImportRun(rows: seq<Row>, fetched: FetchResult, parseDate: string -> Option<int>,
                     dbAccepts: Row -> bool): seq<Row>
  {
    match fetched
    case FetchFailed => rows
    case Fetched(None) => rows
    case Fetched(Some(articles)) => ImportAll(rows, articles, parseDate, dbAccepts)
  }

  class NewsTable {
    var rows: seq<Row>

    constructor (initial: seq<Row>)
      ensures rows == initial
    {
      rows := initial;
    }

    /** `prisma.newsArticle.create`, which succeeds exactly when the
        database accepts the row. */
    method Create(row: Row, dbAccepts: Row -> bool) returns (created: bool)
      modifies this
      ensures created == dbAccepts(row)
      ensures rows == if created then old(rows) + [row] else old(rows)
    {
      created := dbAccepts(row);
      if created {
        rows := rows + [row];
      }
    }
  }

  /** `fetchNews` followed by `process.exit(0)`. */
  method RunImport(table: NewsTable, fetched: FetchResult, parseDate: string -> Option<int>,
                   dbAccepts: Row -> bool) returns (exitCode: int)
    modifies table
    ensures table.rows == ImportRun(old(table.rows), fetched, parseDate, dbAccepts)
    ensures exitCode == 0
  {
    exitCode := 0;
    if fetched.FetchFailed? || fetched.articles.None? || |fetched.articles.value| == 0 {
      return;
    }
    var articles := fetched.articles.value;
    var i := 0;
    while i < |articles|
      invariant 0 <= i <= |articles|
      invariant table.rows == ImportAll(old(table.rows), articles[..i], parseDate, dbAccepts)
    {
      assert articles[..i + 1][..i] == articles[..i];
      var article := articles[i];
      var taken := UrlTaken(table.rows, article.url);
      if !taken {
        var row := MakeRow(article, parseDate);
        if row.Some? {
          var created := table.Create(row.value, dbAccepts);
        }
      }
      i := i + 1;
    }
    assert articles[..|articles|] == articles;
  }

  // ------------------------------------------------------------ properties

  /** No row from position `from` on repeats the url of an earlier row. */
  predicate NoRepeatedUrl(rows: seq<Row>, from: nat)
  {
    forall i :: from <= i < |rows| ==> !UrlTaken(rows[..i], rows[i].url)
  }

  lemma StepKeepsNoRepeatedUrl(rows: seq<Row>, from: nat, a: Article,
                               parseDate: string -> Option<int>, dbAccepts: Row -> bool)
    requires from <= |rows| && NoRepeatedUrl(rows, from)
    ensures var r := ImportStep(rows, a, parseDate, dbAccepts);
      |rows| <= |r| <= |rows| + 1 && r[..|rows|] == rows && NoRepeatedUrl(r, from)
  {
    var r := ImportStep(rows, a, parseDate, dbAccepts);
    if r != rows {
      var row := MakeRow(a, parseDate).value;
      assert r == rows + [row];
      forall i | from <= i < |r| ensures !UrlTaken(r[..i], r[i].url) {
        if i < |rows| {
          assert r[..i] == rows[..i] && r[i] == rows[i];
        } else {
          assert r[..i] == rows && r[i] == row;
        }
      }
    }
  }

  /** The row of `a` can be built and the database accepts it. */
  predicate Accepted(a: Article, parseDate: string -> Option<int>, dbAccepts: Row -> bool)
  {
    MakeRow(a, parseDate).Some? && dbAccepts(MakeRow(a, parseDate).value)
  }

  lemma UrlTakenGrows(rows: seq<Row>, r: seq<Row>, url: Option<string>)
    requires |rows| <= |r| && r[..|rows|] == rows && UrlTaken(rows, url)
    ensures UrlTaken(r, url)
  {
    if url.Some? {
      var i :| 0 <= i < |rows| && rows[i].url == url;
      assert r[i] == rows[i];
    }
  }

  /** Each article is created only after the previous one, and only when its
      url is not yet in the table: no row the run adds repeats the url of a
      row stored before it or added earlier in the same run, so a url
      repeated within one batch is inserted at most once. Conversely, every
      article whose row is built and accepted has its url in the table
      afterwards: it was there already, or the article was created. */
  lemma {:induction false} ImportAddsNoRepeatedUrl(rows: seq<Row>, articles: seq<Article>,
                                                   parseDate: string -> Option<int>, dbAccepts: Row -> bool)
    ensures var r := ImportAll(rows, articles, parseDate, dbAccepts);
      && |rows| <= |r| <= |rows| + |articles| && r[..|rows|] == rows && NoRepeatedUrl(r, |rows|)
      && forall k :: 0 <= k < |articles| && Accepted(articles[k], parseDate, dbAccepts) ==> UrlTaken(r, articles[k].url)
  {
    if articles == [] {
      assert rows[..|rows|] == rows;
    } else {
      var prefix := articles[..|articles| - 1];
      var a := articles[|articles| - 1];
      ImportAddsNoRepeatedUrl(rows, prefix, parseDate, dbAccepts);
      var mid := ImportAll(rows, prefix, parseDate, dbAccepts);
      StepKeepsNoRepeatedUrl(mid, |rows|, a, parseDate, dbAccepts);
      var r := ImportAll(rows, articles, parseDate, dbAccepts);
      assert r[..|rows|] == r[..|mid|][..|rows|];
      forall k | 0 <= k < |articles| && Accepted(articles[k], parseDate, dbAccepts)
        ensures UrlTaken(r, articles[k].url)
      {
        if k < |prefix| {
          assert prefix[k] == articles[k];
          UrlTakenGrows(mid, r, articles[k].url);
        } else if UrlTaken(mid, a.url) {
          UrlTakenGrows(mid, r, a.url);
        } else {
          assert r == mid + [MakeRow(a, parseDate).value];
          assert r[|mid|].url == a.url;
        }
      }
    }
  }

  lemma {:induction false} ImportAllSplit(rows: seq<Row>, xs: seq<Article>, ys: seq<Article>,
                                          parseDate: string -> Option<int>, dbAccepts: Row -> bool)
    ensures ImportAll(rows, xs + ys, parseDate, dbAccepts)
            == ImportAll(ImportAll(rows, xs, parseDate, dbAccepts), ys, parseDate, dbAccepts)
  {
    if ys == [] {
      assert xs + ys == xs;
    } else {
      ImportAllSplit(rows, xs, ys[..|ys| - 1], parseDate, dbAccepts);
      assert (xs + ys)[..|xs + ys| - 1] == xs + ys[..|ys| - 1];
    }
  }

  /** An article that fails (no source object, an invalid date, or a row the
      database refuses) changes nothing, and the loop goes on with the rest
      exactly as if it had not been there. */
  lemma FailureIsIsolated(rows: seq<Row>, xs: seq<Article>, bad: Article, ys: seq<Article>,
                          parseDate: string -> Option<int>, dbAccepts: Row -> bool)
    requires var made := MakeRow(bad, parseDate); made.None? || !dbAccepts(made.value)
    ensures ImportAll(rows, xs + [bad] + ys, parseDate, dbAccepts) == ImportAll(rows, xs + ys, parseDate, dbAccepts)
  {
    ImportAllSplit(rows, xs + [bad], ys, parseDate, dbAccepts);
    ImportAllSplit(rows, xs, ys, parseDate, dbAccepts);
    assert (xs + [bad])[..|xs + [bad]| - 1] == xs;
  }

  /** A failed fetch, or a response without articles, leaves the table as it was. */
  lemma NothingToImport(rows: seq<Row>, fetched: FetchResult, parseDate: string -> Option<int>, dbAccepts: Row -> bool)
    requires fetched.FetchFailed? || fetched.articles.None? || fetched.articles.value == []
    ensures ImportRun(rows, fetched, parseDate, dbAccepts) == rows
  {
  }
}
