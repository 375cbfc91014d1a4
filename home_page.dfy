/*
 * The home page frontend/pages/index.js: the latest articles, the
 * AI-ranked list (only for a signed-in user with ranking switched on), the
 * categories whose carousels are shown (the user's preferred ones, or three
 * defaults picked at random for a visitor), the carousels themselves and
 * the eight-card cap of the `Carousel` component.
 *
 * The three GET requests are parameters (None for a request that throws);
 * `Math.random()` is the sequence `picks` of random choices.
 */
module HomePage {
  import opened Common

  const CAROUSEL_CAP: nat := 8
  const VISITOR_CATEGORIES: nat := 3
  const FETCH_ERROR: string := "Error fetching news data."

  const DEFAULT_CATEGORIES: seq<string> :=
    ["Technology", "Business", "Sports", "Entertainment", "Science", "Health", "Politics", "Finance", "Gaming"]

  /** The parts of an article the page reads; `category` is None when absent. */
  datatype Article = Article(title: Option<string>, category: Option<string>)

  datatype CategoryCarousel = CategoryCarousel(category: string, articles: seq<Article>)

  // ------------------------------------------------------------ random pick

  function RemoveAt<T>(s: seq<T>, k: nat): (r: seq<T>)
    requires k < |s|
    ensures |r| == |s| - 1
    ensures multiset(r) + multiset{s[k]} == multiset(s)
  {
    assert s == s[..k] + [s[k]] + s[k + 1..];
    s[..k] + s[k + 1..]
  }

  /** `[...arr].sort(() => 0.5 - Math.random())`: some order of the same
      elements, chosen by the random source `picks`. */
  function Shuffle<T>(arr: seq<T>, picks: seq<nat>): (r: seq<T>)
    ensures |r| == |arr|
    ensures multiset(r) == multiset(arr)
    decreases |arr|
  {
    if arr == [] then []
    else
      var k := (if picks == [] then 0 else picks[0]) % |arr|;
      [arr[k]] + Shuffle(RemoveAt(arr, k), if picks == [] then [] else picks[1..])
  }

  /** `pickRandomCategories(arr, n)`. */
  function PickRandomCategories(arr: seq<string>, n: nat, picks: seq<nat>): seq<string>
  {
    var shuffled := Shuffle(arr, picks);
    shuffled[..if n < |shuffled| then n else |shuffled|]
  }

  // ------------------------------------------------------------ carousels

  /** `article.category && article.category.toLowerCase() === cat.toLowerCase()`. */
  predicate InCategory(a: Article, cat: string)
  {
    a.category.Some? && a.category.value != "" && ToLower(a.category.value) == ToLower(cat)
  }

  /** `latest.filter(...)` for one category. */
  function Carousel(latest: seq<Article>, cat: string): (r: seq<Article>)
    ensures forall a :: a in r <==> a in latest && InCategory(a, cat)
  {
    if latest == [] then []
    else
      var rest := Carousel(latest[1..], cat);
      assert forall a :: a in latest <==> a == latest[0] || a in latest[1..];
      if InCategory(latest[0], cat) then [latest[0]] + rest else rest
  }

  /** `categories.map(cat => ({ category: cat, articles: ... }))`. */
  function Carousels(categories: seq<string>, latest: seq<Article>): (r: seq<CategoryCarousel>)
    ensures |r| == |categories|
    ensures forall i :: 0 <= i < |r| ==> r[i] == CategoryCarousel(categories[i], Carousel(latest, categories[i]))
  {
    seq(|categories|, i requires 0 <= i < |categories| => CategoryCarousel(categories[i], Carousel(latest, categories[i])))
  }

  /** `articles ? articles.slice(0, 8) : []`. */
  function Displayed(articles: Option<seq<Article>>): seq<Article>
  {
    if articles.None? then []
    else articles.value[..if CAROUSEL_CAP < |articles.value| then CAROUSEL_CAP else |articles.value|]
  }

  // ------------------------------------------------------------ fetchData

  /** The page state `fetchData` writes. */
  datatype HomeState = HomeState(
    latestNews: seq<Article>,
    aiRankedNews: seq<Article>,
    prefCategories: seq<string>,
    categoryCarousels: seq<CategoryCarousel>,
    error: string)

  /** The categories whose carousels are shown. */
  function ChosenCategories(signedIn: bool, prefCategories: Option<seq<string>>, picks: seq<nat>): seq<string>
  {
    if signedIn then OrElse(prefCategories, []) else PickRandomCategories(DEFAULT_CATEGORIES, VISITOR_CATEGORIES, picks)
  }

  /** One run of `fetchData`. Each response is None when its request throws,
      and otherwise holds `data?.articles` (or `data?.categories`). A request
      that throws stops the run with the error message, after what was
      already set. */
  function FetchData(s: HomeState, signedIn: bool, aiRankingEnabled: bool,
                     latestRes: Option<Option<seq<Article>>>, aiRes: Option<Option<seq<Article>>>,
                     prefRes: Option<Option<seq<string>>>, picks: seq<nat>): HomeState
  {
    var s0 := s.(error := "");
    if latestRes.None? then s0.(error := FETCH_ERROR)
    else
      var latest := OrElse(latestRes.value, []);
      var s1 := s0.(latestNews := latest);
      var wantsAi := signedIn && aiRankingEnabled;
      if wantsAi && aiRes.None? then s1.(error := FETCH_ERROR)
      else
        var s2 := s1.(aiRankedNews := if wantsAi then OrElse(aiRes.value, []) else []);
        if signedIn && prefRes.None? then s2.(error := FETCH_ERROR)
        else
          var categories := ChosenCategories(signedIn, if signedIn then prefRes.value else None, picks);
          s2.(prefCategories := categories, categoryCarousels := Carousels(categories, latest))
  }

  // ------------------------------------------------------------ properties

  /** A carousel holds exactly the latest articles whose category is present
      and equal to the carousel's ignoring case, in their original order. */
  lemma {:induction false} CarouselIsOrderedFilter(xs: seq<Article>, ys: seq<Article>, cat: string)
    ensures Carousel(xs + ys, cat) == Carousel(xs, cat) + Carousel(ys, cat)
  {
    if xs == [] {
      assert xs + ys == ys;
    } else {
      assert (xs + ys)[1..] == xs[1..] + ys;
      CarouselIsOrderedFilter(xs[1..], ys, cat);
    }
  }

  /** An article without a category (or with an empty one) is in no carousel. */
  lemma UncategorisedInNoCarousel(latest: seq<Article>, categories: seq<string>, a: Article)
    requires a.category.None? || a.category.value == ""
    ensures forall c :: c in Carousels(categories, latest) ==> a !in c.articles
  {
  }

  /** Categories that differ only in case get the same carousel. */
  lemma CaseDoesNotMatter(latest: seq<Article>, c1: string, c2: string)
    requires ToLower(c1) == ToLower(c2)
    ensures Carousel(latest, c1) == Carousel(latest, c2)
  {
    if latest != [] {
      CaseDoesNotMatter(latest[1..], c1, c2);
    }
  }

  /** A carousel shows the first min(8, n) articles, and nothing for a missing list. */
  lemma DisplayedIsCappedPrefix(articles: Option<seq<Article>>)
    ensures articles.None? ==> Displayed(articles) == []
    ensures articles.Some? ==>
      var n := |articles.value|;
      && |Displayed(articles)| == (if n < CAROUSEL_CAP then n else CAROUSEL_CAP)
      && Displayed(articles) == articles.value[..|Displayed(articles)|]
  {
  }

  predicate Distinct(s: seq<string>)
  {
    forall i, j :: 0 <= i < j < |s| ==> s[i] != s[j]
  }

  lemma RemoveAtDistinct(s: seq<string>, k: nat)
    requires k < |s| && Distinct(s)
    ensures Distinct(RemoveAt(s, k)) && s[k] !in RemoveAt(s, k)
  {
    var r := RemoveAt(s, k);
    assert forall i :: 0 <= i < |r| ==> r[i] == s[if i < k then i else i + 1];
  }

  /** Shuffling a list without repeats gives a list without repeats. */
  lemma {:induction false} ShuffleDistinct(arr: seq<string>, picks: seq<nat>)
    requires Distinct(arr)
    ensures Distinct(Shuffle(arr, picks))
    decreases |arr|
  {
    if arr != [] {
      var k := (if picks == [] then 0 else picks[0]) % |arr|;
      var rest := RemoveAt(arr, k);
      var picks' := if picks == [] then [] else picks[1..];
      RemoveAtDistinct(arr, k);
      ShuffleDistinct(rest, picks');
      var tail := Shuffle(rest, picks');
      assert arr[k] !in tail by {
        assert multiset(tail) == multiset(rest);
        assert arr[k] !in multiset(rest);
      }
      ConsDistinct(arr[k], tail);
    }
  }

  lemma ConsDistinct(x: string, t: seq<string>)
    requires x !in t && Distinct(t)
    ensures Distinct([x] + t)
  {
    var r := [x] + t;
    forall i, j | 0 <= i < j < |r| ensures r[i] != r[j] {
      assert r[j] == t[j - 1];
      if i > 0 {
        assert r[i] == t[i - 1];
      }
    }
  }

  lemma DefaultsDistinct()
    ensures Distinct(DEFAULT_CATEGORIES)
  {
    var d := DEFAULT_CATEGORIES;
    assert |d| == 9;
    var initials := "TBSESHPFG";
    var seconds := "eupnceoia";
    forall i | 0 <= i < 9 ensures d[i][0] == initials[i] && d[i][1] == seconds[i] {
    }
    forall i, j | 0 <= i < j < 9 ensures d[i] != d[j] {
      assert initials[i] != initials[j] || seconds[i] != seconds[j];
    }
  }

  /** `pickRandomCategories(arr, n)` on a list without repeats returns
      min(n, |arr|) different elements of the list. */
  lemma PickIsDistinctSubset(arr: seq<string>, n: nat, picks: seq<nat>)
    requires Distinct(arr)
    ensures var cats := PickRandomCategories(arr, n, picks);
      && |cats| == (if n < |arr| then n else |arr|)
      && (forall c :: c in cats ==> c in arr)
      && Distinct(cats)
  {
    var shuffled := Shuffle(arr, picks);
    ShuffleDistinct(arr, picks);
    var cats := PickRandomCategories(arr, n, picks);
    forall c | c in cats ensures c in arr {
      assert c in shuffled;
      assert c in multiset(shuffled);
    }
  }

  /** A visitor gets three different default categories, whatever the
      random source. */
  lemma VisitorGetsThreeDistinctDefaults(picks: seq<nat>)
    ensures var cats := PickRandomCategories(DEFAULT_CATEGORIES, VISITOR_CATEGORIES, picks);
      && |cats| == 3
      && (forall c :: c in cats ==> c in DEFAULT_CATEGORIES)
      && Distinct(cats)
  {
    DefaultsDistinct();
    PickIsDistinctSubset(DEFAULT_CATEGORIES, VISITOR_CATEGORIES, picks);
  }

  /** After a run in which no request fails: one carousel per chosen
      category, in order; the AI-ranked list is empty unless the user is
      signed in with ranking on; a signed-in user's carousels follow the
      preferences. */
  lemma FetchDataShape(s: HomeState, signedIn: bool, aiRankingEnabled: bool,
                       latest: Option<seq<Article>>, ai: Option<seq<Article>>, prefs: Option<seq<string>>,
                       picks: seq<nat>)
    ensures var r := FetchData(s, signedIn, aiRankingEnabled, Some(latest), Some(ai), Some(prefs), picks);
      && r.error == ""
      && r.latestNews == OrElse(latest, [])
      && (r.aiRankedNews != [] ==> signedIn && aiRankingEnabled)
      && |r.categoryCarousels| == |r.prefCategories|
      && (forall i :: 0 <= i < |r.categoryCarousels| ==>
            r.categoryCarousels[i].category == r.prefCategories[i]
            && (forall a :: a in r.categoryCarousels[i].articles <==> a in r.latestNews && InCategory(a, r.prefCategories[i])))
      && (signedIn ==> r.prefCategories == OrElse(prefs, []))
      && (!signedIn ==> |r.prefCategories| == 3)
  {
    if !signedIn {
      VisitorGetsThreeDistinctDefaults(picks);
    }
  }

  /** A failed request leaves the error message set and the carousels as
      they were. */
  lemma FailureKeepsCarousels(s: HomeState, signedIn: bool, aiRankingEnabled: bool,
                              latestRes: Option<Option<seq<Article>>>, aiRes: Option<Option<seq<Article>>>,
                              prefRes: Option<Option<seq<string>>>, picks: seq<nat>)
    requires latestRes.None? || (signedIn && aiRankingEnabled && aiRes.None?) || (signedIn && prefRes.None?)
    ensures var r := FetchData(s, signedIn, aiRankingEnabled, latestRes, aiRes, prefRes, picks);
      r.error == FETCH_ERROR && r.categoryCarousels == s.categoryCarousels && r.prefCategories == s.prefCategories
  {
  }
}
