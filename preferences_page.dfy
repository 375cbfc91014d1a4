/*
 * The preferences page frontend/pages/preferences.js: the category toggle,
 * the keyword tags, the reconciliation of the preferences kept in the
 * browser's localStorage with those stored in the database, and the
 * autosave that writes both.
 *
 * The page's React state and the "preferences" localStorage item are the
 * fields of class `PreferencesPage`; the bodies POSTed to /api/preferences
 * are recorded, in order, in its field `posted`. What GET /api/preferences
 * answers is the parameter `db`; `new Date()` is `now`; whether a POST
 * succeeds is `postOk`.
 */
module PreferencesPage {
  import opened Common

  const SAVED: string := "Preferences saved."
  const SAVE_FAILED: string := "Error saving preferences."

  /** A preferences object; `updatedAt` is None when missing or empty. */
  datatype Prefs = Prefs(categories: seq<string>, keywords: seq<string>, updatedAt: Option<int>)

  /** The "preferences" localStorage item: absent (or empty), present but
      not valid JSON, or a preferences object. */
  datatype LocalItem = NoItem | Unreadable | Item(prefs: Prefs)

  /** The answer of GET /api/preferences: a failed request, or its data. */
  datatype DbAnswer = GetFailed | Got(prefs: Option<Prefs>)

  // ------------------------------------------------------------ list edits

  /** `xs.filter(y => y !== x)`. */
  function Without(xs: seq<string>, x: string): (r: seq<string>)
    ensures forall y :: y in r <==> y in xs && y != x
    ensures |r| <= |xs|
  {
    if xs == [] then []
    else
      var rest := Without(xs[1..], x);
      assert forall y :: y in xs <==> y == xs[0] || y in xs[1..];
      if xs[0] == x then rest else [xs[0]] + rest
  }

  /** `toggleCategory`: remove every occurrence of a selected category,
      append an unselected one. */
  function Toggle(selected: seq<string>, category: string): seq<string>
  {
    if category in selected then Without(selected, category) else selected + [category]
  }

  /** `addKeyword`: the new keyword list and the new input. */
  function AddKeyword(keywords: seq<string>, input: string): (seq<string>, string)
  {
    var trimmed := Trim(input);
    if trimmed != "" && trimmed !in keywords then (keywords + [trimmed], "") else (keywords, input)
  }

  /** `removeKeyword`. */
  function RemoveKeyword(keywords: seq<string>, tag: string): seq<string>
  {
    Without(keywords, tag)
  }

  predicate NoDuplicates(xs: seq<string>)
  {
    forall i, j :: 0 <= i < j < |xs| ==> xs[i] != xs[j]
  }

  // ------------------------------------------------------------ resolution

  /** What `fetchPreferences` settles on: the preferences shown, whether the
      local copy is POSTed to the database, and whether the database copy is
      written to localStorage. */
  datatype Resolution = Resolution(shown: Option<Prefs>, postLocal: bool, storeDb: bool)

  function Resolve(local: Option<Prefs>, db: Option<Prefs>): Resolution
  {
    if local.Some? && db.Some? && local.value.updatedAt.Some? && db.value.updatedAt.Some? then
      if local.value.updatedAt.value > db.value.updatedAt.value then Resolution(local, true, false)
      else Resolution(db, false, true)
    else if local.Some? then Resolution(local, false, false)
    else if db.Some? then Resolution(db, false, true)
    else Resolution(None, false, false)
  }

  class PreferencesPage {
    var selectedCategories: seq<string>
    var keywords: seq<string>
    var inputValue: string
    var message: string
    var localStorage: LocalItem
    var posted: seq<Prefs>

    constructor (stored: LocalItem)
      ensures selectedCategories == [] && keywords == [] && inputValue == "" && message == ""
      ensures localStorage == stored && posted == []
    {
      selectedCategories := [];
      keywords := [];
      inputValue := "";
      message := "";
      localStorage := stored;
      posted := [];
    }

    method ToggleCategory(category: string)
      modifies this
      ensures selectedCategories == Toggle(old(selectedCategories), category)
      ensures keywords == old(keywords) && inputValue == old(inputValue)
      ensures localStorage == old(localStorage) && posted == old(posted) && message == old(message)
    {
      selectedCategories := Toggle(selectedCategories, category);
    }

    method AddTag()
      modifies this
      ensures (keywords, inputValue) == AddKeyword(old(keywords), old(inputValue))
      ensures selectedCategories == old(selectedCategories)
      ensures localStorage == old(localStorage) && posted == old(posted) && message == old(message)
    {
      var trimmed := Trim(inputValue);
      if trimmed != "" && trimmed !in keywords {
        keywords := keywords + [trimmed];
        inputValue := "";
      }
    }

    method RemoveTag(tag: string)
      modifies this
      ensures keywords == RemoveKeyword(old(keywords), tag)
      ensures selectedCategories == old(selectedCategories) && inputValue == old(inputValue)
      ensures localStorage == old(localStorage) && posted == old(posted) && message == old(message)
    {
      keywords := RemoveKeyword(keywords, tag);
    }

    /** `fetchPreferences`, run when the page mounts; it does nothing
        without a signed-in user id, and a failed GET or an unreadable
        local item ends it in its `catch` with nothing changed. */
    method FetchPreferences(signedIn: bool, db: DbAnswer)
      modifies this
      ensures var local := if old(localStorage).Item? then Some(old(localStorage).prefs) else None;
        var res := Resolve(local, if db.Got? then db.prefs else None);
        if !signedIn || db.GetFailed? || old(localStorage).Unreadable? then
          selectedCategories == old(selectedCategories) && keywords == old(keywords)
          && localStorage == old(localStorage) && posted == old(posted)
        else
          && (res.shown.Some? ==> selectedCategories == res.shown.value.categories && keywords == res.shown.value.keywords)
          && (res.shown.None? ==> selectedCategories == old(selectedCategories) && keywords == old(keywords))
          && localStorage == (if res.storeDb then Item(db.prefs.value) else old(localStorage))
          && posted == old(posted) + (if res.postLocal then [local.value] else [])
      ensures inputValue == old(inputValue) && message == old(message)
    {
      if !signedIn || db.GetFailed? || localStorage.Unreadable? {
        return;
      }
      var dbPrefs := db.prefs;
      var localPrefs := if localStorage.Item? then Some(localStorage.prefs) else None;
      if localPrefs.Some? && dbPrefs.Some? && localPrefs.value.updatedAt.Some? && dbPrefs.value.updatedAt.Some? {
        if localPrefs.value.updatedAt.value > dbPrefs.value.updatedAt.value {
          selectedCategories := localPrefs.value.categories;
          keywords := localPrefs.value.keywords;
          posted := posted + [localPrefs.value];
        } else {
          selectedCategories := dbPrefs.value.categories;
          keywords := dbPrefs.value.keywords;
          localStorage := Item(dbPrefs.value);
        }
      } else if localPrefs.Some? {
        selectedCategories := localPrefs.value.categories;
        keywords := localPrefs.value.keywords;
      } else if dbPrefs.Some? {
        selectedCategories := dbPrefs.value.categories;
        keywords := dbPrefs.value.keywords;
        localStorage := Item(dbPrefs.value);
      }
    }

    /** The debounced autosave, once its timer fires. */
    method AutoSave(signedIn: bool, now: int, postOk: bool)
      modifies this
      ensures localStorage == Item(Prefs(old(selectedCategories), old(keywords), Some(now)))
      ensures posted == old(posted) + if signedIn then [Prefs(old(selectedCategories), old(keywords), Some(now))] else []
      ensures message == if !signedIn then old(message) else if postOk then SAVED else SAVE_FAILED
      ensures selectedCategories == old(selectedCategories) && keywords == old(keywords) && inputValue == old(inputValue)
    {
      var newPrefs := Prefs(selectedCategories, keywords, Some(now));
      localStorage := Item(newPrefs);
      if signedIn {
        posted := posted + [newPrefs];
        message := if postOk then SAVED else SAVE_FAILED;
      }
    }
  }

  // ------------------------------------------------------------ properties

  /** Toggling flips the category's membership and leaves every other
      category's membership as it was; an unselected category goes to the end. */
  lemma ToggleFlipsMembership(selected: seq<string>, category: string)
    ensures var r := Toggle(selected, category);
      && (category in r <==> category !in selected)
      && (forall other :: other != category ==> (other in r <==> other in selected))
      && (category !in selected ==> r == selected + [category])
  {
  }

  /** `Without` keeps the other elements in their order. */
  lemma {:induction false} WithoutAbsent(xs: seq<string>, x: string)
    requires x !in xs
    ensures Without(xs, x) == xs
  {
    if xs != [] {
      assert x !in xs[1..];
      WithoutAbsent(xs[1..], x);
    }
  }

  lemma {:induction false} WithoutAppend(xs: seq<string>, y: string, x: string)
    ensures Without(xs + [y], x) == Without(xs, x) + (if y == x then [] else [y])
  {
    if xs == [] {
      assert [y][1..] == [];
    } else {
      assert (xs + [y])[1..] == xs[1..] + [y];
      WithoutAppend(xs[1..], y, x);
    }
  }

  /** Selecting and then deselecting a category restores the list. */
  lemma ToggleTwiceRestores(selected: seq<string>, category: string)
    requires category !in selected
    ensures Toggle(Toggle(selected, category), category) == selected
  {
    WithoutAppend(selected, category, category);
    WithoutAbsent(selected, category);
  }

  /** A keyword is added, and the input cleared, exactly when the trimmed
      input is non-empty and new; otherwise both stay as they were. Adding
      keeps the list free of duplicates. */
  lemma AddKeywordRule(keywords: seq<string>, input: string)
    ensures var (k, i) := AddKeyword(keywords, input);
      var t := Trim(input);
      && (k != keywords <==> t != "" && t !in keywords)
      && (k != keywords ==> k == keywords + [t] && i == "")
      && (k == keywords ==> i == input)
      && (NoDuplicates(keywords) ==> NoDuplicates(k))
  {
    var (k, i) := AddKeyword(keywords, input);
    var t := Trim(input);
    if t != "" && t !in keywords {
      assert |k| == |keywords| + 1;
      if NoDuplicates(keywords) {
        forall a, b | 0 <= a < b < |k| ensures k[a] != k[b] {
          if b == |keywords| {
            assert k[a] == keywords[a];
          }
        }
      }
    }
  }

  /** Removing a tag drops every copy of it and keeps the rest in order;
      removing a keyword just added gives back the list it was added to. */
  lemma RemoveUndoesAdd(keywords: seq<string>, input: string)
    requires Trim(input) != "" && Trim(input) !in keywords
    ensures RemoveKeyword(AddKeyword(keywords, input).0, Trim(input)) == keywords
  {
    WithoutAppend(keywords, Trim(input), Trim(input));
    WithoutAbsent(keywords, Trim(input));
  }

  lemma RemoveKeywordRule(keywords: seq<string>, tag: string)
    ensures var r := RemoveKeyword(keywords, tag);
      tag !in r && (forall k :: k != tag ==> (k in r <==> k in keywords))
  {
  }

  /** With both copies dated, the local copy wins exactly when it is
      strictly newer, and is then POSTed; otherwise (a tie included) the
      database copy wins and is written to localStorage. */
  lemma NewerCopyWins(local: Prefs, db: Prefs)
    requires local.updatedAt.Some? && db.updatedAt.Some?
    ensures var res := Resolve(Some(local), Some(db));
      && (res.shown == Some(local) <==> local.updatedAt.value > db.updatedAt.value || local == db)
      && (res.postLocal <==> local.updatedAt.value > db.updatedAt.value)
      && (res.storeDb <==> local.updatedAt.value <= db.updatedAt.value)
  {
  }

  /** With only one copy (or a copy without a date) the local copy is used
      as it is; a database copy alone is used and written locally. */
  lemma SingleCopyIsUsed(local: Option<Prefs>, db: Option<Prefs>)
    requires local.None? || db.None? || local.value.updatedAt.None? || db.value.updatedAt.None?
    ensures local.Some? ==> Resolve(local, db) == Resolution(local, false, false)
    ensures local.None? && db.Some? ==> Resolve(local, db) == Resolution(db, false, true)
    ensures local.None? && db.None? ==> Resolve(local, db) == Resolution(None, false, false)
  {
  }

  /** The database is only ever sent a copy that is strictly newer than the
      database's own, and localStorage only ever receives the database copy
      when it is not older than the local one. */
  lemma ResolutionNeverGoesBack(local: Option<Prefs>, db: Option<Prefs>)
    ensures var res := Resolve(local, db);
      && (res.postLocal ==> local.Some? && db.Some? && local.value.updatedAt.Some? && db.value.updatedAt.Some?
                            && local.value.updatedAt.value > db.value.updatedAt.value)
      && (res.storeDb ==> db.Some? && res.shown == db
                          && (local.Some? && local.value.updatedAt.Some? && db.value.updatedAt.Some? ==>
                                local.value.updatedAt.value <= db.value.updatedAt.value))
  {
  }
}
