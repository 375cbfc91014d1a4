/*
 * The Python summarisation worker (backend/services/summarization/summarizer.py):
 * the length and timeout arithmetic of `summarize_text`, `clean_text`, and the
 * per-line decision of `process_input`.
 *
 * The transformers pipeline, together with the wall-clock comparison of its
 * running time against the timeout, is the parameter `model`, which reports
 * whether it produced a summary in time, finished late, or raised.
 * json.loads is the abstract partial function `parse`.
 */
module SummarizerWorker {
  import opened Common

  /** Inputs of fewer words than this are returned as they are. */
  const SHORT_INPUT_WORDS: nat := 10
  /** Longer inputs are cut to this many words (the source's comment says 100). */
  const WORD_CAP: nat := 120
  const INVALID_INPUT: string := "Error: Invalid input type"
  const LATE_PREFIX_CHARS: nat := 150
  const ELLIPSIS: char := '\U{2026}'

  /** What one call of the summarisation model did. */
  datatype ModelOutcome =
    | InTime(summaryText: string)  // finished within dynamic_timeout
    | Late                         // finished, but after dynamic_timeout
    | Raised(message: string)      // raised an exception

  /** The `min_length` and `max_length` passed to the model. */
  datatype Bounds = Bounds(minLength: int, maxLength: int)

  /** What the worker writes for one request line. */
  datatype Reply = Summaries(items: seq<string>) | Failure(message: string)

  function Max(a: int, b: int): int { if a < b then b else a }
  function Min(a: int, b: int): int { if a < b then a else b }

  /** The summary length bounds for an input of `n >= 10` words: the minimum
      is below the maximum, the maximum is at most 120 and below the input's
      word count, and the minimum is at least 4. */
  function LengthBounds(n: nat): (b: Bounds)
    requires n >= SHORT_INPUT_WORDS
    ensures 4 <= b.minLength < b.maxLength <= 120
    ensures b.maxLength < n
  {
    var minLength := Max(15, n / 6);
    var maxLength := Min(120, Max(minLength + 10, n / 4));
    var maxLength' := if maxLength >= n then n - 1 else maxLength;
    var minLength' := if minLength >= maxLength' then maxLength' - 5 else minLength;
    Bounds(minLength', maxLength')
  }

  /** `dynamic_timeout`, in seconds, from the (possibly cut) word count. */
  function DynamicTimeout(words: nat): (t: int)
    ensures 3 <= t <= 9
  {
    Min(9, Max(3, words / 50))
  }

  /** The hard trim: inputs over 120 words keep their first 120 words, joined
      by single spaces. */
  function CutToCap(text: string): string
  {
    var ws := Words(text);
    if |ws| > WORD_CAP then Join(ws[..WORD_CAP], " ") else text
  }

  /** After the hard trim the input has min(n, 120) words, and those are its
      first words. */
  lemma CutToCapWords(text: string)
    ensures var n := |Words(text)|;
      Words(CutToCap(text)) == Words(text)[..if n > WORD_CAP then WORD_CAP else n]
  {
    var ws := Words(text);
    if |ws| > WORD_CAP {
      WordsPrefix(text, WORD_CAP);
      WordsOfJoin(ws[..WORD_CAP]);
    } else {
      assert ws[..|ws|] == ws;
    }
  }

  lemma WordsPrefix(text: string, k: nat)
    requires k <= |Words(text)|
    ensures AllWords(Words(text)[..k])
  {
    var ws := Words(text);
    forall i | 0 <= i < k ensures IsWord(ws[..k][i]) { assert ws[..k][i] == ws[i]; }
  }

  /** Because the timeout is computed after the trim, from at most 120 words,
      it is always 3 seconds. */
  lemma TimeoutIsAlwaysThree(text: string)
    ensures DynamicTimeout(|Words(CutToCap(text))|) == 3
  {
    CutToCapWords(text);
  }

  predicate NoEllipsis(s: string)
  {
    forall i :: 0 <= i < |s| ==> s[i] != ELLIPSIS
  }

  /** `text.replace("…", "...")`. */
  function ReplaceEllipsis(s: string): (r: string)
    ensures NoEllipsis(r)
  {
    if s == [] then ""
    else (if s[0] == ELLIPSIS then "..." else [s[0]]) + ReplaceEllipsis(s[1..])
  }

  /** `clean_text` without `html.unescape`. */
  function CleanText(s: string): string
  {
    Trim(ReplaceEllipsis(s))
  }

  lemma SliceNoEllipsis(s: string, lo: nat, hi: nat)
    requires NoEllipsis(s) && lo <= hi <= |s|
    ensures NoEllipsis(s[lo..hi])
  {
    forall i | 0 <= i < hi - lo ensures s[lo..hi][i] != ELLIPSIS {
      assert s[lo..hi][i] == s[lo + i];
    }
  }

  /** The replacement works character by character: "…" becomes "...", any
      other character stays, and the pieces of a text are replaced
      independently; so a text without "…" is returned unchanged. */
  lemma {:induction false} ReplaceEllipsisRule(a: string, b: string, c: char)
    ensures ReplaceEllipsis(a + b) == ReplaceEllipsis(a) + ReplaceEllipsis(b)
    ensures ReplaceEllipsis([c]) == if c == ELLIPSIS then "..." else [c]
    ensures NoEllipsis(a) ==> ReplaceEllipsis(a) == a
    decreases |a|
  {
    assert [c][1..] == [];
    if a == [] {
      assert a + b == b;
    } else {
      assert (a + b)[0] == a[0] && (a + b)[1..] == a[1..] + b;
      ReplaceEllipsisRule(a[1..], b, c);
      assert NoEllipsis(a) ==> NoEllipsis(a[1..]) by {
        if NoEllipsis(a) {
          forall i | 0 <= i < |a[1..]| ensures a[1..][i] != ELLIPSIS { assert a[1..][i] == a[i + 1]; }
        }
      }
    }
  }

  /** A cleaned summary is the replaced text with its leading and trailing
      whitespace cut off: it holds no ellipsis character, neither starts nor
      ends with whitespace, and what was cut is all whitespace. */
  lemma CleanTextIsClean(s: string)
    ensures var e := ReplaceEllipsis(s);
      var r := CleanText(s);
      && NoEllipsis(r)
      && (r != [] ==> !IsSpace(r[0]) && !IsSpace(r[|r| - 1]))
      && CutFrom(r, e)
  {
    CleanTextEdges(s);
    TrimIsSlice(ReplaceEllipsis(s));
  }

  lemma CleanTextEdges(s: string)
    ensures var r := CleanText(s);
      && NoEllipsis(r)
      && (r != [] ==> !IsSpace(r[0]) && !IsSpace(r[|r| - 1]))
  {
    var e := ReplaceEllipsis(s);
    var t := TrimStart(e);
    var r := TrimEnd(t);
    SliceNoEllipsis(e, |e| - |t|, |e|);
    assert NoEllipsis(t);
    SliceNoEllipsis(t, 0, |r|);
    if r != [] {
      assert r[0] == t[0];
    }
  }

  function TakeChars(s: string, n: nat): (r: string)
    ensures |r| == Min(|s|, n) && r == s[..|r|]
  {
    if |s| <= n then s else s[..n]
  }

  /** `summarize_text`. */
  function SummarizeText(input: Json, model: (string, Bounds, int) -> ModelOutcome): string
  {
    if !input.JStr? then INVALID_INPUT
    else
      var text := input.s;
      var n := |Words(text)|;
      if n < SHORT_INPUT_WORDS then text
      else
        var bounds := LengthBounds(n);
        var cut := CutToCap(text);
        var timeout := DynamicTimeout(|Words(cut)|);
        match model(cut, bounds, timeout)
        case InTime(summary) => CleanText(summary)
        case Late => TakeChars(cut, LATE_PREFIX_CHARS) + "..."
        case Raised(message) => "Error summarizing: " + message
  }

  /** A non-string input is refused, and a string of fewer than ten words comes
      back unchanged, without calling the model. */
  lemma ShortOrInvalidInputSkipsModel(input: Json, model: (string, Bounds, int) -> ModelOutcome)
    requires !input.JStr? || |Words(input.s)| < SHORT_INPUT_WORDS
    ensures SummarizeText(input, model) == if input.JStr? then input.s else INVALID_INPUT
  {
  }

  /** For ten words or more the model sees at most 120 words, bounds with
      4 <= min < max <= 120 and max below the word count, and a 3-second timeout. */
  lemma ModelCallArguments(text: string)
    requires |Words(text)| >= SHORT_INPUT_WORDS
    ensures var b := LengthBounds(|Words(text)|);
      && |Words(CutToCap(text))| <= WORD_CAP
      && 4 <= b.minLength < b.maxLength <= WORD_CAP
      && b.maxLength < |Words(text)|
      && DynamicTimeout(|Words(CutToCap(text))|) == 3
  {
    CutHasAtMostCapWords(text);
    TimeoutIsAlwaysThree(text);
  }

  lemma CutHasAtMostCapWords(text: string)
    ensures |Words(CutToCap(text))| <= WORD_CAP
  {
    CutToCapWords(text);
  }

  // ------------------------------------------------------------------ process_input

  /** `article.get("content", "")` for every dict element, in order; other
      elements (strings among them) contribute nothing. */
  function DictContents(items: seq<Json>): (cs: seq<Json>)
    ensures |cs| <= |items|
  {
    if items == [] then []
    else
      (match items[0]
       case JObj(f) => [if "content" in f then f["content"] else JStr("")]
       case _ => [])
      + DictContents(items[1..])
  }

  function CountDicts(items: seq<Json>): nat
  {
    if items == [] then 0 else (if items[0].JObj? then 1 else 0) + CountDicts(items[1..])
  }

  /** There is one content per dict element. */
  lemma {:induction false} DictContentsCount(items: seq<Json>)
    ensures |DictContents(items)| == CountDicts(items)
  {
    if items != [] {
      DictContentsCount(items[1..]);
    }
  }

  /** A batch with no dict in it has nothing to summarise. */
  lemma {:induction false} NoDictsNoContents(items: seq<Json>)
    requires forall i :: 0 <= i < |items| ==> !items[i].JObj?
    ensures DictContents(items) == []
  {
    if items != [] {
      NoDictsNoContents(items[1..]);
    }
  }

  /** The Python name of a JSON value's type, as a TypeError message gives it. */
  function PyTypeName(v: Json): string
  {
    match v
    case JNull => "NoneType"
    case JBool(_) => "bool"
    case JNum(_) => "int"
    case JStr(_) => "str"
    case JArr(_) => "list"
    case JObj(_) => "dict"
  }

  /** The worker's answer to one decoded request. Iterating a dict or a string
      yields strings, so neither contributes a content; a number, a boolean or
      null cannot be iterated and the TypeError becomes an error reply. */
  function Answer(v: Json, model: (string, Bounds, int) -> ModelOutcome): Reply
  {
    match v
    case JArr(items) =>
      var contents := DictContents(items);
      Summaries(seq(|contents|, i requires 0 <= i < |contents| => SummarizeText(contents[i], model)))
    case JObj(_) => Summaries([])
    case JStr(_) => Summaries([])
    case _ => Failure("'" + PyTypeName(v) + "' object is not iterable")
  }

  /** The text written to stdout for a reply: `json.dumps(...) + "\n"`. */
  function ReplyLine(r: Reply): string
  {
    match r
    case Summaries(items) => StringArrayText(items, ", ") + "\n"
    case Failure(message) => "{\"error\": " + Quote(message) + "}\n"
  }

  /** One iteration of `process_input`: what, if anything, is written for one
      input line. */
  function ProcessLine(line: string, parse: string -> Option<Json>, model: (string, Bounds, int) -> ModelOutcome): Option<string>
  {
    var stripped := Trim(line);
    if stripped == [] then None
    else match parse(stripped)
      case None => None
      case Some(v) => Some(ReplyLine(Answer(v, model)))
  }

  /** An empty line or one that does not decode produces no output. */
  lemma SilentLines(line: string, parse: string -> Option<Json>, model: (string, Bounds, int) -> ModelOutcome)
    ensures ProcessLine(line, parse, model).None? <==> Trim(line) == [] || parse(Trim(line)).None?
  {
  }

  /** Every reply is exactly one line: it ends with a newline and holds no other. */
  lemma ReplyIsOneLine(r: Reply)
    ensures var t := ReplyLine(r);
      t != [] && t[|t| - 1] == '\n' && NoNewline(t[..|t| - 1])
  {
    var t := ReplyLine(r);
    match r
    case Summaries(items) =>
      StringArrayTextIsOneLine(items, ", ");
      assert t[..|t| - 1] == StringArrayText(items, ", ");
    case Failure(message) =>
      var body := "{\"error\": " + Quote(message) + "}";
      assert t[..|t| - 1] == body;
      assert Quote(message) == "\"" + Escape(message) + "\"";
      forall i | 0 <= i < |body| ensures body[i] != '\n' {
        if 11 <= i < 11 + |Escape(message)| {
          assert body[i] == Escape(message)[i - 11];
        }
      }
  }

  /** A decoded array gets one summary per dict element, in order. */
  lemma ArrayAnswer(items: seq<Json>, model: (string, Bounds, int) -> ModelOutcome)
    ensures var r := Answer(JArr(items), model);
      r.Summaries? && |r.items| == CountDicts(items)
      && forall i :: 0 <= i < |r.items| ==> r.items[i] == SummarizeText(DictContents(items)[i], model)
  {
    DictContentsCount(items);
  }

  /** A batch of plain strings, as the Node.js side sends it, contains no dict,
      so the answer is an empty array and the model is never called. */
  lemma StringBatchGetsEmptyArray(items: seq<Json>, model: (string, Bounds, int) -> ModelOutcome)
    requires forall i :: 0 <= i < |items| ==> items[i].JStr?
    ensures Answer(JArr(items), model) == Summaries([])
    ensures ReplyLine(Answer(JArr(items), model)) == "[]\n"
  {
    NoDictsNoContents(items);
  }

  /** A request that is a number, a boolean or null gets an error object line,
      whose trimmed text ends with `}` rather than `]`. */
  lemma NonIterableGetsErrorObject(v: Json, model: (string, Bounds, int) -> ModelOutcome)
    requires v.JNull? || v.JBool? || v.JNum?
    ensures Answer(v, model).Failure?
    ensures TrimmedEndsWith(ReplyLine(Answer(v, model)), '}')
    ensures !TrimmedEndsWith(ReplyLine(Answer(v, model)), ']')
  {
    var m := Answer(v, model).message;
    var body := "{\"error\": " + Quote(m);
    assert ReplyLine(Answer(v, model)) == body + ['}'] + "\n";
    TrimmedEndsWithLast(body, '}', "\n");
  }
}
