/*
 * Values and string operations shared by the JavaScript and Python halves of
 * the news aggregator: optional values, a JSON value, JavaScript truthiness,
 * and the small string functions the core relies on (trim, lower-case,
 * whitespace split and join, substring search).
 */
module Common {

  datatype Option<T> = None | Some(value: T)

  /** A decoded JSON value, as JSON.parse and json.loads produce it. */
  datatype Json =
    | JNull
    | JBool(b: bool)
    | JNum(n: int)
    | JStr(s: string)
    | JArr(items: seq<Json>)
    | JObj(fields: map<string, Json>)

  /** JavaScript truthiness of a JSON value: null, false, 0 and "" are falsy. */
  predicate Truthy(j: Json)
  {
    match j
    case JNull => false
    case JBool(b) => b
    case JNum(n) => n != 0
    case JStr(s) => s != []
    case _ => true
  }

  /** `a || b` on JavaScript strings, where `None` stands for undefined or null. */
  function OrStr(a: Option<string>, b: string): (r: string)
    ensures a.Some? && a.value != [] ==> r == a.value
    ensures (a.None? || a.value == []) ==> r == b
  {
    if a.Some? && a.value != [] then a.value else b
  }

  /** A nullable string converted to a string by JavaScript (`+` or a
      template literal): null becomes "null". */
  function Template(s: Option<string>): string
  {
    if s.Some? then s.value else "null"
  }

  /** `a ?? b`: only a missing value falls back; an empty string is kept. */
  function OrElse<T>(a: Option<T>, b: T): (r: T)
    ensures a.Some? ==> r == a.value
    ensures a.None? ==> r == b
  {
    if a.Some? then a.value else b
  }

  // ---------------------------------------------------------------- whitespace

  /** The ASCII whitespace that String.prototype.trim and str.split() remove. */
  predicate IsSpace(c: char)
  {
    c == ' ' || c == '\t' || c == '\n' || c == '\r' || c == '\U{000B}' || c == '\U{000C}'
  }

  predicate AllSpace(s: string)
  {
    forall i :: 0 <= i < |s| ==> IsSpace(s[i])
  }

  predicate AllWords(ws: seq<string>)
  {
    forall i :: 0 <= i < |ws| ==> IsWord(ws[i])
  }

  /** A word of str.split(): non-empty and free of whitespace. */
  predicate IsWord(w: string)
  {
    w != [] && forall i :: 0 <= i < |w| ==> !IsSpace(w[i])
  }

  /** Leading whitespace removed: the result is a suffix and starts with a non-space. */
  function TrimStart(s: string): (r: string)
    ensures |r| <= |s| && r == s[|s| - |r|..]
    ensures AllSpace(s[..|s| - |r|])
    ensures r != [] ==> !IsSpace(r[0])
  {
    if s != [] && IsSpace(s[0]) then
      var r := TrimStart(s[1..]);
      assert s[1..][..|s| - 1 - |r|] == s[1..|s| - |r|];
      assert s[..|s| - |r|] == [s[0]] + s[1..|s| - |r|];
      assert s[1..][|s| - 1 - |r|..] == s[|s| - |r|..];
      r
    else s
  }

  /** Trailing whitespace removed: the result is a prefix and ends with a non-space. */
  function TrimEnd(s: string): (r: string)
    ensures |r| <= |s| && r == s[..|r|]
    ensures AllSpace(s[|r|..])
    ensures r != [] ==> !IsSpace(r[|r| - 1])
  {
    if s != [] && IsSpace(s[|s| - 1]) then
      var r := TrimEnd(s[..|s| - 1]);
      assert s[..|s| - 1][|r|..] == s[|r|..|s| - 1];
      assert s[|r|..] == s[|r|..|s| - 1] + [s[|s| - 1]];
      assert s[..|s| - 1][..|r|] == s[..|r|];
      r
    else s
  }

  /** String.prototype.trim and str.strip(). */
  function Trim(s: string): string
  {
    TrimEnd(TrimStart(s))
  }

  /** `r` is `s` with a whitespace run cut off each end. */
  predicate CutFrom(r: string, s: string)
  {
    exists lo: nat, hi: nat :: lo <= hi <= |s| && AllSpace(s[..lo]) && AllSpace(s[hi..]) && r == s[lo..hi]
  }

  /** Trimming cuts a whitespace run off each end and keeps the rest. */
  lemma TrimIsSlice(s: string)
    ensures CutFrom(Trim(s), s)
  {
    var t := TrimStart(s);
    var r := TrimEnd(t);
    var lo := |s| - |t|;
    assert r == s[lo..lo + |r|];
    assert s[lo + |r|..] == t[|r|..];
  }

  /** `s.trim().endsWith(c)` for a single character. */
  predicate TrimmedEndsWith(s: string, c: char)
  {
    var t := Trim(s);
    t != [] && t[|t| - 1] == c
  }

  /** Appending whitespace does not change what the trimmed text ends with. */
  lemma {:induction false} TrimEndSpaceSuffix(s: string, w: string)
    requires AllSpace(w)
    ensures TrimEnd(s + w) == TrimEnd(s)
    decreases |w|
  {
    if w != [] {
      var sw := s + w;
      assert sw[..|sw| - 1] == s + w[..|w| - 1];
      TrimEndSpaceSuffix(s, w[..|w| - 1]);
    } else {
      assert s + w == s;
    }
  }

  /** A text whose last character is `c` (not whitespace), followed only by
      whitespace, trims to a text ending with `c`. */
  lemma TrimmedEndsWithLast(p: string, c: char, w: string)
    requires !IsSpace(c) && AllSpace(w)
    ensures TrimmedEndsWith(p + [c] + w, c)
  {
    var u := KeptBeforeSpace(p, c, w);
    TrimEndSpaceSuffix(u, w);
  }

  /** Trimming the start of `p + [c] + w` keeps `c` and `w`: what is left
      is some `u` ending with `c`, followed by `w`. */
  lemma KeptBeforeSpace(p: string, c: char, w: string) returns (u: string)
    requires !IsSpace(c)
    ensures TrimStart(p + [c] + w) == u + w && u != [] && u[|u| - 1] == c
  {
    var s := p + [c] + w;
    assert s[|p|] == c;
    TrimStartKeepsFrom(s, |p|);
    var t := TrimStart(s);
    var n := |s| - |t|;
    u := s[n..|p| + 1];
    assert s[n..] == s[n..|p| + 1] + s[|p| + 1..];
    assert s[|p| + 1..] == w;
  }

  /** Leading whitespace stops at the first non-space character. */
  lemma TrimStartKeepsFrom(s: string, k: nat)
    requires k < |s| && !IsSpace(s[k])
    ensures |s| - |TrimStart(s)| <= k
  {
    var n := |s| - |TrimStart(s)|;
    forall i | 0 <= i < n ensures IsSpace(s[i]) {
      assert s[..n][i] == s[i];
    }
  }

  /** Whether `sub` occurs in `s` (String.prototype.includes). */
  predicate Contains(s: string, sub: string)
  {
    exists i :: 0 <= i <= |s| - |sub| && OccursAt(s, sub, i)
  }

  predicate OccursAt(s: string, sub: string, i: int)
  {
    0 <= i <= |s| - |sub| && s[i..i + |sub|] == sub
  }

  // ---------------------------------------------------------------- case

  /** ASCII lower-casing of one character. */
  function LowerChar(c: char): (r: char)
    ensures 'A' <= c <= 'Z' ==> 'a' <= r <= 'z'
    ensures !('A' <= c <= 'Z') ==> r == c
  {
    if 'A' <= c <= 'Z' then (c as int + 32) as char else c
  }

  /** String.prototype.toLowerCase over ASCII letters. */
  function ToLower(s: string): (r: string)
    ensures |r| == |s|
    ensures forall i :: 0 <= i < |s| ==> r[i] == LowerChar(s[i])
  {
    seq(|s|, i requires 0 <= i < |s| => LowerChar(s[i]))
  }

  // ---------------------------------------------------------------- words

  /** Number of leading non-space characters. */
  function RunLength(s: string): (n: nat)
    ensures n <= |s|
    ensures forall i :: 0 <= i < n ==> !IsSpace(s[i])
    ensures n < |s| ==> IsSpace(s[n])
  {
    if s == [] || IsSpace(s[0]) then 0 else 1 + RunLength(s[1..])
  }

  /** Python's `str.split()` with no separator: maximal runs of non-whitespace. */
  function Words(s: string): (ws: seq<string>)
    ensures forall i :: 0 <= i < |ws| ==> IsWord(ws[i])
    decreases |s|
  {
    var t := TrimStart(s);
    if t == [] then []
    else
      var n := RunLength(t);
      assert IsWord(t[..n]);
      [t[..n]] + Words(t[n..])
  }

  /** `sep.join(ws)` in Python, `ws.join(sep)` in JavaScript. */
  function Join(ws: seq<string>, sep: string): string
  {
    if ws == [] then ""
    else if |ws| == 1 then ws[0]
    else ws[0] + sep + Join(ws[1..], sep)
  }

  lemma WordsSkipsLeadingSpace(c: char, s: string)
    requires IsSpace(c)
    ensures Words([c] + s) == Words(s)
  {
    assert ([c] + s)[1..] == s;
  }

  /** A word followed by nothing or by whitespace splits off as the first word. */
  lemma WordsOfWordThen(w: string, rest: string)
    requires IsWord(w)
    requires rest == [] || IsSpace(rest[0])
    ensures Words(w + rest) == [w] + Words(rest)
  {
    var s := w + rest;
    assert TrimStart(s) == s;
    RunLengthOfWord(w, rest);
    assert s[..|w|] == w;
    assert s[|w|..] == rest;
  }

  lemma JoinCons(ws: seq<string>, sep: string)
    requires |ws| > 1
    ensures Join(ws, sep) == ws[0] + (sep + Join(ws[1..], sep))
  {
    assert ws[0] + sep + Join(ws[1..], sep) == ws[0] + (sep + Join(ws[1..], sep));
  }

  /** One step of splitting a joined list: the first word comes off, then the rest. */
  lemma WordsOfJoinStep(ws: seq<string>)
    requires |ws| > 1 && IsWord(ws[0])
    ensures Words(Join(ws, " ")) == [ws[0]] + Words(Join(ws[1..], " "))
  {
    var rest := Join(ws[1..], " ");
    JoinCons(ws, " ");
    WordsOfWordThen(ws[0], " " + rest);
    WordsSkipsLeadingSpace(' ', rest);
  }

  lemma WordsOfOneWord(w: string)
    requires IsWord(w)
    ensures Words(w) == [w]
  {
    WordsOfWordThen(w, "");
    assert w + "" == w;
  }

  /** Splitting a space-joined list of words gives the words back. */
  lemma {:induction false} WordsOfJoin(ws: seq<string>)
    requires AllWords(ws)
    ensures Words(Join(ws, " ")) == ws
  {
    if ws == [] {
    } else if |ws| == 1 {
      WordsOfOneWord(ws[0]);
    } else {
      WordsOfJoinStep(ws);
      assert AllWords(ws[1..]) by {
        forall i | 0 <= i < |ws| - 1 ensures IsWord(ws[1..][i]) { assert ws[1..][i] == ws[i + 1]; }
      }
      WordsOfJoin(ws[1..]);
      assert ws == [ws[0]] + ws[1..];
    }
  }

  lemma {:induction false} RunLengthOfWord(w: string, tail: string)
    requires IsWord(w)
    requires tail == [] || IsSpace(tail[0])
    ensures RunLength(w + tail) == |w|
    decreases |w|
  {
    if |w| > 1 {
      assert (w + tail)[1..] == w[1..] + tail;
      RunLengthOfWord(w[1..], tail);
    } else {
      assert (w + tail)[1..] == tail;
    }
  }

  // ---------------------------------------------------------------- JSON text

  function HexDigit(n: nat): char
    requires n < 16
  {
    if n < 10 then ('0' as int + n) as char else ('a' as int + n - 10) as char
  }

  /** How JSON.stringify and json.dumps write one character inside a string. */
  function EscapeChar(c: char): (r: string)
    ensures r != []
    ensures forall i :: 0 <= i < |r| ==> r[i] != '\n'
  {
    if c == '"' then "\\\""
    else if c == '\\' then "\\\\"
    else if c == '\n' then "\\n"
    else if c == '\r' then "\\r"
    else if c == '\t' then "\\t"
    else if c == '\U{0008}' then "\\b"
    else if c == '\U{000C}' then "\\f"
    else if (c as int) < 0x20 then "\\u00" + [HexDigit(c as int / 16), HexDigit(c as int % 16)]
    else [c]
  }

  /** The body of a JSON string literal; it never holds a raw line break. */
  function Escape(s: string): (r: string)
    ensures forall i :: 0 <= i < |r| ==> r[i] != '\n'
  {
    if s == [] then "" else EscapeChar(s[0]) + Escape(s[1..])
  }

  function Quote(s: string): string
  {
    "\"" + Escape(s) + "\""
  }

  /** A JSON array of strings, items separated by `sep` ("," for JSON.stringify,
      ", " for json.dumps). */
  function StringArrayText(xs: seq<string>, sep: string): string
  {
    "[" + Join(seq(|xs|, i requires 0 <= i < |xs| => Quote(xs[i])), sep) + "]"
  }

  predicate NoNewline(s: string)
  {
    forall i :: 0 <= i < |s| ==> s[i] != '\n'
  }

  lemma {:induction false} JoinNoNewline(ws: seq<string>, sep: string)
    requires NoNewline(sep)
    requires forall i :: 0 <= i < |ws| ==> NoNewline(ws[i])
    ensures NoNewline(Join(ws, sep))
  {
    if |ws| > 1 {
      JoinNoNewline(ws[1..], sep);
    }
  }

  /** An array of strings is written on a single line and ends with `]`. */
  lemma StringArrayTextIsOneLine(xs: seq<string>, sep: string)
    requires NoNewline(sep)
    ensures NoNewline(StringArrayText(xs, sep))
    ensures StringArrayText(xs, sep)[|StringArrayText(xs, sep)| - 1] == ']'
  {
    var qs := seq(|xs|, i requires 0 <= i < |xs| => Quote(xs[i]));
    JoinNoNewline(qs, sep);
  }
}
