/**
 * The Kotlin string operations the application uses, over `seq<char>`:
 * `isBlank`, `trim`, case-insensitive `contains`, `split`/`joinToString`,
 * `replaceFirstChar { it.uppercase() }`, `removeSuffix`, `substringBefore`.
 * Case conversion is ASCII-only.
 */
module KotlinText {

  /** `Char.isWhitespace()` on the JVM: the ASCII controls tab to carriage
      return, the information separators, and the Unicode space, line and
      paragraph separators. */
  predicate IsWhitespace(c: char) {
    || '\t' <= c <= '\r'
    || '\U{001C}' <= c <= ' '
    || c == '\U{00A0}' || c == '\U{1680}'
    || '\U{2000}' <= c <= '\U{200A}'
    || c == '\U{2028}' || c == '\U{2029}' || c == '\U{202F}' || c == '\U{205F}' || c == '\U{3000}'
  }

  /** `CharSequence.isBlank()`: empty or whitespace only. */
  predicate IsBlank(s: string) {
    forall i :: 0 <= i < |s| ==> IsWhitespace(s[i])
  }

  function TrimStart(s: string): (r: string)
    ensures |r| <= |s|
    ensures r == s[|s| - |r|..]
    ensures |r| > 0 ==> !IsWhitespace(r[0])
  {
    if |s| > 0 && IsWhitespace(s[0]) then TrimStart(s[1..]) else s
  }

  function TrimEnd(s: string): (r: string)
    ensures |r| <= |s|
    ensures r == s[..|r|]
  {
    if |s| > 0 && IsWhitespace(s[|s| - 1]) then TrimEnd(s[..|s| - 1]) else s
  }

  /** `String.trim()`: whitespace removed from both ends. */
  function Trim(s: string): string {
    TrimEnd(TrimStart(s))
  }

  lemma {:induction false} TrimStartEmptyIffBlank(s: string)
    ensures TrimStart(s) == [] <==> IsBlank(s)
  {
    if |s| > 0 && IsWhitespace(s[0]) {
      TrimStartEmptyIffBlank(s[1..]);
      assert IsBlank(s[1..]) ==> IsBlank(s) by {
        if IsBlank(s[1..]) {
          forall i | 0 <= i < |s| ensures IsWhitespace(s[i]) {
            if i > 0 { assert s[i] == s[1..][i - 1]; }
          }
        }
      }
    }
  }

  lemma TrimEndOfNonEmpty(s: string)
    requires |s| > 0 && !IsWhitespace(s[0])
    ensures TrimEnd(s) != []
    decreases |s|
  {
    if IsWhitespace(s[|s| - 1]) {
      TrimEndOfNonEmpty(s[..|s| - 1]);
    }
  }

  /** A trimmed name is empty exactly when the name was blank. */
  lemma TrimEmptyIffBlank(s: string)
    ensures Trim(s) == [] <==> IsBlank(s)
  {
    TrimStartEmptyIffBlank(s);
    var t := TrimStart(s);
    if t != [] {
      TrimEndOfNonEmpty(t);
    }
  }

  /** ASCII `lowercaseChar()`. */
  function Lower(c: char): char {
    if 'A' <= c <= 'Z' then (c as int + 32) as char else c
  }

  /** ASCII `uppercaseChar()`. */
  function Upper(c: char): char {
    if 'a' <= c <= 'z' then (c as int - 32) as char else c
  }

  function LowerAll(s: string): (r: string)
    ensures |r| == |s|
    ensures forall i :: 0 <= i < |s| ==> r[i] == Lower(s[i])
  {
    seq(|s|, i requires 0 <= i < |s| => Lower(s[i]))
  }

  /** `q` occurs in `s` starting at position `k`. */
  predicate OccursAt(q: string, s: string, k: int) {
    0 <= k && k + |q| <= |s| && s[k..k + |q|] == q
  }

  /** `s.contains(q, ignoreCase = true)`, with ASCII case folding. */
  predicate ContainsIgnoreCase(s: string, q: string) {
    exists k :: 0 <= k <= |s| - |q| && OccursAt(LowerAll(q), LowerAll(s), k)
  }

  /** Every string contains the empty string. */
  lemma ContainsEmpty(s: string)
    ensures ContainsIgnoreCase(s, "")
  {
    assert OccursAt(LowerAll(""), LowerAll(s), 0);
  }

  /** `s.replace(from, to)` for single characters. */
  function ReplaceChar(s: string, from: char, to: char): (r: string)
    ensures |r| == |s|
    ensures forall i :: 0 <= i < |s| ==> r[i] == if s[i] == from then to else s[i]
  {
    seq(|s|, i requires 0 <= i < |s| => if s[i] == from then to else s[i])
  }

  predicate EndsWith(s: string, suffix: string) {
    |suffix| <= |s| && s[|s| - |suffix|..] == suffix
  }

  /** `s.endsWith(suffix, ignoreCase = true)`. */
  predicate EndsWithIgnoreCase(s: string, suffix: string) {
    |suffix| <= |s| && LowerAll(s[|s| - |suffix|..]) == LowerAll(suffix)
  }

  /** `s.removeSuffix(suffix)`: removes one exact occurrence at the end. */
  function RemoveSuffix(s: string, suffix: string): (r: string)
    ensures EndsWith(s, suffix) ==> r + suffix == s
    ensures !EndsWith(s, suffix) ==> r == s
  {
    if EndsWith(s, suffix) then s[..|s| - |suffix|] else s
  }

  /** `s.substringBefore(c)`: up to the first `c`, or all of `s`. */
  function SubstringBefore(s: string, c: char): (r: string)
    ensures c !in r
    ensures |r| <= |s| && r == s[..|r|]
    ensures |r| < |s| ==> s[|r|] == c
  {
    if |s| == 0 then s
    else if s[0] == c then []
    else [s[0]] + SubstringBefore(s[1..], c)
  }

  /** `s.split(d1, d2, ...)` for single-character delimiters: the pieces
      between delimiters, empty pieces kept. */
  function Split(s: string, delims: set<char>): (parts: seq<string>)
    ensures |parts| > 0
    ensures forall p :: p in parts ==> forall i :: 0 <= i < |p| ==> p[i] !in delims
  {
    if |s| == 0 then [""]
    else
      var rest := Split(s[1..], delims);
      if s[0] in delims then [""] + rest
      else [[s[0]] + rest[0]] + rest[1..]
  }

  /** `parts.joinToString(sep)`. */
  function Join(parts: seq<string>, sep: string): string {
    if |parts| == 0 then ""
    else if |parts| == 1 then parts[0]
    else parts[0] + sep + Join(parts[1..], sep)
  }

  /** `word.replaceFirstChar { it.uppercase() }` (also `capitalize()`). */
  function Capitalize(w: string): (r: string)
    ensures |r| == |w|
  {
    if |w| == 0 then w else [Upper(w[0])] + w[1..]
  }

  function CapitalizeAll(parts: seq<string>): (r: seq<string>)
    ensures |r| == |parts|
    ensures forall i :: 0 <= i < |parts| ==> r[i] == Capitalize(parts[i])
  {
    seq(|parts|, i requires 0 <= i < |parts| => Capitalize(parts[i]))
  }

  /** `s.split(delims).joinToString(" ") { it.replaceFirstChar { c -> c.uppercase() } }`. */
  function CapitalizeWords(s: string, delims: set<char>): string {
    Join(CapitalizeAll(Split(s, delims)), " ")
  }

  /**
   * The same text described character by character: every delimiter becomes
   * a space, and a character that starts a word (it is first, or follows a
   * delimiter) is upper-cased; `atStart` says whether `s[0]` starts a word.
   */
  function WordsCapitalized(s: string, delims: set<char>, atStart: bool): (r: string)
    ensures |r| == |s|
  {
    if |s| == 0 then ""
    else if s[0] in delims then " " + WordsCapitalized(s[1..], delims, true)
    else [if atStart then Upper(s[0]) else s[0]] + WordsCapitalized(s[1..], delims, false)
  }

  lemma {:induction false} WordsCapitalizedAt(s: string, delims: set<char>, atStart: bool, i: int)
    requires 0 <= i < |s|
    ensures WordsCapitalized(s, delims, atStart)[i] ==
      if s[i] in delims then ' '
      else if (if i == 0 then atStart else s[i - 1] in delims) then Upper(s[i])
      else s[i]
  {
    if i > 0 {
      WordsCapitalizedAt(s[1..], delims, s[0] in delims, i - 1);
    }
  }

  lemma JoinCons(p: string, ps: seq<string>, sep: string)
    requires |ps| > 0
    ensures Join([p] + ps, sep) == p + sep + Join(ps, sep)
  {
    assert ([p] + ps)[1..] == ps;
  }

  lemma JoinConsChar(c: char, w: string, tail: seq<string>, sep: string)
    ensures Join([[c] + w] + tail, sep) == [c] + Join([w] + tail, sep)
  {
    if |tail| > 0 {
      assert ([[c] + w] + tail)[1..] == tail;
      assert ([w] + tail)[1..] == tail;
    }
  }

  /** Capitalising a list is capitalising its head, then its tail. */
  lemma CapitalizeAllCons(parts: seq<string>)
    requires |parts| > 0
    ensures CapitalizeAll(parts) == [CapitalizeIf(true, parts[0])] + CapitalizeAll(parts[1..])
  {
    var a := CapitalizeAll(parts);
    var b := [CapitalizeIf(true, parts[0])] + CapitalizeAll(parts[1..]);
    forall i | 0 <= i < |a| ensures a[i] == b[i] {
      if i > 0 { assert b[i] == CapitalizeAll(parts[1..])[i - 1]; }
    }
  }

  function CapitalizeIf(b: bool, w: string): string {
    if b then Capitalize(w) else w
  }

  /** The inductive step of `CapitalizeWordsGeneral` when `s` starts with a
      delimiter. */
  lemma CapitalizeWordsDelimStep(s: string, delims: set<char>, atStart: bool)
    requires |s| > 0 && s[0] in delims
    requires var rest := Split(s[1..], delims);
      Join([CapitalizeIf(true, rest[0])] + CapitalizeAll(rest[1..]), " ")
        == WordsCapitalized(s[1..], delims, true)
    ensures var parts := Split(s, delims);
      Join([CapitalizeIf(atStart, parts[0])] + CapitalizeAll(parts[1..]), " ")
        == WordsCapitalized(s, delims, atStart)
  {
    var parts := Split(s, delims);
    var rest := Split(s[1..], delims);
    assert parts == [""] + rest;
    var tail := CapitalizeAll(rest);
    var whole := [""] + tail;
    var lhs := [CapitalizeIf(atStart, parts[0])] + CapitalizeAll(parts[1..]);
    assert lhs == whole;
    CapitalizeAllCons(rest);
    JoinCons("", tail, " ");
    assert Join(tail, " ") == WordsCapitalized(s[1..], delims, true);
    var w := WordsCapitalized(s[1..], delims, true);
    assert "" + " " == " ";
    assert Join(whole, " ") == " " + w;
    assert WordsCapitalized(s, delims, atStart) == " " + WordsCapitalized(s[1..], delims, true);
    assert Join(lhs, " ") == WordsCapitalized(s, delims, atStart);
  }

  /** The inductive step of `CapitalizeWordsGeneral` when `s` starts with a
      word character. */
  lemma CapitalizeWordsCharStep(s: string, delims: set<char>, atStart: bool)
    requires |s| > 0 && s[0] !in delims
    requires var rest := Split(s[1..], delims);
      Join([CapitalizeIf(false, rest[0])] + CapitalizeAll(rest[1..]), " ")
        == WordsCapitalized(s[1..], delims, false)
    ensures var parts := Split(s, delims);
      Join([CapitalizeIf(atStart, parts[0])] + CapitalizeAll(parts[1..]), " ")
        == WordsCapitalized(s, delims, atStart)
  {
    var parts := Split(s, delims);
    var rest := Split(s[1..], delims);
    var c := s[0];
    assert parts == [[c] + rest[0]] + rest[1..];
    var tail := CapitalizeAll(rest[1..]);
    var c' := if atStart then Upper(c) else c;
    assert CapitalizeIf(atStart, [c] + rest[0]) == [c'] + rest[0];
    JoinConsChar(c', rest[0], tail, " ");
    assert CapitalizeIf(false, rest[0]) == rest[0];
  }

  lemma {:induction false} CapitalizeWordsGeneral(s: string, delims: set<char>, atStart: bool)
    ensures var parts := Split(s, delims);
      Join([CapitalizeIf(atStart, parts[0])] + CapitalizeAll(parts[1..]), " ")
        == WordsCapitalized(s, delims, atStart)
  {
    var parts := Split(s, delims);
    if |s| == 0 {
      assert parts == [""];
      assert [CapitalizeIf(atStart, parts[0])] + CapitalizeAll(parts[1..]) == [""];
    } else {
      CapitalizeWordsGeneral(s[1..], delims, s[0] in delims);
      if s[0] in delims {
        CapitalizeWordsDelimStep(s, delims, atStart);
      } else {
        CapitalizeWordsCharStep(s, delims, atStart);
      }
    }
  }

  /** The pipeline `split`, capitalise each piece, `joinToString(" ")` is the
      character-by-character description above, starting a word at `s[0]`. */
  lemma CapitalizeWordsCharacterized(s: string, delims: set<char>)
    ensures CapitalizeWords(s, delims) == WordsCapitalized(s, delims, true)
  {
    var parts := Split(s, delims);
    CapitalizeWordsGeneral(s, delims, true);
    CapitalizeAllCons(parts);
  }
}
