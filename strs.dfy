/** The Python `str` operations the scanner relies on, over `seq<char>`:
    `strip`, `lower`, `in`, `startswith`, `split`, `splitlines`, `join`,
    `replace` and slicing. */
module Strs {

  /** `str.isspace` for one character (the Unicode whitespace set). */
  predicate IsSpace(c: char) {
    c == ' ' || ('\t' <= c <= '\r') || ('\U{1C}' <= c <= '\U{1F}') || c == '\U{85}' || c == '\U{A0}'
    || c == '\U{1680}' || ('\U{2000}' <= c <= '\U{200A}') || c == '\U{2028}' || c == '\U{2029}'
    || c == '\U{202F}' || c == '\U{205F}' || c == '\U{3000}'
  }

  predicate AllSpace(s: string) {
    forall i :: 0 <= i < |s| ==> IsSpace(s[i])
  }

  /** `s.lstrip()` */
  function TrimStart(s: string): (r: string)
    ensures |r| <= |s|
  {
    if s != [] && IsSpace(s[0]) then TrimStart(s[1..]) else s
  }

  /** `s.rstrip()` */
  function TrimEnd(s: string): (r: string)
    ensures |r| <= |s|
  {
    if s != [] && IsSpace(s[|s| - 1]) then TrimEnd(s[..|s| - 1]) else s
  }

  /** `s.strip()` */
  function Strip(s: string): (r: string)
    ensures |r| <= |s|
  {
    TrimEnd(TrimStart(s))
  }

  /** What `lstrip` leaves is a suffix of `s` that starts with no
      whitespace, and it is empty exactly when `s` is all whitespace. */
  lemma {:induction false} TrimStartShape(s: string)
    ensures var r := TrimStart(s);
      r == s[|s| - |r|..] && (r != [] ==> !IsSpace(r[0])) && (r == [] <==> AllSpace(s))
    decreases |s|
  {
    if s != [] && IsSpace(s[0]) {
      TrimStartShape(s[1..]);
      assert s[1..][|s| - 1 - |TrimStart(s)|..] == s[|s| - |TrimStart(s)|..];
      if AllSpace(s[1..]) {
        forall i | 0 <= i < |s| ensures IsSpace(s[i]) { if i > 0 { assert s[i] == s[1..][i - 1]; } }
      }
    }
  }

  /** What `rstrip` leaves is a prefix of `s` that ends with no
      whitespace, and it is empty exactly when `s` is all whitespace. */
  lemma {:induction false} TrimEndShape(s: string)
    ensures var r := TrimEnd(s);
      r == s[..|r|] && (r != [] ==> !IsSpace(r[|r| - 1])) && (r == [] <==> AllSpace(s))
    decreases |s|
  {
    if s != [] && IsSpace(s[|s| - 1]) {
      TrimEndShape(s[..|s| - 1]);
      assert s[..|s| - 1][..|TrimEnd(s)|] == s[..|TrimEnd(s)|];
      if AllSpace(s[..|s| - 1]) {
        forall i | 0 <= i < |s| ensures IsSpace(s[i]) { if i < |s| - 1 { assert s[i] == s[..|s| - 1][i]; } }
      }
    }
  }

  /** What `strip` leaves is a piece of `s` with no whitespace at either
      end, and it is empty exactly when `s` is all whitespace. */
  lemma StripShape(s: string)
    ensures var r := Strip(s);
      (r != [] ==> !IsSpace(r[0]) && !IsSpace(r[|r| - 1]))
      && (r == [] <==> AllSpace(s))
      && (forall c :: c in r ==> c in s)
  {
    var t := TrimStart(s);
    TrimStartShape(s);
    TrimEndShape(t);
    var r := TrimEnd(t);
    assert r != [] ==> r[0] == t[0];
    assert t != [] ==> !AllSpace(t);
    assert forall c :: c in r ==> c in t;
    assert forall c :: c in t ==> c in s;
  }

  /** Stripping twice is stripping once. */
  lemma StripIdempotent(s: string)
    ensures Strip(Strip(s)) == Strip(s)
  {
    var r := Strip(s);
    StripShape(s);
    assert TrimStart(r) == r;
    assert TrimEnd(r) == r;
  }

  /** An ASCII capital in lower case; any other character is kept.  This
      is how `re.IGNORECASE` compares the letters of the word `optional`
      here. */
  function AsciiLowerChar(c: char): char {
    if 'A' <= c <= 'Z' then (c as int + 32) as char else c
  }

  /** Every ASCII capital of `s` in lower case. */
  function AsciiLower(s: string): (r: string)
    ensures |r| == |s|
  {
    seq(|s|, i requires 0 <= i < |s| => AsciiLowerChar(s[i]))
  }

  /** ASCII lower-casing commutes with slicing. */
  lemma AsciiLowerSlice(s: string, i: nat, j: nat)
    requires i <= j <= |s|
    ensures AsciiLower(s)[i..j] == AsciiLower(s[i..j])
  {
    forall k | 0 <= k < j - i ensures AsciiLower(s)[i..j][k] == AsciiLower(s[i..j])[k] {
      assert s[i..j][k] == s[i + k];
    }
  }

  /** U+212A KELVIN SIGN, whose lower-case form is `k`. */
  const KELVIN_SIGN: char := '\U{212A}'
  /** U+0130 LATIN CAPITAL LETTER I WITH DOT ABOVE, whose lower-case form
      is `i` followed by U+0307 COMBINING DOT ABOVE. */
  const CAPITAL_I_DOT: char := '\U{0130}'
  const COMBINING_DOT: char := '\U{0307}'

  /** `c.lower()` for every character whose lower-case form holds an ASCII
      letter: the 26 capitals, the Kelvin sign and the capital I with a dot
      above.  Any other character is kept as it is: Python maps some of
      them to other characters, but never to text with an ASCII letter. */
  function LowerText(c: char): string {
    if 'A' <= c <= 'Z' then [(c as int + 32) as char]
    else if c == KELVIN_SIGN then "k"
    else if c == CAPITAL_I_DOT then ['i', COMBINING_DOT]
    else [c]
  }

  /** `s.lower()`, character by character. */
  function Lower(s: string): string
    decreases |s|
  {
    if s == [] then [] else LowerText(s[0]) + Lower(s[1..])
  }

  /** Lower-casing distributes over concatenation. */
  lemma {:induction false} LowerConcat(a: string, b: string)
    ensures Lower(a + b) == Lower(a) + Lower(b)
    decreases |a|
  {
    if a != [] {
      assert (a + b)[0] == a[0] && (a + b)[1..] == a[1..] + b;
      LowerConcat(a[1..], b);
    } else {
      assert a + b == b;
    }
  }

  /** Text without the two characters whose lower-case form changes its
      length or leaves ASCII is lower-cased as the ASCII capitals are. */
  lemma {:induction false} LowerPlain(s: string)
    requires forall i :: 0 <= i < |s| ==> s[i] != KELVIN_SIGN && s[i] != CAPITAL_I_DOT
    ensures Lower(s) == AsciiLower(s)
    decreases |s|
  {
    if s != [] {
      LowerPlain(s[1..]);
      assert AsciiLower(s) == [AsciiLowerChar(s[0])] + AsciiLower(s[1..]);
    }
  }

  /** The Kelvin sign lower-cases to `k` wherever it stands, so `Kit`
      written with it reads `kit` once lower-cased. */
  lemma KelvinSignLowersToK(a: string, b: string)
    ensures Lower([KELVIN_SIGN]) == "k"
    ensures Lower(a + [KELVIN_SIGN] + b) == Lower(a) + "k" + Lower(b)
  {
    assert Lower([KELVIN_SIGN]) == LowerText(KELVIN_SIGN) + Lower([]);
    LowerConcat(a + [KELVIN_SIGN], b);
    LowerConcat(a, [KELVIN_SIGN]);
  }

  /** A slice whose lower-case form is `t` puts `t` into the lower-case
      form of the whole text. */
  lemma ContainsLowered(s: string, i: nat, j: nat, t: string)
    requires i <= j <= |s| && Lower(s[i..j]) == t
    ensures Contains(Lower(s), t)
  {
    assert s == s[..i] + s[i..j] + s[j..];
    LowerConcat(s[..i] + s[i..j], s[j..]);
    LowerConcat(s[..i], s[i..j]);
    var ls, pre := Lower(s), Lower(s[..i]);
    assert ls == pre + t + Lower(s[j..]);
    assert ls[|pre|..|pre| + |t|] == t;
    OccursContains(ls, t, |pre|);
  }

  /** A text that occurs in the suffix occurs in the whole. */
  lemma ContainsInSuffix(a: string, b: string, t: string)
    requires Contains(b, t)
    ensures Contains(a + b, t)
  {
    var i := ContainsOccurs(b, t);
    assert (a + b)[|a| + i..|a| + i + |t|] == b[i..i + |t|];
    OccursContains(a + b, t, |a| + i);
  }

  /** `t in s` */
  predicate Contains(s: string, t: string)
    decreases |s|
  {
    StartsWith(s, t) || (s != [] && Contains(s[1..], t))
  }

  /** `t` occurs in `s` starting at index `i`. */
  predicate OccursAt(s: string, t: string, i: int) {
    0 <= i && i + |t| <= |s| && s[i..i + |t|] == t
  }

  /** An occurrence at any index makes `t in s` true ... */
  lemma {:induction false} OccursContains(s: string, t: string, i: int)
    requires OccursAt(s, t, i)
    ensures Contains(s, t)
    decreases i
  {
    if i > 0 {
      assert s[1..][i - 1..i - 1 + |t|] == s[i..i + |t|];
      OccursContains(s[1..], t, i - 1);
    } else {
      assert s[..|t|] == t;
    }
  }

  /** ... and `t in s` has an occurrence at some index. */
  lemma {:induction false} ContainsOccurs(s: string, t: string) returns (i: nat)
    requires Contains(s, t)
    ensures OccursAt(s, t, i)
    decreases |s|
  {
    if StartsWith(s, t) {
      i := 0;
    } else {
      var j := ContainsOccurs(s[1..], t);
      assert s[1..][j..j + |t|] == s[j + 1..j + 1 + |t|];
      i := j + 1;
    }
  }

  predicate StartsWith(s: string, p: string) {
    |p| <= |s| && s[..|p|] == p
  }

  predicate EndsWith(s: string, p: string) {
    |p| <= |s| && s[|s| - |p|..] == p
  }

  /** Lower-casing both sides keeps a substring a substring, so
      `t in s or t.lower() in s.lower()` is just `t.lower() in s.lower()`. */
  lemma LowerKeepsContains(s: string, t: string)
    requires Contains(s, t)
    ensures Contains(Lower(s), Lower(t))
  {
    var i := ContainsOccurs(s, t);
    assert s[i..i + |t|] == t;
    ContainsLowered(s, i, i + |t|, Lower(t));
  }

  /** First index of `c` in `s` (`s.index(c)`). */
  function IndexOf(s: string, c: char): (i: nat)
    requires c in s
    ensures i < |s| && s[i] == c && c !in s[..i]
  {
    if s[0] == c then 0
    else
      var j := IndexOf(s[1..], c);
      assert s[..1 + j] == [s[0]] + s[1..][..j];
      1 + j
  }

  /** `sep.join(parts)` */
  function Join(sep: string, parts: seq<string>): string {
    if |parts| == 0 then ""
    else if |parts| == 1 then parts[0]
    else parts[0] + sep + Join(sep, parts[1..])
  }

  /** `s.split(sep)` for a one-character separator. */
  function Split(s: string, sep: char): (r: seq<string>)
    ensures |r| >= 1
    decreases |s|
  {
    if sep !in s then [s]
    else
      var i := IndexOf(s, sep);
      [s[..i]] + Split(s[i + 1..], sep)
  }

  /** The pieces of `s.split(sep)` hold no separator, and joining them back
      with the separator gives `s`. */
  lemma SplitJoin(s: string, sep: char)
    ensures forall k :: 0 <= k < |Split(s, sep)| ==> sep !in Split(s, sep)[k]
    ensures Join([sep], Split(s, sep)) == s
  {
    SplitPieces(s, sep);
    JoinSplit(s, sep);
  }

  lemma {:induction false} SplitPieces(s: string, sep: char)
    ensures forall k :: 0 <= k < |Split(s, sep)| ==> sep !in Split(s, sep)[k]
    decreases |s|
  {
    if sep in s {
      var i := IndexOf(s, sep);
      var rest := Split(s[i + 1..], sep);
      SplitPieces(s[i + 1..], sep);
      var parts := Split(s, sep);
      assert parts == [s[..i]] + rest;
      forall k | 0 <= k < |parts| ensures sep !in parts[k] {
        if k > 0 {
          assert parts[k] == rest[k - 1];
        }
      }
    }
  }

  lemma {:induction false} JoinSplit(s: string, sep: char)
    ensures Join([sep], Split(s, sep)) == s
    decreases |s|
  {
    if sep in s {
      var i := IndexOf(s, sep);
      var head, tail := s[..i], s[i + 1..];
      var rest := Split(tail, sep);
      JoinSplit(tail, sep);
      var parts := [head] + rest;
      assert Split(s, sep) == parts;
      assert parts[0] == head && parts[1..] == rest;
      assert Join([sep], parts) == head + [sep] + Join([sep], rest);
      assert s == head + [sep] + tail;
    }
  }

  /** Characters at which `str.splitlines` ends a line. */
  predicate IsLineBreak(c: char) {
    c == '\n' || c == '\r' || c == '\U{0B}' || c == '\U{0C}' || ('\U{1C}' <= c <= '\U{1E}')
    || c == '\U{85}' || c == '\U{2028}' || c == '\U{2029}'
  }

  function LineLen(s: string): (n: nat)
    ensures n <= |s|
    ensures forall j :: 0 <= j < n ==> !IsLineBreak(s[j])
    ensures n < |s| ==> IsLineBreak(s[n])
  {
    if s == [] || IsLineBreak(s[0]) then 0 else 1 + LineLen(s[1..])
  }

  /** `s.splitlines()`: no line holds a line break, and a `\r\n` pair ends
      a single line. */
  function SplitLines(s: string): (r: seq<string>)
    ensures forall k, j :: 0 <= k < |r| && 0 <= j < |r[k]| ==> !IsLineBreak(r[k][j])
    decreases |s|
  {
    if s == [] then []
    else
      var n := LineLen(s);
      if n == |s| then [s]
      else
        var skip := if s[n] == '\r' && n + 1 < |s| && s[n + 1] == '\n' then 2 else 1;
        [s[..n]] + SplitLines(s[n + skip..])
  }

  function WordLen(t: string): (n: nat)
    ensures n <= |t|
    ensures forall j :: 0 <= j < n ==> !IsSpace(t[j])
    ensures t != [] && !IsSpace(t[0]) ==> n >= 1
  {
    if t == [] || IsSpace(t[0]) then 0 else 1 + WordLen(t[1..])
  }

  /** A token of `str.split()`: non-empty, without whitespace. */
  predicate IsWord(w: string) {
    w != [] && forall j :: 0 <= j < |w| ==> !IsSpace(w[j])
  }

  /** `s.split()`: the maximal runs of non-whitespace. */
  function Words(s: string): (r: seq<string>)
    ensures forall k :: 0 <= k < |r| ==> IsWord(r[k])
    decreases |s|
  {
    var t := TrimStart(s);
    TrimStartShape(s);
    if t == [] then []
    else
      var n := WordLen(t);
      assert IsWord(t[..n]);
      [t[..n]] + Words(t[n..])
  }

  /** A word followed by nothing or by whitespace is read whole. */
  lemma {:induction false} WordLenOf(w: string, tail: string)
    requires IsWord(w) && (tail == [] || IsSpace(tail[0]))
    ensures WordLen(w + tail) == |w|
    decreases |w|
  {
    if |w| > 1 {
      assert (w + tail)[1..] == w[1..] + tail;
      WordLenOf(w[1..], tail);
    } else {
      assert (w + tail)[1..] == tail;
    }
  }

  /** Words joined by single spaces start with the first word's first
      character and end with the last word's last character. */
  lemma {:induction false} JoinWordsEnds(ws: seq<string>)
    requires |ws| >= 1 && forall k :: 0 <= k < |ws| ==> IsWord(ws[k])
    ensures var j := Join(" ", ws); var last := ws[|ws| - 1];
      |ws[0]| > 0 && |last| > 0 && j != [] && j[0] == ws[0][0] && j[|j| - 1] == last[|last| - 1]
  {
    if |ws| > 1 {
      JoinWordsEnds(ws[1..]);
    }
  }

  /** `" ".join(ws).split() == ws` for words `ws`. */
  lemma {:induction false} WordsOfJoin(ws: seq<string>)
    requires forall k :: 0 <= k < |ws| ==> IsWord(ws[k])
    ensures Words(Join(" ", ws)) == ws
  {
    if |ws| == 1 {
      var w := ws[0];
      WordLenOf(w, []);
      assert w + [] == w;
      assert w[|w|..] == [];
    } else if |ws| > 1 {
      var w := ws[0];
      var rest := Join(" ", ws[1..]);
      JoinWordsEnds(ws[1..]);
      WordsOfJoin(ws[1..]);
      var s := w + " " + rest;
      assert Join(" ", ws) == s;
      WordLenOf(w, " " + rest);
      assert s == w + (" " + rest);
      assert s[|w|..] == " " + rest;
      assert (" " + rest)[1..] == rest;
      assert TrimStart(" " + rest) == rest;
    }
  }

  /** Words joined by single spaces have nothing to strip. */
  lemma JoinWordsStripped(ws: seq<string>)
    requires |ws| >= 1 && forall k :: 0 <= k < |ws| ==> IsWord(ws[k])
    ensures Strip(Join(" ", ws)) == Join(" ", ws)
  {
    JoinWordsEnds(ws);
  }

  /** `s[:n]` */
  function Take(s: string, n: nat): (r: string)
    ensures |r| <= n && |r| <= |s|
    ensures |s| <= n ==> r == s
  {
    if |s| <= n then s else s[..n]
  }

  /** `s.replace(pat, rep)`: leftmost, non-overlapping occurrences. */
  function Replace(s: string, pat: string, rep: string): (r: string)
    requires pat != []
    decreases |s|
  {
    if s == [] then []
    else if StartsWith(s, pat) then rep + Replace(s[|pat|..], pat, rep)
    else [s[0]] + Replace(s[1..], pat, rep)
  }

  /** Replacing a string that does not occur leaves the text unchanged. */
  lemma {:induction false} ReplaceAbsent(s: string, pat: string, rep: string)
    requires pat != [] && !Contains(s, pat)
    ensures Replace(s, pat, rep) == s
    decreases |s|
  {
    if s != [] {
      ReplaceAbsent(s[1..], pat, rep);
    }
  }
}
