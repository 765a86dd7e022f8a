// Character classes and the string operations the bot relies on:
// Python's whitespace test, str.split() with no separator, str.strip(),
// and the small part of lower()/upper() that the fixed day names need.

module Text {

  /** Python's str.isspace() for one character: the characters that
      str.split() and str.strip() treat as whitespace. */
  predicate IsSpace(c: char)
  {
    ('\U{0009}' <= c <= '\U{000D}') || ('\U{001C}' <= c <= '\U{001F}') || c == ' ' ||
    c == '\U{0085}' || c == '\U{00A0}' || c == '\U{1680}' ||
    ('\U{2000}' <= c <= '\U{200A}') || c == '\U{2028}' || c == '\U{2029}' ||
    c == '\U{202F}' || c == '\U{205F}' || c == '\U{3000}'
  }

  predicate AllSpace(s: string)
  {
    forall i :: 0 <= i < |s| ==> IsSpace(s[i])
  }

  /** A token of str.split(): non-empty and free of whitespace. */
  predicate IsWord(w: string)
  {
    |w| > 0 && forall i :: 0 <= i < |w| ==> !IsSpace(w[i])
  }

  /** Length of the run of non-whitespace characters at the start of s. */
  function WordLength(s: string): (n: nat)
    ensures n <= |s|
    ensures forall i :: 0 <= i < n ==> !IsSpace(s[i])
    ensures n < |s| ==> IsSpace(s[n])
  {
    if s == [] || IsSpace(s[0]) then 0 else 1 + WordLength(s[1..])
  }

  /** str.split() with no argument: the maximal runs of non-whitespace
      characters, in order. */
  function Split(s: string): (r: seq<string>)
    ensures forall i :: 0 <= i < |r| ==> IsWord(r[i])
    decreases |s|
  {
    if s == [] then []
    else if IsSpace(s[0]) then Split(s[1..])
    else
      var n := WordLength(s);
      [s[..n]] + Split(s[n..])
  }

  /** Words separated by single spaces: the inverse of Split on words. */
  function Join(ws: seq<string>): string
  {
    if |ws| == 0 then ""
    else if |ws| == 1 then ws[0]
    else ws[0] + " " + Join(ws[1..])
  }

  /** Leading whitespace removed, as in str.lstrip(). */
  function TrimStart(s: string): (r: string)
    ensures |r| <= |s| && r == s[|s| - |r|..]
    ensures AllSpace(s[..|s| - |r|])
    ensures r != [] ==> !IsSpace(r[0])
  {
    if s != [] && IsSpace(s[0]) then TrimStart(s[1..]) else s
  }

  /** Trailing whitespace removed, as in str.rstrip(). */
  function TrimEnd(s: string): (r: string)
    ensures |r| <= |s| && r == s[..|r|]
    ensures AllSpace(s[|r|..])
    ensures r != [] ==> !IsSpace(r[|r| - 1])
  {
    if s != [] && IsSpace(s[|s| - 1]) then
      var r := TrimEnd(s[..|s| - 1]);
      assert s[|r|..] == s[..|s| - 1][|r|..] + [s[|s| - 1]];
      r
    else s
  }

  /** str.strip() with no argument. */
  function Strip(s: string): (r: string)
    ensures r == [] || (!IsSpace(r[0]) && !IsSpace(r[|r| - 1]))
  {
    var t := TrimStart(s);
    var r := TrimEnd(t);
    assert r != [] ==> r[0] == t[0];
    r
  }

  /** The stripped text is the part of s between a whitespace prefix and a
      whitespace suffix. */
  lemma StripShape(s: string)
    ensures exists k ::
              0 <= k <= |s| - |Strip(s)| && Strip(s) == s[k..k + |Strip(s)|] &&
              AllSpace(s[..k]) && AllSpace(s[k + |Strip(s)|..])
  {
    var t := TrimStart(s);
    var r := Strip(s);
    var k := |s| - |t|;
    assert s[k..k + |r|] == t[..|r|];
    assert s[k + |r|..] == t[|r|..];
  }

  /** A word followed by nothing or by whitespace is read as one whole token. */
  lemma {:induction false} WordLengthOfWord(w: string, t: string)
    requires IsWord(w)
    requires t == [] || IsSpace(t[0])
    ensures WordLength(w + t) == |w|
  {
    if |w| > 1 {
      assert (w + t)[1..] == w[1..] + t;
      WordLengthOfWord(w[1..], t);
    } else {
      assert (w + t)[1..] == t;
    }
  }

  /** Splitting undoes joining: a space-joined list of words splits back
      into exactly those words. */
  lemma {:induction false} SplitJoin(ws: seq<string>)
    requires forall i :: 0 <= i < |ws| ==> IsWord(ws[i])
    ensures Split(Join(ws)) == ws
  {
    if |ws| == 1 {
      WordLengthOfWord(ws[0], []);
      assert ws[0] + [] == ws[0];
      assert ws[0][|ws[0]|..] == [];
    } else if |ws| > 1 {
      var w, rest := ws[0], Join(ws[1..]);
      var s := w + " " + rest;
      WordLengthOfWord(w, " " + rest);
      assert w + (" " + rest) == s;
      assert s[..|w|] == w;
      assert s[|w|..] == " " + rest;
      assert (" " + rest)[1..] == rest;
      SplitJoin(ws[1..]);
      assert [ws[0]] + ws[1..] == ws;
    }
  }

  /** A word followed by a run of whitespace of any length and kind is one
      token, and the tokens of the rest follow it. */
  lemma {:induction false} SplitSeparated(w: string, q: string, s: string)
    requires IsWord(w) && q != [] && AllSpace(q)
    ensures Split(w + q + s) == [w] + Split(s)
  {
    var t := q + s;
    assert w + q + s == w + t;
    WordLengthOfWord(w, t);
    assert (w + t)[..|w|] == w;
    assert (w + t)[|w|..] == t;
    SplitSkipsLeading(q, s);
  }

  /** Two words with whitespace around them and a non-empty run of
      whitespace between them split into exactly those two words. */
  lemma {:induction false} SplitTwoWords(p: string, a: string, q: string, b: string, r: string)
    requires AllSpace(p) && AllSpace(q) && AllSpace(r) && q != []
    requires IsWord(a) && IsWord(b)
    ensures Split(p + a + q + b + r) == [a, b]
  {
    assert p + a + q + b + r == p + (a + q + (b + r));
    SplitSkipsLeading(p, a + q + (b + r));
    SplitSeparated(a, q, b + r);
    SplitSkipsTrailing(b, r);
    SplitJoin([b]);
    assert Join([b]) == b;
  }

  /** Leading whitespace does not change the tokens. */
  lemma {:induction false} SplitSkipsLeading(p: string, s: string)
    requires AllSpace(p)
    ensures Split(p + s) == Split(s)
  {
    if p != [] {
      assert (p + s)[0] == p[0];
      assert (p + s)[1..] == p[1..] + s;
      SplitSkipsLeading(p[1..], s);
    } else {
      assert p + s == s;
    }
  }

  /** One trailing whitespace character does not change the tokens. */
  lemma {:induction false} SplitIgnoresTrailingSpace(s: string, c: char)
    requires IsSpace(c)
    ensures Split(s + [c]) == Split(s)
    decreases |s|
  {
    if s == [] {
      assert Split([c]) == Split([c][1..]);
      assert [c][1..] == [];
    } else if IsSpace(s[0]) {
      assert (s + [c])[1..] == s[1..] + [c];
      SplitIgnoresTrailingSpace(s[1..], c);
    } else {
      var n := WordLength(s);
      WordLengthStopsAtSpace(s, c);
      assert (s + [c])[..n] == s[..n];
      assert (s + [c])[n..] == s[n..] + [c];
      SplitIgnoresTrailingSpace(s[n..], c);
    }
  }

  lemma {:induction false} WordLengthStopsAtSpace(s: string, c: char)
    requires IsSpace(c)
    ensures WordLength(s + [c]) == WordLength(s)
  {
    if s == [] {
    } else if !IsSpace(s[0]) {
      assert (s + [c])[1..] == s[1..] + [c];
      WordLengthStopsAtSpace(s[1..], c);
    }
  }

  /** Trailing whitespace does not change the tokens. */
  lemma {:induction false} SplitSkipsTrailing(s: string, p: string)
    requires AllSpace(p)
    ensures Split(s + p) == Split(s)
    decreases |p|
  {
    if p != [] {
      var q := p[..|p| - 1];
      assert s + p == (s + q) + [p[|p| - 1]];
      SplitIgnoresTrailingSpace(s + q, p[|p| - 1]);
      SplitSkipsTrailing(s, q);
    } else {
      assert s + p == s;
    }
  }

  lemma {:induction false} SplitTrimStart(s: string)
    ensures Split(TrimStart(s)) == Split(s)
  {
    if s != [] && IsSpace(s[0]) {
      SplitTrimStart(s[1..]);
    }
  }

  lemma {:induction false} SplitTrimEnd(t: string)
    ensures Split(TrimEnd(t)) == Split(t)
  {
    var r := TrimEnd(t);
    var q := t[|r|..];
    assert r + q == t;
    SplitSkipsTrailing(r, q);
  }

  /** Stripping before splitting, as the message handler does, changes
      nothing: str.split() already ignores outer whitespace. */
  lemma {:induction false} SplitStrip(s: string)
    ensures Split(Strip(s)) == Split(s)
  {
    SplitTrimStart(s);
    SplitTrimEnd(TrimStart(s));
  }

  /** str.lower() on one character, for ASCII and the basic Cyrillic block
      (U+0400..U+042F map to U+0450..U+045F and U+0430..U+044F). Every other
      character is left as it is. */
  function LowerChar(c: char): (l: char)
    ensures c == '*' <==> l == '*'
  {
    if 'A' <= c <= 'Z' then (c as int + 32) as char
    else if '\U{0410}' <= c <= '\U{042F}' then (c as int + 32) as char
    else if '\U{0400}' <= c <= '\U{040F}' then (c as int + 80) as char
    else c
  }

  /** str.upper() on one character, the inverse table of LowerChar. */
  function UpperChar(c: char): (u: char)
    ensures c == '*' <==> u == '*'
  {
    if 'a' <= c <= 'z' then (c as int - 32) as char
    else if '\U{0430}' <= c <= '\U{044F}' then (c as int - 32) as char
    else if '\U{0450}' <= c <= '\U{045F}' then (c as int - 80) as char
    else c
  }

  /** str.lower() restricted to the table of LowerChar. */
  function Lower(s: string): (r: string)
    ensures |r| == |s|
    ensures forall i :: 0 <= i < |s| ==> (s[i] == '*' <==> r[i] == '*')
    ensures forall i :: 0 <= i < |s| ==> r[i] == s[i] || IsLowerLetter(r[i])
    ensures forall i :: 0 <= i < |s| && IsLowerLetter(s[i]) ==> r[i] == s[i]
    ensures forall i :: 0 <= i < |s| && IsUpperLetter(s[i]) ==> IsLowerLetter(r[i]) && UpperChar(r[i]) == s[i]
  {
    seq(|s|, i requires 0 <= i < |s| => LowerChar(s[i]))
  }

  /** str.upper() restricted to the table of UpperChar. */
  function Upper(s: string): string
  {
    seq(|s|, i requires 0 <= i < |s| => UpperChar(s[i]))
  }

  /** An upper-case letter of the two tables. */
  predicate IsUpperLetter(c: char)
  {
    ('A' <= c <= 'Z') || ('\U{0400}' <= c <= '\U{042F}')
  }

  /** A lower-case letter of the two tables. */
  predicate IsLowerLetter(c: char)
  {
    ('a' <= c <= 'z') || ('\U{0430}' <= c <= '\U{045F}')
  }

  /** A lower-case word is recovered by lower-casing its upper-case form. */
  lemma {:induction false} LowerUpper(s: string)
    requires forall i :: 0 <= i < |s| ==> IsLowerLetter(s[i])
    ensures Lower(Upper(s)) == s
  {
    var u := Upper(s);
    forall i | 0 <= i < |s| ensures Lower(u)[i] == s[i] {
      assert LowerChar(UpperChar(s[i])) == s[i];
    }
  }
}
