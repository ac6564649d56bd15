/**
 * The few Python `str` operations the scraper and the bill parsers rely on,
 * written out so that their edge cases are explicit: whitespace as Python's
 * `str.isspace()` sees it, `strip()`, `split()`, `" ".join(...)`,
 * single-character `replace`, slicing with clamped and negative bounds, and
 * `upper()` on the Latin-1 range.
 */
module PyStr {

  /** Python's `str.isspace()` for one character: the set `str.split()`,
      `str.strip()` and the regular-expression class `\s` all use. */
  predicate IsSpace(c: char) {
    || ('\t' <= c <= '\r')
    || ('\U{1C}' <= c <= '\U{1F}')
    || c == ' ' || c == '\U{85}' || c == '\U{A0}' || c == '\U{1680}'
    || ('\U{2000}' <= c <= '\U{200A}')
    || c == '\U{2028}' || c == '\U{2029}' || c == '\U{202F}' || c == '\U{205F}' || c == '\U{3000}'
  }

  /** An ASCII decimal digit. */
  predicate IsDigit(c: char) {
    '0' <= c <= '9'
  }

  predicate NoSpace(s: string) {
    forall i :: 0 <= i < |s| ==> !IsSpace(s[i])
  }

  predicate AllSpace(s: string) {
    forall i :: 0 <= i < |s| ==> IsSpace(s[i])
  }

  /** A token of `str.split()`: non-empty and free of whitespace. */
  predicate Word(w: string) {
    |w| > 0 && NoSpace(w)
  }

  function LeadingSpaces(s: string): (n: nat)
    ensures n <= |s| && AllSpace(s[..n])
    ensures n < |s| ==> !IsSpace(s[n])
  {
    if s != [] && IsSpace(s[0]) then
      var n := 1 + LeadingSpaces(s[1..]);
      assert s[..n] == [s[0]] + s[1..][..n - 1];
      n
    else 0
  }

  function TrailingSpaces(s: string): (n: nat)
    ensures n <= |s| && AllSpace(s[|s| - n..])
    ensures n < |s| ==> !IsSpace(s[|s| - 1 - n])
  {
    if s != [] && IsSpace(s[|s| - 1]) then
      var n := 1 + TrailingSpaces(s[..|s| - 1]);
      assert s[|s| - n..] == s[..|s| - 1][|s| - n..] + [s[|s| - 1]];
      n
    else 0
  }

  /** `s.strip()`: the result neither starts nor ends with whitespace. */
  function Strip(s: string): (r: string)
    ensures r == [] || (!IsSpace(r[0]) && !IsSpace(r[|r| - 1]))
  {
    var a := LeadingSpaces(s);
    var t := s[a..];
    var b := TrailingSpaces(t);
    var r := t[..|t| - b];
    assert r != [] ==> r[0] == s[a] && r[|r| - 1] == t[|t| - 1 - b];
    r
  }

  /** What `strip()` removes is whitespace: `s` is a whitespace prefix, the
      result and a whitespace suffix. */
  lemma StripRemovesOnlySpace(s: string)
    ensures exists a, b :: s == a + Strip(s) + b && AllSpace(a) && AllSpace(b)
  {
    var a := LeadingSpaces(s);
    var e := |s| - TrailingSpaces(s[a..]);
    assert Strip(s) == s[a..e];
    assert AllSpace(s[e..]) by {
      assert s[e..] == s[a..][|s[a..]| - TrailingSpaces(s[a..])..];
    }
    ThreeParts(s, a, e);
  }

  lemma ThreeParts(s: string, a: nat, e: nat)
    requires a <= e <= |s|
    ensures s == s[..a] + s[a..e] + s[e..]
  {
  }

  /** Length of the whitespace-free prefix of `t`. */
  function WordLength(t: string): (n: nat)
    ensures n <= |t| && NoSpace(t[..n])
    ensures n < |t| ==> IsSpace(t[n])
  {
    if t != [] && !IsSpace(t[0]) then
      var n := 1 + WordLength(t[1..]);
      assert t[..n] == [t[0]] + t[1..][..n - 1];
      n
    else 0
  }

  /** `s.split()` with no separator: the maximal whitespace-free runs of `s`,
      in order. */
  function Split(s: string): (r: seq<string>)
    ensures forall k :: 0 <= k < |r| ==> Word(r[k])
    decreases |s|
  {
    var t := s[LeadingSpaces(s)..];
    if t == [] then []
    else
      var w := WordLength(t);
      [t[..w]] + Split(t[w..])
  }

  /** `sep.join(parts)`. */
  function Join(parts: seq<string>, sep: string): string {
    if |parts| == 0 then ""
    else if |parts| == 1 then parts[0]
    else parts[0] + sep + Join(parts[1..], sep)
  }

  lemma JoinWordStartsAndEnds(ws: seq<string>)
    requires |ws| > 0 && forall k :: 0 <= k < |ws| ==> Word(ws[k])
    ensures |Join(ws, " ")| > 0
    ensures !IsSpace(Join(ws, " ")[0]) && !IsSpace(Join(ws, " ")[|Join(ws, " ")| - 1])
  {
    if |ws| > 1 {
      JoinWordStartsAndEnds(ws[1..]);
    }
  }

  lemma SplitOfWordThen(w: string, rest: string)
    requires Word(w) && (rest == [] || IsSpace(rest[0]))
    ensures Split(w + rest) == [w] + Split(rest)
  {
    var s := w + rest;
    assert s[0] == w[0];
    assert LeadingSpaces(s) == 0;
    var n := WordLength(s);
    assert s[..|w|] == w;
    assert n == |w|;
    assert s[n..] == rest;
  }

  lemma SplitOfSpaceThen(rest: string)
    requires rest == [] || !IsSpace(rest[0])
    ensures Split(" " + rest) == Split(rest)
  {
    var s := " " + rest;
    assert LeadingSpaces(s) == 1 + LeadingSpaces(rest);
    assert LeadingSpaces(rest) == 0;
    assert s[1..] == rest;
  }

  lemma SplitOfWordSpaceThen(w: string, rest: string)
    requires Word(w) && (rest == [] || !IsSpace(rest[0]))
    ensures Split(w + " " + rest) == [w] + Split(rest)
  {
    assert w + " " + rest == w + (" " + rest);
    SplitOfWordThen(w, " " + rest);
    SplitOfSpaceThen(rest);
  }

  /** Splitting words joined by single spaces gives the words back. */
  lemma {:induction false} SplitJoin(ws: seq<string>)
    requires forall k :: 0 <= k < |ws| ==> Word(ws[k])
    ensures Split(Join(ws, " ")) == ws
  {
    if |ws| == 0 {
    } else if |ws| == 1 {
      SplitOfWordThen(ws[0], "");
      assert ws[0] + "" == ws[0];
      assert Split("") == [];
    } else {
      var rest := Join(ws[1..], " ");
      JoinWordStartsAndEnds(ws[1..]);
      SplitJoin(ws[1..]);
      SplitOfWordSpaceThen(ws[0], rest);
      assert Join(ws, " ") == ws[0] + " " + rest;
      assert ws == [ws[0]] + ws[1..];
    }
  }

  /** `s.replace(c, with)` for a one-character `c`. */
  function Replace(s: string, c: char, with: string): (r: string)
    ensures c !in s ==> r == s
  {
    if s == [] then []
    else (if s[0] == c then with else [s[0]]) + Replace(s[1..], c, with)
  }

  /** Every character of the result comes from `with` or is a character of
      `s` other than `c`. */
  lemma {:induction false} ReplaceChars(s: string, c: char, with: string)
    ensures forall d :: d in Replace(s, c, with) ==> d in with || (d in s && d != c)
  {
    if s != [] {
      ReplaceChars(s[1..], c, with);
      var head := if s[0] == c then with else [s[0]];
      assert Replace(s, c, with) == head + Replace(s[1..], c, with);
      forall d | d in Replace(s, c, with)
        ensures d in with || (d in s && d != c)
      {
        if d in Replace(s[1..], c, with) {
          assert d in with || (d in s[1..] && d != c);
        }
      }
    }
  }

  /** Replacement works piece by piece. */
  lemma {:induction false} ReplaceAppend(x: string, y: string, c: char, with: string)
    ensures Replace(x + y, c, with) == Replace(x, c, with) + Replace(y, c, with)
  {
    if x == [] {
      assert x + y == y;
    } else {
      assert (x + y)[1..] == x[1..] + y;
      ReplaceAppend(x[1..], y, c, with);
    }
  }

  /** Replacing the only occurrence of `c`. */
  lemma ReplaceOnce(x: string, y: string, c: char, with: string)
    requires c !in x && c !in y
    ensures Replace(x + [c] + y, c, with) == x + with + y
  {
    ReplaceAppend(x + [c], y, c, with);
    ReplaceAppend(x, [c], c, with);
    assert Replace([c], c, with) == with + Replace([], c, with);
  }

  /** A string that neither starts nor ends with whitespace is its own
      `strip()`. */
  lemma StripUnchanged(s: string)
    requires s == [] || (!IsSpace(s[0]) && !IsSpace(s[|s| - 1]))
    ensures Strip(s) == s
  {
    assert LeadingSpaces(s) == 0;
    assert s[0..] == s;
    assert TrailingSpaces(s) == 0;
  }

  /** Python's normalisation of a slice bound against a length `n`. */
  function ClampIndex(i: int, n: nat): (r: nat)
    ensures r <= n
    ensures 0 <= i <= n ==> r == i
  {
    if i < 0 then (if i + n < 0 then 0 else i + n)
    else if i > n then n
    else i
  }

  /** `s[lo:hi]`: bounds are clamped, negative bounds count from the end, and
      an empty range gives the empty sequence. */
  function Slice<T>(s: seq<T>, lo: int, hi: int): (r: seq<T>)
    ensures |r| <= |s|
    ensures 0 <= lo <= hi <= |s| ==> r == s[lo..hi]
  {
    var a, b := ClampIndex(lo, |s|), ClampIndex(hi, |s|);
    if a < b then s[a..b] else []
  }

  /** Adjacent slices with non-negative bounds join into one slice. */
  lemma SliceAdjacent<T>(s: seq<T>, a: int, b: int, c: int)
    requires 0 <= a <= b <= c
    ensures Slice(s, a, b) + Slice(s, b, c) == Slice(s, a, c)
  {
    var a', b', c' := ClampIndex(a, |s|), ClampIndex(b, |s|), ClampIndex(c, |s|);
    assert a' <= b' <= c';
    if a' < b' && b' < c' {
      assert s[a'..b'] + s[b'..c'] == s[a'..c'];
    }
  }

  /** A slice starting at 0 is a prefix, whatever its end bound. */
  lemma SliceFromStartIsPrefix<T>(s: seq<T>, hi: int)
    ensures Slice(s, 0, hi) <= s
  {
  }

  /** `str.upper()` for one character. ASCII and Latin-1 letters are mapped
      as Python maps them ('ß' becomes "SS"); other characters are kept. */
  function UpperChar(c: char): (r: string)
    ensures |r| > 0
    ensures IsSpace(c) ==> r == [c]
    ensures forall d :: d in r ==> IsSpace(d) == IsSpace(c)
  {
    if 'a' <= c <= 'z' then [(c as int - 32) as char]
    else if c == '\U{B5}' then ['\U{39C}']
    else if c == '\U{DF}' then "SS"
    else if '\U{E0}' <= c <= '\U{FE}' && c != '\U{F7}' then [(c as int - 32) as char]
    else if c == '\U{FF}' then ['\U{178}']
    else [c]
  }

  function Upper(s: string): (r: string)
    ensures |r| >= |s|
  {
    if s == [] then [] else UpperChar(s[0]) + Upper(s[1..])
  }

  lemma UpperCharFixed(c: char)
    ensures forall d :: d in UpperChar(c) ==> UpperChar(d) == [d]
  {
  }

  lemma {:induction false} UpperAppend(a: string, b: string)
    ensures Upper(a + b) == Upper(a) + Upper(b)
  {
    if a != [] {
      assert (a + b)[1..] == a[1..] + b;
      UpperAppend(a[1..], b);
    } else {
      assert a + b == b;
    }
  }

  lemma {:induction false} UpperOfFixed(s: string)
    requires forall i :: 0 <= i < |s| ==> UpperChar(s[i]) == [s[i]]
    ensures Upper(s) == s
  {
    if s != [] {
      UpperOfFixed(s[1..]);
    }
  }

  /** Upper-casing twice is upper-casing once. */
  lemma {:induction false} UpperIdempotent(s: string)
    ensures Upper(Upper(s)) == Upper(s)
  {
    if s != [] {
      var u := UpperChar(s[0]);
      UpperCharFixed(s[0]);
      UpperOfFixed(u);
      UpperAppend(u, Upper(s[1..]));
      UpperIdempotent(s[1..]);
    }
  }
}
