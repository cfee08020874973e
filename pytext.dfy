/**
  * The handful of Python `str` operations the adjoint input readers rely on:
  * `strip()`, `lower()`, `split()` without arguments, `startswith`, the `in`
  * substring test, `replace(c, "")` and `split("#")[0]`.
  */
module PyText {

  /** The characters `str.isspace()` accepts, which are what `strip()` and `split()` remove. */
  predicate IsSpace(c: char) {
    var n := c as int;
    (9 <= n <= 13) || (28 <= n <= 32) || n == 0x85 || n == 0xA0 || n == 0x1680 ||
    (0x2000 <= n <= 0x200A) || n == 0x2028 || n == 0x2029 || n == 0x202F ||
    n == 0x205F || n == 0x3000
  }

  predicate NoSpace(s: string) {
    forall k :: 0 <= k < |s| ==> !IsSpace(s[k])
  }

  /** `s.lstrip()`: `s` without its leading whitespace. */
  function LStrip(s: string): (r: string)
    ensures |r| <= |s|
    ensures r == [] || !IsSpace(r[0])
  {
    if s == [] || !IsSpace(s[0]) then s else LStrip(s[1..])
  }

  /** `s.rstrip()`: `s` without its trailing whitespace. */
  function RStrip(s: string): (r: string)
    ensures |r| <= |s|
    ensures r == [] || !IsSpace(r[|r| - 1])
  {
    if s == [] || !IsSpace(s[|s| - 1]) then s else RStrip(s[..|s| - 1])
  }

  /** `s.strip()` */
  function Strip(s: string): string {
    RStrip(LStrip(s))
  }

  /** `c.lower()` for ASCII letters; every other character is left alone. */
  function LowerChar(c: char): char {
    if 'A' <= c <= 'Z' then (c as int + 32) as char else c
  }

  /** `s.lower()` */
  function Lower(s: string): (r: string)
    ensures |r| == |s|
    ensures forall k :: 0 <= k < |s| ==> r[k] == LowerChar(s[k])
  {
    if s == [] then [] else [LowerChar(s[0])] + Lower(s[1..])
  }

  /** Length of the leading run of non-whitespace characters of `s`. */
  function WordLen(s: string): (n: nat)
    ensures n <= |s|
    ensures s != [] && !IsSpace(s[0]) ==> n >= 1
  {
    if s == [] || IsSpace(s[0]) then 0 else 1 + WordLen(s[1..])
  }

  /** `s.split()`: the maximal runs of non-whitespace characters, in order. */
  function Split(s: string): seq<string>
    decreases |s|
  {
    var t := LStrip(s);
    if t == [] then []
    else
      var n := WordLen(t);
      [t[..n]] + Split(t[n..])
  }

  /** The tokens of `line.lower().strip().split()`, the form most readers use. */
  function LowTokens(line: string): seq<string> {
    Split(Strip(Lower(line)))
  }

  /** `s.startswith(p)` */
  predicate StartsWith(s: string, p: string) {
    |p| <= |s| && s[..|p|] == p
  }

  /** `sub in s` */
  predicate Contains(s: string, sub: string)
    decreases |s|
  {
    StartsWith(s, sub) || (s != [] && Contains(s[1..], sub))
  }

  /** The test `len(line.strip()) == 0 or line.strip()[0] == "#"`. */
  predicate IsBlankOrComment(line: string) {
    var t := Strip(line);
    |t| == 0 || t[0] == '#'
  }

  /** `s.replace(c, "")` for a one-character `c`. */
  function RemoveChar(s: string, c: char): (r: string)
    ensures forall k :: 0 <= k < |r| ==> r[k] != c
  {
    if s == [] then []
    else (if s[0] == c then [] else [s[0]]) + RemoveChar(s[1..], c)
  }

  /** `s.split(c)[0]`: everything before the first occurrence of `c`. */
  function BeforeFirst(s: string, c: char): (r: string)
    ensures |r| <= |s| && r == s[..|r|]
    ensures forall k :: 0 <= k < |r| ==> r[k] != c
    ensures |r| < |s| ==> s[|r|] == c
  {
    if s == [] || s[0] == c then [] else [s[0]] + BeforeFirst(s[1..], c)
  }

  function LowerAll(ts: seq<string>): (r: seq<string>)
    ensures |r| == |ts|
    ensures forall k :: 0 <= k < |ts| ==> r[k] == Lower(ts[k])
  {
    if ts == [] then [] else [Lower(ts[0])] + LowerAll(ts[1..])
  }

  // ----- lemmas -----

  lemma LowerCharSpace(c: char)
    ensures IsSpace(LowerChar(c)) == IsSpace(c)
  {
  }

  /** A stripped string that is not empty neither starts nor ends with whitespace. */
  lemma StripEnds(s: string)
    requires Strip(s) != []
    ensures !IsSpace(Strip(s)[0]) && !IsSpace(Strip(s)[|Strip(s)| - 1])
  {
    var l := LStrip(s);
    RStripPrefix(l);
  }

  lemma {:induction false} RStripPrefix(s: string)
    ensures RStrip(s) == s[..|RStrip(s)|]
    decreases |s|
  {
    if s != [] && IsSpace(s[|s| - 1]) {
      RStripPrefix(s[..|s| - 1]);
    }
  }

  /** The first `split()` token of a string that starts with a non-space character starts with it. */
  lemma SplitFirst(s: string)
    requires s != [] && !IsSpace(s[0])
    ensures Split(s) != [] && Split(s)[0] != [] && Split(s)[0][0] == s[0]
  {
    assert LStrip(s) == s;
  }

  /** A stripped line that is not empty has at least one `split()` token, beginning with its first character. */
  lemma StripSplitFirst(s: string)
    requires Strip(s) != []
    ensures Split(Strip(s)) != [] && Split(Strip(s))[0] != [] && Split(Strip(s))[0][0] == Strip(s)[0]
  {
    StripEnds(s);
    SplitFirst(Strip(s));
  }

  lemma {:induction false} LStripLower(s: string)
    ensures LStrip(Lower(s)) == Lower(LStrip(s))
    decreases |s|
  {
    if s != [] {
      LowerCharSpace(s[0]);
      assert Lower(s)[1..] == Lower(s[1..]);
      LStripLower(s[1..]);
    }
  }

  lemma {:induction false} RStripLower(s: string)
    ensures RStrip(Lower(s)) == Lower(RStrip(s))
    decreases |s|
  {
    if s != [] {
      LowerCharSpace(s[|s| - 1]);
      assert Lower(s)[..|s| - 1] == Lower(s[..|s| - 1]);
      RStripLower(s[..|s| - 1]);
    }
  }

  /** `s.lower().strip() == s.strip().lower()` */
  lemma StripLower(s: string)
    ensures Strip(Lower(s)) == Lower(Strip(s))
  {
    LStripLower(s);
    RStripLower(LStrip(s));
  }

  /** A line whose lower-cased, stripped form starts with a letter is neither blank nor a comment. */
  lemma LetterLineNotComment(line: string, p: string)
    requires p != [] && 'a' <= p[0] <= 'z'
    requires StartsWith(Strip(Lower(line)), p)
    ensures !IsBlankOrComment(line)
  {
    StripLower(line);
    var t := Strip(line);
    assert Lower(t) != [] && Lower(t)[0] == p[0];
    assert t != [] && LowerChar(t[0]) == p[0];
  }

  /** A line that is neither blank nor a comment has at least one `lower().strip().split()` token. */
  lemma NonBlankHasToken(line: string)
    requires !IsBlankOrComment(line)
    ensures LowTokens(line) != []
  {
    StripLower(line);
    StripEnds(line);
    var t := Strip(line);
    LowerCharSpace(t[0]);
    SplitFirst(Lower(t));
  }

  /** A character of `s` is found by the `in` test. */
  lemma {:induction false} ContainsChar(s: string, k: nat)
    requires k < |s|
    ensures Contains(s, [s[k]])
    decreases k
  {
    if k > 0 {
      ContainsChar(s[1..], k - 1);
    }
  }

  /** `s.split(c)[0]` of a string without `c` is the whole string. */
  lemma BeforeFirstAbsent(s: string, c: char)
    requires !Contains(s, [c])
    ensures BeforeFirst(s, c) == s
  {
    var r := BeforeFirst(s, c);
    if |r| < |s| {
      ContainsChar(s, |r|);
    }
  }

  lemma {:induction false} LStripIdempotent(s: string)
    ensures LStrip(LStrip(s)) == LStrip(s)
    decreases |s|
  {
    if s != [] && IsSpace(s[0]) {
      LStripIdempotent(s[1..]);
    }
  }

  /** Appending a whitespace character moves `lstrip()`'s result along with it, unless all is whitespace. */
  lemma {:induction false} LStripAppendSpace(t: string, c: char)
    requires IsSpace(c)
    ensures LStrip(t) == [] ==> LStrip(t + [c]) == []
    ensures LStrip(t) != [] ==> LStrip(t + [c]) == LStrip(t) + [c]
    decreases |t|
  {
    if t == [] {
      assert LStrip([c]) == LStrip([c][1..]);
    } else {
      assert (t + [c])[1..] == t[1..] + [c];
      if IsSpace(t[0]) {
        LStripAppendSpace(t[1..], c);
      }
    }
  }

  lemma {:induction false} WordLenAppendSpace(w: string, c: char)
    requires IsSpace(c)
    ensures WordLen(w + [c]) == WordLen(w)
    decreases |w|
  {
    if w != [] {
      assert (w + [c])[1..] == w[1..] + [c];
      if !IsSpace(w[0]) {
        WordLenAppendSpace(w[1..], c);
      }
    }
  }

  /** A trailing whitespace character adds no word. */
  lemma {:induction false} SplitAppendSpace(t: string, c: char)
    requires IsSpace(c)
    ensures Split(t + [c]) == Split(t)
    decreases |t|
  {
    LStripAppendSpace(t, c);
    var w := LStrip(t);
    if w != [] {
      var n := WordLen(w);
      WordLenAppendSpace(w, c);
      assert (w + [c])[..n] == w[..n];
      assert (w + [c])[n..] == w[n..] + [c];
      SplitAppendSpace(w[n..], c);
    }
  }

  lemma {:induction false} SplitRStrip(s: string)
    ensures Split(RStrip(s)) == Split(s)
    decreases |s|
  {
    if s != [] && IsSpace(s[|s| - 1]) {
      var front := s[..|s| - 1];
      assert s == front + [s[|s| - 1]];
      SplitAppendSpace(front, s[|s| - 1]);
      SplitRStrip(front);
    }
  }

  /** `s.strip().split() == s.split()` */
  lemma SplitStrip(s: string)
    ensures Split(Strip(s)) == Split(s)
  {
    SplitRStrip(LStrip(s));
    LStripIdempotent(s);
  }
}
