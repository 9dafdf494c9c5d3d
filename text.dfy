/** The handful of Python string operations the handlers rely on, as total functions on `seq<char>`:
    `lower`, `in`, `startswith`/`endswith`, `split(sep)[0]`, `split(sep)[-1]`, `split(sep, 1)`,
    `strip`, `replace`, slicing `s[:n]`, `max` over strings and decimal rendering of integers. */
module Text {
  import opened Wrappers

  // ---------------------------------------------------------------- case

  function LowerChar(c: char): char {
    if 'A' <= c <= 'Z' then (c as int + 32) as char else c
  }

  /** `s.lower()`, for the ASCII letters. */
  function Lower(s: string): (r: string)
    ensures |r| == |s|
    ensures forall i :: 0 <= i < |s| ==> r[i] == LowerChar(s[i])
  {
    seq(|s|, i requires 0 <= i < |s| => LowerChar(s[i]))
  }

  lemma LowerConcat(a: string, b: string)
    ensures Lower(a + b) == Lower(a) + Lower(b)
  {
  }

  lemma LowerIdempotent(s: string)
    ensures Lower(Lower(s)) == Lower(s)
  {
  }

  // ---------------------------------------------------------------- searching

  predicate StartsWith(s: string, prefix: string) {
    prefix <= s
  }

  predicate EndsWith(s: string, suffix: string) {
    |suffix| <= |s| && s[|s| - |suffix|..] == suffix
  }

  lemma EndsWithAppend(a: string, b: string)
    ensures EndsWith(a + b, b)
  {
    assert (a + b)[|a|..] == b;
  }

  /** `p` occurs in `s` starting at position `j`. */
  predicate OccursAt(s: string, p: string, j: int) {
    0 <= j && j + |p| <= |s| && s[j..j + |p|] == p
  }

  /** Position of the first occurrence of `p` in `s` (Python's `s.find(p)`, with `None` for -1). */
  function IndexOf(s: string, p: string): (r: Option<nat>)
    ensures r.Some? ==> OccursAt(s, p, r.value)
    ensures r.Some? ==> forall j :: 0 <= j < r.value ==> !OccursAt(s, p, j)
    ensures r.None? ==> forall j :: !OccursAt(s, p, j)
    decreases |s|
  {
    if |s| < |p| then None
    else if s[..|p|] == p then Some(0)
    else
      assert forall j :: 1 <= j ==> (OccursAt(s, p, j) <==> OccursAt(s[1..], p, j - 1)) by {
        forall j | 1 <= j ensures OccursAt(s, p, j) == OccursAt(s[1..], p, j - 1) {
          if j + |p| <= |s| {
            var a, b := s[j..j + |p|], s[1..][j - 1..j - 1 + |p|];
            forall k | 0 <= k < |p| ensures a[k] == b[k] { }
            assert a == b;
          }
        }
      }
      match IndexOf(s[1..], p)
      case Some(k) => Some(k + 1)
      case None => None
  }

  /** `p in s`. */
  predicate Contains(s: string, p: string) {
    IndexOf(s, p).Some?
  }

  lemma ContainsAt(s: string, p: string, i: nat)
    requires OccursAt(s, p, i)
    ensures Contains(s, p)
  {
  }

  /** An occurrence in either part is an occurrence in the whole. */
  lemma ContainsInConcat(a: string, b: string, p: string)
    ensures Contains(a, p) ==> Contains(a + b, p)
    ensures Contains(b, p) ==> Contains(a + b, p)
  {
    if Contains(a, p) { ContainsLeft(a, b, p); }
    if Contains(b, p) { ContainsRight(a, b, p); }
  }

  lemma ContainsLeft(a: string, b: string, p: string)
    requires Contains(a, p)
    ensures Contains(a + b, p)
  {
    var j := IndexOf(a, p).value;
    assert (a + b)[j..j + |p|] == a[j..j + |p|];
    ContainsAt(a + b, p, j);
  }

  lemma ContainsRight(a: string, b: string, p: string)
    requires Contains(b, p)
    ensures Contains(a + b, p)
  {
    var j := IndexOf(b, p).value;
    assert (a + b)[|a| + j..|a| + j + |p|] == b[j..j + |p|];
    ContainsAt(a + b, p, |a| + j);
  }

  /** A pattern holding a character that the text lacks does not occur in it. */
  lemma AbsentChar(s: string, p: string, k: nat)
    requires k < |p| && p[k] !in s
    ensures !Contains(s, p)
  {
    forall j | 0 <= j && j + |p| <= |s| ensures !OccursAt(s, p, j) {
      assert s[j..j + |p|][k] == s[j + k];
    }
  }

  /** An occurrence cannot straddle a separator character the pattern does not hold. */
  lemma SplitOnAbsent(a: string, c: char, b: string, p: string)
    requires c !in p && !Contains(a, p) && !Contains(b, p)
    ensures !Contains(a + [c] + b, p)
  {
    var s := a + [c] + b;
    forall j | 0 <= j && j + |p| <= |s| ensures !OccursAt(s, p, j) {
      if j + |p| <= |a| {
        assert s[j..j + |p|] == a[j..j + |p|];
        assert !OccursAt(a, p, j);
      } else if j > |a| {
        assert s[j..j + |p|] == b[j - |a| - 1..j - |a| - 1 + |p|];
        assert !OccursAt(b, p, j - |a| - 1);
      } else {
        assert s[j..j + |p|][|a| - j] == c;
      }
    }
  }

  /** Python's `s.split(p)[0]`: the text before the first occurrence of `p`, or all of `s`. */
  function Before(s: string, p: string): (r: string)
    ensures r <= s
    ensures !Contains(s, p) ==> r == s
  {
    match IndexOf(s, p)
    case Some(i) => s[..i]
    case None => s
  }

  /** The first occurrence of a pattern that starts with a character absent from `a` is right after `a`. */
  lemma IndexAfterPrefix(a: string, p: string, b: string)
    requires |p| > 0 && p[0] !in a
    ensures IndexOf(a + p + b, p) == Some(|a|)
  {
    var s := a + p + b;
    assert OccursAt(s, p, |a|) by { assert s[|a|..|a| + |p|] == p; }
    forall j | 0 <= j < |a| ensures !OccursAt(s, p, j) {
      if j + |p| <= |s| { assert s[j..j + |p|][0] == a[j]; }
    }
  }

  /** Python's `s.split(p)[-1]`: the text after the last of the non-overlapping occurrences of `p`. */
  function AfterLast(s: string, p: string): (r: string)
    requires |p| > 0
    ensures |r| <= |s| && r == s[|s| - |r|..]
    ensures !Contains(r, p)
    decreases |s|
  {
    match IndexOf(s, p)
    case Some(i) => AfterLast(s[i + |p|..], p)
    case None => s
  }

  // ---------------------------------------------------------------- whitespace

  /** The characters for which Python's `str.isspace()` holds. */
  predicate IsSpace(c: char) {
    var n := c as int;
    n == 32 || 9 <= n <= 13 || 28 <= n <= 31 || n == 0x85 || n == 0xA0 || n == 0x1680
    || 0x2000 <= n <= 0x200A || n == 0x2028 || n == 0x2029 || n == 0x202F || n == 0x205F || n == 0x3000
  }

  predicate AllSpace(s: string) {
    forall i :: 0 <= i < |s| ==> IsSpace(s[i])
  }

  function LStrip(s: string): (r: string)
    ensures |r| <= |s| && r == s[|s| - |r|..]
    ensures AllSpace(s[..|s| - |r|])
    ensures r == [] || !IsSpace(r[0])
    decreases |s|
  {
    if s != [] && IsSpace(s[0]) then LStrip(s[1..]) else s
  }

  function RStrip(s: string): (r: string)
    ensures r <= s
    ensures AllSpace(s[|r|..])
    ensures r == [] || !IsSpace(r[|r| - 1])
    decreases |s|
  {
    if s != [] && IsSpace(s[|s| - 1]) then RStrip(s[..|s| - 1]) else s
  }

  /** `s.strip()`. */
  function Strip(s: string): string {
    RStrip(LStrip(s))
  }

  lemma {:induction false} LStripSpaces(ws: string, x: string)
    requires AllSpace(ws) && (x == [] || !IsSpace(x[0]))
    ensures LStrip(ws + x) == x
    decreases |ws|
  {
    if ws != [] {
      assert (ws + x)[1..] == ws[1..] + x;
      LStripSpaces(ws[1..], x);
    } else {
      assert ws + x == x;
    }
  }

  lemma {:induction false} RStripSpaces(x: string, ws: string)
    requires AllSpace(ws) && (x == [] || !IsSpace(x[|x| - 1]))
    ensures RStrip(x + ws) == x
    decreases |ws|
  {
    if ws != [] {
      assert (x + ws)[..|x + ws| - 1] == x + ws[..|ws| - 1];
      RStripSpaces(x, ws[..|ws| - 1]);
    } else {
      assert x + ws == x;
    }
  }

  lemma AllSpaceConcat(a: string, b: string)
    requires AllSpace(a) && AllSpace(b)
    ensures AllSpace(a + b)
  {
    forall i | 0 <= i < |a + b| ensures IsSpace((a + b)[i]) {
      if i >= |a| { assert (a + b)[i] == b[i - |a|]; }
    }
  }

  lemma StripAllSpace(w: string)
    requires AllSpace(w)
    ensures Strip(w) == []
  {
    assert w + [] == w;
    LStripSpaces(w, []);
  }

  /** Leading whitespace does not change what `lstrip()` returns. */
  lemma {:induction false} LStripLeading(ws: string, x: string)
    requires AllSpace(ws)
    ensures LStrip(ws + x) == LStrip(x)
    decreases |ws|
  {
    if ws != [] {
      assert (ws + x)[1..] == ws[1..] + x;
      LStripLeading(ws[1..], x);
    } else {
      assert ws + x == x;
    }
  }

  /** Trailing whitespace does not change what `rstrip()` returns. */
  lemma {:induction false} RStripTrailing(x: string, ws: string)
    requires AllSpace(ws)
    ensures RStrip(x + ws) == RStrip(x)
    decreases |ws|
  {
    if ws != [] {
      assert (x + ws)[..|x + ws| - 1] == x + ws[..|ws| - 1];
      RStripTrailing(x, ws[..|ws| - 1]);
    } else {
      assert x + ws == x;
    }
  }

  lemma {:induction false} LStripAppend(x: string, y: string)
    requires LStrip(x) != []
    ensures LStrip(x + y) == LStrip(x) + y
    decreases |x|
  {
    var s := x + y;
    assert s[0] == x[0];
    if IsSpace(x[0]) {
      assert s[1..] == x[1..] + y;
      assert LStrip(x) == LStrip(x[1..]);
      LStripAppend(x[1..], y);
      assert LStrip(s) == LStrip(s[1..]);
    } else {
      assert LStrip(x) == x;
      assert LStrip(s) == s;
    }
  }

  /** Surrounding whitespace does not change what `strip()` returns. */
  lemma StripSurrounded(ws1: string, x: string, ws2: string)
    requires AllSpace(ws1) && AllSpace(ws2)
    ensures Strip(ws1 + x + ws2) == Strip(x)
  {
    assert ws1 + x + ws2 == ws1 + (x + ws2);
    LStripLeading(ws1, x + ws2);
    if LStrip(x) == [] {
      assert x[..|x|] == x;
      AllSpaceConcat(x, ws2);
      StripAllSpace(x + ws2);
    } else {
      LStripAppend(x, ws2);
      RStripTrailing(LStrip(x), ws2);
    }
  }

  /** `rstrip()` keeps every character up to the last non-whitespace one. */
  lemma {:induction false} RStripKeeps(s: string, i: nat)
    requires i < |s| && !IsSpace(s[i])
    ensures |RStrip(s)| > i
    decreases |s|
  {
    if i < |s| - 1 && IsSpace(s[|s| - 1]) {
      RStripKeeps(s[..|s| - 1], i);
    }
  }

  lemma RStripKeepsHead(head: string, rest: string)
    requires head != [] && !IsSpace(head[|head| - 1])
    ensures StartsWith(RStrip(head + rest), head)
  {
    RStripKeeps(head + rest, |head| - 1);
    var r := RStrip(head + rest);
    assert r[..|head|] == (head + rest)[..|head|] == head;
  }

  /** A head that starts and ends with non-whitespace survives `strip()` of what it heads. */
  lemma StripKeepsHead(ws: string, head: string, rest: string)
    requires AllSpace(ws) && head != [] && !IsSpace(head[0]) && !IsSpace(head[|head| - 1])
    ensures StartsWith(Strip(ws + head + rest), head)
  {
    assert ws + head + rest == ws + (head + rest);
    LStripSpaces(ws, head + rest);
    RStripKeepsHead(head, rest);
  }

  lemma StripPlain(x: string)
    requires x != [] && !IsSpace(x[0]) && !IsSpace(x[|x| - 1])
    ensures Strip(x) == x
  {
    LStripSpaces([], x);
    assert [] + x == x;
    RStripSpaces(x, []);
    assert x + [] == x;
  }

  /** Text that starts and ends with non-whitespace is what `strip()` leaves of it when surrounded by
    * whitespace. */
  lemma StripExact(ws1: string, x: string, ws2: string)
    requires AllSpace(ws1) && AllSpace(ws2) && x != [] && !IsSpace(x[0]) && !IsSpace(x[|x| - 1])
    ensures Strip(ws1 + x + ws2) == x
  {
    StripSurrounded(ws1, x, ws2);
    StripPlain(x);
  }

  // ---------------------------------------------------------------- title case

  predicate IsAsciiLetter(c: char) {
    'a' <= c <= 'z' || 'A' <= c <= 'Z'
  }

  function UpperChar(c: char): char {
    if 'a' <= c <= 'z' then (c as int - 32) as char else c
  }

  /** `s.title()`: a letter is upper-cased when it follows a non-letter and lower-cased otherwise. */
  function Title(s: string): string {
    TitleAfter(s, false)
  }

  function TitleAfter(s: string, afterLetter: bool): (r: string)
    ensures |r| == |s|
  {
    if s == [] then []
    else [if afterLetter then LowerChar(s[0]) else UpperChar(s[0])] + TitleAfter(s[1..], IsAsciiLetter(s[0]))
  }

  // ---------------------------------------------------------------- replacement and slicing

  /** `s.replace(pat, sub)`: every non-overlapping occurrence, scanned left to right. */
  function Replace(s: string, pat: string, sub: string): string
    requires |pat| > 0
    decreases |s|
  {
    if |s| < |pat| then s
    else if s[..|pat|] == pat then sub + Replace(s[|pat|..], pat, sub)
    else [s[0]] + Replace(s[1..], pat, sub)
  }

  /** Replacing by the empty string removes every occurrence of a single character. */
  lemma {:induction false} RemoveChar(s: string, c: char)
    ensures c !in Replace(s, [c], "")
    decreases |s|
  {
    if |s| >= 1 {
      RemoveChar(s[1..], c);
    }
  }

  /** A text without the pattern's first character is left unchanged. */
  lemma {:induction false} ReplaceAbsent(s: string, pat: string, sub: string)
    requires |pat| > 0 && pat[0] !in s
    ensures Replace(s, pat, sub) == s
    decreases |s|
  {
    if |s| >= |pat| {
      assert s[..|pat|][0] == s[0];
      ReplaceAbsent(s[1..], pat, sub);
      assert s == [s[0]] + s[1..];
    }
  }

  /** A head without the pattern's first character passes through unchanged. */
  lemma {:induction false} ReplaceSkip(a: string, x: string, pat: string, sub: string)
    requires |pat| > 0 && pat[0] !in a
    ensures Replace(a + x, pat, sub) == a + Replace(x, pat, sub)
    decreases |a|
  {
    if a != [] {
      var s := a + x;
      assert s[0] == a[0];
      assert s[1..] == a[1..] + x;
      ReplaceSkip(a[1..], x, pat, sub);
      if |s| >= |pat| {
        assert s[..|pat|] != pat by { assert s[..|pat|][0] == a[0]; }
      }
      assert a == [a[0]] + a[1..];
    } else {
      assert a + x == x;
    }
  }

  /** A text in which the pattern does not occur is left unchanged. */
  lemma {:induction false} ReplaceWithout(s: string, pat: string, sub: string)
    requires |pat| > 0 && !Contains(s, pat)
    ensures Replace(s, pat, sub) == s
    decreases |s|
  {
    if |s| >= |pat| {
      assert !OccursAt(s, pat, 0);
      assert s[0..|pat|] == s[..|pat|];
      ReplaceWithout(s[1..], pat, sub);
      assert s == [s[0]] + s[1..];
    }
  }

  /** A pattern whose first character does not occur before it is replaced exactly once, at the end. */
  lemma {:induction false} ReplaceSuffix(a: string, pat: string, sub: string)
    requires |pat| > 0 && pat[0] !in a
    ensures Replace(a + pat, pat, sub) == a + sub
    decreases |a|
  {
    var s := a + pat;
    if a == [] {
      assert s[..|pat|] == pat && s[|pat|..] == [];
      assert Replace(s, pat, sub) == sub + Replace([], pat, sub);
    } else {
      assert s[..|pat|] != pat by { assert s[..|pat|][0] == a[0] != pat[0]; }
      assert s[1..] == a[1..] + pat;
      ReplaceSuffix(a[1..], pat, sub);
      assert Replace(s, pat, sub) == [a[0]] + Replace(a[1..] + pat, pat, sub);
      assert a == [a[0]] + a[1..];
    }
  }

  /** `s.split(c)` for a one-character separator: the pieces between separators, empty ones kept. */
  function Split(s: string, c: char): (r: seq<string>)
    ensures |r| >= 1
    ensures forall piece :: piece in r ==> c !in piece
    decreases |s|
  {
    if s == [] then [[]]
    else
      var rest := Split(s[1..], c);
      if s[0] == c then [[]] + rest
      else
        assert forall piece :: piece in rest[1..] ==> piece in rest;
        [[s[0]] + rest[0]] + rest[1..]
  }

  /** `c.join(pieces)`. */
  function Join(pieces: seq<string>, c: char): string
    requires |pieces| >= 1
  {
    if |pieces| == 1 then pieces[0] else pieces[0] + [c] + Join(pieces[1..], c)
  }

  /** Joining the pieces gives back the text. */
  lemma {:induction false} JoinSplit(s: string, c: char)
    ensures Join(Split(s, c), c) == s
    decreases |s|
  {
    if s != [] {
      var rest := Split(s[1..], c);
      JoinSplit(s[1..], c);
      if s[0] != c && |rest| > 1 {
        assert Join(rest, c) == rest[0] + [c] + Join(rest[1..], c);
      }
    }
  }

  lemma {:induction false} SplitPlain(x: string, c: char)
    requires c !in x
    ensures Split(x, c) == [x]
    decreases |x|
  {
    if x != [] {
      SplitPlain(x[1..], c);
      assert [x[0]] + x[1..] == x;
    }
  }

  lemma {:induction false} SplitFirst(x: string, c: char, t: string)
    requires c !in x
    ensures Split(x + [c] + t, c) == [x] + Split(t, c)
    decreases |x|
  {
    if x == [] {
      assert (x + [c] + t)[1..] == t;
    } else {
      assert (x + [c] + t)[1..] == x[1..] + [c] + t;
      SplitFirst(x[1..], c, t);
      assert [x[0]] + x[1..] == x;
    }
  }

  /** Splitting pieces that hold no separator gives back the pieces. */
  lemma {:induction false} SplitJoin(pieces: seq<string>, c: char)
    requires |pieces| >= 1 && forall piece :: piece in pieces ==> c !in piece
    ensures Split(Join(pieces, c), c) == pieces
    decreases |pieces|
  {
    if |pieces| == 1 {
      SplitPlain(pieces[0], c);
    } else {
      assert pieces[0] in pieces;
      assert forall piece :: piece in pieces[1..] ==> piece in pieces;
      SplitJoin(pieces[1..], c);
      SplitFirst(pieces[0], c, Join(pieces[1..], c));
      assert [pieces[0]] + pieces[1..] == pieces;
    }
  }

  /** Cutting a text at the first occurrence of a character it holds. */
  lemma {:induction false} FirstSeparator(s: string, c: char) returns (a: string, b: string)
    requires c in s
    ensures s == a + [c] + b && c !in a
    decreases |s|
  {
    if s[0] == c {
      a, b := [], s[1..];
    } else {
      assert c in s[1..];
      var a', b' := FirstSeparator(s[1..], c);
      a, b := [s[0]] + a', b';
    }
  }

  /** `split(c)[0]` of a text whose first separator follows `a`. */
  lemma BeforeSeparator(a: string, c: char, b: string)
    requires c !in a
    ensures Before(a + [c] + b, [c]) == a
  {
    IndexAfterPrefix(a, [c], b);
    assert (a + [c] + b)[..|a|] == a;
  }

  /** `s[:n]`. */
  function Take(s: string, n: nat): (r: string)
    ensures r <= s && |r| == if n < |s| then n else |s|
  {
    if n < |s| then s[..n] else s
  }

  // ---------------------------------------------------------------- order

  /** Python's `<` on strings: lexicographic by code point. */
  predicate LexLess(a: string, b: string)
    decreases |a|
  {
    |b| > 0 && (|a| == 0 || a[0] < b[0] || (a[0] == b[0] && LexLess(a[1..], b[1..])))
  }

  lemma {:induction false} LexLessIrreflexive(a: string)
    ensures !LexLess(a, a)
    decreases |a|
  {
    if |a| > 0 { LexLessIrreflexive(a[1..]); }
  }

  lemma {:induction false} LexLessAsymmetric(a: string, b: string)
    requires LexLess(a, b)
    ensures !LexLess(b, a)
    decreases |a|
  {
    if |a| > 0 && a[0] == b[0] { LexLessAsymmetric(a[1..], b[1..]); }
  }

  lemma {:induction false} LexLessTransitive(a: string, b: string, c: string)
    requires LexLess(a, b) && LexLess(b, c)
    ensures LexLess(a, c)
    decreases |a|
  {
    if |a| > 0 && a[0] == b[0] && b[0] == c[0] { LexLessTransitive(a[1..], b[1..], c[1..]); }
  }

  lemma {:induction false} LexLessTotal(a: string, b: string)
    requires a != b
    ensures LexLess(a, b) || LexLess(b, a)
    decreases |a|
  {
    if |a| > 0 && |b| > 0 && a[0] == b[0] {
      assert a[1..] != b[1..] by { assert a == [a[0]] + a[1..] && b == [b[0]] + b[1..]; }
      LexLessTotal(a[1..], b[1..]);
    }
  }

  lemma LexLessTrichotomy(a: string, b: string)
    ensures a == b || LexLess(a, b) || LexLess(b, a)
  {
    if a != b { LexLessTotal(a, b); }
  }

  /** Comparing two concatenations whose first parts have equal length. */
  lemma {:induction false} LexLessConcat(a1: string, r1: string, a2: string, r2: string)
    requires |a1| == |a2|
    requires LexLess(a1, a2) || (a1 == a2 && LexLess(r1, r2))
    ensures LexLess(a1 + r1, a2 + r2)
    decreases |a1|
  {
    if |a1| > 0 {
      assert (a1 + r1)[0] == a1[0] && (a2 + r2)[0] == a2[0];
      assert (a1 + r1)[1..] == a1[1..] + r1 && (a2 + r2)[1..] == a2[1..] + r2;
      if a1[0] == a2[0] { LexLessConcat(a1[1..], r1, a2[1..], r2); }
    } else {
      assert a1 + r1 == r1 && a2 + r2 == r2;
    }
  }

  /** Python's `max(xs)` over strings. */
  function MaxString(xs: seq<string>): (m: string)
    requires |xs| > 0
    ensures m in xs
    ensures forall x :: x in xs ==> x == m || LexLess(x, m)
  {
    if |xs| == 1 then xs[0]
    else
      var m := MaxString(xs[1..]);
      if LexLess(m, xs[0]) then
        forall x | x in xs[1..] && x != m ensures LexLess(x, xs[0]) { LexLessTransitive(x, m, xs[0]); }
        xs[0]
      else
        LexLessTrichotomy(xs[0], m);
        m
  }

  // ---------------------------------------------------------------- decimal numbers

  function DigitChar(d: nat): char
    requires d < 10
  {
    ('0' as int + d) as char
  }

  predicate IsDigit(c: char) {
    '0' <= c <= '9'
  }

  predicate AllDigits(s: string) {
    forall i :: 0 <= i < |s| ==> IsDigit(s[i])
  }

  /** The value of a string of decimal digits. */
  function DigitsValue(s: string): nat
    requires AllDigits(s)
  {
    if s == [] then 0 else DigitsValue(s[..|s| - 1]) * 10 + (s[|s| - 1] as int - '0' as int)
  }

  /** `str(n)` for a non-negative integer. */
  function NatToString(n: nat): (r: string)
    ensures |r| > 0 && AllDigits(r)
  {
    if n < 10 then [DigitChar(n)] else NatToString(n / 10) + [DigitChar(n % 10)]
  }

  /** `str(i)`. */
  function IntToString(i: int): string {
    if i < 0 then "-" + NatToString(-i) else NatToString(i)
  }

  /** Reading back the rendering of `n` gives `n`. */
  lemma {:induction false} NatToStringRoundTrip(n: nat)
    ensures DigitsValue(NatToString(n)) == n
  {
    if n >= 10 {
      var s := NatToString(n);
      assert s[..|s| - 1] == NatToString(n / 10);
      NatToStringRoundTrip(n / 10);
    }
  }

  function Pow10(k: nat): (r: nat)
    ensures r >= 1
  {
    if k == 0 then 1 else 10 * Pow10(k - 1)
  }

  /** The `width` least significant decimal digits of `n`, zero-padded (`%02d`, `%04d`). */
  function PadDigits(n: nat, width: nat): (r: string)
    ensures |r| == width && AllDigits(r)
  {
    if width == 0 then [] else PadDigits(n / 10, width - 1) + [DigitChar(n % 10)]
  }

  lemma {:induction false} PadDigitsRoundTrip(n: nat, width: nat)
    requires n < Pow10(width)
    ensures DigitsValue(PadDigits(n, width)) == n
  {
    if width > 0 {
      var s := PadDigits(n, width);
      assert s[..|s| - 1] == PadDigits(n / 10, width - 1);
      PadDigitsRoundTrip(n / 10, width - 1);
    }
  }

  /** Fixed-width digit strings compare like the numbers they denote. */
  lemma {:induction false} PadDigitsOrder(a: nat, b: nat, width: nat)
    requires a < b < Pow10(width)
    ensures LexLess(PadDigits(a, width), PadDigits(b, width))
  {
    var pa, pb := PadDigits(a / 10, width - 1), PadDigits(b / 10, width - 1);
    if a / 10 < b / 10 {
      PadDigitsOrder(a / 10, b / 10, width - 1);
      LexLessConcat(pa, [DigitChar(a % 10)], pb, [DigitChar(b % 10)]);
    } else {
      assert a % 10 < b % 10;
      LexLessConcat(pa, [DigitChar(a % 10)], pb, [DigitChar(b % 10)]);
    }
  }

  /** For four-digit numbers `str(n)` is already four characters wide. */
  lemma FourDigits(n: nat)
    requires 1000 <= n < 10000
    ensures NatToString(n) == PadDigits(n, 4)
  {
    assert NatToString(n / 1000) == PadDigits(n / 1000, 1);
    assert NatToString(n / 100) == PadDigits(n / 100, 2);
    assert NatToString(n / 10) == PadDigits(n / 10, 3);
  }
}
