/**
  Python `str` operations the modelled code relies on: prefix tests, substring search,
  `str.replace`, `str.split` on one separator character and ASCII `str.lower`.
 */
module Strings {
  import opened Wrappers

  predicate StartsWith(s: string, p: string) {
    |p| <= |s| && s[..|p|] == p
  }

  /** `p` occurs in `s` starting at index `i`. */
  predicate OccursAt(s: string, p: string, i: int) {
    0 <= i && i + |p| <= |s| && s[i..i + |p|] == p
  }

  /** Python's `p in s`. */
  predicate Contains(s: string, p: string) {
    exists i | 0 <= i <= |s| :: OccursAt(s, p, i)
  }

  /** Python's `s.find(p)`, with `None` for `-1`: the first index at which `p` occurs. */
  function IndexOf(s: string, p: string): (r: Option<nat>)
    requires |p| > 0
    ensures r.Some? ==> OccursAt(s, p, r.value)
    ensures r.Some? ==> forall j :: 0 <= j < r.value ==> !OccursAt(s, p, j)
    ensures r.None? <==> !Contains(s, p)
    decreases |s|
  {
    if |s| < |p| then
      None
    else if StartsWith(s, p) then
      assert OccursAt(s, p, 0);
      Some(0)
    else
      OccursShift(s, p);
      match IndexOf(s[1..], p)
      case None => None
      case Some(k) => Some(k + 1)
  }

  /** An occurrence past the first character is an occurrence in the rest, one place earlier. */
  lemma OccursShift(s: string, p: string)
    requires |s| > 0
    ensures forall j :: 1 <= j ==> (OccursAt(s, p, j) <==> OccursAt(s[1..], p, j - 1))
  {
  }

  /** Python's `s.replace(pat, with)`: every non-overlapping occurrence, scanned left to right. */
  function Replace(s: string, pat: string, with: string): string
    requires |pat| > 0
    decreases |s|
  {
    if |s| == 0 then ""
    else if StartsWith(s, pat) then with + Replace(s[|pat|..], pat, with)
    else [s[0]] + Replace(s[1..], pat, with)
  }

  /** `Replace` copies a stretch in which the pattern's first character does not occur. */
  lemma {:induction false} ReplaceSkips(x: string, y: string, pat: string, with: string)
    requires |pat| > 0 && pat[0] !in x
    ensures Replace(x + y, pat, with) == x + Replace(y, pat, with)
    decreases |x|
  {
    if |x| == 0 {
      assert x + y == y;
    } else {
      var s := x + y;
      assert s[0] == x[0] && x[0] in x;
      assert !StartsWith(s, pat);
      assert s[1..] == x[1..] + y;
      assert forall c :: c in x[1..] ==> c in x;
      ReplaceSkips(x[1..], y, pat, with);
      assert x == [x[0]] + x[1..];
    }
  }

  /** An occurrence of the pattern at the front is replaced. */
  lemma ReplaceHere(y: string, pat: string, with: string)
    requires |pat| > 0
    ensures Replace(pat + y, pat, with) == with + Replace(y, pat, with)
  {
  }

  /** The first occurrence after a stretch free of the pattern's first character is replaced. */
  lemma ReplaceAfter(x: string, y: string, pat: string, with: string)
    requires |pat| > 0 && pat[0] !in x
    ensures Replace(x + pat + y, pat, with) == x + with + Replace(y, pat, with)
  {
    assert x + pat + y == x + (pat + y);
    ReplaceSkips(x, pat + y, pat, with);
    ReplaceHere(y, pat, with);
  }

  /** A text shorter than the pattern is left alone. */
  lemma {:induction false} ReplaceShort(s: string, pat: string, with: string)
    requires |pat| > 0 && |s| < |pat|
    ensures Replace(s, pat, with) == s
    decreases |s|
  {
    if |s| > 0 {
      ReplaceShort(s[1..], pat, with);
      assert s == [s[0]] + s[1..];
    }
  }

  /**
    Output of `Replace` that begins with text free of the replacement's first character
    copied that text from the input.
   */
  lemma {:induction false} ReplacePrefixKept(t: string, w: string, pat: string, with: string)
    requires |pat| > 0 && |with| > 0 && with[0] !in w
    ensures StartsWith(Replace(t, pat, with), w) ==> StartsWith(t, w)
    decreases |w|
  {
    if |w| > 0 && |t| > 0 {
      var v := Replace(t, pat, with);
      assert StartsWith(v, w) ==> v[0] == w[0] && w[0] in w;
      assert StartsWith(t, pat) ==> v[0] == with[0];
      var v1 := Replace(t[1..], pat, with);
      assert !StartsWith(t, pat) ==> v == [t[0]] + v1;
      assert forall c :: c in w[1..] ==> c in w;
      ReplacePrefixKept(t[1..], w[1..], pat, with);
      assert StartsWith(v, w) && v == [t[0]] + v1 ==> StartsWith(v1, w[1..]);
      assert StartsWith(t[1..], w[1..]) && t[0] == w[0] ==> StartsWith(t, w);
    }
  }

  /**
    `Replace` leaves no occurrence of the pattern behind when the replacement cannot start
    or extend one: the pattern's first character is not in the replacement, and the
    replacement's first character is not in the rest of the pattern.
   */
  lemma {:induction false} ReplaceRemovesAll(t: string, pat: string, with: string)
    requires |pat| > 0 && |with| > 0
    requires pat[0] !in with && with[0] !in pat[1..]
    ensures forall j :: !OccursAt(Replace(t, pat, with), pat, j)
    decreases |t|
  {
    var v := Replace(t, pat, with);
    if |t| > 0 {
      if StartsWith(t, pat) {
        var v1 := Replace(t[|pat|..], pat, with);
        ReplaceRemovesAll(t[|pat|..], pat, with);
        assert v == with + v1;
        forall j ensures !OccursAt(v, pat, j) {
          assert OccursAt(v, pat, j) ==> v[j..j + |pat|][0] == pat[0];
          assert j >= |with| ==> (OccursAt(v, pat, j) ==> OccursAt(v1, pat, j - |with|));
          assert 0 <= j < |with| ==> v[j] == with[j] && with[j] in with;
        }
      } else {
        var v1 := Replace(t[1..], pat, with);
        ReplaceRemovesAll(t[1..], pat, with);
        assert v == [t[0]] + v1;
        ReplacePrefixKept(t[1..], pat[1..], pat, with);
        forall j ensures !OccursAt(v, pat, j) {
          assert j >= 1 ==> (OccursAt(v, pat, j) ==> OccursAt(v1, pat, j - 1));
          assert StartsWith(t[1..], pat[1..]) && t[0] == pat[0] ==> StartsWith(t, pat);
        }
      }
    }
  }

  /** Python's `str.lower()` restricted to ASCII letters. */
  function LowerChar(c: char): char {
    if 'A' <= c <= 'Z' then (c as int - 'A' as int + 'a' as int) as char else c
  }

  function Lower(s: string): (r: string)
    ensures |r| == |s|
    ensures forall i :: 0 <= i < |s| ==> r[i] == LowerChar(s[i])
  {
    seq(|s|, i requires 0 <= i < |s| => LowerChar(s[i]))
  }

  /** Number of occurrences of the character `c` in `s`. */
  function Count(s: string, c: char): nat
    decreases |s|
  {
    if |s| == 0 then 0 else (if s[0] == c then 1 else 0) + Count(s[1..], c)
  }

  lemma {:induction false} CountZero(s: string, c: char)
    ensures Count(s, c) == 0 <==> c !in s
    decreases |s|
  {
    if |s| > 0 {
      CountZero(s[1..], c);
      assert s == [s[0]] + s[1..];
    }
  }

  /** The position of the first `c` in `s`. */
  function FindChar(s: string, c: char): (r: Option<nat>)
    ensures r.Some? ==> r.value < |s| && s[r.value] == c && c !in s[..r.value]
    ensures r.None? ==> c !in s
    decreases |s|
  {
    if |s| == 0 then None
    else if s[0] == c then Some(0)
    else match FindChar(s[1..], c)
      case None => None
      case Some(k) => assert s[..k + 1] == [s[0]] + s[1..][..k]; Some(k + 1)
  }

  /** Python's `s.split(sep)` for a one-character separator. */
  function Split(s: string, sep: char): (parts: seq<string>)
    ensures |parts| > 0
    ensures forall i :: 0 <= i < |parts| ==> sep !in parts[i]
    decreases |s|
  {
    match FindChar(s, sep)
    case None => [s]
    case Some(i) => [s[..i]] + Split(s[i + 1..], sep)
  }

  /** The first separator after a separator-free stretch is where `FindChar` stops. */
  lemma FindCharAfter(x: string, y: string, c: char)
    requires c !in x
    ensures FindChar(x + [c] + y, c) == Some(|x|)
  {
    var s := x + [c] + y;
    assert s[|x|] == c;
    assert forall j :: 0 <= j < |x| ==> s[j] == x[j];
    assert forall m :: |x| < m <= |s| ==> s[..m][|x|] == c;
  }

  /** A separator-free string splits into itself. */
  lemma SplitNoSep(s: string, sep: char)
    requires sep !in s
    ensures Split(s, sep) == [s]
  {
  }

  /** Splitting at the first separator. */
  lemma SplitAtFirst(x: string, y: string, sep: char)
    requires sep !in x
    ensures Split(x + [sep] + y, sep) == [x] + Split(y, sep)
  {
    var s := x + [sep] + y;
    FindCharAfter(x, y, sep);
    assert s[..|x|] == x;
    assert s[|x| + 1..] == y;
  }

  /** Python's `sep.join(parts)`. */
  function Join(parts: seq<string>, sep: char): string
    requires |parts| > 0
    decreases |parts|
  {
    if |parts| == 1 then parts[0] else parts[0] + [sep] + Join(parts[1..], sep)
  }

  /** Splitting loses nothing: joining the pieces gives back the string. */
  lemma {:induction false} SplitJoin(s: string, sep: char)
    ensures Join(Split(s, sep), sep) == s
    decreases |s|
  {
    match FindChar(s, sep)
    case None =>
    case Some(i) =>
      var rest := s[i + 1..];
      SplitJoin(rest, sep);
      assert Split(s, sep)[1..] == Split(rest, sep);
      assert s == s[..i] + [sep] + rest;
  }

  /** Splitting yields one piece per separator, plus one. */
  lemma {:induction false} SplitCount(s: string, sep: char)
    ensures |Split(s, sep)| == Count(s, sep) + 1
    decreases |s|
  {
    match FindChar(s, sep)
    case None =>
      CountZero(s, sep);
    case Some(i) =>
      var rest := s[i + 1..];
      SplitCount(rest, sep);
      assert s == s[..i] + ([sep] + rest);
      CountAppend(s[..i], [sep] + rest, sep);
      CountAppend([sep], rest, sep);
      assert Count([sep], sep) == 1;
      CountZero(s[..i], sep);
  }

  lemma {:induction false} CountAppend(a: string, b: string, c: char)
    ensures Count(a + b, c) == Count(a, c) + Count(b, c)
    decreases |a|
  {
    if |a| > 0 {
      assert (a + b)[1..] == a[1..] + b;
      assert (a + b)[0] == a[0];
      CountAppend(a[1..], b, c);
    } else {
      assert a + b == b;
    }
  }
}
