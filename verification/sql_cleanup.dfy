/**
  The response cleanup `llm_call` applies to the "SQL Generator" agent
  (insightai/models.py, lines 155-158), as explicit left-to-right string functions in place
  of the two regular expressions:

  1. `re.sub(r'```sql\s*|\s*```', '', s)` deletes every match of the alternation, scanning
     left to right; at each position the first alternative is tried first.
  2. `re.sub(r'^.*?--', '--', s, flags=re.DOTALL)` drops everything before the first `--`.
 */
module SqlCleanup {
  import opened Wrappers
  import opened Strings

  /** Python's `\s` on `str`: the characters `str.isspace()` accepts. */
  predicate IsSpace(c: char) {
    || c == ' ' || c == '\t' || c == '\n' || c == '\r' || c == '\U{0B}' || c == '\U{0C}'
    || ('\U{1C}' <= c <= '\U{1F}') || c == '\U{85}' || c == '\U{A0}' || c == '\U{1680}'
    || ('\U{2000}' <= c <= '\U{200A}') || c == '\U{2028}' || c == '\U{2029}' || c == '\U{202F}'
    || c == '\U{205F}' || c == '\U{3000}'
  }

  /** Length of the longest run of whitespace at the start of `s` (greedy `\s*`). */
  function SpaceRun(s: string): (n: nat)
    ensures n <= |s|
    ensures forall i :: 0 <= i < n ==> IsSpace(s[i])
    ensures n < |s| ==> !IsSpace(s[n])
    decreases |s|
  {
    if |s| > 0 && IsSpace(s[0]) then 1 + SpaceRun(s[1..]) else 0
  }

  /** `s` can be obtained from `t` by deleting characters. */
  predicate IsSubsequence(s: string, t: string)
    decreases |t|
  {
    if |s| == 0 then true
    else if |t| == 0 then false
    else (s[0] == t[0] && IsSubsequence(s[1..], t[1..])) || IsSubsequence(s, t[1..])
  }

  lemma {:induction false} SubsequenceOfSuffix(s: string, t: string, k: nat)
    requires k <= |t|
    requires IsSubsequence(s, t[k..])
    ensures IsSubsequence(s, t)
    decreases k
  {
    if k > 0 {
      assert t[k - 1..][1..] == t[k..];
      SubsequenceOfSuffix(s, t, k - 1);
    }
  }

  /**
    The fence-stripping substitution. At each position: text starting with "```sql" loses it
    and the whitespace after it; otherwise a whitespace run followed by "```" loses both;
    otherwise the character is kept and the scan moves on. Only deletes characters.
   */
  function StripFences(s: string): (r: string)
    ensures IsSubsequence(r, s)
    decreases |s|
  {
    if |s| == 0 then ""
    else if StartsWith(s, "```sql") then
      var k := 6 + SpaceRun(s[6..]);
      SubsequenceOfSuffix(StripFences(s[k..]), s, k);
      StripFences(s[k..])
    else if StartsWith(s[SpaceRun(s)..], "```") then
      var k := SpaceRun(s) + 3;
      SubsequenceOfSuffix(StripFences(s[k..]), s, k);
      StripFences(s[k..])
    else
      var rest := StripFences(s[1..]);
      assert ([s[0]] + rest)[1..] == rest;
      [s[0]] + rest
  }

  /** Text without a backtick has no fence to strip. */
  lemma {:induction false} NoBacktickUnchanged(s: string)
    requires '`' !in s
    ensures StripFences(s) == s
    decreases |s|
  {
    if |s| > 0 {
      assert !StartsWith(s, "```sql") by { assert s[0] != '`'; }
      var n := SpaceRun(s);
      assert !StartsWith(s[n..], "```") by {
        if n < |s| {
          assert s[n..][0] == s[n] && s[n] in s;
        }
      }
      NoBacktickUnchanged(s[1..]);
      assert s == [s[0]] + s[1..];
    }
  }

  /**
    The prose-dropping substitution: the text from the first `--` on, or the text unchanged
    when it holds no `--`.
   */
  function DropBeforeComment(s: string): (r: string)
    ensures !Contains(s, "--") ==> r == s
    ensures Contains(s, "--") ==>
      && StartsWith(r, "--")
      && |r| <= |s| && r == s[|s| - |r|..]
      && forall j :: 0 <= j < |s| - |r| ==> !OccursAt(s, "--", j)
  {
    match IndexOf(s, "--")
    case None => s
    case Some(i) => s[i..]
  }

  /** The whole "SQL Generator" cleanup: strip the fences, then drop the prose before the first `--`. */
  function Clean(s: string): string {
    DropBeforeComment(StripFences(s))
  }

  /** The cleanup only ever deletes characters. */
  lemma CleanOnlyDeletes(s: string)
    ensures IsSubsequence(Clean(s), s)
  {
    var stripped := StripFences(s);
    var r := DropBeforeComment(stripped);
    SubsequenceReflexive(r);
    if Contains(stripped, "--") {
      SubsequenceOfSuffix(r, stripped, |stripped| - |r|);
    }
    SubsequenceTransitive(r, stripped, s);
  }

  lemma {:induction false} SubsequenceReflexive(s: string)
    ensures IsSubsequence(s, s)
    decreases |s|
  {
    if |s| > 0 {
      SubsequenceReflexive(s[1..]);
    }
  }

  lemma {:induction false} SubsequenceTransitive(a: string, b: string, c: string)
    requires IsSubsequence(a, b) && IsSubsequence(b, c)
    ensures IsSubsequence(a, c)
    decreases |c|
  {
    if |a| > 0 {
      assert |b| > 0 && |c| > 0;
      if b[0] == c[0] && IsSubsequence(b[1..], c[1..]) {
        if a[0] == b[0] && IsSubsequence(a[1..], b[1..]) {
          SubsequenceTransitive(a[1..], b[1..], c[1..]);
        } else {
          SubsequenceTransitive(a, b[1..], c[1..]);
        }
      } else {
        SubsequenceTransitive(a, b, c[1..]);
      }
    }
  }

  /**
    A stretch without backticks that does not end in whitespace passes through the scan
    untouched: no match can start inside it.
   */
  lemma {:induction false} PlainPrefixKept(x: string, y: string)
    requires '`' !in x
    requires |x| > 0 ==> !IsSpace(x[|x| - 1])
    ensures StripFences(x + y) == x + StripFences(y)
    decreases |x|
  {
    if |x| == 0 {
      assert x + y == y;
    } else {
      var t := x[1..];
      var z := StripFences(y);
      assert StripFences(x + y) == [x[0]] + StripFences(t + y) by { PlainStep(x, y); }
      assert StripFences(t + y) == t + z by {
        assert '`' !in t by { assert forall c :: c in t ==> c in x; }
        assert |t| > 0 ==> t[|t| - 1] == x[|x| - 1];
        PlainPrefixKept(t, y);
      }
      assert x == [x[0]] + t;
      ConcatAssoc([x[0]], t, z);
    }
  }

  /** Associativity of concatenation, as a fact of its own, apart from the unfolding of `StripFences`. */
  lemma ConcatAssoc(a: string, b: string, c: string)
    ensures (a + b) + c == a + (b + c)
  {
  }

  /** One step of the scan inside such a stretch: its first character is kept. */
  lemma PlainStep(x: string, y: string)
    requires '`' !in x
    requires |x| > 0 && !IsSpace(x[|x| - 1])
    ensures StripFences(x + y) == [x[0]] + StripFences(x[1..] + y)
  {
    var s := x + y;
    assert s[0] == x[0] && x[0] in x;
    assert !StartsWith(s, "```sql");
    var n := SpaceRun(s);
    SpaceRunStops(x, y);
    assert s[n..][0] == x[n] && x[n] in x;
    assert !StartsWith(s[n..], "```");
    KeepStep(s);
    assert s[1..] == x[1..] + y;
  }

  /** A whitespace run that starts in `x` ends inside `x` when `x` ends in a non-space. */
  lemma SpaceRunStops(x: string, y: string)
    requires |x| > 0 && !IsSpace(x[|x| - 1])
    ensures SpaceRun(x + y) < |x|
  {
    var s := x + y;
    assert s[|x| - 1] == x[|x| - 1];
  }

  /** Where no match starts, the scan keeps the character and moves on. */
  lemma KeepStep(s: string)
    requires |s| > 0 && !StartsWith(s, "```sql") && !StartsWith(s[SpaceRun(s)..], "```")
    ensures StripFences(s) == [s[0]] + StripFences(s[1..])
  {
  }

  /** A closing fence after a line break disappears with the line break. */
  lemma ClosingFenceRemoved()
    ensures StripFences("\n```") == ""
  {
  }

  /** A query `q` inside a "```sql" fence comes out alone. */
  lemma FencedQuery(q: string)
    requires '`' !in q
    requires |q| > 0 && !IsSpace(q[0]) && !IsSpace(q[|q| - 1])
    ensures StripFences("```sql\n" + q + "\n```") == q
  {
    var s := "```sql\n" + q + "\n```";
    assert StartsWith(s, "```sql");
    var t := s[6..];
    assert t == "\n" + (q + "\n```");
    assert SpaceRun(t) == 1 by {
      assert t[1..] == q + "\n```";
      assert !IsSpace(t[1..][0]);
    }
    assert s[7..] == q + "\n```";
    PlainPrefixKept(q, "\n```");
    ClosingFenceRemoved();
    assert q + "" == q;
  }

  /**
    An indented fence: the whitespace before "```sql" is taken by the second alternative
    together with the backticks, which leaves a stray "sql" in front of the query.
   */
  lemma IndentedFence(q: string)
    requires '`' !in q
    requires |q| > 0 && !IsSpace(q[|q| - 1])
    ensures StripFences(" ```sql\n" + q + "\n```") == "sql\n" + q
  {
    var rest := "sql\n" + q;
    var tail := rest + "\n```";
    IndentSplit(q);
    IndentStep(tail);
    assert '`' !in rest by { assert forall c :: c in rest ==> c in "sql\n" || c in q; }
    assert rest[|rest| - 1] == q[|q| - 1];
    PlainPrefixKept(rest, "\n```");
    ClosingFenceRemoved();
    assert rest + "" == rest;
  }

  lemma IndentSplit(q: string)
    ensures " ```sql\n" + q + "\n```" == " ```" + (("sql\n" + q) + "\n```")
  {
  }

  /** A blank followed by three backticks is one match of the second alternative. */
  lemma IndentStep(t: string)
    ensures StripFences(" ```" + t) == StripFences(t)
  {
    var s := " ```" + t;
    assert s[0] == ' ';
    assert !StartsWith(s, "```sql");
    assert SpaceRun(s) == 1 by {
      assert SpaceRun(s[1..]) == 0 by { assert s[1..][0] == '`'; }
    }
    assert s[1..][..3] == "```";
    assert s[4..] == t;
  }

  /** Prose `p` in front of a commented query `t` is dropped, provided neither holds a backtick. */
  lemma LeadingProseDropped(p: string, t: string)
    requires '`' !in p && '`' !in t && '-' !in p
    requires StartsWith(t, "--")
    ensures Clean(p + t) == t
  {
    var s := p + t;
    assert '`' !in s by { assert forall c :: c in s ==> c in p || c in t; }
    NoBacktickUnchanged(s);
    assert s[|p|..] == t;
    assert OccursAt(s, "--", |p|);
    assert forall j :: 0 <= j < |p| ==> s[j] == p[j] && p[j] in p;
    FirstCommentAt(s, |p|);
  }

  /** When the first `-` of the text opens a `--`, the prose dropper keeps the text from there. */
  lemma FirstCommentAt(s: string, k: nat)
    requires OccursAt(s, "--", k)
    requires forall j :: 0 <= j < k ==> s[j] != '-'
    ensures DropBeforeComment(s) == s[k..]
  {
    var i := IndexOf(s, "--");
    assert i.Some? && i.value <= k;
    assert s[i.value..i.value + 2][0] == s[i.value];
  }
}
