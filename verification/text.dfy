/** The Python string operations the classifier post-processing relies on:
    `str.strip()` with no argument, and `split("\n")` with its inverse
    `"\n".join(...)`. */
module Text {

  /** Python's `str.isspace()` on one character: the ASCII controls TAB to CR,
      the separators FS, GS, RS and US, SPACE, NEL, NO-BREAK SPACE and the
      Unicode space separators, LINE SEPARATOR and PARAGRAPH SEPARATOR. */
  predicate IsSpace(c: char) {
    || ('\t' <= c <= '\r')
    || ('\U{1C}' <= c <= '\U{1F}')
    || c == ' '
    || c == '\U{85}'
    || c == '\U{A0}'
    || c == '\U{1680}'
    || ('\U{2000}' <= c <= '\U{200A}')
    || c == '\U{2028}'
    || c == '\U{2029}'
    || c == '\U{202F}'
    || c == '\U{205F}'
    || c == '\U{3000}'
  }

  ghost predicate AllSpace(s: string) {
    forall i :: 0 <= i < |s| ==> IsSpace(s[i])
  }

  /** Positions lo to hi (exclusive) of s hold whitespace. */
  ghost predicate SpaceBetween(s: string, lo: nat, hi: nat)
    requires lo <= hi <= |s|
  {
    forall k :: lo <= k < hi ==> IsSpace(s[k])
  }

  /** No whitespace at either end. */
  ghost predicate Trimmed(s: string) {
    s == [] || (!IsSpace(s[0]) && !IsSpace(s[|s| - 1]))
  }

  /** The first position at or after i that does not hold whitespace, or |s|. */
  function SkipSpace(s: string, i: nat): (n: nat)
    requires i <= |s|
    ensures i <= n <= |s|
    ensures SpaceBetween(s, i, n)
    ensures n < |s| ==> !IsSpace(s[n])
    decreases |s| - i
  {
    if i == |s| || !IsSpace(s[i]) then i else SkipSpace(s, i + 1)
  }

  /** Going back from j, no further than lo: the position just after the
      last character that is not whitespace, or lo. */
  function SkipSpaceBack(s: string, lo: nat, j: nat): (n: nat)
    requires lo <= j <= |s|
    ensures lo <= n <= j
    ensures SpaceBetween(s, n, j)
    ensures n > lo ==> !IsSpace(s[n - 1])
    decreases j - lo
  {
    if j == lo || !IsSpace(s[j - 1]) then j else SkipSpaceBack(s, lo, j - 1)
  }

  function StripStart(s: string): nat {
    SkipSpace(s, 0)
  }

  function StripEnd(s: string): nat {
    SkipSpaceBack(s, StripStart(s), |s|)
  }

  /** Python's `s.strip()`: `s` without its leading and trailing whitespace. */
  function Strip(s: string): (r: string)
    ensures Trimmed(r)
  {
    s[StripStart(s)..StripEnd(s)]
  }

  /** What strip removes is whitespace: the stripped string lies between an
      all-whitespace prefix and an all-whitespace suffix. */
  lemma StripBounds(s: string)
    ensures StripStart(s) <= StripEnd(s) <= |s|
    ensures Strip(s) == s[StripStart(s)..StripEnd(s)]
    ensures SpaceBetween(s, 0, StripStart(s)) && SpaceBetween(s, StripEnd(s), |s|)
  {
    var i := StripStart(s);
    if i == |s| {
      assert StripEnd(s) == |s|;
    } else {
      var j := StripEnd(s);
      assert j > i by { assert !IsSpace(s[i]); }
      assert forall k :: j <= k < |s| ==> IsSpace(s[k]);
    }
  }

  lemma {:induction false} SkipSpaceIs(s: string, i: nat, n: nat)
    requires i <= n <= |s| && SpaceBetween(s, i, n) && (n < |s| ==> !IsSpace(s[n]))
    ensures SkipSpace(s, i) == n
    decreases n - i
  {
    if i < n {
      assert IsSpace(s[i]);
      SkipSpaceIs(s, i + 1, n);
    }
  }

  lemma {:induction false} SkipSpaceBackIs(s: string, lo: nat, j: nat, n: nat)
    requires lo <= n <= j <= |s| && SpaceBetween(s, n, j) && (n > lo ==> !IsSpace(s[n - 1]))
    ensures SkipSpaceBack(s, lo, j) == n
    decreases j - n
  {
    if n < j {
      assert IsSpace(s[j - 1]);
      SkipSpaceBackIs(s, lo, j - 1, n);
    }
  }

  /** Stripping is determined by its characterisation: whatever lies between
      an all-whitespace prefix and an all-whitespace suffix, with no
      whitespace at its own ends, is the stripped string. */
  lemma StripIs(s: string, i: nat, j: nat)
    requires i <= j <= |s|
    requires SpaceBetween(s, 0, i) && SpaceBetween(s, j, |s|)
    requires i < j ==> !IsSpace(s[i]) && !IsSpace(s[j - 1])
    ensures Strip(s) == s[i..j]
  {
    if i == j {
      SkipSpaceIs(s, 0, |s|);
      assert StripEnd(s) == |s|;
    } else {
      SkipSpaceIs(s, 0, i);
      SkipSpaceBackIs(s, i, |s|, j);
    }
  }

  /** Stripping twice is stripping once. */
  lemma StripIdempotent(s: string)
    ensures Strip(Strip(s)) == Strip(s)
  {
    var r := Strip(s);
    StripIs(r, 0, |r|);
    assert r[0..|r|] == r;
  }

  /** Whitespace around a string does not change what it strips to. */
  lemma StripPadded(p: string, x: string, q: string)
    requires AllSpace(p) && AllSpace(q)
    ensures Strip(p + x + q) == Strip(x)
  {
    StripBounds(x);
    var i, j := StripStart(x), StripEnd(x);
    var s := p + x + q;
    var a, b := |p| + i, |p| + j;
    assert forall k :: |p| <= k < |p| + |x| ==> s[k] == x[k - |p|];
    forall k | 0 <= k < a ensures IsSpace(s[k]) {
      if k < |p| { assert s[k] == p[k]; } else { assert s[k] == x[k - |p|]; }
    }
    forall k | b <= k < |s| ensures IsSpace(s[k]) {
      if k < |p| + |x| { assert s[k] == x[k - |p|]; } else { assert s[k] == q[k - |p| - |x|]; }
    }
    assert s[a..b] == x[i..j] by {
      forall k | 0 <= k < b - a ensures s[a..b][k] == x[i..j][k] {
        assert s[a + k] == x[i + k];
      }
    }
    if a < b {
      assert s[a] == x[i] && s[b - 1] == x[j - 1];
    }
    StripIs(s, a, b);
  }

  /** A string with no whitespace at either end strips to itself. */
  lemma StripTrimmed(s: string)
    requires Trimmed(s)
    ensures Strip(s) == s
  {
    StripIs(s, 0, |s|);
    assert s[0..|s|] == s;
  }

  /** The position of the first newline at or after i, or |s| when there is none. */
  function NewlineFrom(s: string, i: nat): (n: nat)
    requires i <= |s|
    ensures i <= n <= |s|
    ensures forall k :: i <= k < n ==> s[k] != '\n'
    ensures n < |s| ==> s[n] == '\n'
    decreases |s| - i
  {
    if i == |s| || s[i] == '\n' then i else NewlineFrom(s, i + 1)
  }

  lemma {:induction false} NewlineFromIs(s: string, i: nat, n: nat)
    requires i <= n <= |s|
    requires forall k :: i <= k < n ==> s[k] != '\n'
    requires n < |s| ==> s[n] == '\n'
    ensures NewlineFrom(s, i) == n
    decreases n - i
  {
    if i < n {
      NewlineFromIs(s, i + 1, n);
    }
  }

  /** Python's `s.split("\n")`: the lines of `s`, never an empty list. */
  function Split(s: string): (lines: seq<string>)
    ensures |lines| >= 1
    decreases |s|
  {
    var i := NewlineFrom(s, 0);
    if i == |s| then [s] else [s[..i]] + Split(s[i + 1..])
  }

  /** No line holds a newline. */
  lemma {:induction false} SplitLines(s: string)
    ensures forall k :: 0 <= k < |Split(s)| ==> '\n' !in Split(s)[k]
    decreases |s|
  {
    var i := NewlineFrom(s, 0);
    if i < |s| {
      var rest := s[i + 1..];
      SplitLines(rest);
      var lines := Split(s);
      assert lines == [s[..i]] + Split(rest);
      forall k | 0 <= k < |lines| ensures '\n' !in lines[k] {
        if k == 0 {
          assert forall m :: 0 <= m < i ==> s[..i][m] == s[m];
        } else {
          assert lines[k] == Split(rest)[k - 1];
        }
      }
    }
  }

  /** A string without a newline is a single line. */
  lemma SplitSingleLine(s: string)
    requires '\n' !in s
    ensures Split(s) == [s]
  {
    NewlineFromIs(s, 0, |s|);
  }

  /** The first line ends at the first newline. */
  lemma SplitFirst(a: string, b: string)
    requires '\n' !in a
    ensures Split(a + "\n" + b) == [a] + Split(b)
  {
    var s := a + "\n" + b;
    forall k | 0 <= k < |a| ensures s[k] != '\n' {
      assert s[k] == a[k];
    }
    NewlineFromIs(s, 0, |a|);
    assert s[..|a|] == a;
    assert s[|a| + 1..] == b;
  }

  /** Python's `"\n".join(lines)` for a non-empty list. */
  function Join(lines: seq<string>): string
    requires |lines| >= 1
  {
    if |lines| == 1 then lines[0] else lines[0] + "\n" + Join(lines[1..])
  }

  /** Joining the lines of a string gives the string back. */
  lemma {:induction false} JoinSplit(s: string)
    ensures Join(Split(s)) == s
    decreases |s|
  {
    var i := NewlineFrom(s, 0);
    if i < |s| {
      var rest := s[i + 1..];
      JoinSplit(rest);
      var lines := Split(s);
      assert lines == [s[..i]] + Split(rest);
      assert lines[0] == s[..i] && lines[1..] == Split(rest);
      assert Join(lines) == s[..i] + "\n" + Join(Split(rest));
      assert s == s[..i] + "\n" + rest;
    }
  }

  /** Splitting joined lines that hold no newline gives the lines back. */
  lemma {:induction false} SplitJoin(lines: seq<string>)
    requires |lines| >= 1
    requires forall k :: 0 <= k < |lines| ==> '\n' !in lines[k]
    ensures Split(Join(lines)) == lines
  {
    if |lines| == 1 {
      SplitSingleLine(lines[0]);
    } else {
      assert '\n' !in lines[0];
      SplitJoin(lines[1..]);
      SplitFirst(lines[0], Join(lines[1..]));
      assert lines == [lines[0]] + lines[1..];
    }
  }

  lemma {:induction false} JoinAppend(x: seq<string>, y: seq<string>)
    requires |x| >= 1 && |y| >= 1
    ensures Join(x + y) == Join(x) + "\n" + Join(y)
  {
    if |x| > 1 {
      assert (x + y)[1..] == x[1..] + y;
      JoinAppend(x[1..], y);
    } else {
      assert (x + y)[1..] == y;
    }
  }

  /** Splitting at a newline splits the lines. */
  lemma SplitAround(x: string, y: string)
    ensures Split(x + "\n" + y) == Split(x) + Split(y)
  {
    JoinSplit(x);
    JoinSplit(y);
    SplitLines(x);
    SplitLines(y);
    JoinAppend(Split(x), Split(y));
    var ls := Split(x) + Split(y);
    forall k | 0 <= k < |ls| ensures '\n' !in ls[k] {
      if k < |Split(x)| { assert ls[k] == Split(x)[k]; } else { assert ls[k] == Split(y)[k - |Split(x)|]; }
    }
    SplitJoin(ls);
  }
}
