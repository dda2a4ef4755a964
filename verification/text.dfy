/**
  Occurrence of one string inside another. Prompts are built by
  concatenating fixed text with interpolated values; the predicates here say
  where an interpolated value ends up in the rendered prompt.
 */
module Text {

  /** `x` occurs in `s` starting at index `i` */
  predicate OccursAt(s: string, x: string, i: int) {
    0 <= i && i + |x| <= |s| && s[i..i + |x|] == x
  }

  /** `x` occurs somewhere in `s` */
  predicate Contains(s: string, x: string) {
    exists i :: 0 <= i <= |s| && OccursAt(s, x, i)
  }

  /** The strings of `parts` occur in `s` one after the other, in this order
      and without overlapping (other text may lie between them). */
  predicate InOrder(s: string, parts: seq<string>)
    decreases |parts|
  {
    |parts| == 0 ||
    exists i :: 0 <= i <= |s| && OccursAt(s, parts[0], i) && InOrder(s[i + |parts[0]|..], parts[1..])
  }

  /** Occurrence is transitive: what occurs in a part of `s` occurs in `s`. */
  lemma ContainsTrans(s: string, t: string, x: string)
    requires Contains(s, t) && Contains(t, x)
    ensures Contains(s, x)
  {
    var i :| 0 <= i <= |s| && OccursAt(s, t, i);
    var j :| 0 <= j <= |t| && OccursAt(t, x, j);
    assert s[i..i + |t|] == t;
    forall k | 0 <= k < |x|
      ensures s[i + j + k] == x[k]
    {
      assert s[i + j + k] == s[i..i + |t|][j + k] == t[j + k] == t[j..j + |x|][k];
    }
    assert s[i + j..i + j + |x|] == x;
    assert OccursAt(s, x, i + j);
  }

  /** Prepending text and one more part keeps the order of the parts behind it. */
  lemma InOrderStep(s: string, a: string, x: string, b: string, rest: seq<string>)
    requires s == a + x + b
    requires InOrder(b, rest)
    ensures InOrder(s, [x] + rest)
  {
    var parts := [x] + rest;
    assert parts[0] == x && parts[1..] == rest;
    assert s[|a|..|a| + |x|] == x;
    assert s[|a| + |x|..] == b;
    assert OccursAt(s, x, |a|) && InOrder(s[|a| + |x|..], rest);
  }

  /** Each part of an ordered sequence occurs in the string. */
  lemma {:induction false} InOrderContains(s: string, parts: seq<string>, k: int)
    requires InOrder(s, parts)
    requires 0 <= k < |parts|
    ensures Contains(s, parts[k])
    decreases |parts|
  {
    var i :| 0 <= i <= |s| && OccursAt(s, parts[0], i) && InOrder(s[i + |parts[0]|..], parts[1..]);
    if k == 0 {
      assert OccursAt(s, parts[0], i);
    } else {
      var n := i + |parts[0]|;
      var t := s[n..];
      assert parts[1..][k - 1] == parts[k];
      InOrderContains(t, parts[1..], k - 1);
      var j :| 0 <= j <= |t| && OccursAt(t, parts[k], j);
      assert s[n + j..n + j + |parts[k]|] == t[j..j + |parts[k]|];
      assert OccursAt(s, parts[k], n + j);
    }
  }

  /** Order found in a suffix of `s` is order found in `s`. */
  lemma InOrderLift(s: string, k: int, parts: seq<string>)
    requires 0 <= k <= |s|
    requires InOrder(s[k..], parts)
    ensures InOrder(s, parts)
  {
    if |parts| > 0 {
      var t := s[k..];
      var i :| 0 <= i <= |t| && OccursAt(t, parts[0], i) && InOrder(t[i + |parts[0]|..], parts[1..]);
      assert s[k + i..k + i + |parts[0]|] == t[i..i + |parts[0]|];
      assert s[k + i + |parts[0]|..] == t[i + |parts[0]|..];
      assert OccursAt(s, parts[0], k + i);
    }
  }

  /** Dropping the first part keeps the order of the others. */
  lemma InOrderDropFirst(s: string, parts: seq<string>)
    requires |parts| > 0 && InOrder(s, parts)
    ensures InOrder(s, parts[1..])
  {
    var i :| 0 <= i <= |s| && OccursAt(s, parts[0], i) && InOrder(s[i + |parts[0]|..], parts[1..]);
    InOrderLift(s, i + |parts[0]|, parts[1..]);
  }

  /** Dropping the last parts keeps the order of the others. */
  lemma {:induction false} InOrderPrefix(s: string, a: seq<string>, b: seq<string>)
    requires InOrder(s, a + b)
    ensures InOrder(s, a)
    decreases |a|
  {
    if |a| > 0 {
      var parts := a + b;
      assert parts[0] == a[0] && parts[1..] == a[1..] + b;
      var i :| 0 <= i <= |s| && OccursAt(s, parts[0], i) && InOrder(s[i + |parts[0]|..], parts[1..]);
      InOrderPrefix(s[i + |a[0]|..], a[1..], b);
      assert OccursAt(s, a[0], i) && InOrder(s[i + |a[0]|..], a[1..]);
    }
  }

  /** Any contiguous run of ordered parts is itself in order. */
  lemma {:induction false} InOrderSkip(s: string, pre: seq<string>, mid: seq<string>, post: seq<string>)
    requires InOrder(s, pre + mid + post)
    ensures InOrder(s, mid)
    decreases |pre|
  {
    if |pre| == 0 {
      assert pre + mid + post == mid + post;
      InOrderPrefix(s, mid, post);
    } else {
      InOrderDropFirst(s, pre + mid + post);
      assert (pre + mid + post)[1..] == pre[1..] + mid + post;
      InOrderSkip(s, pre[1..], mid, post);
    }
  }

  /** Renders a template: the concatenation of its literal fragments and
      interpolated values, in order (how a Python f-string is evaluated). */
  function Join(ps: seq<string>): string {
    if |ps| == 0 then "" else ps[0] + Join(ps[1..])
  }

  /** Rendering distributes over concatenation of templates. */
  lemma {:induction false} JoinAppend(a: seq<string>, b: seq<string>)
    ensures Join(a + b) == Join(a) + Join(b)
    decreases |a|
  {
    if |a| == 0 {
      assert a + b == b;
    } else {
      assert (a + b)[0] == a[0];
      assert (a + b)[1..] == a[1..] + b;
      JoinAppend(a[1..], b);
    }
  }

  /** A one-piece template renders as that piece. */
  lemma JoinSingle(x: string)
    ensures Join([x]) == x
  {
    assert [x][1..] == [];
  }

  /** A range of one piece renders as that piece. */
  lemma JoinPiece(ps: seq<string>, i: int)
    requires 0 <= i < |ps|
    ensures Join(ps[i..i + 1]) == ps[i]
  {
    assert ps[i..i + 1] == [ps[i]];
    JoinSingle(ps[i]);
  }

  /** If the pieces `[lo, hi)` render as `x` and the pieces from `hi` on render
      with `rest` in order, then the pieces from any `from <= lo` on render with
      `x` followed by `rest` in order. */
  lemma InOrderSpan(ps: seq<string>, from: int, lo: int, hi: int, x: string, rest: seq<string>, parts: seq<string>)
    requires 0 <= from <= lo <= hi <= |ps|
    requires Join(ps[lo..hi]) == x
    requires InOrder(Join(ps[hi..]), rest)
    requires parts == [x] + rest
    ensures InOrder(Join(ps[from..]), parts)
  {
    assert ps[from..] == ps[from..lo] + ps[lo..hi] + ps[hi..];
    JoinAppend(ps[from..lo] + ps[lo..hi], ps[hi..]);
    JoinAppend(ps[from..lo], ps[lo..hi]);
    InOrderStep(Join(ps[from..]), Join(ps[from..lo]), x, Join(ps[hi..]), rest);
  }
}
