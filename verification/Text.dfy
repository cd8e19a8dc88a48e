/** Substring search, splitting and joining with a non-empty separator. */
module Text {

  predicate OccursAt(s: string, sep: string, i: int) {
    0 <= i && i + |sep| <= |s| && s[i..i + |sep|] == sep
  }

  predicate Contains(s: string, sep: string) {
    exists i :: 0 <= i <= |s| && OccursAt(s, sep, i)
  }

  /** The leftmost occurrence at or after `from`, or -1. */
  function Find(s: string, sep: string, from: nat): (r: int)
    requires from <= |s|
    ensures r == -1 || (from <= r && OccursAt(s, sep, r))
    ensures forall i :: from <= i && (r == -1 || i < r) ==> !OccursAt(s, sep, i)
    decreases |s| - from
  {
    if OccursAt(s, sep, from) then from
    else if from == |s| then -1
    else Find(s, sep, from + 1)
  }

  function Split(s: string, sep: string): (parts: seq<string>)
    requires sep != ""
    ensures |parts| > 0
    decreases |s|
  {
    var i := Find(s, sep, 0);
    if i == -1 then [s] else [s[..i]] + Split(s[i + |sep|..], sep)
  }

  function Join(parts: seq<string>, sep: string): string
    requires |parts| > 0
  {
    if |parts| == 1 then parts[0] else parts[0] + sep + Join(parts[1..], sep)
  }

  lemma {:induction false} JoinSplit(s: string, sep: string)
    requires sep != ""
    ensures Join(Split(s, sep), sep) == s
    decreases |s|
  {
    var i := Find(s, sep, 0);
    if i != -1 {
      JoinSplit(s[i + |sep|..], sep);
      assert s == s[..i] + sep + s[i + |sep|..];
      assert Split(s, sep)[1..] == Split(s[i + |sep|..], sep);
    }
  }

  lemma FindAtPrefix(s: string, sep: string, i: nat)
    requires sep != "" && OccursAt(s, sep, i)
    requires forall k :: 0 <= k < i ==> !OccursAt(s, sep, k)
    ensures Find(s, sep, 0) == i
    ensures Split(s, sep) == [s[..i]] + Split(s[i + |sep|..], sep)
  {
  }

  lemma NoOccurrence(s: string, sep: string)
    requires sep != "" && !Contains(s, sep)
    ensures Split(s, sep) == [s]
  {
    var i := Find(s, sep, 0);
    if i != -1 {
      assert false;
    }
  }

  lemma {:induction false} PartsAreFree(s: string, sep: string, k: nat)
    requires sep != "" && k < |Split(s, sep)|
    ensures !Contains(Split(s, sep)[k], sep)
    decreases |s|
  {
    var i := Find(s, sep, 0);
    var part := Split(s, sep)[k];
    if i != -1 && k > 0 {
      PartsAreFree(s[i + |sep|..], sep, k - 1);
    } else if j :| 0 <= j <= |part| && OccursAt(part, sep, j) {
      assert OccursAt(s, sep, j);
      assert false;
    }
  }

  lemma ContainsChar(s: string, c: char)
    ensures Contains(s, [c]) <==> c in s
  {
    if c in s {
      var i :| 0 <= i < |s| && s[i] == c;
      assert OccursAt(s, [c], i);
    }
    if Contains(s, [c]) {
      var i :| 0 <= i <= |s| && OccursAt(s, [c], i);
      assert s[i..i + 1][0] == c;
    }
  }

  /** The first separator after a text free of it ends that text. */
  lemma SplitAtChar(a: string, c: char, b: string)
    requires c !in a
    ensures Split(a + [c] + b, [c]) == [a] + Split(b, [c])
  {
    var s := a + [c] + b;
    assert s[|a|..|a| + 1] == [c];
    forall k | 0 <= k < |a| ensures !OccursAt(s, [c], k) {
      assert s[k] == a[k];
      assert s[k..k + 1][0] == a[k];
    }
    FindAtPrefix(s, [c], |a|);
    assert s[..|a|] == a && s[|a| + 1..] == b;
  }

  predicate HasPrefix(s: string, prefix: string) {
    |prefix| <= |s| && s[..|prefix|] == prefix
  }

  /** Two texts that agree around the first occurrence of a character agree on both sides of it. */
  lemma FirstCharUnique(a: string, x: string, b: string, y: string, c: char)
    requires c !in a && c !in b && a + [c] + x == b + [c] + y
    ensures a == b && x == y
  {
    var s, t := a + [c] + x, b + [c] + y;
    assert s[|a|] == c && t[|b|] == c;
    if |a| < |b| {
      assert false;
    }
    if |b| < |a| {
      assert false;
    }
    assert s[..|a|] == a && t[..|b|] == b && s[|a| + 1..] == x && t[|b| + 1..] == y;
  }

  /** Two texts with ends of equal length agree on both parts. */
  lemma EndsEqual(a: string, x: string, b: string, y: string)
    requires a + x == b + y && |x| == |y|
    ensures a == b && x == y
  {
    assert (a + x)[..|a|] == a && (b + y)[..|b|] == b;
    assert (a + x)[|a|..] == x && (b + y)[|b|..] == y;
  }
}
