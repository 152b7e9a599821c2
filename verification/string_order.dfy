/**
 * Python's ordering of str values and the `sorted` builtin on a list of
 * strings, which the unit selector uses to list categories and currency
 * codes.
 */
module StringOrder {

  /**
   * Python's `a <= b` on str: compare code points from the left; a proper
   * prefix comes first.
   */
  predicate LexLe(a: string, b: string)
  {
    |a| == 0 || (|b| > 0 && (a[0] < b[0] || (a[0] == b[0] && LexLe(a[1..], b[1..]))))
  }

  lemma {:induction false} LexLeReflexive(a: string)
    ensures LexLe(a, a)
  {
    if |a| > 0 {
      LexLeReflexive(a[1..]);
    }
  }

  lemma {:induction false} LexLeTotal(a: string, b: string)
    ensures LexLe(a, b) || LexLe(b, a)
  {
    if |a| > 0 && |b| > 0 && a[0] == b[0] {
      LexLeTotal(a[1..], b[1..]);
    }
  }

  lemma {:induction false} LexLeTransitive(a: string, b: string, c: string)
    requires LexLe(a, b) && LexLe(b, c)
    ensures LexLe(a, c)
  {
    if |a| > 0 && |b| > 0 && |c| > 0 && a[0] == b[0] && b[0] == c[0] {
      LexLeTransitive(a[1..], b[1..], c[1..]);
    }
  }

  lemma {:induction false} LexLeAntisymmetric(a: string, b: string)
    requires LexLe(a, b) && LexLe(b, a)
    ensures a == b
  {
    if |a| > 0 && |b| > 0 {
      LexLeAntisymmetric(a[1..], b[1..]);
      assert a == [a[0]] + a[1..] && b == [b[0]] + b[1..];
    }
  }

  /** Each string is no greater than the next one. */
  predicate Ordered(s: seq<string>)
  {
    forall i :: 1 <= i < |s| ==> LexLe(s[i - 1], s[i])
  }

  /** Inserts `x` into an ordered list before the first element not below it. */
  function Insert(x: string, xs: seq<string>): (r: seq<string>)
    requires Ordered(xs)
    ensures Ordered(r)
    ensures multiset(r) == multiset(xs) + multiset{x}
    ensures |r| > 0 && (r[0] == x || (|xs| > 0 && r[0] == xs[0]))
  {
    if xs == [] then [x]
    else if LexLe(x, xs[0]) then [x] + xs
    else
      LexLeTotal(x, xs[0]);
      assert xs == [xs[0]] + xs[1..];
      [xs[0]] + Insert(x, xs[1..])
  }

  /**
   * Python's `sorted` on a list of strings: the same strings, counted with
   * their repetitions, in ascending order.
   */
  function Sort(xs: seq<string>): (r: seq<string>)
    ensures Ordered(r)
    ensures multiset(r) == multiset(xs)
  {
    if xs == [] then []
    else
      assert xs == [xs[0]] + xs[1..];
      Insert(xs[0], Sort(xs[1..]))
  }

  /** In an ordered list every string is no greater than every later one. */
  lemma {:induction false} OrderedPairwise(s: seq<string>, i: nat, j: nat)
    requires Ordered(s) && i <= j < |s|
    ensures LexLe(s[i], s[j])
    decreases j - i
  {
    if i == j {
      LexLeReflexive(s[i]);
    } else {
      OrderedPairwise(s, i + 1, j);
      LexLeTransitive(s[i], s[i + 1], s[j]);
    }
  }

  /** The first string of a non-empty ordered list is its least one. */
  lemma OrderedHeadLeast(s: seq<string>, x: string)
    requires Ordered(s) && x in s
    ensures LexLe(s[0], x)
  {
    var j :| 0 <= j < |s| && s[j] == x;
    OrderedPairwise(s, 0, j);
  }

  /**
   * An ordered list is determined by its multiset of strings, so `Sort`
   * agrees with every other way of putting the same strings in order.
   */
  lemma {:induction false} OrderedPermutationUnique(a: seq<string>, b: seq<string>)
    requires Ordered(a) && Ordered(b) && multiset(a) == multiset(b)
    ensures a == b
  {
    assert |a| == |multiset(a)| == |multiset(b)| == |b|;
    if a != [] {
      assert a[0] in multiset(b) && b[0] in multiset(a);
      OrderedHeadLeast(b, a[0]);
      OrderedHeadLeast(a, b[0]);
      LexLeAntisymmetric(a[0], b[0]);
      assert a == [a[0]] + a[1..] && b == [b[0]] + b[1..];
      assert multiset(a[1..]) == multiset(a) - multiset{a[0]};
      assert multiset(b[1..]) == multiset(b) - multiset{b[0]};
      OrderedPermutationUnique(a[1..], b[1..]);
    }
  }
}
