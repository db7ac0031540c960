/** One sequence inside another, in order. */
module Subsequences {

  predicate Sub<T(==)>(a: seq<T>, b: seq<T>)
    decreases |b|
  {
    a == [] ||
    (b != [] &&
     ((a[|a| - 1] == b[|b| - 1] && Sub(a[..|a| - 1], b[..|b| - 1])) || Sub(a, b[..|b| - 1])))
  }

  lemma {:induction false} SubItself<T>(a: seq<T>)
    ensures Sub(a, a)
    decreases |a|
  {
    if a != [] {
      SubItself(a[..|a| - 1]);
    }
  }

  lemma SubBoth<T>(a: seq<T>, b: seq<T>, x: T)
    requires Sub(a, b)
    ensures Sub(a + [x], b + [x])
  {
    assert (a + [x])[..|a|] == a && (b + [x])[..|b|] == b;
  }

  lemma {:induction false} SubMore<T>(a: seq<T>, b: seq<T>, c: seq<T>)
    requires Sub(a, b)
    ensures Sub(a, b + c)
    decreases |c|
  {
    if c == [] {
      assert b + c == b;
    } else {
      SubMore(a, b, c[..|c| - 1]);
      assert (b + c)[..|b + c| - 1] == b + c[..|c| - 1];
    }
  }

  lemma {:induction false} SubAfter<T>(p: seq<T>, a: seq<T>, b: seq<T>)
    requires Sub(a, b)
    ensures Sub(p + a, p + b)
    decreases |b|
  {
    if a == [] {
      assert p + a == p;
      SubItself(p);
      SubMore(p, p, b);
    } else if a[|a| - 1] == b[|b| - 1] && Sub(a[..|a| - 1], b[..|b| - 1]) {
      SubAfter(p, a[..|a| - 1], b[..|b| - 1]);
      SubBoth(p + a[..|a| - 1], p + b[..|b| - 1], a[|a| - 1]);
      assert p + a[..|a| - 1] + [a[|a| - 1]] == p + a && p + b[..|b| - 1] + [b[|b| - 1]] == p + b;
    } else {
      SubAfter(p, a, b[..|b| - 1]);
      SubMore(p + a, p + b[..|b| - 1], [b[|b| - 1]]);
      assert p + b[..|b| - 1] + [b[|b| - 1]] == p + b;
    }
  }

  lemma {:induction false} SubTransitive<T>(a: seq<T>, b: seq<T>, c: seq<T>)
    requires Sub(a, b) && Sub(b, c)
    ensures Sub(a, c)
    decreases |b| + |c|
  {
    if a != [] {
      if b[|b| - 1] == c[|c| - 1] && Sub(b[..|b| - 1], c[..|c| - 1]) {
        if a[|a| - 1] == b[|b| - 1] && Sub(a[..|a| - 1], b[..|b| - 1]) {
          SubTransitive(a[..|a| - 1], b[..|b| - 1], c[..|c| - 1]);
        } else {
          SubTransitive(a, b[..|b| - 1], c[..|c| - 1]);
        }
      } else {
        SubTransitive(a, b, c[..|c| - 1]);
      }
    }
  }
}
