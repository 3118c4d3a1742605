/** Totals over the rows of a table. */
module Sums {
  function Sum<T>(s: seq<T>, f: T -> int): int {
    if s == [] then 0 else Sum(s[..|s| - 1], f) + f(s[|s| - 1])
  }

  lemma SumAppend<T>(s: seq<T>, x: T, f: T -> int)
    ensures Sum(s + [x], f) == Sum(s, f) + f(x)
  {
    assert (s + [x])[..|s|] == s;
  }

  /** Rows that agree term by term have the same total. */
  lemma {:induction false} SumSame<S, T>(s: seq<S>, t: seq<T>, f: S -> int, g: T -> int)
    requires |s| == |t|
    requires forall j | 0 <= j < |s| :: f(s[j]) == g(t[j])
    ensures Sum(s, f) == Sum(t, g)
  {
    if s != [] {
      SumSame(s[..|s| - 1], t[..|t| - 1], f, g);
    }
  }

  /** Replacing one row moves the total by the difference of that row. */
  lemma {:induction false} SumChange<S, T>(s: seq<S>, t: seq<T>, f: S -> int, g: T -> int, i: nat)
    requires |s| == |t| && i < |s|
    requires forall j | 0 <= j < |s| && j != i :: f(s[j]) == g(t[j])
    ensures Sum(t, g) == Sum(s, f) - f(s[i]) + g(t[i])
  {
    if i == |s| - 1 {
      SumSame(s[..i], t[..i], f, g);
    } else {
      SumChange(s[..|s| - 1], t[..|t| - 1], f, g, i);
    }
  }

  lemma {:induction false} SumNonNegative<T>(s: seq<T>, f: T -> int)
    requires forall j | 0 <= j < |s| :: f(s[j]) >= 0
    ensures Sum(s, f) >= 0
  {
    if s != [] {
      SumNonNegative(s[..|s| - 1], f);
    }
  }

  /** No row exceeds a total of non-negative rows. */
  lemma {:induction false} SumAtLeast<T>(s: seq<T>, f: T -> int, i: nat)
    requires i < |s|
    requires forall j | 0 <= j < |s| :: f(s[j]) >= 0
    ensures Sum(s, f) >= f(s[i])
  {
    if i == |s| - 1 {
      SumNonNegative(s[..i], f);
    } else {
      SumAtLeast(s[..|s| - 1], f, i);
    }
  }

  lemma {:induction false} SumZero<T>(s: seq<T>, f: T -> int)
    requires forall j | 0 <= j < |s| :: f(s[j]) == 0
    ensures Sum(s, f) == 0
  {
    if s != [] {
      SumZero(s[..|s| - 1], f);
    }
  }

  lemma {:induction false} SumConcat<T>(s: seq<T>, t: seq<T>, f: T -> int)
    ensures Sum(s + t, f) == Sum(s, f) + Sum(t, f)
  {
    if t == [] {
      assert s + t == s;
    } else {
      SumConcat(s, t[..|t| - 1], f);
      assert (s + t)[..|s + t| - 1] == s + t[..|t| - 1];
    }
  }
}
