/** Totals of a natural-valued weight over a sequence of processes, and how one
    process changing its state changes the total. */
module Sums {

  function Total<T>(f: T -> nat, s: seq<T>): nat {
    if s == [] then 0 else f(s[0]) + Total(f, s[1..])
  }

  /** Replacing one element moves the total by the difference of the two weights. */
  lemma {:induction false} TotalUpdate<T>(f: T -> nat, s: seq<T>, i: nat, x: T)
    requires i < |s|
    ensures Total(f, s[i := x]) + f(s[i]) == Total(f, s) + f(x)
  {
    if i == 0 {
      assert s[i := x][1..] == s[1..];
    } else {
      assert s[i := x][1..] == s[1..][i - 1 := x];
      TotalUpdate(f, s[1..], i - 1, x);
    }
  }

  lemma {:induction false} TotalLast<T>(f: T -> nat, s: seq<T>)
    requires s != []
    ensures Total(f, s) == Total(f, s[..|s| - 1]) + f(s[|s| - 1])
  {
    if |s| == 1 {
    } else {
      TotalLast(f, s[1..]);
      assert s[1..][..|s| - 2] == s[..|s| - 1][1..];
    }
  }

  /** Each element's weight is part of the total. */
  lemma {:induction false} TotalIncludes<T>(f: T -> nat, s: seq<T>, i: nat)
    requires i < |s|
    ensures f(s[i]) <= Total(f, s)
  {
    if i == 0 {
    } else {
      TotalIncludes(f, s[1..], i - 1);
    }
  }

  /** So are the weights of two different elements together. */
  lemma {:induction false} TotalIncludesTwo<T>(f: T -> nat, s: seq<T>, i: nat, j: nat)
    requires i < j < |s|
    ensures f(s[i]) + f(s[j]) <= Total(f, s)
  {
    if i == 0 {
      TotalIncludes(f, s[1..], j - 1);
    } else {
      TotalIncludesTwo(f, s[1..], i - 1, j - 1);
    }
  }

  /** A positive total has an element with a positive weight. */
  lemma {:induction false} TotalWitness<T>(f: T -> nat, s: seq<T>) returns (i: nat)
    requires Total(f, s) > 0
    ensures i < |s| && f(s[i]) > 0
  {
    if f(s[0]) > 0 {
      i := 0;
    } else {
      i := TotalWitness(f, s[1..]);
      i := i + 1;
    }
  }

  /** A total of zero weights is zero. */
  lemma {:induction false} TotalZero<T>(f: T -> nat, s: seq<T>)
    requires forall i :: 0 <= i < |s| ==> f(s[i]) == 0
    ensures Total(f, s) == 0
  {
    if s == [] {
    } else {
      TotalZero(f, s[1..]);
    }
  }

  /** Elementwise comparison of two sequences of the same length. */
  lemma {:induction false} TotalMonotone<T>(f: T -> nat, s: seq<T>, g: T -> nat, t: seq<T>)
    requires |s| == |t| && forall i :: 0 <= i < |s| ==> f(s[i]) <= g(t[i])
    ensures Total(f, s) <= Total(g, t)
  {
    if s == [] {
    } else {
      TotalMonotone(f, s[1..], g, t[1..]);
    }
  }

  /** A total is at most the number of elements times a bound on the weights. */
  lemma {:induction false} TotalBounded<T>(f: T -> nat, s: seq<T>, b: nat)
    requires forall i :: 0 <= i < |s| ==> f(s[i]) <= b
    ensures Total(f, s) <= b * |s|
  {
    if s == [] {
    } else {
      TotalBounded(f, s[1..], b);
    }
  }
}
