/** Weighted totals over sequences. */
module Sums {

  function Total<T>(s: seq<T>, weight: T -> nat): nat {
    if s == [] then 0 else weight(s[0]) + Total(s[1..], weight)
  }

  lemma {:induction false} TotalConcat<T>(a: seq<T>, b: seq<T>, weight: T -> nat)
    ensures Total(a + b, weight) == Total(a, weight) + Total(b, weight)
  {
    if a == [] {
      assert a + b == b;
    } else {
      assert (a + b)[1..] == a[1..] + b;
      TotalConcat(a[1..], b, weight);
    }
  }

  lemma TotalAppend<T>(s: seq<T>, x: T, weight: T -> nat)
    ensures Total(s + [x], weight) == Total(s, weight) + weight(x)
  {
    TotalConcat(s, [x], weight);
    assert [x][1..] == [];
  }

  lemma TotalUpdate<T>(s: seq<T>, k: nat, x: T, weight: T -> nat)
    requires k < |s|
    ensures Total(s[k := x], weight) + weight(s[k]) == Total(s, weight) + weight(x)
  {
    assert s == s[..k] + [s[k]] + s[k + 1..];
    assert s[k := x] == s[..k] + [x] + s[k + 1..];
    TotalConcat(s[..k] + [s[k]], s[k + 1..], weight);
    TotalConcat(s[..k] + [x], s[k + 1..], weight);
    TotalAppend(s[..k], s[k], weight);
    TotalAppend(s[..k], x, weight);
  }

  lemma {:induction false} TotalAtMostLength<T>(s: seq<T>, weight: T -> nat)
    requires forall k | 0 <= k < |s| :: weight(s[k]) <= 1
    ensures Total(s, weight) <= |s|
  {
    if s != [] {
      TotalAtMostLength(s[1..], weight);
    }
  }

  lemma {:induction false} MemberWeighs<T>(s: seq<T>, k: nat, weight: T -> nat)
    requires k < |s|
    ensures Total(s, weight) >= weight(s[k])
  {
    if k > 0 {
      MemberWeighs(s[1..], k - 1, weight);
    }
  }

  lemma ZeroTotal<T>(s: seq<T>, weight: T -> nat)
    requires Total(s, weight) == 0
    ensures forall k | 0 <= k < |s| :: weight(s[k]) == 0
  {
    forall k | 0 <= k < |s| ensures weight(s[k]) == 0 {
      MemberWeighs(s, k, weight);
    }
  }

  lemma {:induction false} AllZero<T>(s: seq<T>, weight: T -> nat)
    requires forall k | 0 <= k < |s| :: weight(s[k]) == 0
    ensures Total(s, weight) == 0
  {
    if s != [] {
      AllZero(s[1..], weight);
    }
  }

  /** With weights 0 and 1, a total short of the length leaves a position of weight 0. */
  lemma {:induction false} ShortTotalHasWitness<T>(s: seq<T>, weight: T -> nat) returns (k: nat)
    requires (forall k | 0 <= k < |s| :: weight(s[k]) <= 1) && Total(s, weight) < |s|
    ensures k < |s| && weight(s[k]) == 0
  {
    if weight(s[0]) == 0 {
      k := 0;
    } else {
      var j := ShortTotalHasWitness(s[1..], weight);
      k := j + 1;
    }
  }

  /** With weights 0 and 1, a total equal to the length leaves no position of weight 0. */
  lemma FullTotal<T>(s: seq<T>, weight: T -> nat)
    requires (forall k | 0 <= k < |s| :: weight(s[k]) <= 1) && Total(s, weight) == |s|
    ensures forall k | 0 <= k < |s| :: weight(s[k]) == 1
  {
    forall k | 0 <= k < |s| ensures weight(s[k]) == 1 {
      assert s == s[..k] + [s[k]] + s[k + 1..];
      TotalConcat(s[..k] + [s[k]], s[k + 1..], weight);
      TotalAppend(s[..k], s[k], weight);
      TotalAtMostLength(s[..k], weight);
      TotalAtMostLength(s[k + 1..], weight);
    }
  }

  lemma {:induction false} AllOnes<T>(s: seq<T>, weight: T -> nat)
    requires forall k | 0 <= k < |s| :: weight(s[k]) == 1
    ensures Total(s, weight) == |s|
  {
    if s != [] {
      AllOnes(s[1..], weight);
    }
  }

  function SumOf(s: seq<real>): real {
    if s == [] then 0.0 else SumOf(s[..|s| - 1]) + s[|s| - 1]
  }

  /** `n` times `x`, by repeated addition. */
  function Times(n: nat, x: real): real {
    if n == 0 then 0.0 else Times(n - 1, x) + x
  }

  lemma {:induction false} TimesIs(n: nat, x: real)
    ensures Times(n, x) == n as real * x
  {
    if n > 0 {
      TimesIs(n - 1, x);
      assert n as real * x == (n - 1) as real * x + x;
    }
  }

  /** Positions of weight 1 among the first `n`. */
  ghost function Positions<T>(s: seq<T>, weight: T -> nat, n: nat): set<nat>
    requires n <= |s|
  {
    set k: nat | k < n && weight(s[k]) == 1
  }

  /** With weights 0 and 1, a total is the number of positions of weight 1. */
  lemma {:induction false} TotalIsCardinality<T>(s: seq<T>, weight: T -> nat, n: nat)
    requires n <= |s| && forall k | 0 <= k < |s| :: weight(s[k]) <= 1
    ensures Total(s[..n], weight) == |Positions(s, weight, n)|
  {
    if n == 0 {
      assert Positions(s, weight, n) == {};
    } else {
      TotalIsCardinality(s, weight, n - 1);
      assert s[..n] == s[..n - 1] + [s[n - 1]];
      TotalAppend(s[..n - 1], s[n - 1], weight);
      assert Positions(s, weight, n) == Positions(s, weight, n - 1) + if weight(s[n - 1]) == 1 then {n - 1} else {};
    }
  }
}
