/**
 * The vocabulary both metric modules share: the top-K cut of a ranked list,
 * the per-position hit count, the running-precision sum that average
 * precision is built from, and a left-to-right sum of reals.
 */
module Ranking {

  function Min(a: nat, b: nat): nat {
    if a <= b then a else b
  }

  /** The first k entries of s, as the slice s[:k] gives them for k >= 0. */
  function TopK<T>(s: seq<T>, k: nat): seq<T> {
    s[..Min(k, |s|)]
  }

  /** No name occurs twice. */
  predicate Distinct(s: seq<string>) {
    forall i, j :: 0 <= i < j < |s| ==> s[i] != s[j]
  }

  /**
   * The number of positions of `names` holding a name that occurs in
   * `relevant`; a name recommended twice is counted twice.
   */
  function Hits(names: seq<string>, relevant: seq<string>): nat {
    if names == [] then 0
    else Hits(names[..|names| - 1], relevant) + (if names[|names| - 1] in relevant then 1 else 0)
  }

  /**
   * The sum, over every position i of `names` that holds a relevant name,
   * of the precision at that rank: the hits among names[..i+1] divided by i + 1.
   */
  function PrecisionSum(names: seq<string>, relevant: seq<string>): real {
    if names == [] then 0.0
    else
      PrecisionSum(names[..|names| - 1], relevant)
      + (if names[|names| - 1] in relevant then Hits(names, relevant) as real / |names| as real else 0.0)
  }

  /** The sum of a list of reals, added from the left starting at 0. */
  function Sum(xs: seq<real>): real {
    if xs == [] then 0.0 else Sum(xs[..|xs| - 1]) + xs[|xs| - 1]
  }

  /** Elements of a sequence, as a set. */
  function Elements(s: seq<string>): set<string> {
    set x | x in s
  }

  // ---------------------------------------------------------------- Hits

  /** There are never more hits than positions. */
  lemma {:induction false} HitsAtMostLength(names: seq<string>, relevant: seq<string>)
    ensures Hits(names, relevant) <= |names|
  {
    if names != [] {
      HitsAtMostLength(names[..|names| - 1], relevant);
    }
  }

  /** When every name is relevant, every position is a hit. */
  lemma {:induction false} HitsAllRelevant(names: seq<string>, relevant: seq<string>)
    requires forall i :: 0 <= i < |names| ==> names[i] in relevant
    ensures Hits(names, relevant) == |names|
  {
    if names != [] {
      HitsAllRelevant(names[..|names| - 1], relevant);
    }
  }

  /** Examining a longer prefix never finds fewer hits. */
  lemma {:induction false} HitsPrefixMonotone(names: seq<string>, relevant: seq<string>, i: nat, j: nat)
    requires i <= j <= |names|
    ensures Hits(names[..i], relevant) <= Hits(names[..j], relevant)
  {
    if i < j {
      HitsPrefixMonotone(names, relevant, i, j - 1);
      assert names[..j][..j - 1] == names[..j - 1];
    }
  }

  /** A set drawn from a sequence is no larger than the sequence. */
  lemma {:induction false} ElementsAtMostLength(s: seq<string>)
    ensures |Elements(s)| <= |s|
  {
    if s != [] {
      var p := s[..|s| - 1];
      ElementsAtMostLength(p);
      assert Elements(s) == Elements(p) + {s[|s| - 1]};
    }
  }

  /** Without repeated names, the hits are exactly the relevant names that were recommended. */
  lemma {:induction false} HitsOfDistinct(names: seq<string>, relevant: seq<string>)
    requires Distinct(names)
    ensures Hits(names, relevant) == |Elements(names) * Elements(relevant)|
  {
    if names != [] {
      var p, x := names[..|names| - 1], names[|names| - 1];
      assert Distinct(p) by {
        forall i, j | 0 <= i < j < |p| ensures p[i] != p[j] {
          assert p[i] == names[i] && p[j] == names[j];
        }
      }
      HitsOfDistinct(p, relevant);
      assert x !in p by {
        forall i | 0 <= i < |p| ensures p[i] != x {
          assert p[i] == names[i];
        }
      }
      assert Hits(names, relevant) == Hits(p, relevant) + (if x in relevant then 1 else 0);
      assert names == p + [x];
      ElementsAppend(p, x);
      assert (x in relevant) == (x in Elements(relevant));
      IntersectionGrows(Elements(p), Elements(relevant), x);
    }
  }

  lemma ElementsAppend(p: seq<string>, x: string)
    ensures Elements(p + [x]) == Elements(p) + {x}
    ensures x !in p ==> x !in Elements(p)
  {
  }

  lemma IntersectionGrows(e: set<string>, r: set<string>, x: string)
    requires x !in e
    ensures |(e + {x}) * r| == |e * r| + (if x in r then 1 else 0)
  {
    if x in r {
      assert (e + {x}) * r == e * r + {x};
    } else {
      assert (e + {x}) * r == e * r;
    }
  }

  /** Without repeated names, there are never more hits than relevant entries. */
  lemma HitsOfDistinctAtMostRelevant(names: seq<string>, relevant: seq<string>)
    requires Distinct(names)
    ensures Hits(names, relevant) <= |relevant|
  {
    HitsOfDistinct(names, relevant);
    ElementsAtMostLength(relevant);
    SubsetAtMost(Elements(names) * Elements(relevant), Elements(relevant));
  }

  lemma {:induction false} SubsetAtMost(a: set<string>, b: set<string>)
    requires a <= b
    ensures |a| <= |b|
  {
    if a != {} {
      var x :| x in a;
      SubsetAtMost(a - {x}, b - {x});
    }
  }

  /** A repeated relevant name is counted once per position: two hits against one relevant entry. */
  lemma DuplicateCountsTwice(x: string)
    ensures Hits([x, x], [x]) == 2
  {
    assert [x, x][..1] == [x];
    assert [x][..0] == [];
    assert Hits([x], [x]) == 1;
  }

  // ---------------------------------------------------------- PrecisionSum

  /** Each recorded precision lies in (0, 1], so the sum lies between 0 and the number of hits. */
  lemma {:induction false} PrecisionSumBounds(names: seq<string>, relevant: seq<string>)
    ensures 0.0 <= PrecisionSum(names, relevant) <= Hits(names, relevant) as real
  {
    if names != [] {
      var n := |names|;
      PrecisionSumBounds(names[..n - 1], relevant);
      HitsAtMostLength(names, relevant);
      DivBounds(Hits(names, relevant) as real, n as real);
    }
  }

  /** The sum is positive exactly when some position is a hit. */
  lemma {:induction false} PrecisionSumPositive(names: seq<string>, relevant: seq<string>)
    ensures PrecisionSum(names, relevant) > 0.0 <==> Hits(names, relevant) > 0
  {
    if names != [] {
      PrecisionSumPositive(names[..|names| - 1], relevant);
      PrecisionSumBounds(names[..|names| - 1], relevant);
    }
  }

  /** When every name is relevant, the precision at every rank is 1, so the sum is the length. */
  lemma {:induction false} PrecisionSumAllRelevant(names: seq<string>, relevant: seq<string>)
    requires forall i :: 0 <= i < |names| ==> names[i] in relevant
    ensures PrecisionSum(names, relevant) == |names| as real
  {
    if names != [] {
      PrecisionSumAllRelevant(names[..|names| - 1], relevant);
      HitsAllRelevant(names, relevant);
    }
  }

  /** There is a hit exactly when some position holds a relevant name. */
  lemma {:induction false} HitsPositiveIffSomeHit(names: seq<string>, relevant: seq<string>)
    ensures Hits(names, relevant) > 0 <==> exists i :: 0 <= i < |names| && names[i] in relevant
  {
    if names != [] {
      var p := names[..|names| - 1];
      HitsPositiveIffSomeHit(p, relevant);
      if exists i :: 0 <= i < |p| && p[i] in relevant {
        var i :| 0 <= i < |p| && p[i] in relevant;
        assert names[i] in relevant;
      }
      if exists i :: 0 <= i < |names| && names[i] in relevant {
        var i :| 0 <= i < |names| && names[i] in relevant;
        if i < |p| {
          assert p[i] in relevant;
        }
      }
    }
  }

  // ------------------------------------------------------------------ Sum

  /** A sum of values in [0, 1] lies between 0 and the number of values. */
  lemma {:induction false} SumBounds(xs: seq<real>)
    requires forall i :: 0 <= i < |xs| ==> 0.0 <= xs[i] <= 1.0
    ensures 0.0 <= Sum(xs) <= |xs| as real
  {
    if xs != [] {
      SumBounds(xs[..|xs| - 1]);
    }
  }

  /** A sum of non-negative values is non-negative. */
  lemma {:induction false} SumNonNegative(xs: seq<real>)
    requires forall i :: 0 <= i < |xs| ==> 0.0 <= xs[i]
    ensures 0.0 <= Sum(xs)
  {
    if xs != [] {
      SumNonNegative(xs[..|xs| - 1]);
    }
  }

  /** Appending one value adds it to the sum. */
  lemma SumAppend(xs: seq<real>, x: real)
    ensures Sum(xs + [x]) == Sum(xs) + x
  {
    assert (xs + [x])[..|xs|] == xs;
  }

  /** The mean of values in [0, 1] lies in [0, 1]. */
  lemma MeanBounds(xs: seq<real>)
    requires xs != []
    requires forall i :: 0 <= i < |xs| ==> 0.0 <= xs[i] <= 1.0
    ensures 0.0 <= Sum(xs) / |xs| as real <= 1.0
  {
    SumBounds(xs);
    DivBounds(Sum(xs), |xs| as real);
  }

  lemma DivSelf(x: real)
    requires x > 0.0
    ensures x / x == 1.0
  {
  }

  lemma DivBounds(a: real, b: real)
    requires 0.0 <= a <= b && b > 0.0
    ensures 0.0 <= a / b <= 1.0
  {
  }
}
