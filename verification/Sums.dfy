/** Finite sums over sequences, the shape of every money total in the repository. */
module Sums {

  function Sum<T(!new)>(s: seq<T>, w: T -> int): (r: int) {
    if |s| == 0 then 0 else Sum(s[..|s| - 1], w) + w(s[|s| - 1])
  }

  lemma SumAppend<T(!new)>(s: seq<T>, x: T, w: T -> int)
    ensures Sum(s + [x], w) == Sum(s, w) + w(x)
  {
    assert (s + [x])[..|s|] == s;
  }

  lemma {:induction false} SumConcat<T(!new)>(s: seq<T>, t: seq<T>, w: T -> int)
    ensures Sum(s + t, w) == Sum(s, w) + Sum(t, w)
  {
    if t == [] {
      assert s + t == s;
    } else {
      var t' := t[..|t| - 1];
      assert (s + t)[..|s + t| - 1] == s + t';
      SumConcat(s, t', w);
    }
  }

  lemma {:induction false} SumUpdate<T(!new)>(s: seq<T>, i: nat, x: T, w: T -> int)
    requires i < |s|
    ensures Sum(s[i := x], w) == Sum(s, w) - w(s[i]) + w(x)
  {
    var n := |s| - 1;
    if i == n {
      assert s[i := x][..n] == s[..n];
    } else {
      assert s[i := x][..n] == s[..n][i := x];
      SumUpdate(s[..n], i, x, w);
    }
  }

  lemma {:induction false} SumNonNegative<T(!new)>(s: seq<T>, w: T -> int)
    requires forall i :: 0 <= i < |s| ==> w(s[i]) >= 0
    ensures Sum(s, w) >= 0
  {
    if s != [] {
      SumNonNegative(s[..|s| - 1], w);
    }
  }

  /** One term of a sum of non-negative terms is at most the sum. */
  lemma {:induction false} SumDominates<T(!new)>(s: seq<T>, i: nat, w: T -> int)
    requires i < |s|
    requires forall k :: 0 <= k < |s| ==> w(s[k]) >= 0
    ensures Sum(s, w) >= w(s[i])
  {
    var n := |s| - 1;
    if i == n {
      SumNonNegative(s[..n], w);
    } else {
      SumDominates(s[..n], i, w);
    }
  }

  /** Two different terms together are at most the sum. */
  lemma {:induction false} SumDominatesPair<T(!new)>(s: seq<T>, i: nat, j: nat, w: T -> int)
    requires i < j < |s|
    requires forall k :: 0 <= k < |s| ==> w(s[k]) >= 0
    ensures Sum(s, w) >= w(s[i]) + w(s[j])
  {
    var n := |s| - 1;
    if j == n {
      SumDominates(s[..n], i, w);
    } else {
      SumDominatesPair(s[..n], i, j, w);
    }
  }

  lemma {:induction false} SumZero<T(!new)>(s: seq<T>, w: T -> int)
    requires forall i :: 0 <= i < |s| ==> w(s[i]) == 0
    ensures Sum(s, w) == 0
  {
    if s != [] {
      SumZero(s[..|s| - 1], w);
    }
  }

  /** Pointwise equal weights give equal sums. */
  lemma {:induction false} SumSame<T(!new)>(s: seq<T>, v: T -> int, w: T -> int)
    requires forall i :: 0 <= i < |s| ==> v(s[i]) == w(s[i])
    ensures Sum(s, v) == Sum(s, w)
  {
    if s != [] {
      SumSame(s[..|s| - 1], v, w);
    }
  }

  /** A weight that is everywhere the sum of two weights. */
  lemma {:induction false} SumSplit<T(!new)>(s: seq<T>, u: T -> int, v: T -> int, w: T -> int)
    requires forall i :: 0 <= i < |s| ==> w(s[i]) == u(s[i]) + v(s[i])
    ensures Sum(s, w) == Sum(s, u) + Sum(s, v)
  {
    if s != [] {
      SumSplit(s[..|s| - 1], u, v, w);
    }
  }

  /** Pointwise smaller weights give smaller sums. */
  lemma {:induction false} SumAtMost<T(!new)>(s: seq<T>, v: T -> int, w: T -> int)
    requires forall i :: 0 <= i < |s| ==> v(s[i]) <= w(s[i])
    ensures Sum(s, v) <= Sum(s, w)
  {
    if s != [] {
      SumAtMost(s[..|s| - 1], v, w);
    }
  }

  ghost function Ones<T(!new)>(s: seq<T>, w: T -> int): set<int> { set i | 0 <= i < |s| && w(s[i]) == 1 }

  lemma OnesNext<T(!new)>(s: seq<T>, w: T -> int)
    requires s != []
    ensures var n := |s| - 1;
            Ones(s, w) == Ones(s[..n], w) + (if w(s[n]) == 1 then {n} else {}) && n !in Ones(s[..n], w)
  {
  }

  /** A sum of ones and zeros counts the ones. */
  lemma {:induction false} SumIsCount<T(!new)>(s: seq<T>, w: T -> int)
    requires forall i :: 0 <= i < |s| ==> w(s[i]) == 0 || w(s[i]) == 1
    ensures Sum(s, w) == |Ones(s, w)|
  {
    if s == [] {
      assert Ones(s, w) == {};
    } else {
      OnesNext(s, w);
      hide Ones;
      SumIsCount(s[..|s| - 1], w);
    }
  }
}
