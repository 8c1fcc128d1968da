/** Weighted sums over sequences: every balance, reservation and counter of the server is one of these. */
module Sums {
  import opened Common

  function Sum<T>(s: seq<T>, w: T -> int): int
  {
    if |s| == 0 then 0 else Sum(s[..|s| - 1], w) + w(s[|s| - 1])
  }

  lemma {:induction false} SumAppend<T>(s: seq<T>, x: T, w: T -> int)
    ensures Sum(s + [x], w) == Sum(s, w) + w(x)
  {
    assert (s + [x])[..|s|] == s;
  }

  /** The step every accumulating loop takes. */
  lemma {:induction false} SumPrefix<T>(s: seq<T>, k: nat, w: T -> int)
    requires k < |s|
    ensures Sum(s[..k + 1], w) == Sum(s[..k], w) + w(s[k])
  {
    assert s[..k + 1] == s[..k] + [s[k]];
    SumAppend(s[..k], s[k], w);
  }

  lemma {:induction false} SumConcat<T>(s: seq<T>, t: seq<T>, w: T -> int)
    ensures Sum(s + t, w) == Sum(s, w) + Sum(t, w)
  {
    if |t| == 0 {
      assert s + t == s;
    } else {
      var front := t[..|t| - 1];
      assert s + t == (s + front) + [t[|t| - 1]];
      SumAppend(s + front, t[|t| - 1], w);
      SumConcat(s, front, w);
    }
  }

  lemma {:induction false} SumUpdate<T>(s: seq<T>, i: nat, x: T, w: T -> int)
    requires i < |s|
    ensures Sum(s[i := x], w) == Sum(s, w) - w(s[i]) + w(x)
  {
    var front := s[..|s| - 1];
    if i == |s| - 1 {
      assert s[i := x] == front + [x];
      SumAppend(front, x, w);
    } else {
      assert s[i := x] == front[i := x] + [s[|s| - 1]];
      SumAppend(front[i := x], s[|s| - 1], w);
      SumUpdate(front, i, x, w);
    }
  }

  lemma {:induction false} SumMono<T>(s: seq<T>, w: T -> int, v: T -> int)
    requires forall i :: 0 <= i < |s| ==> w(s[i]) <= v(s[i])
    ensures Sum(s, w) <= Sum(s, v)
  {
    if |s| > 0 {
      SumMono(s[..|s| - 1], w, v);
    }
  }

  lemma {:induction false} SumSame<T>(s: seq<T>, w: T -> int, v: T -> int)
    requires forall i :: 0 <= i < |s| ==> w(s[i]) == v(s[i])
    ensures Sum(s, w) == Sum(s, v)
  {
    SumMono(s, w, v);
    SumMono(s, v, w);
  }

  lemma {:induction false} SumZero<T>(s: seq<T>, w: T -> int)
    requires forall i :: 0 <= i < |s| ==> w(s[i]) == 0
    ensures Sum(s, w) == 0
  {
    if |s| > 0 {
      SumZero(s[..|s| - 1], w);
    }
  }

  lemma {:induction false} SumNonNegative<T>(s: seq<T>, w: T -> int)
    requires forall i :: 0 <= i < |s| ==> 0 <= w(s[i])
    ensures 0 <= Sum(s, w)
  {
    if |s| > 0 {
      SumNonNegative(s[..|s| - 1], w);
    }
  }

  /** Two weightings that agree except at position k. */
  lemma {:induction false} SumPoint<T>(s: seq<T>, k: nat, w: T -> int, v: T -> int)
    requires k < |s|
    requires forall i :: 0 <= i < |s| && i != k ==> w(s[i]) == v(s[i])
    ensures Sum(s, v) == Sum(s, w) - w(s[k]) + v(s[k])
  {
    var front := s[..|s| - 1];
    if k == |s| - 1 {
      SumSame(front, w, v);
    } else {
      SumPoint(front, k, w, v);
    }
  }

  /** A weighting that is nowhere larger, and smaller by a known amount at position k. */
  lemma {:induction false} SumDrop<T>(s: seq<T>, k: nat, w: T -> int, v: T -> int)
    requires k < |s|
    requires forall i :: 0 <= i < |s| ==> v(s[i]) <= w(s[i])
    ensures Sum(s, v) <= Sum(s, w) - w(s[k]) + v(s[k])
  {
    var front := s[..|s| - 1];
    if k == |s| - 1 {
      SumMono(front, v, w);
    } else {
      SumDrop(front, k, w, v);
    }
  }

  lemma {:induction false} SumAdd<T>(s: seq<T>, w: T -> int, v: T -> int, both: T -> int)
    requires forall i :: 0 <= i < |s| ==> both(s[i]) == w(s[i]) + v(s[i])
    ensures Sum(s, both) == Sum(s, w) + Sum(s, v)
  {
    if |s| > 0 {
      SumAdd(s[..|s| - 1], w, v, both);
    }
  }

  /** Dropping elements of non-negative weight can only lower a sum; dropping weightless ones keeps it. */
  lemma {:induction false} SumKeep<T>(s: seq<T>, p: T -> bool, w: T -> int)
    requires forall i :: 0 <= i < |s| && !p(s[i]) ==> 0 <= w(s[i])
    ensures Sum(Keep(s, p), w) <= Sum(s, w)
    ensures (forall i :: 0 <= i < |s| && !p(s[i]) ==> w(s[i]) == 0) ==> Sum(Keep(s, p), w) == Sum(s, w)
  {
    if |s| > 0 {
      var front, last := s[..|s| - 1], s[|s| - 1];
      SumKeep(front, p, w);
      if p(last) {
        SumAppend(Keep(front, p), last, w);
      }
    }
  }

  function Hits<T>(s: seq<T>, p: T -> bool): set<int> { set i | 0 <= i < |s| && p(s[i]) }

  lemma {:induction false} HitsAppend<T>(s: seq<T>, p: T -> bool)
    requires |s| > 0
    ensures Hits(s, p) == Hits(s[..|s| - 1], p) + (if p(s[|s| - 1]) then {|s| - 1} else {})
  {}

  /** A sum of ones counts. */
  lemma {:induction false} SumCounts<T>(s: seq<T>, w: T -> int, p: T -> bool)
    requires forall i :: 0 <= i < |s| ==> w(s[i]) == if p(s[i]) then 1 else 0
    ensures Sum(s, w) == |Hits(s, p)|
  {
    if |s| == 0 {
      assert Hits(s, p) == {};
    } else {
      SumCounts(s[..|s| - 1], w, p);
      HitsAppend(s, p);
    }
  }
}
