/** Counting the elements of a sequence that satisfy a predicate. */
module Counting {

  function Count<T>(q: seq<T>, p: T -> bool): nat {
    if q == [] then 0 else (if p(q[0]) then 1 else 0) + Count(q[1..], p)
  }

  lemma {:induction false} CountAppend<T>(q: seq<T>, x: T, p: T -> bool)
    ensures Count(q + [x], p) == Count(q, p) + (if p(x) then 1 else 0)
  {
    if q == [] {
      assert q + [x] == [x];
    } else {
      assert (q + [x])[1..] == q[1..] + [x];
      CountAppend(q[1..], x, p);
    }
  }

  lemma {:induction false} CountUpdate<T>(q: seq<T>, i: nat, x: T, p: T -> bool)
    requires i < |q|
    ensures Count(q[i := x], p) + (if p(q[i]) then 1 else 0) == Count(q, p) + (if p(x) then 1 else 0)
  {
    if i == 0 {
      assert q[i := x][1..] == q[1..];
    } else {
      assert q[i := x][1..] == q[1..][i - 1 := x];
      CountUpdate(q[1..], i - 1, x, p);
    }
  }

  /** A count is positive exactly when some element satisfies the predicate. */
  lemma {:induction false} CountZero<T>(q: seq<T>, p: T -> bool)
    ensures Count(q, p) == 0 <==> forall i :: 0 <= i < |q| ==> !p(q[i])
  {
    if q != [] {
      CountZero(q[1..], p);
      if forall i :: 0 <= i < |q| ==> !p(q[i]) {
        forall i | 0 <= i < |q[1..]| ensures !p(q[1..][i]) {
          assert q[1..][i] == q[i + 1];
        }
      }
      if Count(q, p) == 0 {
        forall i | 0 <= i < |q| ensures !p(q[i]) {
          if i > 0 {
            assert q[i] == q[1..][i - 1];
          }
        }
      }
    }
  }

  lemma CountMember<T>(q: seq<T>, i: nat, p: T -> bool)
    requires i < |q| && p(q[i])
    ensures Count(q, p) > 0
  {
    CountZero(q, p);
  }

  /** Every element satisfies the predicate when the count is the length. */
  lemma {:induction false} CountBound<T>(q: seq<T>, p: T -> bool)
    ensures Count(q, p) <= |q|
    ensures Count(q, p) == |q| <==> forall i :: 0 <= i < |q| ==> p(q[i])
  {
    if q != [] {
      CountBound(q[1..], p);
      assert q == [q[0]] + q[1..];
      if forall i :: 0 <= i < |q| ==> p(q[i]) {
        forall i | 0 <= i < |q[1..]| ensures p(q[1..][i]) {
          assert q[1..][i] == q[i + 1];
        }
      }
    }
  }

  lemma {:induction false} CountTwo<T>(q: seq<T>, i: nat, j: nat, p: T -> bool)
    requires i < j < |q| && p(q[i]) && p(q[j])
    ensures Count(q, p) >= 2
  {
    if i == 0 {
      CountMember(q[1..], j - 1, p);
    } else {
      CountTwo(q[1..], i - 1, j - 1, p);
    }
  }
}
