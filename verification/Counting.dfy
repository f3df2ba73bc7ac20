/** How many elements of a sequence have a property. */
module Counting {
  function Bit(b: bool): nat {
    if b then 1 else 0
  }

  function Count<T>(q: seq<T>, p: T -> bool): (n: nat)
    ensures n <= |q|
  {
    if q == [] then 0 else Bit(p(q[0])) + Count(q[1..], p)
  }

  lemma {:induction false} CountAppend<T>(q: seq<T>, x: T, p: T -> bool)
    ensures Count(q + [x], p) == Count(q, p) + Bit(p(x))
  {
    if q == [] {
      assert q + [x] == [x];
    } else {
      CountAppend(q[1..], x, p);
      assert (q + [x])[1..] == q[1..] + [x];
    }
  }

  lemma {:induction false} CountUpdate<T>(q: seq<T>, i: nat, x: T, p: T -> bool)
    requires i < |q|
    ensures Count(q[i := x], p) + Bit(p(q[i])) == Count(q, p) + Bit(p(x))
  {
    if i == 0 {
      assert q[0 := x][1..] == q[1..];
    } else {
      CountUpdate(q[1..], i - 1, x, p);
      assert q[i := x][1..] == q[1..][i - 1 := x];
    }
  }

  lemma {:induction false} CountZero<T>(q: seq<T>, p: T -> bool)
    ensures Count(q, p) == 0 <==> forall i :: 0 <= i < |q| ==> !p(q[i])
  {
    if q != [] {
      CountZero(q[1..], p);
      assert forall i :: 1 <= i < |q| ==> q[i] == q[1..][i - 1];
      assert forall i :: 0 <= i < |q[1..]| ==> q[1..][i] == q[i + 1];
    }
  }

  lemma {:induction false} CountConcat<T>(a: seq<T>, b: seq<T>, p: T -> bool)
    ensures Count(a + b, p) == Count(a, p) + Count(b, p)
  {
    if a == [] {
      assert a + b == b;
    } else {
      assert (a + b)[1..] == a[1..] + b;
      CountConcat(a[1..], b, p);
    }
  }
}
