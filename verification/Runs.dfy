/** Runs of a step function.  An action that is not enabled leaves the state as it is, so
    every sequence of actions is a run. */
module Runs {
  function Exec<S, A>(step: (S, A) -> S, s: S, run: seq<A>): S
    decreases |run|
  {
    if run == [] then s else Exec(step, step(s, run[0]), run[1..])
  }

  lemma {:induction false} Concat<S, A>(step: (S, A) -> S, s: S, a: seq<A>, b: seq<A>)
    ensures Exec(step, s, a + b) == Exec(step, Exec(step, s, a), b)
    decreases |a|
  {
    if a == [] {
      assert a + b == b;
    } else {
      Concat(step, step(s, a[0]), a[1..], b);
      assert (a + b)[1..] == a[1..] + b;
    }
  }

  lemma {:induction false} Snoc<S, A>(step: (S, A) -> S, s: S, run: seq<A>, a: A)
    ensures Exec(step, s, run + [a]) == step(Exec(step, s, run), a)
  {
    Concat(step, s, run, [a]);
    assert [a][1..] == [];
  }

  lemma {:induction false} Two<S, A>(step: (S, A) -> S, s: S, a: A, b: A)
    ensures Exec(step, s, [a, b]) == step(step(s, a), b)
  {
    assert [a, b] == [a] + [b];
    Snoc(step, s, [a], b);
    assert [a][1..] == [];
  }

  lemma {:induction false} Keeps<S(!new), A(!new)>(step: (S, A) -> S, inv: S -> bool, s: S, run: seq<A>)
    requires inv(s)
    requires forall s, a :: inv(s) ==> inv(step(s, a))
    ensures inv(Exec(step, s, run))
    decreases |run|
  {
    if run != [] {
      Keeps(step, inv, step(s, run[0]), run[1..]);
    }
  }

  // ---- one actor left to itself

  function Iter<T>(n: nat, f: T -> T, x: T): T {
    if n == 0 then x else Iter(n - 1, f, f(x))
  }

  /** The actions of an actor that sees `x` and answers with `act(x)`. */
  function Trace<T, A>(n: nat, f: T -> T, act: T -> A, x: T): seq<A> {
    if n == 0 then [] else [act(x)] + Trace(n - 1, f, act, f(x))
  }

  /** If each action takes what the actor sees from `x` to `f(x)`, then `n` of them take it to `f` applied n times. */
  lemma {:induction false} Simulates<S(!new), A, T>(
      step: (S, A) -> S, inv: S -> bool, view: S -> T, act: T -> A, f: T -> T, n: nat, s: S)
    requires inv(s)
    requires forall s {:trigger step(s, act(view(s)))} ::
               inv(s) ==> inv(step(s, act(view(s)))) && view(step(s, act(view(s)))) == f(view(s))
    ensures var s' := Exec(step, s, Trace(n, f, act, view(s)));
            inv(s') && view(s') == Iter(n, f, view(s))
    decreases n
  {
    if n > 0 {
      var a, s1 := act(view(s)), step(s, act(view(s)));
      var rest := Trace(n - 1, f, act, view(s1));
      assert ([a] + rest)[1..] == rest;
      Simulates(step, inv, view, act, f, n - 1, s1);
    }
  }
}
