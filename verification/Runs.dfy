/**
 Runs of any machine given by a total next-state function: what holds at every point of a run,
 what relates two points of a run, and quantities and logs accumulated along it.
 */
module Runs {

  ghost function Run<W, A>(next: (W, A) -> W, w: W, acts: seq<A>): W {
    if |acts| == 0 then w else next(Run(next, w, acts[..|acts| - 1]), acts[|acts| - 1])
  }

  /** The state in which the i-th act of a run happens. */
  ghost function At<W, A>(next: (W, A) -> W, w: W, acts: seq<A>, i: nat): W
    requires i <= |acts|
  {
    Run(next, w, acts[..i])
  }

  lemma AtNext<W, A>(next: (W, A) -> W, w: W, acts: seq<A>, i: nat)
    requires i < |acts|
    ensures At(next, w, acts, i + 1) == next(At(next, w, acts, i), acts[i])
  {
    assert acts[..i + 1][..i] == acts[..i];
  }

  lemma RunSnoc<W, A>(next: (W, A) -> W, w: W, acts: seq<A>, a: A)
    ensures Run(next, w, acts + [a]) == next(Run(next, w, acts), a)
  {
    assert (acts + [a])[..|acts|] == acts;
  }

  /** A run in two parts is a run of the second part from where the first one ends. */
  lemma {:induction false} RunAppend<W, A>(next: (W, A) -> W, w: W, first: seq<A>, second: seq<A>)
    ensures Run(next, w, first + second) == Run(next, Run(next, w, first), second)
  {
    if |second| == 0 {
      assert first + second == first;
    } else {
      var front, last := second[..|second| - 1], second[|second| - 1];
      RunAppend(next, w, first, front);
      assert first + second == first + front + [last];
      RunSnoc(next, w, first + front, last);
    }
  }

  ghost predicate Inductive<W(!new), A(!new)>(next: (W, A) -> W, inv: W -> bool) {
    forall w: W, a: A :: inv(w) ==> inv(next(w, a))
  }

  lemma {:induction false} InvariantAlong<W(!new), A(!new)>(next: (W, A) -> W, inv: W -> bool, w: W, acts: seq<A>)
    requires Inductive(next, inv) && inv(w)
    ensures inv(Run(next, w, acts))
  {
    if |acts| > 0 {
      InvariantAlong(next, inv, w, acts[..|acts| - 1]);
    }
  }

  /** rel is a preorder that every step from a good state respects. */
  ghost predicate Monotone<W(!new), A(!new)>(next: (W, A) -> W, inv: W -> bool, rel: (W, W) -> bool) {
    && (forall w: W :: rel(w, w))
    && (forall a: W, b: W, c: W :: rel(a, b) && rel(b, c) ==> rel(a, c))
    && (forall w: W, a: A :: inv(w) ==> rel(w, next(w, a)))
  }

  lemma {:induction false} RelationAlong<W(!new), A(!new)>(
      next: (W, A) -> W, inv: W -> bool, rel: (W, W) -> bool, w: W, acts: seq<A>, i: nat, j: nat)
    requires Inductive(next, inv) && inv(w) && Monotone(next, inv, rel)
    requires i <= j <= |acts|
    ensures rel(At(next, w, acts, i), At(next, w, acts, j))
    decreases j
  {
    if i < j {
      RelationAlong(next, inv, rel, w, acts, i, j - 1);
      InvariantAlong(next, inv, w, acts[..j - 1]);
      AtNext(next, w, acts, j - 1);
      assert rel(At(next, w, acts, j - 1), next(At(next, w, acts, j - 1), acts[j - 1]));
    }
  }

  /** What f contributes over all steps of a run. */
  ghost function Total<W, A>(next: (W, A) -> W, f: (W, A) -> nat, w: W, acts: seq<A>): nat {
    if |acts| == 0 then 0
    else Total(next, f, w, acts[..|acts| - 1]) + f(Run(next, w, acts[..|acts| - 1]), acts[|acts| - 1])
  }

  /** Every step moves the potential by the difference of what comes in and what goes out. */
  ghost predicate Balanced<W(!new), A(!new)>(
      next: (W, A) -> W, inv: W -> bool, potential: W -> nat, income: (W, A) -> nat, outgo: (W, A) -> nat) {
    forall w: W, a: A :: inv(w) ==> potential(next(w, a)) + outgo(w, a) == potential(w) + income(w, a)
  }

  lemma {:induction false} BalanceAlong<W(!new), A(!new)>(
      next: (W, A) -> W, inv: W -> bool, potential: W -> nat, income: (W, A) -> nat, outgo: (W, A) -> nat, w: W,
      acts: seq<A>)
    requires Inductive(next, inv) && inv(w) && Balanced(next, inv, potential, income, outgo)
    ensures potential(Run(next, w, acts)) + Total(next, outgo, w, acts) == potential(w) + Total(next, income, w, acts)
  {
    if |acts| > 0 {
      var front := acts[..|acts| - 1];
      BalanceAlong(next, inv, potential, income, outgo, w, front);
      InvariantAlong(next, inv, w, front);
    }
  }

  ghost function Plus<W, A>(f: (W, A) -> nat, g: (W, A) -> nat): (W, A) -> nat {
    (w, a) => f(w, a) + g(w, a)
  }

  lemma {:induction false} TotalPlus<W, A>(next: (W, A) -> W, f: (W, A) -> nat, g: (W, A) -> nat, w: W, acts: seq<A>)
    ensures Total(next, Plus(f, g), w, acts) == Total(next, f, w, acts) + Total(next, g, w, acts)
  {
    if |acts| > 0 {
      TotalPlus(next, f, g, w, acts[..|acts| - 1]);
    }
  }

  /** A total is zero exactly when every step contributes nothing. */
  lemma {:induction false} TotalZeroIff<W, A>(next: (W, A) -> W, f: (W, A) -> nat, w: W, acts: seq<A>)
    ensures Total(next, f, w, acts) == 0 <==> forall i :: 0 <= i < |acts| ==> f(At(next, w, acts, i), acts[i]) == 0
  {
    if |acts| > 0 {
      var front := acts[..|acts| - 1];
      TotalZeroIff(next, f, w, front);
      forall i | 0 <= i < |front| ensures At(next, w, front, i) == At(next, w, acts, i) {
        assert front[..i] == acts[..i];
      }
      if Total(next, f, w, acts) == 0 {
        forall i | 0 <= i < |acts| ensures f(At(next, w, acts, i), acts[i]) == 0 {
          if i < |front| {
            assert f(At(next, w, front, i), front[i]) == 0;
          }
        }
      }
      if forall i :: 0 <= i < |acts| ==> f(At(next, w, acts, i), acts[i]) == 0 {
        forall i | 0 <= i < |front| ensures f(At(next, w, front, i), front[i]) == 0 {
          assert f(At(next, w, acts, i), acts[i]) == 0;
        }
        assert f(At(next, w, acts, |front|), acts[|front|]) == 0;
      }
    }
  }

  /** What f records over all steps of a run. */
  ghost function Log<W, A, E>(next: (W, A) -> W, f: (W, A) -> seq<E>, w: W, acts: seq<A>): seq<E> {
    if |acts| == 0 then []
    else Log(next, f, w, acts[..|acts| - 1]) + f(Run(next, w, acts[..|acts| - 1]), acts[|acts| - 1])
  }

  lemma {:induction false} LogPrefix<W, A, E>(next: (W, A) -> W, f: (W, A) -> seq<E>, w: W, acts: seq<A>, i: nat)
    requires i <= |acts|
    ensures Log(next, f, w, acts[..i]) <= Log(next, f, w, acts)
  {
    if i == |acts| {
      assert acts[..i] == acts;
    } else {
      assert acts[..|acts| - 1][..i] == acts[..i];
      LogPrefix(next, f, w, acts[..|acts| - 1], i);
    }
  }

  ghost predicate LogInductive<W(!new), A(!new), E(!new)>(next: (W, A) -> W, f: (W, A) -> seq<E>,
      inv: (W, seq<E>) -> bool)
  {
    forall w: W, a: A, log: seq<E> :: inv(w, log) ==> inv(next(w, a), log + f(w, a))
  }

  lemma {:induction false} LogInvariantAlong<W(!new), A(!new), E(!new)>(
      next: (W, A) -> W, f: (W, A) -> seq<E>, inv: (W, seq<E>) -> bool, w: W, acts: seq<A>)
    requires LogInductive(next, f, inv) && inv(w, [])
    ensures inv(Run(next, w, acts), Log(next, f, w, acts))
  {
    if |acts| > 0 {
      LogInvariantAlong(next, f, inv, w, acts[..|acts| - 1]);
    }
  }
}
