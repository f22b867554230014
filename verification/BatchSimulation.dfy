/**
 Simulating a batch of messages: when the simulator names the first failing message, that
 message is set aside and the ones behind it are simulated again on their own.
 */
module BatchSimulation {
  import opened Wrappers

  /** A simulation either passes, names its first failing message, or says nothing usable. */
  datatype Verdict = Passed | FailsAt(index: nat) | NoVerdict

  datatype SimulationError = SimulatorFailed | IndexOutOfRange

  datatype Split<+M> = Split(succeeded: seq<M>, failed: seq<M>)

  function SimulateBatch<M>(simulate: seq<M> -> Verdict, msgs: seq<M>): Result<Split<M>, SimulationError>
    decreases |msgs|
  {
    match simulate(msgs)
    case Passed => Success(Split(msgs, []))
    case NoVerdict => Failure(SimulatorFailed)
    case FailsAt(k) =>
      if k >= |msgs| then Failure(IndexOutOfRange)
      else if k == |msgs| - 1 then Success(Split(msgs[..k], [msgs[k]]))
      else
        var rest :- SimulateBatch(simulate, msgs[k + 1..]);
        Success(Split(msgs[..k] + rest.succeeded, [msgs[k]] + rest.failed))
  }

  /** How often the simulator is asked. */
  function Calls<M>(simulate: seq<M> -> Verdict, msgs: seq<M>): nat
    decreases |msgs|
  {
    match simulate(msgs)
    case FailsAt(k) => if k + 1 < |msgs| then 1 + Calls(simulate, msgs[k + 1..]) else 1
    case _ => 1
  }

  function Merged<M>(succeeded: seq<M>, failed: seq<M>, rest: Result<Split<M>, SimulationError>):
    Result<Split<M>, SimulationError>
  {
    match rest
    case Success(split) => Success(Split(succeeded + split.succeeded, failed + split.failed))
    case Failure(e) => Failure(e)
  }

  lemma MergedNothing<M>(r: Result<Split<M>, SimulationError>)
    ensures Merged([], [], r) == r
  {
    if r.Success? {
      assert [] + r.value.succeeded == r.value.succeeded && [] + r.value.failed == r.value.failed;
    }
  }

  lemma MergedTwice<M>(a: seq<M>, b: seq<M>, c: seq<M>, d: seq<M>, r: Result<Split<M>, SimulationError>)
    ensures Merged(a, b, Merged(c, d, r)) == Merged(a + c, b + d, r)
  {
    if r.Success? {
      assert a + (c + r.value.succeeded) == a + c + r.value.succeeded
           && b + (d + r.value.failed) == b + d + r.value.failed;
    }
  }

  method BatchSimulateUnsigned<M>(simulate: seq<M> -> Verdict, msgs: seq<M>)
    returns (r: Result<Split<M>, SimulationError>, calls: nat)
    ensures r == SimulateBatch(simulate, msgs)
    ensures calls == Calls(simulate, msgs)
  {
    var succeeded: seq<M>, failed: seq<M>, toSim := [], [], msgs;
    calls := 0;
    MergedNothing(SimulateBatch(simulate, msgs));
    while true
      invariant SimulateBatch(simulate, msgs) == Merged(succeeded, failed, SimulateBatch(simulate, toSim))
      invariant calls + Calls(simulate, toSim) == Calls(simulate, msgs)
      decreases |toSim|
    {
      var verdict := simulate(toSim);
      calls := calls + 1;
      match verdict {
        case Passed =>
          assert failed + [] == failed;
          return Success(Split(succeeded + toSim, failed)), calls;
        case NoVerdict =>
          return Failure(SimulatorFailed), calls;
        case FailsAt(k) =>
          if k >= |toSim| {
            return Failure(IndexOutOfRange), calls;
          }
          if k == |toSim| - 1 {
            return Success(Split(succeeded + toSim[..k], failed + [toSim[k]])), calls;
          }
          MergedTwice(succeeded, failed, toSim[..k], [toSim[k]], SimulateBatch(simulate, toSim[k + 1..]));
          failed := failed + [toSim[k]];
          succeeded := succeeded + toSim[..k];
          toSim := toSim[k + 1..];
      }
    }
  }

  /** Each round but the last settles at least one message. */
  lemma {:induction false} FewCalls<M>(simulate: seq<M> -> Verdict, msgs: seq<M>)
    ensures Calls(simulate, msgs) <= if |msgs| == 0 then 1 else |msgs|
    decreases |msgs|
  {
    var verdict := simulate(msgs);
    if verdict.FailsAt? && verdict.index + 1 < |msgs| {
      FewCalls(simulate, msgs[verdict.index + 1..]);
    }
  }

  // ---------- the split is a partition that keeps the order ----------

  /** The elements whose mark equals the given one, in order. */
  function Marked<M>(msgs: seq<M>, marks: seq<bool>, mark: bool): seq<M>
    requires |marks| == |msgs|
  {
    if |msgs| == 0 then []
    else (if marks[0] == mark then [msgs[0]] else []) + Marked(msgs[1..], marks[1..], mark)
  }

  lemma {:induction false} MarkedAppend<M>(a: seq<M>, b: seq<M>, x: seq<bool>, y: seq<bool>, mark: bool)
    requires |x| == |a| && |y| == |b|
    ensures Marked(a + b, x + y, mark) == Marked(a, x, mark) + Marked(b, y, mark)
  {
    if |a| == 0 {
      assert a + b == b && x + y == y;
    } else {
      assert (a + b)[1..] == a[1..] + b && (x + y)[1..] == x[1..] + y;
      var head := if x[0] == mark then [a[0]] else [];
      assert Marked(a, x, mark) == head + Marked(a[1..], x[1..], mark);
      assert Marked(a + b, x + y, mark) == head + Marked(a[1..] + b, x[1..] + y, mark);
      hide Marked;
      MarkedAppend(a[1..], b, x[1..], y, mark);
    }
  }

  lemma {:induction false} AllMarked<M>(msgs: seq<M>, marks: seq<bool>, mark: bool)
    requires |marks| == |msgs| && forall i :: 0 <= i < |marks| ==> marks[i]
    ensures Marked(msgs, marks, mark) == if mark then msgs else []
  {
    if |msgs| > 0 {
      AllMarked(msgs[1..], marks[1..], mark);
      assert [msgs[0]] + msgs[1..] == msgs;
    }
  }

  /** Which messages of the batch are accepted. */
  ghost predicate SplitBy<M>(msgs: seq<M>, marks: seq<bool>, split: Split<M>) {
    |marks| == |msgs| && split.succeeded == Marked(msgs, marks, true) && split.failed == Marked(msgs, marks, false)
  }

  function Accepted(k: nat): (marks: seq<bool>)
    ensures |marks| == k && forall i :: 0 <= i < k ==> marks[i]
  {
    seq(k, _ => true)
  }

  lemma SplitHead<M>(msgs: seq<M>, k: nat, marks: seq<bool>, rest: Split<M>)
    requires k < |msgs| && SplitBy(msgs[k + 1..], marks, rest)
    ensures SplitBy(msgs, Accepted(k) + ([false] + marks), Split(msgs[..k] + rest.succeeded, [msgs[k]] + rest.failed))
  {
    var tail := [msgs[k]] + msgs[k + 1..];
    assert msgs == msgs[..k] + tail;
    assert tail[1..] == msgs[k + 1..] && ([false] + marks)[1..] == marks;
    AllMarked(msgs[..k], Accepted(k), true);
    AllMarked(msgs[..k], Accepted(k), false);
    MarkedAppend(msgs[..k], tail, Accepted(k), [false] + marks, true);
    MarkedAppend(msgs[..k], tail, Accepted(k), [false] + marks, false);
  }

  /** Both results are subsequences of the batch, and every message is in exactly one of them. */
  lemma {:induction false} SplitIsPartition<M>(simulate: seq<M> -> Verdict, msgs: seq<M>) returns (marks: seq<bool>)
    requires SimulateBatch(simulate, msgs).Success?
    ensures SplitBy(msgs, marks, SimulateBatch(simulate, msgs).value)
    decreases |msgs|
  {
    var verdict := simulate(msgs);
    if verdict.Passed? {
      marks := Accepted(|msgs|);
      AllMarked(msgs, marks, true);
      AllMarked(msgs, marks, false);
    } else {
      var k := verdict.index;
      var tail: seq<bool> := [];
      if k < |msgs| - 1 {
        tail := SplitIsPartition(simulate, msgs[k + 1..]);
        SplitHead(msgs, k, tail, SimulateBatch(simulate, msgs[k + 1..]).value);
      } else {
        SplitHead(msgs, k, [], Split([], []));
        assert msgs[..k] + [] == msgs[..k] && [msgs[k]] + [] == [msgs[k]];
      }
      marks := Accepted(k) + ([false] + tail);
    }
  }

  lemma {:induction false} MarkedMultiset<M>(msgs: seq<M>, marks: seq<bool>)
    requires |marks| == |msgs|
    ensures multiset(Marked(msgs, marks, true)) + multiset(Marked(msgs, marks, false)) == multiset(msgs)
  {
    if |msgs| > 0 {
      MarkedMultiset(msgs[1..], marks[1..]);
      assert msgs == [msgs[0]] + msgs[1..];
    }
  }

  /** No message is lost, added or listed twice. */
  lemma SplitCoversBatch<M>(simulate: seq<M> -> Verdict, msgs: seq<M>)
    requires SimulateBatch(simulate, msgs).Success?
    ensures var split := SimulateBatch(simulate, msgs).value;
            multiset(split.succeeded) + multiset(split.failed) == multiset(msgs)
  {
    var marks := SplitIsPartition(simulate, msgs);
    MarkedMultiset(msgs, marks);
  }

  // ---------- independent messages ----------

  function Filter<M>(msgs: seq<M>, p: M -> bool): seq<M> {
    if |msgs| == 0 then [] else (if p(msgs[0]) then [msgs[0]] else []) + Filter(msgs[1..], p)
  }

  /** The simulator reports the first message that fails on its own account. */
  ghost predicate JudgesEachAlone<M(!new)>(simulate: seq<M> -> Verdict, ok: M -> bool) {
    forall msgs: seq<M> ::
      && (simulate(msgs).Passed? <==> forall m :: m in msgs ==> ok(m))
      && (simulate(msgs).FailsAt? ==>
            var k := simulate(msgs).index;
            k < |msgs| && !ok(msgs[k]) && forall i :: 0 <= i < k ==> ok(msgs[i]))
      && !simulate(msgs).NoVerdict?
  }

  lemma {:induction false} FilterAppend<M>(a: seq<M>, b: seq<M>, p: M -> bool)
    ensures Filter(a + b, p) == Filter(a, p) + Filter(b, p)
  {
    if |a| == 0 {
      assert a + b == b;
    } else {
      var head := if p(a[0]) then [a[0]] else [];
      assert (a + b)[0] == a[0] && (a + b)[1..] == a[1..] + b;
      FilterAppend(a[1..], b, p);
      assert head + (Filter(a[1..], p) + Filter(b, p)) == head + Filter(a[1..], p) + Filter(b, p);
    }
  }

  lemma {:induction false} FilterUniform<M>(msgs: seq<M>, p: M -> bool, value: bool)
    requires forall i :: 0 <= i < |msgs| ==> p(msgs[i]) == value
    ensures Filter(msgs, p) == if value then msgs else []
  {
    if |msgs| > 0 {
      FilterUniform(msgs[1..], p, value);
      assert [msgs[0]] + msgs[1..] == msgs;
    }
  }

  lemma FilterSplit<M>(msgs: seq<M>, k: nat, p: M -> bool)
    requires k < |msgs|
    ensures Filter(msgs, p)
         == Filter(msgs[..k], p) + ((if p(msgs[k]) then [msgs[k]] else []) + Filter(msgs[k + 1..], p))
  {
    assert msgs == msgs[..k] + msgs[k..] && msgs[k..][1..] == msgs[k + 1..];
    FilterAppend(msgs[..k], msgs[k..], p);
  }

  lemma FilterKeeps<M>(msgs: seq<M>, k: nat, p: M -> bool)
    requires k < |msgs| && !p(msgs[k]) && forall i :: 0 <= i < k ==> p(msgs[i])
    ensures Filter(msgs, p) == msgs[..k] + Filter(msgs[k + 1..], p)
  {
    FilterSplit(msgs, k, p);
    hide Filter;
    FilterUniform(msgs[..k], p, true);
    assert [] + Filter(msgs[k + 1..], p) == Filter(msgs[k + 1..], p);
  }

  lemma FilterDrops<M>(msgs: seq<M>, k: nat, p: M -> bool)
    requires k < |msgs| && p(msgs[k]) && forall i :: 0 <= i < k ==> !p(msgs[i])
    ensures Filter(msgs, p) == [msgs[k]] + Filter(msgs[k + 1..], p)
  {
    FilterSplit(msgs, k, p);
    hide Filter;
    FilterUniform(msgs[..k], p, false);
    assert [] + ([msgs[k]] + Filter(msgs[k + 1..], p)) == [msgs[k]] + Filter(msgs[k + 1..], p);
  }

  /** When no verdict depends on earlier messages, the split is exactly into passing and failing ones. */
  lemma {:induction false} IndependentVerdicts<M(!new)>(simulate: seq<M> -> Verdict, ok: M -> bool, msgs: seq<M>)
    requires JudgesEachAlone(simulate, ok)
    ensures SimulateBatch(simulate, msgs) == Success(Split(Filter(msgs, ok), Filter(msgs, m => !ok(m))))
    decreases |msgs|
  {
    var fails := m => !ok(m);
    var verdict := simulate(msgs);
    if verdict.Passed? {
      FilterUniform(msgs, ok, true);
      FilterUniform(msgs, fails, false);
    } else {
      var k := verdict.index;
      FilterKeeps(msgs, k, ok);
      FilterDrops(msgs, k, fails);
      if k < |msgs| - 1 {
        IndependentVerdicts(simulate, ok, msgs[k + 1..]);
      } else {
        assert msgs[k + 1..] == [];
        assert msgs[..k] + [] == msgs[..k] && [msgs[k]] + [] == [msgs[k]];
      }
    }
  }
}
