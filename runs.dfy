/**
 * The shape of the program's `for … { …? }` loops: each step may fail, `?` returns at the first
 * failure, and the outputs produced so far (files written, items pushed) stay produced.
 */
module Runs {
  import opened Wrappers

  /** What a run of steps produced, and whether it ended in an error. */
  datatype Run<B> = Run(outcome: Outcome, out: seq<B>)

  /** Runs `first`, then `second` only if `first` succeeded. */
  function Then<B>(first: Run<B>, second: Run<B>): (r: Run<B>)
    ensures first.outcome.Err? ==> r == first
    ensures first.outcome.Ok? ==> r.outcome == second.outcome && r.out == first.out + second.out
  {
    if first.outcome.Err? then first else Run(second.outcome, first.out + second.out)
  }

  /** Sequencing runs is associative, so nested stages can be grouped either way. */
  lemma ThenAssoc<B>(a: Run<B>, b: Run<B>, c: Run<B>)
    ensures Then(Then(a, b), c) == Then(a, Then(b, c))
  {
    if a.outcome.Ok? && b.outcome.Ok? {
      assert (a.out + b.out) + c.out == a.out + (b.out + c.out);
    }
  }

  /** The empty successful run is a unit on both sides. */
  lemma ThenDone<B>(s: Run<B>)
    ensures Then(Run(Done, []), s) == s
    ensures Then(s, Run(Done, [])) == s
  {
    assert [] + s.out == s.out && s.out + [] == s.out;
    if s.outcome.Ok? {
      assert s.outcome.value == ();
    }
  }

  /** The run of the steps `f(0, xs[0])`, …, `f(n - 1, xs[n - 1])`, stopping at the first error. */
  function Steps<A, B>(xs: seq<A>, f: (nat, A) -> Run<B>, n: nat): Run<B>
    requires n <= |xs|
  {
    if n == 0 then Run(Done, []) else Then(Steps(xs, f, n - 1), f(n - 1, xs[n - 1]))
  }

  /** The outputs of the first `n` steps, concatenated. */
  function Concat<A, B>(xs: seq<A>, f: (nat, A) -> Run<B>, n: nat): seq<B>
    requires n <= |xs|
  {
    if n == 0 then [] else Concat(xs, f, n - 1) + f(n - 1, xs[n - 1]).out
  }

  /** One more successful step appends its output to a successful run. */
  lemma StepsNextOk<A, B>(xs: seq<A>, f: (nat, A) -> Run<B>, i: nat, done: seq<B>, step: Run<B>)
    requires i < |xs| && Steps(xs, f, i) == Run(Done, done) && step == f(i, xs[i]) && step.outcome.Ok?
    ensures Steps(xs, f, i + 1) == Run(Done, done + step.out)
  {
    assert step.outcome.value == ();
  }

  /** A failing step after a successful run ends the whole run with its error. */
  lemma StepsNextErr<A, B>(xs: seq<A>, f: (nat, A) -> Run<B>, i: nat, done: seq<B>, step: Run<B>)
    requires i < |xs| && Steps(xs, f, i) == Run(Done, done) && step == f(i, xs[i]) && step.outcome.Err?
    ensures Steps(xs, f, |xs|) == Run(step.outcome, done + step.out)
  {
    StepsSticky(xs, f, i + 1, |xs|);
  }

  /** Once a step has failed, later steps change nothing. */
  lemma {:induction false} StepsSticky<A, B>(xs: seq<A>, f: (nat, A) -> Run<B>, k: nat, n: nat)
    requires k <= n <= |xs| && Steps(xs, f, k).outcome.Err?
    ensures Steps(xs, f, n) == Steps(xs, f, k)
  {
    if n > k {
      StepsSticky(xs, f, k, n - 1);
    }
  }

  /** A run succeeds exactly when every step does, and then it outputs every step's output in order. */
  lemma {:induction false} StepsOk<A, B>(xs: seq<A>, f: (nat, A) -> Run<B>, n: nat)
    requires n <= |xs|
    ensures Steps(xs, f, n).outcome.Ok? <==> forall i :: 0 <= i < n ==> f(i, xs[i]).outcome.Ok?
    ensures Steps(xs, f, n).outcome.Ok? ==> Steps(xs, f, n).out == Concat(xs, f, n)
  {
    if n > 0 {
      StepsOk(xs, f, n - 1);
      if Steps(xs, f, n - 1).outcome.Err? {
        var i :| 0 <= i < n - 1 && f(i, xs[i]).outcome.Err?;
      }
    }
  }

  /**
   * A failing run failed at some step `k`: every step before it succeeded, the run's error is
   * step `k`'s and its output is that of the steps up to and including `k`.
   */
  lemma {:induction false} StepsErr<A, B>(xs: seq<A>, f: (nat, A) -> Run<B>, n: nat) returns (k: nat)
    requires n <= |xs| && Steps(xs, f, n).outcome.Err?
    ensures k < n && f(k, xs[k]).outcome.Err?
    ensures forall i :: 0 <= i < k ==> f(i, xs[i]).outcome.Ok?
    ensures Steps(xs, f, n) == Run(f(k, xs[k]).outcome, Concat(xs, f, k) + f(k, xs[k]).out)
  {
    if Steps(xs, f, n - 1).outcome.Err? {
      k := StepsErr(xs, f, n - 1);
    } else {
      k := n - 1;
      StepsOk(xs, f, n - 1);
    }
  }

  /** Where an output of a run came from: the step `i` that produced it. */
  lemma {:induction false} StepsOutFrom<A, B>(xs: seq<A>, f: (nat, A) -> Run<B>, n: nat, j: nat) returns (i: nat)
    requires n <= |xs| && j < |Steps(xs, f, n).out|
    ensures i < n && Steps(xs, f, n).out[j] in f(i, xs[i]).out
  {
    var prev := Steps(xs, f, n - 1);
    if prev.outcome.Err? || j < |prev.out| {
      i := StepsOutFrom(xs, f, n - 1, j);
    } else {
      i := n - 1;
      assert Steps(xs, f, n).out[j] == f(n - 1, xs[n - 1]).out[j - |prev.out|];
    }
  }

  /** When every successful step outputs one value, a successful run outputs one value per step, in order. */
  lemma {:induction false} StepsSingles<A, B>(xs: seq<A>, f: (nat, A) -> Run<B>, n: nat)
    requires n <= |xs| && Steps(xs, f, n).outcome.Ok?
    requires forall i :: 0 <= i < n && f(i, xs[i]).outcome.Ok? ==> |f(i, xs[i]).out| == 1
    ensures |Steps(xs, f, n).out| == n
    ensures forall i :: 0 <= i < n ==>
      f(i, xs[i]).outcome.Ok? && |f(i, xs[i]).out| == 1 && Steps(xs, f, n).out[i] == f(i, xs[i]).out[0]
  {
    StepsOk(xs, f, n);
    if n > 0 {
      var prev := Steps(xs, f, n - 1);
      assert prev.outcome.Ok?;
      StepsSingles(xs, f, n - 1);
      assert Steps(xs, f, n).out == prev.out + f(n - 1, xs[n - 1]).out;
    }
  }

  /**
   * When every successful step `i` outputs `h(i)`, preceded by `g(0)` for the first step, a
   * successful run of `n > 0` steps outputs `g(0)` and then `h(0)`, …, `h(n - 1)`.
   */
  lemma StepsHeaded<A, B>(xs: seq<A>, f: (nat, A) -> Run<B>, n: nat, g: nat -> B, h: nat -> B)
    requires n <= |xs| && Steps(xs, f, n).outcome.Ok?
    requires forall i :: 0 <= i < n && f(i, xs[i]).outcome.Ok? ==>
      f(i, xs[i]).out == (if i == 0 then [g(i)] else []) + [h(i)]
    ensures forall i :: 0 <= i < n ==> f(i, xs[i]).outcome.Ok?
    ensures |Steps(xs, f, n).out| == (if n == 0 then 0 else n + 1)
    ensures n > 0 ==> Steps(xs, f, n).out[0] == g(0)
    ensures forall k :: 0 <= k < n ==> Steps(xs, f, n).out[k + 1] == h(k)
  {
    StepsHeadedLength(xs, f, n, g, h);
    forall k | 0 <= k < n
      ensures Steps(xs, f, n).out[k + 1] == h(k)
    {
      StepsHeadedAt(xs, f, n, g, h, k);
    }
  }

  lemma {:induction false} StepsHeadedLength<A, B>(xs: seq<A>, f: (nat, A) -> Run<B>, n: nat, g: nat -> B, h: nat -> B)
    requires n <= |xs| && Steps(xs, f, n).outcome.Ok?
    requires forall i :: 0 <= i < n && f(i, xs[i]).outcome.Ok? ==>
      f(i, xs[i]).out == (if i == 0 then [g(i)] else []) + [h(i)]
    ensures forall i :: 0 <= i < n ==> f(i, xs[i]).outcome.Ok?
    ensures |Steps(xs, f, n).out| == (if n == 0 then 0 else n + 1)
    ensures n > 0 ==> Steps(xs, f, n).out[0] == g(0)
  {
    if n > 0 {
      var prev := Steps(xs, f, n - 1);
      var last := f(n - 1, xs[n - 1]);
      assert Steps(xs, f, n) == Then(prev, last);
      assert prev.outcome.Ok? && last.outcome.Ok?;
      StepsHeadedLength(xs, f, n - 1, g, h);
      if n == 1 {
        assert Steps(xs, f, n).out == [g(0), h(0)];
      }
    }
  }

  lemma {:induction false} StepsHeadedAt<A, B>(xs: seq<A>, f: (nat, A) -> Run<B>, n: nat, g: nat -> B, h: nat -> B, k: nat)
    requires k < n <= |xs| && Steps(xs, f, n).outcome.Ok?
    requires forall i :: 0 <= i < n && f(i, xs[i]).outcome.Ok? ==>
      f(i, xs[i]).out == (if i == 0 then [g(i)] else []) + [h(i)]
    ensures |Steps(xs, f, n).out| == n + 1 && Steps(xs, f, n).out[k + 1] == h(k)
  {
    StepsHeadedLength(xs, f, n, g, h);
    var prev := Steps(xs, f, n - 1);
    var last := f(n - 1, xs[n - 1]);
    assert Steps(xs, f, n) == Then(prev, last);
    assert prev.outcome.Ok? && last.outcome.Ok?;
    if k < n - 1 {
      StepsHeadedAt(xs, f, n - 1, g, h, k);
      assert Steps(xs, f, n).out[k + 1] == prev.out[k + 1];
    } else if n > 1 {
      StepsHeadedLength(xs, f, n - 1, g, h);
      assert last.out == [h(n - 1)];
    }
  }

  /** The outputs of every step are among the concatenated outputs. */
  lemma {:induction false} ConcatIncludes<A, B>(xs: seq<A>, f: (nat, A) -> Run<B>, n: nat, i: nat, y: B)
    requires i < n <= |xs| && y in f(i, xs[i]).out
    ensures y in Concat(xs, f, n)
  {
    if i < n - 1 {
      ConcatIncludes(xs, f, n - 1, i, y);
    }
  }

  /** The results of `f` on the first `n` elements, or the first error among them. */
  function Collect<A, B>(xs: seq<A>, f: A -> Result<B>, n: nat): Result<seq<B>>
    requires n <= |xs|
  {
    if n == 0 then Ok([])
    else
      var init :- Collect(xs, f, n - 1);
      var y :- f(xs[n - 1]);
      Ok(init + [y])
  }

  /** Collecting succeeds exactly when `f` succeeds on every element, and then gives its results in order. */
  lemma {:induction false} CollectOk<A, B>(xs: seq<A>, f: A -> Result<B>, n: nat)
    requires n <= |xs|
    ensures Collect(xs, f, n).Ok? <==> forall i :: 0 <= i < n ==> f(xs[i]).Ok?
    ensures Collect(xs, f, n).Ok? ==>
      |Collect(xs, f, n).value| == n && forall i :: 0 <= i < n ==> Collect(xs, f, n).value[i] == f(xs[i]).value
  {
    if n > 0 {
      CollectOk(xs, f, n - 1);
      if Collect(xs, f, n - 1).Err? {
        var i :| 0 <= i < n - 1 && f(xs[i]).Err?;
      }
    }
  }

  /** A failed collection fails with the error of the first element `k` on which `f` fails. */
  lemma {:induction false} CollectErr<A, B>(xs: seq<A>, f: A -> Result<B>, n: nat) returns (k: nat)
    requires n <= |xs| && Collect(xs, f, n).Err?
    ensures k < n && f(xs[k]).Err? && Collect(xs, f, n) == Err(f(xs[k]).error)
    ensures forall i :: 0 <= i < k ==> f(xs[i]).Ok?
  {
    if Collect(xs, f, n - 1).Err? {
      k := CollectErr(xs, f, n - 1);
    } else {
      k := n - 1;
      CollectOk(xs, f, n - 1);
    }
  }

  lemma {:induction false} CollectSticky<A, B>(xs: seq<A>, f: A -> Result<B>, k: nat, n: nat)
    requires k <= n <= |xs| && Collect(xs, f, k).Err?
    ensures Collect(xs, f, n) == Collect(xs, f, k)
  {
    if n > k {
      CollectSticky(xs, f, k, n - 1);
    }
  }

  /** A loop that pushes `f(x)` for each `x` and returns at the first error. */
  method CollectAll<A, B>(xs: seq<A>, f: A -> Result<B>) returns (r: Result<seq<B>>)
    ensures r == Collect(xs, f, |xs|)
  {
    var acc: seq<B> := [];
    for i := 0 to |xs|
      invariant Collect(xs, f, i) == Ok(acc)
    {
      var y := f(xs[i]);
      if y.Err? {
        CollectSticky(xs, f, i + 1, |xs|);
        return Err(y.error);
      }
      acc := acc + [y.value];
    }
    return Ok(acc);
  }

  /** A loop that runs `f(i, xs[i])` for each element in turn, keeping the outputs and stopping at the first error. */
  method RunAll<A, B>(xs: seq<A>, f: (nat, A) -> Run<B>) returns (r: Outcome, out: seq<B>)
    ensures Run(r, out) == Steps(xs, f, |xs|)
  {
    out := [];
    for i := 0 to |xs|
      invariant Steps(xs, f, i) == Run(Done, out)
    {
      var step := f(i, xs[i]);
      assert Steps(xs, f, i + 1) == Then(Steps(xs, f, i), step);
      out := out + step.out;
      if step.outcome.Err? {
        StepsSticky(xs, f, i + 1, |xs|);
        return step.outcome, out;
      }
      assert step.outcome.value == ();
    }
    r := Done;
  }
}
