/**
  Logs of resumable machines: calls of numbered steps, and rows stored with the number of
  the step they resume at. The workflow engine and the provisioning engine both keep one.
 */
module Checkpoints {

  /** `input` is what the step was called with, `rank` where a run that reads `row` resumes. */
  datatype Effect<Input, Row> = Called(step: nat, ok: bool, input: Input) | Stored(rank: nat, row: Row)

  /** The highest checkpoint among the rows stored so far. */
  function Highest<I, R>(log: seq<Effect<I, R>>): nat {
    if log == [] then 0
    else
      var before := Highest(log[..|log| - 1]);
      var e := log[|log| - 1];
      if e.Stored? && e.rank > before then e.rank else before
  }

  /** The steps whose stored checkpoint raised the highest one, in the order it happened. */
  function Checkpointed<I, R>(log: seq<Effect<I, R>>): seq<nat> {
    if log == [] then []
    else
      var init := log[..|log| - 1];
      var e := log[|log| - 1];
      if e.Stored? && e.rank > Highest(init) then Checkpointed(init) + [e.rank - 1] else Checkpointed(init)
  }

  function Calls<I, R>(log: seq<Effect<I, R>>): nat {
    if log == [] then 0 else Calls(log[..|log| - 1]) + if log[|log| - 1].Called? then 1 else 0
  }

  function Upto(n: nat): seq<nat> {
    seq(n, i => i)
  }

  /** A step is called exactly at the highest checkpoint; a stored row repeats the highest
      checkpoint or is one further, right after that step passed. */
  ghost predicate InPlace<I, R>(before: seq<Effect<I, R>>, e: Effect<I, R>) {
    if e.Called? then e.step == Highest(before)
    else
      e.rank == Highest(before)
      || (e.rank == Highest(before) + 1 && before != [] && before[|before| - 1].Called?
          && before[|before| - 1].ok && before[|before| - 1].step == Highest(before))
  }

  ghost predicate Orderly<I, R>(log: seq<Effect<I, R>>) {
    forall j :: 0 <= j < |log| ==> InPlace(log[..j], log[j])
  }

  /** The checkpointed steps are the first ones, in order, without a gap. */
  ghost predicate Clean<I, R>(log: seq<Effect<I, R>>) {
    Orderly(log) && Checkpointed(log) == Upto(Highest(log))
  }

  lemma CleanSnoc<I, R>(log: seq<Effect<I, R>>, e: Effect<I, R>)
    requires Clean(log) && InPlace(log, e)
    ensures Clean(log + [e])
    ensures Calls(log + [e]) == Calls(log) + if e.Called? then 1 else 0
    ensures Highest(log + [e]) == if e.Stored? then e.rank else Highest(log)
  {
    var all := log + [e];
    assert all[..|log|] == log;
    forall j | 0 <= j < |all| ensures InPlace(all[..j], all[j]) {
      if j < |log| { assert all[..j] == log[..j]; }
    }
    assert Upto(Highest(log)) + [Highest(log)] == Upto(Highest(log) + 1);
  }

  lemma {:induction false} HighestCovers<I, R>(log: seq<Effect<I, R>>, i: nat)
    requires i < |log| && log[i].Stored?
    ensures log[i].rank <= Highest(log)
    decreases |log|
  {
    if i < |log| - 1 { HighestCovers(log[..|log| - 1], i); }
  }

  /** In an orderly log no step is called once a checkpoint beyond it is stored. */
  lemma NoCallBehindACheckpoint<I, R>(log: seq<Effect<I, R>>, i: nat, j: nat)
    requires Orderly(log) && i < j < |log| && log[i].Stored? && log[j].Called?
    ensures log[i].rank <= log[j].step
  {
    assert InPlace(log[..j], log[j]);
    HighestCovers(log[..j], i);
  }

  // ---- what a checkpoint stands for ----

  /** Entry `j` is a call of step `k` that passed, and its checkpoint was stored at once. */
  ghost predicate PassedAt<I, R>(log: seq<Effect<I, R>>, j: nat, k: nat) {
    && j + 1 < |log|
    && log[j].Called? && log[j].ok && log[j].step == k
    && log[j + 1].Stored? && log[j + 1].rank == k + 1
  }

  ghost predicate StepPassed<I, R>(log: seq<Effect<I, R>>, k: nat) {
    exists j: nat :: PassedAt(log, j, k)
  }

  /** Each of the first `n` steps passed and was checkpointed, exactly once, and in order. */
  ghost predicate PassedInOrder<I, R>(log: seq<Effect<I, R>>, n: nat) {
    && (forall k: nat :: k < n ==> StepPassed(log, k))
    && (forall i: nat, j: nat, k: nat, l: nat :: PassedAt(log, i, k) && PassedAt(log, j, l) ==> (i < j <==> k < l))
  }

  /** In an orderly log every step below the highest checkpoint has passed. */
  lemma {:induction false} PassedBelowHighest<I, R>(log: seq<Effect<I, R>>, k: nat) returns (j: nat)
    requires Orderly(log) && k < Highest(log)
    ensures PassedAt(log, j, k)
    decreases |log|
  {
    var n := |log| - 1;
    var init := log[..n];
    assert InPlace(log[..n], log[n]);
    if k < Highest(init) {
      forall m | 0 <= m < |init| ensures InPlace(init[..m], init[m]) {
        assert init[..m] == log[..m];
      }
      j := PassedBelowHighest(init, k);
    } else {
      j := n - 1;
    }
  }

  lemma {:induction false} HighestGrows<I, R>(log: seq<Effect<I, R>>, n: nat)
    requires n <= |log|
    ensures Highest(log[..n]) <= Highest(log)
    decreases |log|
  {
    if n == |log| {
      assert log[..n] == log;
    } else {
      HighestGrows(log[..|log| - 1], n);
      assert log[..|log| - 1][..n] == log[..n];
    }
  }

  /** A later passing call is one of a later step. */
  lemma PassesAscend<I, R>(log: seq<Effect<I, R>>, i: nat, j: nat, k: nat, l: nat)
    requires Orderly(log) && PassedAt(log, i, k) && PassedAt(log, j, l) && i < j
    ensures k < l
  {
    assert InPlace(log[..j], log[j]);
    assert log[..j][i + 1] == log[i + 1];
    HighestCovers(log[..j], i + 1);
  }

  /** The meaning of a checkpoint: the steps before it passed, each once and in order. */
  lemma {:induction false} CheckpointsWerePassed<I, R>(log: seq<Effect<I, R>>)
    requires Orderly(log)
    ensures PassedInOrder(log, Highest(log))
  {
    forall k: nat | k < Highest(log) ensures StepPassed(log, k) {
      var j := PassedBelowHighest(log, k);
    }
    forall i: nat, j: nat, k: nat, l: nat | PassedAt(log, i, k) && PassedAt(log, j, l) ensures i < j <==> k < l {
      if i < j { PassesAscend(log, i, j, k, l); } else if j < i { PassesAscend(log, j, i, l, k); }
    }
  }

  /** And conversely: the first `n` steps have passed exactly when the highest checkpoint
      has reached `n`. */
  lemma {:induction false} PassedExactlyBelow<I, R>(log: seq<Effect<I, R>>, n: nat)
    requires Orderly(log)
    ensures PassedInOrder(log, n) <==> n <= Highest(log)
  {
    CheckpointsWerePassed(log);
    if n > Highest(log) && StepPassed(log, n - 1) {
      var j: nat :| PassedAt(log, j, n - 1);
      HighestCovers(log, j + 1);
    }
  }

  /** No more steps passed than the highest checkpoint shows, even if one more row is
      stored without a call. */
  lemma {:induction false} NoPassAboveHighest<I, R>(log: seq<Effect<I, R>>, rank: nat, row: R, n: nat)
    requires Orderly(log) && Highest(log) < n
    ensures !PassedInOrder(log, n + 1) && !PassedInOrder(log + [Stored(rank, row)], n + 1)
  {
    var all := log + [Stored(rank, row)];
    forall j: nat ensures !PassedAt(log, j, n) && !PassedAt(all, j, n) {
      if j < |log| && log[j].Called? {
        assert InPlace(log[..j], log[j]);
        HighestGrows(log, j);
      }
    }
    assert !StepPassed(log, n) && !StepPassed(all, n);
  }

  lemma LengthIsHighest<I, R>(log: seq<Effect<I, R>>)
    requires Clean(log)
    ensures |Checkpointed(log)| == Highest(log)
  {
  }

  lemma OneMore<I, R>(log: seq<Effect<I, R>>, rank: nat, row: R)
    ensures |Checkpointed(log + [Stored(rank, row)])| <= |Checkpointed(log)| + 1
  {
    assert (log + [Stored(rank, row)])[..|log|] == log;
  }
}
