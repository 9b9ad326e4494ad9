/** What any sequence of serialized runs of one deployment guarantees. */
module WorkflowTheorems {
  import opened Wrappers
  import opened Checkpoints
  import opened WorkflowEngine

  // ---- histories ----

  /** What happens to a deployment: the worker resumes it, or recovery freezes it. */
  datatype Turn = Resume(w: World) | Freeze(message: string)

  predicate Terminal(row: Deployment) {
    row.state.Ready? || row.state.Failed?
  }

  /** Recovery freezes deployments of the create and the provision step. */
  predicate Freezable(row: Deployment) {
    !Terminal(row) && (row.step.Create? || row.step.Provision?)
  }

  function Frozen(row: Deployment, message: string): Deployment {
    row.(state := Failed, step := Done, lastError := message)
  }

  function Take(disk: Disk, turn: Turn): Disk {
    match turn
    case Resume(w) => if Terminal(disk.row) then disk else RunOnce(disk, w).disk
    case Freeze(message) => if Freezable(disk.row) then disk.(row := Frozen(disk.row, message)) else disk
  }

  const PLANNED: Disk := Disk(Deployment("", "", Planned, Create, 0, ""), [])

  function After(turns: seq<Turn>): Disk
    decreases |turns|
  {
    if turns == [] then PLANNED else Take(After(turns[..|turns| - 1]), turns[|turns| - 1])
  }

  // ---- the invariant ----

  ghost predicate Sound(disk: Disk) {
    && Clean(disk.log)
    && Calls(disk.log) <= disk.row.attempt
    && (!disk.row.state.Failed? ==> Highest(disk.log) == Rank(disk.row.step))
    && (disk.row.state.Failed? ==> disk.row.step.Done? && (Highest(disk.log) == 0 || Highest(disk.log) == 2))
    && (disk.row.state.Ready? ==> Highest(disk.log) == 7)
  }

  /** A row as the engine holds it in memory: stored, and past the steps before `k`. */
  ghost predicate Loaded(disk: Disk, d: Deployment, k: nat) {
    Sound(disk) && disk.row == d && !Terminal(d) && k <= Rank(d.step)
  }

  lemma Ranks(k: nat)
    requires k < |STEPS|
    ensures Rank(STEPS[k].0) == k && Rank(NextStep(STEPS[k].0)) == k + 1
    ensures !STEPS[k].1.Ready? && !STEPS[k].1.Failed?
  {
  }

  lemma RoundSound(disk: Disk, d: Deployment, k: nat, r: Round)
    requires k < |STEPS| && Loaded(disk, d, k) && Rank(d.step) == k
    ensures var o := OneRound(disk, d, k, r);
      Sound(o.disk) && !Terminal(o.disk.row) && k <= Rank(o.disk.row.step) && (o.err.None? ==> Loaded(o.disk, o.d, k + 1))
  {
    Ranks(k);
    var e := Begun(d, k);
    if !r.begin.Refused? {
      CleanSnoc(disk.log, Stored(Rank(e.step), e));
      if r.begin.Acked? { CallSound(Put(disk, e, r.begin), e, k, r.call, r.end); }
    }
  }

  lemma CallSound(disk: Disk, d: Deployment, k: nat, call: Answer, end: StoreReply)
    requires k < |STEPS| && Loaded(disk, d, k) && Rank(d.step) == k && Calls(disk.log) < d.attempt && d.step == STEPS[k].0
    ensures var o := AfterCall(disk, d, k, call, end);
      Sound(o.disk) && !Terminal(o.disk.row) && k <= Rank(o.disk.row.step) && (o.err.None? ==> Loaded(o.disk, o.d, k + 1))
  {
    NoteSound(disk, d, k, call);
    var noted := Note(disk, d, call);
    match call
    case Killed =>
    case Errored(message, droplet, provider) =>
      var e := d.(droplet := droplet, provider := provider, lastError := message);
      if !end.Refused? { SameRankSound(noted, e); }
    case Passed(droplet, provider) =>
      var e := d.(droplet := droplet, provider := provider, step := NextStep(STEPS[k].0));
      if !end.Refused? { NextRankSound(noted, e, k); }
  }

  lemma NoteSound(disk: Disk, d: Deployment, k: nat, call: Answer)
    requires k < |STEPS| && Sound(disk) && disk.row == d && !Terminal(d) && Rank(d.step) == k && Calls(disk.log) < d.attempt
    ensures Sound(Note(disk, d, call)) && Note(disk, d, call).row == d
    ensures Note(disk, d, call).log[|disk.log|] == Called(k, call.Passed?, Asked(d, call))
  {
    CleanSnoc(disk.log, Called(k, call.Passed?, Asked(d, call)));
  }

  lemma SameRankSound(disk: Disk, e: Deployment)
    requires Sound(disk) && !Terminal(disk.row) && !Terminal(e)
    requires e.step == disk.row.step && e.attempt == disk.row.attempt
    ensures Sound(Disk(e, disk.log + [Stored(Rank(e.step), e)]))
  {
    CleanSnoc(disk.log, Stored(Rank(e.step), e));
  }

  lemma NextRankSound(disk: Disk, e: Deployment, k: nat)
    requires Sound(disk) && !Terminal(disk.row) && !Terminal(e) && k < |STEPS|
    requires disk.row.step == STEPS[k].0 && e.step == NextStep(STEPS[k].0) && e.attempt == disk.row.attempt
    requires disk.log != [] && disk.log[|disk.log| - 1].Called? && disk.log[|disk.log| - 1].ok && disk.log[|disk.log| - 1].step == k
    ensures Sound(Disk(e, disk.log + [Stored(Rank(e.step), e)])) && Rank(e.step) == k + 1
  {
    Ranks(k);
    CleanSnoc(disk.log, Stored(Rank(e.step), e));
  }

  lemma FinishSound(disk: Disk, d: Deployment, last: StoreReply)
    requires Loaded(disk, d, |STEPS|)
    ensures Sound(Finish(disk, d, last).disk) && !Finish(disk, d, last).disk.row.state.Failed?
    ensures Rank(d.step) <= Rank(Finish(disk, d, last).disk.row.step)
  {
    if !last.Refused? { DoneSound(disk, d, Finish(disk, d, last).d); }
  }

  lemma DoneSound(disk: Disk, d: Deployment, e: Deployment)
    requires Sound(disk) && disk.row == d && !Terminal(d) && e.step == d.step && e.step.Done?
    requires e.state.Ready? && e.attempt == d.attempt
    ensures Sound(Disk(e, disk.log + [Stored(Rank(e.step), e)]))
  {
    CleanSnoc(disk.log, Stored(Rank(e.step), e));
  }

  lemma {:induction false} RestSound(disk: Disk, d: Deployment, k: nat, w: World)
    requires k <= |STEPS| && Loaded(disk, d, k)
    ensures Sound(Rest(disk, d, k, w).disk) && !Rest(disk, d, k, w).disk.row.state.Failed?
    ensures Rank(d.step) <= Rank(Rest(disk, d, k, w).disk.row.step)
    decreases |STEPS| - k
  {
    if k == |STEPS| {
      FinishSound(disk, d, w.last);
    } else if IsDone(d.step, STEPS[k].0) {
      RestSound(disk, d, k + 1, w);
    } else {
      RoundSound(disk, d, k, w.rounds(k));
      var o := OneRound(disk, d, k, w.rounds(k));
      if o.err.None? { RestSound(o.disk, o.d, k + 1, w); }
    }
  }

  lemma TakeSound(disk: Disk, turn: Turn)
    requires Sound(disk)
    ensures Sound(Take(disk, turn)) && Rank(disk.row.step) <= Rank(Take(disk, turn).row.step)
  {
    match turn
    case Resume(w) => if !Terminal(disk.row) && w.reserved { RestSound(disk, disk.row, 0, w); }
    case Freeze(_) =>
  }

  lemma {:induction false} AfterSound(turns: seq<Turn>)
    ensures Sound(After(turns))
    decreases |turns|
  {
    if turns != [] {
      AfterSound(turns[..|turns| - 1]);
      TakeSound(After(turns[..|turns| - 1]), turns[|turns| - 1]);
    } else {
      assert Upto(0) == [];
    }
  }

  // ---- the theorems ----

  /** The checkpoint of a row never moves back. */
  lemma {:induction false} CheckpointNeverDecreases(turns: seq<Turn>, n: nat)
    requires n <= |turns|
    ensures Rank(After(turns[..n]).row.step) <= Rank(After(turns).row.step)
    decreases |turns|
  {
    var init := if turns == [] then [] else turns[..|turns| - 1];
    if n == |turns| {
      assert turns[..n] == turns;
    } else {
      CheckpointNeverDecreases(init, n);
      assert init[..n] == turns[..n];
      AfterSound(init);
      TakeSound(After(init), turns[|turns| - 1]);
    }
  }

  /** Resume refines one clean run: whatever failed, crashed or was repeated, the steps
      that were checkpointed are create, wait_resource, ... in order without a gap, up to
      the stored checkpoint, or up to create or provision if recovery froze the row. */
  lemma {:induction false} ResumeRefinesACleanRun(turns: seq<Turn>)
    ensures var disk := After(turns);
      Checkpointed(disk.log) ==
        if !disk.row.state.Failed? then Upto(Rank(disk.row.step))
        else if Highest(disk.log) == 0 then [] else [0, 1]
    ensures PassedInOrder(After(turns).log, |Checkpointed(After(turns).log)|)
  {
    AfterSound(turns);
    CheckpointsWerePassed(After(turns).log);
    assert Upto(0) == [] && Upto(2) == [0, 1];
  }

  /** Once a checkpoint beyond a step is stored, that step is never called again. */
  lemma {:induction false} NoStepAfterItsCheckpoint(turns: seq<Turn>, i: nat, j: nat)
    requires i < j < |After(turns).log|
    requires After(turns).log[i].Stored? && After(turns).log[j].Called?
    ensures After(turns).log[i].rank <= After(turns).log[j].step
  {
    AfterSound(turns);
    NoCallBehindACheckpoint(After(turns).log, i, j);
  }

  lemma Seven()
    ensures Upto(7) == [0, 1, 2, 3, 4, 5, 6]
  {
  }

  /** A row is READY only when all seven steps have passed, in order; from then on every
      run changes nothing and calls nothing. */
  lemma {:induction false} ReadyAfterAllSeven(turns: seq<Turn>, w: World)
    requires After(turns).row.state.Ready?
    ensures PassedInOrder(After(turns).log, 7)
    ensures Checkpointed(After(turns).log) == [0, 1, 2, 3, 4, 5, 6]
    ensures RunOnce(After(turns), w).disk == After(turns)
  {
    AfterSound(turns);
    CheckpointsWerePassed(After(turns).log);
    Seven();
  }

  /** Every call of a step function was paid for with a stored attempt. */
  lemma {:induction false} AttemptsCoverCalls(turns: seq<Turn>)
    ensures Calls(After(turns).log) <= After(turns).row.attempt
  {
    AfterSound(turns);
  }

  // ---- frozen rows ----

  /** The engine itself short-circuits on READY only. Run on any row that a history can
      leave behind, it may end READY; that READY is honest exactly when the row was not
      frozen, which is what the worker's query checks before it runs the engine. */
  lemma {:induction false} ReadyIsHonestExactlyWhenNotFrozen(turns: seq<Turn>, w: World)
    requires RunOnce(After(turns), w).disk.row.state.Ready?
    ensures PassedInOrder(RunOnce(After(turns), w).disk.log, 7) <==> !After(turns).row.state.Failed?
    ensures Checkpointed(RunOnce(After(turns), w).disk.log) == [0, 1, 2, 3, 4, 5, 6] <==> !After(turns).row.state.Failed?
  {
    AfterSound(turns);
    ReadyIsHonest(After(turns), w);
  }

  lemma ReadyIsHonest(disk: Disk, w: World)
    requires Sound(disk) && RunOnce(disk, w).disk.row.state.Ready?
    ensures PassedInOrder(RunOnce(disk, w).disk.log, 7) <==> !disk.row.state.Failed?
    ensures Checkpointed(RunOnce(disk, w).disk.log) == [0, 1, 2, 3, 4, 5, 6] <==> !disk.row.state.Failed?
  {
    Seven();
    if disk.row.state.Failed? {
      FrozenIsNotHonest(disk, w);
    } else {
      if !disk.row.state.Ready? { RestSound(disk, disk.row, 0, w); }
      CheckpointsWerePassed(RunOnce(disk, w).disk.log);
    }
  }

  lemma FrozenIsNotHonest(disk: Disk, w: World)
    requires Sound(disk) && disk.row.state.Failed?
    ensures !PassedInOrder(RunOnce(disk, w).disk.log, 7) && |Checkpointed(RunOnce(disk, w).disk.log)| < 7
  {
    var row := Finish(disk, disk.row, w.last).d;
    LengthIsHighest(disk.log);
    OneMore(disk.log, 7, row);
    NoPassAboveHighest(disk.log, 7, row, 6);
    FrozenRunLog(disk, w);
  }

  lemma FrozenRunLog(disk: Disk, w: World)
    requires disk.row.state.Failed? && disk.row.step.Done?
    ensures RunOnce(disk, w).disk.log == disk.log
         || RunOnce(disk, w).disk.log == disk.log + [Stored(7, Finish(disk, disk.row, w.last).d)]
  {
    SkipAll(disk, disk.row, 0, w);
  }

  lemma {:induction false} SkipAll(disk: Disk, d: Deployment, k: nat, w: World)
    requires k <= |STEPS| && d.step.Done?
    ensures Rest(disk, d, k, w) == Finish(disk, d, w.last)
    decreases |STEPS| - k
  {
    if k < |STEPS| {
      Ranks(k);
      SkipAll(disk, d, k + 1, w);
    }
  }

  /** A world in which the store works and every step function dies. */
  function Deadly(): World {
    World(true, _ => Round(Acked, Killed, Acked), Acked)
  }

  /** A world in which the step function of the first step answers with an error. */
  function Rejecting(message: string): World {
    World(true, _ => Round(Acked, Errored(message, "", ""), Acked), Acked)
  }

  /** The concrete history that shows it: the create step fails, recovery freezes the row,
      then the engine is run by hand, and the row is READY although nothing more was called. */
  lemma FrozenRowCanTurnReady(message: string)
    ensures var disk := After([Resume(Rejecting(message)), Freeze(message)]);
      && Calls(disk.log) == 1 && disk.row.state.Failed?
      && RunOnce(disk, Deadly()).disk.row.state.Ready? && Calls(RunOnce(disk, Deadly()).disk.log) == 1
  {
    var turns := [Resume(Rejecting(message)), Freeze(message)];
    assert turns[..1] == [Resume(Rejecting(message))] && turns[..1][..0] == [];
    assert After(turns[..1]) == Take(PLANNED, Resume(Rejecting(message)));
    RejectedRun(message);
    var disk := After(turns);
    SkipAll(disk, disk.row, 0, Deadly());
    CallsSnoc(disk.log, Stored(7, RunOnce(disk, Deadly()).d));
  }

  lemma RejectedRun(message: string)
    ensures var disk := Take(PLANNED, Resume(Rejecting(message)));
      Calls(disk.log) == 1 && disk.row.step.Create? && !Terminal(disk.row)
  {
    var d := PLANNED.row;
    var e := Begun(d, 0);
    var d1 := Put(PLANNED, e, Acked);
    var call := Errored(message, "", "");
    var d2 := Note(d1, e, call);
    CallsSnoc([], Stored(0, e));
    CallsSnoc(d1.log, Called(0, false, Asked(e, call)));
    CallsSnoc(d2.log, Stored(0, OneRound(PLANNED, d, 0, Rejecting(message).rounds(0)).d));
    assert d1.log == [] + [Stored(0, e)];
  }

  lemma CallsSnoc(log: Log, e: Effect<Asked, Deployment>)
    ensures Calls(log + [e]) == Calls(log) + if e.Called? then 1 else 0
  {
    assert (log + [e])[..|log|] == log;
  }
}
