/** What any sequence of serialized provisioning executions of one droplet guarantees. */
module ProvisioningTheorems {
  import opened Wrappers
  import opened Checkpoints
  import opened ProvisioningEngine

  datatype Job = Job(plan: Plan, w: World)

  const NOTHING: Disk := Disk(None, [], 0)

  function After(jobs: seq<Job>): Disk
    decreases |jobs|
  {
    if jobs == [] then NOTHING
    else ExecuteOnce(After(jobs[..|jobs| - 1]), jobs[|jobs| - 1].plan, jobs[|jobs| - 1].w).disk
  }

  /** Where an execution that reads this disk would resume. */
  function Resumes(disk: Disk): nat {
    if disk.row.Some? then Rank(disk.row.value.step) else 0
  }

  // ---- the invariant ----

  predicate IsFailure<I>(e: Effect<I, Write>) {
    e.Stored? && e.row.failure.Some?
  }

  /** The time before which no SSH action may follow a recorded failure. */
  function Due<I>(e: Effect<I, Write>): nat
    requires IsFailure(e)
  {
    e.row.failure.value + Backoff(e.row.run.attempt)
  }

  ghost predicate DueBy(log: Log, time: nat) {
    forall i :: 0 <= i < |log| && IsFailure(log[i]) ==> Due(log[i]) <= time
  }

  /** Every SSH action comes after the backoff of every failure recorded before it. */
  ghost predicate Patient(log: Log) {
    forall j :: 0 <= j < |log| && log[j].Called? ==> DueBy(log[..j], log[j].input.at)
  }

  /** Unless all backoffs are over, the row still says when they are. */
  ghost predicate Remembers(disk: Disk) {
    DueBy(disk.log, disk.clock)
    || (disk.row.Some? && disk.row.value.nextRetry.Some? && DueBy(disk.log, disk.row.value.nextRetry.value))
  }

  ghost predicate RowOk(log: Log, run: Run) {
    && Highest(log) == Rank(run.step)
    && Calls(log) <= run.attempt <= 11
    && (run.state.Completed? ==> run.step.Done?)
    && (run.step.Done? ==> run.nextRetry.None?)
  }

  ghost predicate Sound(disk: Disk) {
    && Clean(disk.log) && Patient(disk.log) && Remembers(disk)
    && (if disk.row.Some? then RowOk(disk.log, disk.row.value) else disk.log == [])
  }

  /** At the head of the loop: the row is loaded and every backoff is over. */
  ghost predicate Loaded(disk: Disk, run: Run, k: nat) {
    && Sound(disk) && disk.row == Some(run) && DueBy(disk.log, disk.clock)
    && k <= Rank(run.step) && run.attempt <= 7 + k && !run.state.Completed?
  }

  lemma DueBySnoc(log: Log, e: Effect<Action, Write>, time: nat)
    requires DueBy(log, time) && (IsFailure(e) ==> Due(e) <= time)
    ensures DueBy(log + [e], time)
  {
  }

  lemma PatientSnoc(log: Log, e: Effect<Action, Write>)
    requires Patient(log) && (e.Called? ==> DueBy(log, e.input.at))
    ensures Patient(log + [e])
  {
    var all := log + [e];
    forall j | 0 <= j < |all| && all[j].Called? ensures DueBy(all[..j], all[j].input.at) {
      assert all[..j] == log[..j];
      if j == |log| { assert log[..j] == log; }
    }
  }

  lemma Ranks(k: nat)
    requires k < |STEPS|
    ensures Rank(STEPS[k].0) == k && Rank(ProvisionNext(STEPS[k].0)) == k + 1
    ensures !STEPS[k].1.Completed?
  {
  }

  /** Storing a row without a failure, while no backoff is pending or forgotten. */
  lemma PutSound(disk: Disk, run: Run, reply: StoreReply)
    requires Sound(disk) && InPlace(disk.log, Stored(Rank(run.step), Write(run, None)))
    requires Calls(disk.log) <= run.attempt <= 11
    requires (run.state.Completed? ==> run.step.Done?) && (run.step.Done? ==> run.nextRetry.None?)
    requires DueBy(disk.log, disk.clock) || (disk.row.Some? && run.nextRetry == disk.row.value.nextRetry)
    ensures Sound(Put(disk, run, None, reply))
    ensures DueBy(disk.log, disk.clock) ==> DueBy(Put(disk, run, None, reply).log, disk.clock)
  {
    if !reply.Refused? {
      var e := Stored(Rank(run.step), Write(run, None));
      CleanSnoc(disk.log, e);
      PatientSnoc(disk.log, e);
      PutRemembers(disk, run, reply);
    }
  }

  lemma PutRemembers(disk: Disk, run: Run, reply: StoreReply)
    requires Remembers(disk)
    requires DueBy(disk.log, disk.clock) || (disk.row.Some? && run.nextRetry == disk.row.value.nextRetry)
    ensures Remembers(Put(disk, run, None, reply))
    ensures DueBy(disk.log, disk.clock) ==> DueBy(Put(disk, run, None, reply).log, disk.clock)
  {
    var e := Stored(Rank(run.step), Write(run, None));
    if DueBy(disk.log, disk.clock) {
      DueBySnoc(disk.log, e, disk.clock);
    } else {
      DueBySnoc(disk.log, e, run.nextRetry.value);
    }
  }

  lemma WaitSound(disk: Disk, d: nat)
    requires Sound(disk)
    ensures Sound(Wait(disk, d)) && (DueBy(disk.log, disk.clock) ==> DueBy(disk.log, disk.clock + d))
  {
  }

  lemma ActSound(disk: Disk, run: Run, command: string, answer: Answer)
    requires Sound(disk) && disk.row == Some(run) && DueBy(disk.log, disk.clock) && Calls(disk.log) < run.attempt
    ensures Sound(Act(disk, run, command, answer)) && DueBy(Act(disk, run, command, answer).log, disk.clock)
  {
    var e := Called(Rank(run.step), answer.Passed?, Action(disk.clock, run, command, answer));
    CleanSnoc(disk.log, e);
    PatientSnoc(disk.log, e);
    DueBySnoc(disk.log, e, disk.clock);
  }

  /** The disk after a failure that happened just now is stored. */
  function Record(disk: Disk, e: Run): Disk {
    disk.(row := Some(e), log := disk.log + [Stored(Rank(e.step), Write(e, Some(disk.clock)))])
  }

  lemma FailureSound(disk: Disk, run: Run, r: Round, message: string)
    requires Sound(disk) && disk.row == Some(run) && DueBy(disk.log, disk.clock)
    requires !run.step.Done? && !run.state.Completed?
    ensures Sound(AfterFailure(disk, run, r, message).disk)
    ensures Resumes(AfterFailure(disk, run, r, message).disk) == Resumes(disk)
  {
    WaitSound(disk, r.took);
    FailureShape(disk, run, r, message);
    if !r.end.Refused? { RecordSound(Wait(disk, r.took), run, AfterFailure(disk, run, r, message).run); }
  }

  lemma FailureShape(disk: Disk, run: Run, r: Round, message: string)
    requires !run.state.Completed?
    ensures var o := AfterFailure(disk, run, r, message);
      && o.disk == (if r.end.Refused? then Wait(disk, r.took) else Record(Wait(disk, r.took), o.run))
      && o.run.step == run.step && o.run.attempt == run.attempt && !o.run.state.Completed?
      && o.run.nextRetry == Some(disk.clock + r.took + Backoff(o.run.attempt))
  {
  }

  lemma RecordSound(disk: Disk, run: Run, e: Run)
    requires Sound(disk) && disk.row == Some(run) && DueBy(disk.log, disk.clock)
    requires !e.step.Done? && !e.state.Completed? && e.step == run.step && e.attempt == run.attempt
    requires e.nextRetry == Some(disk.clock + Backoff(e.attempt))
    ensures Sound(Record(disk, e)) && Resumes(Record(disk, e)) == Resumes(disk)
  {
    var w := Stored(Rank(e.step), Write(e, Some(disk.clock)));
    CleanSnoc(disk.log, w);
    PatientSnoc(disk.log, w);
    DueBySnoc(disk.log, w, e.nextRetry.value);
  }

  lemma CallSound(disk: Disk, run: Run, k: nat, r: Round, command: string)
    requires k < |STEPS| && Sound(disk) && disk.row == Some(run) && DueBy(disk.log, disk.clock)
    requires run.step == STEPS[k].0 && !run.state.Completed? && Calls(disk.log) < run.attempt
    ensures var o := AfterCall(disk, run, r, command);
      Sound(o.disk) && k <= Resumes(o.disk) && (o.err.None? ==> o.disk.row == Some(o.run) && DueBy(o.disk.log, o.disk.clock))
    ensures var o := AfterCall(disk, run, r, command);
      o.err.None? ==> Rank(o.run.step) == k + 1 && o.run.attempt == run.attempt && o.run.state == run.state
  {
    Ranks(k);
    ActSound(disk, run, command, r.call);
    var acted := Act(disk, run, command, r.call);
    match r.call
    case Killed =>
    case Errored(message) => FailureSound(acted, run, r, message);
    case Interrupted(message) => FailureSound(acted, run, r, message);
    case Passed => PassSound(acted, run, k, r);
  }

  /** The checkpoint after an action of step `k` that passed. */
  lemma PassSound(acted: Disk, run: Run, k: nat, r: Round)
    requires k < |STEPS| && Sound(acted) && acted.row == Some(run) && DueBy(acted.log, acted.clock)
    requires run.step == STEPS[k].0 && !run.state.Completed?
    requires acted.log != [] && acted.log[|acted.log| - 1].Called? && acted.log[|acted.log| - 1].ok
    requires acted.log[|acted.log| - 1].step == k
    ensures var e := run.(step := ProvisionNext(run.step), lastError := "", nextRetry := None);
      var after := Put(Wait(acted, r.took), e, None, r.end);
      Sound(after) && k <= Resumes(after) && DueBy(after.log, after.clock)
  {
    Ranks(k);
    WaitSound(acted, r.took);
    PutSound(Wait(acted, r.took), run.(step := ProvisionNext(run.step), lastError := "", nextRetry := None), r.end);
  }

  lemma RoundSound(disk: Disk, run: Run, k: nat, r: Round, plan: Plan)
    requires k < |STEPS| && Loaded(disk, run, k) && Rank(run.step) == k
    ensures var o := OneRound(disk, run, k, r, plan);
      Sound(o.disk) && k <= Resumes(o.disk) && (o.err.None? ==> Loaded(o.disk, o.run, k + 1))
  {
    Ranks(k);
    var e := Begun(run, k);
    PutSound(disk, e, r.begin);
    if r.begin.Acked? {
      var stored := Put(disk, e, None, r.begin);
      CleanSnoc(disk.log, Stored(k, Write(e, None)));
      WaitSound(stored, r.wait);
      AckedRoundSound(Wait(stored, r.wait), e, k, r, CommandOf(plan, k));
    }
  }

  lemma AckedRoundSound(disk: Disk, run: Run, k: nat, r: Round, command: string)
    requires k < |STEPS| && Sound(disk) && disk.row == Some(run) && DueBy(disk.log, disk.clock)
    requires run.step == STEPS[k].0 && run.state == STEPS[k].1 && Calls(disk.log) < run.attempt <= 8 + k
    ensures var o := AfterCall(disk, run, r, command);
      Sound(o.disk) && k <= Resumes(o.disk) && (o.err.None? ==> Loaded(o.disk, o.run, k + 1))
  {
    Ranks(k);
    CallSound(disk, run, k, r, command);
  }

  lemma FinishSound(disk: Disk, run: Run, last: StoreReply)
    requires Loaded(disk, run, |STEPS|)
    ensures Sound(Finish(disk, run, last).disk) && Resumes(Finish(disk, run, last).disk) == 4
  {
    PutSound(disk, Finish(disk, run, last).run, last);
  }

  lemma {:induction false} RestSound(disk: Disk, run: Run, k: nat, w: World, plan: Plan)
    requires k <= |STEPS| && Loaded(disk, run, k)
    ensures Sound(Rest(disk, run, k, w, plan).disk) && Resumes(disk) <= Resumes(Rest(disk, run, k, w, plan).disk)
    decreases |STEPS| - k
  {
    if k == |STEPS| {
      FinishSound(disk, run, w.last);
    } else if IsCompleted(run.step, STEPS[k].0) {
      Ranks(k);
      RestSound(disk, run, k + 1, w, plan);
    } else {
      Ranks(k);
      RoundSound(disk, run, k, w.rounds(k), plan);
      var o := OneRound(disk, run, k, w.rounds(k), plan);
      if o.err.None? { RestSound(o.disk, o.run, k + 1, w, plan); }
    }
  }

  lemma BeginSound(disk: Disk, run: Run, isNew: bool, w: World, plan: Plan)
    requires Sound(disk) && disk.row == Some(run) && (isNew ==> run == FRESH && DueBy(disk.log, disk.clock))
    ensures Sound(Begin(disk, run, isNew, w, plan).disk) && Resumes(disk) <= Resumes(Begin(disk, run, isNew, w, plan).disk)
  {
    if isNew {
      if w.secret { RestSound(disk, run, 0, w, plan); }
    } else if !run.state.Completed? && !(run.nextRetry.Some? && disk.clock < run.nextRetry.value) {
      if run.attempt >= MAX_ATTEMPTS {
        PutSound(disk, GivenUp(run), w.giveUp);
      } else if w.secret {
        RestSound(disk, run, 0, w, plan);
      }
    }
  }

  lemma ExecuteSound(disk: Disk, plan: Plan, w: World)
    requires Sound(disk)
    ensures Sound(ExecuteOnce(disk, plan, w).disk) && Resumes(disk) <= Resumes(ExecuteOnce(disk, plan, w).disk)
  {
    WaitSound(disk, w.wait);
    var d := Wait(disk, w.wait);
    if ValidPlan(plan) && d.row.Some? && w.selected {
      BeginSound(d, d.row.value, false, w, plan);
    } else if ValidPlan(plan) && d.row.None? {
      PutSound(d, FRESH, w.reserve);
      if w.reserve.Acked? { BeginSound(Put(d, FRESH, None, Acked), FRESH, true, w, plan); }
    }
  }

  lemma {:induction false} AfterSound(jobs: seq<Job>)
    ensures Sound(After(jobs))
    decreases |jobs|
  {
    if jobs == [] {
      assert Upto(0) == [];
    } else {
      AfterSound(jobs[..|jobs| - 1]);
      ExecuteSound(After(jobs[..|jobs| - 1]), jobs[|jobs| - 1].plan, jobs[|jobs| - 1].w);
    }
  }

  // ---- the theorems ----

  /** Bounded work: SSH actions never outnumber the stored attempts, and those never
      exceed eleven, over all executions and crashes. */
  lemma {:induction false} BoundedWork(jobs: seq<Job>)
    ensures Calls(After(jobs).log) <= 11
    ensures After(jobs).row.Some? ==> Calls(After(jobs).log) <= After(jobs).row.value.attempt <= 11
  {
    AfterSound(jobs);
  }

  /** COMPLETED means that ssh, bootstrap, panel and verify passed, in that order; and at
      any time the checkpointed steps are those before the stored one. */
  lemma {:induction false} CompletedAfterAllFour(jobs: seq<Job>)
    requires After(jobs).row.Some?
    ensures Checkpointed(After(jobs).log) == Upto(Rank(After(jobs).row.value.step))
    ensures PassedInOrder(After(jobs).log, Rank(After(jobs).row.value.step))
    ensures After(jobs).row.value.state.Completed? ==>
              PassedInOrder(After(jobs).log, 4) && Checkpointed(After(jobs).log) == [0, 1, 2, 3]
  {
    AfterSound(jobs);
    CheckpointsWerePassed(After(jobs).log);
    assert Upto(4) == [0, 1, 2, 3];
  }

  /** After a failure recorded at attempt n and time t, no SSH action is issued before
      t + 2^min(n, 6) minutes, by whatever execution. */
  lemma {:induction false} BackoffIsRespected(jobs: seq<Job>, i: nat, j: nat)
    requires i < j < |After(jobs).log| && After(jobs).log[j].Called? && IsFailure(After(jobs).log[i])
    ensures After(jobs).log[j].input.at >=
              After(jobs).log[i].row.failure.value + PowerOfTwo(Min(After(jobs).log[i].row.run.attempt, 6)) * MINUTE
  {
    AfterSound(jobs);
    var log := After(jobs).log;
    assert DueBy(log[..j], log[j].input.at);
    assert log[..j][i] == log[i];
  }

  /** The stored step never moves back, and a step is not repeated behind its checkpoint. */
  lemma {:induction false} StepNeverMovesBack(jobs: seq<Job>, n: nat)
    requires n <= |jobs|
    ensures Resumes(After(jobs[..n])) <= Resumes(After(jobs))
    ensures forall i, j :: 0 <= i < j < |After(jobs).log| && After(jobs).log[i].Stored? && After(jobs).log[j].Called? ==>
              After(jobs).log[i].rank <= After(jobs).log[j].step
    decreases |jobs|
  {
    AfterSound(jobs);
    forall i, j | 0 <= i < j < |After(jobs).log| && After(jobs).log[i].Stored? && After(jobs).log[j].Called?
      ensures After(jobs).log[i].rank <= After(jobs).log[j].step
    {
      NoCallBehindACheckpoint(After(jobs).log, i, j);
    }
    if n == |jobs| {
      assert jobs[..n] == jobs;
    } else {
      var init := jobs[..|jobs| - 1];
      StepNeverMovesBack(init, n);
      assert init[..n] == jobs[..n];
      AfterSound(init);
      ExecuteSound(After(init), jobs[|jobs| - 1].plan, jobs[|jobs| - 1].w);
    }
  }

  // ---- the attempt cap ----

  ghost predicate Exhausted(disk: Disk) {
    disk.row.Some? && !disk.row.value.state.Completed? && disk.row.value.attempt >= MAX_ATTEMPTS
  }

  /** A row at the cap that is not COMPLETED stays so for ever, whatever steps have passed,
      and no further SSH action is issued. */
  lemma {:induction false} ExhaustedForEver(jobs: seq<Job>, n: nat)
    requires n <= |jobs| && Exhausted(After(jobs[..n]))
    ensures Exhausted(After(jobs)) && Calls(After(jobs).log) == Calls(After(jobs[..n]).log)
    decreases |jobs|
  {
    if n == |jobs| {
      assert jobs[..n] == jobs;
    } else {
      var init := jobs[..|jobs| - 1];
      assert init[..n] == jobs[..n];
      ExhaustedForEver(init, n);
      StillExhausted(After(init), jobs[|jobs| - 1].plan, jobs[|jobs| - 1].w);
    }
  }

  lemma StillExhausted(disk: Disk, plan: Plan, w: World)
    requires Exhausted(disk)
    ensures Exhausted(ExecuteOnce(disk, plan, w).disk) && Calls(ExecuteOnce(disk, plan, w).disk.log) == Calls(disk.log)
  {
    var log' := ExecuteOnce(disk, plan, w).disk.log;
    var run := GivenUp(disk.row.value);
    assert log' == disk.log || log' == disk.log + [Stored(Rank(run.step), Write(run, None))];
    if log' != disk.log { assert log'[..|log'| - 1] == disk.log; }
  }

  /** When all four steps have passed but the last write was lost, the next undisturbed
      execution completes the row exactly when the attempts stayed below the cap. */
  lemma {:induction false} FinishedWorkCompletesExactlyBelowTheCap(jobs: seq<Job>, plan: Plan, w: World)
    requires After(jobs).row.Some? && !After(jobs).row.value.state.Completed? && After(jobs).row.value.step.Done?
    requires ValidPlan(plan) && w.selected && w.secret && w.last.Acked?
    ensures PassedInOrder(After(jobs).log, 4) && Checkpointed(After(jobs).log) == [0, 1, 2, 3]
    ensures var after := ExecuteOnce(After(jobs), plan, w).disk.row;
      after.Some? && (after.value.state.Completed? <==> After(jobs).row.value.attempt < MAX_ATTEMPTS)
  {
    AfterSound(jobs);
    FourSteps(After(jobs).log);
    CompletesBelowTheCap(After(jobs), plan, w);
  }

  lemma FourSteps(log: Log)
    requires Clean(log) && Highest(log) == 4
    ensures PassedInOrder(log, 4) && Checkpointed(log) == [0, 1, 2, 3]
  {
    CheckpointsWerePassed(log);
  }

  lemma CompletesBelowTheCap(disk: Disk, plan: Plan, w: World)
    requires disk.row.Some? && !disk.row.value.state.Completed? && RowOk(disk.log, disk.row.value)
    requires disk.row.value.step.Done? && ValidPlan(plan) && w.selected && w.secret && w.last.Acked?
    ensures var after := ExecuteOnce(disk, plan, w).disk.row;
      after.Some? && (after.value.state.Completed? <==> disk.row.value.attempt < MAX_ATTEMPTS)
  {
    SkipAll(Wait(disk, w.wait), disk.row.value, 0, w, plan);
  }

  lemma {:induction false} SkipAll(disk: Disk, run: Run, k: nat, w: World, plan: Plan)
    requires k <= |STEPS| && run.step.Done?
    ensures Rest(disk, run, k, w, plan) == Finish(disk, run, w.last)
    decreases |STEPS| - k
  {
    if k < |STEPS| { SkipAll(disk, run, k + 1, w, plan); }
  }

  // ---- the provision freeze ----

  /** The worker freezes a deployment at provision when its run FAILED or used up its attempts. */
  predicate FreezeGuard(disk: Disk) {
    disk.row.Some? && (disk.row.value.state.Failed? || disk.row.value.attempt >= MAX_ATTEMPTS)
  }

  /** When the freeze strikes, a step is still missing exactly when the stored step is not
      `done`; otherwise all four passed and the deployment is frozen all the same. */
  lemma {:induction false} ProvisionFreezeIsExact(jobs: seq<Job>)
    requires FreezeGuard(After(jobs))
    ensures !PassedInOrder(After(jobs).log, 4) <==> !After(jobs).row.value.step.Done?
  {
    AfterSound(jobs);
    PassedExactlyBelow(After(jobs).log, 4);
  }

  /** One visit of the worker: it executes unless the guard holds. `read` says whether its
      query of the run row succeeded; without an answer it executes as well. */
  datatype Visit = Visit(read: bool, job: Job)

  function Serve(disk: Disk, v: Visit): Disk {
    if v.read && FreezeGuard(disk) then disk else ExecuteOnce(disk, v.job.plan, v.job.w).disk
  }

  function Served(vs: seq<Visit>): Disk
    decreases |vs|
  {
    if vs == [] then NOTHING else Serve(Served(vs[..|vs| - 1]), vs[|vs| - 1])
  }

  predicate StoresFailed(e: Effect<Action, Write>) {
    e.Stored? && e.row.run.state.Failed?
  }

  ghost predicate NeverFailed(log: Log) {
    forall i :: 0 <= i < |log| ==> !StoresFailed(log[i])
  }

  /** No SSH action comes after a stored FAILED. */
  ghost predicate FailedIsFinal(log: Log) {
    forall i, j :: 0 <= i < j < |log| && StoresFailed(log[i]) ==> !log[j].Called?
  }

  ghost predicate Settled(disk: Disk) {
    && FailedIsFinal(disk.log)
    && ((disk.row.Some? && disk.row.value.state.Failed?) || NeverFailed(disk.log))
  }

  /** The worker visits a run that FAILED only when it could not read that. */
  ghost predicate Informed(vs: seq<Visit>) {
    forall n :: 0 <= n < |vs| && !vs[n].read ==> !FreezeGuard(Served(vs[..n]))
  }

  /** Under the worker, whose queries of a failed run succeed, a stored FAILED is final: no
      SSH action follows it, whatever the executions before it did. */
  lemma {:induction false} FailedRunsAreNotRetried(vs: seq<Visit>)
    requires Informed(vs)
    ensures FailedIsFinal(Served(vs).log) && Settled(Served(vs))
    decreases |vs|
  {
    if vs != [] {
      var init, v := vs[..|vs| - 1], vs[|vs| - 1];
      forall n | 0 <= n < |init| && !init[n].read ensures !FreezeGuard(Served(init[..n])) {
        assert init[..n] == vs[..n];
      }
      FailedRunsAreNotRetried(init);
      assert v.read || !FreezeGuard(Served(init));
      if !FreezeGuard(Served(init)) { ExecuteSettles(Served(init), v.job.plan, v.job.w); }
    }
  }

  lemma ExecuteSettles(disk: Disk, plan: Plan, w: World)
    requires Settled(disk) && !FreezeGuard(disk)
    ensures Settled(ExecuteOnce(disk, plan, w).disk)
  {
    var d := Wait(disk, w.wait);
    if ValidPlan(plan) && d.row.Some? && w.selected {
      if !d.row.value.state.Completed? && w.secret { RestSettles(d, d.row.value, 0, w, plan); }
    } else if ValidPlan(plan) && d.row.None? {
      PutSettles(d, FRESH, None, w.reserve);
      if w.reserve.Acked? && w.secret { RestSettles(Put(d, FRESH, None, Acked), FRESH, 0, w, plan); }
    }
  }

  /** Nothing has FAILED so far and the row says so. */
  ghost predicate Clear(disk: Disk) {
    NeverFailed(disk.log) && (disk.row.Some? ==> !disk.row.value.state.Failed?)
  }

  lemma PutSettles(disk: Disk, run: Run, failure: Option<nat>, reply: StoreReply)
    requires Clear(disk)
    ensures Settled(Put(disk, run, failure, reply)) && (!run.state.Failed? ==> Clear(Put(disk, run, failure, reply)))
  {
  }

  lemma {:induction false} RestSettles(disk: Disk, run: Run, k: nat, w: World, plan: Plan)
    requires k <= |STEPS| && Clear(disk) && !run.state.Failed?
    ensures Settled(Rest(disk, run, k, w, plan).disk)
    decreases |STEPS| - k
  {
    if k == |STEPS| {
      PutSettles(disk, Finish(disk, run, w.last).run, None, w.last);
    } else if IsCompleted(run.step, STEPS[k].0) {
      RestSettles(disk, run, k + 1, w, plan);
    } else {
      RoundSettles(disk, run, k, w.rounds(k), plan);
      var o := OneRound(disk, run, k, w.rounds(k), plan);
      if o.err.None? { RestSettles(o.disk, o.run, k + 1, w, plan); }
    }
  }

  lemma RoundSettles(disk: Disk, run: Run, k: nat, r: Round, plan: Plan)
    requires k < |STEPS| && Clear(disk)
    ensures var o := OneRound(disk, run, k, r, plan);
      Settled(o.disk) && (o.err.None? ==> Clear(o.disk) && !o.run.state.Failed?)
  {
    var e := Begun(run, k);
    assert !e.state.Failed?;
    PutSettles(disk, e, None, r.begin);
    if r.begin.Acked? { CallSettles(Wait(Put(disk, e, None, r.begin), r.wait), e, r, CommandOf(plan, k)); }
  }

  lemma CallSettles(disk: Disk, run: Run, r: Round, command: string)
    requires Clear(disk) && !run.state.Failed?
    ensures var o := AfterCall(disk, run, r, command);
      Settled(o.disk) && (o.err.None? ==> Clear(o.disk) && !o.run.state.Failed?)
  {
    var acted := Act(disk, run, command, r.call);
    assert Clear(acted);
    var o := AfterCall(disk, run, r, command);
    if !r.call.Killed? {
      var failure := if r.call.Passed? then None else Some(acted.clock + r.took);
      PutSettles(Wait(acted, r.took), o.run, failure, r.end);
    }
  }

  /** A visit whose query fails does retry a run that FAILED below the attempt cap, once its
      backoff is over. */
  lemma UnreadFailureIsRetried(disk: Disk, v: Visit)
    requires !v.read && disk.row.Some? && disk.row.value.state.Failed? && disk.row.value.attempt < MAX_ATTEMPTS
    requires !disk.row.value.step.Done?
    requires disk.row.value.nextRetry.Some? ==> disk.row.value.nextRetry.value <= disk.clock + v.job.w.wait
    requires ValidPlan(v.job.plan) && v.job.w.selected && v.job.w.secret
    requires v.job.w.rounds(Rank(disk.row.value.step)).begin.Acked?
    ensures Calls(Serve(disk, v).log) > Calls(disk.log)
  {
    RestCalls(Wait(disk, v.job.w.wait), disk.row.value, 0, v.job.w, v.job.plan);
  }

  lemma {:induction false} RestCalls(disk: Disk, run: Run, k: nat, w: World, plan: Plan)
    requires k <= |STEPS|
    ensures Calls(Rest(disk, run, k, w, plan).disk.log) >= Calls(disk.log)
    ensures k <= Rank(run.step) < |STEPS| && w.rounds(Rank(run.step)).begin.Acked? ==>
              Calls(Rest(disk, run, k, w, plan).disk.log) > Calls(disk.log)
    decreases |STEPS| - k
  {
    if k == |STEPS| {
      PutCalls(disk, Finish(disk, run, w.last).run, None, w.last);
    } else if IsCompleted(run.step, STEPS[k].0) {
      Ranks(k);
      RestCalls(disk, run, k + 1, w, plan);
    } else {
      Ranks(k);
      RoundCalls(disk, run, k, w.rounds(k), plan);
      var o := OneRound(disk, run, k, w.rounds(k), plan);
      if o.err.None? { RestCalls(o.disk, o.run, k + 1, w, plan); }
    }
  }

  lemma PutCalls(disk: Disk, run: Run, failure: Option<nat>, reply: StoreReply)
    ensures Calls(Put(disk, run, failure, reply).log) == Calls(disk.log)
  {
    CallsSnoc(disk.log, Stored(Rank(run.step), Write(run, failure)));
  }

  lemma RoundCalls(disk: Disk, run: Run, k: nat, r: Round, plan: Plan)
    requires k < |STEPS|
    ensures Calls(OneRound(disk, run, k, r, plan).disk.log) == Calls(disk.log) + if r.begin.Acked? then 1 else 0
  {
    var e := Begun(run, k);
    PutCalls(disk, e, None, r.begin);
    if r.begin.Acked? { CallCalls(Wait(Put(disk, e, None, r.begin), r.wait), e, r, CommandOf(plan, k)); }
  }

  lemma CallCalls(disk: Disk, run: Run, r: Round, command: string)
    ensures Calls(AfterCall(disk, run, r, command).disk.log) == Calls(disk.log) + 1
  {
    var acted := Act(disk, run, command, r.call);
    CallsSnoc(disk.log, Called(Rank(run.step), r.call.Passed?, Action(disk.clock, run, command, r.call)));
    if !r.call.Killed? {
      PutCalls(Wait(acted, r.took), AfterCall(disk, run, r, command).run, if r.call.Passed? then None else Some(acted.clock + r.took), r.end);
    }
  }

  lemma CallsSnoc(log: Log, e: Effect<Action, Write>)
    ensures Calls(log + [e]) == Calls(log) + if e.Called? then 1 else 0
  {
    assert (log + [e])[..|log|] == log;
  }

  // ---- the bound is tight ----

  function Undisturbed(answer: Answer, last: StoreReply): World {
    World(0, Acked, true, Acked, true, _ => Round(Acked, 0, answer, 0, Acked), last)
  }

  const PLAN: Plan := Plan("bootstrap", "install", "verify")

  /** Executions whose worker dies during the SSH probe. */
  function Dying(n: nat): seq<Job> {
    seq(n, _ => Job(PLAN, Undisturbed(Killed, Acked)))
  }

  /** Seven workers that die during the probe and one clean execution: eleven SSH actions at attempt eleven. */
  lemma ElevenActionsArePossible()
    ensures var disk := After(Dying(7) + [Job(PLAN, Undisturbed(Passed, Acked))]);
      Calls(disk.log) == 11 && disk.row.Some? && disk.row.value.attempt == 11 && disk.row.value.state.Completed?
  {
    var jobs := Dying(7) + [Job(PLAN, Undisturbed(Passed, Acked))];
    assert jobs[..7] == Dying(7);
    DyingProbes(7);
    PassingExecution(After(Dying(7)), 7, Acked);
  }

  /** Four workers that die during the probe and one execution that passes every step but crashes before its
      last write: all four steps are checkpointed, and the row can never be COMPLETED. */
  lemma {:induction false} FinishedWorkCanBeLost(later: seq<Job>)
    ensures PassedInOrder(After(LosingJobs()).log, 4) && Checkpointed(After(LosingJobs()).log) == [0, 1, 2, 3]
    ensures var row := After(LosingJobs() + later).row; row.Some? && !row.value.state.Completed?
  {
    LosingJobsPass();
    LosingJobsLose();
    LostForEver(LosingJobs(), later);
  }

  lemma LosingJobsPass()
    ensures PassedInOrder(After(LosingJobs()).log, 4) && Checkpointed(After(LosingJobs()).log) == [0, 1, 2, 3]
  {
    LosingJobsLose();
    AfterSound(LosingJobs());
    DoneMeansFour(After(LosingJobs()));
  }

  lemma DoneMeansFour(disk: Disk)
    requires Sound(disk) && disk.row.Some? && disk.row.value.step.Done?
    ensures PassedInOrder(disk.log, 4) && Checkpointed(disk.log) == [0, 1, 2, 3]
  {
    FourSteps(disk.log);
  }

  lemma LostForEver(jobs: seq<Job>, later: seq<Job>)
    requires Exhausted(After(jobs))
    ensures Exhausted(After(jobs + later))
  {
    assert (jobs + later)[..|jobs|] == jobs;
    ExhaustedForEver(jobs + later, |jobs|);
  }

  function LosingJobs(): seq<Job> {
    Dying(4) + [Job(PLAN, Undisturbed(Passed, Refused))]
  }

  lemma LosingJobsLose()
    ensures Exhausted(After(LosingJobs())) && After(LosingJobs()).row.value.step.Done?
  {
    assert LosingJobs()[..4] == Dying(4);
    DyingProbes(4);
    PassingExecution(After(Dying(4)), 4, Refused);
  }

  ghost predicate ProbesDied(disk: Disk, n: nat) {
    && disk.row.Some? && !disk.row.value.state.Completed? && disk.row.value.step.Ssh?
    && disk.row.value.attempt == n == Calls(disk.log)
    && disk.row.value.nextRetry.None? && !disk.row.value.state.Failed?
  }

  lemma {:induction false} DyingProbes(n: nat)
    requires 0 < n <= 7
    ensures ProbesDied(After(Dying(n)), n)
  {
    assert Dying(n)[..n - 1] == Dying(n - 1);
    if n == 1 {
      assert After(Dying(0)) == NOTHING;
      DyingFirst();
    } else {
      DyingProbes(n - 1);
      DyingNext(After(Dying(n - 1)), n - 1);
    }
  }

  lemma DyingRound(disk: Disk, run: Run, plan: Plan)
    requires run.step.Ssh? && run.attempt < 7 && Calls(disk.log) == run.attempt && run.nextRetry.None?
    ensures ProbesDied(Rest(disk, run, 0, Undisturbed(Killed, Acked), plan).disk, run.attempt + 1)
  {
    var e := Begun(run, 0);
    var d1 := Put(disk, e, None, Acked);
    CallsSnoc(disk.log, Stored(0, Write(e, None)));
    CallsSnoc(d1.log, Called(0, false, Action(d1.clock, e, "", Killed)));
    assert OneRound(disk, run, 0, Round(Acked, 0, Killed, 0, Acked), plan).run == e;
  }

  lemma DyingFirst()
    ensures ProbesDied(ExecuteOnce(NOTHING, PLAN, Undisturbed(Killed, Acked)).disk, 1)
  {
    var disk := Put(Wait(NOTHING, 0), FRESH, None, Acked);
    CallsSnoc([], Stored(0, Write(FRESH, None)));
    assert disk.log == [] + [Stored(0, Write(FRESH, None))];
    DyingRound(disk, FRESH, PLAN);
  }

  lemma DyingNext(disk: Disk, n: nat)
    requires ProbesDied(disk, n) && n < 7
    ensures ProbesDied(ExecuteOnce(disk, PLAN, Undisturbed(Killed, Acked)).disk, n + 1)
  {
    DyingRound(Wait(disk, 0), disk.row.value, PLAN);
  }

  lemma PassingExecution(disk: Disk, n: nat, last: StoreReply)
    requires ProbesDied(disk, n) && n < 8
    ensures var after := ExecuteOnce(disk, PLAN, Undisturbed(Passed, last)).disk;
      Calls(after.log) == n + 4 && after.row.Some? && after.row.value.attempt == n + 4 && after.row.value.step.Done?
      && (after.row.value.state.Completed? <==> !last.Refused?)
  {
    PassingRest(Wait(disk, 0), disk.row.value, 0, last, PLAN);
  }

  lemma {:induction false} PassingRest(disk: Disk, run: Run, k: nat, last: StoreReply, plan: Plan)
    requires k <= |STEPS| && Rank(run.step) == k && disk.row == Some(run) && !run.state.Completed?
    ensures var after := Rest(disk, run, k, Undisturbed(Passed, last), plan).disk;
      Calls(after.log) == Calls(disk.log) + (4 - k) && after.row.Some? && after.row.value.step.Done?
      && after.row.value.attempt == run.attempt + (4 - k) && (after.row.value.state.Completed? <==> !last.Refused?)
    decreases |STEPS| - k
  {
    if k == |STEPS| {
      CallsSnoc(disk.log, Stored(4, Write(Finish(disk, run, last).run, None)));
    } else {
      Ranks(k);
      var o := OneRound(disk, run, k, Round(Acked, 0, Passed, 0, Acked), plan);
      PassingRound(disk, run, k, plan);
      PassingRest(o.disk, o.run, k + 1, last, plan);
    }
  }

  lemma PassingRound(disk: Disk, run: Run, k: nat, plan: Plan)
    requires k < |STEPS| && Rank(run.step) == k
    ensures var o := OneRound(disk, run, k, Round(Acked, 0, Passed, 0, Acked), plan);
      o.err.None? && Rank(o.run.step) == k + 1 && o.run.attempt == run.attempt + 1
      && o.disk.row == Some(o.run) && !o.run.state.Completed? && Calls(o.disk.log) == Calls(disk.log) + 1
  {
    Ranks(k);
    var e := Begun(run, k);
    var d1 := Put(disk, e, None, Acked);
    var d2 := Act(Wait(d1, 0), e, CommandOf(plan, k), Passed);
    CallsSnoc(disk.log, Stored(k, Write(e, None)));
    CallsSnoc(d1.log, Called(k, true, Action(d1.clock, e, CommandOf(plan, k), Passed)));
    var f := e.(step := ProvisionNext(e.step), lastError := "", nextRetry := None);
    CallsSnoc(d2.log, Stored(k + 1, Write(f, None)));
  }
}
