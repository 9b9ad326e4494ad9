/**
  What the rows and the SSH actions of one droplet tell about each other: what every row
  stored means, which failures end a run, and how an execution ends.
 */
module ProvisioningJournal {
  import opened Wrappers
  import opened Checkpoints
  import opened ProvisioningEngine
  import opened ProvisioningTheorems

  // ---- the steps by name ----

  function StateOf(step: Step): State {
    match step
    case Ssh => WaitingSsh
    case Bootstrap => Bootstrapping
    case Panel => InstallingPanel
    case Verify => Verifying
    case Done => Completed
  }

  function Following(step: Step): Step {
    match step
    case Ssh => Bootstrap
    case Bootstrap => Panel
    case Panel => Verify
    case _ => Done
  }

  /** What is run on the droplet: the probe, then the three commands of the plan. */
  function CommandFor(plan: Plan, step: Step): string {
    match step
    case Bootstrap => plan.bootstrap
    case Panel => plan.installPanel
    case Verify => plan.verify
    case _ => ""
  }

  /** The pause after a failure at attempt `n`, in microseconds: 2, 4, 8, 16, 32 and from the
      sixth attempt on 64 minutes. */
  function Pause(n: nat): nat {
    if n == 0 then 60_000_000
    else if n == 1 then 120_000_000
    else if n == 2 then 240_000_000
    else if n == 3 then 480_000_000
    else if n == 4 then 960_000_000
    else if n == 5 then 1_920_000_000
    else 3_840_000_000
  }

  lemma Pauses(n: nat)
    ensures Backoff(n) == Pause(n)
  {
    assert PowerOfTwo(2) == 4 && PowerOfTwo(4) == 16 && PowerOfTwo(6) == 64;
  }

  // ---- the entries of a log ----

  /** The row in the store after a log. */
  function RowOf(log: Log): Option<Run> {
    if log == [] then None
    else if log[|log| - 1].Stored? then Some(log[|log| - 1].row.run)
    else RowOf(log[..|log| - 1])
  }

  /** A step begins: its state is entered and an attempt counted, the rest stays. */
  ghost predicate Begins(prev: Option<Run>, run: Run) {
    prev.Some? && !prev.value.step.Done? && run == prev.value.(state := StateOf(prev.value.step), attempt := prev.value.attempt + 1)
  }

  /** All steps have passed and the row is completed. */
  ghost predicate Completes(prev: Option<Run>, run: Run) {
    prev.Some? && prev.value.step.Done? && run == prev.value.(state := Completed)
  }

  /** Eight attempts are used up and the row is failed. */
  ghost predicate GivesUp(prev: Option<Run>, run: Run) {
    && prev.Some? && prev.value.attempt >= 8 && !prev.value.state.Completed?
    && run == prev.value.(
         state := Failed,
         lastError := if prev.value.lastError == "" then "provision retry limit reached" else prev.value.lastError)
  }

  /** What is kept of an SSH action. A passed one is checkpointed. An error fails the run, an
      interruption leaves it in the state of its step; both say why and until when to wait. */
  ghost predicate Keeps(a: Action, w: Write) {
    match a.answer
    case Killed => false
    case Passed => w == Write(a.run.(step := Following(a.run.step), lastError := "", nextRetry := None), None)
    case Errored(message) =>
      && w.failure.Some? && w.failure.value >= a.at
      && w.run == a.run.(state := Failed, lastError := message, nextRetry := Some(w.failure.value + Pause(a.run.attempt)))
    case Interrupted(message) =>
      && w.failure.Some? && w.failure.value >= a.at
      && w.run == a.run.(lastError := message, nextRetry := Some(w.failure.value + Pause(a.run.attempt)))
  }

  ghost predicate Stores(before: Log, w: Write) {
    || (before != [] && before[|before| - 1].Called? && Keeps(before[|before| - 1].input, w))
    || (w.failure.None? &&
          (|| (RowOf(before).None? && w.run == Run(Pending, Ssh, 0, "", None))
           || Begins(RowOf(before), w.run) || Completes(RowOf(before), w.run) || GivesUp(RowOf(before), w.run)))
  }

  /** An action comes right after the row that begins its step, for that row, and runs the
      command that one of the plans has for the step. */
  ghost predicate Acts(plans: set<Plan>, before: Log, ok: bool, a: Action) {
    && before != [] && before[|before| - 1].Stored? && before[|before| - 1].row == Write(a.run, None)
    && Begins(RowOf(before[..|before| - 1]), a.run) && (ok <==> a.answer.Passed?)
    && exists plan :: plan in plans && a.command == CommandFor(plan, a.run.step)
  }

  ghost predicate Entry(plans: set<Plan>, before: Log, e: Effect<Action, Write>) {
    match e
    case Called(_, ok, a) => Acts(plans, before, ok, a)
    case Stored(_, w) => Stores(before, w)
  }

  ghost predicate Journal(plans: set<Plan>, log: Log) {
    forall n :: 0 <= n < |log| ==> Entry(plans, log[..n], log[n])
  }

  lemma JournalSnoc(plans: set<Plan>, log: Log, e: Effect<Action, Write>)
    requires Journal(plans, log) && Entry(plans, log, e)
    ensures Journal(plans, log + [e]) && RowOf(log + [e]) == if e.Stored? then Some(e.row.run) else RowOf(log)
  {
    var all := log + [e];
    assert all[..|log|] == log;
    forall n | 0 <= n < |all| ensures Entry(plans, all[..n], all[n]) {
      if n < |log| { assert all[..n] == log[..n]; }
    }
  }

  // ---- every history keeps a journal ----

  ghost predicate Held(plans: set<Plan>, disk: Disk) {
    Journal(plans, disk.log) && disk.row == RowOf(disk.log)
  }

  lemma Names(k: nat, step: Step)
    requires k < |STEPS| && Rank(step) == k
    ensures STEPS[k] == (step, StateOf(step)) && !step.Done? && ProvisionNext(step) == Following(step)
    ensures Rank(Following(step)) == k + 1
    ensures forall plan: Plan :: CommandOf(plan, k) == CommandFor(plan, step)
  {
  }

  lemma PutHeld(plans: set<Plan>, disk: Disk, run: Run, failure: Option<nat>, reply: StoreReply)
    requires Held(plans, disk) && Stores(disk.log, Write(run, failure))
    ensures Held(plans, Put(disk, run, failure, reply))
  {
    if !reply.Refused? { JournalSnoc(plans, disk.log, Stored(Rank(run.step), Write(run, failure))); }
  }

  lemma RoundHeld(plans: set<Plan>, disk: Disk, run: Run, k: nat, r: Round, plan: Plan)
    requires k < |STEPS| && Held(plans, disk) && disk.row == Some(run) && Rank(run.step) == k && plan in plans
    ensures var o := OneRound(disk, run, k, r, plan);
      Held(plans, o.disk) && (o.err.None? ==> o.disk.row == Some(o.run) && Rank(o.run.step) == k + 1)
  {
    Names(k, run.step);
    var e := Begun(run, k);
    PutHeld(plans, disk, e, None, r.begin);
    if r.begin.Acked? { CallHeld(plans, disk, e, k, r, plan); }
  }

  lemma CallHeld(plans: set<Plan>, before: Disk, run: Run, k: nat, r: Round, plan: Plan)
    requires k < |STEPS| && Held(plans, before) && Begins(before.row, run) && Rank(run.step) == k && plan in plans
    requires Held(plans, Put(before, run, None, Acked))
    ensures var o := AfterCall(Wait(Put(before, run, None, Acked), r.wait), run, r, CommandOf(plan, k));
      Held(plans, o.disk) && (o.err.None? ==> o.disk.row == Some(o.run) && Rank(o.run.step) == k + 1)
  {
    Names(k, run.step);
    var disk := Wait(Put(before, run, None, Acked), r.wait);
    var a := Action(disk.clock, run, CommandOf(plan, k), r.call);
    assert a.command == CommandFor(plan, run.step);
    NoteHeld(plans, before, disk, a, plan);
    AnswerHeld(plans, Act(disk, run, a.command, r.call), a, r);
  }

  lemma NoteHeld(plans: set<Plan>, before: Disk, disk: Disk, a: Action, plan: Plan)
    requires Held(plans, before) && Begins(before.row, a.run) && !a.run.step.Done? && plan in plans
    requires a.command == CommandFor(plan, a.run.step) && a.at == disk.clock
    requires disk.log == before.log + [Stored(Rank(a.run.step), Write(a.run, None))] && Held(plans, disk)
    ensures JustActed(plans, Act(disk, a.run, a.command, a.answer), a)
  {
    assert disk.log[..|disk.log| - 1] == before.log;
    JournalSnoc(plans, disk.log, Called(Rank(a.run.step), a.answer.Passed?, a));
  }

  lemma AnswerHeld(plans: set<Plan>, acted: Disk, a: Action, r: Round)
    requires JustActed(plans, acted, a) && a.answer == r.call && ProvisionNext(a.run.step) == Following(a.run.step)
    ensures r.call.Passed? ==>
              var e := a.run.(step := ProvisionNext(a.run.step), lastError := "", nextRetry := None);
              Held(plans, Put(Wait(acted, r.took), e, None, r.end))
    ensures r.call.Errored? || r.call.Interrupted? ==> Held(plans, AfterFailure(acted, a.run, r, r.call.message).disk)
  {
    match r.call
    case Killed =>
    case Passed => PassHeld(plans, acted, a, r);
    case Errored(m) => ErrorHeld(plans, acted, a, r);
    case Interrupted(m) => ErrorHeld(plans, acted, a, r);
  }

  ghost predicate JustActed(plans: set<Plan>, acted: Disk, a: Action) {
    && Held(plans, acted) && acted.row == Some(a.run) && !a.run.step.Done? && a.at == acted.clock
    && acted.log != [] && acted.log[|acted.log| - 1].Called? && acted.log[|acted.log| - 1].input == a
  }

  lemma PassHeld(plans: set<Plan>, acted: Disk, a: Action, r: Round)
    requires JustActed(plans, acted, a) && a.answer.Passed? && ProvisionNext(a.run.step) == Following(a.run.step)
    ensures Held(plans, Put(Wait(acted, r.took), a.run.(step := ProvisionNext(a.run.step), lastError := "", nextRetry := None), None, r.end))
  {
    KeptHeld(plans, acted, a, r, Write(a.run.(step := ProvisionNext(a.run.step), lastError := "", nextRetry := None), None));
  }

  lemma ErrorHeld(plans: set<Plan>, acted: Disk, a: Action, r: Round)
    requires JustActed(plans, acted, a) && (a.answer.Errored? || a.answer.Interrupted?) && a.answer == r.call
    ensures Held(plans, AfterFailure(acted, a.run, r, a.answer.message).disk)
  {
    var w := Write(FailedRun(a.run, a.answer.message, r.call.Interrupted?, acted.clock + r.took), Some(acted.clock + r.took));
    ErrorKept(a, acted.clock + r.took);
    KeptHeld(plans, acted, a, r, w);
    assert AfterFailure(acted, a.run, r, a.answer.message).disk == Put(Wait(acted, r.took), w.run, w.failure, r.end);
  }

  lemma ErrorKept(a: Action, late: nat)
    requires (a.answer.Errored? || a.answer.Interrupted?) && late >= a.at
    ensures Keeps(a, Write(FailedRun(a.run, a.answer.message, a.answer.Interrupted?, late), Some(late)))
  {
    Pauses(a.run.attempt);
  }

  lemma KeptHeld(plans: set<Plan>, acted: Disk, a: Action, r: Round, w: Write)
    requires Held(plans, acted) && Keeps(a, w)
    requires acted.log != [] && acted.log[|acted.log| - 1].Called? && acted.log[|acted.log| - 1].input == a
    ensures Held(plans, Put(Wait(acted, r.took), w.run, w.failure, r.end))
  {
    PutHeld(plans, Wait(acted, r.took), w.run, w.failure, r.end);
  }

  lemma {:induction false} RestHeld(plans: set<Plan>, disk: Disk, run: Run, k: nat, w: World, plan: Plan)
    requires k <= |STEPS| && Held(plans, disk) && disk.row == Some(run) && k <= Rank(run.step) && plan in plans
    ensures Held(plans, Rest(disk, run, k, w, plan).disk)
    decreases |STEPS| - k
  {
    if k == |STEPS| {
      PutHeld(plans, disk, Finish(disk, run, w.last).run, None, w.last);
    } else if IsCompleted(run.step, STEPS[k].0) {
      Ranks(k);
      RestHeld(plans, disk, run, k + 1, w, plan);
    } else {
      Ranks(k);
      RoundHeld(plans, disk, run, k, w.rounds(k), plan);
      var o := OneRound(disk, run, k, w.rounds(k), plan);
      if o.err.None? { RestHeld(plans, o.disk, o.run, k + 1, w, plan); }
    }
  }

  lemma ExecuteHeld(plans: set<Plan>, disk: Disk, plan: Plan, w: World)
    requires Held(plans, disk) && plan in plans
    ensures Held(plans, ExecuteOnce(disk, plan, w).disk)
  {
    var d := Wait(disk, w.wait);
    if ValidPlan(plan) && d.row.Some? && w.selected {
      BeginHeld(plans, d, d.row.value, false, w, plan);
    } else if ValidPlan(plan) && d.row.None? {
      PutHeld(plans, d, FRESH, None, w.reserve);
      if w.reserve.Acked? { BeginHeld(plans, Put(d, FRESH, None, Acked), FRESH, true, w, plan); }
    }
  }

  lemma BeginHeld(plans: set<Plan>, disk: Disk, run: Run, isNew: bool, w: World, plan: Plan)
    requires Held(plans, disk) && disk.row == Some(run) && plan in plans
    ensures Held(plans, Begin(disk, run, isNew, w, plan).disk)
  {
    RestHeld(plans, disk, run, 0, w, plan);
    if !isNew && !run.state.Completed? && run.attempt >= 8 { PutHeld(plans, disk, GivenUp(run), None, w.giveUp); }
  }

  /** Every history keeps a journal: an SSH action is issued right after the row that begins
      its step, with the command of that step; and every row stored is a new one, the start
      of a step, what is kept of the action just before, the end, or the row given up at
      eight attempts. */
  lemma {:induction false} HistoriesAreJournals(jobs: seq<Job>, plans: set<Plan>)
    requires forall n :: 0 <= n < |jobs| ==> jobs[n].plan in plans
    ensures Journal(plans, After(jobs).log) && After(jobs).row == RowOf(After(jobs).log)
    decreases |jobs|
  {
    if jobs != [] {
      HistoriesAreJournals(jobs[..|jobs| - 1], plans);
      ExecuteHeld(plans, After(jobs[..|jobs| - 1]), jobs[|jobs| - 1].plan, jobs[|jobs| - 1].w);
    }
  }

  function PlansOf(jobs: seq<Job>): set<Plan> {
    set n | 0 <= n < |jobs| :: jobs[n].plan
  }

  /** What a row stored with the time of a failure tells about the action before it. An error
      leaves it FAILED, an interruption in the state of the step called; it is due again 2^n
      minutes later at attempt n, but never more than 64 minutes. */
  ghost predicate Tells(w: Write, a: Action) {
    match a.answer
    case Errored(message) => w.run.state.Failed? && w.run.lastError == message && Recorded(w, a)
    case Interrupted(message) => w.run.state == StateOf(a.run.step) && w.run.lastError == message && Recorded(w, a)
    case _ => false
  }

  predicate Recorded(w: Write, a: Action) {
    && w.failure.Some? && w.failure.value >= a.at && w.run.step == a.run.step && w.run.attempt == a.run.attempt
    && w.run.nextRetry == Some(w.failure.value + Pause(a.run.attempt))
  }

  /** A row stored with the time of a failure comes right after the action that failed, and
      tells of it. */
  lemma {:induction false} FailuresAreTold(jobs: seq<Job>, i: nat)
    requires i < |After(jobs).log| && After(jobs).log[i].Stored? && After(jobs).log[i].row.failure.Some?
    ensures i > 0 && After(jobs).log[i - 1].Called? && Tells(After(jobs).log[i].row, After(jobs).log[i - 1].input)
  {
    HistoriesAreJournals(jobs, PlansOf(jobs));
    FailureIsTold(PlansOf(jobs), After(jobs).log, i);
  }

  lemma FailureIsTold(plans: set<Plan>, log: Log, i: nat)
    requires Journal(plans, log) && i < |log| && log[i].Stored? && log[i].row.failure.Some?
    ensures i > 0 && log[i - 1].Called? && Tells(log[i].row, log[i - 1].input)
  {
    assert Entry(plans, log[..i], log[i]);
    assert Entry(plans, log[..i - 1], log[i - 1]);
  }

  /** Below eight attempts a row is stored FAILED only right after an action that answered
      with an error; in particular an interruption never does it. */
  lemma {:induction false} FailedBelowTheCap(jobs: seq<Job>, i: nat)
    requires i < |After(jobs).log| && After(jobs).log[i].Stored?
    requires After(jobs).log[i].row.run.state.Failed? && After(jobs).log[i].row.run.attempt < 8
    ensures i > 0 && After(jobs).log[i - 1].Called? && After(jobs).log[i - 1].input.answer.Errored?
  {
    HistoriesAreJournals(jobs, PlansOf(jobs));
    FailedByAnError(PlansOf(jobs), After(jobs).log, i);
  }

  lemma FailedByAnError(plans: set<Plan>, log: Log, i: nat)
    requires Journal(plans, log) && i < |log| && log[i].Stored? && log[i].row.run.state.Failed? && log[i].row.run.attempt < 8
    ensures i > 0 && log[i - 1].Called? && log[i - 1].input.answer.Errored?
  {
    assert Entry(plans, log[..i], log[i]);
    if i > 0 && log[i - 1].Called? {
      assert Entry(plans, log[..i - 1], log[i - 1]);
      assert !log[i - 1].input.run.state.Failed?;
    }
  }

  /** What one more visit of the worker does after any others: it executes unless it reads that
      the run FAILED or used up eight attempts. */
  lemma {:induction false} VisitsExactly(vs: seq<Visit>, v: Visit)
    ensures var disk := Served(vs);
      Served(vs + [v]) ==
        if v.read && disk.row.Some? && (disk.row.value.state.Failed? || disk.row.value.attempt >= 8) then disk
        else ExecuteOnce(disk, v.job.plan, v.job.w).disk
  {
    assert (vs + [v])[..|vs|] == vs;
  }

  // ---- how an execution ends ----

  predicate Smooth(r: Round) {
    r.begin.Acked? && r.call.Passed? && r.end.Acked?
  }

  predicate AllSmooth(w: World, k: nat, n: nat) {
    forall i :: k <= i < n ==> Smooth(w.rounds(i))
  }

  /** The stored row lets an execution go on: it is not completed, no pause is pending, and
      fewer than eight attempts are used up. */
  predicate Open(disk: Disk, w: World) {
    && disk.row.Some? && w.selected && !disk.row.value.state.Completed? && disk.row.value.attempt < 8
    && (disk.row.value.nextRetry.None? || disk.row.value.nextRetry.value <= disk.clock + w.wait)
  }

  /** How an execution ends that does not reach the steps. */
  lemma EarlyEnds(disk: Disk, plan: Plan, w: World)
    ensures var o := ExecuteOnce(disk, plan, w);
      if plan.bootstrap == "" || plan.installPanel == "" || plan.verify == "" then
        o.err == Some(InvalidPlan) && o.disk.row == disk.row && o.disk.log == disk.log
      else if disk.row.None? then
        && (!w.reserve.Acked? ==> o.err == Some(StoreError))
        && (w.reserve.Refused? ==> o.disk.row.None?)
        && (w.reserve.Acked? && !w.secret ==> o.err == Some(SecretError) && o.disk.row == Some(Run(Pending, Ssh, 0, "", None)))
      else if !w.selected then o.err == Some(StoreError) && o.disk.row == disk.row && o.disk.log == disk.log
      else if disk.row.value.state.Completed? then o.err.None? && o.disk.row == disk.row && o.disk.log == disk.log
      else if disk.row.value.nextRetry.Some? && disk.clock + w.wait < disk.row.value.nextRetry.value then
        o.err == Some(Deferred(disk.row.value.nextRetry.value)) && o.disk.row == disk.row && o.disk.log == disk.log
      else if disk.row.value.attempt >= 8 then
        o.err == Some(LimitReached) && o.disk.row.Some?
        && (if w.giveUp.Refused? then o.disk.row == disk.row else GivesUp(disk.row, o.disk.row.value))
      else !w.secret ==> o.err == Some(SecretError) && o.disk.row == disk.row && o.disk.log == disk.log
  {
  }

  /** An execution of an open row succeeds exactly when every round that is left goes well and
      the last row is stored; the row is then COMPLETED. */
  lemma {:induction false} SucceedsExactly(disk: Disk, plan: Plan, w: World)
    requires ValidPlan(plan) && w.secret && (Open(disk, w) || (disk.row.None? && w.reserve.Acked?))
    ensures var from := if disk.row.Some? then Rank(disk.row.value.step) else 0;
      ExecuteOnce(disk, plan, w).err.None? <==> AllSmooth(w, from, 4) && w.last.Acked?
    ensures ExecuteOnce(disk, plan, w).err.None? ==>
              var row := ExecuteOnce(disk, plan, w).disk.row;
              row.Some? && row.value.state.Completed? && row.value.step.Done?
  {
    var d := Wait(disk, w.wait);
    if disk.row.Some? {
      RestSucceeds(d, disk.row.value, 0, w, plan);
    } else {
      RestSucceeds(Put(d, FRESH, None, Acked), FRESH, 0, w, plan);
    }
  }

  lemma {:induction false} RestSucceeds(disk: Disk, run: Run, k: nat, w: World, plan: Plan)
    requires k <= 4 && k <= Rank(run.step)
    ensures Rest(disk, run, k, w, plan).err.None? <==> AllSmooth(w, Rank(run.step), 4) && w.last.Acked?
    ensures var o := Rest(disk, run, k, w, plan);
      o.err.None? ==> o.disk.row == Some(o.run) && o.run.state.Completed? && o.run.step.Done?
    decreases 4 - k
  {
    if k < 4 {
      Ranks(k);
      if IsCompleted(run.step, STEPS[k].0) {
        RestSucceeds(disk, run, k + 1, w, plan);
      } else {
        RoundSucceeds(disk, run, k, w.rounds(k), plan);
        var o := OneRound(disk, run, k, w.rounds(k), plan);
        if o.err.None? { RestSucceeds(o.disk, o.run, k + 1, w, plan); }
      }
    }
  }

  lemma RoundSucceeds(disk: Disk, run: Run, k: nat, r: Round, plan: Plan)
    requires k < |STEPS| && Rank(run.step) == k
    ensures OneRound(disk, run, k, r, plan).err.None? <==> Smooth(r)
    ensures OneRound(disk, run, k, r, plan).err.None? ==> Rank(OneRound(disk, run, k, r, plan).run.step) == k + 1
  {
    Names(k, run.step);
  }

  /** What the round of a step leaves behind that is the first one to fail, `now` being when
      its action ended. */
  ghost predicate Failure(o: Outcome, prev: Run, r: Round, now: nat) {
    var begun := prev.(state := StateOf(prev.step), attempt := prev.attempt + 1);
    match r.begin
    case Refused => o.err == Some(StoreError) && o.disk.row == Some(prev)
    case Lost => o.err == Some(StoreError) && o.disk.row == Some(begun)
    case Acked =>
      match r.call
      case Killed => o.err == Some(StepError) && o.disk.row == Some(begun)
      case Errored(message) =>
        && o.err == Some(StepError)
        && o.disk.row == Some(if r.end.Refused? then begun else
             begun.(state := Failed, lastError := message, nextRetry := Some(now + Pause(begun.attempt))))
      case Interrupted(message) =>
        && o.err == Some(StepError)
        && o.disk.row == Some(if r.end.Refused? then begun else
             begun.(lastError := message, nextRetry := Some(now + Pause(begun.attempt))))
      case Passed =>
        && o.err == Some(StoreError)
        && o.disk.row == Some(if r.end.Refused? then begun else
             begun.(step := Following(prev.step), lastError := "", nextRetry := None))
  }

  /** An execution of an open row whose first round fails ends there, with that failure. */
  lemma {:induction false} FailureEndsTheExecution(disk: Disk, plan: Plan, w: World)
    requires ValidPlan(plan) && w.secret && Open(disk, w) && !disk.row.value.step.Done?
    requires !Smooth(w.rounds(Rank(disk.row.value.step)))
    ensures var r := w.rounds(Rank(disk.row.value.step));
      Failure(ExecuteOnce(disk, plan, w), disk.row.value, r, disk.clock + w.wait + r.wait + r.took)
  {
    RestFails(Wait(disk, w.wait), disk.row.value, 0, w, plan);
  }

  lemma {:induction false} RestFails(disk: Disk, run: Run, k: nat, w: World, plan: Plan)
    requires k <= Rank(run.step) < 4 && disk.row == Some(run) && !Smooth(w.rounds(Rank(run.step)))
    ensures var r := w.rounds(Rank(run.step)); Failure(Rest(disk, run, k, w, plan), run, r, disk.clock + r.wait + r.took)
    decreases 4 - k
  {
    Ranks(k);
    Pauses(run.attempt + 1);
    if IsCompleted(run.step, STEPS[k].0) { RestFails(disk, run, k + 1, w, plan); } else { Names(k, run.step); }
  }
}
