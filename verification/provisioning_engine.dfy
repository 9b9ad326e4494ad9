/**
  The four-step provisioning engine over the run row of one droplet. An execution is given
  a world that answers the store, the secrets and the SSH commands, and says how much time
  passes. Times are in microseconds, the resolution at which the store keeps them.
 */
module ProvisioningEngine {
  import opened Wrappers
  import opened Checkpoints

  datatype State = Pending | WaitingSsh | Bootstrapping | InstallingPanel | Verifying | Completed | Failed

  datatype Step = Ssh | Bootstrap | Panel | Verify | Done

  const STEPS: seq<(Step, State)> := [
    (Ssh, WaitingSsh), (Bootstrap, Bootstrapping), (Panel, InstallingPanel), (Verify, Verifying)]

  const MAX_ATTEMPTS: nat := 8
  const MINUTE: nat := 60_000_000

  function Rank(s: Step): nat {
    match s
    case Ssh => 0
    case Bootstrap => 1
    case Panel => 2
    case Verify => 3
    case Done => 4
  }

  function ProvisionNext(s: Step): Step {
    match s
    case Ssh => Bootstrap
    case Bootstrap => Panel
    case Panel => Verify
    case _ => Done
  }

  predicate IsCompleted(current: Step, target: Step) {
    Rank(current) > Rank(target)
  }

  datatype Run = Run(state: State, step: Step, attempt: nat, lastError: string, nextRetry: Option<nat>)

  const FRESH: Run := Run(Pending, Ssh, 0, "", None)

  datatype Plan = Plan(bootstrap: string, installPanel: string, verify: string)

  /** A stored row, with the time of the failure when the write records one. */
  datatype Write = Write(run: Run, failure: Option<nat>)

  /** `Interrupted` is an error that is a context cancellation or deadline. */
  datatype Answer = Passed | Errored(message: string) | Interrupted(message: string) | Killed

  /** An SSH action: when it was issued, for which row, the command, and how it went. The
      probe of the first step has no command. */
  datatype Action = Action(at: nat, run: Run, command: string, answer: Answer)

  /** The log of SSH actions and of stored rows. */
  type Log = seq<Effect<Action, Write>>

  datatype Disk = Disk(row: Option<Run>, log: Log, clock: nat)

  datatype Round = Round(begin: StoreReply, wait: nat, call: Answer, took: nat, end: StoreReply)

  datatype World = World(
    wait: nat, reserve: StoreReply, selected: bool, giveUp: StoreReply, secret: bool, rounds: nat -> Round, last: StoreReply)

  datatype Error = InvalidPlan | StoreError | Deferred(until: nat) | LimitReached | SecretError | StepError

  datatype Outcome = Outcome(disk: Disk, run: Run, err: Option<Error>)

  function PowerOfTwo(n: nat): nat {
    if n == 0 then 1 else 2 * PowerOfTwo(n - 1)
  }

  function Backoff(attempt: nat): nat {
    PowerOfTwo(Min(attempt, 6)) * MINUTE
  }

  // ---- the specification ----

  function CommandOf(plan: Plan, k: nat): string {
    if k == 0 then "" else if k == 1 then plan.bootstrap else if k == 2 then plan.installPanel else plan.verify
  }

  function Put(disk: Disk, run: Run, failure: Option<nat>, reply: StoreReply): Disk {
    if reply.Refused? then disk
    else disk.(row := Some(run), log := disk.log + [Stored(Rank(run.step), Write(run, failure))])
  }

  function Wait(disk: Disk, d: nat): Disk {
    disk.(clock := disk.clock + d)
  }

  function Act(disk: Disk, run: Run, command: string, answer: Answer): Disk {
    disk.(log := disk.log + [Called(Rank(run.step), answer.Passed?, Action(disk.clock, run, command, answer))])
  }

  /** The row as a failed step leaves it at time `now`. */
  function FailedRun(run: Run, message: string, interrupted: bool, now: nat): Run {
    run.(lastError := message, nextRetry := Some(now + Backoff(run.attempt)),
         state := if interrupted then run.state else Failed)
  }

  function AfterFailure(disk: Disk, run: Run, r: Round, message: string): Outcome {
    var now := disk.clock + r.took;
    var e := FailedRun(run, message, r.call.Interrupted?, now);
    Outcome(Put(Wait(disk, r.took), e, Some(now), r.end), e, Some(StepError))
  }

  function AfterCall(disk: Disk, run: Run, r: Round, command: string): Outcome {
    match r.call
    case Killed => Outcome(Act(disk, run, command, r.call), run, Some(StepError))
    case Errored(message) => AfterFailure(Act(disk, run, command, r.call), run, r, message)
    case Interrupted(message) => AfterFailure(Act(disk, run, command, r.call), run, r, message)
    case Passed =>
      var e := run.(step := ProvisionNext(run.step), lastError := "", nextRetry := None);
      Outcome(Put(Wait(Act(disk, run, command, r.call), r.took), e, None, r.end), e, if r.end.Acked? then None else Some(StoreError))
  }

  function Begun(run: Run, k: nat): Run
    requires k < |STEPS|
  {
    run.(state := STEPS[k].1, step := STEPS[k].0, attempt := run.attempt + 1)
  }

  function OneRound(disk: Disk, run: Run, k: nat, r: Round, plan: Plan): Outcome
    requires k < |STEPS|
  {
    var e := Begun(run, k);
    if r.begin.Acked? then AfterCall(Wait(Put(disk, e, None, r.begin), r.wait), e, r, CommandOf(plan, k))
    else Outcome(Put(disk, e, None, r.begin), e, Some(StoreError))
  }

  function Finish(disk: Disk, run: Run, last: StoreReply): Outcome {
    var e := run.(state := Completed, step := Done);
    Outcome(Put(disk, e, None, last), e, if last.Acked? then None else Some(StoreError))
  }

  function Rest(disk: Disk, run: Run, k: nat, w: World, plan: Plan): Outcome
    requires k <= |STEPS|
    decreases |STEPS| - k
  {
    if k == |STEPS| then Finish(disk, run, w.last)
    else if IsCompleted(run.step, STEPS[k].0) then Rest(disk, run, k + 1, w, plan)
    else
      var o := OneRound(disk, run, k, w.rounds(k), plan);
      if o.err.Some? then o else Rest(o.disk, o.run, k + 1, w, plan)
  }

  /** A row that has used up its attempts. */
  function GivenUp(run: Run): Run {
    run.(state := Failed, lastError := if run.lastError == "" then "provision retry limit reached" else run.lastError)
  }

  function Begin(disk: Disk, run: Run, isNew: bool, w: World, plan: Plan): Outcome {
    if !isNew && run.state.Completed? then Outcome(disk, run, None)
    else if !isNew && run.nextRetry.Some? && disk.clock < run.nextRetry.value then
      Outcome(disk, run, Some(Deferred(run.nextRetry.value)))
    else if !isNew && run.attempt >= MAX_ATTEMPTS then
      Outcome(Put(disk, GivenUp(run), None, w.giveUp), GivenUp(run), Some(LimitReached))
    else if !w.secret then Outcome(disk, run, Some(SecretError))
    else Rest(disk, run, 0, w, plan)
  }

  predicate ValidPlan(plan: Plan) {
    plan.bootstrap != "" && plan.installPanel != "" && plan.verify != ""
  }

  /** One execution, starting `w.wait` after the last thing that happened. */
  function ExecuteOnce(disk0: Disk, plan: Plan, w: World): Outcome {
    var disk := Wait(disk0, w.wait);
    if !ValidPlan(plan) then Outcome(disk, FRESH, Some(InvalidPlan))
    else if disk.row.Some? then
      if w.selected then Begin(disk, disk.row.value, false, w, plan) else Outcome(disk, FRESH, Some(StoreError))
    else if w.reserve.Acked? then Begin(Put(disk, FRESH, None, Acked), FRESH, true, w, plan)
    else Outcome(Put(disk, FRESH, None, w.reserve), FRESH, Some(StoreError))
  }

  // ---- the engine ----

  /** The provision_runs table, as far as one droplet goes, and the droplet's SSH server. */
  class Store {
    var row: Option<Run>
    var clock: nat
    ghost var log: Log

    ghost function State(): Disk reads this {
      Disk(row, log, clock)
    }

    constructor ()
      ensures State() == Disk(None, [], 0)
    {
      row, clock, log := None, 0, [];
    }

    method Update(run: Run, ghost failure: Option<nat>, reply: StoreReply) returns (ok: bool)
      modifies this
      ensures State() == Put(old(State()), run, failure, reply) && ok == reply.Acked?
    {
      if !reply.Refused? { row, log := Some(run), log + [Stored(Rank(run.step), Write(run, failure))]; }
      ok := reply.Acked?;
    }

    /** INSERT ... ON CONFLICT DO NOTHING, then SELECT on conflict. */
    method Reserve(w: World) returns (run: Run, isNew: bool, ok: bool)
      modifies this
      ensures old(row).None? ==> isNew && run == FRESH && ok == w.reserve.Acked?
                                 && State() == Put(old(State()), FRESH, None, w.reserve)
      ensures old(row).Some? ==> !isNew && ok == w.selected && State() == old(State())
                                 && run == if ok then old(row).value else FRESH
    {
      if row.None? {
        ok := Update(FRESH, None, w.reserve);
        return FRESH, true, ok;
      }
      return if w.selected then row.value else FRESH, false, w.selected;
    }

    method Sleep(d: nat)
      modifies this
      ensures State() == Wait(old(State()), d)
    {
      clock := clock + d;
    }

    method Command(run: Run, command: string, answer: Answer)
      modifies this
      ensures State() == Act(old(State()), run, command, answer)
    {
      log := log + [Called(Rank(run.step), answer.Passed?, Action(clock, run, command, answer))];
    }
  }

  /** The code does what the specification says, in every world. */
  method Execute(store: Store, plan: Plan, w: World) returns (run: Run, err: Option<Error>)
    modifies store
    ensures Outcome(store.State(), run, err) == ExecuteOnce(old(store.State()), plan, w)
  {
    store.Sleep(w.wait);
    if plan.bootstrap == "" || plan.installPanel == "" || plan.verify == "" { return FRESH, Some(InvalidPlan); }
    var isNew, ok;
    run, isNew, ok := store.Reserve(w);
    if !ok { return FRESH, Some(StoreError); }
    if !isNew && run.state == Completed { return run, None; }
    if !isNew && run.nextRetry.Some? && store.clock < run.nextRetry.value { return run, Some(Deferred(run.nextRetry.value)); }
    if !isNew && run.attempt >= MAX_ATTEMPTS {
      run := run.(state := Failed);
      if run.lastError == "" { run := run.(lastError := "provision retry limit reached"); }
      var _ := store.Update(run, None, w.giveUp);
      return run, Some(LimitReached);
    }
    if !w.secret { return run, Some(SecretError); }
    run, err := RunSteps(store, run, w, plan);
  }

  method RunSteps(store: Store, from: Run, w: World, plan: Plan) returns (run: Run, err: Option<Error>)
    modifies store
    ensures Outcome(store.State(), run, err) == Rest(old(store.State()), from, 0, w, plan)
  {
    run := from;
    var commands := ["", plan.bootstrap, plan.installPanel, plan.verify];
    for k := 0 to |STEPS|
      invariant Rest(old(store.State()), from, 0, w, plan) == Rest(store.State(), run, k, w, plan)
    {
      if !IsCompleted(run.step, STEPS[k].0) {
        run, err := RunStep(store, run, k, w.rounds(k), commands[k], plan);
        if err.Some? { return; }
      }
    }
    run := run.(state := Completed, step := Done);
    var ok := store.Update(run, None, w.last);
    err := if ok then None else Some(StoreError);
  }

  /** The body of the loop. */
  method RunStep(store: Store, from: Run, k: nat, r: Round, command: string, ghost plan: Plan) returns (run: Run, err: Option<Error>)
    requires k < |STEPS| && command == CommandOf(plan, k)
    modifies store
    ensures Outcome(store.State(), run, err) == OneRound(old(store.State()), from, k, r, plan)
  {
    var (name, state) := STEPS[k];
    run := from.(state := state, step := name, attempt := from.attempt + 1);
    var ok := store.Update(run, None, r.begin);
    if !ok { return run, Some(StoreError); }
    store.Sleep(r.wait);
    store.Command(run, command, r.call);
    if r.call.Killed? { return run, Some(StepError); }
    store.Sleep(r.took);
    if !r.call.Passed? {
      run := run.(lastError := r.call.message, nextRetry := Some(store.clock + Backoff(run.attempt)));
      if !r.call.Interrupted? { run := run.(state := Failed); }
      var _ := store.Update(run, Some(store.clock), r.end);
      return run, Some(StepError);
    }
    run := run.(step := ProvisionNext(name), lastError := "", nextRetry := None);
    ok := store.Update(run, None, r.end);
    err := if ok then None else Some(StoreError);
  }
}
