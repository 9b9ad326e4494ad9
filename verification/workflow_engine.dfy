/**
  The seven-step workflow engine over one deployment row. A run is given a world: how the
  store and the step functions answer it. A crash at a store statement leaves the row as
  it was or as it was to become, like a failed statement; a crash inside a step function
  is the answer `Killed`.
 */
module WorkflowEngine {
  import opened Wrappers
  import opened Checkpoints

  datatype State =
    | Planned | Creating | WaitingResource | Provisioning | ImportingDatabase
    | ConfiguringPanel | RegisteringClients | RegisteringTraffic | Ready | Failed

  datatype Step = Create | WaitResource | Provision | Database | Panel | Clients | Traffic | Done

  const STEPS: seq<(Step, State)> := [
    (Create, Creating), (WaitResource, WaitingResource), (Provision, Provisioning),
    (Database, ImportingDatabase), (Panel, ConfiguringPanel), (Clients, RegisteringClients),
    (Traffic, RegisteringTraffic)]

  function Rank(s: Step): nat {
    match s
    case Create => 0
    case WaitResource => 1
    case Provision => 2
    case Database => 3
    case Panel => 4
    case Clients => 5
    case Traffic => 6
    case Done => 7
  }

  function NextStep(s: Step): Step {
    match s
    case Create => WaitResource
    case WaitResource => Provision
    case Provision => Database
    case Database => Panel
    case Panel => Clients
    case Clients => Traffic
    case _ => Done
  }

  predicate IsDone(current: Step, target: Step) {
    Rank(current) > Rank(target)
  }

  datatype Deployment = Deployment(
    droplet: string, provider: string, state: State, step: Step, attempt: nat, lastError: string)

  datatype Answer =
    | Passed(droplet: string, provider: string)
    | Errored(message: string, droplet: string, provider: string)
    | Killed

  /** A call of a step function: the deployment it is handed, and how it answers. */
  datatype Asked = Asked(d: Deployment, answer: Answer)

  /** What an observer of the runs sees: calls of step functions, and rows stored. */
  type Log = seq<Effect<Asked, Deployment>>

  datatype Disk = Disk(row: Deployment, log: Log)

  datatype Round = Round(begin: StoreReply, call: Answer, end: StoreReply)

  datatype World = World(reserved: bool, rounds: nat -> Round, last: StoreReply)

  datatype Outcome = Outcome(disk: Disk, d: Deployment, err: Option<string>)

  const STORE_ERROR: string := "store"

  // ---- the specification ----

  function Put(disk: Disk, d: Deployment, reply: StoreReply): Disk {
    if reply.Refused? then disk else Disk(d, disk.log + [Stored(Rank(d.step), d)])
  }

  function Note(disk: Disk, d: Deployment, call: Answer): Disk {
    disk.(log := disk.log + [Called(Rank(d.step), call.Passed?, Asked(d, call))])
  }

  function Begun(d: Deployment, k: nat): Deployment
    requires k < |STEPS|
  {
    d.(state := STEPS[k].1, step := STEPS[k].0, attempt := d.attempt + 1)
  }

  function AfterCall(disk: Disk, d: Deployment, k: nat, call: Answer, end: StoreReply): Outcome
    requires k < |STEPS|
  {
    match call
    case Killed => Outcome(Note(disk, d, call), d, Some("killed"))
    case Errored(message, droplet, provider) =>
      var e := d.(droplet := droplet, provider := provider, lastError := message);
      Outcome(Put(Note(disk, d, call), e, end), e, Some(message))
    case Passed(droplet, provider) =>
      var e := d.(droplet := droplet, provider := provider, step := NextStep(STEPS[k].0));
      Outcome(Put(Note(disk, d, call), e, end), e, if end.Acked? then None else Some(STORE_ERROR))
  }

  function OneRound(disk: Disk, d: Deployment, k: nat, r: Round): Outcome
    requires k < |STEPS|
  {
    var e := Begun(d, k);
    if r.begin.Acked? then AfterCall(Put(disk, e, r.begin), e, k, r.call, r.end)
    else Outcome(Put(disk, e, r.begin), e, Some(STORE_ERROR))
  }

  function Finish(disk: Disk, d: Deployment, last: StoreReply): Outcome {
    var e := d.(state := Ready, step := Done, lastError := "");
    Outcome(Put(disk, e, last), e, if last.Acked? then None else Some(STORE_ERROR))
  }

  function Rest(disk: Disk, d: Deployment, k: nat, w: World): Outcome
    requires k <= |STEPS|
    decreases |STEPS| - k
  {
    if k == |STEPS| then Finish(disk, d, w.last)
    else if IsDone(d.step, STEPS[k].0) then Rest(disk, d, k + 1, w)
    else
      var o := OneRound(disk, d, k, w.rounds(k));
      if o.err.Some? then o else Rest(o.disk, o.d, k + 1, w)
  }

  function RunOnce(disk: Disk, w: World): Outcome {
    if !w.reserved then Outcome(disk, disk.row, Some(STORE_ERROR))
    else if disk.row.state.Ready? then Outcome(disk, disk.row, None)
    else Rest(disk, disk.row, 0, w)
  }

  // ---- the engine ----

  /** The deployments table, as far as one row goes. */
  class Store {
    var row: Deployment
    ghost var log: Log

    ghost function State(): Disk reads this {
      Disk(row, log)
    }

    constructor (row: Deployment)
      ensures State() == Disk(row, [])
    {
      this.row, log := row, [];
    }

    method Update(d: Deployment, reply: StoreReply) returns (ok: bool)
      modifies this
      ensures State() == Put(old(State()), d, reply) && ok == reply.Acked?
    {
      if !reply.Refused? { row, log := d, log + [Stored(Rank(d.step), d)]; }
      ok := reply.Acked?;
    }

    /** The step function of `d.step`: the outside world answers, and only the two ids may
        change. */
    method Call(d: Deployment, answer: Answer) returns (e: Deployment, err: Option<string>)
      modifies this
      ensures State() == Note(old(State()), d, answer)
      ensures err.None? <==> answer.Passed?
      ensures !answer.Killed? ==> e == d.(droplet := answer.droplet, provider := answer.provider)
      ensures answer.Errored? ==> err == Some(answer.message)
      ensures answer.Killed? ==> e == d && err == Some("killed")
    {
      log := log + [Called(Rank(d.step), answer.Passed?, Asked(d, answer))];
      match answer
      case Passed(droplet, provider) => return d.(droplet := droplet, provider := provider), None;
      case Errored(message, droplet, provider) => return d.(droplet := droplet, provider := provider), Some(message);
      case Killed => return d, Some("killed");
    }
  }

  /** The loop of the code does what the specification says, in every world. */
  method Run(store: Store, w: World) returns (d: Deployment, err: Option<string>)
    modifies store
    ensures Outcome(store.State(), d, err) == RunOnce(old(store.State()), w)
  {
    d := store.row;
    if !w.reserved { return d, Some(STORE_ERROR); }
    if d.state == Ready { return d, None; }
    for k := 0 to |STEPS|
      invariant RunOnce(old(store.State()), w) == Rest(store.State(), d, k, w)
    {
      if !IsDone(d.step, STEPS[k].0) {
        d, err := RunStep(store, d, k, w.rounds(k));
        if err.Some? { return; }
      }
    }
    d := d.(state := Ready, step := Done, lastError := "");
    var ok := store.Update(d, w.last);
    err := if ok then None else Some(STORE_ERROR);
  }

  /** The body of the loop. */
  method RunStep(store: Store, from: Deployment, k: nat, r: Round) returns (d: Deployment, err: Option<string>)
    requires k < |STEPS|
    modifies store
    ensures Outcome(store.State(), d, err) == OneRound(old(store.State()), from, k, r)
  {
    var (name, state) := STEPS[k];
    d := from.(state := state, step := name, attempt := from.attempt + 1);
    var ok := store.Update(d, r.begin);
    if !ok { return d, Some(STORE_ERROR); }
    d, err := store.Call(d, r.call);
    if err.Some? {
      if r.call.Killed? { return; }
      d := d.(lastError := err.value);
      var _ := store.Update(d, r.end);
      return;
    }
    d := d.(step := NextStep(name));
    ok := store.Update(d, r.end);
    if !ok { err := Some(STORE_ERROR); }
  }
}
