/**
  Creating the droplet of one deployment, as a state machine over atomic actions.

  Any number of workers run the region loop of the create step against one shared
  ledger and one provider. Every SQL statement, every message to the provider and
  every creation inside the provider is one event. An event that is not enabled
  changes nothing, so a run is any sequence of events at all.
 */
module CreateProtocol {
  import opened Wrappers
  import opened ProviderErrors

  type Region = string
  type WorkerId = nat
  type ProviderId = int

  datatype OpState = Planned | Running | Verifying | Succeeded | Failed | Unknown

  /** A row of the operations table. */
  datatype Operation = Operation(state: OpState, resource: Option<ProviderId>, attempt: nat)

  /** What the provider did with a create request; a request may be pending for ever. */
  datatype CallStatus = Pending | Rejected(error: Error) | Created(id: ProviderId)

  datatype Call = Call(region: Region, status: CallStatus)

  /** A droplet as the provider lists it. */
  datatype Listed = Listed(id: ProviderId, name: string, region: Region, tags: seq<string>)

  /** What a deployment fixes once its profile snapshot is attached. When `strict`
      holds, every definite rejection creates nothing; otherwise only 400 and 422 do. */
  datatype Config = Config(regions: seq<Region>, tag: string, name: string, strict: bool)

  /** A ledger row in order of its creation time, with the run that inserted it. */
  datatype Entry = Entry(region: Region, run: nat)

  /** What follows a row update of the executor. */
  datatype Next = ThenCall | ThenSucceed | ThenReturn(error: Error)

  datatype Pc =
    | Idle
    | AtInsert(i: nat)
    | AtSelect(i: nat)
    | PreEgress(i: nat, op: Operation)
    | AtUpdate(i: nat, op: Operation, next: Next)
    | AtCall(i: nat, op: Operation)
    | AwaitReply(i: nat, op: Operation, call: nat)
    | PostEgress(i: nat, op: Operation)
    | AtList(i: nat, op: Operation)
    | AtAdopt(i: nat, op: Operation)
    | AtRecover(region: Region, state: OpState)
    | AtCheck(region: Region, op: Operation)
    | AtVerify(region: Region, op: Operation)
    | Returned(error: Option<Error>, provider: Option<ProviderId>)

  datatype Worker = Worker(pc: Pc, run: nat)

  /** What outlives a worker: the ledger rows, their order of insertion, and the create
      requests the provider has received. */
  datatype Books = Books(ledger: map<Region, Operation>, order: seq<Entry>, calls: seq<Call>)

  datatype State = State(books: Books, workers: map<WorkerId, Worker>, nextRun: nat)

  /** What one worker can do next, and how the outside world answers it. */
  datatype Action =
    | Blocked
    | Insert(reply: StoreReply)
    | Select(ok: bool)
    | Egress(ok: bool)
    | Write(reply: StoreReply)
    | Send
    | ReplyCreated
    | ReplyError(error: Error)
    | ListFailed(error: Error)
    | ListOk(items: seq<Listed>)
    | RecoverRead(region: Region, exists_: bool)
    | VerifyLoad(region: Region)
    | VerifyRead(found: bool)

  datatype Event =
    | Start(w: WorkerId)
    | Crash(w: WorkerId)
    | Do(w: WorkerId, action: Action)
    | Materialize(call: nat, id: ProviderId)

  const FRESH: Operation := Operation(Planned, None, 0)

  function Init(): State {
    State(Books(map[], [], []), map[], 0)
  }

  function PcOf(s: State, w: WorkerId): Pc {
    if w in s.workers then s.workers[w].pc else Idle
  }

  function RunOf(s: State, w: WorkerId): nat {
    if w in s.workers then s.workers[w].run else 0
  }

  function CreatedIds(b: Books): set<ProviderId> {
    set k | 0 <= k < |b.calls| && b.calls[k].status.Created? :: b.calls[k].status.id
  }

  /** Droplet `id` came out of a create request of this deployment for region `r`. */
  predicate CreatedIn(b: Books, id: ProviderId, r: Region) {
    exists k :: 0 <= k < |b.calls| && b.calls[k] == Call(r, Created(id))
  }

  predicate Rejects(c: Config, e: Error) {
    (e.Http? && (e.status == 400 || e.status == 422)) || (c.strict && IsDefinite(e))
  }

  /** The region loop when the executor returned error `e` for region `i`. */
  function Finish(c: Config, i: nat, e: Error): Pc {
    if Advances(e) && i + 1 < |c.regions| then AtInsert(i + 1) else Returned(Some(e), None)
  }

  /** The region loop when the executor returned `op` and no error. */
  function Accept(op: Operation): Pc {
    if op.resource.Some? then Returned(None, op.resource) else Returned(Some(OutcomeStillUnknown), None)
  }

  function FailureState(e: Error): OpState {
    if IsDefinite(e) then Failed else OpState.Unknown
  }

  predicate Matches(d: Listed, tag: string, name: string, region: Region) {
    && (if tag != "" then tag in d.tags else d.name == name)
    && (region == "" || d.region == region)
  }

  function Matching(items: seq<Listed>, tag: string, name: string, region: Region): seq<Listed> {
    if items == [] then []
    else
      var rest := Matching(items[..|items| - 1], tag, name, region);
      if Matches(items[|items| - 1], tag, name, region) then rest + [items[|items| - 1]] else rest
  }

  /** The provider may omit droplets, repeat them and list foreign ones; a droplet that
      carries the identity tag of this deployment was created for it. */
  predicate Honest(c: Config, b: Books, items: seq<Listed>) {
    forall n :: 0 <= n < |items| && c.tag in items[n].tags ==> CreatedIn(b, items[n].id, items[n].region)
  }

  function Adopted(op: Operation, id: ProviderId): Operation {
    op.(resource := Some(id), state := Verifying)
  }

  function AfterUpdate(c: Config, i: nat, op: Operation, next: Next, reply: StoreReply): Pc {
    match next
    case ThenCall => if reply.Acked? then AtCall(i, op) else Finish(c, i, StoreFailure)
    case ThenSucceed => AfterFinalWrite(c, i, op, reply)
    case ThenReturn(e) => Finish(c, i, e)
  }

  function AfterFinalWrite(c: Config, i: nat, op: Operation, reply: StoreReply): Pc {
    if reply.Acked? then Accept(op) else Finish(c, i, StoreFailure)
  }

  function AfterSelect(row: Operation, i: nat): Pc {
    if row.state.Unknown? && row.resource.None? then AtList(i, row) else Accept(row)
  }

  function AfterList(c: Config, i: nat, op: Operation, items: seq<Listed>): Pc
    requires i < |c.regions|
  {
    var m := Matching(items, c.tag, c.name, c.regions[i]);
    if |m| == 1 then AtAdopt(i, Adopted(op, m[0].id)) else Finish(c, i, OutcomeStillUnknown)
  }

  /** Verification of a row read earlier, once the provider has listed its droplets. */
  function AfterListing(r: Region, op: Operation, found: bool): Pc {
    if found && op.resource.Some? && (op.state.Verifying? || op.state.Unknown?)
    then AtVerify(r, op.(state := Succeeded)) else Idle
  }

  function NewRow(b: Books, r: Region, run: nat): Books {
    b.(ledger := b.ledger[r := FRESH], order := b.order + [Entry(r, run)])
  }

  function Store(b: Books, r: Region, op: Operation, reply: StoreReply): Books {
    if reply.Refused? || r !in b.ledger then b else b.(ledger := b.ledger[r := op])
  }

  function Resolve(b: Books, k: nat, status: CallStatus): Books
    requires k < |b.calls|
  {
    b.(calls := b.calls[k := b.calls[k].(status := status)])
  }

  function AfterEgress(pc: Pc, ok: bool): Pc {
    match pc
    case PreEgress(i, op) =>
      if ok then AtUpdate(i, op.(state := Running, attempt := op.attempt + 1), ThenCall)
      else AtUpdate(i, op.(state := OpState.Unknown), ThenReturn(EgressChanged))
    case PostEgress(i, op) =>
      if ok then AtUpdate(i, op.(state := Verifying), ThenSucceed)
      else AtUpdate(i, op.(state := OpState.Unknown), ThenReturn(EgressChanged))
    case _ => pc
  }

  function AfterError(i: nat, op: Operation, e: Error): Pc {
    AtUpdate(i, op.(state := FailureState(e)), ThenReturn(e))
  }

  predicate Resting(pc: Pc) {
    pc.Idle? || pc.Returned?
  }

  /** Actions that only move the worker; the books are read, not written. */
  function Move(c: Config, b: Books, pc: Pc, a: Action): Pc {
    match a
    case Blocked => if pc.AtInsert? then Finish(c, pc.i, MutationBlocked) else pc
    case Select(ok) =>
      if !pc.AtSelect? then pc
      else if !ok || pc.i >= |c.regions| || c.regions[pc.i] !in b.ledger then Finish(c, pc.i, StoreFailure)
      else AfterSelect(b.ledger[c.regions[pc.i]], pc.i)
    case Egress(ok) => AfterEgress(pc, ok)
    case ReplyCreated =>
      if pc.AwaitReply? && pc.call < |b.calls| && b.calls[pc.call].status.Created?
      then PostEgress(pc.i, pc.op.(resource := Some(b.calls[pc.call].status.id))) else pc
    case ListFailed(e) => if pc.AtList? && FromGet(e) then Finish(c, pc.i, e) else pc
    case ListOk(items) =>
      if pc.AtList? && pc.i < |c.regions| && Honest(c, b, items) then AfterList(c, pc.i, pc.op, items) else pc
    case RecoverRead(r, found) =>
      if Resting(pc) && r in b.ledger && b.ledger[r].resource.Some?
      then AtRecover(r, if found then Succeeded else OpState.Unknown) else pc
    case VerifyLoad(r) => if Resting(pc) && r in b.ledger then AtCheck(r, b.ledger[r]) else pc
    case VerifyRead(found) => if pc.AtCheck? then AfterListing(pc.region, pc.op, found) else pc
    case _ => pc
  }

  function ActInsert(c: Config, b: Books, i: nat, run: nat, reply: StoreReply): (Books, Pc)
    requires i < |c.regions|
  {
    var r := c.regions[i];
    if reply.Refused? then (b, Finish(c, i, StoreFailure))
    else if r in b.ledger then (b, if reply.Acked? then AtSelect(i) else Finish(c, i, StoreFailure))
    else (NewRow(b, r, run), if reply.Acked? then PreEgress(i, FRESH) else Finish(c, i, StoreFailure))
  }

  function ActWrite(c: Config, b: Books, pc: Pc, reply: StoreReply): (Books, Pc) {
    if pc.AtUpdate? && pc.i < |c.regions| then
      (Store(b, c.regions[pc.i], pc.op, reply), AfterUpdate(c, pc.i, pc.op, pc.next, reply))
    else if pc.AtAdopt? && pc.i < |c.regions| then
      (Store(b, c.regions[pc.i], pc.op, reply), AfterFinalWrite(c, pc.i, pc.op, reply))
    else if pc.AtVerify? then (Store(b, pc.region, pc.op, reply), Idle)
    else if pc.AtRecover? then
      (if pc.region in b.ledger then Store(b, pc.region, b.ledger[pc.region].(state := pc.state), reply) else b, Idle)
    else (b, pc)
  }

  function ActReplyError(c: Config, b: Books, pc: Pc, e: Error): (Books, Pc) {
    if !pc.AwaitReply? then (b, pc)
    else if !Rejects(c, e) then (b, AfterError(pc.i, pc.op, e))
    else if pc.call < |b.calls| && b.calls[pc.call].status.Pending? then
      (Resolve(b, pc.call, Rejected(e)), AfterError(pc.i, pc.op, e))
    else (b, pc)
  }

  function ActSend(c: Config, b: Books, i: nat, op: Operation): (Books, Pc)
    requires i < |c.regions|
  {
    (b.(calls := b.calls + [Call(c.regions[i], Pending)]), AwaitReply(i, op, |b.calls|))
  }

  /** What one action of a worker at `pc` does to the books and to the worker. */
  function Act(c: Config, b: Books, pc: Pc, run: nat, a: Action): (Books, Pc) {
    match a
    case Insert(reply) => if pc.AtInsert? && pc.i < |c.regions| then ActInsert(c, b, pc.i, run, reply) else (b, pc)
    case Write(reply) => ActWrite(c, b, pc, reply)
    case Send => if pc.AtCall? && pc.i < |c.regions| then ActSend(c, b, pc.i, pc.op) else (b, pc)
    case ReplyError(e) => ActReplyError(c, b, pc, e)
    case _ => (b, Move(c, b, pc, a))
  }

  /** One event. An action that does not fit the position of its worker does nothing. */
  function Apply(c: Config, s: State, e: Event): State {
    match e
    case Start(w) =>
      if PcOf(s, w).Idle? || PcOf(s, w).Returned? then
        s.(workers := s.workers[w := Worker(AtInsert(0), s.nextRun)], nextRun := s.nextRun + 1)
      else s
    case Crash(w) => At(s, w, s.books, Idle)
    case Do(w, a) =>
      var (b, pc) := Act(c, s.books, PcOf(s, w), RunOf(s, w), a);
      At(s, w, b, pc)
    case Materialize(k, id) =>
      if k < |s.books.calls| && s.books.calls[k].status.Pending? && id !in CreatedIds(s.books) then
        s.(books := Resolve(s.books, k, Created(id)))
      else s
  }

  function At(s: State, w: WorkerId, b: Books, pc: Pc): State {
    s.(books := b, workers := s.workers[w := Worker(pc, RunOf(s, w))])
  }

  function Run(c: Config, s: State, es: seq<Event>): State
    decreases |es|
  {
    if es == [] then s else Apply(c, Run(c, s, es[..|es| - 1]), es[|es| - 1])
  }
}
