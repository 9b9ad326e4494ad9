/**
  The life of droplet rows after they are ready: expiry, replacement, retirement,
  deletion and the restoration of orphans, for one account and any number of workers.
  Workers act on copies of rows read earlier, so every copy may be stale.
 */
module LifecycleProtocol {
  import opened Wrappers
  import opened CreateProtocol

  type RowId = nat
  type DeploymentId = nat

  datatype RowState = Ready | Expiring | Retiring | Deleting | Deleted

  datatype Row = Row(state: RowState, provider: ProviderId, hasProfile: bool, replacement: Option<DeploymentId>)

  /** A row as the due query read it at some earlier time. */
  datatype Item = Item(id: RowId, row: Row)

  /** The tables, and what has happened: the deployment that had replaced each row that
      retired, the delete requests sent, and the rows whose delete saw the droplet gone. */
  datatype Tables = Tables(
    rows: map<RowId, Row>,
    byProvider: map<ProviderId, RowId>,
    deployments: nat,
    ready: set<DeploymentId>,
    started: map<DeploymentId, RowId>,
    deletes: map<RowId, Operation>,
    retired: map<RowId, DeploymentId>,
    sent: multiset<RowId>,
    seenAbsent: set<RowId>)

  datatype DeleteNext = ThenRequest | ThenDone | ThenStop

  datatype Position =
    | Free
    | AtProcess(item: Item)
    | AtStart(item: Item)
    | AtAttach(item: Item, deployment: DeploymentId)
    | AtGate(item: Item)
    | AtMove(item: Item, to: RowState)
    | AtReserve(item: Item)
    | AtGet(item: Item)
    | BeforeRequest(item: Item, op: Operation)
    | AtDeleteUpdate(item: Item, op: Operation, next: DeleteNext)
    | AtRequest(item: Item, op: Operation)
    | AwaitDelete(item: Item, op: Operation)
    | AfterRequest(item: Item, op: Operation)
    | AtOpRecover(id: RowId, provider: ProviderId, gone: bool)
    | AtConfirm(id: RowId, provider: ProviderId)

  datatype LifecycleState = LifecycleState(tables: Tables, workers: map<WorkerId, Position>)

  datatype Deed =
    | ReadDue(id: RowId)
    | Begin(capacity: bool)
    | StartReplacement(ok: bool)
    | Attach(reply: StoreReply)
    | ReadReplacement(ok: bool)
    | MoveRow(reply: StoreReply)
    | Reserve(reply: StoreReply)
    | GetOperation(ok: bool)
    | CheckEgress(ok: bool)
    | UpdateOperation(reply: StoreReply)
    | Request
    | Answer(ok: bool)
    | ReadOperation(id: RowId, gone: bool)
    | WriteRecovered(reply: StoreReply)
    | Confirm(reply: StoreReply)
    | Stop

  datatype Happening =
    | By(w: WorkerId, deed: Deed)
    | Register(id: RowId, provider: ProviderId, hasProfile: bool)
    | Deploy
    | BecomeReady(deployment: DeploymentId)
    | Restore(id: RowId)

  function Empty(): LifecycleState {
    LifecycleState(Tables(map[], map[], 0, {}, map[], map[], map[], multiset{}, {}), map[])
  }

  function PositionOf(s: LifecycleState, w: WorkerId): Position {
    if w in s.workers then s.workers[w] else Free
  }

  /** The unconditional part of ProcessLifecycle: what the engine does with the copy. */
  function Dispatch(item: Item): Position {
    match item.row.state
    case Ready => AtMove(item, Expiring)
    case Expiring => AtMove(item, Retiring)
    case Retiring => AtReserve(item)
    case _ => Free
  }

  /** ProcessLifecycle up to its first store access. */
  function Enter(item: Item, capacity: bool): Position {
    if !item.row.state.Expiring? then Dispatch(item)
    else if !item.row.hasProfile then Free
    else if item.row.replacement.Some? then AtGate(item)
    else if capacity then AtStart(item)
    else Free
  }

  function AfterDelete(item: Item, op: Operation): Position {
    if op.state.Verifying? || op.state.Succeeded? then AtMove(item, Deleting) else Free
  }

  function AfterCheck(p: Position, ok: bool): Position {
    match p
    case BeforeRequest(item, op) =>
      if ok then AtDeleteUpdate(item, op.(state := Running, attempt := op.attempt + 1), ThenRequest)
      else AtDeleteUpdate(item, op.(state := OpState.Unknown), ThenStop)
    case AfterRequest(item, op) =>
      if ok then AtDeleteUpdate(item, op.(state := Verifying), ThenDone)
      else AtDeleteUpdate(item, op.(state := OpState.Unknown), ThenStop)
    case _ => p
  }

  function AfterAnswer(item: Item, op: Operation, ok: bool): Position {
    if ok then AfterRequest(item, op.(resource := Some(item.row.provider)))
    else AtDeleteUpdate(item, op.(state := OpState.Unknown), ThenStop)
  }

  function AfterDeleteUpdate(p: Position, reply: StoreReply): Position
    requires p.AtDeleteUpdate?
  {
    if !reply.Acked? || p.next.ThenStop? then Free
    else if p.next.ThenRequest? then AtRequest(p.item, p.op)
    else AfterDelete(p.item, p.op)
  }

  /** UPDATE droplets SET state=to WHERE id=... AND state=from, from being the copy's state. */
  function Transition(t: Tables, item: Item, to: RowState): Tables {
    if item.id !in t.rows || t.rows[item.id].state != item.row.state then t
    else
      var row := t.rows[item.id];
      var u := t.(rows := t.rows[item.id := row.(state := to)]);
      if to.Retiring? && row.replacement.Some? then u.(retired := u.retired[item.id := row.replacement.value]) else u
  }

  function SetReplacement(t: Tables, id: RowId, d: DeploymentId): Tables {
    if id in t.rows && t.rows[id].replacement.None?
    then t.(rows := t.rows[id := t.rows[id].(replacement := Some(d))]) else t
  }

  function SetOperation(t: Tables, id: RowId, op: Operation): Tables {
    if id in t.deletes then t.(deletes := t.deletes[id := op]) else t
  }

  /** UPDATE droplets SET state='DELETED' WHERE provider_resource_id=p AND state='DELETING'. */
  function ConfirmDeleted(t: Tables, p: ProviderId): Tables {
    if p in t.byProvider && t.byProvider[p] in t.rows && t.rows[t.byProvider[p]].state.Deleting?
    then t.(rows := t.rows[t.byProvider[p] := t.rows[t.byProvider[p]].(state := Deleted)]) else t
  }

  function DoReserve(t: Tables, item: Item, reply: StoreReply): (Tables, Position) {
    if reply.Refused? then (t, Free)
    else if item.id in t.deletes then (t, if reply.Acked? then AtGet(item) else Free)
    else (t.(deletes := t.deletes[item.id := FRESH]), if reply.Acked? then BeforeRequest(item, FRESH) else Free)
  }

  function RecoverOperation(t: Tables, id: RowId, gone: bool, reply: StoreReply): Tables {
    if reply.Refused? || id !in t.deletes then t
    else SetOperation(t, id, t.deletes[id].(state := if gone then Succeeded else OpState.Unknown))
  }

  function Perform(t: Tables, p: Position, deed: Deed): (Tables, Position) {
    match deed
    case ReadDue(id) =>
      if p.Free? && id in t.rows && !t.rows[id].state.Deleted? then (t, AtProcess(Item(id, t.rows[id]))) else (t, p)
    case Begin(capacity) => if p.AtProcess? then (t, Enter(p.item, capacity)) else (t, p)
    case StartReplacement(ok) =>
      if p.AtStart? then
        (t.(deployments := t.deployments + 1, started := t.started[t.deployments := p.item.id]),
         if ok then AtAttach(p.item, t.deployments) else Free)
      else (t, p)
    case Attach(reply) =>
      if p.AtAttach? then (if reply.Refused? then t else SetReplacement(t, p.item.id, p.deployment), Free) else (t, p)
    case ReadReplacement(ok) =>
      if p.AtGate? then
        (t, if ok && p.item.row.replacement.Some? && p.item.row.replacement.value in t.ready then Dispatch(p.item) else Free)
      else (t, p)
    case MoveRow(reply) =>
      if p.AtMove? then (if reply.Refused? then t else Transition(t, p.item, p.to), Free) else (t, p)
    case Reserve(reply) => if p.AtReserve? then DoReserve(t, p.item, reply) else (t, p)
    case GetOperation(ok) =>
      if p.AtGet? then (t, if ok && p.item.id in t.deletes then AfterDelete(p.item, t.deletes[p.item.id]) else Free)
      else (t, p)
    case CheckEgress(ok) => (t, AfterCheck(p, ok))
    case UpdateOperation(reply) =>
      if p.AtDeleteUpdate? then
        (if reply.Refused? then t else SetOperation(t, p.item.id, p.op), AfterDeleteUpdate(p, reply))
      else (t, p)
    case Request => if p.AtRequest? then (t.(sent := t.sent + multiset{p.item.id}), AwaitDelete(p.item, p.op)) else (t, p)
    case Answer(ok) => if p.AwaitDelete? then (t, AfterAnswer(p.item, p.op, ok)) else (t, p)
    case ReadOperation(id, gone) =>
      if p.Free? && id in t.deletes && t.deletes[id].resource.Some? then
        (if gone then t.(seenAbsent := t.seenAbsent + {id}) else t, AtOpRecover(id, t.deletes[id].resource.value, gone))
      else (t, p)
    case WriteRecovered(reply) =>
      if p.AtOpRecover? then
        (RecoverOperation(t, p.id, p.gone, reply), if reply.Acked? && p.gone then AtConfirm(p.id, p.provider) else Free)
      else (t, p)
    case Confirm(reply) =>
      if p.AtConfirm? then (if reply.Refused? then t else ConfirmDeleted(t, p.provider), Free) else (t, p)
    case Stop => (t, Free)
  }

  /** The orphan reconciler: DELETED back to RETIRING, and the replacement is forgotten. */
  function RestoreRow(t: Tables, id: RowId): Tables {
    if id in t.rows && t.rows[id].state.Deleted?
    then t.(rows := t.rows[id := t.rows[id].(state := Retiring, replacement := None)]) else t
  }

  function Happen(s: LifecycleState, h: Happening): LifecycleState {
    match h
    case By(w, deed) =>
      var (t, p) := Perform(s.tables, PositionOf(s, w), deed);
      LifecycleState(t, s.workers[w := p])
    case Register(id, provider, hasProfile) =>
      if id in s.tables.rows || provider in s.tables.byProvider then s
      else s.(tables := s.tables.(rows := s.tables.rows[id := Row(Ready, provider, hasProfile, None)],
                                  byProvider := s.tables.byProvider[provider := id]))
    case Deploy => s.(tables := s.tables.(deployments := s.tables.deployments + 1))
    case BecomeReady(d) =>
      if d < s.tables.deployments then s.(tables := s.tables.(ready := s.tables.ready + {d})) else s
    case Restore(id) => s.(tables := RestoreRow(s.tables, id))
  }

  function History(hs: seq<Happening>): LifecycleState
    decreases |hs|
  {
    if hs == [] then Empty() else Happen(History(hs[..|hs| - 1]), hs[|hs| - 1])
  }
}
