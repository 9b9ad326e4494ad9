/** The inductive invariant of the row lifecycle, and that every happening keeps it. */
module LifecycleInvariant {
  import opened Wrappers
  import opened CreateProtocol
  import opened LifecycleProtocol

  ghost predicate Late(state: RowState) {
    state.Retiring? || state.Deleting? || state.Deleted?
  }

  ghost predicate StartedFor(t: Tables, d: DeploymentId, id: RowId) {
    d < t.deployments && d in t.started && t.started[d] == id
  }

  ghost predicate ReplacedBy(t: Tables, d: DeploymentId, id: RowId) {
    StartedFor(t, d, id) && d in t.ready
  }

  /** The delete of the row was requested, and the provider said yes. */
  ghost predicate Accepted(t: Tables, id: RowId) {
    id in t.deletes && t.deletes[id].resource.Some?
  }

  ghost predicate OperationOk(t: Tables, id: RowId, op: Operation) {
    && id in t.rows && Late(t.rows[id].state)
    && (op.resource.Some? ==> op.resource.value == t.rows[id].provider && t.sent[id] == 1)
    && (op.state.Verifying? || op.state.Succeeded? ==> op.resource.Some?)
  }

  ghost predicate RowOk(t: Tables, id: RowId, row: Row) {
    && row.provider in t.byProvider && t.byProvider[row.provider] == id
    && (row.replacement.Some? ==> StartedFor(t, row.replacement.value, id))
    && (Late(row.state) <==> id in t.retired)
    && (row.state.Deleting? || row.state.Deleted? ==> Accepted(t, id))
    && (row.state.Deleted? ==> id in t.seenAbsent)
  }

  ghost predicate RowsOk(t: Tables) {
    forall id :: id in t.rows ==> RowOk(t, id, t.rows[id])
  }

  ghost predicate DeletesOk(t: Tables) {
    forall id :: id in t.deletes ==> OperationOk(t, id, t.deletes[id])
  }

  ghost predicate RetiredOk(t: Tables) {
    forall id :: id in t.retired ==> id in t.rows && ReplacedBy(t, t.retired[id], id)
  }

  ghost predicate SentOk(t: Tables) {
    forall id :: t.sent[id] <= 1 && (t.sent[id] > 0 ==> id in t.deletes)
  }

  ghost predicate TablesOk(t: Tables) {
    RowsOk(t) && DeletesOk(t) && RetiredOk(t) && SentOk(t) && forall d :: d in t.started ==> d < t.deployments
  }

  /** What a stale copy still tells about its row. */
  ghost predicate CopyOk(t: Tables, item: Item) {
    && item.id in t.rows
    && item.row.provider == t.rows[item.id].provider
    && (Late(item.row.state) ==> Late(t.rows[item.id].state))
    && (item.row.replacement.Some? ==>
          && StartedFor(t, item.row.replacement.value, item.id)
          && (Late(t.rows[item.id].state) || t.rows[item.id].replacement == item.row.replacement))
  }

  /** The worker that reserved the delete operation of a row and has not finished. */
  ghost predicate Owns(p: Position) {
    p.BeforeRequest? || p.AtDeleteUpdate? || p.AtRequest? || p.AwaitDelete? || p.AfterRequest?
  }

  ghost predicate OwnerOk(t: Tables, p: Position)
    requires Owns(p)
  {
    var id := p.item.id;
    && CopyOk(t, p.item) && p.item.row.state.Retiring?
    && id in t.deletes && t.deletes[id].resource.None?
    && match p
       case BeforeRequest(item, op) => op == FRESH && t.sent[id] == 0
       case AtRequest(item, op) => op.resource.None? && op.state.Running? && t.sent[id] == 0
       case AwaitDelete(item, op) => op.resource.None? && op.state.Running? && t.sent[id] == 1
       case AfterRequest(item, op) => op.resource == Some(item.row.provider) && op.state.Running? && t.sent[id] == 1
       case AtDeleteUpdate(item, op, next) => UpdateReady(t, id, item.row.provider, op, next)
       case _ => true
  }

  ghost predicate UpdateReady(t: Tables, id: RowId, provider: ProviderId, op: Operation, next: DeleteNext) {
    && (op.resource.Some? ==> op.resource.value == provider && t.sent[id] == 1)
    && (next.ThenRequest? ==> op.resource.None? && op.state.Running? && t.sent[id] == 0)
    && (next.ThenDone? ==> op.resource.Some? && op.state.Verifying?)
    && (next.ThenStop? ==> op.state.Unknown?)
  }

  ghost predicate PassiveOk(t: Tables, p: Position)
    requires !Owns(p)
  {
    match p
    case Free => true
    case AtProcess(item) => CopyOk(t, item)
    case AtStart(item) => CopyOk(t, item) && item.row.state.Expiring?
    case AtAttach(item, d) => CopyOk(t, item) && StartedFor(t, d, item.id)
    case AtGate(item) => CopyOk(t, item) && item.row.state.Expiring? && item.row.replacement.Some?
    case AtMove(item, to) => CopyOk(t, item) && MoveOk(t, item, to)
    case AtReserve(item) => CopyOk(t, item) && item.row.state.Retiring?
    case AtGet(item) => CopyOk(t, item) && item.row.state.Retiring? && item.id in t.deletes
    case AtOpRecover(id, provider, gone) => RecoverOk(t, id, provider) && (gone ==> id in t.seenAbsent)
    case AtConfirm(id, provider) => RecoverOk(t, id, provider) && id in t.seenAbsent
  }

  ghost predicate RecoverOk(t: Tables, id: RowId, provider: ProviderId) {
    Accepted(t, id) && id in t.rows && t.rows[id].provider == provider
  }

  ghost predicate MoveOk(t: Tables, item: Item, to: RowState) {
    match to
    case Expiring => item.row.state.Ready?
    case Retiring =>
      item.row.state.Expiring? && item.row.replacement.Some? && ReplacedBy(t, item.row.replacement.value, item.id)
    case Deleting => item.row.state.Retiring? && Accepted(t, item.id)
    case _ => false
  }

  ghost predicate PositionOk(t: Tables, p: Position) {
    if Owns(p) then OwnerOk(t, p) else PassiveOk(t, p)
  }

  ghost predicate NoOtherOwner(s: LifecycleState, w: WorkerId, id: RowId) {
    forall v :: v in s.workers && v != w && Owns(s.workers[v]) ==> s.workers[v].item.id != id
  }

  ghost predicate LifecycleInv(s: LifecycleState) {
    && TablesOk(s.tables)
    && (forall w :: w in s.workers ==> PositionOk(s.tables, s.workers[w]))
    && (forall w :: w in s.workers && Owns(s.workers[w]) ==> NoOtherOwner(s, w, s.workers[w].item.id))
  }

  // ---- frames ----

  ghost predicate RowsEvolve(rows: map<RowId, Row>, rows': map<RowId, Row>) {
    forall id :: id in rows ==> id in rows' && RowEvolves(rows[id], rows'[id])
  }

  ghost predicate DeletesEvolve(ops: map<RowId, Operation>, ops': map<RowId, Operation>) {
    forall id :: id in ops ==> id in ops' && (ops[id].resource.Some? ==> ops'[id].resource.Some?)
  }

  ghost predicate StartsEvolve(t: Tables, u: Tables) {
    && t.deployments <= u.deployments
    && (forall d :: d in t.started && d < t.deployments ==> d in u.started && u.started[d] == t.started[d])
  }

  /** How the tables may change under the feet of a passive worker. */
  ghost predicate Evolves(t: Tables, u: Tables) {
    && t.ready <= u.ready && t.seenAbsent <= u.seenAbsent
    && StartsEvolve(t, u) && RowsEvolve(t.rows, u.rows) && DeletesEvolve(t.deletes, u.deletes)
  }

  ghost predicate RowEvolves(r: Row, r': Row) {
    && r'.provider == r.provider
    && (Late(r.state) ==> Late(r'.state))
    && (Late(r'.state) || r.replacement.None? || r'.replacement == r.replacement)
  }

  lemma CopyEvolves(t: Tables, u: Tables, item: Item)
    requires Evolves(t, u) && CopyOk(t, item)
    ensures CopyOk(u, item)
  {
    assert RowEvolves(t.rows[item.id], u.rows[item.id]);
  }

  lemma PassiveEvolves(t: Tables, u: Tables, p: Position)
    requires Evolves(t, u) && !Owns(p) && PassiveOk(t, p)
    ensures PassiveOk(u, p)
  {
    if p.AtOpRecover? || p.AtConfirm? {
      assert RowEvolves(t.rows[p.id], u.rows[p.id]);
    } else if !p.Free? {
      CopyEvolves(t, u, p.item);
    }
  }

  /** The delete operation of row `id` and its request are as they were. */
  ghost predicate SameDelete(t: Tables, u: Tables, id: RowId) {
    u.sent[id] == t.sent[id] && (id in t.deletes ==> id in u.deletes && (t.deletes[id].resource.None? ==> u.deletes[id] == t.deletes[id]))
  }

  lemma OwnerEvolves(t: Tables, u: Tables, p: Position)
    requires Evolves(t, u) && Owns(p) && OwnerOk(t, p) && SameDelete(t, u, p.item.id)
    ensures OwnerOk(u, p)
  {
    CopyEvolves(t, u, p.item);
    assert RowEvolves(t.rows[p.item.id], u.rows[p.item.id]);
  }

  // ---- one deed at a time ----

  /** What one deed promises to everybody. */
  ghost predicate Sound(t: Tables, p: Position, next: (Tables, Position)) {
    var (u, q) := next;
    && TablesOk(u) && PositionOk(u, q) && Evolves(t, u)
    && (forall id :: SameDelete(t, u, id) || (Owns(p) && p.item.id == id))
    && (Owns(q) ==> (Owns(p) && p.item.id == q.item.id) || q.item.id !in t.deletes)
  }

  lemma StaySound(t: Tables, p: Position, q: Position)
    requires TablesOk(t) && PositionOk(t, q)
    requires Owns(q) ==> Owns(p) && p.item.id == q.item.id
    ensures Sound(t, p, (t, q))
  {
  }

  lemma EnterOk(t: Tables, item: Item, capacity: bool)
    requires CopyOk(t, item)
    ensures PositionOk(t, Enter(item, capacity)) && !Owns(Enter(item, capacity))
  {
  }

  lemma ReadDueSound(t: Tables, p: Position, id: RowId)
    requires TablesOk(t) && PositionOk(t, p)
    ensures Sound(t, p, Perform(t, p, ReadDue(id)))
  {
    if id in t.rows { assert RowOk(t, id, t.rows[id]); }
    StaySound(t, p, Perform(t, p, ReadDue(id)).1);
  }

  lemma BeginSound(t: Tables, p: Position, capacity: bool)
    requires TablesOk(t) && PositionOk(t, p)
    ensures Sound(t, p, Perform(t, p, Begin(capacity)))
  {
    if p.AtProcess? { EnterOk(t, p.item, capacity); }
    StaySound(t, p, Perform(t, p, Begin(capacity)).1);
  }

  lemma StartSound(t: Tables, p: Position, ok: bool)
    requires TablesOk(t) && PositionOk(t, p)
    ensures Sound(t, p, Perform(t, p, StartReplacement(ok)))
  {
    if p.AtStart? {
      var u := Perform(t, p, StartReplacement(ok)).0;
      assert forall d :: d in t.started ==> d < t.deployments;
      GrowingTablesOk(t, u);
      CopyEvolves(t, u, p.item);
    } else {
      StaySound(t, p, p);
    }
  }

  /** Tables stay well formed when only deployments and their state are added. */
  lemma GrowingTablesOk(t: Tables, u: Tables)
    requires TablesOk(t)
    requires u.rows == t.rows && u.byProvider == t.byProvider && u.deletes == t.deletes
    requires u.retired == t.retired && u.sent == t.sent && t.seenAbsent <= u.seenAbsent
    requires t.deployments <= u.deployments && t.ready <= u.ready
    requires forall d :: d in u.started ==> d < u.deployments
    requires forall d :: d in t.started ==> d in u.started && u.started[d] == t.started[d]
    ensures TablesOk(u) && Evolves(t, u) && forall id :: SameDelete(t, u, id)
  {
    assert RowsOk(u) && DeletesOk(u) && RetiredOk(u) by {
      forall id | id in u.rows ensures RowOk(u, id, u.rows[id]) {
        assert RowOk(t, id, t.rows[id]);
      }
    }
  }

  /** One row changes into a well-formed successor; the retirement log may gain it. */
  ghost predicate RowChange(t: Tables, u: Tables, id: RowId) {
    && id in t.rows && id in u.rows
    && u == t.(rows := t.rows[id := u.rows[id]], retired := u.retired)
    && RowEvolves(t.rows[id], u.rows[id]) && RowOk(u, id, u.rows[id])
    && (u.retired == t.retired ||
        (id in u.retired && u.retired == t.retired[id := u.retired[id]] && ReplacedBy(t, u.retired[id], id)))
  }

  lemma RowChangeOk(t: Tables, u: Tables, id: RowId)
    requires TablesOk(t) && RowChange(t, u, id)
    ensures TablesOk(u) && Evolves(t, u) && forall k :: SameDelete(t, u, k)
  {
    RowChangeRows(t, u, id);
    RowChangeEvolves(t, u, id);
    RowChangeDeletes(t, u, id);
    assert RetiredOk(u);
  }

  lemma RowChangeRows(t: Tables, u: Tables, id: RowId)
    requires RowsOk(t) && RowChange(t, u, id)
    ensures RowsOk(u)
  {
    forall k | k in u.rows ensures RowOk(u, k, u.rows[k]) {
      assert RowOk(t, k, t.rows[k]);
    }
  }

  lemma RowChangeEvolves(t: Tables, u: Tables, id: RowId)
    requires RowChange(t, u, id)
    ensures Evolves(t, u) && forall k :: SameDelete(t, u, k)
  {
  }

  lemma RowChangeDeletes(t: Tables, u: Tables, id: RowId)
    requires DeletesOk(t) && RowChange(t, u, id)
    ensures DeletesOk(u)
  {
    forall k | k in u.deletes ensures OperationOk(u, k, u.deletes[k]) {
      assert OperationOk(t, k, t.deletes[k]);
    }
  }

  lemma AttachSound(t: Tables, p: Position, reply: StoreReply)
    requires TablesOk(t) && PositionOk(t, p)
    ensures Sound(t, p, Perform(t, p, Attach(reply)))
  {
    if p.AtAttach? && !reply.Refused? && t.rows[p.item.id].replacement.None? {
      assert RowOk(t, p.item.id, t.rows[p.item.id]);
      RowChangeOk(t, SetReplacement(t, p.item.id, p.deployment), p.item.id);
    } else {
      StaySound(t, p, Perform(t, p, Attach(reply)).1);
    }
  }

  lemma ReadReplacementSound(t: Tables, p: Position, ok: bool)
    requires TablesOk(t) && PositionOk(t, p)
    ensures Sound(t, p, Perform(t, p, ReadReplacement(ok)))
  {
    StaySound(t, p, Perform(t, p, ReadReplacement(ok)).1);
  }

  lemma TransitionOk(t: Tables, item: Item, to: RowState)
    requires CopyOk(t, item) && MoveOk(t, item, to) && RowOk(t, item.id, t.rows[item.id])
    requires t.rows[item.id].state == item.row.state
    ensures RowChange(t, Transition(t, item, to), item.id)
  {
  }

  lemma MoveSound(t: Tables, p: Position, reply: StoreReply)
    requires TablesOk(t) && PositionOk(t, p)
    ensures Sound(t, p, Perform(t, p, MoveRow(reply)))
  {
    if p.AtMove? && !reply.Refused? && t.rows[p.item.id].state == p.item.row.state {
      TransitionOk(t, p.item, p.to);
      RowChangeOk(t, Transition(t, p.item, p.to), p.item.id);
    } else {
      StaySound(t, p, Perform(t, p, MoveRow(reply)).1);
    }
  }

  /** Changing one delete operation, and perhaps recording its request. */
  lemma DeleteChangeOk(t: Tables, u: Tables, id: RowId)
    requires TablesOk(t) && id in t.rows && id in u.deletes
    requires u == t.(deletes := t.deletes[id := u.deletes[id]], sent := u.sent)
    requires (forall k :: k != id ==> u.sent[k] == t.sent[k]) && t.sent[id] <= u.sent[id] <= 1
    requires OperationOk(u, id, u.deletes[id])
    requires Accepted(t, id) ==> u.deletes[id].resource.Some?
    ensures TablesOk(u) && Evolves(t, u) && forall k :: k != id ==> SameDelete(t, u, k)
  {
    DeleteChangeRows(t, u, id);
    DeleteChangeDeletes(t, u, id);
    DeleteChangeEvolves(t, u, id);
    assert RetiredOk(u);
  }

  lemma DeleteChangeEvolves(t: Tables, u: Tables, id: RowId)
    requires id in u.deletes && u == t.(deletes := t.deletes[id := u.deletes[id]], sent := u.sent)
    requires forall k :: k != id ==> u.sent[k] == t.sent[k]
    requires Accepted(t, id) ==> u.deletes[id].resource.Some?
    ensures Evolves(t, u) && forall k :: k != id ==> SameDelete(t, u, k)
  {
  }

  lemma DeleteChangeDeletes(t: Tables, u: Tables, id: RowId)
    requires DeletesOk(t) && id in u.deletes && OperationOk(u, id, u.deletes[id])
    requires u == t.(deletes := t.deletes[id := u.deletes[id]], sent := u.sent)
    requires forall k :: k != id ==> u.sent[k] == t.sent[k]
    ensures DeletesOk(u)
  {
    forall k | k in u.deletes ensures OperationOk(u, k, u.deletes[k]) {
      assert k != id ==> OperationOk(t, k, t.deletes[k]);
    }
  }

  lemma DeleteChangeRows(t: Tables, u: Tables, id: RowId)
    requires RowsOk(t) && id in u.deletes
    requires u == t.(deletes := t.deletes[id := u.deletes[id]], sent := u.sent)
    requires Accepted(t, id) ==> u.deletes[id].resource.Some?
    ensures RowsOk(u)
  {
    forall k | k in u.rows ensures RowOk(u, k, u.rows[k]) {
      assert RowOk(t, k, t.rows[k]);
    }
  }

  lemma ReserveSound(t: Tables, p: Position, reply: StoreReply)
    requires TablesOk(t) && PositionOk(t, p)
    ensures Sound(t, p, Perform(t, p, Reserve(reply)))
  {
    if p.AtReserve? && !reply.Refused? && p.item.id !in t.deletes {
      var id := p.item.id;
      assert t.sent[id] <= 1;
      DeleteChangeOk(t, t.(deletes := t.deletes[id := FRESH]), id);
      CopyEvolves(t, t.(deletes := t.deletes[id := FRESH]), p.item);
    } else {
      StaySound(t, p, Perform(t, p, Reserve(reply)).1);
    }
  }

  lemma GetSound(t: Tables, p: Position, ok: bool)
    requires TablesOk(t) && PositionOk(t, p)
    ensures Sound(t, p, Perform(t, p, GetOperation(ok)))
  {
    if p.AtGet? { assert OperationOk(t, p.item.id, t.deletes[p.item.id]); }
    StaySound(t, p, Perform(t, p, GetOperation(ok)).1);
  }

  lemma CheckSound(t: Tables, p: Position, ok: bool)
    requires TablesOk(t) && PositionOk(t, p)
    ensures Sound(t, p, Perform(t, p, CheckEgress(ok)))
  {
    StaySound(t, p, AfterCheck(p, ok));
  }

  lemma AnswerSound(t: Tables, p: Position, ok: bool)
    requires TablesOk(t) && PositionOk(t, p)
    ensures Sound(t, p, Perform(t, p, Answer(ok)))
  {
    StaySound(t, p, Perform(t, p, Answer(ok)).1);
  }

  lemma UpdateSound(t: Tables, p: Position, reply: StoreReply)
    requires TablesOk(t) && PositionOk(t, p)
    ensures Sound(t, p, Perform(t, p, UpdateOperation(reply)))
  {
    if p.AtDeleteUpdate? && !reply.Refused? {
      DeleteChangeOk(t, SetOperation(t, p.item.id, p.op), p.item.id);
      AfterUpdateOk(t, p, reply);
    } else {
      StaySound(t, p, Perform(t, p, UpdateOperation(reply)).1);
    }
  }

  lemma AfterUpdateOk(t: Tables, p: Position, reply: StoreReply)
    requires p.AtDeleteUpdate? && OwnerOk(t, p) && Evolves(t, SetOperation(t, p.item.id, p.op))
    ensures var q := AfterDeleteUpdate(p, reply);
      PositionOk(SetOperation(t, p.item.id, p.op), q) && (Owns(q) ==> q.item.id == p.item.id)
  {
    CopyEvolves(t, SetOperation(t, p.item.id, p.op), p.item);
  }

  lemma RequestSound(t: Tables, p: Position)
    requires TablesOk(t) && PositionOk(t, p)
    ensures Sound(t, p, Perform(t, p, Request))
  {
    if p.AtRequest? {
      var u := t.(sent := t.sent + multiset{p.item.id});
      assert OperationOk(t, p.item.id, t.deletes[p.item.id]);
      assert u.deletes == t.deletes[p.item.id := u.deletes[p.item.id]];
      DeleteChangeOk(t, u, p.item.id);
      CopyEvolves(t, u, p.item);
    } else {
      StaySound(t, p, p);
    }
  }

  lemma ReadOperationSound(t: Tables, p: Position, id: RowId, gone: bool)
    requires TablesOk(t) && PositionOk(t, p)
    ensures Sound(t, p, Perform(t, p, ReadOperation(id, gone)))
  {
    if p.Free? && Accepted(t, id) {
      assert OperationOk(t, id, t.deletes[id]);
      GrowingTablesOk(t, Perform(t, p, ReadOperation(id, gone)).0);
    } else {
      StaySound(t, p, p);
    }
  }

  lemma RecoveredSound(t: Tables, p: Position, reply: StoreReply)
    requires TablesOk(t) && PositionOk(t, p)
    ensures Sound(t, p, Perform(t, p, WriteRecovered(reply)))
  {
    if p.AtOpRecover? {
      RecoveredWriteSound(t, p.id, p.provider, p.gone, reply);
    } else {
      StaySound(t, p, p);
    }
  }

  lemma RecoveredWriteSound(t: Tables, id: RowId, provider: ProviderId, gone: bool, reply: StoreReply)
    requires TablesOk(t) && PassiveOk(t, AtOpRecover(id, provider, gone))
    ensures var q := if reply.Acked? && gone then AtConfirm(id, provider) else Free;
      Sound(t, AtOpRecover(id, provider, gone), (RecoverOperation(t, id, gone, reply), q))
  {
    var p := AtOpRecover(id, provider, gone);
    var q := if reply.Acked? && gone then AtConfirm(id, provider) else Free;
    if reply.Refused? {
      StaySound(t, p, q);
    } else {
      RecoverChangeOk(t, id, gone, reply);
      PassiveEvolves(t, RecoverOperation(t, id, gone, reply), p);
    }
  }

  lemma RecoverChangeOk(t: Tables, id: RowId, gone: bool, reply: StoreReply)
    requires TablesOk(t) && Accepted(t, id) && !reply.Refused?
    ensures Accepted(RecoverOperation(t, id, gone, reply), id)
    ensures var u := RecoverOperation(t, id, gone, reply);
      TablesOk(u) && Evolves(t, u) && forall k :: SameDelete(t, u, k)
  {
    assert OperationOk(t, id, t.deletes[id]);
    DeleteChangeOk(t, RecoverOperation(t, id, gone, reply), id);
  }

  lemma ConfirmSound(t: Tables, p: Position, reply: StoreReply)
    requires TablesOk(t) && PositionOk(t, p)
    ensures Sound(t, p, Perform(t, p, Confirm(reply)))
  {
    if p.AtConfirm? && !reply.Refused? && ConfirmDeleted(t, p.provider) != t {
      ConfirmChange(t, p.id, p.provider);
      RowChangeOk(t, ConfirmDeleted(t, p.provider), p.id);
    } else {
      StaySound(t, p, Perform(t, p, Confirm(reply)).1);
    }
  }

  lemma ConfirmChange(t: Tables, id: RowId, provider: ProviderId)
    requires RowsOk(t) && RecoverOk(t, id, provider) && id in t.seenAbsent && ConfirmDeleted(t, provider) != t
    ensures RowChange(t, ConfirmDeleted(t, provider), id)
  {
    assert RowOk(t, id, t.rows[id]);
  }

  /** The gate, the replacement and the compare-and-set of a row. */
  predicate OnRow(deed: Deed) {
    deed.ReadDue? || deed.Begin? || deed.StartReplacement? || deed.Attach? || deed.ReadReplacement? || deed.MoveRow?
  }

  /** The executor's work on a delete operation. */
  predicate OnDelete(deed: Deed) {
    || deed.Reserve? || deed.GetOperation? || deed.CheckEgress? || deed.UpdateOperation? || deed.Request? || deed.Answer?
  }

  lemma {:induction false} RowDeedSound(t: Tables, p: Position, deed: Deed)
    requires TablesOk(t) && PositionOk(t, p) && OnRow(deed)
    ensures Sound(t, p, Perform(t, p, deed))
  {
    match deed
    case ReadDue(id) => ReadDueSound(t, p, id);
    case Begin(capacity) => BeginSound(t, p, capacity);
    case StartReplacement(ok) => StartSound(t, p, ok);
    case Attach(reply) => AttachSound(t, p, reply);
    case ReadReplacement(ok) => ReadReplacementSound(t, p, ok);
    case MoveRow(reply) => MoveSound(t, p, reply);
  }

  lemma {:induction false} DeleteDeedSound(t: Tables, p: Position, deed: Deed)
    requires TablesOk(t) && PositionOk(t, p) && OnDelete(deed)
    ensures Sound(t, p, Perform(t, p, deed))
  {
    match deed
    case Reserve(reply) => ReserveSound(t, p, reply);
    case GetOperation(ok) => GetSound(t, p, ok);
    case CheckEgress(ok) => CheckSound(t, p, ok);
    case UpdateOperation(reply) => UpdateSound(t, p, reply);
    case Request => RequestSound(t, p);
    case Answer(ok) => AnswerSound(t, p, ok);
  }

  lemma {:induction false} RecoveryDeedSound(t: Tables, p: Position, deed: Deed)
    requires TablesOk(t) && PositionOk(t, p) && !OnRow(deed) && !OnDelete(deed)
    ensures Sound(t, p, Perform(t, p, deed))
  {
    match deed
    case ReadOperation(id, gone) => ReadOperationSound(t, p, id, gone);
    case WriteRecovered(reply) => RecoveredSound(t, p, reply);
    case Confirm(reply) => ConfirmSound(t, p, reply);
    case Stop => StaySound(t, p, Free);
  }

  lemma {:induction false} PerformSound(t: Tables, p: Position, deed: Deed)
    requires TablesOk(t) && PositionOk(t, p)
    ensures Sound(t, p, Perform(t, p, deed))
  {
    if OnRow(deed) { RowDeedSound(t, p, deed); }
    else if OnDelete(deed) { DeleteDeedSound(t, p, deed); }
    else { RecoveryDeedSound(t, p, deed); }
  }

  // ---- every happening keeps the invariant ----

  lemma OthersStay(s: LifecycleState, u: Tables, v: WorkerId)
    requires LifecycleInv(s) && v in s.workers && Evolves(s.tables, u)
    requires Owns(s.workers[v]) ==> SameDelete(s.tables, u, s.workers[v].item.id)
    ensures PositionOk(u, s.workers[v])
  {
    if Owns(s.workers[v]) { OwnerEvolves(s.tables, u, s.workers[v]); } else { PassiveEvolves(s.tables, u, s.workers[v]); }
  }

  lemma ByInv(s: LifecycleState, w: WorkerId, deed: Deed)
    requires LifecycleInv(s)
    ensures LifecycleInv(Happen(s, By(w, deed)))
  {
    var p := PositionOf(s, w);
    PerformSound(s.tables, p, deed);
    var u := Happen(s, By(w, deed));
    forall v | v in u.workers ensures PositionOk(u.tables, u.workers[v]) {
      if v != w { OthersStay(s, u.tables, v); }
    }
    forall v | v in u.workers && Owns(u.workers[v]) ensures NoOtherOwner(u, v, u.workers[v].item.id) {
      assert v != w ==> PositionOk(s.tables, s.workers[v]);
      forall x | x in u.workers && x != v && Owns(u.workers[x]) ensures u.workers[x].item.id != u.workers[v].item.id {
        assert x != w ==> PositionOk(s.tables, s.workers[x]);
      }
    }
  }

  lemma OutsideInv(s: LifecycleState, u: Tables)
    requires LifecycleInv(s) && TablesOk(u) && Evolves(s.tables, u) && forall id :: SameDelete(s.tables, u, id)
    ensures LifecycleInv(s.(tables := u))
  {
    forall v | v in s.workers ensures PositionOk(u, s.workers[v]) {
      OthersStay(s, u, v);
    }
  }

  function RegisterRow(t: Tables, id: RowId, provider: ProviderId, hasProfile: bool): Tables {
    t.(rows := t.rows[id := Row(Ready, provider, hasProfile, None)], byProvider := t.byProvider[provider := id])
  }

  lemma RegisterOk(t: Tables, id: RowId, provider: ProviderId, hasProfile: bool)
    requires TablesOk(t) && id !in t.rows && provider !in t.byProvider
    ensures var u := RegisterRow(t, id, provider, hasProfile);
      TablesOk(u) && Evolves(t, u) && forall k :: SameDelete(t, u, k)
  {
    var u := RegisterRow(t, id, provider, hasProfile);
    RegisterRows(t, id, provider, hasProfile);
    assert DeletesOk(u) by {
      forall k | k in u.deletes ensures OperationOk(u, k, u.deletes[k]) {
        assert OperationOk(t, k, t.deletes[k]);
      }
    }
    assert RetiredOk(u);
  }

  lemma RegisterRows(t: Tables, id: RowId, provider: ProviderId, hasProfile: bool)
    requires RowsOk(t) && RetiredOk(t) && id !in t.rows && provider !in t.byProvider
    ensures RowsOk(RegisterRow(t, id, provider, hasProfile))
  {
    var u := RegisterRow(t, id, provider, hasProfile);
    forall k | k in u.rows ensures RowOk(u, k, u.rows[k]) {
      assert k != id ==> RowOk(t, k, t.rows[k]);
    }
  }

  lemma RegisterInv(s: LifecycleState, id: RowId, provider: ProviderId, hasProfile: bool)
    requires LifecycleInv(s) && id !in s.tables.rows && provider !in s.tables.byProvider
    ensures LifecycleInv(Happen(s, Register(id, provider, hasProfile)))
  {
    RegisterOk(s.tables, id, provider, hasProfile);
    OutsideInv(s, RegisterRow(s.tables, id, provider, hasProfile));
  }

  lemma DeployInv(s: LifecycleState)
    requires LifecycleInv(s)
    ensures LifecycleInv(Happen(s, Deploy))
  {
    var u := s.tables.(deployments := s.tables.deployments + 1);
    GrowingTablesOk(s.tables, u);
    OutsideInv(s, u);
  }

  lemma ReadyInv(s: LifecycleState, d: DeploymentId)
    requires LifecycleInv(s)
    ensures LifecycleInv(s.(tables := s.tables.(ready := s.tables.ready + {d})))
  {
    var u := s.tables.(ready := s.tables.ready + {d});
    GrowingTablesOk(s.tables, u);
    OutsideInv(s, u);
  }

  lemma RestoreInv(s: LifecycleState, id: RowId)
    requires LifecycleInv(s) && id in s.tables.rows && s.tables.rows[id].state.Deleted?
    ensures LifecycleInv(Happen(s, Restore(id)))
  {
    assert RowOk(s.tables, id, s.tables.rows[id]);
    RowChangeOk(s.tables, RestoreRow(s.tables, id), id);
    OutsideInv(s, RestoreRow(s.tables, id));
  }

  lemma {:induction false} HappenInv(s: LifecycleState, h: Happening)
    requires LifecycleInv(s)
    ensures LifecycleInv(Happen(s, h))
  {
    match h
    case By(w, deed) => ByInv(s, w, deed);
    case Register(id, provider, hasProfile) =>
      if id !in s.tables.rows && provider !in s.tables.byProvider { RegisterInv(s, id, provider, hasProfile); }
    case Deploy => DeployInv(s);
    case BecomeReady(d) => ReadyInv(s, d);
    case Restore(id) =>
      if id in s.tables.rows && s.tables.rows[id].state.Deleted? { RestoreInv(s, id); }
  }

  lemma {:induction false} HistoryInv(hs: seq<Happening>)
    ensures LifecycleInv(History(hs))
    decreases |hs|
  {
    if hs != [] {
      HistoryInv(hs[..|hs| - 1]);
      HappenInv(History(hs[..|hs| - 1]), hs[|hs| - 1]);
    }
  }
}
