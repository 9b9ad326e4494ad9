/** What the row lifecycle guarantees over every history. */
module LifecycleTheorems {
  import opened Wrappers
  import opened CreateProtocol
  import opened LifecycleProtocol
  import opened LifecycleInvariant

  /** Every row that has reached RETIRING had a replacement started for it and READY
      when it did, and no deployment replaces two rows. */
  ghost predicate MadeBeforeBreaking(t: Tables) {
    && (forall id :: id in t.rows && Late(t.rows[id].state) ==>
          id in t.retired && t.retired[id] in t.ready && t.retired[id] in t.started && t.started[t.retired[id]] == id)
    && (forall a, b :: a in t.retired && b in t.retired && t.retired[a] == t.retired[b] ==> a == b)
  }

  /** Make before break, over every history. */
  lemma {:induction false} MakeBeforeBreak(hs: seq<Happening>)
    ensures MadeBeforeBreaking(History(hs).tables)
  {
    HistoryInv(hs);
    var t := History(hs).tables;
    assert forall id :: id in t.rows ==> RowOk(t, id, t.rows[id]);
    assert forall id :: id in t.retired ==> ReplacedBy(t, t.retired[id], id);
  }

  /** The step itself: a row leaves EXPIRING only for RETIRING, its own replacement
      column names the deployment, and that deployment is READY at that moment. */
  lemma {:induction false} RetiringNeedsReadyReplacement(hs: seq<Happening>, h: Happening, id: RowId)
    requires id in History(hs).tables.rows && History(hs).tables.rows[id].state.Expiring?
    ensures var t := History(hs).tables; var u := Happen(History(hs), h).tables;
      && id in u.rows && (u.rows[id].state.Expiring? || u.rows[id].state.Retiring?)
      && (u.rows[id].state.Retiring? ==>
            t.rows[id].replacement.Some? && t.rows[id].replacement.value in t.ready)
  {
    var s := History(hs);
    HistoryInv(hs);
    StepOfRow(s, h, id);
    if h.By? && Happen(s, h).tables.rows[id].state.Retiring? {
      DeedOfRow(s.tables, PositionOf(s, h.w), h.deed, id);
      RetiringIsReady(s.tables, PositionOf(s, h.w), h.deed, id);
    }
  }

  lemma {:induction false} RetiringIsReady(t: Tables, p: Position, deed: Deed, id: RowId)
    requires TablesOk(t) && PositionOk(t, p) && deed.MoveRow? && p.AtMove? && p.item.id == id
    requires id in t.rows && t.rows[id].state.Expiring? && Perform(t, p, deed).0.rows[id].state.Retiring?
    ensures t.rows[id].replacement.Some? && t.rows[id].replacement.value in t.ready
  {
    assert MoveOk(t, p.item, p.to) && CopyOk(t, p.item);
  }

  /** The moves a row can make. */
  predicate Moves(from: RowState, to: RowState) {
    || from == to
    || (from.Ready? && to.Expiring?)
    || (from.Expiring? && to.Retiring?)
    || (from.Retiring? && to.Deleting?)
    || (from.Deleting? && to.Deleted?)
    || (from.Deleted? && to.Retiring?)
  }

  /** Rows move one state forward, except that the orphan reconciler sends DELETED
      rows back to RETIRING; stale copies cannot make them do anything else. */
  lemma {:induction false} RowsMoveForward(hs: seq<Happening>, h: Happening, id: RowId)
    requires id in History(hs).tables.rows
    ensures RowStep(History(hs).tables, Happen(History(hs), h).tables, id, h)
  {
    HistoryInv(hs);
    StepOfRow(History(hs), h, id);
  }

  ghost predicate RowStep(t: Tables, u: Tables, id: RowId, h: Happening)
    requires id in t.rows
  {
    && id in u.rows && Moves(t.rows[id].state, u.rows[id].state)
    && (t.rows[id].state.Deleted? && u.rows[id].state.Retiring? ==> h == Restore(id))
    && (t.rows[id].state.Expiring? && u.rows[id].state.Retiring? ==> h.By? && h.deed.MoveRow?)
  }

  lemma {:induction false} StepOfRow(s: LifecycleState, h: Happening, id: RowId)
    requires LifecycleInv(s) && id in s.tables.rows
    ensures RowStep(s.tables, Happen(s, h).tables, id, h)
  {
    if h.By? {
      assert PositionOk(s.tables, PositionOf(s, h.w));
      DeedOfRow(s.tables, PositionOf(s, h.w), h.deed, id);
    }
  }

  lemma {:induction false} DeedOfRow(t: Tables, p: Position, deed: Deed, id: RowId)
    requires PositionOk(t, p) && id in t.rows
    ensures var u := Perform(t, p, deed).0;
      && id in u.rows && Moves(t.rows[id].state, u.rows[id].state)
      && (t.rows[id].state.Deleted? ==> u.rows[id].state.Deleted?)
      && (t.rows[id].state.Expiring? && u.rows[id].state.Retiring? ==> deed.MoveRow? && p.AtMove? && p.item.id == id)
  {
  }

  /** At most one delete request is ever sent for a row, and only once it has retired. */
  lemma {:induction false} AtMostOneDelete(hs: seq<Happening>, id: RowId)
    ensures var t := History(hs).tables;
      && t.sent[id] <= 1
      && (t.sent[id] > 0 ==> id in t.rows && Late(t.rows[id].state))
  {
    HistoryInv(hs);
    var t := History(hs).tables;
    if t.sent[id] > 0 { assert OperationOk(t, id, t.deletes[id]); }
  }

  /** A DELETED row was deleted by request, and a delete operation saw its droplet gone. */
  lemma {:induction false} DeletedWasSeenAbsent(hs: seq<Happening>, id: RowId)
    requires id in History(hs).tables.rows && History(hs).tables.rows[id].state.Deleted?
    ensures var t := History(hs).tables;
      id in t.seenAbsent && t.sent[id] == 1 && id in t.deletes && t.deletes[id].resource == Some(t.rows[id].provider)
  {
    HistoryInv(hs);
    var t := History(hs).tables;
    assert RowOk(t, id, t.rows[id]) && OperationOk(t, id, t.deletes[id]);
  }

  /** Restoring an orphan never leads to another delete request: once a row is DELETING
      or DELETED, the requests sent for it are final, whatever happens later. */
  lemma {:induction false} RestoredRowIsNeverDeletedAgain(hs: seq<Happening>, gs: seq<Happening>, id: RowId)
    requires id in History(hs).tables.rows
    requires History(hs).tables.rows[id].state.Deleting? || History(hs).tables.rows[id].state.Deleted?
    ensures History(hs).tables.sent[id] == 1 == History(hs + gs).tables.sent[id]
  {
    HistoryInv(hs);
    var t := History(hs).tables;
    assert RowOk(t, id, t.rows[id]) && OperationOk(t, id, t.deletes[id]);
    SentIsMonotone(hs + gs, |hs|, id);
    assert (hs + gs)[..|hs|] == hs;
    AtMostOneDelete(hs + gs, id);
  }

  lemma {:induction false} SentIsMonotone(hs: seq<Happening>, n: nat, id: RowId)
    requires n <= |hs|
    ensures History(hs[..n]).tables.sent[id] <= History(hs).tables.sent[id]
    decreases |hs|
  {
    if n == |hs| {
      assert hs[..n] == hs;
    } else {
      var init := hs[..|hs| - 1];
      SentIsMonotone(init, n, id);
      assert init[..n] == hs[..n];
      SentGrows(History(init), hs[|hs| - 1], id);
    }
  }

  lemma {:induction false} SentGrows(s: LifecycleState, h: Happening, id: RowId)
    ensures s.tables.sent[id] <= Happen(s, h).tables.sent[id]
  {
    if h.By? { RequestsGrow(s.tables, PositionOf(s, h.w), h.deed, id); }
  }

  lemma {:induction false} RequestsGrow(t: Tables, p: Position, deed: Deed, id: RowId)
    ensures t.sent[id] <= Perform(t, p, deed).0.sent[id]
  {
  }

  lemma HistorySnoc(hs: seq<Happening>, h: Happening)
    ensures History(hs + [h]) == Happen(History(hs), h)
  {
    assert (hs + [h])[..|hs|] == hs;
  }
}
