/**
  The lifecycle as its code is written: the replacement gate, the lifecycle engine, the
  delete executor, the recovery of a delete and the orphan reconciler. Other workers run
  between any two statements; every such execution is a history of the lifecycle.
 */
module LifecycleCode {
  import opened Wrappers
  import opened CreateProtocol
  import opened LifecycleProtocol
  import opened LifecycleInvariant
  import opened LifecycleTheorems

  predicate IsBy(h: Happening, w: WorkerId) {
    h.By? && h.w == w
  }

  predicate Sends(h: Happening, w: WorkerId) {
    IsBy(h, w) && h.deed.Request?
  }

  predicate Starts(h: Happening, w: WorkerId) {
    IsBy(h, w) && h.deed.StartReplacement?
  }

  /** How many delete requests worker `w` itself has sent. */
  ghost function SentBy(hs: seq<Happening>, w: WorkerId): nat {
    if hs == [] then 0 else SentBy(hs[..|hs| - 1], w) + if Sends(hs[|hs| - 1], w) then 1 else 0
  }

  /** How many replacement deployments worker `w` itself has started. */
  ghost function StartedBy(hs: seq<Happening>, w: WorkerId): nat {
    if hs == [] then 0 else StartedBy(hs[..|hs| - 1], w) + if Starts(hs[|hs| - 1], w) then 1 else 0
  }

  /** State `states[n]` is the one before happening `n`. */
  ghost predicate Chronicle(states: seq<LifecycleState>, hs: seq<Happening>) {
    && |states| == |hs| + 1 && states[0] == Empty()
    && forall n :: 0 <= n < |hs| ==> Follows(states, hs, n)
  }

  ghost predicate Follows(states: seq<LifecycleState>, hs: seq<Happening>, n: nat)
    requires n < |hs| && |states| == |hs| + 1
  {
    states[n + 1] == Happen(states[n], hs[n])
  }

  /** Chronicles tell histories. */
  lemma {:induction false} ChroniclesAreHistories(states: seq<LifecycleState>, hs: seq<Happening>)
    requires Chronicle(states, hs)
    ensures states[|hs|] == History(hs)
    decreases |hs|
  {
    if hs != [] {
      var n := |hs| - 1;
      ChroniclePrefix(states, hs, n);
      ChroniclesAreHistories(states[..n + 1], hs[..n]);
      assert Follows(states, hs, n);
    }
  }

  lemma ChroniclePrefix(states: seq<LifecycleState>, hs: seq<Happening>, m: nat)
    requires Chronicle(states, hs) && m <= |hs|
    ensures Chronicle(states[..m + 1], hs[..m])
  {
    var states', hs' := states[..m + 1], hs[..m];
    forall k | 0 <= k < m ensures Follows(states', hs', k) {
      assert Follows(states, hs, k);
    }
  }

  lemma ChronicleGrows(states: seq<LifecycleState>, hs: seq<Happening>, h: Happening)
    requires Chronicle(states, hs)
    ensures Chronicle(states + [Happen(states[|hs|], h)], hs + [h])
  {
    var states', hs' := states + [Happen(states[|hs|], h)], hs + [h];
    forall k | 0 <= k < |hs'| ensures Follows(states', hs', k) {
      if k < |hs| { assert Follows(states, hs, k); }
    }
  }

  /** The database and the provider of one account. */
  class Account {
    var s: LifecycleState
    ghost var past: seq<Happening>
    ghost var states: seq<LifecycleState>

    ghost predicate Valid() reads this {
      Chronicle(states, past) && s == states[|past|]
    }

    ghost function Sent(w: WorkerId): nat reads this {
      SentBy(past, w)
    }

    ghost function Started(w: WorkerId): nat reads this {
      StartedBy(past, w)
    }

    /** The tables just before happening `n`. */
    ghost function TablesAt(n: nat): Tables
      requires n < |states|
      reads this
    {
      states[n].tables
    }

    /** The tables just before the latest happening. */
    ghost function Before(): Tables
      requires |states| > 1
      reads this
    {
      states[|states| - 2].tables
    }

    /** Happening `n` is this deed of worker `w`. */
    ghost predicate Saw(n: nat, w: WorkerId, deed: Deed) reads this {
      n < |past| < |states| && past[n] == By(w, deed)
    }

    /** The latest happening is this deed of worker `w`. */
    ghost predicate JustDid(w: WorkerId, deed: Deed) reads this {
      0 < |past| < |states| && past[|past| - 1] == By(w, deed)
    }

    /** The latest happening is no move of a row. */
    ghost predicate JustStayed() reads this {
      past != [] && past[|past| - 1].By? && !past[|past| - 1].deed.MoveRow?
    }

    constructor ()
      ensures Valid() && s == Empty() && past == []
    {
      s, past, states := Empty(), [], [Empty()];
    }

    method Step(h: Happening)
      requires Valid()
      modifies this
      ensures Valid() && s == Happen(old(s), h) && past == old(past) + [h] && states == old(states) + [s]
      ensures forall w :: Sent(w) == old(Sent(w)) + if Sends(h, w) then 1 else 0
      ensures forall w :: Started(w) == old(Started(w)) + if Starts(h, w) then 1 else 0
    {
      ChronicleGrows(states, past, h);
      assert (past + [h])[..|past|] == past;
      s, past, states := Happen(s, h), past + [h], states + [Happen(s, h)];
    }

    /** Other workers and the outside world go on for a while. */
    method Others(w: WorkerId)
      requires Valid()
      modifies this
      ensures Valid() && old(past) <= past && old(states) <= states
      ensures Sent(w) == old(Sent(w)) && Started(w) == old(Started(w)) && PositionOf(s, w) == PositionOf(old(s), w)
    {
      var hs: seq<Happening> := *;
      for n := 0 to |hs|
        invariant Valid() && old(past) <= past && old(states) <= states
        invariant Sent(w) == old(Sent(w)) && Started(w) == old(Started(w)) && PositionOf(s, w) == PositionOf(old(s), w)
      {
        if !IsBy(hs[n], w) { Step(hs[n]); }
      }
    }

    /** One deed of worker `w`, in a state that the others left behind. */
    method Act(w: WorkerId, deed: Deed)
      requires Valid()
      modifies this
      ensures Valid() && old(past) <= past && old(states) <= states && |old(past)| < |past| && JustDid(w, deed)
      ensures (s.tables, PositionOf(s, w)) == Perform(Before(), PositionOf(old(s), w), deed)
      ensures Sent(w) == old(Sent(w)) + if deed.Request? then 1 else 0
      ensures Started(w) == old(Started(w)) + if deed.StartReplacement? then 1 else 0
    {
      Others(w);
      Step(By(w, deed));
    }
  }

  /** Worker `w` has sent `requests` deletes and started `starts` replacements since, and
      what happened before has not changed. */
  twostate predicate Since(account: Account, w: WorkerId, requests: nat, starts: nat)
    reads account
  {
    && account.Sent(w) == old(account.Sent(w)) + requests && account.Started(w) == old(account.Started(w)) + starts
    && old(account.past) <= account.past && old(account.states) <= account.states
  }

  /** The answers of the outside world during one pass, one field per question. */
  datatype Luck = Luck(started: bool, attached: StoreReply, looked: bool, runtime: bool, allowed: bool,
                       reserved: StoreReply, selected: bool, healthyBefore: bool, running: StoreReply,
                       deleted: bool, healthyAfter: bool, stored: StoreReply, moved: StoreReply)

  // ---- compare and set ----

  /** The latest happening is worker `w` moving row `id` from one state to another: the row
      moves exactly when it still is in the first one and the store did not refuse. */
  ghost predicate Moved(account: Account, w: WorkerId, id: RowId, from: RowState, to: RowState, reply: StoreReply)
    reads account
  {
    && account.JustDid(w, MoveRow(reply))
    && var t, u := account.Before(), account.s.tables;
    && u.deletes == t.deletes && u.sent == t.sent && u.deployments == t.deployments && u.ready == t.ready
    && match reply
       case Refused => u.rows == t.rows
       case _ =>
         if id in t.rows && t.rows[id].state == from then u.rows == t.rows[id := t.rows[id].(state := to)]
         else u.rows == t.rows
  }

  /** Compare-and-set of the row state from the copy's state. The caller learns of a move
      only by an acknowledgement. */
  method Move(account: Account, w: WorkerId, item: Item, to: RowState, reply: StoreReply) returns (ok: bool)
    requires account.Valid() && PositionOf(account.s, w) == AtMove(item, to)
    modifies account
    ensures account.Valid() && PositionOf(account.s, w) == Free && Since(account, w, 0, 0)
    ensures Moved(account, w, item.id, item.row.state, to, reply)
    ensures ok <==> reply.Acked? && item.id in account.Before().rows && account.Before().rows[item.id].state == item.row.state
    ensures ok ==> item.id in account.s.tables.rows && account.s.tables.rows[item.id].state == to
  {
    account.Others(w);
    var before := account.s.tables.rows;
    account.Step(By(w, MoveRow(reply)));
    ok := reply.Acked? && item.id in before && before[item.id].state == item.row.state;
  }

  // ---- the delete executor ----

  /** The latest happening is worker `w` storing `op` as the delete operation of row `id`,
      and nothing else changed. */
  ghost predicate Recorded(account: Account, w: WorkerId, id: RowId, op: Operation, reply: StoreReply)
    reads account
  {
    && account.JustDid(w, UpdateOperation(reply)) && id in account.Before().deletes
    && account.s.tables ==
         if reply.Refused? then account.Before()
         else account.Before().(deletes := account.Before().deletes[id := op])
  }

  /** The full-row UPDATE of the delete operation; reports whether it failed. */
  method Record(account: Account, w: WorkerId, item: Item, op: Operation, ghost next: DeleteNext, reply: StoreReply)
    returns (err: bool)
    requires account.Valid() && PositionOf(account.s, w) == AtDeleteUpdate(item, op, next)
    modifies account
    ensures account.Valid() && Since(account, w, 0, 0)
    ensures PositionOf(account.s, w) == AfterDeleteUpdate(AtDeleteUpdate(item, op, next), reply)
    ensures Recorded(account, w, item.id, op, reply) && (err <==> !reply.Acked?)
  {
    account.Others(w);
    OwnedOperationExists(account, w);
    account.Step(By(w, UpdateOperation(reply)));
    err := !reply.Acked?;
  }

  lemma OwnedOperationExists(account: Account, w: WorkerId)
    requires account.Valid()
    ensures Owns(PositionOf(account.s, w)) ==> PositionOf(account.s, w).item.id in account.s.tables.deletes
    ensures PositionOf(account.s, w).AtGet? ==> PositionOf(account.s, w).item.id in account.s.tables.deletes
  {
    ChroniclesAreHistories(account.states, account.past);
    HistoryInv(account.past);
    assert PositionOk(account.s.tables, PositionOf(account.s, w));
  }

  method CheckDeleteEgress(account: Account, w: WorkerId, ok: bool)
    requires account.Valid() && (PositionOf(account.s, w).BeforeRequest? || PositionOf(account.s, w).AfterRequest?)
    modifies account
    ensures account.Valid() && Since(account, w, 0, 0)
    ensures PositionOf(account.s, w) == AfterCheck(PositionOf(old(account.s), w), ok)
  {
    account.Act(w, CheckEgress(ok));
  }

  /** INSERT ... ON CONFLICT DO NOTHING, then SELECT on conflict. The operation is reported
      as new only to the worker whose statement inserted it. */
  method ReserveDelete(account: Account, w: WorkerId, item: Item, luck: Luck)
    returns (op: Operation, isNew: bool, err: bool, ghost asked: nat, ghost read: nat)
    requires account.Valid() && PositionOf(account.s, w) == AtReserve(item)
    modifies account
    ensures account.Valid() && Since(account, w, 0, 0) && account.JustStayed()
    ensures err ==> PositionOf(account.s, w) == Free
    ensures !err ==> PositionOf(account.s, w) == if isNew then BeforeRequest(item, op) else AfterDelete(item, op)
    ensures |old(account.past)| <= asked && account.Saw(asked, w, Deed.Reserve(luck.reserved))
    ensures !err && isNew <==> luck.reserved.Acked? && item.id !in account.TablesAt(asked).deletes
    ensures !err && isNew ==>
              && op == Operation(Planned, None, 0)
              && account.s.tables == account.TablesAt(asked).(deletes := account.TablesAt(asked).deletes[item.id := op])
    ensures !err && !isNew <==> luck.reserved.Acked? && luck.selected && item.id in account.TablesAt(asked).deletes
    ensures !err && !isNew ==>
              && asked < read && account.Saw(read, w, GetOperation(true)) && item.id in account.TablesAt(read).deletes
              && op == account.TablesAt(read).deletes[item.id] && account.s.tables == account.TablesAt(read)
  {
    op, isNew, err := FRESH, false, true;
    account.Act(w, Deed.Reserve(luck.reserved));
    asked, read := |account.past| - 1, |account.past| - 1;
    if !luck.reserved.Acked? { return; }
    if PositionOf(account.s, w).BeforeRequest? { return FRESH, true, false, asked, read; }
    account.Others(w);
    OwnedOperationExists(account, w);
    read := |account.past|;
    var found := if item.id in account.s.tables.deletes then Some(account.s.tables.deletes[item.id]) else None;
    account.Step(By(w, GetOperation(luck.selected)));
    if luck.selected && found.Some? { op, err := found.value, false; }
  }

  /** How a request ends: a refused or unanswered one is stored unknown, an accepted one with
      the droplet's id, verifying, or unknown when the egress changed. */
  ghost predicate Requested(account: Account, w: WorkerId, item: Item, luck: Luck, result: Operation, err: bool)
    reads account
  {
    && Recorded(account, w, item.id, result, luck.stored)
    && match luck.deleted
       case false => result == Operation(OpState.Unknown, None, 1) && err
       case true =>
         && result == Operation(if luck.healthyAfter then Verifying else OpState.Unknown, Some(item.row.provider), 1)
         && (err <==> !luck.healthyAfter || !luck.stored.Acked?)
  }

  /** How the delete ends for the worker that inserted the operation. */
  ghost predicate Attempted(account: Account, w: WorkerId, item: Item, luck: Luck, result: Operation, err: bool)
    reads account
  {
    match luck.healthyBefore
    case false => result == Operation(OpState.Unknown, None, 0) && err && Recorded(account, w, item.id, result, luck.stored)
    case true =>
      match luck.running
      case Acked => Requested(account, w, item, luck, result, err)
      case _ => result == Operation(Running, None, 1) && err && Recorded(account, w, item.id, result, luck.running)
  }

  /** How the delete ends: the worker that inserted the operation attempts it, any other gets
      the operation as it is stored. */
  ghost predicate Executed(account: Account, w: WorkerId, item: Item, luck: Luck, asked: nat, read: nat, result: Operation, err: bool)
    reads account
  {
    && account.Saw(asked, w, Deed.Reserve(luck.reserved))
    && match luck.reserved
       case Acked =>
         if item.id !in account.TablesAt(asked).deletes then Attempted(account, w, item, luck, result, err)
         else if !luck.selected then err
         else
           && !err && asked < read && account.Saw(read, w, GetOperation(true))
           && item.id in account.TablesAt(read).deletes && result == account.TablesAt(read).deletes[item.id]
       case _ => err
  }

  /** A request is sent exactly by the worker that inserts the operation, with the egress as
      expected and the running operation in the store. */
  ghost predicate SendsRequest(account: Account, item: Item, luck: Luck, asked: nat)
    requires asked < |account.states|
    reads account
  {
    && luck.allowed && luck.reserved.Acked? && item.id !in account.TablesAt(asked).deletes
    && luck.healthyBefore && luck.running.Acked?
  }

  /** Delete of one row's droplet, behind a gate. */
  method ExecutorDelete(account: Account, w: WorkerId, item: Item, luck: Luck)
    returns (result: Operation, err: bool, ghost sent: nat, ghost asked: nat, ghost read: nat)
    requires account.Valid() && PositionOf(account.s, w) == AtReserve(item)
    modifies account
    ensures account.Valid() && Since(account, w, sent, 0) && account.JustStayed()
    ensures PositionOf(account.s, w) == if err then Free else AfterDelete(item, result)
    ensures !luck.allowed ==> err && account.JustDid(w, Stop)
    ensures luck.allowed ==> |old(account.past)| <= asked && Executed(account, w, item, luck, asked, read, result, err)
    ensures asked < |account.states| && sent == if SendsRequest(account, item, luck, asked) then 1 else 0
  {
    result, err, sent, asked, read := FRESH, true, 0, 0, 0;
    if !luck.allowed {
      account.Act(w, Stop);
    } else {
      var isNew: bool;
      result, isNew, err, asked, read := ReserveDelete(account, w, item, luck);
      if !err && isNew {
        result, err, sent := SendDelete(account, w, item, result, luck);
      }
    }
  }

  /** The rest, for the worker that inserted the operation. */
  method SendDelete(account: Account, w: WorkerId, item: Item, reserved: Operation, luck: Luck)
    returns (result: Operation, err: bool, ghost sent: nat)
    requires account.Valid() && PositionOf(account.s, w) == BeforeRequest(item, reserved)
    requires reserved == Operation(Planned, None, 0)
    modifies account
    ensures account.Valid() && Since(account, w, sent, 0)
    ensures sent == if luck.healthyBefore && luck.running.Acked? then 1 else 0
    ensures PositionOf(account.s, w) == if err then Free else AfterDelete(item, result)
    ensures Attempted(account, w, item, luck, result, err) && account.JustStayed()
  {
    sent := 0;
    CheckDeleteEgress(account, w, luck.healthyBefore);
    if !luck.healthyBefore {
      result := reserved.(state := OpState.Unknown);
      var _ := Record(account, w, item, result, ThenStop, luck.stored);
      err := true;
    } else {
      result := reserved.(state := Running, attempt := reserved.attempt + 1);
      err := Record(account, w, item, result, ThenRequest, luck.running);
      if !err {
        result, err := DeleteDroplet(account, w, item, result, luck);
        sent := 1;
      }
    }
  }

  /** The request itself, for the worker that inserted the operation. The last thing it does
      is to store the outcome: verifying with the droplet's id, or unknown. */
  method DeleteDroplet(account: Account, w: WorkerId, item: Item, running: Operation, luck: Luck)
    returns (result: Operation, err: bool)
    requires account.Valid() && PositionOf(account.s, w) == AtRequest(item, running) && running == Operation(Running, None, 1)
    modifies account
    ensures account.Valid() && Since(account, w, 1, 0)
    ensures PositionOf(account.s, w) == if err then Free else AfterDelete(item, result)
    ensures Requested(account, w, item, luck, result, err)
  {
    account.Act(w, Request);
    account.Act(w, Answer(luck.deleted));
    if !luck.deleted {
      result := running.(state := OpState.Unknown);
      var _ := Record(account, w, item, result, ThenStop, luck.stored);
      err := true;
    } else {
      result, err := Verify(account, w, item, running.(resource := Some(item.row.provider)), luck);
    }
  }

  /** After an accepted request. */
  method Verify(account: Account, w: WorkerId, item: Item, accepted: Operation, luck: Luck) returns (result: Operation, err: bool)
    requires account.Valid() && PositionOf(account.s, w) == AfterRequest(item, accepted)
    modifies account
    ensures account.Valid() && Since(account, w, 0, 0)
    ensures PositionOf(account.s, w) == if err then Free else AfterDelete(item, result)
    ensures Recorded(account, w, item.id, result, luck.stored)
    ensures result == accepted.(state := if luck.healthyAfter then Verifying else OpState.Unknown)
    ensures err <==> !luck.healthyAfter || !luck.stored.Acked?
  {
    CheckDeleteEgress(account, w, luck.healthyAfter);
    if !luck.healthyAfter {
      result := accepted.(state := OpState.Unknown);
      var _ := Record(account, w, item, result, ThenStop, luck.stored);
      err := true;
    } else {
      result := accepted.(state := Verifying);
      err := Record(account, w, item, result, ThenDone, luck.stored);
    }
  }

  // ---- the lifecycle engine ----

  /** The delete of the pass is on its way: the operation that the pass leaves or finds is
      verifying or succeeded, and no error was reported. */
  ghost predicate DeleteStands(account: Account, item: Item, luck: Luck, asked: nat, read: nat)
    requires asked < |account.states|
    reads account
  {
    && luck.allowed && luck.reserved.Acked?
    && if item.id !in account.TablesAt(asked).deletes then
         luck.healthyBefore && luck.running.Acked? && luck.deleted && luck.healthyAfter && luck.stored.Acked?
       else
         && luck.selected && read < |account.states| && item.id in account.TablesAt(read).deletes
         && (account.TablesAt(read).deletes[item.id].state.Verifying? || account.TablesAt(read).deletes[item.id].state.Succeeded?)
  }

  /** What the engine did with the copy: a READY row was moved to EXPIRING, an EXPIRING one to
      RETIRING, and a RETIRING one to DELETING when its delete stands. */
  ghost predicate Processed(account: Account, w: WorkerId, item: Item, luck: Luck, asked: nat, read: nat)
    reads account
  {
    match item.row.state
    case Ready => Moved(account, w, item.id, Ready, Expiring, luck.moved)
    case Expiring => Moved(account, w, item.id, Expiring, Retiring, luck.moved)
    case Retiring =>
      && asked < |account.states|
      && (DeleteStands(account, item, luck, asked, read) ==> Moved(account, w, item.id, Retiring, Deleting, luck.moved))
      && (!DeleteStands(account, item, luck, asked, read) ==> account.JustStayed())
    case _ => true
  }

  /** The lifecycle engine on one copy. Only a RETIRING copy can send a request. */
  method Process(account: Account, w: WorkerId, item: Item, luck: Luck) returns (ghost sent: nat, ghost asked: nat, ghost read: nat)
    requires account.Valid() && PositionOf(account.s, w) == Dispatch(item)
    modifies account
    ensures account.Valid() && PositionOf(account.s, w) == Free && Since(account, w, sent, 0)
    ensures Processed(account, w, item, luck, asked, read) && asked < |account.states|
    ensures sent == if item.row.state.Retiring? && SendsRequest(account, item, luck, asked) then 1 else 0
    ensures item.row.state.Retiring? && luck.allowed ==>
              |old(account.past)| <= asked && account.Saw(asked, w, Deed.Reserve(luck.reserved))
    ensures item.row.state.Deleting? || item.row.state.Deleted? ==> account.past == old(account.past)
  {
    sent, asked, read := 0, 0, 0;
    match item.row.state
    case Ready => var _ := Move(account, w, item, Expiring, luck.moved);
    case Expiring => var _ := Move(account, w, item, Retiring, luck.moved);
    case Retiring => sent, asked, read := Retire(account, w, item, luck);
    case _ =>
  }

  /** The engine on a RETIRING copy. */
  method Retire(account: Account, w: WorkerId, item: Item, luck: Luck) returns (ghost sent: nat, ghost asked: nat, ghost read: nat)
    requires account.Valid() && PositionOf(account.s, w) == AtReserve(item) && item.row.state.Retiring?
    modifies account
    ensures account.Valid() && PositionOf(account.s, w) == Free && Since(account, w, sent, 0)
    ensures Processed(account, w, item, luck, asked, read) && asked < |account.states|
    ensures sent == if SendsRequest(account, item, luck, asked) then 1 else 0
    ensures luck.allowed ==> |old(account.past)| <= asked && account.Saw(asked, w, Deed.Reserve(luck.reserved))
  {
    var result, err;
    result, err, sent, asked, read := ExecutorDelete(account, w, item, luck);
    if !err && (result.state == Verifying || result.state == Succeeded) {
      var _ := Move(account, w, item, Deleting, luck.moved);
    }
  }

  // ---- one pass over a due row ----

  /** The account's droplet limit and use, from the newest provider snapshot, and its age in
      nanoseconds when there is one. */
  datatype Capacity = Capacity(limit: int, inUse: int, pending: int, age: Option<int>)

  const MINUTE: int := 60_000_000_000

  /** The events of one pass: the read of the replacement or the start of one, and those of
      the delete. */
  datatype Story = Story(gate: nat, asked: nat, read: nat)

  /** The latest happening is worker `w` ending its pass without a write. */
  ghost predicate Idled(account: Account, w: WorkerId)
    reads account
  {
    && 0 < |account.past| < |account.states| && account.s.tables == account.Before()
    && match account.past[|account.past| - 1]
       case By(v, deed) => v == w && (deed.Begin? || deed.ReadReplacement? || deed.Stop?)
       case _ => false
  }

  /** The latest happening is worker `w` naming deployment `d` as the replacement of row `id`,
      which takes effect when the row names none and the store does not refuse. */
  ghost predicate Attached(account: Account, w: WorkerId, id: RowId, d: DeploymentId, reply: StoreReply)
    reads account
  {
    && account.JustDid(w, Attach(reply)) && d in account.s.tables.started && account.s.tables.started[d] == id
    && var t, u := account.Before(), account.s.tables;
    && u.deletes == t.deletes && u.sent == t.sent && u.deployments == t.deployments && u.ready == t.ready
    && match reply
       case Refused => u.rows == t.rows
       case _ =>
         if id in t.rows && t.rows[id].replacement.None? then u.rows == t.rows[id := t.rows[id].(replacement := Some(d))]
         else u.rows == t.rows
  }

  /** What a pass does with an EXPIRING copy that has no replacement: with room for one more
      droplet, in a snapshot of at most two minutes, it starts one and attaches it. */
  ghost predicate Replaced(account: Account, w: WorkerId, item: Item, c: Capacity, luck: Luck, gate: nat)
    reads account
  {
    match c.age
    case None => Idled(account, w)
    case Some(age) =>
      if age <= 120_000_000_000 && c.limit > 0 && c.inUse + c.pending < c.limit then
        && account.Saw(gate, w, StartReplacement(luck.started))
        && (luck.started ==> Attached(account, w, item.id, account.TablesAt(gate).deployments, luck.attached))
        && (!luck.started ==> account.JustDid(w, StartReplacement(false)))
      else Idled(account, w)
  }

  /** What a pass does once the state of the replacement is read: only a READY one, and a
      runtime to work with, let the row go on to RETIRING. */
  ghost predicate WentOn(account: Account, w: WorkerId, item: Item, luck: Luck, d: DeploymentId, ready: set<DeploymentId>)
    reads account
  {
    match luck.looked && d in ready && luck.runtime
    case true => Moved(account, w, item.id, Expiring, Retiring, luck.moved)
    case false => Idled(account, w)
  }

  /** What a pass does with an EXPIRING copy: without a profile nothing, without a replacement
      the start of one; with a replacement it goes on exactly when that one is READY. */
  ghost predicate Renewed(account: Account, w: WorkerId, item: Item, c: Capacity, luck: Luck, story: Story)
    reads account
  {
    match item.row.replacement
    case None => if item.row.hasProfile then Replaced(account, w, item, c, luck, story.gate) else Idled(account, w)
    case Some(d) =>
      if item.row.hasProfile then
        && account.Saw(story.gate, w, ReadReplacement(luck.looked))
        && WentOn(account, w, item, luck, d, account.TablesAt(story.gate).ready)
      else Idled(account, w)
  }

  /** What one pass does with a copy of a due row. */
  ghost predicate Advanced(account: Account, w: WorkerId, item: Item, c: Capacity, luck: Luck, story: Story)
    reads account
  {
    match item.row.state
    case Expiring => Renewed(account, w, item, c, luck, story)
    case _ => if luck.runtime then Processed(account, w, item, luck, story.asked, story.read) else Idled(account, w)
  }

  /** A replacement is started exactly for an EXPIRING copy that has a profile and none yet,
      when a fresh snapshot shows room. */
  predicate NeedsStart(item: Item, c: Capacity) {
    && item.row.state.Expiring? && item.row.hasProfile && item.row.replacement.None?
    && c.age.Some? && c.age.value <= 120_000_000_000 && c.limit > 0 && c.inUse + c.pending < c.limit
  }

  /** One pass over a due row. Whatever the others do meanwhile and however stale the copy is,
      every row beyond EXPIRING has its own READY replacement, and no row gets two requests. */
  method ProcessLifecycle(account: Account, w: WorkerId, item: Item, c: Capacity, luck: Luck)
    returns (ghost started: nat, ghost sent: nat, ghost story: Story)
    requires account.Valid() && PositionOf(account.s, w) == AtProcess(item)
    modifies account
    ensures account.Valid() && PositionOf(account.s, w) == Free && Since(account, w, sent, started)
    ensures Advanced(account, w, item, c, luck, story) && story.asked < |account.states|
    ensures started == if NeedsStart(item, c) then 1 else 0
    ensures sent == if item.row.state.Retiring? && luck.runtime && SendsRequest(account, item, luck, story.asked) then 1 else 0
    ensures item.row.state.Retiring? && luck.runtime && luck.allowed ==>
              |old(account.past)| <= story.asked && account.Saw(story.asked, w, Deed.Reserve(luck.reserved))
    ensures MadeBeforeBreaking(account.s.tables)
    ensures forall k :: account.s.tables.sent[k] <= 1
  {
    started, sent, story := Advance(account, w, item, c, luck);
    ChroniclesAreHistories(account.states, account.past);
    MakeBeforeBreak(account.past);
    forall k ensures account.s.tables.sent[k] <= 1 { AtMostOneDelete(account.past, k); }
  }

  method Advance(account: Account, w: WorkerId, item: Item, c: Capacity, luck: Luck)
    returns (ghost started: nat, ghost sent: nat, ghost story: Story)
    requires account.Valid() && PositionOf(account.s, w) == AtProcess(item)
    modifies account
    ensures account.Valid() && PositionOf(account.s, w) == Free && Since(account, w, sent, started)
    ensures Advanced(account, w, item, c, luck, story) && story.asked < |account.states|
    ensures started == if NeedsStart(item, c) then 1 else 0
    ensures sent == if item.row.state.Retiring? && luck.runtime && SendsRequest(account, item, luck, story.asked) then 1 else 0
    ensures item.row.state.Retiring? && luck.runtime && luck.allowed ==>
              |old(account.past)| <= story.asked && account.Saw(story.asked, w, Deed.Reserve(luck.reserved))
  {
    started, sent, story := 0, 0, Story(0, 0, 0);
    var isFresh := c.age.Some? && c.age.value <= 2 * MINUTE;
    var hasRoom := isFresh && !(c.limit <= 0 || c.inUse + c.pending >= c.limit);
    account.Act(w, Begin(hasRoom));
    if item.row.state.Expiring? {
      started, story := Renew(account, w, item, c, hasRoom, luck);
    } else if !luck.runtime {
      account.Act(w, Stop);
    } else {
      ghost var asked, read;
      sent, asked, read := Process(account, w, item, luck);
      story := Story(0, asked, read);
    }
  }

  /** A pass over an EXPIRING copy. */
  method Renew(account: Account, w: WorkerId, item: Item, c: Capacity, hasRoom: bool, luck: Luck)
    returns (ghost started: nat, ghost story: Story)
    requires account.Valid() && item.row.state.Expiring? && PositionOf(account.s, w) == Enter(item, hasRoom)
    requires hasRoom <==> c.age.Some? && c.age.value <= 2 * MINUTE && c.limit > 0 && c.inUse + c.pending < c.limit
    requires account.JustDid(w, Begin(hasRoom)) && account.s.tables == account.Before()
    modifies account
    ensures account.Valid() && PositionOf(account.s, w) == Free && Since(account, w, 0, started)
    ensures Renewed(account, w, item, c, luck, story) && story.asked == 0
    ensures started == if NeedsStart(item, c) then 1 else 0
  {
    started, story := 0, Story(0, 0, 0);
    if item.row.hasProfile {
      if item.row.replacement.None? {
        if hasRoom {
          started := 1;
          ghost var gate := StartAndAttach(account, w, item, luck);
          story := Story(gate, 0, 0);
        }
      } else {
        ghost var gate := PassGate(account, w, item, luck);
        story := Story(gate, 0, 0);
      }
    }
  }

  /** SELECT state FROM deployments, for the replacement of the row. */
  method PassGate(account: Account, w: WorkerId, item: Item, luck: Luck) returns (ghost gate: nat)
    requires account.Valid() && PositionOf(account.s, w) == AtGate(item)
    requires item.row.state.Expiring? && item.row.hasProfile && item.row.replacement.Some?
    modifies account
    ensures account.Valid() && PositionOf(account.s, w) == Free && Since(account, w, 0, 0)
    ensures account.Saw(gate, w, ReadReplacement(luck.looked))
    ensures WentOn(account, w, item, luck, item.row.replacement.value, account.TablesAt(gate).ready)
  {
    account.Others(w);
    gate := |account.past|;
    var isReady := luck.looked && item.row.replacement.value in account.s.tables.ready;
    account.Step(By(w, ReadReplacement(luck.looked)));
    if isReady { EnterRuntime(account, w, item, luck); }
  }

  /** The engine on an EXPIRING copy, when there is a runtime to work with. */
  method EnterRuntime(account: Account, w: WorkerId, item: Item, luck: Luck)
    requires account.Valid() && PositionOf(account.s, w) == Dispatch(item) && item.row.state.Expiring?
    modifies account
    ensures account.Valid() && PositionOf(account.s, w) == Free && Since(account, w, 0, 0)
    ensures luck.runtime ==> Moved(account, w, item.id, Expiring, Retiring, luck.moved)
    ensures !luck.runtime ==> Idled(account, w)
  {
    if luck.runtime {
      ghost var sent, asked, read := Process(account, w, item, luck);
    } else {
      account.Act(w, Stop);
    }
  }

  /** StartDeployment, then UPDATE ... WHERE replacement_deployment_id IS NULL. */
  method StartAndAttach(account: Account, w: WorkerId, item: Item, luck: Luck) returns (ghost gate: nat)
    requires account.Valid() && PositionOf(account.s, w) == AtStart(item)
    modifies account
    ensures account.Valid() && PositionOf(account.s, w) == Free && Since(account, w, 0, 1)
    ensures account.Saw(gate, w, StartReplacement(luck.started))
    ensures luck.started ==> Attached(account, w, item.id, account.TablesAt(gate).deployments, luck.attached)
    ensures !luck.started ==> account.JustDid(w, StartReplacement(false))
  {
    account.Act(w, StartReplacement(luck.started));
    gate := |account.past| - 1;
    if luck.started {
      account.Others(w);
      StartedStays(account, w);
      account.Step(By(w, Attach(luck.attached)));
    }
  }

  lemma StartedStays(account: Account, w: WorkerId)
    requires account.Valid() && PositionOf(account.s, w).AtAttach?
    ensures var p := PositionOf(account.s, w);
      p.deployment in account.s.tables.started && account.s.tables.started[p.deployment] == p.item.id
  {
    ChroniclesAreHistories(account.states, account.past);
    HistoryInv(account.past);
    assert PositionOk(account.s.tables, PositionOf(account.s, w));
  }

  // ---- recovery of a delete ----

  /** At happening `n` worker `w` stored what recovery saw of the droplet of row `id`:
      succeeded when it was gone, unknown when it was still there. */
  ghost predicate Recovers(states: seq<LifecycleState>, hs: seq<Happening>, n: nat, w: WorkerId, id: RowId, gone: bool,
                           reply: StoreReply)
  {
    && n < |hs| && |states| == |hs| + 1 && hs[n] == By(w, WriteRecovered(reply)) && id in states[n].tables.deletes
    && states[n + 1].tables ==
         if reply.Refused? then states[n].tables
         else
           var op := states[n].tables.deletes[id];
           states[n].tables.(deletes := states[n].tables.deletes[id := op.(state := if gone then Succeeded else OpState.Unknown)])
  }

  /** The latest happening is worker `w` confirming the delete of row `id`: a DELETING row
      turns DELETED, unless the store refuses, and any other stays as it is. */
  ghost predicate Confirmed(account: Account, w: WorkerId, id: RowId, reply: StoreReply)
    reads account
  {
    && account.JustDid(w, Confirm(reply)) && id in account.Before().rows
    && var t, u := account.Before(), account.s.tables;
    && u.deletes == t.deletes && u.sent == t.sent && u.seenAbsent == t.seenAbsent
    && match reply
       case Refused => u.rows == t.rows
       case _ => u.rows == if t.rows[id].state.Deleting? then t.rows[id := t.rows[id].(state := Deleted)] else t.rows
  }

  /** Recovery of the delete operation of row `id`, given what the snapshot or the provider
      shows. An operation that names a droplet gets its verdict, and when the droplet was gone
      and the verdict stored, the row is confirmed. No row at all is DELETED whose droplet no
      delete operation saw absent. */
  method RecoverDelete(account: Account, w: WorkerId, id: RowId, found: bool, stored: StoreReply, confirm: StoreReply)
    returns (confirmed: bool, ghost n: nat)
    requires account.Valid() && PositionOf(account.s, w) == Free
    modifies account
    ensures account.Valid() && PositionOf(account.s, w) == Free && Since(account, w, 0, 0)
    ensures id in old(account.s.tables.deletes) && old(account.s.tables.deletes)[id].resource.Some? ==>
              && |old(account.past)| <= n && Recovers(account.states, account.past, n, w, id, !found, stored)
              && (!found && stored.Acked? ==> Confirmed(account, w, id, confirm))
              && (confirmed <==> !found && stored.Acked? && confirm.Acked?)
    ensures confirmed ==> !found && id in account.s.tables.seenAbsent
    ensures confirmed ==> id in account.s.tables.rows && !account.s.tables.rows[id].state.Deleting?
    ensures forall k :: k in account.s.tables.rows && account.s.tables.rows[k].state.Deleted? ==>
              k in account.s.tables.seenAbsent && account.s.tables.sent[k] == 1
  {
    confirmed, n := RecoverRow(account, w, id, found, stored, confirm);
    ChroniclesAreHistories(account.states, account.past);
    forall k | k in account.s.tables.rows && account.s.tables.rows[k].state.Deleted?
      ensures k in account.s.tables.seenAbsent && account.s.tables.sent[k] == 1
    {
      DeletedWasSeenAbsent(account.past, k);
    }
  }

  method RecoverRow(account: Account, w: WorkerId, id: RowId, found: bool, stored: StoreReply, confirm: StoreReply)
    returns (confirmed: bool, ghost n: nat)
    requires account.Valid() && PositionOf(account.s, w) == Free
    modifies account
    ensures account.Valid() && PositionOf(account.s, w) == Free && Since(account, w, 0, 0)
    ensures id in old(account.s.tables.deletes) && old(account.s.tables.deletes)[id].resource.Some? ==>
              && |old(account.past)| <= n && Recovers(account.states, account.past, n, w, id, !found, stored)
              && (!found && stored.Acked? ==> Confirmed(account, w, id, confirm))
              && (confirmed <==> !found && stored.Acked? && confirm.Acked?)
    ensures confirmed ==> !found && id in account.s.tables.seenAbsent
    ensures confirmed ==> id in account.s.tables.rows && !account.s.tables.rows[id].state.Deleting?
  {
    ghost var m := |account.past|;
    account.Others(w);
    AcceptedStays(account, m, id);
    confirmed, n := false, 0;
    if id in account.s.tables.deletes && account.s.tables.deletes[id].resource.Some? {
      confirmed, n := RecoverAccepted(account, w, id, account.s.tables.deletes[id].resource.value, found, stored, confirm);
    }
  }

  method RecoverAccepted(account: Account, w: WorkerId, id: RowId, provider: ProviderId, found: bool, stored: StoreReply,
                         confirm: StoreReply)
    returns (confirmed: bool, ghost n: nat)
    requires account.Valid() && PositionOf(account.s, w) == Free
    requires id in account.s.tables.deletes && account.s.tables.deletes[id].resource == Some(provider)
    modifies account
    ensures account.Valid() && PositionOf(account.s, w) == Free && Since(account, w, 0, 0)
    ensures |old(account.past)| <= n && Recovers(account.states, account.past, n, w, id, !found, stored)
    ensures !found && stored.Acked? ==> Confirmed(account, w, id, confirm)
    ensures confirmed <==> !found && stored.Acked? && confirm.Acked?
    ensures confirmed ==> !found && id in account.s.tables.seenAbsent
    ensures confirmed ==> id in account.s.tables.rows && !account.s.tables.rows[id].state.Deleting?
  {
    account.Step(By(w, ReadOperation(id, !found)));
    n := StoreVerdict(account, w, id, provider, found, stored);
    confirmed := false;
    if stored.Acked? && !found { confirmed := Confirmation(account, w, id, provider, confirm); }
  }

  /** UPDATE operations SET state=... WHERE id=... */
  method StoreVerdict(account: Account, w: WorkerId, id: RowId, provider: ProviderId, found: bool, stored: StoreReply)
    returns (ghost n: nat)
    requires account.Valid() && PositionOf(account.s, w) == AtOpRecover(id, provider, !found)
    modifies account
    ensures account.Valid() && Since(account, w, 0, 0)
    ensures PositionOf(account.s, w) == if stored.Acked? && !found then AtConfirm(id, provider) else Free
    ensures |old(account.past)| <= n && Recovers(account.states, account.past, n, w, id, !found, stored)
  {
    account.Others(w);
    RecoveredStays(account, w);
    n := |account.past|;
    account.Step(By(w, WriteRecovered(stored)));
  }

  lemma RecoveredStays(account: Account, w: WorkerId)
    requires account.Valid()
    ensures var p := PositionOf(account.s, w);
      && (p.AtOpRecover? ==> p.id in account.s.tables.deletes)
      && (p.AtConfirm? ==>
            && p.id in account.s.tables.rows && p.id in account.s.tables.seenAbsent
            && p.provider in account.s.tables.byProvider && account.s.tables.byProvider[p.provider] == p.id)
  {
    ChroniclesAreHistories(account.states, account.past);
    HistoryInv(account.past);
    var t, p := account.s.tables, PositionOf(account.s, w);
    assert PositionOk(t, p);
    if p.AtConfirm? { assert RowOk(t, p.id, t.rows[p.id]); }
  }

  /** A delete operation that names a droplet names one for ever. */
  lemma AcceptedStays(account: Account, m: nat, id: RowId)
    requires account.Valid() && m <= |account.past|
    ensures Accepted(account.TablesAt(m), id) ==> Accepted(account.s.tables, id)
  {
    var hs := account.past;
    ChroniclesAreHistories(account.states, hs);
    ChroniclePrefix(account.states, hs, m);
    ChroniclesAreHistories(account.states[..m + 1], hs[..m]);
    AcceptedForEver(hs[..m], hs, id);
  }

  lemma {:induction false} AcceptedForEver(hs: seq<Happening>, gs: seq<Happening>, id: RowId)
    requires hs <= gs
    ensures Accepted(History(hs).tables, id) ==> Accepted(History(gs).tables, id)
    decreases |gs|
  {
    if hs != gs {
      var init := gs[..|gs| - 1];
      AcceptedForEver(hs, init, id);
      HistoryInv(init);
      if Accepted(History(init).tables, id) { AcceptedNext(History(init), gs[|gs| - 1], id); }
    }
  }

  lemma AcceptedNext(s: LifecycleState, h: Happening, id: RowId)
    requires LifecycleInv(s) && Accepted(s.tables, id)
    ensures Accepted(Happen(s, h).tables, id)
  {
    if h.By? {
      assert PositionOk(s.tables, PositionOf(s, h.w));
      PerformSound(s.tables, PositionOf(s, h.w), h.deed);
    }
  }

  /** UPDATE droplets SET state='DELETED' WHERE ... AND state='DELETING'. */
  method Confirmation(account: Account, w: WorkerId, id: RowId, provider: ProviderId, reply: StoreReply) returns (confirmed: bool)
    requires account.Valid() && PositionOf(account.s, w) == AtConfirm(id, provider)
    modifies account
    ensures account.Valid() && PositionOf(account.s, w) == Free && Since(account, w, 0, 0)
    ensures Confirmed(account, w, id, reply) && (confirmed <==> reply.Acked?)
    ensures id in account.s.tables.rows && id in account.s.tables.seenAbsent
    ensures confirmed ==> !account.s.tables.rows[id].state.Deleting?
  {
    account.Others(w);
    RecoveredStays(account, w);
    account.Step(By(w, Confirm(reply)));
    confirmed := reply.Acked?;
  }

  // ---- orphans ----

  /** Row `id` is DELETED just before happening `n`. */
  ghost predicate DeletedAt(account: Account, n: nat, id: RowId)
    reads account
  {
    n < |account.states| && id in account.TablesAt(n).rows && account.TablesAt(n).rows[id].state.Deleted?
  }

  /** The orphan reconciler on one listed droplet of the account: it reads the row, then the
      deployment, then updates the row if it still is DELETED, with others in between. An
      owned droplet of a FAILED deployment whose row stays DELETED is restored; its delete
      was sent before, so no later history sends another one. */
  method RestoreOrphan(account: Account, w: WorkerId, owned: bool, id: RowId, deploymentFailed: bool, reply: StoreReply,
                       ghost later: seq<Happening>)
    returns (restored: bool, ghost n: nat)
    requires account.Valid()
    modifies account
    ensures account.Valid() && Since(account, w, 0, 0)
    ensures restored ==> owned && deploymentFailed && !reply.Refused? && Restored(account, id)
    ensures restored ==> History(account.past + later).tables.sent[id] == 1
    ensures !restored && owned && deploymentFailed && reply.Acked? ==>
              |old(account.past)| <= n <= |account.past| && !DeletedAt(account, n, id)
  {
    account.Others(w);
    n := |account.past|;
    var rows := account.s.tables.rows;
    restored := false;
    if owned && id in rows && rows[id].state.Deleted? {
      account.Others(w);
      if deploymentFailed { restored, n := ConditionalRestore(account, w, id, reply, later); }
    }
  }

  /** The latest happening sent row `id` from DELETED back to RETIRING, without replacement. */
  ghost predicate Restored(account: Account, id: RowId)
    reads account
  {
    && 0 < |account.past| < |account.states| && account.past[|account.past| - 1] == Restore(id)
    && id in account.Before().rows && account.Before().rows[id].state.Deleted?
    && account.s.tables ==
         account.Before().(rows := account.Before().rows[id := account.Before().rows[id].(state := Retiring, replacement := None)])
  }

  /** UPDATE droplets SET state='RETIRING', ... WHERE id=... AND state='DELETED'. */
  method ConditionalRestore(account: Account, w: WorkerId, id: RowId, reply: StoreReply, ghost later: seq<Happening>)
    returns (restored: bool, ghost n: nat)
    requires account.Valid()
    modifies account
    ensures account.Valid() && Since(account, w, 0, 0)
    ensures restored ==> !reply.Refused? && Restored(account, id)
    ensures restored ==> History(account.past + later).tables.sent[id] == 1
    ensures !restored && reply.Acked? ==>
              |old(account.past)| <= n <= |account.past| && !DeletedAt(account, n, id)
  {
    account.Others(w);
    n := |account.past|;
    restored := false;
    if !reply.Refused? {
      var rows := account.s.tables.rows;
      ghost var before := account.past;
      ChroniclesAreHistories(account.states, account.past);
      account.Step(Restore(id));
      restored := reply.Acked? && id in rows && rows[id].state.Deleted?;
      if restored { RestoredForEver(before, id, later); }
    }
  }

  lemma RestoredForEver(hs: seq<Happening>, id: RowId, later: seq<Happening>)
    requires id in History(hs).tables.rows && History(hs).tables.rows[id].state.Deleted?
    ensures History(hs + [Restore(id)] + later).tables.sent[id] == 1
  {
    RestoredRowIsNeverDeletedAgain(hs, [Restore(id)] + later, id);
    assert hs + [Restore(id)] + later == hs + ([Restore(id)] + later);
  }
}
