/** One whole life of a droplet row, from READY to DELETED. */
module LifecycleProgress {
  import opened Wrappers
  import opened CreateProtocol
  import opened LifecycleProtocol
  import opened LifecycleTheorems

  // ---- the happenings, in the order of the passes ----

  function Expires(): seq<Happening> {
    [Register(0, 100, true), By(1, ReadDue(0)), By(1, Begin(true)), By(1, MoveRow(Acked))]
  }

  function StartsReplacement(): seq<Happening> {
    Expires() + [By(1, ReadDue(0)), By(1, Begin(true)), By(1, StartReplacement(true)), By(1, Attach(Acked))]
  }

  function Retires(): seq<Happening> {
    StartsReplacement() + [BecomeReady(0), By(1, ReadDue(0)), By(1, Begin(true)), By(1, ReadReplacement(true)), By(1, MoveRow(Acked))]
  }

  function Requests(): seq<Happening> {
    Retires() + [By(1, ReadDue(0)), By(1, Begin(true)), By(1, Deed.Reserve(Acked)), By(1, CheckEgress(true)),
                 By(1, UpdateOperation(Acked)), By(1, Request)]
  }

  function Deletes(): seq<Happening> {
    Requests() + [By(1, Answer(true)), By(1, CheckEgress(true)), By(1, UpdateOperation(Acked)), By(1, MoveRow(Acked))]
  }

  function Confirms(): seq<Happening> {
    Deletes() + [By(1, ReadOperation(0, true)), By(1, WriteRecovered(Acked)), By(1, Confirm(Acked))]
  }

  /** The row of droplet 100 goes through all five states: it expires, its replacement is
      started and attached, it retires once that is ready, its delete is requested, it is
      DELETING when the request was accepted, and DELETED when its droplet was seen gone. */
  lemma {:induction false} WholeLife()
    ensures History(Expires()).tables.rows == map[0 := Row(Expiring, 100, true, None)]
    ensures History(StartsReplacement()).tables.rows == map[0 := Row(Expiring, 100, true, Some(0))]
    ensures History(StartsReplacement()).tables.started == map[0 := 0]
    ensures History(Retires()).tables.rows == map[0 := Row(Retiring, 100, true, Some(0))]
    ensures History(Requests()).tables.sent == multiset{0}
    ensures History(Requests()).tables.deletes == map[0 := Operation(Running, None, 1)]
    ensures History(Deletes()).tables.rows == map[0 := Row(Deleting, 100, true, Some(0))]
    ensures History(Deletes()).tables.deletes == map[0 := Operation(Verifying, Some(100), 1)]
    ensures History(Confirms()).tables.rows == map[0 := Row(Deleted, 100, true, Some(0))]
    ensures History(Confirms()).tables.deletes == map[0 := Operation(Succeeded, Some(100), 1)]
    ensures History(Confirms()).tables.sent == multiset{0}
  {
    RowExpires();
    ReplacementStarts();
    RowRetires();
    DeleteIsRequested();
    RowIsDeleting();
    RowIsDeleted();
  }

  // ---- the states between the passes ----

  function Snapshot(row: Row, deployments: nat, ready: set<DeploymentId>): Tables {
    Tables(map[0 := row], map[100 := 0], deployments, ready, if deployments == 0 then map[] else map[0 := 0],
           map[], map[], multiset{}, {})
  }

  function Late(row: Row, op: Operation, sent: nat, absent: set<RowId>): Tables {
    Snapshot(row, 1, {0}).(deletes := map[0 := op], retired := map[0 := 0],
                           sent := if sent == 0 then multiset{} else multiset{0}, seenAbsent := absent)
  }

  function At(t: Tables, p: Position): LifecycleState {
    LifecycleState(t, map[1 := p])
  }

  const READY_ROW: Row := Row(Ready, 100, true, None)
  const EXPIRING_ROW: Row := Row(Expiring, 100, true, None)
  const REPLACED_ROW: Row := Row(Expiring, 100, true, Some(0))
  const RETIRING_ROW: Row := Row(Retiring, 100, true, Some(0))
  const DELETING_ROW: Row := Row(Deleting, 100, true, Some(0))
  const DELETED_ROW: Row := Row(Deleted, 100, true, Some(0))

  /** Two more happenings of worker 1. */
  lemma Two(hs: seq<Happening>, d1: Deed, d2: Deed, s: LifecycleState)
    requires s == Happen(Happen(History(hs), By(1, d1)), By(1, d2))
    ensures History(hs + [By(1, d1), By(1, d2)]) == s
  {
    HistorySnoc(hs, By(1, d1));
    HistorySnoc(hs + [By(1, d1)], By(1, d2));
    assert hs + [By(1, d1)] + [By(1, d2)] == hs + [By(1, d1), By(1, d2)];
  }

  lemma One(hs: seq<Happening>, h: Happening, s: LifecycleState)
    requires s == Happen(History(hs), h)
    ensures History(hs + [h]) == s
  {
    HistorySnoc(hs, h);
  }

  lemma RowExpires()
    ensures History(Expires()) == At(Snapshot(EXPIRING_ROW, 0, {}), Free)
  {
    var h0 := [Register(0, 100, true)];
    var s0 := LifecycleState(Snapshot(READY_ROW, 0, {}), map[]);
    HistorySnoc([], h0[0]);
    assert [] + h0 == h0;
    assert Happen(Empty(), h0[0]) == s0;
    Two(h0, ReadDue(0), Begin(true), At(Snapshot(READY_ROW, 0, {}), AtMove(Item(0, READY_ROW), Expiring)));
    One(h0 + [By(1, ReadDue(0)), By(1, Begin(true))], By(1, MoveRow(Acked)), At(Snapshot(EXPIRING_ROW, 0, {}), Free));
    assert Expires() == h0 + [By(1, ReadDue(0)), By(1, Begin(true))] + [By(1, MoveRow(Acked))];
  }

  lemma ReplacementStarts()
    ensures History(StartsReplacement()) == At(Snapshot(REPLACED_ROW, 1, {}), Free)
  {
    RowExpires();
    var h0, item := Expires(), Item(0, EXPIRING_ROW);
    Two(h0, ReadDue(0), Begin(true), At(Snapshot(EXPIRING_ROW, 0, {}), AtStart(item)));
    var h1 := h0 + [By(1, ReadDue(0)), By(1, Begin(true))];
    Two(h1, StartReplacement(true), Attach(Acked), At(Snapshot(REPLACED_ROW, 1, {}), Free));
    assert StartsReplacement() == h1 + [By(1, StartReplacement(true)), By(1, Attach(Acked))];
  }

  lemma RowRetires()
    ensures History(Retires()) == At(Snapshot(RETIRING_ROW, 1, {0}).(retired := map[0 := 0]), Free)
  {
    ReplacementStarts();
    var h0, item := StartsReplacement(), Item(0, REPLACED_ROW);
    One(h0, BecomeReady(0), At(Snapshot(REPLACED_ROW, 1, {0}), Free));
    var h1 := h0 + [BecomeReady(0)];
    Two(h1, ReadDue(0), Begin(true), At(Snapshot(REPLACED_ROW, 1, {0}), AtGate(item)));
    var h2 := h1 + [By(1, ReadDue(0)), By(1, Begin(true))];
    Two(h2, ReadReplacement(true), MoveRow(Acked), At(Snapshot(RETIRING_ROW, 1, {0}).(retired := map[0 := 0]), Free));
    assert Retires() == h2 + [By(1, ReadReplacement(true)), By(1, MoveRow(Acked))];
  }

  const COPY: Item := Item(0, RETIRING_ROW)
  const RUNNING: Operation := Operation(Running, None, 1)
  const ACCEPTED: Operation := Operation(Verifying, Some(100), 1)
  const GONE: Operation := Operation(Succeeded, Some(100), 1)

  /** What two deeds of worker 1 make of a state. */
  function Both(s: LifecycleState, d1: Deed, d2: Deed): LifecycleState {
    Happen(Happen(s, By(1, d1)), By(1, d2))
  }

  lemma ReserveAndCheck()
    ensures Both(At(Snapshot(RETIRING_ROW, 1, {0}).(retired := map[0 := 0]), AtReserve(COPY)), Deed.Reserve(Acked), CheckEgress(true))
         == At(Late(RETIRING_ROW, FRESH, 0, {}), AtDeleteUpdate(COPY, RUNNING, ThenRequest))
  {
  }

  lemma RunAndRequest()
    ensures Both(At(Late(RETIRING_ROW, FRESH, 0, {}), AtDeleteUpdate(COPY, RUNNING, ThenRequest)), UpdateOperation(Acked), Request)
         == At(Late(RETIRING_ROW, RUNNING, 1, {}), AwaitDelete(COPY, RUNNING))
  {
  }

  lemma AnswerAndCheck()
    ensures Both(At(Late(RETIRING_ROW, RUNNING, 1, {}), AwaitDelete(COPY, RUNNING)), Answer(true), CheckEgress(true))
         == At(Late(RETIRING_ROW, RUNNING, 1, {}), AtDeleteUpdate(COPY, ACCEPTED, ThenDone))
  {
  }

  lemma StoreAndMove()
    ensures Both(At(Late(RETIRING_ROW, RUNNING, 1, {}), AtDeleteUpdate(COPY, ACCEPTED, ThenDone)), UpdateOperation(Acked), MoveRow(Acked))
         == At(Late(DELETING_ROW, ACCEPTED, 1, {}), Free)
  {
  }

  lemma LookAndStore()
    ensures Both(At(Late(DELETING_ROW, ACCEPTED, 1, {}), Free), ReadOperation(0, true), WriteRecovered(Acked))
         == At(Late(DELETING_ROW, GONE, 1, {0}), AtConfirm(0, 100))
  {
  }

  lemma ConfirmTheRow()
    ensures Happen(At(Late(DELETING_ROW, GONE, 1, {0}), AtConfirm(0, 100)), By(1, Confirm(Acked)))
         == At(Late(DELETED_ROW, GONE, 1, {0}), Free)
  {
  }

  lemma DeleteIsReserved()
    ensures History(Retires() + [By(1, ReadDue(0)), By(1, Begin(true))])
         == At(Snapshot(RETIRING_ROW, 1, {0}).(retired := map[0 := 0]), AtReserve(COPY))
  {
    RowRetires();
    Two(Retires(), ReadDue(0), Begin(true), At(Snapshot(RETIRING_ROW, 1, {0}).(retired := map[0 := 0]), AtReserve(COPY)));
  }

  /** Four more happenings of worker 1, from one state by way of another. */
  lemma Four(hs: seq<Happening>, s0: LifecycleState, d1: Deed, d2: Deed, s1: LifecycleState, d3: Deed, d4: Deed, s2: LifecycleState)
    requires History(hs) == s0 && Both(s0, d1, d2) == s1 && Both(s1, d3, d4) == s2
    ensures History(hs + [By(1, d1), By(1, d2), By(1, d3), By(1, d4)]) == s2
  {
    Two(hs, d1, d2, s1);
    Two(hs + [By(1, d1), By(1, d2)], d3, d4, s2);
    assert hs + [By(1, d1), By(1, d2)] + [By(1, d3), By(1, d4)] == hs + [By(1, d1), By(1, d2), By(1, d3), By(1, d4)];
  }

  lemma DeleteIsRequested()
    ensures History(Requests()) == At(Late(RETIRING_ROW, RUNNING, 1, {}), AwaitDelete(COPY, RUNNING))
  {
    DeleteIsReserved();
    ReserveAndCheck();
    RunAndRequest();
    var h0 := Retires() + [By(1, ReadDue(0)), By(1, Begin(true))];
    Four(h0, History(h0), Deed.Reserve(Acked), CheckEgress(true), Both(History(h0), Deed.Reserve(Acked), CheckEgress(true)),
         UpdateOperation(Acked), Request, At(Late(RETIRING_ROW, RUNNING, 1, {}), AwaitDelete(COPY, RUNNING)));
    assert Requests() == h0 + [By(1, Deed.Reserve(Acked)), By(1, CheckEgress(true)), By(1, UpdateOperation(Acked)), By(1, Request)];
  }

  lemma RowIsDeleting()
    ensures History(Deletes()) == At(Late(DELETING_ROW, ACCEPTED, 1, {}), Free)
  {
    DeleteIsRequested();
    AnswerAndCheck();
    StoreAndMove();
    Four(Requests(), History(Requests()), Answer(true), CheckEgress(true), Both(History(Requests()), Answer(true), CheckEgress(true)),
         UpdateOperation(Acked), MoveRow(Acked), At(Late(DELETING_ROW, ACCEPTED, 1, {}), Free));
  }

  lemma RowIsDeleted()
    ensures History(Confirms()) == At(Late(DELETED_ROW, GONE, 1, {0}), Free)
  {
    RowIsDeleting();
    LookAndStore();
    ConfirmTheRow();
    Two(Deletes(), ReadOperation(0, true), WriteRecovered(Acked), At(Late(DELETING_ROW, GONE, 1, {0}), AtConfirm(0, 100)));
    var h1 := Deletes() + [By(1, ReadOperation(0, true)), By(1, WriteRecovered(Acked))];
    One(h1, By(1, Confirm(Acked)), At(Late(DELETED_ROW, GONE, 1, {0}), Free));
    assert Confirms() == h1 + [By(1, Confirm(Acked))];
  }
}
