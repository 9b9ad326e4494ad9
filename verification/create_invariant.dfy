/** The inductive invariant of the create protocol, and that every event keeps it. */
module CreateInvariant {
  import opened Wrappers
  import opened ProviderErrors
  import opened CreateProtocol

  function RegionsOf(order: seq<Entry>): set<Region> {
    set j | 0 <= j < |order| :: order[j].region
  }

  /** The rows are those of a prefix of the region list, in order, and one run
      inserted them all. */
  ghost predicate Prefix(c: Config, order: seq<Entry>, rows: set<Region>) {
    && |order| <= |c.regions|
    && rows == RegionsOf(order)
    && (forall j :: 0 <= j < |order| ==> order[j] == Entry(c.regions[j], order[0].run))
  }

  ghost predicate GaveUp(status: CallStatus) {
    status.Rejected? && Advances(status.error)
  }

  /** Every call but that of the newest row was turned down for capacity. */
  ghost predicate CallShape(c: Config, rows: nat, calls: seq<Call>) {
    && |calls| <= rows <= |calls| + 1 && rows <= |c.regions|
    && (forall k :: 0 <= k < |calls| ==> calls[k].region == c.regions[k])
    && (forall k :: 0 <= k < rows - 1 ==> GaveUp(calls[k].status))
  }

  /** The region of the newest row. */
  function Last(b: Books): Region
    requires b.order != []
  {
    b.order[|b.order| - 1].region
  }

  ghost predicate HasDroplet(b: Books) {
    |b.calls| == |b.order| > 0 && b.calls[|b.calls| - 1].status.Created?
  }

  ghost predicate CreatedLast(b: Books, id: ProviderId) {
    HasDroplet(b) && b.calls[|b.calls| - 1].status.id == id
  }

  ghost predicate RejectedLast(b: Books) {
    && |b.calls| == |b.order| > 0
    && b.calls[|b.calls| - 1].status.Rejected?
  }

  ghost predicate Open(op: Operation) {
    op.resource.None? && (op.state.Planned? || op.state.Running?)
  }

  ghost predicate Abandoned(op: Operation) {
    op.resource.None? && (op.state.Running? || op.state.Failed?)
  }

  ghost predicate NewestRow(c: Config, b: Books, op: Operation) {
    && (op.resource.Some? ==> CreatedLast(b, op.resource.value))
    && (op.resource.Some? ==> op.state.Verifying? || op.state.Unknown? || op.state.Succeeded?)
    && (op.resource.None? ==> Open(op) || op.state.Unknown? || op.state.Failed?)
    && (op.state.Failed? && c.strict ==> RejectedLast(b))
  }

  /** Only the newest row can name a droplet or await adoption. */
  ghost predicate RowShape(c: Config, b: Books) {
    forall r :: r in b.ledger ==>
      b.order != [] && (if r == Last(b) then NewestRow(c, b, b.ledger[r]) else Abandoned(b.ledger[r]))
  }

  /** The row of the newest region has left the hands of the run that inserted it. */
  ghost predicate Settled(b: Books) {
    b.order != [] && Last(b) in b.ledger && (b.ledger[Last(b)].state.Unknown? || Named(b))
  }

  ghost predicate Named(b: Books) {
    b.order != [] && Last(b) in b.ledger && b.ledger[Last(b)].resource.Some?
  }

  /** The run that may still call the provider or insert the next row. */
  ghost predicate Holds(pc: Pc) {
    || pc.PreEgress? || pc.AtUpdate? || pc.AtCall? || pc.AwaitReply? || pc.PostEgress?
    || (pc.AtInsert? && pc.i > 0)
  }

  ghost predicate BeforeCall(b: Books, i: nat) {
    |b.order| == i + 1 && |b.calls| == i
  }

  ghost predicate AfterCall(b: Books, i: nat) {
    |b.order| == i + 1 == |b.calls|
  }

  ghost predicate HolderOk(c: Config, b: Books, pc: Pc)
    requires Holds(pc)
  {
    && b.order != [] && Last(b) in b.ledger
    && !Settled(b)
    && var row := b.ledger[Last(b)];
    match pc
    case PreEgress(i, op) => BeforeCall(b, i) && row == op == FRESH
    case AtCall(i, op) => BeforeCall(b, i) && op.resource.None? && op.state.Running? && row == op
    case AwaitReply(i, op, k) => AfterCall(b, i) && k == i && op.resource.None? && op.state.Running? && row == op
    case PostEgress(i, op) => AfterCall(b, i) && Open(row) && op.resource.Some? && CreatedLast(b, op.resource.value)
    case AtInsert(i) =>
      AfterCall(b, i - 1) && GaveUp(b.calls[i - 1].status)
      && i < |c.regions| && Abandoned(row)
    case AtUpdate(i, op, ThenCall) => BeforeCall(b, i) && Open(row) && op.resource.None? && op.state.Running?
    case AtUpdate(i, op, ThenSucceed) =>
      AfterCall(b, i) && Open(row) && op.resource.Some? && CreatedLast(b, op.resource.value) && op.state.Verifying?
    case AtUpdate(i, op, ThenReturn(e)) =>
      && (BeforeCall(b, i) || AfterCall(b, i)) && Open(row)
      && (op.resource.Some? ==> CreatedLast(b, op.resource.value))
      && (if op.state.Failed? then op.resource.None? && AfterCall(b, i) else op.state.Unknown?)
      && (op.state.Failed? && c.strict ==> RejectedLast(b))
      && (Advances(e) ==> (op.state.Failed? && AfterCall(b, i) && row.state.Running? && b.calls[i].status == Rejected(e)))
  }

  /** What an action outside the inserting run relies on. */
  ghost predicate ObserverOk(c: Config, b: Books, pc: Pc)
    requires !Holds(pc)
  {
    match pc
    case AtSelect(i) => i < |c.regions| && c.regions[i] in b.ledger
    case AtList(i, op) =>
      i < |c.regions| && Settled(b) && c.regions[i] == Last(b) && op.resource.None? && op.state.Unknown?
    case AtAdopt(i, op) =>
      i < |c.regions| && Settled(b) && c.regions[i] == Last(b) && op.resource.Some?
      && CreatedLast(b, op.resource.value) && op.state.Verifying?
    case AtRecover(r, state) => Named(b) && r == Last(b) && (state.Succeeded? || state.Unknown?)
    case AtCheck(r, op) =>
      op.resource.Some? ==> Settled(b) && r == Last(b) && CreatedLast(b, op.resource.value)
    case AtVerify(r, op) =>
      Settled(b) && r == Last(b) && op.resource.Some? && CreatedLast(b, op.resource.value) && op.state.Succeeded?
    case Returned(error, provider) =>
      && (provider.Some? ==> error.None? && Settled(b) && CreatedLast(b, provider.value))
      && (provider.None? ==> error.Some?)
    case _ => true
  }

  ghost predicate PcOk(c: Config, b: Books, pc: Pc, run: nat) {
    if Holds(pc) then HolderOk(c, b, pc) && run == b.order[0].run else ObserverOk(c, b, pc)
  }

  ghost predicate Shapes(c: Config, b: Books) {
    Prefix(c, b.order, b.ledger.Keys) && CallShape(c, |b.order|, b.calls) && RowShape(c, b)
  }

  /** At most one worker holds, and it is `w` if `w` holds. */
  ghost predicate NoOtherHolder(s: State, w: WorkerId) {
    forall v :: v in s.workers && v != w ==> !Holds(s.workers[v].pc)
  }

  ghost predicate Inv(c: Config, s: State) {
    && c.regions != [] && c.tag != ""
    && Shapes(c, s.books)
    && (forall w :: w in s.workers && Holds(s.workers[w].pc) ==> NoOtherHolder(s, w))
    && (forall w :: w in s.workers ==> PcOk(c, s.books, s.workers[w].pc, s.workers[w].run))
  }

  lemma InitInv(c: Config)
    requires c.regions != [] && c.tag != ""
    ensures Inv(c, Init())
  {
  }

  // ---- frames ----

  /** How the books may change while others look on: rows and names are only added,
      and settled books get no new row. */
  ghost predicate Grows(b: Books, b': Books) {
    && b.ledger.Keys <= b'.ledger.Keys
    && (Settled(b) ==> b'.order == b.order && Settled(b'))
    && (Named(b) ==> Named(b'))
    && (Settled(b) && HasDroplet(b) ==> b'.calls == b.calls)
  }

  lemma ObserverStable(c: Config, b: Books, b': Books, pc: Pc)
    requires !Holds(pc) && ObserverOk(c, b, pc) && Grows(b, b')
    ensures ObserverOk(c, b', pc)
  {
  }

  // ---- the books, one action at a time ----

  ghost predicate Exhausted(b: Books, i: nat) {
    && |b.order| == |b.calls| == i
    && (i > 0 ==> GaveUp(b.calls[i - 1].status))
    && (i > 0 ==> Last(b) in b.ledger && Abandoned(b.ledger[Last(b)]))
  }

  lemma NewRowShapes(c: Config, b: Books, i: nat, run: nat)
    requires Shapes(c, b) && i < |c.regions| && c.regions[i] !in b.ledger && Exhausted(b, i)
    requires i > 0 ==> run == b.order[0].run
    ensures Shapes(c, NewRow(b, c.regions[i], run))
    ensures var b' := NewRow(b, c.regions[i], run);
      Grows(b, b') && BeforeCall(b', i) && b'.order[0].run == run && Last(b') == c.regions[i]
  {
    NewRowPrefix(c, b.order, b.ledger.Keys, i, run);
    NewRowRows(c, b, i, run);
    NewRowCalls(c, b, i);
    assert NewRow(b, c.regions[i], run).ledger.Keys == b.ledger.Keys + {c.regions[i]};
    NewRowGrows(c, b, i, run);
  }

  lemma NewRowCalls(c: Config, b: Books, i: nat)
    requires CallShape(c, |b.order|, b.calls) && Exhausted(b, i) && i < |c.regions|
    ensures CallShape(c, i + 1, b.calls)
  {
  }

  lemma NewRowGrows(c: Config, b: Books, i: nat, run: nat)
    requires i < |c.regions| && Exhausted(b, i)
    ensures Grows(b, NewRow(b, c.regions[i], run))
  {
    assert !Settled(b);
  }

  lemma NewRowRows(c: Config, b: Books, i: nat, run: nat)
    requires RowShape(c, b) && i < |c.regions| && c.regions[i] !in b.ledger && Exhausted(b, i)
    ensures RowShape(c, NewRow(b, c.regions[i], run))
  {
    var b' := NewRow(b, c.regions[i], run);
    assert Last(b') == c.regions[i];
  }

  lemma NewRowPrefix(c: Config, order: seq<Entry>, rows: set<Region>, i: nat, run: nat)
    requires Prefix(c, order, rows) && i == |order| < |c.regions| && c.regions[i] !in rows
    requires i > 0 ==> run == order[0].run
    ensures Prefix(c, order + [Entry(c.regions[i], run)], rows + {c.regions[i]})
  {
    var order' := order + [Entry(c.regions[i], run)];
    forall r | r in rows + {c.regions[i]} ensures r in RegionsOf(order') {
      if r == c.regions[i] {
        assert order'[i].region == r;
      } else {
        var j :| 0 <= j < |order| && order[j].region == r;
        assert order'[j].region == r;
      }
    }
  }

  lemma {:induction false} MatchingSound(items: seq<Listed>, tag: string, name: string, region: Region, n: nat)
    requires n < |Matching(items, tag, name, region)|
    ensures Matching(items, tag, name, region)[n] in items
    ensures Matches(Matching(items, tag, name, region)[n], tag, name, region)
  {
    var init := items[..|items| - 1];
    if n < |Matching(init, tag, name, region)| {
      MatchingSound(init, tag, name, region, n);
    }
  }

  lemma OnlyLastIsCreated(c: Config, b: Books, id: ProviderId, r: Region)
    requires Shapes(c, b) && CreatedIn(b, id, r)
    ensures CreatedLast(b, id) && r == Last(b)
  {
    var k :| 0 <= k < |b.calls| && b.calls[k] == Call(r, Created(id));
    assert k == |b.order| - 1;
  }

  /** What one action promises. */
  ghost predicate StepOk(c: Config, b: Books, pc: Pc, next: (Books, Pc), run: nat) {
    var (b', pc') := next;
    && Shapes(c, b') && PcOk(c, b', pc', run)
    && (b' == b || (Grows(b, b') && (Holds(pc) || Settled(b) || b.order == [])))
    && (Holds(pc') ==> Holds(pc) || b.order == [])
  }

  /** Moving on leaves the books alone and makes no new holder. */
  ghost predicate MovesWell(c: Config, b: Books, pc: Pc, pc': Pc, run: nat) {
    PcOk(c, b, pc', run) && (Holds(pc') ==> Holds(pc))
  }

  lemma FailOk(c: Config, b: Books, pc: Pc, i: nat, run: nat, e: Error)
    requires !Advances(e)
    ensures MovesWell(c, b, pc, Finish(c, i, e), run)
  {
  }

  lemma SelectOk(c: Config, b: Books, pc: Pc, run: nat, ok: bool)
    requires Shapes(c, b) && PcOk(c, b, pc, run)
    ensures MovesWell(c, b, pc, Move(c, b, pc, Select(ok)), run)
  {
    if pc.AtSelect? { AfterSelectOk(c, b, pc.i, run); }
  }

  lemma AfterSelectOk(c: Config, b: Books, i: nat, run: nat)
    requires Shapes(c, b) && i < |c.regions| && c.regions[i] in b.ledger
    ensures MovesWell(c, b, Idle, AfterSelect(b.ledger[c.regions[i]], i), run)
  {
  }

  lemma EgressOk(c: Config, b: Books, pc: Pc, run: nat, ok: bool)
    requires PcOk(c, b, pc, run)
    ensures MovesWell(c, b, pc, AfterEgress(pc, ok), run)
  {
  }

  lemma ReplyCreatedOk(c: Config, b: Books, pc: Pc, run: nat)
    requires PcOk(c, b, pc, run)
    ensures MovesWell(c, b, pc, Move(c, b, pc, ReplyCreated), run)
  {
  }

  lemma ListFailedOk(c: Config, b: Books, pc: Pc, run: nat, e: Error)
    requires PcOk(c, b, pc, run)
    ensures MovesWell(c, b, pc, Move(c, b, pc, ListFailed(e)), run)
  {
    if FromGet(e) { ListErrorsNeverAdvance(e); }
  }

  lemma ListOkOk(c: Config, b: Books, pc: Pc, run: nat, items: seq<Listed>)
    requires c.tag != "" && Shapes(c, b) && PcOk(c, b, pc, run)
    ensures MovesWell(c, b, pc, Move(c, b, pc, ListOk(items)), run)
  {
    if pc.AtList? && pc.i < |c.regions| && Honest(c, b, items) { AfterListOk(c, b, pc.i, pc.op, items); }
  }

  lemma NamedRowIsLast(c: Config, b: Books, r: Region)
    requires RowShape(c, b) && r in b.ledger && b.ledger[r].resource.Some?
    ensures Named(b) && Settled(b) && r == Last(b) && CreatedLast(b, b.ledger[r].resource.value)
  {
  }

  lemma RecoverReadOk(c: Config, b: Books, pc: Pc, run: nat, r: Region, found: bool)
    requires Shapes(c, b) && PcOk(c, b, pc, run)
    ensures MovesWell(c, b, pc, Move(c, b, pc, RecoverRead(r, found)), run)
  {
    if r in b.ledger && b.ledger[r].resource.Some? { NamedRowIsLast(c, b, r); }
  }

  lemma VerifyLoadOk(c: Config, b: Books, pc: Pc, run: nat, r: Region)
    requires Shapes(c, b) && PcOk(c, b, pc, run)
    ensures MovesWell(c, b, pc, Move(c, b, pc, VerifyLoad(r)), run)
  {
    if r in b.ledger && b.ledger[r].resource.Some? { NamedRowIsLast(c, b, r); }
  }

  lemma VerifyReadOk(c: Config, b: Books, pc: Pc, run: nat, found: bool)
    requires PcOk(c, b, pc, run)
    ensures MovesWell(c, b, pc, Move(c, b, pc, VerifyRead(found)), run)
  {
  }

  lemma {:induction false} MoveOk(c: Config, b: Books, pc: Pc, run: nat, a: Action)
    requires c.tag != "" && Shapes(c, b) && PcOk(c, b, pc, run)
    ensures MovesWell(c, b, pc, Move(c, b, pc, a), run)
  {
    match a
    case Blocked => if pc.AtInsert? { FailOk(c, b, pc, pc.i, run, MutationBlocked); }
    case Select(ok) => SelectOk(c, b, pc, run, ok);
    case Egress(ok) => EgressOk(c, b, pc, run, ok);
    case ReplyCreated => ReplyCreatedOk(c, b, pc, run);
    case ListFailed(e) => ListFailedOk(c, b, pc, run, e);
    case ListOk(items) => ListOkOk(c, b, pc, run, items);
    case RecoverRead(r, found) => RecoverReadOk(c, b, pc, run, r, found);
    case VerifyLoad(r) => VerifyLoadOk(c, b, pc, run, r);
    case VerifyRead(found) => VerifyReadOk(c, b, pc, run, found);
    case _ =>
  }

  lemma AfterListOk(c: Config, b: Books, i: nat, op: Operation, items: seq<Listed>)
    requires c.tag != "" && Shapes(c, b) && ObserverOk(c, b, AtList(i, op)) && Honest(c, b, items)
    ensures !Holds(AfterList(c, i, op, items)) && ObserverOk(c, b, AfterList(c, i, op, items))
  {
    var m := Matching(items, c.tag, c.name, c.regions[i]);
    if |m| == 1 {
      MatchingSound(items, c.tag, c.name, c.regions[i], 0);
      OnlyLastIsCreated(c, b, m[0].id, m[0].region);
    }
  }

  lemma InsertOk(c: Config, b: Books, i: nat, run: nat, reply: StoreReply)
    requires Shapes(c, b) && PcOk(c, b, AtInsert(i), run) && i < |c.regions|
    ensures StepOk(c, b, AtInsert(i), ActInsert(c, b, i, run, reply), run)
  {
    if !reply.Refused? && c.regions[i] !in b.ledger {
      if b.order != [] { FirstRow(c, b); }
      NewRowShapes(c, b, i, run);
      FreshRowOk(c, NewRow(b, c.regions[i], run), i, run);
    }
  }

  lemma FirstRow(c: Config, b: Books)
    requires Shapes(c, b) && b.order != []
    ensures c.regions[0] in b.ledger
  {
    assert b.order[0].region in RegionsOf(b.order);
  }

  lemma FreshRowOk(c: Config, b: Books, i: nat, run: nat)
    requires BeforeCall(b, i) && Last(b) in b.ledger && b.ledger[Last(b)] == FRESH && b.order[0].run == run
    ensures PcOk(c, b, PreEgress(i, FRESH), run)
  {
  }

  lemma SendOk(c: Config, b: Books, i: nat, op: Operation, run: nat)
    requires Shapes(c, b) && PcOk(c, b, AtCall(i, op), run) && i < |c.regions|
    ensures StepOk(c, b, AtCall(i, op), ActSend(c, b, i, op), run)
  {
  }

  /** The provider decides on the pending call, which is the newest one. */
  lemma ResolveShapes(c: Config, b: Books, k: nat, status: CallStatus)
    requires Shapes(c, b) && k < |b.calls| && b.calls[k].status.Pending?
    ensures k == |b.order| - 1 == |b.calls| - 1
    ensures Shapes(c, Resolve(b, k, status)) && Grows(b, Resolve(b, k, status))
  {
    PendingIsLast(c, b, k);
    ResolveRows(c, b, k, status);
    ResolveGrows(c, b, k, status);
  }

  lemma PendingIsLast(c: Config, b: Books, k: nat)
    requires CallShape(c, |b.order|, b.calls) && k < |b.calls| && b.calls[k].status.Pending?
    ensures k == |b.order| - 1 == |b.calls| - 1
  {
    assert k >= |b.order| - 1 || GaveUp(b.calls[k].status);
  }

  lemma ResolveRows(c: Config, b: Books, k: nat, status: CallStatus)
    requires RowShape(c, b) && k == |b.order| - 1 == |b.calls| - 1 && b.calls[k].status.Pending?
    ensures RowShape(c, Resolve(b, k, status))
  {
  }

  lemma ResolveGrows(c: Config, b: Books, k: nat, status: CallStatus)
    requires k == |b.order| - 1 == |b.calls| - 1 && b.calls[k].status.Pending?
    ensures Grows(b, Resolve(b, k, status))
  {
  }

  lemma ReplyErrorOk(c: Config, b: Books, pc: Pc, run: nat, e: Error)
    requires Shapes(c, b) && pc.AwaitReply? && PcOk(c, b, pc, run)
    ensures StepOk(c, b, pc, ActReplyError(c, b, pc, e), run)
  {
    AdvancesExactly(e);
    if Rejects(c, e) && b.calls[pc.call].status.Pending? {
      ResolveShapes(c, b, pc.call, Rejected(e));
    }
  }

  lemma HolderSeesCreation(c: Config, b: Books, k: nat, id: ProviderId, pc: Pc)
    requires Holds(pc) && HolderOk(c, b, pc)
    requires k < |b.calls| && k == |b.order| - 1 && b.calls[k].status.Pending?
    ensures HolderOk(c, Resolve(b, k, Created(id)), pc)
  {
  }

  lemma UpdateOk(c: Config, b: Books, pc: Pc, run: nat, reply: StoreReply)
    requires Shapes(c, b) && pc.AtUpdate? && PcOk(c, b, pc, run)
    ensures StepOk(c, b, pc, ActWrite(c, b, pc, reply), run)
  {
    assert c.regions[pc.i] == Last(b);
    HolderWriteShapes(c, b, pc, reply);
    HolderWritePc(c, b, pc, reply, run);
  }

  lemma HolderWriteShapes(c: Config, b: Books, pc: Pc, reply: StoreReply)
    requires Shapes(c, b) && pc.AtUpdate? && HolderOk(c, b, pc)
    ensures Shapes(c, Store(b, Last(b), pc.op, reply)) && Grows(b, Store(b, Last(b), pc.op, reply))
  {
    assert Store(b, Last(b), pc.op, reply).ledger.Keys == b.ledger.Keys;
  }

  lemma HolderWritePc(c: Config, b: Books, pc: Pc, reply: StoreReply, run: nat)
    requires Shapes(c, b) && pc.AtUpdate? && HolderOk(c, b, pc) && run == b.order[0].run
    ensures PcOk(c, Store(b, Last(b), pc.op, reply), AfterUpdate(c, pc.i, pc.op, pc.next, reply), run)
  {
    match pc.next
    case ThenCall => RunningWritePc(c, b, pc.i, pc.op, reply, run);
    case ThenSucceed => VerifyingWritePc(c, b, pc.i, pc.op, reply, run);
    case ThenReturn(e) => FinalWritePc(c, b, pc.i, pc.op, e, reply, run);
  }

  lemma RunningWritePc(c: Config, b: Books, i: nat, op: Operation, reply: StoreReply, run: nat)
    requires HolderOk(c, b, AtUpdate(i, op, ThenCall)) && run == b.order[0].run
    ensures PcOk(c, Store(b, Last(b), op, reply), AfterUpdate(c, i, op, ThenCall, reply), run)
  {
  }

  lemma VerifyingWritePc(c: Config, b: Books, i: nat, op: Operation, reply: StoreReply, run: nat)
    requires HolderOk(c, b, AtUpdate(i, op, ThenSucceed))
    ensures PcOk(c, Store(b, Last(b), op, reply), AfterFinalWrite(c, i, op, reply), run)
  {
  }

  lemma FinalWritePc(c: Config, b: Books, i: nat, op: Operation, e: Error, reply: StoreReply, run: nat)
    requires HolderOk(c, b, AtUpdate(i, op, ThenReturn(e))) && run == b.order[0].run
    ensures PcOk(c, Store(b, Last(b), op, reply), Finish(c, i, e), run)
  {
    AdvancesExactly(e);
  }

  /** Adopters, verifiers and recovery write rows that agree with the droplet created. */
  ghost predicate AgreesWithDroplet(b: Books, r: Region, op: Operation) {
    && Settled(b) && r == Last(b)
    && op.resource.Some? && CreatedLast(b, op.resource.value)
    && (op.state.Verifying? || op.state.Unknown? || op.state.Succeeded?)
  }

  lemma SettledWriteShapes(c: Config, b: Books, reply: StoreReply, r: Region, op: Operation)
    requires Shapes(c, b) && AgreesWithDroplet(b, r, op)
    ensures Shapes(c, Store(b, r, op, reply)) && Grows(b, Store(b, r, op, reply))
    ensures Settled(Store(b, r, op, reply)) && Store(b, r, op, reply).calls == b.calls
    ensures Store(b, r, op, reply).order == b.order
  {
    assert Store(b, r, op, reply).ledger.Keys == b.ledger.Keys;
    SettledWriteRows(c, b, reply, r, op);
    SettledWriteGrows(b, reply, r, op);
  }

  lemma SettledWriteRows(c: Config, b: Books, reply: StoreReply, r: Region, op: Operation)
    requires RowShape(c, b) && AgreesWithDroplet(b, r, op)
    ensures RowShape(c, Store(b, r, op, reply))
  {
  }

  lemma SettledWriteGrows(b: Books, reply: StoreReply, r: Region, op: Operation)
    requires AgreesWithDroplet(b, r, op)
    ensures Grows(b, Store(b, r, op, reply)) && Settled(Store(b, r, op, reply))
  {
  }

  lemma AdoptOk(c: Config, b: Books, pc: Pc, run: nat, reply: StoreReply)
    requires Shapes(c, b) && pc.AtAdopt? && PcOk(c, b, pc, run)
    ensures StepOk(c, b, pc, ActWrite(c, b, pc, reply), run)
  {
    SettledWriteShapes(c, b, reply, c.regions[pc.i], pc.op);
  }

  lemma VerifyOk(c: Config, b: Books, pc: Pc, run: nat, reply: StoreReply)
    requires Shapes(c, b) && pc.AtVerify? && PcOk(c, b, pc, run)
    ensures StepOk(c, b, pc, ActWrite(c, b, pc, reply), run)
  {
    SettledWriteShapes(c, b, reply, pc.region, pc.op);
  }

  lemma RecoverOk(c: Config, b: Books, pc: Pc, run: nat, reply: StoreReply)
    requires Shapes(c, b) && pc.AtRecover? && PcOk(c, b, pc, run)
    ensures StepOk(c, b, pc, ActWrite(c, b, pc, reply), run)
  {
    SettledWriteShapes(c, b, reply, pc.region, b.ledger[pc.region].(state := pc.state));
  }

  lemma WriteOk(c: Config, b: Books, pc: Pc, run: nat, reply: StoreReply)
    requires Shapes(c, b) && PcOk(c, b, pc, run)
    ensures StepOk(c, b, pc, ActWrite(c, b, pc, reply), run)
  {
    if pc.AtUpdate? { UpdateOk(c, b, pc, run, reply); }
    else if pc.AtAdopt? { AdoptOk(c, b, pc, run, reply); }
    else if pc.AtVerify? { VerifyOk(c, b, pc, run, reply); }
    else if pc.AtRecover? { RecoverOk(c, b, pc, run, reply); }
  }

  /** Actions that leave the books alone. */
  predicate OnlyMoves(a: Action) {
    !a.Insert? && !a.Write? && !a.Send? && !a.ReplyError?
  }

  lemma MoveStepOk(c: Config, b: Books, pc: Pc, run: nat, a: Action)
    requires c.tag != "" && Shapes(c, b) && PcOk(c, b, pc, run) && OnlyMoves(a)
    ensures StepOk(c, b, pc, (b, Move(c, b, pc, a)), run)
  {
    MoveOk(c, b, pc, run, a);
  }

  lemma {:induction false} ActOk(c: Config, b: Books, pc: Pc, run: nat, a: Action)
    requires c.tag != "" && Shapes(c, b) && PcOk(c, b, pc, run)
    ensures StepOk(c, b, pc, Act(c, b, pc, run, a), run)
  {
    if OnlyMoves(a) { MoveStepOk(c, b, pc, run, a); } else { BooksActOk(c, b, pc, run, a); }
  }

  lemma {:induction false} BooksActOk(c: Config, b: Books, pc: Pc, run: nat, a: Action)
    requires c.tag != "" && Shapes(c, b) && PcOk(c, b, pc, run) && !OnlyMoves(a)
    ensures StepOk(c, b, pc, Act(c, b, pc, run, a), run)
  {
    match a
    case Insert(reply) => if pc.AtInsert? && pc.i < |c.regions| { InsertOk(c, b, pc.i, run, reply); }
    case Write(reply) => WriteOk(c, b, pc, run, reply);
    case Send => if pc.AtCall? && pc.i < |c.regions| { SendOk(c, b, pc.i, pc.op, run); }
    case ReplyError(e) => if pc.AwaitReply? { ReplyErrorOk(c, b, pc, run, e); }
  }

  // ---- every event keeps the invariant ----

  lemma AtInv(c: Config, s: State, w: WorkerId, b': Books, pc': Pc)
    requires Inv(c, s) && StepOk(c, s.books, PcOf(s, w), (b', pc'), RunOf(s, w))
    ensures Inv(c, At(s, w, b', pc'))
  {
    var t := At(s, w, b', pc');
    forall v | v in t.workers && v != w ensures PcOk(c, t.books, t.workers[v].pc, t.workers[v].run) {
      if b' != s.books {
        ObserverStable(c, s.books, b', s.workers[v].pc);
      }
    }
  }

  lemma MaterializeInv(c: Config, s: State, k: nat, id: ProviderId)
    requires Inv(c, s) && k < |s.books.calls| && s.books.calls[k].status.Pending?
    ensures Inv(c, s.(books := Resolve(s.books, k, Created(id))))
  {
    ResolveShapes(c, s.books, k, Created(id));
    var b' := Resolve(s.books, k, Created(id));
    forall v | v in s.workers ensures PcOk(c, b', s.workers[v].pc, s.workers[v].run) {
      var pc := s.workers[v].pc;
      if Holds(pc) { HolderSeesCreation(c, s.books, k, id, pc); } else { ObserverStable(c, s.books, b', pc); }
    }
  }

  lemma ApplyInv(c: Config, s: State, e: Event)
    requires Inv(c, s)
    ensures Inv(c, Apply(c, s, e))
  {
    match e
    case Start(w) =>
    case Crash(w) => AtInv(c, s, w, s.books, Idle);
    case Do(w, a) =>
      ActOk(c, s.books, PcOf(s, w), RunOf(s, w), a);
      var (b, pc) := Act(c, s.books, PcOf(s, w), RunOf(s, w), a);
      AtInv(c, s, w, b, pc);
    case Materialize(k, id) =>
      if k < |s.books.calls| && s.books.calls[k].status.Pending? { MaterializeInv(c, s, k, id); }
  }

  /** Every run keeps it. */
  lemma {:induction false} RunInv(c: Config, s: State, es: seq<Event>)
    requires Inv(c, s)
    ensures Inv(c, CreateProtocol.Run(c, s, es))
    decreases |es|
  {
    if es != [] {
      RunInv(c, s, es[..|es| - 1]);
      ApplyInv(c, CreateProtocol.Run(c, s, es[..|es| - 1]), es[|es| - 1]);
    }
  }
}
