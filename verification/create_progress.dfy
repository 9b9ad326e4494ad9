/** How far a run of the create step goes: every region gets its turn. */
module CreateProgress {
  import opened Wrappers
  import opened ProviderErrors
  import opened CreateProtocol
  import opened CreateTheorems

  // ---- the regions a run has tried ----

  /** Event `e` begins a run of worker `w`. */
  predicate Begins(s: State, w: WorkerId, e: Event) {
    e == Start(w) && Resting(PcOf(s, w))
  }

  /** Event `e` is worker `w` asking the store for the row of its current region. */
  predicate Asks(s: State, w: WorkerId, e: Event) {
    e.Do? && e.w == w && e.action.Insert? && PcOf(s, w).AtInsert?
  }

  /** The regions that the latest run of worker `w` asked the store for, in order. */
  function Tried(c: Config, es: seq<Event>, w: WorkerId): seq<Region>
    decreases |es|
  {
    if es == [] then []
    else
      var init, e := es[..|es| - 1], es[|es| - 1];
      TriedNext(c, CreateProtocol.Run(c, Init(), init), w, e, Tried(c, init, w))
  }

  function TriedNext(c: Config, s: State, w: WorkerId, e: Event, tried: seq<Region>): seq<Region> {
    if Begins(s, w, e) then []
    else if Asks(s, w, e) && PcOf(s, w).i < |c.regions| then tried + [c.regions[PcOf(s, w).i]]
    else tried
  }

  ghost predicate FirstRegions(c: Config, n: nat, tried: seq<Region>) {
    n <= |c.regions| && tried == c.regions[..n]
  }

  /** What the position of a worker tells about the regions it has tried. */
  ghost predicate TriedAt(c: Config, pc: Pc, tried: seq<Region>) {
    match pc
    case AtInsert(i) => i < |c.regions| && FirstRegions(c, i, tried)
    case AtSelect(i) => FirstRegions(c, i + 1, tried)
    case PreEgress(i, _) => FirstRegions(c, i + 1, tried)
    case AtUpdate(i, _, _) => FirstRegions(c, i + 1, tried)
    case AtCall(i, _) => FirstRegions(c, i + 1, tried)
    case AwaitReply(i, _, _) => FirstRegions(c, i + 1, tried)
    case PostEgress(i, _) => FirstRegions(c, i + 1, tried)
    case AtList(i, _) => FirstRegions(c, i + 1, tried)
    case AtAdopt(i, _) => FirstRegions(c, i + 1, tried)
    case Returned(error, _) =>
      tried <= c.regions && (error.Some? && IsCapacityError(error.value) ==> tried == c.regions)
    case _ => tried <= c.regions
  }

  /** An answer 400 or 422 that names one of the words for missing capacity. */
  ghost predicate LacksCapacity(e: Error) {
    e.Http? && (e.status == 400 || e.status == 422) && (NamesCapacity(e.code) || NamesCapacity(e.message))
  }

  /** A run that gives up for want of capacity has tried every region of the list, one by
      one; no run tries anything but the regions of the list, in order. */
  lemma {:induction false} CapacityIsFinal(c: Config, es: seq<Event>, w: WorkerId)
    requires Fits(c)
    ensures Tried(c, es, w) <= c.regions
    ensures var pc := PcOf(CreateProtocol.Run(c, Init(), es), w);
      pc.Returned? && pc.error.Some? && LacksCapacity(pc.error.value) ==> Tried(c, es, w) == c.regions
  {
    TriedInv(c, es, w);
    var pc := PcOf(CreateProtocol.Run(c, Init(), es), w);
    if pc.Returned? && pc.error.Some? { CapacityByWords(pc.error.value); }
  }

  lemma {:induction false} TriedInv(c: Config, es: seq<Event>, w: WorkerId)
    requires Fits(c)
    ensures TriedAt(c, PcOf(CreateProtocol.Run(c, Init(), es), w), Tried(c, es, w))
    decreases |es|
  {
    if es != [] {
      var init := es[..|es| - 1];
      TriedInv(c, init, w);
      TriedStep(c, CreateProtocol.Run(c, Init(), init), w, es[|es| - 1], Tried(c, init, w));
    }
  }

  lemma TriedStep(c: Config, s: State, w: WorkerId, e: Event, tried: seq<Region>)
    requires Fits(c) && TriedAt(c, PcOf(s, w), tried)
    ensures TriedAt(c, PcOf(Apply(c, s, e), w), TriedNext(c, s, w, e, tried))
  {
    if e.Do? && e.w == w { TriedAct(c, s.books, PcOf(s, w), RunOf(s, w), e.action, tried); }
  }

  lemma TriedAct(c: Config, b: Books, pc: Pc, run: nat, a: Action, tried: seq<Region>)
    requires TriedAt(c, pc, tried)
    ensures TriedAt(c, Act(c, b, pc, run, a).1,
                    if a.Insert? && pc.AtInsert? && pc.i < |c.regions| then tried + [c.regions[pc.i]] else tried)
  {
    if a.Insert? {
      if pc.AtInsert? { assert c.regions[..pc.i] + [c.regions[pc.i]] == c.regions[..pc.i + 1]; }
    } else if a.Write? {
      TriedWrite(c, b, pc, a.reply, tried);
    } else if a.ListFailed? {
      if FromGet(a.error) { NoCapacityFromGet(a.error); }
    } else if a.ListOk? || a.Select? || a.Blocked? {
    } else {
    }
  }

  lemma NoCapacityFromGet(e: Error)
    requires FromGet(e)
    ensures !IsCapacityError(e)
  {
    ListErrorsNeverAdvance(e);
    AdvancesExactly(e);
  }

  /** The loop goes on after a capacity error, unless the last region was tried. */
  lemma TriedFinish(c: Config, i: nat, e: Error, tried: seq<Region>)
    requires i < |c.regions| && tried == c.regions[..i + 1]
    ensures TriedAt(c, Finish(c, i, e), tried)
  {
    AdvancesExactly(e);
    assert c.regions[..|c.regions|] == c.regions;
  }

  lemma TriedWrite(c: Config, b: Books, pc: Pc, reply: StoreReply, tried: seq<Region>)
    requires TriedAt(c, pc, tried)
    ensures TriedAt(c, ActWrite(c, b, pc, reply).1, tried)
  {
    if pc.AtUpdate? {
      TriedFinish(c, pc.i, StoreFailure, tried);
      if pc.next.ThenReturn? { TriedFinish(c, pc.i, pc.next.error, tried); }
    } else if pc.AtAdopt? {
      TriedFinish(c, pc.i, StoreFailure, tried);
    }
  }

  // ---- where an answer leads ----

  predicate By(e: Event, w: WorkerId) {
    !e.Materialize? && e.w == w
  }

  lemma {:induction false} OthersKeepThePosition(c: Config, s: State, gs: seq<Event>, w: WorkerId)
    requires forall n :: 0 <= n < |gs| ==> !By(gs[n], w)
    ensures PcOf(CreateProtocol.Run(c, s, gs), w) == PcOf(s, w)
    decreases |gs|
  {
    if gs != [] { OthersKeepThePosition(c, s, gs[..|gs| - 1], w); }
  }

  /** The run that worker `w` goes on with after its request was turned down. */
  function AfterAnswer(es: seq<Event>, w: WorkerId, e: Error, gs: seq<Event>, reply: StoreReply): seq<Event> {
    es + [Do(w, ReplyError(e))] + gs + [Do(w, Write(reply))]
  }

  /** Once the provider has answered a request with an error, the run goes on to the next
      region when there is one and the error tells of missing capacity, and otherwise it
      returns that error, whatever others do meanwhile and whether or not the row could be
      stored. */
  lemma {:induction false} AnswerDecides(c: Config, es: seq<Event>, w: WorkerId, e: Error, gs: seq<Event>, reply: StoreReply)
    requires Fits(c) && forall n :: 0 <= n < |gs| ==> !By(gs[n], w)
    requires var pc := PcOf(CreateProtocol.Run(c, Init(), es), w);
      pc.AwaitReply? && pc.call < |Reach(c, es).calls| && Reach(c, es).calls[pc.call].status.Pending?
    ensures var i := PcOf(CreateProtocol.Run(c, Init(), es), w).i;
      PcOf(CreateProtocol.Run(c, Init(), AfterAnswer(es, w, e, gs, reply)), w)
        == if LacksCapacity(e) && i + 1 < |c.regions| then AtInsert(i + 1) else Returned(Some(e), None)
  {
    var s0 := CreateProtocol.Run(c, Init(), es);
    var es1 := es + [Do(w, ReplyError(e))];
    RunSnoc(c, Init(), es, Do(w, ReplyError(e)));
    var s1 := CreateProtocol.Run(c, Init(), es1);
    RunConcat(c, Init(), es1, gs);
    OthersKeepThePosition(c, s1, gs, w);
    RunSnoc(c, Init(), es1 + gs, Do(w, Write(reply)));
    TriedInv(c, es, w);
    AdvancesExactly(e);
    CapacityByWords(e);
  }

  // ---- two regions ----

  const PAIR: Config := Config(["nyc1", "sfo3"], "dob-deployment-7", "relay", true)

  /** From the reservation of a region to the request. */
  function Sending(w: WorkerId): seq<Event> {
    [Do(w, Insert(Acked)), Do(w, Egress(true)), Do(w, Write(Acked)), Do(w, Send)]
  }

  /** From the creation of droplet `id` by request `call` to the last row update. */
  function Receiving(w: WorkerId, call: nat, id: ProviderId): seq<Event> {
    [Materialize(call, id), Do(w, ReplyCreated), Do(w, Egress(true)), Do(w, Write(Acked))]
  }

  /** The events up to the answer `e` for the first region. */
  function FirstAnswer(e: Error): seq<Event> {
    [Start(0)] + Sending(0) + [Do(0, ReplyError(e)), Do(0, Write(Acked))]
  }

  /** A run in which New York lacks the size and San Francisco creates droplet 42. */
  function SecondRegion(): seq<Event> {
    FirstAnswer(NO_SIZE) + (Sending(0) + Receiving(0, 1, 42))
  }

  const FULL_ROW: Operation := Operation(Failed, None, 1)

  /** Missing capacity in the first region leads to the second; a bad name ends the run. A
      droplet created for the second region is returned, and both rows tell what happened. */
  lemma TwoRegions()
    ensures PcOf(CreateProtocol.Run(PAIR, Init(), FirstAnswer(NO_SIZE)), 0) == AtInsert(1)
    ensures PcOf(CreateProtocol.Run(PAIR, Init(), FirstAnswer(BAD_NAME)), 0) == Returned(Some(BAD_NAME), None)
    ensures Reach(PAIR, FirstAnswer(BAD_NAME)).ledger == map["nyc1" := Operation(Failed, None, 1)]
    ensures Reach(PAIR, SecondRegion()).ledger
         == map["nyc1" := Operation(Failed, None, 1), "sfo3" := Operation(Verifying, Some(42), 1)]
    ensures PcOf(CreateProtocol.Run(PAIR, Init(), SecondRegion()), 0) == Returned(None, Some(42))
  {
    TwoAnswers();
    FirstAnswerEnds(NO_SIZE);
    FirstAnswerEnds(BAD_NAME);
    SecondRegionEnds();
  }

  /** The state once the request for the first region is sent. */
  function Sent(): State {
    AfterSend(PAIR, Apply(PAIR, Init(), Start(0)), 0, 0)
  }

  lemma FirstRequest()
    ensures CreateProtocol.Run(PAIR, Init(), [Start(0)] + Sending(0)) == Sent()
  {
    var s := Apply(PAIR, Init(), Start(0));
    RunSnoc(PAIR, Init(), [], Start(0));
    assert [] + [Start(0)] == [Start(0)];
    ResumeSends(PAIR, s, 0, 0);
    RunConcat(PAIR, Init(), [Start(0)], Sending(0));
  }

  /** The state after the answer `e`. */
  function Answered(e: Error): State {
    State(Books(map["nyc1" := FULL_ROW], [Entry("nyc1", 0)], [Call("nyc1", Rejected(e))]),
          map[0 := Worker(Finish(PAIR, 0, e), 0)], 1)
  }

  lemma FirstAnswerEnds(e: Error)
    requires e == NO_SIZE || e == BAD_NAME
    ensures CreateProtocol.Run(PAIR, Init(), FirstAnswer(e)) == Answered(e)
  {
    FirstRequest();
    RunOfTwo(PAIR, Sent(), Do(0, ReplyError(e)), Do(0, Write(Acked)));
    RunConcat(PAIR, Init(), [Start(0)] + Sending(0), [Do(0, ReplyError(e)), Do(0, Write(Acked))]);
    RejectedRow(e);
  }

  lemma RejectedRow(e: Error)
    requires e.Http? && e.status == 422
    ensures Apply(PAIR, Apply(PAIR, Sent(), Do(0, ReplyError(e))), Do(0, Write(Acked))) == Answered(e)
  {
    var running := Operation(Running, None, 1);
    var b := Books(map["nyc1" := running], [Entry("nyc1", 0)], [Call("nyc1", Pending)]);
    assert Sent() == State(b, map[0 := Worker(AwaitReply(0, running, 0), 0)], 1);
    var b' := b.(calls := [Call("nyc1", Rejected(e))]);
    assert Apply(PAIR, Sent(), Do(0, ReplyError(e)))
        == State(b', map[0 := Worker(AtUpdate(0, FULL_ROW, ThenReturn(e)), 0)], 1);
  }

  lemma SecondRegionEnds()
    ensures var t := CreateProtocol.Run(PAIR, Init(), SecondRegion());
      PcOf(t, 0) == Returned(None, Some(42))
      && t.books.ledger == map["nyc1" := Operation(Failed, None, 1), "sfo3" := Operation(Verifying, Some(42), 1)]
  {
    var s := Answered(NO_SIZE);
    FirstAnswerEnds(NO_SIZE);
    TwoAnswers();
    AdvancesExactly(NO_SIZE);
    ResumeSends(PAIR, s, 0, 1);
    RunConcat(PAIR, s, Sending(0), Receiving(0, 1, 42));
    RunConcat(PAIR, Init(), FirstAnswer(NO_SIZE), Sending(0) + Receiving(0, 1, 42));
    Received(AfterSend(PAIR, s, 0, 1));
  }

  /** Both requests of the run, the second in state `status`, while the row of the second
      region is `row` and the worker stands at `pc`. */
  function Second(status: CallStatus, row: Operation, pc: Pc): State {
    State(Books(map["nyc1" := FULL_ROW, "sfo3" := row], [Entry("nyc1", 0), Entry("sfo3", 0)],
                [Call("nyc1", Rejected(NO_SIZE)), Call("sfo3", status)]),
          map[0 := Worker(pc, 0)], 1)
  }

  const RUNNING_ROW: Operation := Operation(Running, None, 1)
  const NAMED_ROW: Operation := Operation(Verifying, Some(42), 1)

  lemma Received(s: State)
    requires IsCapacityError(NO_SIZE) && s == AfterSend(PAIR, Answered(NO_SIZE), 0, 1)
    ensures CreateProtocol.Run(PAIR, s, Receiving(0, 1, 42)) == Second(Created(42), NAMED_ROW, Returned(None, Some(42)))
  {
    var s0 := Second(Pending, RUNNING_ROW, AwaitReply(1, RUNNING_ROW, 1));
    assert s.books.ledger == s0.books.ledger && s == s0;
    Materialized();
    ReceivedRow();
    RunOfFour(PAIR, s, Materialize(1, 42), Do(0, ReplyCreated), Do(0, Egress(true)), Do(0, Write(Acked)));
  }

  lemma Materialized()
    ensures Apply(PAIR, Second(Pending, RUNNING_ROW, AwaitReply(1, RUNNING_ROW, 1)), Materialize(1, 42))
         == Second(Created(42), RUNNING_ROW, AwaitReply(1, RUNNING_ROW, 1))
  {
    var s := Second(Pending, RUNNING_ROW, AwaitReply(1, RUNNING_ROW, 1));
    assert CreatedIds(s.books) == {};
    assert s.books.calls[1 := Call("sfo3", Created(42))] == [Call("nyc1", Rejected(NO_SIZE)), Call("sfo3", Created(42))];
  }

  lemma ReceivedRow()
    ensures Apply(PAIR, Apply(PAIR, Apply(PAIR, Second(Created(42), RUNNING_ROW, AwaitReply(1, RUNNING_ROW, 1)), Do(0, ReplyCreated)),
                              Do(0, Egress(true))), Do(0, Write(Acked)))
         == Second(Created(42), NAMED_ROW, Returned(None, Some(42)))
  {
    var s1 := Second(Created(42), RUNNING_ROW, AwaitReply(1, RUNNING_ROW, 1));
    var s2 := Second(Created(42), RUNNING_ROW, PostEgress(1, RUNNING_ROW.(resource := Some(42))));
    var s3 := Second(Created(42), RUNNING_ROW, AtUpdate(1, NAMED_ROW, ThenSucceed));
    assert Apply(PAIR, s1, Do(0, ReplyCreated)) == s2;
    assert Apply(PAIR, s2, Do(0, Egress(true))) == s3;
    assert s3.books.ledger["sfo3" := NAMED_ROW] == map["nyc1" := FULL_ROW, "sfo3" := NAMED_ROW];
  }
}
