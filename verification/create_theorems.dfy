/** What the create protocol guarantees over every run. */
module CreateTheorems {
  import opened Wrappers
  import opened Keys
  import opened ProviderErrors
  import opened CreateProtocol
  import opened CreateInvariant

  // ---- the configuration of a deployment ----

  function IdentityTag(deployment: string): string {
    "dob-deployment-" + deployment
  }

  /** The region list of a profile, or its single region when the list is empty. */
  function RegionList(regions: seq<Region>, region: Region): seq<Region> {
    if regions == [] then [region] else regions
  }

  function ConfigOf(deployment: string, name: string, regions: seq<Region>, region: Region, strict: bool): (c: Config)
    ensures Fits(c)
  {
    Config(RegionList(regions, region), IdentityTag(deployment), name, strict)
  }

  function CreateKey(deployment: string, region: Region): string {
    "deploy:" + deployment + ":create" + ":region:" + region
  }

  /** Deployment ids are UUIDs, which hold no colon: keys of different deployments or
      regions never collide, so the rows of one deployment may be named by region. */
  lemma CreateKeysAreInjective(d: string, r: Region, d': string, r': Region)
    requires ':' !in d && ':' !in d'
    ensures CreateKey(d, r) == CreateKey(d', r') <==> d == d' && r == r'
  {
    var mid := ":create" + ":region:";
    if CreateKey(d, r) == CreateKey(d', r') {
      var k := CreateKey(d, r);
      assert k == "deploy:" + (d + (mid + r)) && k == "deploy:" + (d' + (mid + r'));
      assert k[7..] == d + (mid + r) && k[7..] == d' + (mid + r');
      FrontField(d, mid + r, d', mid + r');
      assert (mid + r)[|mid|..] == r && (mid + r')[|mid|..] == r';
    }
  }

  // ---- runs ----

  predicate Fits(c: Config) {
    c.regions != [] && c.tag != ""
  }

  function Reach(c: Config, es: seq<Event>): Books {
    CreateProtocol.Run(c, Init(), es).books
  }

  lemma ReachInv(c: Config, es: seq<Event>)
    requires Fits(c)
    ensures Inv(c, CreateProtocol.Run(c, Init(), es))
  {
    InitInv(c);
    RunInv(c, Init(), es);
  }

  lemma RunSnoc(c: Config, s: State, es: seq<Event>, e: Event)
    ensures CreateProtocol.Run(c, s, es + [e]) == Apply(c, CreateProtocol.Run(c, s, es), e)
  {
    assert (es + [e])[..|es|] == es;
  }

  lemma {:induction false} RunConcat(c: Config, s: State, es: seq<Event>, fs: seq<Event>)
    ensures CreateProtocol.Run(c, s, es + fs) == CreateProtocol.Run(c, CreateProtocol.Run(c, s, es), fs)
    decreases |fs|
  {
    if fs == [] {
      assert es + fs == es;
    } else {
      var init := fs[..|fs| - 1];
      RunConcat(c, s, es, init);
      assert (es + fs)[..|es + fs| - 1] == es + init;
    }
  }

  // ---- safety ----

  /** At most one droplet is ever created for a deployment, and at most one request
      is ever in a position to create one. */
  lemma {:induction false} AtMostOneDroplet(c: Config, es: seq<Event>)
    requires Fits(c)
    ensures |CreatedIds(Reach(c, es))| <= 1
    ensures forall j, k | 0 <= j < |Reach(c, es).calls| && 0 <= k < |Reach(c, es).calls| ::
              Reach(c, es).calls[j].status.Rejected? || Reach(c, es).calls[k].status.Rejected? || j == k
  {
    ReachInv(c, es);
    var b := Reach(c, es);
    assert forall k :: 0 <= k < |b.calls| - 1 ==> GaveUp(b.calls[k].status);
    if b.calls != [] && b.calls[|b.calls| - 1].status.Created? {
      assert CreatedIds(b) == {b.calls[|b.calls| - 1].status.id};
    } else {
      assert CreatedIds(b) == {};
    }
  }

  /** The rows of a deployment are the regions of a prefix of its list; the provider
      turned down every one before the last for capacity; one run reserved them all. */
  lemma {:induction false} LedgerIsAPrefix(c: Config, es: seq<Event>)
    requires Fits(c)
    ensures var b := Reach(c, es);
      && |b.order| <= |c.regions|
      && b.ledger.Keys == RegionsOf(b.order)
      && (forall j :: 0 <= j < |b.order| ==> b.order[j].region == c.regions[j])
      && (forall j :: 0 <= j < |b.order| - 1 ==>
            j < |b.calls| && b.calls[j].region == c.regions[j] && b.calls[j].status.Rejected?
            && IsCapacityError(b.calls[j].status.error))
      && (forall j :: 0 <= j < |b.order| ==> b.order[j].run == b.order[0].run)
  {
    ReachInv(c, es);
    var b := Reach(c, es);
    forall j | 0 <= j < |b.order| - 1
      ensures b.calls[j].status.Rejected? && IsCapacityError(b.calls[j].status.error)
    {
      assert GaveUp(b.calls[j].status);
      AdvancesExactly(b.calls[j].status.error);
    }
  }

  ghost predicate Distinct(order: seq<Entry>) {
    forall j, k :: 0 <= j < k < |order| ==> order[j].region != order[k].region
  }

  /** No region is reserved twice, even when the list names it twice. */
  lemma {:induction false} NoRegionTwice(c: Config, es: seq<Event>)
    requires Fits(c)
    ensures Distinct(Reach(c, es).order)
    decreases |es|
  {
    if es != [] {
      var init := es[..|es| - 1];
      NoRegionTwice(c, init);
      ReachInv(c, init);
      StepKeepsDistinct(c, CreateProtocol.Run(c, Init(), init), es[|es| - 1]);
    }
  }

  lemma StepKeepsDistinct(c: Config, s: State, e: Event)
    requires Inv(c, s) && Distinct(s.books.order)
    ensures Distinct(Apply(c, s, e).books.order)
  {
    if e.Do? { ActKeepsDistinct(c, s.books, PcOf(s, e.w), RunOf(s, e.w), e.action); }
  }

  lemma ActKeepsDistinct(c: Config, b: Books, pc: Pc, run: nat, a: Action)
    requires b.ledger.Keys == RegionsOf(b.order) && Distinct(b.order)
    ensures Distinct(Act(c, b, pc, run, a).0.order)
  {
    OrderGrowsByNewRows(c, b, pc, run, a);
    var order' := Act(c, b, pc, run, a).0.order;
    if order' != b.order {
      NotYetReserved(b.order, order'[|b.order|].region);
      assert forall j :: 0 <= j < |b.order| ==> order'[j] == order'[..|b.order|][j];
    }
  }

  lemma NotYetReserved(order: seq<Entry>, r: Region)
    requires r !in RegionsOf(order)
    ensures forall j :: 0 <= j < |order| ==> order[j].region != r
  {
    forall j | 0 <= j < |order| ensures order[j].region != r {
      assert order[j].region in RegionsOf(order);
    }
  }

  lemma {:induction false} OrderGrowsByNewRows(c: Config, b: Books, pc: Pc, run: nat, a: Action)
    ensures var order' := Act(c, b, pc, run, a).0.order;
      order' == b.order || (|order'| == |b.order| + 1 && order'[..|b.order|] == b.order
                            && order'[|b.order|].region !in b.ledger)
  {
  }

  /** Event `n` of a run inserts the row of region `r`. */
  predicate Inserts(c: Config, es: seq<Event>, n: nat, r: Region)
    requires n < |es|
  {
    r !in Reach(c, es[..n]).ledger && r in Reach(c, es[..n + 1]).ledger
  }

  /** Exactly one reservation per key is new: a row that exists is never inserted again. */
  lemma {:induction false} InsertedOnce(c: Config, es: seq<Event>, m: nat, n: nat, r: Region)
    requires Fits(c) && m < |es| && n < |es| && Inserts(c, es, m, r) && Inserts(c, es, n, r)
    ensures m == n
  {
    if m < n { RowsStay(c, es, m + 1, n); } else if n < m { RowsStay(c, es, n + 1, m); }
  }

  lemma {:induction false} RowsStay(c: Config, es: seq<Event>, m: nat, n: nat)
    requires Fits(c) && m <= n <= |es|
    ensures Reach(c, es[..m]).ledger.Keys <= Reach(c, es[..n]).ledger.Keys
    decreases n
  {
    if m < n {
      RowsStay(c, es, m, n - 1);
      assert es[..n][..n - 1] == es[..n - 1];
      ReachInv(c, es[..n - 1]);
      StepGrows(c, CreateProtocol.Run(c, Init(), es[..n - 1]), es[n - 1]);
    }
  }

  /** A row that names a droplet names the one droplet created, in the row's region. */
  lemma {:induction false} ResourceNamesTheDroplet(c: Config, es: seq<Event>, r: Region)
    requires Fits(c)
    requires r in Reach(c, es).ledger && Reach(c, es).ledger[r].resource.Some?
    ensures CreatedIds(Reach(c, es)) == {Reach(c, es).ledger[r].resource.value}
    ensures CreatedIn(Reach(c, es), Reach(c, es).ledger[r].resource.value, r)
  {
    ReachInv(c, es);
    var b := Reach(c, es);
    NamedRowIsLast(c, b, r);
    CreatedLastIsTheOne(c, b, b.ledger[r].resource.value);
  }

  lemma CreatedLastIsTheOne(c: Config, b: Books, id: ProviderId)
    requires Shapes(c, b) && CreatedLast(b, id)
    ensures CreatedIds(b) == {id} && CreatedIn(b, id, Last(b))
  {
    var k := |b.calls| - 1;
    assert b.calls[k] == Call(Last(b), Created(id));
    assert forall j :: 0 <= j < k ==> GaveUp(b.calls[j].status);
  }

  /** The resource of a row is written once, by whomever, and never changes again. */
  lemma {:induction false} ResourceIsWriteOnce(c: Config, es: seq<Event>, fs: seq<Event>, r: Region)
    requires Fits(c)
    requires r in Reach(c, es).ledger && Reach(c, es).ledger[r].resource.Some?
    ensures r in Reach(c, es + fs).ledger
    ensures Reach(c, es + fs).ledger[r].resource == Reach(c, es).ledger[r].resource
  {
    var s := CreateProtocol.Run(c, Init(), es);
    ReachInv(c, es);
    RunConcat(c, Init(), es, fs);
    NamedForEver(c, s, fs, r);
  }

  lemma {:induction false} NamedForEver(c: Config, s: State, fs: seq<Event>, r: Region)
    requires Inv(c, s) && r in s.books.ledger && s.books.ledger[r].resource.Some?
    ensures var t := CreateProtocol.Run(c, s, fs);
      Inv(c, t) && r in t.books.ledger && t.books.ledger[r].resource == s.books.ledger[r].resource
    decreases |fs|
  {
    if fs != [] {
      NamedForEver(c, s, fs[..|fs| - 1], r);
      var t := CreateProtocol.Run(c, s, fs[..|fs| - 1]);
      ApplyInv(c, t, fs[|fs| - 1]);
      NamedNext(c, t, fs[|fs| - 1], r);
    }
  }

  lemma NamedNext(c: Config, s: State, e: Event, r: Region)
    requires Inv(c, s) && r in s.books.ledger && s.books.ledger[r].resource.Some?
    ensures var t := Apply(c, s, e);
      r in t.books.ledger && t.books.ledger[r].resource == s.books.ledger[r].resource
  {
    NamedRowIsLast(c, s.books, r);
    ApplyInv(c, s, e);
    var t := Apply(c, s, e);
    StepGrows(c, s, e);
    NamedRowIsLast(c, t.books, r);
  }

  /** Once the newest row has left the hands of its run, no row is added. */
  lemma StepGrows(c: Config, s: State, e: Event)
    requires Inv(c, s)
    ensures Grows(s.books, Apply(c, s, e).books)
  {
    match e
    case Do(w, a) => ActOk(c, s.books, PcOf(s, w), RunOf(s, w), a);
    case Materialize(k, id) =>
      if k < |s.books.calls| && s.books.calls[k].status.Pending? { ResolveShapes(c, s.books, k, Created(id)); }
    case _ =>
  }

  /** Any two calls of the create step that succeed return the same droplet. */
  lemma {:induction false} SuccessfulRunsAgree(c: Config, es: seq<Event>, v: WorkerId, w: WorkerId, x: ProviderId, y: ProviderId)
    requires Fits(c)
    requires PcOf(CreateProtocol.Run(c, Init(), es), v) == Returned(None, Some(x))
    requires PcOf(CreateProtocol.Run(c, Init(), es), w) == Returned(None, Some(y))
    ensures x == y && CreatedIds(Reach(c, es)) == {x}
  {
    ReachInv(c, es);
    CreatedLastIsTheOne(c, Reach(c, es), x);
  }

  // ---- the terminal freeze ----

  /** The guard of the create freeze: the newest row failed and names no droplet. */
  predicate FreezeGuard(b: Books) {
    b.order != [] && Last(b) in b.ledger && b.ledger[Last(b)].state.Failed? && b.ledger[Last(b)].resource.None?
  }

  /** Worker `w` is about to reserve a region that has no row yet. */
  predicate WillReserve(c: Config, s: State, w: WorkerId) {
    var pc := PcOf(s, w);
    pc.AtInsert? && pc.i < |c.regions| && c.regions[pc.i] !in s.books.ledger
  }

  /** When every definite rejection creates nothing, the guard of the freeze is right
      for all time exactly when no run is about to reserve a further region. */
  lemma {:induction false} FreezeIsExact(c: Config, es: seq<Event>)
    requires Fits(c) && c.strict && FreezeGuard(Reach(c, es))
    ensures (forall fs :: CreatedIds(Reach(c, es + fs)) == {})
       <==> (forall w :: !WillReserve(c, CreateProtocol.Run(c, Init(), es), w))
  {
    var s := CreateProtocol.Run(c, Init(), es);
    ReachInv(c, es);
    if w :| WillReserve(c, s, w) {
      var fs := Resume(w, |s.books.calls|);
      ResumeCreates(c, s, w);
      RunConcat(c, Init(), es, fs);
      assert CreatedIds(Reach(c, es + fs)) != {};
    } else {
      forall fs ensures CreatedIds(Reach(c, es + fs)) == {} {
        RunConcat(c, Init(), es, fs);
        DeadForEver(c, s, fs);
      }
    }
  }

  /** A deployment frozen while no run of it is live never owns a droplet. */
  lemma {:induction false} FrozenOwnsNothing(c: Config, es: seq<Event>, fs: seq<Event>)
    requires Fits(c) && c.strict && FreezeGuard(Reach(c, es))
    requires forall w :: Resting(PcOf(CreateProtocol.Run(c, Init(), es), w))
    ensures CreatedIds(Reach(c, es + fs)) == {}
  {
    FreezeIsExact(c, es);
  }

  ghost predicate Dead(c: Config, s: State) {
    && Inv(c, s) && c.strict && FreezeGuard(s.books)
    && (forall w :: !WillReserve(c, s, w))
  }

  lemma DeadHasNoDroplet(c: Config, s: State)
    requires Dead(c, s)
    ensures CreatedIds(s.books) == {}
  {
    AllRejected(c, s);
  }

  lemma {:induction false} DeadForEver(c: Config, s: State, fs: seq<Event>)
    requires Dead(c, s)
    ensures Dead(c, CreateProtocol.Run(c, s, fs)) && CreatedIds(CreateProtocol.Run(c, s, fs).books) == {}
    decreases |fs|
  {
    if fs != [] {
      DeadForEver(c, s, fs[..|fs| - 1]);
      DeadNext(c, CreateProtocol.Run(c, s, fs[..|fs| - 1]), fs[|fs| - 1]);
    }
    DeadHasNoDroplet(c, CreateProtocol.Run(c, s, fs));
  }

  lemma DeadNext(c: Config, s: State, e: Event)
    requires Dead(c, s)
    ensures Dead(c, Apply(c, s, e))
  {
    ApplyInv(c, s, e);
    DeadBooks(c, s, e);
    var t := Apply(c, s, e);
    forall w ensures !WillReserve(c, t, w) {
      DeadPosition(c, s, e, w);
      assert !WillReserve(c, s, w);
    }
  }

  lemma DeadBooks(c: Config, s: State, e: Event)
    requires Dead(c, s)
    ensures Apply(c, s, e).books == s.books
  {
    match e
    case Do(w, a) =>
      assert !WillReserve(c, s, w);
      DeadWorker(c, s.books, PcOf(s, w), RunOf(s, w), a);
    case Materialize(k, id) => AllRejected(c, s);
    case _ =>
  }

  lemma DeadPosition(c: Config, s: State, e: Event, w: WorkerId)
    requires Dead(c, s)
    ensures var pc := PcOf(Apply(c, s, e), w);
      pc.AtInsert? ==> pc == PcOf(s, w) || (pc.i == 0 && c.regions[0] in s.books.ledger)
  {
    FirstRow(c, s.books);
    if e.Do? && e.w == w {
      assert !WillReserve(c, s, w);
      DeadWorker(c, s.books, PcOf(s, w), RunOf(s, w), e.action);
    }
  }

  /** Under the freeze guard the provider has turned down every request. */
  lemma AllRejected(c: Config, s: State)
    requires Inv(c, s) && FreezeGuard(s.books) && c.strict
    ensures forall k :: 0 <= k < |s.books.calls| ==> s.books.calls[k].status.Rejected?
  {
    var b := s.books;
    assert NewestRow(c, b, b.ledger[Last(b)]);
    assert forall k :: 0 <= k < |b.order| - 1 ==> GaveUp(b.calls[k].status);
  }

  /** After the freeze guard no worker writes, calls or moves to another region. */
  lemma {:induction false} DeadWorker(c: Config, b: Books, pc: Pc, run: nat, a: Action)
    requires Shapes(c, b) && FreezeGuard(b) && PcOk(c, b, pc, run)
    requires !(pc.AtInsert? && pc.i < |c.regions| && c.regions[pc.i] !in b.ledger)
    ensures Act(c, b, pc, run, a).0 == b
    ensures Act(c, b, pc, run, a).1.AtInsert? ==> Act(c, b, pc, run, a).1 == pc
  {
    NoWriterAfterFailure(c, b, pc, run);
    if OnlyMoves(a) { DeadMove(c, b, pc, a); }
  }

  lemma DeadMove(c: Config, b: Books, pc: Pc, a: Action)
    requires Shapes(c, b) && FreezeGuard(b) && OnlyMoves(a)
    requires pc.AtInsert? || (pc.AtSelect? && !Holds(pc) && ObserverOk(c, b, pc)) || Resting(pc) || pc.AtCheck?
    ensures Move(c, b, pc, a).AtInsert? ==> Move(c, b, pc, a) == pc
  {
    if a.Select? && pc.AtSelect? { AbandonedEverywhere(c, b, c.regions[pc.i]); }
    if a.Blocked? { assert !Advances(MutationBlocked); }
  }

  lemma NoWriterAfterFailure(c: Config, b: Books, pc: Pc, run: nat)
    requires FreezeGuard(b) && PcOk(c, b, pc, run)
    ensures pc.AtInsert? || pc.AtSelect? || Resting(pc) || (pc.AtCheck? && pc.op.resource.None?)
  {
    assert !Settled(b);
  }

  lemma AbandonedEverywhere(c: Config, b: Books, r: Region)
    requires Shapes(c, b) && FreezeGuard(b) && r in b.ledger
    ensures Abandoned(b.ledger[r])
  {
  }

  /** The five events by which a worker about to reserve gets a droplet created. */
  function Resume(w: WorkerId, call: nat): seq<Event> {
    [Do(w, Insert(Acked)), Do(w, Egress(true)), Do(w, Write(Acked)), Do(w, Send), Materialize(call, 1)]
  }

  lemma ResumeCreates(c: Config, s: State, w: WorkerId)
    requires Inv(c, s) && WillReserve(c, s, w) && FreezeGuard(s.books) && c.strict
    ensures CreatedIds(CreateProtocol.Run(c, s, Resume(w, |s.books.calls|)).books) != {}
  {
    var k := |s.books.calls|;
    var es := Resume(w, k);
    var i := PcOf(s, w).i;
    var t := AfterSend(c, s, w, i);
    ResumeSends(c, s, w, i);
    RunSnoc(c, s, es[..4], es[4]);
    assert es == es[..4] + [es[4]] && es[..4] == [Do(w, Insert(Acked)), Do(w, Egress(true)), Do(w, Write(Acked)), Do(w, Send)];
    AllRejected(c, s);
    assert CreatedIds(t.books) == {};
    var u := Apply(c, t, Materialize(k, 1));
    assert u.books.calls[k].status.id in CreatedIds(u.books);
  }

  /** The state once worker `w` has reserved region `i` and sent its request. */
  function AfterSend(c: Config, s: State, w: WorkerId, i: nat): State
    requires i < |c.regions|
  {
    var r := c.regions[i];
    var op := FRESH.(state := Running, attempt := 1);
    var b := Store(NewRow(s.books, r, RunOf(s, w)), r, op, Acked);
    At(s, w, b.(calls := b.calls + [Call(r, Pending)]), AwaitReply(i, op, |b.calls|))
  }

  lemma ResumeSends(c: Config, s: State, w: WorkerId, i: nat)
    requires PcOf(s, w) == AtInsert(i) && i < |c.regions| && c.regions[i] !in s.books.ledger
    ensures CreateProtocol.Run(c, s, [Do(w, Insert(Acked)), Do(w, Egress(true)), Do(w, Write(Acked)), Do(w, Send)])
         == AfterSend(c, s, w, i)
  {
    ResumeSteps(c, s, w, i);
    RunOfFour(c, s, Do(w, Insert(Acked)), Do(w, Egress(true)), Do(w, Write(Acked)), Do(w, Send));
  }

  lemma RunOfTwo(c: Config, s: State, e1: Event, e2: Event)
    ensures CreateProtocol.Run(c, s, [e1, e2]) == Apply(c, Apply(c, s, e1), e2)
  {
    RunSnoc(c, s, [], e1);
    RunSnoc(c, s, [e1], e2);
    assert [] + [e1] == [e1] && [e1] + [e2] == [e1, e2];
  }

  lemma RunOfFour(c: Config, s: State, e1: Event, e2: Event, e3: Event, e4: Event)
    ensures CreateProtocol.Run(c, s, [e1, e2, e3, e4]) == Apply(c, Apply(c, Apply(c, Apply(c, s, e1), e2), e3), e4)
  {
    RunOfTwo(c, s, e1, e2);
    RunOfTwo(c, CreateProtocol.Run(c, s, [e1, e2]), e3, e4);
    RunConcat(c, s, [e1, e2], [e3, e4]);
    assert [e1, e2] + [e3, e4] == [e1, e2, e3, e4];
  }

  lemma ResumeSteps(c: Config, s: State, w: WorkerId, i: nat)
    requires PcOf(s, w) == AtInsert(i) && i < |c.regions| && c.regions[i] !in s.books.ledger
    ensures Apply(c, Apply(c, Apply(c, Apply(c, s, Do(w, Insert(Acked))), Do(w, Egress(true))), Do(w, Write(Acked))), Do(w, Send))
         == AfterSend(c, s, w, i)
  {
    var r := c.regions[i];
    var op := FRESH.(state := Running, attempt := 1);
    var b1 := NewRow(s.books, r, RunOf(s, w));
    var s1 := At(s, w, b1, PreEgress(i, FRESH));
    var s2 := At(s, w, b1, AtUpdate(i, op, ThenCall));
    var s3 := At(s, w, Store(b1, r, op, Acked), AtCall(i, op));
    assert Apply(c, s, Do(w, Insert(Acked))) == s1 && Apply(c, s1, Do(w, Egress(true))) == s2;
    assert Apply(c, s2, Do(w, Write(Acked))) == s3;
    assert Apply(c, s3, Do(w, Send)) == AfterSend(c, s, w, i);
  }

  // ---- an unknown outcome without a droplet ----

  /** The guard under which the worker leaves a deployment at create alone: the newest row is
      unknown and names no droplet. Recovery of operations skips such a row too. */
  predicate UnknownGuard(b: Books) {
    b.order != [] && Last(b) in b.ledger && b.ledger[Last(b)].state.Unknown? && b.ledger[Last(b)].resource.None?
  }

  /** The worker starts no run while the guard holds. */
  ghost predicate Guarded(c: Config, s: State, es: seq<Event>) {
    forall n :: 0 <= n < |es| && es[n].Start? ==> !UnknownGuard(CreateProtocol.Run(c, s, es[..n]).books)
  }

  ghost predicate Stuck(c: Config, s: State) {
    && Inv(c, s) && UnknownGuard(s.books)
    && (forall w :: Resting(PcOf(s, w)) || (PcOf(s, w).AtCheck? && PcOf(s, w).op.resource.None?))
  }

  /** A deployment whose newest create operation is unknown without a droplet and that has no
      live run is left alone for ever: under the worker's guards no row is added or changed
      and no request is sent, even when the provider creates the droplet meanwhile. */
  lemma {:induction false} UnknownIsNeverResolved(c: Config, es: seq<Event>, fs: seq<Event>)
    requires Fits(c) && UnknownGuard(Reach(c, es))
    requires forall w :: Resting(PcOf(CreateProtocol.Run(c, Init(), es), w))
    requires Guarded(c, CreateProtocol.Run(c, Init(), es), fs)
    ensures Reach(c, es + fs).ledger == Reach(c, es).ledger && Reach(c, es + fs).order == Reach(c, es).order
    ensures |Reach(c, es + fs).calls| == |Reach(c, es).calls|
  {
    ReachInv(c, es);
    RunConcat(c, Init(), es, fs);
    StuckForEver(c, CreateProtocol.Run(c, Init(), es), fs);
  }

  lemma {:induction false} StuckForEver(c: Config, s: State, fs: seq<Event>)
    requires Stuck(c, s) && Guarded(c, s, fs)
    ensures var t := CreateProtocol.Run(c, s, fs);
      Stuck(c, t) && t.books.ledger == s.books.ledger && t.books.order == s.books.order && |t.books.calls| == |s.books.calls|
    decreases |fs|
  {
    if fs != [] {
      var init, e := fs[..|fs| - 1], fs[|fs| - 1];
      forall n | 0 <= n < |init| && init[n].Start? ensures !UnknownGuard(CreateProtocol.Run(c, s, init[..n]).books) {
        assert init[..n] == fs[..n];
      }
      StuckForEver(c, s, init);
      StuckNext(c, CreateProtocol.Run(c, s, init), e);
    }
  }

  lemma StuckNext(c: Config, s: State, e: Event)
    requires Stuck(c, s) && !e.Start?
    ensures var t := Apply(c, s, e);
      Stuck(c, t) && t.books.ledger == s.books.ledger && t.books.order == s.books.order && |t.books.calls| == |s.books.calls|
  {
    ApplyInv(c, s, e);
    if e.Do? { StuckWorker(c, s.books, PcOf(s, e.w), RunOf(s, e.w), e.action); }
    var t := Apply(c, s, e);
    forall w ensures Resting(PcOf(t, w)) || (PcOf(t, w).AtCheck? && PcOf(t, w).op.resource.None?) {
      assert Resting(PcOf(s, w)) || (PcOf(s, w).AtCheck? && PcOf(s, w).op.resource.None?);
    }
  }

  lemma StuckWorker(c: Config, b: Books, pc: Pc, run: nat, a: Action)
    requires Shapes(c, b) && UnknownGuard(b)
    requires Resting(pc) || (pc.AtCheck? && pc.op.resource.None?)
    ensures var (b', pc') := Act(c, b, pc, run, a);
      b' == b && (Resting(pc') || (pc'.AtCheck? && pc'.op.resource.None?))
  {
    forall r | r in b.ledger ensures b.ledger[r].resource.None? {
      NoRowNamed(c, b, r);
    }
  }

  lemma NoRowNamed(c: Config, b: Books, r: Region)
    requires Shapes(c, b) && UnknownGuard(b) && r in b.ledger
    ensures b.ledger[r].resource.None?
  {
  }
}
