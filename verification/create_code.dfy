/**
  The create path as its code is written: the region loop, the executor, the adopter
  and the recovery of one operation. Between any two statements other workers and the
  provider may take any number of steps. Every such execution is a run of the protocol,
  so what is proved about runs holds at every point of the code.
 */
module CreateCode {
  import opened Wrappers
  import opened ErrorClasses
  import opened ProviderErrors
  import opened CreateProtocol
  import opened CreateInvariant
  import opened CreateTheorems
  import opened CreateProgress

  /** What the provider answers to a listing. */
  datatype Listing = Unlisted(error: Error) | Items(items: seq<Listed>)

  /** What the outside world answers during one attempt, one field per question. No answer
      to the create request means that it is answered with the droplet. */
  datatype Luck = Luck(allowed: bool, insert: StoreReply, selected: bool, egressBefore: bool, running: StoreReply,
                       answer: Option<Error>, egressAfter: bool, stored: StoreReply, listing: Listing)

  /** One create request: the events that sent and answered it, and what its sender was
      told, which is the droplet when there was no failure. */
  datatype Exchange = Exchange(sent: nat, answered: nat, failure: Option<Error>, id: ProviderId)

  /** What an attempt met on its way: the events by which it asked for its row, read the row
      of another and listed the droplets, that listing, its only match, and its create request. */
  datatype Story = Story(asked: nat, read: nat, listed: nat, items: seq<Listed>, only: Option<Listed>,
                         exchange: Exchange)

  const NOTHING: Story := Story(0, 0, 0, [], None, Exchange(0, 0, None, 0))

  /** How many create requests worker `w` sent. */
  function SentBy(es: seq<Event>, w: WorkerId): nat
    decreases |es|
  {
    if es == [] then 0
    else SentBy(es[..|es| - 1], w) + if es[|es| - 1] == Do(w, Send) then 1 else 0
  }

  /** State `past[n]` is the one before event `n`, and every event is one of the protocol. */
  ghost predicate Execution(c: Config, past: seq<State>, es: seq<Event>) {
    && |past| == |es| + 1 && past[0] == Init()
    && forall n :: 0 <= n < |es| ==> Follows(c, past, es, n)
  }

  ghost predicate Follows(c: Config, past: seq<State>, es: seq<Event>, n: nat)
    requires n < |es| && |past| == |es| + 1
  {
    past[n + 1] == Apply(c, past[n], es[n])
  }

  /** Executions are the runs of the protocol. */
  lemma {:induction false} ExecutionsAreRuns(c: Config, past: seq<State>, es: seq<Event>)
    requires Execution(c, past, es)
    ensures past[|es|] == CreateProtocol.Run(c, Init(), es)
    decreases |es|
  {
    if es != [] {
      var n := |es| - 1;
      var past', es' := past[..n + 1], es[..n];
      forall k | 0 <= k < n ensures Follows(c, past', es', k) {
        assert Follows(c, past, es, k);
      }
      ExecutionsAreRuns(c, past', es');
      assert Follows(c, past, es, n);
    }
  }

  lemma ExecutionGrows(c: Config, past: seq<State>, es: seq<Event>, e: Event)
    requires Execution(c, past, es)
    ensures Execution(c, past + [Apply(c, past[|es|], e)], es + [e])
  {
    var past', es' := past + [Apply(c, past[|es|], e)], es + [e];
    forall k | 0 <= k < |es'| ensures Follows(c, past', es', k) {
      if k < |es| { assert Follows(c, past, es, k); }
    }
  }

  /** How the request of worker `w` for region `r` was sent and answered. */
  ghost predicate Exchanged(past: seq<State>, es: seq<Event>, x: Exchange, w: WorkerId, r: Region, answer: Option<Error>) {
    && x.sent < x.answered < |es| <= |past|
    && es[x.sent] == Do(w, Send) && |past[x.sent].books.calls| < |past[x.answered].books.calls|
    && es[x.answered] == Do(w, if x.failure.None? then ReplyCreated else ReplyError(x.failure.value))
    && var call := past[x.answered].books.calls[|past[x.sent].books.calls|];
    && call.region == r
    && (x.failure.None? ==> answer.None? && call.status == Created(x.id))
    && (answer.None? && call.status.Created? ==> x.failure.None?)
    && (answer.Some? && (call.status.Pending? || !TurnedDown(answer.value)) ==> x.failure == answer)
    && (x.failure.Some? ==> x.failure == answer || x.failure.value.Request?)
  }

  /** The provider turned a request down for good: nothing was created. */
  predicate TurnedDown(e: Error) {
    e.MutationBlocked? || (e.Http? && 400 <= e.status < 500 && e.status !in {408, 409, 429})
  }

  /** The store and the provider, shared by all workers. */
  class Site {
    const c: Config
    var s: State
    ghost var trace: seq<Event>
    ghost var past: seq<State>

    ghost predicate Valid() reads this {
      Fits(c) && Execution(c, past, trace) && s == past[|trace|]
    }

    ghost function Sent(w: WorkerId): nat reads this {
      SentBy(trace, w)
    }

    /** Event `n` is worker `w` doing `a`. */
    ghost predicate Saw(n: nat, w: WorkerId, a: Action) reads this {
      n < |trace| < |past| && trace[n] == Do(w, a)
    }

    /** The books just before event `n`. */
    ghost function BooksAt(n: nat): Books
      requires n < |past|
      reads this
    {
      past[n].books
    }

    /** The books just before the latest event. */
    ghost function Before(): Books
      requires |past| > 1
      reads this
    {
      past[|past| - 2].books
    }

    /** The latest event is worker `w` storing `op` as the row of region `r`. */
    ghost predicate Wrote(w: WorkerId, r: Region, op: Operation, reply: StoreReply) reads this {
      && trace != [] && trace[|trace| - 1] == Do(w, Write(reply)) && |past| > 1 && r in Before().ledger
      && s.books.ledger == (if reply.Refused? then Before().ledger else Before().ledger[r := op])
      && s.books.order == Before().order && s.books.calls == Before().calls
    }

    /** The latest event is worker `w` looking at the provider, which stores nothing. */
    ghost predicate Looked(w: WorkerId, a: Action) reads this {
      trace != [] && trace[|trace| - 1] == Do(w, a) && |past| > 1 && s.books == Before()
    }

    /** Where the region loop of worker `w` stands once the attempt for region `i` ended. */
    ghost predicate WentOn(w: WorkerId, i: nat, op: Operation, err: Option<Error>) reads this {
      PcOf(s, w) ==
        if err.None? then (if op.resource.Some? then Returned(None, op.resource) else Returned(Some(OutcomeStillUnknown), None))
        else if LacksCapacity(err.value) && i + 1 < |c.regions| then AtInsert(i + 1)
        else Returned(err, None)
    }

    constructor (c: Config)
      requires Fits(c)
      ensures Valid() && this.c == c && s == Init()
    {
      this.c := c;
      s, trace, past := Init(), [], [Init()];
    }

    method Step(e: Event)
      requires Valid()
      modifies this
      ensures Valid() && s == Apply(c, old(s), e) && trace == old(trace) + [e] && past == old(past) + [s]
      ensures forall w :: Sent(w) == old(Sent(w)) + if e == Do(w, Send) then 1 else 0
    {
      ExecutionGrows(c, past, trace, e);
      assert (trace + [e])[..|trace|] == trace;
      s, trace, past := Apply(c, s, e), trace + [e], past + [Apply(c, s, e)];
    }

    /** Other workers and the provider go on for a while. */
    method Others(w: WorkerId)
      requires Valid()
      modifies this
      ensures Valid() && old(trace) <= trace && old(past) <= past
      ensures PcOf(s, w) == PcOf(old(s), w) && RunOf(s, w) == RunOf(old(s), w) && Sent(w) == old(Sent(w))
    {
      var es: seq<Event> := *;
      for n := 0 to |es|
        invariant Valid() && old(trace) <= trace && old(past) <= past
        invariant PcOf(s, w) == PcOf(old(s), w) && RunOf(s, w) == RunOf(old(s), w) && Sent(w) == old(Sent(w))
      {
        if !By(es[n], w) { Step(es[n]); }
      }
    }

    /** One action of worker `w`, taken in a state that the others left behind. */
    method Act(w: WorkerId, a: Action)
      requires Valid()
      modifies this
      ensures Valid() && old(trace) <= trace && old(past) <= past && |old(trace)| < |trace| && Saw(|trace| - 1, w, a)
      ensures RunOf(s, w) == RunOf(old(s), w)
      ensures (s.books, PcOf(s, w)) == CreateProtocol.Act(c, Before(), PcOf(old(s), w), RunOf(old(s), w), a)
      ensures Sent(w) == old(Sent(w)) + if a.Send? then 1 else 0
    {
      Others(w);
      Step(Do(w, a));
    }

    /** INSERT ... ON CONFLICT DO NOTHING, then SELECT on conflict. The row is reported as
        new only to the caller whose statement inserted it; the others get the stored row. */
    method Reserve(w: WorkerId, i: nat, luck: Luck)
      returns (op: Operation, isNew: bool, err: Option<Error>, ghost asked: nat, ghost read: nat)
      requires Valid() && PcOf(s, w) == AtInsert(i) && i < |c.regions|
      modifies this
      ensures Valid() && old(trace) <= trace && old(past) <= past
      ensures err.Some? ==> err == Some(StoreFailure) && PcOf(s, w) == Finish(c, i, StoreFailure)
      ensures err.None? ==> PcOf(s, w) == if isNew then PreEgress(i, op) else AfterSelect(op, i)
      ensures |old(trace)| <= asked && Saw(asked, w, Insert(luck.insert)) && Sent(w) == old(Sent(w))
      ensures err.None? && isNew <==> luck.insert.Acked? && c.regions[i] !in BooksAt(asked).ledger
      ensures err.None? && isNew ==>
                && op == Operation(Planned, None, 0)
                && s.books.ledger == BooksAt(asked).ledger[c.regions[i] := op] && s.books.calls == BooksAt(asked).calls
                && s.books.order == BooksAt(asked).order + [Entry(c.regions[i], RunOf(s, w))]
      ensures !luck.insert.Acked? ==> err == Some(StoreFailure)
      ensures luck.insert.Acked? && c.regions[i] in BooksAt(asked).ledger ==>
                && asked < read && Saw(read, w, Select(luck.selected)) && c.regions[i] in BooksAt(read).ledger
                && s.books == BooksAt(read)
                && (if luck.selected then err.None? && op == BooksAt(read).ledger[c.regions[i]] else err == Some(StoreFailure))
    {
      op, isNew, err := FRESH, false, Some(StoreFailure);
      Act(w, Insert(luck.insert));
      asked := |trace| - 1;
      read := asked;
      if !luck.insert.Acked? { return; }
      if PcOf(s, w).PreEgress? { return FRESH, true, None, asked, read; }
      Others(w);
      SelectedRowExists(c, past, trace, w);
      read := |trace|;
      var found := if c.regions[i] in s.books.ledger then Some(s.books.ledger[c.regions[i]]) else None;
      Step(Do(w, Select(luck.selected)));
      if luck.selected && found.Some? { op, err := found.value, None; }
    }

    /** The full-row UPDATE, by a worker that is about to write exactly `op`. */
    method Update(w: WorkerId, i: nat, op: Operation, ghost next: Next, reply: StoreReply) returns (err: Option<Error>)
      requires Valid() && PcOf(s, w) == AtUpdate(i, op, next) && i < |c.regions|
      modifies this
      ensures Valid() && old(trace) <= trace && old(past) <= past
      ensures PcOf(s, w) == AfterUpdate(c, i, op, next, reply)
      ensures err == if reply.Acked? then None else Some(StoreFailure)
      ensures Wrote(w, c.regions[i], op, reply) && Sent(w) == old(Sent(w))
    {
      Others(w);
      HeldRowExists(c, past, trace, w);
      Step(Do(w, Write(reply)));
      err := if reply.Acked? then None else Some(StoreFailure);
    }

    /** The same UPDATE, by a worker that verified the row it read earlier. */
    method StoreVerified(w: WorkerId, r: Region, op: Operation, reply: StoreReply) returns (err: Option<Error>)
      requires Valid() && PcOf(s, w) == AtVerify(r, op)
      modifies this
      ensures Valid() && old(trace) <= trace && old(past) <= past && PcOf(s, w) == Idle
      ensures Wrote(w, r, op, reply) && Sent(w) == old(Sent(w))
      ensures err == if reply.Acked? then None else Some(StoreFailure)
    {
      Others(w);
      HeldRowExists(c, past, trace, w);
      Step(Do(w, Write(reply)));
      err := if reply.Acked? then None else Some(StoreFailure);
    }

    /** The same UPDATE, by a worker that found the droplet of an unknown row. */
    method StoreAdopted(w: WorkerId, i: nat, op: Operation, reply: StoreReply) returns (err: Option<Error>)
      requires Valid() && PcOf(s, w) == AtAdopt(i, op) && i < |c.regions|
      modifies this
      ensures Valid() && old(trace) <= trace && old(past) <= past
      ensures PcOf(s, w) == if err.Some? then Finish(c, i, err.value) else Accept(op)
      ensures Wrote(w, c.regions[i], op, reply) && Sent(w) == old(Sent(w))
      ensures err == if reply.Acked? then None else Some(StoreFailure)
    {
      Others(w);
      HeldRowExists(c, past, trace, w);
      Step(Do(w, Write(reply)));
      err := if reply.Acked? then None else Some(StoreFailure);
    }

    /** UPDATE operations SET state=..., of a row that names a droplet. */
    method StoreState(w: WorkerId, r: Region, state: OpState, reply: StoreReply)
      requires Valid() && PcOf(s, w) == AtRecover(r, state)
      requires r in s.books.ledger && s.books.ledger[r].resource.Some?
      modifies this
      ensures Valid() && old(trace) <= trace && old(past) <= past && PcOf(s, w) == Idle
      ensures trace != [] && r in Before().ledger && Wrote(w, r, Before().ledger[r].(state := state), reply)
      ensures Before().ledger[r].resource == old(s.books.ledger)[r].resource
      ensures Sent(w) == old(Sent(w))
    {
      ghost var before := |trace|;
      Others(w);
      KeptSince(this, before, r);
      Step(Do(w, Write(reply)));
    }

    method CheckEgress(w: WorkerId, ok: bool) returns (err: Option<Error>)
      requires Valid() && (PcOf(s, w).PreEgress? || PcOf(s, w).PostEgress?)
      modifies this
      ensures Valid() && old(trace) <= trace && old(past) <= past
      ensures err == if ok then None else Some(EgressChanged)
      ensures PcOf(s, w) == AfterEgress(PcOf(old(s), w), ok) && Sent(w) == old(Sent(w))
    {
      Act(w, Egress(ok));
      err := if ok then None else Some(EgressChanged);
    }

    /** POST /droplets: the request is sent, and later answered one way or the other. */
    method CreateDroplet(w: WorkerId, i: nat, op: Operation, answer: Option<Error>)
      returns (id: ProviderId, err: Option<Error>, ghost x: Exchange)
      requires Valid() && PcOf(s, w) == AtCall(i, op) && i < |c.regions|
      modifies this
      ensures Valid() && old(trace) <= trace && old(past) <= past
      ensures PcOf(s, w) == if err.Some? then AfterError(i, op, err.value) else PostEgress(i, op.(resource := Some(id)))
      ensures Exchanged(past, trace, x, w, c.regions[i], answer) && x.failure == err && x.id == id
      ensures Sent(w) == old(Sent(w)) + 1
    {
      Act(w, Send);
      ghost var sent, answered := |trace| - 1, 0;
      id, err, answered := Wait(w, i, op, PcOf(s, w).call, answer);
      x := Exchange(sent, answered, err, id);
    }

    method Wait(w: WorkerId, i: nat, op: Operation, call: nat, answer: Option<Error>)
      returns (id: ProviderId, err: Option<Error>, ghost m: nat)
      requires Valid() && PcOf(s, w) == Pc.AwaitReply(i, op, call) && i < |c.regions|
      modifies this
      ensures Valid() && old(trace) <= trace && old(past) <= past && |old(trace)| <= m
      ensures PcOf(s, w) == if err.Some? then AfterError(i, op, err.value) else PostEgress(i, op.(resource := Some(id)))
      ensures Saw(m, w, if err.None? then ReplyCreated else ReplyError(err.value))
      ensures call < |BooksAt(m).calls| && BooksAt(m).calls[call].region == c.regions[i]
      ensures err.None? ==> answer.None? && BooksAt(m).calls[call].status == Created(id)
      ensures answer.None? && BooksAt(m).calls[call].status.Created? ==> err.None?
      ensures answer.Some? && (BooksAt(m).calls[call].status.Pending? || !TurnedDown(answer.value)) ==> err == answer
      ensures err.Some? ==> err == answer || err.value.Request?
      ensures Sent(w) == old(Sent(w))
    {
      Others(w);
      AwaitedCall(c, past, trace, w);
      m := |trace|;
      id := 0;
      if answer.None? && s.books.calls[call].status.Created? {
        id := s.books.calls[call].status.id;
        Step(Do(w, ReplyCreated));
        return id, None, m;
      }
      var e := if answer.Some? then answer.value else Request;
      DefiniteByStatus(e);
      if Rejects(c, e) && !s.books.calls[call].status.Pending? { e := Request; }
      Step(Do(w, ReplyError(e)));
      err := Some(e);
    }

    /** GET /droplets, all pages. */
    method ListDropletModels(w: WorkerId, i: nat, op: Operation, listing: Listing)
      returns (items: seq<Listed>, err: Option<Error>)
      requires Valid() && PcOf(s, w) == AtList(i, op) && i < |c.regions|
      requires listing.Unlisted? ==> FromGet(listing.error)
      modifies this
      ensures Valid() && old(trace) <= trace && old(past) <= past
      ensures PcOf(s, w) == if err.Some? then Finish(c, i, err.value) else AfterList(c, i, op, items)
      ensures Looked(w, if err.Some? then ListFailed(err.value) else ListOk(items))
      ensures err == if listing.Unlisted? then Some(listing.error) else None
      ensures listing.Items? && Honest(c, Before(), listing.items) ==> items == listing.items
      ensures Sent(w) == old(Sent(w))
    {
      Others(w);
      items, err := [], None;
      if listing.Unlisted? {
        Step(Do(w, ListFailed(listing.error)));
        return [], Some(listing.error);
      }
      if Honest(c, s.books, listing.items) { items := listing.items; }
      Step(Do(w, ListOk(items)));
    }
  }

  /** A worker that lost the race for a row reads one that exists. */
  lemma SelectedRowExists(c: Config, past: seq<State>, es: seq<Event>, w: WorkerId)
    requires Fits(c) && Execution(c, past, es) && PcOf(past[|es|], w).AtSelect?
    ensures var pc := PcOf(past[|es|], w);
      pc.i < |c.regions| && c.regions[pc.i] in past[|es|].books.ledger
  {
    ExecutionsAreRuns(c, past, es);
    ReachInv(c, es);
    var s := past[|es|];
    assert PcOk(c, s.books, PcOf(s, w), RunOf(s, w));
  }

  /** A worker about to update a row updates one that exists. */
  lemma HeldRowExists(c: Config, past: seq<State>, es: seq<Event>, w: WorkerId)
    requires Fits(c) && Execution(c, past, es)
    ensures var pc := PcOf(past[|es|], w);
      && (pc.AtUpdate? || pc.AtAdopt? ==> pc.i < |c.regions| ==> c.regions[pc.i] in past[|es|].books.ledger)
      && (pc.AtVerify? ==> pc.region in past[|es|].books.ledger)
  {
    ExecutionsAreRuns(c, past, es);
    ReachInv(c, es);
    var s := past[|es|];
    assert PcOk(c, s.books, PcOf(s, w), RunOf(s, w));
  }

  /** The request that a worker waits for is on the provider's list. */
  lemma AwaitedCall(c: Config, past: seq<State>, es: seq<Event>, w: WorkerId)
    requires Fits(c) && Execution(c, past, es) && PcOf(past[|es|], w).AwaitReply?
    ensures var pc := PcOf(past[|es|], w);
      pc.call < |past[|es|].books.calls| && pc.i < |c.regions| && past[|es|].books.calls[pc.call].region == c.regions[pc.i]
  {
    ExecutionsAreRuns(c, past, es);
    ReachInv(c, es);
    var s := past[|es|];
    assert PcOk(c, s.books, PcOf(s, w), RunOf(s, w));
  }

  /** Event numbers `m` and up: a row that named a droplet still names it. */
  lemma KeptSince(site: Site, m: nat, r: Region)
    requires site.Valid() && m <= |site.trace|
    requires r in site.BooksAt(m).ledger && site.BooksAt(m).ledger[r].resource.Some?
    ensures r in site.s.books.ledger && site.s.books.ledger[r].resource == site.BooksAt(m).ledger[r].resource
  {
    var es := site.trace;
    ExecutionsAreRuns(site.c, site.past, es);
    ExecutionPrefix(site.c, site.past, es, m);
    ExecutionsAreRuns(site.c, site.past[..m + 1], es[..m]);
    assert es == es[..m] + es[m..];
    ResourceIsWriteOnce(site.c, es[..m], es[m..], r);
  }

  lemma ExecutionPrefix(c: Config, past: seq<State>, es: seq<Event>, m: nat)
    requires Execution(c, past, es) && m <= |es|
    ensures Execution(c, past[..m + 1], es[..m])
  {
    var past', es' := past[..m + 1], es[..m];
    forall k | 0 <= k < m ensures Follows(c, past', es', k) {
      assert Follows(c, past, es, k);
    }
  }

  // ---- the scan of the adopter ----

  /** Droplet `d` carries the identity tag or, without one, the name, and stands in the region. */
  predicate Identified(d: Listed, tag: string, name: string, region: Region) {
    ((tag != "" && tag in d.tags) || (tag == "" && d.name == name)) && (region == "" || d.region == region)
  }

  predicate OnlyMatch(items: seq<Listed>, n: nat, tag: string, name: string, region: Region)
    requires n < |items|
  {
    && Identified(items[n], tag, name, region)
    && forall k :: 0 <= k < |items| && k != n ==> !Identified(items[k], tag, name, region)
  }

  /** `m` is the only match of the listing, if there is one. */
  ghost predicate Only(items: seq<Listed>, tag: string, name: string, region: Region, m: Option<Listed>) {
    match m
    case None => forall n :: 0 <= n < |items| ==> !OnlyMatch(items, n, tag, name, region)
    case Some(d) => exists n :: 0 <= n < |items| && OnlyMatch(items, n, tag, name, region) && items[n] == d
  }

  /** Scans the whole listing and gives up at a second match. */
  method UniqueMatch(items: seq<Listed>, tag: string, name: string, region: Region) returns (m: Option<Listed>)
    ensures m == if |Matching(items, tag, name, region)| == 1 then Some(Matching(items, tag, name, region)[0]) else None
    ensures Only(items, tag, name, region, m)
  {
    m := None;
    ghost var at: nat := 0;
    for n := 0 to |items|
      invariant Matching(items[..n], tag, name, region) == if m.Some? then [m.value] else []
      invariant m.Some? ==> at < n && m.value == items[at]
      invariant forall k :: 0 <= k < n ==> (Identified(items[k], tag, name, region) <==> m.Some? && k == at)
    {
      assert items[..n + 1][..n] == items[..n];
      var tagged := false;
      for t := 0 to |items[n].tags|
        invariant tagged <==> tag != "" && tag in items[n].tags[..t]
      {
        if tag != "" && items[n].tags[t] == tag { tagged := true; break; }
      }
      if (tagged || (tag == "" && items[n].name == name)) && (region == "" || items[n].region == region) {
        if m.Some? {
          MatchingMonotone(items, n + 1, tag, name, region);
          return None;
        }
        m, at := Some(items[n]), n;
      }
    }
    assert items[..|items|] == items;
    if m.Some? { assert OnlyMatch(items, at, tag, name, region); }
  }

  lemma {:induction false} MatchingMonotone(items: seq<Listed>, n: nat, tag: string, name: string, region: Region)
    requires n <= |items|
    ensures |Matching(items[..n], tag, name, region)| <= |Matching(items, tag, name, region)|
    decreases |items|
  {
    if n < |items| {
      var init := items[..|items| - 1];
      MatchingMonotone(init, n, tag, name, region);
      assert init[..n] == items[..n];
    } else {
      assert items[..n] == items;
    }
  }

  /** The position of the region loop, in terms of the error alone. */
  lemma FinishGoesOn(c: Config, i: nat, e: Error)
    ensures Finish(c, i, e) == if LacksCapacity(e) && i + 1 < |c.regions| then AtInsert(i + 1) else Returned(Some(e), None)
  {
    AdvancesExactly(e);
    CapacityByWords(e);
  }

  /** How the adopter ends: a failed listing is reported, any number of matches but one is
      an unknown outcome, both without a write. The only match is stored as the droplet of
      the row, in state verifying. */
  ghost predicate Adoption(site: Site, w: WorkerId, i: nat, luck: Luck, row: Operation, story: Story, op: Operation, err: Option<Error>)
    requires i < |site.c.regions|
    reads site
  {
    match luck.listing
    case Unlisted(e) => op == row && err == Some(e) && site.Looked(w, ListFailed(e))
    case Items(all) =>
      && site.Saw(story.listed, w, ListOk(story.items))
      && (Honest(site.c, site.BooksAt(story.listed), all) ==> story.items == all)
      && Only(story.items, site.c.tag, site.c.name, site.c.regions[i], story.only)
      && match story.only
         case None => op == row && err == Some(OutcomeStillUnknown) && site.Looked(w, ListOk(story.items))
         case Some(d) =>
           && op == Operation(Verifying, Some(d.id), row.attempt) && site.Wrote(w, site.c.regions[i], op, luck.stored)
           && err == if luck.stored.Acked? then None else Some(StoreFailure)
  }

  /** Adoption succeeds exactly when one listed droplet carries the tag in the region and
      the row could be written; any other number of matches, or a failed listing, stores
      nothing. */
  method AdoptUnknownCreate(site: Site, w: WorkerId, i: nat, row: Operation, luck: Luck)
    returns (op: Operation, err: Option<Error>, ghost story: Story)
    requires site.Valid() && PcOf(site.s, w) == AtList(i, row) && i < |site.c.regions|
    requires luck.listing.Unlisted? ==> FromGet(luck.listing.error)
    modifies site
    ensures site.Valid() && old(site.trace) <= site.trace && old(site.past) <= site.past
    ensures site.WentOn(w, i, op, err) && Adoption(site, w, i, luck, row, story, op, err)
    ensures site.Sent(w) == old(site.Sent(w))
  {
    op, story := row, NOTHING;
    var items;
    items, err := site.ListDropletModels(w, i, row, luck.listing);
    if err.Some? {
      FinishGoesOn(site.c, i, err.value);
    } else {
      story := story.(listed := |site.trace| - 1, items := items);
      ghost var only;
      op, err, only := AdoptListed(site, w, i, row, items, luck.stored);
      story := story.(only := only);
    }
  }

  /** The adopter, once the droplets are listed. */
  method AdoptListed(site: Site, w: WorkerId, i: nat, row: Operation, items: seq<Listed>, stored: StoreReply)
    returns (op: Operation, err: Option<Error>, ghost only: Option<Listed>)
    requires site.Valid() && i < |site.c.regions| && PcOf(site.s, w) == AfterList(site.c, i, row, items)
    modifies site
    ensures site.Valid() && old(site.trace) <= site.trace && old(site.past) <= site.past && site.WentOn(w, i, op, err)
    ensures Only(items, site.c.tag, site.c.name, site.c.regions[i], only)
    ensures only.None? ==>
              op == row && err == Some(OutcomeStillUnknown) && site.trace == old(site.trace) && site.past == old(site.past)
              && site.s == old(site.s)
    ensures only.Some? ==>
              && op == Operation(Verifying, Some(only.value.id), row.attempt) && site.Wrote(w, site.c.regions[i], op, stored)
              && err == (if stored.Acked? then None else Some(StoreFailure))
              && site.Sent(w) == old(site.Sent(w))
  {
    op := row;
    var m := UniqueMatch(items, site.c.tag, site.c.name, site.c.regions[i]);
    only := m;
    FinishGoesOn(site.c, i, OutcomeStillUnknown);
    FinishGoesOn(site.c, i, StoreFailure);
    if m.None? { err := Some(OutcomeStillUnknown); return; }
    op := row.(resource := Some(m.value.id), state := Verifying);
    err := site.StoreAdopted(w, i, op, stored);
  }

  // ---- the executor ----

  /** How a request ends. A rejection for good stores failed, any other error unknown, and a
      droplet is stored with the row that names it: verifying, or unknown when the egress
      changed. */
  ghost predicate Requested(site: Site, w: WorkerId, i: nat, luck: Luck, x: Exchange, op: Operation, err: Option<Error>)
    requires i < |site.c.regions|
    reads site
  {
    && Exchanged(site.past, site.trace, x, w, site.c.regions[i], luck.answer)
    && site.Wrote(w, site.c.regions[i], op, luck.stored)
    && match x.failure
       case Some(e) => err == Some(e) && op == Operation(if TurnedDown(e) then Failed else OpState.Unknown, None, 1)
       case None =>
         if luck.egressAfter then
           err == (if luck.stored.Acked? then None else Some(StoreFailure)) && op == Operation(Verifying, Some(x.id), 1)
         else
           err == Some(EgressChanged) && op == Operation(OpState.Unknown, Some(x.id), 1)
  }

  /** How the attempt ends once the egress is known: without the running row in the store no
      request is sent. */
  ghost predicate Called(site: Site, w: WorkerId, i: nat, luck: Luck, x: Exchange, op: Operation, err: Option<Error>)
    requires i < |site.c.regions|
    reads site
  {
    match luck.running
    case Acked => Requested(site, w, i, luck, x, op, err)
    case _ =>
      && op == Operation(Running, None, 1) && err == Some(StoreFailure)
      && site.Wrote(w, site.c.regions[i], op, luck.running)
  }

  /** The rest of the attempt, for the run that inserted the row and knows its egress. The
      last thing it does is to store the outcome it returns. */
  method CallProvider(site: Site, w: WorkerId, i: nat, luck: Luck)
    returns (op: Operation, err: Option<Error>, ghost x: Exchange)
    requires site.Valid() && i < |site.c.regions|
    requires PcOf(site.s, w) == AtUpdate(i, Operation(Running, None, 1), ThenCall)
    modifies site
    ensures site.Valid() && old(site.trace) <= site.trace && old(site.past) <= site.past
    ensures site.WentOn(w, i, op, err) && Called(site, w, i, luck, x, op, err)
    ensures site.Sent(w) == old(site.Sent(w)) + if luck.running.Acked? then 1 else 0
  {
    op, x := Operation(Running, None, 1), NOTHING.exchange;
    err := site.Update(w, i, op, ThenCall, luck.running);
    if err.Some? {
      FinishGoesOn(site.c, i, StoreFailure);
    } else {
      op, err, x := RequestDroplet(site, w, i, luck);
    }
  }

  /** The request and what follows it. */
  method RequestDroplet(site: Site, w: WorkerId, i: nat, luck: Luck)
    returns (op: Operation, err: Option<Error>, ghost x: Exchange)
    requires site.Valid() && i < |site.c.regions|
    requires PcOf(site.s, w) == AtCall(i, Operation(Running, None, 1))
    modifies site
    ensures site.Valid() && old(site.trace) <= site.trace && old(site.past) <= site.past
    ensures site.WentOn(w, i, op, err) && Requested(site, w, i, luck, x, op, err)
    ensures site.Sent(w) == old(site.Sent(w)) + 1
  {
    op := Operation(Running, None, 1);
    var id: ProviderId;
    id, err, x := site.CreateDroplet(w, i, op, luck.answer);
    if err.Some? {
      op := RecordFailure(site, w, i, op, err.value, luck.stored);
    } else {
      op, err := Conclude(site, w, i, op.(resource := Some(id)), luck);
    }
  }

  /** After the provider has answered with an error. */
  method RecordFailure(site: Site, w: WorkerId, i: nat, running: Operation, e: Error, stored: StoreReply) returns (op: Operation)
    requires site.Valid() && PcOf(site.s, w) == AfterError(i, running, e) && i < |site.c.regions|
    modifies site
    ensures site.Valid() && old(site.trace) <= site.trace && old(site.past) <= site.past
    ensures op == running.(state := if TurnedDown(e) then Failed else OpState.Unknown)
    ensures site.WentOn(w, i, op, Some(e)) && site.Wrote(w, site.c.regions[i], op, stored)
    ensures site.Sent(w) == old(site.Sent(w))
  {
    FinishGoesOn(site.c, i, e);
    DefiniteByStatus(e);
    op := running.(state := if ClassifyError(e) == Permanent || e.MutationBlocked? then Failed else OpState.Unknown);
    var _ := site.Update(w, i, op, ThenReturn(e), stored);
  }

  /** After the provider has created a droplet. */
  method Conclude(site: Site, w: WorkerId, i: nat, created: Operation, luck: Luck) returns (op: Operation, err: Option<Error>)
    requires site.Valid() && PcOf(site.s, w) == PostEgress(i, created) && i < |site.c.regions| && created.resource.Some?
    modifies site
    ensures site.Valid() && old(site.trace) <= site.trace && old(site.past) <= site.past
    ensures site.WentOn(w, i, op, err)
    ensures op == created.(state := if luck.egressAfter then Verifying else OpState.Unknown)
    ensures err == if !luck.egressAfter then Some(EgressChanged) else if luck.stored.Acked? then None else Some(StoreFailure)
    ensures site.Wrote(w, site.c.regions[i], op, luck.stored)
    ensures site.Sent(w) == old(site.Sent(w))
  {
    FinishGoesOn(site.c, i, EgressChanged);
    FinishGoesOn(site.c, i, StoreFailure);
    err := site.CheckEgress(w, luck.egressAfter);
    if err.Some? {
      op := created.(state := OpState.Unknown);
      var _ := site.Update(w, i, op, ThenReturn(err.value), luck.stored);
      return;
    }
    op := created.(state := Verifying);
    err := site.Update(w, i, op, ThenSucceed, luck.stored);
  }

  /** The outcome of the attempt of the run that inserted the row. */
  ghost predicate Attempted(site: Site, w: WorkerId, i: nat, luck: Luck, x: Exchange, op: Operation, err: Option<Error>)
    requires i < |site.c.regions|
    reads site
  {
    match luck.egressBefore
    case true => Called(site, w, i, luck, x, op, err)
    case false =>
      && op == Operation(OpState.Unknown, None, 0) && err == Some(EgressChanged)
      && site.Wrote(w, site.c.regions[i], op, luck.stored)
  }

  /** The outcome for a run that found the row of another: only an unknown row without a
      droplet is taken up, any other is returned as it was read. */
  ghost predicate Found(site: Site, w: WorkerId, i: nat, luck: Luck, story: Story, op: Operation, err: Option<Error>)
    requires i < |site.c.regions|
    reads site
  {
    var r := site.c.regions[i];
    && site.Saw(story.read, w, Select(true)) && story.asked < story.read && r in site.BooksAt(story.read).ledger
    && match site.BooksAt(story.read).ledger[r]
       case Operation(Unknown, None, n) => Adoption(site, w, i, luck, Operation(OpState.Unknown, None, n), story, op, err)
       case row => op == row && err.None?
  }

  /** The attempt of a run that inserted the row. */
  method Attempt(site: Site, w: WorkerId, i: nat, planned: Operation, luck: Luck)
    returns (op: Operation, err: Option<Error>, ghost x: Exchange)
    requires site.Valid() && PcOf(site.s, w) == PreEgress(i, planned) && i < |site.c.regions|
    requires planned == Operation(Planned, None, 0)
    modifies site
    ensures site.Valid() && old(site.trace) <= site.trace && old(site.past) <= site.past
    ensures site.WentOn(w, i, op, err) && Attempted(site, w, i, luck, x, op, err)
    ensures site.Sent(w) == old(site.Sent(w)) + if luck.egressBefore && luck.running.Acked? then 1 else 0
  {
    op, x := planned, NOTHING.exchange;
    err := site.CheckEgress(w, luck.egressBefore);
    if err.Some? {
      op := op.(state := OpState.Unknown);
      var _ := site.Update(w, i, op, ThenReturn(err.value), luck.stored);
      FinishGoesOn(site.c, i, EgressChanged);
    } else {
      op, err, x := CallProvider(site, w, i, luck);
    }
  }

  /** The attempt of a run that found the row of another. */
  method Revisit(site: Site, w: WorkerId, i: nat, row: Operation, luck: Luck, ghost asked: nat, ghost read: nat)
    returns (op: Operation, err: Option<Error>, ghost story: Story)
    requires site.Valid() && PcOf(site.s, w) == AfterSelect(row, i) && i < |site.c.regions| && luck.selected
    requires luck.listing.Unlisted? ==> FromGet(luck.listing.error)
    requires site.Saw(read, w, Select(true)) && asked < read
    requires site.c.regions[i] in site.BooksAt(read).ledger && row == site.BooksAt(read).ledger[site.c.regions[i]]
    modifies site
    ensures site.Valid() && old(site.trace) <= site.trace && old(site.past) <= site.past && story.asked == asked
    ensures site.WentOn(w, i, op, err) && Found(site, w, i, luck, story, op, err)
    ensures site.Sent(w) == old(site.Sent(w))
  {
    op, err, story := row, None, NOTHING;
    if op.state.Unknown? && op.resource.None? {
      op, err, story := AdoptUnknownCreate(site, w, i, op, luck);
    }
    story := story.(asked := asked, read := read);
  }

  /** What follows the reservation: a new row is attempted, the row of another revisited. */
  method Proceed(site: Site, w: WorkerId, i: nat, row: Operation, isNew: bool, luck: Luck, ghost asked: nat, ghost read: nat)
    returns (op: Operation, err: Option<Error>, ghost story: Story)
    requires site.Valid() && i < |site.c.regions|
    requires luck.listing.Unlisted? ==> FromGet(luck.listing.error)
    requires isNew ==> PcOf(site.s, w) == PreEgress(i, row) && row == Operation(Planned, None, 0)
    requires !isNew ==> luck.selected && PcOf(site.s, w) == AfterSelect(row, i) && asked < read && site.Saw(read, w, Select(true))
    requires !isNew ==> site.c.regions[i] in site.BooksAt(read).ledger && row == site.BooksAt(read).ledger[site.c.regions[i]]
    modifies site
    ensures site.Valid() && old(site.trace) <= site.trace && old(site.past) <= site.past
    ensures site.WentOn(w, i, op, err) && story.asked == asked
    ensures if isNew then Attempted(site, w, i, luck, story.exchange, op, err) else Found(site, w, i, luck, story, op, err)
    ensures site.Sent(w) == old(site.Sent(w)) + if isNew && luck.egressBefore && luck.running.Acked? then 1 else 0
  {
    if isNew {
      ghost var x;
      op, err, x := Attempt(site, w, i, row, luck);
      story := NOTHING.(asked := asked, exchange := x);
    } else {
      op, err, story := Revisit(site, w, i, row, luck, asked, read);
    }
  }

  /** How an attempt behind the gate ends. */
  ghost predicate Executed(site: Site, w: WorkerId, i: nat, luck: Luck, story: Story, op: Operation, err: Option<Error>)
    requires i < |site.c.regions|
    reads site
  {
    && site.Saw(story.asked, w, Insert(luck.insert))
    && match luck.insert
       case Acked =>
         if site.c.regions[i] !in site.BooksAt(story.asked).ledger then Attempted(site, w, i, luck, story.exchange, op, err)
         else if luck.selected then Found(site, w, i, luck, story, op, err)
         else err == Some(StoreFailure)
       case _ => err == Some(StoreFailure)
  }

  /** A request is sent exactly for a new row, with the egress as expected and the running
      row in the store. */
  ghost predicate Sends(site: Site, i: nat, luck: Luck, asked: nat)
    requires i < |site.c.regions| && asked < |site.past|
    reads site
  {
    luck.insert.Acked? && site.c.regions[i] !in site.BooksAt(asked).ledger && luck.egressBefore && luck.running.Acked?
  }

  /** An attempt behind the gate. */
  method Execute(site: Site, w: WorkerId, i: nat, luck: Luck)
    returns (op: Operation, err: Option<Error>, ghost story: Story)
    requires site.Valid() && PcOf(site.s, w) == AtInsert(i) && i < |site.c.regions|
    requires luck.listing.Unlisted? ==> FromGet(luck.listing.error)
    modifies site
    ensures site.Valid() && old(site.trace) <= site.trace && old(site.past) <= site.past && site.WentOn(w, i, op, err)
    ensures |old(site.trace)| <= story.asked && Executed(site, w, i, luck, story, op, err)
    ensures site.Sent(w) == old(site.Sent(w)) + if Sends(site, i, luck, story.asked) then 1 else 0
  {
    var isNew: bool;
    ghost var asked, read;
    op, isNew, err, asked, read := site.Reserve(w, i, luck);
    story := NOTHING.(asked := asked);
    if err.Some? {
      FinishGoesOn(site.c, i, StoreFailure);
    } else {
      op, err, story := Proceed(site, w, i, op, isNew, luck, asked, read);
    }
  }

  /** One attempt to create the droplet in region `i`. A closed gate ends it before anything
      is stored; a request is sent exactly when the row is new, the egress is the expected
      one and the running row was stored. */
  method ExecutorCreate(site: Site, w: WorkerId, i: nat, luck: Luck)
    returns (op: Operation, err: Option<Error>, ghost story: Story)
    requires site.Valid() && PcOf(site.s, w) == AtInsert(i) && i < |site.c.regions|
    requires luck.listing.Unlisted? ==> FromGet(luck.listing.error)
    modifies site
    ensures site.Valid() && old(site.trace) <= site.trace && old(site.past) <= site.past && site.WentOn(w, i, op, err)
    ensures !luck.allowed ==> err == Some(MutationBlocked) && site.Looked(w, Blocked)
    ensures luck.allowed ==> |old(site.trace)| <= story.asked && Executed(site, w, i, luck, story, op, err)
    ensures site.Sent(w) == old(site.Sent(w)) + if luck.allowed && Sends(site, i, luck, story.asked) then 1 else 0
  {
    if luck.allowed {
      op, err, story := Execute(site, w, i, luck);
    } else {
      op, err, story := FRESH, Some(MutationBlocked), NOTHING;
      site.Act(w, Blocked);
      FinishGoesOn(site.c, i, MutationBlocked);
    }
  }

  /** The create step of the workflow, one run of the protocol from start to return.
      Whatever the other workers and the provider do meanwhile, it returns no error only
      with the one droplet of the deployment, and an error for want of capacity only when
      it has tried every region of the list. */
  method Create(site: Site, w: WorkerId, luck: nat -> Luck) returns (provider: Option<ProviderId>, err: Option<Error>)
    requires site.Valid() && Resting(PcOf(site.s, w))
    requires forall n :: luck(n).listing.Unlisted? ==> FromGet(luck(n).listing.error)
    modifies site
    ensures site.Valid() && old(site.trace) + [Start(w)] <= site.trace && old(site.past) <= site.past
    ensures PcOf(site.s, w) == Returned(err, provider)
    ensures err.None? <==> provider.Some?
    ensures provider.Some? ==> CreatedIds(site.s.books) == {provider.value}
    ensures |CreatedIds(site.s.books)| <= 1
    ensures Tried(site.c, site.trace, w) <= site.c.regions
    ensures err.Some? && LacksCapacity(err.value) ==> Tried(site.c, site.trace, w) == site.c.regions
  {
    site.Step(Start(w));
    var result := FRESH;
    var i := 0;
    while true
      invariant i < |site.c.regions|
      invariant site.Valid() && old(site.trace) + [Start(w)] <= site.trace && old(site.past) <= site.past
      invariant PcOf(site.s, w) == AtInsert(i)
      decreases |site.c.regions| - i
    {
      ghost var story;
      result, err, story := ExecutorCreate(site, w, i, luck(i));
      ExecutionsAreRuns(site.c, site.past, site.trace);
      AtMostOneDroplet(site.c, site.trace);
      CapacityIsFinal(site.c, site.trace, w);
      if err.None? && result.resource.Some? { break; }
      if err.None? { return None, Some(OutcomeStillUnknown); }
      AdvancesExactly(err.value);
      CapacityByWords(err.value);
      var class_ := ClassifyError(err.value);
      if class_ != Permanent || !IsCapacityError(err.value) || i == |site.c.regions| - 1 { return None, err; }
      i := i + 1;
    }
    SuccessfulRunsAgree(site.c, site.trace, w, w, result.resource.value, result.resource.value);
    provider := result.resource;
  }

  // ---- recovery ----

  /** Whether the droplet is in a fresh snapshot or, without one, in the provider's answer. */
  method SeenAlive(id: ProviderId, snapshot: Option<seq<ProviderId>>, live: bool) returns (alive: bool)
    ensures alive <==> if snapshot.Some? then id in snapshot.value else live
  {
    if snapshot.None? { return live; }
    alive := false;
    for n := 0 to |snapshot.value|
      invariant alive <==> id in snapshot.value[..n]
    {
      if snapshot.value[n] == id { alive := true; break; }
    }
  }

  /** The latest event stores the verdict on droplet `id`, and event `read` looked it up: the
      row keeps its droplet and turns succeeded if that is alive, and unknown if not. */
  ghost predicate Judged(site: Site, w: WorkerId, r: Region, alive: bool, read: nat, reply: StoreReply)
    reads site
  {
    && site.Saw(read, w, RecoverRead(r, alive)) && |site.past| > 1 && r in site.Before().ledger
    && site.Wrote(w, r, site.Before().ledger[r].(state := if alive then Succeeded else OpState.Unknown), reply)
  }

  /** Recovery of one create operation: the row keeps its droplet, and its state becomes
      what the snapshot or, without one, the provider shows of exactly that droplet. */
  method RecoverCreate(site: Site, w: WorkerId, r: Region, snapshot: Option<seq<ProviderId>>, live: Option<bool>, reply: StoreReply)
    returns (ghost read: nat)
    requires site.Valid() && Resting(PcOf(site.s, w))
    modifies site
    ensures site.Valid() && old(site.trace) <= site.trace && old(site.past) <= site.past
    ensures Resting(PcOf(site.s, w)) && site.Sent(w) == old(site.Sent(w))
    ensures r in old(site.s.books.ledger) && old(site.s.books.ledger)[r].resource.Some? ==>
              r in site.s.books.ledger && site.s.books.ledger[r].resource == old(site.s.books.ledger)[r].resource
    ensures r in old(site.s.books.ledger) && old(site.s.books.ledger)[r].resource.Some? && (snapshot.Some? || live.Some?) ==>
              && |old(site.trace)| <= read
              && var id := old(site.s.books.ledger)[r].resource.value;
                 Judged(site, w, r, if snapshot.Some? then id in snapshot.value else live.value, read, reply)
  {
    read := 0;
    ghost var before, books0 := |site.trace|, site.s.books;
    site.Others(w);
    if r in books0.ledger && books0.ledger[r].resource.Some? { KeptSince(site, before, r); }
    var books := site.s.books;
    if r in books.ledger && books.ledger[r].resource.Some? && (snapshot.Some? || live.Some?) {
      read := WriteVerdict(site, w, r, books.ledger[r].resource.value, snapshot, live, reply);
    }
    if r in books0.ledger && books0.ledger[r].resource.Some? { KeptSince(site, before, r); }
  }

  method WriteVerdict(site: Site, w: WorkerId, r: Region, id: ProviderId, snapshot: Option<seq<ProviderId>>, live: Option<bool>,
                      reply: StoreReply)
    returns (ghost read: nat)
    requires site.Valid() && Resting(PcOf(site.s, w)) && (snapshot.Some? || live.Some?)
    requires r in site.s.books.ledger && site.s.books.ledger[r].resource == Some(id)
    modifies site
    ensures site.Valid() && old(site.trace) <= site.trace && old(site.past) <= site.past && Resting(PcOf(site.s, w))
    ensures read == |old(site.trace)| && site.Sent(w) == old(site.Sent(w))
    ensures Judged(site, w, r, if snapshot.Some? then id in snapshot.value else live.value, read, reply)
  {
    var alive := SeenAlive(id, snapshot, live.Some? && live.value);
    read := |site.trace|;
    site.Step(Do(w, RecoverRead(r, alive)));
    site.StoreState(w, r, if alive then Succeeded else OpState.Unknown, reply);
  }

  /** How the verification of a row ends that is verifying or unknown. */
  ghost predicate Compared(site: Site, w: WorkerId, r: Region, row: Operation, listed: Option<seq<ProviderId>>, reply: StoreReply,
                           op: Operation, err: Option<Error>)
    reads site
  {
    if listed.None? then op == row && err == Some(Request)
    else if row.resource.Some? && row.resource.value in listed.value then
      && op == Operation(Succeeded, row.resource, row.attempt) && site.Wrote(w, r, op, reply)
      && err == if reply.Acked? then None else Some(StoreFailure)
    else op == row && err == Some(OutcomeStillUnknown)
  }

  /** Verification of a row: read, list, compare and write, with others in between. A row
      whose droplet is listed is stored as succeeded; anything else leaves it alone. */
  method VerifyCreate(site: Site, w: WorkerId, r: Region, listed: Option<seq<ProviderId>>, reply: StoreReply)
    returns (op: Operation, err: Option<Error>)
    requires site.Valid() && Resting(PcOf(site.s, w)) && r in site.s.books.ledger
    modifies site
    ensures site.Valid() && old(site.trace) <= site.trace && old(site.past) <= site.past
    ensures Resting(PcOf(site.s, w)) && site.Sent(w) == old(site.Sent(w))
    ensures var row := old(site.s.books.ledger)[r];
      && (row.resource.Some? ==> r in site.s.books.ledger && site.s.books.ledger[r].resource == row.resource)
      && if row.state.Verifying? || row.state.Unknown? then Compared(site, w, r, row, listed, reply, op, err)
         else op == row && err.None?
  {
    ghost var before := |site.trace|;
    op, err := site.s.books.ledger[r], None;
    ghost var row := op;
    if op.state.Verifying? || op.state.Unknown? {
      site.Step(Do(w, VerifyLoad(r)));
      op, err := CompareAndStore(site, w, r, op, listed, reply);
    }
    if row.resource.Some? { KeptSince(site, before, r); }
  }

  method CompareAndStore(site: Site, w: WorkerId, r: Region, row: Operation, listed: Option<seq<ProviderId>>, reply: StoreReply)
    returns (op: Operation, err: Option<Error>)
    requires site.Valid() && PcOf(site.s, w) == AtCheck(r, row) && (row.state.Verifying? || row.state.Unknown?)
    modifies site
    ensures site.Valid() && old(site.trace) <= site.trace && old(site.past) <= site.past && PcOf(site.s, w) == Idle
    ensures Compared(site, w, r, row, listed, reply, op, err) && site.Sent(w) == old(site.Sent(w))
  {
    op := row;
    var found := listed.Some? && op.resource.Some? && op.resource.value in listed.value;
    site.Act(w, VerifyRead(found));
    if listed.None? {
      err := Some(Request);
    } else if !found {
      err := Some(OutcomeStillUnknown);
    } else {
      op := op.(state := Succeeded);
      err := site.StoreVerified(w, r, op, reply);
    }
  }
}
