/**
  The scheduler loop: which claimed schedules start a deployment, and how starts of one
  account are spaced. What the queries read is given as an observation for each item.
 */
module SchedulerEngine {
  import opened Wrappers
  import opened SchedulerLeases

  /** What one pass reads of an account and its provider snapshot, how the start and the
      write of next_build_at end, and the random draw. */
  datatype Observation = Observation(
    readable: bool, enabled: bool, isReady: bool,
    counted: bool, limit: int, inUse: int, pending: int, desired: int, managed: int, preCreate: int,
    spacingMin: int, spacingMax: int, snapshotAt: Option<int>,
    started: bool, draw: nat, stored: StoreReply, completed: StoreReply)

  /** A deployment started at time `at`, with the spacing drawn for the next one. */
  datatype Start = Start(account: AccountId, at: int, minutes: int, stored: bool, seen: Observation)

  /** accounts.next_build_at, NULL where absent, and the starts so far. */
  datatype Board = Board(nextBuild: map<AccountId, int>, starts: seq<Start>)

  // ---- the specification ----

  predicate Fresh(o: Observation, now: int) {
    o.snapshotAt.Some? && now - o.snapshotAt.value <= 2 * MINUTE
  }

  predicate Open(b: Board, a: AccountId, now: int) {
    a in b.nextBuild ==> now >= b.nextBuild[a]
  }

  /** The account may have one more deployment now. */
  predicate MayStart(b: Board, a: AccountId, now: int, o: Observation) {
    && o.readable && o.enabled && o.isReady && o.counted && Fresh(o, now)
    && o.desired - o.managed - o.preCreate >= 1
    && Open(b, a, now)
    && o.limit - o.inUse - o.pending >= 1
  }

  /** spacingMin plus a draw that stays within spacingMax. */
  function Minutes(o: Observation): (m: int)
    ensures o.spacingMin <= m <= if o.spacingMax < o.spacingMin then o.spacingMin else o.spacingMax
  {
    if o.spacingMax > o.spacingMin then o.spacingMin + o.draw % (o.spacingMax - o.spacingMin + 1) else o.spacingMin
  }

  function Tick(b: Board, a: AccountId, now: int, o: Observation): Board {
    if !MayStart(b, a, now, o) || !o.started then b
    else
      Board(if o.stored.Refused? then b.nextBuild else b.nextBuild[a := now + Minutes(o) * MINUTE],
            b.starts + [Start(a, now, Minutes(o), !o.stored.Refused?, o)])
  }

  /** Every gate of the account is open: it is ready, its snapshot is at most two minutes old,
      a deployment is needed, the spacing is over and a droplet is free. */
  ghost predicate Admitted(b: Board, a: AccountId, now: int, o: Observation) {
    && o.readable && o.enabled && o.isReady && o.counted
    && o.snapshotAt.Some? && now - o.snapshotAt.value <= 120_000_000_000
    && o.desired > o.managed + o.preCreate && o.limit > o.inUse + o.pending
    && (a in b.nextBuild ==> now >= b.nextBuild[a])
  }

  /** One item: exactly when every gate is open and the start succeeds, one deployment is
      started, and the next one is put off by a spacing within the configured bounds. */
  ghost predicate Considered(b: Board, c: Board, a: AccountId, now: int, o: Observation) {
    match Admitted(b, a, now, o) && o.started
    case true =>
      && |c.starts| == |b.starts| + 1
      && var m := c.starts[|b.starts|].minutes;
      && c.starts == b.starts + [Start(a, now, m, !o.stored.Refused?, o)]
      && o.spacingMin <= m && (m <= o.spacingMax || m == o.spacingMin)
      && (o.draw <= o.spacingMax - o.spacingMin ==> m == o.spacingMin + o.draw)
      && c.nextBuild == if o.stored.Refused? then b.nextBuild else b.nextBuild[a := now + m * 60_000_000_000]
    case false => c == b
  }

  lemma TickConsiders(b: Board, a: AccountId, now: int, o: Observation)
    ensures Considered(b, Tick(b, a, now, o), a, now, o)
  {
    if o.draw <= o.spacingMax - o.spacingMin {
      assert o.draw % (o.spacingMax - o.spacingMin + 1) == o.draw;
    }
  }

  function Ticks(b: Board, items: seq<(ScheduleId, Schedule)>, now: int, os: seq<Observation>): Board
    requires |os| == |items|
  {
    if items == [] then b
    else Tick(Ticks(b, items[..|items| - 1], now, os[..|items| - 1]), items[|items| - 1].1.account, now, os[|items| - 1])
  }

  function CompletedAll(rows: Rows, items: seq<(ScheduleId, Schedule)>, now: int, os: seq<Observation>): Rows
    requires |os| == |items|
  {
    if items == [] then rows
    else
      var before := CompletedAll(rows, items[..|items| - 1], now, os[..|items| - 1]);
      var x := items[|items| - 1];
      if os[|items| - 1].completed.Refused? then before else Completed(before, x.0, x.1.interval, now)
  }

  /** What a claim hands to the loop, and the rows it leaves. */
  function Claimed(rows: Rows, answer: seq<ScheduleId>, commit: StoreReply): (items: seq<(ScheduleId, Schedule)>)
    requires forall n :: 0 <= n < |answer| ==> answer[n] in rows
    ensures |items| <= |answer|
  {
    if commit.Acked? then seq(|answer|, n requires 0 <= n < |answer| => (answer[n], rows[answer[n]])) else []
  }

  function AfterClaim(rows: Rows, answer: seq<ScheduleId>, now: int, commit: StoreReply): Rows {
    if commit.Refused? then rows else Leased(rows, SetOf(answer), now + MINUTE)
  }

  /** The schedule is completed at time `now`. */
  ghost predicate Rested(rows: Rows, id: ScheduleId, interval: int, now: int) {
    id in rows && rows[id].nextRun == now + interval && rows[id].lastRun == Some(now) && rows[id].leaseUntil.None?
  }

  // ---- the loop ----

  class Engine {
    const leases: LeaseStore
    var nextBuild: map<AccountId, int>
    ghost var starts: seq<Start>

    ghost function State(): Board reads this {
      Board(nextBuild, starts)
    }

    constructor (leases: LeaseStore)
      ensures State() == Board(map[], []) && this.leases == leases
    {
      this.leases := leases;
      nextBuild, starts := map[], [];
    }

    /** One claimed item: gates, clamps, at most one start. */
    method Consider(a: AccountId, now: int, o: Observation)
      modifies this
      ensures Considered(old(State()), State(), a, now, o)
      ensures State() == Tick(old(State()), a, now, o)
    {
      TickConsiders(State(), a, now, o);
      if !o.readable || !o.enabled || !o.isReady { return; }
      if !o.counted { return; }
      if o.snapshotAt.None? || now - o.snapshotAt.value > 2 * MINUTE { return; }
      var needed := o.desired - o.managed - o.preCreate;
      if needed <= 0 { return; }
      if a in nextBuild && now < nextBuild[a] { return; }
      var allowed := 1;
      if allowed > needed { allowed := needed; }
      var available := o.limit - o.inUse - o.pending;
      if available < 0 { available := 0; }
      if allowed > available { allowed := available; }
      for i := 0 to allowed
        invariant State() == if i == 0 then old(State()) else Tick(old(State()), a, now, o)
      {
        if o.started {
          var spacingMax := o.spacingMax;
          if spacingMax < o.spacingMin { spacingMax := o.spacingMin; }
          var minutes := o.spacingMin;
          if spacingMax > o.spacingMin { minutes := minutes + o.draw % (spacingMax - o.spacingMin + 1); }
          if !o.stored.Refused? { nextBuild := nextBuild[a := now + minutes * MINUTE]; }
          starts := starts + [Start(a, now, minutes, !o.stored.Refused?, o)];
        }
      }
    }

    /** Every claimed item is considered once, in order, and completed at the pass's time. The
        boards are those between the items. */
    method RunDue(now: int, answer: seq<ScheduleId>, commit: StoreReply, os: seq<Observation>) returns (ghost boards: seq<Board>)
      requires IsAnswer(leases.rows, now, 100, answer) && |os| == |answer|
      modifies this, leases
      ensures |boards| - 1 == if commit.Acked? then |answer| else 0
      ensures boards[0] == old(State()) && boards[|boards| - 1] == State()
      ensures forall n :: 0 <= n < |boards| - 1 ==>
                Considered(boards[n], boards[n + 1], old(leases.rows)[answer[n]].account, now, os[n])
      ensures forall n :: 0 <= n < |boards| - 1 && !os[n].completed.Refused? ==>
                Rested(leases.rows, answer[n], old(leases.rows)[answer[n]].interval, now)
      ensures var items := Claimed(old(leases.rows), answer, commit);
        && State() == Ticks(old(State()), items, now, os[..|items|])
        && leases.rows == CompletedAll(AfterClaim(old(leases.rows), answer, now, commit), items, now, os[..|items|])
    {
      ghost var before, table := State(), leases.rows;
      var items := leases.ClaimDue(now, 100, MINUTE, answer, commit);
      assert items == Claimed(table, answer, commit);
      RunItems(items, now, os);
      ghost var seen := os[..|items|];
      boards := Boards(before, items, now, seen);
      assert items[..|items|] == items && seen[..|items|] == seen;
      AllRest(AfterClaim(table, answer, now, commit), items, now, seen);
    }

    method RunItems(items: seq<(ScheduleId, Schedule)>, now: int, os: seq<Observation>)
      requires |items| <= |os|
      modifies this, leases
      ensures State() == Ticks(old(State()), items, now, os[..|items|])
      ensures leases.rows == CompletedAll(old(leases.rows), items, now, os[..|items|])
    {
      ghost var before := State();
      ghost var rows := leases.rows;
      for n := 0 to |items|
        invariant State() == Ticks(before, items[..n], now, os[..n])
        invariant leases.rows == CompletedAll(rows, items[..n], now, os[..n])
      {
        assert items[..n + 1][..n] == items[..n] && os[..n + 1][..n] == os[..n];
        var (id, x) := items[n];
        Consider(x.account, now, os[n]);
        var _ := leases.Complete(id, x.interval, now, os[n].completed);
      }
      assert items[..|items|] == items;
    }
  }

  /** The boards between the items of a pass. */
  ghost function Boards(b: Board, items: seq<(ScheduleId, Schedule)>, now: int, os: seq<Observation>): (bs: seq<Board>)
    requires |os| == |items|
    ensures |bs| == |items| + 1 && bs[0] == b && bs[|items|] == Ticks(b, items, now, os)
    ensures forall n :: 0 <= n < |items| ==> Considered(bs[n], bs[n + 1], items[n].1.account, now, os[n])
  {
    if items == [] then [b]
    else
      var k := |items| - 1;
      var bs := Boards(b, items[..k], now, os[..k]);
      TickConsiders(bs[k], items[k].1.account, now, os[k]);
      bs + [Tick(bs[k], items[k].1.account, now, os[k])]
  }

  /** A completed schedule rests, whatever the later items of the pass are. */
  lemma {:induction false} AllRest(rows: Rows, items: seq<(ScheduleId, Schedule)>, now: int, os: seq<Observation>)
    requires |os| == |items|
    requires forall n :: 0 <= n < |items| ==> items[n].0 in rows
    requires forall m, n :: 0 <= m < n < |items| ==> items[m].0 != items[n].0
    ensures CompletedAll(rows, items, now, os).Keys == rows.Keys
    ensures forall n :: 0 <= n < |items| && !os[n].completed.Refused? ==>
              Rested(CompletedAll(rows, items, now, os), items[n].0, items[n].1.interval, now)
  {
    if items != [] { AllRest(rows, items[..|items| - 1], now, os[..|items| - 1]); }
  }

  // ---- the theorems ----

  /** One item of one pass: of any account, at any time, over any number of passes. */
  datatype Pass = Pass(account: AccountId, now: int, seen: Observation)

  const EMPTY_BOARD: Board := Board(map[], [])

  function After(ps: seq<Pass>): Board {
    if ps == [] then EMPTY_BOARD
    else var p := ps[|ps| - 1]; Tick(After(ps[..|ps| - 1]), p.account, p.now, p.seen)
  }

  /** After any passes, one more item starts a deployment exactly when every gate is open and
      the start succeeds. */
  lemma {:induction false} StartsExactly(ps: seq<Pass>, p: Pass)
    ensures Considered(After(ps), After(ps + [p]), p.account, p.now, p.seen)
  {
    assert (ps + [p])[..|ps|] == ps;
  }

  function StartsOf(starts: seq<Start>, a: AccountId): (own: seq<Start>)
    ensures forall n :: 0 <= n < |own| ==> own[n].account == a
  {
    if starts == [] then []
    else StartsOf(starts[..|starts| - 1], a) + if starts[|starts| - 1].account == a then [starts[|starts| - 1]] else []
  }

  ghost predicate Gap(s: Start, t: Start) {
    s.stored ==> t.at >= s.at + s.minutes * MINUTE
  }

  ghost predicate Spaced(own: seq<Start>) {
    forall n :: 0 < n < |own| ==> Gap(own[n - 1], own[n])
  }

  /** The row still shows the end of the spacing of the last start, if it was written. */
  ghost predicate Shown(b: Board, a: AccountId) {
    var own := StartsOf(b.starts, a);
    own != [] && own[|own| - 1].stored ==>
      a in b.nextBuild && b.nextBuild[a] == own[|own| - 1].at + own[|own| - 1].minutes * MINUTE
  }

  ghost predicate Justified(s: Start) {
    s.seen.desired - s.seen.managed - s.seen.preCreate >= 1 && s.seen.limit - s.seen.inUse - s.seen.pending >= 1
    && s.seen.enabled && s.seen.isReady && Fresh(s.seen, s.at) && s.seen.spacingMin <= s.minutes
  }

  /** Consecutive starts of an account are at least the drawn spacing apart whenever the
      write of next_build_at took effect; and every start had a need, a free slot and a
      snapshot at most two minutes old. */
  lemma {:induction false} StartsAreSpaced(ps: seq<Pass>, a: AccountId)
    ensures Spaced(StartsOf(After(ps).starts, a)) && Shown(After(ps), a)
    ensures forall n :: 0 <= n < |After(ps).starts| ==> Justified(After(ps).starts[n])
  {
    if ps != [] {
      StartsAreSpaced(ps[..|ps| - 1], a);
      var p := ps[|ps| - 1];
      TickSpaced(After(ps[..|ps| - 1]), p.account, p.now, p.seen, a);
    }
  }

  lemma TickSpaced(b: Board, x: AccountId, now: int, o: Observation, a: AccountId)
    requires Spaced(StartsOf(b.starts, a)) && Shown(b, a)
    requires forall n :: 0 <= n < |b.starts| ==> Justified(b.starts[n])
    ensures var c := Tick(b, x, now, o);
      Spaced(StartsOf(c.starts, a)) && Shown(c, a) && forall n :: 0 <= n < |c.starts| ==> Justified(c.starts[n])
  {
    if MayStart(b, x, now, o) && o.started {
      var s := Start(x, now, Minutes(o), !o.stored.Refused?, o);
      assert (b.starts + [s])[..|b.starts|] == b.starts;
      assert Justified(s);
      assert StartsOf(b.starts + [s], a) == StartsOf(b.starts, a) + if x == a then [s] else [];
    }
  }

  /** k starts of one account span at least k - 1 spacings, when every write of
      next_build_at took effect and the configured spacing was never below m minutes. */
  lemma {:induction false} StartsSpan(ps: seq<Pass>, a: AccountId, m: int)
    requires forall n :: 0 <= n < |StartsOf(After(ps).starts, a)| ==>
               StartsOf(After(ps).starts, a)[n].stored && StartsOf(After(ps).starts, a)[n].seen.spacingMin >= m
    requires StartsOf(After(ps).starts, a) != []
    ensures var own := StartsOf(After(ps).starts, a);
      own[|own| - 1].at - own[0].at >= (|own| - 1) * m * MINUTE
  {
    StartsAreSpaced(ps, a);
    OwnAreJustified(After(ps).starts, a);
    SpanOf(StartsOf(After(ps).starts, a), m);
  }

  lemma {:induction false} OwnAreJustified(starts: seq<Start>, a: AccountId)
    requires forall n :: 0 <= n < |starts| ==> Justified(starts[n])
    ensures forall n :: 0 <= n < |StartsOf(starts, a)| ==> Justified(StartsOf(starts, a)[n])
  {
    if starts != [] { OwnAreJustified(starts[..|starts| - 1], a); }
  }

  lemma {:induction false} SpanOf(own: seq<Start>, m: int)
    requires own != [] && Spaced(own)
    requires forall n :: 0 <= n < |own| ==> own[n].stored && own[n].seen.spacingMin >= m && Justified(own[n])
    ensures own[|own| - 1].at - own[0].at >= (|own| - 1) * m * MINUTE
  {
    var k := |own| - 1;
    if k > 0 {
      SpanOf(own[..k], m);
      assert Gap(own[k - 1], own[k]);
      assert (k - 1) * m * MINUTE + m * MINUTE == k * m * MINUTE;
    }
  }

  /** The write of next_build_at is not checked. The spacing after a start holds for
      whatever pass comes next exactly when that write took effect. */
  lemma SpacingHoldsExactlyWhenStored(b: Board, a: AccountId, now: int, o: Observation)
    requires MayStart(b, a, now, o) && o.started && Minutes(o) > 0
    ensures (forall later, p :: MayStart(Tick(b, a, now, o), a, later, p) ==> later >= now + Minutes(o) * MINUTE)
       <==> !o.stored.Refused?
  {
    if o.stored.Refused? {
      assert MayStart(Tick(b, a, now, o), a, now, o);
    } else {
      forall later, p | MayStart(Tick(b, a, now, o), a, later, p) ensures later >= now + Minutes(o) * MINUTE {
        assert Open(Tick(b, a, now, o), a, later);
      }
    }
  }
}
