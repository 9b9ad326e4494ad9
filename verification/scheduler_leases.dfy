/** Leases on schedules, claimed and completed by any number of scheduler processes. */
module SchedulerLeases {
  import opened Wrappers

  type ScheduleId = nat
  type AccountId = nat

  /** A row of the schedules table. Times are in nanoseconds. */
  datatype Schedule = Schedule(
    account: AccountId, enabled: bool, interval: int, nextRun: int, lastRun: Option<int>, leaseUntil: Option<int>)

  type Rows = map<ScheduleId, Schedule>

  const MINUTE: int := 60_000_000_000

  function EffectiveLimit(limit: int): (n: nat)
    ensures n >= 1
  {
    if limit < 1 then 100 else limit
  }

  function EffectiveLease(lease: int): (l: int)
    ensures l > 0
  {
    if lease <= 0 then MINUTE else lease
  }

  predicate Due(x: Schedule, now: int) {
    x.enabled && x.nextRun <= now && (x.leaseUntil.None? || x.leaseUntil.value < now)
  }

  /** What the claiming query may return: due rows, none twice, the earliest first, and no
      more than the limit. Rows that others hold locked are skipped. */
  ghost predicate IsAnswer(rows: Rows, now: int, limit: nat, ids: seq<ScheduleId>) {
    && |ids| <= limit
    && (forall n :: 0 <= n < |ids| ==> ids[n] in rows && Due(rows[ids[n]], now))
    && (forall m, n :: 0 <= m < n < |ids| ==> ids[m] != ids[n])
    && (forall m, n :: 0 <= m < n < |ids| ==> rows[ids[m]].nextRun <= rows[ids[n]].nextRun)
  }

  // ---- the specification ----

  function Leased(rows: Rows, ids: set<ScheduleId>, until: int): Rows {
    map id | id in rows :: if id in ids then rows[id].(leaseUntil := Some(until)) else rows[id]
  }

  function Completed(rows: Rows, id: ScheduleId, interval: int, now: int): Rows {
    if id in rows then rows[id := rows[id].(lastRun := Some(now), nextRun := now + interval, leaseUntil := None)] else rows
  }

  function SetOf(ids: seq<ScheduleId>): set<ScheduleId> {
    set n | 0 <= n < |ids| :: ids[n]
  }

  // ---- the store ----

  class LeaseStore {
    var rows: Rows

    constructor (rows: Rows)
      ensures this.rows == rows
    {
      this.rows := rows;
    }

    /** One transaction: read the due rows, lease each of them, commit. When it fails, or
        when only its reply is lost, the caller gets nothing. */
    method ClaimDue(now: int, limit0: int, lease0: int, answer: seq<ScheduleId>, commit: StoreReply)
      returns (out: seq<(ScheduleId, Schedule)>)
      requires IsAnswer(rows, now, EffectiveLimit(limit0), answer)
      modifies this
      ensures |answer| <= if limit0 < 1 then 100 else limit0
      ensures rows.Keys == old(rows).Keys
      ensures forall id :: id in old(rows) && (commit.Refused? || id !in answer) ==> rows[id] == old(rows)[id]
      ensures forall id :: id in old(rows) && !commit.Refused? && id in answer ==>
                rows[id] == old(rows)[id].(leaseUntil := Some(now + if lease0 <= 0 then 60_000_000_000 else lease0))
      ensures rows == if commit.Refused? then old(rows) else Leased(old(rows), SetOf(answer), now + EffectiveLease(lease0))
      ensures |out| == if commit.Acked? then |answer| else 0
      ensures forall n :: 0 <= n < |out| ==> out[n] == (answer[n], old(rows)[answer[n]])
    {
      var limit, lease := limit0, lease0;
      if limit < 1 { limit := 100; }
      if lease <= 0 { lease := MINUTE; }
      var table := rows;
      out := [];
      for n := 0 to |answer|
        invariant rows == table
        invariant |out| == n && forall m :: 0 <= m < n ==> out[m] == (answer[m], table[answer[m]])
      {
        out := out + [(answer[n], table[answer[n]])];
      }
      var work := table;
      for n := 0 to |out|
        invariant rows == table && work.Keys == table.Keys
        invariant forall id :: id in table ==>
          work[id] == if id in SetOf(answer[..n]) then table[id].(leaseUntil := Some(now + lease)) else table[id]
      {
        var id := out[n].0;
        work := work[id := work[id].(leaseUntil := Some(now + lease))];
        SetOfSnoc(answer, n);
      }
      assert answer[..|answer|] == answer;
      assert work == Leased(table, SetOf(answer), now + lease);
      InAnswer(answer);
      if !commit.Refused? { rows := work; }
      if !commit.Acked? { out := []; }
    }

    /** The schedule is next due one interval after the pass, and nobody holds it. */
    method Complete(id: ScheduleId, interval: int, now: int, reply: StoreReply) returns (ok: bool)
      modifies this
      ensures id in old(rows) && !reply.Refused? ==>
                rows == old(rows)[id := old(rows)[id].(lastRun := Some(now), nextRun := now + interval, leaseUntil := None)]
      ensures id !in old(rows) || reply.Refused? ==> rows == old(rows)
      ensures rows == if reply.Refused? then old(rows) else Completed(old(rows), id, interval, now)
      ensures ok == reply.Acked?
    {
      if !reply.Refused? && id in rows {
        rows := rows[id := rows[id].(lastRun := Some(now), nextRun := now + interval, leaseUntil := None)];
      }
      ok := reply.Acked?;
    }
  }

  lemma InAnswer(ids: seq<ScheduleId>)
    ensures forall id :: id in ids <==> id in SetOf(ids)
  {
    forall id | id in ids ensures id in SetOf(ids) {
      var n :| 0 <= n < |ids| && ids[n] == id;
    }
  }

  lemma SetOfSnoc(ids: seq<ScheduleId>, n: nat)
    requires n < |ids|
    ensures SetOf(ids[..n + 1]) == SetOf(ids[..n]) + {ids[n]}
  {
    forall id | id in SetOf(ids[..n + 1]) ensures id in SetOf(ids[..n]) + {ids[n]} {
      var m :| 0 <= m < n + 1 && ids[..n + 1][m] == id;
      assert m < n ==> ids[..n][m] == id;
    }
    forall id | id in SetOf(ids[..n]) + {ids[n]} ensures id in SetOf(ids[..n + 1]) {
      if id in SetOf(ids[..n]) {
        var m :| 0 <= m < n && ids[..n][m] == id;
        assert ids[..n + 1][m] == id;
      } else {
        assert ids[..n + 1][n] == id;
      }
    }
  }

  // ---- interleavings ----

  /** A process that works on a schedule it has claimed. */
  datatype Holding = Holding(claim: nat, schedule: ScheduleId, until: int)

  datatype State = State(rows: Rows, holders: set<Holding>, claims: nat)

  datatype Event =
    | Claim(now: int, limit: int, lease: int, ids: seq<ScheduleId>, commit: StoreReply)
    | Complete(holding: Holding, interval: int, now: int, reply: StoreReply)
    | Crash(holding: Holding)
    | Edit(id: ScheduleId, account: AccountId, enabled: bool, interval: int, nextRun: int)

  ghost predicate Claims(s: State, e: Event) {
    e.Claim? && IsAnswer(s.rows, e.now, EffectiveLimit(e.limit), e.ids)
  }

  ghost function Apply(s: State, e: Event): State {
    match e
    case Claim(now, limit, lease, ids, commit) =>
      var until := now + EffectiveLease(lease);
      if !Claims(s, e) || commit.Refused? then s
      else
        var taken := set id | id in SetOf(ids) :: Holding(s.claims, id, until);
        State(Leased(s.rows, SetOf(ids), until), if commit.Acked? then s.holders + taken else s.holders, s.claims + 1)
    case Complete(h, interval, now, reply) =>
      if h !in s.holders then s
      else State(if reply.Refused? then s.rows else Completed(s.rows, h.schedule, interval, now), s.holders - {h}, s.claims)
    case Crash(h) => s.(holders := s.holders - {h})
    case Edit(id, account, enabled, interval, nextRun) =>
      var lease := if id in s.rows then s.rows[id].leaseUntil else None;
      var last := if id in s.rows then s.rows[id].lastRun else None;
      s.(rows := s.rows[id := Schedule(account, enabled, interval, nextRun, last, lease)])
  }

  const EMPTY: State := State(map[], {}, 0)

  ghost function After(es: seq<Event>): State {
    if es == [] then EMPTY else Apply(After(es[..|es| - 1]), es[|es| - 1])
  }

  /** After any history, a schedule that its holder completes is due again exactly when it is
      enabled and one interval has passed since the pass that completes it. */
  lemma {:induction false} CompletedIsDueAgain(es: seq<Event>, h: Holding, interval: int, now: int, reply: StoreReply, t: int)
    requires h in After(es).holders && h.schedule in After(es).rows && !reply.Refused?
    ensures var rows := After(es + [Complete(h, interval, now, reply)]).rows;
      && h.schedule in rows && rows[h.schedule].lastRun == Some(now)
      && (Due(rows[h.schedule], t) <==> After(es).rows[h.schedule].enabled && t >= now + interval)
  {
    assert (es + [Complete(h, interval, now, reply)])[..|es|] == es;
  }

  /** After any history, a schedule that a claim takes was due, and is due again exactly when
      the lease, one minute unless the claim sets one, has run out. */
  lemma {:induction false} ClaimedIsDueLater(es: seq<Event>, e: Event, id: ScheduleId, t: int)
    requires Takes(After(es), e, id)
    ensures id in After(es).rows && After(es).rows[id].enabled && After(es).rows[id].nextRun <= e.now
    ensures var rows := After(es + [e]).rows;
      id in rows && (Due(rows[id], t) <==> t > e.now + (if e.lease <= 0 then 60_000_000_000 else e.lease))
  {
    assert (es + [e])[..|es|] == es;
    TakenIsDue(After(es), e, id);
  }

  /** The claim was committed and leased schedule `id`. */
  ghost predicate Takes(s: State, e: Event, id: ScheduleId) {
    Claims(s, e) && !e.commit.Refused? && id in SetOf(e.ids)
  }

  /** Nobody whose lease has run out still works on a schedule that the claim takes. */
  ghost predicate InTime(s: State, e: Event) {
    e.Claim? ==> forall h :: h in s.holders && Takes(s, e, h.schedule) ==> e.now <= h.until
  }

  /** Holders finish or crash before somebody else takes their schedule over. */
  ghost predicate Punctual(es: seq<Event>) {
    forall n :: 0 <= n < |es| ==> InTime(After(es[..n]), es[n])
  }

  /** As `InTime`, but only for claims that hand the schedule to somebody. */
  ghost predicate HandsOverInTime(s: State, e: Event) {
    e.Claim? && e.commit.Acked? ==> InTime(s, e)
  }

  ghost predicate Alone(s: State) {
    forall h, k :: h in s.holders && k in s.holders && h.schedule == k.schedule ==> h == k
  }

  /** Rows show the leases of their holders, or later ones. */
  ghost predicate Covered(s: State) {
    forall h :: h in s.holders ==> h.claim < s.claims && LeasedUntil(s, h.schedule, h.until)
  }

  ghost predicate LeasedUntil(s: State, id: ScheduleId, until: int) {
    id in s.rows && s.rows[id].leaseUntil.Some? && s.rows[id].leaseUntil.value >= until
  }

  /** Mutual exclusion, exactly: no two processes ever hold one schedule if and only if no
      claim hands out a schedule whose holder has outlived its lease. */
  lemma ExclusiveExactlyWhenPunctual(es: seq<Event>)
    ensures (forall n :: 0 <= n <= |es| ==> Alone(After(es[..n])))
       <==> (forall n :: 0 <= n < |es| ==> HandsOverInTime(After(es[..n]), es[n]))
  {
    if forall n :: 0 <= n < |es| ==> HandsOverInTime(After(es[..n]), es[n]) {
      forall n | 0 <= n <= |es| ensures Alone(After(es[..n])) {
        HandedOverAlone(es, n);
      }
    } else {
      var n :| 0 <= n < |es| && !HandsOverInTime(After(es[..n]), es[n]);
      if forall m :: 0 <= m <= n ==> Alone(After(es[..m])) {
        AloneCovered(es, n);
        OverdueMakesTwo(After(es[..n]), es[n]);
        AfterNext(es, n);
        assert !Alone(After(es[..n + 1]));
      }
    }
  }

  lemma AfterNext(es: seq<Event>, n: nat)
    requires n < |es|
    ensures After(es[..n + 1]) == Apply(After(es[..n]), es[n])
  {
    assert es[..n + 1][..n] == es[..n];
  }

  lemma {:induction false} HandedOverAlone(es: seq<Event>, n: nat)
    requires n <= |es| && forall m :: 0 <= m < |es| ==> HandsOverInTime(After(es[..m]), es[m])
    ensures Alone(After(es[..n])) && Covered(After(es[..n]))
    decreases n
  {
    if n > 0 {
      HandedOverAlone(es, n - 1);
      AfterNext(es, n - 1);
      StepCovered(After(es[..n - 1]), es[n - 1]);
      StepAlone(After(es[..n - 1]), es[n - 1]);
    }
  }

  lemma {:induction false} AloneCovered(es: seq<Event>, n: nat)
    requires n <= |es| && forall m :: 0 <= m <= n ==> Alone(After(es[..m]))
    ensures Covered(After(es[..n]))
    decreases n
  {
    if n > 0 {
      AloneCovered(es, n - 1);
      AfterNext(es, n - 1);
      StepCovered(After(es[..n - 1]), es[n - 1]);
    }
  }

  lemma TakenIsDue(s: State, e: Event, id: ScheduleId)
    requires Takes(s, e, id)
    ensures id in s.rows && Due(s.rows[id], e.now)
  {
    var n :| 0 <= n < |e.ids| && e.ids[n] == id;
    assert Due(s.rows[e.ids[n]], e.now);
  }

  lemma StepCovered(s: State, e: Event)
    requires Alone(s) && Covered(s)
    ensures Covered(Apply(s, e))
  {
    if e.Claim? { ClaimCovered(s, e); }
  }

  lemma ClaimCovered(s: State, e: Event)
    requires Covered(s) && e.Claim?
    ensures Covered(Apply(s, e))
  {
    if Claims(s, e) && !e.commit.Refused? {
      forall id | id in SetOf(e.ids) ensures id in s.rows && Due(s.rows[id], e.now) {
        assert Takes(s, e, id);
        TakenIsDue(s, e, id);
      }
      assert forall h :: h in s.holders ==> LeasedUntil(s, h.schedule, h.until);
    }
  }

  /** Whoever is found holding a schedule that a claim takes has outlived its lease. */
  lemma TakenMeansOverdue(s: State, e: Event)
    requires forall h :: h in s.holders ==> LeasedUntil(s, h.schedule, h.until)
    ensures forall h :: h in s.holders && Takes(s, e, h.schedule) ==> h.until < e.now
  {
    forall h | h in s.holders && Takes(s, e, h.schedule) ensures h.until < e.now {
      TakenIsDue(s, e, h.schedule);
    }
  }

  lemma StepAlone(s: State, e: Event)
    requires Alone(s) && Covered(s) && HandsOverInTime(s, e)
    ensures Alone(Apply(s, e))
  {
    TakenMeansOverdue(s, e);
    assert e.Claim? && e.commit.Acked? ==> forall h :: h in s.holders ==> !Takes(s, e, h.schedule);
  }

  lemma OverdueMakesTwo(s: State, e: Event)
    requires Covered(s) && !HandsOverInTime(s, e)
    ensures !Alone(Apply(s, e))
  {
    var h :| h in s.holders && Takes(s, e, h.schedule) && e.now > h.until;
    var k := Holding(s.claims, h.schedule, e.now + EffectiveLease(e.lease));
    var t := Apply(s, e);
    assert h in t.holders && k in t.holders && h.schedule == k.schedule && h != k;
  }

  /** One holder at most, and its lease is the one the row shows. */
  ghost predicate Exclusive(s: State) {
    && Alone(s)
    && (forall h :: h in s.holders ==> h.schedule in s.rows && s.rows[h.schedule].leaseUntil == Some(h.until))
  }

  /** When holders finish or crash before somebody else takes their schedule over, no
      schedule ever has two of them, and each one's lease is the one the row shows. */
  lemma {:induction false} AtMostOneHolder(es: seq<Event>)
    requires Punctual(es)
    ensures Exclusive(After(es))
  {
    if es != [] {
      var init := es[..|es| - 1];
      forall n | 0 <= n < |init| ensures InTime(After(init[..n]), init[n]) {
        assert init[..n] == es[..n];
      }
      AtMostOneHolder(init);
      assert InTime(After(init), es[|es| - 1]);
      assert forall n :: 0 <= n < |es| ==> HandsOverInTime(After(es[..n]), es[n]);
      ExclusiveExactlyWhenPunctual(es);
      assert es[..|es|] == es;
      LeasesShown(After(init), es[|es| - 1]);
    }
  }

  lemma LeasesShown(s: State, e: Event)
    requires Exclusive(s) && InTime(s, e) && Alone(Apply(s, e))
    ensures Exclusive(Apply(s, e))
  {
    TakenMeansOverdue(s, e);
    if e.Claim? && Claims(s, e) && !e.commit.Refused? {
      assert forall h :: h in s.holders ==> !Takes(s, e, h.schedule);
      forall id | id in SetOf(e.ids) ensures id in s.rows {
        assert Takes(s, e, id);
        TakenIsDue(s, e, id);
      }
    }
  }

  // ---- claims without a completion between them ----

  predicate Releases(e: Event, id: ScheduleId) {
    e.Complete? && e.holding.schedule == id
  }

  /** With no assumption at all: two claims of one schedule with no completion between
      them are more than one lease apart. */
  lemma {:induction false} ClaimsAreALeaseApart(es: seq<Event>, i: nat, j: nat, id: ScheduleId)
    requires i < j < |es|
    requires Takes(After(es[..i]), es[i], id) && Takes(After(es[..j]), es[j], id)
    requires forall n :: i < n < j ==> !Releases(es[n], id)
    ensures es[j].now > es[i].now + EffectiveLease(es[i].lease)
  {
    LeaseLasts(es, i, j, id);
    TakenIsDue(After(es[..j]), es[j], id);
  }

  lemma {:induction false} LeaseLasts(es: seq<Event>, i: nat, j: nat, id: ScheduleId)
    requires i < j <= |es| && Takes(After(es[..i]), es[i], id)
    requires forall n :: i < n < j ==> !Releases(es[n], id)
    ensures LeasedUntil(After(es[..j]), id, es[i].now + EffectiveLease(es[i].lease))
    decreases j
  {
    assert es[..j][..j - 1] == es[..j - 1];
    var s := After(es[..j - 1]);
    var until := es[i].now + EffectiveLease(es[i].lease);
    if j == i + 1 {
      TakenIsDue(s, es[i], id);
    } else {
      LeaseLasts(es, i, j - 1, id);
      if Takes(s, es[j - 1], id) { TakenIsDue(s, es[j - 1], id); }
      LeaseKept(s, es[j - 1], id, until);
    }
  }

  lemma LeaseKept(s: State, e: Event, id: ScheduleId, until: int)
    requires LeasedUntil(s, id, until) && !Releases(e, id)
    requires Takes(s, e, id) ==> Due(s.rows[id], e.now)
    ensures LeasedUntil(Apply(s, e), id, until)
  {
  }

  // ---- a late completion ----

  function ClaimAt(id: ScheduleId, now: int): Event {
    Claim(now, 1, MINUTE, [id], Acked)
  }

  /** A holder that completes after its lease ran out, with the time of its own pass, clears
      the lease of its successor, so that a third claim makes two holders of one schedule. */
  lemma LateCompletionBreaksExclusion(id: ScheduleId)
    ensures var late := Complete(Holding(0, id, MINUTE), MINUTE, 0, Acked);
      var es := [Edit(id, 0, true, MINUTE, 0), ClaimAt(id, 0), ClaimAt(id, 2 * MINUTE), late, ClaimAt(id, 3 * MINUTE)];
      Holding(1, id, 3 * MINUTE) in After(es).holders && Holding(2, id, 4 * MINUTE) in After(es).holders
  {
    var late := Complete(Holding(0, id, MINUTE), MINUTE, 0, Acked);
    var s0 := Apply(EMPTY, Edit(id, 0, true, MINUTE, 0));
    var s1 := ClaimOne(s0, id, 0);
    var s2 := ClaimOne(s1, id, 2 * MINUTE);
    var s3 := Apply(s2, late);
    var s4 := ClaimOne(s3, id, 3 * MINUTE);
    AfterFive(Edit(id, 0, true, MINUTE, 0), ClaimAt(id, 0), ClaimAt(id, 2 * MINUTE), late, ClaimAt(id, 3 * MINUTE));
  }

  lemma AfterFive(a: Event, b: Event, c: Event, d: Event, e: Event)
    ensures After([a, b, c, d, e]) == Apply(Apply(Apply(Apply(Apply(EMPTY, a), b), c), d), e)
  {
    AfterSnoc([], a);
    AfterSnoc([a], b);
    AfterSnoc([a, b], c);
    AfterSnoc([a, b, c], d);
    AfterSnoc([a, b, c, d], e);
    assert [] + [a] == [a] && [a] + [b] == [a, b] && [a, b] + [c] == [a, b, c];
    assert [a, b, c] + [d] == [a, b, c, d] && [a, b, c, d] + [e] == [a, b, c, d, e];
  }

  lemma ClaimOne(s: State, id: ScheduleId, now: int) returns (t: State)
    requires id in s.rows && Due(s.rows[id], now)
    ensures t == Apply(s, ClaimAt(id, now))
    ensures t.claims == s.claims + 1 && t.holders == s.holders + {Holding(s.claims, id, now + MINUTE)}
    ensures id in t.rows && t.rows[id] == s.rows[id].(leaseUntil := Some(now + MINUTE))
  {
    assert IsAnswer(s.rows, now, 1, [id]);
    assert [id][0] == id && SetOf([id]) == {id};
    t := Apply(s, ClaimAt(id, now));
    assert (set k | k in SetOf([id]) :: Holding(s.claims, k, now + MINUTE)) == {Holding(s.claims, id, now + MINUTE)};
  }

  lemma AfterSnoc(es: seq<Event>, e: Event)
    ensures After(es + [e]) == Apply(After(es), e)
  {
    assert (es + [e])[..|es|] == es;
  }
}
