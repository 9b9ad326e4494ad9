/**
  Several runs of one deployment at once. Every store statement and every answer of a step
  function is one event of one run; rows are stored without comparing versions. Shows what
  the theorems about serialized runs rest on.
 */
module WorkflowInterleaving {
  import opened Wrappers
  import opened WorkflowEngine

  type RunId = nat

  /** Where a live run is, with the deployment it holds in memory. */
  datatype Position =
    | Idle
    | AtBegin(d: Deployment)
    | AtCall(d: Deployment)
    | AtEnd(d: Deployment, passed: bool)
    | AtFinal(d: Deployment)

  datatype Shared = Shared(row: Deployment, runs: map<RunId, Position>)

  datatype Event =
    | Load(r: RunId)
    | Begin(r: RunId, reply: StoreReply)
    | Answered(r: RunId, call: Answer)
    | End(r: RunId, reply: StoreReply)
    | Final(r: RunId, reply: StoreReply)
    | Crash(r: RunId)

  function PositionOf(s: Shared, r: RunId): Position {
    if r in s.runs then s.runs[r] else Idle
  }

  function StoredRow(row: Deployment, d: Deployment, reply: StoreReply): Deployment {
    if reply.Refused? then row else d
  }

  /** The head of the loop: steps behind the checkpoint are skipped. */
  function Head(d: Deployment): Position {
    if d.step.Done? then AtFinal(d) else AtBegin(d)
  }

  /** The row to store once the step function has answered. */
  function AfterAnswer(d: Deployment, call: Answer): Deployment
    requires !d.step.Done?
  {
    AfterCall(Disk(d, []), d, Rank(d.step), call, Acked).d
  }

  /** One event of a run at position `p`; an event that does not fit changes nothing. */
  function Step(row: Deployment, p: Position, e: Event): (Deployment, Position) {
    match e
    case Load(_) => (row, if p.Idle? && !row.state.Ready? then Head(row) else p)
    case Begin(_, reply) =>
      if !p.AtBegin? || p.d.step.Done? then (row, p)
      else
        var d := Begun(p.d, Rank(p.d.step));
        (StoredRow(row, d, reply), if reply.Acked? then AtCall(d) else Idle)
    case Answered(_, call) =>
      if !p.AtCall? || p.d.step.Done? then (row, p)
      else (row, if call.Killed? then Idle else AtEnd(AfterAnswer(p.d, call), call.Passed?))
    case End(_, reply) =>
      if !p.AtEnd? then (row, p)
      else (StoredRow(row, p.d, reply), if reply.Acked? && p.passed then Head(p.d) else Idle)
    case Final(_, reply) =>
      if !p.AtFinal? then (row, p)
      else (StoredRow(row, Finish(Disk(p.d, []), p.d, reply).d, reply), Idle)
    case Crash(_) => (row, Idle)
  }

  /** With at most `limit` live runs. */
  function Apply(s: Shared, limit: nat, e: Event): Shared {
    if e.r >= limit then s
    else
      var (row, p) := Step(s.row, PositionOf(s, e.r), e);
      Shared(row, s.runs[e.r := p])
  }

  const START: Shared := Shared(Deployment("", "", Planned, Create, 0, ""), map[])

  function After(limit: nat, es: seq<Event>): Shared {
    if es == [] then START else Apply(After(limit, es[..|es| - 1]), limit, es[|es| - 1])
  }

  ghost predicate Ascends(limit: nat, es: seq<Event>) {
    forall n :: 0 <= n <= |es| ==> Rank(After(limit, es[..n]).row.step) <= Rank(After(limit, es).row.step)
  }

  /** The stored checkpoint never moves back over all runs, if and only if no two runs of the
      deployment are ever live at once. */
  lemma CheckpointAscendsExactlyForOneRun(limit: nat)
    ensures (forall es :: Ascends(limit, es)) <==> limit <= 1
  {
    if limit <= 1 {
      forall es ensures Ascends(limit, es) {
        OneRunAscends(limit, es);
      }
    } else {
      TwoRunsMoveBack(limit);
      assert !Ascends(limit, Overtaken());
    }
  }

  // ---- one run ----

  /** Whatever the run stores next is not behind the row. */
  ghost predicate Ahead(row: Deployment, p: Position) {
    match p
    case Idle => true
    case AtBegin(d) => Rank(row.step) <= Rank(d.step)
    case AtCall(d) => Rank(row.step) <= Rank(d.step)
    case AtEnd(d, _) => Rank(row.step) <= Rank(d.step)
    case AtFinal(_) => true
  }

  lemma Ranks(d: Deployment)
    requires !d.step.Done?
    ensures STEPS[Rank(d.step)].0 == d.step && Rank(NextStep(d.step)) == Rank(d.step) + 1
  {
  }

  lemma StepAhead(row: Deployment, p: Position, e: Event)
    requires Ahead(row, p)
    ensures Ahead(Step(row, p, e).0, Step(row, p, e).1) && Rank(row.step) <= Rank(Step(row, p, e).0.step)
  {
    if (p.AtBegin? || p.AtCall?) && !p.d.step.Done? { Ranks(p.d); }
  }

  lemma {:induction false} OneRunAscends(limit: nat, es: seq<Event>)
    requires limit <= 1
    ensures Ascends(limit, es)
    ensures Ahead(After(limit, es).row, PositionOf(After(limit, es), 0))
  {
    if es == [] {
      assert es[..0] == es;
    } else {
      var init := es[..|es| - 1];
      OneRunAscends(limit, init);
      var s := After(limit, init);
      StepAhead(s.row, PositionOf(s, 0), es[|es| - 1]);
      forall n | 0 <= n <= |es| ensures Rank(After(limit, es[..n]).row.step) <= Rank(After(limit, es).row.step) {
        if n < |es| { assert es[..n] == init[..n]; } else { assert es[..n] == es; }
      }
    }
  }

  // ---- two runs ----

  function Overtaking(): seq<Event> {
    [Load(0), Begin(0, Acked), Load(1), Begin(1, Acked), Answered(1, Passed("", "1")), End(1, Acked)]
  }

  /** A second run passes the create step while the first one is still inside it; then the
      first one fails and stores its old checkpoint. */
  function Overtaken(): seq<Event> {
    Overtaking() + [Answered(0, Errored("timeout", "", "")), End(0, Acked)]
  }

  lemma TwoRunsMoveBack(limit: nat)
    requires limit >= 2
    ensures Overtaken()[..6] == Overtaking()
    ensures Rank(After(limit, Overtaking()).row.step) == 1 && Rank(After(limit, Overtaken()).row.step) == 0
  {
    BothInside(limit);
    SecondPasses(limit);
    AfterTwo(limit, Overtaking(), Answered(0, Errored("timeout", "", "")), End(0, Acked));
  }

  /** Both runs are inside the create step. */
  function Inside(): Shared {
    var d := Begun(START.row, 0);
    Shared(Begun(d, 0), map[0 := AtCall(d), 1 := AtCall(Begun(d, 0))])
  }

  lemma BothInside(limit: nat)
    requires limit >= 2
    ensures After(limit, Overtaking()[..4]) == Inside()
  {
    var d := Begun(START.row, 0);
    AfterTwo(limit, [], Load(0), Begin(0, Acked));
    assert [] + [Load(0), Begin(0, Acked)] == [Load(0), Begin(0, Acked)];
    assert After(limit, [Load(0), Begin(0, Acked)]) == Shared(d, map[0 := AtCall(d)]);
    AfterTwo(limit, [Load(0), Begin(0, Acked)], Load(1), Begin(1, Acked));
    assert Overtaking()[..4] == [Load(0), Begin(0, Acked)] + [Load(1), Begin(1, Acked)];
  }

  lemma SecondPasses(limit: nat)
    requires limit >= 2 && After(limit, Overtaking()[..4]) == Inside()
    ensures var s := After(limit, Overtaking());
      s.row.step == WaitResource && PositionOf(s, 0) == AtCall(Begun(START.row, 0))
  {
    AfterTwo(limit, Overtaking()[..4], Answered(1, Passed("", "1")), End(1, Acked));
    assert Overtaking() == Overtaking()[..4] + [Answered(1, Passed("", "1")), End(1, Acked)];
  }

  lemma AfterTwo(limit: nat, es: seq<Event>, d: Event, e: Event)
    ensures After(limit, es + [d, e]) == Apply(Apply(After(limit, es), limit, d), limit, e)
  {
    AfterOne(limit, es, d);
    AfterOne(limit, es + [d], e);
    assert es + [d, e] == (es + [d]) + [e];
  }

  lemma AfterOne(limit: nat, es: seq<Event>, e: Event)
    ensures After(limit, es + [e]) == Apply(After(limit, es), limit, e)
  {
    assert (es + [e])[..|es|] == es;
  }

  // ---- a lone run is a run of the engine ----

  function Events(s: Shared, limit: nat, es: seq<Event>): Shared
    decreases |es|
  {
    if es == [] then s else Events(Apply(s, limit, es[0]), limit, es[1..])
  }

  /** The events of a run from step `k` on, in a world; those after a failure do not fit. */
  function Script(r: RunId, k: nat, w: World): seq<Event>
    requires k <= |STEPS|
    decreases |STEPS| - k
  {
    if k == |STEPS| then [Final(r, w.last)]
    else [Begin(r, w.rounds(k).begin), Answered(r, w.rounds(k).call), End(r, w.rounds(k).end)] + Script(r, k + 1, w)
  }

  lemma {:induction false} IdleStays(s: Shared, limit: nat, r: RunId, k: nat, w: World)
    requires k <= |STEPS| && r < limit && PositionOf(s, r) == Idle
    ensures Events(s, limit, Script(r, k, w)).row == s.row
    decreases |STEPS| - k
  {
    if k < |STEPS| {
      var round := w.rounds(k);
      ThreeEvents(s, limit, Begin(r, round.begin), Answered(r, round.call), End(r, round.end), Script(r, k + 1, w));
      var t := Apply(Apply(Apply(s, limit, Begin(r, round.begin)), limit, Answered(r, round.call)), limit, End(r, round.end));
      assert t.row == s.row && PositionOf(t, r) == Idle;
      IdleStays(t, limit, r, k + 1, w);
    } else {
      assert Script(r, k, w)[1..] == [];
    }
  }

  lemma ThreeEvents(s: Shared, limit: nat, a: Event, b: Event, c: Event, es: seq<Event>)
    ensures Events(s, limit, [a, b, c] + es)
         == Events(Apply(Apply(Apply(s, limit, a), limit, b), limit, c), limit, es)
  {
    OneEvent(s, limit, a, [b, c] + es);
    OneEvent(Apply(s, limit, a), limit, b, [c] + es);
    OneEvent(Apply(Apply(s, limit, a), limit, b), limit, c, es);
    assert [a, b, c] + es == [a] + ([b, c] + es) && [b, c] + es == [b] + ([c] + es);
  }

  lemma OneEvent(s: Shared, limit: nat, e: Event, es: seq<Event>)
    ensures Events(s, limit, [e] + es) == Events(Apply(s, limit, e), limit, es)
  {
    assert ([e] + es)[1..] == es;
  }

  lemma RoundIsThreeEvents(s: Shared, limit: nat, r: RunId, d: Deployment, log: Log, round: Round)
    requires r < limit && PositionOf(s, r) == AtBegin(d) && s.row == d && !d.step.Done?
    ensures var o := OneRound(Disk(d, log), d, Rank(d.step), round);
      var t := Apply(Apply(Apply(s, limit, Begin(r, round.begin)), limit, Answered(r, round.call)), limit, End(r, round.end));
      t.row == o.disk.row && PositionOf(t, r) == (if o.err.None? then Head(o.d) else Idle) && (o.err.None? ==> o.d == o.disk.row)
  {
    Ranks(d);
  }

  /** Left alone, the events of a run store what the engine's loop stores. */
  lemma {:induction false} LoneRunIsTheEngine(s: Shared, limit: nat, r: RunId, d: Deployment, log: Log, w: World)
    requires r < limit && s.row == d && PositionOf(s, r) == Head(d)
    ensures Events(s, limit, Script(r, Rank(d.step), w)).row == Rest(Disk(d, log), d, Rank(d.step), w).disk.row
    decreases |STEPS| - Rank(d.step)
  {
    var k := Rank(d.step);
    if k == |STEPS| {
      assert Script(r, k, w)[1..] == [];
    } else {
      Ranks(d);
      var round := w.rounds(k);
      var o := OneRound(Disk(d, log), d, k, round);
      RoundIsThreeEvents(s, limit, r, d, log, round);
      ThreeEvents(s, limit, Begin(r, round.begin), Answered(r, round.call), End(r, round.end), Script(r, k + 1, w));
      var t := Apply(Apply(Apply(s, limit, Begin(r, round.begin)), limit, Answered(r, round.call)), limit, End(r, round.end));
      assert Rest(Disk(d, log), d, k, w) == if o.err.Some? then o else Rest(o.disk, o.d, k + 1, w);
      if o.err.None? {
        assert Rank(o.d.step) == k + 1;
        LoneRunIsTheEngine(t, limit, r, o.d, o.disk.log, w);
      } else {
        IdleStays(t, limit, r, k + 1, w);
      }
    }
  }
}
