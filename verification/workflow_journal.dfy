/**
  What the rows and the calls of one deployment tell about each other: every row stored is
  the start of a step, the answer of a step or the end, and nothing is lost on the way.
 */
module WorkflowJournal {
  import opened Wrappers
  import opened Checkpoints
  import opened WorkflowEngine
  import opened WorkflowTheorems

  // ---- the steps by name ----

  function StateOf(step: Step): State {
    match step
    case Create => Creating
    case WaitResource => WaitingResource
    case Provision => Provisioning
    case Database => ImportingDatabase
    case Panel => ConfiguringPanel
    case Clients => RegisteringClients
    case Traffic => RegisteringTraffic
    case Done => Ready
  }

  function Following(step: Step): Step {
    match step
    case Create => WaitResource
    case WaitResource => Provision
    case Provision => Database
    case Database => Panel
    case Panel => Clients
    case Clients => Traffic
    case _ => Done
  }

  // ---- the entries of a log ----

  /** The row in the store after a log. */
  function RowOf(log: Log): Deployment {
    if log == [] then Deployment("", "", Planned, Create, 0, "")
    else if log[|log| - 1].Stored? then log[|log| - 1].row
    else RowOf(log[..|log| - 1])
  }

  /** A step begins: its state is entered and an attempt counted, the rest stays. */
  ghost predicate Begins(prev: Deployment, row: Deployment) {
    !prev.step.Done? && row == prev.(state := StateOf(prev.step), attempt := prev.attempt + 1)
  }

  /** The answer of a step is kept: both ids, and the message or the next step. */
  ghost predicate Keeps(prev: Deployment, answer: Answer, row: Deployment) {
    match answer
    case Killed => false
    case Errored(message, droplet, provider) => row == prev.(droplet := droplet, provider := provider, lastError := message)
    case Passed(droplet, provider) => row == prev.(droplet := droplet, provider := provider, step := Following(prev.step))
  }

  ghost predicate Ends(prev: Deployment, row: Deployment) {
    prev.step.Done? && row == prev.(state := Ready, lastError := "")
  }

  /** A call comes right after the row that begins its step and is handed that row. */
  ghost predicate Entry(before: Log, e: Effect<Asked, Deployment>) {
    match e
    case Called(_, ok, input) =>
      && before != [] && before[|before| - 1].Stored? && before[|before| - 1].row == input.d
      && Begins(RowOf(before[..|before| - 1]), input.d) && (ok <==> input.answer.Passed?)
    case Stored(_, row) =>
      || Begins(RowOf(before), row)
      || Ends(RowOf(before), row)
      || (before != [] && before[|before| - 1].Called? && Keeps(RowOf(before), before[|before| - 1].input.answer, row))
  }

  ghost predicate Journal(log: Log) {
    forall n :: 0 <= n < |log| ==> Entry(log[..n], log[n])
  }

  lemma JournalSnoc(log: Log, e: Effect<Asked, Deployment>)
    requires Journal(log) && Entry(log, e)
    ensures Journal(log + [e]) && RowOf(log + [e]) == if e.Stored? then e.row else RowOf(log)
  {
    var all := log + [e];
    assert all[..|log|] == log;
    forall n | 0 <= n < |all| ensures Entry(all[..n], all[n]) {
      if n < |log| { assert all[..n] == log[..n]; }
    }
  }

  // ---- every history keeps a journal ----

  ghost predicate Held(disk: Disk) {
    Journal(disk.log) && disk.row == RowOf(disk.log)
  }

  ghost predicate Written(disk: Disk) {
    && Journal(disk.log)
    && (!disk.row.state.Failed? ==> disk.row == RowOf(disk.log))
    && disk.row.droplet == RowOf(disk.log).droplet && disk.row.provider == RowOf(disk.log).provider
  }

  lemma Names(k: nat, step: Step)
    requires k < |STEPS| && Rank(step) == k
    ensures STEPS[k] == (step, StateOf(step)) && !step.Done? && NextStep(step) == Following(step)
    ensures Rank(Following(step)) == k + 1
  {
  }

  lemma PutHeld(disk: Disk, d: Deployment, reply: StoreReply)
    requires Held(disk) && Entry(disk.log, Stored(Rank(d.step), d))
    ensures Held(Put(disk, d, reply))
  {
    if !reply.Refused? { JournalSnoc(disk.log, Stored(Rank(d.step), d)); }
  }

  lemma RoundHeld(disk: Disk, d: Deployment, k: nat, r: Round)
    requires k < |STEPS| && Held(disk) && disk.row == d && Rank(d.step) == k && !d.state.Failed?
    ensures var o := OneRound(disk, d, k, r);
      Held(o.disk) && (o.err.None? ==> o.disk.row == o.d && Rank(o.d.step) == k + 1) && !o.disk.row.state.Failed? && !o.d.state.Failed?
  {
    Names(k, d.step);
    var e := Begun(d, k);
    PutHeld(disk, e, r.begin);
    if r.begin.Acked? { CallHeld(disk, Put(disk, e, r.begin), e, k, r.call, r.end); }
  }

  lemma CallHeld(before: Disk, disk: Disk, d: Deployment, k: nat, call: Answer, end: StoreReply)
    requires k < |STEPS| && Held(before) && Begins(before.row, d) && Rank(d.step) == k && disk == Put(before, d, Acked) && Held(disk)
    ensures var o := AfterCall(disk, d, k, call, end);
      Held(o.disk) && (o.err.None? ==> o.disk.row == o.d && Rank(o.d.step) == k + 1) && !o.disk.row.state.Failed? && !o.d.state.Failed?
  {
    Names(k, d.step);
    var noted := Note(disk, d, call);
    assert disk.log[..|disk.log| - 1] == before.log;
    JournalSnoc(disk.log, Called(Rank(d.step), call.Passed?, Asked(d, call)));
    assert Held(noted);
    if !call.Killed? { PutHeld(noted, AfterCall(disk, d, k, call, end).d, end); }
  }

  lemma {:induction false} RestHeld(disk: Disk, d: Deployment, k: nat, w: World)
    requires k <= |STEPS| && Held(disk) && disk.row == d && k <= Rank(d.step) && !d.state.Failed?
    ensures Held(Rest(disk, d, k, w).disk) && !Rest(disk, d, k, w).disk.row.state.Failed?
    decreases |STEPS| - k
  {
    if k == |STEPS| {
      PutHeld(disk, Finish(disk, d, w.last).d, w.last);
    } else if IsDone(d.step, STEPS[k].0) {
      Ranks(k);
      RestHeld(disk, d, k + 1, w);
    } else {
      Ranks(k);
      RoundHeld(disk, d, k, w.rounds(k));
      var o := OneRound(disk, d, k, w.rounds(k));
      if o.err.None? { RestHeld(o.disk, o.d, k + 1, w); }
    }
  }

  lemma TakeWritten(disk: Disk, turn: Turn)
    requires Written(disk)
    ensures Written(Take(disk, turn))
  {
    match turn
    case Resume(w) => if !Terminal(disk.row) && w.reserved { RestHeld(disk, disk.row, 0, w); }
    case Freeze(_) =>
  }

  /** Every history of serialized runs keeps a journal: what a step function is handed is the
      row stored just before the call, which differs from the row before it in its state and
      its attempt alone; and a row stored right after a call, unless it begins a step again,
      is that row with both ids of the answer and with its message or the following step. */
  lemma {:induction false} HistoriesAreJournals(turns: seq<Turn>)
    ensures Journal(After(turns).log)
    ensures !After(turns).row.state.Failed? ==> After(turns).row == RowOf(After(turns).log)
    ensures Written(After(turns))
    decreases |turns|
  {
    if turns != [] {
      HistoriesAreJournals(turns[..|turns| - 1]);
      TakeWritten(After(turns[..|turns| - 1]), turns[|turns| - 1]);
    }
  }

  /** What one more turn does after any history: the worker resumes exactly what is neither
      READY nor FAILED, and recovery freezes exactly that at the create and provision step. */
  lemma {:induction false} TurnsExactly(turns: seq<Turn>, w: World, message: string)
    ensures var disk := After(turns);
      var isOpen := !disk.row.state.Ready? && !disk.row.state.Failed?;
      && After(turns + [Resume(w)]) == (if isOpen then RunOnce(disk, w).disk else disk)
      && After(turns + [Freeze(message)]) ==
           if isOpen && (disk.row.step.Create? || disk.row.step.Provision?)
           then disk.(row := disk.row.(state := Failed, step := Done, lastError := message)) else disk
  {
    assert (turns + [Resume(w)])[..|turns|] == turns && (turns + [Freeze(message)])[..|turns|] == turns;
  }

  // ---- the ids ----

  /** The two ids of the last answer that was stored. A row that begins a step again counts
      another attempt; one that keeps an answer does not. */
  function AnsweredIds(log: Log): (string, string) {
    if log == [] then ("", "")
    else
      var init, e := log[..|log| - 1], log[|log| - 1];
      if e.Stored? && init != [] && init[|init| - 1].Called? && e.row.attempt == init[|init| - 1].input.d.attempt then
        match init[|init| - 1].input.answer
        case Passed(droplet, provider) => (droplet, provider)
        case Errored(_, droplet, provider) => (droplet, provider)
        case Killed => AnsweredIds(init)
      else AnsweredIds(init)
  }

  /** No id that a step returned is lost: the stored row, and whatever a step function is
      handed, carries the two ids of the last answer whose row was stored. */
  lemma {:induction false} IdsAreKept(turns: seq<Turn>)
    ensures var disk := After(turns);
      (disk.row.droplet, disk.row.provider) == AnsweredIds(disk.log)
    ensures forall n :: 0 <= n < |After(turns).log| && After(turns).log[n].Called? ==>
              var d := After(turns).log[n].input.d;
              (d.droplet, d.provider) == AnsweredIds(After(turns).log[..n])
  {
    HistoriesAreJournals(turns);
    var log := After(turns).log;
    RowCarriesIds(log);
    forall n | 0 <= n < |log| && log[n].Called?
      ensures (log[n].input.d.droplet, log[n].input.d.provider) == AnsweredIds(log[..n])
    {
      assert Entry(log[..n], log[n]);
      JournalPrefix(log, n);
      RowCarriesIds(log[..n]);
    }
  }

  lemma JournalPrefix(log: Log, n: nat)
    requires Journal(log) && n <= |log|
    ensures Journal(log[..n])
  {
    forall m | 0 <= m < n ensures Entry(log[..n][..m], log[..n][m]) {
      assert log[..n][..m] == log[..m];
    }
  }

  lemma {:induction false} RowCarriesIds(log: Log)
    requires Journal(log)
    ensures (RowOf(log).droplet, RowOf(log).provider) == AnsweredIds(log)
    decreases |log|
  {
    if log != [] {
      var n := |log| - 1;
      JournalPrefix(log, n);
      RowCarriesIds(log[..n]);
      assert Entry(log[..n], log[n]);
      if n > 0 && log[n - 1].Called? { CalledRow(log, n); }
    }
  }

  /** After a call the row in the store is still the one that the call was handed. */
  lemma CalledRow(log: Log, n: nat)
    requires Journal(log) && 0 < n < |log| && log[n - 1].Called?
    ensures RowOf(log[..n]) == log[n - 1].input.d && !log[n - 1].input.d.step.Done?
  {
    assert Entry(log[..n - 1], log[n - 1]);
    assert log[..n][..n - 1] == log[..n - 1];
  }

  // ---- how a run ends ----

  /** The whole round goes well. */
  predicate Smooth(r: Round) {
    r.begin.Acked? && r.call.Passed? && r.end.Acked?
  }

  predicate AllSmooth(w: World, k: nat, n: nat) {
    forall i :: k <= i < n ==> Smooth(w.rounds(i))
  }

  /** A run of an unfinished deployment succeeds exactly when every round that is left goes
      well and the last row is stored; the row is then READY, with no error. */
  lemma {:induction false} SucceedsExactly(disk: Disk, w: World)
    requires !Terminal(disk.row)
    ensures RunOnce(disk, w).err.None? <==> w.reserved && AllSmooth(w, Rank(disk.row.step), 7) && w.last.Acked?
    ensures RunOnce(disk, w).err.None? ==> IsReady(RunOnce(disk, w))
    ensures !w.reserved ==> RunOnce(disk, w).disk == disk
  {
    if w.reserved { RestSucceeds(disk, disk.row, 0, w); }
  }

  lemma {:induction false} RestSucceeds(disk: Disk, d: Deployment, k: nat, w: World)
    requires k <= 7 && k <= Rank(d.step)
    ensures Rest(disk, d, k, w).err.None? <==> AllSmooth(w, Rank(d.step), 7) && w.last.Acked?
    ensures Rest(disk, d, k, w).err.None? ==> IsReady(Rest(disk, d, k, w))
    decreases 7 - k, 1
  {
    if k == 7 {
      FinishSucceeds(disk, d, w.last);
    } else {
      Ranks(k);
      if k < Rank(d.step) { RestSucceeds(disk, d, k + 1, w); } else { StepSucceeds(disk, d, k, w); }
    }
  }

  /** The case of a step that is still to be done. */
  lemma {:induction false} StepSucceeds(disk: Disk, d: Deployment, k: nat, w: World)
    requires k < 7 && k == Rank(d.step)
    ensures Rest(disk, d, k, w).err.None? <==> AllSmooth(w, k, 7) && w.last.Acked?
    ensures Rest(disk, d, k, w).err.None? ==> IsReady(Rest(disk, d, k, w))
    decreases 7 - k, 0
  {
    Ranks(k);
    RoundSucceeds(disk, d, k, w.rounds(k));
    var o := OneRound(disk, d, k, w.rounds(k));
    assert AllSmooth(w, k, 7) <==> Smooth(w.rounds(k)) && AllSmooth(w, k + 1, 7);
    assert Rest(disk, d, k, w) == if o.err.Some? then o else Rest(o.disk, o.d, k + 1, w);
    if o.err.None? { RestSucceeds(o.disk, o.d, k + 1, w); }
  }

  ghost predicate IsReady(o: Outcome) {
    o.d == o.disk.row && o.d.state.Ready? && o.d.step.Done? && o.d.lastError == ""
  }

  lemma FinishSucceeds(disk: Disk, d: Deployment, last: StoreReply)
    ensures Finish(disk, d, last).err.None? <==> last.Acked?
    ensures Finish(disk, d, last).err.None? ==> IsReady(Finish(disk, d, last))
  {
  }

  lemma RoundSucceeds(disk: Disk, d: Deployment, k: nat, r: Round)
    requires k < |STEPS| && Rank(d.step) == k
    ensures OneRound(disk, d, k, r).err.None? <==> Smooth(r)
    ensures OneRound(disk, d, k, r).err.None? ==> Rank(OneRound(disk, d, k, r).d.step) == k + 1
  {
    Names(k, d.step);
  }

  /** What the round of a step leaves behind, when it is the first one to fail. */
  ghost predicate Failure(o: Outcome, prev: Deployment, r: Round) {
    var begun := prev.(state := StateOf(prev.step), attempt := prev.attempt + 1);
    match r.begin
    case Refused => o.err == Some("store") && o.disk.row == prev
    case Lost => o.err == Some("store") && o.disk.row == begun
    case Acked =>
      match r.call
      case Killed => o.err == Some("killed") && o.disk.row == begun
      case Errored(message, droplet, provider) =>
        && o.err == Some(message)
        && o.disk.row == if r.end.Refused? then begun else begun.(droplet := droplet, provider := provider, lastError := message)
      case Passed(droplet, provider) =>
        && o.err == Some("store")
        && o.disk.row == if r.end.Refused? then begun
                         else begun.(droplet := droplet, provider := provider, step := Following(prev.step))
  }

  /** A run that starts with a round that fails ends there, with that failure. */
  lemma {:induction false} FailureEndsTheRun(disk: Disk, w: World)
    requires w.reserved && !Terminal(disk.row) && !disk.row.step.Done? && !Smooth(w.rounds(Rank(disk.row.step)))
    ensures Failure(RunOnce(disk, w), disk.row, w.rounds(Rank(disk.row.step)))
  {
    RestFails(disk, disk.row, 0, w);
  }

  lemma {:induction false} RestFails(disk: Disk, d: Deployment, k: nat, w: World)
    requires k <= Rank(d.step) < 7 && disk.row == d && !Smooth(w.rounds(Rank(d.step)))
    ensures Failure(Rest(disk, d, k, w), d, w.rounds(Rank(d.step)))
    decreases 7 - k
  {
    Ranks(k);
    if IsDone(d.step, STEPS[k].0) { RestFails(disk, d, k + 1, w); } else { Names(k, d.step); }
  }
}
