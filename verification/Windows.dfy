/**
 What a call can always do when nothing disturbs it, and what the compaction window can always do: lose an
 update that was stored and confirmed inside it.
 */
module Windows {
  import opened Base
  import opened Steps
  import opened Storage
  import opened StorageSafety
  import opened Compaction

  /** One call that nothing disturbs, up to its insert; its clock query may fail. */
  lemma StoreRuns(s: State, j: nat, clock: nat, ok: bool)
    requires j in s.jobs && s.jobs[j].pc.Checking? && s.lock.None? && clock !in s.rows
    requires if ok then IsNextClock(s.rows, clock) else clock == 0
    ensures Leads(s, Put(s.(lock := Some(j)), j, clock, Marking(clock, s.nextUid)))
  {
    var held := s.(lock := Some(j));
    NewUpdate(s, j);
    Attempts(s, Goto(s, j, Locking(0)), j);
    assert Goto(Goto(s, j, Locking(0)), j, Reading).(lock := Some(j)) == Goto(held, j, Reading);
    Reads(s, Goto(held, j, Reading), j, ok, clock);
    assert Goto(Goto(held, j, Reading), j, Inserting(clock, ok)) == Goto(held, j, Inserting(clock, ok));
    Inserts(s, held, j, clock, ok, true);
  }

  /** From its insert to its end. */
  lemma FinishRuns(s: State, s1: State, j: nat)
    requires Leads(s, s1) && j in s1.jobs && s1.jobs[j].pc.Marking? && s1.lock == Some(j)
    ensures var pc := s1.jobs[j].pc;
            Leads(s, Return(s1.(marks := s1.marks + {s1.jobs[j].upd}, lock := None), j, Stored(pc.clock, pc.uid)))
  {
    var pc := s1.jobs[j].pc;
    var marked := s1.(marks := s1.marks + {s1.jobs[j].upd});
    Marks(s, s1, j, true);
    Rereads(s, Goto(marked, j, Rereading(pc.clock, pc.uid)), j);
    var s2 := Goto(marked, j, Unlocking(Stored(pc.clock, pc.uid)));
    assert Goto(Goto(marked, j, Rereading(pc.clock, pc.uid)), j, Unlocking(Stored(pc.clock, pc.uid))) == s2;
    Releases(s, s2, j);
    SameReturn(marked.(lock := None), j, Unlocking(Stored(pc.clock, pc.uid)), Stored(pc.clock, pc.uid));
  }

  /** What a call returns does not depend on where it stands. */
  lemma SameReturn(s: State, j: nat, pc: Pc, out: Outcome)
    requires j in s.jobs
    ensures Return(Goto(s, j, pc), j, out) == Return(s, j, out)
  {
    var s1 := Goto(s, j, pc);
    var next := Continuation(s.jobs[j].caller, out);
    if next.Some? {
      assert s1.jobs[j := s1.jobs[j].(pc := next.value)] == s.jobs[j := s.jobs[j].(pc := next.value)];
    } else {
      assert s1.jobs - {j} == s.jobs - {j};
    }
  }

  ghost function AfterCall(s: State, j: nat, clock: nat): State
    requires j in s.jobs
  {
    var s1 := Put(s, j, clock, Marking(clock, s.nextUid));
    Return(s1.(marks := s.marks + {s.jobs[j].upd}, lock := None), j, Stored(clock, s.nextUid))
  }

  lemma CallRuns(s: State, j: nat, clock: nat, ok: bool)
    requires j in s.jobs && s.jobs[j].pc.Checking? && s.lock.None? && clock !in s.rows
    requires if ok then IsNextClock(s.rows, clock) else clock == 0
    ensures Leads(s, AfterCall(s, j, clock)) && s.jobs[j].upd <= Doc(AfterCall(s, j, clock).rows)
  {
    StoreRuns(s, j, clock, ok);
    FinishRuns(s, Put(s.(lock := Some(j)), j, clock, Marking(clock, s.nextUid)), j);
    DocInsert(s.rows, clock, Row(s.nextUid, s.jobs[j].upd));
  }

  /** Progress: with the lock free a call can always run to its end, and then has stored its update. */
  lemma UndisturbedCallStores(s: State, j: nat, clock: nat)
    requires j in s.jobs && s.jobs[j].pc.Checking? && s.lock.None? && IsNextClock(s.rows, clock)
    ensures Leads(s, AfterCall(s, j, clock)) && s.jobs[j].upd <= Doc(AfterCall(s, j, clock).rows)
  {
    CallRuns(s, j, clock, true);
  }

  /** getYDoc folds at `s` and starts its compaction; a direct call with {o} starts, too. */
  ghost function BothStarted(s: State, o: Op): State {
    Spawn(Spawn(s, Job(Flush(Uids(s.rows), s.nextUid), Doc(s.rows), Checking)), Job(Direct, {o}, Checking))
  }

  lemma StartRuns(s: State, clock: nat, o: Op)
    requires |s.rows| > PREFERRED_TRIM_SIZE && IsNextClock(s.rows, clock)
    ensures Leads(s, BothStarted(s, o))
  {
    assert Below(s.rows, clock) == s.rows;
    Stay(s);
    Then(s, s, GetYDoc(clock));
    Then(s, Apply(s, GetYDoc(clock)), StartDirect({o}));
  }

  /** The direct call runs to its end before the compaction's store begins. */
  lemma DirectRuns(s: State, clock: nat, o: Op) returns (s1: State)
    requires s.nextJob !in s.jobs && |s.rows| > PREFERRED_TRIM_SIZE && s.lock.None? && IsNextClock(s.rows, clock)
    ensures Leads(s, s1) && s1.lock.None? && s1.lost == s.lost && s.nextJob in s1.jobs
    ensures s1.rows == s.rows[clock := Row(s.nextUid, {o})] && s1.confirmed == s.confirmed[s.nextJob + 1 := {o}]
    ensures s1.jobs[s.nextJob] == Job(Flush(Uids(s.rows), s.nextUid), Doc(s.rows), Checking)
  {
    var s0, d := BothStarted(s, o), s.nextJob + 1;
    StartRuns(s, clock, o);
    UndisturbedCallStores(s0, d, clock);
    s1 := AfterCall(s0, d, clock);
    Join(s, s0, s1);
  }

  /** A compaction about to clear: its rows, and what is lost by it. */
  lemma ClearFacts(s: State, s0: State, f: nat, clock: nat, row: Row)
    requires f in s0.jobs && s0.jobs[f].pc == Clearing(clock, row.uid) && s0.rows == s.rows[clock := row]
    requires IsNextClock(s.rows, clock)
    ensures Enabled(s0, Clear(f)) && Apply(s0, Clear(f)).rows == map[clock := row]
    ensures Apply(s0, Clear(f)).lost == s0.lost + (Doc(s0.rows) - row.upd)
  {
    assert From(s0.rows, clock) == map[clock := row];
    OneRow(clock, row);
  }

  lemma ClearKeeps(s: State, f: nat)
    requires Enabled(s, Clear(f))
    ensures var s' := Apply(s, Clear(f));
            && s'.confirmed == s.confirmed && s'.lock == s.lock && s'.nextUid == s.nextUid && s'.nextJob == s.nextJob
            && s'.jobs == s.jobs - {f}
  {
  }

  /** The state a flush's call leaves, field by field. */
  lemma FlushCall(s: State, f: nat, clock: nat)
    requires f in s.jobs && s.jobs[f].caller.Flush?
    ensures var s0 := AfterCall(s, f, clock);
            && s0.rows == s.rows[clock := Row(s.nextUid, s.jobs[f].upd)] && s0.nextUid == s.nextUid + 1
            && s0.jobs == s.jobs[f := s.jobs[f].(pc := Clearing(clock, s.nextUid))]
            && s0.confirmed == s.confirmed && s0.lost == s.lost && s0.lock.None? && s0.nextJob == s.nextJob
  {
  }

  /** Then the compaction stores its fold and deletes every other row. */
  lemma FlushRuns(s: State, f: nat, clock: nat) returns (s1: State)
    requires f in s.jobs && s.jobs[f].pc.Checking? && s.jobs[f].caller.Flush? && s.lock.None?
    requires IsNextClock(s.rows, clock)
    ensures Leads(s, s1) && s1.confirmed == s.confirmed && s1.lock.None?
    ensures s1.rows == map[clock := Row(s.nextUid, s.jobs[f].upd)] && s1.nextUid == s.nextUid + 1
    ensures s1.lost == s.lost + (Doc(s.rows[clock := Row(s.nextUid, s.jobs[f].upd)]) - s.jobs[f].upd)
    ensures s1.jobs == s.jobs - {f} && s1.nextJob == s.nextJob
  {
    UndisturbedCallStores(s, f, clock);
    FlushCall(s, f, clock);
    var s0 := AfterCall(s, f, clock);
    ClearFacts(s, s0, f, clock, Row(s.nextUid, s.jobs[f].upd));
    ClearKeeps(s0, f);
    Then(s, s0, Clear(f));
    s1 := Apply(s0, Clear(f));
    assert s0.jobs - {f} == s.jobs - {f};
  }

  /**
   The compaction window is real, from every state in which getYDoc would compact: an update stored and
   confirmed between the fold and the flush's insert is in the document no more.
   */
  lemma WindowLosesConfirmedUpdate(s: State, clock: nat, o: Op) returns (s': State)
    requires Inv(s) && |s.rows| > PREFERRED_TRIM_SIZE && s.lock.None?
    requires IsNextClock(s.rows, clock) && o !in s.inserted
    ensures Leads(s, s')
    ensures s.nextJob + 1 in s'.confirmed && s'.confirmed[s.nextJob + 1] == {o}
    ensures Doc(s'.rows) == Doc(s.rows) && o !in Doc(s'.rows) && o in s'.lost
  {
    assert forall j :: j in s.jobs ==> JobOk(s, j);
    var s1 := DirectRuns(s, clock, o);
    s' := FlushRuns(s1, s.nextJob, clock + 1);
    Join(s, s1, s');
    var row := Row(s1.nextUid, Doc(s.rows));
    WindowLoss(s, s1.rows, clock, o, row);
    OneRow(clock + 1, row);
  }

  lemma WindowLoss(s: State, rows: Rows, clock: nat, o: Op, row: Row)
    requires rows == s.rows[clock := Row(s.nextUid, {o})] && Inv(s) && o !in s.inserted
    ensures o in Doc(rows[clock + 1 := row]) && o !in Doc(s.rows)
  {
    assert clock in rows[clock + 1 := row] && o in rows[clock + 1 := row][clock].upd;
  }

  lemma OneRow(k: nat, row: Row)
    ensures Doc(map[k := row]) == row.upd
  {
    DocInsert(map[], k, row);
    assert map[][k := row] == map[k := row];
    assert Doc(map[]) == {};
  }

  /** A compaction of the in-memory document, from its start to its end. */
  lemma CompactionRuns(s: State, clock: nat, doc: Update) returns (s1: State)
    requires s.nextJob !in s.jobs && s.lock.None? && IsNextClock(s.rows, clock)
    ensures Leads(s, s1) && s1.lock.None? && s1.rows == map[clock := Row(s.nextUid, doc)]
    ensures s1.nextUid == s.nextUid + 1 && s1.jobs == s.jobs && s1.nextJob == s.nextJob + 1
  {
    var f := s.nextJob;
    Stay(s);
    Then(s, s, WriteState(doc));
    var s0 := Apply(s, WriteState(doc));
    s1 := FlushRuns(s0, f, clock);
    assert s0.jobs - {f} == s.jobs;
    Join(s, s0, s1);
  }

  /** A direct call whose clock query fails, with clock 0 free. */
  lemma FailedQueryRuns(s: State, o: Op) returns (s': State)
    requires s.nextJob !in s.jobs && s.lock.None? && 0 !in s.rows
    ensures Leads(s, s') && s'.rows == s.rows[0 := Row(s.nextUid, {o})]
  {
    Stay(s);
    Then(s, s, StartDirect({o}));
    var s1 := Spawn(s, Job(Direct, {o}, Checking));
    CallRuns(s1, s.nextJob, 0, false);
    s' := AfterCall(s1, s.nextJob, 0);
    Join(s, s1, s');
  }

  /**
   A failed clock query counts as an empty document. From every state with rows and a free lock: after a
   compaction clock 0 is free, and the update of a call whose query failed is stored there, below older rows.
   */
  lemma FailedQueryStoresBelow(s: State, clock: nat, doc: Update, o: Op) returns (s': State)
    requires (forall j :: j in s.jobs ==> j < s.nextJob) && s.lock.None?
    requires IsNextClock(s.rows, clock) && s.rows != map[]
    ensures Leads(s, s') && s'.rows == map[clock := Row(s.nextUid, doc), 0 := Row(s.nextUid + 1, {o})] && 0 < clock
  {
    var k :| k in s.rows;
    var s1 := CompactionRuns(s, clock, doc);
    s' := FailedQueryRuns(s1, o);
    Join(s, s1, s');
  }
}
