/** All calm runs keep that: calls insert one at a time, and in order those whose clock query succeeded. */
module ClockRuns {
  import opened Base
  import opened Storage
  import opened StorageSafety
  import opened Compaction
  import opened ClockOrder

  lemma ClearKeepsReach(rows: Rows, c: nat, clear: nat)
    requires ReachesUp(rows, c) && ReachesUp(rows, clear)
    ensures ReachesUp(From(rows, clear), c)
  {
    var top :| top in rows && c <= top;
    var kept :| kept in rows && clear <= kept;
    var rows' := From(rows, clear);
    assert kept in rows' && (top <= kept || top in rows');
  }

  lemma InsertKeepsReach(rows: Rows, c: nat, clock: nat, row: Row)
    requires ReachesUp(rows, c)
    ensures ReachesUp(rows[clock := row], c)
  {
    var top :| top in rows && c <= top;
    assert top in rows[clock := row];
  }

  /** The critical section is entered by taking the lock, and while inside the lock stays. */
  lemma StepHolds(s: State, e: Event, j: nat)
    requires Enabled(s, e) && Calm(s, e) && j in s.jobs && j < s.nextJob && j in Apply(s, e).jobs
    requires InCriticalSection(s.jobs[j].pc) ==> s.lock == Some(j)
    ensures InCriticalSection(Apply(s, e).jobs[j].pc) ==> Apply(s, e).lock == Some(j)
  {
    LockIsReleasedByHolderOrTtl(s, e);
    match e
    case Insert(_, _) =>
    case Check(_, _) =>
    case Unlock(_, _) =>
    case Fail(_) =>
    case TryLock(_) =>
    case _ =>
  }

  lemma StepInserting(s: State, e: Event, j: nat)
    requires Enabled(s, e) && j in s.jobs && j < s.nextJob && j in Apply(s, e).jobs
    requires Apply(s, e).jobs[j].pc.Inserting?
    ensures || (e.ReadClock? && e.j == j && Apply(s, e).rows == s.rows && Apply(s, e).jobs[j].pc == Inserting(e.clock, e.ok))
            || (s.jobs[j].pc == Apply(s, e).jobs[j].pc && !(e.Insert? && e.j == j))
  {
    if Subject(e) == Some(j) {
      match e
      case Check(_, _) =>
      case TryLock(_) =>
      case ReadClock(_, _, _) =>
      case Insert(_, _) =>
      case Unlock(_, _) =>
      case Fail(_) =>
      case _ =>
    } else {
      OthersStay(s, e, j);
    }
  }

  lemma StepNextClock(s: State, e: Event, j: nat)
    requires CalmInv(s) && Enabled(s, e) && j in s.jobs && j in Apply(s, e).jobs
    requires Apply(s, e).jobs[j].pc.Inserting?
    ensures var pc := Apply(s, e).jobs[j].pc;
            if pc.read then IsNextClock(Apply(s, e).rows, pc.clock) else pc.clock == 0
  {
    assert CalmJobOk(s, j);
    StepInserting(s, e, j);
    if e.Clear? {
      assert CalmJobOk(s, e.j);
    }
  }

  lemma StepReaches(s: State, e: Event, j: nat)
    requires CalmInv(s) && Enabled(s, e) && j in s.jobs && j in Apply(s, e).jobs
    requires Inserted(Apply(s, e).jobs[j].pc)
    ensures ReachesUp(Apply(s, e).rows, OwnClock(Apply(s, e).jobs[j].pc))
  {
    var s' := Apply(s, e);
    assert CalmJobOk(s, j);
    StepInserted(s, e, j);
    if Inserted(s.jobs[j].pc) {
      var c := OwnClock(s.jobs[j].pc);
      if e.Insert? {
        InsertKeepsReach(s.rows, c, s.jobs[e.j].pc.clock, Row(s.nextUid, s.jobs[e.j].upd));
      } else if e.Clear? {
        assert CalmJobOk(s, e.j);
        ClearKeepsReach(s.rows, c, s.jobs[e.j].pc.clock);
      }
    } else {
      assert OwnClock(s'.jobs[j].pc) in s'.rows;
    }
  }

  lemma StepCalmInv(s: State, e: Event)
    requires CalmInv(s) && Enabled(s, e) && Calm(s, e)
    ensures CalmInv(Apply(s, e))
  {
    var s' := Apply(s, e);
    StepGrows(s, e);
    forall j | j in s'.jobs ensures CalmJobOk(s', j) {
      if j in s.jobs {
        assert CalmJobOk(s, j);
        StepHolds(s, e, j);
        if s'.jobs[j].pc.Inserting? { StepNextClock(s, e, j); }
        if Inserted(s'.jobs[j].pc) { StepReaches(s, e, j); }
      } else {
        StepIdentity(s, e, j);
        assert !InCriticalSection(s'.jobs[j].pc) && !Inserted(s'.jobs[j].pc) && !s'.jobs[j].pc.Inserting?;
      }
    }
  }

  lemma {:induction false} RunCalmInv(s: State, es: seq<Event>)
    requires CalmInv(s) && IsRun(s, es) && CalmRun(s, es)
    ensures CalmInv(Run(s, es))
    decreases |es|
  {
    if es == [] {
    } else {
      StepCalmInv(s, es[0]);
      RunCalmInv(Apply(s, es[0]), es[1..]);
    }
  }

  /** From the empty document, in every calm run: one call at a time, each read clock still the next one. */
  lemma CalmRunsSerialize(s0: State, es: seq<Event>, i: nat, j: nat)
    requires Init(s0) && IsRun(s0, es) && CalmRun(s0, es)
    requires i in Run(s0, es).jobs && j in Run(s0, es).jobs
    requires InCriticalSection(Run(s0, es).jobs[i].pc) && InCriticalSection(Run(s0, es).jobs[j].pc)
    ensures var s := Run(s0, es);
            && i == j && s.lock == Some(j)
            && (s.jobs[j].pc.Inserting? && s.jobs[j].pc.read ==> IsNextClock(s.rows, s.jobs[j].pc.clock))
  {
    RunCalmInv(s0, es);
    assert CalmJobOk(Run(s0, es), j);
    MutualExclusion(Run(s0, es), i, j);
  }

  /** So the insert of a call whose query succeeded goes to the largest clock plus one, whatever other queries did. */
  lemma CalmRunsInsertNext(s0: State, es: seq<Event>, j: nat, reported: bool)
    requires Init(s0) && IsRun(s0, es) && CalmRun(s0, es)
    requires Enabled(Run(s0, es), Insert(j, reported)) && Run(s0, es).jobs[j].pc.read
    ensures var s := Run(s0, es);
            var c := s.jobs[j].pc.clock;
            && IsNextClock(s.rows, c)
            && Apply(s, Insert(j, reported)).rows == s.rows[c := Row(s.nextUid, s.jobs[j].upd)]
  {
    RunCalmInv(s0, es);
    InsertGoesToNextClock(Run(s0, es), j, reported);
  }
}
