/** Runs put together, and the single moves of one call of storeUpdate in closed form. */
module Steps {
  import opened Base
  import opened Storage

  lemma {:induction false} RunAppend(s: State, es: seq<Event>, fs: seq<Event>)
    requires IsRun(s, es) && IsRun(Run(s, es), fs)
    ensures IsRun(s, es + fs) && Run(s, es + fs) == Run(Run(s, es), fs)
    decreases |es|
  {
    if es == [] {
      assert es + fs == fs;
    } else {
      assert (es + fs)[1..] == es[1..] + fs;
      RunAppend(Apply(s, es[0]), es[1..], fs);
    }
  }

  lemma RunStep(s: State, e: Event, es: seq<Event>)
    requires Enabled(s, e) && IsRun(Apply(s, e), es)
    ensures IsRun(s, [e] + es) && Run(s, [e] + es) == Run(Apply(s, e), es)
  {
    assert ([e] + es)[1..] == es;
  }

  lemma ReachesAppend(s: State, es: seq<Event>, s1: State, fs: seq<Event>, s2: State)
    requires Reaches(s, es, s1) && Reaches(s1, fs, s2)
    ensures Reaches(s, es + fs, s2)
  {
    RunAppend(s, es, fs);
  }

  /** Some run of the machine leads from one state to the other. */
  ghost predicate Leads(s: State, s': State) {
    exists es :: Reaches(s, es, s')
  }

  lemma Stay(s: State)
    ensures Leads(s, s)
  {
    assert Reaches(s, [], s);
  }

  lemma Then(s: State, s1: State, e: Event)
    requires Leads(s, s1) && Enabled(s1, e)
    ensures Leads(s, Apply(s1, e))
  {
    RunStep(s1, e, []);
    assert Reaches(s1, [e] + [], Apply(s1, e));
    Join(s, s1, Apply(s1, e));
  }

  lemma Join(s: State, s1: State, s2: State)
    requires Leads(s, s1) && Leads(s1, s2)
    ensures Leads(s, s2)
  {
    var es :| Reaches(s, es, s1);
    var fs :| Reaches(s1, fs, s2);
    ReachesAppend(s, es, s1, fs, s2);
  }

  // One step each, from the state the call is in to the next, in closed form.

  lemma Throws(s: State, s1: State, j: nat)
    requires Leads(s, s1) && j in s1.jobs
    requires !s1.jobs[j].pc.Checking? && !s1.jobs[j].pc.Unlocking? && !s1.jobs[j].pc.Acking? && !s1.jobs[j].pc.Clearing?
    ensures Leads(s, Goto(s1, j, Unlocking(Failed)))
  {
    Then(s, s1, Fail(j));
  }

  lemma GivesUp(s: State, s1: State, j: nat)
    requires Leads(s, s1) && j in s1.jobs && s1.jobs[j].pc.Locking? && s1.jobs[j].pc.times > MAX_LOCK_RETRIES
    ensures Leads(s, Goto(s1, j, Unlocking(Failed)))
  {
    Then(s, s1, TryLock(j));
  }

  lemma Attempts(s: State, s1: State, j: nat)
    requires Leads(s, s1) && j in s1.jobs && s1.jobs[j].pc.Locking? && s1.jobs[j].pc.times <= MAX_LOCK_RETRIES
    ensures Leads(s, if s1.lock.None? then Goto(s1, j, Reading).(lock := Some(j))
                     else Goto(s1, j, Locking(s1.jobs[j].pc.times + 1)))
  {
    Then(s, s1, TryLock(j));
  }

  lemma Expires(s: State, s1: State)
    requires Leads(s, s1)
    ensures Leads(s, s1.(lock := None))
  {
    Then(s, s1, ExpireLock);
  }

  lemma Reads(s: State, s1: State, j: nat, ok: bool, clock: nat)
    requires Leads(s, s1) && j in s1.jobs && s1.jobs[j].pc.Reading?
    requires if ok then IsNextClock(s1.rows, clock) else clock == 0
    ensures Leads(s, Goto(s1, j, Inserting(clock, ok)))
  {
    Then(s, s1, ReadClock(j, ok, clock));
  }

  lemma Marks(s: State, s1: State, j: nat, reported: bool)
    requires Leads(s, s1) && j in s1.jobs && s1.jobs[j].pc.Marking?
    ensures Leads(s, Goto(s1, j, if reported then Rereading(s1.jobs[j].pc.clock, s1.jobs[j].pc.uid) else Unlocking(Failed))
                       .(marks := s1.marks + {s1.jobs[j].upd}))
  {
    Then(s, s1, Mark(j, reported));
  }

  lemma Rereads(s: State, s1: State, j: nat)
    requires Leads(s, s1) && j in s1.jobs && s1.jobs[j].pc.Rereading?
    ensures Leads(s, Goto(s1, j, Unlocking(Stored(s1.jobs[j].pc.clock, s1.jobs[j].pc.uid))))
  {
    Then(s, s1, Reread(j));
  }

  /** The state after a row was put at a free clock. */
  ghost function Put(s: State, j: nat, clock: nat, pc: Pc): State
    requires j in s.jobs
  {
    s.(rows := s.rows[clock := Row(s.nextUid, s.jobs[j].upd)],
       nextUid := s.nextUid + 1,
       inserted := s.inserted + s.jobs[j].upd,
       direct := if s.jobs[j].caller.Worker? then s.direct else s.direct + s.jobs[j].upd,
       jobs := s.jobs[j := s.jobs[j].(pc := pc)])
  }

  lemma Inserts(s: State, s1: State, j: nat, clock: nat, ok: bool, reported: bool)
    requires j in s1.jobs && Leads(s, Goto(s1, j, Inserting(clock, ok)))
    ensures clock in s1.rows ==> Leads(s, Goto(s1, j, Unlocking(Failed)))
    ensures clock !in s1.rows ==>
              Leads(s, Put(s1, j, clock, if reported then Marking(clock, s1.nextUid) else Unlocking(Failed)))
  {
    var s2 := Goto(s1, j, Inserting(clock, ok));
    Then(s, s2, Insert(j, reported));
    if clock in s1.rows {
      assert InsertRow(s2, j, reported) == Goto(s1, j, Unlocking(Failed));
    } else {
      assert InsertRow(s2, j, reported)
          == Put(s1, j, clock, if reported then Marking(clock, s1.nextUid) else Unlocking(Failed));
    }
  }

  lemma FailsUnlocked(s: State, s1: State, j: nat)
    requires Leads(s, s1) && j in s1.jobs && (s1.jobs[j].pc.Checking? || s1.jobs[j].pc.Unlocking?)
    ensures Leads(s, End(s1, j))
  {
    Then(s, s1, Fail(j));
  }

  lemma Duplicate(s: State, j: nat)
    requires j in s.jobs && s.jobs[j].pc.Checking? && s.jobs[j].upd in s.marks
    ensures Leads(s, Return(s, j, Dedup))
  {
    Stay(s);
    Then(s, s, Check(j, true));
  }

  lemma NewUpdate(s: State, j: nat)
    requires j in s.jobs && s.jobs[j].pc.Checking?
    ensures Leads(s, Goto(s, j, Locking(0)))
  {
    Stay(s);
    Then(s, s, Check(j, false));
  }

  /** The compare-and-delete was done; its reply came, or was lost and the call threw. */
  lemma Releases(s: State, s1: State, j: nat)
    requires Leads(s, s1) && j in s1.jobs && s1.jobs[j].pc.Unlocking?
    ensures var r := s1.(lock := if s1.lock == Some(j) then None else s1.lock);
            Leads(s, Return(r, j, r.jobs[j].pc.out)) && Leads(s, End(r, j))
  {
    Then(s, s1, Unlock(j, true));
    var r := s1.(lock := if s1.lock == Some(j) then None else s1.lock);
    if s1.lock == Some(j) { Expires(s, s1); }
    FailsUnlocked(s, r, j);
  }

  /** The GET before it failed: the call returns with the lock as it is. */
  lemma SkipsRelease(s: State, s1: State, j: nat)
    requires Leads(s, s1) && j in s1.jobs && s1.jobs[j].pc.Unlocking?
    ensures Leads(s, Return(s1, j, s1.jobs[j].pc.out))
  {
    Then(s, s1, Unlock(j, false));
    assert s1.(lock := s1.lock) == s1;
  }
}
