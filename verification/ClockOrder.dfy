/**
 Lock and clock. The lock is released only by its holder or by its TTL. As long as no TTL ends inside a critical
 section, at most one call is inside one, and the insert of a call whose clock query succeeded goes to the largest
 clock plus one. A failed query sends the insert to clock 0.
 */
module ClockOrder {
  import opened Base
  import opened Storage
  import opened StorageSafety
  import opened Compaction

  ghost predicate InCriticalSection(pc: Pc) {
    pc.Reading? || pc.Inserting? || pc.Marking? || pc.Rereading?
  }

  /** In every run: only a free lock is taken, and only its holder or its TTL releases it. */
  lemma LockIsReleasedByHolderOrTtl(s: State, e: Event)
    requires Enabled(s, e)
    ensures var s' := Apply(s, e);
            || s'.lock == s.lock
            || (e.TryLock? && s.lock.None? && s'.lock == Some(e.j))
            || (e.Unlock? && s.lock == Some(e.j) && s'.lock.None?)
            || (e.ExpireLock? && s'.lock.None?)
  {
    match e
    case Insert(_, _) =>
    case Check(_, _) =>
    case Unlock(_, _) =>
    case _ =>
  }

  /** No TTL ends while its holder is between taking the lock and releasing it. */
  ghost predicate Calm(s: State, e: Event) {
    e.ExpireLock? && s.lock.Some? && s.lock.value in s.jobs ==> !InCriticalSection(s.jobs[s.lock.value].pc)
  }

  ghost predicate CalmRun(s: State, es: seq<Event>)
    requires IsRun(s, es)
    decreases |es|
  {
    es == [] || (Calm(s, es[0]) && CalmRun(Apply(s, es[0]), es[1..]))
  }

  /** The row of a call that inserted is there, or a later compaction left only rows at or above it. */
  ghost predicate ReachesUp(rows: Rows, c: nat) {
    exists k :: k in rows && c <= k
  }

  ghost predicate CalmJobOk(s: State, j: nat)
    requires j in s.jobs
  {
    var pc := s.jobs[j].pc;
    && j < s.nextJob
    && (InCriticalSection(pc) ==> s.lock == Some(j))
    && (pc.Inserting? && pc.read ==> IsNextClock(s.rows, pc.clock))
    && (pc.Inserting? && !pc.read ==> pc.clock == 0)
    && (Inserted(pc) ==> ReachesUp(s.rows, OwnClock(pc)))
  }

  ghost predicate CalmInv(s: State) {
    forall j :: j in s.jobs ==> CalmJobOk(s, j)
  }

  /** At most one call is between taking the lock and releasing it. */
  lemma MutualExclusion(s: State, i: nat, j: nat)
    requires CalmInv(s) && i in s.jobs && j in s.jobs
    requires InCriticalSection(s.jobs[i].pc) && InCriticalSection(s.jobs[j].pc)
    ensures i == j
  {
    assert CalmJobOk(s, i) && CalmJobOk(s, j);
  }

  /** After a successful query the insert never collides and goes to the largest clock plus one. */
  lemma InsertGoesToNextClock(s: State, j: nat, reported: bool)
    requires CalmInv(s) && Enabled(s, Insert(j, reported)) && s.jobs[j].pc.read
    ensures var s', c := Apply(s, Insert(j, reported)), s.jobs[j].pc.clock;
            && s'.rows == s.rows[c := Row(s.nextUid, s.jobs[j].upd)]
            && IsNextClock(s.rows, c) && IsNextClock(s'.rows, c + 1)
  {
    assert CalmJobOk(s, j);
  }

  /** After a failed query it adds a row exactly if clock 0 is free, and in order exactly if there is no row at all. */
  lemma FailedQueryInsertIff(s: State, j: nat, reported: bool)
    requires CalmInv(s) && Enabled(s, Insert(j, reported)) && !s.jobs[j].pc.read
    ensures var s' := Apply(s, Insert(j, reported));
            && (s'.rows == s.rows[0 := Row(s.nextUid, s.jobs[j].upd)] && s'.nextUid == s.nextUid + 1 <==> 0 !in s.rows)
            && (0 in s.rows ==> s'.rows == s.rows && s'.jobs[j].pc == Unlocking(Failed))
            && (IsNextClock(s.rows, s.jobs[j].pc.clock) <==> s.rows == map[])
  {
    assert CalmJobOk(s, j);
    assert s.rows.Keys == {} ==> s.rows == map[];
  }
}
