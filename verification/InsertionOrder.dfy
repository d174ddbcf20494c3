/**
 Calm runs in which no clock query fails: rows stand in the order of their insertion, and so a compaction deletes
 unmerged exactly the rows inserted between its fold and its own insert.
 */
module InsertionOrder {
  import opened Base
  import opened Storage
  import opened StorageSafety
  import opened Compaction
  import opened ClockOrder
  import opened ClockRuns

  /** No clock query fails. */
  ghost predicate ReadsOk(es: seq<Event>) {
    forall e :: e in es && e.ReadClock? ==> e.ok
  }

  /** Rows stand in the order of insertion. */
  ghost predicate Ordered(rows: Rows) {
    forall k, l :: k in rows && l in rows && k < l ==> rows[k].uid < rows[l].uid
  }

  /** The row is at its clock, or only rows above it are left; above it stand younger rows. */
  ghost predicate OwnRowAt(rows: Rows, c: nat, uid: nat) {
    && ((c in rows && rows[c].uid == uid) || (forall k :: k in rows ==> c < k))
    && (forall k :: k in rows && c < k ==> uid < rows[k].uid)
  }

  ghost predicate OrderedJobOk(s: State, j: nat)
    requires j in s.jobs
  {
    var pc := s.jobs[j].pc;
    && (pc.Inserting? ==> pc.read)
    && (Inserted(pc) ==> OwnUid(pc) < s.nextUid && OwnRowAt(s.rows, OwnClock(pc), OwnUid(pc)))
  }

  ghost predicate OrderedInv(s: State) {
    && CalmInv(s) && RowsOk(s) && Ordered(s.rows)
    && (forall j :: j in s.jobs ==> OrderedJobOk(s, j))
  }

  lemma StepOrdered(s: State, e: Event)
    requires OrderedInv(s) && Enabled(s, e)
    ensures RowsOk(Apply(s, e)) && Ordered(Apply(s, e).rows)
  {
    StepRowsOk(s, e);
    var s' := Apply(s, e);
    if e.Insert? {
      assert OrderedJobOk(s, e.j);
      InsertGoesToNextClock(s, e.j, e.reported);
    }
    forall k, l | k in s'.rows && l in s'.rows && k < l ensures s'.rows[k].uid < s'.rows[l].uid {
      RowsAreNew(s, e, k);
      RowsAreNew(s, e, l);
    }
  }

  lemma StepOwnRow(s: State, e: Event, j: nat)
    requires OrderedInv(s) && Enabled(s, e) && j in s.jobs && j in Apply(s, e).jobs
    requires Inserted(Apply(s, e).jobs[j].pc)
    ensures OwnUid(Apply(s, e).jobs[j].pc) < Apply(s, e).nextUid
    ensures OwnRowAt(Apply(s, e).rows, OwnClock(Apply(s, e).jobs[j].pc), OwnUid(Apply(s, e).jobs[j].pc))
  {
    assert CalmJobOk(s, j) && OrderedJobOk(s, j);
    StepInserted(s, e, j);
    StepGrows(s, e);
    if Inserted(s.jobs[j].pc) {
      var c, uid := OwnClock(s.jobs[j].pc), OwnUid(s.jobs[j].pc);
      if e.Insert? {
        assert OrderedJobOk(s, e.j);
        InsertGoesToNextClock(s, e.j, e.reported);
        InsertKeepsOwnRow(s.rows, c, uid, s.jobs[e.j].pc.clock, Row(s.nextUid, s.jobs[e.j].upd));
      }
    } else {
      assert OrderedJobOk(s, e.j);
      InsertGoesToNextClock(s, e.j, e.reported);
    }
  }

  lemma InsertKeepsOwnRow(rows: Rows, c: nat, uid: nat, clock: nat, row: Row)
    requires OwnRowAt(rows, c, uid) && ReachesUp(rows, c) && uid < row.uid && forall k :: k in rows ==> k < clock
    ensures OwnRowAt(rows[clock := row], c, uid)
  {
  }

  lemma StepOrderedInv(s: State, e: Event)
    requires OrderedInv(s) && Enabled(s, e) && Calm(s, e) && (e.ReadClock? ==> e.ok)
    ensures OrderedInv(Apply(s, e))
  {
    var s' := Apply(s, e);
    StepCalmInv(s, e);
    StepOrdered(s, e);
    forall j | j in s'.jobs ensures OrderedJobOk(s', j) {
      if j in s.jobs {
        assert CalmJobOk(s, j) && OrderedJobOk(s, j);
        if s'.jobs[j].pc.Inserting? { StepInserting(s, e, j); }
        if Inserted(s'.jobs[j].pc) { StepOwnRow(s, e, j); }
      } else {
        StepIdentity(s, e, j);
        assert !Inserted(s'.jobs[j].pc) && !s'.jobs[j].pc.Inserting?;
      }
    }
  }

  lemma {:induction false} RunOrderedInv(s: State, es: seq<Event>)
    requires OrderedInv(s) && IsRun(s, es) && CalmRun(s, es) && ReadsOk(es)
    ensures OrderedInv(Run(s, es))
    decreases |es|
  {
    if es == [] {
    } else {
      assert es[0] in es && forall e :: e in es[1..] ==> e in es;
      StepOrderedInv(s, es[0]);
      RunOrderedInv(Apply(s, es[0]), es[1..]);
    }
  }

  lemma OrderedRunsFromStart(s0: State, es: seq<Event>)
    requires Init(s0) && IsRun(s0, es) && CalmRun(s0, es) && ReadsOk(es)
    ensures Ordered(Run(s0, es).rows)
  {
    RunOrderedInv(s0, es);
  }

  /** The fold saw all rows there were when it was read. */
  ghost predicate FullFold(s: State, j: nat) {
    j in s.jobs ==>
      s.jobs[j].caller.Flush? &&
      forall k :: k in s.rows && s.rows[k].uid < s.jobs[j].caller.since ==> s.rows[k].uid in s.jobs[j].caller.seen
  }

  lemma StepFullFold(s: State, e: Event, j: nat)
    requires Enabled(s, e) && FullFold(s, j) && j < s.nextJob
    requires j in s.jobs && s.jobs[j].caller.Flush? ==> s.jobs[j].caller.since <= s.nextUid
    ensures FullFold(Apply(s, e), j) && j < Apply(s, e).nextJob
    ensures var s' := Apply(s, e);
            j in s'.jobs && s'.jobs[j].caller.Flush? ==> s'.jobs[j].caller.since <= s'.nextUid
  {
    var s' := Apply(s, e);
    StepGrows(s, e);
    if j in s'.jobs {
      StepIdentity(s, e, j);
      forall k | k in s'.rows && s'.rows[k].uid < s'.jobs[j].caller.since
        ensures s'.rows[k].uid in s'.jobs[j].caller.seen
      {
        RowsAreNew(s, e, k);
      }
    }
  }

  lemma {:induction false} RunFullFold(s: State, es: seq<Event>, j: nat)
    requires IsRun(s, es) && FullFold(s, j) && j < s.nextJob
    requires j in s.jobs && s.jobs[j].caller.Flush? ==> s.jobs[j].caller.since <= s.nextUid
    ensures FullFold(Run(s, es), j)
    decreases |es|
  {
    if es == [] {
    } else {
      StepFullFold(s, es[0], j);
      RunFullFold(Apply(s, es[0]), es[1..], j);
    }
  }

  /**
   getYDoc folds all rows at `s0` and flushes. When the flush later clears, after any calm interleaving without
   failed clock queries, the rows it deletes unmerged are exactly those inserted after the fold and before its own.
   */
  lemma MissedIsTheWindow(s0: State, cut: nat, es: seq<Event>)
    requires OrderedInv(s0) && FlushInv(s0) && Enabled(s0, GetYDoc(cut))
    requires forall k :: k in s0.rows ==> k < cut
    requires var s1 := Apply(s0, GetYDoc(cut)); IsRun(s1, es) && CalmRun(s1, es) && ReadsOk(es)
    requires Enabled(Run(Apply(s0, GetYDoc(cut)), es), Clear(s0.nextJob))
    ensures var s, j := Run(Apply(s0, GetYDoc(cut)), es), s0.nextJob;
            && s.jobs[j].caller.Flush?
            && (forall k :: k in s.rows ==>
                  (k in Missed(s, j) <==> s0.nextUid <= s.rows[k].uid < OwnUid(s.jobs[j].pc)))
            && Doc(Apply(s, Clear(j)).rows) + Doc(Missed(s, j)) == Doc(s.rows)
  {
    var s1, j := Apply(s0, GetYDoc(cut)), s0.nextJob;
    NewFoldIsFull(s0, cut);
    StepOrderedInv(s0, GetYDoc(cut));
    StepFlushInv(s0, GetYDoc(cut));
    RunFullFold(s1, es, j);
    RunOrderedInv(s1, es);
    RunFlushInv(s1, es);
    RunSince(s1, es, j);
    MissedNow(Run(s1, es), j);
  }

  lemma NewFoldIsFull(s: State, cut: nat)
    requires Enabled(s, GetYDoc(cut)) && forall k :: k in s.rows ==> k < cut
    ensures FullFold(Apply(s, GetYDoc(cut)), s.nextJob)
  {
    var s' := Apply(s, GetYDoc(cut));
    forall k | k in s'.rows ensures s'.rows[k].uid in s'.jobs[s.nextJob].caller.seen {
      assert k in Below(s.rows, cut);
    }
  }

  lemma MissedNow(s: State, j: nat)
    requires OrderedInv(s) && FlushInv(s) && Enabled(s, Clear(j)) && FullFold(s, j)
    ensures forall k :: k in s.rows ==>
              (k in Missed(s, j) <==> s.jobs[j].caller.since <= s.rows[k].uid < OwnUid(s.jobs[j].pc))
    ensures Doc(Apply(s, Clear(j)).rows) + Doc(Missed(s, j)) == Doc(s.rows)
  {
    MissedIsBetween(s, j);
    ClearAccounting(s, j);
  }

  lemma MissedIsBetween(s: State, j: nat)
    requires OrderedInv(s) && FlushInv(s) && Enabled(s, Clear(j)) && FullFold(s, j)
    ensures forall k :: k in s.rows ==>
              (k in Missed(s, j) <==> s.jobs[j].caller.since <= s.rows[k].uid < OwnUid(s.jobs[j].pc))
  {
    assert CalmJobOk(s, j) && OrderedJobOk(s, j);
    var c, uid := s.jobs[j].pc.clock, OwnUid(s.jobs[j].pc);
    forall k | k in s.rows ensures k < c <==> s.rows[k].uid < uid { OlderIff(s.rows, c, uid, k); }
  }

  lemma OlderIff(rows: Rows, c: nat, uid: nat, k: nat)
    requires Ordered(rows) && OwnRowAt(rows, c, uid) && k in rows
    ensures k < c <==> rows[k].uid < uid
  {
  }

  lemma {:induction false} RunSince(s: State, es: seq<Event>, j: nat)
    requires IsRun(s, es) && j < s.nextJob
    ensures j in s.jobs && j in Run(s, es).jobs ==> Run(s, es).jobs[j].caller == s.jobs[j].caller
    ensures j !in s.jobs ==> j !in Run(s, es).jobs
    decreases |es|
  {
    if es == [] {
    } else {
      var s' := Apply(s, es[0]);
      StepGrows(s, es[0]);
      if j in s'.jobs { StepIdentity(s, es[0], j); }
      RunSince(s', es[1..], j);
    }
  }
}
