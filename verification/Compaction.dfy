/**
 What a compaction deletes: exactly the rows below its own clock. The merged state was read earlier and
 without the lock, so a row its fold did not see is deleted without being merged.
 */
module Compaction {
  import opened Base
  import opened Storage
  import opened StorageSafety

  ghost predicate RowsOk(s: State) {
    && (forall k :: k in s.rows ==> s.rows[k].uid < s.nextUid)
    && (forall k, l :: k in s.rows && l in s.rows && s.rows[k].uid == s.rows[l].uid ==> k == l)
  }

  /** The call has inserted its own row: at which clock, and which row. */
  ghost predicate Inserted(pc: Pc) {
    || pc.Marking? || pc.Rereading? || pc.Clearing?
    || (pc.Unlocking? && pc.out.Stored?)
  }

  ghost function OwnClock(pc: Pc): nat
    requires Inserted(pc)
  {
    match pc
    case Marking(c, _) => c
    case Rereading(c, _) => c
    case Clearing(c, _) => c
    case Unlocking(out) => out.clock
  }

  ghost function OwnUid(pc: Pc): nat
    requires Inserted(pc)
  {
    match pc
    case Marking(_, u) => u
    case Rereading(_, u) => u
    case Clearing(_, u) => u
    case Unlocking(out) => out.uid
  }

  /** A later compaction may already have deleted the flush's row, but then also all rows the fold saw. */
  ghost predicate FlushOk(rows: Rows, nextUid: nat, job: Job)
    requires job.caller.Flush?
  {
    && job.caller.since <= nextUid
    && (forall u :: u in job.caller.seen ==> u < job.caller.since)
    && (forall k :: k in rows && rows[k].uid in job.caller.seen ==> rows[k].upd <= job.upd)
    && (Inserted(job.pc) ==>
          var c := OwnClock(job.pc);
          || (c in rows && rows[c] == Row(OwnUid(job.pc), job.upd))
          || (forall k :: k in rows && k < c ==> rows[k].uid !in job.caller.seen))
  }

  ghost predicate FlushInv(s: State) {
    && RowsOk(s)
    && (forall j :: j in s.jobs ==> j < s.nextJob)
    && (forall j :: j in s.jobs && s.jobs[j].pc.Clearing? ==> s.jobs[j].caller.Flush?)
    && (forall j :: j in s.jobs && s.jobs[j].caller.Flush? ==> FlushOk(s.rows, s.nextUid, s.jobs[j]))
  }

  /** Rows only go when a compaction clears them, and are never overwritten, whatever happens to the lock. */
  lemma RowsAreImmutable(s: State, e: Event, k: nat)
    requires Enabled(s, e) && k in s.rows
    ensures || (k in Apply(s, e).rows && Apply(s, e).rows[k] == s.rows[k])
            || (e.Clear? && k < s.jobs[e.j].pc.clock && k !in Apply(s, e).rows)
  {
    if !e.Insert? && !e.Clear? { StepGrows(s, e); }
  }

  lemma RowsAreNew(s: State, e: Event, k: nat)
    requires Enabled(s, e) && k in Apply(s, e).rows
    ensures || (k in s.rows && Apply(s, e).rows[k] == s.rows[k])
            || (e.Insert? && k !in s.rows && k == s.jobs[e.j].pc.clock
                && Apply(s, e).rows[k] == Row(s.nextUid, s.jobs[e.j].upd)
                && Apply(s, e).nextUid == s.nextUid + 1)
    ensures s.nextUid <= Apply(s, e).nextUid
  {
    if !e.Insert? && !e.Clear? { StepGrows(s, e); }
  }

  lemma StepRowsOk(s: State, e: Event)
    requires RowsOk(s) && Enabled(s, e)
    ensures RowsOk(Apply(s, e)) && s.nextUid <= Apply(s, e).nextUid
  {
    var s' := Apply(s, e);
    StepGrows(s, e);
    forall k | k in s'.rows ensures s'.rows[k].uid < s'.nextUid { RowsAreNew(s, e, k); }
    forall k, l | k in s'.rows && l in s'.rows && s'.rows[k].uid == s'.rows[l].uid ensures k == l {
      RowsAreNew(s, e, k);
      RowsAreNew(s, e, l);
    }
  }

  /** A call that has inserted a row keeps it; it gets one only by inserting at a free clock. */
  lemma StepInserted(s: State, e: Event, j: nat)
    requires Enabled(s, e) && j in s.jobs && j < s.nextJob && j in Apply(s, e).jobs
    requires Inserted(Apply(s, e).jobs[j].pc)
    ensures var pc, pc' := s.jobs[j].pc, Apply(s, e).jobs[j].pc;
            || (Inserted(pc) && OwnClock(pc') == OwnClock(pc) && OwnUid(pc') == OwnUid(pc))
            || (e.Insert? && e.j == j && OwnClock(pc') == pc.clock && pc.clock !in s.rows && OwnUid(pc') == s.nextUid)
  {
    if Subject(e) == Some(j) { OwnStepInserted(s, e); } else { OthersStay(s, e, j); }
  }

  lemma OwnStepInserted(s: State, e: Event)
    requires Enabled(s, e) && Subject(e).Some? && e.j in Apply(s, e).jobs && Inserted(Apply(s, e).jobs[e.j].pc)
    ensures var pc, pc' := s.jobs[e.j].pc, Apply(s, e).jobs[e.j].pc;
            || (Inserted(pc) && OwnClock(pc') == OwnClock(pc) && OwnUid(pc') == OwnUid(pc))
            || (e.Insert? && OwnClock(pc') == pc.clock && pc.clock !in s.rows && OwnUid(pc') == s.nextUid)
  {
    match e
    case Check(_, _) =>
    case TryLock(_) =>
    case ReadClock(_, _, _) =>
    case Insert(_, _) =>
    case Mark(_, _) =>
    case Reread(_) =>
    case Unlock(_, _) =>
    case Fail(_) =>
  }

  lemma StepFlushOk(s: State, e: Event, j: nat)
    requires FlushInv(s) && Enabled(s, e) && j in s.jobs && j in Apply(s, e).jobs && s.jobs[j].caller.Flush?
    ensures Apply(s, e).jobs[j].caller == s.jobs[j].caller
    ensures FlushOk(Apply(s, e).rows, Apply(s, e).nextUid, Apply(s, e).jobs[j])
  {
    var s' := Apply(s, e);
    StepIdentity(s, e, j);
    StepRowsOk(s, e);
    var job, job' := s.jobs[j], s'.jobs[j];
    forall k | k in s'.rows && s'.rows[k].uid in job.caller.seen
      ensures k in s.rows && s'.rows[k] == s.rows[k]
    {
      RowsAreNew(s, e, k);
    }
    if Inserted(job'.pc) {
      StepInserted(s, e, j);
      var c := OwnClock(job'.pc);
      if Inserted(job.pc) && c in s.rows && s.rows[c] == Row(OwnUid(job.pc), job.upd) {
        RowsAreImmutable(s, e, c);
      }
    }
  }

  lemma StepNewFlush(s: State, e: Event)
    requires FlushInv(s) && Enabled(s, e) && s.nextJob in Apply(s, e).jobs
    requires Apply(s, e).jobs[s.nextJob].caller.Flush?
    ensures FlushOk(Apply(s, e).rows, Apply(s, e).nextUid, Apply(s, e).jobs[s.nextJob])
  {
    var job := Apply(s, e).jobs[s.nextJob];
    assert Apply(s, e).rows == s.rows && !Inserted(job.pc);
    forall k | k in s.rows && s.rows[k].uid in job.caller.seen ensures s.rows[k].upd <= job.upd {
      if e.GetYDoc? {
        var l :| l in Below(s.rows, e.cut) && Below(s.rows, e.cut)[l].uid == s.rows[k].uid;
        assert l == k;
        forall o | o in s.rows[k].upd ensures o in Doc(Below(s.rows, e.cut)) {
          assert k in Below(s.rows, e.cut) && o in Below(s.rows, e.cut)[k].upd;
        }
      }
    }
  }

  lemma StepFlushInv(s: State, e: Event)
    requires FlushInv(s) && Enabled(s, e)
    ensures FlushInv(Apply(s, e))
  {
    var s' := Apply(s, e);
    StepRowsOk(s, e);
    forall j | j in s'.jobs
      ensures j < s'.nextJob
      ensures s'.jobs[j].pc.Clearing? ==> s'.jobs[j].caller.Flush?
      ensures s'.jobs[j].caller.Flush? ==> FlushOk(s'.rows, s'.nextUid, s'.jobs[j])
    {
      StepIdentity(s, e, j);
      StepGrows(s, e);
      if j in s.jobs {
        StepClearing(s, e, j);
        if s.jobs[j].caller.Flush? { StepFlushOk(s, e, j); }
      } else {
        if s'.jobs[j].caller.Flush? { StepNewFlush(s, e); }
      }
    }
  }

  lemma StepClearing(s: State, e: Event, j: nat)
    requires Enabled(s, e) && j in s.jobs && j < s.nextJob && j in Apply(s, e).jobs
    requires s.jobs[j].pc.Clearing? ==> s.jobs[j].caller.Flush?
    ensures Apply(s, e).jobs[j].pc.Clearing? ==> s.jobs[j].caller.Flush?
  {
    if Subject(e) == Some(j) {
      match e
      case Check(_, _) =>
      case TryLock(_) =>
      case Insert(_, _) =>
      case Unlock(_, _) =>
      case Fail(_) =>
      case _ =>
    } else {
      OthersStay(s, e, j);
    }
  }

  lemma {:induction false} RunFlushInv(s: State, es: seq<Event>)
    requires FlushInv(s) && IsRun(s, es)
    ensures FlushInv(Run(s, es))
    decreases |es|
  {
    if es == [] {
    } else {
      StepFlushInv(s, es[0]);
      RunFlushInv(Apply(s, es[0]), es[1..]);
    }
  }

  /** The rows a clearing flush deletes although its fold did not see them. */
  ghost function Missed(s: State, j: nat): Rows
    requires j in s.jobs && s.jobs[j].pc.Clearing? && s.jobs[j].caller.Flush?
  {
    map k | k in s.rows && k < s.jobs[j].pc.clock && s.rows[k].uid !in s.jobs[j].caller.seen :: s.rows[k]
  }

  /** Exact accounting, in every reachable state: the document before is the one after plus what was missed. */
  lemma ClearAccounting(s: State, j: nat)
    requires FlushInv(s) && Enabled(s, Clear(j))
    ensures var s' := Apply(s, Clear(j));
            && s'.rows == From(s.rows, s.jobs[j].pc.clock)
            && Doc(s'.rows) + Doc(Missed(s, j)) == Doc(s.rows)
            && (Doc(s'.rows) == Doc(s.rows) <==> Doc(Missed(s, j)) <= Doc(s'.rows))
            && s'.lost == s.lost + (Doc(Missed(s, j)) - Doc(s'.rows))
  {
    var s', c, missed := Apply(s, Clear(j)), s.jobs[j].pc.clock, Missed(s, j);
    DocFrom(s.rows, c);
    forall o | o in Doc(missed) ensures o in Doc(s.rows) {
      var k :| k in missed && o in missed[k].upd;
      assert k in s.rows && o in s.rows[k].upd;
    }
    forall o | o in Doc(s.rows) ensures o in Doc(s'.rows) || o in Doc(missed) {
      var k :| k in s.rows && o in s.rows[k].upd;
      if c <= k {
        assert k in s'.rows && o in s'.rows[k].upd;
      } else if s.rows[k].uid in s.jobs[j].caller.seen {
        assert c in s'.rows && o in s'.rows[c].upd;
      } else {
        assert k in missed && o in missed[k].upd;
      }
    }
  }

  /** Of what a compaction clears unseen, everything is in the rows that stay, or was lost before. */
  ghost predicate Covered(s: State, e: Event)
    requires Enabled(s, e)
  {
    e.Clear? && s.jobs[e.j].caller.Flush? ==> Doc(Missed(s, e.j)) <= Doc(From(s.rows, s.jobs[e.j].pc.clock)) + s.lost
  }

  /** So it is when the fold saw every row below the flush's own. */
  lemma SeenIsCovered(s: State, e: Event)
    requires Enabled(s, e) && (e.Clear? && s.jobs[e.j].caller.Flush? ==> Missed(s, e.j) == map[])
    ensures Covered(s, e)
  {
    assert Doc(map[]) == {};
  }

  ghost predicate CoveredRun(s: State, es: seq<Event>)
    requires IsRun(s, es)
    decreases |es|
  {
    es == [] || (Covered(s, es[0]) && CoveredRun(Apply(s, es[0]), es[1..]))
  }

  lemma ClearLosesNothingIff(s: State, j: nat)
    requires FlushInv(s) && Enabled(s, Clear(j))
    ensures s.lost <= Apply(s, Clear(j)).lost
    ensures Apply(s, Clear(j)).lost == s.lost <==> Covered(s, Clear(j))
  {
    assert s.jobs[j].caller.Flush?;
    ClearAccounting(s, j);
  }

  /** One event loses nothing exactly if it is covered. */
  lemma StepLosesNothingIff(s: State, e: Event)
    requires FlushInv(s) && Enabled(s, e)
    ensures s.lost <= Apply(s, e).lost
    ensures Apply(s, e).lost == s.lost <==> Covered(s, e)
  {
    if e.Clear? {
      ClearLosesNothingIff(s, e.j);
    } else {
      StepGrows(s, e);
    }
  }

  /** A run loses nothing if and only if every compaction in it is covered. */
  lemma {:induction false} RunLosesNothingIff(s: State, es: seq<Event>)
    requires FlushInv(s) && IsRun(s, es)
    ensures s.lost <= Run(s, es).lost
    ensures Run(s, es).lost == s.lost <==> CoveredRun(s, es)
    decreases |es|
  {
    if es == [] {
    } else {
      StepFlushInv(s, es[0]);
      StepLosesNothingIff(s, es[0]);
      RunLosesNothingIff(Apply(s, es[0]), es[1..]);
    }
  }

  /**
   From the empty document: nothing is ever lost if and only if every compaction is covered. Then acknowledged
   means contained in the rows, and a drained log is the document.
   */
  lemma CoveredRunsAreDurable(s0: State, es: seq<Event>)
    requires Init(s0) && IsRun(s0, es)
    ensures CoveredRun(s0, es) <==> Run(s0, es).lost == {}
    ensures CoveredRun(s0, es) ==>
            var s := Run(s0, es);
            && Doc(s.rows) == s.inserted
            && (forall id :: id in s.acked ==> id < |s.stream| && Payload(s.stream[id]) <= Doc(s.rows))
            && (forall u :: u in s.marks ==> u <= Doc(s.rows))
            && (AllAcked(s) ==> Doc(s.rows) == Appended(s) + s.direct)
  {
    AcknowledgedIsStored(s0, es);
    RunLosesNothingIff(s0, es);
    InitInv(s0);
    RunInv(s0, es);
    if AllAcked(Run(s0, es)) { AllAckedIsEverything(s0, es); }
  }
}
