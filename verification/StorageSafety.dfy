/**
 What every run of the persistence machine keeps: acknowledged means stored, a live hash mark means
 stored, nothing inserted disappears except through a compaction, and a drained log equals the document.
 */
module StorageSafety {
  import opened Base
  import opened Storage

  /** Position of a call after its row was inserted or found to be a duplicate. */
  ghost predicate HasStored(pc: Pc) {
    || pc.Marking? || pc.Rereading? || pc.Acking? || pc.Clearing?
    || (pc.Unlocking? && !pc.out.Failed?)
  }

  ghost predicate JobOk(s: State, j: nat)
    requires j in s.jobs
  {
    var job := s.jobs[j];
    && j < s.nextJob
    && (job.caller.Worker? ==>
          && job.caller.id < s.delivered <= |s.stream|
          && job.upd == Payload(s.stream[job.caller.id]))
    && (HasStored(job.pc) ==> job.upd <= s.inserted)
    && (job.pc.Acking? ==> job.caller.Worker?)
  }

  ghost function Payload(entry: Option<Update>): Update {
    if entry.None? then {} else entry.value
  }

  ghost predicate Inv(s: State) {
    && s.delivered <= |s.stream|
    && Doc(s.rows) + s.lost == s.inserted
    && (forall id :: id in s.acked ==> id < s.delivered && Payload(s.stream[id]) <= s.inserted)
    && (forall u :: u in s.marks ==> u <= s.inserted)
    && (forall j :: j in s.confirmed ==> j < s.nextJob && s.confirmed[j] <= s.inserted)
    && (forall j :: j in s.jobs ==> JobOk(s, j))
    && s.direct <= s.inserted
    && Sourced(s)
  }

  /** Every inserted operation came from a stream entry or from a direct call or flush. */
  ghost predicate Sourced(s: State) {
    forall o :: o in s.inserted ==> o in s.direct || o in Appended(s)
  }

  /** The operations of all entries of the stream. */
  ghost function Appended(s: State): Update {
    set i, o | 0 <= i < |s.stream| && o in Payload(s.stream[i]) :: o
  }

  lemma DocInsert(rows: Rows, clock: nat, row: Row)
    requires clock !in rows
    ensures Doc(rows[clock := row]) == Doc(rows) + row.upd
  {
    var rows' := rows[clock := row];
    forall o | o in row.upd ensures o in Doc(rows') {
      assert clock in rows' && o in rows'[clock].upd;
    }
    forall o | o in Doc(rows) ensures o in Doc(rows') {
      var k :| k in rows && o in rows[k].upd;
      assert k in rows' && o in rows'[k].upd;
    }
  }

  lemma DocFrom(rows: Rows, clock: nat)
    ensures Doc(From(rows, clock)) <= Doc(rows)
  {
    forall o | o in Doc(From(rows, clock)) ensures o in Doc(rows) {
      var k :| k in From(rows, clock) && o in From(rows, clock)[k].upd;
      assert k in rows && o in rows[k].upd;
    }
  }

  lemma InitInv(s: State)
    requires Init(s)
    ensures Inv(s)
  {
  }

  /** Nothing an event does takes an entry, a delivery or a history back; few events touch the other fields. */
  ghost predicate Grows(s: State, e: Event, s': State) {
    && s.stream <= s'.stream && s.delivered <= s'.delivered && s.acked <= s'.acked && s.nextJob <= s'.nextJob
    && s.inserted <= s'.inserted && s.direct <= s'.direct
    && s.nextUid <= s'.nextUid
    && (e.Ack? || s'.acked == s.acked)
    && (e.Clear? || s'.lost == s.lost)
    && (e.Insert? || (s'.inserted == s.inserted && s'.direct == s.direct))
    && (e.Insert? || e.Clear? || (s'.rows == s.rows && s'.nextUid == s.nextUid))
    && (e.Check? || e.Unlock? || s'.confirmed == s.confirmed)
  }

  lemma StepGrows(s: State, e: Event)
    requires Enabled(s, e)
    ensures Grows(s, e, Apply(s, e))
  {
    if e.Check? {
      CheckGrows(s, e);
    } else if e.Unlock? {
      UnlockGrows(s, e);
    } else {
      OthersGrow(s, e);
    }
  }

  lemma CheckGrows(s: State, e: Event)
    requires e.Check? && Enabled(s, e)
    ensures Grows(s, e, Apply(s, e))
  {
  }

  lemma UnlockGrows(s: State, e: Event)
    requires e.Unlock? && Enabled(s, e)
    ensures Grows(s, e, Apply(s, e))
  {
  }

  lemma OthersGrow(s: State, e: Event)
    requires !e.Check? && !e.Unlock? && Enabled(s, e)
    ensures Grows(s, e, Apply(s, e))
  {
    var s' := Apply(s, e);
    match e
    case Append(_) => assert Grows(s, e, s');
    case Deliver(_) => assert Grows(s, e, s');
    case StartEntry(_) => assert Grows(s, e, s');
    case StartDirect(_) => assert Grows(s, e, s');
    case GetYDoc(_) => assert Grows(s, e, s');
    case WriteState(_) => assert Grows(s, e, s');
    case TryLock(_) => assert Grows(s, e, s');
    case ReadClock(_, _, _) => assert Grows(s, e, s');
    case Insert(_, _) => assert Grows(s, e, s');
    case Mark(_, _) => assert Grows(s, e, s');
    case Reread(_) => assert Grows(s, e, s');
    case Ack(_) => assert Grows(s, e, s');
    case Clear(_) => assert Grows(s, e, s');
    case Fail(_) => assert Grows(s, e, s');
    case ExpireLock => assert Grows(s, e, s');
    case ExpireMark(_) => assert Grows(s, e, s');
    case Crash(_) => assert Grows(s, e, s');
  }

  lemma StepConserves(s: State, e: Event)
    requires Inv(s) && Enabled(s, e)
    ensures Doc(Apply(s, e).rows) + Apply(s, e).lost == Apply(s, e).inserted
  {
    if e.Insert? {
      if s.jobs[e.j].pc.clock !in s.rows {
        DocInsert(s.rows, s.jobs[e.j].pc.clock, Row(s.nextUid, s.jobs[e.j].upd));
      }
    } else if e.Clear? {
      DocFrom(s.rows, s.jobs[e.j].pc.clock);
    } else {
      StepGrows(s, e);
    }
  }

  lemma StepSourced(s: State, e: Event)
    requires Inv(s) && Enabled(s, e)
    ensures Sourced(Apply(s, e)) && Apply(s, e).direct <= Apply(s, e).inserted
  {
    StepGrows(s, e);
    AppendedGrows(s, Apply(s, e));
    if e.Insert? { InsertSourced(s, e); }
  }

  lemma InsertSourced(s: State, e: Event)
    requires Inv(s) && e.Insert? && Enabled(s, e)
    ensures Sourced(Apply(s, e)) && Apply(s, e).direct <= Apply(s, e).inserted
  {
    var s' := Apply(s, e);
    assert JobOk(s, e.j);
    assert s'.stream == s.stream;
    if s.jobs[e.j].caller.Worker? {
      var id := s.jobs[e.j].caller.id;
      assert forall o :: o in s.jobs[e.j].upd ==> o in Payload(s.stream[id]);
    }
  }

  /** The call that an event is a step of. */
  ghost function Subject(e: Event): Option<nat> {
    if e.Check? || e.TryLock? || e.ReadClock? || e.Insert? || e.Mark? || e.Reread? || e.Unlock? || e.Ack? || e.Clear?
       || e.Fail?
    then Some(e.j) else None
  }

  /** The other calls stay where they are. */
  lemma OthersStay(s: State, e: Event, j: nat)
    requires Enabled(s, e) && j in s.jobs && j != s.nextJob && Subject(e) != Some(j) && j in Apply(s, e).jobs
    ensures Apply(s, e).jobs[j] == s.jobs[j]
  {
    match e
    case Check(_, _) =>
    case TryLock(_) =>
    case Insert(_, _) =>
    case Unlock(_, _) =>
    case Fail(_) =>
    case _ =>
  }

  /** A call keeps its caller and its update; a new one takes them from its entry. */
  lemma StepIdentity(s: State, e: Event, j: nat)
    requires Enabled(s, e) && j in Apply(s, e).jobs && (j in s.jobs ==> j < s.nextJob)
    ensures j in s.jobs ==>
              Apply(s, e).jobs[j].caller == s.jobs[j].caller && Apply(s, e).jobs[j].upd == s.jobs[j].upd
    ensures j !in s.jobs ==> j == s.nextJob < Apply(s, e).nextJob
  {
    if e.Unlock? || e.Check? {
      ReturningIdentity(s, e, j);
    } else {
      OtherIdentity(s, e, j);
    }
  }

  lemma ReturningIdentity(s: State, e: Event, j: nat)
    requires e.Unlock? || e.Check?
    requires Enabled(s, e) && j in Apply(s, e).jobs && (j in s.jobs ==> j < s.nextJob)
    ensures j in s.jobs ==>
              Apply(s, e).jobs[j].caller == s.jobs[j].caller && Apply(s, e).jobs[j].upd == s.jobs[j].upd
    ensures j !in s.jobs ==> j == s.nextJob < Apply(s, e).nextJob
  {
    if e.Unlock? {
    }
  }

  lemma OtherIdentity(s: State, e: Event, j: nat)
    requires !e.Unlock? && !e.Check?
    requires Enabled(s, e) && j in Apply(s, e).jobs && (j in s.jobs ==> j < s.nextJob)
    ensures j in s.jobs ==>
              Apply(s, e).jobs[j].caller == s.jobs[j].caller && Apply(s, e).jobs[j].upd == s.jobs[j].upd
    ensures j !in s.jobs ==> j == s.nextJob < Apply(s, e).nextJob
  {
    match e
    case Insert(_, _) =>
    case TryLock(_) =>
    case Fail(_) =>
    case _ =>
  }

  lemma StepStored(s: State, e: Event, j: nat)
    requires Enabled(s, e) && j in s.jobs && JobOk(s, j) && j in Apply(s, e).jobs && j < s.nextJob
    requires forall u :: u in s.marks ==> u <= s.inserted
    ensures HasStored(Apply(s, e).jobs[j].pc) ==> s.jobs[j].upd <= Apply(s, e).inserted
    ensures Apply(s, e).jobs[j].pc.Acking? ==> s.jobs[j].caller.Worker?
  {
    if e.Check? || e.Unlock? {
      StoredReturns(s, e, j);
    } else {
      StoredElse(s, e, j);
    }
  }

  lemma StoredReturns(s: State, e: Event, j: nat)
    requires Enabled(s, e) && j in s.jobs && JobOk(s, j) && j in Apply(s, e).jobs && (e.Check? || e.Unlock?)
    requires forall u :: u in s.marks ==> u <= s.inserted
    ensures HasStored(Apply(s, e).jobs[j].pc) ==> s.jobs[j].upd <= Apply(s, e).inserted
    ensures Apply(s, e).jobs[j].pc.Acking? ==> s.jobs[j].caller.Worker?
  {
  }

  lemma StoredElse(s: State, e: Event, j: nat)
    requires Enabled(s, e) && j in s.jobs && JobOk(s, j) && j in Apply(s, e).jobs && !e.Check? && !e.Unlock?
    requires j < s.nextJob
    ensures HasStored(Apply(s, e).jobs[j].pc) ==> s.jobs[j].upd <= Apply(s, e).inserted
    ensures Apply(s, e).jobs[j].pc.Acking? ==> s.jobs[j].caller.Worker?
  {
    if Subject(e) == Some(j) {
      StoredOwn(s, e);
    } else {
      OthersStay(s, e, j);
      StepGrows(s, e);
    }
  }

  lemma StoredOwn(s: State, e: Event)
    requires Enabled(s, e) && Subject(e).Some? && JobOk(s, e.j) && e.j in Apply(s, e).jobs && !e.Check? && !e.Unlock?
    ensures HasStored(Apply(s, e).jobs[e.j].pc) ==> s.jobs[e.j].upd <= Apply(s, e).inserted
    ensures Apply(s, e).jobs[e.j].pc.Acking? ==> s.jobs[e.j].caller.Worker?
  {
    match e
    case TryLock(_) =>
    case ReadClock(_, _, _) =>
    case Insert(_, _) =>
    case Mark(_, _) =>
    case Reread(_) =>
    case Fail(_) =>
  }

  lemma StepJobs(s: State, e: Event)
    requires Inv(s) && Enabled(s, e)
    ensures forall j :: j in Apply(s, e).jobs ==> JobOk(Apply(s, e), j)
  {
    StepGrows(s, e);
    var s' := Apply(s, e);
    forall j | j in s'.jobs ensures JobOk(s', j) {
      assert j in s.jobs ==> JobOk(s, j);
      StepIdentity(s, e, j);
      if j in s.jobs {
        StepStored(s, e, j);
      } else {
        StepSpawned(s, e);
      }
    }
  }

  lemma StepSpawned(s: State, e: Event)
    requires Inv(s) && Enabled(s, e) && s.nextJob !in s.jobs && s.nextJob in Apply(s, e).jobs
    ensures JobOk(Apply(s, e), s.nextJob)
  {
    if e.StartEntry? {
      assert JobOk(Apply(s, e), s.nextJob);
    } else if e.StartDirect? || e.GetYDoc? || e.WriteState? {
      assert JobOk(Apply(s, e), s.nextJob);
    } else {
      StepIdentity(s, e, s.nextJob);
    }
  }

  lemma StepMarks(s: State, e: Event)
    requires Inv(s) && Enabled(s, e)
    ensures forall u :: u in Apply(s, e).marks ==> u <= Apply(s, e).inserted
  {
    StepGrows(s, e);
    if e.Mark? {
      assert JobOk(s, e.j);
    }
  }

  lemma StepAcked(s: State, e: Event)
    requires Inv(s) && Enabled(s, e)
    ensures Apply(s, e).delivered <= |Apply(s, e).stream|
    ensures forall id :: id in Apply(s, e).acked ==>
              id < Apply(s, e).delivered && Payload(Apply(s, e).stream[id]) <= Apply(s, e).inserted
  {
    var s' := Apply(s, e);
    StepGrows(s, e);
    OnlyAckAcks(s, e);
    assert forall id :: id in s.acked ==> s'.stream[id] == s.stream[id];
    if e.Ack? {
      assert JobOk(s, e.j);
    }
  }

  lemma OnlyAckAcks(s: State, e: Event)
    requires Enabled(s, e)
    ensures Apply(s, e).acked == if e.Ack? then s.acked + {s.jobs[e.j].caller.id} else s.acked
  {
    if !e.Ack? { StepGrows(s, e); }
  }

  lemma ReturnConfirmed(s: State, e: Event)
    requires Inv(s) && Enabled(s, e) && (e.Check? || e.Unlock?)
    ensures Apply(s, e).inserted == s.inserted && Apply(s, e).nextJob == s.nextJob
    ensures || Apply(s, e).confirmed == s.confirmed
            || (s.jobs[e.j].upd <= s.inserted && Apply(s, e).confirmed == s.confirmed[e.j := s.jobs[e.j].upd])
  {
    assert JobOk(s, e.j);
  }

  lemma StepConfirmed(s: State, e: Event)
    requires Inv(s) && Enabled(s, e)
    ensures forall j :: j in Apply(s, e).confirmed ==>
              j < Apply(s, e).nextJob && Apply(s, e).confirmed[j] <= Apply(s, e).inserted
  {
    StepGrows(s, e);
    if e.Check? || e.Unlock? {
      ReturnConfirmed(s, e);
    }
  }

  lemma StepInv(s: State, e: Event)
    requires Inv(s) && Enabled(s, e)
    ensures Inv(Apply(s, e))
  {
    StepConserves(s, e);
    StepSourced(s, e);
    StepJobs(s, e);
    StepMarks(s, e);
    StepAcked(s, e);
    StepConfirmed(s, e);
  }

  lemma AppendedGrows(s: State, s': State)
    requires s.stream <= s'.stream
    ensures Appended(s) <= Appended(s')
  {
    forall o | o in Appended(s) ensures o in Appended(s') {
      var i :| 0 <= i < |s.stream| && o in Payload(s.stream[i]);
      assert o in Payload(s'.stream[i]);
    }
  }

  lemma {:induction false} RunInv(s: State, es: seq<Event>)
    requires Inv(s) && IsRun(s, es)
    ensures Inv(Run(s, es))
    decreases |es|
  {
    if es == [] {
    } else {
      StepInv(s, es[0]);
      RunInv(Apply(s, es[0]), es[1..]);
    }
  }

  /**
   However entries were delivered, reclaimed, retried, crashed or deduplicated: an acknowledged entry, a
   confirmed direct call and an update with a live hash mark are in the document, up to compaction loss.
   */
  lemma AcknowledgedIsStored(s0: State, es: seq<Event>)
    requires Init(s0) && IsRun(s0, es)
    ensures var s := Run(s0, es);
            && (forall id :: id in s.acked ==> id < |s.stream| && Payload(s.stream[id]) <= Doc(s.rows) + s.lost)
            && (forall u :: u in s.marks ==> u <= Doc(s.rows) + s.lost)
            && (forall j :: j in s.confirmed ==> s.confirmed[j] <= Doc(s.rows) + s.lost)
  {
    InitInv(s0);
    RunInv(s0, es);
  }

  ghost predicate AllAcked(s: State) {
    s.delivered == |s.stream| && forall id :: 0 <= id < |s.stream| ==> id in s.acked
  }

  /** Once every entry is acknowledged, the document is everything appended or directly stored. */
  lemma AllAckedIsEverything(s0: State, es: seq<Event>)
    requires Init(s0) && IsRun(s0, es) && AllAcked(Run(s0, es))
    ensures var s := Run(s0, es); Doc(s.rows) + s.lost == Appended(s) + s.direct
  {
    InitInv(s0);
    RunInv(s0, es);
    var s := Run(s0, es);
    forall o | o in Appended(s) ensures o in s.inserted {
      var i :| 0 <= i < |s.stream| && o in Payload(s.stream[i]);
      assert i in s.acked;
    }
  }

  /**
   Refinement: seen through Doc + lost, the machine is a set that only grows, and each event leaves it
   alone or adds exactly the update of one running call.
   */
  lemma RefinesGrowingSet(s: State, e: Event)
    requires Inv(s) && Enabled(s, e)
    ensures var s' := Apply(s, e);
            if e.Insert? && s.jobs[e.j].pc.clock !in s.rows
            then Doc(s'.rows) + s'.lost == Doc(s.rows) + s.lost + s.jobs[e.j].upd
            else Doc(s'.rows) + s'.lost == Doc(s.rows) + s.lost
  {
    StepConserves(s, e);
  }
}
