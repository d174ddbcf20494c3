/**
 The persistence of ONE document as a transition system: its Redis Stream (the write-ahead log), the
 consumer group of the workers, the update rows of `tex_sync`, the update-hash marks, the distributed
 lock, and every running call of storeUpdate. An event is what happens between two awaits, or a fault:
 a crash, an expiry, a redelivery, a lost reply.
 */
module Storage {
  import opened Base

  const PREFERRED_TRIM_SIZE: nat := 500
  const MAX_LOCK_RETRIES: nat := 15

  /** A row of content type "update". `uid` is the order of insertion; no code reads it. */
  datatype Row = Row(uid: nat, upd: Update)
  type Rows = map<nat, Row>

  /** The document that the rows fold into. */
  ghost function Doc(rows: Rows): Update {
    set k, o | k in rows && o in rows[k].upd :: o
  }

  /** The clock after the largest stored one (the query orders by clock, descending, and takes one). */
  ghost predicate IsNextClock(rows: Rows, clock: nat) {
    && (forall k :: k in rows ==> k < clock)
    && (clock > 0 ==> clock - 1 in rows)
  }

  ghost function From(rows: Rows, clock: nat): Rows {
    map k | k in rows && clock <= k :: rows[k]
  }

  ghost function Below(rows: Rows, clock: nat): Rows {
    map k | k in rows && k < clock :: rows[k]
  }

  ghost function Uids(rows: Rows): set<nat> {
    set k | k in rows :: rows[k].uid
  }

  /** Who called storeUpdate. A flush remembers which rows its merged state was read from, and when. */
  datatype Caller =
    | Worker(id: nat)
    | Direct
    | Flush(seen: set<nat>, since: nat)

  datatype Outcome = Stored(clock: nat, uid: nat) | Dedup | Failed

  /** The await a call is suspended at. `read` tells a clock that was read from one defaulted after a query error. */
  datatype Pc =
    | Checking
    | Locking(times: nat)
    | Reading
    | Inserting(clock: nat, read: bool)
    | Marking(clock: nat, uid: nat)
    | Rereading(clock: nat, uid: nat)
    | Unlocking(out: Outcome)
    | Acking
    | Clearing(clock: nat, uid: nat)

  datatype Job = Job(caller: Caller, upd: Update, pc: Pc)

  datatype State = State(
    stream: seq<Option<Update>>,  // entries in id order; None: no payload
    delivered: nat,               // last-delivered-id, as a position
    acked: set<nat>,              // delivered and XACKed; the other delivered ones are pending
    rows: Rows,
    nextUid: nat,
    marks: set<Update>,           // live update-hash marks
    lock: Option<nat>,            // the unexpired holder
    jobs: map<nat, Job>,
    nextJob: nat,
    confirmed: map<nat, Update>,  // direct calls that returned success
    inserted: Update,             // history: all operations ever inserted
    direct: Update,               // history: those inserted by direct calls and flushes
    lost: Update)                 // history: operations a compaction removed from the document

  ghost predicate Init(s: State) {
    s == State([], 0, {}, map[], 0, {}, None, map[], 0, map[], {}, {}, {})
  }

  datatype Event =
    | Append(payload: Option<Update>)   // XADD
    | Deliver(count: nat)               // XREADGROUP >
    | StartEntry(id: nat)               // a consumer reaches a delivered or reclaimed entry
    | StartDirect(upd: Update)          // fallback when XADD fails
    | GetYDoc(cut: nat)                 // fold the rows below cut, then compact
    | WriteState(upd: Update)           // compact the in-memory document
    | Check(j: nat, hit: bool)
    | TryLock(j: nat)
    | ReadClock(j: nat, ok: bool, clock: nat)
    | Insert(j: nat, reported: bool)
    | Mark(j: nat, reported: bool)
    | Reread(j: nat)
    | Unlock(j: nat, reached: bool)     // reached: the compare-and-delete was sent; not if the GET before it fails
    | Ack(j: nat)
    | Clear(j: nat)
    | Fail(j: nat)                      // the awaited call throws; at Reading: the lock was set, its reply lost
    | ExpireLock
    | ExpireMark(upd: Update)
    | Crash(victims: set<nat>)

  ghost predicate Enabled(s: State, e: Event) {
    match e
    case Append(_) => true
    case Deliver(count) => s.delivered + count <= |s.stream|
    case StartEntry(id) => id < s.delivered <= |s.stream|
    case StartDirect(_) => true
    case GetYDoc(_) => |s.rows| > PREFERRED_TRIM_SIZE
    case WriteState(_) => true
    case Check(j, hit) => j in s.jobs && s.jobs[j].pc.Checking? && (hit ==> s.jobs[j].upd in s.marks)
    case TryLock(j) => j in s.jobs && s.jobs[j].pc.Locking?
    case ReadClock(j, ok, clock) =>
      j in s.jobs && s.jobs[j].pc.Reading? && if ok then IsNextClock(s.rows, clock) else clock == 0
    case Insert(j, _) => j in s.jobs && s.jobs[j].pc.Inserting?
    case Mark(j, _) => j in s.jobs && s.jobs[j].pc.Marking?
    case Reread(j) => j in s.jobs && s.jobs[j].pc.Rereading?
    case Unlock(j, _) => j in s.jobs && s.jobs[j].pc.Unlocking?
    case Ack(j) => j in s.jobs && s.jobs[j].pc.Acking? && s.jobs[j].caller.Worker?
    case Clear(j) => j in s.jobs && s.jobs[j].pc.Clearing?
    case Fail(j) => j in s.jobs
    case ExpireLock => true
    case ExpireMark(_) => true
    case Crash(_) => true
  }

  ghost function Goto(s: State, j: nat, pc: Pc): State
    requires j in s.jobs
  {
    s.(jobs := s.jobs[j := s.jobs[j].(pc := pc)])
  }

  ghost function End(s: State, j: nat): State {
    s.(jobs := s.jobs - {j})
  }

  ghost function Spawn(s: State, job: Job): State {
    s.(jobs := s.jobs[s.nextJob := job], nextJob := s.nextJob + 1)
  }

  /** What a caller goes on to do with the result of storeUpdate, if anything. */
  ghost function Continuation(caller: Caller, out: Outcome): Option<Pc> {
    if caller.Worker? && !out.Failed? then Some(Acking)
    else if caller.Flush? && out.Stored? then Some(Clearing(out.clock, out.uid))
    else None
  }

  /** storeUpdate returned `out` to its caller. */
  ghost function Return(s: State, j: nat, out: Outcome): State
    requires j in s.jobs
  {
    var job := s.jobs[j];
    var pc := Continuation(job.caller, out);
    s.(jobs := if pc.Some? then s.jobs[j := job.(pc := pc.value)] else s.jobs - {j},
       confirmed := if job.caller.Direct? && !out.Failed? then s.confirmed[j := job.upd] else s.confirmed)
  }

  ghost function InsertRow(s: State, j: nat, reported: bool): State
    requires j in s.jobs && s.jobs[j].pc.Inserting?
  {
    var job := s.jobs[j];
    var clock := job.pc.clock;
    if clock in s.rows then Goto(s, j, Unlocking(Failed))  // unique key violated: pgPut rethrows
    else
      var s' := s.(
        rows := s.rows[clock := Row(s.nextUid, job.upd)],
        nextUid := s.nextUid + 1,
        inserted := s.inserted + job.upd,
        direct := if job.caller.Worker? then s.direct else s.direct + job.upd);
      Goto(s', j, if reported then Marking(clock, s.nextUid) else Unlocking(Failed))
  }

  ghost function ClearRows(s: State, clock: nat): State {
    s.(rows := From(s.rows, clock), lost := s.lost + (Doc(s.rows) - Doc(From(s.rows, clock))))
  }

  ghost function Apply(s: State, e: Event): State
    requires Enabled(s, e)
  {
    match e
    case Append(payload) => s.(stream := s.stream + [payload])
    case Deliver(count) =>
      s.(delivered := s.delivered + count)
    case StartEntry(id) =>
      if s.stream[id].None? then Spawn(s, Job(Worker(id), {}, Acking))  // dropped: acknowledged unstored
      else Spawn(s, Job(Worker(id), s.stream[id].value, Checking))
    case StartDirect(upd) => Spawn(s, Job(Direct, upd, Checking))
    case GetYDoc(cut) =>
      Spawn(s, Job(Flush(Uids(Below(s.rows, cut)), s.nextUid), Doc(Below(s.rows, cut)), Checking))
    case WriteState(upd) =>
      Spawn(s, Job(Flush(set k | k in s.rows && s.rows[k].upd <= upd :: s.rows[k].uid, s.nextUid), upd, Checking))
    case Check(j, hit) => if hit then Return(s, j, Dedup) else Goto(s, j, Locking(0))
    case TryLock(j) =>
      if s.jobs[j].pc.times > MAX_LOCK_RETRIES then Goto(s, j, Unlocking(Failed))
      else if s.lock.None? then Goto(s.(lock := Some(j)), j, Reading)
      else Goto(s, j, Locking(s.jobs[j].pc.times + 1))
    case ReadClock(j, ok, clock) => Goto(s, j, Inserting(clock, ok))
    case Insert(j, reported) => InsertRow(s, j, reported)
    case Mark(j, reported) =>
      var pc := s.jobs[j].pc;
      Goto(s.(marks := s.marks + {s.jobs[j].upd}), j, if reported then Rereading(pc.clock, pc.uid) else Unlocking(Failed))
    case Reread(j) => Goto(s, j, Unlocking(Stored(s.jobs[j].pc.clock, s.jobs[j].pc.uid)))
    case Unlock(j, reached) =>
      Return(s.(lock := if reached && s.lock == Some(j) then None else s.lock), j, s.jobs[j].pc.out)
    case Ack(j) => End(s.(acked := s.acked + {s.jobs[j].caller.id}), j)
    case Clear(j) => End(ClearRows(s, s.jobs[j].pc.clock), j)
    case Fail(j) =>
      if !s.jobs[j].pc.Checking? && !s.jobs[j].pc.Unlocking? && !s.jobs[j].pc.Acking? && !s.jobs[j].pc.Clearing?
      then Goto(s, j, Unlocking(Failed))  // caught inside storeUpdate; the lock is released in finally
      else End(s, j)
    case ExpireLock => s.(lock := None)
    case ExpireMark(upd) => s.(marks := s.marks - {upd})
    case Crash(victims) => s.(jobs := s.jobs - victims)
  }

  ghost predicate IsRun(s: State, es: seq<Event>)
    decreases |es|
  {
    es == [] || (Enabled(s, es[0]) && IsRun(Apply(s, es[0]), es[1..]))
  }

  ghost function Run(s: State, es: seq<Event>): State
    requires IsRun(s, es)
    decreases |es|
  {
    if es == [] then s else Run(Apply(s, es[0]), es[1..])
  }

  /** A state some run of events reaches from the empty document. */
  ghost predicate Reaches(s: State, es: seq<Event>, s': State) {
    IsRun(s, es) && Run(s, es) == s'
  }
}
