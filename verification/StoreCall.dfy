/**
 The server's storing code as it is written, on the rows and keys of SyncTable. Each method hands back the
 run of the persistence machine that it performed, so every theorem about those runs is about this code.
 What others do between two awaits of one call is the machine's subject; here only a lock may expire.
 */
module StoreCall {
  import opened Base
  import opened Steps
  import opened Storage
  import opened SyncTable

  /** What goes wrong during one call of storeUpdate. */
  datatype Trouble = Trouble(
    check: Io,
    hashHit: bool,            // the mark, if there is one, is of the same bytes
    setNx: map<nat, Io>,      // attempts at the lock that throw
    expiries: set<nat>,       // attempts after which the present holder's lock expires
    clockFails: bool,
    vectorFails: bool,
    insert: Io,
    mark: Io,
    reread: Io,
    unlockGet: bool,          // the GET before the release fails
    unlock: Io)
  {
    predicate Absent() {
      && check == Fine && setNx == map[] && !clockFails && insert == Fine && mark == Fine && reread == Fine
      && !unlockGet && unlock == Fine
    }
  }

  /** The call ended and its caller got `clock`, or an exception. */
  ghost predicate EndsAs(s: State, s': State, j: nat, clock: int, thrown: bool)
    requires j in s.jobs
  {
    var job := s.jobs[j];
    var done := !thrown && clock != STORE_UPDATE_FAILED;
    match job.caller
    case Worker(_) =>
      s'.confirmed == s.confirmed && s'.jobs == if done then s.jobs[j := job.(pc := Acking)] else s.jobs - {j}
    case Direct =>
      s'.jobs == s.jobs - {j} && s'.confirmed == if done then s.confirmed[j := job.upd] else s.confirmed
    case Flush(_, _) =>
      && s'.confirmed == s.confirmed
      && if !thrown && clock >= 0
         then exists uid :: s'.jobs == s.jobs[j := job.(pc := Clearing(clock, uid))]
         else s'.jobs == s.jobs - {j}
  }

  /** Only what a call of storeUpdate may touch differs. */
  ghost predicate SameElse(s: State, s': State) {
    s' == s.(rows := s'.rows, nextUid := s'.nextUid, marks := s'.marks, lock := s'.lock, jobs := s'.jobs,
             confirmed := s'.confirmed, inserted := s'.inserted, direct := s'.direct)
  }

  ghost predicate RowsAre(updates: map<nat, Update>, rows: Rows) {
    && updates.Keys == rows.Keys
    && (forall k :: k in rows ==> updates[k] == rows[k].upd)
  }

  lemma NewestIsNext(updates: map<nat, Update>, rows: Rows, clock: int)
    requires RowsAre(updates, rows) && (clock == -1 ==> updates == map[])
    requires clock != -1 ==> clock in updates && forall k :: k in updates ==> k <= clock
    ensures IsNextClock(rows, clock + 1)
  {
    assert clock == -1 ==> rows.Keys == {};
  }

  /** The call is about to release the lock and to return `clock`. */
  ghost predicate AboutToReturn(s: State, s1: State, j: nat, clock: int) {
    && j in s.jobs && j in s1.jobs
    && s1.jobs[j].pc.Unlocking? && s1.jobs == s.jobs[j := s.jobs[j].(pc := s1.jobs[j].pc)]
    && SameElse(s, s1) && s1.confirmed == s.confirmed
    && var out := s1.jobs[j].pc.out;
       if clock == STORE_UPDATE_FAILED then out.Failed? else out.Stored? && out.clock == clock
  }

  lemma Ending(s: State, s1: State, s': State, j: nat, clock: int, thrown: bool)
    requires AboutToReturn(s, s1, j, clock)
    requires var r := s1.(lock := s'.lock); s' == if thrown then End(r, j) else Return(r, j, r.jobs[j].pc.out)
    ensures EndsAs(s, s', j, clock, thrown) && SameElse(s, s') && s'.rows == s1.rows && s'.marks == s1.marks
  {
    var out := s1.jobs[j].pc.out;
    assert s1.jobs - {j} == s.jobs - {j};
    if !thrown && out.Stored? {
      assert s1.jobs[j := s.jobs[j].(pc := Acking)] == s.jobs[j := s.jobs[j].(pc := Acking)];
      assert s1.jobs[j := s.jobs[j].(pc := Clearing(clock, out.uid))]
          == s.jobs[j := s.jobs[j].(pc := Clearing(clock, out.uid))];
    }
  }

  lemma EndingEarly(s: State, j: nat)
    requires j in s.jobs
    ensures EndsAs(s, End(s, j), j, STORE_UPDATE_FAILED, true) && SameElse(s, End(s, j))
    ensures EndsAs(s, Return(s, j, Dedup), j, STORE_UPDATE_DEDUP, false) && SameElse(s, Return(s, j, Dedup))
    ensures Return(s, j, Dedup).rows == s.rows && Return(s, j, Dedup).marks == s.marks && Return(s, j, Dedup).lock == s.lock
  {
  }

  lemma GotoTwice(s: State, j: nat, pc: Pc, lock: Option<nat>, pc': Pc, lock': Option<nat>)
    requires j in s.jobs
    ensures Goto(Goto(s, j, pc).(lock := lock), j, pc').(lock := lock') == Goto(s, j, pc').(lock := lock')
  {
    assert s.jobs[j := s.jobs[j].(pc := pc)][j := s.jobs[j].(pc := pc')] == s.jobs[j := s.jobs[j].(pc := pc')];
  }

  class Server {
    const table: TexSync
    const keys: RedisKeys

    constructor (table: TexSync, keys: RedisKeys)
      ensures this.table == table && this.keys == keys
    {
      this.table, this.keys := table, keys;
    }

    /** The rows and keys are those of the machine's state. */
    ghost predicate Shows(s: State)
      reads table, keys
    {
      && RowsAre(table.updates, s.rows)
      && keys.holder == s.lock && keys.marks == s.marks && keys.stream == s.stream && keys.acked == s.acked
    }

    /** One SET ... NX. */
    method AttemptLock(j: nat, times: nat, io: Io, ghost s: State) returns (got: bool, thrown: bool, ghost s': State)
      requires times <= MAX_LOCK_RETRIES && Shows(s) && j in s.jobs && s.jobs[j].pc == Locking(times)
      modifies keys`holder
      ensures Shows(s') && Leads(s, s') && !(got && thrown)
      ensures s' == Goto(s, j, if got then Reading else if thrown then Unlocking(Failed) else Locking(times + 1))
                      .(lock := s'.lock)
      ensures (got ==> s'.lock == Some(j)) && (!got && !thrown ==> s'.lock == s.lock)
      ensures io == Fine ==> !thrown && (got <==> s.lock.None?)
    {
      Stay(s);
      if io == Refused {
        Throws(s, s, j);
        return false, true, Goto(s, j, Unlocking(Failed));
      }
      var ok := keys.SetNx(j);
      if io == LostReply && !ok {
        Throws(s, s, j);
        return false, true, Goto(s, j, Unlocking(Failed));
      }
      Attempts(s, s, j);
      if !ok { return false, false, Goto(s, j, Locking(times + 1)); }
      s' := Goto(s, j, Reading).(lock := Some(j));
      if io == Fine { return true, false, s'; }
      Throws(s, s', j);
      got, thrown, s' := false, true, Goto(s', j, Unlocking(Failed));
    }

    /** Up to sixteen attempts; true exactly when the lock was found free and set. */
    method GetRedisDestriLock(j: nat, times: nat, t: Trouble, ghost s: State) returns (got: bool, ghost s': State)
      requires times <= MAX_LOCK_RETRIES + 1
      requires Shows(s) && j in s.jobs && s.jobs[j].pc == Locking(times)
      modifies keys`holder
      ensures Shows(s') && Leads(s, s')
      ensures s' == Goto(s, j, if got then Reading else Unlocking(Failed)).(lock := s'.lock)
      ensures got ==> keys.holder == Some(j)
      ensures t.setNx == map[] && s.lock.None? && times <= MAX_LOCK_RETRIES ==> got
      ensures t.setNx == map[] && (exists k :: times <= k < MAX_LOCK_RETRIES && k in t.expiries) ==> got
      decreases MAX_LOCK_RETRIES + 1 - times
    {
      if times > MAX_LOCK_RETRIES {
        Stay(s);
        GivesUp(s, s, j);
        return false, Goto(s, j, Unlocking(Failed));
      }
      var thrown;
      got, thrown, s' := AttemptLock(j, times, if times in t.setNx then t.setNx[times] else Fine, s);
      if got || thrown { return; }
      if times in t.expiries {
        keys.holder := None;
        Expires(s, s');
        s' := s'.(lock := None);
      }
      ghost var s1 := s';
      got, s' := GetRedisDestriLock(j, times + 1, t, s1);
      Join(s, s1, s');
      GotoTwice(s, j, Locking(times + 1), s1.lock, if got then Reading else Unlocking(Failed), s'.lock);
    }

    /** Under the lock: read the clock and insert above it. */
    method PutAtNextClock(j: nat, upd: Update, t: Trouble, ghost s: State)
      returns (clock: nat, thrown: bool, ghost s': State)
      requires Shows(s) && j in s.jobs && s.jobs[j].pc == Reading && s.jobs[j].upd == upd
      modifies table
      ensures Shows(s') && Leads(s, s')
      ensures !thrown ==> clock !in s.rows && s' == Put(s, j, clock, Marking(clock, s.nextUid))
      ensures thrown ==> s' == Goto(s, j, Unlocking(Failed))
                         || (clock !in s.rows && s' == Put(s, j, clock, Unlocking(Failed)))
      ensures !t.clockFails ==> forall k :: k in s.rows ==> k < clock
      ensures table.vector == if clock == 0 && !t.vectorFails then Some((0, upd)) else old(table.vector)
      ensures t.Absent() ==> !thrown
    {
      hide Leads;
      Stay(s);
      var current := table.GetCurrentUpdateClock(t.clockFails);
      clock := current + 1;
      if !t.clockFails { NewestIsNext(table.updates, s.rows, current); }
      Reads(s, s, j, !t.clockFails, clock);
      if current == -1 {
        table.PgPutUpsert(0, upd, t.vectorFails);
      }
      thrown := table.PgPut(upd, clock, t.insert);
      if t.insert == Refused {
        ghost var s1 := Goto(s, j, Inserting(clock, !t.clockFails));
        Throws(s, s1, j);
        assert Goto(s1, j, Unlocking(Failed)) == Goto(s, j, Unlocking(Failed));
        return clock, thrown, Goto(s, j, Unlocking(Failed));
      }
      Inserts(s, s, j, clock, !t.clockFails, !thrown);
      s' := if clock in s.rows then Goto(s, j, Unlocking(Failed))
            else Put(s, j, clock, if thrown then Unlocking(Failed) else Marking(clock, s.nextUid));
    }

    /** Under the lock: read the clock, insert, mark, read back. */
    method InsertAtNextClock(j: nat, upd: Update, t: Trouble, ghost s: State) returns (clock: int, ghost s': State)
      requires Shows(s) && j in s.jobs && s.jobs[j].pc == Reading && s.jobs[j].upd == upd
      modifies table, keys`marks
      ensures Shows(s') && Leads(s, s') && AboutToReturn(s, s', j, clock) && s'.lock == s.lock
      ensures clock >= 0 || clock == STORE_UPDATE_FAILED
      ensures clock >= 0 ==> clock !in s.rows && s'.rows == s.rows[clock := Row(s.nextUid, upd)]
      ensures clock >= 0 ==> s'.marks == s.marks + {upd}
      ensures clock >= 0 && !t.clockFails ==> forall k :: k in s.rows ==> k < clock
      ensures clock >= 0 ==> table.vector == if clock == 0 && !t.vectorFails then Some((0, upd)) else old(table.vector)
      ensures t.Absent() ==> clock >= 0
    {
      var thrown;
      clock, thrown, s' := PutAtNextClock(j, upd, t, s);
      if thrown { return STORE_UPDATE_FAILED, s'; }
      clock, s' := MarkAndReread(j, upd, clock, t, s, s');
    }

    method MarkAndReread(j: nat, upd: Update, at: nat, t: Trouble, ghost s: State, ghost s1: State)
      returns (clock: int, ghost s': State)
      requires Shows(s1) && Leads(s, s1) && j in s1.jobs && s1.jobs[j].upd == upd
      requires s1.jobs[j].pc.Marking? && s1.jobs[j].pc.clock == at
      modifies keys`marks
      ensures Shows(s') && Leads(s, s')
      ensures clock == at || clock == STORE_UPDATE_FAILED
      ensures clock == at ==> s'.marks == s1.marks + {upd}
      ensures t.Absent() ==> clock == at
      ensures var out := if clock == at then Stored(at, s1.jobs[j].pc.uid) else Failed;
              s' == Goto(s1, j, Unlocking(out)).(marks := s'.marks)
    {
      var thrown := keys.MarkUpdateHash(upd, t.mark);
      if t.mark == Refused {
        Throws(s, s1, j);
        return STORE_UPDATE_FAILED, Goto(s1, j, Unlocking(Failed));
      }
      Marks(s, s1, j, !thrown);
      ghost var pc := s1.jobs[j].pc;
      s' := Goto(s1, j, if thrown then Unlocking(Failed) else Rereading(pc.clock, pc.uid)).(marks := s1.marks + {upd});
      if thrown { return STORE_UPDATE_FAILED, s'; }
      if t.reread != Fine {
        Throws(s, s', j);
        return STORE_UPDATE_FAILED, Goto(s', j, Unlocking(Failed));
      }
      Rereads(s, s', j);
      s' := Goto(s', j, Unlocking(Stored(pc.clock, pc.uid)));
      clock := at;
    }

    /** The try block, up to the release of the lock. */
    method TryStore(j: nat, upd: Update, t: Trouble, ghost s: State) returns (clock: int, ghost s': State)
      requires Shows(s) && j in s.jobs && s.jobs[j].pc == Locking(0) && s.jobs[j].upd == upd
      modifies table, keys`holder, keys`marks
      ensures Shows(s') && Leads(s, s') && AboutToReturn(s, s', j, clock)
      ensures clock >= 0 || clock == STORE_UPDATE_FAILED
      ensures clock >= 0 ==> clock !in s.rows && s'.rows == s.rows[clock := Row(s.nextUid, upd)]
      ensures clock >= 0 ==> s'.marks == s.marks + {upd}
      ensures clock >= 0 && !t.clockFails ==> forall k :: k in s.rows ==> k < clock
      ensures clock >= 0 ==> table.vector == if clock == 0 && !t.vectorFails then Some((0, upd)) else old(table.vector)
      ensures t.Absent() && s.lock.None? ==> clock >= 0 && s'.lock == Some(j)
    {
      var got;
      got, s' := GetRedisDestriLock(j, 0, t, s);
      clock := STORE_UPDATE_FAILED;
      if got {
        ghost var s2;
        clock, s2 := InsertAtNextClock(j, upd, t, s');
        Join(s, s', s2);
        s' := s2;
      }
    }

    method StoreUpdate(j: nat, upd: Update, t: Trouble, ghost s: State)
      returns (clock: int, thrown: bool, ghost s': State)
      requires Shows(s) && j in s.jobs && s.jobs[j].pc.Checking? && s.jobs[j].upd == upd
      modifies table, keys`holder, keys`marks
      ensures Shows(s') && Leads(s, s') && SameElse(s, s') && EndsAs(s, s', j, clock, thrown)
      ensures clock >= 0 || clock == STORE_UPDATE_FAILED || clock == STORE_UPDATE_DEDUP
      ensures !thrown && clock >= 0 ==> clock !in s.rows && s'.rows == s.rows[clock := Row(s.nextUid, upd)]
      ensures !thrown && clock >= 0 && !t.clockFails ==> forall k :: k in s.rows ==> k < clock
      ensures !thrown && clock >= 0 ==>
                table.vector == if clock == 0 && !t.vectorFails then Some((0, upd)) else old(table.vector)
      ensures !thrown && clock == STORE_UPDATE_DEDUP <==> t.check == Fine && t.hashHit && upd in s.marks
      ensures !thrown && clock == STORE_UPDATE_DEDUP ==> s'.rows == s.rows && s'.marks == s.marks && s'.lock == s.lock
      ensures !thrown && clock >= 0 ==> s'.marks == s.marks + {upd}
      ensures t.check != Fine ==> thrown && s'.rows == s.rows && s'.marks == s.marks && s'.lock == s.lock
      ensures thrown ==> t.check != Fine || (!t.unlockGet && t.unlock != Fine)
      ensures t.Absent() && s.lock.None? ==> !thrown && clock != STORE_UPDATE_FAILED && s'.lock.None?
    {
      EndingEarly(s, j);
      if t.check != Fine {
        Stay(s);
        FailsUnlocked(s, s, j);
        return STORE_UPDATE_FAILED, true, End(s, j);
      }
      if t.hashHit && upd in keys.marks {
        Duplicate(s, j);
        return STORE_UPDATE_DEDUP, false, Return(s, j, Dedup);
      }
      NewUpdate(s, j);
      ghost var s1, s2 := Goto(s, j, Locking(0)), s;
      clock, s2 := TryStore(j, upd, t, s1);
      Join(s, s1, s2);
      assert s1.jobs[j := s2.jobs[j]] == s.jobs[j := s2.jobs[j]];
      thrown, s' := Unlock(j, t, s, s2);
      Ending(s, s2, s', j, clock, thrown);
    }

    /** The finally block. */
    method Unlock(j: nat, t: Trouble, ghost s: State, ghost s1: State) returns (thrown: bool, ghost s': State)
      requires Shows(s1) && Leads(s, s1) && j in s1.jobs && s1.jobs[j].pc.Unlocking?
      modifies keys`holder
      ensures Shows(s') && Leads(s, s')
      ensures var r := s1.(lock := s'.lock); s' == if thrown then End(r, j) else Return(r, j, r.jobs[j].pc.out)
      ensures thrown <==> !t.unlockGet && s1.lock.Some? && t.unlock != Fine
      ensures s'.lock == if !t.unlockGet && t.unlock != Refused && s1.lock == Some(j) then None else s1.lock
    {
      ghost var r := s1.(lock := if s1.lock == Some(j) then None else s1.lock);
      thrown := keys.UnlockDistriKey(j, t.unlockGet, t.unlock);
      if t.unlockGet || s1.lock.None? {
        SkipsRelease(s, s1, j);
        assert s1.(lock := s1.lock) == s1;
        s' := Return(s1, j, s1.jobs[j].pc.out);
      } else if t.unlock == Refused {
        FailsUnlocked(s, s1, j);
        assert s1.(lock := s1.lock) == s1;
        s' := End(s1, j);
      } else {
        Releases(s, s1, j);
        s' := if thrown then End(r, j) else Return(r, j, r.jobs[j].pc.out);
      }
    }
  }

  /** A document without rows, log, marks or lock. */
  method EmptyServer() returns (server: Server, ghost s: State)
    ensures fresh(server) && fresh(server.table) && fresh(server.keys) && Init(s) && server.Shows(s)
  {
    var table := new TexSync();
    var keys := new RedisKeys();
    server := new Server(table, keys);
    s := State([], 0, {}, map[], 0, {}, None, map[], 0, map[], {}, {}, {});
  }

  /** Stored twice without trouble, while the mark lives, an update makes one row. */
  method StoreTwice(server: Server, j: nat, k: nat, upd: Update, t: Trouble, u: Trouble, ghost s: State)
    returns (clock: int, ghost s': State)
    requires server.Shows(s) && j != k && j in s.jobs && k in s.jobs && s.lock.None? && upd !in s.marks
    requires s.jobs[j].pc.Checking? && s.jobs[j].upd == upd && s.jobs[k].pc.Checking? && s.jobs[k].upd == upd
    requires t.Absent() && u.check == Fine && u.hashHit
    modifies server.table, server.keys`holder, server.keys`marks
    ensures server.Shows(s') && Leads(s, s') && s'.lock.None?
    ensures clock >= 0 && (forall c :: c in s.rows ==> c < clock) && s'.rows == s.rows[clock := Row(s.nextUid, upd)]
  {
    var thrown, again;
    ghost var s1;
    clock, thrown, s1 := server.StoreUpdate(j, upd, t, s);
    again, thrown, s' := server.StoreUpdate(k, upd, u, s1);
    assert again == STORE_UPDATE_DEDUP;
    Join(s, s1, s');
  }
}
