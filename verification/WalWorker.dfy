/**
 Both ends of the write-ahead log as code: appending an update, with the direct store as its fallback, and
 a worker's pass over delivered or reclaimed entries. What they leave behind is a state of the persistence
 machine, whatever fails on the way.
 */
module WalWorker {
  import opened Base
  import opened Storage
  import opened StorageSafety
  import opened SyncTable
  import opened Steps
  import opened StoreCall

  lemma LeadsInv(s: State, s': State)
    requires Inv(s) && Leads(s, s')
    ensures Inv(s')
  {
    var es :| Reaches(s, es, s');
    RunInv(s, es);
  }

  lemma NextIsNew(s: State)
    requires Inv(s)
    ensures s.nextJob !in s.jobs
  {
    assert forall j :: j in s.jobs ==> JobOk(s, j);
  }

  lemma Started(s: State, e: Event)
    requires Enabled(s, e)
    ensures Leads(s, Apply(s, e))
  {
    Stay(s);
    Then(s, s, e);
  }

  /** Returning true promises that the update is the newest entry of the log, or stored. */
  method AppendUpdateToWAL(server: Server, upd: Update, project: bool, named: bool, infoFound: bool, add: Io,
                           uuid: nat, t: Trouble, ghost s: State)
    returns (persisted: bool, ghost s': State)
    requires server.Shows(s) && Inv(s) && uuid == s.nextJob
    modifies server.table, server.keys
    ensures server.Shows(s') && Leads(s, s') && Inv(s')
    ensures persisted ==> server.keys.stream == old(server.keys.stream) + [Some(upd)] || upd <= s'.inserted
    ensures project || (!named && !infoFound) ==> !persisted && s' == s
    ensures !project && (named || infoFound) && (add == Fine || (t.Absent() && s.lock.None?)) ==> persisted
  {
    Stay(s);
    if project { return false, s; }
    if !named && !infoFound { return false, s; }
    var thrown := server.keys.Xadd(Some(upd), add);
    ghost var s1 := if add == Refused then s else s.(stream := s.stream + [Some(upd)]);
    if add != Refused { Started(s, Event.Append(Some(upd))); }
    LeadsInv(s, s1);
    if !thrown { return true, s1; }
    persisted, s' := StoreDirectly(server, upd, uuid, t, s1);
    Join(s, s1, s');
  }

  method StoreDirectly(server: Server, upd: Update, uuid: nat, t: Trouble, ghost s: State)
    returns (persisted: bool, ghost s': State)
    requires server.Shows(s) && Inv(s) && uuid == s.nextJob
    modifies server.table, server.keys`holder, server.keys`marks
    ensures server.Shows(s') && Leads(s, s') && Inv(s')
    ensures persisted ==> upd <= s'.inserted
    ensures t.Absent() && s.lock.None? ==> persisted
  {
    NextIsNew(s);
    ghost var s1 := Spawn(s, Job(Direct, upd, Checking));
    Started(s, StartDirect(upd));
    var clock, failed;
    clock, failed, s' := server.StoreUpdate(uuid, upd, t, s1);
    Join(s, s1, s');
    LeadsInv(s, s');
    persisted := !failed && (clock >= 0 || clock == STORE_UPDATE_DEDUP);
    assert persisted ==> uuid in s'.confirmed && s'.confirmed[uuid] == upd;
  }

  /** One entry: without a payload it is acknowledged and dropped; else it is acknowledged once stored. */
  method ProcessEntry(server: Server, id: nat, uuid: nat, t: Trouble, ack: Io, ghost s: State)
    returns (ghost s': State)
    requires server.Shows(s) && Inv(s) && uuid == s.nextJob && id < s.delivered
    modifies server.table, server.keys
    ensures server.Shows(s') && Leads(s, s') && Inv(s')
    ensures s'.nextJob == s.nextJob + 1 && s'.stream == s.stream && s'.delivered == s.delivered
    ensures s.acked <= s'.acked <= s.acked + {id}
    ensures id in s'.acked ==> Payload(s.stream[id]) <= s'.inserted
    ensures s.stream[id].None? && ack == Fine ==> id in s'.acked
    ensures t.Absent() && s.lock.None? ==> s'.lock.None? && (ack == Fine ==> id in s'.acked)
  {
    var stored;
    stored, s' := StoreEntry(server, id, uuid, t, s);
    if stored {
      s' := Acknowledge(server, id, uuid, ack, s, s');
    }
    LeadsInv(s, s');
    assert id in s'.acked ==> Payload(s'.stream[id]) <= s'.inserted;
  }

  /** The call for entry `id` is over, but for the acknowledgement it may have earned. */
  ghost predicate Processed(s: State, s': State, id: nat, uuid: nat, stored: bool) {
    && s'.nextJob == s.nextJob + 1 && s'.stream == s.stream && s'.delivered == s.delivered && s'.acked == s.acked
    && (stored ==> uuid in s'.jobs && s'.jobs[uuid].pc.Acking? && s'.jobs[uuid].caller == Worker(id))
  }

  method StoreEntry(server: Server, id: nat, uuid: nat, t: Trouble, ghost s: State)
    returns (stored: bool, ghost s': State)
    requires server.Shows(s) && Inv(s) && uuid == s.nextJob && id < s.delivered
    modifies server.table, server.keys`holder, server.keys`marks
    ensures server.Shows(s') && Leads(s, s') && Processed(s, s', id, uuid, stored)
    ensures s.stream[id].None? ==> stored && s'.lock == s.lock
    ensures t.Absent() && s.lock.None? ==> stored && s'.lock.None?
  {
    NextIsNew(s);
    EntryStarted(s, id);
    var entry := server.keys.stream[id];
    if entry.None? { return true, Spawn(s, Job(Worker(id), {}, Acking)); }
    ghost var s1 := Spawn(s, Job(Worker(id), entry.value, Checking));
    var clock, thrown;
    clock, thrown, s' := server.StoreUpdate(uuid, entry.value, t, s1);
    Join(s, s1, s');
    stored := !thrown && (clock == STORE_UPDATE_DEDUP || clock >= 0);
  }

  lemma EntryStarted(s: State, id: nat)
    requires id < s.delivered <= |s.stream|
    ensures Leads(s, Spawn(s, if s.stream[id].None? then Job(Worker(id), {}, Acking)
                              else Job(Worker(id), s.stream[id].value, Checking)))
  {
    Started(s, StartEntry(id));
  }

  method Acknowledge(server: Server, id: nat, uuid: nat, ack: Io, ghost s: State, ghost s1: State)
    returns (ghost s': State)
    requires server.Shows(s1) && Leads(s, s1) && Processed(s, s1, id, uuid, true)
    modifies server.keys`acked
    ensures server.Shows(s') && Leads(s, s')
    ensures s' == End(s1, uuid).(acked := if ack == Refused then s1.acked else s1.acked + {id})
  {
    var thrown := server.keys.Xack(id, ack);
    Acked(s, s1, uuid, ack == Refused);
    s' := End(s1, uuid).(acked := if ack == Refused then s1.acked else s1.acked + {id});
  }

  lemma Acked(s: State, s1: State, j: nat, refused: bool)
    requires Leads(s, s1) && j in s1.jobs && s1.jobs[j].pc.Acking? && s1.jobs[j].caller.Worker?
    ensures Leads(s, if refused then End(s1, j) else End(s1, j).(acked := s1.acked + {s1.jobs[j].caller.id}))
  {
    Then(s, s1, if refused then Fail(j) else Ack(j));
  }

  /** The worker's loop: whatever each entry meets, all entries acknowledged in the end are stored. */
  method ProcessEntries(server: Server, items: seq<nat>, uuid: nat, ts: seq<Trouble>, acks: seq<Io>, ghost s: State)
    returns (ghost s': State)
    requires server.Shows(s) && Inv(s) && uuid == s.nextJob
    requires |ts| == |items| == |acks| && forall i :: 0 <= i < |items| ==> items[i] < s.delivered
    modifies server.table, server.keys
    ensures server.Shows(s') && Leads(s, s') && Inv(s')
    ensures server.keys.stream == old(server.keys.stream)
    ensures old(server.keys.acked) <= server.keys.acked
    ensures forall id :: id in server.keys.acked && id !in old(server.keys.acked) ==> id in items
    ensures forall id :: id in server.keys.acked ==>
              id < |server.keys.stream| && Payload(server.keys.stream[id]) <= Doc(s'.rows) + s'.lost
    ensures forall i :: 0 <= i < |items| && s.stream[items[i]].None? && acks[i] == Fine ==> items[i] in server.keys.acked
    ensures old(server.keys.holder).None? && (forall i :: 0 <= i < |items| ==> ts[i].Absent() && acks[i] == Fine) ==>
              forall i :: 0 <= i < |items| ==> items[i] in server.keys.acked
  {
    Stay(s);
    s' := s;
    var i := 0;
    while i < |items|
      invariant i <= |items| && server.Shows(s') && Leads(s, s') && Inv(s') && s'.nextJob == uuid + i
      invariant Progress(s, s', items, ts, acks, i)
    {
      ghost var s1 := ProcessEntry(server, items[i], uuid + i, ts[i], acks[i], s');
      MoreProgress(s, s', s1, items, ts, acks, i);
      Join(s, s', s1);
      s' := s1;
      i := i + 1;
    }
  }

  /** What the first `n` entries did to the acknowledgements, and to the lock if nothing went wrong. */
  ghost predicate Progress(s: State, s': State, items: seq<nat>, ts: seq<Trouble>, acks: seq<Io>, n: nat)
    requires n <= |items| == |ts| == |acks| && forall i :: 0 <= i < |items| ==> items[i] < |s.stream|
  {
    && s'.stream == s.stream && s'.delivered == s.delivered && s.acked <= s'.acked
    && (forall id :: id in s'.acked && id !in s.acked ==> id in items)
    && (forall k :: 0 <= k < n && s.stream[items[k]].None? && acks[k] == Fine ==> items[k] in s'.acked)
    && (s.lock.None? && (forall k :: 0 <= k < n ==> ts[k].Absent() && acks[k] == Fine) ==>
          s'.lock.None? && forall k :: 0 <= k < n ==> items[k] in s'.acked)
  }

  lemma MoreProgress(s: State, s1: State, s2: State, items: seq<nat>, ts: seq<Trouble>, acks: seq<Io>, n: nat)
    requires n < |items| == |ts| == |acks| && forall i :: 0 <= i < |items| ==> items[i] < |s.stream|
    requires Progress(s, s1, items, ts, acks, n)
    requires s2.stream == s1.stream && s2.delivered == s1.delivered && s1.acked <= s2.acked <= s1.acked + {items[n]}
    requires s.stream[items[n]].None? && acks[n] == Fine ==> items[n] in s2.acked
    requires ts[n].Absent() && s1.lock.None? ==> s2.lock.None? && (acks[n] == Fine ==> items[n] in s2.acked)
    ensures Progress(s, s2, items, ts, acks, n + 1)
  {
  }
}
