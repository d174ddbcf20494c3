/**
 What Postgres and Redis hold for one document, and the calls that change it: the `tex_sync` rows, the
 stream, the lock and the hash marks as fields, changed in place. `StoreCall` runs the server's code on them.
 */
module SyncTable {
  import opened Base
  import opened Storage

  const STORE_UPDATE_DEDUP: int := -1
  const STORE_UPDATE_FAILED: int := -2

  /** How an awaited call ends: done; done, but the reply is lost and the call throws; or it throws. */
  datatype Io = Fine | LostReply | Refused

  /** The rows of one document: content type "update" by clock, and the one state-vector record. */
  class TexSync {
    var updates: map<nat, Update>
    var vector: Option<(nat, Update)>

    constructor ()
      ensures updates == map[] && vector.None?
    {
      updates, vector := map[], None;
    }

    /** Clock of the newest row; -1 if there is none, and also if the query fails. */
    method GetCurrentUpdateClock(fails: bool) returns (clock: int)
      ensures fails ==> clock == -1
      ensures !fails && clock == -1 ==> updates == map[]
      ensures clock != -1 ==> clock in updates && forall k :: k in updates ==> k <= clock
    {
      clock := -1;
      if fails { return; }
      var keys := updates.Keys;
      while keys != {}
        invariant keys <= updates.Keys && (clock != -1 ==> clock in updates)
        invariant forall k :: k in updates && k !in keys ==> k <= clock
        decreases keys
      {
        var k :| k in keys;
        keys := keys - {k};
        if clock < k { clock := k; }
      }
    }

    /** INSERT: the key holds the clock and is unique, so a taken clock throws and nothing is overwritten. */
    method PgPut(upd: Update, clock: nat, io: Io) returns (thrown: bool)
      modifies this`updates
      ensures thrown <==> clock in old(updates) || io != Fine
      ensures updates == if clock in old(updates) || io == Refused then old(updates) else old(updates)[clock := upd]
    {
      if clock in updates || io == Refused { return true; }
      updates := updates[clock := upd];
      thrown := io == LostReply;
    }

    /** INSERT ... ON CONFLICT DO UPDATE on the record's one key; errors are swallowed. */
    method PgPutUpsert(clock: nat, doc: Update, fails: bool)
      modifies this`vector
      ensures vector == if fails then old(vector) else Some((clock, doc))
    {
      if !fails { vector := Some((clock, doc)); }
    }

    /** DELETE of the update rows from `lo` up to, not including, `hi`; errors are swallowed. */
    method ClearRange(lo: nat, hi: nat, fails: bool)
      modifies this`updates
      ensures fails ==> updates == old(updates)
      ensures !fails ==> updates == map k | k in old(updates) && !(lo <= k < hi) :: old(updates)[k]
    {
      if !fails { updates := map k | k in updates && !(lo <= k < hi) :: updates[k]; }
    }
  }

  /** What Redis holds for one document. */
  class RedisKeys {
    var holder: Option<nat>
    var marks: set<Update>
    var stream: seq<Option<Update>>
    var acked: set<nat>

    constructor ()
      ensures holder.None? && marks == {} && stream == [] && acked == {}
    {
      holder, marks, stream, acked := None, {}, [], {};
    }

    /** SET key value NX */
    method SetNx(value: nat) returns (ok: bool)
      modifies this`holder
      ensures ok == old(holder).None? && holder == if ok then Some(value) else old(holder)
    {
      ok := holder.None?;
      if ok { holder := Some(value); }
    }

    /** Compare and delete, so that no one else's lock is released; if the GET before it fails, nothing is. */
    method UnlockDistriKey(value: nat, getFails: bool, io: Io) returns (thrown: bool)
      modifies this`holder
      ensures thrown <==> !getFails && old(holder).Some? && io != Fine
      ensures holder == if !getFails && io != Refused && old(holder) == Some(value) then None else old(holder)
    {
      var current := if getFails then None else holder;
      if current.None? { return false; }
      if io != Refused && holder.Some? && holder.value == value { holder := None; }
      thrown := io != Fine;
    }

    method MarkUpdateHash(upd: Update, io: Io) returns (thrown: bool)
      modifies this`marks
      ensures thrown <==> io != Fine
      ensures marks == if io == Refused then old(marks) else old(marks) + {upd}
    {
      if io != Refused { marks := marks + {upd}; }
      thrown := io != Fine;
    }

    method Xadd(payload: Option<Update>, io: Io) returns (thrown: bool)
      modifies this`stream
      ensures thrown <==> io != Fine
      ensures stream == if io == Refused then old(stream) else old(stream) + [payload]
    {
      if io != Refused { stream := stream + [payload]; }
      thrown := io != Fine;
    }

    method Xack(id: nat, io: Io) returns (thrown: bool)
      modifies this`acked
      ensures thrown <==> io != Fine
      ensures acked == if io == Refused then old(acked) else old(acked) + {id}
    {
      if io != Refused { acked := acked + {id}; }
      thrown := io != Fine;
    }
  }
}
