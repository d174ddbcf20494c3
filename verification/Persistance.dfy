/**
 Reading a document and compacting it, as code: getYDoc folds the rows in clock order and starts a
 compaction above the trim size; flushDocument stores the merged state and deletes every older row.
 */
module Persistance {
  import opened Base
  import opened Storage
  import opened StorageSafety
  import opened SyncTable
  import opened Steps
  import opened StoreCall

  /** All rows, each once, in clock order. */
  ghost predicate Lists(list: seq<(nat, Update)>, updates: map<nat, Update>) {
    && (forall i, j :: 0 <= i < j < |list| ==> list[i].0 < list[j].0)
    && (forall i :: 0 <= i < |list| ==> list[i].0 in updates && updates[list[i].0] == list[i].1)
    && (forall k :: k in updates ==> exists i :: 0 <= i < |list| && list[i].0 == k)
  }

  lemma {:induction false} HasLeast(keys: set<nat>) returns (least: nat)
    requires keys != {}
    ensures least in keys && forall k :: k in keys ==> least <= k
    decreases keys
  {
    least :| least in keys;
    var rest := keys - {least};
    assert forall k :: k in keys ==> k == least || k in rest;
    if rest == {} {
    } else {
      var other := HasLeast(rest);
      if other < least { least := other; }
    }
  }

  /** The same, of the rows that are not among `keys`, all of which come later. */
  ghost predicate ListsBut(list: seq<(nat, Update)>, updates: map<nat, Update>, keys: set<nat>) {
    && keys <= updates.Keys
    && (forall i, j :: 0 <= i < j < |list| ==> list[i].0 < list[j].0)
    && (forall i :: 0 <= i < |list| ==> list[i].0 in updates && updates[list[i].0] == list[i].1)
    && (forall k :: k in updates && k !in keys ==> exists i :: 0 <= i < |list| && list[i].0 == k)
    && (forall i, k :: 0 <= i < |list| && k in keys ==> list[i].0 < k)
  }

  lemma ListOneRow(list: seq<(nat, Update)>, updates: map<nat, Update>, keys: set<nat>, k: nat)
    requires ListsBut(list, updates, keys) && k in keys && forall l :: l in keys ==> k <= l
    ensures ListsBut(list + [(k, updates[k])], updates, keys - {k})
  {
    var list' := list + [(k, updates[k])];
    forall l | l in updates && l !in keys - {k} ensures exists i :: 0 <= i < |list'| && list'[i].0 == l {
      if l == k {
        assert list'[|list|].0 == k;
      } else {
        var i :| 0 <= i < |list| && list[i].0 == l;
        assert list'[i].0 == l;
      }
    }
  }

  /** SELECT ... ORDER BY clock ASC */
  method GetDocAllUpdates(table: TexSync, fails: bool) returns (list: seq<(nat, Update)>)
    ensures if fails then list == [] else Lists(list, table.updates) && |list| == |table.updates|
  {
    list := [];
    if fails { return; }
    var keys := table.updates.Keys;
    while keys != {}
      invariant ListsBut(list, table.updates, keys) && |list| + |keys| == |table.updates.Keys|
      decreases keys
    {
      ghost var least := HasLeast(keys);
      var k :| k in keys && forall l :: l in keys ==> k <= l;
      ListOneRow(list, table.updates, keys, k);
      list := list + [(k, table.updates[k])];
      keys := keys - {k};
    }
  }

  /** The clock below which the first `i` listed rows lie. */
  ghost function CutAt(list: seq<(nat, Update)>, i: nat): nat
    requires i <= |list|
  {
    if i < |list| then list[i].0 else if i == 0 then 0 else list[i - 1].0 + 1
  }

  /** No row lies between two neighbours of the list. */
  lemma NextRow(list: seq<(nat, Update)>, updates: map<nat, Update>, i: nat)
    requires Lists(list, updates) && i < |list|
    ensures forall l :: l in updates && l < CutAt(list, i + 1) ==> l <= list[i].0
  {
    forall l | l in updates && l < CutAt(list, i + 1) ensures l <= list[i].0 {
      var m :| 0 <= m < |list| && list[m].0 == l;
    }
  }

  lemma BelowNext(rows: Rows, k: nat, next: nat)
    requires k in rows && k < next && forall l :: l in rows && l < next ==> l <= k
    ensures Doc(Below(rows, next)) == Doc(Below(rows, k)) + rows[k].upd
  {
    assert Below(rows, next) == Below(rows, k)[k := rows[k]];
    DocInsert(Below(rows, k), k, rows[k]);
  }

  lemma FoldStep(list: seq<(nat, Update)>, updates: map<nat, Update>, rows: Rows, i: nat)
    requires Lists(list, updates) && RowsAre(updates, rows) && i < |list|
    ensures Doc(Below(rows, CutAt(list, i + 1))) == Doc(Below(rows, CutAt(list, i))) + list[i].1
  {
    NextRow(list, updates, i);
    BelowNext(rows, list[i].0, CutAt(list, i + 1));
  }

  lemma FoldStart(list: seq<(nat, Update)>, updates: map<nat, Update>, rows: Rows)
    requires Lists(list, updates) && RowsAre(updates, rows)
    ensures Doc(Below(rows, CutAt(list, 0))) == {}
    ensures Below(rows, CutAt(list, |list|)) == rows
  {
    forall l | l in rows ensures CutAt(list, 0) <= l < CutAt(list, |list|) {
      var m :| 0 <= m < |list| && list[m].0 == l;
    }
    assert Below(rows, CutAt(list, 0)) == map[];
  }

  /** Applies the listed updates; the first one that fails to apply ends the fold. */
  method Fold(list: seq<(nat, Update)>, malformed: nat, ghost updates: map<nat, Update>, ghost rows: Rows)
    returns (doc: Update, ghost cut: nat)
    requires Lists(list, updates) && RowsAre(updates, rows)
    ensures doc == Doc(Below(rows, cut)) && (|list| <= malformed ==> doc == Doc(rows))
  {
    FoldStart(list, updates, rows);
    doc := {};
    cut := CutAt(list, 0);
    var i := 0;
    while i < |list| && i != malformed
      invariant i <= |list| && i <= malformed && cut == CutAt(list, i) && doc == Doc(Below(rows, cut))
    {
      FoldStep(list, updates, rows, i);
      doc := doc + list[i].1;
      i := i + 1;
      cut := CutAt(list, i);
    }
  }

  lemma SameSize(updates: map<nat, Update>, rows: Rows)
    requires RowsAre(updates, rows)
    ensures |updates| == |rows|
  {
    assert |updates| == |updates.Keys| && |rows| == |rows.Keys|;
  }

  lemma CompactionStarts(s: State, cut: nat)
    requires |s.rows| > PREFERRED_TRIM_SIZE
    ensures Enabled(s, Event.GetYDoc(cut))
    ensures Apply(s, Event.GetYDoc(cut)).jobs[s.nextJob]
         == Job(Flush(Uids(Below(s.rows, cut)), s.nextUid), Doc(Below(s.rows, cut)), Checking)
  {
  }

  /**
   The fold is the document of the rows below some clock, of all rows if every update applies. A compaction
   starts exactly when more rows than the trim size were read, and, the apply error being swallowed, it starts
   from whatever was folded.
   */
  method GetYDoc(server: Server, queryFails: bool, malformed: nat, ghost s: State)
    returns (doc: Update, compacts: bool, ghost cut: nat)
    requires server.Shows(s)
    ensures if queryFails then doc == {} && !compacts
            else doc == Doc(Below(s.rows, cut)) && (compacts <==> |s.rows| > 500)
    ensures !queryFails && |s.rows| <= malformed ==> doc == Doc(s.rows)
    ensures compacts ==> Enabled(s, Event.GetYDoc(cut)) && Apply(s, Event.GetYDoc(cut)).jobs[s.nextJob].upd == doc
  {
    var list := GetDocAllUpdates(server.table, queryFails);
    compacts := |list| > PREFERRED_TRIM_SIZE;
    if queryFails { return {}, compacts, 0; }
    SameSize(server.table.updates, s.rows);
    doc, cut := Fold(list, malformed, server.table.updates, s.rows);
    if compacts { CompactionStarts(s, cut); }
  }

  lemma Clears(s: State, s1: State, j: nat, fails: bool)
    requires Leads(s, s1) && j in s1.jobs && s1.jobs[j].pc.Clearing?
    ensures Leads(s, if fails then End(s1, j) else End(ClearRows(s1, s1.jobs[j].pc.clock), j))
  {
    Then(s, s1, if fails then Fail(j) else Clear(j));
  }

  lemma Cleared(updates: map<nat, Update>, rows: Rows, clock: nat)
    requires RowsAre(updates, rows)
    ensures RowsAre(map k | k in updates && !(0 <= k < clock) :: updates[k], From(rows, clock))
  {
  }

  /**
   Stores the merged state at the next clock, then deletes every row below it. If the clock was read, the
   merged state is all that is left; a duplicate or failed store deletes nothing.
   */
  method FlushDocument(server: Server, doc: Update, uuid: nat, t: Trouble, vectorFails: bool, clearFails: bool,
                       ghost s: State)
    returns (clock: int, thrown: bool, ghost s': State)
    requires server.Shows(s) && uuid in s.jobs && s.jobs[uuid].pc.Checking?
    requires s.jobs[uuid].caller.Flush? && s.jobs[uuid].upd == doc
    modifies server.table, server.keys`holder, server.keys`marks
    ensures server.Shows(s') && Leads(s, s') && uuid !in s'.jobs
    ensures !thrown ==> clock >= 0 || clock == STORE_UPDATE_DEDUP
    ensures !thrown && clock == STORE_UPDATE_DEDUP ==> s'.rows == s.rows && s'.lost == s.lost
    ensures thrown ==> s'.lost == s.lost
    ensures !thrown && clock >= 0 && !vectorFails ==> server.table.vector == Some((clock, doc))
    ensures !thrown && clock >= 0 && clearFails ==> s'.rows == s.rows[clock := Row(s.nextUid, doc)]
    ensures !thrown && clock >= 0 && !clearFails ==>
              && s'.rows == From(s.rows[clock := Row(s.nextUid, doc)], clock)
              && (!t.clockFails ==> server.table.updates == map[clock := doc])
  {
    hide Leads;
    clock, thrown, s' := server.StoreUpdate(uuid, doc, t, s);
    if thrown || clock == STORE_UPDATE_DEDUP { return; }
    if clock < 0 { return clock, true, s'; }
    server.table.PgPutUpsert(clock, doc, vectorFails);
    Clears(s, s', uuid, clearFails);
    Cleared(server.table.updates, s'.rows, clock);
    server.table.ClearRange(0, clock, clearFails);
    s' := if clearFails then End(s', uuid) else End(ClearRows(s', clock), uuid);
  }
}
