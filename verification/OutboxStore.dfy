/**
 The browser storage all tabs share: the IndexedDB stores `counters` and `updates`, changed only inside
 transactions, and the localStorage copies of the sequence numbers.
 */
module OutboxStore {
  import opened Base
  import opened Decimal

  datatype Kind = Root | Subdoc
  datatype Entry = Entry(doc: string, seqNo: nat, kind: Kind, upd: Update)

  /** One snapshot of the database. Rows are stored under the key `${doc}:${seq}`. */
  datatype Db = Db(counters: map<string, nat>, rows: map<string, Entry>)

  function KeyOf(doc: string, seqNo: nat): string {
    doc + [':'] + ToDecimal(seqNo)
  }

  lemma KeyIsInjective(doc: string, seqNo: nat, doc': string, seqNo': nat)
    requires KeyOf(doc, seqNo) == KeyOf(doc', seqNo')
    ensures doc == doc' && seqNo == seqNo'
  {
    SuffixedInjective(doc, seqNo, doc', seqNo', ':');
  }

  function Max(a: nat, b: nat): nat {
    if a < b then b else a
  }

  function Lookup(m: map<string, nat>, doc: string): nat {
    if doc in m then m[doc] else 0
  }

  /** The largest of the numbers known for a document, or zero. */
  ghost predicate AboveAll(n: nat, counters: map<string, nat>, lastSeq: map<string, nat>, local: map<string, nat>,
                           doc: string)
  {
    && (doc in counters ==> counters[doc] <= n)
    && (doc in lastSeq ==> lastSeq[doc] <= n)
    && (doc in local ==> local[doc] <= n)
    && (n > 0 ==> (doc in counters && counters[doc] == n) || (doc in lastSeq && lastSeq[doc] == n)
                  || (doc in local && local[doc] == n))
  }

  ghost predicate Raises(docs: set<string>, lastSeq: map<string, nat>, counters: map<string, nat>) {
    forall doc :: doc in docs ==> Lookup(lastSeq, doc) <= Lookup(counters, doc)
  }

  predicate KeyedRows(rows: map<string, Entry>) {
    forall key :: key in rows ==> key == KeyOf(rows[key].doc, rows[key].seqNo)
  }

  /** How one transaction may change the database: counters only rise, and new rows stay below them. */
  ghost predicate Evolves(before: Db, after: Db) {
    && (forall doc :: Lookup(before.counters, doc) <= Lookup(after.counters, doc))
    && (forall key :: key in after.rows ==>
          || (key in before.rows && after.rows[key] == before.rows[key])
          || after.rows[key].seqNo <= Lookup(after.counters, after.rows[key].doc))
  }

  /** A tab whose lastSeq covers the rows its counter does not: what loading establishes. */
  ghost predicate Covers(lastSeq: map<string, nat>, db: Db) {
    forall key :: key in db.rows ==>
      db.rows[key].seqNo <= Max(Lookup(db.counters, db.rows[key].doc), Lookup(lastSeq, db.rows[key].doc))
  }

  /** Whatever other tabs commit, a tab that covers the database keeps covering it. */
  lemma OthersKeepCovering(lastSeq: map<string, nat>, before: Db, after: Db)
    requires Covers(lastSeq, before) && Evolves(before, after)
    ensures Covers(lastSeq, after)
  {
    forall key | key in after.rows
      ensures after.rows[key].seqNo
           <= Max(Lookup(after.counters, after.rows[key].doc), Lookup(lastSeq, after.rows[key].doc))
    {
      var doc := after.rows[key].doc;
      assert Lookup(before.counters, doc) <= Lookup(after.counters, doc);
    }
  }

  /** Then the next number it allocates is free. */
  lemma NextIsFree(lastSeq: map<string, nat>, db: Db, doc: string, next: nat)
    requires Covers(lastSeq, db) && KeyedRows(db.rows)
    requires next > Lookup(db.counters, doc) && next > Lookup(lastSeq, doc)
    ensures KeyOf(doc, next) !in db.rows
  {
    if KeyOf(doc, next) in db.rows {
      var row := db.rows[KeyOf(doc, next)];
      KeyIsInjective(doc, next, row.doc, row.seqNo);
    }
  }

  ghost function Issued(issued: map<string, seq<nat>>, doc: string): seq<nat> {
    if doc in issued then issued[doc] else []
  }

  /** Per document, every committed allocation exceeds all earlier ones, and the counter is not below any. */
  ghost predicate IssueOk(issued: map<string, seq<nat>>, counters: map<string, nat>) {
    forall doc :: doc in issued ==>
      && (forall i, j :: 0 <= i < j < |issued[doc]| ==> issued[doc][i] < issued[doc][j])
      && (forall i :: 0 <= i < |issued[doc]| ==> issued[doc][i] <= Lookup(counters, doc))
  }

  ghost predicate IssuedGrows(before: map<string, seq<nat>>, after: map<string, seq<nat>>) {
    forall doc :: Issued(before, doc) <= Issued(after, doc)
  }

  lemma IssueNext(issued: map<string, seq<nat>>, counters: map<string, nat>, doc: string, next: nat)
    requires IssueOk(issued, counters) && next > Lookup(counters, doc)
    ensures IssueOk(issued[doc := Issued(issued, doc) + [next]], counters[doc := next])
  {
  }

  lemma NewestExceeds(issued: map<string, seq<nat>>, counters: map<string, nat>, doc: string, next: nat)
    requires IssueOk(issued[doc := Issued(issued, doc) + [next]], counters)
    ensures forall q :: q in Issued(issued, doc) ==> q < next
  {
    var before, issued' := Issued(issued, doc), issued[doc := Issued(issued, doc) + [next]];
    forall i | 0 <= i < |before| ensures before[i] < next {
      assert issued'[doc][i] < issued'[doc][|before|];
    }
  }

  /** A number that storing `e` leaves below the counter: there already, raised to, or the same row again. */
  ghost predicate Reserved(db: Db, e: Entry, current: nat) {
    var key := KeyOf(e.doc, e.seqNo);
    e.seqNo <= Lookup(db.counters, e.doc) || e.seqNo > current || (key in db.rows && db.rows[key] == e)
  }

  /** The counter is written only for a number above all that the tab takes for used. */
  ghost function WithEntry(db: Db, e: Entry, current: nat): Db {
    Db(if e.seqNo > current then db.counters[e.doc := e.seqNo] else db.counters, db.rows[KeyOf(e.doc, e.seqNo) := e])
  }

  lemma PutEvolvesIff(db: Db, e: Entry, current: nat)
    requires Lookup(db.counters, e.doc) <= current
    ensures Evolves(db, WithEntry(db, e, current)) <==> Reserved(db, e, current)
  {
    var db', key := WithEntry(db, e, current), KeyOf(e.doc, e.seqNo);
    assert db'.rows[key] == e;
    forall d ensures Lookup(db.counters, d) <= Lookup(db'.counters, d) { }
  }

  class Browser {
    var db: Db
    var local: map<string, nat>                // localStorage; a tab or the user may lose or lower it
    ghost var issued: map<string, seq<nat>>  // committed allocations, in commit order

    ghost predicate Valid()
      reads this
    {
      KeyedRows(db.rows) && IssueOk(issued, db.counters)
    }

    /** What a tab with this lastSeq takes for the last used number. */
    function Current(doc: string, lastSeq: map<string, nat>): nat
      reads this
    {
      Max(Max(Lookup(db.counters, doc), Lookup(lastSeq, doc)), Lookup(local, doc))
    }

    constructor (db: Db, local: map<string, nat>)
      requires KeyedRows(db.rows)
      ensures Valid() && this.db == db && this.local == local && issued == map[]
    {
      this.db, this.local, issued := db, local, map[];
    }

    /** localStorage is not transactional: this is any write, loss or rollback of it. */
    method OverwriteLocal(local: map<string, nat>)
      requires Valid()
      modifies this`local
      ensures Valid() && this.local == local
    {
      this.local := local;
    }

    /** Any number of transactions of other tabs, each under a reserved number: what all of them may change. */
    method OtherTabs(after: Db, ghost issuedAfter: map<string, seq<nat>>)
      requires Valid() && KeyedRows(after.rows) && Evolves(db, after)
      requires IssuedGrows(issued, issuedAfter) && IssueOk(issuedAfter, after.counters)
      modifies this`db, this`issued
      ensures Valid() && db == after && issued == issuedAfter
    {
      db, issued := after, issuedAfter;
    }

    /** The counter transaction of nextSeq. */
    method AllocateTx(doc: string, lastSeq: map<string, nat>, commits: bool) returns (next: nat)
      requires Valid()
      modifies this`db, this`issued
      ensures Valid() && Evolves(old(db), db) && db.rows == old(db.rows)
      ensures next == old(Current(doc, lastSeq)) + 1
      ensures AboveAll(next - 1, old(db.counters), lastSeq, old(local), doc)
      ensures if commits then issued == old(issued)[doc := Issued(old(issued), doc) + [next]]
                              && db.counters == old(db.counters)[doc := next]
              else db == old(db) && issued == old(issued)
    {
      next := Current(doc, lastSeq) + 1;
      if commits {
        IssueNext(issued, db.counters, doc, next);
        db := db.(counters := db.counters[doc := next]);
        issued := issued[doc := Issued(issued, doc) + [next]];
      }
    }

    /** The transaction of enqueueNext and enqueue: the counter and the row are put together or not at all. */
    method PersistTx(doc: string, kind: Kind, upd: Update, requested: nat, allocate: bool,
                     lastSeq: map<string, nat>, commits: bool) returns (stored: nat)
      requires Valid()
      modifies this`db, this`issued
      ensures Valid()
      ensures !commits ==> db == old(db) && issued == old(issued)
      ensures commits ==> db.rows == old(db.rows)[KeyOf(doc, stored) := Entry(doc, stored, kind, upd)]
      ensures commits && allocate ==> issued == old(issued)[doc := Issued(old(issued), doc) + [stored]]
      ensures !allocate ==> stored == requested && issued == old(issued)
      ensures allocate ==> stored == old(Current(doc, lastSeq)) + 1
      ensures allocate ==> AboveAll(stored - 1, old(db.counters), lastSeq, old(local), doc)
      ensures forall d :: Lookup(old(db.counters), d) <= Lookup(db.counters, d)
      ensures commits ==> db.counters == if stored > old(Current(doc, lastSeq)) then old(db.counters)[doc := stored]
                                         else old(db.counters)
      ensures allocate || !commits ==> Evolves(old(db), db)
      ensures commits && !allocate ==>
                (Evolves(old(db), db) <==> Reserved(old(db), Entry(doc, requested, kind, upd), old(Current(doc, lastSeq))))
      ensures commits && allocate && Covers(lastSeq, old(db)) ==> KeyOf(doc, stored) !in old(db.rows)
    {
      var current := Current(doc, lastSeq);
      stored := if allocate then current + 1 else requested;
      if allocate { NextIsFreeIfCovered(lastSeq, db, doc, stored); }
      PutEvolvesIff(db, Entry(doc, stored, kind, upd), current);
      if commits {
        var counters := if allocate || requested > current then db.counters[doc := stored] else db.counters;
        PutKeepsRows(db.rows, Entry(doc, stored, kind, upd));
        db := Db(counters, db.rows[KeyOf(doc, stored) := Entry(doc, stored, kind, upd)]);
        if allocate {
          IssueNext(issued, old(db.counters), doc, stored);
          issued := issued[doc := Issued(issued, doc) + [stored]];
        }
      }
    }

    /** The counter transaction after a load: raises the counter of each loaded document to what the tab knows. */
    method SeedTx(docs: set<string>, lastSeq: map<string, nat>, commits: bool)
      requires Valid()
      modifies this`db
      ensures Valid() && Evolves(old(db), db) && db.rows == old(db.rows)
      ensures !commits ==> db == old(db)
      ensures forall doc :: commits ==>
                Lookup(db.counters, doc)
                == if doc in docs then old(Current(doc, lastSeq)) else Lookup(old(db.counters), doc)
      ensures commits ==> Raises(docs, lastSeq, db.counters)
    {
      var counters: map<string, nat> := db.counters;
      var rest := docs;
      while rest != {}
        invariant rest <= docs && db == old(db)
        invariant forall doc :: Lookup(counters, doc)
                                == if doc in docs - rest then old(Current(doc, lastSeq)) else Lookup(db.counters, doc)
      {
        var doc :| doc in rest;
        if Current(doc, lastSeq) > Lookup(db.counters, doc) {
          counters := counters[doc := Current(doc, lastSeq)];
        }
        rest := rest - {doc};
      }
      if commits { db := db.(counters := counters); }
    }

    /** The transaction of ack. */
    method RemoveTx(doc: string, seqNo: nat, commits: bool)
      requires Valid()
      modifies this`db
      ensures Valid() && Evolves(old(db), db)
      ensures db == if commits then Db(old(db.counters), old(db.rows) - {KeyOf(doc, seqNo)}) else old(db)
    {
      if commits { db := db.(rows := db.rows - {KeyOf(doc, seqNo)}); }
    }
  }

  lemma NextIsFreeIfCovered(lastSeq: map<string, nat>, db: Db, doc: string, next: nat)
    requires KeyedRows(db.rows) && next > Lookup(db.counters, doc) && next > Lookup(lastSeq, doc)
    ensures Covers(lastSeq, db) ==> KeyOf(doc, next) !in db.rows
  {
    if Covers(lastSeq, db) { NextIsFree(lastSeq, db, doc, next); }
  }

  lemma PutKeepsRows(rows: map<string, Entry>, e: Entry)
    requires KeyedRows(rows)
    ensures KeyedRows(rows[KeyOf(e.doc, e.seqNo) := e])
  {
  }

  /**
   A number that nobody reserved is given out again: for every number above the counter and not above what the
   storing tab takes for used, another tab that takes less for used gets there, and overwrites the row.
   */
  method UnreservedSeqIsOverwritten(browser: Browser, doc: string, kind: Kind, mine: Update, theirs: Update,
                                    seqNo: nat, myLast: map<string, nat>, theirLast: map<string, nat>)
    requires browser.Valid() && Lookup(browser.db.counters, doc) < seqNo <= browser.Current(doc, myLast)
    requires browser.Current(doc, theirLast) < seqNo
    modifies browser`db, browser`issued
    ensures browser.Valid() && KeyOf(doc, seqNo) in browser.db.rows
    ensures browser.db.rows[KeyOf(doc, seqNo)] == Entry(doc, seqNo, kind, theirs)
  {
    var stored := browser.PersistTx(doc, kind, mine, seqNo, false, myLast, true);
    assert browser.db.rows[KeyOf(doc, seqNo)] == Entry(doc, seqNo, kind, mine);
    while true
      invariant browser.Valid() && browser.Current(doc, theirLast) < seqNo
      decreases seqNo - browser.Current(doc, theirLast)
    {
      stored := browser.PersistTx(doc, kind, theirs, 0, true, theirLast, true);
      if stored == seqNo { return; }
    }
  }
}
