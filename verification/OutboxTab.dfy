/**
 One tab's Outbox: the in-memory maps, kept equal to the IndexedDB rows by every completed operation. A
 transaction that aborts changes neither.
 */
module OutboxTab {
  import opened Base
  import opened OutboxStore

  type Pending = map<string, map<nat, Entry>>

  predicate Has(pending: Pending, e: Entry) {
    e.doc in pending && e.seqNo in pending[e.doc] && pending[e.doc][e.seqNo] == e
  }

  predicate Filed(pending: Pending, doc: string, seqNo: nat)
    requires doc in pending && seqNo in pending[doc]
  {
    pending[doc][seqNo].doc == doc && pending[doc][seqNo].seqNo == seqNo
  }

  /** Every entry is filed under its own document and number, and no document maps to nothing. */
  ghost predicate PendingOk(pending: Pending) {
    forall doc :: doc in pending ==> pending[doc] != map[] && forall q :: q in pending[doc] ==> Filed(pending, doc, q)
  }

  /** Memory and storage hold the same entries. */
  ghost predicate Agrees(pending: Pending, rows: map<string, Entry>) {
    && PendingOk(pending)
    && (forall key :: key in rows ==> Has(pending, rows[key]))
    && (forall doc, q :: doc in pending && q in pending[doc] ==>
          KeyOf(doc, q) in rows && rows[KeyOf(doc, q)] == pending[doc][q])
  }

  function Put(pending: Pending, e: Entry): Pending {
    pending[e.doc := (if e.doc in pending then pending[e.doc] else map[])[e.seqNo := e]]
  }

  function Drop(pending: Pending, doc: string, seqNo: nat): Pending {
    if doc !in pending then pending
    else
      var rest := pending[doc] - {seqNo};
      if rest == map[] then pending - {doc} else pending[doc := rest]
  }

  lemma PutAgrees(pending: Pending, rows: map<string, Entry>, e: Entry)
    requires Agrees(pending, rows) && KeyedRows(rows)
    ensures Agrees(Put(pending, e), rows[KeyOf(e.doc, e.seqNo) := e])
  {
    var pending', rows' := Put(pending, e), rows[KeyOf(e.doc, e.seqNo) := e];
    forall key | key in rows' ensures Has(pending', rows'[key]) {
      if key != KeyOf(e.doc, e.seqNo) { assert Has(pending, rows[key]); }
    }
    forall doc, q | doc in pending' && q in pending'[doc]
      ensures KeyOf(doc, q) in rows' && rows'[KeyOf(doc, q)] == pending'[doc][q]
    {
      if (doc, q) != (e.doc, e.seqNo) {
        if KeyOf(doc, q) == KeyOf(e.doc, e.seqNo) { KeyIsInjective(doc, q, e.doc, e.seqNo); }
        assert doc in pending && q in pending[doc];
      }
    }
    PutIsOk(pending, e);
  }

  /** Drop removes one entry and nothing else. */
  lemma DropRemovesOne(pending: Pending, doc: string, seqNo: nat)
    requires PendingOk(pending)
    ensures var pending' := Drop(pending, doc, seqNo);
            && PendingOk(pending')
            && (forall d, q :: (d in pending' && q in pending'[d])
                               <==> (d in pending && q in pending[d] && !(d == doc && q == seqNo)))
            && (forall d, q :: d in pending' && q in pending'[d] ==> pending'[d][q] == pending[d][q])
  {
    var pending' := Drop(pending, doc, seqNo);
    forall d | d in pending' ensures pending'[d] != map[] && forall q :: q in pending'[d] ==> Filed(pending', d, q) {
      forall q | q in pending'[d] ensures Filed(pending', d, q) { assert Filed(pending, d, q); }
    }
    if doc in pending {
      var rest := pending[doc] - {seqNo};
      assert forall q :: q in pending[doc] && q != seqNo ==> q in rest;
    }
  }

  lemma DropAgrees(pending: Pending, rows: map<string, Entry>, doc: string, seqNo: nat)
    requires Agrees(pending, rows) && KeyedRows(rows)
    ensures Agrees(Drop(pending, doc, seqNo), rows - {KeyOf(doc, seqNo)})
  {
    var pending', rows' := Drop(pending, doc, seqNo), rows - {KeyOf(doc, seqNo)};
    DropRemovesOne(pending, doc, seqNo);
    forall key | key in rows' ensures Has(pending', rows'[key]) {
      assert Has(pending, rows[key]) && key == KeyOf(rows[key].doc, rows[key].seqNo);
    }
    forall d, q | d in pending' && q in pending'[d]
      ensures KeyOf(d, q) in rows' && rows'[KeyOf(d, q)] == pending'[d][q]
    {
      if KeyOf(d, q) == KeyOf(doc, seqNo) { KeyIsInjective(d, q, doc, seqNo); }
    }
  }

  lemma PutKeeps(pending: Pending, rows: map<string, Entry>, e: Entry)
    requires PendingOk(pending) && KeyedRows(rows)
    ensures PendingOk(Put(pending, e))
    ensures Agrees(pending, rows) ==> Agrees(Put(pending, e), rows[KeyOf(e.doc, e.seqNo) := e])
  {
    PutIsOk(pending, e);
    if Agrees(pending, rows) { PutAgrees(pending, rows, e); }
  }

  lemma AckKeeps(pending: Pending, lastSeq: map<string, nat>, db: Db, doc: string, seqNo: nat)
    requires PendingOk(pending) && KeyedRows(db.rows) && Covers(lastSeq, db)
    ensures PendingOk(Drop(pending, doc, seqNo))
    ensures Covers(lastSeq, Db(db.counters, db.rows - {KeyOf(doc, seqNo)}))
    ensures Agrees(pending, db.rows) ==> Agrees(Drop(pending, doc, seqNo), db.rows - {KeyOf(doc, seqNo)})
  {
    DropRemovesOne(pending, doc, seqNo);
    OthersKeepCovering(lastSeq, db, Db(db.counters, db.rows - {KeyOf(doc, seqNo)}));
    if Agrees(pending, db.rows) { DropAgrees(pending, db.rows, doc, seqNo); }
  }

  /** UTF-16 code unit order, as `<` compares strings. */
  predicate StringLess(a: string, b: string) {
    b != [] && (a == [] || a[0] < b[0] || (a[0] == b[0] && StringLess(a[1..], b[1..])))
  }

  lemma {:induction false} StringLessIsTotal(a: string, b: string)
    ensures StringLess(a, b) || a == b || StringLess(b, a)
    ensures !(StringLess(a, b) && StringLess(b, a)) && (a == b ==> !StringLess(a, b))
  {
    if a == [] || b == [] || a[0] != b[0] {
    } else {
      StringLessIsTotal(a[1..], b[1..]);
      assert a == [a[0]] + a[1..] && b == [b[0]] + b[1..];
    }
  }

  lemma {:induction false} StringLessIsTransitive(a: string, b: string, c: string)
    requires StringLess(a, b) && StringLess(b, c)
    ensures StringLess(a, c)
  {
    if a == [] || a[0] != b[0] || b[0] != c[0] {
    } else {
      StringLessIsTransitive(a[1..], b[1..], c[1..]);
    }
  }

  /** The strings agree up to `k`; there `a` ends, or has the smaller unit. */
  predicate FirstDiffers(a: string, b: string, k: nat) {
    k <= |a| && k < |b| && a[..k] == b[..k] && (k == |a| || a[k] < b[k])
  }

  lemma {:induction false} StringLessIff(a: string, b: string)
    ensures StringLess(a, b) <==> exists k: nat :: FirstDiffers(a, b, k)
  {
    if b == [] {
    } else if a == [] || a[0] != b[0] {
      assert a == [] || a[0] < b[0] ==> FirstDiffers(a, b, 0);
      forall k: nat | FirstDiffers(a, b, k) ensures StringLess(a, b) {
        assert k > 0 ==> a[..k][0] == b[..k][0];
      }
    } else {
      StringLessIff(a[1..], b[1..]);
      forall k: nat | FirstDiffers(a, b, k) ensures FirstDiffers(a[1..], b[1..], k - 1) {
        assert a[1..][..k - 1] == a[..k][1..] && b[1..][..k - 1] == b[..k][1..];
      }
      forall k: nat | FirstDiffers(a[1..], b[1..], k) ensures FirstDiffers(a, b, k + 1) {
        assert a[..k + 1] == [a[0]] + a[1..][..k] && b[..k + 1] == [b[0]] + b[1..][..k];
      }
    }
  }

  predicate Before(a: Entry, b: Entry) {
    if a.doc == b.doc then a.seqNo < b.seqNo else StringLess(a.doc, b.doc)
  }

  ghost predicate StrictlySorted(es: seq<Entry>) {
    forall i, j :: 0 <= i < j < |es| ==> Before(es[i], es[j])
  }

  /** So each document's entries follow each other by number, and the documents by code units. */
  lemma SortedMeans(es: seq<Entry>)
    requires StrictlySorted(es)
    ensures forall i, j :: 0 <= i < j < |es| && es[i].doc == es[j].doc ==> es[i].seqNo < es[j].seqNo
    ensures forall i, j :: 0 <= i < j < |es| && es[i].doc != es[j].doc ==>
              exists k: nat :: FirstDiffers(es[i].doc, es[j].doc, k)
    ensures forall i, j, k :: 0 <= i < j < k < |es| && es[i].doc == es[k].doc ==> es[j].doc == es[i].doc
  {
    forall i, j | 0 <= i < j < |es| && es[i].doc != es[j].doc
      ensures exists k: nat :: FirstDiffers(es[i].doc, es[j].doc, k)
    {
      StringLessIff(es[i].doc, es[j].doc);
    }
    forall i, j, k | 0 <= i < j < k < |es| && es[i].doc == es[k].doc ensures es[j].doc == es[i].doc {
      assert Before(es[i], es[j]) && Before(es[j], es[k]);
      StringLessIsTotal(es[i].doc, es[j].doc);
    }
  }

  lemma BeforeIsTransitive(a: Entry, b: Entry, c: Entry)
    requires Before(a, b) && Before(b, c)
    ensures Before(a, c)
  {
    if a.doc != b.doc && b.doc != c.doc {
      StringLessIsTransitive(a.doc, b.doc, c.doc);
      StringLessIsTotal(a.doc, b.doc);
    }
  }

  function Insert(es: seq<Entry>, e: Entry): (r: seq<Entry>)
    ensures multiset(r) == multiset(es) + multiset{e}
  {
    if es == [] || Before(e, es[0]) then [e] + es
    else
      assert es == [es[0]] + es[1..];
      [es[0]] + Insert(es[1..], e)
  }

  /** Array.sort with the comparator of getUnacked. */
  function Sort(es: seq<Entry>): (r: seq<Entry>)
    ensures multiset(r) == multiset(es)
  {
    if es == [] then []
    else
      assert es == [es[0]] + es[1..];
      Insert(Sort(es[1..]), es[0])
  }

  ghost predicate DistinctKeys(es: seq<Entry>) {
    forall i, j :: 0 <= i < j < |es| ==> es[i].doc != es[j].doc || es[i].seqNo != es[j].seqNo
  }

  lemma {:induction false} InsertSorts(es: seq<Entry>, e: Entry)
    requires StrictlySorted(es) && forall x :: x in es ==> x.doc != e.doc || x.seqNo != e.seqNo
    ensures StrictlySorted(Insert(es, e))
  {
    if es == [] {
    } else if !Before(e, es[0]) {
      var tail := Insert(es[1..], e);
      InsertSorts(es[1..], e);
      StringLessIsTotal(e.doc, es[0].doc);
      assert es[0] in es;
      assert Before(es[0], e);
      forall x | x in tail ensures Before(es[0], x) {
        assert x in multiset(tail);
        assert x == e || x in es[1..];
      }
    } else {
      forall x | x in es ensures Before(e, x) {
        if x != es[0] { BeforeIsTransitive(e, es[0], x); }
      }
    }
  }

  /** Sorting gives each document's entries by number, and the documents by code units. */
  lemma SortSorts(es: seq<Entry>)
    requires DistinctKeys(es)
    ensures var all := Sort(es);
            && (forall i, j :: 0 <= i < j < |all| && all[i].doc == all[j].doc ==> all[i].seqNo < all[j].seqNo)
            && (forall i, j :: 0 <= i < j < |all| && all[i].doc != all[j].doc ==>
                  exists k: nat :: FirstDiffers(all[i].doc, all[j].doc, k))
            && (forall i, j, k :: 0 <= i < j < k < |all| && all[i].doc == all[k].doc ==> all[j].doc == all[i].doc)
  {
    SortIsStrict(es);
    SortedMeans(Sort(es));
  }

  lemma {:induction false} SortIsStrict(es: seq<Entry>)
    requires DistinctKeys(es)
    ensures StrictlySorted(Sort(es))
  {
    if es == [] {
    } else {
      SortIsStrict(es[1..]);
      forall x | x in Sort(es[1..]) ensures x.doc != es[0].doc || x.seqNo != es[0].seqNo {
        assert x in multiset(es[1..]);
      }
      InsertSorts(Sort(es[1..]), es[0]);
    }
  }

  lemma SortPermutes(es: seq<Entry>)
    ensures |Sort(es)| == |es| && forall e :: e in Sort(es) <==> e in es
  {
    assert |multiset(Sort(es))| == |multiset(es)|;
    forall e ensures e in Sort(es) <==> e in es {
      assert e in multiset(Sort(es)) <==> e in multiset(es);
    }
  }

  /** Each entry of the documents outside `docs`, once. */
  ghost predicate Collected(pending: Pending, es: seq<Entry>, docs: set<string>) {
    DistinctKeys(es) && forall e :: e in es <==> Has(pending, e) && e.doc !in docs
  }

  /** And those of `doc` whose numbers are not in `seqNos`. */
  ghost predicate CollectedDoc(pending: Pending, es: seq<Entry>, docs: set<string>, doc: string, seqNos: set<nat>) {
    && DistinctKeys(es)
    && forall e :: e in es <==> Has(pending, e) && (e.doc !in docs || (e.doc == doc && e.seqNo !in seqNos))
  }

  lemma DocStarts(pending: Pending, es: seq<Entry>, docs: set<string>, doc: string)
    requires doc in docs && docs <= pending.Keys && Collected(pending, es, docs)
    ensures CollectedDoc(pending, es, docs, doc, pending[doc].Keys)
  {
  }

  lemma DocEnds(pending: Pending, es: seq<Entry>, docs: set<string>, doc: string)
    requires doc in docs && CollectedDoc(pending, es, docs, doc, {})
    ensures Collected(pending, es, docs - {doc})
  {
  }

  lemma TakeEntry(pending: Pending, es: seq<Entry>, docs: set<string>, doc: string, seqNos: set<nat>, q: nat)
    requires PendingOk(pending) && doc in docs && docs <= pending.Keys && q in seqNos
    requires seqNos <= pending[doc].Keys
    requires CollectedDoc(pending, es, docs, doc, seqNos)
    ensures CollectedDoc(pending, es + [pending[doc][q]], docs, doc, seqNos - {q})
  {
    assert Filed(pending, doc, q);
    var e, es' := pending[doc][q], es + [pending[doc][q]];
    forall i | 0 <= i < |es| ensures es[i].doc != doc || es[i].seqNo != q { assert es[i] in es; }
    forall x ensures x in es' <==> Has(pending, x) && (x.doc !in docs || (x.doc == doc && x.seqNo !in seqNos - {q})) {
      assert x in es' <==> x in es || x == e;
    }
  }

  lemma {:induction false} TakeSum(pending: Pending, docs: set<string>, doc: string)
    requires doc in docs && docs <= pending.Keys
    ensures Total(pending, docs) == |pending[doc]| + Total(pending, docs - {doc})
  {
    var d := Pick(docs);
    if d == doc {
    } else {
      TakeSum(pending, docs - {d}, doc);
      assert docs - {d} - {doc} == docs - {doc} - {d};
      TakeSum(pending, docs - {doc}, d);
    }
  }

  ghost function Pick(docs: set<string>): string
    requires docs != {}
  {
    var d :| d in docs; d
  }

  /** The number of entries under the given documents. */
  ghost function Total(pending: Pending, docs: set<string>): nat
    requires docs <= pending.Keys
  {
    if docs == {} then 0 else var d := Pick(docs); |pending[d]| + Total(pending, docs - {d})
  }

  /** The tab's number for a document is raised to a row's, and its copy in localStorage if that was below, too. */
  ghost predicate Raised(row: Entry, lastSeq: map<string, nat>, local: map<string, nat>,
                         lastSeq': map<string, nat>, local': map<string, nat>)
  {
    var known := Max(Lookup(lastSeq, row.doc), Lookup(local, row.doc));
    && Lookup(lastSeq', row.doc) == Max(row.seqNo, known)
    && local' == (if row.seqNo > known then local[row.doc := row.seqNo] else local)
    && forall doc :: doc != row.doc ==> Lookup(lastSeq', doc) == Lookup(lastSeq, doc)
  }

  /** How opening the database goes, if it is not open. */
  datatype Opening = Blocked | LoadFails | SeedFails | Opens

  class Outbox {
    const browser: Browser
    var open: bool                 // the database is open and was loaded
    var pending: Pending
    var lastSeq: map<string, nat>

    ghost predicate Sound()
      reads this, browser
    {
      browser.Valid() && PendingOk(pending) && (open ==> Covers(lastSeq, browser.db))
    }

    /** A tab that has loaded: lastSeq covers the rows, which other tabs may have changed since. */
    ghost predicate Loaded()
      reads this, browser
    {
      open && Sound()
    }

    /** And no other tab has: memory equals storage. */
    ghost predicate Quiet()
      reads this, browser
    {
      Loaded() && Agrees(pending, browser.db.rows)
    }

    constructor (browser: Browser)
      requires browser.Valid()
      ensures Sound() && this.browser == browser && !open && pending == map[] && lastSeq == map[]
    {
      this.browser := browser;
      open, pending, lastSeq := false, map[], map[];
    }

    method LoadSeq(row: Entry)
      requires browser.Valid()
      modifies this`lastSeq, browser`local
      ensures browser.Valid() && row.seqNo <= Lookup(lastSeq, row.doc)
      ensures forall doc :: Lookup(old(lastSeq), doc) <= Lookup(lastSeq, doc)
      ensures Raised(row, old(lastSeq), old(browser.local), lastSeq, browser.local)
    {
      var cur := Max(Lookup(lastSeq, row.doc), Lookup(browser.local, row.doc));
      if row.seqNo > cur {
        lastSeq := lastSeq[row.doc := row.seqNo];
        browser.OverwriteLocal(browser.local[row.doc := row.seqNo]);
      } else if cur > 0 {
        lastSeq := lastSeq[row.doc := cur];
      }
    }

    /** The completion of _loadAll, over the rows its transaction read; other tabs may have moved on since. */
    method FinishLoad(snapshot: map<string, Entry>)
      requires browser.Valid() && KeyedRows(snapshot)
      modifies this`pending, this`lastSeq, browser`local
      ensures browser.Valid() && Agrees(pending, snapshot)
      ensures forall key :: key in snapshot ==> snapshot[key].seqNo <= Lookup(lastSeq, snapshot[key].doc)
    {
      hide Raised;
      var loaded: Pending := map[];
      var keys := snapshot.Keys;
      ghost var taken: map<string, Entry> := map[];
      while keys != {}
        invariant browser.Valid() && keys <= snapshot.Keys
        invariant taken == snapshot - keys && KeyedRows(taken) && Agrees(loaded, taken)
        invariant forall key :: key in taken ==> taken[key].seqNo <= Lookup(lastSeq, taken[key].doc)
      {
        var key :| key in keys;
        LoadSeq(snapshot[key]);
        TakeRow(loaded, taken, snapshot, keys, key);
        loaded := Put(loaded, snapshot[key]);
        taken := taken[key := snapshot[key]];
        keys := keys - {key};
      }
      assert taken == snapshot;
      pending := loaded;
    }

    /**
     Opens and loads the database, unless it is open: memory equals the rows read, and other tabs may have
     moved on meanwhile. Only a complete opening counts; a failed one may be tried again.
     */
    method Init(opening: Opening, snapshot: Db) returns (ok: bool)
      requires Sound() && KeyedRows(snapshot.rows) && Evolves(snapshot, browser.db)
      modifies this, browser`db, browser`local
      ensures Sound() && open == ok && browser.db.rows == old(browser.db.rows)
      ensures ok <==> old(open) || opening.Opens? || (opening.SeedFails? && snapshot.rows == map[])
      ensures old(open) ==> pending == old(pending) && lastSeq == old(lastSeq) && browser.db == old(browser.db)
      ensures !old(open) && ok ==> Agrees(pending, snapshot.rows)
      ensures !old(open) && ok ==> Raises(pending.Keys, lastSeq, browser.db.counters)
    {
      if open { return true; }
      if opening.Blocked? || opening.LoadFails? { return false; }
      Load(snapshot);
      EmptyAgrees(pending, snapshot.rows);
      ok := SeedCounters(opening.Opens?);
      open := ok;
    }

    method Load(snapshot: Db)
      requires !open && Sound() && KeyedRows(snapshot.rows) && Evolves(snapshot, browser.db)
      modifies this`pending, this`lastSeq, browser`local
      ensures Sound() && Covers(lastSeq, browser.db) && Agrees(pending, snapshot.rows)
    {
      FinishLoad(snapshot.rows);
      LoadCoversLater(lastSeq, snapshot, browser.db);
    }

    /** Nothing is loaded, nothing is seeded. */
    method SeedCounters(commits: bool) returns (ok: bool)
      requires !open && Sound() && Covers(lastSeq, browser.db)
      modifies browser`db
      ensures ok <==> commits || pending == map[]
      ensures ok ==> Raises(pending.Keys, lastSeq, browser.db.counters)
      ensures Sound() && Covers(lastSeq, browser.db) && browser.db.rows == old(browser.db.rows)
    {
      if pending == map[] { return true; }
      hide PendingOk, Covers, Evolves, Raises;
      ghost var before := browser.db;
      browser.SeedTx(pending.Keys, lastSeq, commits);
      OthersKeepCovering(lastSeq, before, browser.db);
      ok := commits;
    }

    /** Transactions of other tabs. */
    method Meanwhile(after: Db, ghost issuedAfter: map<string, seq<nat>>)
      requires Sound() && KeyedRows(after.rows) && Evolves(browser.db, after)
      requires IssuedGrows(browser.issued, issuedAfter) && IssueOk(issuedAfter, after.counters)
      modifies browser`db, browser`issued
      ensures Sound() && browser.db == after && browser.issued == issuedAfter
    {
      if open { OthersKeepCovering(lastSeq, browser.db, after); }
      browser.OtherTabs(after, issuedAfter);
    }

    /** A newer version wants the database: it is closed, and opened again by the next call. */
    method Close()
      requires Sound()
      modifies this`open
      ensures Sound() && !open
    {
      open := false;
    }

    /** refresh with the database open and nothing else in progress. */
    method Refresh()
      requires Loaded()
      modifies this`pending, this`lastSeq, browser`local
      ensures Quiet() && browser.db == old(browser.db)
    {
      FinishLoad(browser.db.rows);
    }

    /** The in-memory half of an enqueue, run when its transaction has completed. */
    method AddToMemory(e: Entry)
      requires browser.Valid()
      modifies this`pending, this`lastSeq, browser`local
      ensures browser.Valid() && pending == Put(old(pending), e)
      ensures forall doc :: Lookup(old(lastSeq), doc) <= Lookup(lastSeq, doc)
      ensures e.seqNo <= Lookup(lastSeq, e.doc)
      ensures Raised(e, old(lastSeq), old(browser.local), lastSeq, browser.local)
    {
      pending := Put(pending, e);
      var current := Max(Lookup(lastSeq, e.doc), Lookup(browser.local, e.doc));
      if e.seqNo > current {
        lastSeq := lastSeq[e.doc := e.seqNo];
        browser.OverwriteLocal(browser.local[e.doc := e.seqNo]);
      } else {
        lastSeq := lastSeq[e.doc := current];
      }
    }

    /** On commit exactly one fresh entry is added, to storage and memory; on abort nothing changes. */
    method EnqueueNext(doc: string, kind: Kind, upd: Update, commits: bool) returns (seqNo: Option<nat>)
      requires Loaded()
      modifies this, browser
      ensures Loaded() && (old(Quiet()) ==> Quiet()) && seqNo.Some? == commits
      ensures commits ==>
                && KeyOf(doc, seqNo.value) !in old(browser.db.rows)
                && browser.db.rows == old(browser.db.rows)[KeyOf(doc, seqNo.value) := Entry(doc, seqNo.value, kind, upd)]
                && browser.issued == old(browser.issued)[doc := Issued(old(browser.issued), doc) + [seqNo.value]]
                && (forall q :: q in Issued(old(browser.issued), doc) ==> q < seqNo.value)
                && pending == Put(old(pending), Entry(doc, seqNo.value, kind, upd))
                && Raised(Entry(doc, seqNo.value, kind, upd), old(lastSeq), old(browser.local), lastSeq, browser.local)
      ensures !commits ==> browser.db == old(browser.db) && browser.issued == old(browser.issued)
                           && pending == old(pending)
    {
      hide Agrees, PendingOk, Covers, Raised;
      ghost var before := browser.db;
      var stored := PutNext(doc, kind, upd, commits);
      if !commits { return None; }
      Commit(Entry(doc, stored, kind, upd), before, lastSeq);
      seqNo := Some(stored);
    }

    /** Its transaction, for a tab that covers the rows. */
    method PutNext(doc: string, kind: Kind, upd: Update, commits: bool) returns (stored: nat)
      requires Loaded()
      modifies browser`db, browser`issued
      ensures browser.Valid()
      ensures !commits ==> browser.db == old(browser.db) && browser.issued == old(browser.issued)
      ensures commits ==>
                && KeyOf(doc, stored) !in old(browser.db.rows)
                && browser.db.rows == old(browser.db.rows)[KeyOf(doc, stored) := Entry(doc, stored, kind, upd)]
                && browser.issued == old(browser.issued)[doc := Issued(old(browser.issued), doc) + [stored]]
                && forall q :: q in Issued(old(browser.issued), doc) ==> q < stored
      ensures forall d :: Lookup(old(browser.db.counters), d) <= Lookup(browser.db.counters, d)
    {
      stored := browser.PersistTx(doc, kind, upd, 0, true, lastSeq, commits);
      if commits { NewestExceeds(old(browser.issued), browser.db.counters, doc, stored); }
    }

    /** The same under a number that the caller gives; a row there already is overwritten. */
    method Enqueue(doc: string, seqNo: nat, kind: Kind, upd: Update, commits: bool)
      requires Loaded()
      modifies this, browser
      ensures Loaded() && (old(Quiet()) ==> Quiet()) && browser.issued == old(browser.issued)
      ensures commits ==>
                && browser.db.rows == old(browser.db.rows)[KeyOf(doc, seqNo) := Entry(doc, seqNo, kind, upd)]
                && pending == Put(old(pending), Entry(doc, seqNo, kind, upd))
                && Raised(Entry(doc, seqNo, kind, upd), old(lastSeq), old(browser.local), lastSeq, browser.local)
      ensures !commits ==> browser.db == old(browser.db) && pending == old(pending)
    {
      ghost var before := browser.db;
      var stored := browser.PersistTx(doc, kind, upd, seqNo, false, lastSeq, commits);
      if !commits { return; }
      Commit(Entry(doc, seqNo, kind, upd), before, lastSeq);
    }

    /** What a committed transaction leaves to do: the entry is put into memory, and its number covered. */
    method Commit(e: Entry, ghost before: Db, ghost covering: map<string, nat>)
      requires open && browser.Valid() && PendingOk(pending) && KeyedRows(before.rows) && Covers(covering, before)
      requires covering == lastSeq && browser.db.rows == before.rows[KeyOf(e.doc, e.seqNo) := e]
      requires forall doc :: Lookup(before.counters, doc) <= Lookup(browser.db.counters, doc)
      modifies this, browser`local
      ensures Loaded() && pending == Put(old(pending), e)
      ensures Raised(e, old(lastSeq), old(browser.local), lastSeq, browser.local)
      ensures Agrees(old(pending), before.rows) ==> Agrees(pending, browser.db.rows)
    {
      hide Agrees, PendingOk, Covers, KeyedRows, Raised;
      PutKeeps(pending, before.rows, e);
      AddToMemory(e);
      AddedIsCovered(covering, lastSeq, before, browser.db, e);
    }

    /** ack removes exactly the entry it names, from storage and memory; on abort nothing changes. */
    method AckEntry(doc: string, seqNo: nat, commits: bool)
      requires Loaded()
      modifies this, browser
      ensures Loaded() && (old(Quiet()) ==> Quiet()) && browser.issued == old(browser.issued)
      ensures if commits
              then browser.db.rows == old(browser.db.rows) - {KeyOf(doc, seqNo)} && pending == Drop(old(pending), doc, seqNo)
              else browser.db == old(browser.db) && pending == old(pending)
    {
      hide Agrees, PendingOk, Covers, KeyedRows;
      AckKeeps(pending, lastSeq, browser.db, doc, seqNo);
      browser.RemoveTx(doc, seqNo, commits);
      if commits { pending := Drop(pending, doc, seqNo); }
    }

    /** All unacknowledged entries, each once: document by document, and in each by number. */
    method GetUnacked() returns (all: seq<Entry>)
      requires PendingOk(pending)
      ensures forall i, j :: 0 <= i < j < |all| && all[i].doc == all[j].doc ==> all[i].seqNo < all[j].seqNo
      ensures forall i, j :: 0 <= i < j < |all| && all[i].doc != all[j].doc ==>
                exists k: nat :: FirstDiffers(all[i].doc, all[j].doc, k)
      ensures forall i, j, k :: 0 <= i < j < k < |all| && all[i].doc == all[k].doc ==> all[j].doc == all[i].doc
      ensures forall e :: e in all <==> Has(pending, e)
      ensures |all| == Total(pending, pending.Keys)
    {
      var unsorted: seq<Entry> := [];
      var docs := pending.Keys;
      while docs != {}
        invariant docs <= pending.Keys && Collected(pending, unsorted, docs)
        invariant |unsorted| + Total(pending, docs) == Total(pending, pending.Keys)
      {
        var doc :| doc in docs;
        TakeSum(pending, docs, doc);
        unsorted := CollectDoc(unsorted, docs, doc);
        docs := docs - {doc};
      }
      all := Sort(unsorted);
      SortSorts(unsorted);
      SortPermutes(unsorted);
    }

    method CollectDoc(unsorted: seq<Entry>, ghost docs: set<string>, doc: string) returns (r: seq<Entry>)
      requires PendingOk(pending) && doc in docs && docs <= pending.Keys && Collected(pending, unsorted, docs)
      ensures Collected(pending, r, docs - {doc}) && |r| == |unsorted| + |pending[doc]|
    {
      r := unsorted;
      DocStarts(pending, unsorted, docs, doc);
      var seqNos := pending[doc].Keys;
      while seqNos != {}
        invariant seqNos <= pending[doc].Keys && CollectedDoc(pending, r, docs, doc, seqNos)
        invariant |r| + |seqNos| == |unsorted| + |pending[doc]|
      {
        var q :| q in seqNos;
        TakeEntry(pending, r, docs, doc, seqNos, q);
        r := r + [pending[doc][q]];
        seqNos := seqNos - {q};
      }
      DocEnds(pending, r, docs, doc);
    }

    /** The count of a document, or of all of them; an unknown document counts zero. */
    method GetUnackedCount(doc: Option<string>) returns (n: nat)
      ensures n == if doc.Some? && doc.value != ""
                   then (if doc.value in pending then |pending[doc.value]| else 0)
                   else Total(pending, pending.Keys)
    {
      if doc.Some? && doc.value != "" {
        return if doc.value in pending then |pending[doc.value]| else 0;
      }
      n := 0;
      var docs := pending.Keys;
      while docs != {}
        invariant docs <= pending.Keys && n + Total(pending, docs) == Total(pending, pending.Keys)
      {
        var d :| d in docs;
        TakeSum(pending, docs, d);
        n := n + |pending[d]|;
        docs := docs - {d};
      }
    }
  }

  lemma EmptyAgrees(pending: Pending, rows: map<string, Entry>)
    requires Agrees(pending, rows)
    ensures pending == map[] <==> rows == map[]
  {
    assert pending != map[] ==> exists doc, q :: doc in pending && q in pending[doc];
    assert rows != map[] ==> exists key :: key in rows && Has(pending, rows[key]);
  }

  lemma TakeRow(loaded: Pending, taken: map<string, Entry>, rows: map<string, Entry>, keys: set<string>, key: string)
    requires KeyedRows(rows) && key in keys && keys <= rows.Keys && taken == rows - keys
    requires KeyedRows(taken) && Agrees(loaded, taken)
    ensures taken[key := rows[key]] == rows - (keys - {key})
    ensures KeyedRows(taken[key := rows[key]]) && Agrees(Put(loaded, rows[key]), taken[key := rows[key]])
  {
    var row := rows[key];
    assert key == KeyOf(row.doc, row.seqNo);
    PutAgrees(loaded, taken, row);
    PutKeepsRows(taken, row);
    TakeKey(taken, rows, keys, key);
  }

  lemma TakeKey<K, V>(taken: map<K, V>, rows: map<K, V>, keys: set<K>, key: K)
    requires key in keys && keys <= rows.Keys && taken == rows - keys
    ensures taken[key := rows[key]] == rows - (keys - {key})
  {
  }

  lemma PutIsOk(pending: Pending, e: Entry)
    requires PendingOk(pending)
    ensures PendingOk(Put(pending, e))
  {
    var pending' := Put(pending, e);
    forall doc | doc in pending'
      ensures pending'[doc] != map[] && forall q :: q in pending'[doc] ==> Filed(pending', doc, q)
    {
      assert doc == e.doc ==> e.seqNo in pending'[doc];
      forall q | q in pending'[doc] ensures Filed(pending', doc, q) {
        if (doc, q) != (e.doc, e.seqNo) { assert Filed(pending, doc, q); }
      }
    }
  }

  lemma AddedIsCovered(lastSeq: map<string, nat>, raised: map<string, nat>, before: Db, after: Db, e: Entry)
    requires Covers(lastSeq, before) && after.rows == before.rows[KeyOf(e.doc, e.seqNo) := e]
    requires forall doc :: Lookup(before.counters, doc) <= Lookup(after.counters, doc)
    requires forall doc :: Lookup(lastSeq, doc) <= Lookup(raised, doc)
    requires e.seqNo <= Lookup(raised, e.doc)
    ensures Covers(raised, after)
  {
    forall key | key in after.rows
      ensures after.rows[key].seqNo <= Max(Lookup(after.counters, after.rows[key].doc), Lookup(raised, after.rows[key].doc))
    {
      var doc := after.rows[key].doc;
      assert Lookup(before.counters, doc) <= Lookup(after.counters, doc) && Lookup(lastSeq, doc) <= Lookup(raised, doc);
    }
  }

  /** Loaded from a snapshot other tabs have meanwhile moved on from, lastSeq covers the present database too. */
  lemma LoadCoversLater(lastSeq: map<string, nat>, snapshot: Db, now: Db)
    requires forall key :: key in snapshot.rows ==> snapshot.rows[key].seqNo <= Lookup(lastSeq, snapshot.rows[key].doc)
    requires Evolves(snapshot, now)
    ensures Covers(lastSeq, now)
  {
    OthersKeepCovering(lastSeq, snapshot, now);
  }
}
