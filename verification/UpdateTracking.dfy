/**
 How a message handler learns whether its update was persisted: it opens a tracker for (connection,
 document), the document's update listener observes it, and the end of the persistence completes the
 first observed one. Completions carry no identity, which is where they can go astray.
 */
module UpdateTracking {
  import opened Base

  type Conn = nat
  type DocId = nat

  /** What the registry of one connection shows of a tracker. */
  datatype View = View(doc: DocId, observed: bool)

  /** Index of the first tracker of `doc` with the given flag; the length if there is none. */
  function First(vs: seq<View>, doc: DocId, observed: bool): (i: nat)
    ensures i <= |vs|
    ensures i < |vs| ==> vs[i] == View(doc, observed)
    ensures forall k :: 0 <= k < i ==> vs[k] != View(doc, observed)
  {
    if vs == [] || vs[0] == View(doc, observed) then 0 else 1 + First(vs[1..], doc, observed)
  }

  lemma FirstUnique(vs: seq<View>, doc: DocId, observed: bool, i: nat)
    requires i <= |vs| && (i < |vs| ==> vs[i] == View(doc, observed))
    requires forall k :: 0 <= k < i ==> vs[k] != View(doc, observed)
    ensures First(vs, doc, observed) == i
  {
  }

  function RemoveAt<T>(xs: seq<T>, i: nat): seq<T>
    requires i <= |xs|
  {
    if i < |xs| then xs[..i] + xs[i + 1..] else xs
  }

  /** Set deletion. */
  function Without<T(==)>(xs: seq<T>, x: T): seq<T> {
    if xs == [] then [] else (if xs[0] == x then [] else [xs[0]]) + Without(xs[1..], x)
  }

  lemma {:induction false} WithoutNone<T>(xs: seq<T>, x: T)
    requires x !in xs
    ensures Without(xs, x) == xs
  {
    if xs == [] {
    } else {
      WithoutNone(xs[1..], x);
    }
  }

  lemma {:induction false} RemoveOne<T>(xs: seq<T>, x: T, i: nat)
    requires i < |xs| && xs[i] == x && forall j, k :: 0 <= j < k < |xs| ==> xs[j] != xs[k]
    ensures Without(xs, x) == RemoveAt(xs, i) && x !in RemoveAt(xs, i)
  {
    if i == 0 {
      WithoutNone(xs[1..], x);
    } else {
      RemoveOne(xs[1..], x, i - 1);
      assert RemoveAt(xs, i) == [xs[0]] + RemoveAt(xs[1..], i - 1);
    }
  }

  class Tracker {
    const doc: DocId
    var observed: bool
    var active: bool
    var result: Option<bool>

    constructor (doc: DocId)
      ensures this.doc == doc && !observed && active && result.None?
    {
      this.doc := doc;
      observed, active, result := false, true, None;
    }

    /** Resolving the promise; the precondition is that nobody resolved it before. */
    method Resolve(value: bool)
      requires result.None?
      modifies this`result
      ensures result == Some(value)
    {
      result := Some(value);
    }
  }

  /** The tracker set of one connection. */
  class TrackerRegistry {
    var trackers: seq<Tracker>

    ghost predicate Valid()
      reads this, trackers
    {
      && (forall i, j :: 0 <= i < j < |trackers| ==> trackers[i] != trackers[j])
      && (forall i :: 0 <= i < |trackers| ==> trackers[i].active && trackers[i].result.None?)
    }

    ghost function Views(): (vs: seq<View>)
      reads this, trackers
      ensures |vs| == |trackers|
    {
      seq(|trackers|, i requires 0 <= i < |trackers| reads this, trackers => View(trackers[i].doc, trackers[i].observed))
    }

    constructor ()
      ensures Valid() && trackers == []
    {
      trackers := [];
    }

    method Begin(doc: DocId) returns (t: Tracker)
      requires Valid()
      modifies this
      ensures Valid() && fresh(t) && trackers == old(trackers) + [t]
      ensures t.doc == doc && Views() == old(Views()) + [View(doc, false)]
    {
      t := new Tracker(doc);
      trackers := trackers + [t];
    }

    method Observe(doc: DocId)
      requires Valid()
      modifies trackers
      ensures Valid() && trackers == old(trackers)
      ensures var i := First(old(Views()), doc, false);
              Views() == if i < |trackers| then old(Views())[i := View(doc, true)] else old(Views())
    {
      var i := 0;
      while i < |trackers|
        invariant i <= |trackers| && Valid() && Views() == old(Views())
        invariant forall k :: 0 <= k < i ==> Views()[k] != View(doc, false)
      {
        if trackers[i].active && trackers[i].doc == doc && !trackers[i].observed {
          FirstUnique(Views(), doc, false, i);
          trackers[i].observed := true;
          return;
        }
        i := i + 1;
      }
      FirstUnique(Views(), doc, false, i);
    }

    /** The two steps before a tracker is resolved: it becomes inactive and leaves the set. */
    method Remove(t: Tracker, ghost i: nat)
      requires Valid() && i < |trackers| && trackers[i] == t
      modifies this, t`active
      ensures Valid() && t !in trackers && !t.active
      ensures trackers == RemoveAt(old(trackers), i) && Views() == RemoveAt(old(Views()), i)
    {
      t.active := false;
      RemoveOne(trackers, t, i);
      trackers := Without(trackers, t);
    }

    /** Resolves the first observed tracker of the document, and no other; it leaves the set. */
    method Complete(doc: DocId, persisted: bool)
      requires Valid()
      modifies this, trackers
      ensures Valid()
      ensures var i := First(old(Views()), doc, true);
              && trackers == RemoveAt(old(trackers), i)
              && Views() == RemoveAt(old(Views()), i)
              && (i < old(|trackers|) ==> old(trackers[First(Views(), doc, true)]).result == Some(persisted))
              && forall k :: 0 <= k < old(|trackers|) && k != i ==>
                   old(trackers)[k].result.None? && old(trackers)[k].active
    {
      var i := 0;
      while i < |trackers|
        invariant i <= |trackers| && Valid() && trackers == old(trackers) && Views() == old(Views())
        invariant forall k :: 0 <= k < i ==> Views()[k] != View(doc, true)
      {
        var t := trackers[i];
        if t.active && t.doc == doc && t.observed {
          FirstUnique(Views(), doc, true, i);
          Remove(t, i);
          t.Resolve(persisted);
          return;
        }
        i := i + 1;
      }
      FirstUnique(Views(), doc, true, i);
    }

    /** Cancelling resolves to true, once; an inactive tracker is left alone. */
    method Cancel(t: Tracker)
      requires Valid() && (t.active ==> t in trackers)
      modifies this, t
      ensures Valid() && t !in trackers && !t.active
      ensures if old(t.active)
              then t.result == Some(true) && exists i :: 0 <= i < old(|trackers|) && old(trackers)[i] == t
                                                          && trackers == RemoveAt(old(trackers), i)
              else t.result == old(t.result) && trackers == old(trackers)
    {
      if !t.active { return; }
      ghost var i :| 0 <= i < |trackers| && trackers[i] == t;
      Remove(t, i);
      t.Resolve(true);
    }
  }
}
