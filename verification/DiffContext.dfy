/** The history diff: each changed part with up to twenty characters of what surrounds it. */
module DiffContext {

  const CONTEXT_LEN: nat := 20

  datatype Kind = Same | Added | Removed
  datatype Part = Part(value: string, kind: Kind)
  datatype Change = Change(part: Part, contextBefore: string, contextAfter: string)

  function Concat(parts: seq<Part>): string {
    if parts == [] then "" else parts[0].value + Concat(parts[1..])
  }

  lemma {:induction false} ConcatAppend(a: seq<Part>, b: seq<Part>)
    ensures Concat(a + b) == Concat(a) + Concat(b)
  {
    if a == [] {
      assert a + b == b;
    } else {
      ConcatAppend(a[1..], b);
      assert (a + b)[1..] == a[1..] + b && (a + b)[0] == a[0];
      assert Concat(a) + Concat(b) == a[0].value + (Concat(a[1..]) + Concat(b));
    }
  }

  function Min(a: nat, b: nat): nat {
    if a <= b then a else b
  }

  /** The last `n` characters, or all there are. */
  function Last(s: string, n: nat): string {
    s[|s| - Min(n, |s|)..]
  }

  function First(s: string, n: nat): string {
    s[..Min(n, |s|)]
  }

  lemma ConcatPrepend(parts: seq<Part>, j: nat, i: nat)
    requires j < i <= |parts|
    ensures Concat(parts[j..i]) == parts[j].value + Concat(parts[j + 1..i])
  {
    assert parts[j..i][1..] == parts[j + 1..i];
  }

  lemma ConcatPostpend(parts: seq<Part>, i: nat, j: nat)
    requires i <= j < |parts|
    ensures Concat(parts[i..j + 1]) == Concat(parts[i..j]) + parts[j].value
  {
    assert parts[i..j + 1] == parts[i..j] + [parts[j]];
    ConcatAppend(parts[i..j], [parts[j]]);
    assert Concat([parts[j]]) == parts[j].value + Concat([]);
  }

  lemma ConcatSplit(parts: seq<Part>, i: nat, j: nat, k: nat)
    requires i <= j <= k <= |parts|
    ensures Concat(parts[i..k]) == Concat(parts[i..j]) + Concat(parts[j..k])
  {
    ConcatAppend(parts[i..j], parts[j..k]);
    assert parts[i..k] == parts[i..j] + parts[j..k];
  }

  lemma LastOfSum(a: string, b: string, n: nat)
    ensures |b| >= n ==> Last(a + b, n) == Last(b, n)
    ensures |b| < n ==> Last(a + b, n) == Last(a, n - |b|) + Last(b, n)
  {
  }

  lemma FirstOfSum(a: string, b: string, n: nat)
    ensures |a| >= n ==> First(a + b, n) == First(a, n)
    ensures |a| < n ==> First(a + b, n) == First(a, n) + First(b, n - |a|)
  {
  }

  /** String slice(-k); slice(-0) is the whole string. */
  function SliceFromEnd(s: string, k: nat): string {
    if k == 0 || k >= |s| then s else s[|s| - k..]
  }

  lemma SliceIsLast(s: string, k: nat)
    requires k > 0
    ensures SliceFromEnd(s, Min(k, |s|)) == Last(s, k)
  {
  }

  /** What a loop from part `i` down has taken when it stands before part `j`. */
  ghost predicate TakenBefore(parts: seq<Part>, j: nat, i: nat, before: string, count: nat) {
    j <= i <= |parts| && count == |Concat(parts[j..i])| && before == Last(Concat(parts[j..i]), CONTEXT_LEN)
  }

  lemma TakeBefore(parts: seq<Part>, j: nat, i: nat, before: string, count: nat)
    requires j < i && TakenBefore(parts, j + 1, i, before, count) && count < CONTEXT_LEN
    ensures var val := parts[j].value;
            TakenBefore(parts, j, i, SliceFromEnd(val, Min(CONTEXT_LEN - count, |val|)) + before, count + |val|)
  {
    var val := parts[j].value;
    ConcatPrepend(parts, j, i);
    LastOfSum(val, Concat(parts[j + 1..i]), CONTEXT_LEN);
    SliceIsLast(val, CONTEXT_LEN - count);
  }

  lemma EnoughBefore(parts: seq<Part>, j: nat, i: nat, before: string, count: nat)
    requires TakenBefore(parts, j, i, before, count) && (j == 0 || count >= CONTEXT_LEN)
    ensures before == Last(Concat(parts[..i]), CONTEXT_LEN)
  {
    ConcatSplit(parts, 0, j, i);
    assert parts[0..i] == parts[..i];
    if j > 0 { LastOfSum(Concat(parts[0..j]), Concat(parts[j..i]), CONTEXT_LEN); }
  }

  method ContextBefore(parts: seq<Part>, i: nat) returns (before: string)
    requires i < |parts|
    ensures before == Last(Concat(parts[..i]), CONTEXT_LEN)
    ensures var all := Concat(parts[..i]); before == if |all| <= 20 then all else all[|all| - 20..]
  {
    before := "";
    var count: nat, j: nat := 0, i;
    assert parts[i..i] == [];
    while j > 0 && count < CONTEXT_LEN
      invariant TakenBefore(parts, j, i, before, count)
    {
      j := j - 1;
      TakeBefore(parts, j, i, before, count);
      var val := parts[j].value;
      before := SliceFromEnd(val, Min(CONTEXT_LEN - count, |val|)) + before;
      count := count + |val|;
    }
    EnoughBefore(parts, j, i, before, count);
  }

  /** The same of a loop from part `i` up. */
  ghost predicate TakenAfter(parts: seq<Part>, i: nat, j: nat, after: string, count: nat) {
    i <= j <= |parts| && count == |Concat(parts[i..j])| && after == First(Concat(parts[i..j]), CONTEXT_LEN)
  }

  lemma TakeAfter(parts: seq<Part>, i: nat, j: nat, after: string, count: nat)
    requires j < |parts| && TakenAfter(parts, i, j, after, count) && count < CONTEXT_LEN
    ensures var val := parts[j].value;
            TakenAfter(parts, i, j + 1, after + First(val, CONTEXT_LEN - count), count + |val|)
  {
    ConcatPostpend(parts, i, j);
    FirstOfSum(Concat(parts[i..j]), parts[j].value, CONTEXT_LEN);
  }

  lemma EnoughAfter(parts: seq<Part>, i: nat, j: nat, after: string, count: nat)
    requires TakenAfter(parts, i, j, after, count) && (j == |parts| || count >= CONTEXT_LEN)
    ensures after == First(Concat(parts[i..]), CONTEXT_LEN)
  {
    ConcatSplit(parts, i, j, |parts|);
    assert parts[i..|parts|] == parts[i..];
    if j == |parts| {
      assert parts[i..j] == parts[i..];
    } else {
      FirstOfSum(Concat(parts[i..j]), Concat(parts[j..|parts|]), CONTEXT_LEN);
    }
  }

  method ContextAfter(parts: seq<Part>, i: nat) returns (after: string)
    requires i < |parts|
    ensures after == First(Concat(parts[i + 1..]), CONTEXT_LEN)
    ensures var all := Concat(parts[i + 1..]); after == if |all| <= 20 then all else all[..20]
  {
    after := "";
    var count: nat, j: nat := 0, i + 1;
    assert parts[i + 1..i + 1] == [];
    while j < |parts| && count < CONTEXT_LEN
      invariant TakenAfter(parts, i + 1, j, after, count)
    {
      TakeAfter(parts, i + 1, j, after, count);
      var val := parts[j].value;
      after := after + First(val, CONTEXT_LEN - count);
      count := count + |val|;
      j := j + 1;
    }
    EnoughAfter(parts, i + 1, j, after, count);
  }

  /** A part with the characters before and after it. */
  function Described(parts: seq<Part>, i: nat): Change
    requires i < |parts|
  {
    Change(parts[i], Last(Concat(parts[..i]), CONTEXT_LEN), First(Concat(parts[i + 1..]), CONTEXT_LEN))
  }

  /** The part at `i` with the last twenty characters before it and the first twenty after it, or all there are. */
  ghost predicate Surrounds(c: Change, parts: seq<Part>, i: nat)
    requires i < |parts|
  {
    var (front, back) := (Concat(parts[..i]), Concat(parts[i + 1..]));
    && c.part == parts[i]
    && c.contextBefore == (if |front| <= 20 then front else front[|front| - 20..])
    && c.contextAfter == (if |back| <= 20 then back else back[..20])
  }

  /** The positions of the changed parts among the first `n`, in order. */
  function Changed(parts: seq<Part>, n: nat): (at: seq<nat>)
    requires n <= |parts|
    ensures forall k :: 0 <= k < |at| ==> at[k] < n && !parts[at[k]].kind.Same?
    ensures forall k, l :: 0 <= k < l < |at| ==> at[k] < at[l]
    ensures forall i :: 0 <= i < n && !parts[i].kind.Same? ==> i in at
  {
    if n == 0 then []
    else if parts[n - 1].kind.Same? then Changed(parts, n - 1)
    else Changed(parts, n - 1) + [n - 1]
  }

  function Diff(parts: seq<Part>, n: nat): seq<Change>
    requires n <= |parts|
  {
    if n == 0 then []
    else if parts[n - 1].kind.Same? then Diff(parts, n - 1)
    else Diff(parts, n - 1) + [Described(parts, n - 1)]
  }

  lemma {:induction false} DiffLength(parts: seq<Part>, n: nat)
    requires n <= |parts|
    ensures |Diff(parts, n)| == |Changed(parts, n)|
  {
    if n <= 0 {
    } else {
      DiffLength(parts, n - 1);
    }
  }

  lemma {:induction false} DiffAt(parts: seq<Part>, n: nat, k: nat)
    requires n <= |parts| && k < |Changed(parts, n)| && k < |Diff(parts, n)|
    ensures Diff(parts, n)[k] == Described(parts, Changed(parts, n)[k])
  {
    DiffLength(parts, n - 1);
    if k < |Changed(parts, n - 1)| { DiffAt(parts, n - 1, k); }
  }

  /** One entry per changed part, in order, with exactly the characters around it; empty iff nothing changed. */
  lemma DiffIsExact(parts: seq<Part>)
    ensures var at, diff := Changed(parts, |parts|), Diff(parts, |parts|);
            |diff| == |at| && forall k :: 0 <= k < |at| ==> Surrounds(diff[k], parts, at[k])
    ensures Diff(parts, |parts|) == [] <==> forall i :: 0 <= i < |parts| ==> parts[i].kind.Same?
  {
    var at := Changed(parts, |parts|);
    DiffLength(parts, |parts|);
    forall k | 0 <= k < |at| ensures Surrounds(Diff(parts, |parts|)[k], parts, at[k]) { DiffAt(parts, |parts|, k); }
    if at != [] { assert !parts[at[0]].kind.Same?; }
  }

  method GetSnapshotDiff(parts: seq<Part>) returns (result: seq<Change>)
    ensures |result| == |Changed(parts, |parts|)|
    ensures forall k :: 0 <= k < |result| ==> Surrounds(result[k], parts, Changed(parts, |parts|)[k])
    ensures result == [] <==> forall i :: 0 <= i < |parts| ==> parts[i].kind.Same?
  {
    hide Changed, Concat, First, Last, Surrounds;
    result := [];
    var i := 0;
    while i < |parts|
      invariant i <= |parts| && result == Diff(parts, i)
    {
      if parts[i].kind.Added? || parts[i].kind.Removed? {
        var before := ContextBefore(parts, i);
        var after := ContextAfter(parts, i);
        result := result + [Change(parts[i], before, after)];
      }
      i := i + 1;
    }
    DiffIsExact(parts);
  }
}
