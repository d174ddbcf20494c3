/**
 The flush before a compilation: up to ten workers take targets from one shared index, and between two
 awaits of one worker any other may run. Every target ends in exactly one of the three result lists.
 */
module FlushPool {

  const CONCURRENCY: nat := 10

  type Target = nat
  datatype Outcome = Flushed | Skipped | Failed
  datatype Worker = Looping | Flushing(target: Target) | Done

  ghost function One(x: Worker): multiset<Target> {
    if x.Flushing? then multiset{x.target} else multiset{}
  }

  /** The targets in the hands of workers. */
  ghost function Held(h: seq<Worker>): multiset<Target> {
    if h == [] then multiset{} else One(h[0]) + Held(h[1..])
  }

  predicate AllDone(h: seq<Worker>) {
    forall w :: 0 <= w < |h| ==> h[w].Done?
  }

  lemma {:induction false} NothingHeld(h: seq<Worker>)
    requires forall w :: 0 <= w < |h| ==> !h[w].Flushing?
    ensures Held(h) == multiset{}
  {
    if h == [] {
    } else {
      NothingHeld(h[1..]);
    }
  }

  lemma Swap(a: multiset<Target>, b: multiset<Target>, c: multiset<Target>, d: multiset<Target>, e: multiset<Target>)
    requires b + c == d + e
    ensures (a + b) + c == (a + d) + e
  {
    assert (a + b) + c == a + (b + c) && (a + d) + e == a + (d + e);
  }

  lemma {:induction false} HeldUpdate(h: seq<Worker>, w: nat, x: Worker)
    requires w < |h|
    ensures Held(h[w := x]) + One(h[w]) == Held(h) + One(x)
  {
    if w == 0 {
      assert h[w := x][1..] == h[1..];
    } else {
      HeldUpdate(h[1..], w - 1, x);
      var h' := h[w := x];
      assert h'[1..] == h[1..][w - 1 := x];
      Swap(One(h[0]), Held(h'[1..]), One(h[w]), Held(h[1..]), One(x));
    }
  }

  /** Taken so far is, with multiplicity, what is in hand and what is in a list. */
  ghost predicate Balanced(taken: seq<Target>, h: seq<Worker>, lists: seq<Target>) {
    multiset(taken) == Held(h) + multiset(lists)
  }

  lemma TakeBalances(taken: seq<Target>, h: seq<Worker>, lists: seq<Target>, w: nat, x: Target)
    requires w < |h| && h[w].Looping? && Balanced(taken, h, lists)
    ensures Balanced(taken + [x], h[w := Flushing(x)], lists)
  {
    HeldUpdate(h, w, Flushing(x));
    assert Held(h[w := Flushing(x)]) == Held(h) + multiset{x};
    assert multiset(taken + [x]) == multiset(taken) + multiset{x};
  }

  lemma LeaveBalances(taken: seq<Target>, h: seq<Worker>, lists: seq<Target>, w: nat)
    requires w < |h| && h[w].Looping? && Balanced(taken, h, lists)
    ensures Balanced(taken, h[w := Done], lists)
  {
    HeldUpdate(h, w, Done);
    var h' := h[w := Done];
    assert Held(h') == Held(h') + One(h[w]) == Held(h) + One(Done) == Held(h);
  }

  lemma FinishBalances(taken: seq<Target>, h: seq<Worker>, lists: seq<Target>, w: nat, lists': seq<Target>)
    requires w < |h| && h[w].Flushing? && Balanced(taken, h, lists)
    requires multiset(lists') == multiset(lists) + multiset{h[w].target}
    ensures Balanced(taken, h[w := Looping], lists')
  {
    HeldUpdate(h, w, Looping);
    assert Held(h) == Held(h[w := Looping]) + multiset{h[w].target};
  }

  function Push(list: seq<Target>, push: bool, x: Target): seq<Target> {
    if push then list + [x] else list
  }

  lemma PushedToOne(f: seq<Target>, s: seq<Target>, e: seq<Target>, outcome: Outcome, x: Target)
    ensures multiset(Push(f, outcome.Flushed?, x) + Push(s, outcome.Skipped?, x) + Push(e, outcome.Failed?, x))
         == multiset(f + s + e) + multiset{x}
  {
  }

  ghost predicate PoolOk(targets: seq<Target>, index: nat, h: seq<Worker>, f: seq<Target>, s: seq<Target>, e: seq<Target>) {
    && index <= |targets|
    && |h| == (if |targets| < CONCURRENCY then |targets| else CONCURRENCY)
    && (forall w :: 0 <= w < |h| && h[w].Done? ==> index == |targets|)
    && Balanced(targets[..index], h, f + s + e)
  }

  lemma TakeKeeps(targets: seq<Target>, index: nat, h: seq<Worker>, f: seq<Target>, s: seq<Target>, e: seq<Target>, w: nat)
    requires PoolOk(targets, index, h, f, s, e) && w < |h| && h[w].Looping? && index < |targets|
    ensures PoolOk(targets, index + 1, h[w := Flushing(targets[index])], f, s, e)
  {
    TakeBalances(targets[..index], h, f + s + e, w, targets[index]);
    assert targets[..index + 1] == targets[..index] + [targets[index]];
  }

  lemma LeaveKeeps(targets: seq<Target>, index: nat, h: seq<Worker>, f: seq<Target>, s: seq<Target>, e: seq<Target>,
                   w: nat)
    requires PoolOk(targets, index, h, f, s, e) && w < |h| && h[w].Looping? && index == |targets|
    ensures PoolOk(targets, index, h[w := Done], f, s, e)
  {
    LeaveBalances(targets[..index], h, f + s + e, w);
  }

  lemma FinishKeeps(targets: seq<Target>, index: nat, h: seq<Worker>, f: seq<Target>, s: seq<Target>, e: seq<Target>,
                    w: nat, o: Outcome)
    requires PoolOk(targets, index, h, f, s, e) && w < |h| && h[w].Flushing?
    ensures var x := h[w].target;
            PoolOk(targets, index, h[w := Looping], Push(f, o.Flushed?, x), Push(s, o.Skipped?, x), Push(e, o.Failed?, x))
  {
    var x := h[w].target;
    PushedToOne(f, s, e, o, x);
    FinishBalances(targets[..index], h, f + s + e, w,
                   Push(f, o.Flushed?, x) + Push(s, o.Skipped?, x) + Push(e, o.Failed?, x));
  }

  class Pool {
    const targets: seq<Target>
    var index: nat
    var workers: seq<Worker>
    var flushed: seq<Target>
    var skipped: seq<Target>
    var failed: seq<Target>

    ghost predicate Valid()
      reads this
    {
      PoolOk(targets, index, workers, flushed, skipped, failed)
    }

    ghost function Now(): View
      reads this
    {
      View(index, workers, flushed, skipped, failed)
    }

    constructor (targets: seq<Target>)
      ensures Valid() && this.targets == targets && Now() == AtFirst(targets)
    {
      this.targets, index, flushed, skipped, failed := targets, 0, [], [], [];
      workers := seq(if |targets| < CONCURRENCY then |targets| else CONCURRENCY, i => Looping);
      new;
      NothingHeld(workers);
    }

    /** The loop test and `targets[index++]`, with no await between them. */
    method Take(w: nat)
      requires Valid() && w < |workers| && workers[w].Looping?
      modifies this`index, this`workers
      ensures Valid()
      ensures if old(index) < |targets|
              then index == old(index) + 1 && workers == old(workers)[w := Flushing(targets[old(index)])]
              else index == old(index) && workers == old(workers)[w := Done]
    {
      if index < |targets| {
        TakeKeeps(targets, index, workers, flushed, skipped, failed, w);
        workers := workers[w := Flushing(targets[index])];
        index := index + 1;
      } else {
        LeaveKeeps(targets, index, workers, flushed, skipped, failed, w);
        workers := workers[w := Done];
      }
    }

    /** flushOne ended: each of its paths ends with one push; an exception is caught and pushed as a failure. */
    method Finish(w: nat, outcome: Outcome)
      requires Valid() && w < |workers| && workers[w].Flushing?
      modifies this`workers, this`flushed, this`skipped, this`failed
      ensures Valid() && workers == old(workers)[w := Looping]
      ensures var x := old(workers[w].target);
              && flushed == Push(old(flushed), outcome.Flushed?, x)
              && skipped == Push(old(skipped), outcome.Skipped?, x)
              && failed == Push(old(failed), outcome.Failed?, x)
    {
      FinishKeeps(targets, index, workers, flushed, skipped, failed, w, outcome);
      RecordResult(workers[w].target, outcome);
      workers := workers[w := Looping];
    }

    /** result.flushed.push, result.skipped.push or result.failed.push */
    method RecordResult(x: Target, outcome: Outcome)
      modifies this`flushed, this`skipped, this`failed
      ensures flushed == Push(old(flushed), outcome.Flushed?, x)
      ensures skipped == Push(old(skipped), outcome.Skipped?, x)
      ensures failed == Push(old(failed), outcome.Failed?, x)
    {
      match outcome {
        case Flushed => flushed := flushed + [x];
        case Skipped => skipped := skipped + [x];
        case Failed => failed := failed + [x];
      }
    }
  }

  datatype Move = Take(w: nat) | Finish(w: nat, outcome: Outcome)

  /** What the workers share, and where each of them is. */
  datatype View = View(index: nat, workers: seq<Worker>, flushed: seq<Target>, skipped: seq<Target>, failed: seq<Target>)

  /** A worker that loops takes the next target or is done; one that flushes ends in one of the lists. */
  function Moved(targets: seq<Target>, v: View, m: Move): View {
    if m.w >= |v.workers| then v
    else
      match (m, v.workers[m.w])
      case (Take(w), Looping) =>
        if v.index < |targets| then v.(index := v.index + 1, workers := v.workers[w := Flushing(targets[v.index])])
        else v.(workers := v.workers[w := Done])
      case (Finish(w, outcome), Flushing(x)) =>
        View(v.index, v.workers[w := Looping], Push(v.flushed, outcome.Flushed?, x),
             Push(v.skipped, outcome.Skipped?, x), Push(v.failed, outcome.Failed?, x))
      case _ => v
  }

  function AllMoved(targets: seq<Target>, v: View, moves: seq<Move>): View
    decreases |moves|
  {
    if moves == [] then v else AllMoved(targets, Moved(targets, v, moves[0]), moves[1..])
  }

  method Step(pool: Pool, m: Move)
    requires pool.Valid()
    modifies pool
    ensures pool.Valid() && pool.Now() == Moved(pool.targets, old(pool.Now()), m)
  {
    if m.w < |pool.workers| {
      if m.Take? && pool.workers[m.w].Looping? {
        pool.Take(m.w);
      } else if m.Finish? && pool.workers[m.w].Flushing? {
        pool.Finish(m.w, m.outcome);
      }
    }
  }

  /** Any interleaving of the workers; when all are done, each target is, as often as listed, in one of the lists. */
  method FlushProject(targets: seq<Target>, moves: seq<Move>) returns (pool: Pool, done: bool)
    ensures fresh(pool) && pool.Valid() && pool.targets == targets && done == AllDone(pool.workers)
    ensures pool.Now() == AllMoved(targets, AtFirst(targets), moves)
    ensures done ==> multiset(targets) == multiset(pool.flushed + pool.skipped + pool.failed)
  {
    pool := new Pool(targets);
    assert moves[0..] == moves;
    for i := 0 to |moves|
      invariant pool.Valid()
      invariant AllMoved(targets, pool.Now(), moves[i..]) == AllMoved(targets, AtFirst(targets), moves)
    {
      assert moves[i..][0] == moves[i] && moves[i..][1..] == moves[i + 1..];
      Step(pool, moves[i]);
    }
    done := AllDone(pool.workers);
    if done { AllTaken(pool.targets, pool.index, pool.workers, pool.flushed + pool.skipped + pool.failed); }
  }

  function AtFirst(targets: seq<Target>): View {
    View(0, seq(if |targets| < CONCURRENCY then |targets| else CONCURRENCY, i => Looping), [], [], [])
  }

  /** Turns left: two for each target not taken, one for each in hand, one for each worker to leave. */
  ghost function Left(targets: seq<Target>, v: View): nat
    requires v.index <= |targets|
  {
    3 * (|targets| - v.index) + Turns(v.workers)
  }

  ghost function Turns(h: seq<Worker>): nat {
    if h == [] then 0 else (if h[0].Done? then 0 else if h[0].Looping? then 1 else 2) + Turns(h[1..])
  }

  lemma {:induction false} TurnsUpdate(h: seq<Worker>, w: nat, x: Worker)
    requires w < |h|
    ensures Turns(h[w := x]) + Turns([h[w]]) == Turns(h) + Turns([x])
  {
    if w == 0 {
      assert h[w := x][1..] == h[1..] && [x][1..] == [] && [h[w]][1..] == [];
    } else {
      TurnsUpdate(h[1..], w - 1, x);
      assert h[w := x][1..] == h[1..][w - 1 := x];
    }
  }

  /** However far the workers are, they can end: then every target is in a list. */
  lemma {:induction false} CanEnd(targets: seq<Target>, v: View) returns (moves: seq<Move>)
    requires PoolOk(targets, v.index, v.workers, v.flushed, v.skipped, v.failed)
    ensures var v' := AllMoved(targets, v, moves);
            AllDone(v'.workers) && multiset(targets) == multiset(v'.flushed + v'.skipped + v'.failed)
    decreases Left(targets, v)
  {
    if AllDone(v.workers) {
      moves := [];
      AllTaken(targets, v.index, v.workers, v.flushed + v.skipped + v.failed);
    } else {
      var w :| 0 <= w < |v.workers| && !v.workers[w].Done?;
      var m := if v.workers[w].Looping? then Take(w) else Finish(w, Flushed);
      var v' := Moved(targets, v, m);
      MoveKeeps(targets, v, m);
      TurnsUpdate(v.workers, w, v'.workers[w]);
      moves := CanEnd(targets, v');
      assert ([m] + moves)[1..] == moves;
      moves := [m] + moves;
    }
  }

  lemma MoveKeeps(targets: seq<Target>, v: View, m: Move)
    requires PoolOk(targets, v.index, v.workers, v.flushed, v.skipped, v.failed)
    ensures var v' := Moved(targets, v, m); PoolOk(targets, v'.index, v'.workers, v'.flushed, v'.skipped, v'.failed)
  {
    if m.w < |v.workers| {
      if m.Take? && v.workers[m.w].Looping? {
        if v.index < |targets| {
          TakeKeeps(targets, v.index, v.workers, v.flushed, v.skipped, v.failed, m.w);
        } else {
          LeaveKeeps(targets, v.index, v.workers, v.flushed, v.skipped, v.failed, m.w);
        }
      } else if m.Finish? && v.workers[m.w].Flushing? {
        FinishKeeps(targets, v.index, v.workers, v.flushed, v.skipped, v.failed, m.w, m.outcome);
      }
    }
  }

  lemma AllTaken(targets: seq<Target>, index: nat, h: seq<Worker>, lists: seq<Target>)
    requires index <= |targets| && |h| == (if |targets| < CONCURRENCY then |targets| else CONCURRENCY) && AllDone(h)
    requires (forall w :: 0 <= w < |h| && h[w].Done? ==> index == |targets|) && Balanced(targets[..index], h, lists)
    ensures multiset(targets) == multiset(lists)
  {
    NothingHeld(h);
    assert targets[..|targets|] == targets;
    if targets != [] { assert h[0].Done?; }
  }
}
