/**
 sendWithOutbox: updates wait in a promise chain, in retry timers with growing delay, or in a deferred map,
 until one attempt to store them in the Outbox commits; there they stay until they are acknowledged.
 */
module OutboxSender {
  import opened Base
  import opened Decimal
  import opened OutboxStore
  import opened OutboxTab

  /** The key of an enqueue: numbered when the caller gives no seq, else made of document and seq. */
  datatype Key = New(doc: string, id: nat) | Explicit(doc: string, seqNo: nat)
  datatype Item = Item(upd: Update, kind: Kind, askAck: bool)

  /** One call of sendWithOutbox by a user of it; a retry is the same task again. */
  datatype Task = Task(ticket: nat, key: Key, item: Item)

  function Render(key: Key): string {
    match key
    case New(doc, id) => doc + ":new" + ['-'] + ToDecimal(id)
    case Explicit(doc, seqNo) => doc + [':'] + ToDecimal(seqNo)
  }

  /** The key strings are as good as the keys. */
  lemma RenderIsInjective(a: Key, b: Key)
    requires Render(a) == Render(b)
    ensures a == b
  {
    match (a, b)
    case (New(d, i), New(e, j)) =>
      SuffixedInjective(d + ":new", i, e + ":new", j, '-');
      assert d == (d + ":new")[..|d + ":new"| - 4];
      assert e == (e + ":new")[..|e + ":new"| - 4];
    case (Explicit(d, i), Explicit(e, j)) => SuffixedInjective(d, i, e, j, ':');
    case (New(d, i), Explicit(e, j)) => HyphenMeetsColon(d, i, e, j);
    case (Explicit(e, j), New(d, i)) => HyphenMeetsColon(d, i, e, j);
  }

  lemma HyphenMeetsColon(d: string, i: nat, e: string, j: nat)
    ensures Render(New(d, i)) != Render(Explicit(e, j))
  {
    var s, t, a, b := Render(New(d, i)), Render(Explicit(e, j)), ToDecimal(i), ToDecimal(j);
    assert s[|s| - |a| - 1] == '-' && t[|t| - |b| - 1] == ':';
    assert forall k :: |s| - |a| <= k < |s| ==> s[k] == a[k - (|s| - |a|)];
    assert forall k :: |t| - |b| <= k < |t| ==> t[k] == b[k - (|t| - |b|)];
  }

  /** A task whose update was committed, and the number it got. */
  datatype Sent = Sent(task: Task, seqNo: nat)

  /** Where a task is: one place, since this is a value. `Displaced`: given up for another task with its key. */
  datatype Place = InChain | InTimer | InDeferred | InOutbox(index: nat) | Displaced

  /** All of a sender's tasks: those in the chain, in the maps and committed, and by ticket where each one is. */
  datatype View = View(submitted: seq<Task>, at: seq<Place>, tail: seq<Task>, timers: map<Key, Task>,
                       attempts: map<Key, nat>, deferred: map<Key, Task>, committed: seq<Sent>, nextId: nat)

  ghost predicate Genuine(submitted: seq<Task>, t: Task) {
    t.ticket < |submitted| && submitted[t.ticket] == t
  }

  ghost predicate Ticketed(submitted: seq<Task>) {
    forall t :: 0 <= t < |submitted| ==> submitted[t].ticket == t
  }

  ghost predicate HasTwin(submitted: seq<Task>, t: Task) {
    exists u :: u in submitted && u != t && u.key == t.key
  }

  /** The chain holds exactly the tasks that are in it, each once. */
  ghost predicate ChainShows(submitted: seq<Task>, at: seq<Place>, tail: seq<Task>)
    requires |at| == |submitted|
  {
    && (forall i :: 0 <= i < |tail| ==> Genuine(submitted, tail[i]) && at[tail[i].ticket].InChain?)
    && (forall i, j :: 0 <= i < j < |tail| ==> tail[i].ticket != tail[j].ticket)
    && (forall t :: 0 <= t < |at| && at[t].InChain? ==> submitted[t] in tail)
  }

  /** A map holds exactly the tasks at `place`, each under its own key. */
  ghost predicate MapShows(submitted: seq<Task>, at: seq<Place>, m: map<Key, Task>, place: Place)
    requires |at| == |submitted|
  {
    && (forall k :: k in m ==> m[k].key == k && Genuine(submitted, m[k]) && at[m[k].ticket] == place)
    && (forall t :: 0 <= t < |at| && at[t] == place ==> submitted[t].key in m && m[submitted[t].key] == submitted[t])
  }

  /** The commits, in order. */
  ghost predicate OutboxShows(submitted: seq<Task>, at: seq<Place>, committed: seq<Sent>)
    requires |at| == |submitted|
  {
    && (forall i :: 0 <= i < |committed| ==>
          Genuine(submitted, committed[i].task) && at[committed[i].task.ticket] == InOutbox(i))
    && (forall t :: 0 <= t < |at| && at[t].InOutbox? ==>
          at[t].index < |committed| && committed[at[t].index].task == submitted[t])
  }

  /** Only a task whose key another one has is displaced. */
  ghost predicate TwinsDisplace(submitted: seq<Task>, at: seq<Place>)
    requires |at| == |submitted|
  {
    forall t :: 0 <= t < |at| && at[t].Displaced? ==> HasTwin(submitted, submitted[t])
  }

  /** Every submitted task has one place, and every place shows exactly its tasks. */
  ghost predicate Placing(v: View) {
    && |v.at| == |v.submitted| && Ticketed(v.submitted)
    && ChainShows(v.submitted, v.at, v.tail) && MapShows(v.submitted, v.at, v.timers, InTimer)
    && MapShows(v.submitted, v.at, v.deferred, InDeferred) && OutboxShows(v.submitted, v.at, v.committed)
    && TwinsDisplace(v.submitted, v.at)
  }

  // One task changes its place; what is not concerned stays.

  lemma ChainSame(submitted: seq<Task>, at: seq<Place>, tail: seq<Task>, t: nat, place: Place)
    requires |at| == |submitted| && t < |at| && ChainShows(submitted, at, tail) && !at[t].InChain? && !place.InChain?
    ensures ChainShows(submitted, at[t := place], tail)
  {
  }

  lemma ChainPops(submitted: seq<Task>, at: seq<Place>, tail: seq<Task>, place: Place)
    requires |at| == |submitted| && Ticketed(submitted) && ChainShows(submitted, at, tail)
    requires tail != [] && !place.InChain?
    ensures Genuine(submitted, tail[0]) && ChainShows(submitted, at[tail[0].ticket := place], tail[1..])
  {
    var t, at', tail' := tail[0].ticket, at[tail[0].ticket := place], tail[1..];
    forall u | 0 <= u < |at'| && at'[u].InChain? ensures submitted[u] in tail' {
      assert submitted[u] in tail && submitted[u].ticket == u != t;
      var i :| 0 <= i < |tail| && tail[i] == submitted[u];
      assert tail'[i - 1] == submitted[u];
    }
  }

  lemma ChainPushes(submitted: seq<Task>, at: seq<Place>, tail: seq<Task>, t: Task)
    requires |at| == |submitted| && Genuine(submitted, t) && ChainShows(submitted, at, tail) && !at[t.ticket].InChain?
    ensures ChainShows(submitted, at[t.ticket := InChain], tail + [t])
  {
  }

  lemma MapSame(submitted: seq<Task>, at: seq<Place>, m: map<Key, Task>, p: Place, t: nat, place: Place)
    requires |at| == |submitted| && t < |at| && MapShows(submitted, at, m, p) && at[t] != p && place != p
    ensures MapShows(submitted, at[t := place], m, p)
  {
  }

  lemma MapPuts(submitted: seq<Task>, at: seq<Place>, m: map<Key, Task>, p: Place, t: Task)
    requires |at| == |submitted| && Genuine(submitted, t) && MapShows(submitted, at, m, p)
    requires at[t.ticket] != p && t.key !in m
    ensures MapShows(submitted, at[t.ticket := p], m[t.key := t], p)
  {
  }

  lemma MapTakes(submitted: seq<Task>, at: seq<Place>, m: map<Key, Task>, p: Place, key: Key, place: Place)
    requires |at| == |submitted| && Ticketed(submitted) && MapShows(submitted, at, m, p) && key in m && place != p
    ensures Genuine(submitted, m[key]) && MapShows(submitted, at[m[key].ticket := place], m - {key}, p)
  {
    var at' := at[m[key].ticket := place];
    forall t | 0 <= t < |at'| && at'[t] == p
      ensures submitted[t].key in m - {key} && m[submitted[t].key] == submitted[t]
    {
      assert submitted[t].ticket == t != m[key].ticket;
    }
    forall k | k in m - {key} ensures at'[m[k].ticket] == p {
      assert m[k].key != m[key].key;
    }
  }

  lemma OutboxSame(submitted: seq<Task>, at: seq<Place>, committed: seq<Sent>, t: nat, place: Place)
    requires |at| == |submitted| && t < |at| && OutboxShows(submitted, at, committed)
    requires !at[t].InOutbox? && !place.InOutbox?
    ensures OutboxShows(submitted, at[t := place], committed)
  {
  }

  lemma OutboxAdds(submitted: seq<Task>, at: seq<Place>, committed: seq<Sent>, sent: Sent)
    requires |at| == |submitted| && Genuine(submitted, sent.task) && OutboxShows(submitted, at, committed)
    requires !at[sent.task.ticket].InOutbox?
    ensures OutboxShows(submitted, at[sent.task.ticket := InOutbox(|committed|)], committed + [sent])
  {
  }

  /** Two tasks with one key are twins. */
  lemma Twins(submitted: seq<Task>, t: Task, u: Task)
    requires Genuine(submitted, t) && Genuine(submitted, u) && t != u && t.key == u.key
    ensures HasTwin(submitted, t) && HasTwin(submitted, u)
  {
    assert t in submitted && u in submitted;
  }

  // The moves of a task between two places.

  function Moved(at: seq<Place>, ticket: nat, place: Place): seq<Place> {
    if ticket < |at| then at[ticket := place] else at
  }

  function HeadCommitted(v: View, seqNo: nat): View
    requires v.tail != []
  {
    v.(at := Moved(v.at, v.tail[0].ticket, InOutbox(|v.committed|)), tail := v.tail[1..],
       committed := v.committed + [Sent(v.tail[0], seqNo)])
  }

  lemma HeadCommits(v: View, seqNo: nat)
    requires Placing(v) && v.tail != []
    ensures Placing(HeadCommitted(v, seqNo))
  {
    var t, place := v.tail[0], InOutbox(|v.committed|);
    ChainPops(v.submitted, v.at, v.tail, place);
    MapSame(v.submitted, v.at, v.timers, InTimer, t.ticket, place);
    MapSame(v.submitted, v.at, v.deferred, InDeferred, t.ticket, place);
    OutboxAdds(v.submitted, v.at, v.committed, Sent(t, seqNo));
  }

  function HeadTimed(v: View): View
    requires v.tail != []
  {
    v.(at := Moved(v.at, v.tail[0].ticket, InTimer), tail := v.tail[1..], timers := v.timers[v.tail[0].key := v.tail[0]])
  }

  lemma HeadWaits(v: View)
    requires Placing(v) && v.tail != [] && v.tail[0].key !in v.timers
    ensures Placing(HeadTimed(v))
  {
    var t := v.tail[0];
    ChainPops(v.submitted, v.at, v.tail, InTimer);
    MapPuts(v.submitted, v.at, v.timers, InTimer, t);
    MapSame(v.submitted, v.at, v.deferred, InDeferred, t.ticket, InTimer);
    OutboxSame(v.submitted, v.at, v.committed, t.ticket, InTimer);
  }

  function HeadDeferred(v: View): View
    requires v.tail != []
  {
    v.(at := Moved(v.at, v.tail[0].ticket, InDeferred), tail := v.tail[1..],
       deferred := v.deferred[v.tail[0].key := v.tail[0]])
  }

  lemma HeadIsDeferred(v: View)
    requires Placing(v) && v.tail != [] && v.tail[0].key !in v.deferred
    ensures Placing(HeadDeferred(v))
  {
    var t := v.tail[0];
    ChainPops(v.submitted, v.at, v.tail, InDeferred);
    MapSame(v.submitted, v.at, v.timers, InTimer, t.ticket, InDeferred);
    MapPuts(v.submitted, v.at, v.deferred, InDeferred, t);
    OutboxSame(v.submitted, v.at, v.committed, t.ticket, InDeferred);
  }

  function HeadDisplaced(v: View): View
    requires v.tail != []
  {
    v.(at := Moved(v.at, v.tail[0].ticket, Displaced), tail := v.tail[1..])
  }

  lemma HeadIsDisplaced(v: View)
    requires Placing(v) && v.tail != [] && v.tail[0].key in v.timers
    ensures Placing(HeadDisplaced(v))
  {
    var t := v.tail[0];
    Twins(v.submitted, t, v.timers[t.key]);
    ChainPops(v.submitted, v.at, v.tail, Displaced);
    MapSame(v.submitted, v.at, v.timers, InTimer, t.ticket, Displaced);
    MapSame(v.submitted, v.at, v.deferred, InDeferred, t.ticket, Displaced);
    OutboxSame(v.submitted, v.at, v.committed, t.ticket, Displaced);
  }

  /** A timer is cancelled: what it would have retried is gone. */
  function TimerCancelled(v: View, key: Key): View {
    v.(at := if key in v.timers then Moved(v.at, v.timers[key].ticket, Displaced) else v.at, timers := v.timers - {key})
  }

  lemma TimerIsDisplaced(v: View)
    requires Placing(v) && v.tail != []
    ensures Placing(TimerCancelled(v, v.tail[0].key))
  {
    var key := v.tail[0].key;
    if key in v.timers {
      var u := v.timers[key];
      Twins(v.submitted, v.tail[0], u);
      ChainSame(v.submitted, v.at, v.tail, u.ticket, Displaced);
      MapTakes(v.submitted, v.at, v.timers, InTimer, key, Displaced);
      MapSame(v.submitted, v.at, v.deferred, InDeferred, u.ticket, Displaced);
      OutboxSame(v.submitted, v.at, v.committed, u.ticket, Displaced);
    } else {
      assert v.timers - {key} == v.timers;
    }
  }

  function DeferralCancelled(v: View, key: Key): View {
    v.(at := if key in v.deferred then Moved(v.at, v.deferred[key].ticket, Displaced) else v.at,
       deferred := v.deferred - {key})
  }

  lemma DeferralIsDisplaced(v: View)
    requires Placing(v) && v.tail != []
    ensures Placing(DeferralCancelled(v, v.tail[0].key))
  {
    var key := v.tail[0].key;
    if key in v.deferred {
      var u := v.deferred[key];
      Twins(v.submitted, v.tail[0], u);
      ChainSame(v.submitted, v.at, v.tail, u.ticket, Displaced);
      MapSame(v.submitted, v.at, v.timers, InTimer, u.ticket, Displaced);
      MapTakes(v.submitted, v.at, v.deferred, InDeferred, key, Displaced);
      OutboxSame(v.submitted, v.at, v.committed, u.ticket, Displaced);
    } else {
      assert v.deferred - {key} == v.deferred;
    }
  }

  /** A retry timer fires: its task goes to the end of the chain. */
  function TimerFired(v: View, key: Key): View
    requires key in v.timers
  {
    v.(at := Moved(v.at, v.timers[key].ticket, InChain), tail := v.tail + [v.timers[key]], timers := v.timers - {key})
  }

  lemma TimerFires(v: View, key: Key)
    requires Placing(v) && key in v.timers
    ensures Placing(TimerFired(v, key))
  {
    var t := v.timers[key];
    ChainPushes(v.submitted, v.at, v.tail, t);
    MapTakes(v.submitted, v.at, v.timers, InTimer, key, InChain);
    MapSame(v.submitted, v.at, v.deferred, InDeferred, t.ticket, InChain);
    OutboxSame(v.submitted, v.at, v.committed, t.ticket, InChain);
  }

  /** A deferred task is tried again, with a fresh count. */
  function DeferralEnded(v: View, key: Key): View
    requires key in v.deferred
  {
    v.(at := Moved(v.at, v.deferred[key].ticket, InChain), tail := v.tail + [v.deferred[key]],
       attempts := v.attempts - {key}, deferred := v.deferred - {key})
  }

  lemma DeferralEnds(v: View, key: Key)
    requires Placing(v) && key in v.deferred
    ensures Placing(DeferralEnded(v, key))
  {
    var t := v.deferred[key];
    ChainPushes(v.submitted, v.at, v.tail, t);
    MapSame(v.submitted, v.at, v.timers, InTimer, t.ticket, InChain);
    MapTakes(v.submitted, v.at, v.deferred, InDeferred, key, InChain);
    OutboxSame(v.submitted, v.at, v.committed, t.ticket, InChain);
  }

  /** A call with a number, or without: then it is numbered for its key. */
  function KeyFor(v: View, doc: string, seqNo: Option<nat>): Key {
    if seqNo.Some? then Explicit(doc, seqNo.value) else New(doc, v.nextId + 1)
  }

  function Arrived(v: View, doc: string, item: Item, seqNo: Option<nat>): View {
    var t := Task(|v.submitted|, KeyFor(v, doc, seqNo), item);
    v.(submitted := v.submitted + [t], at := v.at + [InChain], tail := v.tail + [t],
       nextId := if seqNo.Some? then v.nextId else v.nextId + 1)
  }

  lemma TaskArrives(v: View, doc: string, item: Item, seqNo: Option<nat>)
    requires Placing(v)
    ensures Placing(Arrived(v, doc, item, seqNo))
  {
    var v', t := Arrived(v, doc, item, seqNo), Task(|v.submitted|, KeyFor(v, doc, seqNo), item);
    MapGrows(v.submitted, v.at, v.timers, InTimer, t);
    MapGrows(v.submitted, v.at, v.deferred, InDeferred, t);
    ChainGrows(v.submitted, v.at, v.tail, t);
    OutboxGrows(v.submitted, v.at, v.committed, t);
    forall u | 0 <= u < |v'.at| && v'.at[u].Displaced? ensures HasTwin(v'.submitted, v'.submitted[u]) {
      assert HasTwin(v.submitted, v.submitted[u]);
      var w :| w in v.submitted && w != v.submitted[u] && w.key == v.submitted[u].key;
      assert w in v'.submitted;
    }
  }

  lemma MapGrows(submitted: seq<Task>, at: seq<Place>, m: map<Key, Task>, p: Place, t: Task)
    requires |at| == |submitted| && MapShows(submitted, at, m, p) && !p.InChain?
    ensures MapShows(submitted + [t], at + [InChain], m, p)
  {
  }

  lemma ChainGrows(submitted: seq<Task>, at: seq<Place>, tail: seq<Task>, t: Task)
    requires |at| == |submitted| == t.ticket && ChainShows(submitted, at, tail)
    ensures ChainShows(submitted + [t], at + [InChain], tail + [t])
  {
  }

  lemma OutboxGrows(submitted: seq<Task>, at: seq<Place>, committed: seq<Sent>, t: Task)
    requires |at| == |submitted| && OutboxShows(submitted, at, committed)
    ensures OutboxShows(submitted + [t], at + [InChain], committed)
  {
  }

  // The ends of an attempt.

  /** The attempt after this one is the third for its key. */
  predicate Exhausted(attempts: map<Key, nat>, key: Key) {
    (if key in attempts then attempts[key] else 0) + 1 >= SYNC_MAX_RETRIES
  }

  /** The head is stored; a timer and a deferral under its key are cancelled. */
  function Committed(v: View, seqNo: nat): View
    requires v.tail != []
  {
    var key := v.tail[0].key;
    HeadCommitted(DeferralCancelled(TimerCancelled(v, key), key), seqNo).(attempts := v.attempts - {key})
  }

  /** The head failed: it is given up if a timer has its key, deferred after the third failure, else set a timer. */
  function Refused(v: View): View
    requires v.tail != []
  {
    var key := v.tail[0].key;
    if key in v.timers then HeadDisplaced(v)
    else if Exhausted(v.attempts, key) then HeadDeferred(DeferralCancelled(v, key)).(attempts := v.attempts - {key})
    else HeadTimed(v).(attempts := v.attempts[key := (if key in v.attempts then v.attempts[key] else 0) + 1])
  }

  lemma CommitKeepsPlaces(v: View, seqNo: nat)
    requires Placing(v) && v.tail != []
    ensures Placing(Committed(v, seqNo))
  {
    var key := v.tail[0].key;
    TimerIsDisplaced(v);
    DeferralIsDisplaced(TimerCancelled(v, key));
    HeadCommits(DeferralCancelled(TimerCancelled(v, key), key), seqNo);
  }

  lemma RefusalKeepsPlaces(v: View)
    requires Placing(v) && v.tail != []
    ensures Placing(Refused(v))
  {
    var key := v.tail[0].key;
    if key in v.timers {
      HeadIsDisplaced(v);
    } else if Exhausted(v.attempts, key) {
      DeferralIsDisplaced(v);
      HeadIsDeferred(DeferralCancelled(v, key));
    } else {
      HeadWaits(v);
    }
  }

  // Whole runs.

  datatype Move = Submit(doc: string, item: Item, seqNo: Option<nat>) | Commit(number: nat) | Refuse
                | Fire(key: Key) | Revive(key: Key)

  function Step(v: View, m: Move): View {
    match m
    case Submit(doc, item, seqNo) => Arrived(v, doc, item, seqNo)
    case Commit(number) => if v.tail == [] then v else Committed(v, number)
    case Refuse => if v.tail == [] then v else Refused(v)
    case Fire(key) => if key in v.timers then TimerFired(v, key) else v
    case Revive(key) => if key in v.deferred then DeferralEnded(v, key) else v
  }

  function After(moves: seq<Move>): View {
    if moves == [] then View([], [], [], map[], map[], map[], [], 0)
    else Step(After(moves[..|moves| - 1]), moves[|moves| - 1])
  }

  lemma OneMove(moves: seq<Move>, m: Move)
    ensures After(moves + [m]) == Step(After(moves), m)
  {
    assert (moves + [m])[..|moves + [m]| - 1] == moves;
  }

  lemma StepPlaces(v: View, m: Move)
    requires Placing(v)
    ensures Placing(Step(v, m))
  {
    match m
    case Submit(doc, item, seqNo) => TaskArrives(v, doc, item, seqNo);
    case Commit(number) => if v.tail != [] { CommitKeepsPlaces(v, number); }
    case Refuse => if v.tail != [] { RefusalKeepsPlaces(v); }
    case Fire(key) => if key in v.timers { TimerFires(v, key); }
    case Revive(key) => if key in v.deferred { DeferralEnds(v, key); }
  }

  /** Every submitted task is in exactly one place, in every run. */
  lemma {:induction false} RunPlaces(moves: seq<Move>)
    ensures Placing(After(moves))
  {
    if moves == [] {
    } else {
      RunPlaces(moves[..|moves| - 1]);
      StepPlaces(After(moves[..|moves| - 1]), moves[|moves| - 1]);
    }
  }

  /** Tasks submitted without a number have growing numbers, and so one key each. */
  ghost predicate NumberlessRise(submitted: seq<Task>, last: nat) {
    && (forall t :: 0 <= t < |submitted| && submitted[t].key.New? ==> submitted[t].key.id <= last)
    && (forall t, u :: 0 <= t < u < |submitted| && submitted[t].key.New? && submitted[u].key.New? ==>
          submitted[t].key.id < submitted[u].key.id)
  }

  lemma {:induction false} RunNumbers(moves: seq<Move>)
    ensures NumberlessRise(After(moves).submitted, After(moves).nextId)
  {
    if moves == [] {
    } else {
      var v, m := After(moves[..|moves| - 1]), moves[|moves| - 1];
      RunNumbers(moves[..|moves| - 1]);
      if m.Submit? {
        assert Step(v, m) == Arrived(v, m.doc, m.item, m.seqNo);
      } else {
        assert Step(v, m).submitted == v.submitted && Step(v, m).nextId == v.nextId;
      }
    }
  }

  /** The calls of sendWithOutbox by a user of it, in order. */
  function Calls(moves: seq<Move>): seq<Move> {
    if moves == [] then []
    else
      var m := moves[|moves| - 1];
      Calls(moves[..|moves| - 1]) + if m.Submit? then [m] else []
  }

  /** A call became a task: its document and update, and its number if it gave one. */
  ghost predicate TaskOf(m: Move, task: Task) {
    && m.Submit? && task.item == m.item && task.key.doc == m.doc
    && (m.seqNo.Some? ==> task.key == Explicit(m.doc, m.seqNo.value))
    && (m.seqNo.None? ==> task.key.New?)
  }

  /** The k-th task is what the k-th call handed over. */
  lemma {:induction false} TasksAreCalls(moves: seq<Move>)
    ensures var (calls, submitted) := (Calls(moves), After(moves).submitted);
            |submitted| == |calls| && forall k :: 0 <= k < |calls| ==> TaskOf(calls[k], submitted[k])
  {
    if moves == [] {
    } else {
      var v, m := After(moves[..|moves| - 1]), moves[|moves| - 1];
      TasksAreCalls(moves[..|moves| - 1]);
      if !m.Submit? { assert Step(v, m).submitted == v.submitted; }
    }
  }

  /** No other call gave the number of this one, if it gave one. */
  ghost predicate Sole(calls: seq<Move>, k: nat)
    requires k < |calls|
  {
    && calls[k].Submit?
    && forall l :: 0 <= l < |calls| && l != k && calls[l].Submit? && calls[k].seqNo.Some? ==>
         calls[l].doc != calls[k].doc || calls[l].seqNo != calls[k].seqNo
  }

  lemma SoleIsPresent(moves: seq<Move>, k: nat)
    requires k < |Calls(moves)| && Sole(Calls(moves), k)
    ensures k < |After(moves).submitted| && Present(After(moves), After(moves).submitted[k])
    ensures After(moves).submitted[k].ticket == k && TaskOf(Calls(moves)[k], After(moves).submitted[k])
  {
    var calls, submitted := Calls(moves), After(moves).submitted;
    TasksAreCalls(moves);
    RunPlaces(moves);
    forall u | u in submitted && u.key == submitted[k].key && u.key.Explicit? ensures u == submitted[k] {
      var l :| 0 <= l < |submitted| && submitted[l] == u;
      assert TaskOf(calls[l], submitted[l]) && TaskOf(calls[k], submitted[k]);
    }
    OnlyTwinsAreGivenUp(moves, k);
  }

  /** No key fails three times without being deferred. */
  lemma {:induction false} RunCounts(moves: seq<Move>)
    ensures forall k :: k in After(moves).attempts ==> 0 < After(moves).attempts[k] < SYNC_MAX_RETRIES
  {
    if moves == [] {
    } else {
      RunCounts(moves[..|moves| - 1]);
    }
  }

  /** A task is in the chain, in a timer, in the deferred map, or committed to the Outbox. */
  ghost predicate Present(v: View, t: Task) {
    || t in v.tail || t in v.timers.Values || t in v.deferred.Values
    || exists i :: 0 <= i < |v.committed| && v.committed[i].task == t
  }

  lemma PresentIff(v: View, t: nat)
    requires Placing(v) && t < |v.submitted|
    ensures Present(v, v.submitted[t]) <==> !v.at[t].Displaced?
  {
    if v.at[t].InTimer? {
      assert v.timers[v.submitted[t].key] == v.submitted[t];
    } else if v.at[t].InDeferred? {
      assert v.deferred[v.submitted[t].key] == v.submitted[t];
    }
  }

  /** The end of an attempt gives a task up for another one with its key. */
  ghost predicate Displaces(v: View, m: Move, task: Task) {
    && v.tail != [] && task.key == v.tail[0].key
    && match m
       case Refuse =>
         if task.key in v.timers then task == v.tail[0]
         else Exhausted(v.attempts, task.key) && task.key in v.deferred && task == v.deferred[task.key]
       case Commit(_) =>
         (task.key in v.timers && task == v.timers[task.key]) || (task.key in v.deferred && task == v.deferred[task.key])
       case _ => false
  }

  ghost predicate IsAt(v: View, task: Task, place: Place) {
    |v.at| == |v.submitted| && Genuine(v.submitted, task) && v.at[task.ticket] == place
  }

  /** The head of the chain, and where tasks with its key wait. */
  ghost predicate HeadShows(v: View)
    requires v.tail != []
  {
    var key := v.tail[0].key;
    && IsAt(v, v.tail[0], InChain)
    && (key in v.timers ==> IsAt(v, v.timers[key], InTimer) && v.timers[key].key == key)
    && (key in v.deferred ==> IsAt(v, v.deferred[key], InDeferred) && v.deferred[key].key == key)
  }

  lemma HeadAndTwins(v: View)
    requires Placing(v) && v.tail != []
    ensures HeadShows(v)
  {
  }

  lemma CommitDisplaces(v: View, number: nat, t: nat)
    requires v.tail != [] && HeadShows(v) && t < |v.at| && !v.at[t].Displaced? && v.submitted[t].ticket == t
    ensures Committed(v, number).submitted == v.submitted && |Committed(v, number).at| == |v.at|
    ensures Committed(v, number).at[t].Displaced? <==> Displaces(v, Commit(number), v.submitted[t])
  {
  }

  lemma RefusalDisplaces(v: View, t: nat)
    requires v.tail != [] && HeadShows(v) && t < |v.at| && !v.at[t].Displaced? && v.submitted[t].ticket == t
    ensures Refused(v).submitted == v.submitted && |Refused(v).at| == |v.at|
    ensures Refused(v).at[t].Displaced? <==> Displaces(v, Refuse, v.submitted[t])
  {
  }

  /** Exactly when a move gives a task up. */
  lemma GivenUpIff(moves: seq<Move>, m: Move, t: nat)
    requires t < |After(moves).submitted| && Present(After(moves), After(moves).submitted[t])
    ensures var (v, v') := (After(moves), After(moves + [m]));
            && |v'.submitted| >= |v.submitted| && v'.submitted[t] == v.submitted[t]
            && (Present(v', v.submitted[t]) <==> !Displaces(v, m, v.submitted[t]))
  {
    OneMove(moves, m);
    PresentInRunIff(moves, t);
    StepDisplaces(moves, m, t);
    PresentInRunIff(moves + [m], t);
  }

  lemma PresentInRunIff(moves: seq<Move>, t: nat)
    requires t < |After(moves).submitted|
    ensures var v := After(moves);
            |v.at| == |v.submitted| && v.submitted[t].ticket == t && (Present(v, v.submitted[t]) <==> !v.at[t].Displaced?)
    ensures After(moves).tail != [] ==> HeadShows(After(moves))
  {
    RunPlaces(moves);
    PresentIff(After(moves), t);
    if After(moves).tail != [] { HeadAndTwins(After(moves)); }
  }

  lemma StepDisplaces(moves: seq<Move>, m: Move, t: nat)
    requires var v := After(moves);
             && t < |v.submitted| == |v.at| && !v.at[t].Displaced? && v.submitted[t].ticket == t
             && (v.tail != [] ==> HeadShows(v))
    ensures var (v, v') := (After(moves), Step(After(moves), m));
            && |v'.at| == |v'.submitted| >= |v.submitted| && v'.submitted[t] == v.submitted[t]
            && (v'.at[t].Displaced? <==> Displaces(v, m, v.submitted[t]))
  {
    var v := After(moves);
    match m
    case Submit(doc, item, seqNo) =>
    case Commit(number) => if v.tail != [] { CommitDisplaces(v, number, t); }
    case Refuse => if v.tail != [] { RefusalDisplaces(v, t); }
    case Fire(key) =>
    case Revive(key) =>
  }

  /** No task without a twin is given up: one submitted without a number, or alone under its number, is present. */
  lemma OnlyTwinsAreGivenUp(moves: seq<Move>, t: nat)
    requires t < |After(moves).submitted|
    requires var submitted := After(moves).submitted; submitted[t].key.New? || !HasTwin(submitted, submitted[t])
    ensures Present(After(moves), After(moves).submitted[t])
  {
    var v := After(moves);
    RunPlaces(moves);
    RunNumbers(moves);
    NumberlessIsAlone(v.submitted, v.nextId, t);
    PresentIff(v, t);
  }

  lemma NumberlessIsAlone(submitted: seq<Task>, last: nat, t: nat)
    requires NumberlessRise(submitted, last) && t < |submitted|
    ensures submitted[t].key.New? ==> !HasTwin(submitted, submitted[t])
  {
    forall k | 0 <= k < |submitted| && submitted[t].key.New? && submitted[k].key == submitted[t].key ensures k == t {
    }
  }

  ghost function EntryOf(sent: Sent): Entry {
    Entry(sent.task.key.doc, sent.seqNo, sent.task.item.kind, sent.task.item.upd)
  }

  ghost function RowOf(sent: Sent): string {
    KeyOf(sent.task.key.doc, sent.seqNo)
  }

  ghost function WithRow(rows: map<string, Entry>, sent: Sent): map<string, Entry> {
    rows[RowOf(sent) := EntryOf(sent)]
  }

  /** The commits in order, of which ones the row was deleted on an ack or by another tab, and the database. */
  datatype Ledger = Ledger(committed: seq<Sent>, acked: set<nat>, elsewhere: set<nat>,
                           rows: map<string, Entry>, issued: map<string, seq<nat>>)

  /** What changes the rows: an attempt of this sender, an ack for it, or transactions of other tabs. */
  datatype Change =
    | Written(sent: Sent)
    | Acked(key: string)
    | Others(rows: map<string, Entry>, issued: map<string, seq<nat>>)

  /** The row of a call under a number. */
  ghost predicate HasRow(rows: map<string, Entry>, m: Move, seqNo: nat)
    requires m.Submit?
  {
    KeyOf(m.doc, seqNo) in rows && rows[KeyOf(m.doc, seqNo)] == Entry(m.doc, seqNo, m.item.kind, m.item.upd)
  }

  ghost predicate InRows(rows: map<string, Entry>, sent: Sent) {
    RowOf(sent) in rows && rows[RowOf(sent)] == EntryOf(sent)
  }

  /** The commits whose rows are there. */
  ghost function Held(committed: seq<Sent>, rows: map<string, Entry>): set<nat> {
    set i | 0 <= i < |committed| && InRows(rows, committed[i])
  }

  ghost function IssuedAfter(issued: map<string, seq<nat>>, sent: Sent): map<string, seq<nat>> {
    var doc := sent.task.key.doc;
    if sent.task.key.New? then issued[doc := Issued(issued, doc) + [sent.seqNo]] else issued
  }

  /** A number for a send without one is free and exceeds those issued before; a number given is kept. */
  ghost predicate MayWrite(rows: map<string, Entry>, issued: map<string, seq<nat>>, sent: Sent) {
    if sent.task.key.Explicit? then sent.seqNo == sent.task.key.seqNo
    else RowOf(sent) !in rows && forall q :: q in Issued(issued, sent.task.key.doc) ==> q < sent.seqNo
  }

  /** Other tabs only issue more. */
  ghost predicate Allowed(l: Ledger, c: Change) {
    match c
    case Written(sent) => MayWrite(l.rows, l.issued, sent)
    case Acked(_) => true
    case Others(_, issued) => IssuedGrows(l.issued, issued)
  }

  ghost function Entered(l: Ledger, c: Change): Ledger {
    match c
    case Written(sent) =>
      l.(committed := l.committed + [sent], rows := WithRow(l.rows, sent), issued := IssuedAfter(l.issued, sent))
    case Acked(key) =>
      l.(acked := l.acked + (Held(l.committed, l.rows) - Held(l.committed, l.rows - {key})), rows := l.rows - {key})
    case Others(rows, issued) =>
      l.(elsewhere := l.elsewhere + (Held(l.committed, l.rows) - Held(l.committed, rows)), rows := rows, issued := issued)
  }

  ghost function Replayed(start: Ledger, log: seq<Change>): Ledger {
    if log == [] then start else Entered(Replayed(start, log[..|log| - 1]), log[|log| - 1])
  }

  ghost predicate AllAllowed(start: Ledger, log: seq<Change>) {
    log == [] || (AllAllowed(start, log[..|log| - 1]) && Allowed(Replayed(start, log[..|log| - 1]), log[|log| - 1]))
  }

  lemma OneChange(start: Ledger, log: seq<Change>, c: Change)
    ensures Replayed(start, log + [c]) == Entered(Replayed(start, log), c)
    ensures AllAllowed(start, log + [c]) <==> AllAllowed(start, log) && Allowed(Replayed(start, log), c)
  {
    assert (log + [c])[..|log + [c]| - 1] == log;
  }

  /** A later send gave the same number. */
  ghost predicate Overwritten(committed: seq<Sent>, i: nat)
    requires i < |committed|
  {
    exists j :: i < j < |committed| && committed[j].task.key == Explicit(committed[i].task.key.doc, committed[i].seqNo)
  }

  ghost predicate Placed(l: Ledger, i: nat)
    requires i < |l.committed|
  {
    InRows(l.rows, l.committed[i]) || i in l.acked || i in l.elsewhere || Overwritten(l.committed, i)
  }

  ghost predicate AllPlaced(l: Ledger) {
    forall i :: 0 <= i < |l.committed| ==> Placed(l, i)
  }

  lemma StorePlaces(l: Ledger, sent: Sent, i: nat)
    requires i < |l.committed| && Placed(l, i) && Allowed(l, Written(sent))
    ensures Placed(Entered(l, Written(sent)), i)
  {
    var l' := Entered(l, Written(sent));
    assert l'.committed[i] == l.committed[i];
    if RowOf(l.committed[i]) == RowOf(sent) && sent.task.key.Explicit? {
      KeyIsInjective(l.committed[i].task.key.doc, l.committed[i].seqNo, sent.task.key.doc, sent.seqNo);
      assert l'.committed[|l.committed|] == sent;
    } else if Overwritten(l.committed, i) {
      var j :| i < j < |l.committed|
               && l.committed[j].task.key == Explicit(l.committed[i].task.key.doc, l.committed[i].seqNo);
      assert l'.committed[j] == l.committed[j];
    }
  }

  lemma ChangePlaces(l: Ledger, c: Change)
    requires AllPlaced(l) && Allowed(l, c)
    ensures AllPlaced(Entered(l, c))
  {
    var l' := Entered(l, c);
    forall i | 0 <= i < |l'.committed| ensures Placed(l', i) {
      if i < |l.committed| {
        assert Placed(l, i);
        if c.Written? { StorePlaces(l, c.sent, i); }
      }
    }
  }

  /** The numbers of sends without one are committed allocations, in the order of committing. */
  ghost predicate InIssueOrder(committed: seq<Sent>, issued: map<string, seq<nat>>) {
    && (forall i :: 0 <= i < |committed| && committed[i].task.key.New? ==>
          committed[i].seqNo in Issued(issued, committed[i].task.key.doc))
    && (forall i, j ::
          0 <= i < j < |committed| && committed[i].task.key.New? && committed[j].task.key.New?
            && committed[i].task.key.doc == committed[j].task.key.doc ==>
          committed[i].seqNo < committed[j].seqNo)
  }

  lemma NumberedGrows(committed: seq<Sent>, issued: map<string, seq<nat>>, sent: Sent)
    requires InIssueOrder(committed, issued)
    requires sent.task.key.New? ==> forall q :: q in Issued(issued, sent.task.key.doc) ==> q < sent.seqNo
    ensures InIssueOrder(committed + [sent], IssuedAfter(issued, sent))
  {
    var committed', issued' := committed + [sent], IssuedAfter(issued, sent);
    forall i | 0 <= i < |committed'| && committed'[i].task.key.New?
      ensures committed'[i].seqNo in Issued(issued', committed'[i].task.key.doc)
    {
      if i == |committed| { assert Issued(issued', sent.task.key.doc)[|Issued(issued, sent.task.key.doc)|] == sent.seqNo; }
    }
  }

  lemma OrderGrows(committed: seq<Sent>, issued: map<string, seq<nat>>, issued': map<string, seq<nat>>)
    requires InIssueOrder(committed, issued) && IssuedGrows(issued, issued')
    ensures InIssueOrder(committed, issued')
  {
    forall i | 0 <= i < |committed| && committed[i].task.key.New?
      ensures committed[i].seqNo in Issued(issued', committed[i].task.key.doc)
    {
      var doc := committed[i].task.key.doc;
      assert Issued(issued, doc) <= Issued(issued', doc);
    }
  }

  lemma ChangeOrders(l: Ledger, c: Change)
    requires InIssueOrder(l.committed, l.issued) && Allowed(l, c)
    ensures InIssueOrder(Entered(l, c).committed, Entered(l, c).issued)
  {
    if c.Written? {
      NumberedGrows(l.committed, l.issued, c.sent);
    } else if c.Others? {
      OrderGrows(l.committed, l.issued, c.issued);
    }
  }

  /** A number given by a call is the number of its row. */
  ghost predicate NumbersKept(committed: seq<Sent>) {
    forall i :: 0 <= i < |committed| && committed[i].task.key.Explicit? ==> committed[i].seqNo == committed[i].task.key.seqNo
  }

  ghost predicate IsOpeningBalance(start: Ledger) {
    start.committed == [] && start.acked == {} && start.elsewhere == {}
  }

  /** In every history, what was committed is in the rows or accounted for, under numbers in order. */
  lemma {:induction false} HistoryKeeps(start: Ledger, log: seq<Change>)
    requires IsOpeningBalance(start) && AllAllowed(start, log)
    ensures AllPlaced(Replayed(start, log))
    ensures InIssueOrder(Replayed(start, log).committed, Replayed(start, log).issued)
    ensures NumbersKept(Replayed(start, log).committed)
  {
    if log == [] {
    } else {
      var l := Replayed(start, log[..|log| - 1]);
      HistoryKeeps(start, log[..|log| - 1]);
      ChangePlaces(l, log[|log| - 1]);
      ChangeOrders(l, log[|log| - 1]);
    }
  }

  /** The change takes the row of a commit away. */
  ghost predicate Takes(l: Ledger, c: Change, sent: Sent) {
    InRows(l.rows, sent) && !InRows(Entered(l, c).rows, sent)
  }

  ghost predicate TakesFrom(l: Ledger, c: Change, i: nat) {
    i < |l.committed| && Takes(l, c, l.committed[i])
  }

  ghost predicate TakenAt(start: Ledger, log: seq<Change>, n: nat, i: nat)
    requires n < |log|
  {
    TakesFrom(Replayed(start, log[..n]), log[n], i)
  }

  lemma OneTaken(l: Ledger, c: Change, i: nat)
    ensures i in Entered(l, c).acked
            <==> i in l.acked || (c.Acked? && TakesFrom(l, c, i))
    ensures i in Entered(l, c).elsewhere
            <==> i in l.elsewhere || (c.Others? && TakesFrom(l, c, i))
  {
  }

  /** An ack took the row of the i-th commit, or else another tab did. */
  ghost predicate TakenBy(start: Ledger, log: seq<Change>, i: nat, ack: bool) {
    exists n :: 0 <= n < |log| && (if ack then log[n].Acked? else log[n].Others?) && TakenAt(start, log, n, i)
  }

  lemma TakenGrows(start: Ledger, log: seq<Change>, c: Change, i: nat, ack: bool)
    ensures TakenBy(start, log + [c], i, ack)
            <==> TakenBy(start, log, i, ack)
                 || ((if ack then c.Acked? else c.Others?) && TakesFrom(Replayed(start, log), c, i))
  {
    hide Replayed, TakesFrom;
    var log' := log + [c];
    assert log'[..|log|] == log;
    assert TakenAt(start, log', |log|, i) <==> TakesFrom(Replayed(start, log), c, i);
    forall n | 0 <= n < |log| ensures log'[n] == log[n] && (TakenAt(start, log', n, i) <==> TakenAt(start, log, n, i)) {
      assert log'[..n] == log[..n];
    }
    if TakenBy(start, log, i, ack) {
      var n :| 0 <= n < |log| && (if ack then log[n].Acked? else log[n].Others?) && TakenAt(start, log, n, i);
      assert TakenAt(start, log', n, i);
    }
  }

  ghost predicate BooksTaken(start: Ledger, log: seq<Change>, i: nat) {
    && (i in Replayed(start, log).acked <==> TakenBy(start, log, i, true))
    && (i in Replayed(start, log).elsewhere <==> TakenBy(start, log, i, false))
  }

  lemma BooksStep(start: Ledger, log: seq<Change>, c: Change, i: nat)
    requires BooksTaken(start, log, i)
    ensures BooksTaken(start, log + [c], i)
  {
    hide Replayed, Entered, TakesFrom, TakenBy, AllAllowed;
    OneChange(start, log, c);
    OneTaken(Replayed(start, log), c, i);
    TakenGrows(start, log, c, i, true);
    TakenGrows(start, log, c, i, false);
  }

  /** What counts as acknowledged, or taken elsewhere, is exactly what an ack, or another tab, has taken. */
  lemma {:induction false} TakenIff(start: Ledger, log: seq<Change>, i: nat)
    requires IsOpeningBalance(start)
    ensures i in Replayed(start, log).acked <==> TakenBy(start, log, i, true)
    ensures i in Replayed(start, log).elsewhere <==> TakenBy(start, log, i, false)
  {
    if log == [] {
    } else {
      TakenIff(start, log[..|log| - 1], i);
      BooksStep(start, log[..|log| - 1], log[|log| - 1], i);
      assert log[..|log| - 1] + [log[|log| - 1]] == log;
      assert BooksTaken(start, log, i);
    }
  }

  ghost function TasksOf(committed: seq<Sent>): seq<Task> {
    seq(|committed|, i requires 0 <= i < |committed| => committed[i].task)
  }

  /** Nothing has failed: the committed tasks and the chain are the submissions, in order. */
  ghost predicate InOrder(v: View) {
    v.timers == map[] && v.deferred == map[] && TasksOf(v.committed) + v.tail == v.submitted
  }

  lemma CommitInOrder(v: View, seqNo: nat)
    requires InOrder(v) && v.tail != []
    ensures InOrder(Committed(v, seqNo))
  {
    var v' := Committed(v, seqNo);
    assert v'.timers == map[] && v'.deferred == map[];
    assert TasksOf(v'.committed) == TasksOf(v.committed) + [v.tail[0]];
    assert TasksOf(v.committed) + [v.tail[0]] + v.tail[1..] == TasksOf(v.committed) + v.tail;
  }

  lemma SubmitInOrder(v: View, doc: string, item: Item, seqNo: Option<nat>)
    requires InOrder(v)
    ensures InOrder(Arrived(v, doc, item, seqNo))
  {
    var t := Task(|v.submitted|, KeyFor(v, doc, seqNo), item);
    assert TasksOf(v.committed) + (v.tail + [t]) == (TasksOf(v.committed) + v.tail) + [t];
  }

  /** What a failure does to the waiting tasks. */
  ghost function Retried(task: Task, timers: map<Key, Task>, attempts: map<Key, nat>, deferred: map<Key, Task>):
    (map<Key, Task>, map<Key, nat>, map<Key, Task>)
  {
    var key := task.key;
    if key in timers then (timers, attempts, deferred)
    else if Exhausted(attempts, key) then (timers, attempts - {key}, deferred[key := task])
    else (timers[key := task], attempts[key := (if key in attempts then attempts[key] else 0) + 1], deferred)
  }

  lemma CommittedFields(v: View, number: nat)
    requires v.tail != []
    ensures var (v', key) := (Committed(v, number), v.tail[0].key);
            && v'.tail == v.tail[1..] && v'.timers == v.timers - {key} && v'.attempts == v.attempts - {key}
            && v'.deferred == v.deferred - {key} && v'.committed == v.committed + [Sent(v.tail[0], number)]
            && v'.submitted == v.submitted && v'.nextId == v.nextId
  {
  }

  lemma RefusedRetries(v: View)
    requires v.tail != []
    ensures var v' := Refused(v);
            (v'.timers, v'.attempts, v'.deferred) == Retried(v.tail[0], v.timers, v.attempts, v.deferred)
    ensures var v' := Refused(v);
            && v'.tail == v.tail[1..] && v'.committed == v.committed && v'.submitted == v.submitted && v'.nextId == v.nextId
  {
    var key := v.tail[0].key;
    assert (v.deferred - {key})[key := v.tail[0]] == v.deferred[key := v.tail[0]];
  }

  /** Where the attempt at the head of the chain is: nothing runs, or its row was put, or it failed. */
  datatype Attempt = Ready | Put(sent: Sent) | Lost

  /**
   The methods are what runs between two awaits, so timers, acks, new sends and other tabs' transactions may come
   between them. Each keeps the parts of Valid() it names; the others do not depend on what it modifies.
   */
  class Sender {
    const outbox: Outbox
    var tail: seq<Task>            // the promise chain; its head is the running attempt
    var timers: map<Key, Task>
    var attempts: map<Key, nat>
    var deferred: map<Key, Task>
    var deferredTimer: bool
    var nextId: nat
    var calls: nat                 // tells tasks apart; no code reads it
    var attempt: Attempt
    ghost var committed: seq<Sent>
    ghost var moves: seq<Move>     // what has happened
    ghost const start: Ledger      // the database at first
    ghost var log: seq<Change>     // what has happened to it since

    ghost function Now(): View
      reads this`moves
    {
      After(moves)
    }

    ghost function Books(): Ledger
      reads this`log
    {
      Replayed(start, log)
    }

    /** The fields are where the moves lead, and what is deferred will be tried again. */
    ghost predicate Shows()
      reads this`tail, this`timers, this`attempts, this`deferred, this`deferredTimer
      reads this`nextId, this`calls, this`attempt, this`committed, this`moves
    {
      && tail == Now().tail && timers == Now().timers && attempts == Now().attempts && deferred == Now().deferred
      && nextId == Now().nextId && calls == |Now().submitted| && committed == Now().committed
      && (deferred != map[] ==> deferredTimer) && (attempt.Put? ==> tail != [] && attempt.sent.task == tail[0])
    }

    /** The rows put for this sender are those of its commits, and of the attempt that has yet to go on. */
    ghost predicate Agrees()
      reads this`attempt, this`committed, this`log
    {
      Books().committed == committed + if attempt.Put? then [attempt.sent] else []
    }

    /** The database is where its history leads, whether or not it is open now. */
    ghost predicate Recorded()
      reads this`log, outbox, outbox.browser
    {
      && outbox.Sound() && IsOpeningBalance(start) && AllAllowed(start, log)
      && Books().rows == outbox.browser.db.rows && Books().issued == outbox.browser.issued
    }

    ghost predicate Valid()
      reads this, outbox, outbox.browser
    {
      Shows() && Agrees() && Recorded()
    }

    constructor (outbox: Outbox)
      requires outbox.Sound()
      ensures Valid() && this.outbox == outbox && attempt.Ready? && moves == [] && log == []
    {
      this.outbox := outbox;
      tail, timers, attempts, deferred, deferredTimer, nextId, calls := [], map[], map[], map[], false, 0, 0;
      attempt, committed, moves, log := Ready, [], [], [];
      start := Ledger([], {}, {}, outbox.browser.db.rows, outbox.browser.issued);
    }

    /** sendWithOutbox as a caller uses it, with a number or without. */
    method Submit(doc: string, item: Item, seqNo: Option<nat>)
      requires Shows()
      modifies this`tail, this`nextId, this`calls, this`moves
      ensures Shows() && moves == old(moves) + [Move.Submit(doc, item, seqNo)]
      ensures Now() == Arrived(old(Now()), doc, item, seqNo)
      ensures old(tail) < tail && |tail| == |old(tail)| + 1 && TaskOf(Move.Submit(doc, item, seqNo), tail[|old(tail)|])
    {
      hide After;
      var key;
      if seqNo.None? {
        nextId := nextId + 1;
        key := New(doc, nextId);
      } else {
        key := Explicit(doc, seqNo.value);
      }
      OneMove(moves, Move.Submit(doc, item, seqNo));
      tail, calls, moves := tail + [Task(calls, key, item)], calls + 1, moves + [Move.Submit(doc, item, seqNo)];
    }

    /**
     The database part of the head's attempt: open it, if it is not open, and enqueue. A row is put under the
     number that was given or a fresh one, or nothing is.
     */
    method StoreHead(opening: Opening, snapshot: Db, commits: bool)
      requires Recorded() && Agrees() && attempt.Ready? && tail != []
      requires KeyedRows(snapshot.rows) && Evolves(snapshot, outbox.browser.db)
      modifies this`attempt, this`log, outbox, outbox.browser
      ensures Recorded() && Agrees() && !attempt.Ready?
      ensures outbox.open <==> old(outbox.open) || opening.Opens? || (opening.SeedFails? && snapshot.rows == map[])
      ensures attempt.Put? <==> outbox.open && commits
      ensures attempt.Put? ==> attempt.sent.task == tail[0] && Books() == Entered(old(Books()), Written(attempt.sent))
      ensures attempt.Put? ==>
                var (key, item, n) := (tail[0].key, tail[0].item, attempt.sent.seqNo);
                && outbox.browser.db.rows
                   == old(outbox.browser.db.rows)[KeyOf(key.doc, n) := Entry(key.doc, n, item.kind, item.upd)]
                && (key.Explicit? ==> n == key.seqNo) && (key.New? ==> KeyOf(key.doc, n) !in old(outbox.browser.db.rows))
      ensures attempt.Lost? ==> Books() == old(Books()) && outbox.browser.db.rows == old(outbox.browser.db.rows)
    {
      hide Outbox.Sound;
      var ok := OpenDatabase(opening, snapshot);
      if ok && commits {
        PutHead();
      } else {
        if ok { EnqueueFails(); }
        attempt := Lost;
      }
    }

    /** The transaction aborts. */
    method EnqueueFails()
      requires outbox.Loaded() && tail != []
      modifies outbox, outbox.browser
      ensures outbox.Loaded()
      ensures outbox.browser.db == old(outbox.browser.db) && outbox.browser.issued == old(outbox.browser.issued)
    {
      hide Outbox.Sound;
      var seqNo := EnqueueHead(false);
    }

    /** It commits. */
    method PutHead()
      requires outbox.open && Recorded() && Agrees() && attempt.Ready? && tail != []
      modifies this`attempt, this`log, outbox, outbox.browser
      ensures outbox.open && Recorded() && Agrees() && attempt.Put? && attempt.sent.task == tail[0]
      ensures MayWrite(old(outbox.browser.db.rows), old(outbox.browser.issued), attempt.sent)
      ensures Books() == Entered(old(Books()), Written(attempt.sent))
    {
      hide Outbox.Sound;
      var seqNo := EnqueueHead(true);
      var sent := Sent(tail[0], seqNo.value);
      OneChange(start, log, Written(sent));
      log, attempt := log + [Written(sent)], Put(sent);
    }

    /** outbox.init() */
    method OpenDatabase(opening: Opening, snapshot: Db) returns (ok: bool)
      requires Recorded() && KeyedRows(snapshot.rows) && Evolves(snapshot, outbox.browser.db)
      modifies outbox, outbox.browser
      ensures Recorded() && ok == outbox.open
      ensures ok <==> old(outbox.open) || opening.Opens? || (opening.SeedFails? && snapshot.rows == map[])
    {
      hide Outbox.Sound;
      ok := outbox.Init(opening, snapshot);
    }

    /** One call of the Outbox for the running attempt, with the number it was given or without. */
    method EnqueueHead(commits: bool) returns (seqNo: Option<nat>)
      requires outbox.Loaded() && tail != []
      modifies outbox, outbox.browser
      ensures outbox.Loaded() && seqNo.Some? == commits
      ensures !commits ==>
                outbox.browser.db == old(outbox.browser.db) && outbox.browser.issued == old(outbox.browser.issued)
      ensures commits ==>
                var sent := Sent(tail[0], seqNo.value);
                && outbox.browser.db.rows == WithRow(old(outbox.browser.db.rows), sent)
                && outbox.browser.issued == IssuedAfter(old(outbox.browser.issued), sent)
                && MayWrite(old(outbox.browser.db.rows), old(outbox.browser.issued), sent)
    {
      hide Outbox.Sound;
      var task := tail[0];
      if task.key.New? {
        seqNo := outbox.EnqueueNext(task.key.doc, task.item.kind, task.item.upd, commits);
      } else {
        outbox.Enqueue(task.key.doc, task.key.seqNo, task.item.kind, task.item.upd, commits);
        seqNo := if commits then Some(task.key.seqNo) else None;
      }
    }

    /** The rest of the attempt, after its row was put or it failed. */
    method Conclude()
      requires Shows() && Agrees() && !attempt.Ready? && tail != []
      modifies this`tail, this`timers, this`attempts, this`deferred, this`deferredTimer
      modifies this`attempt, this`committed, this`moves
      ensures Shows() && Agrees() && attempt.Ready?
      ensures tail == old(tail)[1..] && committed == old(committed) + if old(attempt).Put? then [old(attempt).sent] else []
      ensures old(attempt).Put? ==> Now() == Committed(old(Now()), old(attempt).sent.seqNo)
      ensures var key := old(tail)[0].key;
              old(attempt).Put? ==> timers == old(timers) - {key} && deferred == old(deferred) - {key}
      ensures old(attempt).Lost? ==>
                Now() == Refused(old(Now())) && Waiting(old(tail)[0], old(timers), old(attempts), old(deferred))
    {
      if attempt.Put? { Settle(); } else { Fail(); }
    }

    /** A timer and a deferral under its key are cancelled. */
    method Settle()
      requires Shows() && Agrees() && attempt.Put?
      modifies this`tail, this`timers, this`attempts, this`deferred, this`attempt, this`committed, this`moves
      ensures Shows() && Agrees() && attempt.Ready? && Now() == Committed(old(Now()), old(attempt).sent.seqNo)
      ensures tail == old(tail)[1..] && committed == old(committed) + [old(attempt).sent]
      ensures var key := old(tail)[0].key; timers == old(timers) - {key} && deferred == old(deferred) - {key}
    {
      hide After, Committed, Replayed;
      var key := tail[0].key;
      OneMove(moves, Commit(attempt.sent.seqNo));
      CommittedFields(Now(), attempt.sent.seqNo);
      moves, committed := moves + [Commit(attempt.sent.seqNo)], committed + [attempt.sent];
      tail, timers, attempts, deferred := tail[1..], timers - {key}, attempts - {key}, deferred - {key};
      attempt := Ready;
    }

    method Fail()
      requires Shows() && Agrees() && attempt.Lost? && tail != []
      modifies this`tail, this`timers, this`attempts, this`deferred, this`deferredTimer, this`attempt, this`moves
      ensures Shows() && Agrees() && attempt.Ready? && Now() == Refused(old(Now()))
      ensures tail == old(tail)[1..] && committed == old(committed)
      ensures Waiting(old(tail)[0], old(timers), old(attempts), old(deferred))
    {
      hide After, Refused, Retried, Replayed;
      var task := tail[0];
      OneMove(moves, Refuse);
      RefusedRetries(Now());
      attempt, tail, moves := Ready, tail[1..], moves + [Refuse];
      ScheduleRetry(task);
    }

    /** A failed task waits in a timer; or, at its third failure, in the deferred map; or a timer has its key. */
    ghost predicate Waiting(task: Task, timersBefore: map<Key, Task>, attemptsBefore: map<Key, nat>,
                            deferredBefore: map<Key, Task>)
      reads this`timers, this`attempts, this`deferred
    {
      var count := if task.key in attemptsBefore then attemptsBefore[task.key] else 0;
      if task.key in timersBefore then
        timers == timersBefore && attempts == attemptsBefore && deferred == deferredBefore
      else if count < 2 then
        timers == timersBefore[task.key := task] && attempts == attemptsBefore[task.key := count + 1]
        && deferred == deferredBefore
      else
        timers == timersBefore && attempts == attemptsBefore - {task.key} && deferred == deferredBefore[task.key := task]
    }

    /** A timer already set under the key keeps what it has. */
    method ScheduleRetry(task: Task)
      requires deferred != map[] ==> deferredTimer
      modifies this`timers, this`attempts, this`deferred, this`deferredTimer
      ensures deferred != map[] ==> deferredTimer
      ensures (timers, attempts, deferred) == Retried(task, old(timers), old(attempts), old(deferred))
      ensures Waiting(task, old(timers), old(attempts), old(deferred))
    {
      if task.key in timers { return; }
      var count := (if task.key in attempts then attempts[task.key] else 0) + 1;
      if count >= SYNC_MAX_RETRIES {
        attempts := attempts - {task.key};
        deferred := deferred[task.key := task];
        deferredTimer := true;
        return;
      }
      attempts := attempts[task.key := count];
      timers := timers[task.key := task];
    }

    method FireTimer(key: Key)
      requires Shows() && key in timers
      modifies this`timers, this`tail, this`moves
      ensures Shows() && moves == old(moves) + [Fire(key)] && Now() == TimerFired(old(Now()), key)
    {
      hide After;
      OneMove(moves, Fire(key));
      tail, timers, moves := tail + [timers[key]], timers - {key}, moves + [Fire(key)];
    }

    /** It is tried again, with a fresh count. */
    method ReviveOne(key: Key)
      requires Shows() && key in deferred
      modifies this`tail, this`deferred, this`attempts, this`moves
      ensures Shows() && tail == old(tail) + [old(deferred)[key]] && deferred == old(deferred) - {key}
      ensures attempts == old(attempts) - {key}
      ensures Now().submitted == old(Now()).submitted && Now().committed == old(Now()).committed
    {
      hide After;
      OneMove(moves, Revive(key));
      tail, deferred, moves := tail + [deferred[key]], deferred - {key}, moves + [Revive(key)];
      attempts := attempts - {key};
    }

    method MoveDeferred()
      requires Shows()
      modifies this`tail, this`deferred, this`attempts, this`moves
      ensures Shows() && deferred == map[] && old(tail) <= tail && |tail| == |old(tail)| + |old(deferred)|
      ensures Now().submitted == old(Now()).submitted && Now().committed == old(Now()).committed
      ensures forall k :: k in old(deferred) ==> old(deferred)[k] in tail && k !in attempts
    {
      hide After;
      while deferred != map[]
        invariant Shows() && Now().submitted == old(Now()).submitted && Now().committed == old(Now()).committed
        invariant old(tail) <= tail && |tail| + |deferred| == |old(tail)| + |old(deferred)|
        invariant forall k :: k in old(deferred) ==>
                    if k in deferred then deferred[k] == old(deferred)[k] else old(deferred)[k] in tail && k !in attempts
        decreases |deferred|
      {
        var key :| key in deferred;
        OneLess(deferred, key);
        ReviveOne(key);
      }
    }

    /** The deferral timer fires: everything deferred is tried again. */
    method FireDeferred()
      requires Shows() && deferredTimer
      modifies this`tail, this`deferred, this`attempts, this`deferredTimer, this`moves
      ensures Shows() && deferred == map[] && !deferredTimer && Now().submitted == old(Now()).submitted
      ensures forall k :: k in old(deferred) ==> old(deferred)[k] in tail && k !in attempts
      ensures old(tail) <= tail && |tail| == |old(tail)| + |old(deferred)|
    {
      hide After;
      MoveDeferred();
      deferredTimer := false;
    }

    /** connect() flushes the deferred map at once. */
    method FlushDeferred()
      requires Shows()
      modifies this`tail, this`deferred, this`attempts, this`deferredTimer, this`moves
      ensures Shows() && deferred == map[] && Now().submitted == old(Now()).submitted
      ensures deferredTimer == (old(deferredTimer) && old(deferred) == map[])
      ensures forall k :: k in old(deferred) ==> old(deferred)[k] in tail && k !in attempts
      ensures old(tail) <= tail && |tail| == |old(tail)| + |old(deferred)|
    {
      hide After;
      if deferred == map[] { return; }
      MoveDeferred();
      deferredTimer := false;
    }

    /** sync:ack for a row: it goes from the Outbox, if the database opens and its transaction commits. */
    method HandleSyncAck(doc: string, seqNo: nat, opening: Opening, snapshot: Db, commits: bool)
      returns (removed: bool)
      requires Recorded() && Agrees() && KeyedRows(snapshot.rows) && Evolves(snapshot, outbox.browser.db)
      modifies this`log, outbox, outbox.browser
      ensures Recorded() && Agrees() && (removed <==> outbox.open && commits)
      ensures outbox.browser.db.rows
           == old(outbox.browser.db.rows) - if removed then {KeyOf(doc, seqNo)} else {}
      ensures Books() == if removed then Entered(old(Books()), Acked(KeyOf(doc, seqNo))) else old(Books())
    {
      hide Outbox.Sound;
      var ok := OpenDatabase(opening, snapshot);
      if ok { RemoveAcked(doc, seqNo, commits); }
      removed := ok && commits;
    }

    method RemoveAcked(doc: string, seqNo: nat, commits: bool)
      requires outbox.open && Recorded() && Agrees()
      modifies this`log, outbox, outbox.browser
      ensures outbox.open && Recorded() && Agrees()
      ensures Books() == if commits then Entered(old(Books()), Acked(KeyOf(doc, seqNo))) else old(Books())
    {
      hide Outbox.Sound;
      ghost var acked := Acked(KeyOf(doc, seqNo));
      OneChange(start, log, acked);
      if commits { log := log + [acked]; }
      outbox.AckEntry(doc, seqNo, commits);
    }

    /**
     Other tabs commit whatever keeps this one covering the rows. Rows that they delete or replace are theirs to
     answer for.
     */
    method OtherTabs(after: Db, ghost issuedAfter: map<string, seq<nat>>)
      requires Recorded() && Agrees() && KeyedRows(after.rows) && Evolves(outbox.browser.db, after)
      requires IssuedGrows(outbox.browser.issued, issuedAfter) && IssueOk(issuedAfter, after.counters)
      modifies this`log, outbox.browser`db, outbox.browser`issued
      ensures Recorded() && Agrees() && outbox.browser.db == after
      ensures Books() == Entered(old(Books()), Others(after.rows, issuedAfter))
    {
      hide Outbox.Sound;
      OneChange(start, log, Others(after.rows, issuedAfter));
      log := log + [Others(after.rows, issuedAfter)];
      outbox.Meanwhile(after, issuedAfter);
    }

    /** The database is closed under the sender; the next attempt opens it again. */
    method CloseDatabase()
      requires Recorded()
      modifies outbox`open
      ensures Recorded() && !outbox.open
    {
      hide Outbox.Sound;
      outbox.Close();
    }

    /**
     Nothing handed over is lost: whatever failed and however often, the update of a call without a number, or alone
     under its number, waits in the chain, in a timer or in the deferred map; or its row, with the call's document,
     update and kind, is in the Outbox, or was taken after its commit by an ack or by another tab, or a later call
     gave its number.
     */
    lemma NothingIsLost(k: nat)
      requires Valid() && k < |Calls(moves)| && Sole(Calls(moves), k)
      ensures var (l, m) := (Books(), Calls(moves)[k]);
              || (exists task: Task :: task.ticket == k && TaskOf(m, task)
                                 && (task in tail || task in timers.Values || task in deferred.Values))
              || (exists i :: 0 <= i < |l.committed| && l.committed[i].task.ticket == k
                              && (m.seqNo.Some? ==> l.committed[i].seqNo == m.seqNo.value)
                              && (HasRow(l.rows, m, l.committed[i].seqNo) || i in l.acked || i in l.elsewhere
                                  || Overwritten(l.committed, i)))
      ensures Books().rows == outbox.browser.db.rows
    {
      hide After, Replayed;
      SoleIsPresent(moves, k);
      var task := Now().submitted[k];
      HistoryKeeps(start, log);
      if task !in tail && task !in timers.Values && task !in deferred.Values {
        var i :| 0 <= i < |committed| && committed[i].task == task;
        assert Books().committed[i] == committed[i] && Placed(Books(), i);
      }
    }
  }

  /** A tab's first use of an empty browser storage. */
  method FirstUse() returns (sender: Sender)
    ensures fresh(sender) && sender.Valid() && sender.moves == [] && sender.outbox.browser.db == Db(map[], map[])
  {
    var browser := new Browser(Db(map[], map[]), map[]);
    var outbox := new Outbox(browser);
    sender := new Sender(outbox);
  }

  /** While nothing fails, what is committed is what was submitted, in that order, up to what waits in the chain. */
  lemma {:induction false} WithoutFailures(moves: seq<Move>)
    requires forall m :: m in moves ==> m.Submit? || m.Commit?
    ensures InOrder(After(moves))
    ensures After(moves).tail == [] ==> TasksOf(After(moves).committed) == After(moves).submitted
  {
    if moves == [] {
    } else {
      var v, m := After(moves[..|moves| - 1]), moves[|moves| - 1];
      WithoutFailures(moves[..|moves| - 1]);
      if m.Submit? {
        SubmitInOrder(v, m.doc, m.item, m.seqNo);
      } else if v.tail != [] {
        CommitInOrder(v, m.number);
      }
    }
    assert TasksOf(After(moves).committed) + [] == TasksOf(After(moves).committed);
  }

  lemma OneLess(m: map<Key, Task>, key: Key)
    requires key in m
    ensures |m - {key}| == |m| - 1
  {
    assert (m - {key}).Keys == m.Keys - {key};
  }

  /** Of two failing sends under one number given explicitly, the second is given up. */
  lemma DuplicateKeyIsDropped(doc: string, seqNo: nat, first: Item, second: Item)
    ensures var moves := [Submit(doc, first, Some(seqNo)), Submit(doc, second, Some(seqNo)), Refuse, Refuse];
            var (t, u) := (Task(0, Explicit(doc, seqNo), first), Task(1, Explicit(doc, seqNo), second));
            After(moves).submitted == [t, u] && Present(After(moves), t) && !Present(After(moves), u)
  {
    var m0, m1, key := Submit(doc, first, Some(seqNo)), Submit(doc, second, Some(seqNo)), Explicit(doc, seqNo);
    var t, u := Task(0, key, first), Task(1, key, second);
    TwoSends(doc, seqNo, first, second);
    SecondIsRefused(t, u);
    OneMove([m0, m1], Refuse);
    OneMove([m0, m1, Refuse], Refuse);
    assert [m0, m1] + [Refuse] == [m0, m1, Refuse];
    assert [m0, m1, Refuse] + [Refuse] == [m0, m1, Refuse, Refuse];
  }

  lemma TwoSends(doc: string, seqNo: nat, first: Item, second: Item)
    ensures var (t, u) := (Task(0, Explicit(doc, seqNo), first), Task(1, Explicit(doc, seqNo), second));
            After([Submit(doc, first, Some(seqNo)), Submit(doc, second, Some(seqNo))])
            == View([t, u], [InChain, InChain], [t, u], map[], map[], map[], [], 0)
  {
    var m0, m1 := Submit(doc, first, Some(seqNo)), Submit(doc, second, Some(seqNo));
    OneMove([], m0);
    OneMove([m0], m1);
    assert [m0] + [m1] == [m0, m1];
  }

  lemma SecondIsRefused(t: Task, u: Task)
    requires t != u && t.key == u.key
    ensures var v := Refused(View([t, u], [InChain, InChain], [t, u], map[], map[], map[], [], 0));
            && v.tail == [u] && v.submitted == [t, u]
            && Refused(v).submitted == [t, u] && Present(Refused(v), t) && !Present(Refused(v), u)
  {
    var v := Refused(View([t, u], [InChain, InChain], [t, u], map[], map[], map[], [], 0));
    assert v.tail == [u] && v.timers == map[t.key := t];
    assert Refused(v).tail == [] && Refused(v).timers[t.key] == t;
  }
}
