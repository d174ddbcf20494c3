/**
 Retries after a missing or negative ack: per entry an ack timer, a retry timer and a count of attempts.
 Every retry timer that fires replays the whole Outbox, so what must be bounded is how often that happens.
 */
module AckRetry {
  import opened Base

  /** `${doc}:${seq}` */
  type Key = string

  /** The retry timers that a count of attempts has set: the first and the second attempt each set one. */
  ghost function TimersOf(attempts: nat): nat {
    if attempts < SYNC_MAX_RETRIES then attempts else SYNC_MAX_RETRIES - 1
  }

  ghost function AttemptsOf(attempts: map<Key, nat>, key: Key): nat {
    if key in attempts then attempts[key] else 0
  }

  ghost function TimersSet(attempts: map<Key, nat>, keys: set<Key>): nat {
    if keys == {} then 0
    else
      var key :| key in keys;
      TimersOf(AttemptsOf(attempts, key)) + TimersSet(attempts, keys - {key})
  }

  lemma {:induction false} TakeKey(attempts: map<Key, nat>, keys: set<Key>, key: Key)
    requires key in keys
    ensures TimersSet(attempts, keys) == TimersOf(AttemptsOf(attempts, key)) + TimersSet(attempts, keys - {key})
  {
    var k :| k in keys && TimersSet(attempts, keys)
                          == TimersOf(AttemptsOf(attempts, k)) + TimersSet(attempts, keys - {k});
    if k == key {
    } else {
      TakeKey(attempts, keys - {k}, key);
      TakeKey(attempts, keys - {key}, k);
      assert keys - {k} - {key} == keys - {key} - {k};
    }
  }

  lemma {:induction false} OthersSame(attempts: map<Key, nat>, attempts': map<Key, nat>, keys: set<Key>)
    requires forall k :: k in keys ==> AttemptsOf(attempts, k) == AttemptsOf(attempts', k)
    ensures TimersSet(attempts, keys) == TimersSet(attempts', keys)
  {
    if keys == {} {
    } else {
      var key :| key in keys;
      TakeKey(attempts, keys, key);
      TakeKey(attempts', keys, key);
      OthersSame(attempts, attempts', keys - {key});
    }
  }

  /** One more attempt for one key sets one more timer until the limit, and none from then on. */
  lemma OneMore(attempts: map<Key, nat>, keys: set<Key>, key: Key)
    requires key in keys
    ensures TimersSet(attempts[key := AttemptsOf(attempts, key) + 1], keys)
         == TimersSet(attempts, keys) + (if AttemptsOf(attempts, key) + 1 < SYNC_MAX_RETRIES then 1 else 0)
  {
    var attempts' := attempts[key := AttemptsOf(attempts, key) + 1];
    TakeKey(attempts, keys, key);
    TakeKey(attempts', keys, key);
    OthersSame(attempts, attempts', keys - {key});
  }

  lemma {:induction false} AtMostTwoEach(attempts: map<Key, nat>, keys: set<Key>)
    ensures TimersSet(attempts, keys) <= (SYNC_MAX_RETRIES - 1) * |keys|
  {
    if keys == {} {
    } else {
      var key :| key in keys;
      TakeKey(attempts, keys, key);
      AtMostTwoEach(attempts, keys - {key});
    }
  }

  lemma {:induction false} NoneSet(keys: set<Key>)
    ensures TimersSet(map[], keys) == 0
  {
    if keys == {} {
    } else {
      var key :| key in keys;
      TakeKey(map[], keys, key);
      NoneSet(keys - {key});
    }
  }

  lemma KeysGrow(attempts: map<Key, nat>, keys: set<Key>, key: Key)
    requires attempts.Keys <= keys
    ensures TimersSet(attempts, keys + {key}) == TimersSet(attempts, keys)
  {
    if key !in keys {
      TakeKey(attempts, keys + {key}, key);
      assert keys + {key} - {key} == keys;
    } else {
      assert keys + {key} == keys;
    }
  }

  lemma Fewer<T>(a: set<T>, b: set<T>)
    requires a <= b
    ensures |a| <= |b|
  {
    assert b == a + (b - a);
  }

  /** What a provider knows of its retries, and what is counted since the last connect(). */
  datatype View = View(
    connected: bool,
    ackTimers: set<Key>,
    retryTimers: set<Key>,
    attempts: map<Key, nat>,
    keys: set<Key>,    // every entry the server or a timer has spoken of
    replays: nat,      // replays caused by retry timers
    leftover: nat)     // retry timers that were running at connect()

  /** Each replay and each running timer was set by an attempt counted since connect(), or was left over. */
  ghost predicate Accounted(v: View) {
    && v.attempts.Keys <= v.keys
    && v.replays + |v.retryTimers| <= v.leftover + TimersSet(v.attempts, v.keys)
  }

  ghost function Tracked(v: View, key: Key): View {
    if v.connected then v.(ackTimers := v.ackTimers + {key}, retryTimers := v.retryTimers - {key}) else v
  }

  /** The third attempt gives up instead of setting a timer. */
  ghost function Scheduled(v: View, key: Key): View {
    var count := AttemptsOf(v.attempts, key) + 1;
    if key in v.retryTimers then v.(keys := v.keys + {key})
    else v.(keys := v.keys + {key}, attempts := v.attempts[key := count],
            retryTimers := if count < SYNC_MAX_RETRIES then v.retryTimers + {key} else v.retryTimers)
  }

  /** Replaying sends every entry and restarts its ack timer. */
  ghost function Replayed(v: View, entries: seq<Key>): View
    decreases |entries|
  {
    if entries == [] then v else Replayed(Tracked(v, entries[0]), entries[1..])
  }

  /** connect() forgets the attempts but not the timers; the accounting starts afresh. */
  ghost function Connected(v: View): View {
    if v.connected then v else v.(attempts := map[], keys := {}, replays := 0, leftover := |v.retryTimers|)
  }

  /** What can happen between two calls of connect(), without acks. */
  datatype Event =
    | Sent(key: Key)
    | AckTimeout(key: Key)
    | Rejected(key: Key)
    | Reconnected(entries: seq<Key>)
    | RetryFires(key: Key, entries: seq<Key>)
    | Link(up: bool)

  ghost predicate Enabled(v: View, e: Event) {
    && (e.AckTimeout? ==> e.key in v.ackTimers)
    && (e.RetryFires? ==> e.key in v.retryTimers)
  }

  ghost function Apply(v: View, e: Event): View
    requires Enabled(v, e)
  {
    match e
    case Sent(key) => Tracked(v, key)
    case AckTimeout(key) => Scheduled(v.(ackTimers := v.ackTimers - {key}), key)
    case Rejected(key) =>
      Scheduled(v.(ackTimers := v.ackTimers - {key}, retryTimers := v.retryTimers - {key}), key)
    case Reconnected(entries) => Replayed(v, entries)
    case RetryFires(key, entries) =>
      var v' := v.(retryTimers := v.retryTimers - {key});
      if v.connected then Replayed(v'.(replays := v.replays + 1), entries) else v'
    case Link(up) => v.(connected := up)
  }

  ghost predicate IsRun(v: View, es: seq<Event>)
    decreases |es|
  {
    es == [] || (Enabled(v, es[0]) && IsRun(Apply(v, es[0]), es[1..]))
  }

  ghost function Run(v: View, es: seq<Event>): View
    requires IsRun(v, es)
    decreases |es|
  {
    if es == [] then v else Run(Apply(v, es[0]), es[1..])
  }

  lemma FewerTimers(v: View, key: Key)
    requires Accounted(v)
    ensures Accounted(v.(retryTimers := v.retryTimers - {key})) && Accounted(Tracked(v, key))
  {
    Fewer(v.retryTimers - {key}, v.retryTimers);
  }

  lemma ScheduledIsAccounted(v: View, key: Key)
    requires Accounted(v)
    ensures Accounted(Scheduled(v, key))
  {
    KeysGrow(v.attempts, v.keys, key);
    OneMore(v.attempts, v.keys + {key}, key);
  }

  lemma {:induction false} ReplayedIsAccounted(v: View, entries: seq<Key>)
    requires Accounted(v)
    ensures Accounted(Replayed(v, entries)) && Replayed(v, entries).leftover == v.leftover
    decreases |entries|
  {
    if entries == [] {
    } else {
      FewerTimers(v, entries[0]);
      ReplayedIsAccounted(Tracked(v, entries[0]), entries[1..]);
    }
  }

  lemma FiredIsAccounted(v: View, key: Key)
    requires Accounted(v) && key in v.retryTimers
    ensures Accounted(v.(retryTimers := v.retryTimers - {key}, replays := v.replays + 1))
  {
  }

  lemma StepAccounted(v: View, e: Event)
    requires Accounted(v) && Enabled(v, e)
    ensures Accounted(Apply(v, e)) && Apply(v, e).leftover == v.leftover
  {
    match e
    case Sent(key) => FewerTimers(v, key);
    case AckTimeout(key) => ScheduledIsAccounted(v.(ackTimers := v.ackTimers - {key}), key);
    case Rejected(key) =>
      FewerTimers(v, key);
      ScheduledIsAccounted(v.(ackTimers := v.ackTimers - {key}, retryTimers := v.retryTimers - {key}), key);
    case Reconnected(entries) => ReplayedIsAccounted(v, entries);
    case RetryFires(key, entries) =>
      FewerTimers(v, key);
      FiredIsAccounted(v, key);
      ReplayedIsAccounted(v.(retryTimers := v.retryTimers - {key}, replays := v.replays + 1), entries);
    case Link(_) =>
  }

  lemma {:induction false} RunAccounted(v: View, es: seq<Event>)
    requires Accounted(v) && IsRun(v, es)
    ensures Accounted(Run(v, es)) && Run(v, es).leftover == v.leftover
    decreases |es|
  {
    if es == [] {
    } else {
      StepAccounted(v, es[0]);
      RunAccounted(Apply(v, es[0]), es[1..]);
    }
  }

  /** At most two replays per entry, plus one per timer that connect() left running. */
  lemma ReplaysAreBounded(v: View, es: seq<Event>)
    requires !v.connected && IsRun(Connected(v), es)
    ensures var v' := Run(Connected(v), es);
            v'.replays <= (SYNC_MAX_RETRIES - 1) * |v'.keys| + |v.retryTimers|
  {
    NoneSet({});
    RunAccounted(Connected(v), es);
    var v' := Run(Connected(v), es);
    AtMostTwoEach(v'.attempts, v'.keys);
  }

  ghost predicate TwoPerEntry(v: View) {
    v.replays <= (SYNC_MAX_RETRIES - 1) * |v.keys|
  }

  lemma Prepend(v: View, e: Event, es: seq<Event>)
    requires Enabled(v, e) && IsRun(Apply(v, e), es)
    ensures IsRun(v, [e] + es) && Run(v, [e] + es) == Run(Apply(v, e), es)
  {
    assert ([e] + es)[1..] == es;
  }

  /** A timer fires and is answered with a nack for its entry: one replay more, and the attempts of that entry. */
  lemma FiresAndRejects(v: View, key: Key)
    requires v.connected && key in v.retryTimers
    ensures Enabled(v, RetryFires(key, [key])) && Enabled(Apply(v, RetryFires(key, [key])), Rejected(key))
    ensures var v' := Apply(Apply(v, RetryFires(key, [key])), Rejected(key));
            && v'.connected && v'.replays == v.replays + 1 && v'.keys == v.keys + {key}
            && AttemptsOf(v'.attempts, key) == AttemptsOf(v.attempts, key) + 1
            && (AttemptsOf(v.attempts, key) + 1 < SYNC_MAX_RETRIES ==> key in v'.retryTimers)
  {
    assert [key][1..] == [];
    var v1 := v.(retryTimers := v.retryTimers - {key}, replays := v.replays + 1);
    assert Replayed(Tracked(v1, key), [key][1..]) == Tracked(v1, key);
    assert Apply(v, RetryFires(key, [key])) == Tracked(v1, key);
  }

  /** A timer left running at connect() makes three replays of one entry. */
  lemma LeftoverExceeds(v: View, key: Key) returns (es: seq<Event>)
    requires !v.connected && key in v.retryTimers
    ensures IsRun(Connected(v), es)
    ensures var v' := Run(Connected(v), es); v'.keys == {key} && v'.replays == 3
  {
    var v0 := Connected(v);
    var v1 := Apply(v0, Link(true));
    var fires, rejects := RetryFires(key, [key]), Rejected(key);
    FiresAndRejects(v1, key);
    var v2 := Apply(Apply(v1, fires), rejects);
    FiresAndRejects(v2, key);
    var v3 := Apply(Apply(v2, fires), rejects);
    FiresAndRejects(v3, key);
    var v4 := Apply(v3, fires);
    assert v4.replays == 3 && v4.keys == {key} by { LastFires(v3, key); }
    Prepend(v3, fires, []);
    es := [fires] + [];
    Prepend(Apply(v2, fires), rejects, es);
    es := [rejects] + es;
    Prepend(v2, fires, es);
    es := [fires] + es;
    Prepend(Apply(v1, fires), rejects, es);
    es := [rejects] + es;
    Prepend(v1, fires, es);
    es := [fires] + es;
    Prepend(v0, Link(true), es);
    es := [Link(true)] + es;
  }

  lemma LastFires(v: View, key: Key)
    requires v.connected && key in v.retryTimers
    ensures var v' := Apply(v, RetryFires(key, [key])); v'.replays == v.replays + 1 && v'.keys == v.keys
  {
    assert [key][1..] == [];
    var v1 := v.(retryTimers := v.retryTimers - {key}, replays := v.replays + 1);
    assert Replayed(Tracked(v1, key), [key][1..]) == Tracked(v1, key);
  }

  /** Two replays per entry in every continuation of a connect(), if and only if no retry timer was running at it. */
  lemma TwoPerEntryIff(v: View)
    requires !v.connected
    ensures (forall es :: IsRun(Connected(v), es) ==> TwoPerEntry(Run(Connected(v), es))) <==> v.retryTimers == {}
  {
    if v.retryTimers == {} {
      forall es | IsRun(Connected(v), es) ensures TwoPerEntry(Run(Connected(v), es)) { ReplaysAreBounded(v, es); }
    } else {
      var key :| key in v.retryTimers;
      var es := LeftoverExceeds(v, key);
      assert !TwoPerEntry(Run(Connected(v), es));
    }
  }

  class AckTracker {
    var connected: bool
    var ackTimers: set<Key>
    var retryTimers: set<Key>
    var attempts: map<Key, nat>
    ghost var keys: set<Key>
    ghost var replays: nat
    ghost var leftover: nat

    ghost function Now(): View
      reads this
    {
      View(connected, ackTimers, retryTimers, attempts, keys, replays, leftover)
    }

    constructor ()
      ensures Now() == View(false, {}, {}, map[], {}, 0, 0)
    {
      connected, ackTimers, retryTimers, attempts := false, {}, {}, map[];
      keys, replays, leftover := {}, 0, 0;
    }

    method ClearAckTracking(key: Key)
      modifies this`ackTimers, this`retryTimers
      ensures ackTimers == old(ackTimers) - {key} && retryTimers == old(retryTimers) - {key}
    {
      ackTimers := ackTimers - {key};
      retryTimers := retryTimers - {key};
    }

    method TrackAck(key: Key)
      modifies this`ackTimers, this`retryTimers
      ensures Now() == Tracked(old(Now()), key)
      ensures connected ==> key in ackTimers && key !in retryTimers
      ensures !connected ==> ackTimers == old(ackTimers) && retryTimers == old(retryTimers)
    {
      if !connected { return; }
      ClearAckTracking(key);
      ackTimers := ackTimers + {key};
      assert old(ackTimers) - {key} + {key} == old(ackTimers) + {key};
    }

    /** Unless a timer runs for it, the entry has one more attempt; the first two set a timer. */
    ghost predicate Counted(key: Key, timersBefore: set<Key>, attemptsBefore: map<Key, nat>)
      reads this`retryTimers, this`attempts
    {
      var count := if key in attemptsBefore then attemptsBefore[key] else 0;
      if key in timersBefore then retryTimers == timersBefore && attempts == attemptsBefore
      else attempts == attemptsBefore[key := count + 1] && retryTimers == timersBefore + if count < 2 then {key} else {}
    }

    method ScheduleOutboxReplay(key: Key)
      modifies this`retryTimers, this`attempts, this`keys
      ensures Now() == Scheduled(old(Now()), key)
      ensures Counted(key, old(retryTimers), old(attempts))
    {
      keys := keys + {key};
      if key in retryTimers { return; }
      var count := (if key in attempts then attempts[key] else 0) + 1;
      attempts := attempts[key := count];
      if count >= SYNC_MAX_RETRIES { return; }
      retryTimers := retryTimers + {key};
    }

    method AckTimeout(key: Key)
      requires key in ackTimers
      modifies this
      ensures Now() == Apply(old(Now()), Event.AckTimeout(key))
      ensures ackTimers == old(ackTimers) - {key} && Counted(key, old(retryTimers), old(attempts))
    {
      ackTimers := ackTimers - {key};
      ScheduleOutboxReplay(key);
    }

    /** A nack, or an ack whose Outbox removal failed. The number need not be one of a pending entry. */
    method Rejected(key: Key)
      modifies this
      ensures Now() == Apply(old(Now()), Event.Rejected(key))
      ensures ackTimers == old(ackTimers) - {key} && Counted(key, old(retryTimers) - {key}, old(attempts))
    {
      ClearAckTracking(key);
      ScheduleOutboxReplay(key);
    }

    method ReplayOutbox(entries: seq<Key>)
      modifies this`ackTimers, this`retryTimers
      ensures Now() == Replayed(old(Now()), entries)
      ensures connected ==> forall k :: k in entries ==> k in ackTimers && k !in retryTimers
      ensures !connected ==> ackTimers == old(ackTimers) && retryTimers == old(retryTimers)
      ensures forall k :: k !in entries ==>
                (k in ackTimers <==> k in old(ackTimers)) && (k in retryTimers <==> k in old(retryTimers))
    {
      assert entries[0..] == entries;
      for i := 0 to |entries|
        invariant Replayed(Now(), entries[i..]) == Replayed(old(Now()), entries)
        invariant Now() == old(Now()).(ackTimers := ackTimers, retryTimers := retryTimers)
        invariant connected ==> forall k :: k in entries[..i] ==> k in ackTimers && k !in retryTimers
        invariant !connected ==> ackTimers == old(ackTimers) && retryTimers == old(retryTimers)
        invariant forall k :: k !in entries ==>
                    (k in ackTimers <==> k in old(ackTimers)) && (k in retryTimers <==> k in old(retryTimers))
      {
        assert entries[i..][0] == entries[i] && entries[i..][1..] == entries[i + 1..];
        TrackAck(entries[i]);
      }
    }

    /** A retry timer fires. */
    method RetryFires(key: Key, entries: seq<Key>)
      requires key in retryTimers
      modifies this
      ensures Now() == Apply(old(Now()), Event.RetryFires(key, entries))
      ensures connected ==> replays == old(replays) + 1 && forall k :: k in entries ==> k in ackTimers && k !in retryTimers
      ensures key !in retryTimers && attempts == old(attempts)
    {
      retryTimers := retryTimers - {key};
      if connected {
        replays := replays + 1;
        ReplayOutbox(entries);
      }
    }

    method Connect()
      modifies this
      ensures Now() == Connected(old(Now()))
      ensures retryTimers == old(retryTimers) && ackTimers == old(ackTimers)
      ensures attempts == if connected then old(attempts) else map[]
    {
      if !connected {
        attempts := map[];
        keys, replays, leftover := {}, 0, |retryTimers|;
      }
    }

    method SetConnected(up: bool)
      modifies this`connected
      ensures Now() == Apply(old(Now()), Link(up))
    {
      connected := up;
    }
  }

  /** The same on the provider: any retry timer running at connect() can make three replays of one entry. */
  method ThreeReplaysForOneEntry(tracker: AckTracker, key: Key)
    requires !tracker.connected && key in tracker.retryTimers
    modifies tracker
    ensures tracker.keys == {key} && tracker.replays == 3
  {
    tracker.Connect();
    tracker.SetConnected(true);
    var fired := 0;
    while fired < 2
      invariant fired <= 2 && tracker.connected && key in tracker.retryTimers && tracker.replays == fired
      invariant tracker.keys == (if fired == 0 then {} else {key})
      invariant AttemptsOf(tracker.attempts, key) == fired
    {
      FiresAndRejects(tracker.Now(), key);
      tracker.RetryFires(key, [key]);
      tracker.Rejected(key);
      fired := fired + 1;
    }
    LastFires(tracker.Now(), key);
    tracker.RetryFires(key, [key]);
  }
}
