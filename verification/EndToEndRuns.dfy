/**
 The whole runs of the end-to-end machine: what every run keeps, what orderly runs keep of an entry, and that the
 storage moves only by moves of the persistence machine.
 */
module EndToEndRuns {
  import opened Base
  import opened EndToEnd
  import opened StorageSafety
  import S = Storage
  import C = Compaction
  import R = ResultOwnership

  ghost predicate SystemInv(s: State, k: Key) {
    TrackInv(s) && BaseInv(s) && OwnInv(s) && LinkInv(s) && KeyInv(s, k)
  }

  /** Starts are settled and only frames of entries leave markers. */
  ghost predicate Orderly(s: State, e: Event) {
    SettledStart(s, e) && NoStray(e)
  }

  /** Each event keeps it all: trackers with their handlers, own results, markers with their entries, and the entry. */
  lemma StepKeeps(s: State, e: Event, k: Key)
    requires SystemInv(s, k) && Enabled(s, e) && Orderly(s, e) && SoundReceipt(s, e, k)
    ensures SystemInv(Apply(s, e), k)
  {
    hide TrackInv, BaseInv, OwnInv, LinkInv, KeyInv;
    StepTracks(s, e);
    StepKeepsBase(s, e);
    StepOwns(s, e);
    StepLinks(s, e);
    StepHolds(s, e, k);
  }

  ghost predicate IsRun(s: State, es: seq<Event>)
    decreases |es|
  {
    es == [] || (Enabled(s, es[0]) && IsRun(Apply(s, es[0]), es[1..]))
  }

  ghost function Run(s: State, es: seq<Event>): State
    requires IsRun(s, es)
    decreases |es|
  {
    if es == [] then s else Run(Apply(s, es[0]), es[1..])
  }

  ghost predicate SettledRun(s: State, es: seq<Event>)
    requires IsRun(s, es)
    decreases |es|
  {
    es == [] || (SettledStart(s, es[0]) && SettledRun(Apply(s, es[0]), es[1..]))
  }

  ghost predicate OrderlyRun(s: State, es: seq<Event>)
    requires IsRun(s, es)
    decreases |es|
  {
    es == [] || (Orderly(s, es[0]) && OrderlyRun(Apply(s, es[0]), es[1..]))
  }

  ghost predicate SoundReceipts(s: State, es: seq<Event>, k: Key)
    requires IsRun(s, es)
    decreases |es|
  {
    es == [] || (SoundReceipt(s, es[0], k) && SoundReceipts(Apply(s, es[0]), es[1..], k))
  }

  ghost predicate CleanReceipts(s: State, es: seq<Event>, k: Key)
    requires IsRun(s, es)
    decreases |es|
  {
    es == [] || (CleanReceipt(s, es[0], k) && CleanReceipts(Apply(s, es[0]), es[1..], k))
  }

  /** In every run, whatever happens. */
  lemma {:induction false} RunTracks(s: State, es: seq<Event>)
    requires TrackInv(s) && BaseInv(s) && IsRun(s, es)
    ensures TrackInv(Run(s, es)) && BaseInv(Run(s, es))
    decreases |es|
  {
    hide TrackInv, BaseInv;
    if es == [] {
    } else {
      StepTracks(s, es[0]);
      StepKeepsBase(s, es[0]);
      RunTracks(Apply(s, es[0]), es[1..]);
    }
  }

  lemma {:induction false} RunOwns(s: State, es: seq<Event>)
    requires TrackInv(s) && OwnInv(s) && IsRun(s, es) && SettledRun(s, es)
    ensures TrackInv(Run(s, es)) && OwnInv(Run(s, es))
    decreases |es|
  {
    hide TrackInv, OwnInv;
    if es == [] {
    } else {
      StepTracks(s, es[0]);
      StepOwns(s, es[0]);
      RunOwns(Apply(s, es[0]), es[1..]);
    }
  }

  lemma {:induction false} RunLinks(s: State, es: seq<Event>)
    requires LinkInv(s) && IsRun(s, es) && forall e :: e in es ==> NoStray(e)
    ensures LinkInv(Run(s, es))
    decreases |es|
  {
    hide LinkInv;
    if es == [] {
    } else {
      assert es[0] in es && forall e :: e in es[1..] ==> e in es;
      StepLinks(s, es[0]);
      RunLinks(Apply(s, es[0]), es[1..]);
    }
  }

  lemma {:induction false} RunKeeps(s: State, es: seq<Event>, k: Key)
    requires SystemInv(s, k) && IsRun(s, es) && OrderlyRun(s, es) && SoundReceipts(s, es, k)
    ensures SystemInv(Run(s, es), k)
    decreases |es|
  {
    hide SystemInv;
    if es == [] {
    } else {
      StepKeeps(s, es[0], k);
      RunKeeps(Apply(s, es[0]), es[1..], k);
    }
  }

  lemma {:induction false} CleanRunIsSound(s: State, es: seq<Event>, k: Key)
    requires TrackInv(s) && BaseInv(s) && IsRun(s, es) && CleanReceipts(s, es, k)
    ensures SoundReceipts(s, es, k)
    decreases |es|
  {
    hide TrackInv, BaseInv;
    if es == [] {
    } else {
      CleanIsSound(s, es[0], k);
      StepTracks(s, es[0]);
      StepKeepsBase(s, es[0]);
      CleanRunIsSound(Apply(s, es[0]), es[1..], k);
    }
  }

  /** In settled runs a handler that gets a positive result gets it from its own persistence, which ended well. */
  lemma AnswersAreOwn(s0: State, es: seq<Event>, conn: Conn)
    requires Init(s0) && IsRun(s0, es) && SettledRun(s0, es)
    requires var s := Run(s0, es); conn in s.handlers && Ready(s, s.handlers[conn]) && Result(s, s.handlers[conn])
    ensures var s := Run(s0, es);
            var m := s.handlers[conn].msg;
            && m in s.tasks && s.tasks[m].stage == Done(true)
            && (m in s.own.resolved && s.own.resolved[m].By? ==> s.own.resolved[m] == R.By(m))
  {
    RunOwns(s0, es);
  }

  /** The storage moves an event makes, in order. */
  ghost function StorageEvents(s: State, e: Event): seq<S.Event>
    requires Enabled(s, e)
  {
    match e
    case TryAppend(m, how) =>
      var entry := S.Event.Append(Some(s.tasks[m].persisting));
      var direct := S.StartDirect(s.tasks[m].persisting);
      (match how
       case Appended => [entry]
       case AppendedUnreported => [entry, direct]
       case AppendFailed => [direct]
       case NoFileInfo => [])
    case StorageStep(e) => [e]
    case _ => []
  }

  /** The whole system moves its storage only by moves of the storage machine. */
  lemma StorageIsSimulated(s: State, e: Event)
    requires Enabled(s, e)
    ensures S.IsRun(s.st, StorageEvents(s, e)) && S.Run(s.st, StorageEvents(s, e)) == Apply(s, e).st
  {
    if e.TryAppend? {
      AppendIsSimulated(s, e.m, e.how);
    } else if e.StorageStep? {
      assert [e.e][1..] == [];
    } else {
      OthersLeaveStorage(s, e);
    }
  }

  lemma AppendIsSimulated(s: State, m: Msg, how: Append)
    requires Enabled(s, TryAppend(m, how))
    ensures var es := StorageEvents(s, TryAppend(m, how));
            S.IsRun(s.st, es) && S.Run(s.st, es) == TriedAppend(s, m, how).st
  {
    var es := StorageEvents(s, TryAppend(m, how));
    if |es| == 2 {
      TwoMoves(s.st, es[0], es[1]);
    } else if |es| == 1 {
      assert es[1..] == [];
    }
  }

  lemma OthersLeaveStorage(s: State, e: Event)
    requires Enabled(s, e) && !e.TryAppend? && !e.StorageStep?
    ensures Apply(s, e).st == s.st
  {
    if Outside(e) { OutsideStays(s, e); }
  }

  lemma TwoMoves(st: S.State, a: S.Event, b: S.Event)
    requires S.Enabled(st, a) && S.Enabled(S.Apply(st, a), b)
    ensures S.IsRun(st, [a, b]) && S.Run(st, [a, b]) == S.Apply(S.Apply(st, a), b)
  {
    var st1 := S.Apply(st, a);
    var es := [a, b];
    assert es[1..] == [b] && es[1..][1..] == [];
    assert S.IsRun(st1, es[1..]);
    assert S.Run(st1, es[1..]) == S.Run(S.Apply(st1, b), es[1..][1..]) == S.Apply(st1, b);
  }

  ghost predicate CoveredStep(s: State, e: Event)
    requires Enabled(s, e)
  {
    e.StorageStep? ==> C.Covered(s.st, e.e)
  }

  /** No compaction of the run loses anything. */
  ghost predicate CoveredClears(s: State, es: seq<Event>)
    requires IsRun(s, es)
    decreases |es|
  {
    es == [] || (CoveredStep(s, es[0]) && CoveredClears(Apply(s, es[0]), es[1..]))
  }

  lemma StepCoveredIff(s: State, e: Event)
    requires C.FlushInv(s.st) && Enabled(s, e)
    ensures C.FlushInv(Apply(s, e).st) && s.st.lost <= Apply(s, e).st.lost
    ensures Apply(s, e).st.lost == s.st.lost <==> CoveredStep(s, e)
  {
    hide C.FlushInv, C.Covered;
    StorageIsSimulated(s, e);
    C.RunFlushInv(s.st, StorageEvents(s, e));
    if e.StorageStep? {
      C.StepLosesNothingIff(s.st, e.e);
    } else if e.TryAppend? {
      AppendLosesNothing(s, e.m, e.how);
    } else {
      OthersLeaveStorage(s, e);
    }
  }

  lemma AppendLosesNothing(s: State, m: Msg, how: Append)
    requires m in s.tasks
    ensures TriedAppend(s, m, how).st.lost == s.st.lost
  {
  }

  lemma {:induction false} RunCoveredIff(s: State, es: seq<Event>)
    requires C.FlushInv(s.st) && IsRun(s, es)
    ensures s.st.lost <= Run(s, es).st.lost
    ensures Run(s, es).st.lost == s.st.lost <==> CoveredClears(s, es)
    decreases |es|
  {
    if es == [] {
    } else {
      StepCoveredIff(s, es[0]);
      RunCoveredIff(Apply(s, es[0]), es[1..]);
    }
  }

  lemma InitInvariant(s0: State, k: Key)
    requires Init(s0)
    ensures SystemInv(s0, k) && C.FlushInv(s0.st)
  {
    InitInv(s0.st);
  }

  /**
   An entry committed to the Outbox is, after any orderly run that received it cleanly, still there unchanged, or
   all of it is durable; and an acknowledgement on its way is for a durable entry. How other entries were received
   does not matter.
   */
  lemma NoUpdateIsLost(s0: State, es: seq<Event>, k: Key)
    requires Init(s0) && IsRun(s0, es) && OrderlyRun(s0, es) && CleanReceipts(s0, es, k)
    ensures var s := Run(s0, es);
            && (k in s.ever ==> (k in s.box && s.box[k] == s.ever[k]) || s.ever[k] <= Durable(s.st))
            && (k in s.acks ==> k in s.ever && s.ever[k] <= Durable(s.st))
            && (k in s.box ==> k in s.ever && s.box[k] == s.ever[k])
  {
    InitInvariant(s0, k);
    CleanRunIsSound(s0, es, k);
    RunKeeps(s0, es, k);
  }

  /**
   Durable is: in an entry the workers have yet to acknowledge, or in the rows, if and only if every compaction
   was covered.
   */
  lemma NoUpdateIsLostInCoveredRuns(s0: State, es: seq<Event>, k: Key)
    requires Init(s0) && IsRun(s0, es) && OrderlyRun(s0, es) && CleanReceipts(s0, es, k)
    ensures CoveredClears(s0, es) <==> Run(s0, es).st.lost == {}
    ensures CoveredClears(s0, es) ==>
            var s := Run(s0, es);
            k in s.ever ==> (k in s.box && s.box[k] == s.ever[k]) || s.ever[k] <= S.Doc(s.st.rows) + Unacked(s.st)
  {
    InitInvariant(s0, k);
    NoUpdateIsLost(s0, es, k);
    RunTracks(s0, es);
    RunCoveredIff(s0, es);
  }

  lemma AppendAddsExactly(st: S.State, upd: Update)
    requires Inv(st)
    ensures Durable(S.Apply(st, S.Event.Append(Some(upd)))) == Durable(st) + upd
  {
    var st' := S.Apply(st, S.Event.Append(Some(upd)));
    DurableGrows(st, S.Event.Append(Some(upd)));
    AppendIsDurable(st, upd);
    forall o | o in Unacked(st') ensures o in Durable(st) + upd {
      var i :| 0 <= i < |st'.stream| && i !in st'.acked && o in Payload(st'.stream[i]);
      assert i < |st.stream| ==> st'.stream[i] == st.stream[i];
    }
  }

  /** Exactly when a received update is durable once appended: when what its listener did not see is. */
  lemma ReceivedIsDurableIff(s: State, key: Option<Key>, payload: Update, conn: Conn, delta: Update, marks: bool)
    requires Inv(s.st) && CanStart(s, conn) && IsDelta(s, payload, delta)
    ensures var s1 := Receiving(s, key, payload, conn, true, delta, marks);
            var s2 := Apply(s1, TryAppend(s.own.next, Appended));
            && s2.tasks[s.own.next].stage == Done(true)
            && (payload <= Durable(s2.st) <==> delta == {} || payload - delta <= Durable(s.st))
  {
    AppendAddsExactly(s.st, if delta != {} then delta else payload);
  }
}
