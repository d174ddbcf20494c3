/**
 What a run loses when one of the conditions fails: exactly when a receipt can lose its entry, and runs from the
 empty system for each condition.
 */
module EndToEndLosses {
  import opened Base
  import opened EndToEnd
  import opened EndToEndRuns
  import opened StorageSafety
  import S = Storage
  import R = ResultOwnership
  import T = UpdateTracking

  /** The entry has left the Outbox, the server has forgotten it, and part of it is not durable. */
  ghost predicate Lost(s: State, k: Key) {
    k in s.ever && k !in s.box && s.mem.None? && s.tasks == map[] && !(s.ever[k] <= Durable(s.st))
  }

  /** An orderly run that receives the entry cleanly, and soundly, if at all. */
  ghost predicate Continues(s: State, es: seq<Event>, k: Key)
    decreases |es|
  {
    es == [] || (Enabled(s, es[0]) && Orderly(s, es[0]) && CleanReceipt(s, es[0], k) && SoundReceipt(s, es[0], k)
                 && Continues(Apply(s, es[0]), es[1..], k))
  }

  /** Where it ends. */
  ghost function End(s: State, es: seq<Event>, k: Key): State
    requires Continues(s, es, k)
    decreases |es|
  {
    if es == [] then s else End(Apply(s, es[0]), es[1..], k)
  }

  lemma {:induction false} ContinuesIsRun(s: State, es: seq<Event>, k: Key)
    requires Continues(s, es, k)
    ensures IsRun(s, es) && OrderlyRun(s, es) && CleanReceipts(s, es, k) && SoundReceipts(s, es, k)
    ensures Run(s, es) == End(s, es, k)
    decreases |es|
  {
    if es == [] {
    } else {
      ContinuesIsRun(Apply(s, es[0]), es[1..], k);
    }
  }

  /** An event that receives nothing is added at the front. */
  lemma Prepend(s: State, e: Event, es: seq<Event>, k: Key)
    requires Enabled(s, e) && !e.Receive? && !e.ReceiveOther? && Continues(Apply(s, e), es, k)
    ensures Continues(s, [e] + es, k) && End(s, [e] + es, k) == End(Apply(s, e), es, k)
  {
    assert ([e] + es)[1..] == es;
  }

  /** Message `m` waits on `conn` with an observed tracker for entry `k`, whose request comes next. */
  ghost predicate Waiting(s: State, conn: Conn, m: Msg, k: Key) {
    && TrackInv(s) && LinkInv(s)
    && conn in s.handlers && s.handlers[conn] == Handler(m, true, true, Some(k), s.root)
    && conn in s.own.slots && s.own.slots[conn] == [R.Slot(m, T.View(DOC, true))]
    && conn in s.links && (s.root ==> s.links[conn].wire != [] && s.links[conn].wire[0] == RequestOf(k))
  }

  ghost predicate CanComplete(s: State, flight: R.Flight, conn: Conn) {
    && flight in s.own.flights && flight.conn == conn && flight.doc == DOC
    && flight.msg in s.tasks && s.tasks[flight.msg].stage == Done(true)
  }

  /** Everything of a state but trackers, handlers, answers, links and acks. */
  ghost predicate SameData(s: State, s': State) {
    && s'.root == s.root && s'.ever == s.ever && s'.box == s.box && s'.mem == s.mem
    && s'.tasks == s.tasks && s'.st == s.st
  }

  /** A completion with true answers the waiting message, whoever's it is. */
  lemma Completes(s: State, flight: R.Flight, conn: Conn, m: Msg, k: Key)
    requires Waiting(s, conn, m, k) && CanComplete(s, flight, conn)
    ensures var s' := Apply(s, Finish(flight));
            && SameData(s, s') && s'.links == s.links && s'.handlers == s.handlers && s'.acks == s.acks
            && m in s'.answers && s'.answers[m] && R.SlotsOf(s'.own, conn) == []
  {
    R.FinishEffect(s.own, flight);
  }

  /** Its reply acknowledges the entry, or marks it good. */
  lemma Replies(s: State, conn: Conn, m: Msg, k: Key)
    requires LinkInv(s) && conn in s.handlers && s.handlers[conn] == Handler(m, true, true, Some(k), s.root)
    requires m in s.answers && s.answers[m] && conn in s.links
    ensures Enabled(s, Reply(conn))
    ensures var s' := Apply(s, Reply(conn));
            && SameData(s, s') && s'.own == s.own && conn !in s'.handlers
            && if s.root then s'.links == s.links[conn := Marked(s.links[conn], true)] else k in s'.acks
  {
  }

  /** And then the request for it is acknowledged. */
  lemma Asks(s: State, conn: Conn, k: Key)
    requires s.root && LinkInv(s) && conn !in s.handlers && conn in s.links && R.SlotsOf(s.own, conn) == []
    requires var l := s.links[conn];
             && l.wire != [] && l.wire[0] == RequestOf(k) && l.marks != [] && l.marks[|l.marks| - 1]
             && |l.marks| == |l.reqs| + 1
    ensures Enabled(s, Ask(conn))
    ensures var s' := Apply(s, Ask(conn)); SameData(s, s') && k in s'.acks
  {
  }

  /** The entry has left the Outbox, and the server has forgotten everything. */
  ghost predicate Forgotten(s: State, s': State, k: Key) {
    k !in s'.acks && (s'.ever, s'.box, s'.mem, s'.tasks, s'.st) == (s.ever, s.box - {k}, None, map[], s.st)
  }

  /** A completion of the waiting message, its answer, the deletion, and a crash of the server. */
  lemma Farewell(s: State, flight: R.Flight, conn: Conn, m: Msg, k: Key) returns (es: seq<Event>)
    requires Waiting(s, conn, m, k) && CanComplete(s, flight, conn)
    ensures Continues(s, es, k) && Forgotten(s, End(s, es, k), k)
  {
    Completes(s, flight, conn, m, k);
    var s1 := Apply(s, Finish(flight));
    StepLinks(s, Finish(flight));
    Replies(s1, conn, m, k);
    var s2 := Apply(s1, Reply(conn));
    es := AckedGoes(s1, s2, conn, k);
    Prepend(s1, Reply(conn), es, k);
    es := [Reply(conn)] + es;
    Prepend(s, Finish(flight), es, k);
    es := [Finish(flight)] + es;
  }

  lemma AckedGoes(s1: State, s2: State, conn: Conn, k: Key) returns (es: seq<Event>)
    requires LinkInv(s1) && Enabled(s1, Reply(conn)) && s2 == Apply(s1, Reply(conn)) && conn in s1.links
    requires s1.handlers[conn].key == Some(k) && s1.handlers[conn].marks == s1.root && conn !in s2.handlers
    requires R.SlotsOf(s2.own, conn) == [] && s2.root == s1.root
    requires if s1.root then s2.links == s1.links[conn := Marked(s1.links[conn], true)] else k in s2.acks
    requires s1.root ==> s1.links[conn].wire != [] && s1.links[conn].wire[0] == RequestOf(k)
    ensures Continues(s2, es, k) && Forgotten(s2, End(s2, es, k), k)
  {
    if s1.root {
      var l := s1.links[conn];
      assert LinkOk(l, Busy(s1, conn)) && WireAt(l, 0);
      StepLinks(s1, Reply(conn));
      Asks(s2, conn, k);
      var s3 := Apply(s2, Ask(conn));
      es := Goes(s3, k);
      Prepend(s2, Ask(conn), es, k);
      es := [Ask(conn)] + es;
    } else {
      es := Goes(s2, k);
    }
  }

  lemma Goes(s: State, k: Key) returns (es: seq<Event>)
    requires k in s.acks
    ensures Continues(s, es, k) && Forgotten(s, End(s, es, k), k)
  {
    var s1 := Apply(s, ReceiveAck(k, true));
    var s2 := Apply(s1, ServerCrash);
    Prepend(s1, ServerCrash, [], k);
    Prepend(s, ReceiveAck(k, true), [ServerCrash] + [], k);
    es := [ReceiveAck(k, true)] + ([ServerCrash] + []);
  }

  /** The next frame on `conn` is of entry `k`, and its request was sent, too. */
  ghost predicate Comes(s: State, conn: Conn, k: Key) {
    && HeadIsFrame(s, conn) && s.links[conn].wire[0].key == k
    && (s.root ==> |s.links[conn].wire| >= 2)
  }

  /** After a receipt that changes the document, its handler waits. */
  lemma ReceivedWaits(s: State, conn: Conn, delta: Update, k: Key)
    requires TrackInv(s) && LinkInv(s) && Comes(s, conn, k) && delta != {} && Enabled(s, Receive(conn, true, delta))
    ensures var s' := Apply(s, Receive(conn, true, delta));
            && Waiting(s', conn, s.own.next, k) && R.Flight(s.own.next, conn, DOC) in s'.own.flights
            && s.own.next in s'.tasks && s'.tasks[s.own.next].stage.Appending?
            && s'.tasks[s.own.next].persisting == delta
            && s'.ever == s.ever && s'.box == s.box && s'.st == s.st
  {
    var e := Receive(conn, true, delta);
    StepTracks(s, e);
    StepLinks(s, e);
    R.StartEffect(s.own, StartOf(conn, true, delta));
    if s.root {
      assert LinkOk(s.links[conn], Busy(s, conn)) && WireAt(s.links[conn], 1);
    }
  }

  /** Its own persistence ends well, and still the entry is lost if what the listener did not see is not durable. */
  lemma UnsoundReceiptLoses(s: State, conn: Conn, delta: Update, k: Key) returns (es: seq<Event>)
    requires TrackInv(s) && LinkInv(s) && Inv(s.st) && Comes(s, conn, k) && Enabled(s, Receive(conn, true, delta))
    requires k in s.ever && s.links[conn].wire[0].upd == s.ever[k] && !SoundReceipt(s, Receive(conn, true, delta), k)
    ensures var s' := Apply(s, Receive(conn, true, delta));
            Continues(s', es, k) && Lost(End(s', es, k), k)
  {
    var m, s1 := s.own.next, Apply(s, Receive(conn, true, delta));
    ReceivedWaits(s, conn, delta, k);
    var append := TryAppend(m, Appended);
    var s2 := Apply(s1, append);
    StepTracks(s1, append);
    StepLinks(s1, append);
    AppendAddsExactly(s.st, delta);
    es := Farewell(s2, R.Flight(m, conn, DOC), conn, m, k);
    Prepend(s1, append, es, k);
    es := [append] + es;
  }

  /** An orderly continuation that receives the entry soundly, if again, and still loses it. */
  ghost predicate Loses(s: State, es: seq<Event>, k: Key) {
    IsRun(s, es) && OrderlyRun(s, es) && SoundReceipts(s, es, k) && Lost(Run(s, es), k)
  }

  lemma SoundNeverLoses(s: State, es: seq<Event>, k: Key)
    requires SystemInv(s, k)
    ensures !Loses(s, es, k)
  {
    if Loses(s, es, k) { RunKeeps(s, es, k); }
  }

  /** Exactly when a receipt may lose its entry: when something of it that its listener does not see is not durable. */
  lemma ReceiptIsSafeIff(s: State, conn: Conn, delta: Update, k: Key)
    requires SystemInv(s, k) && Comes(s, conn, k)
    requires Enabled(s, Receive(conn, true, delta)) && Orderly(s, Receive(conn, true, delta))
    ensures (forall es :: !Loses(Apply(s, Receive(conn, true, delta)), es, k))
            <==> SoundReceipt(s, Receive(conn, true, delta), k)
  {
    var e := Receive(conn, true, delta);
    if SoundReceipt(s, e, k) {
      StepKeeps(s, e, k);
      forall es ensures !Loses(Apply(s, e), es, k) { SoundNeverLoses(Apply(s, e), es, k); }
    } else {
      FrameTaken(s, conn, k);
      var es := UnsoundReceiptLoses(s, conn, delta, k);
      ContinuesIsRun(Apply(s, e), es, k);
      assert Loses(Apply(s, e), es, k);
    }
  }

  // Runs from the empty system.

  ghost function NoRows(): S.State {
    S.State([], 0, {}, map[], 0, {}, None, map[], 0, map[], {}, {}, {})
  }

  ghost function Start(): State {
    State(true, map[], map[], map[], {}, None, map[], map[], map[], R.State(map[], {}, map[], 0), NoRows())
  }

  ghost function Fresh(wire: seq<Wire>): Link {
    Link(true, wire, [], [], [])
  }

  lemma StartIsInit()
    ensures Init(Start()) && Apply(Start(), Load(0)) == Start().(mem := Some({}))
  {
    assert S.Doc(S.Below(NoRows().rows, 0)) == {};
  }

  lemma OnlyLogged(upd: Update)
    ensures Durable(S.Apply(NoRows(), S.Event.Append(Some(upd)))) <= upd
  {
    assert S.Apply(NoRows(), S.Event.Append(Some(upd))).stream == [Some(upd)];
  }

  /** Which conditions a run meets, of clean receipts those of entry 0. */
  datatype Rules = Rules(settled: bool, strayless: bool, clean: bool)

  const ORDERLY := Rules(true, true, false)

  ghost predicate Obeys(s: State, e: Event, rules: Rules) {
    && (rules.settled ==> SettledStart(s, e))
    && (rules.strayless ==> NoStray(e))
    && (rules.clean ==> CleanReceipt(s, e, 0))
  }

  /** A run from the start to `s`. */
  ghost predicate Leads(es: seq<Event>, s: State, rules: Rules)
    decreases |es|
  {
    || (es == [] && s == Start())
    || (es != [] &&
        var front, e := es[..|es| - 1], es[|es| - 1];
        exists s0 :: Leads(front, s0, rules) && Enabled(s0, e) && Obeys(s0, e, rules) && Apply(s0, e) == s)
  }

  lemma Then(es: seq<Event>, s: State, e: Event, s': State, rules: Rules) returns (es': seq<Event>)
    requires Leads(es, s, rules) && Enabled(s, e) && Obeys(s, e, rules) && Apply(s, e) == s'
    ensures Leads(es', s', rules)
  {
    es' := es + [e];
    var front, last := es'[..|es'| - 1], es'[|es'| - 1];
    assert front == es && last == e;
    assert Leads(front, s, rules) && Enabled(s, last) && Obeys(s, last, rules) && Apply(s, last) == s';
  }

  lemma {:induction false} ThenAll(es: seq<Event>, s: State, rules: Rules, fs: seq<Event>) returns (es': seq<Event>)
    requires Leads(es, s, rules) && Continues(s, fs, 0)
    ensures Leads(es', End(s, fs, 0), rules)
    decreases |fs|
  {
    if fs == [] {
      es' := es;
    } else {
      es' := Then(es, s, fs[0], Apply(s, fs[0]), rules);
      es' := ThenAll(es', Apply(s, fs[0]), rules, fs[1..]);
    }
  }

  ghost predicate Strayless(es: seq<Event>) {
    forall e :: e in es ==> NoStray(e)
  }

  ghost predicate ObeyingRun(s: State, es: seq<Event>, rules: Rules)
    requires IsRun(s, es)
    decreases |es|
  {
    es == [] || (Obeys(s, es[0], rules) && ObeyingRun(Apply(s, es[0]), es[1..], rules))
  }

  lemma {:induction false} ObeyingMeets(s: State, es: seq<Event>, rules: Rules)
    requires IsRun(s, es) && ObeyingRun(s, es, rules)
    ensures rules.settled ==> SettledRun(s, es)
    ensures rules.strayless ==> Strayless(es)
    ensures rules.settled && rules.strayless ==> OrderlyRun(s, es)
    ensures rules.clean ==> CleanReceipts(s, es, 0)
    decreases |es|
  {
    hide Apply, Enabled, SettledStart, CleanReceipt;
    if es == [] {
    } else {
      ObeyingMeets(Apply(s, es[0]), es[1..], rules);
      assert forall e :: e in es ==> e == es[0] || e in es[1..];
    }
  }

  /** An event is added at the end. */
  lemma {:induction false} Append(s: State, es: seq<Event>, e: Event, rules: Rules)
    requires IsRun(s, es) && ObeyingRun(s, es, rules) && Enabled(Run(s, es), e) && Obeys(Run(s, es), e, rules)
    ensures IsRun(s, es + [e]) && Run(s, es + [e]) == Apply(Run(s, es), e) && ObeyingRun(s, es + [e], rules)
    decreases |es|
  {
    hide Apply, Enabled, Obeys;
    if es == [] {
      assert [] + [e] == [e] && [e][1..] == [];
    } else {
      assert (es + [e])[0] == es[0] && (es + [e])[1..] == es[1..] + [e];
      Append(Apply(s, es[0]), es[1..], e, rules);
    }
  }

  lemma {:induction false} LeadsRuns(es: seq<Event>, s: State, rules: Rules)
    requires Leads(es, s, rules)
    ensures IsRun(Start(), es) && Run(Start(), es) == s && ObeyingRun(Start(), es, rules)
    decreases |es|
  {
    if es == [] {
    } else {
      var front, e := es[..|es| - 1], es[|es| - 1];
      var s0 :| Leads(front, s0, rules) && Enabled(s0, e) && Obeys(s0, e, rules) && Apply(s0, e) == s;
      hide Leads, Apply, Enabled, Obeys;
      LeadsRuns(front, s0, rules);
      Append(Start(), front, e, rules);
      assert front + [e] == es;
    }
  }

  /** What holds wherever a run without stray markers leads. */
  lemma LeadsKeeps(es: seq<Event>, s: State, rules: Rules)
    requires Leads(es, s, rules) && rules.strayless
    ensures TrackInv(s) && BaseInv(s) && LinkInv(s)
  {
    StartIsInit();
    InitInvariant(Start(), 0);
    LeadsRuns(es, s, rules);
    ObeyingMeets(Start(), es, rules);
    RunTracks(Start(), es);
    RunLinks(Start(), es);
  }

  /** From the start to a receipt that is not sound, and on to the loss. */
  lemma LosesFromStart(es: seq<Event>, s: State, conn: Conn, delta: Update) returns (fs: seq<Event>)
    requires Leads(es, s, ORDERLY) && Comes(s, conn, 0) && 0 in s.ever && s.links[conn].wire[0].upd == s.ever[0]
    requires Enabled(s, Receive(conn, true, delta)) && Orderly(s, Receive(conn, true, delta))
    requires !SoundReceipt(s, Receive(conn, true, delta), 0)
    ensures IsRun(Start(), fs) && OrderlyRun(Start(), fs) && Lost(Run(Start(), fs), 0)
  {
    var s1 := Apply(s, Receive(conn, true, delta));
    LeadsKeeps(es, s, ORDERLY);
    var rest := UnsoundReceiptLoses(s, conn, delta, 0);
    fs := Then(es, s, Receive(conn, true, delta), s1, ORDERLY);
    fs := ThenAll(fs, s1, ORDERLY, rest);
    LeadsRuns(fs, End(s1, rest, 0), ORDERLY);
    ObeyingMeets(Start(), fs, ORDERLY);
  }

  /** An entry is sent on `conn`. */
  ghost function WithEntry(s: State, upd: Update, conn: Conn, l: Link): State {
    s.(ever := map[0 := upd], box := map[0 := upd],
       links := map[conn := l.(wire := [FrameOf(0, upd), RequestOf(0)])])
  }

  lemma EntryIsSentOn(es: seq<Event>, s: State, upd: Update, conn: Conn, l: Link, rules: Rules)
    returns (es': seq<Event>)
    requires Leads(es, s, rules) && s.root && s.ever == map[] && s.box == map[] && s.links == map[conn := l]
    requires l.open && l.wire == []
    ensures Leads(es', WithEntry(s, upd, conn, l), rules)
  {
    hide Leads;
    var s1 := s.(ever := map[0 := upd], box := map[0 := upd]);
    es' := Then(es, s, Commit(0, upd), s1, rules);
    assert Sent(l, 0, upd, true) == l.(wire := [FrameOf(0, upd), RequestOf(0)]);
    es' := Then(es', s1, Send(0, conn), WithEntry(s, upd, conn, l), rules);
  }

  /** The server's document is empty, and a connection is open. */
  ghost function Connected(conn: Conn): State {
    Start().(mem := Some({}), links := map[conn := Fresh([])])
  }

  lemma ConnectedIsReached(conn: Conn, rules: Rules) returns (es: seq<Event>)
    ensures Leads(es, Connected(conn), rules)
  {
    StartIsInit();
    es := [];
    assert Leads(es, Start(), rules);
    hide Leads;
    var s1 := Start().(mem := Some({}));
    es := Then(es, Start(), Load(0), s1, rules);
    es := Then(es, s1, Connect(conn), Connected(conn), rules);
  }

  /** An entry with {1, 2} is on its way. */
  ghost function EntryComes(conn: Conn): State {
    WithEntry(Connected(conn), {1, 2}, conn, Fresh([]))
  }

  lemma EntryIsSent(conn: Conn) returns (es: seq<Event>)
    ensures Leads(es, EntryComes(conn), ORDERLY)
  {
    es := ConnectedIsReached(conn, ORDERLY);
    es := EntryIsSentOn(es, Connected(conn), {1, 2}, conn, Fresh([]), ORDERLY);
  }

  /** Another client's {1} came meanwhile on connection 0 and could not be persisted. */
  ghost function Unpersisting(): State {
    EntryComes(1).(mem := Some({1}), tasks := map[0 := Task(None, {1}, {1}, Done(false))],
                   handlers := map[0 := Handler(0, false, true, None, false)],
                   own := R.State(map[], {R.Flight(0, 0, DOC)}, map[0 := R.Cancelled], 1))
  }

  /** A message that is no waiting update: its tracker is cancelled, and its change is persisted. */
  lemma OtherArrives(s: State, conn: Conn, upd: Update)
    requires s.mem == Some({}) && s.tasks == map[] && s.handlers == map[] && s.own == Start().own && upd != {}
    ensures var e := ReceiveOther(upd, conn, false, upd, false);
            && Enabled(s, e) && Orderly(s, e)
            && Apply(s, e) == s.(mem := Some(upd), tasks := map[0 := Task(None, upd, upd, Appending)],
                                 handlers := map[conn := Handler(0, false, true, None, false)],
                                 own := R.State(map[], {R.Flight(0, conn, DOC)}, map[0 := R.Cancelled], 1))
  {
    hide Receiving;
    ReceivingFields(s, None, upd, conn, false, upd, false);
    R.StartEffect(s.own, R.Start(conn, DOC, true, false));
    assert {} + upd == upd && {} + {R.Flight(0, conn, DOC)} == {R.Flight(0, conn, DOC)};
  }

  ghost function Persisting(): State {
    Unpersisting().(tasks := map[0 := Task(None, {1}, {1}, Appending)])
  }

  lemma OtherFails()
    ensures Enabled(Persisting(), TryAppend(0, NoFileInfo))
    ensures Apply(Persisting(), TryAppend(0, NoFileInfo)) == Unpersisting()
  {
  }

  lemma UnpersistingIsReached() returns (es: seq<Event>)
    ensures Leads(es, Unpersisting(), ORDERLY)
  {
    es := EntryIsSent(1);
    hide Leads, Receiving, TriedAppend;
    OtherArrives(EntryComes(1), 0, {1});
    es := Then(es, EntryComes(1), ReceiveOther({1}, 0, false, {1}, false), Persisting(), ORDERLY);
    OtherFails();
    es := Then(es, Persisting(), TryAppend(0, NoFileInfo), Unpersisting(), ORDERLY);
  }

  /**
   The condition on known operations is needed: an operation reached the server's document from elsewhere and its
   persistence failed; an entry holding it and a new one is persisted as the new one alone, acknowledged and deleted.
   */
  lemma PartlyKnownUpdateIsLost() returns (es: seq<Event>)
    ensures Init(Start()) && IsRun(Start(), es) && OrderlyRun(Start(), es) && Lost(Run(Start(), es), 0)
  {
    StartIsInit();
    es := UnpersistingIsReached();
    assert Durable(NoRows()) == {} && 1 in {1, 2} - {2};
    es := LosesFromStart(es, Unpersisting(), 1, {2});
  }

  /**
   Complete application is needed: a part of an entry waits in memory for operations the document does not have;
   the listener persists the rest, the entry is acknowledged and deleted, and a crash forgets the part.
   */
  lemma HeldBackPartIsLost() returns (es: seq<Event>)
    ensures Init(Start()) && IsRun(Start(), es) && OrderlyRun(Start(), es) && Lost(Run(Start(), es), 0)
  {
    StartIsInit();
    es := EntryIsSent(0);
    assert Durable(NoRows()) == {} && 2 in {1, 2} - {1};
    es := LosesFromStart(es, EntryComes(0), 0, {1});
  }

  // A cancelled message's persistence completes the entry's tracker.

  /** A sync step 2 with {1} was handled on connection 0; its tracker was cancelled, its persistence still runs. */
  ghost function StepTwoRuns(): State {
    Start().(mem := Some({1}), tasks := map[0 := Task(None, {1}, {1}, Appending)],
             own := R.State(map[], {R.Flight(0, 0, DOC)}, map[0 := R.Cancelled], 1))
  }

  /** All but settled starts. */
  const UNSETTLED := Rules(false, true, true)

  ghost function StepTwoHandled(): State {
    StepTwoRuns().(handlers := map[0 := Handler(0, false, true, None, false)])
  }

  lemma StepTwoReplies()
    ensures Enabled(StepTwoHandled(), Reply(0)) && Apply(StepTwoHandled(), Reply(0)) == StepTwoRuns()
  {
    var s := StepTwoHandled();
    assert s.handlers - {0} == map[] && Replied(s, 0) == StepTwoRuns();
  }

  lemma StepTwoIsReached() returns (es: seq<Event>)
    ensures Leads(es, StepTwoRuns(), UNSETTLED)
  {
    StartIsInit();
    es := [];
    assert Leads(es, Start(), UNSETTLED);
    hide Leads, Receiving, Replied;
    var s1 := Start().(mem := Some({}));
    es := Then(es, Start(), Load(0), s1, UNSETTLED);
    OtherArrives(s1, 0, {1});
    es := Then(es, s1, ReceiveOther({1}, 0, false, {1}, false), StepTwoHandled(), UNSETTLED);
    StepTwoReplies();
    es := Then(es, StepTwoHandled(), Reply(0), StepTwoRuns(), UNSETTLED);
  }

  /** It is received as message 1 while the document knows {1}, changes it, and waits. */
  ghost function EntryWaits(s: State): State
    requires 0 in s.links
  {
    s.(mem := Some({1, 2}), tasks := s.tasks[1 := Task(Some(0), {2}, {2}, Appending)],
       handlers := map[0 := Handler(1, true, true, Some(0), true)],
       links := map[0 := s.links[0].(wire := [RequestOf(0)], got := [0])],
       own := R.State(map[0 := [R.Slot(1, T.View(DOC, true))]], s.own.flights + {R.Flight(1, 0, DOC)},
                      s.own.resolved, 2))
  }

  lemma EntryArrives(s: State)
    requires s.root && s.mem == Some({1}) && s.handlers == map[] && s.own.next == 1 && s.own.slots.Keys <= {0}
    requires R.SlotsOf(s.own, 0) == [] && s.links.Keys == {0}
    requires s.links[0].wire == [FrameOf(0, {2}), RequestOf(0)] && s.links[0].got == []
    ensures var e := Receive(0, true, {2});
            Enabled(s, e) && NoStray(e) && CleanReceipt(s, e, 0) && Apply(s, e) == EntryWaits(s)
  {
    var l, s1 := s.links[0], OnLink(s, 0, Took(s.links[0]));
    assert Took(l) == l.(wire := [RequestOf(0)], got := [0]);
    assert s1.links == map[0 := Took(l)];
    hide Receiving;
    ReceivingFields(s1, Some(0), {2}, 0, true, {2}, true);
    R.StartEffect(s.own, R.Start(0, DOC, true, true));
    assert {1} + {2} == {1, 2} && {2} * {1} == {};
  }

  ghost function StepTwoEnds(): State {
    EntryWaits(WithEntry(StepTwoRuns(), {2}, 0, Fresh([]))).(
      tasks := map[0 := Task(None, {1}, {1}, Done(true)), 1 := Task(Some(0), {2}, {2}, Appending)],
      st := S.Apply(NoRows(), S.Event.Append(Some({1}))))
  }

  lemma StepTwoAppends()
    ensures var s := EntryWaits(WithEntry(StepTwoRuns(), {2}, 0, Fresh([])));
            Enabled(s, TryAppend(0, Appended)) && Apply(s, TryAppend(0, Appended)) == StepTwoEnds()
  {
  }

  lemma StaleIsReached() returns (es: seq<Event>)
    ensures Leads(es, StepTwoEnds(), UNSETTLED)
  {
    es := StepTwoIsReached();
    hide Leads, Receiving, TriedAppend;
    var s0 := StepTwoRuns();
    var s1 := s0.(links := map[0 := Fresh([])]);
    es := Then(es, s0, Connect(0), s1, UNSETTLED);
    es := EntryIsSentOn(es, s1, {2}, 0, Fresh([]), UNSETTLED);
    var s2 := WithEntry(s1, {2}, 0, Fresh([]));
    EntryArrives(s2);
    es := Then(es, s2, Receive(0, true, {2}), EntryWaits(s2), UNSETTLED);
    StepTwoAppends();
    es := Then(es, EntryWaits(s2), TryAppend(0, Appended), StepTwoEnds(), UNSETTLED);
  }

  /**
   Settled starts are needed, even if all receipts are clean: a sync step 2's persistence ends with true under the
   tracker of an entry whose own has not begun; the entry is acknowledged and deleted, and the server crashes.
   */
  lemma StaleCompletionLosesUpdate() returns (es: seq<Event>)
    ensures Init(Start()) && IsRun(Start(), es) && CleanReceipts(Start(), es, 0) && Strayless(es)
    ensures Lost(Run(Start(), es), 0)
  {
    StartIsInit();
    es := StaleIsReached();
    var s := StepTwoEnds();
    LeadsKeeps(es, s, UNSETTLED);
    StepTwoMayComplete();
    hide Leads, Waiting, CanComplete, Forgotten, Lost;
    var fs := Farewell(s, R.Flight(0, 0, DOC), 0, 1, 0);
    es := ThenAll(es, s, UNSETTLED, fs);
    LeadsRuns(es, End(s, fs, 0), UNSETTLED);
    ObeyingMeets(Start(), es, UNSETTLED);
    ForgottenIsLost(s, End(s, fs, 0));
  }

  lemma StepTwoMayComplete()
    requires TrackInv(StepTwoEnds()) && LinkInv(StepTwoEnds())
    ensures Waiting(StepTwoEnds(), 0, 1, 0) && CanComplete(StepTwoEnds(), R.Flight(0, 0, DOC), 0)
  {
  }

  /** With {1} in the log and nothing else, an entry with {2} that is forgotten is lost. */
  lemma ForgottenIsLost(s: State, s': State)
    requires s.ever == map[0 := {2}] && s.box == map[0 := {2}] && s.st == S.Apply(NoRows(), S.Event.Append(Some({1})))
    requires Forgotten(s, s', 0)
    ensures Lost(s', 0)
  {
    OnlyLogged({1});
    assert 2 in s.ever[0];
  }

  // A stray frame's marker answers the entry's request.

  /** A stray update {1} was received on connection 0, and waits. */
  ghost function StrayWaits(): State {
    Start().(mem := Some({1}), links := map[0 := Fresh([])], tasks := map[0 := Task(None, {1}, {1}, Appending)],
             handlers := map[0 := Handler(0, true, true, None, true)],
             own := R.State(map[0 := [R.Slot(0, T.View(DOC, true))]], {R.Flight(0, 0, DOC)}, map[], 1))
  }

  lemma StrayArrives()
    ensures var (s, e) := (Connected(0), ReceiveOther({1}, 0, true, {1}, true));
            Enabled(s, e) && SettledStart(s, e) && Apply(s, e) == StrayWaits()
  {
    var s := Connected(0);
    hide Receiving;
    ReceivingFields(s, None, {1}, 0, true, {1}, true);
    R.StartEffect(s.own, R.Start(0, DOC, true, true));
    assert {} + {1} == {1} && {} + {R.Flight(0, 0, DOC)} == {R.Flight(0, 0, DOC)};
  }

  /** All but the condition on markers. */
  const STRAYING := Rules(true, false, true)

  lemma StrayIsReached() returns (es: seq<Event>)
    ensures Leads(es, StrayWaits(), STRAYING)
  {
    es := ConnectedIsReached(0, STRAYING);
    hide Leads, Receiving;
    StrayArrives();
    es := Then(es, Connected(0), ReceiveOther({1}, 0, true, {1}, true), StrayWaits(), STRAYING);
  }

  /** It was persisted, and left a good marker. */
  ghost function StrayMarked(): State {
    StrayWaits().(tasks := map[0 := Task(None, {1}, {1}, Done(true))], handlers := map[], answers := map[0 := true],
                  links := map[0 := Fresh([]).(marks := [true])],
                  own := R.State(map[0 := []], {}, map[0 := R.By(0)], 1),
                  st := S.Apply(NoRows(), S.Event.Append(Some({1}))))
  }

  lemma OwnFinishes(own: R.State, m: Msg)
    requires R.Inv(own) && own.slots == map[0 := [R.Slot(m, T.View(DOC, true))]] && own.flights == {R.Flight(m, 0, DOC)}
    ensures R.Apply(own, R.Finish(R.Flight(m, 0, DOC)))
         == R.State(map[0 := []], {}, own.resolved[m := R.By(m)], own.next)
  {
    R.FinishEffect(own, R.Flight(m, 0, DOC));
    assert {R.Flight(m, 0, DOC)} - {R.Flight(m, 0, DOC)} == {};
  }

  /** A waiting message with its own flight on connection 0 is completed with how its persistence ended. */
  lemma OwnCompletes(s: State, m: Msg, ended: bool)
    requires R.Inv(s.own) && s.own.slots == map[0 := [R.Slot(m, T.View(DOC, true))]]
    requires s.own.flights == {R.Flight(m, 0, DOC)}
    requires m in s.tasks && s.tasks[m].stage == Done(ended) && s.answers.Keys == s.own.resolved.Keys && m !in s.answers
    ensures var e := Finish(R.Flight(m, 0, DOC));
            && Enabled(s, e)
            && Apply(s, e) == s.(answers := s.answers[m := ended],
                                 own := R.State(map[0 := []], {}, s.own.resolved[m := R.By(m)], s.own.next))
  {
    OwnFinishes(s.own, m);
    hide R.Apply, R.Inv;
    var s' := Finishing(s, R.Flight(m, 0, DOC));
    assert s'.own.resolved == s.own.resolved[m := R.By(m)];
    assert s'.answers == s.answers[m := ended];
  }

  lemma StrayContinues(es: seq<Event>) returns (es': seq<Event>)
    requires Leads(es, StrayWaits(), STRAYING)
    ensures Leads(es', StrayMarked(), STRAYING)
  {
    hide Leads, Receiving, Finishing;
    var s0 := StrayWaits();
    var s1 := s0.(tasks := map[0 := Task(None, {1}, {1}, Done(true))],
                  st := S.Apply(NoRows(), S.Event.Append(Some({1}))));
    es' := Then(es, s0, TryAppend(0, Appended), s1, STRAYING);
    OwnCompletes(s1, 0, true);
    var s2 := s1.(answers := map[0 := true], own := R.State(map[0 := []], {}, map[0 := R.By(0)], 1));
    es' := Then(es', s1, Finish(R.Flight(0, 0, DOC)), s2, STRAYING);
    StrayReplies(s2);
    es' := Then(es', s2, Reply(0), StrayMarked(), STRAYING);
  }

  lemma StrayReplies(s: State)
    requires s == StrayMarked().(handlers := StrayWaits().handlers, links := StrayWaits().links)
    ensures Enabled(s, Reply(0)) && Apply(s, Reply(0)) == StrayMarked()
  {
    assert s.handlers - {0} == map[] && Marked(s.links[0], true) == Fresh([]).(marks := [true]);
    assert s.acks + {} == s.acks;
  }

  /** The entry waits behind the stray frame's marker; its own persistence has failed. */
  ghost function EntryFailed(): State {
    var s := EntryWaits(WithEntry(StrayMarked(), {2}, 0, Fresh([]).(marks := [true])));
    s.(tasks := s.tasks[1 := Task(Some(0), {2}, {2}, Done(false))])
  }

  lemma EntryFails(es: seq<Event>) returns (es': seq<Event>)
    requires Leads(es, StrayMarked(), STRAYING)
    ensures Leads(es', EntryFailed(), STRAYING)
  {
    hide Leads, Receiving, TriedAppend;
    var l := Fresh([]).(marks := [true]);
    es' := EntryIsSentOn(es, StrayMarked(), {2}, 0, l, STRAYING);
    var s1 := WithEntry(StrayMarked(), {2}, 0, l);
    EntryArrives(s1);
    es' := Then(es', s1, Receive(0, true, {2}), EntryWaits(s1), STRAYING);
    EntryAppendFails();
    es' := Then(es', EntryWaits(s1), TryAppend(1, NoFileInfo), EntryFailed(), STRAYING);
  }

  lemma EntryAppendFails()
    ensures var s := EntryWaits(WithEntry(StrayMarked(), {2}, 0, Fresh([]).(marks := [true])));
            Enabled(s, TryAppend(1, NoFileInfo)) && Apply(s, TryAppend(1, NoFileInfo)) == EntryFailed()
  {
  }

  /** It is answered with the stray frame's marker; its own comes second. */
  lemma EntryIsAcked(es: seq<Event>) returns (es': seq<Event>, s: State)
    requires Leads(es, EntryFailed(), STRAYING)
    ensures Leads(es', s, STRAYING)
    ensures 0 in s.acks && s.ever == map[0 := {2}] && s.box == map[0 := {2}]
    ensures s.st == S.Apply(NoRows(), S.Event.Append(Some({1})))
  {
    hide Leads, Receiving, Finishing, Replied;
    var s0 := EntryFailed();
    assert {} + {R.Flight(1, 0, DOC)} == {R.Flight(1, 0, DOC)};
    OwnCompletes(s0, 1, false);
    var s1 := Apply(s0, Finish(R.Flight(1, 0, DOC)));
    es' := Then(es, s0, Finish(R.Flight(1, 0, DOC)), s1, STRAYING);
    SecondMark(s1);
    var s2 := Apply(s1, Reply(0));
    es' := Then(es', s1, Reply(0), s2, STRAYING);
    FirstMarkAnswers(s2);
    s := Apply(s2, Ask(0));
    es' := Then(es', s2, Ask(0), s, STRAYING);
  }

  /** The entry's own marker comes second. */
  lemma SecondMark(s: State)
    requires s.handlers == EntryFailed().handlers && s.links == EntryFailed().links && s.root
    requires 1 in s.answers && !s.answers[1]
    ensures Enabled(s, Reply(0))
    ensures var s' := Apply(s, Reply(0));
            && SameData(s, s') && s'.own == s.own && s'.handlers == map[]
            && s'.links == map[0 := Link(true, [RequestOf(0)], [0], [true, false], [])]
  {
    assert s.handlers - {0} == map[];
    assert Marked(s.links[0], false) == Link(true, [RequestOf(0)], [0], [true, false], []);
  }

  lemma FirstMarkAnswers(s: State)
    requires s.handlers == map[] && R.SlotsOf(s.own, 0) == []
    requires s.links == map[0 := Link(true, [RequestOf(0)], [0], [true, false], [])]
    ensures Enabled(s, Ask(0)) && SameData(s, Apply(s, Ask(0))) && 0 in Apply(s, Ask(0)).acks
  {
  }

  /**
   That only entries leave markers is needed, even if all starts are settled and all receipts clean: an applied
   stray frame's marker acknowledges the entry sent next on its connection, whose own persistence failed.
   */
  lemma StrayMarkerLosesUpdate() returns (es: seq<Event>)
    ensures Init(Start()) && IsRun(Start(), es) && SettledRun(Start(), es) && CleanReceipts(Start(), es, 0)
    ensures Lost(Run(Start(), es), 0)
  {
    StartIsInit();
    hide Leads, Forgotten, Lost;
    es := StrayIsReached();
    es := StrayContinues(es);
    es := EntryFails(es);
    var s;
    es, s := EntryIsAcked(es);
    var fs := Goes(s, 0);
    es := ThenAll(es, s, STRAYING, fs);
    LeadsRuns(es, End(s, fs, 0), STRAYING);
    ObeyingMeets(Start(), es, STRAYING);
    ForgottenIsLost(s, End(s, fs, 0));
  }
}
