/**
 Whose result does a message handler get? Runs of the trackers under the per-connection FIFO: a message
 starts on a connection only when the previous handler is done, but the persistence it started may not be.
 */
module ResultOwnership {
  import opened Base
  import opened UpdateTracking

  type Msg = nat

  /** A tracker in some registry, and the message it was opened for. */
  datatype Slot = Slot(msg: Msg, view: View)

  /** A persistence that has not ended yet: the update event of `msg`, with origin `conn`, on `doc`. */
  datatype Flight = Flight(msg: Msg, conn: Conn, doc: DocId)

  datatype Resolution = By(msg: Msg) | Cancelled

  datatype State = State(
    slots: map<Conn, seq<Slot>>,
    flights: set<Flight>,
    resolved: map<Msg, Resolution>,
    next: Msg)

  ghost predicate Init(s: State) {
    s == State(map[], {}, map[], 0)
  }

  /**
   `fires`: applying the message changed the document, so its update listener ran.
   `waits`: the message is an update that applied without error, so its handler awaits the tracker;
   a sync step or a failed apply cancels it instead.
   */
  datatype Event =
    | Start(conn: Conn, doc: DocId, fires: bool, waits: bool)
    | Finish(flight: Flight)

  ghost function SlotsOf(s: State, conn: Conn): seq<Slot> {
    if conn in s.slots then s.slots[conn] else []
  }

  ghost function ViewsOf(slots: seq<Slot>): seq<View> {
    seq(|slots|, i requires 0 <= i < |slots| => slots[i].view)
  }

  ghost predicate Enabled(s: State, e: Event) {
    match e
    case Start(conn, _, _, _) => SlotsOf(s, conn) == []
    case Finish(flight) => flight in s.flights
  }

  ghost function Opened(slots: seq<Slot>, msg: Msg, doc: DocId, fires: bool): seq<Slot> {
    var begun := slots + [Slot(msg, View(doc, false))];
    var i := First(ViewsOf(begun), doc, false);
    if fires && i < |begun| then begun[i := begun[i].(view := View(doc, true))] else begun
  }

  ghost function Apply(s: State, e: Event): State
    requires Enabled(s, e)
  {
    match e
    case Start(conn, doc, fires, waits) =>
      var s' := s.(next := s.next + 1,
                   flights := if fires then s.flights + {Flight(s.next, conn, doc)} else s.flights);
      if fires && waits then s'.(slots := s.slots[conn := Opened(SlotsOf(s, conn), s.next, doc, fires)])
      else s'.(resolved := s.resolved[s.next := Cancelled])
    case Finish(flight) =>
      var slots := SlotsOf(s, flight.conn);
      var i := First(ViewsOf(slots), flight.doc, true);
      var s' := s.(flights := s.flights - {flight});
      if i < |slots| then
        s'.(slots := s.slots[flight.conn := RemoveAt(slots, i)],
            resolved := s.resolved[slots[i].msg := By(flight.msg)])
      else s'
  }

  ghost predicate IsRun(s: State, es: seq<Event>)
    decreases |es|
  {
    es == [] || (Enabled(s, es[0]) && IsRun(Apply(s, es[0]), es[1..]))
  }

  ghost function Run(s: State, es: seq<Event>): State
    requires IsRun(s, es)
    decreases |es|
  {
    if es == [] then s else Run(Apply(s, es[0]), es[1..])
  }

  /** At most one tracker per connection, observed, of an unresolved message. */
  ghost predicate Inv(s: State) {
    && (forall c :: c in s.slots ==>
          |s.slots[c]| <= 1 &&
          (s.slots[c] != [] ==> s.slots[c][0].view.observed && s.slots[c][0].msg < s.next
                                && s.slots[c][0].msg !in s.resolved))
    && (forall m :: m in s.resolved ==> m < s.next)
    && (forall f :: f in s.flights ==> f.msg < s.next)
    && (forall c, d :: c in s.slots && d in s.slots && c != d && s.slots[c] != [] && s.slots[d] != [] ==>
          s.slots[c][0].msg != s.slots[d][0].msg)
  }

  /** Under the FIFO, a new tracker is the only one of its connection. */
  lemma StartEffect(s: State, e: Event)
    requires Enabled(s, e) && e.Start?
    ensures Apply(s, e).next == s.next + 1
    ensures Apply(s, e).flights == if e.fires then s.flights + {Flight(s.next, e.conn, e.doc)} else s.flights
    ensures Apply(s, e).slots
         == if e.fires && e.waits then s.slots[e.conn := [Slot(s.next, View(e.doc, true))]] else s.slots
    ensures Apply(s, e).resolved
         == if e.fires && e.waits then s.resolved else s.resolved[s.next := Cancelled]
  {
    var begun := [Slot(s.next, View(e.doc, false))];
    assert SlotsOf(s, e.conn) + begun == begun;
    assert ViewsOf(begun) == [View(e.doc, false)];
    assert First(ViewsOf(begun), e.doc, false) == 0;
    assert begun[0 := Slot(s.next, View(e.doc, true))] == [Slot(s.next, View(e.doc, true))];
  }

  /** A completion resolves the tracker of its connection if that is for its document, whoever it is. */
  lemma FinishEffect(s: State, flight: Flight)
    requires Inv(s) && flight in s.flights
    ensures var s', slots := Apply(s, Finish(flight)), SlotsOf(s, flight.conn);
            && s'.next == s.next && s'.flights == s.flights - {flight}
            && if slots != [] && slots[0].view.doc == flight.doc
               then s'.slots == s.slots[flight.conn := []]
                    && s'.resolved == s.resolved[slots[0].msg := By(flight.msg)]
               else s'.slots == s.slots && s'.resolved == s.resolved
  {
    var slots := SlotsOf(s, flight.conn);
    if slots == [] {
      assert ViewsOf(slots) == [];
    } else {
      assert ViewsOf(slots) == [slots[0].view];
      assert slots[0].view == View(slots[0].view.doc, true);
    }
  }

  lemma StepInv(s: State, e: Event)
    requires Inv(s) && Enabled(s, e)
    ensures Inv(Apply(s, e))
    ensures forall m :: m in s.resolved ==> m in Apply(s, e).resolved && Apply(s, e).resolved[m] == s.resolved[m]
    ensures s.next <= Apply(s, e).next
  {
    if e.Start? { StartEffect(s, e); } else { FinishEffect(s, e.flight); }
  }

  /** Once resolved, a message keeps its one resolution for ever. */
  lemma {:induction false} ResolvedOnce(s: State, es: seq<Event>, m: Msg)
    requires Inv(s) && IsRun(s, es) && m in s.resolved
    ensures m in Run(s, es).resolved && Run(s, es).resolved[m] == s.resolved[m]
    decreases |es|
  {
    if es == [] {
    } else {
      StepInv(s, es[0]);
      ResolvedOnce(Apply(s, es[0]), es[1..], m);
    }
  }

  ghost predicate Foreign(s: State, conn: Conn, doc: DocId) {
    exists f :: f in s.flights && f.conn == conn && f.doc == doc
  }

  /** While `m` waits on (conn, doc), only its own persistence is in flight there; afterwards it is its own. */
  ghost predicate OwnOnly(s: State, m: Msg, conn: Conn, doc: DocId) {
    && m < s.next
    && (m in s.resolved ==> s.resolved[m] == By(m))
    && (m !in s.resolved ==>
          && SlotsOf(s, conn) == [Slot(m, View(doc, true))]
          && forall f :: f in s.flights && f.conn == conn && f.doc == doc ==> f.msg == m)
  }

  lemma StepOwnOnly(s: State, e: Event, m: Msg, conn: Conn, doc: DocId)
    requires Inv(s) && Enabled(s, e) && OwnOnly(s, m, conn, doc)
    ensures OwnOnly(Apply(s, e), m, conn, doc)
  {
    StepInv(s, e);
    if e.Start? { StartEffect(s, e); } else { FinishEffect(s, e.flight); }
  }

  lemma {:induction false} RunOwnOnly(s: State, es: seq<Event>, m: Msg, conn: Conn, doc: DocId)
    requires Inv(s) && IsRun(s, es) && OwnOnly(s, m, conn, doc)
    ensures OwnOnly(Run(s, es), m, conn, doc)
    decreases |es|
  {
    if es == [] {
    } else {
      StepInv(s, es[0]);
      StepOwnOnly(s, es[0], m, conn, doc);
      RunOwnOnly(Apply(s, es[0]), es[1..], m, conn, doc);
    }
  }

  /** Every continuation resolves the message, if at all, with its own persistence. */
  ghost predicate AlwaysOwn(s: State, m: Msg) {
    forall es :: IsRun(s, es) && m in Run(s, es).resolved ==> Run(s, es).resolved[m] == By(m)
  }

  lemma OneEvent(s: State, e: Event)
    requires Enabled(s, e)
    ensures IsRun(s, [e]) && Run(s, [e]) == Apply(s, e)
  {
    var es := [e];
    assert es[1..] == [];
    assert Run(s, es) == Run(Apply(s, e), es[1..]) == Apply(s, e);
  }

  /** Exactly when: no other persistence of the same connection and document is in flight at the start. */
  lemma OwnResultIff(s: State, conn: Conn, doc: DocId)
    requires Inv(s) && Enabled(s, Start(conn, doc, true, true))
    ensures AlwaysOwn(Apply(s, Start(conn, doc, true, true)), s.next) <==> !Foreign(s, conn, doc)
  {
    var s', m := Apply(s, Start(conn, doc, true, true)), s.next;
    StartEffect(s, Start(conn, doc, true, true));
    StepInv(s, Start(conn, doc, true, true));
    if !Foreign(s, conn, doc) {
      forall es | IsRun(s', es) && m in Run(s', es).resolved ensures Run(s', es).resolved[m] == By(m) {
        RunOwnOnly(s', es, m, conn, doc);
      }
    } else {
      var f :| f in s.flights && f.conn == conn && f.doc == doc;
      FinishEffect(s', f);
      OneEvent(s', Finish(f));
      assert Run(s', [Finish(f)]).resolved[m] == By(f.msg) != By(m);
    }
  }

  /** No message starts while the persistence of a cancelled one is in flight on its connection and document. */
  ghost predicate Settled(s: State, e: Event) {
    e.Start? ==> forall f :: f in s.flights && f.conn == e.conn && f.doc == e.doc ==>
                   !(f.msg in s.resolved && s.resolved[f.msg].Cancelled?)
  }

  ghost predicate SettledRun(s: State, es: seq<Event>)
    requires IsRun(s, es)
    decreases |es|
  {
    es == [] || (Settled(s, es[0]) && SettledRun(Apply(s, es[0]), es[1..]))
  }

  /** An unfinished persistence is of a cancelled message, or its handler waits and nothing else can answer. */
  ghost predicate FlightOk(s: State, f: Flight) {
    || (f.msg in s.resolved && s.resolved[f.msg].Cancelled?)
    || (SlotsOf(s, f.conn) == [Slot(f.msg, View(f.doc, true))]
        && forall g :: g in s.flights && g.conn == f.conn && g.doc == f.doc ==> g == f)
  }

  ghost predicate WaiterFlies(s: State, c: Conn) {
    SlotsOf(s, c) != [] ==> Flight(SlotsOf(s, c)[0].msg, c, SlotsOf(s, c)[0].view.doc) in s.flights
  }

  ghost predicate AllOwn(s: State) {
    && (forall m :: m in s.resolved && s.resolved[m].By? ==> s.resolved[m] == By(m))
    && (forall f :: f in s.flights ==> FlightOk(s, f))
    && (forall c :: c in s.slots ==> WaiterFlies(s, c))
  }

  lemma StartAllOwn(s: State, e: Event)
    requires Inv(s) && AllOwn(s) && Enabled(s, e) && e.Start? && Settled(s, e)
    ensures AllOwn(Apply(s, e))
  {
    var s' := Apply(s, e);
    StartEffect(s, e);
    forall f | f in s'.flights ensures FlightOk(s', f) {
      if f in s.flights {
        assert FlightOk(s, f);
      } else {
        assert forall g :: g in s.flights ==> FlightOk(s, g);
      }
    }
    forall c | c in s'.slots ensures WaiterFlies(s', c) {
      if c in s.slots { assert WaiterFlies(s, c); }
    }
  }

  lemma FinishAllOwn(s: State, flight: Flight)
    requires Inv(s) && AllOwn(s) && flight in s.flights
    ensures AllOwn(Apply(s, Finish(flight)))
  {
    var s' := Apply(s, Finish(flight));
    FinishEffect(s, flight);
    assert FlightOk(s, flight);
    var slots := SlotsOf(s, flight.conn);
    if slots != [] {
      assert WaiterFlies(s, flight.conn);
      assert FlightOk(s, Flight(slots[0].msg, flight.conn, slots[0].view.doc));
    }
    forall f | f in s'.flights ensures FlightOk(s', f) { assert FlightOk(s, f); }
    forall c | c in s'.slots ensures WaiterFlies(s', c) { assert WaiterFlies(s, c); }
  }

  /** In a settled run every handler that waited got the result of its own update. */
  lemma {:induction false} SettledRunsAreOwn(s: State, es: seq<Event>)
    requires Inv(s) && AllOwn(s) && IsRun(s, es) && SettledRun(s, es)
    ensures AllOwn(Run(s, es))
    decreases |es|
  {
    if es == [] {
    } else {
      StepInv(s, es[0]);
      if es[0].Start? { StartAllOwn(s, es[0]); } else { FinishAllOwn(s, es[0].flight); }
      SettledRunsAreOwn(Apply(s, es[0]), es[1..]);
    }
  }

  lemma SettledRunsFromStart(s0: State, es: seq<Event>, m: Msg)
    requires Init(s0) && IsRun(s0, es) && SettledRun(s0, es)
    requires m in Run(s0, es).resolved && Run(s0, es).resolved[m].By?
    ensures Run(s0, es).resolved[m] == By(m)
  {
    SettledRunsAreOwn(s0, es);
  }

  lemma RunTwo(s: State, e: Event, f: Event)
    requires Enabled(s, e) && Enabled(Apply(s, e), f)
    ensures IsRun(s, [e, f]) && Run(s, [e, f]) == Apply(Apply(s, e), f)
  {
    assert [e, f][1..] == [f] && [f][1..] == [];
    assert Run(Apply(s, e), [f]) == Run(Apply(Apply(s, e), f), []);
  }

  /** Message 0 is a sync step whose tracker was cancelled; its persistence ends under message 1. */
  lemma StaleCompletion() returns (s: State)
    ensures var s0, e := State(map[], {}, map[], 0), Start(0, 0, true, false);
            && Init(s0) && Enabled(s0, e)
            && IsRun(Apply(s0, e), [Start(0, 0, true, true), Finish(Flight(0, 0, 0))])
            && Run(Apply(s0, e), [Start(0, 0, true, true), Finish(Flight(0, 0, 0))]) == s
    ensures Inv(s) && s == State(map[0 := []], {Flight(1, 0, 0)}, map[0 := Cancelled, 1 := By(0)], 2)
  {
    hide Apply, Enabled, Inv, IsRun, Run;
    CancelledStarts();
    NextStarts();
    NextIsResolved();
    RunTwo(State(map[], {Flight(0, 0, 0)}, map[0 := Cancelled], 1), Start(0, 0, true, true), Finish(Flight(0, 0, 0)));
    s := State(map[0 := []], {Flight(1, 0, 0)}, map[0 := Cancelled, 1 := By(0)], 2);
  }

  lemma CancelledStarts()
    ensures var (s, e) := (State(map[], {}, map[], 0), Start(0, 0, true, false));
            Enabled(s, e) && Apply(s, e) == State(map[], {Flight(0, 0, 0)}, map[0 := Cancelled], 1)
  {
    StartEffect(State(map[], {}, map[], 0), Start(0, 0, true, false));
  }

  /** After a cancelled message whose persistence still runs, the next one is tracked. */
  lemma NextStarts()
    ensures var (s, e) := (State(map[], {Flight(0, 0, 0)}, map[0 := Cancelled], 1), Start(0, 0, true, true));
            && Inv(s) && Enabled(s, e)
            && Apply(s, e) == State(map[0 := [Slot(1, View(0, true))]], {Flight(0, 0, 0), Flight(1, 0, 0)},
                                    map[0 := Cancelled], 2)
  {
    StartEffect(State(map[], {Flight(0, 0, 0)}, map[0 := Cancelled], 1), Start(0, 0, true, true));
  }

  lemma NextIsResolved()
    ensures var s := State(map[0 := [Slot(1, View(0, true))]], {Flight(0, 0, 0), Flight(1, 0, 0)}, map[0 := Cancelled], 2);
            && Enabled(s, Finish(Flight(0, 0, 0)))
            && Apply(s, Finish(Flight(0, 0, 0)))
               == State(map[0 := []], {Flight(1, 0, 0)}, map[0 := Cancelled, 1 := By(0)], 2)
    ensures Inv(State(map[0 := []], {Flight(1, 0, 0)}, map[0 := Cancelled, 1 := By(0)], 2))
  {
    var s := State(map[0 := [Slot(1, View(0, true))]], {Flight(0, 0, 0), Flight(1, 0, 0)}, map[0 := Cancelled], 2);
    FinishEffect(s, Flight(0, 0, 0));
    assert s.flights - {Flight(0, 0, 0)} == {Flight(1, 0, 0)};
  }

  /**
   One stale completion misplaces all later results: that persistence of message 0 has ended when message 2
   starts, so this start is settled; still message 2 gets the result of message 1.
   */
  lemma StaleCompletionCascades() returns (s: State)
    ensures s == State(map[0 := []], {Flight(1, 0, 0)}, map[0 := Cancelled, 1 := By(0)], 2)
    ensures Enabled(s, Start(0, 0, true, true)) && Settled(s, Start(0, 0, true, true))
    ensures IsRun(s, [Start(0, 0, true, true), Finish(Flight(1, 0, 0))])
    ensures var end := Run(s, [Start(0, 0, true, true), Finish(Flight(1, 0, 0))]);
            2 in end.resolved && end.resolved[2] == By(1)
  {
    s := StaleCompletion();
    StartEffect(s, Start(0, 0, true, true));
    StepInv(s, Start(0, 0, true, true));
    FinishEffect(Apply(s, Start(0, 0, true, true)), Flight(1, 0, 0));
    RunTwo(s, Start(0, 0, true, true), Finish(Flight(1, 0, 0)));
  }
}
