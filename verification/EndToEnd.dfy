/**
 One document from the browser's Outbox to its rows: entries are committed, sent, replayed, applied to the
 server's in-memory document, persisted, answered with what their tracker was resolved with, and only then
 deleted, with broken connections, aborted deletions, evictions, and crashes of servers and workers anywhere.
 */
module EndToEnd {
  import opened Base
  import S = Storage
  import opened StorageSafety
  import R = ResultOwnership
  import T = UpdateTracking

  type Key = nat  // an Outbox number; numbers of one document are never given twice
  type Conn = T.Conn
  type Msg = R.Msg

  const DOC: T.DocId := 0

  /** What a client sends of an entry; the request only for a root document. */
  datatype Wire = FrameOf(key: Key, upd: Update) | RequestOf(key: Key)

  /**
   One connection: what is on its way, in order; the entries received on it; what the markers of their frames
   say; and the entries that acks were requested for. The k-th request is answered with the k-th marker.
   */
  datatype Link = Link(open: bool, wire: seq<Wire>, got: seq<Key>, marks: seq<bool>, reqs: seq<Key>)

  /** A persistence: appendUpdateToWAL and its fallback. */
  datatype Stage = Appending | Storing(job: nat) | Done(persisted: bool)
  datatype Task = Task(key: Option<Key>, payload: Update, persisting: Update, stage: Stage)

  /**
   The message a connection's handler is at. `waits`: it is an update that applied without error. `fires`: it
   changed the document, so the update listener persists the change and the tracker was observed; otherwise
   the handler persists the payload itself. `marks`: it will leave a marker.
   */
  datatype Handler = Handler(msg: Msg, waits: bool, fires: bool, key: Option<Key>, marks: bool)

  datatype State = State(
    root: bool,                     // a root document; else a sub-document, whose frames carry their numbers
    ever: map<Key, Update>,         // history: all committed entries
    box: map<Key, Update>,          // the rows of the Outbox
    links: map<Conn, Link>,
    acks: set<Key>,                 // sync:ack sent and not yet received
    mem: Option<Update>,            // the server's document, when loaded
    tasks: map<Msg, Task>,          // persistences, by the message that caused them
    handlers: map<Conn, Handler>,   // connections whose task queue is running a message
    answers: map<Msg, bool>,        // what observed trackers were resolved with
    own: R.State,                   // trackers, and persistences that will complete one
    st: S.State)

  ghost predicate Init(s: State) {
    && s.ever == map[] && s.box == map[] && s.links == map[] && s.acks == {} && s.mem.None?
    && s.tasks == map[] && s.handlers == map[] && s.answers == map[] && R.Init(s.own) && S.Init(s.st)
  }

  datatype Append = Appended | AppendedUnreported | AppendFailed | NoFileInfo

  datatype Event =
    | Commit(key: Key, upd: Update)
    | Connect(conn: Conn)
    | Send(key: Key, conn: Conn)
    | Cut(conn: Conn, keep: nat)    // the connection breaks; of what is on its way a front part has arrived
    | Receive(conn: Conn, waits: bool, delta: Update)  // the next frame
    | Ask(conn: Conn)               // the next ack request
    | ReceiveOther(payload: Update, conn: Conn, waits: bool, delta: Update, stray: bool)
                                    // another client's, or a sync step; stray: it leaves a marker
    | TryAppend(m: Msg, how: Append)
    | StoreEnds(m: Msg)
    | Finish(flight: R.Flight)      // the update listener ends and completes a tracker
    | Reply(conn: Conn)
    | ReceiveAck(key: Key, commits: bool)
    | LoseAcks(lost: set<Key>)
    | Load(cut: nat)                // an update that fails to apply ends the fold
    | Evict                         // the last connection closed; persistences may still run
    | ServerCrash
    | StorageStep(e: S.Event)

  /**
   What applying a payload adds to the document: nothing if nothing was new. Operations whose predecessors are
   missing are not added and wait in memory, and may come with a later payload.
   */
  ghost predicate IsDelta(s: State, payload: Update, delta: Update) {
    s.mem.Some? && delta !! s.mem.value && (payload <= s.mem.value ==> delta == {})
  }

  /** The task queue of a connection starts a message when the one before is done. */
  ghost predicate CanStart(s: State, conn: Conn) {
    conn !in s.handlers && R.SlotsOf(s.own, conn) == []
  }

  ghost predicate HeadIsFrame(s: State, conn: Conn) {
    conn in s.links && s.links[conn].wire != [] && s.links[conn].wire[0].FrameOf?
  }

  ghost predicate HeadIsRequest(s: State, conn: Conn) {
    conn in s.links && s.links[conn].wire != [] && s.links[conn].wire[0].RequestOf?
  }

  /** A waiting handler has its result. */
  ghost predicate Ready(s: State, h: Handler) {
    || !h.waits
    || (if h.fires then h.msg in s.answers else h.msg in s.tasks && s.tasks[h.msg].stage.Done?)
  }

  ghost predicate Result(s: State, h: Handler)
    requires Ready(s, h)
  {
    h.waits && if h.fires then s.answers[h.msg] else s.tasks[h.msg].stage.persisted
  }

  ghost predicate Enabled(s: State, e: Event) {
    match e
    case Commit(key, _) => key !in s.ever
    case Connect(conn) => conn !in s.links
    case Send(key, conn) => key in s.box && conn in s.links && s.links[conn].open
    case Cut(conn, keep) => conn in s.links && keep <= |s.links[conn].wire|
    case Receive(conn, _, delta) =>
      HeadIsFrame(s, conn) && CanStart(s, conn) && IsDelta(s, s.links[conn].wire[0].upd, delta)
    case Ask(conn) => HeadIsRequest(s, conn) && CanStart(s, conn)
    case ReceiveOther(payload, conn, _, delta, _) => CanStart(s, conn) && IsDelta(s, payload, delta)
    case TryAppend(m, _) => m in s.tasks && s.tasks[m].stage.Appending?
    case StoreEnds(m) => m in s.tasks && s.tasks[m].stage.Storing? && s.tasks[m].stage.job !in s.st.jobs
    case Finish(flight) =>
      flight in s.own.flights && flight.msg in s.tasks && s.tasks[flight.msg].stage.Done?
    case Reply(conn) => conn in s.handlers && Ready(s, s.handlers[conn])
    case ReceiveAck(key, _) => key in s.acks
    case LoseAcks(_) => true
    case Load(_) => s.mem.None?
    case Evict => s.mem.Some?
    case ServerCrash => true
    case StorageStep(e) => S.Enabled(s.st, e)
  }

  ghost function StartOf(conn: Conn, waits: bool, delta: Update): R.Event {
    R.Start(conn, DOC, delta != {}, waits)
  }

  ghost function NewTask(key: Option<Key>, payload: Update, waits: bool, delta: Update): Task {
    Task(if waits then key else None, payload, if delta != {} then delta else payload, Appending)
  }

  /** A change is persisted as the delta its listener sees; a payload that changes nothing, as it came. */
  ghost function Receiving(s: State, key: Option<Key>, payload: Update, conn: Conn, waits: bool, delta: Update,
                           marks: bool): State
    requires CanStart(s, conn) && s.mem.Some?
  {
    var m, fires := s.own.next, delta != {};
    s.(mem := Some(s.mem.value + delta),
       tasks := if fires || waits then s.tasks[m := NewTask(key, payload, waits, delta)] else s.tasks,
       handlers := s.handlers[conn := Handler(m, waits, fires, key, marks)],
       own := R.Apply(s.own, StartOf(conn, waits, delta)))
  }

  ghost function OnLink(s: State, conn: Conn, l: Link): State {
    s.(links := s.links[conn := l])
  }

  ghost function Sent(l: Link, key: Key, upd: Update, root: bool): Link {
    l.(wire := l.wire + [FrameOf(key, upd)] + if root then [RequestOf(key)] else [])
  }

  ghost function Took(l: Link): Link
    requires l.wire != []
  {
    l.(wire := l.wire[1..], got := l.got + [l.wire[0].key])
  }

  ghost function Asked(l: Link): Link
    requires l.wire != []
  {
    l.(wire := l.wire[1..], reqs := l.reqs + [l.wire[0].key])
  }

  ghost function Marked(l: Link, applied: bool): Link {
    l.(marks := l.marks + [applied])
  }

  /** A request is acknowledged if the marker with its number is there and good, or when it comes. */
  ghost function EarnedByRequest(l: Link, key: Key): set<Key> {
    if |l.reqs| < |l.marks| && l.marks[|l.reqs|] then {key} else {}
  }

  ghost function EarnedByMark(l: Link, applied: bool): set<Key> {
    if |l.marks| < |l.reqs| && applied then {l.reqs[|l.marks|]} else {}
  }

  ghost function Replied(s: State, conn: Conn): State
    requires Enabled(s, Reply(conn))
  {
    var h, r := s.handlers[conn], Result(s, s.handlers[conn]);
    var marked := h.marks && conn in s.links;
    s.(handlers := s.handlers - {conn},
       links := if marked then s.links[conn := Marked(s.links[conn], r)] else s.links,
       acks := s.acks + (if marked then EarnedByMark(s.links[conn], r)
                         else if !s.root && r && h.key.Some? then {h.key.value} else {}))
  }

  ghost function At(s: State, m: Msg, stage: Stage): State
    requires m in s.tasks
  {
    s.(tasks := s.tasks[m := s.tasks[m].(stage := stage)])
  }

  ghost function Finishing(s: State, flight: R.Flight): State
    requires flight in s.own.flights && flight.msg in s.tasks && s.tasks[flight.msg].stage.Done?
  {
    var own' := R.Apply(s.own, R.Finish(flight));
    s.(own := own',
       answers := map m | m in own'.resolved && (m in s.answers || m !in s.own.resolved) ::
         if m in s.answers then s.answers[m] else s.tasks[flight.msg].stage.persisted)
  }

  ghost function TriedAppend(s: State, m: Msg, how: Append): State
    requires m in s.tasks
  {
    var entry := S.Event.Append(Some(s.tasks[m].persisting));
    var direct := S.StartDirect(s.tasks[m].persisting);
    match how
    case Appended => At(s.(st := S.Apply(s.st, entry)), m, Done(true))
    case AppendedUnreported => At(s.(st := S.Apply(S.Apply(s.st, entry), direct)), m, Storing(s.st.nextJob))
    case AppendFailed => At(s.(st := S.Apply(s.st, direct)), m, Storing(s.st.nextJob))
    case NoFileInfo => At(s, m, Done(false))
  }

  ghost function Apply(s: State, e: Event): State
    requires Enabled(s, e)
  {
    match e
    case Commit(key, upd) => s.(ever := s.ever[key := upd], box := s.box[key := upd])
    case Connect(conn) => OnLink(s, conn, Link(true, [], [], [], []))
    case Send(key, conn) => OnLink(s, conn, Sent(s.links[conn], key, s.box[key], s.root))
    case Cut(conn, keep) =>
      OnLink(s, conn, s.links[conn].(open := false, wire := s.links[conn].wire[..keep]))
    case Receive(conn, waits, delta) =>
      var frame := s.links[conn].wire[0];
      Receiving(OnLink(s, conn, Took(s.links[conn])), Some(frame.key), frame.upd, conn, waits, delta, s.root)
    case Ask(conn) =>
      var l := s.links[conn];
      OnLink(s, conn, Asked(l)).(acks := s.acks + EarnedByRequest(l, l.wire[0].key))
    case ReceiveOther(payload, conn, waits, delta, stray) =>
      Receiving(s, None, payload, conn, waits, delta, s.root && stray)
    case TryAppend(m, how) => TriedAppend(s, m, how)
    case StoreEnds(m) => At(s, m, Done(s.tasks[m].stage.job in s.st.confirmed))
    case Finish(flight) => Finishing(s, flight)
    case Reply(conn) => Replied(s, conn)
    case ReceiveAck(key, commits) => s.(acks := s.acks - {key}, box := if commits then s.box - {key} else s.box)
    case LoseAcks(lost) => s.(acks := s.acks - lost)
    case Load(cut) => s.(mem := Some(S.Doc(S.Below(s.st.rows, cut))))
    case Evict => s.(mem := None)
    case ServerCrash =>
      s.(links := map[], mem := None, tasks := map[], handlers := map[], answers := map[],
         own := s.own.(slots := map[], flights := {}))
    case StorageStep(e) => s.(st := S.Apply(s.st, e))
  }

  /** The operations of entries not acknowledged by a worker. */
  ghost function Unacked(st: S.State): Update {
    set i, o | 0 <= i < |st.stream| && i !in st.acked && o in Payload(st.stream[i]) :: o
  }

  /** In the log, or inserted (and so in the rows, but for what compactions lost). */
  ghost function Durable(st: S.State): Update {
    st.inserted + Unacked(st)
  }

  lemma DurableGrows(st: S.State, e: S.Event)
    requires Inv(st) && S.Enabled(st, e)
    ensures Durable(st) <= Durable(S.Apply(st, e))
  {
    StepGrows(st, e);
    OnlyAckAcks(st, e);
    var st' := S.Apply(st, e);
    if e.Ack? { assert JobOk(st, e.j); }
    forall o | o in Unacked(st) ensures o in Durable(st') {
      var i :| 0 <= i < |st.stream| && i !in st.acked && o in Payload(st.stream[i]);
      assert st'.stream[i] == st.stream[i];
    }
  }

  lemma AppendIsDurable(st: S.State, upd: Update)
    requires Inv(st)
    ensures upd <= Durable(S.Apply(st, S.Event.Append(Some(upd))))
  {
    var st' := S.Apply(st, S.Event.Append(Some(upd)));
    var i := |st.stream|;
    assert st'.stream[i] == Some(upd) && i !in st'.acked;
    forall o | o in upd ensures o in Unacked(st') { assert o in Payload(st'.stream[i]); }
  }

  /** The storage call a task waits for is its own. */
  ghost predicate JobIsOwn(st: S.State, job: nat, upd: Update) {
    && job < st.nextJob
    && (job in st.jobs ==> st.jobs[job].caller.Direct? && st.jobs[job].upd == upd)
    && (job in st.confirmed ==> st.confirmed[job] == upd)
  }

  lemma JobStaysOwn(st: S.State, e: S.Event, job: nat, upd: Update)
    requires Inv(st) && S.Enabled(st, e) && JobIsOwn(st, job, upd)
    ensures JobIsOwn(S.Apply(st, e), job, upd)
  {
    var st' := S.Apply(st, e);
    StepGrows(st, e);
    if job in st'.jobs { StepIdentity(st, e, job); }
    if job in st'.confirmed { ConfirmedIsOwn(st, e, job); }
  }

  lemma ConfirmedIsOwn(st: S.State, e: S.Event, job: nat)
    requires S.Enabled(st, e) && job in S.Apply(st, e).confirmed
    ensures || (job in st.confirmed && S.Apply(st, e).confirmed[job] == st.confirmed[job])
            || (job in st.jobs && S.Apply(st, e).confirmed[job] == st.jobs[job].upd)
  {
    if e.Unlock? || e.Check? {
      ReturnConfirms(st, e, job);
    } else {
      StepGrows(st, e);
    }
  }

  lemma ReturnConfirms(st: S.State, e: S.Event, job: nat)
    requires S.Enabled(st, e) && job in S.Apply(st, e).confirmed && (e.Unlock? || e.Check?)
    ensures || (job in st.confirmed && S.Apply(st, e).confirmed[job] == st.confirmed[job])
            || (job in st.jobs && S.Apply(st, e).confirmed[job] == st.jobs[job].upd)
  {
    var st' := S.Apply(st, e);
    if e.Unlock? {
      assert st'.confirmed == st.confirmed || st'.confirmed == st.confirmed[e.j := st.jobs[e.j].upd];
    } else {
      assert st'.confirmed == st.confirmed || st'.confirmed == st.confirmed[e.j := st.jobs[e.j].upd];
    }
  }

  // What every run keeps of the trackers: a tracker is open only while its message's handler waits for it.

  ghost predicate SlotOk(s: State, c: Conn) {
    R.SlotsOf(s.own, c) != [] ==>
      && c in s.handlers && s.handlers[c].msg == R.SlotsOf(s.own, c)[0].msg
      && s.handlers[c].waits && s.handlers[c].fires
  }

  ghost predicate TrackInv(s: State) {
    && R.Inv(s.own)
    && (forall m :: m in s.tasks ==> m < s.own.next)
    && (forall m :: m in s.answers ==> m in s.own.resolved)
    && (forall c :: c in s.handlers && s.handlers[c].waits ==> s.handlers[c].msg in s.tasks)
    && (forall c :: c in s.own.slots ==> SlotOk(s, c))
  }

  /** The FIFO alone already keeps a connection free of open trackers. */
  lemma FreeConnectionHasNoTracker(s: State, conn: Conn)
    requires TrackInv(s) && conn !in s.handlers
    ensures CanStart(s, conn)
  {
    if conn in s.own.slots { assert SlotOk(s, conn); }
  }

  /** What the start of a message changes. */
  lemma ReceivingFields(s: State, key: Option<Key>, payload: Update, conn: Conn, waits: bool, delta: Update, marks: bool)
    requires CanStart(s, conn) && s.mem.Some?
    ensures var s' := Receiving(s, key, payload, conn, waits, delta, marks);
            && s' == s.(mem := s'.mem, tasks := s'.tasks, handlers := s'.handlers, own := s'.own)
            && s'.mem == Some(s.mem.value + delta)
            && s'.tasks == (if delta != {} || waits then s.tasks[s.own.next := NewTask(key, payload, waits, delta)]
                            else s.tasks)
            && s'.handlers == s.handlers[conn := Handler(s.own.next, waits, delta != {}, key, marks)]
            && s'.own == R.Apply(s.own, StartOf(conn, waits, delta))
  {
  }

  lemma ReceivingTracks(s: State, key: Option<Key>, payload: Update, conn: Conn, waits: bool, delta: Update, marks: bool)
    requires TrackInv(s) && CanStart(s, conn) && s.mem.Some?
    ensures TrackInv(Receiving(s, key, payload, conn, waits, delta, marks))
  {
    hide Receiving;
    ReceivingFields(s, key, payload, conn, waits, delta, marks);
    var s', start := Receiving(s, key, payload, conn, waits, delta, marks), StartOf(conn, waits, delta);
    R.StartEffect(s.own, start);
    R.StepInv(s.own, start);
    forall c | c in s'.own.slots ensures SlotOk(s', c) {
      if c in s.own.slots { assert SlotOk(s, c); }
    }
  }

  lemma FinishTracks(s: State, flight: R.Flight)
    requires TrackInv(s) && Enabled(s, Finish(flight))
    ensures TrackInv(Finishing(s, flight))
  {
    var s' := Finishing(s, flight);
    R.FinishEffect(s.own, flight);
    R.StepInv(s.own, R.Finish(flight));
    forall c | c in s'.own.slots ensures SlotOk(s', c) { assert SlotOk(s, c); }
  }

  lemma ReplyTracks(s: State, conn: Conn)
    requires TrackInv(s) && Enabled(s, Reply(conn))
    ensures TrackInv(Replied(s, conn))
  {
    var s' := Replied(s, conn);
    forall c | c in s'.own.slots ensures SlotOk(s', c) { assert SlotOk(s, c); }
  }

  lemma StepTracks(s: State, e: Event)
    requires TrackInv(s) && Enabled(s, e)
    ensures TrackInv(Apply(s, e))
  {
    if e.Receive? {
      var frame := s.links[e.conn].wire[0];
      ReceivingTracks(OnLink(s, e.conn, Took(s.links[e.conn])), Some(frame.key), frame.upd, e.conn, e.waits, e.delta,
                      s.root);
    } else if e.ReceiveOther? {
      ReceivingTracks(s, None, e.payload, e.conn, e.waits, e.delta, s.root && e.stray);
    } else if e.Finish? {
      FinishTracks(s, e.flight);
    } else if e.Reply? {
      ReplyTracks(s, e.conn);
    } else if e.ServerCrash? {
      assert Apply(s, e).own.slots == map[];
    } else {
      OthersTrack(s, e);
      SameTracks(s, Apply(s, e));
    }
  }

  /** The other events leave trackers, handlers and answers alone, and keep the tasks there are. */
  ghost predicate SameTracking(s: State, s': State) {
    && s'.own == s.own && s'.handlers == s.handlers && s'.answers == s.answers && s'.tasks.Keys == s.tasks.Keys
    && s'.root == s.root
  }

  lemma OthersTrack(s: State, e: Event)
    requires Enabled(s, e)
    requires !e.Receive? && !e.ReceiveOther? && !e.Finish? && !e.Reply? && !e.ServerCrash?
    ensures SameTracking(s, Apply(s, e))
  {
    match e
    case Commit(_, _) =>
    case Connect(_) =>
    case Send(_, _) =>
    case Cut(_, _) =>
    case Ask(_) =>
    case TryAppend(m, how) => AppendingTracks(s, m, how);
    case StoreEnds(_) =>
    case ReceiveAck(_, _) =>
    case LoseAcks(_) =>
    case Load(_) =>
    case Evict =>
    case StorageStep(_) =>
  }

  lemma AppendingTracks(s: State, m: Msg, how: Append)
    requires m in s.tasks
    ensures SameTracking(s, TriedAppend(s, m, how)) && TriedAppend(s, m, how).links == s.links
  {
    match how
    case Appended =>
    case AppendedUnreported =>
    case AppendFailed =>
    case NoFileInfo =>
  }

  lemma SameTracks(s: State, s': State)
    requires TrackInv(s) && SameTracking(s, s')
    ensures TrackInv(s')
  {
    forall c | c in s'.own.slots ensures SlotOk(s', c) { assert SlotOk(s, c); }
    forall c | c in s'.handlers && s'.handlers[c].waits ensures s'.handlers[c].msg in s'.tasks {
      assert s.handlers[c].msg in s.tasks.Keys;
    }
    assert forall m :: m in s'.tasks ==> m in s.tasks.Keys;
  }

  /** Neither memory nor persistences nor storage: the client, the wires, answers. */
  ghost predicate Outside(e: Event) {
    || e.Commit? || e.Connect? || e.Send? || e.Cut? || e.Ask? || e.Finish? || e.Reply? || e.ReceiveAck? || e.LoseAcks?
  }

  lemma OutsideStays(s: State, e: Event)
    requires Enabled(s, e) && Outside(e)
    ensures var s' := Apply(s, e); s'.mem == s.mem && s'.tasks == s.tasks && s'.st == s.st
  {
    match e
    case Commit(_, _) =>
    case Connect(_) =>
    case Send(_, _) =>
    case Cut(_, _) =>
    case Ask(_) =>
    case Finish(_) =>
    case Reply(_) =>
    case ReceiveAck(_, _) =>
    case LoseAcks(_) =>
  }

  // What settled runs keep: a positive answer is the message's own persistence's.

  ghost predicate OwnInv(s: State) {
    && R.AllOwn(s.own)
    && (forall m :: m in s.answers && s.answers[m] && m in s.tasks ==> s.tasks[m].stage == Done(true))
  }

  /** No message starts while a cancelled one's persistence is in flight on its connection and document. */
  ghost predicate SettledStart(s: State, e: Event) {
    (e.Receive? || e.ReceiveOther?) ==> R.Settled(s.own, StartOf(e.conn, e.waits, e.delta))
  }

  lemma ReceivingOwns(s: State, key: Option<Key>, payload: Update, conn: Conn, waits: bool, delta: Update, marks: bool)
    requires TrackInv(s) && OwnInv(s) && CanStart(s, conn) && s.mem.Some?
    requires R.Settled(s.own, StartOf(conn, waits, delta))
    ensures OwnInv(Receiving(s, key, payload, conn, waits, delta, marks))
  {
    hide Receiving;
    ReceivingFields(s, key, payload, conn, waits, delta, marks);
    R.StartAllOwn(s.own, StartOf(conn, waits, delta));
    assert s.own.next !in s.answers;
  }

  lemma FrameOwns(s: State, e: Event)
    requires TrackInv(s) && OwnInv(s) && Enabled(s, e) && SettledStart(s, e) && e.Receive?
    ensures OwnInv(Apply(s, e))
  {
    hide Receiving;
    var frame := s.links[e.conn].wire[0];
    ReceivingOwns(OnLink(s, e.conn, Took(s.links[e.conn])), Some(frame.key), frame.upd, e.conn, e.waits, e.delta, s.root);
  }

  lemma FinishOwns(s: State, flight: R.Flight)
    requires TrackInv(s) && OwnInv(s) && Enabled(s, Finish(flight))
    ensures OwnInv(Finishing(s, flight))
  {
    var s' := Finishing(s, flight);
    R.FinishEffect(s.own, flight);
    R.FinishAllOwn(s.own, flight);
    forall m | m in s'.answers && s'.answers[m] && m in s'.tasks ensures s'.tasks[m].stage == Done(true) {
      if m !in s.answers { assert s'.own.resolved[m] == R.By(flight.msg); }
    }
  }

  lemma TaskOwns(s: State, m: Msg, stage: Stage)
    requires OwnInv(s) && m in s.tasks && s.tasks[m].stage != Done(true)
    ensures OwnInv(At(s, m, stage))
  {
  }

  lemma StepOwns(s: State, e: Event)
    requires TrackInv(s) && OwnInv(s) && Enabled(s, e) && SettledStart(s, e)
    ensures OwnInv(Apply(s, e))
  {
    hide OwnInv, TrackInv, Receiving;
    if e.Receive? {
      FrameOwns(s, e);
    } else if e.ReceiveOther? {
      ReceivingOwns(s, None, e.payload, e.conn, e.waits, e.delta, s.root && e.stray);
    } else if e.Finish? {
      FinishOwns(s, e.flight);
    } else if e.TryAppend? {
      TryAppendOwns(s, e.m, e.how);
    } else if e.StoreEnds? {
      TaskOwns(s, e.m, Done(s.tasks[e.m].stage.job in s.st.confirmed));
    } else if e.ServerCrash? {
      CrashOwns(s);
    } else {
      OthersOwn(s, e);
    }
  }

  lemma OthersOwn(s: State, e: Event)
    requires OwnInv(s) && Enabled(s, e)
    requires !e.Receive? && !e.ReceiveOther? && !e.Finish? && !e.TryAppend? && !e.StoreEnds? && !e.ServerCrash?
    ensures OwnInv(Apply(s, e))
  {
    if Outside(e) { OutsideStays(s, e); }
    if !e.Reply? { OthersTrack(s, e); }
  }

  lemma CrashOwns(s: State)
    requires OwnInv(s)
    ensures OwnInv(Apply(s, ServerCrash))
  {
    assert Apply(s, ServerCrash).own.resolved == s.own.resolved;
  }

  lemma TryAppendOwns(s: State, m: Msg, how: Append)
    requires OwnInv(s) && Enabled(s, TryAppend(m, how))
    ensures OwnInv(TriedAppend(s, m, how))
  {
    var s' := TriedAppend(s, m, how);
    AppendingTracks(s, m, how);
    assert s'.tasks == s.tasks[m := s'.tasks[m]];
  }

  /** So an answer with a positive result is for a persistence that ended well, and is the message's own. */
  lemma ResultIsOwn(s: State, h: Handler)
    requires OwnInv(s) && Ready(s, h) && Result(s, h) && h.msg in s.tasks
    ensures s.tasks[h.msg].stage == Done(true)
  {
  }

  // What connections without stray markers keep: markers, requests and entries correspond.

  /** A request follows the frame of its entry, and a frame comes when the request before it was sent. */
  ghost predicate WireAt(l: Link, i: nat)
    requires i < |l.wire|
  {
    if l.wire[i].RequestOf? then
      if i == 0 then |l.reqs| + 1 == |l.got| && l.got[|l.reqs|] == l.wire[0].key
      else l.wire[i - 1].FrameOf? && l.wire[i - 1].key == l.wire[i].key
    else if i == 0 then |l.reqs| == |l.got| else l.wire[i - 1].RequestOf?
  }

  /** While the connection is open, the last request was sent, too. */
  ghost predicate WireOk(l: Link) {
    && (forall i :: 0 <= i < |l.wire| ==> WireAt(l, i))
    && (l.open ==> if l.wire == [] then |l.reqs| == |l.got| else l.wire[|l.wire| - 1].RequestOf?)
  }

  /** The entries received have had their markers, but for the one that is being handled. */
  ghost predicate LinkOk(l: Link, busy: Option<Key>) {
    && |l.marks| + (if busy.Some? then 1 else 0) == |l.got|
    && (busy.Some? ==> l.got[|l.got| - 1] == busy.value)
    && |l.reqs| <= |l.marks| && l.reqs <= l.got && WireOk(l)
  }

  ghost function Busy(s: State, c: Conn): Option<Key> {
    if c in s.handlers && s.handlers[c].marks then s.handlers[c].key else None
  }

  ghost predicate LinkInv(s: State) {
    && (forall c :: c in s.handlers && s.handlers[c].marks ==> s.root && s.handlers[c].key.Some? && c in s.links)
    && (s.root ==> forall c :: c in s.links ==> LinkOk(s.links[c], Busy(s, c)))
    && (!s.root ==> forall c :: c in s.links ==> s.links[c].marks == [])
  }

  /** Only frames of entries leave markers. */
  ghost predicate NoStray(e: Event) {
    e.ReceiveOther? ==> !e.stray
  }

  lemma SentOk(l: Link, busy: Option<Key>, key: Key, upd: Update)
    requires LinkOk(l, busy) && l.open
    ensures LinkOk(Sent(l, key, upd, true), busy)
  {
    var l', n := Sent(l, key, upd, true), |l.wire|;
    forall i | 0 <= i < |l'.wire| ensures WireAt(l', i) {
      if i < n {
        assert WireAt(l, i) && l'.wire[i] == l.wire[i] && (i > 0 ==> l'.wire[i - 1] == l.wire[i - 1]);
      } else if i == n {
        assert l'.wire[n] == FrameOf(key, upd) && (n > 0 ==> l'.wire[n - 1] == l.wire[n - 1]);
      } else {
        assert l'.wire[n] == FrameOf(key, upd) && l'.wire[n + 1] == RequestOf(key);
      }
    }
  }

  lemma CutOk(l: Link, busy: Option<Key>, keep: nat)
    requires LinkOk(l, busy) && keep <= |l.wire|
    ensures LinkOk(l.(open := false, wire := l.wire[..keep]), busy)
  {
    var l' := l.(open := false, wire := l.wire[..keep]);
    forall i | 0 <= i < |l'.wire| ensures WireAt(l', i) { assert WireAt(l, i); }
  }

  /** Without its head, which was dealt with, the wire is as it should be. */
  lemma ShorterOk(l: Link, l': Link)
    requires WireOk(l) && l.wire != [] && l'.wire == l.wire[1..] && l'.open == l.open
    requires if l.wire[0].FrameOf? then |l'.reqs| + 1 == |l'.got| && l'.got[|l'.reqs|] == l.wire[0].key
             else |l'.reqs| == |l'.got|
    ensures WireOk(l')
  {
    assert WireAt(l, 0);
    forall i | 0 <= i < |l'.wire| ensures WireAt(l', i) { assert WireAt(l, i + 1); }
  }

  lemma TookOk(l: Link)
    requires LinkOk(l, None) && l.wire != [] && l.wire[0].FrameOf?
    ensures LinkOk(Took(l), Some(l.wire[0].key))
  {
    assert WireAt(l, 0);
    assert Took(l).got[..|l.got|] == l.got;
    ShorterOk(l, Took(l));
  }

  lemma AskedOk(l: Link)
    requires LinkOk(l, None) && l.wire != [] && l.wire[0].RequestOf?
    ensures LinkOk(Asked(l), None)
  {
    assert WireAt(l, 0);
    assert Asked(l).reqs == l.got[..|l.reqs| + 1];
    ShorterOk(l, Asked(l));
  }

  lemma MarkedOk(l: Link, key: Key, applied: bool)
    requires LinkOk(l, Some(key))
    ensures LinkOk(Marked(l, applied), None) && EarnedByMark(l, applied) == {}
    ensures l.got[|l.marks|] == key
  {
    var l' := Marked(l, applied);
    forall i | 0 <= i < |l'.wire| ensures WireAt(l', i) { assert WireAt(l, i); }
  }

  lemma LinkMoves(s: State, conn: Conn, l: Link)
    requires LinkInv(s) && conn in s.links
    requires if s.root then LinkOk(l, Busy(s, conn)) else l.marks == s.links[conn].marks
    ensures LinkInv(OnLink(s, conn, l))
  {
    var s' := OnLink(s, conn, l);
    forall c | c in s'.links && s.root ensures LinkOk(s'.links[c], Busy(s', c)) {
      assert Busy(s', c) == Busy(s, c);
    }
  }

  lemma StepLinks(s: State, e: Event)
    requires LinkInv(s) && Enabled(s, e) && NoStray(e)
    ensures LinkInv(Apply(s, e))
  {
    hide LinkInv;
    match e
    case Connect(conn) => ConnectLinks(s, conn);
    case Send(_, _) => WireLinks(s, e);
    case Cut(_, _) => WireLinks(s, e);
    case Ask(_) => WireLinks(s, e);
    case Receive(_, _, _) => ReceiveLinks(s, e);
    case ReceiveOther(_, _, _, _, _) => OtherLinks(s, e);
    case Reply(conn) => ReplyLinks(s, conn);
    case ServerCrash => CrashLinks(s);
    case _ => SameLinks(s, e);
  }

  lemma WireLinks(s: State, e: Event)
    requires LinkInv(s) && Enabled(s, e) && (e.Send? || e.Cut? || e.Ask?)
    ensures LinkInv(Apply(s, e))
  {
    var l := s.links[e.conn];
    match e
    case Send(key, conn) =>
      if s.root { SentOk(l, Busy(s, conn), key, s.box[key]); }
      LinkMoves(s, conn, Sent(l, key, s.box[key], s.root));
    case Cut(conn, keep) =>
      if s.root { CutOk(l, Busy(s, conn), keep); }
      LinkMoves(s, conn, l.(open := false, wire := l.wire[..keep]));
    case Ask(conn) =>
      if s.root { AskedOk(l); }
      LinkMoves(s, conn, Asked(l));
  }

  lemma CrashLinks(s: State)
    requires LinkInv(s)
    ensures LinkInv(Apply(s, ServerCrash))
  {
  }

  lemma SameLinks(s: State, e: Event)
    requires LinkInv(s) && Enabled(s, e)
    requires !e.Connect? && !e.Send? && !e.Cut? && !e.Ask? && !e.Receive? && !e.ReceiveOther? && !e.Reply? && !e.ServerCrash?
    ensures LinkInv(Apply(s, e))
  {
    if e.Finish? {
      assert Apply(s, e).handlers == s.handlers && Apply(s, e).links == s.links;
    } else {
      OthersTrack(s, e);
      OthersKeepLinks(s, e);
    }
    assert forall c :: Busy(Apply(s, e), c) == Busy(s, c);
  }

  lemma OthersKeepLinks(s: State, e: Event)
    requires Enabled(s, e)
    requires !e.Connect? && !e.Send? && !e.Cut? && !e.Ask? && !e.Receive? && !e.ReceiveOther? && !e.Reply? && !e.ServerCrash?
    ensures Apply(s, e).links == s.links && Apply(s, e).root == s.root
  {
    match e
    case TryAppend(m, how) => AppendingTracks(s, m, how);
    case _ =>
  }

  lemma ConnectLinks(s: State, conn: Conn)
    requires LinkInv(s) && conn !in s.links
    ensures LinkInv(Apply(s, Connect(conn)))
  {
    var s' := Apply(s, Connect(conn));
    forall c | c in s'.links && s.root ensures LinkOk(s'.links[c], Busy(s', c)) {
      assert Busy(s', c) == Busy(s, c);
    }
  }

  lemma ReceiveLinks(s: State, e: Event)
    requires LinkInv(s) && Enabled(s, e) && e.Receive?
    ensures LinkInv(Apply(s, e))
  {
    var s', l := Apply(s, e), s.links[e.conn];
    assert s'.links == s.links[e.conn := Took(l)];
    assert s'.handlers == s.handlers[e.conn := s'.handlers[e.conn]] && s'.handlers[e.conn].marks == s.root;
    if s.root { TookOk(l); }
    forall c | c in s'.links && s.root ensures LinkOk(s'.links[c], Busy(s', c)) {
      if c != e.conn { assert Busy(s', c) == Busy(s, c); }
    }
  }

  lemma OtherLinks(s: State, e: Event)
    requires LinkInv(s) && Enabled(s, e) && e.ReceiveOther? && !e.stray
    ensures LinkInv(Apply(s, e))
  {
    var s' := Apply(s, e);
    assert s'.links == s.links && s'.handlers == s.handlers[e.conn := s'.handlers[e.conn]];
    forall c | c in s'.links && s.root ensures LinkOk(s'.links[c], Busy(s', c)) {
      assert Busy(s', c) == Busy(s, c);
    }
  }

  lemma ReplyLinks(s: State, conn: Conn)
    requires LinkInv(s) && Enabled(s, Reply(conn))
    ensures LinkInv(Replied(s, conn))
  {
    var s', h := Replied(s, conn), s.handlers[conn];
    if h.marks { MarkedOk(s.links[conn], h.key.value, Result(s, h)); }
    forall c | c in s'.links && s.root ensures LinkOk(s'.links[c], Busy(s', c)) {
      if c != conn { assert Busy(s', c) == Busy(s, c); }
    }
  }

  // What every run keeps of what is stored.

  /** A task that ended well is durable, and the storage call that one waits for is its own. */
  ghost predicate TaskOk(task: Task, st: S.State) {
    && (task.stage == Done(true) ==> task.persisting <= Durable(st))
    && (task.stage.Storing? ==> JobIsOwn(st, task.stage.job, task.persisting))
  }

  /** The operations of updates whose persistence failed or still runs. */
  ghost function Unpersisted(tasks: map<Msg, Task>): Update {
    set m, o | m in tasks && tasks[m].stage != Done(true) && o in tasks[m].persisting :: o
  }

  ghost predicate MemOk(mem: Option<Update>, tasks: map<Msg, Task>, durable: Update) {
    mem.Some? ==> mem.value <= durable + Unpersisted(tasks)
  }

  ghost predicate BaseInv(s: State) {
    && Inv(s.st) && (forall m :: m in s.tasks ==> TaskOk(s.tasks[m], s.st)) && MemOk(s.mem, s.tasks, Durable(s.st))
  }

  lemma StorageKeepsBase(s: State, e: S.Event)
    requires BaseInv(s) && S.Enabled(s.st, e)
    ensures BaseInv(s.(st := S.Apply(s.st, e)))
  {
    var st' := S.Apply(s.st, e);
    StepInv(s.st, e);
    DurableGrows(s.st, e);
    forall m | m in s.tasks ensures TaskOk(s.tasks[m], st') {
      assert TaskOk(s.tasks[m], s.st);
      if s.tasks[m].stage.Storing? { JobStaysOwn(s.st, e, s.tasks[m].stage.job, s.tasks[m].persisting); }
    }
  }

  lemma MemAfterTask(mem: Option<Update>, tasks: map<Msg, Task>, durable: Update, m: Msg, stage: Stage)
    requires MemOk(mem, tasks, durable) && m in tasks
    requires stage == Done(true) ==> tasks[m].persisting <= durable
    ensures MemOk(mem, tasks[m := tasks[m].(stage := stage)], durable)
  {
    var tasks' := tasks[m := tasks[m].(stage := stage)];
    forall o | o in Unpersisted(tasks) ensures o in durable + Unpersisted(tasks') {
      var n :| n in tasks && tasks[n].stage != Done(true) && o in tasks[n].persisting;
      if n != m || stage != Done(true) { assert n in tasks' && o in tasks'[n].persisting; }
    }
  }

  /** One task gets to another stage. */
  lemma TaskKeepsBase(s: State, m: Msg, stage: Stage)
    requires BaseInv(s) && m in s.tasks && TaskOk(s.tasks[m].(stage := stage), s.st)
    ensures BaseInv(At(s, m, stage))
  {
    MemAfterTask(s.mem, s.tasks, Durable(s.st), m, stage);
  }

  lemma AppendMoves(s: State, m: Msg)
    requires BaseInv(s) && m in s.tasks
    ensures var entry := S.Event.Append(Some(s.tasks[m].persisting));
            BaseInv(s.(st := S.Apply(s.st, entry))) && s.tasks[m].persisting <= Durable(S.Apply(s.st, entry))
  {
    StorageKeepsBase(s, S.Event.Append(Some(s.tasks[m].persisting)));
    AppendIsDurable(s.st, s.tasks[m].persisting);
  }

  lemma DirectMoves(s: State, m: Msg)
    requires BaseInv(s) && m in s.tasks
    ensures var direct := S.StartDirect(s.tasks[m].persisting);
            && BaseInv(s.(st := S.Apply(s.st, direct)))
            && JobIsOwn(S.Apply(s.st, direct), s.st.nextJob, s.tasks[m].persisting)
  {
    StorageKeepsBase(s, S.StartDirect(s.tasks[m].persisting));
    assert forall j :: j in s.st.confirmed ==> j < s.st.nextJob;
  }

  lemma TryAppendKeepsBase(s: State, m: Msg, how: Append)
    requires BaseInv(s) && Enabled(s, TryAppend(m, how))
    ensures BaseInv(TriedAppend(s, m, how))
  {
    assert TaskOk(s.tasks[m], s.st);
    match how
    case Appended =>
      AppendMoves(s, m);
      TaskKeepsBase(s.(st := S.Apply(s.st, S.Event.Append(Some(s.tasks[m].persisting)))), m, Done(true));
    case AppendedUnreported =>
      AppendMoves(s, m);
      var s1 := s.(st := S.Apply(s.st, S.Event.Append(Some(s.tasks[m].persisting))));
      DirectMoves(s1, m);
      TaskKeepsBase(s1.(st := S.Apply(s1.st, S.StartDirect(s.tasks[m].persisting))), m, Storing(s.st.nextJob));
    case AppendFailed =>
      DirectMoves(s, m);
      TaskKeepsBase(s.(st := S.Apply(s.st, S.StartDirect(s.tasks[m].persisting))), m, Storing(s.st.nextJob));
    case NoFileInfo => TaskKeepsBase(s, m, Done(false));
  }

  lemma MemAfterReceipt(mem: Update, tasks: map<Msg, Task>, durable: Update, m: Msg, task: Task, delta: Update)
    requires MemOk(Some(mem), tasks, durable) && m !in tasks
    requires task.stage.Appending? && delta <= task.persisting
    ensures MemOk(Some(mem + delta), tasks[m := task], durable)
  {
    var tasks' := tasks[m := task];
    forall o | o in Unpersisted(tasks) ensures o in Unpersisted(tasks') {
      var n :| n in tasks && tasks[n].stage != Done(true) && o in tasks[n].persisting;
      assert n in tasks' && o in tasks'[n].persisting;
    }
    forall o | o in delta ensures o in Unpersisted(tasks') { assert m in tasks' && o in tasks'[m].persisting; }
  }

  lemma ReceivingKeepsBase(s: State, key: Option<Key>, payload: Update, conn: Conn, waits: bool, delta: Update,
                           marks: bool)
    requires BaseInv(s) && TrackInv(s) && CanStart(s, conn) && s.mem.Some?
    ensures BaseInv(Receiving(s, key, payload, conn, waits, delta, marks))
  {
    hide Receiving;
    ReceivingFields(s, key, payload, conn, waits, delta, marks);
    var m, d, task := s.own.next, Durable(s.st), NewTask(key, payload, waits, delta);
    assert m !in s.tasks;
    if delta != {} || waits {
      MemAfterReceipt(s.mem.value, s.tasks, d, m, task, delta);
    } else {
      assert s.mem.value + delta == s.mem.value;
    }
  }

  lemma LoadKeepsBase(s: State, cut: nat)
    requires BaseInv(s) && Enabled(s, Load(cut))
    ensures BaseInv(Apply(s, Load(cut)))
  {
    forall o | o in S.Doc(S.Below(s.st.rows, cut)) ensures o in S.Doc(s.st.rows) {
      var k :| k in S.Below(s.st.rows, cut) && o in S.Below(s.st.rows, cut)[k].upd;
      assert k in s.st.rows && o in s.st.rows[k].upd;
    }
  }

  lemma StepKeepsBase(s: State, e: Event)
    requires BaseInv(s) && TrackInv(s) && Enabled(s, e)
    ensures BaseInv(Apply(s, e))
  {
    hide BaseInv, TrackInv;
    match e
    case Receive(conn, waits, delta) =>
      var l := s.links[conn];
      SameTracks(s, OnLink(s, conn, Took(l)));
      SameBase(s, OnLink(s, conn, Took(l)));
      ReceivingKeepsBase(OnLink(s, conn, Took(l)), Some(l.wire[0].key), l.wire[0].upd, conn, waits, delta, s.root);
    case ReceiveOther(payload, conn, waits, delta, stray) =>
      ReceivingKeepsBase(s, None, payload, conn, waits, delta, s.root && stray);
    case TryAppend(m, how) => TryAppendKeepsBase(s, m, how);
    case StoreEnds(m) => StoreEndsKeepsBase(s, m);
    case Load(cut) => LoadKeepsBase(s, cut);
    case StorageStep(e) => StorageKeepsBase(s, e);
    case _ => OthersKeepBase(s, e);
  }

  lemma StoreEndsKeepsBase(s: State, m: Msg)
    requires BaseInv(s) && Enabled(s, StoreEnds(m))
    ensures BaseInv(Apply(s, StoreEnds(m)))
  {
    assert TaskOk(s.tasks[m], s.st);
    TaskKeepsBase(s, m, Done(s.tasks[m].stage.job in s.st.confirmed));
  }

  lemma SameBase(s: State, s': State)
    requires BaseInv(s) && s'.mem == s.mem && s'.tasks == s.tasks && s'.st == s.st
    ensures BaseInv(s')
  {
  }

  lemma OthersKeepBase(s: State, e: Event)
    requires BaseInv(s) && Enabled(s, e) && (Outside(e) || e.Evict? || e.ServerCrash?)
    ensures BaseInv(Apply(s, e))
  {
    if Outside(e) {
      hide BaseInv;
      OutsideStays(s, e);
      SameBase(s, Apply(s, e));
    } else {
      assert Apply(s, e).mem.None?;
    }
  }

  // What becomes of one entry.

  /** Frames carry the entry as it was committed, and only durable entries have good markers. */
  ghost predicate LinkHolds(l: Link, ever: map<Key, Update>, d: Update, k: Key) {
    && (forall i :: 0 <= i < |l.wire| && l.wire[i].FrameOf? && l.wire[i].key == k ==>
          k in ever && l.wire[i].upd == ever[k])
    && (forall i :: 0 <= i < |l.marks| && i < |l.got| && l.marks[i] && l.got[i] == k ==> k in ever && ever[k] <= d)
  }

  ghost predicate TaskHolds(task: Task, ever: map<Key, Update>, d: Update, k: Key) {
    task.key == Some(k) ==> k in ever && task.payload == ever[k] && ever[k] <= task.persisting + d
  }

  ghost predicate HandlerHolds(h: Handler, tasks: map<Msg, Task>, k: Key) {
    h.waits && h.key == Some(k) ==> h.msg in tasks && tasks[h.msg].key == Some(k)
  }

  ghost predicate KeySafe(s: State, k: Key) {
    && (k in s.box ==> k in s.ever && s.box[k] == s.ever[k])
    && (k in s.ever ==> k in s.box || s.ever[k] <= Durable(s.st))
    && (k in s.acks ==> k in s.ever && s.ever[k] <= Durable(s.st))
  }

  ghost predicate KeyInv(s: State, k: Key) {
    && KeySafe(s, k)
    && (forall m :: m in s.tasks ==> TaskHolds(s.tasks[m], s.ever, Durable(s.st), k))
    && (forall c :: c in s.handlers ==> HandlerHolds(s.handlers[c], s.tasks, k))
    && (forall c :: c in s.links ==> LinkHolds(s.links[c], s.ever, Durable(s.st), k))
  }

  /** What a receipt's listener does not see of the entry is durable. */
  ghost predicate SoundReceipt(s: State, e: Event, k: Key) {
    e.Receive? && HeadIsFrame(s, e.conn) && s.links[e.conn].wire[0].key == k && e.waits && e.delta != {} ==>
      s.links[e.conn].wire[0].upd - e.delta <= Durable(s.st)
  }

  /** All of it was known to the document or was added to it: none of it waits for missing predecessors. */
  ghost predicate Complete(mem: Update, payload: Update, delta: Update) {
    payload <= mem + delta
  }

  /**
   A received entry is all known to the server's document; or it shares no known operation with an update whose
   persistence failed or still runs, and if it changes the document it is applied completely.
   */
  ghost predicate CleanReceipt(s: State, e: Event, k: Key) {
    e.Receive? && HeadIsFrame(s, e.conn) && s.links[e.conn].wire[0].key == k && s.mem.Some? ==>
      var payload := s.links[e.conn].wire[0].upd;
      || payload <= s.mem.value
      || (payload * s.mem.value !! Unpersisted(s.tasks)
          && (e.waits && e.delta != {} ==> Complete(s.mem.value, payload, e.delta)))
  }

  lemma CleanIsSound(s: State, e: Event, k: Key)
    requires BaseInv(s) && Enabled(s, e) && CleanReceipt(s, e, k)
    ensures SoundReceipt(s, e, k)
  {
  }

  lemma NewOrKnownIsClean(s: State, e: Event, k: Key)
    requires e.Receive? && HeadIsFrame(s, e.conn) && s.mem.Some?
    requires var payload := s.links[e.conn].wire[0].upd;
             payload <= s.mem.value || (payload !! s.mem.value && payload <= e.delta)
    ensures CleanReceipt(s, e, k)
  {
    var payload := s.links[e.conn].wire[0].upd;
    assert payload !! s.mem.value ==> payload * s.mem.value == {};
  }

  lemma LinkKeeps(l: Link, l': Link, ever: map<Key, Update>, d: Update, k: Key)
    requires LinkHolds(l, ever, d, k) && l'.marks == l.marks && l.got <= l'.got && |l.marks| <= |l.got|
    requires forall i :: 0 <= i < |l'.wire| && l'.wire[i].FrameOf? && l'.wire[i].key == k ==>
               l'.wire[i] in l.wire || (k in ever && l'.wire[i].upd == ever[k])
    ensures LinkHolds(l', ever, d, k)
  {
  }

  /** The entry is not concerned, or more is durable. */
  lemma KeyStays(s: State, s': State, k: Key)
    requires KeyInv(s, k) && s'.ever == s.ever && s'.box == s.box && s'.acks <= s.acks
    requires s'.links == s.links && s'.handlers == s.handlers && Durable(s.st) <= Durable(s'.st)
    requires s'.tasks.Keys == s.tasks.Keys
    requires forall m :: m in s.tasks ==>
               && s'.tasks[m].key == s.tasks[m].key && s'.tasks[m].payload == s.tasks[m].payload
               && s'.tasks[m].persisting == s.tasks[m].persisting
    ensures KeyInv(s', k)
  {
    var d, d' := Durable(s.st), Durable(s'.st);
    forall m | m in s'.tasks ensures TaskHolds(s'.tasks[m], s'.ever, d', k) {
      assert m in s.tasks.Keys && TaskHolds(s.tasks[m], s.ever, d, k);
    }
    forall c | c in s'.handlers ensures HandlerHolds(s'.handlers[c], s'.tasks, k) {
      assert HandlerHolds(s.handlers[c], s.tasks, k);
      if s.handlers[c].msg in s.tasks { assert s.handlers[c].msg in s'.tasks.Keys; }
    }
    forall c | c in s'.links ensures LinkHolds(s'.links[c], s'.ever, d', k) { assert LinkHolds(s.links[c], s.ever, d, k); }
  }

  lemma CommitHolds(s: State, key: Key, upd: Update, k: Key)
    requires KeyInv(s, k) && Enabled(s, Commit(key, upd))
    ensures KeyInv(Apply(s, Commit(key, upd)), k)
  {
    var s', d := Apply(s, Commit(key, upd)), Durable(s.st);
    forall m | m in s'.tasks ensures TaskHolds(s'.tasks[m], s'.ever, d, k) { assert TaskHolds(s.tasks[m], s.ever, d, k); }
    forall c | c in s'.handlers ensures HandlerHolds(s'.handlers[c], s'.tasks, k) {
      assert HandlerHolds(s.handlers[c], s.tasks, k);
    }
    forall c | c in s'.links ensures LinkHolds(s'.links[c], s'.ever, d, k) { assert LinkHolds(s.links[c], s.ever, d, k); }
  }

  /** One connection changes, and acks for durable entries are added. */
  lemma LinkChanges(s: State, conn: Conn, l: Link, acks: set<Key>, k: Key)
    requires KeyInv(s, k) && LinkHolds(l, s.ever, Durable(s.st), k)
    requires k in acks ==> k in s.ever && s.ever[k] <= Durable(s.st)
    ensures KeyInv(OnLink(s, conn, l).(acks := s.acks + acks), k)
  {
    var s', d := OnLink(s, conn, l).(acks := s.acks + acks), Durable(s.st);
    forall m | m in s'.tasks ensures TaskHolds(s'.tasks[m], s'.ever, d, k) { assert TaskHolds(s.tasks[m], s.ever, d, k); }
    forall c | c in s'.handlers ensures HandlerHolds(s'.handlers[c], s'.tasks, k) {
      assert HandlerHolds(s.handlers[c], s.tasks, k);
    }
    forall c | c in s'.links ensures LinkHolds(s'.links[c], s'.ever, d, k) {
      if c != conn { assert LinkHolds(s.links[c], s.ever, d, k); }
    }
  }

  lemma WireHolds(s: State, e: Event, k: Key)
    requires KeyInv(s, k) && LinkInv(s) && Enabled(s, e) && (e.Connect? || e.Send? || e.Cut?)
    ensures KeyInv(Apply(s, e), k)
  {
    assert s.acks + {} == s.acks;
    match e
    case Connect(conn) => LinkChanges(s, conn, Link(true, [], [], [], []), {}, k);
    case Send(key, conn) =>
      var l, l' := s.links[conn], Sent(s.links[conn], key, s.box[key], s.root);
      assert forall i :: 0 <= i < |l'.wire| && l'.wire[i].FrameOf? ==>
               l'.wire[i] in l.wire || l'.wire[i] == FrameOf(key, s.box[key]);
      LinkKeeps(l, l', s.ever, Durable(s.st), k);
      LinkChanges(s, conn, l', {}, k);
    case Cut(conn, keep) =>
      var l, l' := s.links[conn], s.links[conn].(open := false, wire := s.links[conn].wire[..keep]);
      LinkKeeps(l, l', s.ever, Durable(s.st), k);
      LinkChanges(s, conn, l', {}, k);
  }

  /** A request is acknowledged only if its marker is good, and so if its entry is durable. */
  lemma AskHolds(s: State, conn: Conn, k: Key)
    requires KeyInv(s, k) && LinkInv(s) && Enabled(s, Ask(conn))
    ensures KeyInv(Apply(s, Ask(conn)), k)
  {
    var l := s.links[conn];
    LinkKeeps(l, Asked(l), s.ever, Durable(s.st), k);
    if k in EarnedByRequest(l, l.wire[0].key) {
      assert s.root && LinkOk(l, Busy(s, conn)) && WireAt(l, 0);
      assert LinkHolds(l, s.ever, Durable(s.st), k);
    }
    LinkChanges(s, conn, Asked(l), EarnedByRequest(l, l.wire[0].key), k);
  }

  lemma ReceivingHolds(s: State, key: Option<Key>, payload: Update, conn: Conn, waits: bool, delta: Update, marks: bool,
                       k: Key)
    requires KeyInv(s, k) && TrackInv(s) && CanStart(s, conn) && s.mem.Some?
    requires key == Some(k) ==> k in s.ever && payload == s.ever[k]
    requires key == Some(k) && waits && delta != {} ==> payload - delta <= Durable(s.st)
    ensures KeyInv(Receiving(s, key, payload, conn, waits, delta, marks), k)
  {
    hide Receiving;
    ReceivingFields(s, key, payload, conn, waits, delta, marks);
    var s', d := Receiving(s, key, payload, conn, waits, delta, marks), Durable(s.st);
    var task := NewTask(key, payload, waits, delta);
    assert s.own.next !in s.tasks;
    forall m | m in s'.tasks ensures TaskHolds(s'.tasks[m], s'.ever, d, k) {
      if m in s.tasks { assert TaskHolds(s.tasks[m], s.ever, d, k); }
    }
    forall c | c in s'.handlers ensures HandlerHolds(s'.handlers[c], s'.tasks, k) {
      if c != conn { assert HandlerHolds(s.handlers[c], s.tasks, k); }
    }
    forall c | c in s'.links ensures LinkHolds(s'.links[c], s'.ever, d, k) { assert LinkHolds(s.links[c], s.ever, d, k); }
  }

  lemma FrameTaken(s: State, conn: Conn, k: Key)
    requires KeyInv(s, k) && LinkInv(s) && HeadIsFrame(s, conn)
    ensures KeyInv(OnLink(s, conn, Took(s.links[conn])), k)
    ensures var frame := s.links[conn].wire[0]; frame.key == k ==> k in s.ever && frame.upd == s.ever[k]
  {
    var l, s1 := s.links[conn], OnLink(s, conn, Took(s.links[conn]));
    assert LinkHolds(l, s.ever, Durable(s.st), k) && (s.root ==> LinkOk(l, Busy(s, conn)));
    LinkKeeps(l, Took(l), s.ever, Durable(s.st), k);
    LinkChanges(s, conn, Took(l), {}, k);
    assert s1.(acks := s.acks + {}) == s1;
  }

  lemma ReceiveHolds(s: State, e: Event, k: Key)
    requires KeyInv(s, k) && TrackInv(s) && LinkInv(s) && Enabled(s, e) && e.Receive? && SoundReceipt(s, e, k)
    ensures KeyInv(Apply(s, e), k)
  {
    var l, frame := s.links[e.conn], s.links[e.conn].wire[0];
    var s1 := OnLink(s, e.conn, Took(l));
    FrameTaken(s, e.conn, k);
    hide KeyInv, TrackInv, LinkInv;
    SameTracks(s, s1);
    ReceivingHolds(s1, Some(frame.key), frame.upd, e.conn, e.waits, e.delta, s.root, k);
  }

  /** A positive answer is for a durable entry. */
  lemma PositiveIsDurable(s: State, conn: Conn, k: Key)
    requires KeyInv(s, k) && BaseInv(s) && OwnInv(s) && Enabled(s, Reply(conn))
    requires Result(s, s.handlers[conn]) && s.handlers[conn].key == Some(k)
    ensures k in s.ever && s.ever[k] <= Durable(s.st)
  {
    var h := s.handlers[conn];
    assert HandlerHolds(h, s.tasks, k);
    ResultIsOwn(s, h);
    assert TaskHolds(s.tasks[h.msg], s.ever, Durable(s.st), k) && TaskOk(s.tasks[h.msg], s.st);
  }

  lemma ReplyHolds(s: State, conn: Conn, k: Key)
    requires KeyInv(s, k) && BaseInv(s) && OwnInv(s) && LinkInv(s) && Enabled(s, Reply(conn))
    ensures KeyInv(Replied(s, conn), k)
  {
    var h, r := s.handlers[conn], Result(s, s.handlers[conn]);
    var s1 := s.(handlers := s.handlers - {conn});
    if r && h.key == Some(k) { PositiveIsDurable(s, conn, k); }
    HandlerGoes(s, conn, k);
    if h.marks {
      var l := s.links[conn];
      MarkedOk(l, h.key.value, r);
      MarkedHolds(l, r, s.ever, Durable(s.st), k);
      LinkChanges(s1, conn, Marked(l, r), {}, k);
    } else {
      var earned: set<Key> := if !s.root && r && h.key.Some? then {h.key.value} else {};
      AcksGrow(s1, earned, k);
    }
  }

  lemma HandlerGoes(s: State, conn: Conn, k: Key)
    requires KeyInv(s, k)
    ensures KeyInv(s.(handlers := s.handlers - {conn}), k)
  {
  }

  lemma AcksGrow(s: State, acks: set<Key>, k: Key)
    requires KeyInv(s, k) && (k in acks ==> k in s.ever && s.ever[k] <= Durable(s.st))
    ensures KeyInv(s.(acks := s.acks + acks), k)
  {
  }

  lemma MarkedHolds(l: Link, applied: bool, ever: map<Key, Update>, d: Update, k: Key)
    requires LinkHolds(l, ever, d, k) && |l.marks| < |l.got|
    requires applied && l.got[|l.marks|] == k ==> k in ever && ever[k] <= d
    ensures LinkHolds(Marked(l, applied), ever, d, k)
  {
  }

  lemma TryAppendHolds(s: State, m: Msg, how: Append, k: Key)
    requires KeyInv(s, k) && BaseInv(s) && m in s.tasks
    ensures KeyInv(TriedAppend(s, m, how), k)
  {
    hide KeyInv, TriedAppend, Durable;
    TryAppendGrows(s, m, how);
    KeyStays(s, TriedAppend(s, m, how), k);
  }

  lemma StoreEndsHolds(s: State, m: Msg, k: Key)
    requires KeyInv(s, k) && Enabled(s, StoreEnds(m))
    ensures KeyInv(Apply(s, StoreEnds(m)), k)
  {
    hide KeyInv;
    KeyStays(s, Apply(s, StoreEnds(m)), k);
  }

  lemma StorageHolds(s: State, e: S.Event, k: Key)
    requires KeyInv(s, k) && BaseInv(s) && S.Enabled(s.st, e)
    ensures KeyInv(s.(st := S.Apply(s.st, e)), k)
  {
    hide KeyInv, Durable;
    DurableGrows(s.st, e);
    KeyStays(s, s.(st := S.Apply(s.st, e)), k);
  }

  lemma TryAppendGrows(s: State, m: Msg, how: Append)
    requires BaseInv(s) && m in s.tasks
    ensures var s' := TriedAppend(s, m, how);
            && Durable(s.st) <= Durable(s'.st)
            && s' == s.(tasks := s.tasks[m := s.tasks[m].(stage := s'.tasks[m].stage)], st := s'.st)
  {
    var entry := S.Event.Append(Some(s.tasks[m].persisting));
    var direct := S.StartDirect(s.tasks[m].persisting);
    match how
    case Appended => DurableGrows(s.st, entry);
    case AppendedUnreported =>
      DurableGrows(s.st, entry);
      StepInv(s.st, entry);
      DurableGrows(S.Apply(s.st, entry), direct);
    case AppendFailed => DurableGrows(s.st, direct);
    case NoFileInfo =>
  }

  lemma AckHolds(s: State, key: Key, commits: bool, k: Key)
    requires KeyInv(s, k) && key in s.acks
    ensures KeyInv(Apply(s, ReceiveAck(key, commits)), k)
  {
  }

  lemma CrashHolds(s: State, k: Key)
    requires KeyInv(s, k)
    ensures KeyInv(Apply(s, ServerCrash), k)
  {
  }

  lemma MemoryHolds(s: State, s': State, k: Key)
    requires KeyInv(s, k) && s'.acks <= s.acks
    requires s' == s.(mem := s'.mem, own := s'.own, answers := s'.answers, acks := s'.acks)
    ensures KeyInv(s', k)
  {
    hide KeyInv;
    KeyStays(s, s', k);
  }

  lemma StepHolds(s: State, e: Event, k: Key)
    requires TrackInv(s) && BaseInv(s) && OwnInv(s) && LinkInv(s) && KeyInv(s, k)
    requires Enabled(s, e) && SoundReceipt(s, e, k)
    ensures KeyInv(Apply(s, e), k)
  {
    hide KeyInv;
    match e
    case Commit(key, upd) => CommitHolds(s, key, upd, k);
    case Connect(_) => WireHolds(s, e, k);
    case Send(_, _) => WireHolds(s, e, k);
    case Cut(_, _) => WireHolds(s, e, k);
    case Receive(_, _, _) => ReceiveHolds(s, e, k);
    case Ask(conn) => AskHolds(s, conn, k);
    case ReceiveOther(payload, conn, waits, delta, stray) =>
      ReceivingHolds(s, None, payload, conn, waits, delta, s.root && stray, k);
    case TryAppend(m, how) => TryAppendHolds(s, m, how, k);
    case StoreEnds(m) => StoreEndsHolds(s, m, k);
    case StorageStep(e) => StorageHolds(s, e, k);
    case Reply(conn) => ReplyHolds(s, conn, k);
    case ReceiveAck(key, commits) => AckHolds(s, key, commits, k);
    case ServerCrash => CrashHolds(s, k);
    case Finish(_) => MemoryHolds(s, Apply(s, e), k);
    case LoseAcks(_) => MemoryHolds(s, Apply(s, e), k);
    case Load(_) => MemoryHolds(s, Apply(s, e), k);
    case Evict => MemoryHolds(s, Apply(s, e), k);
  }
}
