/**
 From a client's sends to the acks it gets back, for the root document of one connection: the client sends
 each Outbox entry's frame and its ack request back to back, the server runs one task at a time in arrival
 order, each update frame leaves one marker, and markers answer requests in order.
 */
module RootAcks {
  import opened Base
  import opened AckPairing

  /** The promise chain on a connection: tasks start in enqueue order, one at a time, whatever each one does. */
  class SocketTaskQueue<T> {
    var waiting: seq<T>
    var running: Option<T>
    var finished: seq<T>
    ghost var enqueued: seq<T>

    ghost predicate Valid()
      reads this
    {
      enqueued == finished + (if running.Some? then [running.value] else []) + waiting
    }

    constructor ()
      ensures Valid() && enqueued == [] && running.None?
    {
      waiting, running, finished, enqueued := [], None, [], [];
    }

    method Enqueue(task: T)
      requires Valid()
      modifies this
      ensures Valid() && enqueued == old(enqueued) + [task] && running == old(running) && finished == old(finished)
    {
      waiting := waiting + [task];
      enqueued := enqueued + [task];
    }

    /** The k-th task to start is the k-th one enqueued. */
    method StartNext() returns (task: T)
      requires Valid() && running.None? && waiting != []
      modifies this
      ensures Valid() && enqueued == old(enqueued) && running == Some(task) && finished == old(finished)
      ensures |finished| < |enqueued| && task == enqueued[|finished|]
    {
      task := waiting[0];
      running, waiting := Some(task), waiting[1..];
    }

    /** Both outcomes are caught, so the chain goes on either way. */
    method Settle(fulfilled: bool)
      requires Valid() && running.Some?
      modifies this
      ensures Valid() && enqueued == old(enqueued) && running.None?
      ensures finished == old(finished) + [old(running).value] && finished <= enqueued
    {
      finished, running := finished + [running.value], None;
    }
  }

  datatype FrameKind = SyncUpdate | SyncStep | Awareness | Control | SubDoc | Unknown

  /** What happens while the server handles one frame of the root document. */
  datatype Handling = Handling(
    authorized: bool,
    kind: FrameKind,
    hasPayload: bool,     // readYjsUpdatePayload found an update
    threw: bool,          // readSyncMessage threw
    syncError: bool,      // its error callback ran
    persistence: bool,    // a persistence is configured
    observed: bool,       // the update listener saw the change
    trackerResult: bool,  // what the tracker was resolved with
    hasFile: bool,        // file attributes are at hand
    directResult: bool)   // what handleYDocUpdate answered for the payload itself

  predicate ReportedPersisted(h: Handling) {
    || !h.persistence
    || (h.observed && h.trackerResult)
    || (!h.observed && h.hasPayload && h.hasFile && h.directResult)
  }

  /** The frame was an update, it applied, and it was reported persisted. */
  predicate AppliedAndPersisted(h: Handling) {
    h.authorized && h.kind.SyncUpdate? && !h.threw && !h.syncError && ReportedPersisted(h)
  }

  predicate LeavesMarker(h: Handling) {
    || !h.authorized
    || (h.kind.SyncUpdate? && !h.threw)
    || ((h.kind.SyncUpdate? || h.kind.SyncStep?) && h.threw && h.hasPayload)
  }

  /** messageListener on the root document, up to its effect on the ack state. */
  method MessageListener(conn: SyncAckState, room: string, h: Handling) returns (ghost marker: Marker)
    requires conn.Valid()
    modifies conn
    ensures conn.Valid() && old(conn.sent) <= conn.sent && marker.doc == room
    ensures marker.status.Applied? <==> AppliedAndPersisted(h)
    ensures marker.status.Applied?
            <==> && h.authorized && h.kind.SyncUpdate? && !h.threw && !h.syncError
                 && (h.persistence ==> if h.observed then h.trackerResult else h.hasPayload && h.hasFile && h.directResult)
    ensures marker.status.Failed? ==>
              marker.status.reason == if !h.authorized then "unauthorized"
                                      else if h.kind.SyncUpdate? && !h.threw && !h.syncError then "persist_failed"
                                      else "apply_failed"
    ensures LeavesMarker(h)
            <==> !h.authorized || (h.kind.SyncUpdate? && !h.threw)
                 || ((h.kind.SyncUpdate? || h.kind.SyncStep?) && h.threw && h.hasPayload)
    ensures conn.history == if LeavesMarker(h) then old(conn.history) + [Marked(marker)] else old(conn.history)
  {
    var status := Failed("apply_failed");
    if !h.authorized {
      status := Failed("unauthorized");
      conn.AddSyncMarker(Marker(room, status));
    } else if h.kind.SyncUpdate? || h.kind.SyncStep? {
      if h.threw {
        if h.hasPayload { conn.AddSyncMarker(Marker(room, status)); }
      } else if h.kind.SyncUpdate? {
        var persisted := true;
        if h.persistence {
          if h.observed { persisted := h.trackerResult; }
          else if !h.hasPayload || !h.hasFile { persisted := false; }
          else { persisted := h.directResult; }
        }
        if !h.syncError && persisted { status := Applied; }
        else if !h.syncError { status := Failed("persist_failed"); }
        conn.AddSyncMarker(Marker(room, status));
      }
    }
    marker := Marker(room, status);
  }

  /** A frame: of a root Outbox entry, or another one. */
  datatype Item = Entry(seqNo: int, handling: Handling) | Other(handling: Handling)

  /** What goes over the wire of one connection, in order. */
  datatype Wire = FrameOf(item: Item) | RequestOf(seqNo: int)

  /** Entries are applied updates with a number; other frames leave no marker. */
  ghost predicate WellFormed(item: Item) {
    if item.Entry?
    then item.handling.kind.SyncUpdate? && LeavesMarker(item.handling) && 0 < item.seqNo <= MAX_SAFE_INTEGER
    else !LeavesMarker(item.handling)
  }

  /** Each entry's frame and request go back to back; the connection may break between the two, or anywhere. */
  ghost predicate WellSent(wires: seq<Wire>) {
    && (forall i :: 0 <= i < |wires| && wires[i].FrameOf? ==> WellFormed(wires[i].item))
    && (forall i :: 0 <= i < |wires| && wires[i].RequestOf? ==> i > 0 && IsEntry(wires[i - 1], wires[i].seqNo))
    && (forall i :: 0 < i < |wires| && wires[i - 1].FrameOf? && wires[i - 1].item.Entry? ==> wires[i].RequestOf?)
  }

  ghost predicate IsEntry(wire: Wire, seqNo: int) {
    wire.FrameOf? && wire.item.Entry? && wire.item.seqNo == seqNo
  }

  ghost function Entries(wires: seq<Wire>): (r: seq<Item>)
    ensures forall k :: 0 <= k < |r| ==> r[k].Entry? && FrameOf(r[k]) in wires
  {
    if wires == [] then []
    else
      var rest, last := Entries(wires[..|wires| - 1]), wires[|wires| - 1];
      if last.FrameOf? && last.item.Entry? then rest + [last.item] else rest
  }

  ghost function RequestCount(wires: seq<Wire>): nat {
    if wires == [] then 0
    else RequestCount(wires[..|wires| - 1]) + if wires[|wires| - 1].RequestOf? then 1 else 0
  }

  lemma WireAppend(wires: seq<Wire>, wire: Wire)
    ensures Entries(wires + [wire])
         == if wire.FrameOf? && wire.item.Entry? then Entries(wires) + [wire.item] else Entries(wires)
    ensures RequestCount(wires + [wire]) == RequestCount(wires) + if wire.RequestOf? then 1 else 0
  {
    assert (wires + [wire])[..|wires|] == wires;
  }

  /** Of the first `n` messages, all entries but possibly the last have had their requests. */
  lemma {:induction false} RequestsFollow(wires: seq<Wire>, n: nat)
    requires WellSent(wires) && n <= |wires|
    ensures var pending := n > 0 && wires[n - 1].FrameOf? && wires[n - 1].item.Entry?;
            |Entries(wires[..n])| == RequestCount(wires[..n]) + if pending then 1 else 0
  {
    if n == 0 {
    } else {
      assert wires[..n] == wires[..n - 1] + [wires[n - 1]];
      WireAppend(wires[..n - 1], wires[n - 1]);
      RequestsFollow(wires, n - 1);
    }
  }

  /** A request is for the last entry so far. */
  lemma RequestIsForLast(wires: seq<Wire>, n: nat)
    requires WellSent(wires) && n < |wires| && wires[n].RequestOf?
    ensures var entries := Entries(wires[..n]);
            && entries != [] && entries[|entries| - 1].seqNo == wires[n].seqNo
            && |entries| == RequestCount(wires[..n]) + 1
    ensures 0 < wires[n].seqNo <= MAX_SAFE_INTEGER
  {
    assert wires[..n] == wires[..n - 1] + [wires[n - 1]];
    WireAppend(wires[..n - 1], wires[n - 1]);
    RequestsFollow(wires, n);
  }

  /** A frame comes when all entries before it have had their requests. */
  lemma FrameFollowsRequest(wires: seq<Wire>, n: nat)
    requires WellSent(wires) && n < |wires| && wires[n].FrameOf?
    ensures |Entries(wires[..n])| == RequestCount(wires[..n])
  {
    RequestsFollow(wires, n);
  }

  /** The k-th marker and the k-th request belong to the k-th entry; `m` markers and `r` requests have come. */
  ghost predicate Belong(history: seq<Event>, room: string, entries: seq<Item>, m: nat, r: nat) {
    && r <= m <= |entries|
    && |Markers(history, room)| == m && |Requests(history, room)| == r
    && (forall k :: 0 <= k < m ==>
          entries[k].Entry? && (Markers(history, room)[k].status.Applied? <==> AppliedAndPersisted(entries[k].handling)))
    && (forall k :: 0 <= k < r ==> entries[k].Entry? && Requests(history, room)[k] == Request(room, entries[k].seqNo))
  }

  /** The emissions for the root document answer its entries one by one. */
  ghost predicate AnswersEntries(emissions: seq<Emission>, entries: seq<Item>) {
    && |emissions| <= |entries|
    && forall k :: 0 <= k < |emissions| ==>
         && entries[k].Entry?
         && emissions[k].seqNo == entries[k].seqNo
         && (emissions[k].Ack? <==> AppliedAndPersisted(entries[k].handling))
  }

  lemma BelongAnswers(history: seq<Event>, updates: seq<Marker>, pending: seq<Request>, sent: seq<Emission>,
                      room: string, entries: seq<Item>, m: nat, r: nat)
    requires PairedForDoc(history, updates, pending, sent, room) && Belong(history, room, entries, m, r)
    ensures AnswersEntries(EmissionsOf(sent, room), entries) && |EmissionsOf(sent, room)| == r
  {
  }

  /** The ack state after exactly the messages `done`, in order. */
  ghost predicate Served(conn: SyncAckState, room: string, done: seq<Wire>)
    reads conn
  {
    conn.Valid() && Belong(conn.history, room, Entries(done), |Entries(done)|, RequestCount(done))
  }

  method ServeFrame(conn: SyncAckState, room: string, ghost before: seq<Wire>, item: Item)
    requires Served(conn, room, before) && WellFormed(item) && |Entries(before)| == RequestCount(before)
    modifies conn
    ensures Served(conn, room, before + [FrameOf(item)])
  {
    hide AllPaired, Belong;
    ghost var history := conn.history;
    ghost var marker := MessageListener(conn, room, item.handling);
    FrameBelongs(history, room, before, item, marker);
  }

  method ServeRequest(conn: SyncAckState, room: string, ghost before: seq<Wire>, seqNo: int)
    requires Served(conn, room, before) && room != "" && 0 < seqNo <= MAX_SAFE_INTEGER
    requires var entries := Entries(before);
             entries != [] && entries[|entries| - 1].seqNo == seqNo && |entries| == RequestCount(before) + 1
    modifies conn
    ensures Served(conn, room, before + [RequestOf(seqNo)])
  {
    hide AllPaired;
    WireAppend(before, RequestOf(seqNo));
    RequestBelongs(conn.history, room, Entries(before), seqNo);
    var payload := Payload(Some(room), Some(seqNo));
    assert ValidPayload(payload, Some({room}));
    conn.HandleSyncAckReq(payload, Some({room}));
  }

  lemma RequestBelongs(history: seq<Event>, room: string, entries: seq<Item>, seqNo: int)
    requires entries != [] && Belong(history, room, entries, |entries|, |entries| - 1)
    requires entries[|entries| - 1].Entry? && entries[|entries| - 1].seqNo == seqNo
    ensures Belong(history + [Requested(Request(room, seqNo))], room, entries, |entries|, |entries|)
  {
    HistoryAppend(history, Requested(Request(room, seqNo)), room);
  }

  lemma MarkerBelongs(history: seq<Event>, room: string, entries: seq<Item>, item: Item, marker: Marker)
    requires item.Entry? && Belong(history, room, entries, |entries|, |entries|) && marker.doc == room
    requires marker.status.Applied? <==> AppliedAndPersisted(item.handling)
    ensures Belong(history + [Marked(marker)], room, entries + [item], |entries| + 1, |entries|)
  {
    HistoryAppend(history, Marked(marker), room);
  }

  /** What a frame adds: its marker, if it is of an entry, and nothing else. */
  lemma FrameBelongs(history: seq<Event>, room: string, before: seq<Wire>, item: Item, marker: Marker)
    requires Belong(history, room, Entries(before), |Entries(before)|, RequestCount(before)) && WellFormed(item)
    requires |Entries(before)| == RequestCount(before) && marker.doc == room
    requires marker.status.Applied? <==> AppliedAndPersisted(item.handling)
    ensures var after := before + [FrameOf(item)];
            Belong(if LeavesMarker(item.handling) then history + [Marked(marker)] else history, room,
                   Entries(after), |Entries(after)|, RequestCount(after))
  {
    WireAppend(before, FrameOf(item));
    if item.Entry? { MarkerBelongs(history, room, Entries(before), item, marker); }
  }

  /** One task of the queue. */
  method ServeWire(conn: SyncAckState, room: string, ghost wires: seq<Wire>, ghost n: nat, wire: Wire)
    requires room != "" && WellSent(wires) && n < |wires| && wire == wires[n] && Served(conn, room, wires[..n])
    modifies conn
    ensures Served(conn, room, wires[..n + 1])
  {
    hide AllPaired, Belong;
    assert wires[..n + 1] == wires[..n] + [wire];
    if wire.FrameOf? {
      FrameFollowsRequest(wires, n);
      ServeFrame(conn, room, wires[..n], wire.item);
    } else {
      RequestIsForLast(wires, n);
      ServeRequest(conn, room, wires[..n], wire.seqNo);
    }
  }

  /** What the server does next: a message arrives, the queue starts a task, or the running one ends. */
  datatype Move = Arrive | Start | End(fulfilled: bool)

  /** The finished tasks are the first messages of the wire, and the ack state is what they left. */
  ghost predicate ServesInOrder(queue: SocketTaskQueue<Wire>, conn: SyncAckState, room: string, wires: seq<Wire>,
                          arrived: nat)
    reads queue, conn
  {
    && queue.Valid() && arrived <= |wires| && queue.enqueued == wires[..arrived]
    && queue.finished == wires[..|queue.finished|] && |queue.finished| <= arrived
    && (queue.running.Some? ==> |queue.finished| < arrived && queue.running.value == wires[|queue.finished|])
    && Served(conn, room, queue.finished)
  }

  method EndTask(queue: SocketTaskQueue<Wire>, conn: SyncAckState, room: string, ghost wires: seq<Wire>,
                 ghost arrived: nat, fulfilled: bool)
    requires room != "" && WellSent(wires) && ServesInOrder(queue, conn, room, wires, arrived) && queue.running.Some?
    modifies conn, queue
    ensures ServesInOrder(queue, conn, room, wires, arrived)
  {
    hide AllPaired, Belong;
    ghost var n := |queue.finished|;
    ServeWire(conn, room, wires, n, queue.running.value);
    queue.Settle(fulfilled);
    assert wires[..n + 1] == wires[..n] + [wires[n]];
  }

  method Open(room: string, ghost wires: seq<Wire>) returns (conn: SyncAckState, queue: SocketTaskQueue<Wire>)
    ensures fresh(conn) && fresh(queue) && ServesInOrder(queue, conn, room, wires, 0)
  {
    conn := new SyncAckState();
    queue := new SocketTaskQueue();
  }

  lemma ServedAnswers(conn: SyncAckState, room: string, done: seq<Wire>)
    requires Served(conn, room, done)
    ensures AnswersEntries(EmissionsOf(conn.sent, room), Entries(done))
    ensures |EmissionsOf(conn.sent, room)| == RequestCount(done)
  {
    assert PairedForDoc(conn.history, conn.updates, conn.pending, conn.sent, room);
    BelongAnswers(conn.history, conn.updates, conn.pending, conn.sent, room, Entries(done),
                  |Entries(done)|, RequestCount(done));
  }

  /**
   One connection from its first message on: arrivals interleaved with running tasks in any way, broken at any
   point. The emissions answer the entries whose requests were served, one by one. A new connection starts with
   a new queue and a new state.
   */
  method ServeConnection(room: string, wires: seq<Wire>, moves: seq<Move>)
    returns (conn: SyncAckState, queue: SocketTaskQueue<Wire>)
    requires room != "" && WellSent(wires)
    ensures conn.Valid() && queue.Valid() && queue.finished <= wires
    ensures AnswersEntries(EmissionsOf(conn.sent, room), Entries(queue.finished))
    ensures |EmissionsOf(conn.sent, room)| == RequestCount(queue.finished)
  {
    hide WellSent, AllPaired, Belong, AnswersEntries;
    conn, queue := Open(room, wires);
    var arrived := 0;
    for i := 0 to |moves|
      invariant fresh(conn) && fresh(queue) && ServesInOrder(queue, conn, room, wires, arrived)
    {
      match moves[i] {
        case Arrive =>
          if arrived < |wires| {
            queue.Enqueue(wires[arrived]);
            assert wires[..arrived + 1] == wires[..arrived] + [wires[arrived]];
            arrived := arrived + 1;
          }
        case Start =>
          if queue.running.None? && queue.waiting != [] { var task := queue.StartNext(); }
        case End(fulfilled) =>
          if queue.running.Some? { EndTask(queue, conn, room, wires, arrived, fulfilled); }
      }
    }
    ServedAnswers(conn, room, queue.finished);
  }

  /** An ack with a number is sent only for an entry with it, whose frame was applied and reported persisted. */
  lemma AckMeansPersisted(sent: seq<Emission>, room: string, wires: seq<Wire>, seqNo: int)
    requires AnswersEntries(EmissionsOf(sent, room), Entries(wires))
    requires Ack(room, seqNo) in EmissionsOf(sent, room)
    ensures exists item :: FrameOf(item) in wires && item.Entry? && item.seqNo == seqNo
                           && item.handling.authorized && item.handling.kind.SyncUpdate?
                           && !item.handling.threw && !item.handling.syncError
                           && (item.handling.persistence ==>
                                 if item.handling.observed then item.handling.trackerResult
                                 else item.handling.hasPayload && item.handling.directResult)
  {
    var k :| 0 <= k < |EmissionsOf(sent, room)| && EmissionsOf(sent, room)[k] == Ack(room, seqNo);
    assert FrameOf(Entries(wires)[k]) in wires;
  }

  /**
   Why other frames must leave no marker: an update frame that no request follows shifts the pairing. An
   entry whose own update failed is then acknowledged with the stray frame's result.
   */
  method StrayMarkerShiftsAcks(room: string, stray: Handling, entry: Handling) returns (conn: SyncAckState)
    requires room != "" && AppliedAndPersisted(stray) && LeavesMarker(stray)
    requires entry.kind.SyncUpdate? && LeavesMarker(entry) && !AppliedAndPersisted(entry)
    ensures fresh(conn) && conn.Valid() && EmissionsOf(conn.sent, room) == [Ack(room, 1)]
  {
    conn := new SyncAckState();
    ghost var first := MessageListener(conn, room, stray);
    ghost var second := MessageListener(conn, room, entry);
    conn.HandleSyncAckReq(Payload(Some(room), Some(1)), Some({room}));
    FirstAnswersFirst([], first, second, Request(room, 1));
    assert conn.history == [] + [Marked(first)] + [Marked(second)] + [Requested(Request(room, 1))];
    assert PairedForDoc(conn.history, conn.updates, conn.pending, conn.sent, room);
  }

  lemma FirstAnswersFirst(es: seq<Event>, first: Marker, second: Marker, r: Request)
    requires es == [] && first.doc == second.doc == r.doc
    ensures var h := es + [Marked(first)] + [Marked(second)] + [Requested(r)];
            Paired(Markers(h, r.doc), Requests(h, r.doc)) == [Answer(r, first)]
  {
    var h1 := es + [Marked(first)];
    var h2 := h1 + [Marked(second)];
    HistoryAppend(es, Marked(first), r.doc);
    HistoryAppend(h1, Marked(second), r.doc);
    HistoryAppend(h2, Requested(r), r.doc);
    assert Markers(h2 + [Requested(r)], r.doc) == [first, second] && Requests(h2 + [Requested(r)], r.doc) == [r];
  }
}
