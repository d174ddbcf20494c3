/**
 Frames of sub-documents: the frame itself carries the Outbox number, so its answer needs no pairing. The
 server registers the document under its root, keeps its update handler bound to the present root, applies
 the message, and answers the number it was given.
 */
module SubdocAcks {
  import opened Base
  import AckPairing
  import RootAcks

  type Instance = nat  // a document object; a root that was evicted and loaded again is another one

  datatype Frame = Frame(
    guid: string,
    seqNo: Option<int>,            // None: missing or no number
    readable: bool,                // the context string could be read and parsed
    denied: Option<string>,        // why the file does not belong to the connection's project
    lookupThrows: bool,            // file information or the document could not be had
    textThrows: bool,              // the document's text could not be had or observed
    step1: bool,                   // the context says "sync_step_1"
    hasContent: bool,              // something follows the context
    handling: RootAcks.Handling)   // what happens while the message is applied

  /** The message was an update, it applied, and it was reported persisted. */
  predicate AppliesUpdate(f: Frame) {
    f.hasContent && RootAcks.AppliedAndPersisted(f.handling)
  }

  type Registry = map<string, map<string, Instance>>

  predicate IsIn(subdocs: Registry, root: string, guid: string) {
    root in subdocs && guid in subdocs[root]
  }

  /** One more document under a root; everything else stays as it was registered. */
  function WithSubdoc(subdocs: Registry, root: string, guid: string, doc: Instance): (r: Registry)
    ensures IsIn(r, root, guid) && r[root][guid] == doc
    ensures forall k, g :: (k, g) != (root, guid) ==> (IsIn(r, k, g) <==> IsIn(subdocs, k, g))
    ensures forall k, g :: (k, g) != (root, guid) && IsIn(r, k, g) && IsIn(subdocs, k, g) ==> r[k][g] == subdocs[k][g]
    ensures IsIn(subdocs, root, guid) && subdocs[root][guid] == doc ==> r == subdocs
  {
    var known: map<string, Instance> := if root in subdocs then subdocs[root] else map[];
    assert root in subdocs && guid in known && known[guid] == doc ==> known[guid := doc] == known;
    subdocs[root := known[guid := doc]]
  }

  /** The frame gets as far as its document: it may, and the document can be had. */
  predicate Reaches(f: Frame, rootName: string) {
    f.readable && (f.guid == rootName || f.denied.None?) && !f.lookupThrows
  }

  class Server {
    var subdocs: Registry                  // subdocsMap: root name, document name
    var handlers: map<Instance, Instance>  // the root a document's update handler was made for

    constructor ()
      ensures subdocs == map[] && handlers == map[]
    {
      subdocs, handlers := map[], map[];
    }

    predicate Registered(root: string, guid: string)
      reads this
    {
      IsIn(subdocs, root, guid)
    }

    /** Idempotent per document and root: one handler, made for the present root. */
    method EnsureSubdocUpdateHandler(doc: Instance, guid: string, rootName: string, root: Instance)
      modifies this`handlers
      ensures handlers == if guid == rootName then old(handlers) else old(handlers)[doc := root]
    {
      if guid == rootName { return; }
      if doc in handlers && handlers[doc] == root {
        assert handlers == handlers[doc := root];
        return;
      }
      handlers := handlers[doc := root];
    }

    method Register(doc: Instance, guid: string, rootName: string)
      modifies this`subdocs
      ensures subdocs == WithSubdoc(old(subdocs), rootName, guid, doc)
    {
      var known: map<string, Instance> := if rootName in subdocs then subdocs[rootName] else map[];
      known := known[guid := doc];
      subdocs := subdocs[rootName := known];
    }

    method HandleNormalMsg(f: Frame, doc: Instance, rootName: string, root: Instance) returns (applied: bool)
      requires f.handling.authorized && f.handling.hasFile
      modifies this
      ensures applied <==> old(Registered(rootName, f.guid)) && AppliesUpdate(f)
      ensures subdocs
           == if old(Registered(rootName, f.guid)) then WithSubdoc(old(subdocs), rootName, f.guid, doc) else old(subdocs)
      ensures handlers
           == if old(Registered(rootName, f.guid)) && f.guid != rootName then old(handlers)[doc := root] else old(handlers)
    {
      if !Registered(rootName, f.guid) { return false; }
      EnsureSubdocUpdateHandler(doc, f.guid, rootName, root);
      if subdocs[rootName][f.guid] != doc { Register(doc, f.guid, rootName); }
      if !f.hasContent { return false; }
      var h := f.handling;
      if h.threw { return false; }
      if !h.kind.SyncUpdate? || h.syncError { return false; }
      if !h.persistence { return true; }
      if h.observed { return h.trackerResult; }
      if !h.hasPayload { return false; }
      applied := h.directResult;
    }

    /** The first frame of a document under a root. The text is had after the handler was bound. */
    method HandleSubDocFirstTimePut(f: Frame, doc: Instance, rootName: string, root: Instance)
      returns (registered: bool)
      requires !Registered(rootName, f.guid)
      modifies this
      ensures registered <==> !f.textThrows
      ensures subdocs == if registered then WithSubdoc(old(subdocs), rootName, f.guid, doc) else old(subdocs)
      ensures handlers == if f.guid != rootName then old(handlers)[doc := root] else old(handlers)
    {
      EnsureSubdocUpdateHandler(doc, f.guid, rootName, root);
      if f.textThrows { return false; }
      Register(doc, f.guid, rootName);
      registered := true;
    }

    /** A frame that says it is a sync step 1 is answered with the state and counts as applied, once registered. */
    method HandleSubDoc(f: Frame, doc: Instance, rootName: string, root: Instance) returns (applied: bool)
      requires f.handling.authorized && f.handling.hasFile
      modifies this
      ensures Registered(rootName, f.guid) <==> old(Registered(rootName, f.guid)) || !f.textThrows
      ensures applied <==> Registered(rootName, f.guid) && (f.step1 || AppliesUpdate(f))
      ensures subdocs == if (if old(Registered(rootName, f.guid)) then f.step1 else f.textThrows) then old(subdocs)
                         else WithSubdoc(old(subdocs), rootName, f.guid, doc)
      ensures handlers == if f.guid == rootName || (old(Registered(rootName, f.guid)) && f.step1) then old(handlers)
                          else old(handlers)[doc := root]
    {
      if Registered(rootName, f.guid) {
        if f.step1 { return true; }
        applied := HandleNormalMsg(f, doc, rootName, root);
        return;
      }
      var registered := HandleSubDocFirstTimePut(f, doc, rootName, root);
      if !registered || f.step1 { return registered; }
      applied := HandleNormalMsg(f, doc, rootName, root);
    }

    /**
     What a frame does to the registrations does not depend on its number: the document is registered unless the
     frame does not get that far or the text cannot be had. At most one answer per frame, and one for each readable
     frame with a number; it names the frame's own document and number, and is an ack exactly if the message was
     applied and persisted, or was a sync step 1, with its document registered.
     */
    method PreHandleSubDoc(f: Frame, doc: Instance, rootName: string, root: Instance)
      returns (applied: bool, answer: Option<AckPairing.Emission>)
      requires f.handling.authorized && f.handling.hasFile
      modifies this
      ensures Registered(rootName, f.guid) <==> old(Registered(rootName, f.guid)) || (Reaches(f, rootName) && !f.textThrows)
      ensures applied <==> Reaches(f, rootName) && Registered(rootName, f.guid) && (f.step1 || AppliesUpdate(f))
      ensures !f.readable || f.lookupThrows || (f.guid != rootName && f.denied.Some?) ==>
                !applied && subdocs == old(subdocs) && handlers == old(handlers)
      ensures f.readable && !f.lookupThrows && (f.guid == rootName || f.denied.None?) && !f.textThrows ==>
                Registered(rootName, f.guid) && (f.step1 ==> applied)
      ensures var h := f.handling;
              !f.step1 ==>
                (applied <==> && Reaches(f, rootName) && Registered(rootName, f.guid) && f.hasContent
                              && h.kind.SyncUpdate? && !h.threw && !h.syncError
                              && (h.persistence ==> if h.observed then h.trackerResult else h.hasPayload && h.directResult))
      ensures subdocs == if !Reaches(f, rootName) || (if old(Registered(rootName, f.guid)) then f.step1 else f.textThrows)
                         then old(subdocs) else WithSubdoc(old(subdocs), rootName, f.guid, doc)
      ensures handlers == if !Reaches(f, rootName) || f.guid == rootName || (old(Registered(rootName, f.guid)) && f.step1)
                          then old(handlers) else old(handlers)[doc := root]
      ensures answer.Some? <==> f.readable && f.seqNo.Some?
      ensures answer.Some? ==> answer.value.doc == f.guid && answer.value.seqNo == f.seqNo.value
      ensures answer.Some? ==> (answer.value.Ack? <==> applied)
      ensures answer.Some? && answer.value.Nack? ==>
                answer.value.reason == if f.guid != rootName && f.denied.Some?
                                       then (if f.denied.value == "" then "access_denied" else f.denied.value)
                                       else if f.lookupThrows then "server_error" else "apply_failed"
    {
      if !f.readable { return false, None; }
      if f.guid != rootName && f.denied.Some? {
        var reason := if f.denied.value == "" then "access_denied" else f.denied.value;
        return false, if f.seqNo.Some? then Some(AckPairing.Nack(f.guid, f.seqNo.value, reason)) else None;
      }
      if f.lookupThrows {
        return false, if f.seqNo.Some? then Some(AckPairing.Nack(f.guid, f.seqNo.value, "server_error")) else None;
      }
      applied := HandleSubDoc(f, doc, rootName, root);
      if applied && f.seqNo.Some? {
        answer := Some(AckPairing.Ack(f.guid, f.seqNo.value));
      } else if f.seqNo.Some? {
        answer := Some(AckPairing.Nack(f.guid, f.seqNo.value, "apply_failed"));
      } else {
        answer := None;
      }
    }
  }

  /** Two servers given the same frame under different numbers, or none, go on alike. */
  method NumberIsOnlyAnswered(a: Server, b: Server, f: Frame, seqNo: Option<int>, doc: Instance, rootName: string,
                              root: Instance)
    returns (applied: bool)
    requires a != b && a.subdocs == b.subdocs && a.handlers == b.handlers
    requires f.handling.authorized && f.handling.hasFile
    modifies a, b
    ensures a.subdocs == b.subdocs && a.handlers == b.handlers
    ensures applied <==> Reaches(f, rootName) && a.Registered(rootName, f.guid) && (f.step1 || AppliesUpdate(f))
  {
    var again, answer, other;
    applied, answer := a.PreHandleSubDoc(f, doc, rootName, root);
    again, other := b.PreHandleSubDoc(f.(seqNo := seqNo), doc, rootName, root);
    assert again == applied;
  }

  /** The frame a client sends for each sub-document it opens has no number, and registers it. */
  method OpeningRegisters(server: Server, f: Frame, doc: Instance, rootName: string, root: Instance)
    requires f.handling.authorized && f.handling.hasFile
    requires f.step1 && f.seqNo.None? && Reaches(f, rootName) && !f.textThrows
    modifies server
    ensures server.Registered(rootName, f.guid)
    ensures !old(server.Registered(rootName, f.guid)) ==>
              && server.subdocs[rootName][f.guid] == doc
              && (f.guid != rootName ==> doc in server.handlers && server.handlers[doc] == root)
  {
    var applied, answer := server.PreHandleSubDoc(f, doc, rootName, root);
    assert applied && answer.None?;
  }
}
