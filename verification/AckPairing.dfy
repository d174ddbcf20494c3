/**
 Pairing of persistence results with ack requests on one server connection: markers and requests arrive
 in any interleaving over any documents, each waiting for its partner in a list.
 */
module AckPairing {
  import opened Base

  datatype Status = Applied | Failed(reason: string)
  datatype Marker = Marker(doc: string, status: Status)
  datatype Request = Request(doc: string, seqNo: int)

  datatype Emission = Ack(doc: string, seqNo: int) | Nack(doc: string, seqNo: int, reason: string)

  const MAX_SAFE_INTEGER: int := 0x1F_FFFF_FFFF_FFFF

  /** What emitSyncMarker sends for a request and the marker that answers it. */
  function Answer(request: Request, marker: Marker): Emission {
    match marker.status
    case Applied => Ack(request.doc, request.seqNo)
    case Failed(reason) => Nack(request.doc, request.seqNo, if reason == "" then "apply_failed" else reason)
  }

  /** The payload of sync:ack_req; None where the field is missing or of another type. */
  datatype Payload = Payload(doc: Option<string>, seqNo: Option<int>)

  predicate ValidPayload(p: Payload, syncDocs: Option<set<string>>) {
    && p.doc.Some? && p.doc.value != ""
    && p.seqNo.Some? && 0 < p.seqNo.value <= MAX_SAFE_INTEGER
    && (syncDocs.Some? ==> p.doc.value in syncDocs.value)
  }

  datatype Event = Marked(marker: Marker) | Requested(request: Request)

  /** The markers of one document, in order of arrival. */
  ghost function Markers(es: seq<Event>, doc: string): seq<Marker> {
    if es == [] then []
    else
      var rest, e := Markers(es[..|es| - 1], doc), es[|es| - 1];
      if e.Marked? && e.marker.doc == doc then rest + [e.marker] else rest
  }

  ghost function Requests(es: seq<Event>, doc: string): seq<Request> {
    if es == [] then []
    else
      var rest, e := Requests(es[..|es| - 1], doc), es[|es| - 1];
      if e.Requested? && e.request.doc == doc then rest + [e.request] else rest
  }

  ghost function MarkersOf(ms: seq<Marker>, doc: string): seq<Marker> {
    if ms == [] then []
    else if ms[0].doc == doc then [ms[0]] + MarkersOf(ms[1..], doc)
    else MarkersOf(ms[1..], doc)
  }

  ghost function RequestsOf(rs: seq<Request>, doc: string): seq<Request> {
    if rs == [] then []
    else if rs[0].doc == doc then [rs[0]] + RequestsOf(rs[1..], doc)
    else RequestsOf(rs[1..], doc)
  }

  ghost function EmissionsOf(sent: seq<Emission>, doc: string): seq<Emission> {
    if sent == [] then []
    else
      var rest, e := EmissionsOf(sent[..|sent| - 1], doc), sent[|sent| - 1];
      if e.doc == doc then rest + [e] else rest
  }

  /** The k-th request answered by the k-th marker. */
  ghost function Paired(ms: seq<Marker>, rs: seq<Request>): seq<Emission> {
    seq(if |ms| <= |rs| then |ms| else |rs|, k requires 0 <= k < |ms| && k < |rs| => Answer(rs[k], ms[k]))
  }

  function Beyond<T>(xs: seq<T>, n: nat): seq<T> {
    if n <= |xs| then xs[n..] else []
  }

  /** Of markers `ms` and requests `rs`, those paired were emitted and the surplus waits. */
  ghost predicate Matched(out: seq<Emission>, updates: seq<Marker>, pending: seq<Request>,
                          ms: seq<Marker>, rs: seq<Request>) {
    out == Paired(ms, rs) && updates == Beyond(ms, |rs|) && pending == Beyond(rs, |ms|)
  }

  /** The specification: per document, arrivals are paired in order and only the surplus waits. */
  ghost predicate PairedForDoc(es: seq<Event>, updates: seq<Marker>, pending: seq<Request>, sent: seq<Emission>,
                               doc: string) {
    Matched(EmissionsOf(sent, doc), MarkersOf(updates, doc), RequestsOf(pending, doc), Markers(es, doc), Requests(es, doc))
  }

  ghost predicate AllPaired(es: seq<Event>, updates: seq<Marker>, pending: seq<Request>, sent: seq<Emission>) {
    forall doc :: PairedForDoc(es, updates, pending, sent, doc)
  }

  lemma {:induction false} MarkersOfAppend(ms: seq<Marker>, m: Marker, doc: string)
    ensures MarkersOf(ms + [m], doc) == if m.doc == doc then MarkersOf(ms, doc) + [m] else MarkersOf(ms, doc)
  {
    if ms == [] {
      assert ms + [m] == [m];
      assert [m][1..] == [];
    } else {
      assert (ms + [m])[1..] == ms[1..] + [m];
      MarkersOfAppend(ms[1..], m, doc);
    }
  }

  lemma {:induction false} RequestsOfAppend(rs: seq<Request>, r: Request, doc: string)
    ensures RequestsOf(rs + [r], doc) == if r.doc == doc then RequestsOf(rs, doc) + [r] else RequestsOf(rs, doc)
  {
    if rs == [] {
      assert rs + [r] == [r];
      assert [r][1..] == [];
    } else {
      assert (rs + [r])[1..] == rs[1..] + [r];
      RequestsOfAppend(rs[1..], r, doc);
    }
  }

  /** Splicing out the first marker of a document removes the head of that document's queue and no other. */
  lemma {:induction false} MarkersOfSplice(ms: seq<Marker>, i: nat, doc: string)
    requires i < |ms| && forall k :: 0 <= k < i ==> ms[k].doc != ms[i].doc
    ensures var rest := ms[..i] + ms[i + 1..];
            MarkersOf(ms, doc) == (if ms[i].doc == doc then [ms[i]] else []) + MarkersOf(rest, doc)
  {
    var rest := ms[..i] + ms[i + 1..];
    if i == 0 {
      assert rest == ms[1..];
    } else {
      assert ms[1..][..i - 1] + ms[1..][i..] == rest[1..];
      assert ms[1..][i - 1] == ms[i];
      MarkersOfSplice(ms[1..], i - 1, doc);
    }
  }

  lemma {:induction false} RequestsOfSplice(rs: seq<Request>, i: nat, doc: string)
    requires i < |rs| && forall k :: 0 <= k < i ==> rs[k].doc != rs[i].doc
    ensures var rest := rs[..i] + rs[i + 1..];
            RequestsOf(rs, doc) == (if rs[i].doc == doc then [rs[i]] else []) + RequestsOf(rest, doc)
  {
    var rest := rs[..i] + rs[i + 1..];
    if i == 0 {
      assert rest == rs[1..];
    } else {
      assert rs[1..][..i - 1] + rs[1..][i..] == rest[1..];
      assert rs[1..][i - 1] == rs[i];
      RequestsOfSplice(rs[1..], i - 1, doc);
    }
  }

  lemma {:induction false} NoneWaiting(ms: seq<Marker>, rs: seq<Request>, doc: string)
    ensures (forall k :: 0 <= k < |ms| ==> ms[k].doc != doc) ==> MarkersOf(ms, doc) == []
    ensures (forall k :: 0 <= k < |rs| ==> rs[k].doc != doc) ==> RequestsOf(rs, doc) == []
    decreases |ms| + |rs|
  {
    if ms != [] {
      NoneWaiting(ms[1..], rs, doc);
    } else if rs != [] {
      NoneWaiting(ms, rs[1..], doc);
    } else {
    }
  }

  lemma MarkerMatches(out: seq<Emission>, updates: seq<Marker>, pending: seq<Request>,
                      ms: seq<Marker>, rs: seq<Request>, m: Marker)
    requires Matched(out, updates, pending, ms, rs)
    ensures if pending == [] then Matched(out, updates + [m], pending, ms + [m], rs)
            else Matched(out + [Answer(pending[0], m)], updates, pending[1..], ms + [m], rs)
  {
    if pending == [] {
      assert Paired(ms + [m], rs) == Paired(ms, rs);
    } else {
      assert pending[0] == rs[|ms|] && pending[1..] == rs[|ms| + 1..];
      assert Paired(ms + [m], rs) == Paired(ms, rs) + [Answer(rs[|ms|], m)];
    }
  }

  lemma RequestMatches(out: seq<Emission>, updates: seq<Marker>, pending: seq<Request>,
                       ms: seq<Marker>, rs: seq<Request>, r: Request)
    requires Matched(out, updates, pending, ms, rs)
    ensures if updates == [] then Matched(out, updates, pending + [r], ms, rs + [r])
            else Matched(out + [Answer(r, updates[0])], updates[1..], pending, ms, rs + [r])
  {
    if updates == [] {
      assert Paired(ms, rs + [r]) == Paired(ms, rs);
    } else {
      assert updates[0] == ms[|rs|] && updates[1..] == ms[|rs| + 1..];
      assert Paired(ms, rs + [r]) == Paired(ms, rs) + [Answer(r, ms[|rs|])];
    }
  }

  lemma EmissionsAppend(sent: seq<Emission>, e: Emission, doc: string)
    ensures EmissionsOf(sent + [e], doc) == if e.doc == doc then EmissionsOf(sent, doc) + [e] else EmissionsOf(sent, doc)
  {
    assert (sent + [e])[..|sent|] == sent;
  }

  lemma HistoryAppend(es: seq<Event>, e: Event, doc: string)
    ensures Markers(es + [e], doc)
         == if e.Marked? && e.marker.doc == doc then Markers(es, doc) + [e.marker] else Markers(es, doc)
    ensures Requests(es + [e], doc)
         == if e.Requested? && e.request.doc == doc then Requests(es, doc) + [e.request] else Requests(es, doc)
  {
    assert (es + [e])[..|es|] == es;
  }

  lemma {:induction false} RequestsAreOfDoc(es: seq<Event>, doc: string, k: nat)
    requires k < |Requests(es, doc)|
    ensures Requests(es, doc)[k].doc == doc
  {
    var rest := Requests(es[..|es| - 1], doc);
    if k < |rest| { RequestsAreOfDoc(es[..|es| - 1], doc, k); }
  }

  /** The connection's __syncAckState. `history` and `sent` record what arrived and what was emitted. */
  class SyncAckState {
    var updates: seq<Marker>
    var pending: seq<Request>
    var sent: seq<Emission>
    ghost var history: seq<Event>

    ghost predicate Valid()
      reads this
    {
      AllPaired(history, updates, pending, sent)
    }

    constructor ()
      ensures Valid() && history == [] && sent == []
    {
      updates, pending, sent, history := [], [], [], [];
    }

    method FindPending(doc: string) returns (i: nat)
      ensures i <= |pending| && forall k :: 0 <= k < i ==> pending[k].doc != doc
      ensures i < |pending| ==> pending[i].doc == doc
    {
      i := 0;
      while i < |pending| && pending[i].doc != doc
        invariant i <= |pending| && forall k :: 0 <= k < i ==> pending[k].doc != doc
      {
        i := i + 1;
      }
    }

    method FindUpdate(doc: string) returns (i: nat)
      ensures i <= |updates| && forall k :: 0 <= k < i ==> updates[k].doc != doc
      ensures i < |updates| ==> updates[i].doc == doc
    {
      i := 0;
      while i < |updates| && updates[i].doc != doc
        invariant i <= |updates| && forall k :: 0 <= k < i ==> updates[k].doc != doc
      {
        i := i + 1;
      }
    }

    method AddSyncMarker(marker: Marker)
      requires Valid()
      modifies this
      ensures Valid() && history == old(history) + [Marked(marker)]
      ensures old(sent) <= sent
    {
      var i := FindPending(marker.doc);
      MarkerKeepsAll(history, updates, pending, sent, marker, i);
      if i < |pending| {
        var request := pending[i];
        pending := pending[..i] + pending[i + 1..];
        sent := sent + [Answer(request, marker)];
      } else {
        updates := updates + [marker];
      }
      history := history + [Marked(marker)];
    }

    method HandleSyncAckReq(payload: Payload, syncDocs: Option<set<string>>)
      requires Valid()
      modifies this
      ensures Valid() && old(sent) <= sent
      ensures history == if ValidPayload(payload, syncDocs)
                         then old(history) + [Requested(Request(payload.doc.value, payload.seqNo.value))]
                         else old(history)
      ensures !ValidPayload(payload, syncDocs) ==> updates == old(updates) && pending == old(pending) && sent == old(sent)
      ensures history != old(history)
              <==> && payload.doc.Some? && payload.doc.value != "" && payload.seqNo.Some?
                   && 1 <= payload.seqNo.value < 0x20_0000_0000_0000
                   && (syncDocs.None? || payload.doc.value in syncDocs.value)
    {
      if payload.doc.None? || payload.doc.value == "" || payload.seqNo.None?
         || payload.seqNo.value > MAX_SAFE_INTEGER || payload.seqNo.value <= 0 { return; }
      if syncDocs.Some? && payload.doc.value !in syncDocs.value { return; }
      var request := Request(payload.doc.value, payload.seqNo.value);
      var i := FindUpdate(request.doc);
      RequestKeepsAll(history, updates, pending, sent, request, i);
      if i < |updates| {
        var marker := updates[i];
        updates := updates[..i] + updates[i + 1..];
        sent := sent + [Answer(request, marker)];
      } else {
        pending := pending + [request];
      }
      history := history + [Requested(request)];
    }
  }

  lemma MarkerKeepsPairing(es: seq<Event>, updates: seq<Marker>, pending: seq<Request>, sent: seq<Emission>,
                           m: Marker, i: nat, doc: string)
    requires PairedForDoc(es, updates, pending, sent, doc)
    requires i <= |pending| && forall k :: 0 <= k < i ==> pending[k].doc != m.doc
    requires i < |pending| ==> pending[i].doc == m.doc
    ensures if i < |pending|
            then PairedForDoc(es + [Marked(m)], updates, pending[..i] + pending[i + 1..],
                              sent + [Answer(pending[i], m)], doc)
            else PairedForDoc(es + [Marked(m)], updates + [m], pending, sent, doc)
  {
    HistoryAppend(es, Marked(m), doc);
    if i < |pending| {
      RequestsOfSplice(pending, i, doc);
      EmissionsAppend(sent, Answer(pending[i], m), doc);
    } else {
      MarkersOfAppend(updates, m, doc);
      if m.doc == doc { NoneWaiting([], pending, doc); }
    }
    if m.doc == doc {
      MarkerMatches(EmissionsOf(sent, doc), MarkersOf(updates, doc), RequestsOf(pending, doc),
                    Markers(es, doc), Requests(es, doc), m);
    }
  }

  lemma MarkerKeepsAll(es: seq<Event>, updates: seq<Marker>, pending: seq<Request>, sent: seq<Emission>,
                       m: Marker, i: nat)
    requires AllPaired(es, updates, pending, sent)
    requires i <= |pending| && forall k :: 0 <= k < i ==> pending[k].doc != m.doc
    requires i < |pending| ==> pending[i].doc == m.doc
    ensures if i < |pending|
            then AllPaired(es + [Marked(m)], updates, pending[..i] + pending[i + 1..], sent + [Answer(pending[i], m)])
            else AllPaired(es + [Marked(m)], updates + [m], pending, sent)
  {
    if i < |pending| {
      var es', pending', sent' := es + [Marked(m)], pending[..i] + pending[i + 1..], sent + [Answer(pending[i], m)];
      forall doc ensures PairedForDoc(es', updates, pending', sent', doc) {
        MarkerKeepsPairing(es, updates, pending, sent, m, i, doc);
      }
    } else {
      forall doc ensures PairedForDoc(es + [Marked(m)], updates + [m], pending, sent, doc) {
        MarkerKeepsPairing(es, updates, pending, sent, m, i, doc);
      }
    }
  }

  lemma RequestKeepsPairing(es: seq<Event>, updates: seq<Marker>, pending: seq<Request>, sent: seq<Emission>,
                            r: Request, i: nat, doc: string)
    requires PairedForDoc(es, updates, pending, sent, doc)
    requires i <= |updates| && forall k :: 0 <= k < i ==> updates[k].doc != r.doc
    requires i < |updates| ==> updates[i].doc == r.doc
    ensures if i < |updates|
            then PairedForDoc(es + [Requested(r)], updates[..i] + updates[i + 1..], pending,
                              sent + [Answer(r, updates[i])], doc)
            else PairedForDoc(es + [Requested(r)], updates, pending + [r], sent, doc)
  {
    HistoryAppend(es, Requested(r), doc);
    if i < |updates| {
      MarkersOfSplice(updates, i, doc);
      EmissionsAppend(sent, Answer(r, updates[i]), doc);
    } else {
      RequestsOfAppend(pending, r, doc);
      if r.doc == doc { NoneWaiting(updates, [], doc); }
    }
    if r.doc == doc {
      RequestMatches(EmissionsOf(sent, doc), MarkersOf(updates, doc), RequestsOf(pending, doc),
                     Markers(es, doc), Requests(es, doc), r);
    }
  }

  lemma RequestKeepsAll(es: seq<Event>, updates: seq<Marker>, pending: seq<Request>, sent: seq<Emission>,
                        r: Request, i: nat)
    requires AllPaired(es, updates, pending, sent)
    requires i <= |updates| && forall k :: 0 <= k < i ==> updates[k].doc != r.doc
    requires i < |updates| ==> updates[i].doc == r.doc
    ensures if i < |updates|
            then AllPaired(es + [Requested(r)], updates[..i] + updates[i + 1..], pending, sent + [Answer(r, updates[i])])
            else AllPaired(es + [Requested(r)], updates, pending + [r], sent)
  {
    if i < |updates| {
      var es', updates', sent' := es + [Requested(r)], updates[..i] + updates[i + 1..], sent + [Answer(r, updates[i])];
      forall doc ensures PairedForDoc(es', updates', pending, sent', doc) {
        RequestKeepsPairing(es, updates, pending, sent, r, i, doc);
      }
    } else {
      forall doc ensures PairedForDoc(es + [Requested(r)], updates, pending + [r], sent, doc) {
        RequestKeepsPairing(es, updates, pending, sent, r, i, doc);
      }
    }
  }

  /** Never both a waiting marker and a waiting request of one document. */
  lemma NeverBothWaiting(es: seq<Event>, updates: seq<Marker>, pending: seq<Request>, sent: seq<Emission>, doc: string)
    requires PairedForDoc(es, updates, pending, sent, doc)
    ensures MarkersOf(updates, doc) == [] || RequestsOf(pending, doc) == []
  {
  }

  /** The k-th request of a document is answered by its k-th marker, with the request's own seq. */
  lemma KthAnswersKth(es: seq<Event>, updates: seq<Marker>, pending: seq<Request>, sent: seq<Emission>,
                      doc: string, k: nat)
    requires PairedForDoc(es, updates, pending, sent, doc)
    ensures k < |EmissionsOf(sent, doc)| <==> k < |Markers(es, doc)| && k < |Requests(es, doc)|
    ensures k < |EmissionsOf(sent, doc)| ==>
              var request, marker := Requests(es, doc)[k], Markers(es, doc)[k];
              && EmissionsOf(sent, doc)[k].doc == request.doc && EmissionsOf(sent, doc)[k].seqNo == request.seqNo
              && (EmissionsOf(sent, doc)[k].Ack? <==> marker.status.Applied?)
              && (marker.status.Failed? ==>
                    EmissionsOf(sent, doc)[k].reason
                    == if marker.status.reason != "" then marker.status.reason else "apply_failed")
  {
  }
}
