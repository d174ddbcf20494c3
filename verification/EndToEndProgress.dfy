/** That an entry can always be delivered: from every state some run takes it from the Outbox into the log. */
module EndToEndProgress {
  import opened Base
  import opened EndToEnd
  import opened EndToEndRuns
  import opened EndToEndLosses
  import opened StorageSafety
  import S = Storage
  import R = ResultOwnership
  import T = UpdateTracking

  /** A server that has just started, with one client connected to it. */
  ghost predicate Restarted(s: State, conn: Conn) {
    && s.mem == Some({}) && s.tasks == map[] && s.handlers == map[] && s.links == map[conn := Fresh([])]
    && s.own.slots == map[] && s.own.flights == {}
  }

  /** An event that receives nothing moves every invariant on. */
  lemma KeepsAll(s: State, e: Event)
    requires TrackInv(s) && BaseInv(s) && LinkInv(s) && Enabled(s, e) && NoStray(e)
    ensures TrackInv(Apply(s, e)) && BaseInv(Apply(s, e)) && LinkInv(Apply(s, e))
  {
    StepTracks(s, e);
    StepKeepsBase(s, e);
    StepLinks(s, e);
  }

  /** The server crashes, loads what it has, and a client connects. */
  lemma Restarts(s: State, conn: Conn)
    requires TrackInv(s) && BaseInv(s) && LinkInv(s)
    ensures var s1 := Apply(s, ServerCrash);
            && Enabled(s1, Load(0)) && Enabled(Apply(s1, Load(0)), Connect(conn))
            && var s3 := Apply(Apply(s1, Load(0)), Connect(conn));
               && Restarted(s3, conn) && TrackInv(s3) && BaseInv(s3) && LinkInv(s3)
               && s3.ever == s.ever && s3.box == s.box && s3.st == s.st && s3.root == s.root
  {
    hide TrackInv, BaseInv, LinkInv;
    var s1 := Apply(s, ServerCrash);
    KeepsAll(s, ServerCrash);
    KeepsAll(s1, Load(0));
    KeepsAll(Apply(s1, Load(0)), Connect(conn));
    assert S.Doc(S.Below(s.st.rows, 0)) == {};
  }

  /** The entry is sent to it and received as a change. */
  lemma IsReceived(s: State, conn: Conn, k: Key)
    requires TrackInv(s) && BaseInv(s) && LinkInv(s) && Restarted(s, conn) && k in s.box && s.box[k] != {}
    ensures Enabled(s, Send(k, conn))
    ensures var (s1, e) := (Apply(s, Send(k, conn)), Receive(conn, true, s.box[k]));
            && Comes(s1, conn, k) && TrackInv(s1) && BaseInv(s1) && LinkInv(s1)
            && Enabled(s1, e) && Orderly(s1, e) && CleanReceipt(s1, e, k) && SoundReceipt(s1, e, k)
            && s1.ever == s.ever && s1.box == s.box && s1.st == s.st && s1.root == s.root
  {
    hide TrackInv, BaseInv, LinkInv;
    KeepsAll(s, Send(k, conn));
    var l := Sent(Fresh([]), k, s.box[k], s.root);
    assert l.wire[0] == FrameOf(k, s.box[k]) && (s.root ==> |l.wire| == 2);
  }

  /** It is logged, acknowledged and deleted. */
  lemma IsDelivered(s: State, conn: Conn, k: Key) returns (es: seq<Event>)
    requires TrackInv(s) && BaseInv(s) && LinkInv(s) && Restarted(s, conn) && k in s.box && s.box[k] != {}
    ensures Continues(s, es, k)
    ensures var s' := End(s, es, k);
            s'.ever == s.ever && s'.box == s.box - {k} && k !in s'.acks && s.box[k] <= Durable(s'.st)
  {
    hide TrackInv, BaseInv, LinkInv;
    var delta := s.box[k];
    IsReceived(s, conn, k);
    var s1 := Apply(s, Send(k, conn));
    var receive := Receive(conn, true, delta);
    ReceivedWaits(s1, conn, delta, k);
    var s2, m := Apply(s1, receive), s1.own.next;
    var append := TryAppend(m, Appended);
    KeepsAll(s1, receive);
    KeepsAll(s2, append);
    AppendIsDurable(s2.st, delta);
    var s3 := Apply(s2, append);
    es := Farewell(s3, R.Flight(m, conn, DOC), conn, m, k);
    Prepend(s2, append, es, k);
    es := [append] + es;
    var fs := [receive] + es;
    assert fs[0] == receive && fs[1..] == es;
    Prepend(s, Send(k, conn), fs, k);
    es := [Send(k, conn)] + fs;
  }

  /** From every state, an update committed to the Outbox can be delivered: its entry goes, and it is durable. */
  lemma EveryEntryCanBeDelivered(s: State, k: Key, upd: Update, conn: Conn) returns (es: seq<Event>)
    requires TrackInv(s) && BaseInv(s) && LinkInv(s) && k !in s.ever && upd != {}
    ensures IsRun(s, [Commit(k, upd)] + es) && OrderlyRun(s, [Commit(k, upd)] + es)
    ensures CleanReceipts(s, [Commit(k, upd)] + es, k)
    ensures var s' := Run(s, [Commit(k, upd)] + es);
            s'.ever == s.ever[k := upd] && s'.box == s.box - {k} && k !in s'.acks && upd <= Durable(s'.st)
  {
    hide TrackInv, BaseInv, LinkInv, Durable, Continues, End, IsRun, Run, OrderlyRun, CleanReceipts, SoundReceipts;
    var commit := Commit(k, upd);
    KeepsAll(s, commit);
    var s0 := Apply(s, commit);
    Restarts(s0, conn);
    var s1 := Apply(s0, ServerCrash);
    var s2 := Apply(s1, Load(0));
    es := IsDelivered(Apply(s2, Connect(conn)), conn, k);
    Prepend(s2, Connect(conn), es, k);
    es := [Connect(conn)] + es;
    Prepend(s1, Load(0), es, k);
    es := [Load(0)] + es;
    Prepend(s0, ServerCrash, es, k);
    es := [ServerCrash] + es;
    Prepend(s, commit, es, k);
    ContinuesIsRun(s, [commit] + es, k);
    assert s.box[k := upd] - {k} == s.box - {k};
  }
}
