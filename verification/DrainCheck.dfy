/**
 waitDocWALDrained: what its answer means. It polls XPENDING first and the group afterwards, so entries
 delivered between the two reads escape both checks.
 */
module DrainCheck {
  import opened Base
  import opened Decimal
  import opened Storage
  import opened StorageSafety

  type StreamId = (nat, nat)

  function FormatStreamId(id: StreamId): string {
    ToDecimal(id.0) + "-" + ToDecimal(id.1)
  }

  function IndexOf(s: string, c: char): (i: nat)
    ensures i <= |s| && (i < |s| ==> s[i] == c) && forall k :: 0 <= k < i ==> s[k] != c
  {
    if s == [] || s[0] == c then 0 else 1 + IndexOf(s[1..], c)
  }

  /** The pattern is: digits, one hyphen, digits. */
  function StreamIdParts(s: string): Option<StreamId> {
    var i := IndexOf(s, '-');
    if 0 < i && i + 1 < |s| && AllDigits(s[..i]) && AllDigits(s[i + 1..])
    then Some((FromDecimal(s[..i]), FromDecimal(s[i + 1..]))) else None
  }

  /** At least one digit on either side. */
  ghost predicate ReadsAs(s: string, a: string, b: string) {
    a != "" && b != "" && AllDigits(a) && AllDigits(b) && s == a + "-" + b
  }

  lemma StreamIdPartsIff(s: string, id: StreamId)
    ensures StreamIdParts(s) == Some(id)
            <==> exists a, b :: ReadsAs(s, a, b) && id == (FromDecimal(a), FromDecimal(b))
  {
    var i := IndexOf(s, '-');
    if StreamIdParts(s).Some? {
      assert s == s[..i] + "-" + s[i + 1..];
      assert ReadsAs(s, s[..i], s[i + 1..]);
    }
    forall a, b | ReadsAs(s, a, b) ensures StreamIdParts(s) == Some((FromDecimal(a), FromDecimal(b))) {
      assert s[|a|] == '-' && forall k :: 0 <= k < |a| ==> s[k] == a[k];
      assert i == |a| && s[..i] == a && s[i + 1..] == b;
    }
  }

  function CompareStreamIds(left: string, right: string): Option<int> {
    match (StreamIdParts(left), StreamIdParts(right))
    case (Some(l), Some(r)) =>
      if l.0 < r.0 || (l.0 == r.0 && l.1 < r.1) then Some(-1)
      else if l.0 > r.0 || (l.0 == r.0 && l.1 > r.1) then Some(1)
      else Some(0)
    case _ => None
  }

  ghost predicate Precedes(l: StreamId, r: StreamId) {
    l.0 < r.0 || (l.0 == r.0 && l.1 < r.1)
  }

  lemma StreamIdRoundTrip(id: StreamId)
    ensures StreamIdParts(FormatStreamId(id)) == Some(id)
  {
    var s, a, b := FormatStreamId(id), ToDecimal(id.0), ToDecimal(id.1);
    var i := IndexOf(s, '-');
    assert s[|a|] == '-';
    assert forall k :: 0 <= k < |a| ==> s[k] == a[k];
    assert s[..i] == a && s[i + 1..] == b;
    DecimalRoundTrip(id.0);
    DecimalRoundTrip(id.1);
  }

  /** On ids as Redis writes them, the comparison is the lexicographic order, and that order is total. */
  lemma CompareIsLexicographic(l: StreamId, r: StreamId)
    ensures var c := CompareStreamIds(FormatStreamId(l), FormatStreamId(r));
            && c.Some?
            && (c.value < 0 <==> Precedes(l, r))
            && (c.value == 0 <==> l == r)
            && (c.value > 0 <==> Precedes(r, l))
  {
    StreamIdRoundTrip(l);
    StreamIdRoundTrip(r);
  }

  /** On arbitrary strings: mirrored, transitive, and silent exactly on what are not two numbers and a hyphen. */
  lemma CompareIsAnOrder(a: string, b: string, c: string)
    ensures CompareStreamIds(a, b).Some?
            <==> (exists d, e :: ReadsAs(a, d, e)) && (exists d, e :: ReadsAs(b, d, e))
    ensures CompareStreamIds(a, b).Some? ==> CompareStreamIds(b, a) == Some(-CompareStreamIds(a, b).value)
    ensures CompareStreamIds(a, b).Some? && CompareStreamIds(b, c).Some?
            && CompareStreamIds(a, b).value <= 0 && CompareStreamIds(b, c).value <= 0
            ==> CompareStreamIds(a, c).Some? && CompareStreamIds(a, c).value <= 0
  {
    forall s | s == a || s == b ensures StreamIdParts(s).Some? <==> exists d, e :: ReadsAs(s, d, e) {
      if StreamIdParts(s).Some? { StreamIdPartsIff(s, StreamIdParts(s).value); }
      forall d, e | ReadsAs(s, d, e) ensures StreamIdParts(s).Some? {
        StreamIdPartsIff(s, (FromDecimal(d), FromDecimal(e)));
      }
    }
  }

  /** Replies within one round of polling. */
  datatype Pending = Count(n: nat) | NoGroup(xlen: Option<nat>) | PendingError
  datatype Lag = Unreported | NotFinite | Reported(n: int)
  datatype Group = Info(lag: Lag, lastDelivered: string) | NotFound(xlen: Option<nat>)
  datatype LastEntry = Absent | Last(id: string) | RangeError
  datatype Poll = Poll(pending: Pending, group: Group, last: LastEntry)

  datatype Answer = Drained | TimedOut | Raised

  predicate AsksLast(p: Poll) {
    && p.pending == Count(0)
    && p.group.Info?
    && (p.group.lag.Reported? ==> p.group.lag.n < 0)
  }

  /** One round answers "drained". */
  predicate Decides(p: Poll) {
    || p.pending == NoGroup(Some(0))
    || (p.pending == Count(0) && p.group == NotFound(Some(0)))
    || (p.pending == Count(0) && p.group.Info? && p.group.lag == Reported(0))
    || (AsksLast(p) && (p.last.Absent?
                        || (p.last.Last? && var c := CompareStreamIds(p.last.id, p.group.lastDelivered);
                                            c.Some? && c.value <= 0)))
  }

  predicate Throws(p: Poll) {
    AsksLast(p) && p.last.RangeError?
  }

  /** The last entry is asked for, since the lag says nothing, and the query fails. */
  ghost predicate IsRefused(p: Poll) {
    && p.pending.Count? && p.pending.n == 0 && p.group.Info? && p.last.RangeError?
    && (p.group.lag.Unreported? || p.group.lag.NotFinite? || p.group.lag.n < 0)
  }

  predicate GoesOn(p: Poll) {
    !Decides(p) && !Throws(p)
  }

  /** The loop, over the replies of the rounds that fit before the timeout. */
  method WaitDocWALDrained(polls: seq<Poll>) returns (answer: Answer, rounds: nat)
    ensures rounds <= |polls| && forall i :: 0 <= i < rounds ==> GoesOn(polls[i])
    ensures answer.Drained? ==> rounds < |polls| && Decides(polls[rounds])
    ensures answer.Raised? ==> rounds < |polls| && Throws(polls[rounds])
    ensures answer.Raised? <==> rounds < |polls| && IsRefused(polls[rounds])
    ensures forall i :: 0 <= i < rounds ==> !IsRefused(polls[i])
    ensures answer.TimedOut? ==> rounds == |polls|
  {
    rounds := 0;
    while rounds < |polls|
      invariant rounds <= |polls| && forall i :: 0 <= i < rounds ==> GoesOn(polls[i])
    {
      var p := polls[rounds];
      if p.pending.NoGroup? {
        if p.pending.xlen == Some(0) { return Drained, rounds; }
      } else if p.pending.Count? && p.pending.n == 0 {
        match p.group {
          case NotFound(xlen) =>
            if xlen == Some(0) { return Drained, rounds; }
          case Info(lag, lastDelivered) =>
            if lag.Reported? && lag.n == 0 { return Drained, rounds; }
            if !(lag.Reported? && lag.n > 0) {
              match p.last {
                case RangeError => return Raised, rounds;
                case Absent => return Drained, rounds;
                case Last(id) =>
                  var c := CompareStreamIds(id, lastDelivered);
                  if c.Some? && c.value <= 0 { return Drained, rounds; }
              }
            }
        }
      }
      rounds := rounds + 1;
    }
    answer := TimedOut;
  }

  ghost predicate PelEmpty(s: State) {
    forall id :: 0 <= id < s.delivered ==> id in s.acked
  }

  /** Redis gives entries strictly increasing ids, all above 0-0. */
  ghost predicate ProperIds(ids: seq<StreamId>) {
    && (forall i :: 0 <= i < |ids| ==> Precedes((0, 0), ids[i]))
    && (forall i, j :: 0 <= i < j < |ids| ==> Precedes(ids[i], ids[j]))
  }

  ghost function LastDelivered(ids: seq<StreamId>, delivered: nat): StreamId
    requires delivered <= |ids|
  {
    if delivered == 0 then (0, 0) else ids[delivered - 1]
  }

  /** The replies of a round are read at three successive states: XPENDING, XINFO GROUPS, XREVRANGE. */
  ghost predicate Observed(p: Poll, s1: State, s2: State, s3: State, ids: seq<StreamId>) {
    && s2.delivered <= |ids| && |s3.stream| <= |ids| && ProperIds(ids)
    && (p.pending == Count(0) ==> PelEmpty(s1))
    && (p.pending == NoGroup(Some(0)) ==> s2.stream == [])
    && (p.group == NotFound(Some(0)) ==> s2.stream == [])
    && (p.group.Info? ==> p.group.lastDelivered == FormatStreamId(LastDelivered(ids, s2.delivered)))
    && (p.group.Info? && p.group.lag.Reported? ==> p.group.lag.n == |s2.stream| - s2.delivered)
    && (p.last.Absent? <==> s3.stream == [])
    && (p.last.Last? ==> s3.stream != [] && p.last.id == FormatStreamId(ids[|s3.stream| - 1]))
  }

  ghost function Unacknowledged(s: State): set<nat> {
    set id | 0 <= id < s.delivered && id !in s.acked
  }

  /**
   All replies of a round arrived, and each is as its state dictates. `before` and `after`: there is a group at the
   first and at the second read. Redis may leave the lag unreported.
   */
  ghost predicate Answered(p: Poll, before: bool, after: bool, s1: State, s2: State, s3: State, ids: seq<StreamId>) {
    && s2.delivered <= |s2.stream| <= |s3.stream| <= |ids| && ProperIds(ids)
    && p.pending == (if before then Count(|Unacknowledged(s1)|) else NoGroup(Some(|s2.stream|)))
    && (if after
        then p.group.Info? && p.group.lastDelivered == FormatStreamId(LastDelivered(ids, s2.delivered))
             && (p.group.lag.Reported? ==> p.group.lag.n == |s2.stream| - s2.delivered)
        else p.group == NotFound(Some(|s2.stream|)))
    && p.last == (if s3.stream == [] then Absent else Last(FormatStreamId(ids[|s3.stream| - 1])))
  }

  /** There is no group and nothing to deliver, or all that is present is delivered and acknowledged at all reads. */
  ghost predicate AllQuiet(before: bool, after: bool, lagReported: bool, s1: State, s2: State, s3: State) {
    if before && after
    then PelEmpty(s1) && (if lagReported then |s2.stream| <= s2.delivered else |s3.stream| <= s2.delivered)
    else s2.stream == [] && (before ==> PelEmpty(s1))
  }

  /** A round whose replies all arrive answers "drained" exactly then. */
  lemma AnswersDrainedIff(p: Poll, before: bool, after: bool, s1: State, s2: State, s3: State, ids: seq<StreamId>)
    requires Answered(p, before, after, s1, s2, s3, ids)
    ensures Observed(p, s1, s2, s3, ids) && !Throws(p)
    ensures Decides(p) <==> AllQuiet(before, after, after && p.group.lag.Reported?, s1, s2, s3)
  {
    assert Unacknowledged(s1) == {} <==> PelEmpty(s1) by {
      assert forall id :: 0 <= id < s1.delivered && id !in s1.acked ==> id in Unacknowledged(s1);
    }
    if after && s3.stream != [] {
      CompareIsLexicographic(ids[|s3.stream| - 1], LastDelivered(ids, s2.delivered));
    }
  }

  /** So the wait ends with "drained" by the first such round, unless an earlier one was refused its last entry. */
  method WaitUntilQuiet(polls: seq<Poll>, ghost i: nat, ghost before: bool, ghost after: bool,
                        ghost s1: State, ghost s2: State, ghost s3: State, ghost ids: seq<StreamId>)
    returns (answer: Answer, rounds: nat)
    requires i < |polls| && Answered(polls[i], before, after, s1, s2, s3, ids)
    requires AllQuiet(before, after, after && polls[i].group.lag.Reported?, s1, s2, s3)
    requires forall k :: 0 <= k < i ==> !Throws(polls[k])
    ensures answer.Drained? && rounds <= i
  {
    AnswersDrainedIff(polls[i], before, after, s1, s2, s3, ids);
    answer, rounds := WaitDocWALDrained(polls);
  }

  ghost predicate StoredIn(s: State, entry: Option<Update>) {
    Payload(entry) <= Doc(s.rows) + s.lost
  }

  lemma {:induction false} RunGrows(s: State, es: seq<Event>)
    requires IsRun(s, es)
    ensures var s' := Run(s, es);
            s.stream <= s'.stream && s.delivered <= s'.delivered && s.inserted <= s'.inserted && s.acked <= s'.acked
    decreases |es|
  {
    if es == [] {
    } else {
      StepGrows(s, es[0]);
      assert s.acked <= Apply(s, es[0]).acked;
      RunGrows(Apply(s, es[0]), es[1..]);
    }
  }

  /** A positive answer: everything present at the group read had been delivered. */
  lemma DrainedIsDelivered(p: Poll, s1: State, s2: State, fs: seq<Event>, ids: seq<StreamId>)
    requires s2.delivered <= |s2.stream| && IsRun(s2, fs)
    requires Observed(p, s1, s2, Run(s2, fs), ids) && Decides(p)
    ensures s2.delivered == |s2.stream|
  {
    RunGrows(s2, fs);
    if AsksLast(p) && p.last.Last? {
      LastIsDelivered(p, s1, s2, Run(s2, fs), ids);
    }
  }

  lemma LastIsDelivered(p: Poll, s1: State, s2: State, s3: State, ids: seq<StreamId>)
    requires Observed(p, s1, s2, s3, ids) && Decides(p) && AsksLast(p) && p.last.Last?
    requires s2.delivered <= |s2.stream| <= |s3.stream|
    ensures s2.delivered == |s2.stream|
  {
    var top, last := ids[|s3.stream| - 1], LastDelivered(ids, s2.delivered);
    CompareIsLexicographic(top, last);
    assert !Precedes(last, top);
    assert |s3.stream| - 1 < s2.delivered;
  }

  /** A positive answer: what was delivered at the first read is stored, and everything present was delivered. */
  lemma DrainedMeans(p: Poll, s1: State, es: seq<Event>, fs: seq<Event>, ids: seq<StreamId>)
    requires Inv(s1) && IsRun(s1, es) && IsRun(Run(s1, es), fs)
    requires Observed(p, s1, Run(s1, es), Run(Run(s1, es), fs), ids) && Decides(p)
    ensures var s2 := Run(s1, es);
            && s2.delivered == |s2.stream|
            && (forall i :: 0 <= i < s1.delivered ==> i < |s2.stream| && StoredIn(s2, s2.stream[i]))
            && ((forall i :: 0 <= i < |s2.stream| ==> StoredIn(s2, s2.stream[i]))
                <==> (forall i :: s1.delivered <= i < s2.delivered ==> StoredIn(s2, s2.stream[i])))
  {
    var s2 := Run(s1, es);
    RunGrows(s1, es);
    RunInv(s1, es);
    DrainedIsDelivered(p, s1, s2, fs, ids);
    assert s2.stream != [] ==> PelEmpty(s1);
  }

  /** With no delivery between the two reads, every entry present is stored. */
  lemma DrainedWithoutDelivery(p: Poll, s1: State, es: seq<Event>, fs: seq<Event>, ids: seq<StreamId>)
    requires Inv(s1) && IsRun(s1, es) && IsRun(Run(s1, es), fs)
    requires Observed(p, s1, Run(s1, es), Run(Run(s1, es), fs), ids) && Decides(p)
    requires forall e :: e in es ==> !e.Deliver?
    ensures var s2 := Run(s1, es); forall i :: 0 <= i < |s2.stream| ==> StoredIn(s2, s2.stream[i])
  {
    DrainedMeans(p, s1, es, fs, ids);
    NoDelivery(s1, es);
  }

  lemma {:induction false} NoDelivery(s: State, es: seq<Event>)
    requires IsRun(s, es) && forall e :: e in es ==> !e.Deliver?
    ensures Run(s, es).delivered == s.delivered
    decreases |es|
  {
    if es == [] {
    } else {
      assert Apply(s, es[0]).delivered == s.delivered;
      NoDelivery(Apply(s, es[0]), es[1..]);
    }
  }

  /** A delivery between the reads defeats the check: the answer is "drained", the entry is nowhere stored. */
  lemma DeliveryBetweenReads(o: Op, s0: State) returns (before: seq<Event>, es: seq<Event>, ids: seq<StreamId>, p: Poll)
    requires Init(s0)
    ensures IsRun(s0, before) && IsRun(Run(s0, before), es)
    ensures var (s1, s2) := (Run(s0, before), Run(Run(s0, before), es));
            && Observed(p, s1, s2, s2, ids) && Decides(p)
            && s2.stream == [Some({o})] && o !in Doc(s2.rows) + s2.lost
  {
    before, es := [Append(Some({o}))], [Deliver(1)];
    var s1 := Apply(s0, before[0]);
    assert before[1..] == [] && Run(s0, before) == s1;
    ids := [(1, 0)];
    p := Poll(Count(0), Info(Reported(0), FormatStreamId((1, 0))), Last(FormatStreamId((1, 0))));
    var s2 := Apply(s1, es[0]);
    assert es[1..] == [];
    assert Run(s1, es) == s2;
  }
}
