/** One push of a signed candidate: what the client reports, and what the report lets the caller conclude. */
module Push {
  import opened Commits

  /** The value of a ref; nothing when the ref does not exist. */
  type Head = Option<Commit>

  datatype PushState = PushConfirmed | PushRejected | PushAmbiguous | PushNotStarted

  /** `binding` marks an error of the approved remote binding. */
  datatype Report = Report(state: PushState, remote: Head, binding: bool)

  datatype Disposition = Confirmed | Retryable | Conflict | Unknown | TrustFailure

  function Classify(r: Report, predecessor: Head, candidate: Commit): Disposition {
    if r.binding then TrustFailure
    else if r.state == PushConfirmed || r.remote == Some(candidate) then Confirmed
    else if r.state == PushNotStarted then Retryable
    else if r.state == PushRejected then (if r.remote == predecessor then Retryable else Conflict)
    else Unknown
  }

  /** What the network and the other writers of the remote do around one push: `before`, `between` and `after` are the
    * commits others push ahead of the first read, between it and this push, and between this push and the last read. */
  datatype Weather = Weather(
    bound: bool, firstRead: bool, delivered: bool, replied: bool, lastRead: bool,
    before: seq<Commit>, between: seq<Commit>, after: seq<Commit>)

  /** A server ref under the fast-forward rule. */
  function Receive(h: Head, c: Commit): Head {
    if h.None? || Ancestor(h.value, c) then Some(c) else h
  }

  function ReceiveAll(h: Head, cs: seq<Commit>): Head
    decreases |cs|
  {
    if cs == [] then h else Receive(ReceiveAll(h, cs[..|cs| - 1]), cs[|cs| - 1])
  }

  predicate Accepts(h: Head, c: Commit) {
    h.None? || Ancestor(h.value, c)
  }

  /** The remote as each moment of the push finds it. */
  function AtFirstRead(h: Head, w: Weather): Head {
    ReceiveAll(h, w.before)
  }

  function AtPush(h: Head, w: Weather): Head {
    ReceiveAll(AtFirstRead(h, w), w.between)
  }

  function AtLastRead(h: Head, candidate: Commit, w: Weather): Head {
    ReceiveAll(if w.delivered then Receive(AtPush(h, w), candidate) else AtPush(h, w), w.after)
  }

  /** A push is sent only when the first read shows the expected predecessor. */
  predicate Sent(h: Head, candidate: Commit, expected: Head, w: Weather) {
    w.bound && w.firstRead && AtFirstRead(h, w) == expected && expected != Some(candidate)
  }

  /** This push itself put the candidate on the remote, or found it there. */
  predicate Landed(h: Head, candidate: Commit, expected: Head, w: Weather) {
    Sent(h, candidate, expected, w) && w.delivered && Accepts(AtPush(h, w), candidate)
  }

  /** The report the caller gets, told from outside: it depends only on what the two reads saw and whether a landed
    * push was answered. */
  function ReportOf(h: Head, candidate: Commit, expected: Head, w: Weather): Report {
    if !w.bound then Report(PushRejected, None, true)
    else if !w.firstRead then Report(PushNotStarted, None, false)
    else if !Sent(h, candidate, expected, w) then
      var first := AtFirstRead(h, w);
      Report(if first == Some(candidate) then PushConfirmed else PushRejected, first, false)
    else
      var last := if w.lastRead then AtLastRead(h, candidate, w) else None;
      var answered := Landed(h, candidate, expected, w) && w.replied;
      Report(if last == Some(candidate) then PushConfirmed
             else if !answered && w.lastRead && last == expected then PushRejected
             else PushAmbiguous, last, false)
  }

  function FinalHead(h: Head, candidate: Commit, expected: Head, w: Weather): Head {
    if !w.bound then h else if Sent(h, candidate, expected, w) then AtLastRead(h, candidate, w) else AtFirstRead(h, w)
  }

  /** The remote: one content ref that other writers move while a push is under way. */
  class Remote {
    var head: Head

    constructor (h: Head)
      ensures head == h
    {
      head := h;
    }

    method Others(cs: seq<Commit>)
      modifies this
      ensures head == ReceiveAll(old(head), cs)
    {
      var i := 0;
      assert cs[..0] == [];
      while i < |cs|
        invariant 0 <= i <= |cs|
        invariant head == ReceiveAll(old(head), cs[..i])
      {
        assert cs[..i + 1][..i] == cs[..i];
        head := Receive(head, cs[i]);
        i := i + 1;
      }
      assert cs[..|cs|] == cs;
    }
  }

  /** The non-force push: verify the binding, read the ref, push only over the expected value, read again. */
  method PushFastForward(r: Remote, candidate: Commit, expected: Head, w: Weather) returns (report: Report)
    modifies r
    ensures report == ReportOf(old(r.head), candidate, expected, w)
    ensures r.head == FinalHead(old(r.head), candidate, expected, w)
  {
    if !w.bound {
      return Report(PushRejected, None, true);
    }
    r.Others(w.before);
    if !w.firstRead {
      return Report(PushNotStarted, None, false);
    }
    if r.head == Some(candidate) {
      return Report(PushConfirmed, Some(candidate), false);
    }
    if r.head != expected {
      return Report(PushRejected, r.head, false);
    }
    r.Others(w.between);
    var succeeded := w.delivered && Accepts(r.head, candidate) && w.replied;
    if w.delivered {
      r.head := Receive(r.head, candidate);
    }
    r.Others(w.after);
    var remote := if w.lastRead then r.head else None;
    if w.lastRead && remote == Some(candidate) {
      return Report(PushConfirmed, remote, false);
    }
    if succeeded {
      return Report(PushAmbiguous, remote, false);
    }
    if w.lastRead && remote == expected {
      return Report(PushRejected, remote, false);
    }
    report := Report(PushAmbiguous, remote, false);
  }

  predicate Moves(a: Head, b: Head) {
    a.None? || (b.Some? && Ancestor(a.value, b.value))
  }

  lemma {:induction false} OthersMoveForward(h: Head, cs: seq<Commit>)
    ensures Moves(h, ReceiveAll(h, cs))
    decreases |cs|
  {
    if cs != [] {
      var rest := ReceiveAll(h, cs[..|cs| - 1]);
      OthersMoveForward(h, cs[..|cs| - 1]);
      if h.Some? && Ancestor(rest.value, cs[|cs| - 1]) {
        AncestorTransitive(h.value, rest.value, cs[|cs| - 1]);
      }
    }
  }

  /** Once this push has landed, the remote never shows the predecessor again. */
  lemma LandedNeverShowsPredecessor(h: Head, candidate: Commit, expected: Head, w: Weather)
    requires Landed(h, candidate, expected, w)
    ensures AtLastRead(h, candidate, w) != expected
    ensures Moves(Some(candidate), AtLastRead(h, candidate, w))
  {
    OthersMoveForward(AtFirstRead(h, w), w.between);
    OthersMoveForward(Some(candidate), w.after);
    var last := AtLastRead(h, candidate, w);
    if expected.Some? && last == expected {
      AncestorTransitive(expected.value, AtPush(h, w).value, candidate);
      AncestorHeight(expected.value, candidate);
      AncestorHeight(candidate, expected.value);
    }
  }

  /** Pushes the candidate and classifies the report.
    *
    * A landed push is never called retryable, conflicting or untrusted: those answers prove that this push changed
    * nothing. A confirmed answer proves the candidate was on the remote, whoever put it there. */
  method PushAndClassify(r: Remote, candidate: Commit, predecessor: Head, w: Weather) returns (d: Disposition)
    modifies r
    ensures r.head == FinalHead(old(r.head), candidate, predecessor, w)
    ensures d == TrustFailure <==> !w.bound
    ensures d == Confirmed ==> Some(candidate) in {AtFirstRead(old(r.head), w), AtLastRead(old(r.head), candidate, w)}
    ensures d in {Retryable, Conflict, TrustFailure} ==> !Landed(old(r.head), candidate, predecessor, w)
    ensures Landed(old(r.head), candidate, predecessor, w) ==> d in {Confirmed, Unknown}
    ensures d == Conflict <==> w.bound && w.firstRead && AtFirstRead(old(r.head), w) !in {Some(candidate), predecessor}
    ensures d == Classify(ReportOf(old(r.head), candidate, predecessor, w), predecessor, candidate)
    ensures d == Retryable && w.firstRead ==> AtLastRead(old(r.head), candidate, w) == predecessor && r.head == predecessor
  {
    ghost var h := r.head;
    var report := PushFastForward(r, candidate, predecessor, w);
    d := Classify(report, predecessor, candidate);
    if Landed(h, candidate, predecessor, w) {
      LandedNeverShowsPredecessor(h, candidate, predecessor, w);
    }
  }

  /** Nobody else writes, and everything that is sent and read arrives. */
  predicate Calm(w: Weather) {
    w.bound && w.firstRead && w.delivered && w.lastRead && w.before == [] && w.between == [] && w.after == []
  }

  /** A candidate made over what the ref showed: a child of it, or the first commit of an absent ref. */
  predicate Follows(base: Head, candidate: Commit) {
    base.Some? ==> Child(base.value, candidate)
  }

  /** In calm weather a push of such a candidate lands and is confirmed. */
  lemma CalmPushIsConfirmed(base: Head, candidate: Commit, w: Weather)
    requires Calm(w) && Follows(base, candidate)
    ensures FinalHead(base, candidate, base, w) == Some(candidate)
    ensures Classify(ReportOf(base, candidate, base, w), base, candidate) == Confirmed
  {
    assert base.Some? ==> Height(candidate) == 1 + Height(base.value);
    assert AtPush(base, w) == AtFirstRead(base, w) == base;
    assert Accepts(base, candidate);
    assert AtLastRead(base, candidate, w) == Some(candidate);
  }

  /** An unknown answer really is one: the same report follows a push that landed and one that was lost. */
  lemma UnknownIsEither(h: Head, candidate: Commit) returns (landed: Weather, lost: Weather)
    requires h != Some(candidate) && Accepts(h, candidate)
    ensures Landed(h, candidate, h, landed) && Sent(h, candidate, h, lost) && !Landed(h, candidate, h, lost)
    ensures ReportOf(h, candidate, h, landed) == ReportOf(h, candidate, h, lost)
    ensures Classify(ReportOf(h, candidate, h, lost), h, candidate) == Unknown
  {
    landed := Weather(true, true, true, false, false, [], [], []);
    lost := landed.(delivered := false);
  }

}
