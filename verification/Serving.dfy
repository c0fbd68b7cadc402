/** The peer listener: how often a sender may call, and which nudges its inbox takes. */
module Serving {
  import opened Commits

  const WINDOW := 60
  const CALLS := 120

  /** A sender's current window, by its first instant in seconds, and the calls admitted in it. */
  datatype Rate = Rate(window: int, count: nat)

  /** The verdict on one call, and the sender's rate after it; a sender without a rate starts a window. */
  function Admit(rate: Option<Rate>, now: int): (bool, Option<Rate>) {
    var r := if rate.None? || now - rate.value.window >= WINDOW then Rate(now, 0) else rate.value;
    if r.count >= CALLS then (false, rate) else (true, Some(Rate(r.window, r.count + 1)))
  }

  /** The instants of the admitted calls among calls at the given instants. */
  function Admitted(rate: Option<Rate>, times: seq<int>): seq<int>
    decreases |times|
  {
    if times == [] then []
    else
      var (ok, next) := Admit(rate, times[0]);
      (if ok then [times[0]] else []) + Admitted(next, times[1..])
  }

  predicate Ordered(times: seq<int>) {
    forall i, j :: 0 <= i < j < |times| ==> times[i] <= times[j]
  }

  /** How many instants fall into the minute that starts at `from`. */
  function InMinute(times: seq<int>, from: int): nat {
    if times == [] then 0
    else (if from <= times[0] < from + WINDOW then 1 else 0) + InMinute(times[1..], from)
  }

  /** What a sender in window `w` with `k` admitted calls can still add to the minute starting at `from`. */
  function Room(w: int, k: nat, from: int): int {
    if from <= w then CALLS - k
    else if from < w + WINDOW then 2 * CALLS - k
    else 2 * CALLS - 1
  }

  lemma InMinutePrepend(t: int, rest: seq<int>, from: int)
    ensures InMinute([t] + rest, from) == (if from <= t < from + WINDOW then 1 else 0) + InMinute(rest, from)
  {
    assert ([t] + rest)[1..] == rest;
  }

  lemma {:induction false} LateCallsMissMinute(rate: Option<Rate>, times: seq<int>, from: int)
    requires Ordered(times) && (times == [] || from + WINDOW <= times[0])
    ensures InMinute(Admitted(rate, times), from) == 0
    decreases |times|
  {
    if times != [] {
      var t, rest := times[0], times[1..];
      var (ok, next) := Admit(rate, t);
      LateCallsMissMinute(next, rest, from);
      if ok {
        InMinutePrepend(t, Admitted(next, rest), from);
      } else {
        assert [] + Admitted(next, rest) == Admitted(next, rest);
      }
    }
  }

  lemma {:induction false} WithinRoom(w: int, k: nat, times: seq<int>, from: int)
    requires Ordered(times) && 1 <= k <= CALLS && (times == [] || w <= times[0])
    ensures InMinute(Admitted(Some(Rate(w, k)), times), from) <= Room(w, k, from)
    decreases |times|
  {
    if times != [] {
      var t, rest := times[0], times[1..];
      var (ok, next) := Admit(Some(Rate(w, k)), t);
      if ok {
        WithinRoom(next.value.window, next.value.count, rest, from);
        InMinutePrepend(t, Admitted(next, rest), from);
        if from + WINDOW <= t {
          LateCallsMissMinute(next, rest, from);
        }
      } else {
        WithinRoom(w, k, rest, from);
        assert [] + Admitted(next, rest) == Admitted(next, rest);
      }
    }
  }

  /** Whatever a sender does, at most 239 of its calls are admitted in any 60 seconds: a window always opens with a call,
    * so a minute that meets two windows misses the first call of one of them. */
  lemma AtMostTwiceTheCalls(times: seq<int>, from: int)
    requires Ordered(times)
    ensures InMinute(Admitted(None, times), from) <= 2 * CALLS - 1
    ensures times != [] && from <= times[0] ==> InMinute(Admitted(None, times), from) <= CALLS
  {
    if times != [] {
      var t, rest := times[0], times[1..];
      var (ok, next) := Admit(None, t);
      WithinRoom(t, 1, rest, from);
      InMinutePrepend(t, Admitted(next, rest), from);
      if from + WINDOW <= t {
        LateCallsMissMinute(next, rest, from);
      }
    }
  }

  function Repeat(t: int, n: nat): (s: seq<int>)
    ensures |s| == n && forall u :: u in s ==> u == t
  {
    if n == 0 then [] else [t] + Repeat(t, n - 1)
  }

  lemma {:induction false} BurstAdmitted(w: int, k: nat, t: int, n: nat, more: seq<int>)
    requires w <= t < w + WINDOW && k + n <= CALLS
    ensures Admitted(Some(Rate(w, k)), Repeat(t, n) + more) == Repeat(t, n) + Admitted(Some(Rate(w, k + n)), more)
    decreases n
  {
    if n == 0 {
      assert [] + more == more && [] + Admitted(Some(Rate(w, k)), more) == Admitted(Some(Rate(w, k)), more);
    } else {
      assert (Repeat(t, n) + more)[1..] == Repeat(t, n - 1) + more;
      BurstAdmitted(w, k + 1, t, n - 1, more);
      assert [t] + (Repeat(t, n - 1) + Admitted(Some(Rate(w, k + n)), more)) == Repeat(t, n) + Admitted(Some(Rate(w, k + n)), more);
    }
  }

  lemma {:induction false} BurstCounted(t: int, n: nat, more: seq<int>, from: int)
    requires from <= t < from + WINDOW
    ensures InMinute(Repeat(t, n) + more, from) == n + InMinute(more, from)
    decreases n
  {
    if n == 0 {
      assert [] + more == more;
    } else {
      assert (Repeat(t, n) + more)[1..] == Repeat(t, n - 1) + more;
      BurstCounted(t, n - 1, more, from);
    }
  }

  /** The bound is reached: one call opens a window, the rest of it comes in the window's last second, and the next
    * window is used up at once. */
  lemma BoundIsReached(rest: nat)
    requires rest == CALLS - 1
    ensures var times := [0] + (Repeat(WINDOW - 1, rest) + Repeat(WINDOW, rest + 1));
            InMinute(Admitted(None, times), WINDOW - 1) == 2 * CALLS - 1
  {
    var first, second := Repeat(WINDOW - 1, rest), Repeat(WINDOW, rest + 1);
    assert ([0] + (first + second))[1..] == first + second;
    BurstAdmitted(0, 1, WINDOW - 1, rest, second);
    NextWindow(rest);
    assert Admitted(None, [0] + (first + second)) == [0] + (first + second);
    InMinutePrepend(0, first + second, WINDOW - 1);
    BurstCounted(WINDOW - 1, rest, second, WINDOW - 1);
    assert second + [] == second;
    BurstCounted(WINDOW, rest + 1, [], WINDOW - 1);
  }

  lemma NextWindow(rest: nat)
    requires rest == CALLS - 1
    ensures Admitted(Some(Rate(0, CALLS)), Repeat(WINDOW, rest + 1)) == Repeat(WINDOW, rest + 1)
  {
    var second := Repeat(WINDOW, rest + 1);
    assert second[1..] == Repeat(WINDOW, rest);
    BurstAdmitted(WINDOW, 1, WINDOW, rest, []);
    assert Repeat(WINDOW, rest) + [] == Repeat(WINDOW, rest);
    assert Admitted(Some(Rate(WINDOW, 1 + rest)), []) == [];
  }

  /** The per-sender rates of the listener. */
  class Limiter {
    var rates: map<string, Rate>

    constructor ()
      ensures rates == map[]
    {
      rates := map[];
    }

    function RateOf(sender: string): Option<Rate>
      reads this
    {
      if sender in rates then Some(rates[sender]) else None
    }

    /** One call: the verdict and the new rate are the sender's own; other senders are not affected. */
    method AllowRate(sender: string, now: int) returns (ok: bool)
      modifies this
      ensures (ok, RateOf(sender)) == Admit(old(RateOf(sender)), now)
      ensures forall other :: other != sender ==> RateOf(other) == old(RateOf(other))
    {
      var rate := if sender in rates then rates[sender] else Rate(now, 0);
      if sender in rates && now - rate.window >= WINDOW {
        rate := Rate(now, 0);
      }
      if rate.count >= CALLS {
        return false;
      }
      rates := rates[sender := Rate(rate.window, rate.count + 1)];
      ok := true;
    }

    /** A whole history of calls of many senders: each sender is answered as if it called alone. */
    method Serve(calls: seq<(string, int)>) returns (verdicts: seq<bool>)
      modifies this
      ensures |verdicts| == |calls|
      ensures forall sender :: AdmittedOf(calls, verdicts, sender) == Admitted(old(RateOf(sender)), TimesOf(calls, sender))
    {
      verdicts := [];
      var i := 0;
      while i < |calls|
        invariant 0 <= i <= |calls| && |verdicts| == i
        invariant forall sender ::
          AdmittedOf(calls[..i], verdicts, sender) + Admitted(RateOf(sender), TimesOf(calls[i..], sender))
          == Admitted(old(RateOf(sender)), TimesOf(calls, sender))
      {
        label before:
        var ok := AllowRate(calls[i].0, calls[i].1);
        forall sender
          ensures AdmittedOf(calls[..i + 1], verdicts + [ok], sender) + Admitted(RateOf(sender), TimesOf(calls[i + 1..], sender))
               == AdmittedOf(calls[..i], verdicts, sender) + Admitted(old@before(RateOf(sender)), TimesOf(calls[i..], sender))
        {
          OneMoreCall(calls, verdicts, ok, i, sender, old@before(RateOf(sender)), RateOf(sender));
        }
        verdicts := verdicts + [ok];
        i := i + 1;
      }
      assert calls[..i] == calls && calls[i..] == [];
    }
  }

  /** The instants at which one sender called. */
  function TimesOf(calls: seq<(string, int)>, sender: string): seq<int> {
    if calls == [] then [] else (if calls[0].0 == sender then [calls[0].1] else []) + TimesOf(calls[1..], sender)
  }

  /** The instants at which one sender's call was admitted. */
  function AdmittedOf(calls: seq<(string, int)>, verdicts: seq<bool>, sender: string): seq<int>
    requires |calls| == |verdicts|
  {
    if calls == [] then []
    else
      var last := |calls| - 1;
      AdmittedOf(calls[..last], verdicts[..last], sender) + if calls[last].0 == sender && verdicts[last] then [calls[last].1] else []
  }

  /** Moving one call from the calls to come to the calls answered changes nothing of what a sender gets. */
  lemma OneMoreCall(calls: seq<(string, int)>, verdicts: seq<bool>, ok: bool, i: nat, sender: string, rate: Option<Rate>, next: Option<Rate>)
    requires |verdicts| == i < |calls|
    requires if sender == calls[i].0 then (ok, next) == Admit(rate, calls[i].1) else next == rate
    ensures AdmittedOf(calls[..i + 1], verdicts + [ok], sender) + Admitted(next, TimesOf(calls[i + 1..], sender))
         == AdmittedOf(calls[..i], verdicts, sender) + Admitted(rate, TimesOf(calls[i..], sender))
  {
    var done, more := calls[..i + 1], verdicts + [ok];
    assert done[..i] == calls[..i] && more[..i] == verdicts;
    assert calls[i..][1..] == calls[i + 1..];
    var later := TimesOf(calls[i + 1..], sender);
    if sender == calls[i].0 {
      var times := [calls[i].1] + later;
      assert times[1..] == later;
      assert Admitted(rate, times) == (if ok then [calls[i].1] else []) + Admitted(next, later);
    } else {
      assert [] + later == later;
      assert AdmittedOf(calls[..i], verdicts, sender) + [] == AdmittedOf(calls[..i], verdicts, sender);
    }
  }

  datatype Nudge = Nudge(bytes: string, processed: bool)

  datatype Admission = New | Duplicate | ConflictingBytes | QueueFull

  const LEDGER := 100000

  /** The receiver's inbox, which shares one queue with the group's jobs. */
  class Inbox {
    var nudges: map<string, Nudge>
    var jobs: nat              // unresolved jobs of the group
    const limit: nat           // between 2 and 1000

    constructor (limit: nat)
      ensures nudges == map[] && jobs == 0 && this.limit == limit
    {
      nudges, jobs, this.limit := map[], 0, limit;
    }

    function PendingNudges(): set<string>
      reads this
    {
      set id | id in nudges && !nudges[id].processed
    }

    /** Nudges alone never fill the queue: one place stays free for the work they cause. */
    predicate Valid()
      reads this
    {
      2 <= limit && |PendingNudges()| <= limit - 1 && |nudges| <= LEDGER
    }

    /** Takes a nudge once. The same bytes again are acknowledged without a change; other bytes under the same
      * publication are refused; a new publication needs room in the shared queue, in the inbox and in the ledger. */
    method AdmitNudge(id: string, bytes: string) returns (a: Admission)
      requires Valid()
      modifies this`nudges
      ensures Valid()
      ensures id in old(nudges) ==> nudges == old(nudges) && a == if old(nudges)[id].bytes == bytes then Duplicate else ConflictingBytes
      ensures id !in old(nudges) ==> var pending := |old(PendingNudges())|;
        a == if pending + jobs >= limit || pending >= limit - 1 || |old(nudges)| >= LEDGER then QueueFull else New
      ensures a == New ==> nudges == old(nudges)[id := Nudge(bytes, false)]
      ensures a == QueueFull ==> nudges == old(nudges)
      ensures a in {New, Duplicate} ==> id in nudges && nudges[id].bytes == bytes
    {
      if id in nudges {
        return if nudges[id].bytes == bytes then Duplicate else ConflictingBytes;
      }
      var pending := |PendingNudges()|;
      if pending + jobs >= limit || pending >= limit - 1 || |nudges| >= LEDGER {
        return QueueFull;
      }
      ghost var before := PendingNudges();
      nudges := nudges[id := Nudge(bytes, false)];
      assert PendingNudges() == before + {id};
      a := New;
    }
  }
}
