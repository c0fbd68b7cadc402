/** Why concurrent invocations for one job sign at most one candidate, and for which command they may sign two.
  *
  * All three signing commands look for a candidate in the job's journal, claim the job, and sign a new candidate when
  * they saw none. They differ in when they look: membership apply after it holds the claim, publish before the claim
  * but holding the resource guard of the node, checkpoint apply before the claim and without the guard.
  */
module CandidateRuns {
  import opened Commits
  import opened Journals

  datatype Discipline = AfterClaim | UnderGuard | BeforeClaim

  datatype Phase =
    | Begun
    | Looked(seen: Option<Commit>)                 // read the journal, no claim yet
    | Claimed(fence: nat)                          // holds a claim, has not read
    | Knows(fence: nat, seen: Option<Commit>)      // holds a claim and what it read
    | Signing(fence: nat, candidate: Commit)       // signed, not yet journaled
    | Holding(fence: nat, candidate: Commit)       // the journal names its candidate

  /** `owner` and `fence` are the claim on the job; `expired` says that its lease has run out. */
  datatype State = State(journal: Journal, owner: Option<nat>, fence: nat, expired: bool, guard: Option<nat>, procs: map<nat, Phase>)

  datatype Action =
    | Start(pid: nat)
    | Look(pid: nat)
    | Claim(pid: nat)
    | Sign(pid: nat, candidate: Commit)
    | Append(pid: nat)
    | Release(pid: nat)
    | Expire
    | Reconcile(pid: nat)
    | Crash(pid: nat)

  predicate Owns(s: State, pid: nat, fence: nat) {
    s.owner == Some(pid) && s.fence == fence && !s.expired
  }

  function Enter(s: State, pid: nat, phase: Phase): State {
    s.(procs := s.procs[pid := phase])
  }

  function Leave(s: State, pid: nat): State {
    s.(procs := s.procs - {pid}, guard := if s.guard == Some(pid) then None else s.guard)
  }

  /** The candidate a finishing process records; recording nothing when it has none. */
  function NameOf(p: Phase): Option<Commit> {
    match p
    case Holding(_, c) => Some(c)
    case Knows(_, seen) => seen
    case _ => None
  }

  /** One step of one process, or time running out on the claim. A step that is not enabled changes nothing. */
  function Step(d: Discipline, s: State, a: Action): State {
    match a
    case Start(pid) =>
      if pid in s.procs || (d == UnderGuard && s.guard.Some?) then s
      else Enter(s.(guard := if d == UnderGuard then Some(pid) else s.guard), pid, Begun)
    case Look(pid) =>
      if pid !in s.procs then s
      else if d != AfterClaim && s.procs[pid].Begun? then Enter(s, pid, Looked(CandidateOf(s.journal)))
      else if d == AfterClaim && s.procs[pid].Claimed? then Enter(s, pid, Knows(s.procs[pid].fence, CandidateOf(s.journal)))
      else s
    case Claim(pid) =>
      if pid !in s.procs || s.owner.Some? then s
      else if d == AfterClaim && s.procs[pid].Begun? then
        Enter(s.(owner := Some(pid), fence := s.fence + 1, expired := false), pid, Claimed(s.fence + 1))
      else if d != AfterClaim && s.procs[pid].Looked? then
        Enter(s.(owner := Some(pid), fence := s.fence + 1, expired := false), pid, Knows(s.fence + 1, s.procs[pid].seen))
      else s
    case Sign(pid, c) =>
      if pid in s.procs && s.procs[pid].Knows? && s.procs[pid].seen.None? then Enter(s, pid, Signing(s.procs[pid].fence, c)) else s
    case Append(pid) =>
      if pid in s.procs && s.procs[pid].Signing? && Owns(s, pid, s.procs[pid].fence) then
        Enter(s.(journal := s.journal + [Entry(Some(s.procs[pid].candidate))]), pid, Holding(s.procs[pid].fence, s.procs[pid].candidate))
      else s
    case Release(pid) =>
      if pid in s.procs && (s.procs[pid].Knows? || s.procs[pid].Holding?) && Owns(s, pid, s.procs[pid].fence) then
        Leave(s.(journal := s.journal + [Entry(NameOf(s.procs[pid]))], owner := None), pid)
      else s
    case Expire => s.(expired := true)
    case Reconcile(pid) =>
      if pid in s.procs && s.procs[pid].Begun? && s.owner.Some? && s.expired then
        s.(journal := s.journal + [Entry(CandidateOf(s.journal))], owner := None)
      else s
    case Crash(pid) => if pid in s.procs then Leave(s, pid) else s
  }

  function Run(d: Discipline, s: State, acts: seq<Action>): State
    decreases |acts|
  {
    if acts == [] then s else Run(d, Step(d, s, acts[0]), acts[1..])
  }

  function Fresh(): State {
    State([], None, 0, false, None, map[])
  }

  /** What process `pid` may rely on. Only the owner under the current fence can still write the journal; what such a
    * process saw, or wrote, is what the journal names. */
  predicate ProcSafe(d: Discipline, s: State, pid: nat, p: Phase) {
    && (d == UnderGuard ==> s.guard == Some(pid))
    && match p
       case Begun => true
       case Looked(seen) => d != AfterClaim && (d == UnderGuard ==> seen == CandidateOf(s.journal))
       case Claimed(f) => d == AfterClaim && f <= s.fence
       case Knows(f, seen) => f <= s.fence && (s.owner == Some(pid) && f == s.fence ==> seen == CandidateOf(s.journal))
       case Signing(f, _) => f <= s.fence && (s.owner == Some(pid) && f == s.fence ==> CandidateOf(s.journal) == None)
       case Holding(f, c) => f <= s.fence && (s.owner == Some(pid) && f == s.fence ==> CandidateOf(s.journal) == Some(c))
  }

  ghost predicate Safe(d: Discipline, s: State) {
    && SingleCandidate(s.journal)
    && (forall pid :: pid in s.procs ==> ProcSafe(d, s, pid, s.procs[pid]))
  }

  /** A claim that finds in the journal what its process had read there. */
  predicate UpToDate(s: State, a: Action) {
    a.Claim? && a.pid in s.procs && s.procs[a.pid].Looked? && s.owner.None? ==> s.procs[a.pid].seen == CandidateOf(s.journal)
  }

  /** The guard, or looking only after the claim, makes every claim up to date. */
  lemma DisciplineIsUpToDate(d: Discipline, s: State, a: Action)
    requires Safe(d, s) && d != BeforeClaim
    ensures UpToDate(s, a)
  {
    if a.Claim? && a.pid in s.procs && s.procs[a.pid].Looked? {
      assert ProcSafe(d, s, a.pid, s.procs[a.pid]);
    }
  }

  lemma StepKeepsSingle(d: Discipline, s: State, a: Action)
    requires Safe(d, s)
    ensures SingleCandidate(Step(d, s, a).journal)
    ensures CandidateOf(s.journal).Some? ==> CandidateOf(Step(d, s, a).journal) == CandidateOf(s.journal)
    ensures Step(d, s, a).journal == s.journal || exists e :: Step(d, s, a).journal == s.journal + [e]
  {
    match a
    case Append(pid) =>
      if pid in s.procs && s.procs[pid].Signing? && Owns(s, pid, s.procs[pid].fence) {
        AppendKeepsSingle(s.journal, Entry(Some(s.procs[pid].candidate)));
      }
    case Release(pid) =>
      if pid in s.procs && (s.procs[pid].Knows? || s.procs[pid].Holding?) && Owns(s, pid, s.procs[pid].fence) {
        AppendKeepsSingle(s.journal, Entry(NameOf(s.procs[pid])));
      }
    case Reconcile(pid) => AppendKeepsSingle(s.journal, Entry(CandidateOf(s.journal)));
    case _ =>
  }

  /** What the other processes rely on survives a step of one process: they are not the owner, or hold no guard. */
  lemma StepKeepsOthers(d: Discipline, s: State, a: Action, pid: nat)
    requires Safe(d, s) && UpToDate(s, a)
    requires pid in Step(d, s, a).procs
    ensures ProcSafe(d, Step(d, s, a), pid, Step(d, s, a).procs[pid])
  {
    StepKeepsSingle(d, s, a);
    var t := Step(d, s, a);
    if pid in s.procs && t.procs[pid] == s.procs[pid] {
      assert ProcSafe(d, s, pid, s.procs[pid]);
      if t.journal != s.journal {
        assert d == UnderGuard ==> s.guard == Some(pid);
      }
    }
  }

  lemma StepKeepsSafe(d: Discipline, s: State, a: Action)
    requires Safe(d, s) && UpToDate(s, a)
    ensures Safe(d, Step(d, s, a))
  {
    StepKeepsSingle(d, s, a);
    forall pid | pid in Step(d, s, a).procs ensures ProcSafe(d, Step(d, s, a), pid, Step(d, s, a).procs[pid]) {
      StepKeepsOthers(d, s, a, pid);
    }
  }

  /** Membership apply, which looks after claiming, and publish, which holds the guard, sign one candidate in every run:
    * all entries name the same commit, and once it is named it never changes. */
  lemma {:induction false} OneCandidateInEveryRun(d: Discipline, s: State, acts: seq<Action>)
    requires Safe(d, s) && d != BeforeClaim
    ensures Safe(d, Run(d, s, acts)) && SingleCandidate(Run(d, s, acts).journal)
    ensures CandidateOf(s.journal).Some? ==> CandidateOf(Run(d, s, acts).journal) == CandidateOf(s.journal)
    decreases |acts|
  {
    if acts != [] {
      StepKeepsSingle(d, s, acts[0]);
      DisciplineIsUpToDate(d, s, acts[0]);
      StepKeepsSafe(d, s, acts[0]);
      OneCandidateInEveryRun(d, Step(d, s, acts[0]), acts[1..]);
    }
  }

  lemma FreshIsSafe(d: Discipline)
    ensures Safe(d, Fresh())
  {
  }

  /** Every claim of the run is up to date when it is made. */
  predicate AllUpToDate(d: Discipline, s: State, acts: seq<Action>)
    decreases |acts|
  {
    acts == [] || (UpToDate(s, acts[0]) && AllUpToDate(d, Step(d, s, acts[0]), acts[1..]))
  }

  /** Checkpoint apply signs one candidate in every run in which no claim is made on an outdated reading. */
  lemma {:induction false} UpToDateRunsAreSingle(s: State, acts: seq<Action>)
    requires Safe(BeforeClaim, s) && AllUpToDate(BeforeClaim, s, acts)
    ensures SingleCandidate(Run(BeforeClaim, s, acts).journal)
    decreases |acts|
  {
    if acts != [] {
      StepKeepsSafe(BeforeClaim, s, acts[0]);
      UpToDateRunsAreSingle(Step(BeforeClaim, s, acts[0]), acts[1..]);
    }
  }

  /** And one outdated claim is enough: from it the process signs and journals a second candidate. */
  lemma OutdatedClaimForks(s: State, pid: nat, c: Commit)
    requires pid in s.procs && s.procs[pid] == Looked(None) && s.owner.None?
    requires CandidateOf(s.journal).Some? && CandidateOf(s.journal) != Some(c)
    ensures var t := Run(BeforeClaim, s, [Claim(pid), Sign(pid, c), Append(pid)]);
            !SingleCandidate(t.journal) && CandidateOf(t.journal) == Some(c)
  {
    RunThree(s, Claim(pid), Sign(pid, c), Append(pid));
    var t := Step(BeforeClaim, Step(BeforeClaim, Step(BeforeClaim, s, Claim(pid)), Sign(pid, c)), Append(pid));
    assert t.journal == s.journal + [Entry(Some(c))];
    CandidateIsNamed(s.journal);
    var i :| 0 <= i < |s.journal| && s.journal[i].candidate == CandidateOf(s.journal);
    assert t.journal[i] == s.journal[i];
  }

  lemma RunThree(s: State, x: Action, y: Action, z: Action)
    ensures Run(BeforeClaim, s, [x, y, z]) == Step(BeforeClaim, Step(BeforeClaim, Step(BeforeClaim, s, x), y), z)
  {
    assert [x, y, z][1..] == [y, z] && [y, z][1..] == [z] && [z][1..] == [];
    assert Run(BeforeClaim, s, [x, y, z]) == Run(BeforeClaim, Step(BeforeClaim, s, x), [y, z]);
    var s1 := Step(BeforeClaim, s, x);
    assert Run(BeforeClaim, s1, [y, z]) == Run(BeforeClaim, Step(BeforeClaim, s1, y), [z]);
    var s2 := Step(BeforeClaim, s1, y);
    assert Run(BeforeClaim, s2, [z]) == Run(BeforeClaim, Step(BeforeClaim, s2, z), []);
  }

  /** Two checkpoint invocations started together reach such a claim: the second has looked before the first signed. */
  lemma CheckpointMaySignTwo(first: Commit, second: Commit) returns (s: State)
    requires first != second
    ensures exists acts :: Run(BeforeClaim, Fresh(), acts) == s
    ensures !SingleCandidate(s.journal) && CandidateOf(s.journal) == Some(second)
  {
    var opening := [Start(0), Look(0), Start(1), Look(1), Claim(0), Sign(0, first), Append(0), Release(0)];
    var closing := [Claim(1), Sign(1, second), Append(1)];
    RunAppend(BeforeClaim, Fresh(), opening, closing);
    OpeningRun(first);
    OutdatedClaimForks(Run(BeforeClaim, Fresh(), opening), 1, second);
    s := Run(BeforeClaim, Fresh(), opening + closing);
  }

  lemma RunTwo(s: State, x: Action, y: Action)
    ensures Run(BeforeClaim, s, [x, y]) == Step(BeforeClaim, Step(BeforeClaim, s, x), y)
  {
    assert [x, y][1..] == [y] && [y][1..] == [];
    assert Run(BeforeClaim, s, [x, y]) == Run(BeforeClaim, Step(BeforeClaim, s, x), [y]);
    var s1 := Step(BeforeClaim, s, x);
    assert Run(BeforeClaim, s1, [y]) == Run(BeforeClaim, Step(BeforeClaim, s1, y), []);
  }

  lemma BothLook()
    ensures var s := Run(BeforeClaim, Fresh(), [Start(0), Look(0)] + [Start(1), Look(1)]);
            s == Fresh().(procs := map[0 := Looked(None), 1 := Looked(None)])
  {
    RunAppend(BeforeClaim, Fresh(), [Start(0), Look(0)], [Start(1), Look(1)]);
    RunTwo(Fresh(), Start(0), Look(0));
    var s := Run(BeforeClaim, Fresh(), [Start(0), Look(0)]);
    RunTwo(s, Start(1), Look(1));
  }

  lemma FirstSigns(s: State, first: Commit)
    requires s == Fresh().(procs := map[0 := Looked(None), 1 := Looked(None)])
    ensures var t := Run(BeforeClaim, s, [Claim(0), Sign(0, first)] + [Append(0), Release(0)]);
            t.owner.None? && t.procs == map[1 := Looked(None)] && t.journal == [Entry(Some(first)), Entry(Some(first))]
  {
    RunAppend(BeforeClaim, s, [Claim(0), Sign(0, first)], [Append(0), Release(0)]);
    RunTwo(s, Claim(0), Sign(0, first));
    var t := Run(BeforeClaim, s, [Claim(0), Sign(0, first)]);
    RunTwo(t, Append(0), Release(0));
  }

  lemma OpeningRun(first: Commit)
    ensures var acts := [Start(0), Look(0), Start(1), Look(1), Claim(0), Sign(0, first), Append(0), Release(0)];
            var s := Run(BeforeClaim, Fresh(), acts);
            s.owner.None? && s.procs == map[1 := Looked(None)] && CandidateOf(s.journal) == Some(first)
  {
    var looks, signs := [Start(0), Look(0)] + [Start(1), Look(1)], [Claim(0), Sign(0, first)] + [Append(0), Release(0)];
    assert [Start(0), Look(0), Start(1), Look(1), Claim(0), Sign(0, first), Append(0), Release(0)] == looks + signs;
    BothLook();
    RunAppend(BeforeClaim, Fresh(), looks, signs);
    FirstSigns(Run(BeforeClaim, Fresh(), looks), first);
  }

  lemma {:induction false} RunAppend(d: Discipline, s: State, acts: seq<Action>, more: seq<Action>)
    ensures Run(d, s, acts + more) == Run(d, Run(d, s, acts), more)
    decreases |acts|
  {
    if acts == [] {
      assert acts + more == more;
    } else {
      assert (acts + more)[1..] == acts[1..] + more;
      RunAppend(d, Step(d, s, acts[0]), acts[1..], more);
    }
  }
}
