/** Many jobs of two nodes, each with its own journal, and the one remote ref they push: the membership ref, or the
  * content ref. The invocations of a job are those of CandidateRuns; a push that was sent may land at any later time,
  * even after its process and its claim are gone.
  */
module SharedRef {
  import opened Commits
  import opened Journals
  import R = CandidateRuns

  type JobId = string

  datatype Node = NodeA | NodeB

  datatype Job = Job(node: Node, discipline: R.Discipline, runs: R.State)

  /** `mover` is the job whose push set the remote last; `confirmed` are candidates a job read back from the remote. */
  datatype State = State(
    start: Option<Commit>, remote: Option<Commit>, mover: Option<JobId>, jobs: map<JobId, Job>,
    flights: set<(JobId, Commit)>, confirmed: set<(JobId, Commit)>, a: Option<Commit>, b: Option<Commit>)

  datatype Action =
    | Run(job: JobId, act: R.Action)
    | Push(job: JobId, pid: nat)
    | Land(job: JobId, candidate: Commit)
    | Confirm(job: JobId, candidate: Commit)     // a candidate of the job is read back from the remote
    | Adopt(job: JobId, candidate: Commit)

  /** A ref that is absent, or an ancestor: the push would not rewrite history. */
  predicate NotAfter(before: Option<Commit>, c: Commit) {
    before.None? || Ancestor(before.value, c)
  }

  function Local(s: State, n: Node): Option<Commit> {
    if n == NodeA then s.a else s.b
  }

  function Predecessor(c: Commit): Option<Commit> {
    if c.parents == [] then None else Some(c.parents[0])
  }

  function Moved(s: State, n: Node, c: Commit): State {
    if n == NodeA then s.(a := Some(c)) else s.(b := Some(c))
  }

  predicate JournalNames(s: State, j: JobId, c: Commit) {
    j in s.jobs && Names(s.jobs[j].runs.journal, c)
  }

  /** One step; an action that is not enabled changes nothing. */
  function Step(s: State, act: Action): State {
    match act
    case Run(j, r) =>
      if j in s.jobs then s.(jobs := s.jobs[j := s.jobs[j].(runs := R.Step(s.jobs[j].discipline, s.jobs[j].runs, r))]) else s
    case Push(j, pid) =>
      if j in s.jobs && pid in s.jobs[j].runs.procs && R.NameOf(s.jobs[j].runs.procs[pid]).Some?
      then s.(flights := s.flights + {(j, R.NameOf(s.jobs[j].runs.procs[pid]).value)}) else s
    case Land(j, c) =>
      if (j, c) in s.flights && NotAfter(s.remote, c) then s.(remote := Some(c), mover := Some(j)) else s
    case Confirm(j, c) =>
      if JournalNames(s, j, c) && s.remote == Some(c) then s.(confirmed := s.confirmed + {(j, c)}) else s
    case Adopt(j, c) =>
      if (j, c) in s.confirmed && j in s.jobs && Local(s, s.jobs[j].node) == Predecessor(c)
      then Moved(s, s.jobs[j].node, c) else s
  }

  function RunAll(s: State, acts: seq<Action>): State
    decreases |acts|
  {
    if acts == [] then s else RunAll(Step(s, acts[0]), acts[1..])
  }

  function Fresh(start: Option<Commit>, kinds: map<JobId, Job>): State {
    State(start, start, None, kinds, {}, {}, start, start)
  }

  predicate AllFresh(jobs: map<JobId, Job>) {
    forall j :: j in jobs ==> jobs[j].runs == R.Fresh()
  }

  /** What the invocations of a job know as its candidate stands in its journal. */
  predicate Sourced(r: R.State) {
    && (forall pid :: pid in r.procs && R.NameOf(r.procs[pid]).Some? ==> Names(r.journal, R.NameOf(r.procs[pid]).value))
    && (forall pid :: pid in r.procs && r.procs[pid].Looked? && r.procs[pid].seen.Some? ==> Names(r.journal, r.procs[pid].seen.value))
  }

  predicate Signs(d: R.Discipline) {
    d != R.BeforeClaim
  }

  ghost predicate JobSafe(j: Job) {
    Sourced(j.runs) && (Signs(j.discipline) ==> R.Safe(j.discipline, j.runs))
  }

  /** Where a local ref comes from: the start, or a candidate of the node that was read back from the remote. */
  predicate Rooted(s: State, n: Node) {
    || Local(s, n) == s.start
    || exists f :: f in s.confirmed && f.0 in s.jobs && s.jobs[f.0].node == n && Local(s, n) == Some(f.1)
  }

  ghost predicate Safe(s: State) {
    && (forall j :: j in s.jobs ==> JobSafe(s.jobs[j]))
    && (forall f :: f in s.flights ==> JournalNames(s, f.0, f.1))
    && (forall f :: f in s.confirmed ==> JournalNames(s, f.0, f.1) && s.remote.Some? && Ancestor(f.1, s.remote.value))
    && (if s.mover.None? then s.remote == s.start else s.remote.Some? && JournalNames(s, s.mover.value, s.remote.value))
    && (s.remote.Some? ==> NotAfter(s.start, s.remote.value)) && (s.remote.None? ==> s.start.None?)
    && Rooted(s, NodeA) && Rooted(s, NodeB)
  }

  lemma NamesGrow(j: Journal, k: Journal, c: Commit)
    requires Names(j, c) && (k == j || exists e :: k == j + [e])
    ensures Names(k, c)
  {
    var i :| 0 <= i < |j| && j[i].candidate == Some(c);
    assert k[i] == j[i];
  }

  lemma JournalGrows(d: R.Discipline, r: R.State, act: R.Action)
    ensures var t := R.Step(d, r, act); t.journal == r.journal || exists e :: t.journal == r.journal + [e]
  {
  }

  lemma StepKeepsSourced(d: R.Discipline, r: R.State, act: R.Action)
    requires Sourced(r)
    ensures Sourced(R.Step(d, r, act))
  {
    var t := R.Step(d, r, act);
    JournalGrows(d, r, act);
    CandidateIsNamed(r.journal);
    forall c | Names(r.journal, c) ensures Names(t.journal, c) {
      NamesGrow(r.journal, t.journal, c);
    }
    if act.Append? && act.pid in r.procs && r.procs[act.pid].Signing? && R.Owns(r, act.pid, r.procs[act.pid].fence) {
      assert t.journal[|r.journal|].candidate == Some(r.procs[act.pid].candidate);
    }
  }

  lemma RunKeepsJob(j: Job, act: R.Action)
    requires JobSafe(j)
    ensures JobSafe(j.(runs := R.Step(j.discipline, j.runs, act)))
    ensures forall c :: Names(j.runs.journal, c) ==> Names(R.Step(j.discipline, j.runs, act).journal, c)
  {
    StepKeepsSourced(j.discipline, j.runs, act);
    JournalGrows(j.discipline, j.runs, act);
    forall c | Names(j.runs.journal, c) ensures Names(R.Step(j.discipline, j.runs, act).journal, c) {
      NamesGrow(j.runs.journal, R.Step(j.discipline, j.runs, act).journal, c);
    }
    if Signs(j.discipline) {
      R.DisciplineIsUpToDate(j.discipline, j.runs, act);
      R.StepKeepsSafe(j.discipline, j.runs, act);
    }
  }

  lemma RunKeepsSafe(s: State, j: JobId, act: R.Action)
    requires Safe(s)
    ensures Safe(Step(s, Run(j, act)))
  {
    if j in s.jobs {
      var t := Step(s, Run(j, act));
      RunKeepsJob(s.jobs[j], act);
      forall k, c | JournalNames(s, k, c) ensures JournalNames(t, k, c) {
      }
      assert forall k :: k in s.jobs ==> k in t.jobs && t.jobs[k].node == s.jobs[k].node;
      RootedStays(s, t, NodeA);
      RootedStays(s, t, NodeB);
    }
  }

  lemma RootedStays(s: State, t: State, n: Node)
    requires Rooted(s, n) && Local(t, n) == Local(s, n) && t.start == s.start && s.confirmed <= t.confirmed
    requires forall k :: k in s.jobs ==> k in t.jobs && t.jobs[k].node == s.jobs[k].node
    ensures Rooted(t, n)
  {
    if Local(s, n) != s.start {
      var f :| f in s.confirmed && f.0 in s.jobs && s.jobs[f.0].node == n && Local(s, n) == Some(f.1);
      assert f in t.confirmed;
    }
  }

  lemma LandKeepsSafe(s: State, j: JobId, c: Commit)
    requires Safe(s)
    ensures Safe(Step(s, Land(j, c)))
  {
    var t := Step(s, Land(j, c));
    if t != s {
      forall f | f in s.confirmed ensures Ancestor(f.1, c) {
        AncestorTransitive(f.1, s.remote.value, c);
      }
      if s.start.Some? {
        AncestorTransitive(s.start.value, s.remote.value, c);
      }
      RootedStays(s, t, NodeA);
      RootedStays(s, t, NodeB);
    }
  }

  lemma ConfirmKeepsSafe(s: State, j: JobId, c: Commit)
    requires Safe(s)
    ensures Safe(Step(s, Confirm(j, c)))
  {
    var t := Step(s, Confirm(j, c));
    RootedStays(s, t, NodeA);
    RootedStays(s, t, NodeB);
  }

  lemma AdoptKeepsSafe(s: State, j: JobId, c: Commit)
    requires Safe(s)
    ensures Safe(Step(s, Adopt(j, c)))
  {
    var t := Step(s, Adopt(j, c));
    if t != s {
      assert (j, c) in t.confirmed;
      if s.jobs[j].node == NodeA { RootedStays(s, t, NodeB); } else { RootedStays(s, t, NodeA); }
    }
  }

  lemma StepKeepsSafe(s: State, act: Action)
    requires Safe(s)
    ensures Safe(Step(s, act))
  {
    match act
    case Run(j, r) => RunKeepsSafe(s, j, r);
    case Push(j, pid) =>
      RootedStays(s, Step(s, act), NodeA);
      RootedStays(s, Step(s, act), NodeB);
    case Land(j, c) => LandKeepsSafe(s, j, c);
    case Confirm(j, c) => ConfirmKeepsSafe(s, j, c);
    case Adopt(j, c) => AdoptKeepsSafe(s, j, c);
  }

  lemma {:induction false} RunAllKeepsSafe(s: State, acts: seq<Action>)
    requires Safe(s)
    ensures Safe(RunAll(s, acts)) && RunAll(s, acts).start == s.start
    decreases |acts|
  {
    if acts != [] {
      StepKeepsSafe(s, acts[0]);
      RunAllKeepsSafe(Step(s, acts[0]), acts[1..]);
    }
  }

  lemma FreshIsSafe(start: Option<Commit>, jobs: map<JobId, Job>)
    requires AllFresh(jobs)
    ensures Safe(Fresh(start, jobs))
  {
    forall j | j in jobs ensures JobSafe(jobs[j]) {
      R.FreshIsSafe(jobs[j].discipline);
    }
  }

  /** Write-ahead, job by job: in every run the remote is the start, or a commit in the journal of the very job whose
    * push set it; and for publications and membership that commit is the job's only candidate. */
  lemma RemoteIsOwnCandidate(start: Option<Commit>, jobs: map<JobId, Job>, acts: seq<Action>)
    requires AllFresh(jobs)
    ensures var t := RunAll(Fresh(start, jobs), acts);
      if t.mover.None? then t.remote == start
      else
        && t.remote.Some? && t.mover.value in t.jobs
        && var j := t.jobs[t.mover.value];
        && Names(j.runs.journal, t.remote.value)
        && (Signs(j.discipline) ==> SingleCandidate(j.runs.journal) && CandidateOf(j.runs.journal) == t.remote)
  {
    FreshIsSafe(start, jobs);
    RunAllKeepsSafe(Fresh(start, jobs), acts);
    var t := RunAll(Fresh(start, jobs), acts);
    if t.mover.Some? {
      var j := t.jobs[t.mover.value];
      assert JobSafe(j);
      var i :| 0 <= i < |j.runs.journal| && j.runs.journal[i].candidate == t.remote;
    }
  }

  /** A node's local ref is the start or a candidate that one of the node's jobs journaled and read back from the remote,
    * and it never leaves the remote's history. */
  lemma LocalFollowsRemote(start: Option<Commit>, jobs: map<JobId, Job>, acts: seq<Action>, n: Node)
    requires AllFresh(jobs)
    ensures var t := RunAll(Fresh(start, jobs), acts); var l := Local(t, n);
      && (l != start ==> exists j :: j in t.jobs && t.jobs[j].node == n && l.Some? && Names(t.jobs[j].runs.journal, l.value))
      && (l.Some? ==> t.remote.Some? && Ancestor(l.value, t.remote.value))
  {
    FreshIsSafe(start, jobs);
    RunAllKeepsSafe(Fresh(start, jobs), acts);
    var t := RunAll(Fresh(start, jobs), acts);
    assert Rooted(t, n);
    if Local(t, n) != start {
      var f :| f in t.confirmed && f.0 in t.jobs && t.jobs[f.0].node == n && Local(t, n) == Some(f.1);
      assert JournalNames(t, f.0, f.1);
    }
  }
}
