/** One management request under any number of executions and recovery passes that overlap: each works from the head of
  * the request it last read, at its own pace, and a slow one goes on while others have already moved the request on.
  */
module ManagementRuns {
  import opened Commits
  import opened Management

  /** What a writer must still find in place: every change of the request moves the revision. */
  datatype Head = Head(state: RequestState, revision: nat, fence: nat, owner: Option<nat>)

  /** The stored request; `linked` tells of each linked job whether it is settled. */
  datatype Row = Row(head: Head, status: Status, attempts: nat, reserved: nat, linked: map<string, bool>)

  /** An execution or a recovery pass: the head it works from, what it read of the links since, and the jobs it has seen
    * linked to the request and may therefore touch, now or much later. */
  datatype Worker = Worker(seen: Head, reading: Option<map<string, bool>>, mine: set<string>)

  datatype State = State(action: Action, row: Row, workers: map<nat, Worker>, effects: set<(nat, string)>)

  /** `live` is what the writer's clock says of the claim, and may be wrong. */
  datatype Step =
    | Load(w: nat)
    | Claim(w: nat, authorized: bool)
    | Renew(w: nat, live: bool)
    | ReservePlace(w: nat, live: bool)
    | Link(w: nat, job: string, live: bool)
    | Inspect(w: nat)
    | TakeUp(w: nat, jobs: set<string>)
    | Perform(w: nat, job: string)
    | Settle(job: string)
    | Refuse(w: nat)
    | Conclude(w: nat, to: RequestState, status: Status, live: bool)
    | RecoverRequest(w: nat, live: bool, authorized: bool, cleared: bool, kept: Observation)

  predicate Settled(linked: map<string, bool>) {
    linked != map[] && forall j :: j in linked ==> linked[j]
  }

  /** The worker holds the request, as far as the store can tell. */
  predicate Holds(s: State, w: nat) {
    w in s.workers && s.workers[w].seen == s.row.head && s.row.head.owner == Some(w)
  }

  /** The dispositions an execution may choose after what it read. */
  predicate MayConclude(action: Action, reading: Option<map<string, bool>>, to: RequestState, status: Status) {
    match to
    case Finished =>
      match status {
        case NoOp => action == SyncNow && reading == Some(map[])
        case Failed => action != Retry && reading == Some(map[])
        case AlreadySettled => action != VerifyAll && reading.Some? && Settled(reading.value)
        case Incomplete => action != VerifyAll && reading.Some? && reading.value != map[] && !Settled(reading.value)
        case Verified => action == VerifyAll
        case _ => false
      }
    case Held => status == BlockedStatus
    case Undecided => status == UncertainStatus
    case _ => false
  }

  /** Stores a change of the row made by `w`, who goes on from the new head. */
  function Write(s: State, w: nat, row: Row): State
    requires w in s.workers
  {
    var next := row.(head := row.head.(revision := s.row.head.revision + 1));
    s.(row := next, workers := s.workers[w := s.workers[w].(seen := next.head, reading := None)])
  }

  /** Ends whatever claim there is, and releases the reserved places. */
  function Release(s: State, w: nat, to: RequestState, status: Status): State
    requires w in s.workers
  {
    Write(s, w, s.row.(head := s.row.head.(state := to, owner := None), status := status, reserved := 0))
  }

  /** The transition a recovery pass writes from its own reading, if any. */
  function Recovered(s: State, w: nat, reading: map<string, bool>, authorized: bool, cleared: bool, kept: Observation): State
    requires w in s.workers
  {
    if Settled(reading) then
      if s.action != VerifyAll then Release(s, w, Finished, AlreadySettled)
      else if kept.NoObservation? || |reading| != 1 then s
      else Release(s, w, Finished, if kept.ExpiredObservation? then Lapsed else Verified)
    else if reading == map[] then
      if authorized && cleared && s.row.attempts < ATTEMPTS then Release(s, w, Queued, NoStatus)
      else if s.row.head.state == Held then s
      else Release(s, w, Held, BlockedStatus)
    else if s.row.head.state == Running then Release(s, w, Undecided, UncertainStatus)
    else s
  }

  function Next(s: State, step: Step): State {
    match step
    case Load(w) =>
      s.(workers := s.workers[w := Worker(s.row.head, None, if w in s.workers then s.workers[w].mine else {})])
    case Claim(w, authorized) =>
      if w in s.workers && authorized && s.row.head.state == Queued && s.row.attempts < ATTEMPTS
      then Write(s, w, s.row.(head := s.row.head.(state := Running, fence := s.row.head.fence + 1, owner := Some(w)),
                              status := NoStatus, attempts := s.row.attempts + 1))
      else s
    case Renew(w, live) => if Holds(s, w) && live then Write(s, w, s.row) else s
    case ReservePlace(w, live) =>
      if Holds(s, w) && live && |s.row.linked| + s.row.reserved < ASSOCIATIONS
      then Write(s, w, s.row.(reserved := s.row.reserved + 1)) else s
    case Link(w, job, live) =>
      if !Holds(s, w) || !live || (s.action == Retry && job !in s.workers[w].mine) then s
      else if job in s.row.linked then s.(workers := s.workers[w := s.workers[w].(mine := s.workers[w].mine + {job})])
      else if s.row.reserved == 0 then s
      else
        var linked := Write(s, w, s.row.(linked := s.row.linked[job := false], reserved := s.row.reserved - 1));
        linked.(workers := linked.workers[w := linked.workers[w].(mine := linked.workers[w].mine + {job})])
    case Inspect(w) =>
      if w in s.workers then s.(workers := s.workers[w := s.workers[w].(reading := Some(s.row.linked))]) else s
    case TakeUp(w, jobs) =>
      if w in s.workers && s.action == Retry && s.workers[w].seen.owner == Some(w) && s.workers[w].reading.Some?
      then s.(workers := s.workers[w := s.workers[w].(mine := s.workers[w].mine + jobs * s.workers[w].reading.value.Keys)]) else s
    case Perform(w, job) =>
      if w in s.workers && job in s.workers[w].mine then s.(effects := s.effects + {(w, job)}) else s
    case Settle(job) => if job in s.row.linked then s.(row := s.row.(linked := s.row.linked[job := true])) else s
    case Refuse(w) =>
      if w in s.workers && s.workers[w].seen == s.row.head && s.row.head.state == Queued
      then Release(s, w, Held, BlockedStatus) else s
    case Conclude(w, to, status, live) =>
      if Holds(s, w) && live && MayConclude(s.action, s.workers[w].reading, to, status)
      then Release(s, w, to, status) else s
    case RecoverRequest(w, live, authorized, cleared, kept) =>
      if w in s.workers && s.workers[w].seen == s.row.head && s.workers[w].reading.Some?
         && s.row.head.state in {Running, Held, Undecided} && (s.row.head.state == Running ==> !live)
      then Recovered(s, w, s.workers[w].reading.value, authorized, cleared, kept) else s
  }

  function Run(s: State, steps: seq<Step>): State
    decreases |steps|
  {
    if steps == [] then s else Run(Next(s, steps[0]), steps[1..])
  }

  /** An accepted request: nothing performed, nobody at work; only a retry starts with links. */
  predicate Accepted(s: State) {
    && s.row.head.state == Queued && s.row.head.owner == None && s.row.status == NoStatus
    && s.workers == map[] && s.effects == {} && s.row.reserved == 0
    && |s.row.linked| <= ASSOCIATIONS && s.row.attempts <= ATTEMPTS
    && (s.action != Retry ==> s.row.linked == map[])
  }

  /** What a worker read of the links: all of them still linked, none settled has come open again, and while the head it
    * works from is in place, every link. */
  predicate ReadsTruly(row: Row, worker: Worker) {
    && worker.seen.revision <= row.head.revision
    && worker.mine <= row.linked.Keys
    && (worker.reading.Some? ==>
          && worker.reading.value.Keys <= row.linked.Keys
          && (forall j :: j in worker.reading.value && worker.reading.value[j] ==> row.linked[j])
          && (worker.seen.revision == row.head.revision ==> worker.reading.value.Keys == row.linked.Keys))
  }

  ghost predicate Safe(s: State) {
    && (forall w :: w in s.workers ==> ReadsTruly(s.row, s.workers[w]))
    && (forall e :: e in s.effects ==> e.0 in s.workers && e.1 in s.workers[e.0].mine)
    && (s.row.head.owner.Some? <==> s.row.head.state == Running)
    && |s.row.linked| + s.row.reserved <= ASSOCIATIONS && s.row.attempts <= ATTEMPTS
    && (s.row.head.state == Queued ==>
          && (forall w :: w in s.workers ==> s.workers[w].mine == {})
          && (s.row.linked == map[] || forall w :: w in s.workers ==> s.workers[w].seen.owner == None))
    && (s.row.status in {NoOp, Failed} ==> s.row.head.state == Finished && s.row.linked == map[])
    && (s.row.status == AlreadySettled ==> s.row.head.state == Finished && Settled(s.row.linked))
    && (s.action != Retry && s.row.head.state == Queued ==> s.row.linked == map[])
  }

  lemma ReleaseKeepsSafe(s: State, w: nat, to: RequestState, status: Status)
    requires Safe(s) && w in s.workers && to != Running && (to == Queued ==> s.row.linked == map[])
    requires status in {NoOp, Failed} ==> to == Finished && s.row.linked == map[]
    requires status == AlreadySettled ==> to == Finished && Settled(s.row.linked)
    ensures Safe(Release(s, w, to, status))
  {
  }

  lemma RecoveryKeepsSafe(s: State, step: Step)
    requires Safe(s) && step.RecoverRequest?
    ensures Safe(Next(s, step))
  {
    var t := Next(s, step);
    if t != s {
      assert ReadsTruly(s.row, s.workers[step.w]);
      ReleaseKeepsSafe(s, step.w, t.row.head.state, t.row.status);
    }
  }

  lemma ConclusionKeepsSafe(s: State, step: Step)
    requires Safe(s) && (step.Refuse? || step.Conclude?)
    ensures Safe(Next(s, step))
  {
    var t := Next(s, step);
    if t != s {
      assert ReadsTruly(s.row, s.workers[step.w]);
      ReleaseKeepsSafe(s, step.w, t.row.head.state, t.row.status);
    }
  }

  lemma LinkKeepsSafe(s: State, step: Step)
    requires Safe(s) && (step.Link? || step.TakeUp?)
    ensures Safe(Next(s, step))
  {
  }

  /** Every step of every worker, however old the head it works from, keeps the request safe. */
  lemma StepKeepsSafe(s: State, step: Step)
    requires Safe(s)
    ensures Safe(Next(s, step))
  {
    if step.RecoverRequest? {
      RecoveryKeepsSafe(s, step);
    } else if step.Refuse? || step.Conclude? {
      ConclusionKeepsSafe(s, step);
    } else if step.Link? || step.TakeUp? {
      LinkKeepsSafe(s, step);
    }
  }

  lemma {:induction false} RunKeepsSafe(s: State, steps: seq<Step>)
    requires Safe(s)
    ensures Safe(Run(s, steps))
    decreases |steps|
  {
    if steps != [] {
      StepKeepsSafe(s, steps[0]);
      RunKeepsSafe(Next(s, steps[0]), steps[1..]);
    }
  }

  lemma LinksStayOneStep(s: State, step: Step)
    requires Safe(s)
    ensures s.row.linked.Keys <= Next(s, step).row.linked.Keys && Next(s, step).action == s.action
    ensures s.action == Retry ==> Next(s, step).row.linked.Keys == s.row.linked.Keys
    ensures forall j :: j in s.row.linked && s.row.linked[j] ==> Next(s, step).row.linked[j]
  {
  }

  /** Links are permanent, a retry gets no new ones, and a settled job stays settled. */
  lemma {:induction false} LinksStay(s: State, steps: seq<Step>)
    requires Safe(s)
    ensures s.row.linked.Keys <= Run(s, steps).row.linked.Keys && Run(s, steps).action == s.action
    ensures s.action == Retry ==> Run(s, steps).row.linked.Keys == s.row.linked.Keys
    ensures forall j :: j in s.row.linked && s.row.linked[j] ==> Run(s, steps).row.linked[j]
    decreases |steps|
  {
    if steps != [] {
      StepKeepsSafe(s, steps[0]);
      LinksStayOneStep(s, steps[0]);
      LinksStay(Next(s, steps[0]), steps[1..]);
    }
  }

  /** In every run of overlapping workers: effects belong to linked jobs, and under a retry to those it was accepted with;
    * a request that waits to run has performed nothing and nobody is left who could; a no-op or a failure has neither
    * links nor effects; and what is reported settled is settled. */
  lemma EveryEffectIsLinked(s: State, steps: seq<Step>)
    requires Accepted(s)
    ensures var t := Run(s, steps);
      && (forall e :: e in t.effects ==> e.1 in t.row.linked && (s.action == Retry ==> e.1 in s.row.linked))
      && (t.row.head.state == Queued ==> t.effects == {} && forall w, j :: Next(t, Perform(w, j)) == t)
      && (t.row.status in {NoOp, Failed} ==> t.effects == {} && t.row.linked == map[])
      && (t.row.status == AlreadySettled ==> Settled(t.row.linked))
      && t.row.attempts <= ATTEMPTS && |t.row.linked| + t.row.reserved <= ASSOCIATIONS
  {
    RunKeepsSafe(s, steps);
    LinksStay(s, steps);
  }

  /** Once a request has a link and an execution, no run queues it again: its fence stays the one of that execution. */
  lemma {:induction false} LinkedIsNotRunAgain(s: State, steps: seq<Step>)
    requires Safe(s) && s.row.linked != map[] && s.row.head.state != Queued
    ensures Run(s, steps).row.head.state != Queued && Run(s, steps).row.head.fence == s.row.head.fence
    decreases |steps|
  {
    if steps != [] {
      StepKeepsSafe(s, steps[0]);
      NextKeepsFence(s, steps[0]);
      LinkedIsNotRunAgain(Next(s, steps[0]), steps[1..]);
    }
  }

  lemma NextKeepsFence(s: State, step: Step)
    requires Safe(s) && s.row.linked != map[] && s.row.head.state != Queued
    ensures Next(s, step).row.linked != map[] && Next(s, step).row.head.state != Queued
    ensures Next(s, step).row.head.fence == s.row.head.fence
  {
  }

  /** A finished request stays as it finished; with a no-op or a failure, nothing is ever performed. */
  lemma {:induction false} FinishedStays(s: State, steps: seq<Step>)
    requires Safe(s) && s.row.head.state == Finished
    ensures var t := Run(s, steps); t.row.head == s.row.head && t.row.status == s.row.status && t.row.linked.Keys == s.row.linked.Keys
    ensures s.row.status in {NoOp, Failed} ==> Run(s, steps).effects == {}
    decreases |steps|
  {
    if steps != [] {
      StepKeepsSafe(s, steps[0]);
      FinishedStays(Next(s, steps[0]), steps[1..]);
    }
  }

  function Mine(s: State, w: nat): set<string> {
    if w in s.workers then s.workers[w].mine else {}
  }

  /** The worker's claim is gone, and under a retry it cannot take up more obligations. */
  predicate Disowned(s: State, w: nat) {
    && s.row.head.owner != Some(w)
    && (s.action == Retry && s.row.linked != map[] && w in s.workers ==> s.workers[w].seen.owner != Some(w))
  }

  lemma DisownedStep(s: State, w: nat, step: Step)
    requires Safe(s) && Disowned(s, w) && !(step.Claim? && step.w == w)
    ensures Disowned(Next(s, step), w) && Mine(Next(s, step), w) == Mine(s, w)
    ensures (step.Renew? || step.ReservePlace? || step.Link? || step.Conclude?) && step.w == w ==> Next(s, step).row == s.row
    ensures forall e :: e in Next(s, step).effects - s.effects && e.0 == w ==> e.1 in Mine(s, w)
  {
  }

  /** A worker that lost its claim changes the request no more and performs nothing but for the jobs it has linked before,
    * whatever else runs. */
  lemma {:induction false} DisownedPerformsOldOnly(s: State, w: nat, steps: seq<Step>)
    requires Safe(s) && Disowned(s, w) && Claim(w, true) !in steps && Claim(w, false) !in steps
    ensures Disowned(Run(s, steps), w) && Mine(Run(s, steps), w) == Mine(s, w)
    ensures forall e :: e in Run(s, steps).effects - s.effects && e.0 == w ==> e.1 in Mine(s, w)
    decreases |steps|
  {
    if steps != [] {
      assert steps[0] in steps;
      StepKeepsSafe(s, steps[0]);
      DisownedStep(s, w, steps[0]);
      DisownedPerformsOldOnly(Next(s, steps[0]), w, steps[1..]);
    }
  }

  /** Queueing a request again is final for everyone who worked on it before: no old execution, however slow, performs
    * anything any more. */
  lemma RequeuedIsQuiet(s: State, w: nat, steps: seq<Step>)
    requires Safe(s) && s.row.head.state == Queued && Claim(w, true) !in steps && Claim(w, false) !in steps
    ensures forall e :: e in Run(s, steps).effects ==> e.0 != w
  {
    DisownedPerformsOldOnly(s, w, steps);
  }

  lemma {:induction false} RunAppend(s: State, a: seq<Step>, b: seq<Step>)
    ensures Run(s, a + b) == Run(Run(s, a), b)
    decreases |a|
  {
    if a == [] {
      assert a + b == b;
    } else {
      assert (a + b)[0] == a[0] && (a + b)[1..] == a[1..] + b;
      RunAppend(Next(s, a[0]), a[1..], b);
    }
  }

  lemma RunOneMore(s: State, a: seq<Step>, step: Step)
    ensures Run(s, a + [step]) == Next(Run(s, a), step)
  {
    RunAppend(s, a, [step]);
    assert Run(Next(Run(s, a), step), []) == Next(Run(s, a), step);
  }

  lemma LinkedOnce(s: State, job: string) returns (steps: seq<Step>)
    requires Accepted(s) && s.action == SyncNow && s.row.attempts < ATTEMPTS
    ensures var t := Run(s, steps);
      && t.action == SyncNow && t.effects == {} && t.row.linked == map[job := false] && Mine(t, 0) == {job}
      && 1 !in t.workers && t.row.head.state == Running
  {
    steps := [Load(0)];
    RunOneMore(s, [], Load(0));
    RunOneMore(s, steps, Claim(0, true));
    steps := steps + [Claim(0, true)];
    RunOneMore(s, steps, ReservePlace(0, true));
    steps := steps + [ReservePlace(0, true)];
    RunOneMore(s, steps, Link(0, job, true));
    steps := steps + [Link(0, job, true)];
  }

  /** Workers do overlap: a recovery pass may have put the request down as uncertain while its execution goes on to
    * perform. */
  lemma LateEffectIsReachable(s: State, job: string) returns (before: seq<Step>)
    requires Accepted(s) && s.action == SyncNow && s.row.attempts < ATTEMPTS
    ensures var t := Run(s, before);
      t.row.head.state == Undecided && t.effects == {} && Next(t, Perform(0, job)).effects == {(0, job)}
  {
    before := LinkedOnce(s, job);
    RunOneMore(s, before, Load(1));
    before := before + [Load(1)];
    RunOneMore(s, before, Inspect(1));
    before := before + [Inspect(1)];
    RunOneMore(s, before, RecoverRequest(1, false, true, true, NoObservation));
    before := before + [RecoverRequest(1, false, true, true, NoObservation)];
  }
}
