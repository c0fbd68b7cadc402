/** A publication job from its signed journal to its delivery obligation, with crashes and recovery.
  *
  * A run is given the steps it lives for: every durable write and every effect costs one, and a run that is out of
  * steps stops where it is. A contract that holds for every number of steps holds for every crash point.
  */
module Publishing {
  import opened Commits
  import opened Journals
  import opened Push
  import C = Control

  datatype JobState = Eligible | Prepared | Signed | Uncertain | Blocked | Published

  datatype Claim = Claim(owner: string, expires: int)

  /** Which member, in which incarnation and membership revision, a publication was made for. */
  datatype Binding = Binding(membership: string, publisher: string, incarnation: string)

  datatype Job = Job(
    state: JobState, base: Commit, binding: Binding, journal: Journal, claim: Option<Claim>,
    fence: nat, attempts: nat, resolved: bool)

  const MAX_ATTEMPTS := 20

  predicate LiveAt(c: Option<Claim>, now: int) {
    c.Some? && now < c.value.expires
  }

  /** A claim is taken over only strictly after its expiry; at the very instant it is neither live nor stale. */
  predicate Unclaimed(c: Option<Claim>, now: int) {
    c.None? || c.value.expires < now
  }

  predicate Claimable(s: JobState) {
    s in {Eligible, Prepared, Signed}
  }

  /** What the recorded state of a job says about its candidate. */
  ghost predicate JobCoherent(j: Job) {
    && SingleCandidate(j.journal)
    && (CandidateOf(j.journal).Some? <==> j.state !in {Eligible, Prepared})
    && (CandidateOf(j.journal).Some? ==> Child(j.base, CandidateOf(j.journal).value))
    && (j.state == Published ==> j.resolved)
    && (j.resolved ==> j.claim.None?)
    && (j.state in {Uncertain, Blocked} ==> j.claim.None?)
  }

  function Append(j: Job, candidate: Option<Commit>): Job {
    j.(journal := j.journal + [Entry(candidate)])
  }

  function Released(j: Job, state: JobState, candidate: Option<Commit>): Job {
    Append(j, candidate).(state := state, claim := None)
  }

  /** A claim comes with a new fence and counts as an attempt. */
  function ClaimedBy(j: Job, owner: string, expires: int): Job {
    j.(claim := Some(Claim(owner, expires)), fence := j.fence + 1, attempts := j.attempts + 1)
  }

  function Settled(j: Job, candidate: Option<Commit>): Job {
    Released(j, Published, candidate).(resolved := true)
  }

  predicate IdleBut(jobs: map<string, Job>, id: string, now: int) {
    forall k :: k in jobs && k != id ==> Unclaimed(jobs[k].claim, now)
  }

  /** The unresolved jobs other than `id`. */
  function Others(jobs: map<string, Job>, id: string): set<string> {
    set k | k in jobs && k != id && !jobs[k].resolved
  }

  /** Nothing about other jobs changes, and this job keeps its base, its binding and its only candidate. */
  ghost predicate OnlyTouches(before: map<string, Job>, after: map<string, Job>, id: string) {
    && id in before && after.Keys == before.Keys
    && (forall k :: k in before && k != id ==> after[k] == before[k])
    && after[id].base == before[id].base && after[id].binding == before[id].binding
    && CandidateOf(after[id].journal) == CandidateOf(before[id].journal)
  }

  datatype Outcome =
    | Skipped | Done | Crashed | ClaimPending | StoreRefused | HeldForConflict | HeldOtherwise
    | Untrusted | Unsafe | RetryLater | EffectUnknown | NotSigned

  /** The publication side of one node's store, with its local content ref. */
  class Site {
    var jobs: map<string, Job>
    var deliveries: map<string, Commit>
    var control: C.Row
    var local: Commit
    var foreign: set<int>     // expiries of the claims of the group's other jobs
    var backlog: nat          // unresolved obligations of other kinds
    const limit: nat

    ghost predicate Valid()
      reads this
    {
      && (forall id :: id in jobs ==> JobCoherent(jobs[id]))
      && (forall id :: id in deliveries <==> id in jobs && jobs[id].state == Published)
      && (forall id :: id in deliveries ==> CandidateOf(jobs[id].journal) == Some(deliveries[id]))
      && C.Coherent(control)
    }

    /** No other job of the group holds a claim that has not expired. */
    predicate GroupIdle(id: string, now: int)
      reads this
    {
      IdleBut(jobs, id, now) && forall e :: e in foreign ==> e < now
    }

    predicate MayClaim(id: string, config: string, now: int, administration: bool)
      reads this
      requires id in jobs
    {
      && (control.state == C.Active || (administration && control.state == C.Blocked && control.reason == C.ConflictHold))
      && control.config == config
      && !jobs[id].resolved && Claimable(jobs[id].state)
      && jobs[id].attempts < MAX_ATTEMPTS
      && jobs[id].claim.None?
      && GroupIdle(id, now)
    }

    method ClaimJob(id: string, owner: string, config: string, now: int, expires: int, administration: bool) returns (ok: bool)
      requires Valid() && id in jobs
      modifies this`jobs
      ensures Valid() && ok == old(MayClaim(id, config, now, administration))
      ensures ok ==> jobs == old(jobs)[id := ClaimedBy(old(jobs)[id], owner, expires)]
      ensures !ok ==> jobs == old(jobs)
      ensures OnlyTouches(old(jobs), jobs, id)
    {
      ok := MayClaim(id, config, now, administration);
      if ok {
        jobs := jobs[id := ClaimedBy(jobs[id], owner, expires)];
      }
    }

    /** The claim still belongs to this owner and fence and has not expired. */
    predicate Owns(id: string, owner: string, fence: nat, now: int)
      reads this
      requires id in jobs
    {
      jobs[id].claim.Some? && jobs[id].claim.value.owner == owner && jobs[id].fence == fence && now <= jobs[id].claim.value.expires
    }

    /** Releases an owned job that stays unresolved: a signed one keeps its candidate, an earlier one keeps its state. */
    method Finish(id: string, owner: string, fence: nat, state: JobState, candidate: Option<Commit>, now: int) returns (ok: bool)
      requires Valid() && id in jobs && CandidateOf(jobs[id].journal) == candidate
      requires if candidate.Some? then jobs[id].state == Signed && state in {Signed, Uncertain, Blocked} else state == jobs[id].state
      modifies this`jobs
      ensures Valid() && ok == old(Owns(id, owner, fence, now))
      ensures jobs == if ok then old(jobs)[id := Released(old(jobs)[id], state, candidate)] else old(jobs)
      ensures OnlyTouches(old(jobs), jobs, id)
    {
      ok := Owns(id, owner, fence, now);
      if ok {
        AppendKeepsSingle(jobs[id].journal, Entry(candidate));
        jobs := jobs[id := Released(jobs[id], state, candidate)];
      }
    }

    /** Removes a claim that expired without an effect. */
    method ReconcileExpiredClaim(id: string, fence: nat, candidate: Option<Commit>, now: int) returns (ok: bool)
      requires Valid() && id in jobs && CandidateOf(jobs[id].journal) == candidate
      modifies this`jobs
      ensures Valid() && ok == (old(jobs)[id].fence == fence && old(jobs)[id].claim.Some? && old(jobs)[id].claim.value.expires < now)
      ensures jobs == if ok then old(jobs)[id := Released(old(jobs)[id], old(jobs)[id].state, candidate)] else old(jobs)
      ensures OnlyTouches(old(jobs), jobs, id)
    {
      var j := jobs[id];
      ok := j.fence == fence && j.claim.Some? && j.claim.value.expires < now;
      if ok {
        AppendKeepsSingle(j.journal, Entry(candidate));
        jobs := jobs[id := Released(j, j.state, candidate)];
      }
    }

    /** Makes an uncertain, unowned candidate claimable again. */
    method ReconcileUncertain(id: string, fence: nat, candidate: Commit) returns (ok: bool)
      requires Valid() && id in jobs && CandidateOf(jobs[id].journal) == Some(candidate)
      modifies this`jobs
      ensures Valid() && ok == (old(jobs)[id].fence == fence && old(jobs)[id].state == Uncertain && old(jobs)[id].claim.None?)
      ensures jobs == if ok then old(jobs)[id := Released(old(jobs)[id], Signed, Some(candidate))] else old(jobs)
    {
      var j := jobs[id];
      ok := j.fence == fence && j.state == Uncertain && j.claim.None?;
      if ok {
        AppendKeepsSingle(j.journal, Entry(Some(candidate)));
        jobs := jobs[id := Released(j, Signed, Some(candidate))];
      }
    }

    /** Makes a rejected candidate claimable again. */
    method ReopenRejected(id: string, fence: nat, candidate: Commit, now: int) returns (ok: bool)
      requires Valid() && id in jobs && CandidateOf(jobs[id].journal) == Some(candidate)
      modifies this`jobs
      ensures Valid()
      ensures var j := old(jobs)[id];
        ok == (j.fence == fence && !j.resolved && j.state in {Blocked, Uncertain} && Unclaimed(j.claim, now))
      ensures jobs == if ok then old(jobs)[id := Released(old(jobs)[id], Signed, Some(candidate))] else old(jobs)
    {
      var j := jobs[id];
      ok := j.fence == fence && !j.resolved && j.state in {Blocked, Uncertain} && Unclaimed(j.claim, now);
      if ok {
        AppendKeepsSingle(j.journal, Entry(Some(candidate)));
        jobs := jobs[id := Released(j, Signed, Some(candidate))];
      }
    }

    /** Blocks an unowned candidate whose predecessor is gone from the remote. */
    method BlockAfterRemoteMove(id: string, fence: nat, candidate: Commit, now: int) returns (ok: bool)
      requires Valid() && id in jobs && CandidateOf(jobs[id].journal) == Some(candidate)
      modifies this`jobs
      ensures Valid()
      ensures var j := old(jobs)[id];
        ok == (j.fence == fence && !j.resolved && j.state in {Signed, Uncertain, Blocked} && Unclaimed(j.claim, now))
      ensures jobs == if ok then old(jobs)[id := Released(old(jobs)[id], Blocked, Some(candidate))] else old(jobs)
    {
      var j := jobs[id];
      ok := j.fence == fence && !j.resolved && j.state in {Signed, Uncertain, Blocked} && Unclaimed(j.claim, now);
      if ok {
        AppendKeepsSingle(j.journal, Entry(Some(candidate)));
        jobs := jobs[id := Released(j, Blocked, Some(candidate))];
      }
    }

    /** There is room for the delivery once this job no longer counts. */
    predicate HasRoom(id: string)
      reads this
    {
      |Others(jobs, id)| + backlog < limit
    }

    /** Publishes the job and admits its delivery in one transaction; all or nothing. A run that claimed the job
      * finishes under its fence, recovery finishes an unowned job. */
    method FinishPublished(id: string, owner: Option<string>, fence: nat, candidate: Commit, now: int) returns (ok: bool)
      requires Valid() && id in jobs && CandidateOf(jobs[id].journal) == Some(candidate) && jobs[id].state != Published
      modifies this`jobs, this`deliveries, this`backlog
      ensures Valid()
      ensures ok == (old(HasRoom(id)) &&
                     if owner.Some? then old(Owns(id, owner.value, fence, now)) && old(jobs)[id].state in {Signed, Uncertain}
                     else old(jobs)[id].fence == fence && Unclaimed(old(jobs)[id].claim, now))
      ensures ok ==> jobs == old(jobs)[id := Settled(old(jobs)[id], Some(candidate))]
      ensures ok ==> deliveries == old(deliveries)[id := candidate] && backlog == old(backlog) + 1
      ensures !ok ==> jobs == old(jobs) && deliveries == old(deliveries) && backlog == old(backlog)
      ensures OnlyTouches(old(jobs), jobs, id)
    {
      var j := jobs[id];
      var owned := if owner.Some? then Owns(id, owner.value, fence, now) && j.state in {Signed, Uncertain}
                   else j.fence == fence && Unclaimed(j.claim, now);
      ok := HasRoom(id) && owned;
      if ok {
        AppendKeepsSingle(j.journal, Entry(Some(candidate)));
        jobs := jobs[id := Settled(j, Some(candidate))];
        deliveries := deliveries[id := candidate];
        backlog := backlog + 1;
      }
    }

    /** Admits the publication under its logical key while the group may work and the queue has room. */
    method Admit(id: string, base: Commit, binding: Binding, config: string) returns (ok: bool)
      requires Valid() && id !in jobs
      modifies this`jobs
      ensures Valid()
      ensures ok == (control.state == C.Active && control.mode == C.Normal && control.config == config && old(HasRoom(id)))
      ensures jobs == if ok then old(jobs)[id := Job(Eligible, base, binding, [], None, 0, 0, false)] else old(jobs)
    {
      ok := control.state == C.Active && control.mode == C.Normal && control.config == config && HasRoom(id);
      if ok {
        jobs := jobs[id := Job(Eligible, base, binding, [], None, 0, 0, false)];
      }
    }

    /** Advances an owned job that has no candidate yet: to prepared, or to signed together with the candidate. */
    method Advance(id: string, owner: string, fence: nat, candidate: Option<Commit>, now: int) returns (ok: bool)
      requires Valid() && id in jobs && jobs[id].state == if candidate.None? then Eligible else Prepared
      requires candidate.Some? ==> Child(jobs[id].base, candidate.value)
      modifies this`jobs
      ensures Valid() && ok == old(Owns(id, owner, fence, now))
      ensures jobs == if ok then old(jobs)[id := Append(old(jobs)[id], candidate).(state := if candidate.None? then Prepared else Signed)]
                      else old(jobs)
      ensures CandidateOf(jobs[id].journal) == if ok then candidate else None
    {
      ok := Owns(id, owner, fence, now);
      assert CandidateOf(jobs[id].journal) == None;
      if ok {
        AppendKeepsSingle(jobs[id].journal, Entry(candidate));
        jobs := jobs[id := Append(jobs[id], candidate).(state := if candidate.None? then Prepared else Signed)];
      }
    }

    method HoldForConflict(config: string)
      requires Valid()
      modifies this`control
      ensures Valid() && control == C.Hold(old(control), C.ConflictHold, config)
    {
      control := C.Hold(control, C.ConflictHold, config);
    }

    /** Expected-old update of the local content ref. */
    method AdvanceLocal(base: Commit, candidate: Commit, clean: bool) returns (ok: bool)
      requires Valid()
      modifies this`local
      ensures Valid() && ok == (clean && old(local) == base) && local == if ok then candidate else old(local)
    {
      ok := clean && local == base;
      if ok {
        local := candidate;
      }
    }
  }

  /** What one run finds around it: whether its new tree is built, whether the candidate is signed by the pinned key,
    * whether the worktree lets the local ref advance, and the times at which it works. */
  datatype Scene = Scene(
    binding: Binding, owner: string, config: string, trusted: Commit -> bool, builds: bool, signs: bool, clean: bool,
    now: int, late: int, lease: int, weather: Weather)

  predicate Actionable(j: Job, sc: Scene) {
    CandidateOf(j.journal).Some? && j.binding == sc.binding
  }

  /** Recovery may push this job again: the group is active, or is held for a conflict and the run repairs it. */
  predicate PushAllowed(control: C.Row, j: Job) {
    || (control.state != C.Blocked && j.state != Blocked)
    || (control.state == C.Blocked && control.reason == C.ConflictHold)
  }

  /** Frees a rejected, expired or uncertain job so that it can be claimed again; its candidate stays. */
  method MakeClaimable(site: Site, id: string, c: Commit, sc: Scene, budget: nat) returns (out: Outcome, left: nat)
    requires site.Valid() && id in site.jobs && !site.jobs[id].resolved && CandidateOf(site.jobs[id].journal) == Some(c)
    requires PushAllowed(site.control, site.jobs[id])
    modifies site`jobs
    ensures site.Valid() && OnlyTouches(old(site.jobs), site.jobs, id)
    ensures !site.jobs[id].resolved && site.jobs[id].state in {Signed, Uncertain, Blocked}
    ensures site.jobs[id].attempts == old(site.jobs)[id].attempts && left <= budget
    ensures out in {Done, Crashed, ClaimPending, StoreRefused, Untrusted}
    ensures out == Done ==> site.jobs[id].state == Signed && site.jobs[id].claim.None?
    ensures Unclaimed(old(site.jobs)[id].claim, sc.now) && sc.trusted(c) && budget >= 3 ==> out == Done && left + 3 >= budget
  {
    left := budget;
    var j := site.jobs[id];
    if j.state == Blocked {
      if !sc.trusted(c) { return Untrusted, left; }
      if left == 0 { return Crashed, left; }
      left := left - 1;
      var reopened := site.ReopenRejected(id, j.fence, c, sc.now);
      if !reopened { return StoreRefused, left; }
    }
    if site.jobs[id].claim.Some? {
      if LiveAt(site.jobs[id].claim, sc.now) { return ClaimPending, left; }
      if left == 0 { return Crashed, left; }
      left := left - 1;
      var released := site.ReconcileExpiredClaim(id, j.fence, Some(c), sc.now);
      if !released { return StoreRefused, left; }
    }
    if site.jobs[id].state == Uncertain {
      if left == 0 { return Crashed, left; }
      left := left - 1;
      var reconciled := site.ReconcileUncertain(id, j.fence, c);
      if !reconciled { return StoreRefused, left; }
    }
    out := Done;
  }

  /** The remote after a recovery push that was, or was not, sent. */
  ghost predicate PushedOrNot(before: Head, after: Head, c: Commit, base: Commit, w: Weather) {
    after == before || after == FinalHead(before, c, Some(base), w)
  }

  /** Pushes a job this run has claimed, and records what the push proved. */
  method PushClaimed(site: Site, r: Remote, id: string, c: Commit, sc: Scene, budget: nat) returns (out: Outcome, left: nat)
    requires site.Valid() && id in site.jobs && CandidateOf(site.jobs[id].journal) == Some(c) && site.jobs[id].state == Signed
    requires site.jobs[id].claim == Some(Claim(sc.owner, sc.now + sc.lease)) && !site.jobs[id].resolved
    modifies site`jobs, site`control, r
    ensures site.Valid() && OnlyTouches(old(site.jobs), site.jobs, id)
    ensures !site.jobs[id].resolved && site.jobs[id].state in {Signed, Uncertain, Blocked} && left <= budget
    ensures site.jobs[id].attempts == old(site.jobs)[id].attempts && site.jobs[id].claim in {None, old(site.jobs)[id].claim}
    ensures out in {Done, Crashed, StoreRefused, HeldForConflict, HeldOtherwise, Untrusted, Unsafe, RetryLater, EffectUnknown}
    ensures PushedOrNot(old(r.head), r.head, c, site.jobs[id].base, sc.weather)
    ensures r.head != old(r.head) ==> site.local == site.jobs[id].base
    ensures out == Done ==> site.jobs == old(site.jobs)
    ensures Classify(ReportOf(old(r.head), c, Some(site.jobs[id].base), sc.weather), Some(site.jobs[id].base), c) == Confirmed
            ==> site.control == old(site.control) && site.jobs[id].state == Signed
    ensures out == Done ==> Classify(ReportOf(old(r.head), c, Some(site.jobs[id].base), sc.weather), Some(site.jobs[id].base), c) == Confirmed
    ensures out == Done ==> r.head == FinalHead(old(r.head), c, Some(site.jobs[id].base), sc.weather)
    ensures budget > 0 && site.local == site.jobs[id].base && sc.clean
            && Classify(ReportOf(old(r.head), c, Some(site.jobs[id].base), sc.weather), Some(site.jobs[id].base), c) == Confirmed
            ==> out == Done && left + 1 == budget
  {
    left := budget;
    var j := site.jobs[id];
    if !(site.local == j.base && sc.clean) {
      if left == 0 { return Crashed, left; }
      left := left - 1;
      var ok := site.Finish(id, sc.owner, j.fence, Signed, Some(c), sc.late);
      return if ok then Unsafe else StoreRefused, left;
    }
    if left == 0 { return Crashed, left; }
    left := left - 1;
    var d := PushAndClassify(r, c, Some(j.base), sc.weather);
    if d == Confirmed {
      return Done, left;
    }
    if d == Conflict {
      if left == 0 { return Crashed, left; }
      left := left - 1;
      site.HoldForConflict(sc.config);
    }
    if left == 0 { return Crashed, left; }
    left := left - 1;
    var state := if d == Conflict then Blocked else if d == Unknown then Uncertain else Signed;
    var finished := site.Finish(id, sc.owner, j.fence, state, Some(c), sc.late);
    if !finished { return StoreRefused, left; }
    out := match d
      case TrustFailure => Untrusted
      case Retryable => RetryLater
      case Conflict => if site.control.reason == C.ConflictHold then HeldForConflict else HeldOtherwise
      case _ => EffectUnknown;
  }
}
