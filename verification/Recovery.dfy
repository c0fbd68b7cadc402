/** Recovery of a signed publication after any crash: it finishes the same candidate and never makes another. */
module Recovery {
  import opened Commits
  import opened Journals
  import opened Push
  import opened Publishing
  import C = Control

  /** Recovery of a job whose remote shows neither its base nor its candidate: block it and hold the group. */
  method BlockMoved(site: Site, id: string, c: Commit, sc: Scene, budget: nat) returns (out: Outcome)
    requires site.Valid() && id in site.jobs && !site.jobs[id].resolved && CandidateOf(site.jobs[id].journal) == Some(c)
    modifies site`jobs, site`control
    ensures site.Valid() && OnlyTouches(old(site.jobs), site.jobs, id)
    ensures out in {Crashed, ClaimPending, StoreRefused, HeldForConflict, HeldOtherwise}
    ensures !site.jobs[id].resolved && site.jobs[id].attempts == old(site.jobs)[id].attempts
    ensures site.jobs[id] == old(site.jobs)[id] || (site.jobs[id].state == Blocked && site.jobs[id].claim.None?)
    ensures out in {HeldForConflict, HeldOtherwise} ==> site.jobs[id].state == Blocked && site.control.state == C.Blocked
    ensures out == HeldForConflict ==> site.control.reason == C.ConflictHold
    ensures Unclaimed(old(site.jobs)[id].claim, sc.now) && budget >= 2 ==> out in {HeldForConflict, HeldOtherwise}
  {
    var j := site.jobs[id];
    if LiveAt(j.claim, sc.now) { return ClaimPending; }
    if budget == 0 { return Crashed; }
    var blocked := site.BlockAfterRemoteMove(id, j.fence, c, sc.now);
    if !blocked { return StoreRefused; }
    if budget == 1 { return Crashed; }
    site.HoldForConflict(sc.config);
    out := if site.control.reason == C.ConflictHold then HeldForConflict else HeldOtherwise;
  }

  /** The confirmed end of a recovery: verify the candidate, bring the local ref up, publish with one delivery. */
  method Settle(site: Site, id: string, c: Commit, owner: Option<string>, sc: Scene, budget: nat) returns (out: Outcome)
    requires site.Valid() && id in site.jobs && !site.jobs[id].resolved && CandidateOf(site.jobs[id].journal) == Some(c)
    modifies site`jobs, site`deliveries, site`backlog, site`local
    ensures site.Valid() && OnlyTouches(old(site.jobs), site.jobs, id)
    ensures out in {Done, Crashed, ClaimPending, StoreRefused, Untrusted, Unsafe}
    ensures site.local == old(site.local) || (old(site.local) == site.jobs[id].base && site.local == c && sc.trusted(c))
    ensures out != Done ==> site.jobs == old(site.jobs) && site.deliveries == old(site.deliveries) && site.backlog == old(site.backlog)
    ensures out == Done ==> site.jobs[id].state == Published && site.local == c && site.deliveries == old(site.deliveries)[id := c]
    ensures sc.trusted(c) && sc.clean && old(site.local) in {site.jobs[id].base, c} && old(site.HasRoom(id)) && budget >= 2
            && (if owner.Some? then old(site.Owns(id, owner.value, site.jobs[id].fence, sc.late)) && old(site.jobs)[id].state == Signed
                else Unclaimed(old(site.jobs)[id].claim, sc.now) && sc.now <= sc.late)
            ==> out == Done
  {
    var j := site.jobs[id];
    if !sc.trusted(c) { return Untrusted; }
    if owner.None? && LiveAt(j.claim, sc.now) { return ClaimPending; }
    if budget == 0 { return Crashed; }
    if site.local != c {
      if site.local != j.base { return Unsafe; }
      var advanced := site.AdvanceLocal(j.base, c, sc.clean);
      if !advanced { return Unsafe; }
    }
    if budget == 1 { return Crashed; }
    var ok := site.FinishPublished(id, owner, j.fence, c, sc.late);
    out := if ok then Done else StoreRefused;
  }

  lemma OthersUntouched(before: map<string, Job>, after: map<string, Job>, id: string)
    requires OnlyTouches(before, after, id)
    ensures Others(after, id) == Others(before, id)
    ensures forall now :: IdleBut(after, id, now) == IdleBut(before, id, now)
  {
  }

  /** Makes the job claimable and claims it for this run. */
  method Reclaim(site: Site, id: string, c: Commit, sc: Scene, budget: nat) returns (out: Outcome, left: nat)
    requires site.Valid() && id in site.jobs && !site.jobs[id].resolved && CandidateOf(site.jobs[id].journal) == Some(c)
    requires PushAllowed(site.control, site.jobs[id])
    modifies site`jobs
    ensures site.Valid() && OnlyTouches(old(site.jobs), site.jobs, id) && !site.jobs[id].resolved && left <= budget
    ensures out in {Done, Crashed, ClaimPending, StoreRefused, Untrusted}
    ensures out == Done ==> site.jobs[id].state == Signed && site.jobs[id].claim == Some(Claim(sc.owner, sc.now + sc.lease))
    ensures old(ClaimReady(site, id, c, sc)) && budget >= 4 ==> out == Done && left + 4 >= budget
  {
    var administration := site.control.state == C.Blocked;
    out, left := MakeClaimable(site, id, c, sc, budget);
    if out != Done { return; }
    if !sc.trusted(c) { return Untrusted, left; }
    if left == 0 { return Crashed, left; }
    left := left - 1;
    assert old(ClaimReady(site, id, c, sc)) ==> site.MayClaim(id, sc.config, sc.now, administration) by {
      OthersUntouched(old(site.jobs), site.jobs, id);
    }
    var claimed := site.ClaimJob(id, sc.owner, sc.config, sc.now, sc.now + sc.lease, administration);
    out := if claimed then Done else StoreRefused;
  }

  /** Recovery while the remote still shows the base: claim the job, push the candidate again, in any weather. */
  method Repush(site: Site, r: Remote, id: string, c: Commit, sc: Scene, budget: nat) returns (out: Outcome, left: nat)
    requires site.Valid() && id in site.jobs && !site.jobs[id].resolved && CandidateOf(site.jobs[id].journal) == Some(c)
    requires r.head == Some(site.jobs[id].base)
    modifies site`jobs, site`control, r
    ensures site.Valid() && OnlyTouches(old(site.jobs), site.jobs, id) && !site.jobs[id].resolved && left <= budget
    ensures out != Skipped
    ensures r.head != old(r.head) ==> site.local == site.jobs[id].base
    ensures Calm(sc.weather) ==> site.control == old(site.control) && r.head in {old(r.head), Some(c)}
    ensures Calm(sc.weather) && out == Done ==> r.head == Some(c)
    ensures out == Done ==> site.jobs[id].state == Signed && site.jobs[id].claim == Some(Claim(sc.owner, sc.now + sc.lease))
    ensures old(PushReady(site, id, c, sc)) && budget >= 5 ==> out == Done && left + 5 >= budget
  {
    if !PushAllowed(site.control, site.jobs[id]) { return HeldOtherwise, budget; }
    var base := site.jobs[id].base;
    out, left := Reclaim(site, id, c, sc, budget);
    if out != Done { return; }
    if Calm(sc.weather) { CalmPushIsConfirmed(Some(base), c, sc.weather); }
    out, left := PushClaimed(site, r, id, c, sc, left);
  }

  const STEPS := 7

  /** The conditions for pushing again to succeed in one run. */
  ghost predicate PushReady(site: Site, id: string, c: Commit, sc: Scene)
    reads site
    requires id in site.jobs
  {
    var j := site.jobs[id];
    site.local == j.base && Calm(sc.weather) && sc.clean && ClaimReady(site, id, c, sc)
  }

  ghost predicate ClaimReady(site: Site, id: string, c: Commit, sc: Scene)
    reads site
    requires id in site.jobs
  {
    var j := site.jobs[id];
    && sc.trusted(c) && PushAllowed(site.control, j) && site.control.state != C.Paused && site.control.config == sc.config
    && Unclaimed(j.claim, sc.now) && j.attempts < MAX_ATTEMPTS && site.GroupIdle(id, sc.now)
  }

  /** Everything recovery needs to finish a job in one run: its claim is gone, the group may work on it, the candidate
    * verifies, the local ref can advance, attempts and queue room are left, and the run ends within its own lease. */
  ghost predicate Ready(site: Site, id: string, c: Commit, sc: Scene, remote: Commit)
    reads site
    requires id in site.jobs
  {
    && Unclaimed(site.jobs[id].claim, sc.now) && sc.trusted(c) && sc.clean && site.HasRoom(id)
    && sc.now <= sc.late <= sc.now + sc.lease
    && ((remote == c && site.local in {site.jobs[id].base, c}) || (remote == site.jobs[id].base && PushReady(site, id, c, sc)))
  }

  /** Recovery of a candidate whose base the remote still shows: push it again, and settle it once it is confirmed. */
  method FinishOverBase(site: Site, r: Remote, id: string, c: Commit, sc: Scene, budget: nat) returns (out: Outcome)
    requires site.Valid() && id in site.jobs && !site.jobs[id].resolved && CandidateOf(site.jobs[id].journal) == Some(c)
    requires r.head == Some(site.jobs[id].base)
    modifies site`jobs, site`deliveries, site`control, site`backlog, site`local, r
    ensures site.Valid() && OnlyTouches(old(site.jobs), site.jobs, id) && out != Skipped
    ensures out == Done ==> site.jobs[id].state == Published && site.local == c && site.deliveries == old(site.deliveries)[id := c]
    ensures out != Done ==> site.deliveries == old(site.deliveries) && site.backlog == old(site.backlog) && !site.jobs[id].resolved
    ensures r.head != old(r.head) ==> old(site.local) == site.jobs[id].base
    ensures site.local != old(site.local) ==> old(site.local) == site.jobs[id].base && site.local == c
    ensures Calm(sc.weather) ==> site.control == old(site.control) && r.head in {old(r.head), Some(c)}
    ensures Calm(sc.weather) && (site.local != old(site.local) || out == Done) ==> r.head == Some(c)
    ensures old(Ready(site, id, c, sc, site.jobs[id].base)) && c != old(site.jobs)[id].base && budget >= STEPS ==> out == Done && r.head == Some(c)
  {
    var left;
    out, left := Repush(site, r, id, c, sc, budget);
    if out != Done { return; }
    assert old(site.HasRoom(id)) == site.HasRoom(id) by { OthersUntouched(old(site.jobs), site.jobs, id); }
    out := Settle(site, id, c, Some(sc.owner), sc, left);
  }

  /** Recovery of one unresolved job, as the loop of the command runs it, for any number of steps it lives.
    *
    * It finishes the journaled candidate or leaves the job as recoverable as it was; it pushes only over the job's own
    * base; it moves the local ref only from that base to the candidate; and when the remote shows anything else it
    * moves no ref at all. */
  method RecoverJob(site: Site, r: Remote, id: string, sc: Scene, remote: Commit, budget: nat) returns (out: Outcome)
    requires site.Valid() && id in site.jobs && !site.jobs[id].resolved
    requires r.head == Some(remote)
    modifies site`jobs, site`deliveries, site`control, site`backlog, site`local, r
    ensures site.Valid() && OnlyTouches(old(site.jobs), site.jobs, id)
    ensures out == Skipped <==> !Actionable(old(site.jobs)[id], sc)
    ensures out == Skipped ==> unchanged(site) && unchanged(r)
    ensures out == Done ==> site.jobs[id].state == Published && CandidateOf(site.jobs[id].journal) == Some(site.local)
    ensures out == Done ==> site.deliveries == old(site.deliveries)[id := site.local]
    ensures out != Done ==> site.deliveries == old(site.deliveries) && site.backlog == old(site.backlog) && !site.jobs[id].resolved
    ensures r.head != old(r.head) ==> remote == site.jobs[id].base && old(site.local) == remote
    ensures site.local != old(site.local) ==> old(site.local) == site.jobs[id].base && CandidateOf(site.jobs[id].journal) == Some(site.local)
    ensures Some(remote) !in {Some(site.jobs[id].base), CandidateOf(site.jobs[id].journal)}
            ==> && site.local == old(site.local) && r.head == old(r.head)
                && out in {Skipped, Crashed, ClaimPending, StoreRefused, HeldForConflict, HeldOtherwise}
    ensures Some(remote) !in {Some(site.jobs[id].base), CandidateOf(site.jobs[id].journal)} && out != Skipped ==>
      old(Unclaimed(site.jobs[id].claim, sc.now)) && budget >= STEPS ==>
        out in {HeldForConflict, HeldOtherwise} && site.jobs[id].state == Blocked && site.control.state == C.Blocked
    ensures Calm(sc.weather) && Some(remote) in {Some(site.jobs[id].base), CandidateOf(site.jobs[id].journal)}
            ==> && site.control == old(site.control) && r.head in {old(r.head), CandidateOf(site.jobs[id].journal)}
                && (site.local != old(site.local) || out == Done ==> r.head == Some(site.local))
    ensures out != Skipped && old(Ready(site, id, CandidateOf(site.jobs[id].journal).value, sc, remote)) && budget >= STEPS
            ==> out == Done && r.head == CandidateOf(site.jobs[id].journal)
  {
    var j := site.jobs[id];
    var candidate := JournalCandidate(j.journal);
    if candidate.None? || j.binding != sc.binding {
      return Skipped;
    }
    var c := candidate.value;
    if c == remote {
      out := Settle(site, id, c, None, sc, budget);
    } else if remote == j.base {
      out := FinishOverBase(site, r, id, c, sc, budget);
    } else {
      out := BlockMoved(site, id, c, sc, budget);
    }
  }

  /** Recovery over the unresolved jobs in their order: jobs without a candidate, or of another membership, are passed
    * over and nothing is changed for them; the first other job decides the result. */
  method Recover(site: Site, r: Remote, order: seq<string>, sc: Scene, remote: Commit, budget: nat) returns (out: Outcome, ghost at: nat)
    requires site.Valid() && r.head == Some(remote)
    requires forall i :: 0 <= i < |order| ==> order[i] in site.jobs && !site.jobs[order[i]].resolved
    modifies site`jobs, site`deliveries, site`control, site`backlog, site`local, r
    ensures site.Valid()
    ensures out == Skipped <==> forall i :: 0 <= i < |order| ==> !Actionable(old(site.jobs)[order[i]], sc)
    ensures out == Skipped ==> unchanged(site) && unchanged(r)
    ensures out != Skipped ==> at < |order| && Actionable(old(site.jobs)[order[at]], sc) && OnlyTouches(old(site.jobs), site.jobs, order[at])
    ensures out != Skipped ==> forall i :: 0 <= i < at ==> !Actionable(old(site.jobs)[order[i]], sc)
    ensures out == Done ==> site.jobs[order[at]].state == Published && site.deliveries == old(site.deliveries)[order[at] := site.local]
    ensures out != Skipped && budget >= STEPS && old(Ready(site, order[at], CandidateOf(site.jobs[order[at]].journal).value, sc, remote))
            ==> out == Done && r.head == Some(site.local) == CandidateOf(site.jobs[order[at]].journal)
  {
    at := 0;
    var i := 0;
    while i < |order|
      invariant 0 <= i <= |order| && at == i
      invariant unchanged(site) && unchanged(r) && site.Valid()
      invariant forall k :: 0 <= k < i ==> !Actionable(site.jobs[order[k]], sc)
    {
      out := RecoverJob(site, r, order[i], sc, remote, budget);
      if out != Skipped {
        return;
      }
      i := i + 1;
      at := i;
    }
    out := Skipped;
  }

  /** The jobs of a list that are still unresolved, in its order. */
  function Unresolved(jobs: map<string, Job>, order: seq<string>): (rest: seq<string>)
    ensures forall k :: k in rest <==> k in order && k in jobs && !jobs[k].resolved
  {
    if order == [] then []
    else
      var last, before := order[|order| - 1], Unresolved(jobs, order[..|order| - 1]);
      if last in jobs && !jobs[last].resolved then before + [last] else before
  }

  method LoadUnresolved(site: Site, order: seq<string>) returns (rest: seq<string>)
    ensures rest == Unresolved(site.jobs, order)
  {
    rest := [];
    var i := 0;
    assert order[..0] == [];
    while i < |order|
      invariant 0 <= i <= |order| && rest == Unresolved(site.jobs, order[..i])
    {
      assert order[..i + 1][..i] == order[..i];
      if order[i] in site.jobs && !site.jobs[order[i]].resolved {
        rest := rest + [order[i]];
      }
      i := i + 1;
    }
    assert order[..|order|] == order;
  }

  /** `id` is the only unresolved job that recovery would act on. */
  predicate OnlyActionable(jobs: map<string, Job>, id: string, sc: Scene) {
    id in jobs && !jobs[id].resolved && forall k :: k in jobs && !jobs[k].resolved ==> (Actionable(jobs[k], sc) <==> k == id)
  }

  /** Once the only actionable job is published, nothing in the list that is loaded next is actionable. */
  lemma NothingLeft(before: map<string, Job>, after: map<string, Job>, all: seq<string>, id: string, sc: Scene)
    requires OnlyActionable(before, id, sc) && OnlyTouches(before, after, id) && after[id].resolved
    ensures forall k :: k in Unresolved(after, all) ==> k in after && !Actionable(after[k], sc)
  {
  }

  /** Running recovery again changes nothing: when one job is actionable, the first run publishes it, and the second,
    * over the jobs it finds unresolved then, leaves every job, every ref, the control and the deliveries as they are.
    * `all` lists the jobs of the store. */
  method RecoverTwice(site: Site, r: Remote, all: seq<string>, id: string, sc: Scene, remote: Commit, budget: nat, again: nat)
    returns (first: Outcome, second: Outcome)
    requires site.Valid() && r.head == Some(remote) && budget >= STEPS && forall k :: k in site.jobs <==> k in all
    requires OnlyActionable(site.jobs, id, sc)
    requires Ready(site, id, CandidateOf(site.jobs[id].journal).value, sc, remote)
    modifies site`jobs, site`deliveries, site`control, site`backlog, site`local, r
    ensures first == Done && second == Skipped
    ensures id in site.jobs && site.jobs[id].state == Published && OnlyTouches(old(site.jobs), site.jobs, id)
    ensures r.head == Some(site.local) == CandidateOf(site.jobs[id].journal) == old(CandidateOf(site.jobs[id].journal))
    ensures site.deliveries == old(site.deliveries)[id := site.local]
  {
    ghost var at, other;
    var order := LoadUnresolved(site, all);
    assert forall i :: 0 <= i < |order| ==> order[i] in order;
    first, at := Recover(site, r, order, sc, remote, budget);
    NothingLeft(old(site.jobs), site.jobs, all, id, sc);
    var rest := LoadUnresolved(site, all);
    assert forall i :: 0 <= i < |rest| ==> rest[i] in rest;
    second, other := Recover(site, r, rest, sc, r.head.value, again);
  }

  /** What a publication run leaves in its job while the job is unresolved and not blocked; `tries` bounds its claims. */
  ghost predicate OpenJob(j: Job, base: Commit, candidate: Commit, sc: Scene, tries: nat) {
    && j.base == base && j.binding == sc.binding && !j.resolved && j.attempts <= tries
    && j.claim in {None, Some(Claim(sc.owner, sc.now + sc.lease))}
    && CandidateOf(j.journal) in {None, Some(candidate)}
  }

  /** A job of the same publication that an earlier run left before its signature. */
  predicate Unsigned(j: Job, base: Commit, sc: Scene) {
    j.base == base && j.binding == sc.binding && !j.resolved && j.state in {Eligible, Prepared}
  }

  /** Only the job `id` is new or different. */
  ghost predicate OnlyAdds(before: map<string, Job>, after: map<string, Job>, id: string) {
    && (forall k :: k in before && k != id ==> k in after && after[k] == before[k])
    && (forall k :: k in after ==> k in before || k == id) && (id in before ==> id in after)
  }

  /** How many claims a run may have left on its job. */
  function Tries(jobs: map<string, Job>, id: string): nat {
    1 + if id in jobs then jobs[id].attempts else 0
  }

  /** The job is new, or waits unsigned and without a live claim. */
  predicate Enterable(jobs: map<string, Job>, id: string, base: Commit, sc: Scene) {
    id in jobs ==> Unsigned(jobs[id], base, sc) && Unclaimed(jobs[id].claim, sc.now) && jobs[id].attempts < MAX_ATTEMPTS
  }

  /** Everything a publish run needs from the store to reach its end. */
  ghost predicate Open(site: Site, id: string, sc: Scene)
    reads site
  {
    && site.control.state == C.Active && site.control.config == sc.config && site.HasRoom(id) && site.GroupIdle(id, sc.now)
    && sc.builds && sc.signs
  }

  /** Admits the publication, or frees the job an earlier run left. */
  method TakeUp(site: Site, id: string, base: Commit, sc: Scene) returns (out: Outcome)
    requires site.Valid() && (id in site.jobs ==> Unsigned(site.jobs[id], base, sc))
    modifies site`jobs
    ensures site.Valid() && OnlyAdds(old(site.jobs), site.jobs, id) && out in {Done, StoreRefused, ClaimPending}
    ensures out != Done ==> site.jobs == old(site.jobs)
    ensures out == Done ==> id in site.jobs && Unsigned(site.jobs[id], base, sc) && site.jobs[id].claim == None
    ensures out == Done ==> site.jobs[id].attempts == if id in old(site.jobs) then old(site.jobs)[id].attempts else 0
    ensures out == Done && id !in old(site.jobs) ==> old(site.HasRoom(id)) && site.control.state == C.Active
    ensures old(Open(site, id, sc) && Enterable(site.jobs, id, base, sc)) ==> out == Done
  {
    if id !in site.jobs {
      var admitted := site.Admit(id, base, sc.binding, sc.config);
      return if admitted then Done else StoreRefused;
    }
    if site.jobs[id].claim.Some? {
      if LiveAt(site.jobs[id].claim, sc.now) { return ClaimPending; }
      var released := site.ReconcileExpiredClaim(id, site.jobs[id].fence, None, sc.now);
      if !released { return StoreRefused; }
    }
    out := Done;
  }

  /** Takes the job up and claims it. */
  method Enqueue(site: Site, id: string, base: Commit, sc: Scene, budget: nat) returns (out: Outcome, left: nat)
    requires site.Valid() && (id in site.jobs ==> Unsigned(site.jobs[id], base, sc))
    modifies site`jobs
    ensures site.Valid() && left <= budget && OnlyAdds(old(site.jobs), site.jobs, id)
    ensures out in {Done, Crashed, StoreRefused, ClaimPending}
    ensures id in site.jobs ==> Unsigned(site.jobs[id], base, sc) && site.jobs[id].attempts <= Tries(old(site.jobs), id)
    ensures id in site.jobs && id !in old(site.jobs) ==>
      old(site.HasRoom(id)) && site.control.state == C.Active && site.jobs[id].claim in {None, Some(Claim(sc.owner, sc.now + sc.lease))}
    ensures out == Done ==> id in site.jobs && site.jobs[id].claim == Some(Claim(sc.owner, sc.now + sc.lease))
    ensures old(Open(site, id, sc) && Enterable(site.jobs, id, base, sc)) && budget >= 2 ==> out == Done && left + 2 == budget
  {
    left := budget;
    if left == 0 { return Crashed, left; }
    left := left - 1;
    out := TakeUp(site, id, base, sc);
    if out != Done { return; }
    if left == 0 { return Crashed, left; }
    left := left - 1;
    assert IdleBut(site.jobs, id, sc.now) == old(IdleBut(site.jobs, id, sc.now)) by {
      OthersAdded(old(site.jobs), site.jobs, id, sc.now);
    }
    var claimed := site.ClaimJob(id, sc.owner, sc.config, sc.now, sc.now + sc.lease, false);
    out := if claimed then Done else StoreRefused;
  }

  /** Freezes the tree of a claimed job, unless an earlier run did; a failure releases the job where it stands. */
  method Freeze(site: Site, id: string, base: Commit, sc: Scene, budget: nat) returns (out: Outcome, left: nat)
    requires site.Valid() && id in site.jobs && Unsigned(site.jobs[id], base, sc)
    requires site.jobs[id].claim == Some(Claim(sc.owner, sc.now + sc.lease)) && sc.lease >= 0
    modifies site`jobs
    ensures site.Valid() && left <= budget && out in {Done, Crashed, StoreRefused, NotSigned}
    ensures OnlyTouches(old(site.jobs), site.jobs, id) && Unsigned(site.jobs[id], base, sc)
    ensures site.jobs[id].attempts == old(site.jobs)[id].attempts && site.jobs[id].claim in {None, old(site.jobs)[id].claim}
    ensures out == Done ==> site.jobs[id].state == Prepared && site.jobs[id].claim == old(site.jobs)[id].claim
    ensures sc.builds && budget >= 1 ==> out == Done && left + 1 >= budget
  {
    left := budget;
    if site.jobs[id].state == Prepared { return Done, left; }
    if left == 0 { return Crashed, left; }
    left := left - 1;
    var ok;
    if !sc.builds {
      ok := site.Finish(id, sc.owner, site.jobs[id].fence, Eligible, None, sc.now);
      return if ok then NotSigned else StoreRefused, left;
    }
    ok := site.Advance(id, sc.owner, site.jobs[id].fence, None, sc.now);
    out := if ok then Done else StoreRefused;
  }

  /** Freezes the tree and signs its commit. */
  method Sign(site: Site, id: string, base: Commit, candidate: Commit, sc: Scene, budget: nat) returns (out: Outcome, left: nat)
    requires site.Valid() && id in site.jobs && Unsigned(site.jobs[id], base, sc) && Child(base, candidate)
    requires site.jobs[id].claim == Some(Claim(sc.owner, sc.now + sc.lease)) && sc.lease >= 0
    modifies site`jobs
    ensures site.Valid() && left <= budget && out in {Done, Crashed, StoreRefused, NotSigned}
    ensures OnlyAdds(old(site.jobs), site.jobs, id) && id in site.jobs
    ensures OpenJob(site.jobs[id], base, candidate, sc, old(site.jobs)[id].attempts)
    ensures site.jobs[id].state in {Eligible, Prepared, Signed}
    ensures out == Done <==> site.jobs[id].state == Signed && CandidateOf(site.jobs[id].journal) == Some(candidate)
    ensures out == Done ==> site.jobs[id].claim == Some(Claim(sc.owner, sc.now + sc.lease))
    ensures sc.builds && sc.signs && budget >= 2 ==> out == Done && left + 2 >= budget
  {
    out, left := Freeze(site, id, base, sc, budget);
    assert CandidateOf(site.jobs[id].journal) == None;
    if out != Done { return; }
    if left == 0 { return Crashed, left; }
    left := left - 1;
    var ok;
    if !sc.signs {
      ok := site.Finish(id, sc.owner, site.jobs[id].fence, Prepared, None, sc.now);
      return if ok then NotSigned else StoreRefused, left;
    }
    ok := site.Advance(id, sc.owner, site.jobs[id].fence, Some(candidate), sc.now);
    out := if ok then Done else StoreRefused;
  }

  /** The end of a publish run whose candidate is confirmed on the remote. */
  method Conclude(site: Site, id: string, base: Commit, candidate: Commit, sc: Scene, ghost tries: nat, budget: nat) returns (out: Outcome)
    requires site.Valid() && id in site.jobs && OpenJob(site.jobs[id], base, candidate, sc, tries) && site.jobs[id].state == Signed
    requires site.local == base
    modifies site`jobs, site`deliveries, site`backlog, site`local
    ensures site.Valid() && OnlyTouches(old(site.jobs), site.jobs, id) && out in {Done, Crashed, StoreRefused, EffectUnknown}
    ensures site.local in {base, candidate} && site.jobs[id].state != Blocked
    ensures out == Done ==> site.jobs[id].state == Published && site.local == candidate && site.deliveries == old(site.deliveries)[id := candidate]
    ensures out != Done ==> OpenJob(site.jobs[id], base, candidate, sc, tries)
    ensures out != Done ==> site.deliveries == old(site.deliveries) && site.backlog == old(site.backlog)
    ensures old(site.jobs[id].claim) == Some(Claim(sc.owner, sc.now + sc.lease)) && old(site.HasRoom(id)) && sc.clean ==>
      sc.late <= sc.now + sc.lease && budget >= 2 ==> out == Done
  {
    if budget == 0 { return Crashed; }
    var advanced := site.AdvanceLocal(base, candidate, sc.clean);
    if budget == 1 { return Crashed; }
    if !advanced {
      var uncertain := site.Finish(id, sc.owner, site.jobs[id].fence, Uncertain, Some(candidate), sc.late);
      return if uncertain then EffectUnknown else StoreRefused;
    }
    var ok := site.FinishPublished(id, Some(sc.owner), site.jobs[id].fence, candidate, sc.late);
    out := if ok then Done else StoreRefused;
  }

  /** The effects of a publish run whose claimed candidate is journaled: push, advance the local ref, publish. */
  method Deliver(site: Site, r: Remote, id: string, base: Commit, candidate: Commit, sc: Scene, ghost tries: nat, budget: nat)
    returns (out: Outcome)
    requires site.Valid() && id in site.jobs && OpenJob(site.jobs[id], base, candidate, sc, tries) && site.jobs[id].state == Signed
    requires site.jobs[id].claim == Some(Claim(sc.owner, sc.now + sc.lease)) && CandidateOf(site.jobs[id].journal) == Some(candidate)
    requires site.local == base && r.head == Some(base) && Child(base, candidate)
    modifies site`jobs, site`deliveries, site`control, site`backlog, site`local, r
    ensures site.Valid() && OnlyTouches(old(site.jobs), site.jobs, id) && site.local in {base, candidate}
    ensures out == Done ==> site.jobs[id].state == Published && site.local == candidate && site.deliveries == old(site.deliveries)[id := candidate]
    ensures out != Done ==> OpenJob(site.jobs[id], base, candidate, sc, tries)
    ensures out != Done ==> site.deliveries == old(site.deliveries) && site.backlog == old(site.backlog)
    ensures Calm(sc.weather) ==> r.head in {Some(base), Some(candidate)} && site.control == old(site.control) && site.jobs[id].state != Blocked
    ensures Calm(sc.weather) && (site.local == candidate || out == Done) ==> r.head == Some(candidate)
    ensures Calm(sc.weather) && sc.clean && old(site.HasRoom(id)) && sc.late <= sc.now + sc.lease && budget >= 3 ==> out == Done
  {
    var left;
    if Calm(sc.weather) { CalmPushIsConfirmed(Some(base), candidate, sc.weather); }
    out, left := PushClaimed(site, r, id, candidate, sc, budget);
    if out != Done { return; }
    out := Conclude(site, id, base, candidate, sc, tries, left);
  }

  /** A whole publish run: admit or take up the job, prepare, sign, push, advance the local ref, publish. For any number
    * of steps the refs move only once the candidate is journaled and an unfinished job stays as recovery needs it; with
    * nothing in its way the run ends published. */
  method Publish(site: Site, r: Remote, id: string, base: Commit, candidate: Commit, sc: Scene, budget: nat) returns (out: Outcome)
    requires site.Valid() && (id in site.jobs ==> Unsigned(site.jobs[id], base, sc)) && Child(base, candidate) && sc.lease >= 0
    requires site.local == base && r.head == Some(base)
    modifies site`jobs, site`deliveries, site`control, site`backlog, site`local, r
    ensures site.Valid() && OnlyAdds(old(site.jobs), site.jobs, id)
    ensures id !in site.jobs || CandidateOf(site.jobs[id].journal).None? ==> r.head == old(r.head) && site.local == base
    ensures id in site.jobs && out == Done ==> site.jobs[id].state == Published && CandidateOf(site.jobs[id].journal) == Some(candidate)
    ensures out == Done ==> id in site.jobs && site.local == candidate && site.deliveries == old(site.deliveries)[id := candidate]
    ensures id in site.jobs && out != Done && CandidateOf(site.jobs[id].journal).Some?
            ==> OpenJob(site.jobs[id], base, candidate, sc, Tries(old(site.jobs), id))
    ensures id in site.jobs && CandidateOf(site.jobs[id].journal).None?
            ==> Unsigned(site.jobs[id], base, sc) && site.jobs[id].attempts <= Tries(old(site.jobs), id)
    ensures id in site.jobs && id !in old(site.jobs) ==> old(site.HasRoom(id)) && old(site.control.state) == C.Active
    ensures id in site.jobs && id !in old(site.jobs) && out != Done ==> OpenJob(site.jobs[id], base, candidate, sc, 1)
    ensures out != Done ==> site.deliveries == old(site.deliveries) && site.backlog == old(site.backlog)
    ensures site.local in {base, candidate}
    ensures Calm(sc.weather) ==> r.head in {Some(base), Some(candidate)} && site.control == old(site.control)
    ensures Calm(sc.weather) && id in site.jobs ==> site.jobs[id].state != Blocked
    ensures Calm(sc.weather) && (site.local == candidate || out == Done) ==> r.head == Some(candidate)
    ensures old(Open(site, id, sc) && Enterable(site.jobs, id, base, sc)) && Calm(sc.weather) && sc.clean ==>
      sc.late <= sc.now + sc.lease && budget >= STEPS ==> out == Done
  {
    var left;
    out, left := Enqueue(site, id, base, sc, budget);
    if out != Done { return; }
    out, left := Sign(site, id, base, candidate, sc, left);
    if out != Done { return; }
    OthersAdded(old(site.jobs), site.jobs, id, sc.now);
    out := Deliver(site, r, id, base, candidate, sc, Tries(old(site.jobs), id), left);
  }

  /** Crash safety of publishing, end to end. A publish run dies after any number of steps while nobody else writes the
    * remote; a later publish run, after the claim has expired, recovers first and publishes otherwise. Remote, local ref
    * and exactly one delivery end at one candidate: the first run's if that one was journaled, and the later run's only
    * if it was not, in which case no ref had moved. */
  method PublishCrashRecover(site: Site, r: Remote, id: string, base: Commit, candidate: Commit, dead: Scene, steps: nat,
                             second: Commit, later: Scene, budget: nat) returns (signed: bool)
    requires site.Valid() && id !in site.jobs && Child(base, candidate) && Child(base, second) && site.local == base && r.head == Some(base)
    requires Calm(dead.weather) && Calm(later.weather) && 0 <= dead.lease
    requires dead.now + dead.lease < later.now <= later.late <= later.now + later.lease
    requires later.binding == dead.binding && later.config == dead.config && later.trusted(candidate) && later.clean
    requires Open(site, id, later) && site.control.mode == C.Normal && budget >= STEPS
    modifies site`jobs, site`deliveries, site`control, site`backlog, site`local, r
    ensures site.Valid() && id in site.jobs && site.jobs[id].state == Published
    ensures var final := if signed then candidate else second;
            r.head == Some(final) && site.local == final && site.deliveries == old(site.deliveries)[id := final]
            && CandidateOf(site.jobs[id].journal) == Some(final)
  {
    var out := Publish(site, r, id, base, candidate, dead, steps);
    signed := id in site.jobs && CandidateOf(site.jobs[id].journal).Some?;
    if out == Done { return; }
    OthersAdded(old(site.jobs), site.jobs, id, later.now);
    var remote := r.head.value;
    if signed {
      assert Actionable(site.jobs[id], later);
      assert Ready(site, id, candidate, later, remote);
      out := RecoverJob(site, r, id, later, remote, budget);
    } else {
      out := Publish(site, r, id, base, second, later, budget);
    }
  }

  lemma OthersAdded(before: map<string, Job>, after: map<string, Job>, id: string, now: int)
    requires OnlyAdds(before, after, id)
    ensures Others(after, id) == Others(before, id) && IdleBut(after, id, now) == IdleBut(before, id, now)
  {
    assert forall k :: k != id ==> (k in before <==> k in after);
  }
}
