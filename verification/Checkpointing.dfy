/** Applying a reviewed checkpoint plan, with crashes and re-entry: a later run finishes the candidate an earlier one
  * signed. Runs are one at a time here; overlapping ones are the subject of CandidateRuns.
  */
module Checkpointing {
  import opened Commits
  import opened Journals
  import opened Push
  import C = Control

  datatype JobState = Planned | Applying | Applied | Blocked | Uncertain

  datatype Outcome =
    | Open            // nothing to settle: the plan can be applied
    | Done | Crashed | Busy | StoreRefused | HeldForConflict | HeldOtherwise | Untrusted | Unsafe | RetryLater | EffectUnknown | Mismatch

  /** What a run finds around it, and when it works. `accepted` says whether a commit would pass the content-head check,
    * `pinned` whether it carries the administrator's signature. */
  datatype Scene = Scene(
    config: string, membershipCurrent: bool, accepted: Commit -> bool, pinned: Commit -> bool, clean: bool,
    now: int, late: int, lease: int, weather: Weather)

  const MAX_ATTEMPTS := 20

  /** Which control state each kind of checkpoint is for. */
  predicate ControlMatches(kind: Kind, c: C.Row) {
    match kind
    case InitialBaseline => c.state == C.Active
    case ConflictResolution => c.state == C.Blocked && c.reason == C.ConflictHold
    case HistoryBoundExhausted => c.state == C.Blocked && c.reason in {C.TrustHold, C.RecoveryHold}
  }

  class Plan {
    const predecessor: Commit
    const kind: Kind
    var state: JobState
    var journal: Journal
    var expires: Option<int>    // the claim, by its expiry
    var attempts: nat
    var resolved: bool
    var control: C.Row
    var local: Commit

    constructor (predecessor: Commit, kind: Kind, control: C.Row, local: Commit)
      requires C.Coherent(control)
      ensures Valid() && this.predecessor == predecessor && this.kind == kind && this.local == local && this.control == control
      ensures state == Planned && journal == [] && expires == None && attempts == 0
    {
      this.predecessor, this.kind, this.control, this.local := predecessor, kind, control, local;
      state, journal, expires, attempts, resolved := Planned, [], None, 0, false;
    }

    ghost predicate Valid()
      reads this
    {
      && SingleCandidate(journal)
      && (CandidateOf(journal).Some? ==> Child(predecessor, CandidateOf(journal).value))
      && (state in {Applying, Applied, Uncertain} ==> CandidateOf(journal).Some?)
      && (state == Planned ==> CandidateOf(journal).None?)
      && (state in {Applied, Blocked, Uncertain} ==> expires.None?)
      && (state == Applied ==> resolved)
      && C.Coherent(control)
    }

    predicate Stale(now: int)
      reads this
    {
      expires.None? || expires.value < now
    }

    /** Records evidence that names the candidate, if there is one, and moves the job. */
    method Settle(to: JobState, candidate: Option<Commit>)
      requires Valid() && candidate == CandidateOf(journal) && (to in {Applying, Applied, Uncertain} ==> candidate.Some?)
      requires to == Planned ==> candidate.None?
      modifies this`state, this`journal, this`expires, this`resolved
      ensures Valid() && state == to && expires.None? && CandidateOf(journal) == candidate
      ensures resolved == (to == Applied || (old(resolved) && to == Blocked))
    {
      AppendKeepsSingle(journal, Entry(candidate));
      journal := journal + [Entry(candidate)];
      state, expires, resolved := to, None, to == Applied || (resolved && to == Blocked);
    }

    /** Re-entry with the same plan. A candidate the remote shows is settled, never replaced; a candidate the remote does
      * not show, over an unmoved predecessor, becomes claimable again; a moved remote blocks the job and holds the group.
      * Nothing is ever pushed here. */
    method Recover(r: Remote, sc: Scene, remote: Commit, budget: nat) returns (out: Outcome)
      requires Valid() && r.head == Some(remote)
      modifies this
      ensures Valid() && CandidateOf(journal) == old(CandidateOf(journal)) && attempts == old(attempts)
      ensures local != old(local) ==> old(local) == predecessor && remote == local && Some(local) == CandidateOf(journal) && sc.accepted(local)
      ensures out == Done ==> state == Applied && Some(local) == CandidateOf(journal) && local == remote
      ensures out == Open ==> remote == predecessor && Some(remote) != CandidateOf(journal)
      ensures out == Open ==> local == old(local) && control == old(control) && !resolved
      ensures out == Open ==> state in {Planned, Applying} && expires.None?
      ensures old(state) != Applied && remote != predecessor && Some(remote) != CandidateOf(journal) ==>
                local == old(local) && out in {Mismatch, Busy, StoreRefused, Crashed, HeldForConflict, HeldOtherwise}
      ensures out in {HeldForConflict, HeldOtherwise} ==> state == Blocked && control.state == C.Blocked
      ensures remote != predecessor && Some(remote) != CandidateOf(journal) && budget >= 2 ==>
        old(state != Applied && !(state == Blocked && resolved) && Stale(sc.now)) ==> out in {HeldForConflict, HeldOtherwise}
      ensures old(state) == Applied ==> state == Applied && local == old(local)
      ensures remote == predecessor && Some(remote) != CandidateOf(journal) ==>
        old(!resolved && state != Blocked && Stale(sc.now)) && budget >= 1 ==> out == Open
      ensures Some(remote) == CandidateOf(journal) && sc.membershipCurrent && sc.accepted(remote) && sc.clean ==>
        old(!resolved && Stale(sc.now) && state != Applied && local in {predecessor, remote}) && budget >= 2 ==> out == Done
    {
      if state == Blocked && resolved { return Mismatch; }
      var candidate := JournalCandidate(journal);
      if state == Applied {
        return if Some(remote) == candidate && local == remote && sc.pinned(remote) then Done else Mismatch;
      }
      if expires.Some? && sc.now < expires.value { return Busy; }
      if candidate == Some(remote) {
        if !sc.membershipCurrent || !sc.accepted(remote) { return Untrusted; }
        if local != remote {
          if local != predecessor || !sc.clean { return Unsafe; }
          if budget == 0 { return Crashed; }
          local := remote;
        }
        if budget < 2 { return Crashed; }
        if !Stale(sc.now) { return StoreRefused; }
        Settle(Applied, candidate);
        return Done;
      }
      if remote != predecessor {
        if !Stale(sc.now) { return StoreRefused; }
        if budget == 0 { return Crashed; }
        Settle(Blocked, candidate);
        if budget == 1 { return Crashed; }
        control := C.Hold(control, C.ConflictHold, sc.config);
        return if control.reason == C.ConflictHold then HeldForConflict else HeldOtherwise;
      }
      if state == Uncertain {
        if budget == 0 { return Crashed; }
        Settle(Applying, candidate);
      } else if state == Blocked {
        if candidate.None? { return Mismatch; }
        if !sc.pinned(candidate.value) { return Untrusted; }
        if budget == 0 { return Crashed; }
        Settle(Applying, candidate);
      } else if expires.Some? {
        if !Stale(sc.now) { return StoreRefused; }
        if budget == 0 { return Crashed; }
        Settle(state, candidate);
      }
      if resolved { return Mismatch; }
      out := Open;
    }

    /** Nothing stands in the way of applying the plan in one run. */
    predicate Appliable(sc: Scene)
      reads this
    {
      && local == predecessor && ControlMatches(kind, control) && control.config == sc.config && attempts < MAX_ATTEMPTS
      && Calm(sc.weather) && sc.clean && sc.late <= sc.now + sc.lease
    }

    /** Applies an open plan: claim it, sign a new candidate only if the journal names none, push, advance, finish. The
      * command checks the candidate's signature; it does not run the content-head check. */
    method Apply(r: Remote, made: Commit, sc: Scene, budget: nat) returns (out: Outcome)
      requires Valid() && state in {Planned, Applying} && expires.None? && !resolved && sc.lease >= 0
      requires Child(predecessor, made)
      requires r.head == Some(predecessor)
      modifies this, r
      ensures Valid()
      ensures old(CandidateOf(journal)).Some? ==> CandidateOf(journal) == old(CandidateOf(journal))
      ensures old(CandidateOf(journal)).None? ==> CandidateOf(journal) in {None, Some(made)}
      ensures CandidateOf(journal).None? ==> r.head == old(r.head)
      ensures r.head != old(r.head) ==> old(local) == predecessor
      ensures local != old(local) ==> old(local) == predecessor && Some(local) == CandidateOf(journal)
      ensures out == Done <==> state == Applied
      ensures out == Done ==> Some(local) == CandidateOf(journal)
      ensures state != Applied ==> !resolved && (expires.Some? ==> expires.value == sc.now + sc.lease)
      ensures Calm(sc.weather) ==> r.head in {old(r.head), CandidateOf(journal)} && control == old(control)
      ensures Calm(sc.weather) && (old(CandidateOf(journal)).Some? ==> sc.pinned(old(CandidateOf(journal)).value)) ==> state != Blocked
      ensures Calm(sc.weather) && (local != old(local) || out == Done) ==> r.head == Some(local)
      ensures attempts <= old(attempts) + 1
      ensures old(Appliable(sc)) && sc.pinned(made) && (old(CandidateOf(journal)).Some? ==> sc.pinned(old(CandidateOf(journal)).value)) && budget >= 5
              ==> out == Done
    {
      if !ControlMatches(kind, control) || control.config != sc.config || attempts >= MAX_ATTEMPTS { return StoreRefused; }
      if budget == 0 { return Crashed; }
      expires, attempts := Some(sc.now + sc.lease), attempts + 1;
      var found := JournalCandidate(journal);
      if found.None? {
        if !sc.pinned(made) {
          if sc.now + sc.lease < sc.late { return StoreRefused; }
          Settle(Planned, None);
          return Unsafe;
        }
        if budget == 1 { return Crashed; }
        AppendKeepsSingle(journal, Entry(Some(made)));
        journal, state := journal + [Entry(Some(made))], Applying;
        found := Some(made);
      }
      out := PushAndSettle(r, found.value, sc, budget - 1);
    }

    /** The second half of an apply, for a journaled candidate under this run's claim. */
    method PushAndSettle(r: Remote, c: Commit, sc: Scene, budget: nat) returns (out: Outcome)
      requires Valid() && state == Applying && CandidateOf(journal) == Some(c) && expires == Some(sc.now + sc.lease) && !resolved
      requires r.head == Some(predecessor)
      modifies this`state, this`journal, this`expires, this`resolved, this`control, this`local, r
      ensures Valid() && CandidateOf(journal) == Some(c)
      ensures r.head != old(r.head) ==> old(local) == predecessor
      ensures local != old(local) ==> old(local) == predecessor && local == c
      ensures out == Done <==> state == Applied
      ensures out == Done ==> local == c
      ensures state != Applied ==> !resolved && (expires.Some? ==> expires.value == sc.now + sc.lease)
      ensures Calm(sc.weather) ==> r.head in {old(r.head), Some(c)} && control == old(control) && (sc.pinned(c) ==> state != Blocked)
      ensures Calm(sc.weather) && (local != old(local) || out == Done) ==> r.head == Some(local)
      ensures Calm(sc.weather) && old(local) == predecessor && sc.pinned(c) && sc.clean && sc.late <= sc.now + sc.lease && budget >= 4 ==> out == Done
    {
      var owned := sc.late <= sc.now + sc.lease;
      if !sc.pinned(c) {
        if !owned { return StoreRefused; }
        Settle(Blocked, Some(c));
        return Untrusted;
      }
      if !(local == predecessor && sc.clean) {
        if !owned { return StoreRefused; }
        Settle(Applying, Some(c));
        return Unsafe;
      }
      if budget == 0 { return Crashed; }
      if Calm(sc.weather) { CalmPushIsConfirmed(Some(predecessor), c, sc.weather); }
      var d := PushAndClassify(r, c, Some(predecessor), sc.weather);
      if d == Confirmed {
        if budget == 1 { return Crashed; }
        local := c;
        if budget == 2 { return Crashed; }
        if !owned { return StoreRefused; }
        Settle(Applied, Some(c));
        return Done;
      }
      if d == Conflict {
        if budget == 1 { return Crashed; }
        control := C.Hold(control, C.ConflictHold, sc.config);
      }
      if !owned { return StoreRefused; }
      Settle(if d == Conflict then Blocked else if d == Unknown then Uncertain else Applying, Some(c));
      out := match d
        case Conflict => if control.reason == C.ConflictHold then HeldForConflict else HeldOtherwise
        case Unknown => EffectUnknown
        case TrustFailure => Untrusted
        case _ => RetryLater;
    }
  }

  /** Crash safety of a checkpoint, end to end: a run dies after any number of steps while nobody else writes the remote;
    * a later run re-enters the same plan, bringing another candidate it would sign. If the dead run journaled one, that
    * one is finished and the other is never used; otherwise the new one is applied. */
  method ApplyCrashReapply(p: Plan, r: Remote, first: Commit, second: Commit, dead: Scene, steps: nat, later: Scene) returns (applied: Commit)
    requires p.Valid() && p.state == Planned && p.expires.None? && !p.resolved && p.local == p.predecessor && r.head == Some(p.predecessor)
    requires Child(p.predecessor, first) && Child(p.predecessor, second)
    requires Calm(dead.weather) && Calm(later.weather) && 0 <= dead.lease
    requires dead.now + dead.lease < later.now <= later.late <= later.now + later.lease
    requires ControlMatches(p.kind, p.control) && p.control.config == later.config && p.attempts + 1 < MAX_ATTEMPTS
    requires later.membershipCurrent && later.clean && later.pinned(first) && later.pinned(second) && later.accepted(first)
    modifies p, r
    ensures p.Valid() && p.state == Applied && applied in {first, second}
    ensures p.local == applied && r.head == Some(applied) && CandidateOf(p.journal) == Some(applied)
  {
    var out := p.Apply(r, first, dead, steps);
    if p.state != Applied {
      var remote := r.head.value;
      ghost var named := CandidateOf(p.journal);
      out := p.Recover(r, later, remote, 2);
      if out == Open {
        out := p.Apply(r, second, later, 5);
      }
    }
    applied := p.local;
  }
}
