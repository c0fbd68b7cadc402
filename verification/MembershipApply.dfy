/** Applying a reviewed membership plan, with crashes and re-entry. The job stays planned while its candidate is signed
  * and pushed, and an emergency is armed in the control row before the local membership ref moves. Runs are one at a
  * time here; overlapping ones are the subject of CandidateRuns and Emergency.
  */
module MembershipApply {
  import opened Commits
  import opened Journals
  import opened Push
  import C = Control

  datatype JobState = Planned | Applied | Blocked | Uncertain

  datatype Outcome =
    | Open            // nothing to settle: the plan can be applied
    | Done | Crashed | Busy | StoreRefused | Untrusted | Unsafe | RetryLater | EffectUnknown | Mismatch

  /** Reading the remote ref: it answers, it does not, or the repository is not the approved one. */
  datatype Reading = Readable | Unreadable | Unbound

  /** What a run finds around it, and when it works. `fits` says that configuration and current membership still rebuild
    * the plan, `exclusive` that no other job of the group holds a live claim. */
  datatype Scene = Scene(
    config: string, reading: Reading, fits: bool, exclusive: bool, signs: bool, pinned: Commit -> bool, refMoves: bool,
    now: int, late: int, lease: nat, weather: Weather)

  const MAX_ATTEMPTS := 20
  const BRIEF := 120

  lemma NotItsOwnBase(base: Head, candidate: Head)
    requires candidate.Some? ==> Follows(base, candidate.value)
    ensures candidate.Some? ==> candidate != base
  {
    assert base.Some? && candidate.Some? ==> Height(candidate.value) == 1 + Height(base.value);
  }

  class Plan {
    const predecessor: Head
    const mode: C.Mode
    var state: JobState
    var journal: Journal
    var expires: Option<int>    // the claim, by its expiry
    var attempts: nat
    var resolved: bool
    var control: C.Row
    var local: Head

    constructor (predecessor: Head, mode: C.Mode, control: C.Row)
      requires C.Coherent(control)
      ensures Valid() && this.predecessor == predecessor && this.mode == mode && local == predecessor && this.control == control
      ensures state == Planned && journal == [] && expires == None && attempts == 0
    {
      this.predecessor, this.mode, this.control, local := predecessor, mode, control, predecessor;
      state, journal, expires, attempts, resolved := Planned, [], None, 0, false;
    }

    /** One candidate, made over the predecessor; an adopted emergency is in the control row. */
    ghost predicate Valid()
      reads this
    {
      && SingleCandidate(journal)
      && (CandidateOf(journal).Some? ==> Follows(predecessor, CandidateOf(journal).value))
      && (state in {Applied, Uncertain} ==> CandidateOf(journal).Some?)
      && (state != Planned ==> expires.None?)
      && (state == Applied ==> resolved)
      && C.Coherent(control)
      && (local.Some? && local == CandidateOf(journal) && mode == C.Emergency ==> control.mode == C.Emergency)
    }

    predicate Stale(now: int)
      reads this
    {
      expires.None? || expires.value < now
    }

    /** An administration claim is granted to an active group, and to one an emergency holds. */
    predicate Grants(config: string, exclusive: bool)
      reads this
    {
      (control.state == C.Active || control.mode == C.Emergency) && control.config == config && !resolved && attempts < MAX_ATTEMPTS && exclusive
    }

    /** Ends the claim with an entry of evidence; an applied plan puts its posture in the control row. */
    method Settle(to: JobState, evidence: Option<Commit>, config: string)
      requires Valid() && evidence in {None, CandidateOf(journal)} && (to in {Applied, Uncertain} ==> evidence.Some?)
      modifies this`state, this`journal, this`expires, this`resolved, this`control
      ensures Valid() && state == to && expires.None? && CandidateOf(journal) == old(CandidateOf(journal))
      ensures resolved == (old(resolved) || to == Applied)
      ensures control == if to == Applied then C.Adopt(old(control), mode, config) else old(control)
    {
      AppendKeepsSingle(journal, Entry(evidence));
      journal := journal + [Entry(evidence)];
      state, expires, resolved := to, None, resolved || to == Applied;
      if to == Applied {
        control := C.Adopt(control, mode, config);
      }
    }

    /** Adopts the confirmed candidate: arm an emergency, then move the local ref over the predecessor. */
    method MoveLocal(c: Commit, config: string, moves: bool, budget: nat) returns (out: Outcome)
      requires Valid() && CandidateOf(journal) == Some(c) && local != Some(c)
      modifies this`control, this`local
      ensures Valid() && out in {Done, Crashed, Unsafe} && local in {old(local), Some(c)}
      ensures out == Done <==> local == Some(c)
      ensures local != old(local) ==> old(local) == predecessor
      ensures control == old(control) || (mode == C.Emergency && control == C.Adopt(old(control), mode, config))
      ensures old(local) == predecessor && moves && budget >= 2 ==> out == Done
    {
      var left := budget;
      if mode == C.Emergency {
        if left == 0 { return Crashed; }
        control, left := C.Adopt(control, mode, config), left - 1;
      }
      if left == 0 { return Crashed; }
      if local != predecessor || !moves { return Unsafe; }
      local := Some(c);
      out := Done;
    }

    /** Settles a candidate the remote shows, whoever's push put it there. */
    method SettleConfirmed(c: Commit, sc: Scene, budget: nat) returns (out: Outcome)
      requires Valid() && CandidateOf(journal) == Some(c) && state != Applied
      modifies this
      ensures Valid() && CandidateOf(journal) == old(CandidateOf(journal)) && attempts == old(attempts)
      ensures out in {Done, Crashed, StoreRefused, Untrusted, Unsafe}
      ensures out == Done <==> state == Applied
      ensures out == Done ==> local == Some(c) && control.mode == mode
      ensures out != Done ==> state == old(state) && expires == old(expires) && journal == old(journal)
      ensures local != old(local) ==> old(local) == predecessor && local == Some(c) && sc.pinned(c)
      ensures old(Stale(sc.now) && local in {predecessor, Some(c)}) && sc.pinned(c) && sc.refMoves && budget >= 3 ==> out == Done
    {
      if !sc.pinned(c) { return Untrusted; }
      var left := budget;
      if local != Some(c) {
        if local != predecessor { return Unsafe; }
        out := MoveLocal(c, sc.config, sc.refMoves, budget);
        if out != Done { return; }
        left := if budget >= 2 then budget - 2 else 0;
      }
      if left == 0 { return Crashed; }
      if !Stale(sc.now) { return StoreRefused; }
      Settle(Applied, Some(c), sc.config);
      out := Done;
    }

    /** Over an unmoved remote the job can be claimed again. */
    predicate Reclaimable(sc: Scene)
      reads this
    {
      || (state == Planned && Stale(sc.now))
      || (state in {Blocked, Uncertain} && !resolved && CandidateOf(journal).Some? && sc.pinned(CandidateOf(journal).value))
    }

    /** The remote shows the candidate, and nothing here stands in the way of adopting it. */
    predicate Adoptable(remote: Head, sc: Scene)
      reads this
    {
      && remote.Some? && remote == CandidateOf(journal) && sc.pinned(remote.value)
      && state != Applied && Stale(sc.now) && local in {predecessor, remote}
    }

    /** Re-entry with the same plan. A candidate the remote shows is settled, never replaced; over an unmoved remote a
      * blocked, uncertain or expired job becomes claimable again with the candidate it has, and a blocked one without any
      * stays blocked for good. Nothing is ever pushed here. */
    method Recover(remote: Head, sc: Scene, budget: nat) returns (out: Outcome)
      requires Valid()
      modifies this
      ensures Valid() && CandidateOf(journal) == old(CandidateOf(journal)) && attempts == old(attempts)
      ensures local != old(local) ==> old(local) == predecessor && local.Some? && remote == local == CandidateOf(journal) && sc.pinned(local.value)
      ensures out == Done ==> state == Applied && local.Some? && local == CandidateOf(journal) && (old(state) != Applied ==> local == remote && control.mode == mode)
      ensures out == Open ==> state == Planned && expires.None? && local == old(local)
      ensures out == Open ==> sc.reading == Readable || (old(state) == Planned && old(expires).None? && CandidateOf(journal).None?)
      ensures remote.None? || remote != CandidateOf(journal) ==> control == old(control) && resolved == old(resolved)
      ensures out == Open && old(state != Planned || expires.Some?) ==> remote == predecessor
      ensures old(state) == Blocked && CandidateOf(journal).None? ==> state == Blocked && out in {Mismatch, RetryLater, Untrusted}
      ensures old(Reclaimable(sc)) && remote == predecessor && sc.reading == Readable && budget >= 1 ==> out == Open
      ensures old(Adoptable(remote, sc)) && sc.reading == Readable && sc.refMoves && budget >= 3 ==> out == Done
    {
      var candidate := JournalCandidate(journal);
      assert candidate.Some? ==> candidate != predecessor by { NotItsOwnBase(predecessor, candidate); }
      if state == Applied {
        return if local == candidate then Done else Mismatch;
      }
      if candidate.Some? && sc.reading != Readable {
        return if sc.reading == Unbound then Untrusted else RetryLater;
      }
      if candidate.Some? && remote == candidate {
        out := SettleConfirmed(candidate.value, sc, budget);
        return;
      }
      if state in {Blocked, Uncertain} {
        if resolved { return Mismatch; }
        if sc.reading != Readable { return if sc.reading == Unbound then Untrusted else RetryLater; }
        if candidate.None? || remote != predecessor { return Mismatch; }
        if !sc.pinned(candidate.value) { return Untrusted; }
        if budget == 0 { return Crashed; }
        Settle(Planned, candidate, sc.config);
      } else if expires.Some? {
        if sc.now < expires.value { return Busy; }
        if sc.reading != Readable { return if sc.reading == Unbound then Untrusted else RetryLater; }
        if remote != predecessor { return Mismatch; }
        if !Stale(sc.now) { return StoreRefused; }
        if budget == 0 { return Crashed; }
        Settle(Planned, candidate, sc.config);
      }
      out := Open;
    }

    /** A refusal before any effect: the job is claimed briefly and put down as blocked, or left planned. */
    method FinishBeforeEffect(sc: Scene, retryable: bool, budget: nat) returns (out: Outcome)
      requires Valid() && state == Planned && expires.None?
      modifies this
      ensures Valid() && CandidateOf(journal) == old(CandidateOf(journal)) && local == old(local) && control == old(control)
      ensures resolved == old(resolved) && attempts <= old(attempts) + 1
      ensures out in {Crashed, StoreRefused, RetryLater, Mismatch} && (expires.Some? ==> expires.value == sc.now + BRIEF)
      ensures state == if old(Grants(control.config, sc.exclusive)) && budget >= 2 && !retryable then Blocked else Planned
    {
      if !Grants(control.config, sc.exclusive) { return StoreRefused; }
      if budget == 0 { return Crashed; }
      expires, attempts := Some(sc.now + BRIEF), attempts + 1;
      if budget == 1 { return Crashed; }
      Settle(if retryable then Planned else Blocked, None, sc.config);
      out := if retryable then RetryLater else Mismatch;
    }

    /** Nothing stands in the way of applying the plan in one run. */
    predicate Appliable(remote: Head, made: Commit, sc: Scene)
      reads this
    {
      && local == predecessor == remote && Grants(sc.config, sc.exclusive) && sc.fits && sc.reading == Readable
      && (CandidateOf(journal).None? ==> sc.signs && sc.pinned(made))
      && (CandidateOf(journal).Some? ==> sc.pinned(CandidateOf(journal).value))
      && Calm(sc.weather) && sc.refMoves && sc.late <= sc.now + sc.lease
    }

    /** Applies an open plan: check the predecessor on both sides, claim, sign a new candidate only if the journal read
      * under the claim names none, push, adopt, finish. */
    method Apply(r: Remote, made: Commit, sc: Scene, budget: nat) returns (out: Outcome)
      requires Valid() && state == Planned && expires.None? && Follows(predecessor, made)
      modifies this, r
      ensures Valid() && attempts <= old(attempts) + 1
      ensures old(CandidateOf(journal)).Some? ==> CandidateOf(journal) == old(CandidateOf(journal))
      ensures old(CandidateOf(journal)).None? ==> CandidateOf(journal) in {None, Some(made)}
      ensures CandidateOf(journal).None? ==> r.head == old(r.head)
      ensures r.head != old(r.head) ==> old(r.head) == predecessor == old(local) && sc.fits
      ensures local != old(local) ==> old(local) == predecessor && local.Some? && local == CandidateOf(journal)
      ensures out == Done <==> state == Applied
      ensures out == Done ==> local.Some? && local == CandidateOf(journal) && control.mode == mode
      ensures state != Applied ==> resolved == old(resolved) && (expires.Some? ==> expires.value <= sc.now + (if sc.lease < BRIEF then BRIEF else sc.lease))
      ensures Calm(sc.weather) ==> r.head in {old(r.head), CandidateOf(journal)}
      ensures Calm(sc.weather) && (local != old(local) || out == Done) ==> r.head == local
      ensures Calm(sc.weather) && sc.fits && old(local) == predecessor == old(r.head) ==> state != Blocked
      ensures Calm(sc.weather) && control != old(control) ==> r.head.Some? && r.head == CandidateOf(journal)
      ensures !sc.fits ==> r.head == old(r.head) && local == old(local) && control == old(control) && CandidateOf(journal) == old(CandidateOf(journal))
      ensures !sc.fits ==> state == if old(Grants(control.config, sc.exclusive)) && budget >= 2 then Blocked else Planned
      ensures old(Appliable(r.head, made, sc)) && budget >= 7 ==> out == Done
    {
      if local != predecessor || !sc.fits {
        out := FinishBeforeEffect(sc, false, budget);
        return;
      }
      if sc.reading == Unbound { return Untrusted; }
      if sc.reading == Unreadable || r.head != predecessor {
        out := FinishBeforeEffect(sc, sc.reading == Unreadable, budget);
        return;
      }
      if !Grants(sc.config, sc.exclusive) { return StoreRefused; }
      if budget == 0 { return Crashed; }
      expires, attempts := Some(sc.now + sc.lease), attempts + 1;
      var found := JournalCandidate(journal);
      if found.None? {
        if !sc.signs {
          if sc.now + sc.lease < sc.late { return StoreRefused; }
          Settle(Planned, None, sc.config);
          return Unsafe;
        }
        if budget == 1 { return Crashed; }
        AppendKeepsSingle(journal, Entry(Some(made)));
        NotItsOwnBase(predecessor, Some(made));
        journal, found := journal + [Entry(Some(made))], Some(made);
      }
      out := PushAndAdopt(r, found.value, sc, budget - 1);
    }

    /** The second half of an apply, for a journaled candidate under this run's claim. A job it leaves planned or blocked
      * without a claim has changed nothing on the remote. */
    method PushAndAdopt(r: Remote, c: Commit, sc: Scene, budget: nat) returns (out: Outcome)
      requires Valid() && state == Planned && CandidateOf(journal) == Some(c) && expires == Some(sc.now + sc.lease)
      requires local == predecessor == r.head
      modifies this`state, this`journal, this`expires, this`resolved, this`control, this`local, r
      ensures Valid() && CandidateOf(journal) == Some(c)
      ensures local in {old(local), Some(c)}
      ensures out == Done <==> state == Applied
      ensures out == Done ==> local == Some(c) && control.mode == mode
      ensures state != Applied ==> resolved == old(resolved) && (expires.Some? ==> expires == Some(sc.now + sc.lease))
      ensures Calm(sc.weather) ==> r.head in {old(r.head), Some(c)} && state != Blocked
      ensures Calm(sc.weather) && (local != old(local) || out == Done || control != old(control)) ==> r.head == Some(c)
      ensures expires.None? && state in {Planned, Blocked} && sc.pinned(c) ==> !Landed(old(r.head), c, predecessor, sc.weather)
      ensures sc.pinned(c) && Calm(sc.weather) && sc.refMoves && sc.late <= sc.now + sc.lease && budget >= 5 ==> out == Done
    {
      NotItsOwnBase(predecessor, Some(c));
      var owned := sc.late <= sc.now + sc.lease;
      if !sc.pinned(c) {
        if !owned { return StoreRefused; }
        Settle(Planned, None, sc.config);
        return Untrusted;
      }
      if budget == 0 { return Crashed; }
      if Calm(sc.weather) { CalmPushIsConfirmed(predecessor, c, sc.weather); }
      var d := PushAndClassify(r, c, predecessor, sc.weather);
      if d == Confirmed {
        out := MoveLocal(c, sc.config, sc.refMoves, budget - 1);
        if out == Crashed { return; }
        if out == Done && budget <= 3 { return Crashed; }
        if !owned { return StoreRefused; }
        Settle(if out == Done then Applied else Uncertain, Some(c), sc.config);
        return;
      }
      if !owned { return StoreRefused; }
      Settle(if d == Conflict then Blocked else if d == Unknown then Uncertain else Planned, Some(c), sc.config);
      out := match d
        case Unknown => EffectUnknown
        case TrustFailure => Untrusted
        case Conflict => Mismatch
        case _ => RetryLater;
    }
  }

  /** A first run that finds the plan out of date puts it down as blocked, without a candidate. */
  predicate Misfits(sc: Scene, steps: nat) {
    !sc.fits && sc.exclusive && steps >= 2
  }

  /** Crash safety of a membership apply, end to end: a run dies or fails after any number of steps while nobody else
    * writes the remote; a later run, which finds everything in order, re-enters the same plan and brings another candidate
    * it would sign. If the first run journaled one, that one is adopted and the other is never used; otherwise the new one
    * is. The local ref, the remote and the posture end as the plan says, and an emergency leaves nothing active. This
    * holds for every first run but one that found the plan out of date: its plan stays blocked and without effect. */
  method ApplyCrashReapply(p: Plan, r: Remote, first: Commit, second: Commit, dead: Scene, steps: nat, later: Scene)
    returns (applied: Option<Commit>)
    requires p.Valid() && p.state == Planned && p.expires.None? && p.local == p.predecessor == r.head
    requires CandidateOf(p.journal).None? && Follows(p.predecessor, first) && Follows(p.predecessor, second)
    requires Calm(dead.weather) && Calm(later.weather)
    requires dead.now + dead.lease < later.now && dead.now + BRIEF < later.now <= later.late <= later.now + later.lease
    requires p.Grants(later.config, later.exclusive) && p.attempts + 1 < MAX_ATTEMPTS
    requires later.reading == Readable && later.fits && later.signs && later.refMoves && later.pinned(first) && later.pinned(second)
    modifies p, r
    ensures p.Valid() && (applied.None? <==> Misfits(dead, steps))
    ensures applied.Some? ==> p.state == Applied && applied in {Some(first), Some(second)}
    ensures applied.Some? ==> p.local == applied == r.head && CandidateOf(p.journal) == applied
    ensures applied.Some? ==> p.control.mode == p.mode && (p.mode == C.Emergency ==> p.control.state != C.Active)
    ensures applied.None? ==> p.state == Blocked && CandidateOf(p.journal).None?
    ensures applied.None? ==> p.local == r.head == p.predecessor && p.control == old(p.control)
  {
    var out := p.Apply(r, first, dead, steps);
    applied := p.local;
    if p.state != Applied {
      NotItsOwnBase(p.predecessor, CandidateOf(p.journal));
      if r.head.Some? && r.head == CandidateOf(p.journal) {
        out := p.Recover(r.head, later, 3);
      } else {
        assert p.local == p.predecessor == r.head && p.Grants(later.config, later.exclusive);
        out := p.Recover(r.head, later, 3);
        if out != Open { return None; }
        out := p.Apply(r, second, later, 7);
      }
      applied := p.local;
    }
  }
}
