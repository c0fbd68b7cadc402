/** An import that adds controller records and no content, applied and recovered after an interruption anywhere. */
module ControllerImport {
  import opened Commits
  import opened Checkouts
  import I = ImportMachine
  import C = Control

  datatype Outcome =
    | Passed          // nothing to finish for this job in this run
    | ClaimLive | StoreRefused | Crashed | Waiting
    | PartialEffect   // held for recovery
    | Finished

  /** The closed digest of the checked-out state: ref, index and what is dirty. */
  datatype Digest = Digest(ref: Commit, index: map<Path, Blob>, dirty: set<Path>)

  function DigestOf(v: View): Digest {
    Digest(v.ref, v.index, DirtyPaths(v))
  }

  /** What a run finds around the job, and the instants it works at. */
  datatype Scene = Scene(
    planMatches: bool, covers: bool, acknowledged: bool, idle: bool, fencesHold: bool, operation: bool, indexFree: bool,
    config: string, now: int, late: int, lease: int)

  const MAX_ATTEMPTS := 20

  predicate Strong(c: C.Row) {
    c.state == C.Blocked && C.SafetyHold(c.reason)
  }

  class Site {
    var job: I.JobState
    var expires: Option<int>    // the claim, by its expiry
    var attempts: nat
    var control: C.Row
    const checkout: Checkout
    const advance: Advance
    const expected: Digest

    constructor (checkout: Checkout, advance: Advance, control: C.Row)
      requires advance.files == map[] && advance.deletions == {} && advance.from != advance.target && C.Coherent(control)
      ensures Valid() && job == I.Validated && expires == None && attempts == 0 && this.control == control
      ensures this.checkout == checkout && this.advance == advance && expected == DigestOf(checkout.Now())
    {
      this.checkout, this.advance, this.control := checkout, advance, control;
      expected := DigestOf(checkout.Now());
      job, expires, attempts := I.Validated, None, 0;
    }

    ghost predicate Valid()
      reads this
    {
      && advance.files == map[] && advance.deletions == {} && advance.from != advance.target && C.Coherent(control)
      && (job == I.Applying ==> expires.Some?) && (job in {I.Uncertain, I.Applied, I.Deferred} ==> expires.None?)
    }

    predicate Stale(now: int)
      reads this
    {
      expires.None? || expires.value < now
    }

    predicate Held()
      reads this
    {
      control.state == C.Blocked && C.Priority(control.reason) >= C.Priority(C.RecoveryHold)
    }

    /** The ref is at the target and no controller path is dirty. */
    predicate AtTarget()
      reads this, checkout
    {
      checkout.ref == advance.target && ControllersClean(checkout.Now())
    }

    /** The state the plan was made from. */
    predicate Untouched()
      reads this, checkout
    {
      checkout.ref == advance.from && ControllersClean(checkout.Now()) && DigestOf(checkout.Now()) == expected
    }

    /** The trace of an interrupted advance. */
    predicate Interrupted()
      reads this, checkout
    {
      checkout.ref == advance.from && !ControllersClean(checkout.Now()) && MayAdvance(checkout.Now(), advance)
    }

    predicate MayClaim(config: string)
      reads this
    {
      (control.state == C.Active || Strong(control)) && control.config == config && attempts < MAX_ATTEMPTS
    }

    method HoldForRecovery(config: string)
      requires Valid()
      modifies this`control
      ensures Valid() && Held() && control.config == config
    {
      control := C.Hold(control, C.RecoveryHold, config);
    }

    /** Ends an owned attempt in uncertainty and holds the group. */
    method GiveUp(sc: Scene) returns (out: Outcome)
      requires Valid() && job == I.Applying && expires.Some?
      modifies this`job, this`expires, this`control
      ensures Valid() && out == if old(expires).value < sc.late then StoreRefused else PartialEffect
      ensures out == PartialEffect ==> job == I.Uncertain && expires.None? && Held() && control.config == sc.config
      ensures out == StoreRefused ==> job == old(job) && expires == old(expires) && control == old(control)
    {
      if expires.value < sc.late { return StoreRefused; }
      job, expires := I.Uncertain, None;
      HoldForRecovery(sc.config);
      out := PartialEffect;
    }

    /** The disposition of an owned attempt that met an error: what the checkout proves. */
    method FinishController(sc: Scene) returns (out: Outcome)
      requires Valid() && job == I.Applying && expires.Some?
      modifies this`job, this`expires, this`control
      ensures Valid() && out in {Finished, Passed, PartialEffect, StoreRefused}
      ensures out == Finished ==> AtTarget() && job == I.Applied
      ensures out == Passed ==> Untouched() && job == I.Validated && expires.None?
      ensures out == PartialEffect ==> job == I.Uncertain && Held() && control.config == sc.config
      ensures out != PartialEffect ==> control == old(control)
      ensures out == StoreRefused ==> job == old(job) && expires == old(expires)
      ensures sc.late <= old(expires).value ==>
        out == if !sc.operation && AtTarget() then Finished else if !sc.operation && Untouched() then Passed else PartialEffect
    {
      if expires.value < sc.late { return StoreRefused; }
      if !sc.operation && AtTarget() {
        job, expires := I.Applied, None;
        return Finished;
      }
      if !sc.operation && Untouched() {
        job, expires := I.Validated, None;
        return Passed;
      }
      out := GiveUp(sc);
    }

    /** The durable start of an attempt, the advance, and its end; `first` is an attempt of a new plan, whose fences are
      * read again under its claim. */
    method Attempt(sc: Scene, first: bool, budget: nat) returns (out: Outcome)
      requires Valid() && job in {I.Validated, I.Recovering} && expires.None? && sc.lease >= 0
      modifies this`job, this`expires, this`attempts, this`control, checkout
      ensures Valid() && out in {Finished, Passed, PartialEffect, StoreRefused, Crashed, Waiting}
      ensures Progress(old(checkout.Now()), checkout.Now(), advance)
      ensures job !in {I.Applying, I.Applied} && out != PartialEffect ==> checkout.Now() == old(checkout.Now())
      ensures job == I.Applying ==> expires == Some(sc.now + sc.lease)
      ensures (out == Finished <==> job == I.Applied) && (job == I.Applied ==> AtTarget())
      ensures out == Passed ==> first && job == I.Validated && expires.None? && Untouched()
      ensures out == Waiting ==> first && job == I.Deferred
      ensures out == PartialEffect ==> job == I.Uncertain && Held() && control.config == sc.config
      ensures out != PartialEffect ==> control == old(control)
      ensures job in {I.Validated, I.Recovering} ==> job == old(job) || out == Passed
      ensures expires in {None, Some(sc.now + sc.lease)} && attempts <= old(attempts) + 1
      ensures old(MayClaim(sc.config)) && sc.late <= sc.now + sc.lease && !sc.operation && sc.indexFree
              && (first ==> sc.fencesHold && old(DigestOf(checkout.Now())) == expected)
              && old(checkout.ref) == advance.from && old(MayAdvance(checkout.Now(), advance)) && budget >= |Controllers(advance)| + 5
              ==> out == Finished
    {
      if budget == 0 { return Crashed; }
      if !MayClaim(sc.config) { return StoreRefused; }
      expires, attempts := Some(sc.now + sc.lease), attempts + 1;
      if budget == 1 { return Crashed; }
      if sc.now + sc.lease < sc.late { return StoreRefused; }
      if first && (!sc.fencesHold || DigestOf(checkout.Now()) != expected) {
        if job != I.Validated { return StoreRefused; }
        job, expires := I.Deferred, None;
        return Waiting;
      }
      job := I.Applying;
      if budget == 2 { return Crashed; }
      ghost var before := checkout.Now();
      var ok, died := checkout.ApplyImportIndex(advance, sc.operation, sc.indexFree, budget - 3);
      if died { return Crashed; }
      if ok {
        AdvancedIsClean(before, checkout.Now(), advance);
      }
      if ok && ControllersClean(checkout.Now()) {
        job, expires := I.Applied, None;
        return Finished;
      }
      if first {
        out := FinishController(sc);
      } else {
        out := GiveUp(sc);
      }
    }

    /** The gates and the durable preparation before an interrupted advance is resumed. */
    method Reopen(sc: Scene) returns (out: Outcome)
      requires Valid() && job in {I.Applying, I.Recovering, I.Uncertain}
      modifies this`job, this`expires
      ensures Valid() && out in {Waiting, StoreRefused, Finished}
      ensures out != Finished ==> job == old(job) && expires == old(expires)
      ensures out == Finished ==> job == I.Recovering && expires.None?
      ensures control.state != C.Paused && sc.acknowledged && control.config == sc.config && sc.idle && old(Stale(sc.now)) ==> out == Finished
    {
      if control.state == C.Paused || !sc.acknowledged || control.config != sc.config || !sc.idle { return Waiting; }
      if !Stale(sc.now) { return StoreRefused; }
      job, expires := I.Recovering, None;
      out := Finished;
    }

    /** Settles a plan by what the checkout shows: at the target it is done, untouched it is validated again or retired,
      * and anything else is uncertain and holds the group. */
    method SettleByState(sc: Scene) returns (out: Outcome)
      requires Valid() && job in {I.Applying, I.Recovering, I.Uncertain}
      modifies this`job, this`expires, this`control
      ensures Valid() && out in {Finished, Passed, PartialEffect, StoreRefused}
      ensures out == Finished ==> AtTarget() && job == I.Applied
      ensures out == Passed ==> Untouched() && job == (if sc.covers && !sc.planMatches then I.Deferred else I.Validated) && expires.None?
      ensures out == PartialEffect ==> job == I.Uncertain && Held() && (sc.operation || (!AtTarget() && !Untouched()))
      ensures out == StoreRefused ==> job == old(job) && expires == old(expires)
      ensures out != PartialEffect ==> control == old(control)
      ensures old(Stale(sc.now)) && !sc.operation ==> out == if AtTarget() then Finished else if Untouched() then Passed else PartialEffect
    {
      if !sc.operation && AtTarget() {
        if !Stale(sc.now) { return StoreRefused; }
        job, expires := I.Applied, None;
        return Finished;
      }
      if !sc.operation && Untouched() {
        if !Stale(sc.now) { return StoreRefused; }
        job, expires := if sc.covers && !sc.planMatches then I.Deferred else I.Validated, None;
        return Passed;
      }
      if job != I.Uncertain {
        if !Stale(sc.now) { return StoreRefused; }
        job, expires := I.Uncertain, None;
      }
      HoldForRecovery(sc.config);
      out := PartialEffect;
    }

    /** Nothing stands in the way of one undisturbed recovery. */
    predicate Repairable(sc: Scene)
      reads this
    {
      && (sc.planMatches || sc.covers) && control.state != C.Paused && sc.acknowledged && sc.idle && !sc.operation && sc.indexFree
      && Stale(sc.now) && MayClaim(sc.config) && sc.late <= sc.now + sc.lease
    }

    /** Resumes the trace of this very advance. */
    method Resume(sc: Scene, budget: nat) returns (out: Outcome)
      requires Valid() && job in {I.Applying, I.Recovering, I.Uncertain} && sc.lease >= 0
      requires checkout.ref == advance.from && MayAdvance(checkout.Now(), advance)
      modifies this`job, this`expires, this`attempts, this`control, checkout
      ensures Valid() && out !in {Passed, ClaimLive}
      ensures Progress(old(checkout.Now()), checkout.Now(), advance)
      ensures out == Finished ==> job == I.Applied && AtTarget()
      ensures out == PartialEffect ==> Held() && job == I.Uncertain
      ensures out == Waiting ==> checkout.Now() == old(checkout.Now()) && job == old(job)
      ensures old(Repairable(sc)) && budget >= |Controllers(advance)| + 6 ==> out == Finished
    {
      out := Reopen(sc);
      if out != Finished { return; }
      if budget == 0 { return Crashed; }
      out := Attempt(sc, false, budget - 1);
    }

    /** Recovery of an interrupted controller-only import. It touches the checkout only to resume the trace of this very
      * advance; it ends the job by what the checkout shows; and a state that it cannot explain is left alone, held. */
    method Recover(sc: Scene, budget: nat) returns (out: Outcome)
      requires Valid() && job in {I.Applying, I.Recovering, I.Uncertain} && sc.lease >= 0
      modifies this`job, this`expires, this`attempts, this`control, checkout
      ensures Valid()
      ensures Progress(old(checkout.Now()), checkout.Now(), advance)
      ensures !old(Interrupted()) ==> checkout.Now() == old(checkout.Now())
      ensures out == Finished ==> job == I.Applied && AtTarget()
      ensures out == Passed ==> Untouched() && job in {I.Validated, I.Deferred}
      ensures out == PartialEffect ==> Held() && job in {I.Uncertain, old(job)}
      ensures out in {ClaimLive, Waiting} ==> checkout.Now() == old(checkout.Now()) && job == old(job)
      ensures !sc.operation && old(Stale(sc.now) && !Interrupted() && !AtTarget() && !Untouched()) && budget >= 1 ==>
        out == PartialEffect && Held()
      ensures old(Repairable(sc)) && budget >= |Controllers(advance)| + 6 ==>
        out == if old(Interrupted() || AtTarget()) then Finished else if old(Untouched()) then Passed else PartialEffect
    {
      if expires.Some? && sc.now < expires.value { return ClaimLive; }
      if !sc.planMatches && !sc.covers {
        HoldForRecovery(sc.config);
        return PartialEffect;
      }
      if !sc.operation && Interrupted() {
        out := Resume(sc, budget);
        return;
      }
      if budget == 0 { return Crashed; }
      out := SettleByState(sc);
    }
  }

  /** What an advance of records alone leaves of a clean checkout: nothing, a dirty trace at the old ref, or the target. */
  lemma Trace(v: View, w: View, a: Advance)
    requires a.files == map[] && a.deletions == {} && a.from != a.target
    requires MayAdvance(w, a) && Progress(v, w, a) && v.ref == a.from && ControllersClean(v)
    ensures w == v || (w.ref == a.from && !ControllersClean(w)) || (w.ref == a.target && ControllersClean(w))
  {
    if w.ref == a.target {
      ResumedIsComplete(v, w, a);
    } else if ControllersClean(w) {
      forall p | p in Controllers(a) ensures At(w.index, p) == None && At(w.work, p) == None {
        assert !Dirty(w, p);
      }
      SameFiles(v.work, w.work);
      forall p ensures At(w.index, p) == At(v.index, p) { StagedAt(a, v.index, p); }
      SameFiles(v.index, w.index);
    }
  }

  lemma SameFiles(t: map<Path, Blob>, u: map<Path, Blob>)
    requires forall p :: At(u, p) == At(t, p)
    ensures t == u
  {
    assert forall p :: p in t <==> At(t, p).Some?;
    assert forall p :: p in u <==> At(u, p).Some?;
    forall p | p in t ensures p in u && u[p] == t[p] {
      assert At(u, p) == At(t, p);
    }
  }

  /** The first run, seen by the next one: the job is open only over one of the three states recovery can finish. */
  method ApplyThenDie(site: Site, dead: Scene, steps: nat)
    requires site.Valid() && site.job == I.Validated && site.expires.None? && site.Untouched() && MayAdvance(site.checkout.Now(), site.advance)
    requires 0 <= dead.lease && site.control.state == C.Active && site.control.config == dead.config
    modifies site`job, site`expires, site`attempts, site`control, site.checkout
    ensures site.Valid() && site.job in {I.Validated, I.Applying, I.Uncertain, I.Deferred, I.Applied}
    ensures Progress(old(site.checkout.Now()), site.checkout.Now(), site.advance) && MayAdvance(site.checkout.Now(), site.advance)
    ensures site.Interrupted() || site.AtTarget() || (site.checkout.Now() == old(site.checkout.Now()) && site.Untouched())
    ensures site.job in {I.Validated, I.Deferred} ==> site.checkout.Now() == old(site.checkout.Now())
    ensures site.job == I.Applied ==> site.AtTarget()
    ensures site.expires in {None, Some(dead.now + dead.lease)} && site.attempts <= old(site.attempts) + 1
    ensures site.control.state == C.Active || Strong(site.control)
    ensures site.control.config == dead.config
  {
    ghost var before := site.checkout.Now();
    var out := site.Attempt(dead, true, steps);
    ProgressMayAdvance(before, site.checkout.Now(), site.advance);
    Trace(before, site.checkout.Now(), site.advance);
  }

  /** A controller-only import, end to end: its run dies after any number of steps with nobody else at the checkout, and
    * a later run recovers. Either nothing was ever touched, or everything is at the target and the job is applied. */
  method ApplyCrashRecover(site: Site, dead: Scene, steps: nat, later: Scene, budget: nat) returns (applied: bool)
    requires site.Valid() && site.job == I.Validated && site.expires.None? && site.Untouched() && MayAdvance(site.checkout.Now(), site.advance)
    requires 0 <= dead.lease && dead.now + dead.lease < later.now <= later.late <= later.now + later.lease
    requires site.control.state == C.Active && site.control.config == dead.config == later.config && site.attempts + 1 < MAX_ATTEMPTS
    requires later.planMatches && later.acknowledged && later.idle && !later.operation && later.indexFree
    requires budget >= |Controllers(site.advance)| + 6
    modifies site`job, site`expires, site`attempts, site`control, site.checkout
    ensures site.Valid()
    ensures applied ==> site.job == I.Applied && site.AtTarget() && IndexAtTarget(site.checkout.Now(), site.advance)
    ensures applied ==> site.checkout.index == Staged(site.advance, old(site.checkout.index))
    ensures applied ==> site.checkout.work == old(site.checkout.work) + Controllers(site.advance)
    ensures !applied ==> site.job in {I.Validated, I.Deferred} && site.checkout.Now() == old(site.checkout.Now())
  {
    ghost var before := site.checkout.Now();
    ApplyThenDie(site, dead, steps);
    ghost var here := site.checkout.Now();
    applied := site.job == I.Applied;
    if site.job in {I.Applying, I.Uncertain} {
      assert site.Repairable(later);
      var out := site.Recover(later, budget);
      applied := out == Finished;
      ProgressTransitive(before, here, site.checkout.Now(), site.advance);
    }
    ProgressMayAdvance(before, site.checkout.Now(), site.advance);
    if applied {
      ResumedIsComplete(before, site.checkout.Now(), site.advance);
    }
  }

  lemma AdvancedIsClean(v: View, w: View, a: Advance)
    requires Fits(a) && Progress(v, w, a) && w.ref == a.target && Materialized(w, a)
    requires MayAdvance(w, a)
    ensures v.ref == a.from != a.target ==> ControllersClean(w)
  {
    if v.ref == a.from != a.target {
      ResumedIsComplete(v, w, a);
    }
  }
}
