/** Recovery of one interrupted import: from its measured effects to its exact target, or to a recovery hold. */
module ImportRecovery {
  import opened Commits
  import opened ImportEffects
  import opened Strings
  import I = ImportMachine
  import C = Control

  datatype Outcome =
    | Passed          // nothing to finish for this job in this run
    | ClaimLive | StoreRefused | Crashed | Waiting
    | PartialEffect   // held for recovery
    | Recovered

  /** What a recovery run finds around the job: how the plan relates to the remote, the local gates, what others edit
    * between the inspection and the writes and after the writes, and the instants it works at. */
  datatype Scene = Scene(
    planMatches: bool, checkpoint: bool, covers: bool, management: bool, digestSame: bool,
    acknowledged: bool, idle: bool, stableGit: bool, bytesMatch: bool, fencesHold: bool, indexOk: bool,
    config: string, now: int, late: int, lease: int, edits: seq<(string, Option<File>)>, lateEdits: seq<(string, Option<File>)>)

  const MAX_ATTEMPTS := 20

  /** An applying job is claimed until it is settled; an uncertain or finished one is not. */
  predicate ClaimFits(job: I.JobState, expires: Option<int>) {
    && (job == I.Applying ==> expires.Some?)
    && (job in {I.Uncertain, I.Applied, I.Deferred} ==> expires.None?)
  }

  /** A plan names no path twice. */
  lemma PathsDiffer(plan: seq<Effect>, writes: Files, i: nat, j: nat)
    requires WellPlanned(plan, writes) && i < j < |plan|
    ensures plan[i].path != plan[j].path
  {
    BeforeTrichotomy(plan[i].path, plan[j].path);
  }

  ghost function Edited(t: Files, edits: seq<(string, Option<File>)>): Files
    decreases |edits|
  {
    if edits == [] then t
    else
      var before, last := Edited(t, edits[..|edits| - 1]), edits[|edits| - 1];
      if last.1.Some? then before[last.0 := last.1.value] else before - {last.0}
  }

  class ImportSite {
    var job: I.JobState
    var expires: Option<int>    // the claim, by its expiry
    var attempts: nat
    var index: Files            // the staged content
    var ref: Commit
    var control: C.Row
    const tree: Worktree
    const plan: seq<Effect>
    const writes: Files
    const source: Commit
    const target: Commit
    const plannedIndex: Files   // the index the plan was made from, which its digest covers

    /** The site of a plan that was just made. */
    constructor (index: Files, ref: Commit, control: C.Row, tree: Worktree, plan: seq<Effect>, writes: Files, target: Commit)
      requires WellPlanned(plan, writes) && plan != [] && ref != target && C.Coherent(control)
      ensures Valid() && job == I.Validated && expires.None? && this.tree == tree && this.plan == plan && this.control == control
      ensures source == this.ref == ref && this.target == target && this.index == plannedIndex == index
    {
      this.index, this.ref, this.control, job, expires, attempts := index, ref, control, I.Validated, None, 0;
      this.tree, this.plan, this.writes, source, this.target, plannedIndex := tree, plan, writes, ref, target, index;
    }

    ghost predicate Valid()
      reads this
    {
      WellPlanned(plan, writes) && plan != [] && source != target && C.Coherent(control) && ClaimFits(job, expires)
    }

    /** Every planned path is staged with its before or its after value. */
    predicate IndexFits()
      reads this
    {
      forall e :: e in plan ==> At(index, e.path) in {e.before, e.after}
    }

    /** Stages the plan in a private copy of the index. */
    method Stage() returns (staged: Files)
      requires Valid()
      ensures LeadsTo(index, plan, staged)
    {
      staged := index;
      var i := 0;
      while i < |plan|
        invariant 0 <= i <= |plan|
        invariant forall p :: !Covers(plan, p) ==> At(staged, p) == At(index, p)
        invariant forall k :: 0 <= k < i ==> At(staged, plan[k].path) == plan[k].after
      {
        var e := plan[i];
        forall k | 0 <= k < i ensures plan[k].path != e.path {
          PathsDiffer(plan, writes, k, i);
        }
        staged := if e.after.None? then staged - {e.path} else staged[e.path := e.after.value];
        i := i + 1;
      }
    }

    /** Brings index and ref to the target, the index first; each costs a step. A planned path that is staged with
      * anything else refuses it, and a ref at the target already ends it before the index is installed. */
    method AdvanceIndex(ok: bool, budget: nat) returns (done: bool, left: nat)
      requires Valid() && ref in {source, target}
      modifies this`index, this`ref
      ensures Valid() && left <= budget
      ensures index == old(index) || LeadsTo(old(index), plan, index)
      ensures ref in {old(ref), target} && (ref != old(ref) ==> done && LeadsTo(old(index), plan, index))
      ensures done ==> ref == target && (if old(ref) == source then LeadsTo(old(index), plan, index) else index == old(index))
      ensures !done && left > 0 ==> index == old(index) && ref == old(ref)
      ensures !ok || !old(IndexFits()) ==> !done && index == old(index) && ref == old(ref) && left == budget
      ensures ok && old(IndexFits()) && budget >= 2 ==> done && left + 2 >= budget
    {
      if !ok || !IndexFits() { return false, budget; }
      if ref == target { return true, budget; }
      if budget == 0 { return false, 0; }
      index := Stage();
      if budget == 1 { return false, 0; }
      ref := target;
      done, left := true, budget - 2;
    }

    /** Every planned path holds its before or its after value, and the ref is at the plan's source or target. */
    ghost predicate Explained()
      reads this, tree
    {
      (forall e :: e in plan ==> At(tree.files, e.path) in {e.before, e.after}) && ref in {source, target}
    }

    /** Nothing of the plan is applied. */
    ghost predicate NoneApplied()
      reads this, tree
    {
      ref == source && index == plannedIndex && forall e :: e in plan ==> At(tree.files, e.path) == e.before
    }

    predicate Stale(now: int)
      reads this
    {
      expires.None? || expires.value < now
    }

    method HoldForRecovery(config: string)
      requires Valid()
      modifies this`control
      ensures Valid() && Held()
    {
      control := C.Hold(control, C.RecoveryHold, config);
    }

    /** The group is blocked for a reason at least as strong as required recovery. */
    predicate Held()
      reads this
    {
      control.state == C.Blocked && C.Priority(control.reason) >= C.Priority(C.RecoveryHold)
    }

    /** Ends an owned attempt in uncertainty and holds the group. */
    method GiveUp(sc: Scene) returns (out: Outcome)
      requires Valid() && job in {I.Validated, I.Applying, I.Recovering, I.Uncertain} && expires.Some?
      modifies this`job, this`expires, this`control
      ensures Valid() && out == if old(expires).value < sc.late then StoreRefused else PartialEffect
      ensures out == PartialEffect ==> job == I.Uncertain && expires.None? && Held()
      ensures out == StoreRefused ==> job == old(job) && expires == old(expires) && control == old(control)
    {
      if expires.value < sc.late { return StoreRefused; }
      job, expires := I.Uncertain, None;
      HoldForRecovery(sc.config);
      out := PartialEffect;
    }
  }

  /** Measures a path-carrying job that is applying, recovering or uncertain, or a validated one that is resumed, and
    * prepares it: unexplained effects hold the group, a plan of which nothing was applied becomes validated again or is
    * retired, and anything in between becomes claimable for recovery. */
  method Prepare(site: ImportSite, sc: Scene, resumed: bool) returns (out: Outcome, resume: bool)
    requires site.Valid() && site.job in {I.Validated, I.Applying, I.Recovering, I.Uncertain}
    requires site.job == I.Validated ==> resumed && site.expires.None?
    modifies site`job, site`expires, site`control
    ensures site.Valid() && out in {Passed, PartialEffect, StoreRefused, Recovered}
    ensures out == Recovered ==> site.Explained() && site.expires.None? && site.job in {I.Validated, I.Recovering}
    ensures out == Recovered ==> site.control == old(site.control)
    ensures out == PartialEffect ==> site.Held()
    ensures !site.Explained() ==> out in {PartialEffect, StoreRefused}
    ensures !site.Explained() && old(site.Stale(sc.now)) ==> out == PartialEffect
    ensures site.Explained() && !site.NoneApplied() && old(site.Stale(sc.now)) ==> out == Recovered && resume == resumed
    ensures out == Passed ==> site.NoneApplied() && site.expires.None? && site.job in {I.Validated, I.Recovering, I.Deferred}
    ensures site.NoneApplied() && sc.digestSame && old(site.Stale(sc.now)) ==>
      if sc.management && sc.planMatches then out == Recovered && resume else out == Passed
    ensures out == Passed && old(site.job) != I.Validated ==> (site.job == I.Deferred <==> sc.covers && !sc.planMatches)
  {
    resume := resumed;
    var state := site.tree.Inspect(site.plan);
    if site.ref !in {site.source, site.target} {
      state := Unexpected;
    }
    if state == Unexpected {
      if site.expires.Some? {
        if !(site.job in {I.Applying, I.Recovering} && site.expires.value < sc.now) { return StoreRefused, resume; }
        site.job, site.expires := I.Uncertain, None;
      }
      site.HoldForRecovery(sc.config);
      return PartialEffect, resume;
    }
    if state == AllBefore && site.ref == site.source && sc.digestSame && site.index == site.plannedIndex {
      if sc.covers && !sc.planMatches && site.job != I.Validated {
        if !site.Stale(sc.now) { return StoreRefused, resume; }
        site.job, site.expires := I.Deferred, None;
      } else if site.job == I.Uncertain {
        site.job := I.Validated;
      } else if site.expires.Some? {
        if !(site.job in {I.Applying, I.Recovering} && site.expires.value < sc.now) { return StoreRefused, resume; }
        site.job, site.expires := I.Validated, None;
      }
      if !sc.management || !sc.planMatches {
        return Passed, resume;
      }
      resume := true;
    }
    if site.job == I.Uncertain {
      site.job := I.Recovering;
    } else if site.expires.Some? {
      if !(site.job in {I.Applying, I.Recovering} && site.expires.value < sc.now) { return StoreRefused, resume; }
      site.job, site.expires := I.Recovering, None;
    }
    out := if site.job in {I.Validated, I.Recovering} then Recovered else StoreRefused;
  }

  /** The claim is granted: the group is active, or it is held and a verified checkpoint covers the repair. */
  predicate MayClaim(control: C.Row, attempts: nat, sc: Scene) {
    && (control.state == C.Active || (sc.checkpoint && control.state == C.Blocked && C.SafetyHold(control.reason)))
    && control.config == sc.config && attempts < MAX_ATTEMPTS
  }

  /** Others edit the tree while the recovery works. */
  method Interfere(tree: Worktree, edits: seq<(string, Option<File>)>)
    modifies tree
    ensures tree.files == Edited(old(tree.files), edits)
  {
    var i := 0;
    assert edits[..0] == [];
    while i < |edits|
      invariant 0 <= i <= |edits|
      invariant tree.files == Edited(old(tree.files), edits[..i])
    {
      assert edits[..i + 1][..i] == edits[..i];
      tree.Edit(edits[i].0, edits[i].1);
      i := i + 1;
    }
    assert edits[..|edits|] == edits;
  }

  /** `applied` is `t` with some planned paths moved from their before to their after value, and nothing else. */
  ghost predicate PartlyApplied(t: Files, plan: seq<Effect>, applied: Files) {
    && (forall p :: !Covers(plan, p) ==> At(applied, p) == At(t, p))
    && (forall e :: e in plan && At(applied, e.path) != At(t, e.path) ==> At(t, e.path) == e.before && At(applied, e.path) == e.after)
  }

  /** The index is as it was, or follows the plan; and the ref is at the target only over an index that follows it. */
  ghost predicate IndexFollows(site: ImportSite, index: Files, ref: Commit)
    reads site
  {
    && (site.index == index || LeadsTo(index, site.plan, site.index))
    && site.ref in {ref, site.target} && (site.ref != ref ==> LeadsTo(index, site.plan, site.index))
  }

  /** The effects of an attempt that has begun, and its durable end. */
  method Carry(site: ImportSite, sc: Scene, budget: nat) returns (out: Outcome, ghost applied: Files)
    requires site.Valid() && site.ref in {site.source, site.target} && site.job == I.Applying && site.expires.Some?
    modifies site`job, site`expires, site`control, site`index, site`ref, site.tree
    ensures site.Valid() && out in {StoreRefused, Crashed, PartialEffect, Recovered} && site.job in {I.Applying, I.Uncertain, I.Applied}
    ensures out == PartialEffect ==> site.Held()
    ensures IndexFollows(site, old(site.index), old(site.ref))
    ensures out == Recovered && old(site.ref) == site.target ==> site.index == old(site.index)
    ensures PartlyApplied(Edited(old(site.tree.files), sc.edits), site.plan, applied)
    ensures site.tree.files in {applied, Edited(applied, sc.lateEdits)}
    ensures out == Recovered ==> site.job == I.Applied && site.ref == site.target && site.tree.files == Edited(applied, sc.lateEdits)
    ensures out == Recovered ==> LeadsTo(Edited(old(site.tree.files), sc.edits), site.plan, applied)
    ensures out == Recovered ==> forall e :: e in site.plan ==> At(site.tree.files, e.path) == e.after
    ensures sc.indexOk && sc.edits == [] && sc.lateEdits == [] && budget >= |site.plan| + 3 ==>
      old(site.Explained() && site.IndexFits()) ==> out == Recovered
  {
    Interfere(site.tree, sc.edits);
    var done, left := site.tree.Apply(site.plan, site.writes, budget);
    applied := site.tree.files;
    if !done {
      if left == 0 { return Crashed, applied; }
      out := site.GiveUp(sc);
      return;
    }
    done, left := site.AdvanceIndex(sc.indexOk, left);
    if !done {
      if left == 0 { return Crashed, applied; }
      out := site.GiveUp(sc);
      return;
    }
    Interfere(site.tree, sc.lateEdits);
    var state := site.tree.Inspect(site.plan);
    if state != AllAfter {
      out := site.GiveUp(sc);
      return;
    }
    if left == 0 { return Crashed, applied; }
    site.job, site.expires := I.Applied, None;
    out := Recovered;
  }

  /** Claims the prepared job and applies its plan: paths, then index and ref, then the durable end. `applied` is the
    * tree as the writes of this run leave it. */
  method Execute(site: ImportSite, sc: Scene, resume: bool, budget: nat) returns (out: Outcome, ghost applied: Files)
    requires site.Valid() && site.Explained() && site.expires.None? && site.job in {I.Validated, I.Recovering} && sc.lease >= 0
    modifies site`job, site`expires, site`attempts, site`control, site`index, site`ref, site.tree
    ensures site.Valid() && out in {Waiting, StoreRefused, Crashed, PartialEffect, Recovered}
    ensures out == PartialEffect ==> site.Held()
    ensures out == Waiting ==> site.tree.files == old(site.tree.files) && site.job in {old(site.job), I.Deferred}
    ensures site.job !in {I.Applying, I.Uncertain, I.Applied} ==>
      site.tree.files == old(site.tree.files) && site.ref == old(site.ref) && site.index == old(site.index)
    ensures IndexFollows(site, old(site.index), old(site.ref))
    ensures out == Recovered && old(site.ref) == site.target ==> site.index == old(site.index)
    ensures site.tree.files == old(site.tree.files) || PartlyApplied(Edited(old(site.tree.files), sc.edits), site.plan, applied)
    ensures site.tree.files in {old(site.tree.files), applied, Edited(applied, sc.lateEdits)}
    ensures out == Recovered ==> site.job == I.Applied && site.ref == site.target
    ensures out == Recovered ==> LeadsTo(Edited(old(site.tree.files), sc.edits), site.plan, applied)
    ensures out == Recovered ==> site.tree.files == Edited(applied, sc.lateEdits)
    ensures out == Recovered ==> forall e :: e in site.plan ==> At(site.tree.files, e.path) == e.after
    ensures sc.acknowledged && sc.idle && sc.stableGit && sc.bytesMatch && sc.fencesHold && sc.indexOk && sc.edits == [] && sc.lateEdits == []
            && old(MayClaim(site.control, site.attempts, sc) && site.IndexFits()) && sc.late <= sc.now + sc.lease && budget >= |site.plan| + 5
            ==> out == Recovered
  {
    applied := site.tree.files;
    if !sc.acknowledged || !sc.idle || !sc.stableGit { return Waiting, applied; }
    if budget < 2 { return Crashed, applied; }
    if !MayClaim(site.control, site.attempts, sc) { return StoreRefused, applied; }
    site.expires, site.attempts := Some(sc.now + sc.lease), site.attempts + 1;
    if !sc.bytesMatch {
      out := site.GiveUp(sc);
      return;
    }
    if resume && !sc.fencesHold {
      if site.job != I.Validated || sc.now + sc.lease < sc.late { return StoreRefused, applied; }
      site.job, site.expires := I.Deferred, None;
      return Waiting, applied;
    }
    if sc.now + sc.lease < sc.late { return StoreRefused, applied; }
    site.job := I.Applying;
    out, applied := Carry(site, sc, budget - 2);
  }

  /** Recovery of an interrupted import. It writes a path only if its measurement explained every planned path and the
    * ref, and even then only over the value the plan expects there; from any explained partial state, undisturbed, it
    * reaches the exact target; an unexplained state is left as it is, under a hold. */
  method RecoverImport(site: ImportSite, sc: Scene, budget: nat) returns (out: Outcome, ghost applied: Files)
    requires site.Valid() && site.job in {I.Applying, I.Recovering, I.Uncertain} && sc.lease >= 0
    modifies site`job, site`expires, site`attempts, site`control, site`index, site`ref, site.tree
    ensures site.Valid()
    ensures !old(site.Explained()) ==> site.tree.files == old(site.tree.files) && site.ref == old(site.ref) && site.index == old(site.index)
    ensures !old(site.Explained()) ==> out in {ClaimLive, StoreRefused, PartialEffect}
    ensures !old(site.Explained()) && old(site.Stale(sc.now)) ==> out == PartialEffect && site.Held()
    ensures out == PartialEffect ==> site.Held()
    ensures out in {Passed, ClaimLive, Waiting} ==>
      site.tree.files == old(site.tree.files) && site.ref == old(site.ref) && site.index == old(site.index)
    ensures out == Passed ==> old(site.NoneApplied()) && site.expires.None? && (site.job == I.Deferred <==> sc.covers && !sc.planMatches)
    ensures out == Passed ==> site.job in {I.Validated, I.Recovering, I.Deferred}
    ensures old(site.NoneApplied() && site.Stale(sc.now) && Repairable(site, sc)) && sc.digestSame && budget >= |site.plan| + 5
            ==> out == if sc.management && sc.planMatches then Recovered else Passed
    ensures site.tree.files == old(site.tree.files) || PartlyApplied(Edited(old(site.tree.files), sc.edits), site.plan, applied)
    ensures site.tree.files in {old(site.tree.files), applied, Edited(applied, sc.lateEdits)}
    ensures IndexFollows(site, old(site.index), old(site.ref))
    ensures out == Recovered ==> site.job == I.Applied && site.ref == site.target
    ensures out == Recovered && old(site.ref) == site.target ==> site.index == old(site.index)
    ensures out == Recovered ==> LeadsTo(Edited(old(site.tree.files), sc.edits), site.plan, applied)
    ensures out == Recovered ==> site.tree.files == Edited(applied, sc.lateEdits)
    ensures old(site.Explained()) && !old(site.NoneApplied()) && old(site.Stale(sc.now)) && old(Repairable(site, sc)) && budget >= |site.plan| + 5
            ==> out == Recovered
  {
    applied := site.tree.files;
    if site.expires.Some? && sc.now < site.expires.value { return ClaimLive, applied; }
    var strong := site.control.state == C.Blocked && C.SafetyHold(site.control.reason);
    if (!sc.planMatches && !sc.covers) || ((site.job == I.Uncertain || strong) && !sc.checkpoint) {
      site.HoldForRecovery(sc.config);
      return PartialEffect, applied;
    }
    var resume;
    out, resume := Prepare(site, sc, false);
    if out == Recovered {
      out, applied := Execute(site, sc, resume, budget);
    }
  }

  /** Nothing stands in the way of one undisturbed recovery run. */
  ghost predicate Repairable(site: ImportSite, sc: Scene)
    reads site
  {
    && (sc.planMatches || sc.covers) && (sc.checkpoint || (site.job != I.Uncertain && site.control.state == C.Active))
    && sc.acknowledged && sc.idle && sc.stableGit && sc.bytesMatch && sc.fencesHold && sc.indexOk && sc.edits == [] && sc.lateEdits == []
    && MayClaim(site.control, site.attempts, sc) && site.IndexFits() && sc.late <= sc.now + sc.lease
  }

  /** A failed attempt of a new plan: explained effects are left to recovery, anything else is uncertain and held. */
  method FinishRecovering(site: ImportSite, sc: Scene) returns (out: Outcome)
    requires site.Valid() && site.job == I.Applying && site.expires.Some?
    modifies site`job, site`expires, site`control
    ensures site.Valid() && out in {PartialEffect, StoreRefused}
    ensures out == StoreRefused <==> old(site.expires).value < sc.late
    ensures out == StoreRefused ==> site.job == old(site.job) && site.expires == old(site.expires) && site.control == old(site.control)
    ensures out == PartialEffect && site.Explained() ==> site.job == I.Recovering && site.expires.None? && site.control == old(site.control)
    ensures out == PartialEffect && !site.Explained() ==> site.job == I.Uncertain && site.Held()
  {
    var state := site.tree.Inspect(site.plan);
    if state == Unexpected || site.ref !in {site.source, site.target} {
      out := site.GiveUp(sc);
      return;
    }
    if site.expires.value < sc.late { return StoreRefused; }
    site.job, site.expires := I.Recovering, None;
    out := PartialEffect;
  }

  lemma FollowsFits(site: ImportSite, index: Files, ref: Commit)
    requires IndexFollows(site, index, ref) && forall e :: e in site.plan ==> At(index, e.path) in {e.before, e.after}
    ensures site.IndexFits()
  {
  }

  /** The attempt of a new plan with nobody else at the tree: claim it, read its fences again, begin, write, move index
    * and ref, check, finish. */
  method ApplyFresh(site: ImportSite, sc: Scene, budget: nat) returns (out: Outcome)
    requires site.Valid() && site.job == I.Validated && site.expires.None? && sc.lease >= 0 && site.NoneApplied() && site.IndexFits()
    modifies site`job, site`expires, site`attempts, site`control, site`index, site`ref, site.tree
    ensures site.Valid() && out in {Waiting, StoreRefused, Crashed, PartialEffect, Recovered}
    ensures site.Explained() && PartlyApplied(old(site.tree.files), site.plan, site.tree.files)
    ensures IndexFollows(site, old(site.index), site.source) && site.IndexFits()
    ensures site.job in {I.Validated, I.Deferred} ==>
      site.tree.files == old(site.tree.files) && site.ref == site.source && site.index == old(site.index)
    ensures site.job in {I.Validated, I.Deferred, I.Applying, I.Recovering, I.Applied}
    ensures out == Recovered <==> site.job == I.Applied
    ensures out == Recovered ==> site.ref == site.target && LeadsTo(old(site.tree.files), site.plan, site.tree.files)
    ensures site.control == old(site.control) && site.attempts <= old(site.attempts) + 1
    ensures site.expires in {None, Some(sc.now + sc.lease)}
    ensures old(MayClaim(site.control, site.attempts, sc)) && sc.fencesHold && sc.indexOk && sc.late <= sc.now + sc.lease && budget >= |site.plan| + 5
            ==> out == Recovered
  {
    if budget < 2 { return Crashed; }
    if !MayClaim(site.control, site.attempts, sc) { return StoreRefused; }
    site.expires, site.attempts := Some(sc.now + sc.lease), site.attempts + 1;
    if sc.now + sc.lease < sc.late { return StoreRefused; }
    if !sc.fencesHold {
      site.job, site.expires := I.Deferred, None;
      return Waiting;
    }
    site.job := I.Applying;
    var done, left := site.tree.Apply(site.plan, site.writes, budget - 2);
    if done {
      done, left := site.AdvanceIndex(sc.indexOk, left);
      FollowsFits(site, old(site.index), old(site.ref));
    }
    if left == 0 { return Crashed; }
    if done {
      site.job, site.expires := I.Applied, None;
      return Recovered;
    }
    out := FinishRecovering(site, sc);
  }

  /** An import with paths, end to end: its run dies or fails at any point, between two paths, before the index or between
    * index and ref, with nobody else at the tree, and a later run recovers. Either nothing was applied, or every path has
    * its planned value in tree and index, the ref is at the target and the job is applied. */
  method ApplyCrashRecover(site: ImportSite, dead: Scene, later: Scene, steps: nat, budget: nat) returns (applied: bool)
    requires site.Valid() && site.job == I.Validated && site.expires.None? && site.NoneApplied() && site.IndexFits()
    requires 0 <= dead.lease && dead.now + dead.lease < later.now <= later.late <= later.now + later.lease
    requires site.control.state == C.Active && site.control.config == dead.config == later.config && site.attempts + 1 < MAX_ATTEMPTS
    requires later.planMatches && later.acknowledged && later.idle && later.stableGit && later.bytesMatch && later.fencesHold && later.indexOk
    requires later.digestSame && later.edits == [] && later.lateEdits == [] && budget >= |site.plan| + 5
    modifies site`job, site`expires, site`attempts, site`control, site`index, site`ref, site.tree
    ensures site.Valid()
    ensures applied ==> site.job == I.Applied && site.ref == site.target && LeadsTo(old(site.tree.files), site.plan, site.tree.files)
    ensures applied ==> LeadsTo(old(site.index), site.plan, site.index)
    ensures !applied ==> site.tree.files == old(site.tree.files) && site.ref == site.source && site.index == old(site.index)
    ensures !applied ==> site.job in {I.Validated, I.Recovering, I.Deferred}
  {
    ghost var before := site.tree.files;
    var out := ApplyFresh(site, dead, steps);
    ghost var here := site.tree.files;
    applied := site.job == I.Applied;
    if site.job in {I.Applying, I.Recovering} {
      ghost var tree;
      out, tree := RecoverImport(site, later, budget);
      applied := out == Recovered;
      if applied {
        AppliedOverTrace(before, here, site.tree.files, site.plan);
      } else {
        NothingApplied(before, here, site.plan);
      }
    }
  }

  lemma AppliedOverTrace(t: Files, mid: Files, u: Files, plan: seq<Effect>)
    requires PartlyApplied(t, plan, mid) && LeadsTo(mid, plan, u)
    ensures LeadsTo(t, plan, u)
  {
    forall p | !Covers(plan, p) ensures At(u, p) == At(t, p) {
      assert At(mid, p) == At(t, p);
    }
  }

  /** A trace in which every path is still at its before value is no trace at all. */
  lemma NothingApplied(t: Files, mid: Files, plan: seq<Effect>)
    requires PartlyApplied(t, plan, mid) && (forall e :: e in plan ==> At(t, e.path) == e.before && At(mid, e.path) == e.before)
    ensures mid == t
  {
    forall p ensures At(mid, p) == At(t, p) {
      if Covers(plan, p) {
        var i :| 0 <= i < |plan| && plan[i].path == p;
        assert plan[i] in plan;
      }
    }
    SameAt(mid, t);
  }
}
