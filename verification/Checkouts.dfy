/** The checked-out content ref following a content commit: controller files, then the index, then the ref.
  *
  * An advance can be interrupted between any two writes. Its check admits exactly the traces an interrupted advance
  * leaves, so the same advance can be started again and again until one run lives long enough.
  */
module Checkouts {
  import opened Commits
  import opened Snapshots

  function At(t: Files, p: Path): Option<Blob> {
    if p in t then Some(t[p]) else None
  }

  /** One advance: the Markdown entries to stage for the target, besides the controller records it adds. */
  datatype Advance = Advance(from: Commit, target: Commit, files: Files, deletions: set<Path>)

  /** The records the target adds. */
  function Controllers(a: Advance): Files {
    ControllerFiles(a.target.tree) - a.from.tree.Keys
  }

  /** No record of the starting commit is rewritten or removed. */
  predicate Appends(a: Advance) {
    forall p :: p in a.from.tree && p.Controller? ==> At(a.target.tree, p) == Some(a.from.tree[p])
  }

  function Touched(a: Advance): set<Path> {
    a.files.Keys + a.deletions + Controllers(a).Keys
  }

  /** The index with everything of the advance staged. */
  function Staged(a: Advance, index: Files): Files {
    (index - a.deletions) + a.files + Controllers(a)
  }

  /** The staged entries are the target's. */
  ghost predicate Fits(a: Advance) {
    && (forall p :: p in a.files ==> p.Markdown? && At(a.target.tree, p) == Some(a.files[p]))
    && (forall p :: p in a.deletions ==> p.Markdown? && p !in a.target.tree)
  }

  /** The Markdown paths that differ between two commits, with the target's bytes, and those the target lacks. */
  method ContentAdvanceChanges(from: Commit, target: Commit) returns (a: Advance)
    requires Readable(from.tree) && Readable(target.tree)
    ensures a.from == from && a.target == target && Fits(a)
    ensures forall p: Path :: p.Markdown? ==> (p in Touched(a) <==> At(from.tree, p) != At(target.tree, p))
  {
    var before, after := ContentFiles(from.tree), ContentFiles(target.tree);
    var changed: Files := map[];
    var rest := after.Keys;
    while rest != {}
      invariant rest <= after.Keys
      invariant forall p :: p in changed <==> p in after && p !in rest && At(before, p) != Some(after[p])
      invariant forall p :: p in changed ==> changed[p] == after[p]
    {
      var p :| p in rest;
      rest := rest - {p};
      if p !in before || before[p] != after[p] {
        changed := changed[p := after[p]];
      }
    }
    a := Advance(from, target, changed, before.Keys - after.Keys);
  }

  /** Working tree, index and checked-out ref. */
  datatype View = View(work: Files, index: Files, ref: Commit)

  predicate Dirty(v: View, p: Path) {
    At(v.index, p) != At(v.ref.tree, p) || At(v.work, p) != At(v.index, p)
  }

  function DirtyPaths(v: View): (s: set<Path>)
    ensures forall p :: p in s <==> Dirty(v, p)
  {
    set p | p in v.work.Keys + v.index.Keys + v.ref.tree.Keys && Dirty(v, p)
  }

  /** No controller path is dirty; a dirty one counts as an active operation. */
  predicate ControllersClean(v: View) {
    forall p :: p in DirtyPaths(v) ==> !p.Controller?
  }

  /** What may be staged and what may lie in the way: old or new entries, and nothing or the exact record. */
  predicate Compatible(v: View, a: Advance) {
    && v.ref in {a.from, a.target}
    && Appends(a)
    && (forall p :: p in Touched(a) ==> At(v.index, p) in {At(a.from.tree, p), At(a.target.tree, p)})
    && (forall p :: p in Controllers(a) ==> At(v.work, p) in {None, Some(Controllers(a)[p])})
  }

  /** The check before an advance: compatible, and no other controller path is dirty. */
  predicate MayAdvance(v: View, a: Advance) {
    Compatible(v, a) && forall p :: p in DirtyPaths(v) && p.Controller? ==> p in Controllers(a)
  }

  /** Every record the target adds is in the working tree. */
  predicate Materialized(v: View, a: Advance) {
    forall p :: p in Controllers(a) ==> At(v.work, p) == Some(Controllers(a)[p])
  }

  /** The index holds the target's entry at every path of the advance. */
  predicate IndexAtTarget(v: View, a: Advance) {
    forall p :: p in Touched(a) ==> At(v.index, p) == At(a.target.tree, p)
  }

  /** The working tree has gained some of the added records and is otherwise as it was. */
  ghost predicate Gained(before: Files, after: Files, a: Advance) {
    forall p :: At(after, p) == At(before, p) || (p in Controllers(a) && At(before, p) == None && At(after, p) == Some(Controllers(a)[p]))
  }

  /** What an advance that stops anywhere can have done: the records first, then the index, then the ref. */
  ghost predicate Progress(v: View, w: View, a: Advance) {
    && Gained(v.work, w.work, a)
    && (w.index == v.index || (w.index == Staged(a, v.index) && Materialized(w, a)))
    && (w.ref == v.ref || (v.ref == a.from && w.ref == a.target && w.index == Staged(a, v.index) && Materialized(w, a)))
  }

  lemma StagedAt(a: Advance, index: Files, p: Path)
    requires Fits(a)
    ensures At(Staged(a, index), p) == if p in Touched(a) then At(a.target.tree, p) else At(index, p)
  {
  }

  lemma OtherRecordsAgree(a: Advance, p: Path)
    requires Appends(a) && p.Controller? && p !in Controllers(a)
    ensures At(a.from.tree, p) == At(a.target.tree, p)
  {
  }

  /** Whatever an interrupted advance leaves, its check passes again. */
  lemma ProgressMayAdvance(v: View, w: View, a: Advance)
    requires Fits(a) && MayAdvance(v, a) && Progress(v, w, a)
    ensures MayAdvance(w, a)
  {
    forall p ensures At(w.index, p) in {At(v.index, p), At(a.target.tree, p)} && (p !in Touched(a) ==> At(w.index, p) == At(v.index, p)) {
      StagedAt(a, v.index, p);
    }
    forall p | p in DirtyPaths(w) && p.Controller? ensures p in Controllers(a) {
      if p !in Controllers(a) {
        OtherRecordsAgree(a, p);
        assert p !in Touched(a);
        assert At(w.work, p) == At(v.work, p);
        assert Dirty(v, p);
      }
    }
  }

  /** At the target, with the records in place, what is left dirty among them is what the index lacks. */
  lemma CleanAtTarget(w: View, a: Advance)
    requires Fits(a) && MayAdvance(w, a) && w.ref == a.target && Materialized(w, a)
    ensures ControllersClean(w) <==> forall p :: p in Controllers(a) ==> At(w.index, p) == At(a.target.tree, p)
  {
    forall p | p in Controllers(a) ensures Dirty(w, p) <==> At(w.index, p) != At(a.target.tree, p) {
      assert At(a.target.tree, p) == Some(Controllers(a)[p]);
    }
  }

  lemma StagedTwice(a: Advance, index: Files)
    requires Fits(a)
    ensures Staged(a, Staged(a, index)) == Staged(a, index)
  {
  }

  lemma ProgressTransitive(u: View, v: View, w: View, a: Advance)
    requires Fits(a) && Progress(u, v, a) && Progress(v, w, a)
    ensures Progress(u, w, a)
  {
    StagedTwice(a, u.index);
  }

  /** From the start of an advance to its target, in however many runs, everything is as the target has it. */
  lemma ResumedIsComplete(v: View, w: View, a: Advance)
    requires Fits(a) && MayAdvance(w, a) && Progress(v, w, a) && v.ref == a.from != a.target == w.ref
    ensures w.index == Staged(a, v.index) && IndexAtTarget(w, a) && ControllersClean(w) && w.work == v.work + Controllers(a)
  {
    forall p ensures p in Touched(a) ==> At(w.index, p) == At(a.target.tree, p) {
      StagedAt(a, v.index, p);
    }
    CleanAtTarget(w, a);
    SameWork(v.work, w.work, Controllers(a));
  }

  /** A ref that reached the target some other way passes for a finished advance although the index was never
    * installed; interrupted advances never leave that behind, because they install the index first. */
  lemma StaleIndexPasses(raw: Blob) returns (v: View, a: Advance)
    ensures Fits(a) && a.from != a.target && MayAdvance(v, a) && v.ref == a.target && Materialized(v, a)
    ensures !ControllersClean(v)
  {
    var record := Controller(Publications, Malformed("r"));
    a := Advance(Commit([], map[], ""), Commit([], map[record := raw], ""), map[], {});
    v := View(map[record := raw], map[], a.target);
    assert Controllers(a) == map[record := raw];
    assert record in DirtyPaths(v);
  }

  lemma SameWork(before: Files, after: Files, added: Files)
    requires forall p :: At(after, p) == At(before, p) || (p in added && At(before, p) == None && At(after, p) == Some(added[p]))
    requires forall p :: p in added ==> At(after, p) == Some(added[p])
    ensures after == before + added
  {
    forall p ensures At(after, p) == At(before + added, p) {
    }
    assert forall p :: p in after <==> At(after, p).Some?;
    assert forall p :: p in before + added <==> At(before + added, p).Some?;
    forall p | p in after ensures p in before + added && after[p] == (before + added)[p] {
      assert At(after, p) == At(before + added, p);
    }
    forall p | p in before + added ensures p in after {
      assert At(after, p) == At(before + added, p);
    }
  }

  class Checkout {
    var work: Files
    var index: Files
    var ref: Commit

    constructor (view: View)
      ensures Now() == view
    {
      work, index, ref := view.work, view.index, view.ref;
    }

    function Now(): View
      reads this
    {
      View(work, index, ref)
    }

    /** Puts one record in place unless it is there; nothing else is ever overwritten. */
    method WriteController(p: Path, raw: Blob) returns (ok: bool)
      modifies this`work
      ensures ok == (At(old(work), p) in {None, Some(raw)})
      ensures work == if ok then old(work)[p := raw] else old(work)
    {
      ok := p !in work || work[p] == raw;
      if p !in work {
        work := work[p := raw];
      }
    }

    /** Writes the missing records, one step each. */
    method Materialize(a: Advance, budget: nat) returns (ok: bool, left: nat)
      requires Compatible(Now(), a)
      modifies this`work
      ensures Gained(old(work), work, a) && left <= budget
      ensures ok ==> Materialized(Now(), a) && left + |Controllers(a)| >= budget
      ensures budget >= |Controllers(a)| ==> ok
    {
      left := budget;
      var all := Controllers(a);
      var rest := all.Keys;
      while rest != {}
        invariant rest <= all.Keys && left <= budget && left + |all| - |rest| >= budget
        invariant forall p :: At(work, p) == if p in all && p !in rest then Some(all[p]) else At(old(work), p)
      {
        if left == 0 { return false, left; }
        var p :| p in rest;
        var written := WriteController(p, all[p]);
        rest, left := rest - {p}, left - 1;
      }
      ok := true;
    }

    /** Installs the staged index and moves the ref, unless the ref is there. */
    method Install(a: Advance, budget: nat) returns (ok: bool)
      requires ref in {a.from, a.target} && a.from != a.target
      modifies this`index, this`ref
      ensures if old(ref) == a.target then ok && Now() == old(Now())
              else index == (if budget >= 1 then Staged(a, old(index)) else old(index)) && ok == (budget >= 2)
                   && ref == if ok then a.target else old(ref)
    {
      if ref == a.target { return true; }
      if budget == 0 { return false; }
      index := Staged(a, index);
      if budget == 1 { return false; }
      ref := a.target;
      ok := true;
    }

    /** The writes of an advance, past its checks. */
    method Write(a: Advance, budget: nat) returns (ok: bool)
      requires Compatible(Now(), a) && a.from != a.target
      modifies this
      ensures Progress(old(Now()), Now(), a)
      ensures ok ==> ref == a.target && Materialized(Now(), a)
      ensures ok ==> index == if old(ref) == a.from then Staged(a, old(index)) else old(index)
      ensures ref == a.target != old(ref) ==> ok
      ensures budget >= |Controllers(a)| + 2 ==> ok
    {
      var left;
      ok, left := Materialize(a, budget);
      if ok {
        ok := Install(a, left);
      }
    }

    /** Brings records, index and ref to the target, in this order; each record, the index and the ref cost a step. The
      * checks come first; a ref that is at the target already ends the advance before the index is installed. */
    method ApplyImportIndex(a: Advance, operation: bool, indexFree: bool, budget: nat) returns (ok: bool, died: bool)
      requires Fits(a)
      modifies this
      ensures Progress(old(Now()), Now(), a)
      ensures old(MayAdvance(Now(), a)) ==> MayAdvance(Now(), a)
      ensures ok || died <==> old(MayAdvance(Now(), a)) && !operation && indexFree && a.from != a.target
      ensures !ok && !died ==> Now() == old(Now())
      ensures ok ==> !died && ref == a.target && Materialized(Now(), a)
      ensures ok ==> index == if old(ref) == a.from then Staged(a, old(index)) else old(index)
      ensures ref == a.target != old(ref) ==> ok
      ensures budget >= |Controllers(a)| + 2 ==> !died
    {
      if a.from == a.target || operation || !MayAdvance(Now(), a) || !indexFree { return false, false; }
      ghost var before := Now();
      ok := Write(a, budget);
      died := !ok;
      ProgressMayAdvance(before, Now(), a);
    }

    /** An advance that is started again after each interruption, and at last lives long enough. */
    method Resume(a: Advance, deaths: seq<nat>, budget: nat)
      requires Fits(a) && MayAdvance(Now(), a) && ref == a.from != a.target && budget >= |Controllers(a)| + 2
      modifies this
      ensures ref == a.target && ControllersClean(Now()) && IndexAtTarget(Now(), a)
      ensures index == Staged(a, old(index)) && work == old(work) + Controllers(a)
    {
      ghost var before := Now();
      for i := 0 to |deaths|
        invariant MayAdvance(Now(), a) && Progress(before, Now(), a)
      {
        ghost var here := Now();
        var _, _ := ApplyImportIndex(a, false, true, deaths[i]);
        ProgressTransitive(before, here, Now(), a);
      }
      ghost var here := Now();
      var _, _ := ApplyImportIndex(a, false, true, budget);
      ProgressTransitive(before, here, Now(), a);
      ResumedIsComplete(before, Now(), a);
    }
  }
}
