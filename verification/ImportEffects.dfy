/** Planning, inspecting and applying the file effects of one import. */
module ImportEffects {
  import opened Commits
  import opened Strings

  /** What a path of the working tree holds: the bytes of a regular file, or something else. */
  datatype File = Regular(bytes: seq<int>) | Odd

  type Files = map<string, File>

  /** What one path holds before and after; nothing for an absent file. */
  datatype Effect = Effect(path: string, before: Option<File>, after: Option<File>)

  function At(t: Files, p: string): Option<File> {
    if p in t then Some(t[p]) else None
  }

  predicate AllRegular(t: Files) {
    forall p :: p in t ==> t[p].Regular?
  }

  /** A plan names each path once, changes it, and knows the bytes it writes. */
  ghost predicate WellPlanned(effects: seq<Effect>, writes: Files) {
    && (forall i, j :: 0 <= i < j < |effects| ==> Before(effects[i].path, effects[j].path))
    && (forall e :: e in effects ==> e.before != e.after)
    && (forall e :: e in effects ==> At(writes, e.path) == e.after)
    && (forall e :: e in effects ==> e.before != Some(Odd) && e.after != Some(Odd))
  }

  ghost predicate Covers(effects: seq<Effect>, p: string) {
    exists i :: 0 <= i < |effects| && effects[i].path == p
  }

  function Extended(writes: Files, e: Effect): Files {
    if e.after.Some? then writes[e.path := e.after.value] else writes
  }

  lemma ExtendPlan(effects: seq<Effect>, writes: Files, e: Effect)
    requires WellPlanned(effects, writes) && e.before != e.after && e.before != Some(Odd) && e.after != Some(Odd)
    requires (forall d :: d in effects ==> Before(d.path, e.path)) && e.path !in writes
    ensures WellPlanned(effects + [e], Extended(writes, e))
  {
    forall d | d in effects ensures At(Extended(writes, e), d.path) == d.after {
      BeforeTrichotomy(d.path, e.path);
    }
  }

  lemma SameAt(t: Files, u: Files)
    requires forall p :: At(t, p) == At(u, p)
    ensures t == u
  {
    forall p ensures p in t <==> p in u {
      assert At(t, p) == At(u, p);
    }
    forall p | p in t ensures t[p] == u[p] {
      assert At(t, p) == At(u, p);
    }
  }

  lemma ExtendCovers(effects: seq<Effect>, e: Effect)
    ensures forall q :: Covers(effects + [e], q) <==> Covers(effects, q) || q == e.path
  {
    forall q ensures Covers(effects + [e], q) <==> Covers(effects, q) || q == e.path {
      var longer := effects + [e];
      if Covers(effects, q) {
        var i :| 0 <= i < |effects| && effects[i].path == q;
        assert longer[i].path == q;
      }
      assert longer[|effects|].path == e.path;
    }
  }

  /** The plan so far is exact for the paths in `seen`. */
  ghost predicate Planned(before: Files, after: Files, seen: set<string>, effects: seq<Effect>, writes: Files) {
    && WellPlanned(effects, writes)
    && (forall p :: Covers(effects, p) <==> p in seen && At(before, p) != At(after, p))
    && (forall e :: e in effects ==> e.before == At(before, e.path) && e.after == At(after, e.path))
    && (forall p :: p in writes <==> p in after && p in seen && At(before, p) != Some(after[p]))
  }

  lemma PlanNext(before: Files, after: Files, seen: set<string>, effects: seq<Effect>, writes: Files, p: string)
    requires AllRegular(before) && AllRegular(after) && Planned(before, after, seen, effects, writes)
    requires p !in seen && forall q :: q in seen ==> Before(q, p)
    ensures At(before, p) == At(after, p) ==> Planned(before, after, seen + {p}, effects, writes)
    ensures var e := Effect(p, At(before, p), At(after, p));
            At(before, p) != At(after, p) ==> Planned(before, after, seen + {p}, effects + [e], Extended(writes, e))
  {
    var e := Effect(p, At(before, p), At(after, p));
    forall d | d in effects ensures d.path in seen {
      var i :| 0 <= i < |effects| && effects[i] == d;
      assert Covers(effects, d.path);
    }
    if At(before, p) != At(after, p) {
      ExtendPlan(effects, writes, e);
      ExtendCovers(effects, e);
    }
  }

  /** The whole plan, once every path is seen. */
  ghost predicate Exact(before: Files, after: Files, effects: seq<Effect>, writes: Files) {
    && WellPlanned(effects, writes)
    && (forall p :: Covers(effects, p) <==> At(before, p) != At(after, p))
    && (forall e :: e in effects ==> e.before == At(before, e.path) && e.after == At(after, e.path))
    && (forall p :: p in writes <==> p in after && At(before, p) != Some(after[p]))
  }

  lemma PlanComplete(before: Files, after: Files, seen: set<string>, effects: seq<Effect>, writes: Files)
    requires Planned(before, after, seen, effects, writes) && seen == before.Keys + after.Keys
    ensures Exact(before, after, effects, writes)
  {
    forall p ensures Covers(effects, p) <==> At(before, p) != At(after, p) {
      assert p !in seen ==> At(before, p) == At(after, p);
    }
  }

  function DeletionsOf(effects: seq<Effect>): seq<string> {
    if effects == [] then []
    else
      var last := effects[|effects| - 1];
      DeletionsOf(effects[..|effects| - 1]) + if last.after.None? then [last.path] else []
  }

  lemma DeletionsNext(effects: seq<Effect>, e: Effect)
    ensures DeletionsOf(effects + [e]) == DeletionsOf(effects) + if e.after.None? then [e.path] else []
  {
    assert (effects + [e])[..|effects|] == effects;
  }

  /** The deletions of a plan are the paths it makes absent, in order. */
  lemma {:induction false} DeletionsMeaning(effects: seq<Effect>, writes: Files)
    requires WellPlanned(effects, writes)
    ensures forall p :: p in DeletionsOf(effects) <==> exists e :: e in effects && e.path == p && e.after.None?
    ensures Sorted(DeletionsOf(effects))
    decreases |effects|
  {
    if effects != [] {
      var last, rest := effects[|effects| - 1], effects[..|effects| - 1];
      DeletionsMeaning(rest, writes);
      assert effects == rest + [last];
      forall d | d in DeletionsOf(rest) ensures Before(d, last.path) {
        var e :| e in rest && e.path == d && e.after.None?;
      }
    }
  }

  /** The paths already planned all come before the paths that are left. */
  ghost predicate Split(all: set<string>, seen: set<string>, rest: set<string>) {
    seen + rest == all && seen !! rest && forall p, q :: p in seen && q in rest ==> Before(p, q)
  }

  lemma SplitNext(all: set<string>, seen: set<string>, rest: set<string>, p: string)
    requires Split(all, seen, rest) && p in rest && forall q :: q in rest && q != p ==> Before(p, q)
    ensures Split(all, seen + {p}, rest - {p}) && p !in seen && forall q :: q in seen ==> Before(q, p)
  {
  }

  /** Plans one more path, unless it is the same on both sides. */
  method PlanPath(before: Files, after: Files, ghost seen: set<string>, effects: seq<Effect>, writes: Files, deletions: seq<string>, p: string)
    returns (planned: seq<Effect>, written: Files, deleted: seq<string>)
    requires AllRegular(before) && AllRegular(after) && Planned(before, after, seen, effects, writes) && deletions == DeletionsOf(effects)
    requires p !in seen && forall q :: q in seen ==> Before(q, p)
    ensures Planned(before, after, seen + {p}, planned, written) && deleted == DeletionsOf(planned)
  {
    planned, written, deleted := effects, writes, deletions;
    PlanNext(before, after, seen, effects, writes, p);
    if At(before, p) != At(after, p) {
      var e := Effect(p, At(before, p), At(after, p));
      DeletionsNext(effects, e);
      planned, written := effects + [e], Extended(writes, e);
      deleted := deletions + if e.after.None? then [p] else [];
    }
  }

  /** The exact plan from one content to another, in the order of the paths. */
  method Diff(before: Files, after: Files) returns (effects: seq<Effect>, writes: Files, deletions: seq<string>)
    requires AllRegular(before) && AllRegular(after)
    ensures Exact(before, after, effects, writes)
    ensures deletions == DeletionsOf(effects)
  {
    var rest := before.Keys + after.Keys;
    ghost var seen: set<string> := {};
    effects, writes, deletions := [], map[], [];
    while rest != {}
      invariant Split(before.Keys + after.Keys, seen, rest)
      invariant Planned(before, after, seen, effects, writes)
      invariant deletions == DeletionsOf(effects)
      decreases |rest|
    {
      var p := First(rest);
      SplitNext(before.Keys + after.Keys, seen, rest, p);
      effects, writes, deletions := PlanPath(before, after, seen, effects, writes, deletions, p);
      rest, seen := rest - {p}, seen + {p};
    }
    PlanComplete(before, after, seen, effects, writes);
  }

  /** The tree after every effect of a plan: the planned value on its paths, anything else untouched. */
  ghost predicate LeadsTo(t: Files, effects: seq<Effect>, u: Files) {
    && (forall e :: e in effects ==> At(u, e.path) == e.after)
    && (forall p :: !Covers(effects, p) ==> At(u, p) == At(t, p))
  }

  /** The plan of a difference leads exactly from one content to the other, and with unrelated files around it leaves
    * those alone. */
  lemma DiffRoundTrip(before: Files, after: Files, effects: seq<Effect>, t: Files, u: Files)
    requires forall p :: Covers(effects, p) <==> At(before, p) != At(after, p)
    requires forall e :: e in effects ==> e.before == At(before, e.path) && e.after == At(after, e.path)
    requires LeadsTo(t, effects, u)
    ensures t == before ==> u == after
    ensures forall p :: p in before || p in after ==> (At(t, p) == At(before, p) ==> At(u, p) == At(after, p))
    ensures forall p :: p !in before && p !in after ==> At(u, p) == At(t, p)
  {
    forall p ensures At(t, p) == At(before, p) ==> At(u, p) == At(after, p) {
      if Covers(effects, p) {
        var i :| 0 <= i < |effects| && effects[i].path == p;
        assert effects[i] in effects;
      }
    }
    if t == before {
      SameAt(u, after);
    }
  }

  datatype EffectState = AllBefore | AllAfter | Mixed | Unexpected

  /** The working tree under the resource root. */
  class Worktree {
    var files: Files

    /** An edit of somebody else. */
    method Edit(p: string, value: Option<File>)
      modifies this
      ensures files == if value.Some? then old(files)[p := value.value] else old(files) - {p}
    {
      files := if value.Some? then files[p := value.value] else files - {p};
    }

    /** Classifies the tree against a plan. An unreadable path, or a value that is neither before nor after, makes it
      * unexpected; a plan without effects counts as not started. */
    method Inspect(effects: seq<Effect>) returns (state: EffectState)
      requires forall e :: e in effects ==> e.before != e.after && e.before != Some(Odd) && e.after != Some(Odd)
      ensures state == AllBefore <==> forall e :: e in effects ==> At(files, e.path) == e.before
      ensures state == AllAfter <==> effects != [] && forall e :: e in effects ==> At(files, e.path) == e.after
      ensures state == Unexpected <==> exists e :: e in effects && At(files, e.path) !in {e.before, e.after}
    {
      var before, after, i := 0, 0, 0;
      while i < |effects|
        invariant 0 <= i <= |effects| && before + after == i && 0 <= before && 0 <= after
        invariant forall k :: 0 <= k < i ==> At(files, effects[k].path) in {effects[k].before, effects[k].after}
        invariant before == i <==> forall k :: 0 <= k < i ==> At(files, effects[k].path) == effects[k].before
        invariant after == i <==> forall k :: 0 <= k < i ==> At(files, effects[k].path) == effects[k].after
      {
        var value := At(files, effects[i].path);
        assert effects[i] in effects;
        if value == Some(Odd) {
          return Unexpected;
        } else if value == effects[i].before {
          before := before + 1;
        } else if value == effects[i].after {
          after := after + 1;
        } else {
          return Unexpected;
        }
        i := i + 1;
      }
      state := if before == |effects| then AllBefore else if after == |effects| then AllAfter else Mixed;
    }

    /** Applies the effects in order for as many steps as the run lives. A path already at its after value is skipped; a
      * path at neither value stops the run. Whatever happens, no value but a before value is ever overwritten. */
    method Apply(effects: seq<Effect>, writes: Files, budget: nat) returns (done: bool, left: nat)
      requires WellPlanned(effects, writes)
      modifies this
      ensures forall p :: !Covers(effects, p) ==> At(files, p) == At(old(files), p)
      ensures forall e :: e in effects && At(files, e.path) != At(old(files), e.path) ==>
                At(old(files), e.path) == e.before && At(files, e.path) == e.after
      ensures done ==> LeadsTo(old(files), effects, files)
      ensures done ==> forall e :: e in effects ==> At(old(files), e.path) in {e.before, e.after}
      ensures (forall e :: e in effects ==> At(old(files), e.path) in {e.before, e.after}) && budget >= |effects| ==>
                done && left + |effects| >= budget
      ensures left <= budget
    {
      left := budget;
      var i := 0;
      while i < |effects|
        invariant 0 <= i <= |effects| && budget <= left + i && left <= budget
        invariant forall p :: !Covers(effects, p) ==> At(files, p) == At(old(files), p)
        invariant forall k :: 0 <= k < i ==> At(files, effects[k].path) == effects[k].after
        invariant forall k :: 0 <= k < i ==> At(old(files), effects[k].path) in {effects[k].before, effects[k].after}
        invariant forall k :: i <= k < |effects| ==> At(files, effects[k].path) == At(old(files), effects[k].path)
      {
        var e := effects[i];
        assert e in effects;
        var value := At(files, e.path);
        if value != e.after {
          if value != e.before || left == 0 {
            return false, left;
          }
          left := left - 1;
          ghost var t := files;
          files := if e.after.None? then files - {e.path} else files[e.path := writes[e.path]];
          forall k | 0 <= k < |effects| && k != i ensures At(files, effects[k].path) == At(t, effects[k].path) {
            BeforeTrichotomy(effects[k].path, e.path);
          }
        }
        i := i + 1;
      }
      done := true;
    }
  }
}
