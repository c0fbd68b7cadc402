/** Reading content trees, comparing file sets and building the tree of a new content commit. */
module Snapshots {
  import opened Commits
  import opened Records
  import opened Sets

  type Files = map<Path, Blob>

  predicate InDir(p: Path, dir: Dir) {
    p.Controller? && p.dir == dir
  }

  /** The entries below one controller directory. */
  function UnderDir(t: Tree, dir: Dir): Files {
    t - (set p | p in t && !InDir(p, dir))
  }

  function ContentFiles(t: Tree): Files {
    t - (set p | p in t && !p.Markdown?)
  }

  function ControllerFiles(t: Tree): Files {
    t - (set p | p in t && !p.Controller?)
  }

  predicate SupportedPath(p: Path) {
    p.Markdown? || (p.Controller? && p.file.Json?)
  }

  /** A tree whose content can be read: only Markdown files and well-named controller records. */
  predicate Readable(t: Tree) {
    forall p :: p in t ==> SupportedPath(p) && t[p] != Special
  }

  predicate DirReadable(t: Tree, dir: Dir) {
    forall p :: p in t && InDir(p, dir) ==> t[p] != Special
  }

  predicate OnlyMarkdown(files: Files) {
    forall p :: p in files ==> p.Markdown? && files[p] != Special
  }

  /** Every path is inside the governed scope and no two of them are aliases on a peer's file system. */
  predicate ValidateFiles(policy: Policy, files: Files)
    requires OnlyMarkdown(files)
  {
    && (forall p :: p in files ==>
         !policy.reserved(p.name) && !policy.protected(p.name) && policy.governed(p.name))
    && (forall p, q :: p in files && q in files && policy.identity(p.name) == policy.identity(q.name) ==> p == q)
  }

  /** The new file set is safe and removes no protected path. */
  predicate ValidateTransition(policy: Policy, before: Files, after: Files)
    requires OnlyMarkdown(before) && OnlyMarkdown(after)
  {
    && ValidateFiles(policy, after)
    && (forall p :: p in before && p !in after ==> !policy.reserved(p.name) && !policy.protected(p.name))
  }

  /** The records of `current` that `parent` lacks, or nothing when an old record was rewritten or removed. */
  function NewRecords(current: Files, parent: Files): Option<Files> {
    if forall p :: p in parent ==> p in current && current[p] == parent[p]
    then Some(current - parent.Keys)
    else None
  }

  method NewControllerRecords(current: Files, parent: Files) returns (r: Option<Files>)
    ensures r == NewRecords(current, parent)
  {
    var out: Files := map[];
    var rest := current.Keys;
    while rest != {}
      invariant rest <= current.Keys
      invariant forall p :: p in current && p !in rest && p in parent ==> current[p] == parent[p]
      invariant out == current - parent.Keys - rest
    {
      var p :| p in rest;
      rest := rest - {p};
      if p !in parent {
        out := out[p := current[p]];
      } else if parent[p] != current[p] {
        return None;
      }
    }
    rest := parent.Keys;
    while rest != {}
      invariant rest <= parent.Keys
      invariant forall p :: p in parent && p !in rest ==> p in current
    {
      var p :| p in rest;
      rest := rest - {p};
      if p !in current {
        return None;
      }
    }
    assert out == current - parent.Keys;
    r := Some(out);
  }

  /** What a missing key of a file map reads as. */
  function Lookup(files: Files, p: Path): Blob {
    if p in files then files[p] else EMPTY
  }

  predicate SameContent(a: Files, b: Files) {
    |a| == |b| && forall p :: p in a ==> a[p] == Lookup(b, p)
  }

  method ContentEqual(a: Files, b: Files) returns (same: bool)
    ensures same == SameContent(a, b)
  {
    if |a| != |b| {
      return false;
    }
    var rest := a.Keys;
    while rest != {}
      invariant rest <= a.Keys
      invariant forall p :: p in a && p !in rest ==> a[p] == Lookup(b, p)
    {
      var p :| p in rest;
      rest := rest - {p};
      if a[p] != Lookup(b, p) {
        return false;
      }
    }
    same := true;
  }

  predicate HasEmptyFile(files: Files) {
    exists p :: p in files && files[p] == EMPTY
  }

  lemma KeysCoincide(a: set<Path>, b: set<Path>)
    requires a <= b && |a| == |b|
    ensures a == b
  {
    if p :| p in b && p !in a {
      assert a + {p} <= b;
      SubsetSize(a + {p}, b);
    }
  }

  /** A Markdown path outside any given set of paths. */
  lemma {:induction false} FreshMarkdown(s: set<Path>) returns (n: nat)
    ensures forall p :: p in s && p.Markdown? ==> |p.name| < n
    decreases |s|
  {
    n := 0;
    if s != {} {
      var p :| p in s;
      var m := FreshMarkdown(s - {p});
      n := if p.Markdown? && |p.name| >= m then |p.name| + 1 else m;
    }
  }

  /** For a base without empty files the comparison is equality of the file sets. */
  lemma SameContentIsEquality(a: Files, b: Files)
    requires !HasEmptyFile(a)
    ensures SameContent(a, b) <==> a == b
  {
    if SameContent(a, b) {
      forall p | p in a ensures p in b && a[p] == b[p] {
        assert a[p] != EMPTY;
      }
      KeysCoincide(a.Keys, b.Keys);
    }
  }

  /** With one empty file there is always a different file set the comparison calls the same. */
  lemma EmptyFileConfuses(a: Files, empty: Path, other: Blob) returns (b: Files)
    requires empty in a && a[empty] == EMPTY
    ensures b != a && SameContent(a, b)
    ensures exists p :: p in b && p !in a && p.Markdown? && b[p] == other
  {
    var n := FreshMarkdown(a.Keys);
    var added := Markdown(seq(n, _ => 'x'));
    b := (a - {empty})[added := other];
    assert b.Keys == a.Keys - {empty} + {added};
    assert |a.Keys - {empty}| == |a| - 1;
    assert added in b && added !in a;
  }

  /** Exactly when the comparison of a publication against its base can be trusted for every snapshot. */
  lemma ComparisonExactIff(a: Files)
    ensures (forall b :: SameContent(a, b) <==> a == b) <==> !HasEmptyFile(a)
  {
    if HasEmptyFile(a) {
      var empty :| empty in a && a[empty] == EMPTY;
      var b := EmptyFileConfuses(a, empty, EMPTY);
      assert !(SameContent(a, b) <==> a == b);
    } else {
      forall b ensures SameContent(a, b) <==> a == b {
        SameContentIsEquality(a, b);
      }
    }
  }

  /** A copy that later additions to the original or to the copy do not share. */
  method CloneFiles(files: Files) returns (out: Files)
    ensures out == files
  {
    out := map[];
    var rest := files.Keys;
    while rest != {}
      invariant rest <= files.Keys
      invariant out == files - rest
    {
      var p :| p in rest;
      rest := rest - {p};
      out := out[p := files[p]];
    }
  }

  method MissingPaths(base: Files, current: Files) returns (out: set<Path>)
    ensures out == base.Keys - current.Keys
  {
    out := {};
    var rest := base.Keys;
    while rest != {}
      invariant rest <= base.Keys
      invariant out == base.Keys - current.Keys - rest
    {
      var p :| p in rest;
      rest := rest - {p};
      if p !in current {
        out := out + {p};
      }
    }
  }

  /** The private-index tree: the base without the deletions, overlaid with the files. */
  function SnapshotTree(base: Tree, files: Files, deletions: set<Path>): Tree {
    (base - deletions) + files
  }

  predicate OnlyControllers(records: Files) {
    forall p :: p in records ==> p.Controller? && p.file.Json? && records[p] != Special
  }

  /** The tree the builders write: the base controller records, the new records and exactly the snapshot. */
  function Rebuilt(base: Tree, snapshot: Files, records: Files): Tree {
    SnapshotTree(base, snapshot + records, ContentFiles(base).Keys - snapshot.Keys)
  }

  /** `t` holds exactly the snapshot, the records and the base controller records they do not replace. */
  ghost predicate Overlays(t: Tree, base: Tree, snapshot: Files, records: Files) {
    && (forall p :: p in t <==> p in snapshot || (p in base && p.Controller?) || p in records)
    && (forall p :: p in snapshot ==> p in t && t[p] == snapshot[p])
    && (forall p :: p in records ==> p in t && t[p] == records[p])
    && (forall p :: p in base && p.Controller? && p !in records ==> p in t && t[p] == base[p])
  }

  lemma RebuiltOverlays(base: Tree, snapshot: Files, records: Files)
    requires Readable(base) && OnlyMarkdown(snapshot) && OnlyControllers(records)
    ensures Overlays(Rebuilt(base, snapshot, records), base, snapshot, records)
  {
    var gone := ContentFiles(base).Keys - snapshot.Keys;
    assert forall p :: p in gone <==> p in base && p.Markdown? && p !in snapshot;
    assert forall p :: p in base ==> SupportedPath(p);
  }

  lemma OverlayParts(t: Tree, base: Tree, snapshot: Files, records: Files)
    requires Readable(base) && OnlyMarkdown(snapshot) && OnlyControllers(records)
    requires Overlays(t, base, snapshot, records)
    ensures Readable(t)
    ensures ContentFiles(t) == snapshot
    ensures ControllerFiles(t) == ControllerFiles(base) + records
  {
    forall p | p in t ensures SupportedPath(p) && t[p] != Special {
    }
  }

  /** The rebuilt tree is the snapshot, every base controller record, and the new records over them. */
  lemma RebuiltIsSnapshotPlusRecords(base: Tree, snapshot: Files, records: Files)
    requires Readable(base) && OnlyMarkdown(snapshot) && OnlyControllers(records)
    ensures Readable(Rebuilt(base, snapshot, records))
    ensures ContentFiles(Rebuilt(base, snapshot, records)) == snapshot
    ensures ControllerFiles(Rebuilt(base, snapshot, records)) == ControllerFiles(base) + records
  {
    RebuiltOverlays(base, snapshot, records);
    OverlayParts(Rebuilt(base, snapshot, records), base, snapshot, records);
  }

}
