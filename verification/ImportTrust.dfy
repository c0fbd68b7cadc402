/** What a successful base walk and range walk prove about an import, and why they succeed on built histories.
  *
  * The walks only ask two questions about a commit; they are stated over any answers to those questions and then
  * used with the content-head check and the checkpoint count.
  */
module ImportTrust {
  import opened Commits
  import opened Records
  import opened Trust
  import opened Walks

  datatype Judge = Judge(accepts: Commit -> bool, counts: Commit -> bool)

  function Acceptance(cfg: Config, h: History): Judge {
    Judge(c => VerifyContentHead(cfg, h, c), c => AddsCheckpointByCount(c))
  }

  /** The range walk: newest first, every commit accepted, down to the first checkpoint. */
  predicate RangeTrusted(j: Judge, commits: seq<Commit>) {
    if commits == [] then true
    else
      var last := commits[|commits| - 1];
      j.accepts(last) && (j.counts(last) || RangeTrusted(j, commits[..|commits| - 1]))
  }

  method VerifyImportRange(j: Judge, commits: seq<Commit>) returns (trusted: bool)
    ensures trusted == RangeTrusted(j, commits)
  {
    var i := |commits|;
    assert commits[..i] == commits;
    while i > 0
      invariant 0 <= i <= |commits|
      invariant RangeTrusted(j, commits) == RangeTrusted(j, commits[..i])
    {
      i := i - 1;
      assert commits[..i + 1][..i] == commits[..i];
      if !j.accepts(commits[i]) {
        return false;
      }
      if j.counts(commits[i]) {
        return true;
      }
    }
    trusted := true;
  }

  /** The base walk: accepted commits down to a checkpoint, within the bound. */
  function BaseWalk(j: Judge, current: Commit, limit: nat): Result<Commit>
    decreases limit
  {
    if limit == 0 then Err(HistoryBound)
    else if !j.accepts(current) then Err(Untrusted)
    else if j.counts(current) then Ok(current)
    else if !Linear(current) then Err(NotLinear)
    else BaseWalk(j, current.parents[0], limit - 1)
  }

  method VerifyImportBase(j: Judge, from: Commit, limit: nat) returns (r: Result<Commit>)
    ensures r == BaseWalk(j, from, limit)
  {
    var current := from;
    var inspected := 0;
    while inspected < limit
      invariant 0 <= inspected <= limit
      invariant BaseWalk(j, from, limit) == BaseWalk(j, current, limit - inspected)
    {
      if !j.accepts(current) {
        return Err(Untrusted);
      }
      if j.counts(current) {
        return Ok(current);
      }
      if !Linear(current) {
        return Err(NotLinear);
      }
      current := current.parents[0];
      inspected := inspected + 1;
    }
    r := Err(HistoryBound);
  }

  /** `c` stands `n` accepted publications above an accepted administrator checkpoint. */
  predicate Anchored(j: Judge, c: Commit, n: nat)
    decreases n
  {
    && j.accepts(c)
    && if n == 0 then j.counts(c) else !j.counts(c) && Linear(c) && Anchored(j, c.parents[0], n - 1)
  }

  /** A base walk that succeeds has found the checkpoint the base stands on, within the bound. */
  lemma {:induction false} TrustedBaseIsAnchored(j: Judge, from: Commit, limit: nat) returns (n: nat)
    requires BaseWalk(j, from, limit).Ok?
    ensures n < limit && Anchored(j, from, n) && Back(from, n) == Some(BaseWalk(j, from, limit).value)
    decreases limit
  {
    if j.counts(from) {
      n := 0;
    } else {
      n := TrustedBaseIsAnchored(j, from.parents[0], limit - 1);
      n := n + 1;
    }
  }

  /** Whatever stands on a checkpoint within the bound passes the base walk, and is stopped only by the bound when
    * the checkpoint is further down. */
  lemma {:induction false} AnchoredBaseIsTrusted(j: Judge, from: Commit, n: nat, limit: nat)
    requires Anchored(j, from, n)
    ensures n < limit ==> BaseWalk(j, from, limit).Ok?
    ensures n >= limit ==> BaseWalk(j, from, limit) == Err(HistoryBound)
    decreases n
  {
    if n > 0 && limit > 0 {
      AnchoredBaseIsTrusted(j, from.parents[0], n - 1, limit - 1);
    }
  }

  function Top(from: Commit, commits: seq<Commit>): Commit {
    if commits == [] then from else commits[|commits| - 1]
  }

  /** The commits of a range, oldest first: each is the child of the one before it, the first a child of `from`. */
  predicate ChainAbove(from: Commit, commits: seq<Commit>) {
    commits == []
    || (Child(Top(from, commits[..|commits| - 1]), commits[|commits| - 1]) && ChainAbove(from, commits[..|commits| - 1]))
  }

  lemma {:induction false} RangeAboveIsChainAbove(from: Commit, target: Commit, limit: nat)
    requires RangeAbove(from, target, limit).Ok?
    ensures var commits := RangeAbove(from, target, limit).value;
            commits != [] && Top(from, commits) == target && ChainAbove(from, commits)
    decreases limit
  {
    var commits := RangeAbove(from, target, limit).value;
    if target.parents[0] != from {
      RangeAboveIsChainAbove(from, target.parents[0], limit - 1);
      var below := RangeAbove(from, target.parents[0], limit - 1).value;
      assert commits[..|commits| - 1] == below;
    } else {
      assert commits[..0] == [];
    }
  }

  lemma RangeIsChainAbove(from: Commit, target: Commit, limit: int)
    requires Range(from, target, limit).Ok?
    ensures var commits := Range(from, target, limit).value;
            Top(from, commits) == target && ChainAbove(from, commits) && |commits| <= limit
  {
    if from != target {
      RangeAboveIsChainAbove(from, target, limit);
      RangeAboveIsChain(from, target, limit);
    }
  }

  /** A trusted range over an anchored base anchors its top: either it passes a checkpoint itself, or it is
    * publications all the way down to the base. */
  lemma {:induction false} TrustedRangeIsAnchored(j: Judge, from: Commit, commits: seq<Commit>, m: nat) returns (n: nat)
    requires ChainAbove(from, commits) && RangeTrusted(j, commits) && Anchored(j, from, m)
    ensures n <= |commits| + m && Anchored(j, Top(from, commits), n)
    decreases |commits|
  {
    if commits == [] {
      n := m;
    } else if j.counts(Top(from, commits)) {
      n := 0;
    } else {
      n := TrustedRangeIsAnchored(j, from, commits[..|commits| - 1], m);
      n := n + 1;
    }
  }

  /** An import that passes the base walk and the range walk stands on an accepted administrator checkpoint, through
    * accepted publications only, no further down than the two walks together looked. */
  lemma ImportIsAnchored(j: Judge, from: Commit, target: Commit, limit: nat) returns (n: nat)
    requires Range(from, target, limit).Ok?
    requires BaseWalk(j, from, limit).Ok?
    requires RangeTrusted(j, Range(from, target, limit).value)
    ensures n < 2 * limit && Anchored(j, target, n)
  {
    var m := TrustedBaseIsAnchored(j, from, limit);
    RangeIsChainAbove(from, target, limit);
    n := TrustedRangeIsAnchored(j, from, Range(from, target, limit).value, m);
  }

  /** Conversely, a range of accepted commits is trusted. */
  lemma {:induction false} AcceptedRangeIsTrusted(j: Judge, commits: seq<Commit>)
    requires forall c :: c in commits ==> j.accepts(c)
    ensures RangeTrusted(j, commits)
    decreases |commits|
  {
    if commits != [] {
      AcceptedRangeIsTrusted(j, commits[..|commits| - 1]);
    }
  }

  function RecordPaths(c: Commit): set<Path> {
    set p | p in c.tree && p.Controller?
  }

  /** What the content-head check guarantees of a commit that is not a checkpoint: it adds exactly one record. */
  ghost predicate AddsOneRecordEach(j: Judge) {
    forall c :: j.accepts(c) && !j.counts(c) && Linear(c) ==> KeepsRecords(c) && |NewPaths(c)| == 1
  }

  function OnlyNewPath(c: Commit): (p: Path)
    requires Linear(c) && |NewPaths(c)| == 1
    ensures NewPaths(c) == {p}
  {
    assert NewPaths(c) != {};
    ghost var q :| q in NewPaths(c);
    OnlyMember(NewPaths(c), q);
    var p :| p in NewPaths(c);
    p
  }

  /** Down to the anchor the records only grow, one per commit: the records above the anchor's are in bijection with
    * the commits above the anchor. `paths[i]` is the record added by the commit `i` steps behind `c`. */
  lemma {:induction false} RecordsMatchCommits(j: Judge, c: Commit, n: nat) returns (paths: seq<Path>)
    requires AddsOneRecordEach(j) && Anchored(j, c, n)
    ensures |paths| == n && Reaches(c, n)
    ensures forall i :: 0 <= i < n ==> Reaches(c, i) && Linear(Back(c, i).value) && NewPaths(Back(c, i).value) == {paths[i]}
    ensures forall i, k :: 0 <= i < k < n ==> paths[i] != paths[k]
    ensures var anchor := Back(c, n).value;
            && j.accepts(anchor) && j.counts(anchor)
            && (forall p :: p in RecordPaths(anchor) ==> p in c.tree && c.tree[p] == anchor.tree[p])
            && (forall p :: p in RecordPaths(c) <==> p in RecordPaths(anchor) || p in paths)
            && (forall p :: p in paths ==> p !in RecordPaths(anchor))
    decreases n
  {
    if n == 0 {
      paths := [];
    } else {
      var parent := c.parents[0];
      var below := RecordsMatchCommits(j, parent, n - 1);
      var path := OnlyNewPath(c);
      assert path in NewPaths(c);
      assert RecordPaths(c) == RecordPaths(parent) + {path};
      paths := [path] + below;
      forall i | 0 <= i < n ensures Reaches(c, i) && Linear(Back(c, i).value) && NewPaths(Back(c, i).value) == {paths[i]} {
        if i > 0 {
          assert Back(c, i) == Back(parent, i - 1);
        }
      }
      forall i, k | 0 <= i < k < n ensures paths[i] != paths[k] {
        assert paths[k] == below[k - 1] && below[k - 1] in RecordPaths(parent);
      }
    }
  }
}
