/** Histories that only the publish and checkpoint commands have extended, and the walks over them. */
module BuiltHistory {
  import opened Commits
  import opened Records
  import opened Snapshots
  import opened Trust
  import opened Builders
  import opened Walks
  import opened ImportTrust

  ghost predicate PublishedOn(cfg: Config, h: History, base: Commit, c: Commit) {
    exists r: Request :: OnlyMarkdown(r.snapshot) && PublicationCommit(cfg, h, base, r) == Some(c)
  }

  /** A checkpoint whose record the predecessor did not already hold. */
  ghost predicate CheckpointedOn(cfg: Config, h: History, base: Commit, c: Commit) {
    exists kind, target, key ::
      && CheckpointCommit(cfg, h, kind, target, base, key) == Some(c)
      && CheckpointPath(PlanFor(cfg, h, kind, target, base).proposed.id) !in base.tree
  }

  ghost predicate BaselineOn(cfg: Config, h: History, base: Commit, c: Commit) {
    exists key :: CheckpointCommit(cfg, h, InitialBaseline, base, base, key) == Some(c)
  }

  /** Which commits may be put on a base: the first one above the baseline, and any later one. */
  datatype Writers = Writers(starts: (Commit, Commit) -> bool, grows: (Commit, Commit) -> bool)

  /** The publish command and the checkpoint command. */
  ghost function Commands(cfg: Config, h: History): Writers {
    Writers((base, c) => BaselineOn(cfg, h, base, c),
            (base, c) => PublishedOn(cfg, h, base, c) || CheckpointedOn(cfg, h, base, c))
  }

  /** `c` is the `n`-th commit the writers put above the commit of the initial baseline. */
  predicate Built(w: Writers, c: Commit, n: nat)
    decreases n
  {
    && Linear(c)
    && var base := c.parents[0];
    if n == 0 then w.starts(base, c) else w.grows(base, c) && Built(w, base, n - 1)
  }

  ghost predicate AcceptsAll(j: Judge, w: Writers) {
    && (forall base, c :: w.starts(base, c) ==> j.accepts(c) && j.counts(c))
    && (forall base, c :: w.grows(base, c) ==> j.accepts(c))
  }

  lemma PublishedIsAccepted(cfg: Config, h: History, base: Commit, c: Commit)
    requires PublishedOn(cfg, h, base, c)
    ensures Acceptance(cfg, h).accepts(c)
  {
    var r: Request :| OnlyMarkdown(r.snapshot) && PublicationCommit(cfg, h, base, r) == Some(c);
    PublishedCommitIsAccepted(cfg, h, base, r);
  }

  lemma CheckpointedIsAccepted(cfg: Config, h: History, base: Commit, c: Commit)
    requires CheckpointedOn(cfg, h, base, c)
    ensures Acceptance(cfg, h).accepts(c)
  {
    var kind, target, key :|
      && CheckpointCommit(cfg, h, kind, target, base, key) == Some(c)
      && CheckpointPath(PlanFor(cfg, h, kind, target, base).proposed.id) !in base.tree;
    CheckpointCommitAcceptedIff(cfg, h, kind, target, base, key);
  }

  /** A checkpoint commit whose record is new counts as a checkpoint. */
  lemma NewCheckpointCounts(cfg: Config, h: History, kind: Kind, target: Commit, base: Commit, key: string)
    requires CheckpointCommit(cfg, h, kind, target, base, key).Some?
    requires CheckpointPath(PlanFor(cfg, h, kind, target, base).proposed.id) !in base.tree
    ensures AddsCheckpointByCount(CheckpointCommit(cfg, h, kind, target, base, key).value)
  {
    var plan := PlanFor(cfg, h, kind, target, base);
    var c := SignedCheckpoint(plan, key);
    var path := CheckpointPath(plan.proposed.id);
    SignedCheckpointAdds(plan, key);
    assert NewIn(c, Checkpoints) == {path};
    CountIsNewPaths(c);
  }

  /** Publications, and checkpoints whose record is new, pass the content-head check, and a baseline counts as a
    * checkpoint. The checkpoint command also signs checkpoints whose record the predecessor holds; those are refused. */
  lemma CommandsAreAccepted(cfg: Config, h: History)
    ensures AcceptsAll(Acceptance(cfg, h), Commands(cfg, h))
  {
    var j, w := Acceptance(cfg, h), Commands(cfg, h);
    forall base, c | w.starts(base, c) ensures j.accepts(c) && j.counts(c) {
      var key :| CheckpointCommit(cfg, h, InitialBaseline, base, base, key) == Some(c);
      CheckpointOfHeadIsAccepted(cfg, h, InitialBaseline, base, key);
      assert CheckpointPath(PlanFor(cfg, h, InitialBaseline, base, base).proposed.id) !in ControllerFiles(base.tree);
      NewCheckpointCounts(cfg, h, InitialBaseline, base, base, key);
    }
    forall base, c | w.grows(base, c) ensures j.accepts(c) {
      if PublishedOn(cfg, h, base, c) {
        PublishedIsAccepted(cfg, h, base, c);
      } else {
        CheckpointedIsAccepted(cfg, h, base, c);
      }
    }
  }

  /** Every commit of a built history is accepted, and it stands on an accepted checkpoint. */
  lemma {:induction false} BuiltIsAnchored(j: Judge, w: Writers, c: Commit, n: nat) returns (m: nat)
    requires AcceptsAll(j, w) && Built(w, c, n)
    ensures j.accepts(c)
    ensures m <= n && Anchored(j, c, m)
    decreases n
  {
    var base := c.parents[0];
    if n == 0 {
      m := 0;
    } else {
      var below := BuiltIsAnchored(j, w, base, n - 1);
      m := if j.counts(c) then 0 else below + 1;
    }
  }

  lemma {:induction false} BuiltBelow(w: Writers, c: Commit, n: nat, k: nat)
    requires Built(w, c, n) && k <= n
    ensures Reaches(c, k) && Built(w, Back(c, k).value, n - k)
    decreases k
  {
    if k > 0 {
      BuiltBelow(w, c.parents[0], n - 1, k - 1);
    }
  }

  /** The range walk from a commit `k` steps back finds the whole range, or runs out of its bound; nothing else. */
  lemma {:induction false} BuiltRange(j: Judge, w: Writers, c: Commit, n: nat, from: Commit, k: nat, limit: nat)
    requires AcceptsAll(j, w) && Built(w, c, n) && 1 <= k <= n && Back(c, k) == Some(from)
    ensures if k <= limit then RangeAbove(from, c, limit).Ok? && forall x :: x in RangeAbove(from, c, limit).value ==> j.accepts(x)
            else RangeAbove(from, c, limit) == Err(HistoryBound)
    decreases limit
  {
    var parent := c.parents[0];
    assert Back(parent, k - 1) == Some(from);
    var m := BuiltIsAnchored(j, w, c, n);
    if limit > 0 && k > 1 {
      BackHeight(parent, k - 1);
      BuiltRange(j, w, parent, n - 1, from, k - 1, limit - 1);
    }
  }

  /** While only accepted writers extend the remote, an import never meets a trust failure: its walks succeed, or
    * they stop at the history bound. */
  lemma BuiltHistoryIsImportable(j: Judge, w: Writers, target: Commit, n: nat, from: Commit, k: nat, limit: nat)
    requires AcceptsAll(j, w) && Built(w, target, n) && k <= n && Back(target, k) == Some(from) && 1 <= limit <= MAX_RANGE
    ensures if k <= limit then Range(from, target, limit).Ok? && RangeTrusted(j, Range(from, target, limit).value)
            else Range(from, target, limit) == Err(HistoryBound)
    ensures BaseWalk(j, from, limit).Ok? || BaseWalk(j, from, limit) == Err(HistoryBound)
    ensures n - k < limit ==> BaseWalk(j, from, limit).Ok?
  {
    BuiltBelow(w, target, n, k);
    var m := BuiltIsAnchored(j, w, from, n - k);
    AnchoredBaseIsTrusted(j, from, m, limit);
    BackHeight(target, k);
    if k > 0 {
      BuiltRange(j, w, target, n, from, k, limit);
      if k <= limit {
        AcceptedRangeIsTrusted(j, Range(from, target, limit).value);
      }
    }
  }

  /** The same for the two commands under one configuration and membership, as long as no checkpoint is repeated:
    * whichever earlier commit a node imports from, its walks never fail for lack of trust. */
  lemma CommandHistoryIsImportable(cfg: Config, h: History, target: Commit, n: nat, from: Commit, k: nat, limit: nat)
    requires Built(Commands(cfg, h), target, n) && k <= n && Back(target, k) == Some(from) && 1 <= limit <= MAX_RANGE
    ensures if k <= limit
            then Range(from, target, limit).Ok? && RangeTrusted(Acceptance(cfg, h), Range(from, target, limit).value)
            else Range(from, target, limit) == Err(HistoryBound)
    ensures BaseWalk(Acceptance(cfg, h), from, limit).Ok? || BaseWalk(Acceptance(cfg, h), from, limit) == Err(HistoryBound)
    ensures n - k < limit ==> BaseWalk(Acceptance(cfg, h), from, limit).Ok?
  {
    CommandsAreAccepted(cfg, h);
    BuiltHistoryIsImportable(Acceptance(cfg, h), Commands(cfg, h), target, n, from, k, limit);
  }

  lemma AcceptanceAddsOneRecordEach(cfg: Config, h: History)
    ensures AddsOneRecordEach(Acceptance(cfg, h))
  {
    forall c | Acceptance(cfg, h).accepts(c) && !Acceptance(cfg, h).counts(c) && Linear(c)
      ensures KeepsRecords(c) && |NewPaths(c)| == 1
    {
      AcceptedParts(cfg, h, c);
      CountExactOnAccepted(cfg, h, c);
      var path :| IsPublicationCommit(cfg, h, c, path);
    }
  }

  /** The chain of trust of an import. When its walks succeed, the target stands on a commit that adds an
    * administrator checkpoint; every commit above that one adds one publication bound to it and signed by its
    * publisher; and the records gained since the checkpoint are exactly those publications, one for each commit. */
  lemma ImportTrustChain(cfg: Config, h: History, from: Commit, target: Commit, limit: nat) returns (n: nat, paths: seq<Path>)
    requires Range(from, target, limit).Ok?
    requires BaseWalk(Acceptance(cfg, h), from, limit).Ok?
    requires RangeTrusted(Acceptance(cfg, h), Range(from, target, limit).value)
    ensures n < 2 * limit && |paths| == n && Reaches(target, n)
    ensures VerifyContentHead(cfg, h, Back(target, n).value) && AddsOneCheckpoint(cfg, h, Back(target, n).value)
    ensures forall i :: 0 <= i < n ==> Reaches(target, i) && IsPublicationCommit(cfg, h, Back(target, i).value, paths[i])
    ensures forall i, k :: 0 <= i < k < n ==> paths[i] != paths[k]
    ensures RecordPaths(Back(target, n).value) <= RecordPaths(target)
    ensures forall p :: p in paths <==> p in RecordPaths(target) && p !in RecordPaths(Back(target, n).value)
  {
    var j := Acceptance(cfg, h);
    n := ImportIsAnchored(j, from, target, limit);
    AcceptanceAddsOneRecordEach(cfg, h);
    paths := RecordsMatchCommits(j, target, n);
    CountExactOnAccepted(cfg, h, Back(target, n).value);
    forall i | 0 <= i < n ensures Reaches(target, i) && IsPublicationCommit(cfg, h, Back(target, i).value, paths[i]) {
      AnchoredAt(j, target, n, i);
      PublicationAt(cfg, h, Back(target, i).value, paths[i]);
    }
  }

  lemma {:induction false} AnchoredAt(j: Judge, c: Commit, n: nat, i: nat)
    requires Anchored(j, c, n) && i < n
    ensures Reaches(c, i) && j.accepts(Back(c, i).value) && !j.counts(Back(c, i).value)
    decreases i
  {
    if i > 0 {
      AnchoredAt(j, c.parents[0], n - 1, i - 1);
    }
  }

  lemma PublicationAt(cfg: Config, h: History, c: Commit, path: Path)
    requires VerifyContentHead(cfg, h, c) && !AddsCheckpointByCount(c) && NewPaths(c) == {path}
    ensures IsPublicationCommit(cfg, h, c, path)
  {
    AcceptedParts(cfg, h, c);
    CountExactOnAccepted(cfg, h, c);
    var other :| IsPublicationCommit(cfg, h, c, other);
    assert other in NewPaths(c);
  }

  /** A head the content-head check refuses, such as a repeated resolution that was pushed all the same, stops publishing
    * and importing: no publication is built on it, and no node trusts a range that ends in it. */
  lemma RefusedHeadStopsTheGroup(cfg: Config, h: History, head: Commit, from: Commit, limit: nat)
    requires !VerifyContentHead(cfg, h, head)
    ensures forall r: Request :: OnlyMarkdown(r.snapshot) ==> PublicationCommit(cfg, h, head, r) == None
    ensures from != head && Range(from, head, limit).Ok? ==> !RangeTrusted(Acceptance(cfg, h), Range(from, head, limit).value)
    ensures !BaseWalk(Acceptance(cfg, h), head, limit).Ok?
  {
    if from != head && Range(from, head, limit).Ok? {
      RangeIsChainAbove(from, head, limit);
    }
  }

  /** A walk that starts at an accepted checkpoint succeeds at once. */
  lemma CheckpointIsTrusted(j: Judge, c: Commit, from: Commit, limit: nat)
    requires j.accepts(c) && j.counts(c) && limit >= 1
    ensures BaseWalk(j, c, limit) == Ok(c)
    ensures Range(from, c, limit).Ok? ==> RangeTrusted(j, Range(from, c, limit).value)
  {
    if from != c && Range(from, c, limit).Ok? {
      RangeIsChainAbove(from, c, limit);
    }
  }

  lemma CheckpointedCounts(cfg: Config, h: History, base: Commit, c: Commit)
    requires CheckpointedOn(cfg, h, base, c)
    ensures Acceptance(cfg, h).counts(c)
  {
    var kind, target, key :|
      && CheckpointCommit(cfg, h, kind, target, base, key) == Some(c)
      && CheckpointPath(PlanFor(cfg, h, kind, target, base).proposed.id) !in base.tree;
    NewCheckpointCounts(cfg, h, kind, target, base, key);
  }

  /** A new checkpoint over such a head gets the group going again: it is accepted, every range that ends in it is
    * trusted, and so is everything that stands on it. */
  lemma NewCheckpointRestoresTrust(cfg: Config, h: History, head: Commit, c: Commit, from: Commit, limit: nat)
    requires CheckpointedOn(cfg, h, head, c) && limit >= 1
    ensures Acceptance(cfg, h).accepts(c) && BaseWalk(Acceptance(cfg, h), c, limit) == Ok(c)
    ensures Range(from, c, limit).Ok? ==> RangeTrusted(Acceptance(cfg, h), Range(from, c, limit).value)
  {
    CheckpointedIsAccepted(cfg, h, head, c);
    CheckpointedCounts(cfg, h, head, c);
    CheckpointIsTrusted(Acceptance(cfg, h), c, from, limit);
  }

  /** A group of two members, a baseline and one publication above it: the premises of the results above are met. */
  function SmallConfig(): Config {
    Config("g", "refs/heads/content", "s", "k", "admin", Policy(_ => true, _ => false, _ => false, name => name))
  }

  function SmallHistory(): History {
    History("m", map["m" := Membership(map["A" := Member("i", "ka"), "B" := Member("j", "kb")])])
  }

  lemma SmallMembers()
    ensures |SmallHistory().revisions["m"].members| == 2
    ensures AuthorizePublisher(SmallHistory(), "m", "ka", false, false)
  {
    var members := SmallHistory().revisions["m"].members;
    assert members.Keys == {"A", "B"};
    assert "A" in members && members["A"].key == "ka";
  }

  lemma SmallBaseline() returns (base: Commit)
    ensures BaselineOn(SmallConfig(), SmallHistory(), Commit([], map[], ""), base)
    ensures Linear(base) && base.parents[0] == Commit([], map[], "")
    ensures VerifyContentHead(SmallConfig(), SmallHistory(), base) && ContentFiles(base.tree) == map[]
  {
    var cfg, h, root := SmallConfig(), SmallHistory(), Commit([], map[], "");
    var plan := PlanFor(cfg, h, InitialBaseline, root, root);
    base := SignedCheckpoint(plan, cfg.adminKey);
    assert CheckpointCommit(cfg, h, InitialBaseline, root, root, cfg.adminKey) == Some(base);
    SignedCheckpointAdds(plan, cfg.adminKey);
    CheckpointOfHeadIsAccepted(cfg, h, InitialBaseline, root, cfg.adminKey);
  }

  function SmallRequest(): Request {
    Request("A", "ka", map[Markdown("a.md") := Text([1])], 1, {"receipt"})
  }

  lemma SmallSnapshot()
    ensures OnlyMarkdown(SmallRequest().snapshot)
    ensures ValidateTransition(SmallConfig().policy, map[], SmallRequest().snapshot)
    ensures !SameContent(map[], SmallRequest().snapshot)
  {
    assert |SmallRequest().snapshot| == 1;
  }

  lemma SmallPrepared(base: Commit)
    ensures HasMember(SmallHistory(), "A") && MemberOf(SmallHistory(), "A").key == "ka"
    ensures Prepare(SmallConfig(), SmallHistory(), base, SmallRequest()).Some?
  {
    assert "receipt" in SmallRequest().receipts && |SmallRequest().receipts| == 1;
  }

  lemma SmallPublication(base: Commit)
    requires VerifyContentHead(SmallConfig(), SmallHistory(), base) && ContentFiles(base.tree) == map[]
    ensures OnlyMarkdown(SmallRequest().snapshot) && MayPublish(SmallConfig(), SmallHistory(), base, SmallRequest())
    ensures Prepare(SmallConfig(), SmallHistory(), base, SmallRequest()).Some?
  {
    SmallMembers();
    SmallSnapshot();
    SmallPrepared(base);
  }

  lemma SmallGroup() returns (base: Commit, head: Commit)
    ensures Child(base, head) && Built(Commands(SmallConfig(), SmallHistory()), head, 1)
    ensures VerifyContentHead(SmallConfig(), SmallHistory(), base)
    ensures VerifyContentHead(SmallConfig(), SmallHistory(), head) && AddsOnePublication(SmallConfig(), SmallHistory(), head)
  {
    var cfg, h, r := SmallConfig(), SmallHistory(), SmallRequest();
    base := SmallBaseline();
    SmallPublication(base);
    head := SmallHead(base);
    PublishedCommitIsAccepted(cfg, h, base, r);
    SmallIsBuilt(Commands(cfg, h), base, head);
  }

  lemma SmallHead(base: Commit) returns (head: Commit)
    requires OnlyMarkdown(SmallRequest().snapshot) && MayPublish(SmallConfig(), SmallHistory(), base, SmallRequest())
    requires Prepare(SmallConfig(), SmallHistory(), base, SmallRequest()).Some?
    ensures PublicationCommit(SmallConfig(), SmallHistory(), base, SmallRequest()) == Some(head) && Child(base, head)
    ensures PublishedOn(SmallConfig(), SmallHistory(), base, head)
  {
    head := SignedPublication(base, Prepare(SmallConfig(), SmallHistory(), base, SmallRequest()).value, "ka");
  }

  lemma SmallIsBuilt(w: Writers, base: Commit, head: Commit)
    requires Linear(base) && w.starts(base.parents[0], base) && Child(base, head) && w.grows(base, head)
    ensures Built(w, head, 1)
  {
    assert Built(w, base, 0);
  }

  function SmallPlan(kind: Kind, target: Commit, head: Commit): Plan {
    PlanFor(SmallConfig(), SmallHistory(), kind, target, head)
  }

  function SmallCheckpoint(kind: Kind, target: Commit, head: Commit): Commit {
    SignedCheckpoint(SmallPlan(kind, target, head), "admin")
  }

  /** Applying a checkpoint of a target without content, over any readable head, succeeds in the small group. */
  lemma SmallCheckpointApplies(kind: Kind, target: Commit, head: Commit)
    requires kind != InitialBaseline && Readable(target.tree) && Readable(head.tree) && ContentFiles(target.tree) == map[]
    ensures var c, path := SmallCheckpoint(kind, target, head), CheckpointPath(SmallPlan(kind, target, head).proposed.id);
            && CheckpointCommit(SmallConfig(), SmallHistory(), kind, target, head, "admin") == Some(c)
            && Readable(c.tree) && path in c.tree && Child(head, c)
            && NewPaths(c) <= {path, PlanPath(SmallPlan(kind, target, head).id)}
  {
    SignedCheckpointAdds(SmallPlan(kind, target, head), "admin");
  }

  /** In the small group: the baseline, a resolution to its content, the same resolution once more, which is signed and
    * pushed all the same and refused by everybody, and a checkpoint of another kind that is accepted over it. */
  lemma RepeatedResolutionExample() returns (base: Commit, first: Commit, again: Commit, rescue: Commit)
    ensures VerifyContentHead(SmallConfig(), SmallHistory(), base)
    ensures CheckpointCommit(SmallConfig(), SmallHistory(), ConflictResolution, base, base, "admin") == Some(first)
    ensures CheckpointCommit(SmallConfig(), SmallHistory(), ConflictResolution, base, first, "admin") == Some(again)
    ensures CheckpointCommit(SmallConfig(), SmallHistory(), HistoryBoundExhausted, base, again, "admin") == Some(rescue)
    ensures VerifyContentHead(SmallConfig(), SmallHistory(), first) && !VerifyContentHead(SmallConfig(), SmallHistory(), again)
    ensures VerifyContentHead(SmallConfig(), SmallHistory(), rescue)
  {
    base := SmallBaseline();
    assert Readable(base.tree) by { AcceptedParts(SmallConfig(), SmallHistory(), base); }
    first := SmallCheckpoint(ConflictResolution, base, base);
    again := SmallCheckpoint(ConflictResolution, base, first);
    rescue := SmallCheckpoint(HistoryBoundExhausted, base, again);
    SmallCheckpointApplies(ConflictResolution, base, base);
    SmallCheckpointApplies(ConflictResolution, base, first);
    SmallCheckpointApplies(HistoryBoundExhausted, base, again);
    FirstIsAccepted(base, first);
    AgainIsRefused(base, first, again);
    RescueIsAccepted(base, first, again, rescue);
  }

  lemma FirstIsAccepted(base: Commit, first: Commit)
    requires CheckpointCommit(SmallConfig(), SmallHistory(), ConflictResolution, base, base, "admin") == Some(first)
    ensures VerifyContentHead(SmallConfig(), SmallHistory(), first)
  {
    BoundRecordIsFresh(base, Checkpoints, SmallPlan(ConflictResolution, base, base).proposed.id);
    CheckpointCommitAcceptedIff(SmallConfig(), SmallHistory(), ConflictResolution, base, base, "admin");
  }

  lemma AgainIsRefused(base: Commit, first: Commit, again: Commit)
    requires CheckpointCommit(SmallConfig(), SmallHistory(), ConflictResolution, base, base, "admin") == Some(first)
    requires CheckpointCommit(SmallConfig(), SmallHistory(), ConflictResolution, base, first, "admin") == Some(again)
    ensures !VerifyContentHead(SmallConfig(), SmallHistory(), again)
  {
    RepeatedResolutionIsRefused(SmallConfig(), SmallHistory(), ConflictResolution, base, base, first, "admin");
  }

  lemma RescueIsAccepted(base: Commit, first: Commit, again: Commit, rescue: Commit)
    requires CheckpointCommit(SmallConfig(), SmallHistory(), HistoryBoundExhausted, base, again, "admin") == Some(rescue)
    requires Child(base, first) && Child(first, again)
    requires var plan := SmallPlan(ConflictResolution, base, base);
             NewPaths(first) <= {CheckpointPath(plan.proposed.id), PlanPath(plan.id)}
    requires var plan := SmallPlan(ConflictResolution, base, first);
             NewPaths(again) <= {CheckpointPath(plan.proposed.id), PlanPath(plan.id)}
    ensures VerifyContentHead(SmallConfig(), SmallHistory(), rescue)
  {
    var path := CheckpointPath(SmallPlan(HistoryBoundExhausted, base, again).proposed.id);
    BoundRecordIsFresh(base, Checkpoints, SmallPlan(HistoryBoundExhausted, base, again).proposed.id);
    assert path !in base.tree;
    assert path !in NewPaths(first);
    assert path !in first.tree;
    assert path !in NewPaths(again);
    CheckpointCommitAcceptedIff(SmallConfig(), SmallHistory(), HistoryBoundExhausted, base, again, "admin");
  }
}
