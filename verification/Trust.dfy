/** Acceptance of one content commit: it adds exactly one signed record that matches it. */
module Trust {
  import opened Commits
  import opened Records
  import opened Snapshots

  /** The records a commit adds below one controller directory; nothing when an old record changed. */
  function Added(head: Commit, dir: Dir): Option<Files>
    requires Linear(head)
  {
    NewRecords(UnderDir(head.tree, dir), UnderDir(head.parents[0].tree, dir))
  }

  predicate RecordsReadable(head: Commit, dir: Dir)
    requires Linear(head)
  {
    DirReadable(head.tree, dir) && DirReadable(head.parents[0].tree, dir) && Added(head, dir).Some?
  }

  /** The publication at `path` is bound to exactly this commit, its parent, its content and its signer. */
  predicate PublicationBinds(cfg: Config, h: History, head: Commit, path: Path, raw: Blob)
    requires Linear(head)
  {
    var parent := head.parents[0];
    match DecodePublication(raw)
    case None => false
    case Some(p) =>
      && path == PublicationPath(p.id)
      && p.group == cfg.group && p.contentRef == cfg.contentRef && p.base == parent
      && p.snapshot == ContentFiles(head.tree) && p.scope == cfg.scope && p.contract == cfg.contract
      && p.membership in h.revisions
      && p.publisher in h.revisions[p.membership].members
      && var member := h.revisions[p.membership].members[p.publisher];
      && member.incarnation == p.incarnation
      && AuthorizePublisher(h, p.membership, member.key, false, false)
      && VerifySignature(head, member.key)
  }

  /** The checkpoint and its plan are bound to this commit, to the plan's predecessor and to the target's content. */
  predicate CheckpointBinds(cfg: Config, h: History, head: Commit, path: Path, raw: Blob, planPath: Path, planRaw: Blob)
    requires Linear(head)
  {
    var parent := head.parents[0];
    match (DecodeCheckpoint(raw), DecodePlan(planRaw))
    case (Some(c), Some(plan)) =>
      && path == CheckpointPath(c.id)
      && planPath == PlanPath(plan.id) && plan.proposed == c && plan.predecessor == parent
      && c.group == cfg.group && c.snapshot == ContentFiles(head.tree) && c.scope == cfg.scope
      && c.contract == cfg.contract && c.adminKey == cfg.adminKey
      && Readable(c.target.tree)
      && ContentFiles(c.target.tree) == c.snapshot
      && (c.kind == InitialBaseline ==> c.target == parent)
      && c.membership in h.revisions
      && VerifySignature(head, cfg.adminKey)
    case _ => false
  }

  /** The only path of a one-entry file map. */
  function TheKey(files: Files): (p: Path)
    requires |files| == 1
    ensures p in files
  {
    assert files.Keys != {};
    ghost var q :| q in files;
    assert files.Keys == {q} by {
      assert |files.Keys - {q}| == 0;
    }
    var p :| p in files;
    p
  }

  /** The single record a commit adds, dispatched on how many it adds in each directory. */
  predicate RecordAccepted(cfg: Config, h: History, head: Commit)
    requires Linear(head)
    requires Added(head, Publications).Some? && Added(head, Checkpoints).Some? && Added(head, CheckpointPlans).Some?
  {
    var publications := Added(head, Publications).value;
    var checkpoints := Added(head, Checkpoints).value;
    var plans := Added(head, CheckpointPlans).value;
    if |publications| == 1 && |checkpoints| == 0 && |plans| == 0 then
      var path := TheKey(publications);
      PublicationBinds(cfg, h, head, path, publications[path])
    else if |checkpoints| == 1 && |publications| == 0 && |plans| == 1 then
      var path, planPath := TheKey(checkpoints), TheKey(plans);
      CheckpointBinds(cfg, h, head, path, checkpoints[path], planPath, plans[planPath])
    else
      false
  }

  predicate VerifyContentHead(cfg: Config, h: History, head: Commit) {
    && Linear(head)
    && RecordsReadable(head, Publications)
    && RecordsReadable(head, Checkpoints)
    && RecordsReadable(head, CheckpointPlans)
    && Readable(head.tree)
    && ValidateFiles(cfg.policy, ContentFiles(head.tree))
    && RecordAccepted(cfg, h, head)
  }

  /** The cheap count the walks stop on. */
  predicate AddsCheckpointByCount(head: Commit) {
    && Linear(head)
    && DirReadable(head.tree, Checkpoints)
    && DirReadable(head.parents[0].tree, Checkpoints)
    && |UnderDir(head.tree, Checkpoints)| == |UnderDir(head.parents[0].tree, Checkpoints)| + 1
  }

  /** The controller paths a commit holds and its parent does not. */
  function NewPaths(head: Commit): set<Path>
    requires Linear(head)
  {
    set p | p in head.tree && p.Controller? && p !in head.parents[0].tree
  }

  /** Every controller record of the parent is still there, byte for byte. */
  predicate KeepsRecords(head: Commit)
    requires Linear(head)
  {
    forall p :: p in head.parents[0].tree && p.Controller? ==> p in head.tree && head.tree[p] == head.parents[0].tree[p]
  }

  /** A commit whose one new controller record is a publication that binds it. */
  predicate IsPublicationCommit(cfg: Config, h: History, head: Commit, path: Path) {
    && Linear(head)
    && KeepsRecords(head)
    && NewPaths(head) == {path}
    && path in head.tree
    && PublicationBinds(cfg, h, head, path, head.tree[path])
  }

  /** A commit whose two new controller records are a checkpoint that binds it and the plan it was made from. */
  predicate IsCheckpointCommit(cfg: Config, h: History, head: Commit, path: Path, planPath: Path) {
    && Linear(head)
    && KeepsRecords(head)
    && NewPaths(head) == {path, planPath}
    && path in head.tree && planPath in head.tree
    && CheckpointBinds(cfg, h, head, path, head.tree[path], planPath, head.tree[planPath])
  }

  ghost predicate AddsOnePublication(cfg: Config, h: History, head: Commit) {
    exists path :: IsPublicationCommit(cfg, h, head, path)
  }

  ghost predicate AddsOneCheckpoint(cfg: Config, h: History, head: Commit) {
    exists path, planPath :: IsCheckpointCommit(cfg, h, head, path, planPath)
  }

  /** The directory-wise comparison in terms of the new paths. */
  lemma AddedInDir(head: Commit, dir: Dir)
    requires Linear(head)
    ensures Added(head, dir).Some? <==>
            forall p :: p in head.parents[0].tree && InDir(p, dir) ==> p in head.tree && head.tree[p] == head.parents[0].tree[p]
    ensures Added(head, dir).Some? ==>
            && Added(head, dir).value.Keys == set p | p in NewPaths(head) && InDir(p, dir)
            && forall p :: p in Added(head, dir).value ==> Added(head, dir).value[p] == head.tree[p]
  {
    var current, prior := UnderDir(head.tree, dir), UnderDir(head.parents[0].tree, dir);
    assert forall p :: p in current <==> p in head.tree && InDir(p, dir);
    assert forall p :: p in prior <==> p in head.parents[0].tree && InDir(p, dir);
  }

  /** Counting the records added below a directory is counting the new paths in it. */
  function NewIn(head: Commit, dir: Dir): set<Path>
    requires Linear(head)
  {
    set p | p in NewPaths(head) && InDir(p, dir)
  }

  lemma NewPathsByDir(head: Commit)
    requires Linear(head)
    ensures NewPaths(head) == NewIn(head, Publications) + NewIn(head, Checkpoints) + NewIn(head, CheckpointPlans)
  {
  }

  lemma OnlyMember(s: set<Path>, p: Path)
    requires |s| == 1 && p in s
    ensures s == {p}
  {
    assert |s - {p}| == 0;
  }

  lemma RecordsKept(head: Commit)
    requires Linear(head)
    ensures KeepsRecords(head) <==>
            Added(head, Publications).Some? && Added(head, Checkpoints).Some? && Added(head, CheckpointPlans).Some?
  {
    AddedInDir(head, Publications);
    AddedInDir(head, Checkpoints);
    AddedInDir(head, CheckpointPlans);
    assert forall p: Path :: p.Controller? ==> InDir(p, Publications) || InDir(p, Checkpoints) || InDir(p, CheckpointPlans);
  }

  lemma EmptyByCount(s: set<Path>)
    requires |s| == 0
    ensures s == {}
  {
  }

  /** The counts of added records pin down the set of new paths. */
  lemma NewPathsFromCounts(head: Commit)
    requires Linear(head)
    requires Added(head, Publications).Some? && Added(head, Checkpoints).Some? && Added(head, CheckpointPlans).Some?
    ensures Added(head, Publications).value.Keys + Added(head, Checkpoints).value.Keys + Added(head, CheckpointPlans).value.Keys
            == NewPaths(head)
    ensures forall p :: p in Added(head, Publications).value ==> p in head.tree && Added(head, Publications).value[p] == head.tree[p]
    ensures forall p :: p in Added(head, Checkpoints).value ==> p in head.tree && Added(head, Checkpoints).value[p] == head.tree[p]
    ensures forall p :: p in Added(head, CheckpointPlans).value ==> p in head.tree && Added(head, CheckpointPlans).value[p] == head.tree[p]
  {
    AddedInDir(head, Publications);
    AddedInDir(head, Checkpoints);
    AddedInDir(head, CheckpointPlans);
    NewPathsByDir(head);
  }

  lemma PublicationCase(cfg: Config, h: History, head: Commit)
    requires Linear(head)
    requires Added(head, Publications).Some? && Added(head, Checkpoints).Some? && Added(head, CheckpointPlans).Some?
    requires |Added(head, Publications).value| == 1
    requires RecordAccepted(cfg, h, head)
    ensures AddsOnePublication(cfg, h, head)
  {
    var path := TheKey(Added(head, Publications).value);
    assert PublicationBinds(cfg, h, head, path, Added(head, Publications).value[path]);
    NewPathsFromCounts(head);
    OnlyMember(Added(head, Publications).value.Keys, path);
    EmptyByCount(Added(head, Checkpoints).value.Keys);
    EmptyByCount(Added(head, CheckpointPlans).value.Keys);
    RecordsKept(head);
    assert IsPublicationCommit(cfg, h, head, path);
  }

  lemma CheckpointCase(cfg: Config, h: History, head: Commit)
    requires Linear(head)
    requires Added(head, Publications).Some? && Added(head, Checkpoints).Some? && Added(head, CheckpointPlans).Some?
    requires |Added(head, Publications).value| != 1
    requires RecordAccepted(cfg, h, head)
    ensures AddsOneCheckpoint(cfg, h, head)
  {
    var path, planPath := TheKey(Added(head, Checkpoints).value), TheKey(Added(head, CheckpointPlans).value);
    assert CheckpointBinds(cfg, h, head, path, Added(head, Checkpoints).value[path], planPath, Added(head, CheckpointPlans).value[planPath]);
    NewPathsFromCounts(head);
    OnlyMember(Added(head, Checkpoints).value.Keys, path);
    OnlyMember(Added(head, CheckpointPlans).value.Keys, planPath);
    EmptyByCount(Added(head, Publications).value.Keys);
    RecordsKept(head);
    assert IsCheckpointCommit(cfg, h, head, path, planPath);
  }

  /** The records of one directory among the new paths. */
  lemma AddedKeys(head: Commit, dir: Dir)
    requires Linear(head) && KeepsRecords(head)
    ensures Added(head, dir).Some? && Added(head, dir).value.Keys == NewIn(head, dir)
    ensures forall p :: p in Added(head, dir).value ==> p in head.tree && Added(head, dir).value[p] == head.tree[p]
  {
    RecordsKept(head);
    AddedInDir(head, dir);
  }

  lemma OnePublicationIsAccepted(cfg: Config, h: History, head: Commit, path: Path)
    requires IsPublicationCommit(cfg, h, head, path)
    ensures KeepsRecords(head) && Added(head, Publications).Some? && Added(head, Checkpoints).Some? && Added(head, CheckpointPlans).Some?
    ensures RecordAccepted(cfg, h, head)
  {
    AddedKeys(head, Publications);
    AddedKeys(head, Checkpoints);
    AddedKeys(head, CheckpointPlans);
    assert NewIn(head, Publications) == {path};
    assert NewIn(head, Checkpoints) == {};
    assert NewIn(head, CheckpointPlans) == {};
    assert TheKey(Added(head, Publications).value) == path;
  }

  /** The new paths of a checkpoint commit, sorted by directory. */
  lemma CheckpointPathsByDir(cfg: Config, h: History, head: Commit, path: Path, planPath: Path)
    requires IsCheckpointCommit(cfg, h, head, path, planPath)
    ensures NewIn(head, Publications) == {} && NewIn(head, Checkpoints) == {path} && NewIn(head, CheckpointPlans) == {planPath}
  {
    assert InDir(path, Checkpoints) && InDir(planPath, CheckpointPlans);
  }

  lemma TheKeyOfOne(files: Files, path: Path)
    requires files.Keys == {path}
    ensures |files| == 1 && TheKey(files) == path
  {
    assert |files| == |files.Keys|;
  }

  lemma OneCheckpointIsAccepted(cfg: Config, h: History, head: Commit, path: Path, planPath: Path)
    requires IsCheckpointCommit(cfg, h, head, path, planPath)
    ensures KeepsRecords(head) && Added(head, Publications).Some? && Added(head, Checkpoints).Some? && Added(head, CheckpointPlans).Some?
    ensures RecordAccepted(cfg, h, head)
  {
    CheckpointPathsByDir(cfg, h, head, path, planPath);
    AddedKeys(head, Publications);
    AddedKeys(head, Checkpoints);
    AddedKeys(head, CheckpointPlans);
    assert |Added(head, Publications).value| == 0;
    TheKeyOfOne(Added(head, Checkpoints).value, path);
    TheKeyOfOne(Added(head, CheckpointPlans).value, planPath);
  }

  lemma RecordsReadableInReadable(head: Commit, dir: Dir)
    requires Linear(head) && KeepsRecords(head) && Readable(head.tree)
    ensures RecordsReadable(head, dir)
  {
    AddedKeys(head, dir);
    forall p | p in head.parents[0].tree && InDir(p, dir) ensures head.parents[0].tree[p] != Special {
      assert p in head.tree;
    }
  }

  lemma AllRecordsReadable(head: Commit)
    requires Linear(head) && KeepsRecords(head) && Readable(head.tree)
    ensures RecordsReadable(head, Publications) && RecordsReadable(head, Checkpoints) && RecordsReadable(head, CheckpointPlans)
  {
    RecordsReadableInReadable(head, Publications);
    RecordsReadableInReadable(head, Checkpoints);
    RecordsReadableInReadable(head, CheckpointPlans);
  }

  /** Acceptance, independently of how it counts: a linear, readable, locally safe commit that keeps every old
    * controller record and whose new records are one binding publication, or one binding checkpoint and its plan. */
  lemma VerifiedIff(cfg: Config, h: History, head: Commit)
    ensures VerifyContentHead(cfg, h, head) <==>
            && Linear(head) && Readable(head.tree) && ValidateFiles(cfg.policy, ContentFiles(head.tree))
            && (AddsOnePublication(cfg, h, head) || AddsOneCheckpoint(cfg, h, head))
  {
    if VerifyContentHead(cfg, h, head) {
      if |Added(head, Publications).value| == 1 {
        PublicationCase(cfg, h, head);
      } else {
        CheckpointCase(cfg, h, head);
      }
    } else if Linear(head) && Readable(head.tree) && ValidateFiles(cfg.policy, ContentFiles(head.tree)) {
      forall path ensures !IsPublicationCommit(cfg, h, head, path) {
        if IsPublicationCommit(cfg, h, head, path) {
          OnePublicationIsAccepted(cfg, h, head, path);
          AllRecordsReadable(head);
        }
      }
      forall path, planPath ensures !IsCheckpointCommit(cfg, h, head, path, planPath) {
        if IsCheckpointCommit(cfg, h, head, path, planPath) {
          OneCheckpointIsAccepted(cfg, h, head, path, planPath);
          AllRecordsReadable(head);
        }
      }
    }
  }

  lemma AcceptPublication(cfg: Config, h: History, head: Commit, path: Path)
    requires IsPublicationCommit(cfg, h, head, path)
    requires Readable(head.tree) && ValidateFiles(cfg.policy, ContentFiles(head.tree))
    ensures VerifyContentHead(cfg, h, head)
  {
    OnePublicationIsAccepted(cfg, h, head, path);
    AllRecordsReadable(head);
  }

  lemma AcceptCheckpoint(cfg: Config, h: History, head: Commit, path: Path, planPath: Path)
    requires IsCheckpointCommit(cfg, h, head, path, planPath)
    requires Readable(head.tree) && ValidateFiles(cfg.policy, ContentFiles(head.tree))
    ensures VerifyContentHead(cfg, h, head)
  {
    OneCheckpointIsAccepted(cfg, h, head, path, planPath);
    AllRecordsReadable(head);
  }

  lemma AcceptedParts(cfg: Config, h: History, head: Commit)
    requires VerifyContentHead(cfg, h, head)
    ensures Linear(head) && Readable(head.tree) && ValidateFiles(cfg.policy, ContentFiles(head.tree))
    ensures KeepsRecords(head)
    ensures AddsOnePublication(cfg, h, head) || AddsOneCheckpoint(cfg, h, head)
  {
    RecordsKept(head);
    VerifiedIff(cfg, h, head);
  }

  /** A publication commit is not a checkpoint commit. */
  lemma OneKindOfAddition(cfg: Config, h: History, head: Commit)
    ensures !(AddsOnePublication(cfg, h, head) && AddsOneCheckpoint(cfg, h, head))
  {
  }

  /** On an accepted commit the cheap count decides exactly whether it is a checkpoint. */
  lemma CountExactOnAccepted(cfg: Config, h: History, head: Commit)
    requires VerifyContentHead(cfg, h, head)
    ensures AddsCheckpointByCount(head) <==> AddsOneCheckpoint(cfg, h, head)
  {
    VerifiedIff(cfg, h, head);
    OneKindOfAddition(cfg, h, head);
    CountIsNewPaths(head);
    AddedKeys(head, Checkpoints);
  }

  /** When no record is lost, the count test counts new checkpoint paths. */
  lemma CountIsNewPaths(head: Commit)
    requires Linear(head) && KeepsRecords(head) && Readable(head.tree)
    ensures AddsCheckpointByCount(head) <==> |NewIn(head, Checkpoints)| == 1
  {
    RecordsReadableInReadable(head, Checkpoints);
    var current, prior := UnderDir(head.tree, Checkpoints), UnderDir(head.parents[0].tree, Checkpoints);
    assert current.Keys == prior.Keys + NewIn(head, Checkpoints);
    assert prior.Keys !! NewIn(head, Checkpoints);
  }

  /** Without acceptance the count proves nothing: this commit rewrites the parent's checkpoint and adds a
    * malformed entry, so the count says "checkpoint" although no checkpoint was added. */
  lemma CountInexactWithoutAcceptance(cfg: Config, h: History) returns (head: Commit)
    ensures AddsCheckpointByCount(head) && !VerifyContentHead(cfg, h, head) && !AddsOneCheckpoint(cfg, h, head)
  {
    var kept, junk := CheckpointPath(OtherName("a")), Controller(Checkpoints, Malformed("b"));
    head := Commit([Commit([], map[kept := Text([1])], "")], map[kept := Text([2]), junk := Text([3])], "");
    RewriteIsCounted(head, kept, junk);
    VerifiedIff(cfg, h, head);
  }

  lemma RewriteIsCounted(head: Commit, kept: Path, junk: Path)
    requires InDir(kept, Checkpoints) && InDir(junk, Checkpoints) && kept != junk
    requires head == Commit([Commit([], map[kept := Text([1])], "")], map[kept := Text([2]), junk := Text([3])], "")
    ensures AddsCheckpointByCount(head) && !KeepsRecords(head)
  {
    var parent := head.parents[0];
    assert UnderDir(head.tree, Checkpoints) == head.tree;
    assert UnderDir(parent.tree, Checkpoints) == parent.tree;
    assert head.tree.Keys == {kept, junk} && parent.tree.Keys == {kept};
    assert kept in parent.tree && head.tree[kept] != parent.tree[kept];
  }
}
