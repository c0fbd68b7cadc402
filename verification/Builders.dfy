/** The two commands that create content commits, and which of their commits the content-head check admits. */
module Builders {
  import opened Commits
  import opened Records
  import opened Snapshots
  import opened Trust

  /** What a publish run brings besides the history: who signs, with which key, and the maintained snapshot. */
  datatype Request = Request(publisher: string, signingKey: string, snapshot: Files, source: int, receipts: set<string>)

  predicate HasMember(h: History, publisher: string) {
    h.head in h.revisions && publisher in h.revisions[h.head].members
  }

  function MemberOf(h: History, publisher: string): Member
    requires HasMember(h, publisher)
  {
    h.revisions[h.head].members[publisher]
  }

  /** Everything the publish command checks before it freezes a candidate. */
  predicate MayPublish(cfg: Config, h: History, base: Commit, r: Request)
    requires OnlyMarkdown(r.snapshot)
  {
    && HasMember(h, r.publisher) && |h.revisions[h.head].members| == 2
    && AuthorizePublisher(h, h.head, MemberOf(h, r.publisher).key, false, false)
    && VerifyContentHead(cfg, h, base)
    && ValidateTransition(cfg.policy, ContentFiles(base.tree), r.snapshot)
    && !SameContent(ContentFiles(base.tree), r.snapshot)
  }

  function Prepare(cfg: Config, h: History, base: Commit, r: Request): Option<Publication>
    requires HasMember(h, r.publisher)
  {
    NewPublication(cfg, r.publisher, MemberOf(h, r.publisher).incarnation, h.head, base, r.snapshot, r.source, r.receipts)
  }

  function PublicationRecord(p: Publication): Files {
    map[PublicationPath(p.id) := PublicationBlob(p, 0)]
  }

  function SignedPublication(base: Commit, p: Publication, signingKey: string): Commit {
    Commit([base], Rebuilt(base.tree, p.snapshot, PublicationRecord(p)), signingKey)
  }

  /** The publication commit over `base`, when every guard of the publish command passes and the configured
    * key is the pinned one. */
  function PublicationCommit(cfg: Config, h: History, base: Commit, r: Request): Option<Commit>
    requires OnlyMarkdown(r.snapshot)
  {
    if MayPublish(cfg, h, base, r) && Prepare(cfg, h, base, r).Some? then
      var c := SignedPublication(base, Prepare(cfg, h, base, r).value, r.signingKey);
      if VerifySignature(c, MemberOf(h, r.publisher).key) then Some(c) else None
    else None
  }

  /** The candidate of the publish command: clone the snapshot, add the record, delete what is missing. */
  method BuildSignedPublication(base: Commit, p: Publication, signingKey: string) returns (c: Commit)
    ensures c == SignedPublication(base, p, signingKey)
  {
    var files := CloneFiles(p.snapshot);
    files := files[PublicationPath(p.id) := PublicationBlob(p, 0)];
    assert files == p.snapshot + PublicationRecord(p);
    var deletions := MissingPaths(ContentFiles(base.tree), p.snapshot);
    c := Commit([base], SnapshotTree(base.tree, files, deletions), signingKey);
  }

  /** The publish command up to its signed candidate. */
  method BuildPublication(cfg: Config, h: History, base: Commit, r: Request) returns (c: Option<Commit>)
    requires OnlyMarkdown(r.snapshot)
    ensures c == PublicationCommit(cfg, h, base, r)
  {
    if !HasMember(h, r.publisher) || |h.revisions[h.head].members| != 2 {
      return None;
    }
    var member := MemberOf(h, r.publisher);
    if !AuthorizePublisher(h, h.head, member.key, false, false) || !VerifyContentHead(cfg, h, base) {
      return None;
    }
    var before := ContentFiles(base.tree);
    if !ValidateTransition(cfg.policy, before, r.snapshot) {
      return None;
    }
    var same := ContentEqual(before, r.snapshot);
    if same {
      return None;
    }
    var p := Prepare(cfg, h, base, r);
    if p.None? {
      return None;
    }
    var candidate := BuildSignedPublication(base, p.value, r.signingKey);
    c := if VerifySignature(candidate, member.key) then Some(candidate) else None;
  }

  /** Everything the apply command checks about a plan for `target` over `predecessor`. */
  predicate MayCheckpoint(cfg: Config, h: History, kind: Kind, target: Commit, predecessor: Commit) {
    && h.head in h.revisions
    && Readable(target.tree) && Readable(predecessor.tree)
    && (kind == InitialBaseline ==> target == predecessor && ControllerFiles(predecessor.tree) == map[])
    && ValidateTransition(cfg.policy, ContentFiles(predecessor.tree), ContentFiles(target.tree))
  }

  function PlanFor(cfg: Config, h: History, kind: Kind, target: Commit, predecessor: Commit): Plan {
    NewPlan(cfg, kind, target, ContentFiles(target.tree), h.head, predecessor)
  }

  function CheckpointRecords(plan: Plan): Files {
    map[CheckpointPath(plan.proposed.id) := CheckpointBlob(plan.proposed, 0), PlanPath(plan.id) := PlanBlob(plan, 0)]
  }

  function SignedCheckpoint(plan: Plan, signingKey: string): Commit {
    Commit([plan.predecessor], Rebuilt(plan.predecessor.tree, plan.proposed.snapshot, CheckpointRecords(plan)), signingKey)
  }

  /** The checkpoint commit of a reviewed plan, when every guard of the apply command passes and the configured
    * key is the administrator's. The apply command looks at the candidate's signature and at nothing else. */
  function CheckpointCommit(cfg: Config, h: History, kind: Kind, target: Commit, predecessor: Commit, signingKey: string): Option<Commit> {
    if MayCheckpoint(cfg, h, kind, target, predecessor) then
      var c := SignedCheckpoint(PlanFor(cfg, h, kind, target, predecessor), signingKey);
      if VerifySignature(c, cfg.adminKey) then Some(c) else None
    else None
  }

  /** The candidate of the apply command. */
  method BuildSignedCheckpoint(plan: Plan, signingKey: string) returns (c: Commit)
    ensures c == SignedCheckpoint(plan, signingKey)
  {
    var files := CloneFiles(plan.proposed.snapshot);
    files := files[CheckpointPath(plan.proposed.id) := CheckpointBlob(plan.proposed, 0)];
    files := files[PlanPath(plan.id) := PlanBlob(plan, 0)];
    assert files == plan.proposed.snapshot + CheckpointRecords(plan);
    var deletions := MissingPaths(ContentFiles(plan.predecessor.tree), plan.proposed.snapshot);
    c := Commit([plan.predecessor], SnapshotTree(plan.predecessor.tree, files, deletions), signingKey);
  }

  /** Adding fresh records on top of a rebuilt tree keeps the old records and adds exactly the new ones. */
  lemma BuiltRecords(base: Commit, snapshot: Files, records: Files, c: Commit)
    requires Readable(base.tree) && OnlyMarkdown(snapshot) && OnlyControllers(records)
    requires Child(base, c) && c.tree == Rebuilt(base.tree, snapshot, records)
    ensures Readable(c.tree) && ContentFiles(c.tree) == snapshot
    ensures forall p :: p in records ==> p in c.tree && c.tree[p] == records[p]
    ensures NewPaths(c) == records.Keys - base.tree.Keys
    ensures KeepsRecords(c) <==> forall p :: p in records && p in base.tree ==> base.tree[p] == records[p]
  {
    RebuiltOverlays(base.tree, snapshot, records);
    OverlayParts(c.tree, base.tree, snapshot, records);
  }

  /** A signed publication over a readable base adds exactly its own record. */
  lemma SignedPublicationAddsItself(base: Commit, p: Publication, key: string)
    requires Readable(base.tree) && OnlyMarkdown(p.snapshot) && p.id == PublicationId(p) && p.base == base
    ensures var c := SignedPublication(base, p, key);
            && Readable(c.tree) && ContentFiles(c.tree) == p.snapshot && KeepsRecords(c)
            && NewPaths(c) == {PublicationPath(p.id)}
            && PublicationPath(p.id) in c.tree && c.tree[PublicationPath(p.id)] == PublicationBlob(p, 0)
  {
    var c := SignedPublication(base, p, key);
    BuiltRecords(base, p.snapshot, PublicationRecord(p), c);
    BoundRecordIsFresh(base, Publications, p.id);
    assert PublicationPath(p.id) in PublicationRecord(p);
  }

  /** The publication of the current member binds the commit signed with that member's key. */
  lemma SignedPublicationBinds(cfg: Config, h: History, base: Commit, r: Request, p: Publication)
    requires HasMember(h, r.publisher) && Prepare(cfg, h, base, r) == Some(p)
    requires AuthorizePublisher(h, h.head, MemberOf(h, r.publisher).key, false, false)
    requires VerifySignature(SignedPublication(base, p, r.signingKey), MemberOf(h, r.publisher).key)
    requires ContentFiles(SignedPublication(base, p, r.signingKey).tree) == p.snapshot
    ensures PublicationBinds(cfg, h, SignedPublication(base, p, r.signingKey), PublicationPath(p.id), PublicationBlob(p, 0))
  {
  }

  /** Every commit the publish command signs is accepted under the same configuration and membership. */
  lemma PublishedCommitIsAccepted(cfg: Config, h: History, base: Commit, r: Request)
    requires OnlyMarkdown(r.snapshot) && PublicationCommit(cfg, h, base, r).Some?
    ensures VerifyContentHead(cfg, h, PublicationCommit(cfg, h, base, r).value)
    ensures AddsOnePublication(cfg, h, PublicationCommit(cfg, h, base, r).value)
  {
    var p := Prepare(cfg, h, base, r).value;
    var c := SignedPublication(base, p, r.signingKey);
    assert Readable(base.tree) by {
      AcceptedParts(cfg, h, base);
    }
    SignedPublicationAddsItself(base, p, r.signingKey);
    SignedPublicationBinds(cfg, h, base, r, p);
    assert IsPublicationCommit(cfg, h, c, PublicationPath(p.id));
    AcceptPublication(cfg, h, c, PublicationPath(p.id));
  }

  /** A signed checkpoint always adds its plan; it adds its checkpoint unless the predecessor already has it. */
  lemma SignedCheckpointAdds(plan: Plan, key: string)
    requires Readable(plan.predecessor.tree) && OnlyMarkdown(plan.proposed.snapshot)
    requires plan.id == PlanId(plan) && plan.proposed.id == CheckpointId(plan.proposed)
    ensures var c := SignedCheckpoint(plan, key);
            var path, planPath := CheckpointPath(plan.proposed.id), PlanPath(plan.id);
            && Readable(c.tree) && ContentFiles(c.tree) == plan.proposed.snapshot
            && path in c.tree && c.tree[path] == CheckpointBlob(plan.proposed, 0)
            && planPath in c.tree && c.tree[planPath] == PlanBlob(plan, 0)
            && (path !in plan.predecessor.tree ==> KeepsRecords(c) && NewPaths(c) == {path, planPath})
            && (path in plan.predecessor.tree ==> NewPaths(c) == {planPath})
  {
    var c := SignedCheckpoint(plan, key);
    var path, planPath := CheckpointPath(plan.proposed.id), PlanPath(plan.id);
    BuiltRecords(plan.predecessor, plan.proposed.snapshot, CheckpointRecords(plan), c);
    BoundRecordIsFresh(plan.predecessor, CheckpointPlans, plan.id);
    assert CheckpointRecords(plan).Keys == {path, planPath};
    assert path in CheckpointRecords(plan) && planPath in CheckpointRecords(plan);
  }

  lemma SignedCheckpointBinds(cfg: Config, h: History, kind: Kind, target: Commit, predecessor: Commit, key: string)
    requires CheckpointCommit(cfg, h, kind, target, predecessor, key).Some?
    requires ContentFiles(SignedCheckpoint(PlanFor(cfg, h, kind, target, predecessor), key).tree) == ContentFiles(target.tree)
    ensures var plan := PlanFor(cfg, h, kind, target, predecessor);
            CheckpointBinds(cfg, h, SignedCheckpoint(plan, key), CheckpointPath(plan.proposed.id), CheckpointBlob(plan.proposed, 0),
                            PlanPath(plan.id), PlanBlob(plan, 0))
  {
  }

  /** A commit whose only new record is a plan is never accepted. */
  lemma LonePlanRefused(cfg: Config, h: History, c: Commit, planPath: Path)
    requires Linear(c) && InDir(planPath, CheckpointPlans) && NewPaths(c) == {planPath}
    ensures !VerifyContentHead(cfg, h, c)
  {
    VerifiedIff(cfg, h, c);
  }

  /** Exactly which checkpoint commits are accepted after the apply command has signed and pushed them: those whose
    * checkpoint record the predecessor does not already hold. */
  lemma CheckpointCommitAcceptedIff(cfg: Config, h: History, kind: Kind, target: Commit, predecessor: Commit, key: string)
    requires CheckpointCommit(cfg, h, kind, target, predecessor, key).Some?
    ensures VerifyContentHead(cfg, h, CheckpointCommit(cfg, h, kind, target, predecessor, key).value)
       <==> CheckpointPath(PlanFor(cfg, h, kind, target, predecessor).proposed.id) !in predecessor.tree
  {
    var plan := PlanFor(cfg, h, kind, target, predecessor);
    var c := SignedCheckpoint(plan, key);
    var path, planPath := CheckpointPath(plan.proposed.id), PlanPath(plan.id);
    SignedCheckpointAdds(plan, key);
    if path in predecessor.tree {
      LonePlanRefused(cfg, h, c, planPath);
    } else {
      SignedCheckpointBinds(cfg, h, kind, target, predecessor, key);
      assert IsCheckpointCommit(cfg, h, c, path, planPath);
      AcceptCheckpoint(cfg, h, c, path, planPath);
    }
  }

  /** A checkpoint of the very head it is applied to is never a repetition, so it is always accepted. */
  lemma CheckpointOfHeadIsAccepted(cfg: Config, h: History, kind: Kind, head: Commit, key: string)
    requires CheckpointCommit(cfg, h, kind, head, head, key).Some?
    ensures VerifyContentHead(cfg, h, CheckpointCommit(cfg, h, kind, head, head, key).value)
  {
    BoundRecordIsFresh(head, Checkpoints, PlanFor(cfg, h, kind, head, head).proposed.id);
    CheckpointCommitAcceptedIff(cfg, h, kind, head, head, key);
  }

  /** Resolving to the same target twice, anywhere above the first resolution, signs a commit nobody accepts. */
  lemma RepeatedResolutionIsRefused(cfg: Config, h: History, kind: Kind, target: Commit, first: Commit, later: Commit, key: string)
    requires CheckpointCommit(cfg, h, kind, target, first, key).Some?
    requires CheckpointCommit(cfg, h, kind, target, later, key).Some?
    requires ControllerFiles(CheckpointCommit(cfg, h, kind, target, first, key).value.tree).Keys <= later.tree.Keys
    ensures !VerifyContentHead(cfg, h, CheckpointCommit(cfg, h, kind, target, later, key).value)
  {
    var plan := PlanFor(cfg, h, kind, target, first);
    SignedCheckpointAdds(plan, key);
    assert CheckpointPath(plan.proposed.id) in ControllerFiles(SignedCheckpoint(plan, key).tree);
    CheckpointCommitAcceptedIff(cfg, h, kind, target, later, key);
  }

  /** `later` knows every revision of `h` with the same members. */
  predicate ExtendsHistory(later: History, h: History) {
    && later.head in later.revisions
    && forall r :: r in h.revisions ==> r in later.revisions && later.revisions[r] == h.revisions[r]
  }

  /** After the membership moves on, an accepted publication stays accepted exactly while its publisher's key is
    * still active: removing a member makes the member's unimported publications unacceptable. */
  lemma PublicationUnderLaterMembership(cfg: Config, h: History, later: History, head: Commit, path: Path)
    requires VerifyContentHead(cfg, h, head) && IsPublicationCommit(cfg, h, head, path)
    requires ExtendsHistory(later, h)
    ensures var p := DecodePublication(head.tree[path]).value;
            VerifyContentHead(cfg, later, head)
            <==> ActiveKey(later.revisions[later.head], h.revisions[p.membership].members[p.publisher].key)
  {
    var p := DecodePublication(head.tree[path]).value;
    AcceptedParts(cfg, h, head);
    if PublicationBinds(cfg, later, head, path, head.tree[path]) {
      AcceptPublication(cfg, later, head, path);
    } else {
      VerifiedIff(cfg, later, head);
    }
  }

  /** Checkpoints do not depend on the current members. */
  lemma CheckpointUnderLaterMembership(cfg: Config, h: History, later: History, head: Commit)
    requires VerifyContentHead(cfg, h, head) && AddsOneCheckpoint(cfg, h, head)
    requires ExtendsHistory(later, h)
    ensures VerifyContentHead(cfg, later, head)
  {
    var path, planPath :| IsCheckpointCommit(cfg, h, head, path, planPath);
    assert IsCheckpointCommit(cfg, later, head, path, planPath);
    AcceptCheckpoint(cfg, later, head, path, planPath);
  }
}
