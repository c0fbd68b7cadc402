/** Signed records, membership and the local trust configuration they are checked against. */
module Records {
  import opened Commits

  datatype Member = Member(incarnation: string, key: string)

  /** The active members of one membership revision, by instance. */
  datatype Membership = Membership(members: map<string, Member>)

  /** A verified membership history: its head and every revision below it. */
  datatype History = History(head: string, revisions: map<string, Membership>)

  /** The local path rules; each is a decision of the configured route engines about one path. */
  datatype Policy = Policy(governed: string -> bool, protected: string -> bool, reserved: string -> bool, identity: string -> string)

  datatype Config = Config(group: string, contentRef: string, scope: string, contract: string, adminKey: string, policy: Policy)

  predicate ActiveKey(m: Membership, key: string) {
    exists id :: id in m.members && m.members[id].key == key
  }

  /** A publisher key must be active at the named revision and not removed since, unless the commit was
    * verified before or an administrator checkpoint covers it. */
  predicate AuthorizePublisher(h: History, revision: string, key: string, previouslyVerified: bool, administratorCheckpoint: bool) {
    && revision in h.revisions
    && h.head in h.revisions
    && ActiveKey(h.revisions[revision], key)
    && (ActiveKey(h.revisions[h.head], key) || previouslyVerified || administratorCheckpoint)
  }

  predicate VerifySignature(c: Commit, key: string) {
    key != "" && c.signer == key
  }

  function PublicationId(p: Publication): Id {
    PublicationName(p.group, p.publisher, p.incarnation, p.membership, p.base, p.snapshot, p.scope, p.contract, p.source, p.receipts)
  }

  /** The identity does not cover the predecessor the checkpoint is applied to; only the plan's does. */
  function CheckpointId(c: Checkpoint): Id {
    CheckpointName(c.group, c.kind, c.target, c.snapshot, c.scope, c.contract, c.membership, c.adminKey)
  }

  function PlanId(p: Plan): Id {
    PlanName(p.group, p.predecessor, p.membership, p.proposed, p.adminKey)
  }

  /** Validation of a publication does not recompute its identity. */
  predicate ValidPublication(p: Publication) {
    p.source >= 1 && 0 < |p.receipts| <= 100
  }

  predicate ValidCheckpoint(c: Checkpoint) {
    c.id == CheckpointId(c)
  }

  predicate ValidPlan(p: Plan) {
    && p.group == p.proposed.group
    && p.membership == p.proposed.membership
    && p.adminKey == p.proposed.adminKey
    && ValidCheckpoint(p.proposed)
    && p.id == PlanId(p)
  }

  function DecodePublication(b: Blob): Option<Publication> {
    if b.PublicationBlob? && ValidPublication(b.publication) then Some(b.publication) else None
  }

  function DecodeCheckpoint(b: Blob): Option<Checkpoint> {
    if b.CheckpointBlob? && ValidCheckpoint(b.checkpoint) then Some(b.checkpoint) else None
  }

  function DecodePlan(b: Blob): Option<Plan> {
    if b.PlanBlob? && ValidPlan(b.plan) then Some(b.plan) else None
  }

  /** The prepared publication of one snapshot over one base, if it validates. */
  function NewPublication(cfg: Config, publisher: string, incarnation: string, membership: string, base: Commit,
                          snapshot: map<Path, Blob>, source: int, receipts: set<string>): Option<Publication> {
    var id := PublicationName(cfg.group, publisher, incarnation, membership, base, snapshot, cfg.scope, cfg.contract, source, receipts);
    var p := Publication(id, cfg.group, publisher, incarnation, membership, cfg.contentRef, source, base, snapshot,
                         cfg.scope, cfg.contract, receipts);
    if ValidPublication(p) then Some(p) else None
  }

  function NewPlan(cfg: Config, kind: Kind, target: Commit, snapshot: map<Path, Blob>, membership: string, predecessor: Commit): Plan {
    var cid := CheckpointName(cfg.group, kind, target, snapshot, cfg.scope, cfg.contract, membership, cfg.adminKey);
    var cp := Checkpoint(cid, cfg.group, kind, target, snapshot, cfg.scope, cfg.contract, membership, cfg.adminKey);
    Plan(PlanName(cfg.group, predecessor, membership, cp, cfg.adminKey), cfg.group, predecessor, membership, cp, cfg.adminKey)
  }

  function PublicationPath(id: Id): Path { Controller(Publications, Json(id)) }

  function CheckpointPath(id: Id): Path { Controller(Checkpoints, Json(id)) }

  function PlanPath(id: Id): Path { Controller(CheckpointPlans, Json(id)) }
}
