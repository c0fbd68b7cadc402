/** Content history: commits, their trees, and the controller records that trees carry.
  *
  * A commit is a value that contains its parents and its tree, so two commits with the same
  * object identifier are the same commit and no record can name a commit that contains it.
  * That is what collision-free object names give the program.
  */
module Commits {

  datatype Option<T> = None | Some(value: T)

  /** Record identities are the digests of the fields they frame, kept as those fields. */
  datatype Id =
    | PublicationName(group: string, publisher: string, incarnation: string, membership: string,
                      base: Commit, snapshot: map<Path, Blob>, scope: string, contract: string,
                      source: int, receipts: set<string>)
    | CheckpointName(group: string, kind: Kind, target: Commit, snapshot: map<Path, Blob>, scope: string,
                     contract: string, membership: string, adminKey: string)
    | PlanName(group: string, predecessor: Commit, membership: string, checkpoint: Checkpoint, adminKey: string)
    | OtherName(text: string)

  datatype Kind = InitialBaseline | ConflictResolution | HistoryBoundExhausted

  datatype Publication = Publication(
    id: Id, group: string, publisher: string, incarnation: string, membership: string, contentRef: string,
    source: int, base: Commit, snapshot: map<Path, Blob>, scope: string, contract: string, receipts: set<string>)

  datatype Checkpoint = Checkpoint(
    id: Id, group: string, kind: Kind, target: Commit, snapshot: map<Path, Blob>,
    scope: string, contract: string, membership: string, adminKey: string)

  datatype Plan = Plan(
    id: Id, group: string, predecessor: Commit, membership: string, proposed: Checkpoint, adminKey: string)

  /** The bytes of one tree entry. `form` tells apart encodings that decode to the same record; 0 is the
    * canonical one. `Special` is an entry whose mode the readers refuse. */
  datatype Blob =
    | Text(bytes: seq<int>)
    | PublicationBlob(publication: Publication, form: nat)
    | CheckpointBlob(checkpoint: Checkpoint, form: nat)
    | PlanBlob(plan: Plan, form: nat)
    | Special

  datatype Dir = Publications | Checkpoints | CheckpointPlans

  /** The name below a controller directory: `<id>.json`, or anything else. */
  datatype Name = Json(id: Id) | Malformed(text: string)

  datatype Path = Markdown(name: string) | Controller(dir: Dir, file: Name) | Stray(text: string)

  type Tree = map<Path, Blob>

  datatype Commit = Commit(parents: seq<Commit>, tree: Tree, signer: string)

  const EMPTY: Blob := Text([])

  predicate Linear(c: Commit) {
    |c.parents| == 1
  }

  /** The commit `n` first-parent steps behind `c`, when every commit on the way is linear. */
  function Back(c: Commit, n: nat): Option<Commit>
    decreases n
  {
    if n == 0 then Some(c)
    else if Linear(c) then Back(c.parents[0], n - 1)
    else None
  }

  predicate Reaches(c: Commit, n: nat) {
    Back(c, n).Some?
  }

  /** `a` lies on the first-parent chain of `c`, or is `c`. */
  predicate Ancestor(a: Commit, c: Commit)
    decreases c
  {
    a == c || (Linear(c) && Ancestor(a, c.parents[0]))
  }

  predicate Child(base: Commit, c: Commit) {
    c.parents == [base]
  }

  /** Length of the first-parent chain below a commit. */
  function Height(c: Commit): (h: nat)
    decreases c
  {
    if Linear(c) then 1 + Height(c.parents[0]) else 0
  }

  lemma {:induction false} BackHeight(c: Commit, n: nat)
    requires Reaches(c, n)
    ensures Height(c) == Height(Back(c, n).value) + n
    decreases n
  {
    if n > 0 {
      BackHeight(c.parents[0], n - 1);
    }
  }

  lemma {:induction false} AncestorTransitive(a: Commit, b: Commit, c: Commit)
    requires Ancestor(a, b) && Ancestor(b, c)
    ensures Ancestor(a, c)
    decreases c
  {
    if b != c {
      AncestorTransitive(a, b, c.parents[0]);
    }
  }

  lemma {:induction false} AncestorHeight(a: Commit, c: Commit)
    requires Ancestor(a, c)
    ensures Height(a) <= Height(c)
    ensures Height(a) == Height(c) ==> a == c
    decreases c
  {
    if a != c {
      AncestorHeight(a, c.parents[0]);
    }
  }

  /** Two ancestors of one commit are ordered: the history below a ref never forks. */
  lemma {:induction false} AncestorsTotal(a: Commit, b: Commit, c: Commit)
    requires Ancestor(a, c) && Ancestor(b, c)
    ensures Ancestor(a, b) || Ancestor(b, a)
    decreases c
  {
    if a != c && b != c {
      AncestorsTotal(a, b, c.parents[0]);
    }
  }

  /** A non-force push onto `base` can only be a push of a descendant, so a child of `base` that is also a
    * descendant of the value on the remote finds either `base` or something already containing it. */
  lemma {:induction false} ChildOverStrictAncestor(base: Commit, child: Commit, at: Commit)
    requires Child(base, child) && Ancestor(base, at) && Ancestor(at, child)
    ensures at == base || at == child
  {
    if at != child {
      AncestorHeight(base, at);
      AncestorHeight(at, base);
    }
  }

  /** The identity of a record that names a commit: the predecessor, or the target of a checkpoint. */
  predicate BoundTo(id: Id, c: Commit) {
    || (id.PublicationName? && id.base == c)
    || (id.PlanName? && id.predecessor == c)
    || (id.CheckpointName? && id.target == c)
  }

  /** No tree holds a record that names its own commit, so a record that names the predecessor of a new commit is always
    * a new path in it. */
  lemma BoundRecordIsFresh(c: Commit, dir: Dir, id: Id)
    requires BoundTo(id, c)
    ensures Controller(dir, Json(id)) !in c.tree
  {
    var p := Controller(dir, Json(id));
    assert c < id < Json(id) < p;
  }
}
