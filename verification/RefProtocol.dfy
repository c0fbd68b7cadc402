/** Two nodes and one remote content ref.
  *
  * Every process of a node (publish, checkpoint, import, and the recovery of each) is a sequence of the atomic
  * reads and writes the commands make; processes interleave freely, can crash between any two steps, and a push that
  * was sent may reach the remote at any later time, under Git's fast-forward rule, or never. Publish and import hold
  * the resource guard of their node; checkpoint does not take it.
  */
module RefProtocol {
  import opened Commits

  datatype Node = NodeA | NodeB

  datatype Kind = PublishRun | CheckpointRun | ImportRun

  datatype Phase =
    | Begun
    | Measured(base: Commit)                     // the local ref was read
    | Ready(base: Commit)                        // and the remote ref had the same value
    | Holding(candidate: Commit)                 // signed and journaled, or loaded from the journal
    | Confirmed(candidate: Commit)               // the candidate was read back from the remote
    | Fetched(target: Commit, stamp: nat)        // the remote ref was fetched
    | Planned(source: Commit, target: Commit)    // the import plan is durable

  datatype Proc = Proc(node: Node, kind: Kind, phase: Phase)

  /** Durable state of a node. `unguarded` counts the local advances made without the guard. */
  datatype Local = Local(ref: Commit, journal: set<Commit>, plans: set<(Commit, Commit)>, guard: Option<nat>, unguarded: nat)

  datatype State = State(genesis: Commit, remote: Commit, flights: set<Commit>, a: Local, b: Local, procs: map<nat, Proc>)

  datatype Action =
    | Start(pid: nat, node: Node, kind: Kind)
    | ReadLocal(pid: nat)
    | ReadRemote(pid: nat)
    | Sign(pid: nat, tree: Tree, signer: string)
    | Load(pid: nat, candidate: Commit)
    | Push(pid: nat)
    | Land(candidate: Commit)
    | Drop(candidate: Commit)
    | Probe(pid: nat)
    | Advance(pid: nat)
    | Fetch(pid: nat)
    | PlanImport(pid: nat)
    | Resume(pid: nat, source: Commit, target: Commit)
    | Apply(pid: nat)
    | Crash(pid: nat)

  datatype Relation = Equal | Behind | Ahead | Diverged

  function Compare(left: Commit, right: Commit): Relation {
    if left == right then Equal
    else if Ancestor(left, right) then Behind
    else if Ancestor(right, left) then Ahead
    else Diverged
  }

  function Of(s: State, n: Node): Local {
    if n == NodeA then s.a else s.b
  }

  function With(s: State, n: Node, l: Local): State {
    if n == NodeA then s.(a := l) else s.(b := l)
  }

  predicate Guarded(k: Kind) {
    k != CheckpointRun
  }

  function Enter(s: State, pid: nat, phase: Phase): State
    requires pid in s.procs
  {
    s.(procs := s.procs[pid := s.procs[pid].(phase := phase)])
  }

  /** The process is gone and its guard, if it had one, is free. */
  function Leave(s: State, pid: nat): State
    requires pid in s.procs
  {
    var n := s.procs[pid].node;
    var l := Of(s, n);
    With(s, n, if l.guard == Some(pid) then l.(guard := None) else l).(procs := s.procs - {pid})
  }

  /** The candidate is journaled before anything else can see it. */
  function Journal(s: State, pid: nat, c: Commit): State
    requires pid in s.procs
  {
    var n := s.procs[pid].node;
    Enter(With(s, n, Of(s, n).(journal := Of(s, n).journal + {c})), pid, Holding(c))
  }

  /** A node after a process of kind `k` moved its local ref. */
  function Moved(l: Local, ref: Commit, k: Kind): Local {
    l.(ref := ref, unguarded := l.unguarded + if Guarded(k) then 0 else 1)
  }

  /** Expected-old update of the local ref to the confirmed candidate. */
  function AdvanceLocal(s: State, pid: nat): State
    requires pid in s.procs && s.procs[pid].phase.Confirmed?
  {
    var n, k, c := s.procs[pid].node, s.procs[pid].kind, s.procs[pid].phase.candidate;
    var l := Of(s, n);
    if Child(l.ref, c)
    then Leave(With(s, n, Moved(l, c, k)), pid)
    else Leave(s, pid)
  }

  /** The relation is measured against the local ref as it is now; only a fast-forward is planned. */
  function PlanFetched(s: State, pid: nat): State
    requires pid in s.procs && s.procs[pid].phase.Fetched?
  {
    var n, target := s.procs[pid].node, s.procs[pid].phase.target;
    var l := Of(s, n);
    if Compare(l.ref, target) == Behind
    then Enter(With(s, n, l.(plans := l.plans + {(l.ref, target)})), pid, Planned(l.ref, target))
    else Leave(s, pid)
  }

  /** Expected-old update of the local ref to the import target. */
  function ApplyPlan(s: State, pid: nat): State
    requires pid in s.procs && s.procs[pid].phase.Planned?
  {
    var n, k, p := s.procs[pid].node, s.procs[pid].kind, s.procs[pid].phase;
    var l := Of(s, n);
    if l.ref == p.source then Leave(With(s, n, Moved(l, p.target, k)), pid) else Leave(s, pid)
  }

  /** One step. An action that is not enabled changes nothing. */
  function Step(s: State, act: Action): State {
    match act
    case Start(pid, n, k) =>
      var l := Of(s, n);
      if pid in s.procs || (Guarded(k) && l.guard.Some?) then s
      else With(s, n, if Guarded(k) then l.(guard := Some(pid)) else l).(procs := s.procs[pid := Proc(n, k, Begun)])
    case ReadLocal(pid) =>
      if pid in s.procs && s.procs[pid].phase.Begun? && s.procs[pid].kind != ImportRun
      then Enter(s, pid, Measured(Of(s, s.procs[pid].node).ref)) else s
    case ReadRemote(pid) =>
      if pid in s.procs && s.procs[pid].phase.Measured?
      then if s.remote == s.procs[pid].phase.base then Enter(s, pid, Ready(s.remote)) else Leave(s, pid)
      else s
    case Sign(pid, tree, signer) =>
      if pid in s.procs && s.procs[pid].phase.Ready? then Journal(s, pid, Commit([s.procs[pid].phase.base], tree, signer)) else s
    case Load(pid, c) =>
      if pid in s.procs && s.procs[pid].phase.Begun? && c in Of(s, s.procs[pid].node).journal
      then Enter(s, pid, Holding(c)) else s
    case Push(pid) =>
      if pid in s.procs && s.procs[pid].phase.Holding? && Child(s.remote, s.procs[pid].phase.candidate)
      then s.(flights := s.flights + {s.procs[pid].phase.candidate}) else s
    case Land(c) =>
      if c in s.flights then s.(flights := s.flights - {c}, remote := if Ancestor(s.remote, c) then c else s.remote) else s
    case Drop(c) => s.(flights := s.flights - {c})
    case Probe(pid) =>
      if pid in s.procs && s.procs[pid].phase.Holding? && s.remote == s.procs[pid].phase.candidate
      then Enter(s, pid, Confirmed(s.remote)) else s
    case Advance(pid) => if pid in s.procs && s.procs[pid].phase.Confirmed? then AdvanceLocal(s, pid) else s
    case Fetch(pid) =>
      if pid in s.procs && s.procs[pid].phase.Begun? && s.procs[pid].kind == ImportRun
      then Enter(s, pid, Fetched(s.remote, Of(s, s.procs[pid].node).unguarded)) else s
    case PlanImport(pid) => if pid in s.procs && s.procs[pid].phase.Fetched? then PlanFetched(s, pid) else s
    case Resume(pid, source, target) =>
      if pid in s.procs && s.procs[pid].phase.Begun? && s.procs[pid].kind == ImportRun && (source, target) in Of(s, s.procs[pid].node).plans
      then Enter(s, pid, Planned(source, target)) else s
    case Apply(pid) => if pid in s.procs && s.procs[pid].phase.Planned? then ApplyPlan(s, pid) else s
    case Crash(pid) => if pid in s.procs then Leave(s, pid) else s
  }

  function Run(s: State, acts: seq<Action>): State
    decreases |acts|
  {
    if acts == [] then s else Run(Step(s, acts[0]), acts[1..])
  }

  function Fresh(genesis: Commit): State {
    var l := Local(genesis, {}, {}, None, 0);
    State(genesis, genesis, {}, l, l, map[])
  }

  /** What the durable state of a node promises, given the remote. */
  predicate LocalSafe(l: Local, genesis: Commit, remote: Commit) {
    && Ancestor(genesis, l.ref)
    && Ancestor(l.ref, remote)
    && (forall c :: c in l.journal ==> Linear(c) && Ancestor(c.parents[0], remote))
    && (forall p :: p in l.plans ==> Ancestor(p.0, p.1) && Ancestor(p.1, remote))
  }

  /** What a running process knows. */
  predicate PhaseSafe(p: Proc, l: Local, remote: Commit) {
    match p.phase
    case Begun => true
    case Measured(base) => Ancestor(base, remote)
    case Ready(base) => Ancestor(base, remote)
    case Holding(c) => c in l.journal
    case Confirmed(c) => c in l.journal && Ancestor(c, remote)
    case Fetched(target, stamp) =>
      p.kind == ImportRun && Ancestor(target, remote) && stamp <= l.unguarded && (stamp == l.unguarded ==> Ancestor(l.ref, target))
    case Planned(source, target) => p.kind == ImportRun && Ancestor(source, target) && Ancestor(target, remote)
  }

  predicate Safe(s: State) {
    && Ancestor(s.genesis, s.remote)
    && LocalSafe(s.a, s.genesis, s.remote)
    && LocalSafe(s.b, s.genesis, s.remote)
    && (forall c :: c in s.flights ==> c in s.a.journal + s.b.journal)
    && (forall pid :: pid in s.procs ==>
         && PhaseSafe(s.procs[pid], Of(s, s.procs[pid].node), s.remote)
         && (Guarded(s.procs[pid].kind) ==> Of(s, s.procs[pid].node).guard == Some(pid)))
  }

  lemma FreshIsSafe(genesis: Commit)
    ensures Safe(Fresh(genesis))
  {
  }

  /** Everything a node knows about the remote stays true when the remote advances. */
  lemma LocalSafeForward(l: Local, genesis: Commit, remote: Commit, next: Commit)
    requires LocalSafe(l, genesis, remote) && Ancestor(remote, next)
    ensures LocalSafe(l, genesis, next)
  {
    AncestorTransitive(l.ref, remote, next);
    forall c | c in l.journal ensures Ancestor(c.parents[0], next) {
      AncestorTransitive(c.parents[0], remote, next);
    }
    forall p | p in l.plans ensures Ancestor(p.1, next) {
      AncestorTransitive(p.1, remote, next);
    }
  }

  lemma PhaseSafeForward(p: Proc, l: Local, remote: Commit, next: Commit)
    requires PhaseSafe(p, l, remote) && Ancestor(remote, next)
    ensures PhaseSafe(p, l, next)
  {
    match p.phase
    case Begun =>
    case Measured(base) => AncestorTransitive(base, remote, next);
    case Ready(base) => AncestorTransitive(base, remote, next);
    case Holding(c) =>
    case Confirmed(c) => AncestorTransitive(c, remote, next);
    case Fetched(target, stamp) => AncestorTransitive(target, remote, next);
    case Planned(source, target) => AncestorTransitive(target, remote, next);
  }

  /** A landing push moves the remote to a child of its value, or leaves it. */
  lemma LandIsCompareAndSwap(s: State, c: Commit)
    requires Safe(s) && c in s.flights && Ancestor(s.remote, c)
    ensures c == s.remote || Child(s.remote, c)
  {
    assert c in s.a.journal || c in s.b.journal;
    assert Ancestor(c.parents[0], s.remote);
    ChildOverStrictAncestor(c.parents[0], c, s.remote);
  }

  lemma LandKeepsSafe(s: State, c: Commit)
    requires Safe(s)
    ensures Safe(Step(s, Land(c)))
  {
    var t := Step(s, Land(c));
    if c in s.flights && Ancestor(s.remote, c) {
      AncestorTransitive(s.genesis, s.remote, c);
      LocalSafeForward(s.a, s.genesis, s.remote, c);
      LocalSafeForward(s.b, s.genesis, s.remote, c);
      forall pid | pid in s.procs ensures PhaseSafe(s.procs[pid], Of(s, s.procs[pid].node), c) {
        PhaseSafeForward(s.procs[pid], Of(s, s.procs[pid].node), s.remote, c);
      }
    }
  }

  lemma EnterKeepsSafe(s: State, pid: nat, phase: Phase)
    requires Safe(s) && pid in s.procs
    requires PhaseSafe(s.procs[pid].(phase := phase), Of(s, s.procs[pid].node), s.remote)
    ensures Safe(Enter(s, pid, phase))
  {
    var t := Enter(s, pid, phase);
    forall q | q in t.procs
      ensures PhaseSafe(t.procs[q], Of(t, t.procs[q].node), t.remote)
      ensures Guarded(t.procs[q].kind) ==> Of(t, t.procs[q].node).guard == Some(q)
    {
      assert q in s.procs;
    }
  }

  lemma LeaveKeepsSafe(s: State, pid: nat)
    requires Safe(s) && pid in s.procs
    ensures Safe(Leave(s, pid))
  {
    var t := Leave(s, pid);
    forall q | q in t.procs
      ensures PhaseSafe(t.procs[q], Of(t, t.procs[q].node), t.remote)
      ensures Guarded(t.procs[q].kind) ==> Of(t, t.procs[q].node).guard == Some(q)
    {
      assert q in s.procs && q != pid && t.procs[q] == s.procs[q];
    }
  }

  /** Changing what a node stores is safe when its promises and every process of the node survive the change. */
  lemma WithKeepsSafe(s: State, n: Node, l: Local)
    requires Safe(s) && LocalSafe(l, s.genesis, s.remote)
    requires Of(s, n).journal <= l.journal && l.guard == Of(s, n).guard
    requires forall pid :: pid in s.procs && s.procs[pid].node == n ==> PhaseSafe(s.procs[pid], l, s.remote)
    ensures Safe(With(s, n, l))
  {
    var t := With(s, n, l);
    forall pid | pid in t.procs
      ensures PhaseSafe(t.procs[pid], Of(t, t.procs[pid].node), t.remote)
      ensures Guarded(t.procs[pid].kind) ==> Of(t, t.procs[pid].node).guard == Some(pid)
    {
      assert pid in s.procs;
    }
  }

  lemma StartKeepsSafe(s: State, pid: nat, n: Node, k: Kind)
    requires Safe(s)
    ensures Safe(Step(s, Start(pid, n, k)))
  {
    var t := Step(s, Start(pid, n, k));
    forall q | q in t.procs
      ensures PhaseSafe(t.procs[q], Of(t, t.procs[q].node), t.remote)
      ensures Guarded(t.procs[q].kind) ==> Of(t, t.procs[q].node).guard == Some(q)
    {
      assert q != pid ==> q in s.procs;
    }
  }

  lemma JournalKeepsSafe(s: State, pid: nat, c: Commit)
    requires Safe(s) && pid in s.procs && s.procs[pid].phase.Ready? && Child(s.procs[pid].phase.base, c)
    ensures Safe(Journal(s, pid, c))
  {
    var n := s.procs[pid].node;
    var l := Of(s, n).(journal := Of(s, n).journal + {c});
    assert PhaseSafe(s.procs[pid], Of(s, n), s.remote);
    WithKeepsSafe(s, n, l);
    EnterKeepsSafe(With(s, n, l), pid, Holding(c));
  }

  lemma ChildIsAbove(base: Commit, c: Commit)
    requires Child(base, c)
    ensures Ancestor(base, c)
  {
  }

  lemma MovedIsSafe(l: Local, ref: Commit, k: Kind, genesis: Commit, remote: Commit)
    requires LocalSafe(l, genesis, remote) && Ancestor(l.ref, ref) && Ancestor(ref, remote)
    ensures LocalSafe(Moved(l, ref, k), genesis, remote)
  {
    AncestorTransitive(genesis, l.ref, ref);
  }

  /** What a process knows survives a move of its node's ref, unless it is an import and the move was guarded, which
    * its own guard excludes. */
  lemma PhaseSurvivesMove(p: Proc, l: Local, ref: Commit, k: Kind, remote: Commit)
    requires PhaseSafe(p, l, remote) && (p.phase.Fetched? ==> !Guarded(k))
    ensures PhaseSafe(p, Moved(l, ref, k), remote)
  {
  }

  lemma OnlyGuardHolderIsFetched(s: State, pid: nat, q: nat)
    requires Safe(s) && pid in s.procs && q in s.procs && s.procs[q].node == s.procs[pid].node
    requires s.procs[q].phase.Fetched? && Guarded(s.procs[pid].kind)
    ensures q == pid
  {
    assert PhaseSafe(s.procs[q], Of(s, s.procs[q].node), s.remote);
  }

  /** Moving a local ref forward along the remote history. */
  lemma MoveRefKeepsSafe(s: State, pid: nat, ref: Commit)
    requires Safe(s) && pid in s.procs && !s.procs[pid].phase.Fetched?
    requires Ancestor(Of(s, s.procs[pid].node).ref, ref) && Ancestor(ref, s.remote)
    ensures Safe(Leave(With(s, s.procs[pid].node, Moved(Of(s, s.procs[pid].node), ref, s.procs[pid].kind)), pid))
  {
    var n, k := s.procs[pid].node, s.procs[pid].kind;
    MovedIsSafe(Of(s, n), ref, k, s.genesis, s.remote);
    forall q | q in s.procs && s.procs[q].node == n ensures PhaseSafe(s.procs[q], Moved(Of(s, n), ref, k), s.remote) {
      if s.procs[q].phase.Fetched? && Guarded(k) {
        OnlyGuardHolderIsFetched(s, pid, q);
      }
      PhaseSurvivesMove(s.procs[q], Of(s, n), ref, k, s.remote);
    }
    WithKeepsSafe(s, n, Moved(Of(s, n), ref, k));
    LeaveKeepsSafe(With(s, n, Moved(Of(s, n), ref, k)), pid);
  }

  lemma AdvanceKeepsSafe(s: State, pid: nat)
    requires Safe(s) && pid in s.procs && s.procs[pid].phase.Confirmed?
    ensures Safe(AdvanceLocal(s, pid))
  {
    var n, c := s.procs[pid].node, s.procs[pid].phase.candidate;
    assert PhaseSafe(s.procs[pid], Of(s, n), s.remote);
    if Child(Of(s, n).ref, c) {
      ChildIsAbove(Of(s, n).ref, c);
      MoveRefKeepsSafe(s, pid, c);
    } else {
      LeaveKeepsSafe(s, pid);
    }
  }

  lemma PlanKeepsSafe(s: State, pid: nat)
    requires Safe(s) && pid in s.procs && s.procs[pid].phase.Fetched?
    ensures Safe(PlanFetched(s, pid))
  {
    var n, target := s.procs[pid].node, s.procs[pid].phase.target;
    var l := Of(s, n);
    assert PhaseSafe(s.procs[pid], l, s.remote);
    if Compare(l.ref, target) == Behind {
      var next := l.(plans := l.plans + {(l.ref, target)});
      WithKeepsSafe(s, n, next);
      EnterKeepsSafe(With(s, n, next), pid, Planned(l.ref, target));
    } else {
      LeaveKeepsSafe(s, pid);
    }
  }

  lemma ApplyKeepsSafe(s: State, pid: nat)
    requires Safe(s) && pid in s.procs && s.procs[pid].phase.Planned? && s.procs[pid].kind == ImportRun
    ensures Safe(ApplyPlan(s, pid))
  {
    var n, p := s.procs[pid].node, s.procs[pid].phase;
    assert PhaseSafe(s.procs[pid], Of(s, n), s.remote);
    if Of(s, n).ref == p.source {
      MoveRefKeepsSafe(s, pid, p.target);
    } else {
      LeaveKeepsSafe(s, pid);
    }
  }

  /** Reading the refs, loading a journaled candidate and reading the candidate back change only what a process knows. */
  lemma ReadingKeepsSafe(s: State, act: Action)
    requires Safe(s) && (act.ReadLocal? || act.ReadRemote? || act.Load? || act.Probe?)
    ensures Safe(Step(s, act))
  {
    var pid := act.pid;
    if pid in s.procs && Step(s, act) != s {
      assert PhaseSafe(s.procs[pid], Of(s, s.procs[pid].node), s.remote);
      match act
      case ReadLocal(_) => EnterKeepsSafe(s, pid, Measured(Of(s, s.procs[pid].node).ref));
      case ReadRemote(_) =>
        EnterKeepsSafe(s, pid, Ready(s.remote));
        LeaveKeepsSafe(s, pid);
      case Load(_, c) => EnterKeepsSafe(s, pid, Holding(c));
      case Probe(_) => EnterKeepsSafe(s, pid, Confirmed(s.remote));
    }
  }

  /** The steps of an import, from a fetch or from a durable plan. */
  lemma ImportingKeepsSafe(s: State, act: Action)
    requires Safe(s) && (act.Fetch? || act.PlanImport? || act.Resume? || act.Apply?)
    ensures Safe(Step(s, act))
  {
    var pid := act.pid;
    if pid in s.procs && Step(s, act) != s {
      assert PhaseSafe(s.procs[pid], Of(s, s.procs[pid].node), s.remote);
      match act
      case Fetch(_) => EnterKeepsSafe(s, pid, Fetched(s.remote, Of(s, s.procs[pid].node).unguarded));
      case PlanImport(_) => PlanKeepsSafe(s, pid);
      case Resume(_, source, target) => EnterKeepsSafe(s, pid, Planned(source, target));
      case Apply(_) => ApplyKeepsSafe(s, pid);
    }
  }

  /** A candidate leaves its node only out of the journal. */
  lemma PushKeepsSafe(s: State, pid: nat)
    requires Safe(s)
    ensures Safe(Step(s, Push(pid)))
  {
    if pid in s.procs && s.procs[pid].phase.Holding? {
      assert PhaseSafe(s.procs[pid], Of(s, s.procs[pid].node), s.remote);
    }
  }

  /** Every step of every process keeps the promises. */
  lemma StepKeepsSafe(s: State, act: Action)
    requires Safe(s)
    ensures Safe(Step(s, act))
  {
    match act
    case Start(pid, n, k) => StartKeepsSafe(s, pid, n, k);
    case Sign(pid, tree, signer) =>
      if pid in s.procs && s.procs[pid].phase.Ready? {
        JournalKeepsSafe(s, pid, Commit([s.procs[pid].phase.base], tree, signer));
      }
    case Push(pid) => PushKeepsSafe(s, pid);
    case Land(c) => LandKeepsSafe(s, c);
    case Drop(c) =>
    case Advance(pid) =>
      if pid in s.procs && s.procs[pid].phase.Confirmed? { AdvanceKeepsSafe(s, pid); }
    case Crash(pid) =>
      if pid in s.procs { LeaveKeepsSafe(s, pid); }
    case _ =>
      if act.ReadLocal? || act.ReadRemote? || act.Load? || act.Probe? {
        ReadingKeepsSafe(s, act);
      } else {
        ImportingKeepsSafe(s, act);
      }
  }

  lemma {:induction false} RunKeepsSafe(s: State, acts: seq<Action>)
    requires Safe(s)
    ensures Safe(Run(s, acts))
    decreases |acts|
  {
    if acts != [] {
      StepKeepsSafe(s, acts[0]);
      RunKeepsSafe(Step(s, acts[0]), acts[1..]);
    }
  }

  /** A local ref moves only forward. */
  ghost predicate Forward(l: Local, next: Local) {
    Ancestor(l.ref, next.ref) && l.journal <= next.journal && l.unguarded <= next.unguarded
  }

  /** The remote stays, or moves to a child that was journaled before by the node that pushed it. */
  ghost predicate RemoteStep(s: State, t: State) {
    t.remote == s.remote || (Child(s.remote, t.remote) && t.remote in s.a.journal + s.b.journal)
  }

  lemma AdvanceMovesForward(s: State, pid: nat)
    requires Safe(s) && pid in s.procs && s.procs[pid].phase.Confirmed?
    ensures var t := AdvanceLocal(s, pid); t.remote == s.remote && Forward(s.a, t.a) && Forward(s.b, t.b)
  {
    var n, c := s.procs[pid].node, s.procs[pid].phase.candidate;
    if Child(Of(s, n).ref, c) {
      ChildIsAbove(Of(s, n).ref, c);
    }
  }

  lemma ApplyMovesForward(s: State, pid: nat)
    requires Safe(s) && pid in s.procs && s.procs[pid].phase.Planned?
    ensures var t := ApplyPlan(s, pid); t.remote == s.remote && Forward(s.a, t.a) && Forward(s.b, t.b)
  {
    assert PhaseSafe(s.procs[pid], Of(s, s.procs[pid].node), s.remote);
  }

  /** Every step but a landing, a local advance and an applied import leaves all the refs alone. */
  lemma OtherStepsMoveNothing(s: State, act: Action)
    requires Safe(s) && !act.Land? && !act.Advance? && !act.Apply?
    ensures var t := Step(s, act); t.genesis == s.genesis && t.remote == s.remote
    ensures var t := Step(s, act); t.a.ref == s.a.ref && t.b.ref == s.b.ref
    ensures var t := Step(s, act); s.a.journal <= t.a.journal && s.b.journal <= t.b.journal
    ensures var t := Step(s, act); t.a.unguarded == s.a.unguarded && t.b.unguarded == s.b.unguarded
  {
  }

  /** Every step, of any process of either node, moves every ref forward, and the remote by at most one commit that its
    * node had journaled: a push under the fast-forward rule alone behaves as a compare-and-swap on the base. */
  lemma StepMovesForward(s: State, act: Action)
    requires Safe(s)
    ensures Step(s, act).genesis == s.genesis && RemoteStep(s, Step(s, act))
    ensures Forward(s.a, Step(s, act).a) && Forward(s.b, Step(s, act).b)
  {
    match act
    case Land(c) =>
      if c in s.flights && Ancestor(s.remote, c) {
        LandIsCompareAndSwap(s, c);
      }
    case Advance(pid) =>
      if pid in s.procs && s.procs[pid].phase.Confirmed? { AdvanceMovesForward(s, pid); }
    case Apply(pid) =>
      if pid in s.procs && s.procs[pid].phase.Planned? { ApplyMovesForward(s, pid); }
    case _ => OtherStepsMoveNothing(s, act);
  }

  lemma {:induction false} RunMovesForward(s: State, acts: seq<Action>)
    requires Safe(s)
    ensures Run(s, acts).genesis == s.genesis && Ancestor(s.remote, Run(s, acts).remote)
    ensures Forward(s.a, Run(s, acts).a) && Forward(s.b, Run(s, acts).b)
    decreases |acts|
  {
    if acts != [] {
      var next, last := Step(s, acts[0]), Run(s, acts);
      StepKeepsSafe(s, acts[0]);
      StepMovesForward(s, acts[0]);
      RunMovesForward(next, acts[1..]);
      if Child(s.remote, next.remote) {
        ChildIsAbove(s.remote, next.remote);
      }
      AncestorTransitive(s.remote, next.remote, last.remote);
      AncestorTransitive(s.a.ref, next.a.ref, last.a.ref);
      AncestorTransitive(s.b.ref, next.b.ref, last.b.ref);
    }
  }

  /** On every run the remote history is one first-parent chain above the start, and each node's local ref lies on it,
    * so the two nodes never diverge from the remote or from each other. */
  lemma RefsStayOnOneChain(genesis: Commit, acts: seq<Action>)
    ensures var s := Run(Fresh(genesis), acts);
      && Ancestor(genesis, s.remote)
      && Ancestor(s.a.ref, s.remote) && Ancestor(s.b.ref, s.remote)
      && Compare(s.a.ref, s.remote) in {Equal, Behind} && Compare(s.b.ref, s.remote) in {Equal, Behind}
      && Compare(s.a.ref, s.b.ref) != Diverged
  {
    FreshIsSafe(genesis);
    RunKeepsSafe(Fresh(genesis), acts);
    RunMovesForward(Fresh(genesis), acts);
    var s := Run(Fresh(genesis), acts);
    AncestorsTotal(s.a.ref, s.b.ref, s.remote);
  }

  /** Write-ahead: the remote only ever shows the start or a commit that is in a node's journal. */
  lemma {:induction false} RemoteIsJournaled(s: State, acts: seq<Action>)
    requires Safe(s)
    ensures var t := Run(s, acts); t.remote == s.remote || t.remote in t.a.journal + t.b.journal
    decreases |acts|
  {
    if acts != [] {
      StepKeepsSafe(s, acts[0]);
      StepMovesForward(s, acts[0]);
      RemoteIsJournaled(Step(s, acts[0]), acts[1..]);
      RunMovesForward(Step(s, acts[0]), acts[1..]);
    }
  }

  /** What the import of a node finds when it compares its local ref with what it fetched: never divergence, and
    * being ahead only when a checkpoint of the same node, which takes no guard, advanced the ref in between. */
  lemma ImportRelation(s: State, pid: nat)
    requires Safe(s) && pid in s.procs && s.procs[pid].phase.Fetched?
    ensures var l, f := Of(s, s.procs[pid].node), s.procs[pid].phase;
      && Compare(l.ref, f.target) != Diverged
      && (Compare(l.ref, f.target) == Ahead ==> f.stamp < l.unguarded)
  {
    var l, f := Of(s, s.procs[pid].node), s.procs[pid].phase;
    assert PhaseSafe(s.procs[pid], l, s.remote);
    AncestorsTotal(l.ref, f.target, s.remote);
  }

  /** An import that fetched, seen in any later state of a run in which no checkpoint of its node advanced. */
  lemma ImportSeesFastForward(s: State, acts: seq<Action>, pid: nat)
    requires Safe(s)
    requires var t := Run(s, acts);
             (pid in t.procs && t.procs[pid].phase.Fetched? && t.procs[pid].phase.stamp == Of(t, t.procs[pid].node).unguarded)
    ensures var t := Run(s, acts);
            Compare(Of(t, t.procs[pid].node).ref, t.procs[pid].phase.target) in {Equal, Behind}
  {
    RunKeepsSafe(s, acts);
    ImportRelation(Run(s, acts), pid);
  }

  /** The steps of one process that is not disturbed, up to its push. */
  function SendSteps(pid: nat, n: Node, k: Kind, tree: Tree): seq<Action> {
    [Start(pid, n, k), ReadLocal(pid), ReadRemote(pid), Sign(pid, tree, ""), Push(pid)]
  }

  function SettleSteps(pid: nat, c: Commit): seq<Action> {
    [Land(c), Probe(pid), Advance(pid)]
  }

  /** A publish or checkpoint process of a node at `base` may start now and would see `base` on the remote. */
  predicate MayStart(s: State, pid: nat, n: Node, k: Kind, base: Commit) {
    && k != ImportRun && pid !in s.procs && (Guarded(k) ==> Of(s, n).guard == None)
    && Of(s, n).ref == base && s.remote == base
  }

  lemma RunTwo(s: State, x: Action, y: Action)
    ensures Run(s, [x, y]) == Step(Step(s, x), y)
  {
    assert Run(s, [x, y]) == Run(Step(s, x), [y]);
    assert Run(Step(s, x), [y]) == Run(Step(Step(s, x), y), []);
  }

  lemma {:induction false} RunAppend(s: State, acts: seq<Action>, more: seq<Action>)
    ensures Run(s, acts + more) == Run(Run(s, acts), more)
    decreases |acts|
  {
    if acts == [] {
      assert acts + more == more;
    } else {
      assert (acts + more)[1..] == acts[1..] + more;
      RunAppend(Step(s, acts[0]), acts[1..], more);
    }
  }

  lemma SendMeasures(s: State, pid: nat, n: Node, k: Kind, base: Commit)
    requires MayStart(s, pid, n, k, base)
    ensures var t := Run(s, [Start(pid, n, k), ReadLocal(pid)]);
      && t == With(s, n, if Guarded(k) then Of(s, n).(guard := Some(pid)) else Of(s, n))
              .(procs := s.procs[pid := Proc(n, k, Measured(base))])
  {
    RunTwo(s, Start(pid, n, k), ReadLocal(pid));
  }

  lemma SendSigns(s: State, pid: nat, n: Node, k: Kind, base: Commit, tree: Tree)
    requires pid in s.procs && s.procs[pid] == Proc(n, k, Measured(base)) && s.remote == base
    ensures var c, t := Commit([base], tree, ""), Run(s, [ReadRemote(pid), Sign(pid, tree, "")]);
      t == With(s, n, Of(s, n).(journal := Of(s, n).journal + {c})).(procs := s.procs[pid := Proc(n, k, Holding(c))])
  {
    RunTwo(s, ReadRemote(pid), Sign(pid, tree, ""));
  }

  /** Undisturbed, the first half of a process journals one child of the base and sends it. */
  lemma SendReaches(s: State, pid: nat, n: Node, k: Kind, base: Commit, tree: Tree)
    requires MayStart(s, pid, n, k, base)
    ensures var c, t := Commit([base], tree, ""), Run(s, SendSteps(pid, n, k, tree));
      && t.remote == base && c in t.flights && t.genesis == s.genesis
      && Of(t, n) == Of(s, n).(journal := Of(s, n).journal + {c}, guard := if Guarded(k) then Some(pid) else Of(s, n).guard)
      && (forall m :: m != n ==> Of(t, m) == Of(s, m))
      && t.procs == s.procs[pid := Proc(n, k, Holding(c))]
  {
    var first, second, third := [Start(pid, n, k), ReadLocal(pid)], [ReadRemote(pid), Sign(pid, tree, "")], [Push(pid)];
    assert SendSteps(pid, n, k, tree) == first + (second + third);
    SendMeasures(s, pid, n, k, base);
    var s2 := Run(s, first);
    SendSigns(s2, pid, n, k, base, tree);
    var s4 := Run(s2, second);
    RunAppend(s, first, second + third);
    RunAppend(s2, second, third);
    PushSends(s4, pid, base, Commit([base], tree, ""));
  }

  lemma PushSends(s: State, pid: nat, base: Commit, c: Commit)
    requires pid in s.procs && s.procs[pid].phase == Holding(c) && s.remote == base && Child(base, c)
    ensures Run(s, [Push(pid)]) == s.(flights := s.flights + {c})
  {
    assert [Push(pid)][1..] == [];
    assert Run(s, [Push(pid)]) == Run(Step(s, Push(pid)), []);
  }

  /** And the second half makes remote and local the candidate. */
  lemma SettleReaches(s: State, pid: nat, n: Node, k: Kind, base: Commit, c: Commit)
    requires k != ImportRun && Child(base, c) && c in s.flights && s.remote == base && Of(s, n).ref == base
    requires pid in s.procs && s.procs[pid] == Proc(n, k, Holding(c))
    ensures var t := Run(s, SettleSteps(pid, c));
      && t.remote == c && Of(t, n).ref == c && Of(t, n).journal == Of(s, n).journal
      && (forall m :: m != n ==> Of(t, m) == Of(s, m))
      && t.procs == s.procs - {pid} && (Guarded(k) && Of(s, n).guard == Some(pid) ==> Of(t, n).guard == None)
  {
    var acts := SettleSteps(pid, c);
    ChildIsAbove(base, c);
    RunAppend(s, [acts[0], acts[1]], [acts[2]]);
    assert acts == [acts[0], acts[1]] + [acts[2]];
    RunTwo(s, acts[0], acts[1]);
    var s2 := Step(Step(s, acts[0]), acts[1]);
    assert s2.remote == c && s2.procs == s.procs[pid := Proc(n, k, Confirmed(c))];
    assert [acts[2]][1..] == [];
    assert Run(s2, [acts[2]]) == Step(s2, acts[2]);
  }

  /** With a checkpoint in between, the ahead branch is reachable although nothing outside the protocol moved a ref. */
  lemma AheadIsReachable(genesis: Commit) returns (acts: seq<Action>)
    ensures var s := Run(Fresh(genesis), acts);
            0 in s.procs && s.procs[0].phase.Fetched? && Compare(s.a.ref, s.procs[0].phase.target) == Ahead
  {
    var s0, c := Fresh(genesis), Commit([genesis], map[], "");
    RunTwo(s0, Start(0, NodeA, ImportRun), Fetch(0));
    var s1 := Run(s0, [Start(0, NodeA, ImportRun), Fetch(0)]);
    assert s1.procs[0].phase == Fetched(genesis, 0);
    SendReaches(s1, 1, NodeA, CheckpointRun, genesis, map[]);
    var s2 := Run(s1, SendSteps(1, NodeA, CheckpointRun, map[]));
    SettleReaches(s2, 1, NodeA, CheckpointRun, genesis, c);
    RunAppend(s1, SendSteps(1, NodeA, CheckpointRun, map[]), SettleSteps(1, c));
    acts := [Start(0, NodeA, ImportRun), Fetch(0)] + (SendSteps(1, NodeA, CheckpointRun, map[]) + SettleSteps(1, c));
    RunAppend(s0, [Start(0, NodeA, ImportRun), Fetch(0)], SendSteps(1, NodeA, CheckpointRun, map[]) + SettleSteps(1, c));
    AheadOfParent(genesis, c);
  }

  lemma AheadOfParent(base: Commit, c: Commit)
    requires Child(base, c)
    ensures Compare(c, base) == Ahead
  {
    ChildIsAbove(base, c);
    if Ancestor(c, base) {
      AncestorHeight(c, base);
    }
    assert Height(c) == 1 + Height(base);
  }

  /** Once one of two rival children of a base is on the remote history, the other never will be. */
  lemma RivalNeverLands(s: State, acts: seq<Action>, base: Commit, winner: Commit, rival: Commit)
    requires Safe(s) && Child(base, winner) && Child(base, rival) && winner != rival && Ancestor(winner, s.remote)
    ensures !Ancestor(rival, Run(s, acts).remote)
  {
    var last := Run(s, acts).remote;
    RunMovesForward(s, acts);
    AncestorTransitive(winner, s.remote, last);
    if Ancestor(rival, last) {
      AncestorsTotal(winner, rival, last);
      assert Height(winner) == Height(rival) == 1 + Height(base);
      if Ancestor(winner, rival) {
        AncestorHeight(winner, rival);
      } else {
        AncestorHeight(rival, winner);
      }
    }
  }

  function ImportSteps(pid: nat): seq<Action> {
    [Start(pid, NodeB, ImportRun), Fetch(pid), PlanImport(pid), Apply(pid)]
  }

  /** Undisturbed, an import of a node one commit behind brings its local ref to the remote's value. */
  lemma ImportReaches(s: State, pid: nat, base: Commit, c: Commit)
    requires Child(base, c) && s.remote == c && s.b.ref == base && s.b.guard == None && pid !in s.procs
    ensures var t := Run(s, ImportSteps(pid));
      && t.remote == c && t.b.ref == c && t.b.guard == None && t.a == s.a && t.procs == s.procs && t.flights == s.flights
  {
    var acts := ImportSteps(pid);
    assert acts == [acts[0], acts[1]] + [acts[2], acts[3]];
    RunAppend(s, [acts[0], acts[1]], [acts[2], acts[3]]);
    RunTwo(s, acts[0], acts[1]);
    ImportApplies(Step(Step(s, acts[0]), acts[1]), pid, base, c);
  }

  lemma ImportApplies(s: State, pid: nat, base: Commit, c: Commit)
    requires Child(base, c) && s.b.ref == base && s.b.guard == Some(pid)
    requires pid in s.procs && s.procs[pid] == Proc(NodeB, ImportRun, Fetched(c, s.b.unguarded))
    ensures var t := Run(s, [PlanImport(pid), Apply(pid)]);
      && t == s.(b := t.b, procs := s.procs - {pid}) && t.b.ref == c && t.b.guard == None
  {
    ChildIsAbove(base, c);
    AheadOfParent(base, c);
    RunTwo(s, PlanImport(pid), Apply(pid));
    assert Step(s, PlanImport(pid)).procs == s.procs[pid := Proc(NodeB, ImportRun, Planned(base, c))];
  }

  /** Node A pushes a publication and crashes while the push is still on its way. */
  lemma CrashAfterPush(genesis: Commit, c: Commit)
    requires c == Commit([genesis], map[], "")
    ensures var t := Run(Fresh(genesis), SendSteps(0, NodeA, PublishRun, map[]) + [Land(c), Crash(0)]);
      && t.remote == c && t.procs == map[] && t.a.ref == genesis && c in t.a.journal && t.b == Fresh(genesis).b
  {
    var s0, send := Fresh(genesis), SendSteps(0, NodeA, PublishRun, map[]);
    SendReaches(s0, 0, NodeA, PublishRun, genesis, map[]);
    ChildIsAbove(genesis, c);
    RunAppend(s0, send, [Land(c), Crash(0)]);
    RunTwo(Run(s0, send), Land(c), Crash(0));
    assert Of(Run(s0, send), NodeB) == Of(s0, NodeB);
  }

  /** The other node imports that commit and publishes on top of it. */
  lemma PeerBuildsOn(s: State, genesis: Commit, c: Commit, d: Commit)
    requires Child(genesis, c) && d == Commit([c], map[], "")
    requires s.remote == c && s.b.ref == genesis && s.b.guard == None && s.procs == map[]
    ensures var t := Run(s, ImportSteps(1) + (SendSteps(2, NodeB, PublishRun, map[]) + SettleSteps(2, d)));
      t.remote == d && t.a == s.a && t.procs == map[]
  {
    var send, settle := SendSteps(2, NodeB, PublishRun, map[]), SettleSteps(2, d);
    RunAppend(s, ImportSteps(1), send + settle);
    ImportReaches(s, 1, genesis, c);
    var s3 := Run(s, ImportSteps(1));
    RunAppend(s3, send, settle);
    SendReaches(s3, 2, NodeB, PublishRun, c, map[]);
    var s4 := Run(s3, send);
    SettleReaches(s4, 2, NodeB, PublishRun, c, d);
    assert Of(Run(s4, settle), NodeA) == Of(s4, NodeA) == Of(s3, NodeA);
  }

  /** A candidate whose node crashed right after the push may have reached the remote and been built upon: recovery
    * then finds neither its base nor its candidate there, and must not conclude that the push never happened. */
  lemma BuiltUponIsReachable(genesis: Commit) returns (acts: seq<Action>, c: Commit)
    ensures var s := Run(Fresh(genesis), acts);
      && c in s.a.journal && Child(genesis, c) && s.a.ref == genesis && s.procs == map[]
      && s.remote != genesis && s.remote != c && Ancestor(c, s.remote)
  {
    c := Commit([genesis], map[], "");
    var d := Commit([c], map[], "");
    var start := SendSteps(0, NodeA, PublishRun, map[]) + [Land(c), Crash(0)];
    var rest := ImportSteps(1) + (SendSteps(2, NodeB, PublishRun, map[]) + SettleSteps(2, d));
    CrashAfterPush(genesis, c);
    PeerBuildsOn(Run(Fresh(genesis), start), genesis, c, d);
    RunAppend(Fresh(genesis), start, rest);
    acts := start + rest;
    ChildIsAbove(c, d);
    assert Height(d) == 1 + Height(c) == 2 + Height(genesis);
  }

  /** `c` was the remote's value at some point of the run. */
  predicate WasRemote(s: State, acts: seq<Action>, c: Commit)
    decreases |acts|
  {
    s.remote == c || (acts != [] && WasRemote(Step(s, acts[0]), acts[1..], c))
  }

  lemma BetweenIsEqual(a: Commit, b: Commit)
    requires Ancestor(a, b) && Ancestor(b, a)
    ensures a == b
  {
    AncestorHeight(a, b);
    AncestorHeight(b, a);
  }

  /** A commit above the remote was on the remote during a run exactly when the remote's value in the end has it in its
    * history. */
  lemma {:induction false} ReachedIff(s: State, acts: seq<Action>, c: Commit)
    requires Safe(s) && Ancestor(s.remote, c)
    ensures WasRemote(s, acts, c) <==> Ancestor(c, Run(s, acts).remote)
    decreases |acts|
  {
    var last := Run(s, acts).remote;
    RunMovesForward(s, acts);
    if acts == [] {
      if Ancestor(c, last) { BetweenIsEqual(c, last); }
    } else if c != s.remote {
      var next := Step(s, acts[0]);
      StepKeepsSafe(s, acts[0]);
      StepMovesForward(s, acts[0]);
      RunMovesForward(next, acts[1..]);
      if next.remote == s.remote || Ancestor(next.remote, c) {
        ReachedIff(next, acts[1..], c);
      } else {
        NotBetween(s.remote, next.remote, c);
        NeverPassed(next, acts[1..], c);
      }
    }
  }

  /** Between a commit and its child there is nothing. */
  lemma NotBetween(base: Commit, next: Commit, c: Commit)
    requires Child(base, next) && Ancestor(base, c) && c != base
    ensures Ancestor(c, next) ==> c == next
  {
    if Ancestor(c, next) && c != next {
      BetweenIsEqual(c, base);
    }
  }

  /** A remote that has moved past a commit's place without taking it never shows it. */
  lemma {:induction false} NeverPassed(s: State, acts: seq<Action>, c: Commit)
    requires Safe(s) && !Ancestor(s.remote, c) && !Ancestor(c, s.remote)
    ensures !WasRemote(s, acts, c) && !Ancestor(c, Run(s, acts).remote)
    decreases |acts|
  {
    var last := Run(s, acts).remote;
    RunMovesForward(s, acts);
    if Ancestor(c, last) {
      AncestorsTotal(c, s.remote, last);
    }
    if acts != [] {
      var next := Step(s, acts[0]);
      StepKeepsSafe(s, acts[0]);
      StepMovesForward(s, acts[0]);
      if Child(s.remote, next.remote) { ChildIsAbove(s.remote, next.remote); }
      if Ancestor(next.remote, c) { AncestorTransitive(s.remote, next.remote, c); }
      if Ancestor(c, next.remote) { AncestorsTotal(c, s.remote, next.remote); }
      NeverPassed(next, acts[1..], c);
    }
  }

  /** Every base a process measured and every candidate it journaled stands on the start. */
  predicate Above(s: State) {
    && (forall c :: c in s.a.journal + s.b.journal ==> Linear(c) && Ancestor(s.genesis, c.parents[0]))
    && (forall pid :: pid in s.procs && s.procs[pid].phase.Measured? ==> Ancestor(s.genesis, s.procs[pid].phase.base))
    && (forall pid :: pid in s.procs && s.procs[pid].phase.Ready? ==> Ancestor(s.genesis, s.procs[pid].phase.base))
  }

  lemma StepKeepsAbove(s: State, act: Action)
    requires Safe(s) && Above(s)
    ensures Above(Step(s, act))
  {
    match act
    case Sign(pid, tree, signer) =>
      if pid in s.procs && s.procs[pid].phase.Ready? {
        SignKeepsAbove(s, pid, Commit([s.procs[pid].phase.base], tree, signer));
      }
    case _ =>
      SameJournals(s, act);
      MeasuresAbove(s, act);
  }

  lemma SameJournals(s: State, act: Action)
    requires !act.Sign?
    ensures var t := Step(s, act); t.genesis == s.genesis && t.a.journal == s.a.journal && t.b.journal == s.b.journal
  {
  }

  lemma MeasuresAbove(s: State, act: Action)
    requires Safe(s) && Above(s) && !act.Sign?
    ensures var t := Step(s, act); forall pid :: pid in t.procs ==>
      && (t.procs[pid].phase.Measured? ==> Ancestor(s.genesis, t.procs[pid].phase.base))
      && (t.procs[pid].phase.Ready? ==> Ancestor(s.genesis, t.procs[pid].phase.base))
  {
  }

  lemma SignKeepsAbove(s: State, pid: nat, c: Commit)
    requires Above(s) && pid in s.procs && s.procs[pid].phase.Ready? && Child(s.procs[pid].phase.base, c)
    ensures Above(Journal(s, pid, c))
  {
  }

  lemma {:induction false} RunKeepsAbove(s: State, acts: seq<Action>)
    requires Safe(s) && Above(s)
    ensures Above(Run(s, acts))
    decreases |acts|
  {
    if acts != [] {
      StepKeepsSafe(s, acts[0]);
      StepKeepsAbove(s, acts[0]);
      RunKeepsAbove(Step(s, acts[0]), acts[1..]);
    }
  }

  /** Whether a journaled candidate ever reached the remote is exactly whether the remote's history has it, which
    * recovery could read from the fetched ref. */
  lemma CandidateReachedIff(genesis: Commit, acts: seq<Action>, c: Commit)
    requires var t := Run(Fresh(genesis), acts); c in t.a.journal + t.b.journal
    ensures WasRemote(Fresh(genesis), acts, c) <==> Ancestor(c, Run(Fresh(genesis), acts).remote)
  {
    FreshIsSafe(genesis);
    RunKeepsAbove(Fresh(genesis), acts);
    RunMovesForward(Fresh(genesis), acts);
    ChildIsAbove(c.parents[0], c);
    AncestorTransitive(genesis, c.parents[0], c);
    ReachedIff(Fresh(genesis), acts, c);
  }

  /** A blocked publication: recovery finds neither its base nor its candidate on the remote. Then the candidate reached
    * the remote exactly when the remote's history has it, and no later step changes that. */
  lemma BlockedReachedIff(genesis: Commit, acts: seq<Action>, more: seq<Action>, c: Commit)
    requires var t := Run(Fresh(genesis), acts); c in t.a.journal + t.b.journal
    requires var remote := Run(Fresh(genesis), acts).remote; remote != c && !Child(remote, c)
    ensures WasRemote(Fresh(genesis), acts + more, c) <==> Ancestor(c, Run(Fresh(genesis), acts).remote)
  {
    var s, t := Fresh(genesis), Run(Fresh(genesis), acts);
    FreshIsSafe(genesis);
    RunKeepsSafe(s, acts);
    RunAppend(s, acts, more);
    RunMovesForward(t, more);
    CandidateReachedIff(genesis, acts, c);
    CandidateReachedIff(genesis, acts + more, c);
    if Ancestor(c, t.remote) {
      AncestorTransitive(c, t.remote, Run(t, more).remote);
    } else {
      assert Ancestor(c.parents[0], t.remote);
      if Ancestor(t.remote, c) { BetweenIsEqual(t.remote, c.parents[0]); }
      NeverPassed(t, more, c);
    }
  }

  /** An advance of the node puts a fetched import ahead exactly when the node was at what was fetched; a node that is
    * behind stays equal or behind. */
  lemma AheadIff(s: State, pid: nat, q: nat)
    requires Safe(s) && pid in s.procs && s.procs[pid].phase.Fetched?
    requires Compare(Of(s, s.procs[pid].node).ref, s.procs[pid].phase.target) != Ahead
    requires q in s.procs && s.procs[q].phase.Confirmed? && s.procs[q].node == s.procs[pid].node
    requires Child(Of(s, s.procs[pid].node).ref, s.procs[q].phase.candidate)
    ensures var n, target := s.procs[pid].node, s.procs[pid].phase.target;
      Compare(Of(Step(s, Advance(q)), n).ref, target) == Ahead <==> Of(s, n).ref == target
  {
    var n, target, c := s.procs[pid].node, s.procs[pid].phase.target, s.procs[q].phase.candidate;
    var ref := Of(s, n).ref;
    ImportRelation(s, pid);
    assert Of(Step(s, Advance(q)), n).ref == c;
    if ref == target {
      AheadOfParent(target, c);
    } else if Ancestor(target, c) && c != target {
      BetweenIsEqual(target, ref);
    }
  }

  /** And an import that finds itself ahead keeps finding it, whatever runs. */
  lemma AheadStays(s: State, acts: seq<Action>, n: Node, target: Commit)
    requires Safe(s) && Compare(Of(s, n).ref, target) == Ahead
    ensures Compare(Of(Run(s, acts), n).ref, target) == Ahead
  {
    RunMovesForward(s, acts);
    var ref, last := Of(s, n).ref, Of(Run(s, acts), n).ref;
    AncestorTransitive(target, ref, last);
    if Ancestor(last, target) {
      AncestorTransitive(ref, last, target);
    }
  }

  /** A fetched import of node `n` that compares with `target`. */
  predicate Compares(s: State, pid: nat, n: Node, target: Commit) {
    pid in s.procs && s.procs[pid].node == n && s.procs[pid].phase.Fetched? && s.procs[pid].phase.target == target
  }

  /** The import goes on comparing with the same target throughout the run. */
  predicate KeepsComparing(s: State, acts: seq<Action>, pid: nat, n: Node, target: Commit)
    decreases |acts|
  {
    Compares(s, pid, n, target) && (acts == [] || KeepsComparing(Step(s, acts[0]), acts[1..], pid, n, target))
  }

  /** Some step of the run finds the node at the target and moves it on. */
  predicate LeavesTarget(s: State, acts: seq<Action>, n: Node, target: Commit)
    decreases |acts|
  {
    acts != [] && ((Of(s, n).ref == target && Of(Step(s, acts[0]), n).ref != target) || LeavesTarget(Step(s, acts[0]), acts[1..], n, target))
  }

  /** Only a local advance moves the ref of a node whose import is comparing: other imports would need its guard. */
  lemma MoverIsAdvance(s: State, act: Action, pid: nat, n: Node, target: Commit)
    requires Safe(s) && Compares(s, pid, n, target) && Compares(Step(s, act), pid, n, target)
    requires Of(Step(s, act), n).ref != Of(s, n).ref
    ensures act.Advance? && act.pid in s.procs && s.procs[act.pid].phase.Confirmed? && s.procs[act.pid].node == n
    ensures Child(Of(s, n).ref, s.procs[act.pid].phase.candidate)
  {
    assert PhaseSafe(s.procs[pid], Of(s, n), s.remote);
    if !act.Advance? && !act.Apply? && !act.Land? {
      OtherStepsMoveNothing(s, act);
    }
  }

  lemma LeavingIsAhead(s: State, act: Action, n: Node, target: Commit)
    requires Safe(s) && Of(s, n).ref == target && Of(Step(s, act), n).ref != target
    ensures Compare(Of(Step(s, act), n).ref, target) == Ahead
  {
    StepMovesForward(s, act);
    var ref := Of(Step(s, act), n).ref;
    if Ancestor(ref, target) { BetweenIsEqual(ref, target); }
  }

  /** Over whole runs: an import that is not ahead and goes on comparing ends ahead exactly when, at some step, its node was
    * at what it had fetched and was moved on. */
  lemma {:induction false} AheadRunIff(s: State, acts: seq<Action>, pid: nat, n: Node, target: Commit)
    requires Safe(s) && KeepsComparing(s, acts, pid, n, target) && Compare(Of(s, n).ref, target) != Ahead
    ensures Compare(Of(Run(s, acts), n).ref, target) == Ahead <==> LeavesTarget(s, acts, n, target)
    decreases |acts|
  {
    if acts != [] {
      var t := Step(s, acts[0]);
      StepKeepsSafe(s, acts[0]);
      if Of(t, n).ref == Of(s, n).ref {
        AheadRunIff(t, acts[1..], pid, n, target);
      } else if Of(s, n).ref == target {
        LeavingIsAhead(s, acts[0], n, target);
        AheadStays(t, acts[1..], n, target);
      } else {
        MoverIsAdvance(s, acts[0], pid, n, target);
        AheadIff(s, pid, acts[0].pid);
        AheadRunIff(t, acts[1..], pid, n, target);
      }
    }
  }
}
