/** The durable states of one import job, and what each says about effects left in the tree, the index and the ref.
  *
  * The process that holds the resource guard takes the steps below; anybody may edit the working tree and the index in
  * between, and the process may die between any two steps. Each value remembers whether the job put it there.
  */
module ImportMachine {
  import opened Commits

  datatype JobState = Validated | Applying | Applied | Recovering | Uncertain | Deferred

  /** Bytes are told apart by number; an absent file holds nothing. */
  type Value = Option<int>

  datatype Author = Environment | Job

  datatype Cell = Cell(value: Value, author: Author)

  datatype Effect = Effect(before: Value, after: Value)

  /** Index and ref are as the plan found them, as the plan wants them, or something else. */
  datatype Git = AsBefore | AsAfter | Foreign

  datatype GitCell = GitCell(value: Git, author: Author)

  datatype Phase =
    | Entered                     // holds the guard and has read the job
    | Owning                      // holds a fresh claim, nothing applied yet
    | Writing(next: nat)          // effects before `next` are done
    | Written                     // all paths done
    | Indexed                     // the index follows
    | Moved                       // the ref follows
    | Looking(next: nat)          // effects before `next` were seen at their before value
    | Clear                       // every path, the index and the ref were seen as before
    | Unclear                     // something else was seen, or a step failed

  /** Cell `i` is the path of effect `i` of the plan. */
  datatype State = State(
    plan: seq<Effect>, cells: seq<Cell>, index: GitCell, ref: GitCell, job: JobState, claimed: bool, proc: Option<Phase>)

  datatype Action =
    | Enter | Claim | Begin | Write | MoveIndex | MoveRef | Finish
    | Look | LookGit
    | ToValidated | ToRecovering | ToUncertain
    | Supersede            // verified checkpoint covers the plan, nothing of it was applied
    | ResolveUnclaimed     // obsolete plan without a claim, settled without looking at the tree
    | ResolveExpired       // obsolete plan with an expired claim, after looking
    | ReleaseExpired       // expired claim on a validated plan, after looking
    | DeferOwned           // a fence changed before anything was applied
    | Reopen
    | Edit(path: nat, value: Value)
    | EditIndex(git: Git)
    | EditRef(git: Git)    // another command moves the ref
    | Die

  predicate WellFormed(s: State) {
    && |s.cells| == |s.plan|
    && (forall i :: 0 <= i < |s.plan| ==> s.plan[i].before != s.plan[i].after)
  }

  function Go(s: State, phase: Phase): State {
    s.(proc := Some(phase))
  }

  predicate InPhase(s: State, phase: Phase) {
    s.proc == Some(phase)
  }

  /** States from which an effect may remain. */
  predicate MayHaveEffect(job: JobState) {
    job in {Applying, Recovering, Uncertain, Applied}
  }

  function StepWrite(s: State, next: nat): State
    requires WellFormed(s) && next < |s.plan|
  {
    var e := s.plan[next];
    if s.cells[next].value == e.after then Go(s, Writing(next + 1))
    else if s.cells[next].value == e.before then Go(s.(cells := s.cells[next := Cell(e.after, Job)]), Writing(next + 1))
    else Go(s, Unclear)
  }

  function StepLook(s: State, next: nat): State
    requires WellFormed(s) && next < |s.plan|
  {
    if s.cells[next].value == s.plan[next].before then Go(s, Looking(next + 1)) else Go(s, Unclear)
  }

  /** One step; an action that is not enabled changes nothing. */
  function Step(s: State, a: Action): State
    requires WellFormed(s)
  {
    match a
    case Enter => if s.proc.None? then Go(s, Entered) else s
    case Die => s.(proc := None)
    case Claim =>
      if s.proc in {Some(Entered), Some(Clear), Some(Unclear)} && !s.claimed && s.job in {Validated, Recovering}
      then Go(s.(claimed := true), Owning) else s
    case Begin =>
      if InPhase(s, Owning) && s.claimed && s.job in {Validated, Recovering, Applying} then Go(s.(job := Applying), Writing(0)) else s
    case Write =>
      if s.proc.Some? && s.proc.value.Writing? then
        (if s.proc.value.next < |s.plan| then StepWrite(s, s.proc.value.next) else Go(s, Written))
      else s
    case MoveIndex => if InPhase(s, Written) then Go(s.(index := GitCell(AsAfter, Job)), Indexed) else s
    case MoveRef =>
      if InPhase(s, Indexed) then (if s.ref.value == AsBefore then Go(s.(ref := GitCell(AsAfter, Job)), Moved) else Go(s, Unclear)) else s
    case Finish => if InPhase(s, Moved) && s.claimed && s.job == Applying then Go(s.(job := Applied, claimed := false), Entered) else s
    case Look =>
      if s.proc in {Some(Entered), Some(Unclear)} then Go(s, Looking(0))
      else if s.proc.Some? && s.proc.value.Looking? && s.proc.value.next < |s.plan| then StepLook(s, s.proc.value.next)
      else s
    case LookGit =>
      if s.proc.Some? && s.proc.value.Looking? && s.proc.value.next >= |s.plan|
      then Go(s, if s.index.value == AsBefore && s.ref.value == AsBefore then Clear else Unclear) else s
    case ToValidated =>
      if InPhase(s, Clear) && s.job in {Applying, Recovering, Uncertain} then s.(job := Validated, claimed := false) else s
    case ToRecovering =>
      if s.proc.Some? && s.job in {Applying, Recovering, Uncertain} then Go(s.(job := Recovering, claimed := false), Entered) else s
    case ToUncertain =>
      if s.proc.Some? && s.job in {Validated, Applying, Recovering, Uncertain} then Go(s.(job := Uncertain, claimed := false), Entered) else s
    case Supersede =>
      if InPhase(s, Clear) && s.job in {Applying, Recovering, Uncertain} then s.(job := Deferred, claimed := false) else s
    case ResolveUnclaimed => if InPhase(s, Entered) && s.job == Validated && !s.claimed then s.(job := Deferred) else s
    case ResolveExpired => if InPhase(s, Clear) && s.job == Validated then s.(job := Deferred, claimed := false) else s
    case ReleaseExpired => if InPhase(s, Clear) && s.job == Validated then s.(claimed := false) else s
    case DeferOwned => if InPhase(s, Owning) && s.job == Validated then Go(s.(job := Deferred, claimed := false), Entered) else s
    case Reopen => if s.proc.Some? && s.job == Deferred then s.(job := Validated) else s
    case Edit(path, value) => if path < |s.cells| then s.(cells := s.cells[path := Cell(value, Environment)]) else s
    case EditIndex(git) => s.(index := GitCell(git, Environment))
    case EditRef(git) => s.(ref := GitCell(git, Environment))
  }

  function Run(s: State, acts: seq<Action>): (t: State)
    requires WellFormed(s)
    ensures WellFormed(t)
    decreases |acts|
  {
    if acts == [] then s else Run(Step(s, acts[0]), acts[1..])
  }

  /** Nothing the job did remains anywhere. */
  predicate NoEffect(s: State) {
    && (forall i :: 0 <= i < |s.cells| ==> s.cells[i].author == Environment)
    && s.index.author == Environment && s.ref.author == Environment
  }

  /** A newly admitted plan. */
  predicate Admitted(s: State) {
    WellFormed(s) && NoEffect(s) && s.job in {Validated, Deferred} && !s.claimed && s.proc.None?
  }

  /** What a process has established, whatever others do to the tree meanwhile. */
  predicate PhaseSafe(s: State)
    requires WellFormed(s)
  {
    match s.proc
    case Some(Owning) => s.claimed && s.job in {Validated, Recovering}
    case Some(Writing(_)) => s.job == Applying
    case Some(Written) => s.job == Applying
    case Some(Indexed) => s.job == Applying
    case Some(Moved) => s.job == Applying
    case Some(Looking(k)) => k <= |s.plan| && forall i :: 0 <= i < k ==> s.cells[i].author == Environment
    case Some(Clear) => NoEffect(s)
    case _ => true
  }

  /** The job only ever wrote planned values, and a state without the possibility of effects has none. */
  predicate Safe(s: State) {
    && WellFormed(s)
    && (forall i :: 0 <= i < |s.cells| && s.cells[i].author == Job ==> s.cells[i].value == s.plan[i].after)
    && (s.index.author == Job ==> s.index.value == AsAfter)
    && (s.ref.author == Job ==> s.ref.value == AsAfter)
    && (!MayHaveEffect(s.job) ==> NoEffect(s))
    && PhaseSafe(s)
  }

  lemma AdmittedIsSafe(s: State)
    requires Admitted(s)
    ensures Safe(s)
  {
  }

  lemma WriteKeepsSafe(s: State, next: nat)
    requires Safe(s) && next < |s.plan| && InPhase(s, Writing(next))
    ensures Safe(StepWrite(s, next))
  {
  }

  /** A path seen at its before value carries nothing of the job, since the job only ever wrote after values. */
  lemma LookKeepsSafe(s: State, next: nat)
    requires Safe(s) && next < |s.plan| && InPhase(s, Looking(next))
    ensures Safe(StepLook(s, next))
  {
  }

  lemma EditKeepsSafe(s: State, path: nat, value: Value)
    requires Safe(s) && path < |s.cells|
    ensures Safe(s.(cells := s.cells[path := Cell(value, Environment)]))
  {
  }

  /** Applying: entering, claiming, beginning, the index, the ref and the end. */
  lemma ApplyingKeepsSafe(s: State, a: Action)
    requires Safe(s) && a in {Enter, Claim, Begin, MoveIndex, MoveRef, Finish, Die}
    ensures Safe(Step(s, a))
  {
  }

  /** The states a job is moved to without applying anything. */
  lemma SettlingKeepsSafe(s: State, a: Action)
    requires Safe(s)
    requires a in {ToValidated, ToRecovering, ToUncertain, Supersede, ResolveUnclaimed, ResolveExpired, ReleaseExpired, DeferOwned, Reopen}
    ensures Safe(Step(s, a))
  {
  }

  /** An index and a ref seen as before carry nothing of the job either. */
  lemma LookGitKeepsSafe(s: State)
    requires Safe(s)
    ensures Safe(Step(s, LookGit))
  {
  }

  lemma StepKeepsSafe(s: State, a: Action)
    requires Safe(s)
    ensures Safe(Step(s, a))
  {
    match a
    case Write =>
      if s.proc.Some? && s.proc.value.Writing? && s.proc.value.next < |s.plan| { WriteKeepsSafe(s, s.proc.value.next); }
    case Look =>
      if s.proc.Some? && s.proc.value.Looking? && s.proc.value.next < |s.plan| { LookKeepsSafe(s, s.proc.value.next); }
    case LookGit => LookGitKeepsSafe(s);
    case Edit(path, value) =>
      if path < |s.cells| { EditKeepsSafe(s, path, value); }
    case EditIndex(_) =>
    case EditRef(_) =>
    case _ =>
      if a in {Enter, Claim, Begin, MoveIndex, MoveRef, Finish, Die} {
        ApplyingKeepsSafe(s, a);
      } else {
        SettlingKeepsSafe(s, a);
      }
  }

  lemma {:induction false} RunKeepsSafe(s: State, acts: seq<Action>)
    requires Safe(s)
    ensures Safe(Run(s, acts))
    decreases |acts|
  {
    if acts != [] {
      StepKeepsSafe(s, acts[0]);
      RunKeepsSafe(Step(s, acts[0]), acts[1..]);
    }
  }

  /** In every reachable state, with any edits and any deaths in between: a validated or deferred job has left no path,
    * index or ref effect, and where an effect remains the job is applying, recovering, uncertain or applied. */
  lemma EffectsImplyState(s: State, acts: seq<Action>)
    requires Admitted(s)
    ensures var t := Run(s, acts); !NoEffect(t) ==> t.job in {Applying, Recovering, Uncertain, Applied}
    ensures var t := Run(s, acts); t.job in {Validated, Deferred} ==> NoEffect(t)
  {
    AdmittedIsSafe(s);
    RunKeepsSafe(s, acts);
  }

  /** Settling an obsolete unclaimed plan without looking at the tree is sound: nothing of it was ever applied, or
    * nothing of it is left. */
  lemma UninspectedResolutionIsSound(s: State, acts: seq<Action>)
    requires Admitted(s)
    ensures var t := Run(s, acts); Step(t, ResolveUnclaimed) != t ==> NoEffect(t) && Step(t, ResolveUnclaimed).job == Deferred
  {
    EffectsImplyState(s, acts);
  }

  /** The possibility is real: a run that dies after one write leaves an applying job with an effect in the tree. */
  lemma EffectsDoRemain(s: State)
    requires Admitted(s) && s.job == Validated && |s.plan| > 0 && s.cells[0].value == s.plan[0].before
    ensures exists acts :: Run(s, acts).job == Applying && Run(s, acts).proc.None? && !NoEffect(Run(s, acts))
  {
    var acts := [Enter, Claim, Begin, Write, Die];
    var s1 := Step(Step(Step(s, Enter), Claim), Begin);
    assert Run(s, acts) == Run(Step(s, Enter), acts[1..]);
    assert Run(Step(s, Enter), acts[1..]) == Run(Step(Step(s, Enter), Claim), acts[2..]);
    assert acts[1..][1..] == acts[2..] && acts[2..][1..] == acts[3..];
    assert Run(s, acts) == Run(s1, [Write, Die]);
    assert [Write, Die][1..] == [Die];
    assert Run(s1, [Write, Die]) == Run(Step(s1, Write), [Die]);
    assert Run(Step(s1, Write), [Die]) == Run(Step(Step(s1, Write), Die), []);
    assert Step(s1, Write).cells[0].author == Job;
  }
}
