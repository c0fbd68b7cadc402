/** The emergency posture: while the adopted membership blocks everything, so does the durable control row.
  *
  * Three commands adopt a membership revision. Each arms an emergency before it moves the local membership ref and
  * clears one only after, so a run that dies after any number of steps leaves no gap.
  */
module Emergency {
  import opened Commits
  import C = Control

  /** A membership revision by its name, with the mode its verified document states. */
  datatype Revision = Revision(name: string, mode: C.Mode)

  datatype Invocation =
    | Reconcile(remote: Revision, behind: bool, refMoves: bool)          // adoption of the approved remote revision
    | Apply(candidate: Revision, predecessor: Option<Revision>, confirmed: bool, refMoves: bool)
    | Recover(candidate: Revision, predecessor: Option<Revision>, refMoves: bool)
    | Operate(act: C.Act)                                                 // holds, pause, resume, checkpoint

  /** The operator's and the safety holds' changes of the control row; adoption is not among them. */
  predicate Ordinary(inv: Invocation) {
    inv.Operate? ==> !inv.act.DoAdopt?
  }

  class Node {
    var control: C.Row
    var local: Option<Revision>

    constructor (config: string)
      ensures control == C.Initial(config) && local == None && Armed()
    {
      control, local := C.Initial(config), None;
    }

    /** An adopted emergency revision is reflected in the durable mode, and then nothing is active. */
    predicate Armed()
      reads this
    {
      C.Coherent(control) && (local.Some? && local.value.mode == C.Emergency ==> control.mode == C.Emergency)
    }

    /** Expected-old update of the local membership ref. */
    method MoveRef(to: Revision, expected: Option<Revision>, ok: bool) returns (moved: bool)
      modifies this`local
      ensures moved == (ok && old(local) == expected) && local == if moved then Some(to) else old(local)
    {
      moved := ok && local == expected;
      if moved {
        local := Some(to);
      }
    }

    /** Adoption in reconcile: arm, move, then clear; an equal ref only refreshes the posture. */
    method AdoptRemote(remote: Revision, behind: bool, refMoves: bool, config: string, budget: nat) returns (done: bool)
      requires Armed()
      modifies this
      ensures Armed()
      ensures done ==> local == Some(remote) && control.mode == remote.mode
      ensures local in {old(local), Some(remote)}
      ensures old(control).mode == C.Emergency && remote.mode == C.Emergency ==> control.mode == C.Emergency
      ensures local == old(local) && local != Some(remote) ==> control == old(control) || control.mode == C.Emergency
      ensures (old(local) in {None, Some(remote)} || behind) && refMoves && budget >= 2 ==> done
    {
      if local != Some(remote) {
        if local.Some? && !behind { return false; }
        var left, expected := budget, local;
        if remote.mode == C.Emergency {
          if left == 0 { return false; }
          left := left - 1;
          control := C.Adopt(control, remote.mode, config);
        }
        if left == 0 { return false; }
        left := left - 1;
        var moved := MoveRef(remote, expected, refMoves);
        if !moved { return false; }
        if remote.mode == C.Normal {
          if left == 0 { return false; }
          control := C.Adopt(control, remote.mode, config);
        }
        return true;
      }
      if budget == 0 { return false; }
      control := C.Adopt(control, remote.mode, config);
      done := true;
    }

    /** Adoption in membership apply, once the push is confirmed: arm, move, then finish the job with the posture. */
    method AdoptApplied(candidate: Revision, predecessor: Option<Revision>, confirmed: bool, refMoves: bool, config: string,
                        budget: nat) returns (done: bool)
      requires Armed()
      modifies this
      ensures Armed()
      ensures done ==> local == Some(candidate) && control.mode == candidate.mode
      ensures !confirmed ==> local == old(local) && control == old(control)
      ensures confirmed && old(local) == predecessor && refMoves && budget >= 3 ==> done
    {
      if !confirmed { return false; }
      var left := budget;
      if candidate.mode == C.Emergency {
        if left == 0 { return false; }
        left := left - 1;
        control := C.Adopt(control, candidate.mode, config);
      }
      if left == 0 { return false; }
      left := left - 1;
      var moved := MoveRef(candidate, predecessor, refMoves);
      if !moved || left == 0 { return false; }
      control := C.Adopt(control, candidate.mode, config);
      done := true;
    }

    /** Adoption in the recovery of a confirmed membership: the ref may have moved before the earlier run died. */
    method AdoptRecovered(candidate: Revision, predecessor: Option<Revision>, refMoves: bool, config: string, budget: nat) returns (done: bool)
      requires Armed()
      modifies this
      ensures Armed()
      ensures done ==> local == Some(candidate) && control.mode == candidate.mode
      ensures old(local) !in {Some(candidate), predecessor} ==> local == old(local) && control == old(control)
      ensures old(local) in {Some(candidate), predecessor} && refMoves && budget >= 3 ==> done
    {
      var left := budget;
      if local != Some(candidate) {
        if local != predecessor { return false; }
        if candidate.mode == C.Emergency {
          if left == 0 { return false; }
          left := left - 1;
          control := C.Adopt(control, candidate.mode, config);
        }
        if left == 0 { return false; }
        left := left - 1;
        var moved := MoveRef(candidate, predecessor, refMoves);
        if !moved { return false; }
      }
      if left == 0 { return false; }
      control := C.Adopt(control, candidate.mode, config);
      done := true;
    }

    /** One invocation, alive for the given number of steps. */
    method Invoke(inv: Invocation, config: string, budget: nat)
      requires Armed() && Ordinary(inv)
      modifies this
      ensures Armed()
    {
      match inv {
        case Reconcile(remote, behind, refMoves) => var _ := AdoptRemote(remote, behind, refMoves, config, budget);
        case Apply(candidate, predecessor, confirmed, refMoves) => var _ := AdoptApplied(candidate, predecessor, confirmed, refMoves, config, budget);
        case Recover(candidate, predecessor, refMoves) => var _ := AdoptRecovered(candidate, predecessor, refMoves, config, budget);
        case Operate(act) => if budget > 0 { control := C.Perform(control, act); }
      }
    }

    /** In every run of one invocation at a time, each dying after any number of steps, an adopted emergency revision is
      * armed at every point: each point of a run is the end of a run that died there. */
    method Run(invs: seq<Invocation>, budgets: seq<nat>, config: string)
      requires Armed() && |invs| == |budgets| && forall inv :: inv in invs ==> Ordinary(inv)
      modifies this
      ensures Armed()
      ensures local.Some? && local.value.mode == C.Emergency ==> control.state != C.Active
    {
      for i := 0 to |invs|
        invariant Armed()
      {
        Invoke(invs[i], config, budgets[i]);
      }
    }
  }

  /** The durable steps of one adoption, for runs in which two invocations overlap. */
  datatype Step =
    | Posture(revision: Revision)                                   // write the posture of the revision
    | Move(revision: Revision, expected: Option<Revision>)          // move the local ref, expected old value

  /** Emergency is armed before the move; the last step writes the posture again for an apply, and for a reconcile it
    * clears a normal revision. */
  function AdoptionSteps(to: Revision, from: Option<Revision>, byApply: bool): seq<Step> {
    (if to.mode == C.Emergency then [Posture(to)] else []) + [Move(to, from)]
    + (if byApply || to.mode == C.Normal then [Posture(to)] else [])
  }

  datatype Durable = Durable(control: C.Row, local: Option<Revision>)

  predicate ArmedAt(d: Durable) {
    d.local.Some? && d.local.value.mode == C.Emergency ==> d.control.mode == C.Emergency
  }

  function Take(d: Durable, step: Step, config: string): Durable {
    match step
    case Posture(r) => d.(control := C.Adopt(d.control, r.mode, config))
    case Move(r, expected) => if d.local == expected then d.(local := Some(r)) else d
  }

  function TakeAll(d: Durable, steps: seq<Step>, config: string): Durable
    decreases |steps|
  {
    if steps == [] then d else TakeAll(Take(d, steps[0], config), steps[1..], config)
  }

  /** `c` runs the steps of `a` and of `b`, each in its own order. */
  ghost predicate Interleaves(c: seq<Step>, a: seq<Step>, b: seq<Step>)
    decreases |c|
  {
    if c == [] then a == [] && b == []
    else
      || (a != [] && c[0] == a[0] && Interleaves(c[1..], a[1..], b))
      || (b != [] && c[0] == b[0] && Interleaves(c[1..], a, b[1..]))
  }

  lemma {:induction false} TakeAppend(d: Durable, a: seq<Step>, b: seq<Step>, config: string)
    ensures TakeAll(d, a + b, config) == TakeAll(TakeAll(d, a, config), b, config)
    decreases |a|
  {
    if a == [] {
      assert a + b == b;
    } else {
      assert (a + b)[1..] == a[1..] + b;
      TakeAppend(Take(d, a[0], config), a[1..], b, config);
    }
  }

  /** One adoption alone keeps the posture armed at each of its points. */
  lemma OneAdoptionStaysArmed(d: Durable, to: Revision, byApply: bool, config: string, n: nat)
    requires ArmedAt(d) && n <= |AdoptionSteps(to, d.local, byApply)|
    ensures ArmedAt(TakeAll(d, AdoptionSteps(to, d.local, byApply)[..n], config))
  {
    var steps := AdoptionSteps(to, d.local, byApply);
    if n >= 1 {
      var d1 := Take(d, steps[0], config);
      assert steps[..n][1..] == steps[1..n];
      assert TakeAll(d, steps[..n], config) == TakeAll(d1, steps[1..n], config);
      if n >= 2 {
        var d2 := Take(d1, steps[1], config);
        assert steps[1..n][1..] == steps[2..n];
        assert TakeAll(d1, steps[1..n], config) == TakeAll(d2, steps[2..n], config);
        if n == 3 {
          assert steps[2..n][1..] == [];
          assert TakeAll(d2, steps[2..n], config) == TakeAll(Take(d2, steps[2], config), [], config);
        } else {
          assert steps[2..n] == [];
        }
      } else {
        assert steps[1..n] == [];
      }
    }
  }

  predicate IsEmergency(r: Option<Revision>) {
    r.Some? && r.value.mode == C.Emergency
  }

  /** What a step would have to look at before it is taken: a normal posture must not be written over an adopted
    * emergency revision, and the ref must not move to an emergency revision while the mode is not armed. */
  predicate Guarded(d: Durable, step: Step) {
    match step
    case Posture(r) => r.mode == C.Normal ==> !IsEmergency(d.local)
    case Move(r, expected) => d.local == expected && r.mode == C.Emergency ==> d.control.mode == C.Emergency
  }

  predicate AllGuarded(d: Durable, steps: seq<Step>, config: string)
    decreases |steps|
  {
    steps == [] || (Guarded(d, steps[0]) && AllGuarded(Take(d, steps[0], config), steps[1..], config))
  }

  /** Armed at every point of the run. */
  predicate AllArmed(d: Durable, steps: seq<Step>, config: string)
    decreases |steps|
  {
    ArmedAt(d) && (steps == [] || AllArmed(Take(d, steps[0], config), steps[1..], config))
  }

  /** Any steps, of any number of overlapping adoptions, stay armed throughout exactly when each step is taken under its
    * guard. */
  lemma {:induction false} ArmedIffGuarded(d: Durable, steps: seq<Step>, config: string)
    requires ArmedAt(d)
    ensures AllArmed(d, steps, config) <==> AllGuarded(d, steps, config)
    decreases |steps|
  {
    if steps != [] {
      var next := Take(d, steps[0], config);
      assert ArmedAt(next) <==> Guarded(d, steps[0]);
      if ArmedAt(next) {
        ArmedIffGuarded(next, steps[1..], config);
      }
    }
  }

  /** The state in which step `k` of a run is taken. */
  function StateAt(d: Durable, steps: seq<Step>, k: nat, config: string): Durable
    requires k <= |steps|
  {
    TakeAll(d, steps[..k], config)
  }

  lemma {:induction false} GuardedAtEach(d: Durable, steps: seq<Step>, config: string)
    ensures AllGuarded(d, steps, config) <==> forall k :: 0 <= k < |steps| ==> Guarded(StateAt(d, steps, k, config), steps[k])
    decreases |steps|
  {
    if steps != [] {
      var next, rest := Take(d, steps[0], config), steps[1..];
      GuardedAtEach(next, rest, config);
      forall k | 0 < k < |steps| ensures StateAt(d, steps, k, config) == StateAt(next, rest, k - 1, config) {
        assert steps[..k][1..] == rest[..k - 1] && steps[..k][0] == steps[0];
      }
      assert steps[..0] == [] && StateAt(d, steps, 0, config) == d;
      assert forall k :: 0 <= k < |rest| ==> StateAt(next, rest, k, config) == StateAt(d, steps, k + 1, config) && rest[k] == steps[k + 1];
      assert forall k :: 0 < k < |steps| ==> steps[k] == rest[k - 1];
    }
  }

  lemma {:induction false} InterleavedSteps(c: seq<Step>, a: seq<Step>, b: seq<Step>)
    requires Interleaves(c, a, b)
    ensures forall x :: x in c ==> x in a || x in b
    decreases |c|
  {
    if c != [] {
      if a != [] && c[0] == a[0] && Interleaves(c[1..], a[1..], b) {
        InterleavedSteps(c[1..], a[1..], b);
      } else {
        InterleavedSteps(c[1..], a, b[1..]);
      }
    }
  }

  /** Two overlapping adoptions, of a normal revision `n` and of an emergency revision `e`, whoever runs them and however
    * they interleave: only two of their steps can disarm the group, the clearing of `n` and the move to `e`. The group
    * stays armed throughout exactly when `n` is never cleared over an adopted emergency revision and the move to `e`
    * never takes effect while the mode is not armed. */
  lemma TwoAdoptionsArmedIff(d: Durable, c: seq<Step>, n: Revision, fromN: Option<Revision>, byApplyN: bool,
                             e: Revision, fromE: Option<Revision>, byApplyE: bool, config: string)
    requires ArmedAt(d) && n.mode == C.Normal && e.mode == C.Emergency
    requires Interleaves(c, AdoptionSteps(n, fromN, byApplyN), AdoptionSteps(e, fromE, byApplyE))
    ensures AllArmed(d, c, config) <==>
      && (forall k :: 0 <= k < |c| && c[k] == Posture(n) ==> !IsEmergency(StateAt(d, c, k, config).local))
      && (forall k :: 0 <= k < |c| && c[k] == Move(e, fromE) && StateAt(d, c, k, config).local == fromE ==>
           StateAt(d, c, k, config).control.mode == C.Emergency)
  {
    ArmedIffGuarded(d, c, config);
    GuardedAtEach(d, c, config);
    InterleavedSteps(c, AdoptionSteps(n, fromN, byApplyN), AdoptionSteps(e, fromE, byApplyE));
    forall k | 0 <= k < |c| ensures c[k] in {Posture(n), Move(n, fromN), Posture(e), Move(e, fromE)} {
      assert c[k] in c;
    }
  }

  /** Two overlapping adoptions can disarm it: a reconcile adopts the normal revision `n` and stops before its last
    * step; an apply then adopts the emergency revision `e` above it; the reconcile goes on and clears the posture. */
  lemma OverlappingAdoptionsDisarm(config: string, n: Revision, e: Revision) returns (steps: seq<Step>)
    requires n.mode == C.Normal && e.mode == C.Emergency
    ensures var d := Durable(C.Initial(config), None);
      && Interleaves(steps, AdoptionSteps(n, None, false), AdoptionSteps(e, Some(n), true))
      && ArmedAt(d) && !ArmedAt(TakeAll(d, steps, config))
      && TakeAll(d, steps, config).control.state == C.Active
  {
    steps := [Move(n, None), Posture(e), Move(e, Some(n)), Posture(e), Posture(n)];
    var a, b := AdoptionSteps(n, None, false), AdoptionSteps(e, Some(n), true);
    assert a == [Move(n, None), Posture(n)] && b == [Posture(e), Move(e, Some(n)), Posture(e)];
    assert a[1..] == [Posture(n)] && b[1..] == [Move(e, Some(n)), Posture(e)];
    assert b[1..][1..] == [Posture(e)] && b[1..][1..][1..] == [] && a[1..][1..] == [];
    assert Interleaves([Posture(n)], a[1..], []);
    assert steps[1..][1..][1..][1..] == [Posture(n)];
    assert Interleaves(steps[1..][1..][1..], a[1..], [Posture(e)]);
    assert Interleaves(steps[1..][1..], a[1..], b[1..]);
    assert Interleaves(steps[1..], a[1..], b);
    var d := Durable(C.Initial(config), None);
    var head, tail := [Move(n, None), Posture(e), Move(e, Some(n))], [Posture(e), Posture(n)];
    assert steps == head + tail;
    TakeAppend(d, head, tail, config);
    var d1 := Take(d, head[0], config);
    var d2 := Take(d1, head[1], config);
    var d3 := Take(d2, head[2], config);
    assert head[1..][1..][1..] == [];
    assert TakeAll(d, head, config) == TakeAll(d1, head[1..], config) == TakeAll(d2, head[1..][1..], config) == d3;
    var d4 := Take(d3, tail[0], config);
    assert tail[1..][1..] == [];
    assert TakeAll(d3, tail, config) == TakeAll(d4, tail[1..], config) == Take(d4, tail[1], config);
  }

  /** The gap lasts until the next reconcile, which writes the posture of the adopted revision again. */
  lemma RefreshRearms(d: Durable, config: string)
    requires d.local.Some?
    ensures ArmedAt(d.(control := C.Adopt(d.control, d.local.value.mode, config)))
    ensures d.local.value.mode == C.Emergency ==> C.Adopt(d.control, d.local.value.mode, config).state != C.Active
  {
  }
}
