/** Settling received nudges against local history, and bounding what a child process may print. */
module PeerInbox {
  import opened Commits

  /** Reading the parents of a commit, or failing to. */
  datatype Reading = Unreadable | Parents(parents: seq<string>)

  type Repository = map<string, Reading>

  function ParentsOf(repo: Repository, c: string): Reading {
    if c in repo then repo[c] else Unreadable
  }

  /** The commit `n` first-parent steps behind `c`: nothing past a commit that cannot be read or is not linear. */
  function Step(repo: Repository, c: string, n: nat): Option<string>
    decreases n
  {
    if n == 0 then Some(c)
    else match Step(repo, c, n - 1)
      case None => None
      case Some(b) => match ParentsOf(repo, b)
        case Unreadable => None
        case Parents(ps) => if |ps| == 1 then Some(ps[0]) else None
  }

  /** The target is among the first `bound` commits of the local chain. */
  predicate Within(repo: Repository, c: string, bound: nat, target: string) {
    exists k :: 0 <= k < bound && Step(repo, c, k) == Some(target)
  }

  lemma {:induction false} StepDefined(repo: Repository, c: string, n: nat, m: nat)
    requires Step(repo, c, n).Some? && m <= n
    ensures Step(repo, c, m).Some?
    decreases n
  {
    if m < n {
      StepDefined(repo, c, n - 1, m);
    }
  }

  /** The walk stops here with an error rather than at a root. */
  predicate Broken(repo: Repository, c: string) {
    match ParentsOf(repo, c)
    case Unreadable => true
    case Parents(ps) => |ps| > 1
  }

  /** The chain breaks within the bound. */
  predicate Breaks(repo: Repository, c: string, bound: nat) {
    exists k :: 0 <= k < bound && Step(repo, c, k).Some? && Broken(repo, Step(repo, c, k).value)
  }

  /** The chain breaks at the very last commit of the bound. */
  predicate BreaksAtLast(repo: Repository, c: string, bound: nat) {
    bound > 0 && Step(repo, c, bound - 1).Some? && Broken(repo, Step(repo, c, bound - 1).value)
  }

  /** Where the walk ends is the only place where the chain can break. */
  lemma BreaksAtEnd(repo: Repository, c: string, taken: nat, bound: nat, last: string)
    requires 0 < taken <= bound && Step(repo, c, taken - 1) == Some(last) && Step(repo, c, taken) == None
    ensures Breaks(repo, c, bound) <==> Broken(repo, last)
  {
    if Breaks(repo, c, bound) {
      var k :| 0 <= k < bound && Step(repo, c, k).Some? && Broken(repo, Step(repo, c, k).value);
      if k < taken - 1 { StepDefined(repo, c, taken - 1, k + 1); }
      if k >= taken { StepDefined(repo, c, k, taken); }
    }
  }

  /** A chain that goes through the whole bound can only break at its last commit. */
  lemma BreaksNowhereElse(repo: Repository, c: string, bound: nat)
    requires bound > 0 && Step(repo, c, bound - 1).Some? && !BreaksAtLast(repo, c, bound)
    ensures !Breaks(repo, c, bound)
  {
    if Breaks(repo, c, bound) {
      var k :| 0 <= k < bound && Step(repo, c, k).Some? && Broken(repo, Step(repo, c, k).value);
      if k < bound - 1 { StepDefined(repo, c, bound - 1, k + 1); }
    }
  }

  /** The history of one inbox pass, walked once for all its rows. */
  class Coverage {
    const repo: Repository
    const start: string
    const bound: nat
    var current: string
    var remaining: nat
    var covered: set<string>
    var advance: bool
    var done: bool
    var failed: bool
    ghost var lookups: nat

    constructor (repo: Repository, start: string, bound: nat)
      ensures Valid() && this.repo == repo && this.start == start && this.bound == bound && lookups == 0 && remaining == bound
    {
      this.repo, this.start, this.bound := repo, start, bound;
      current, remaining, covered, advance, done, failed, lookups := start, bound, {}, false, false, false, 0;
    }

    /** Commits taken into the covered set so far. */
    function Taken(): int
      reads this
    {
      bound - remaining
    }

    ghost predicate Valid()
      reads this
    {
      && remaining <= bound
      && (forall t :: t in covered <==> Within(repo, start, Taken(), t))
      && (advance ==> !done && Taken() > 0 && Step(repo, start, Taken() - 1) == Some(current))
      && (!advance && !done ==> Step(repo, start, Taken()) == Some(current))
      && (done ==> !advance && Taken() > 0 && Step(repo, start, Taken() - 1) == Some(current) && Step(repo, start, Taken()) == None)
      && (failed <==> done && Broken(repo, current))
      && lookups == if advance then Taken() - 1 else Taken()
    }

    /** Goes on from a commit that was taken and whose parents were not read yet. */
    method ReadParents()
      requires Valid() && advance
      modifies this
      ensures Valid() && !advance && remaining == old(remaining) && covered == old(covered) && lookups == old(lookups) + 1
    {
      advance := false;
      lookups := lookups + 1;
      match ParentsOf(repo, current) {
        case Unreadable => failed, done := true, true;
        case Parents(ps) =>
          if |ps| == 0 {
            done := true;
          } else if |ps| != 1 {
            failed, done := true, true;
          } else {
            current := ps[0];
          }
      }
    }

    /** Where the walk is over it knows whether the chain breaks, unless it breaks at the last commit of the bound. */
    lemma EndTellsBreak()
      requires Valid() && (done || remaining == 0) && !BreaksAtLast(repo, start, bound)
      ensures failed <==> Breaks(repo, start, bound)
    {
      if done {
        BreaksAtEnd(repo, start, Taken(), bound, current);
      } else if bound > 0 {
        if !advance { StepDefined(repo, start, bound, bound - 1); }
        BreaksNowhereElse(repo, start, bound);
      }
    }

    /** Whether the target is covered. The answer is the same whatever was asked before, and the commits looked up over
      * all questions never exceed the bound. The error is only reported with a negative answer, and unless the chain
      * breaks at the very last commit of the bound it then says whether the chain breaks, whatever was asked before. */
    method Contains(target: string) returns (found: bool, error: bool)
      requires Valid()
      modifies this
      ensures Valid()
      ensures found <==> Within(repo, start, bound, target)
      ensures error <==> !found && failed
      ensures !BreaksAtLast(repo, start, bound) ==> (error <==> !found && Breaks(repo, start, bound))
      ensures lookups <= bound && old(lookups) <= lookups
      ensures !found ==> done || remaining == 0
      ensures !found && old(remaining) > 0 ==> !advance
      ensures old(remaining) == 0 ==> failed == old(failed)
      ensures found && target !in old(covered) ==> advance && Step(repo, start, Taken() - 1) == Some(target)
    {
      if target in covered {
        CoveredIsWithin(repo, start, Taken(), bound, target);
        return true, false;
      }
      while !done && remaining > 0
        invariant Valid() && target !in covered && old(lookups) <= lookups
        invariant old(remaining) == 0 ==> failed == old(failed)
        invariant remaining < old(remaining) ==> !advance
        decreases remaining, if advance then 1 else 0
      {
        if !advance {
          TakeOne(repo, start, Taken(), current);
          covered, remaining, advance := covered + {current}, remaining - 1, true;
          if current == target {
            CoveredIsWithin(repo, start, Taken(), bound, target);
            return true, false;
          }
        }
        ReadParents();
      }
      if done {
        NothingBeyond(repo, start, Taken(), bound);
      }
      if !BreaksAtLast(repo, start, bound) { EndTellsBreak(); }
      return false, failed;
    }
  }

  lemma CoveredIsWithin(repo: Repository, c: string, taken: nat, bound: nat, target: string)
    requires taken <= bound && Within(repo, c, taken, target)
    ensures Within(repo, c, bound, target)
  {
    var k :| 0 <= k < taken && Step(repo, c, k) == Some(target);
  }

  lemma TakeOne(repo: Repository, c: string, taken: nat, next: string)
    requires Step(repo, c, taken) == Some(next)
    ensures forall t :: Within(repo, c, taken + 1, t) <==> Within(repo, c, taken, t) || t == next
  {
    forall t ensures Within(repo, c, taken + 1, t) <==> Within(repo, c, taken, t) || t == next {
      if Within(repo, c, taken + 1, t) {
        var k :| 0 <= k < taken + 1 && Step(repo, c, k) == Some(t);
      }
      if Within(repo, c, taken, t) {
        CoveredIsWithin(repo, c, taken, taken + 1, t);
      }
    }
  }

  /** Past the end of the readable chain there is nothing to find. */
  lemma NothingBeyond(repo: Repository, c: string, taken: nat, bound: nat)
    requires taken <= bound && Step(repo, c, taken) == None
    ensures forall t :: Within(repo, c, bound, t) <==> Within(repo, c, taken, t)
  {
    forall t ensures Within(repo, c, bound, t) <==> Within(repo, c, taken, t) {
      if Within(repo, c, bound, t) {
        var k :| 0 <= k < bound && Step(repo, c, k) == Some(t);
        if k >= taken { StepDefined(repo, c, k, taken); }
      }
      if Within(repo, c, taken, t) {
        CoveredIsWithin(repo, c, taken, bound, t);
      }
    }
  }

  datatype Row = Row(valid: bool, bound: bool, target: string)

  datatype Resolution = InvalidPayload | ObsoleteBinding | Covered | Superseded | LeftPending

  /** Settles the rows of one inbox pass with one walk of the local history: a row whose target is among the first
    * commits of the chain is covered, whatever the order of the rows; one that is not is superseded, unless the chain
    * could not be read to its end, and then it may stay pending. At most `bound` commits are read for all rows together. */
  method SettleRows(repo: Repository, local: string, bound: nat, rows: seq<Row>) returns (out: seq<Resolution>, settled: bool, ghost lookups: nat)
    ensures |out| == |rows| && lookups <= bound
    ensures forall i :: 0 <= i < |rows| && !rows[i].valid ==> out[i] == InvalidPayload
    ensures forall i :: 0 <= i < |rows| && rows[i].valid && !rows[i].bound ==> out[i] == ObsoleteBinding
    ensures forall i :: 0 <= i < |rows| && rows[i].valid && rows[i].bound ==>
              (out[i] == Covered <==> Within(repo, local, bound, rows[i].target)) && out[i] in {Covered, Superseded, LeftPending}
    ensures !BreaksAtLast(repo, local, bound) ==> forall i :: 0 <= i < |rows| && rows[i].valid && rows[i].bound ==>
              (out[i] == LeftPending <==> !Within(repo, local, bound, rows[i].target) && Breaks(repo, local, bound))
    ensures settled <==> LeftPending !in out
  {
    var history := new Coverage(repo, local, bound);
    out, settled := [], true;
    var i := 0;
    while i < |rows|
      invariant 0 <= i <= |rows| && |out| == i && fresh(history) && history.Valid()
      invariant history.repo == repo && history.start == local && history.bound == bound && history.lookups <= bound
      invariant forall k :: 0 <= k < i && !rows[k].valid ==> out[k] == InvalidPayload
      invariant forall k :: 0 <= k < i && rows[k].valid && !rows[k].bound ==> out[k] == ObsoleteBinding
      invariant forall k :: 0 <= k < i && rows[k].valid && rows[k].bound ==>
        (out[k] == Covered <==> Within(repo, local, bound, rows[k].target)) && out[k] in {Covered, Superseded, LeftPending}
      invariant !BreaksAtLast(repo, local, bound) ==> forall k :: 0 <= k < i && rows[k].valid && rows[k].bound ==>
        (out[k] == LeftPending <==> !Within(repo, local, bound, rows[k].target) && Breaks(repo, local, bound))
      invariant settled <==> LeftPending !in out
    {
      var resolution := InvalidPayload;
      if rows[i].valid {
        if !rows[i].bound {
          resolution := ObsoleteBinding;
        } else {
          var found, error := history.Contains(rows[i].target);
          resolution := if found then Covered else if error then LeftPending else Superseded;
        }
      }
      settled := settled && resolution != LeftPending;
      out := out + [resolution];
      i := i + 1;
    }
    lookups := history.lookups;
  }

  /** Unlike the answer, the error does depend on what was asked before when the chain breaks at the last commit of the
    * bound: for every target that is not covered, asking for it directly reports the error, and asking for that last
    * commit first leaves its parents unread and the error unseen. */
  method ErrorDependsOnOrder(repo: Repository, start: string, bound: nat, target: string) returns (direct: bool, afterwards: bool)
    requires BreaksAtLast(repo, start, bound) && !Within(repo, start, bound, target)
    ensures direct && !afterwards
  {
    var last := Step(repo, start, bound - 1).value;
    assert Step(repo, start, bound) == None;
    var first := new Coverage(repo, start, bound);
    var found;
    found, direct := first.Contains(target);
    if first.Taken() < bound { StepDefined(repo, start, bound - 1, first.Taken()); }
    var second := new Coverage(repo, start, bound);
    assert !Within(repo, start, 0, last);
    assert Within(repo, start, bound, last);
    found, afterwards := second.Contains(last);
    TakenOnce(repo, start, bound, second.Taken() - 1);
    found, afterwards := second.Contains(target);
  }

  /** The commit at which the chain breaks occurs nowhere else in it. */
  lemma TakenOnce(repo: Repository, c: string, bound: nat, k: nat)
    requires BreaksAtLast(repo, c, bound) && k < bound && Step(repo, c, k) == Step(repo, c, bound - 1)
    ensures k == bound - 1
  {
    if k < bound - 1 {
      assert Step(repo, c, k + 1) == None;
      StepDefined(repo, c, bound - 1, k + 1);
    }
  }

  /** The output of a child process, kept up to a limit. */
  class BoundedOutput {
    var buffer: seq<int>
    var overflow: bool
    const limit: nat
    ghost var written: seq<int>    // everything the child has written

    constructor (limit: nat)
      ensures this.limit == limit && buffer == [] && written == [] && !overflow && Valid()
    {
      this.limit, buffer, written, overflow := limit, [], [], false;
    }

    /** The buffer is the longest prefix of the output that fits, and overflow says that something was lost. */
    ghost predicate Valid()
      reads this
    {
      && buffer == written[..if |written| <= limit then |written| else limit]
      && (overflow <==> |written| > limit)
    }

    method Write(p: seq<int>) returns (n: nat, failed: bool)
      requires Valid()
      modifies this
      ensures Valid() && written == old(written) + p
      ensures n == |buffer| - |old(buffer)|
      ensures failed <==> p != [] && overflow
    {
      written := written + p;
      var remaining := limit - |buffer|;
      if |p| > remaining {
        overflow := true;
        if remaining > 0 {
          buffer := buffer + p[..remaining];
        }
        return remaining, true;
      }
      buffer := buffer + p;
      n, failed := |p|, false;
    }
  }
}
