/** The bounded walks over content history that an import trusts, and the chain of trust they establish. */
module Walks {
  import opened Commits

  datatype WalkError = InvalidRequest | NotLinear | HistoryBound | Untrusted

  datatype Result<T> = Ok(value: T) | Err(error: WalkError)

  const MAX_RANGE := 100000

  /** Commits strictly above `from` up to `target`, oldest first, for a target that is not `from` itself. */
  function RangeAbove(from: Commit, target: Commit, limit: nat): Result<seq<Commit>>
    decreases limit
  {
    if limit == 0 then Err(HistoryBound)
    else if !Linear(target) then Err(NotLinear)
    else if target.parents[0] == from then Ok([target])
    else match RangeAbove(from, target.parents[0], limit - 1)
      case Ok(below) => Ok(below + [target])
      case Err(e) => Err(e)
  }

  function Range(from: Commit, target: Commit, limit: int): Result<seq<Commit>> {
    if limit < 1 || limit > MAX_RANGE then Err(InvalidRequest)
    else if from == target then Ok([])
    else RangeAbove(from, target, limit)
  }

  method ReverseInPlace(a: array<Commit>, n: nat)
    requires n <= a.Length
    modifies a
    ensures forall k :: 0 <= k < n ==> a[k] == old(a[n - 1 - k])
  {
    var i, j := 0, n - 1;
    while i < j
      invariant 0 <= i <= n && j == n - 1 - i && i <= j + 2
      invariant forall k :: 0 <= k < i ==> a[k] == old(a[n - 1 - k]) && a[n - 1 - k] == old(a[k])
      invariant forall k :: i <= k <= j ==> a[k] == old(a[k])
    {
      a[i], a[j] := a[j], a[i];
      i, j := i + 1, j - 1;
    }
  }

  /** Appends a walked prefix to the result of walking the rest. */
  function Onto(below: Result<seq<Commit>>, walked: seq<Commit>): Result<seq<Commit>> {
    match below
    case Ok(s) => Ok(s + Reversed(walked))
    case Err(e) => Err(e)
  }

  function Reversed(s: seq<Commit>): (r: seq<Commit>)
    ensures |r| == |s| && forall k :: 0 <= k < |s| ==> r[k] == s[|s| - 1 - k]
  {
    if s == [] then [] else Reversed(s[1..]) + [s[0]]
  }

  lemma ReversedSnoc(s: seq<Commit>, c: Commit)
    ensures Reversed(s + [c]) == [c] + Reversed(s)
  {
  }

  lemma OntoNothing(below: Result<seq<Commit>>)
    ensures Onto(below, []) == below
  {
    if below.Ok? {
      assert below.value + [] == below.value;
    }
  }

  /** Walks back from the target, collecting newest first, and turns the collection round when it meets `from`. */
  method FirstParentRange(from: Commit, target: Commit, limit: int) returns (r: Result<seq<Commit>>)
    ensures r == Range(from, target, limit)
  {
    if limit < 1 || limit > MAX_RANGE {
      return Err(InvalidRequest);
    }
    if from == target {
      return Ok([]);
    }
    var reverse := [];
    var current := target;
    OntoNothing(RangeAbove(from, target, limit));
    while |reverse| < limit
      invariant |reverse| <= limit
      invariant RangeAbove(from, target, limit) == Onto(RangeAbove(from, current, limit - |reverse|), reverse)
    {
      if !Linear(current) {
        return Err(NotLinear);
      }
      ReversedSnoc(reverse, current);
      reverse := reverse + [current];
      if current.parents[0] == from {
        var a := new Commit[|reverse|](i requires 0 <= i < |reverse| => reverse[i]);
        assert a[..] == reverse;
        ReverseInPlace(a, |reverse|);
        assert a[..] == Reversed(reverse);
        return Ok(a[..]);
      }
      ghost var below := RangeAbove(from, current.parents[0], limit - |reverse|);
      if below.Ok? {
        assert (below.value + [current]) + Reversed(reverse[..|reverse| - 1]) == below.value + Reversed(reverse);
      }
      current := current.parents[0];
    }
    r := Err(HistoryBound);
  }

  /** A successful range is exactly the first-parent chain between the two commits. */
  lemma {:induction false} RangeAboveIsChain(from: Commit, target: Commit, limit: nat)
    requires RangeAbove(from, target, limit).Ok?
    ensures var commits := RangeAbove(from, target, limit).value;
      && 1 <= |commits| <= limit && Back(target, |commits|) == Some(from)
      && forall i :: 0 <= i < |commits| ==> Back(target, i) == Some(commits[|commits| - 1 - i])
    decreases limit
  {
    var parent := target.parents[0];
    assert Back(target, 1) == Some(parent) by { assert Back(parent, 0) == Some(parent); }
    assert Back(target, 0) == Some(target);
    if parent != from {
      RangeAboveIsChain(from, parent, limit - 1);
      var commits, below := RangeAbove(from, target, limit).value, RangeAbove(from, parent, limit - 1).value;
      forall i | 0 <= i < |commits| ensures Back(target, i) == Some(commits[|commits| - 1 - i]) {
        if i > 0 {
          assert Back(parent, i - 1) == Some(below[|below| - 1 - (i - 1)]);
        }
      }
    }
  }

  /** `from` is not among the commits 1 to `limit` steps behind the target. */
  ghost predicate Misses(from: Commit, target: Commit, limit: nat) {
    forall n: nat :: 1 <= n <= limit ==> Back(target, n) != Some(from)
  }

  lemma MissesStep(from: Commit, target: Commit, limit: nat)
    requires Linear(target) && limit > 0
    ensures Misses(from, target, limit) <==> target.parents[0] != from && Misses(from, target.parents[0], limit - 1)
  {
    var parent := target.parents[0];
    assert Back(target, 1) == Some(parent) by { assert Back(parent, 0) == Some(parent); }
    if Misses(from, target, limit) {
      forall n: nat | 1 <= n <= limit - 1 ensures Back(parent, n) != Some(from) {
        assert Back(target, n + 1) != Some(from);
      }
    }
    if parent != from && Misses(from, parent, limit - 1) {
      forall n: nat | 1 <= n <= limit ensures Back(target, n) != Some(from) {
        assert n > 1 ==> Back(parent, n - 1) != Some(from);
      }
    }
  }

  /** The bound is reported exactly when the whole bound is linear and never meets `from`. */
  lemma {:induction false} RangeAboveBound(from: Commit, target: Commit, limit: nat)
    ensures RangeAbove(from, target, limit) == Err(HistoryBound) <==> Reaches(target, limit) && Misses(from, target, limit)
    decreases limit
  {
    if limit > 0 && Linear(target) {
      MissesStep(from, target, limit);
      RangeAboveBound(from, target.parents[0], limit - 1);
    }
  }

  /** Before meeting `from` the walk comes to a commit that is not linear, `n` steps behind the target. */
  ghost predicate StopsAt(from: Commit, target: Commit, n: nat) {
    Misses(from, target, n) && Reaches(target, n) && !Linear(Back(target, n).value)
  }

  lemma StopsAtStep(from: Commit, target: Commit, n: nat)
    requires Linear(target) && n > 0
    ensures StopsAt(from, target, n) <==> target.parents[0] != from && StopsAt(from, target.parents[0], n - 1)
  {
    MissesStep(from, target, n);
  }

  /** Any other failure is a commit within the bound that is not linear. */
  lemma {:induction false} RangeAboveNotLinear(from: Commit, target: Commit, limit: nat)
    ensures RangeAbove(from, target, limit) == Err(NotLinear) <==> exists n: nat :: n < limit && StopsAt(from, target, n)
    ensures RangeAbove(from, target, limit) in {Err(NotLinear), Err(HistoryBound)} || RangeAbove(from, target, limit).Ok?
    decreases limit
  {
    if limit > 0 && Linear(target) {
      var parent := target.parents[0];
      RangeAboveNotLinear(from, parent, limit - 1);
      assert !StopsAt(from, target, 0);
      forall n: nat | 0 < n < limit
        ensures StopsAt(from, target, n) <==> parent != from && StopsAt(from, parent, n - 1)
      {
        StopsAtStep(from, target, n);
      }
      if RangeAbove(from, target, limit) == Err(NotLinear) {
        var m: nat :| m < limit - 1 && StopsAt(from, parent, m);
        assert StopsAt(from, target, m + 1);
      }
    } else if limit > 0 {
      assert StopsAt(from, target, 0);
    }
  }
}
