/** The automatic drain after a command: one notification per route and round, in route order, within a shared budget. */
module Drain {

  /** What one visit to a route brings. */
  datatype Visit = Failed | Report(claimed: nat)

  predicate IsMax(m: int, limits: seq<int>) {
    0 <= m && (forall i :: 0 <= i < |limits| ==> limits[i] <= m) && (m == 0 || m in limits)
  }

  method MaxRouteLimit(limits: seq<int>) returns (m: int)
    ensures IsMax(m, limits)
  {
    m := 0;
    for i := 0 to |limits|
      invariant 0 <= m && (forall k :: 0 <= k < i ==> limits[k] <= m) && (m == 0 || m in limits)
    {
      if limits[i] > m {
        m := limits[i];
      }
    }
  }

  function Min(a: int, b: int): int {
    if a < b then a else b
  }

  /** The visits a route under this limit has had after `rounds` whole rounds. */
  function Share(rounds: int, limit: int): int {
    Min(rounds, if limit < 0 then 0 else limit)
  }

  /** The routes of one drain with their services; a stopped service is not visited again. */
  class Routes {
    const limits: seq<int>
    const used: array<int>
    const live: array<bool>
    const claimed: array<int>    // what each route's last visit claimed
    var budget: nat              // visits until the shared time runs out

    constructor (limits: seq<int>, alive: seq<bool>, budget: nat)
      requires |limits| == |alive|
      ensures Valid() && fresh(used) && fresh(live) && fresh(claimed) && this.limits == limits && live[..] == alive && this.budget == budget
      ensures forall i :: 0 <= i < |limits| ==> used[i] == 0
    {
      this.limits, this.budget := limits, budget;
      used := new int[|limits|](_ => 0);
      live := new bool[|limits|](i requires 0 <= i < |alive| => alive[i]);
      claimed := new int[|limits|](_ => 0);
    }

    ghost predicate Valid()
      reads this
    {
      && used.Length == live.Length == claimed.Length == |limits|
      && used != claimed
    }

    /** No route goes over its limit. */
    predicate InBounds()
      reads this, used
      requires used.Length == |limits|
    {
      forall i :: 0 <= i < |limits| ==> used[i] == 0 || 0 < used[i] <= limits[i]
    }

    /** Every live route has had its share of `rounds` rounds. */
    predicate Even(rounds: int)
      reads this, used, live
      requires used.Length == live.Length == |limits|
    {
      forall i :: 0 <= i < |limits| && live[i] ==> used[i] == Share(rounds, limits[i])
    }

    /** One round: every live route under its limit is visited once, in order, while the budget lasts. */
    method Round(round: int, outcome: (nat, int) -> Visit) returns (progressed: bool)
      requires Valid() && InBounds() && 0 <= round && Even(round)
      modifies this`budget, used, live, claimed
      ensures Valid() && InBounds()
      ensures forall i :: 0 <= i < |limits| ==> old(used[i]) <= used[i] <= old(used[i]) + 1
      ensures forall i :: 0 <= i < |limits| && live[i] ==> old(live[i])
      ensures budget > 0 ==> Even(round + 1)
      ensures budget > 0 && !progressed ==> forall i :: 0 <= i < |limits| && live[i] && round < limits[i] ==> claimed[i] == 0
      ensures budget > 0 ==>
        forall i :: 0 <= i < |limits| && live[i] && limits[i] <= round ==> used[i] == old(used[i]) && claimed[i] == old(claimed[i])
      ensures budget <= old(budget)
    {
      progressed := false;
      var i := 0;
      while i < |limits|
        invariant 0 <= i <= |limits| && Valid() && InBounds() && budget <= old(budget)
        invariant forall k :: 0 <= k < |limits| ==> old(used[k]) <= used[k] <= old(used[k]) + 1
        invariant forall k :: 0 <= k < |limits| && live[k] ==> old(live[k])
        invariant forall k :: i <= k < |limits| ==> used[k] == old(used[k]) && live[k] == old(live[k]) && claimed[k] == old(claimed[k])
        invariant budget > 0 ==> forall k :: 0 <= k < i && live[k] ==> used[k] == Share(round + 1, limits[k])
        invariant budget > 0 && !progressed ==> forall k :: 0 <= k < i && live[k] && round < limits[k] ==> claimed[k] == 0
        invariant budget > 0 ==> forall k :: 0 <= k < i && live[k] && limits[k] <= round ==> used[k] == old(used[k]) && claimed[k] == old(claimed[k])
      {
        if live[i] && budget > 0 && used[i] < limits[i] {
          budget := budget - 1;
          used[i] := used[i] + 1;
          match outcome(i, used[i]) {
            case Failed => live[i] := false;
            case Report(n) =>
              claimed[i] := n;
              if n > 0 { progressed := true; }
          }
        }
        i := i + 1;
      }
    }

    /** The whole drain. `evens` records the visits after each completed round. Fair: after every completed round each
      * live route has had exactly its share. Bounded: no route is visited beyond its limit. Complete: when budget is
      * left, every live route has used its limit, or its last visit claimed nothing. */
    method Run(outcome: (nat, int) -> Visit) returns (rounds: int, ghost evens: seq<seq<int>>)
      requires Valid() && forall i :: 0 <= i < |limits| ==> used[i] == 0
      modifies this`budget, used, live, claimed
      ensures Valid() && InBounds()
      ensures forall i :: 0 <= i < |limits| && live[i] ==> old(live[i])
      ensures forall r :: 0 <= r < |evens| ==> |evens[r]| == |limits|
      ensures forall r, i :: 0 <= r < |evens| && 0 <= i < |limits| && live[i] ==> evens[r][i] == Share(r + 1, limits[i])
      ensures forall i, j :: 0 <= i < |limits| && 0 <= j < |limits| && live[i] && live[j] ==>
        used[i] < limits[i] && used[j] < limits[j] ==> used[i] - used[j] <= 1
      ensures budget > 0 ==> |evens| == rounds && Even(rounds)
      ensures budget > 0 ==> forall i :: 0 <= i < |limits| && live[i] ==> used[i] >= limits[i] || (used[i] > 0 && claimed[i] == 0)
    {
      var max := MaxRouteLimit(limits);
      rounds, evens := 0, [];
      while rounds < max
        invariant 0 <= rounds <= max && Valid() && InBounds()
        invariant forall i :: 0 <= i < |limits| && live[i] ==> old(live[i])
        invariant |evens| <= rounds && forall r :: 0 <= r < |evens| ==> |evens[r]| == |limits|
        invariant forall r, i :: 0 <= r < |evens| && 0 <= i < |limits| && live[i] ==> evens[r][i] == Share(r + 1, limits[i])
        invariant Even(rounds) && |evens| == rounds
      {
        var progressed := Round(rounds, outcome);
        rounds := rounds + 1;
        if budget == 0 {
          return;
        }
        evens := evens + [used[..]];
        if !progressed {
          return;
        }
      }
    }
  }
}
