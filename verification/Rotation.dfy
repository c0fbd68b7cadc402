/** The cursor that decides which interrupted request a recovery pass inspects. */
module Rotation {
  import opened Sets
  import opened Strings

  /** The eligible ids after the cursor. */
  function After(cursor: string, eligible: set<string>): set<string> {
    set x | x in eligible && Before(cursor, x)
  }

  /** The smallest eligible id after the cursor, or the smallest of all when none is. */
  function Pick(cursor: string, eligible: set<string>): string
    requires eligible != {}
  {
    if After(cursor, eligible) != {} then First(After(cursor, eligible)) else First(eligible)
  }

  /** The service keeps the cursor between passes; a pass without eligible requests leaves it alone. */
  class Cursor {
    var after: string

    constructor ()
      ensures after == ""
    {
      after := "";
    }

    method Pass(eligible: set<string>) returns (id: string)
      requires eligible != {}
      modifies this
      ensures id == Pick(old(after), eligible) && id in eligible && after == id
    {
      var later := set x | x in eligible && Before(after, x);
      if later != {} {
        id := First(later);
      } else {
        id := First(eligible);
      }
      after := id;
    }
  }

  /** Going round from `x` in id order, `p` is met before `y`; `x` itself comes first. */
  predicate MetBefore(x: string, p: string, y: string) {
    if Before(x, y) then (p == x || Before(x, p)) && Before(p, y)
    else p == x || Before(x, p) || Before(p, y)
  }

  /** A pick never jumps over an eligible request: from a place before `y`, the next pick is `y` or still before it,
    * and it is not the place the round started from. */
  lemma PickDoesNotPass(x: string, p: string, y: string, eligible: set<string>)
    requires x != y && y in eligible && MetBefore(x, p, y)
    ensures var q := Pick(p, eligible); q == y || (MetBefore(x, q, y) && q != x)
  {
    var q := Pick(p, eligible);
    BeforeTrichotomy(x, y);
    BeforeTrichotomy(q, y);
    BeforeTrichotomy(p, y);
    BeforeTrichotomy(q, x);
    BeforeTrichotomy(p, x);
    if Before(p, y) {
      assert y in After(p, eligible);
      if Before(x, y) {
        if Before(x, p) { BeforeTransitive(x, p, q); }
      } else if q != y {
        if Before(q, y) { if q == x { assert false; } }
      }
    } else {
      assert !Before(x, y);
      if After(p, eligible) != {} {
        if p != x { BeforeTransitive(x, p, q); }
      }
    }
  }

  /** The picks of consecutive passes over changing sets of eligible requests. */
  function Picks(cursor: string, sets: seq<set<string>>): seq<string>
    requires forall i :: 0 <= i < |sets| ==> sets[i] != {}
    decreases |sets|
  {
    if sets == [] then [] else [Pick(cursor, sets[0])] + Picks(Pick(cursor, sets[0]), sets[1..])
  }

  /** While `y` stays eligible and unpicked, the picks stay before `y` on the round from `x`, and `x` does not come again. */
  lemma {:induction false} UnpickedHoldsRound(x: string, y: string, cursor: string, sets: seq<set<string>>)
    requires forall i :: 0 <= i < |sets| ==> sets[i] != {} && y in sets[i]
    requires x != y && MetBefore(x, cursor, y)
    ensures y !in Picks(cursor, sets) ==> x !in Picks(cursor, sets)
    decreases |sets|
  {
    if sets != [] {
      var q := Pick(cursor, sets[0]);
      PickDoesNotPass(x, cursor, y, sets[0]);
      if q != y {
        UnpickedHoldsRound(x, y, q, sets[1..]);
      }
    }
  }

  /** Fairness: between two picks of one request, every other request that was eligible all the time in between has had
    * its turn, however the rest of the eligible set changed. The passes `sets` follow a pick of `x`. */
  lemma BetweenTwoPicks(x: string, sets: seq<set<string>>, y: string)
    requires forall i :: 0 <= i < |sets| ==> sets[i] != {} && y in sets[i]
    requires x != y && x in Picks(x, sets)
    ensures y in Picks(x, sets)
  {
    BeforeTrichotomy(x, y);
    UnpickedHoldsRound(x, y, x, sets);
  }

  function Constant(e: set<string>, n: nat): (sets: seq<set<string>>)
    ensures |sets| == n && forall i :: 0 <= i < n ==> sets[i] == e
  {
    if n == 0 then [] else [e] + Constant(e, n - 1)
  }

  /** The picks of `n` passes over one fixed set. */
  function Turns(cursor: string, e: set<string>, n: nat): (picks: seq<string>)
    requires e != {}
    ensures |picks| == n && forall x :: x in picks ==> x in e
    decreases n
  {
    if n == 0 then [] else [Pick(cursor, e)] + Turns(Pick(cursor, e), e, n - 1)
  }

  lemma {:induction false} TurnsArePicks(cursor: string, e: set<string>, n: nat)
    requires e != {}
    ensures Turns(cursor, e, n) == Picks(cursor, Constant(e, n))
    decreases n
  {
    if n > 0 {
      TurnsArePicks(Pick(cursor, e), e, n - 1);
      assert Constant(e, n)[1..] == Constant(e, n - 1);
    }
  }

  function Elements(s: seq<string>): set<string> {
    set i | 0 <= i < |s| :: s[i]
  }

  lemma {:induction false} FewElements(s: seq<string>)
    ensures |Elements(s)| <= |s|
    decreases |s|
  {
    if s != [] {
      FewElements(s[1..]);
      assert Elements(s) == {s[0]} + Elements(s[1..]) by {
        forall x | x in Elements(s) ensures x == s[0] || x in Elements(s[1..]) {
          var i :| 0 <= i < |s| && s[i] == x;
          if i > 0 { assert s[1..][i - 1] == x; }
        }
        forall x | x in Elements(s[1..]) ensures x in Elements(s) {
          var i :| 0 <= i < |s| - 1 && s[1..][i] == x;
          assert s[i + 1] == x;
        }
      }
    }
  }

  /** A request comes back only after all others: fewer passes than there are requests do not meet it again. */
  lemma NoEarlyReturn(x: string, e: set<string>, n: nat)
    requires x in e && n < |e|
    ensures x !in Turns(x, e, n)
  {
    var picks := Turns(x, e, n);
    if x in picks {
      TurnsArePicks(x, e, n);
      forall y | y in e ensures y in Elements(picks) {
        if y != x {
          BetweenTwoPicks(x, Constant(e, n), y);
        }
        var i :| 0 <= i < |picks| && picks[i] == y;
      }
      FewElements(picks);
      SubsetSize(e, Elements(picks));
      assert false;
    }
  }

  lemma {:induction false} TurnsAreDistinct(cursor: string, e: set<string>, n: nat)
    requires e != {} && n <= |e|
    ensures forall i, j :: 0 <= i < j < n ==> Turns(cursor, e, n)[i] != Turns(cursor, e, n)[j]
    decreases n
  {
    if n > 0 {
      var q := Pick(cursor, e);
      var picks, rest := Turns(cursor, e, n), Turns(q, e, n - 1);
      TurnsAreDistinct(q, e, n - 1);
      NoEarlyReturn(q, e, n - 1);
      forall i, j | 0 <= i < j < n ensures picks[i] != picks[j] {
        assert picks[j] == rest[j - 1];
        if i > 0 { assert picks[i] == rest[i - 1]; } else { assert rest[j - 1] in rest; }
      }
    }
  }

  /** With a fixed set of n requests, any n consecutive passes inspect each of them exactly once. */
  lemma EveryRequestOncePerRound(cursor: string, e: set<string>)
    requires e != {}
    ensures var picks := Turns(cursor, e, |e|);
      && (forall i, j :: 0 <= i < j < |e| ==> picks[i] != picks[j])
      && Elements(picks) == e
  {
    var picks := Turns(cursor, e, |e|);
    TurnsAreDistinct(cursor, e, |e|);
    DistinctCount(picks);
    assert Elements(picks) <= e;
    assert e == Elements(picks) + (e - Elements(picks));
    assert |e - Elements(picks)| == 0;
  }

  lemma {:induction false} DistinctCount(s: seq<string>)
    requires forall i, j :: 0 <= i < j < |s| ==> s[i] != s[j]
    ensures |Elements(s)| == |s|
    decreases |s|
  {
    if s != [] {
      var last, rest := s[|s| - 1], s[..|s| - 1];
      DistinctCount(rest);
      assert Elements(s) == Elements(rest) + {last} by {
        forall x | x in Elements(s) ensures x == last || x in Elements(rest) {
          var i :| 0 <= i < |s| && s[i] == x;
          if i < |s| - 1 { assert rest[i] == x; }
        }
        forall x | x in Elements(rest) ensures x in Elements(s) {
          var i :| 0 <= i < |rest| && rest[i] == x;
          assert s[i] == x;
        }
        assert s[|s| - 1] == last;
      }
      assert last !in Elements(rest);
    }
  }
}
