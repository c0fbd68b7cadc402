/** The durable evidence of one job, and the signed candidate it names. */
module Journals {
  import opened Commits

  /** The evidence of one journal entry, as far as recovery reads it. */
  datatype Entry = Entry(candidate: Option<Commit>)

  type Journal = seq<Entry>

  /** The newest candidate, if any entry names one. */
  function CandidateOf(j: Journal): Option<Commit> {
    if j == [] then None
    else if j[|j| - 1].candidate.Some? then j[|j| - 1].candidate
    else CandidateOf(j[..|j| - 1])
  }

  /** Scans the entries from the end. */
  method JournalCandidate(j: Journal) returns (c: Option<Commit>)
    ensures c == CandidateOf(j)
  {
    var i := |j|;
    assert j[..i] == j;
    while i > 0
      invariant 0 <= i <= |j|
      invariant CandidateOf(j) == CandidateOf(j[..i])
    {
      i := i - 1;
      assert j[..i + 1][..i] == j[..i];
      if j[i].candidate.Some? {
        return j[i].candidate;
      }
    }
    c := None;
  }

  /** Every candidate the journal names is the same commit. */
  ghost predicate SingleCandidate(j: Journal) {
    forall i :: 0 <= i < |j| && j[i].candidate.Some? ==> j[i].candidate == CandidateOf(j)
  }

  predicate Names(j: Journal, c: Commit) {
    exists i :: 0 <= i < |j| && j[i].candidate == Some(c)
  }

  lemma {:induction false} CandidateIsNamed(j: Journal)
    ensures CandidateOf(j).Some? ==> Names(j, CandidateOf(j).value)
    ensures CandidateOf(j).None? <==> forall i :: 0 <= i < |j| ==> j[i].candidate.None?
    decreases |j|
  {
    if j != [] && j[|j| - 1].candidate.None? {
      var rest := j[..|j| - 1];
      CandidateIsNamed(rest);
      assert forall i :: 0 <= i < |rest| ==> rest[i] == j[i];
      if CandidateOf(rest).Some? {
        var i :| 0 <= i < |rest| && rest[i].candidate == CandidateOf(rest);
        assert j[i].candidate == CandidateOf(j);
      }
    } else if j != [] {
      assert j[|j| - 1].candidate == CandidateOf(j);
    }
  }

  /** With a single candidate the scan finds the same commit in whatever order the entries are kept, and exactly then:
    * two different candidates would make some order of the same entries answer differently. */
  lemma CandidateIgnoresOrder(j: Journal)
    ensures SingleCandidate(j) <==> forall k: Journal :: multiset(k) == multiset(j) ==> CandidateOf(k) == CandidateOf(j)
  {
    if SingleCandidate(j) {
      forall k: Journal | multiset(k) == multiset(j) ensures CandidateOf(k) == CandidateOf(j) {
        SameEntriesSameCandidate(j, k);
      }
    } else {
      var a :| 0 <= a < |j| && j[a].candidate.Some? && j[a].candidate != CandidateOf(j);
      var k := MovedToEnd(j, a);
      assert CandidateOf(k) == j[a].candidate;
      assert multiset(k) == multiset(j) && CandidateOf(k) != CandidateOf(j);
    }
  }

  lemma SameEntriesSameCandidate(j: Journal, k: Journal)
    requires SingleCandidate(j) && multiset(k) == multiset(j)
    ensures CandidateOf(k) == CandidateOf(j)
  {
    CandidateIsNamed(j);
    CandidateIsNamed(k);
    assert forall e :: e in j <==> e in multiset(j);
    assert forall e :: e in k <==> e in multiset(k);
    if CandidateOf(k).Some? {
      var i :| 0 <= i < |k| && k[i].candidate == CandidateOf(k);
      assert k[i] in j;
    }
    if CandidateOf(j).Some? {
      var i :| 0 <= i < |j| && j[i].candidate == CandidateOf(j);
      assert j[i] in k;
    }
  }

  lemma MovedToEnd(j: Journal, a: nat) returns (x: Journal)
    requires a < |j|
    ensures |x| == |j| && multiset(x) == multiset(j) && x[|x| - 1] == j[a]
  {
    x := j[..a] + j[a + 1..] + [j[a]];
    assert j == j[..a] + ([j[a]] + j[a + 1..]);
  }

  /** Appending an entry keeps a journal single when the entry names nothing, or the candidate already named. */
  lemma AppendKeepsSingle(j: Journal, e: Entry)
    requires SingleCandidate(j)
    requires e.candidate.None? || CandidateOf(j).None? || e.candidate == CandidateOf(j)
    ensures SingleCandidate(j + [e])
    ensures CandidateOf(j + [e]) == if e.candidate.Some? then e.candidate else CandidateOf(j)
  {
    CandidateIsNamed(j);
    assert (j + [e])[..|j|] == j;
  }
}
