/** Majorities of a fixed membership. */
module Quorums {
  import opened RaftTypes

  predicate IsQuorum(members: seq<NodeId>, q: set<NodeId>) {
    q <= Elements(members) && |q| >= Majority(members)
  }

  lemma {:induction false} DistinctCount(members: seq<NodeId>)
    requires Distinct(members)
    ensures |Elements(members)| == |members|
  {
    if members != [] {
      var rest := members[1..];
      DistinctCount(rest);
      assert Elements(members) == {members[0]} + Elements(rest);
      assert members[0] !in Elements(rest);
    }
  }

  /** Any two majorities share a member. */
  lemma QuorumsIntersect(members: seq<NodeId>, a: set<NodeId>, b: set<NodeId>) returns (v: NodeId)
    requires Distinct(members) && IsQuorum(members, a) && IsQuorum(members, b)
    ensures v in a && v in b && v in members
  {
    DistinctCount(members);
    if a * b == {} {
      Subset(a + b, Elements(members));
    }
    v :| v in a * b;
  }

  lemma {:induction false} Subset(a: set<NodeId>, b: set<NodeId>)
    requires a <= b
    ensures |a| <= |b|
  {
    assert b == a + (b - a);
  }

  /** A majority is exactly more than half. */
  lemma MajorityExactly(members: seq<NodeId>, q: set<NodeId>)
    requires q <= Elements(members)
    ensures IsQuorum(members, q) <==> 2 * |q| > |members|
  {
  }

  /** The members left are a majority exactly when fewer than half are lost. */
  lemma SurvivesExactly(members: seq<NodeId>, lost: set<NodeId>)
    requires Distinct(members) && lost <= Elements(members)
    ensures IsQuorum(members, Elements(members) - lost) <==> 2 * |lost| < |members|
  {
    DistinctCount(members);
    assert Elements(members) == lost + (Elements(members) - lost);
    assert |Elements(members)| == |lost| + |Elements(members) - lost|;
    MajorityExactly(members, Elements(members) - lost);
  }

  lemma LargerIsQuorum(members: seq<NodeId>, a: set<NodeId>, b: set<NodeId>)
    requires IsQuorum(members, a) && a <= b <= Elements(members)
    ensures IsQuorum(members, b)
  {
    Subset(a, b);
  }
}
