/** Majorities of a voter set, and why two of them always share a voter. */
module Quorum {

  function QuorumSize(memberCount: nat): nat {
    if memberCount == 0 then 0 else memberCount / 2 + 1
  }

  predicate HasQuorum(memberCount: nat, visible: nat) {
    memberCount != 0 && visible >= QuorumSize(memberCount)
  }

  /** `backers` holds a majority of `electorate`; outsiders in `backers` do not count. */
  ghost predicate Majority<T(!new)>(backers: set<T>, electorate: set<T>) {
    HasQuorum(|electorate|, |backers * electorate|)
  }

  /** Any two majorities of one electorate share a voter. */
  lemma MajoritiesMeet<T(!new)>(a: set<T>, b: set<T>, electorate: set<T>) returns (shared: T)
    requires Majority(a, electorate) && Majority(b, electorate)
    ensures shared in a && shared in b && shared in electorate
  {
    var left, right := a * electorate, b * electorate;
    if left * right == {} {
      assert |left + right| == |left| + |right|;
      SubsetCardinality(left + right, electorate);
      assert false;
    }
    shared :| shared in left * right;
  }

  /** The threshold is tight: whoever is not a majority leaves a majority-blocking rest. */
  lemma MinorityIsBlocked<T(!new)>(a: set<T>, electorate: set<T>)
    requires electorate != {} && a <= electorate
    ensures Majority(a, electorate) <==> !HasQuorum(|electorate|, |electorate - a|) && 2 * |a| != |electorate|
  {
  }

  /** One joining (or, read backwards, one leaving) voter keeps every old and new majority in touch. */
  lemma AdjacentMajoritiesMeet<T(!new)>(a: set<T>, smaller: set<T>, b: set<T>, joined: T) returns (shared: T)
    requires joined !in smaller
    requires Majority(a, smaller) && Majority(b, smaller + {joined})
    ensures shared in a && shared in b && shared in smaller
  {
    var left, right := a * smaller, b * smaller;
    assert |smaller + {joined}| == |smaller| + 1;
    SubsetCardinality(b * (smaller + {joined}), right + {joined});
    if left * right == {} {
      assert |left + right| == |left| + |right|;
      SubsetCardinality(left + right, smaller);
      assert false;
    }
    shared :| shared in left * right;
  }

  lemma {:induction false} SubsetCardinality<T>(a: set<T>, b: set<T>)
    requires a <= b
    ensures |a| <= |b|
  {
    if a != {} {
      var x :| x in a;
      SubsetCardinality(a - {x}, b - {x});
    }
  }
}
