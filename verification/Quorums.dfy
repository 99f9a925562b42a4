/** Quorum arithmetic (`PbftConfig` in src/pbft.rs): how many faults a cluster of
    n replicas tolerates, how many votes make a quorum, and what two quorums share. */
module Quorums {

  /** The number of faulty replicas tolerated among n. */
  function FaultBound(n: nat): nat
    requires n >= 1
  {
    (n - 1) / 3
  }

  /** The number of votes that make a quorum when f faults are tolerated. */
  function QuorumSize(f: nat): nat {
    2 * f + 1
  }

  lemma SubsetSize<T>(a: set<T>, b: set<T>)
    requires a <= b
    ensures |a| <= |b|
  {
    assert b == a + (b - a);
  }

  lemma UnionSize<T>(a: set<T>, b: set<T>)
    ensures |a + b| + |a * b| == |a| + |b|
  {
    assert a + b == (a - b) + b && a == (a - b) + (a * b);
  }

  /** Any set has subsets of every smaller size. */
  lemma SubsetOfSize<T>(s: set<T>, k: nat) returns (t: set<T>)
    requires k <= |s|
    ensures t <= s && |t| == k
  {
    t := {};
    while |t| < k
      invariant t <= s && |t| <= k
    {
      if s - t == {} {
        SubsetSize(s, t);
      }
      var x :| x in s - t;
      t := t + {x};
    }
  }

  /** No more faults can be tolerated: of all f with 3f+1 <= n it is the largest. */
  lemma LargestFaultBound(n: nat, f: nat)
    requires n >= 1
    ensures 3 * f + 1 <= n <==> f <= FaultBound(n)
  {
  }

  /** The correct replicas alone always form a quorum. */
  lemma CorrectReplicasFormQuorum(n: nat)
    requires n >= 1
    ensures n - FaultBound(n) >= QuorumSize(FaultBound(n))
  {
  }

  /** Two groups of members overlap by whatever their sizes exceed the membership. */
  lemma OverlapSize<T>(members: set<T>, a: set<T>, b: set<T>)
    requires a <= members && b <= members
    ensures |a * b| >= |a| + |b| - |members|
  {
    UnionSize(a, b);
    SubsetSize(a + b, members);
  }

  /** `q` members can be picked twice so that the picks share at most `shared` members. */
  ghost predicate QuorumsMayShareOnly<T(!new)>(members: set<T>, q: nat, shared: nat) {
    exists a: set<T>, b: set<T> :: a <= members && b <= members && |a| == q && |b| == q && |a * b| <= shared
  }

  /** In a cluster of 3f+2 or 3f+3 members two quorums can meet in f members only, all
      of which may be faulty. */
  lemma ThinOverlap<T(!new)>(members: set<T>)
    requires |members| >= 1 && |members| % 3 != 1
    ensures var f := FaultBound(|members|); QuorumsMayShareOnly(members, QuorumSize(f), f)
  {
    var f := FaultBound(|members|);
    var a := SubsetOfSize(members, QuorumSize(f));
    assert members == a + (members - a);
    var outside := SubsetOfSize(members - a, f + 1);
    var inside := SubsetOfSize(a, f);
    var b := outside + inside;
    assert a * b == inside;
    assert b <= members && |b| == QuorumSize(f) && |a * b| <= f;
  }

  /** Quorums always share a correct member exactly when n = 3f+1. The claim that two quorums
      of 2f+1 must overlap in a correct node is false of every other cluster size. */
  lemma QuorumsShareCorrectMember<T(!new)>(members: set<T>)
    requires |members| >= 1
    ensures var f := FaultBound(|members|);
            !QuorumsMayShareOnly(members, QuorumSize(f), f) <==> |members| % 3 == 1
  {
    var f := FaultBound(|members|);
    if |members| % 3 != 1 {
      ThinOverlap(members);
    } else {
      forall a, b | a <= members && b <= members && |a| == QuorumSize(f) && |b| == QuorumSize(f)
        ensures |a * b| > f
      {
        OverlapSize(members, a, b);
      }
    }
  }

  /** A group with more members than there are faulty ones has a correct member; quorums of a
      cluster of 3f+1 meet in one. */
  lemma CommonCorrectMember<T>(members: set<T>, correct: set<T>, f: nat, a: set<T>, b: set<T>) returns (k: T)
    requires |members| == 3 * f + 1 && |members - correct| <= f
    requires a <= members && b <= members && |a| >= QuorumSize(f) && |b| >= QuorumSize(f)
    ensures k in a && k in b && k in correct
  {
    OverlapSize(members, a, b);
    if a * b * correct == {} {
      assert forall x :: x in a * b && x in correct ==> x in a * b * correct;
      SubsetSize(a * b, members - correct);
    }
    k :| k in a * b * correct;
  }

  /** All but f of a quorum are correct. */
  lemma CorrectPart<T>(members: set<T>, correct: set<T>, f: nat, a: set<T>)
    requires a <= members && |members - correct| <= f && |a| >= QuorumSize(f)
    ensures |a * correct| >= f + 1
  {
    assert a == (a * correct) + (a - correct);
    SubsetSize(a - correct, members - correct);
  }

  /** A set of numbers strictly above `low` and at most `high` has at most high - low elements. */
  lemma WindowSize(s: set<nat>, low: nat, high: nat)
    requires low <= high && forall x :: x in s ==> low < x <= high
    ensures |s| <= high - low
    decreases high - low
  {
    if low == high {
      assert s == {};
    } else {
      WindowSize(s - {high}, low, high - 1);
      assert s <= (s - {high}) + {high};
      SubsetSize(s, (s - {high}) + {high});
    }
  }

  /** The pairs of an element of `a` and one of `b`. */
  ghost function Pairs<T, U>(a: set<T>, b: set<U>): set<(T, U)> {
    set x, y | x in a && y in b :: (x, y)
  }

  lemma {:induction false} RowSize<T, U>(k: T, b: set<U>)
    ensures |Pairs({k}, b)| <= |b|
    decreases |b|
  {
    if b == {} {
      assert Pairs({k}, b) == {};
    } else {
      var y :| y in b;
      RowSize(k, b - {y});
      assert Pairs({k}, b) == Pairs({k}, b - {y}) + {(k, y)};
    }
  }

  lemma OneRowMore(rows: nat, width: nat)
    requires rows > 0
    ensures (rows - 1) * width + width == rows * width
  {
  }

  lemma {:induction false} PairsSize<T, U>(a: set<T>, b: set<U>)
    ensures |Pairs(a, b)| <= |a| * |b|
    decreases |a|
  {
    if a == {} {
      assert Pairs(a, b) == {};
    } else {
      var k :| k in a;
      PairsSize(a - {k}, b);
      RowSize(k, b);
      assert Pairs(a, b) == Pairs(a - {k}, b) + Pairs({k}, b);
      OneRowMore(|a|, |b|);
    }
  }
}
