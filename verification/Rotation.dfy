/** Whose turn it is: the primaries of consecutive views go round the replica list
    (`PbftState::primary` in src/pbft.rs). */
module Rotation {
  import opened Messages
  import opened Protocol
  import opened Runs
  import Quorums

  ghost predicate Distinct(replicas: seq<NodeId>) {
    forall i, j :: 0 <= i < j < |replicas| ==> replicas[i] != replicas[j]
  }

  /** The index after `i` in a list of length `n`, from the end back to the start. */
  function Next(i: nat, n: nat): nat {
    if i + 1 == n then 0 else i + 1
  }

  /** Later rounds begin at least a round later. */
  lemma RoundsApart(a: nat, b: nat, n: nat)
    requires a < b
    ensures a * n + n <= b * n
  {
    var rest := b - a - 1;
    assert rest * n >= 0;
    assert b * n == (a + 1 + rest) * n == a * n + n + rest * n;
  }

  /** A view lies in one round only, at one place of the list. */
  lemma PlaceUnique(i: nat, p: nat, j: nat, q: nat, n: nat)
    requires i < n && j < n && i + p * n == j + q * n
    ensures i == j && p == q
  {
    if p < q {
      RoundsApart(p, q, n);
    } else if q < p {
      RoundsApart(q, p, n);
    }
  }

  lemma PlaceOf(i: nat, rounds: nat, n: nat)
    requires i < n
    ensures (i + rounds * n) % n == i
  {
    var view := i + rounds * n;
    var j, q := view % n, view / n;
    assert view == j + q * n;
    PlaceUnique(j, q, i, rounds, n);
  }

  /** The first views have the replicas of the list in order, and so has each round after them. */
  lemma FirstRound(env: Env, i: nat, rounds: nat)
    requires env.Valid() && i < |env.replicas|
    ensures env.Primary(i) == env.replicas[i]
    ensures env.Primary(i + rounds * |env.replicas|) == env.replicas[i]
  {
    PlaceOf(i, 0, |env.replicas|);
    PlaceOf(i, rounds, |env.replicas|);
  }

  /** A view as a number of full rounds and a place in the list. */
  lemma PlaceInRound(view: nat, n: nat) returns (i: nat, rounds: nat)
    requires n > 0
    ensures i < n && view == i + rounds * n
  {
    i, rounds := view % n, view / n;
  }

  /** The next view has the next replica of the list as its primary, the last one being followed
      by the first. */
  lemma NextPrimary(env: Env, view: nat, i: nat)
    requires env.Valid() && Distinct(env.replicas)
    requires i < |env.replicas| && env.Primary(view) == env.replicas[i]
    ensures env.Primary(view + 1) == env.replicas[Next(i, |env.replicas|)]
  {
    var n := |env.replicas|;
    var j, rounds := PlaceInRound(view, n);
    FirstRound(env, j, rounds);
    assert i == j;
    if i + 1 == n {
      assert view + 1 == 0 + (rounds + 1) * n;
      FirstRound(env, 0, rounds + 1);
    } else {
      FirstRound(env, i + 1, rounds);
    }
  }

  /** Fewer than `n` views from place `j` of a round on, place `i` comes in that round or the next. */
  lemma SameRound(i: nat, r: nat, j: nat, rounds: nat, n: nat)
    requires i < n && j < n && j + rounds * n <= i + r * n < j + rounds * n + n
    ensures r == if i >= j then rounds else rounds + 1
  {
    if r < rounds {
      RoundsApart(r, rounds, n);
    } else if r > rounds + 1 {
      RoundsApart(rounds, rounds + 1, n);
      RoundsApart(rounds + 1, r, n);
    } else if r == rounds + 1 {
      RoundsApart(rounds, r, n);
    }
  }

  /** Among as many consecutive views as there are replicas each replica is the primary of exactly
      one. */
  lemma EveryonesTurn(env: Env, from: nat, k: NodeId) returns (view: nat)
    requires env.Valid() && Distinct(env.replicas) && k in env.replicas
    ensures from <= view < from + |env.replicas| && env.Primary(view) == k
    ensures forall v: nat :: from <= v < from + |env.replicas| && env.Primary(v) == k ==> v == view
  {
    var n := |env.replicas|;
    var j, rounds := PlaceInRound(from, n);
    var i :| 0 <= i < n && env.replicas[i] == k;
    view := if i >= j then i + rounds * n else i + (rounds + 1) * n;
    FirstRound(env, i, if i >= j then rounds else rounds + 1);
    assert (rounds + 1) * n == rounds * n + n;
    forall v: nat | from <= v < from + n && env.Primary(v) == k ensures v == view {
      var l, r := PlaceInRound(v, n);
      FirstRound(env, l, r);
      assert l == i;
      SameRound(i, r, j, rounds, n);
    }
  }

  /** The primaries of `count` views from a view on. */
  function Primaries(env: Env, from: nat, count: nat): set<NodeId>
    requires env.Valid()
  {
    if count == 0 then {} else Primaries(env, from, count - 1) + {env.Primary(from + count - 1)}
  }

  ghost predicate LeadsIn(env: Env, k: NodeId, from: nat, count: nat)
    requires env.Valid()
  {
    exists v: nat :: from <= v < from + count && env.Primary(v) == k
  }

  /** A primary does not come back before everyone else has had a turn. */
  lemma PrimaryIsFresh(env: Env, from: nat, count: nat)
    requires env.Valid() && Distinct(env.replicas) && count < |env.replicas|
    ensures !LeadsIn(env, env.Primary(from + count), from, count)
  {
    var view := EveryonesTurn(env, from, env.Primary(from + count));
  }

  lemma LeadsInLonger(env: Env, from: nat, count: nat, k: NodeId)
    requires env.Valid() && (LeadsIn(env, k, from, count) || k == env.Primary(from + count))
    ensures LeadsIn(env, k, from, count + 1) && k in env.replicas
  {
  }

  lemma {:induction false} PrimariesDiffer(env: Env, from: nat, count: nat)
    requires env.Valid() && Distinct(env.replicas) && count <= |env.replicas|
    ensures |Primaries(env, from, count)| == count
    ensures forall k :: k in Primaries(env, from, count) ==> LeadsIn(env, k, from, count) && k in env.replicas
  {
    hide Distinct, LeadsIn;
    if count > 0 {
      PrimariesDiffer(env, from, count - 1);
      PrimaryIsFresh(env, from, count - 1);
      forall k | k in Primaries(env, from, count) ensures LeadsIn(env, k, from, count) && k in env.replicas {
        LeadsInLonger(env, from, count - 1, k);
      }
    }
  }

  /** With at most f faulty members, one of any f + 1 consecutive views has a correct primary. */
  lemma CorrectPrimaryComes(env: Env, correct: set<NodeId>, from: nat) returns (view: nat)
    requires env.Valid() && Distinct(env.replicas) && FaultsBounded(env, correct) && env.config.f < |env.replicas|
    ensures from <= view <= from + env.config.f && env.Primary(view) in correct
  {
    hide Distinct;
    var primaries := Primaries(env, from, env.config.f + 1);
    PrimariesDiffer(env, from, env.config.f + 1);
    var faulty := Members(env) - correct;
    if primaries <= faulty {
      Quorums.SubsetSize(primaries, faulty);
      assert false;
    }
    var k :| k in primaries && k !in faulty;
    assert LeadsIn(env, k, from, env.config.f + 1);
    view :| from <= view < from + env.config.f + 1 && env.Primary(view) == k;
  }
}
