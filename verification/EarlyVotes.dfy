/** Prepares that arrive before the pre-prepare are stored whatever their digest, and counted
    later. What that does to prepared instances, and when it does no harm. */
module EarlyVotes {
  import opened Messages
  import opened Protocol
  import opened Moves
  import opened Invariant
  import opened Records
  import opened Runs
  import Quorums

  // ---------- Matching quorums ----------

  /** Prepared and committed instances hold prepares of a quorum of members for their digest. */
  ghost predicate PreparedMatching(env: Env, st: State) {
    forall s :: s in st.log && st.log[s].phase in {Prepared, Committed} ==>
      |MatchingMembersOf(env, st.log[s])| >= env.config.Quorum()
  }

  /** A move into a later phase than PrePrepared is not an opening, and keeps digest and prepares. */
  lemma PreparesKept(env: Env, st: State, m: Move, s: nat)
    requires Guard(env, st, m) && s in Moved(env, st, m) && Moved(env, st, m)[s].phase in {Prepared, Committed}
    ensures s in st.log && st.log[s].phase != Idle
    ensures var i, i' := st.log[s], Moved(env, st, m)[s];
            && i'.digest == i.digest
            && forall k :: k in i.prepares ==> k in i'.prepares && i'.prepares[k] == i.prepares[k]
  {
  }

  lemma MatchingMembersKept(env: Env, st: State, m: Move, s: nat)
    requires Guard(env, st, m) && s in Moved(env, st, m) && Moved(env, st, m)[s].phase in {Prepared, Committed}
    ensures s in st.log
    ensures |MatchingMembersOf(env, st.log[s])| <= |MatchingMembersOf(env, Moved(env, st, m)[s])|
  {
    hide Guard, Moved;
    PreparesKept(env, st, m, s);
    Quorums.SubsetSize(MatchingMembersOf(env, st.log[s]), MatchingMembersOf(env, Moved(env, st, m)[s]));
  }

  lemma CertifyKeepsVotes(env: Env, st: State, s: nat)
    requires Guard(env, st, Certify(s))
    ensures s in Moved(env, st, Certify(s))
    ensures var i, i' := st.log[s], Moved(env, st, Certify(s))[s];
            i'.phase == Prepared && MatchingMembersOf(env, i') == MatchingMembersOf(env, i)
  {
  }

  /** Only certifying an instance makes it Prepared. */
  lemma PreparedBefore(env: Env, st: State, m: Move, s: nat)
    requires Guard(env, st, m) && s in st.log && s in Moved(env, st, m)
    requires Moved(env, st, m)[s].phase in {Prepared, Committed}
    ensures m == Certify(s) || st.log[s].phase in {Prepared, Committed}
  {
  }

  /** When a prepared instance is not backed by prepares of a quorum of members for its digest:
      exactly when prepares are counted of which fewer than a quorum are members' for that digest.
      Looking at senders and digests where prepares are counted would rule it out. */
  lemma MatchingExactlyIfCounted(env: Env, n: Node, e: Event)
    requires env.Valid() && Inv(env, n) && PreparedMatching(env, n.st)
    ensures var m := MoveOf(env, n, e);
            PreparedMatching(env, Step(env, n, e).st) <==>
              (m.Certify? ==> |MatchingMembersOf(env, n.st.log[m.sequence])| >= env.config.Quorum())
  {
    hide Step, MoveOf, MatchingMembersOf, Origin, Speaks, Outputs, Moved;
    StepMoves(env, n, e);
    var m, n' := MoveOf(env, n, e), Step(env, n, e);
    if m.Certify? {
      CertifyKeepsVotes(env, n.st, m.sequence);
      assert n'.st.log[m.sequence].phase == Prepared;
    }
    if m.Certify? ==> |MatchingMembersOf(env, n.st.log[m.sequence])| >= env.config.Quorum() {
      forall s | s in n'.st.log && n'.st.log[s].phase in {Prepared, Committed}
        ensures |MatchingMembersOf(env, n'.st.log[s])| >= env.config.Quorum()
      {
        MatchingMembersKept(env, n.st, m, s);
        PreparedBefore(env, n.st, m, s);
      }
    }
  }

  // ---------- Uniform votes ----------

  /** The recorded prepares are for the recorded digest. */
  ghost predicate VotesUniform(i: Instance) {
    i.digest.Some? ==> forall k :: k in i.prepares ==> i.prepares[k].digest == i.digest.value
  }

  ghost predicate Uniform(st: State) {
    forall s :: s in st.log ==> VotesUniform(st.log[s])
  }

  lemma MovedUniform(env: Env, st: State, m: Move, s: nat)
    requires LogOk(env, st) && Guard(env, st, m) && s in Moved(env, st, m)
    requires s in st.log ==> VotesUniform(st.log[s])
    requires m.Open? && m.prePrepare.sequence == s ==> EarlyVotesFit(st, m.prePrepare)
    ensures VotesUniform(Moved(env, st, m)[s])
  {
    assert s in st.log ==> InstanceOk(env, st.nodeId, s, st.log[s]);
  }

  lemma MisfitStays(env: Env, st: State, pp: PrePrepare)
    requires Guard(env, st, Open(pp)) && !EarlyVotesFit(st, pp)
    ensures !VotesUniform(Moved(env, st, Open(pp))[pp.sequence])
  {
    var i := st.InstanceAt(pp.sequence);
    var k :| k in i.prepares && k != st.nodeId && i.prepares[k].digest != pp.digest;
    assert Moved(env, st, Open(pp))[pp.sequence].prepares[k] == i.prepares[k];
  }

  /** A step leaves all recorded prepares for the recorded digests exactly if it does not open an
      instance in which another replica's prepare for another digest is recorded. */
  lemma UniformExactlyIfFitting(env: Env, n: Node, e: Event)
    requires env.Valid() && Inv(env, n) && Uniform(n.st)
    ensures var m := MoveOf(env, n, e);
            Uniform(Step(env, n, e).st) <==> (m.Open? ==> EarlyVotesFit(n.st, m.prePrepare))
  {
    hide Step, MoveOf;
    StepMoves(env, n, e);
    var m, n' := MoveOf(env, n, e), Step(env, n, e);
    if m.Open? && !EarlyVotesFit(n.st, m.prePrepare) {
      MisfitStays(env, n.st, m.prePrepare);
    } else {
      forall s | s in n'.st.log ensures VotesUniform(n'.st.log[s]) {
        MovedUniform(env, n.st, m, s);
      }
    }
  }

  lemma NothingRecorded(env: Env, k: NodeId)
    ensures Uniform(InitialNode(env, k).st)
  {
  }

  lemma {:induction false} UniformInRuns(env: Env, correct: set<NodeId>, run: Run, k: NodeId)
    requires env.Valid() && k in correct && Obeys(env, correct, {EarlyVotesMatch}, run)
    ensures Uniform(After(env, correct, run)[k].st)
  {
    hide Step, MoveOf, Inv, Uniform, EarlyVotesFit;
    match run
    case Start => NothingRecorded(env, k);
    case Then(before, at, e) =>
      UniformInRuns(env, correct, before, k);
      if at == k {
        ReplicaInvariant(env, correct, before, k);
        assert Allowed(env, After(env, correct, before), at, e, EarlyVotesMatch);
        UniformExactlyIfFitting(env, After(env, correct, before)[k], e);
      }
  }

  lemma UniformCounts(env: Env, st: State, s: nat)
    requires Uniform(st) && CanPrepare(env, st, s)
    ensures |MatchingVoters(st.log[s])| >= env.config.Quorum()
  {
    var i := st.log[s];
    assert VotesUniform(i);
    assert MatchingVoters(i) == i.prepares.Keys && |i.prepares.Keys| == |i.prepares|;
  }

  /** If early prepares match their pre-prepares then all prepares that are counted match. */
  lemma {:induction false} EarlyVotesCount(env: Env, correct: set<NodeId>, run: Run)
    requires env.Valid() && Obeys(env, correct, {EarlyVotesMatch}, run)
    ensures Obeys(env, correct, {MatchingQuorums}, run)
  {
    hide Step, Speaks, Inv, Uniform, MatchingVoters;
    if run.Then? {
      var Then(before, at, e) := run;
      EarlyVotesCount(env, correct, before);
      if at in correct {
        var m := StepInRun(env, correct, run);
        UniformInRuns(env, correct, before, at);
        if m.Certify? {
          UniformCounts(env, After(env, correct, before)[at].st, m.sequence);
        }
      }
    }
  }

  // ---------- No early votes ----------

  ghost predicate NoEarlyVotes(st: State) {
    forall s :: s in st.log && st.log[s].digest.None? ==> st.log[s].prepares == map[]
  }

  lemma NoEarlyVotesStep(env: Env, n: Node, e: Event, m: Move, n': Node)
    requires env.Valid() && Follows(env, n, e, m, n') && LogOk(env, n.st) && NoEarlyVotes(n.st)
    requires m.AddPrepare? ==> n.st.HoldsPrePrepare(m.prepare.sequence)
    ensures NoEarlyVotes(n'.st)
  {
  }

  /** An instance is opened for a number nothing was recorded for. */
  lemma OpenedOnce(env: Env, n: Node, e: Event, m: Move)
    requires env.Valid() && m.Open? && Guard(env, n.st, m) && Origin(env, n, e, m)
    requires LogOk(env, n.st) && LogSigned(env, n)
    requires Assigns(env, n.st, e) ==> Unsigned(n, n.st.sequence + 1)
    ensures n.st.InstanceAt(m.prePrepare.sequence).digest.None?
  {
    var s := m.prePrepare.sequence;
    assert s in n.st.log && n.st.log[s].digest.Some? ==> SignedPrepare(n, s, n.st.log[s].digest.value);
  }

  const LATE_VOTES := {VotesAfterPrePrepare, FreshAssignments}

  /** What the rules give for the last step of a run. */
  lemma {:induction false} LateVotesVouch(env: Env, correct: set<NodeId>, run: Run, m: Move)
    requires env.Valid() && run.Then? && run.at in correct && Obeys(env, correct, LATE_VOTES, run)
    requires Follows(env, After(env, correct, run.before)[run.at], run.event, m, After(env, correct, run)[run.at])
    ensures var n := After(env, correct, run.before)[run.at];
            && (m.AddPrepare? ==> n.st.HoldsPrePrepare(m.prepare.sequence))
            && (Assigns(env, n.st, run.event) ==> Unsigned(n, n.st.sequence + 1))
  {
    hide Step, Guard, Moved;
    var sys := After(env, correct, run.before);
    assert Allowed(env, sys, run.at, run.event, VotesAfterPrePrepare);
    assert Allowed(env, sys, run.at, run.event, FreshAssignments);
  }

  lemma {:induction false} NoEarlyVotesInRuns(env: Env, correct: set<NodeId>, run: Run, k: NodeId)
    requires env.Valid() && k in correct && Obeys(env, correct, LATE_VOTES, run)
    ensures NoEarlyVotes(After(env, correct, run)[k].st)
  {
    hide Step, MoveOf, Follows, Speaks, Inv;
    if run.Then? {
      NoEarlyVotesInRuns(env, correct, run.before, k);
      if run.at == k {
        var m := StepInRun(env, correct, run);
        LateVotesVouch(env, correct, run, m);
        NoEarlyVotesStep(env, After(env, correct, run.before)[k], run.event, m, After(env, correct, run)[k]);
      }
    }
  }

  /** If replicas take prepares only for numbers they hold the pre-prepare of, and primaries
      assign fresh numbers, then no early prepare can disagree with its pre-prepare. */
  lemma {:induction false} LateVotesMatch(env: Env, correct: set<NodeId>, run: Run)
    requires env.Valid() && Obeys(env, correct, LATE_VOTES, run)
    ensures Obeys(env, correct, {EarlyVotesMatch}, run)
  {
    hide Step, MoveOf, Speaks, Inv, Guard, Moved, Origin;
    if run.Then? {
      var Then(before, at, e) := run;
      LateVotesMatch(env, correct, before);
      if at in correct {
        var n := After(env, correct, before)[at];
        var m := StepInRun(env, correct, run);
        NoEarlyVotesInRuns(env, correct, before, at);
        LateVotesVouch(env, correct, run, m);
        if m.Open? {
          OpenedOnce(env, n, e, m);
        }
      }
    }
  }
}
