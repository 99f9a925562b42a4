/** Agreement: no two correct replicas prepare, commit or execute different requests at one
    sequence number, even if the primary is faulty. */
module Agreement {
  import opened Messages
  import opened Protocol
  import opened Moves
  import opened Records
  import opened Runs
  import opened Signing
  import opened EarlyVotes
  import opened RecordedVotes
  import Quorums

  // ---------- Certificates ----------

  /** Whoever among `voters` is correct has signed a pre-prepare or prepare for the digest. */
  ghost predicate AllSigned(sys: System, voters: set<NodeId>, s: nat, d: Hash) {
    forall k :: k in voters && k in sys ==> SignedPrepare(sys[k], s, d)
  }

  ghost predicate Certified(env: Env, sys: System, s: nat, d: Hash) {
    exists voters :: voters <= Members(env) && |voters| >= env.config.Quorum() && AllSigned(sys, voters, s, d)
  }

  ghost predicate CommitsCertified(env: Env, sys: System, n: Node) {
    forall s, d :: SignedCommit(n, s, d) ==> Certified(env, sys, s, d)
  }

  lemma AllSignedGrows(sys: System, at: NodeId, sys': System, voters: set<NodeId>, s: nat, d: Hash)
    requires Stepped(sys, at, sys') && AllSigned(sys, voters, s, d)
    ensures AllSigned(sys', voters, s, d)
  {
    forall k | k in voters && k in sys' ensures SignedPrepare(sys'[k], s, d) {
      var v :| PrepareData(v, s, d) in sys[k].signed;
      assert PrepareData(v, s, d) in sys'[k].signed;
    }
  }

  lemma CertifiedGrows(env: Env, sys: System, at: NodeId, sys': System, s: nat, d: Hash)
    requires Stepped(sys, at, sys') && Certified(env, sys, s, d)
    ensures Certified(env, sys', s, d)
  {
    var voters :| voters <= Members(env) && |voters| >= env.config.Quorum() && AllSigned(sys, voters, s, d);
    AllSignedGrows(sys, at, sys', voters, s, d);
  }

  /** The prepares for the digest that certifying an instance counts make a certificate. */
  lemma MatchingCertifies(env: Env, sys: System, st: State, s: nat)
    requires CanPrepare(env, st, s) && InstanceVouched(sys, s, st.log[s])
    requires |MatchingMembersOf(env, st.log[s])| >= env.config.Quorum()
    ensures Certified(env, sys, s, st.log[s].digest.value)
  {
    var i := st.log[s];
    var voters := MatchingMembersOf(env, i);
    forall k | k in voters && k in sys ensures SignedPrepare(sys[k], s, i.digest.value) {
      assert PrepareData(i.prepares[k].view, s, i.digest.value) in sys[k].signed;
    }
    assert voters <= Members(env) && AllSigned(sys, voters, s, i.digest.value);
  }

  lemma CommitsCertifiedStep(env: Env, sys: System, at: NodeId, e: Event, sys': System, m: Move, k: NodeId)
    requires env.Valid() && GenuineStep(env, sys, at, e, sys', m) && k in sys
    requires VotesVouched(sys, sys[at]) && CommitsCertified(env, sys, sys[k])
    requires m.Certify? ==> |MatchingMembersOf(env, sys[at].st.log[m.sequence])| >= env.config.Quorum()
    ensures CommitsCertified(env, sys', sys'[k])
  {
    hide Certified, InstanceVouched, MatchingMembersOf, Origin, Moved, Speaks;
    forall s, d | SignedCommit(sys'[k], s, d) ensures Certified(env, sys', s, d) {
      if !SignedCommit(sys[k], s, d) {
        NewCommit(env, sys, at, e, sys', m, k, s, d);
        MatchingCertifies(env, sys, sys[at].st, s);
      }
      CertifiedGrows(env, sys, at, sys', s, d);
    }
  }

  const AGREEMENT_RULES := {Unforgeable, MatchingMembers, ConsistentAssignments}
  const COUNTING_RULES := {Unforgeable, MatchingMembers}

  /** Whatever digest a correct replica commits to, whoever is correct in some quorum of members has
      signed it. */
  lemma {:induction false} CommitsCertifiedInRuns(env: Env, correct: set<NodeId>, run: Run, k: NodeId)
    requires env.Valid() && k in correct && Obeys(env, correct, COUNTING_RULES, run)
    ensures var sys := After(env, correct, run); CommitsCertified(env, sys, sys[k])
  {
    hide Step, MoveOf, GenuineStep, VotesVouched, MatchingMembersOf, Certified;
    if run.Then? {
      var Then(before, at, e) := run;
      CommitsCertifiedInRuns(env, correct, before, k);
      if at in correct {
        FewerRules(env, correct, COUNTING_RULES, {Unforgeable}, before);
        FewerRules(env, correct, COUNTING_RULES, {Unforgeable}, run);
        VotesVouchedInRuns(env, correct, before, at);
        var m := GenuineStepInRun(env, correct, run);
        assert Allowed(env, After(env, correct, before), at, e, MatchingMembers);
        CommitsCertifiedStep(env, After(env, correct, before), at, e, After(env, correct, run), m, k);
      }
    }
  }

  // ---------- Agreement ----------

  /** The replica has prepared, committed or executed a request with this digest at this
      sequence number, now or earlier in the run. */
  ghost predicate Settled(env: Env, n: Node, s: nat, d: Hash) {
    || SignedCommit(n, s, d)
    || (s in n.st.log && n.st.log[s].phase in {Prepared, Committed} && n.st.log[s].digest == Some(d))
    || Decision(s, d) in n.decided
    || (exists x :: x in n.delivered && x.sequence == s && env.digest(x.request) == d)
  }

  lemma SettledSigned(env: Env, n: Node, s: nat, d: Hash)
    requires env.Valid() && Inv(env, n) && Settled(env, n, s, d)
    ensures SignedCommit(n, s, d)
  {
    if s in n.st.log && n.st.log[s].phase in {Prepared, Committed} && n.st.log[s].digest == Some(d) {
      assert CommitData(n.st.log[s].view, s, d) in n.signed;
    }
  }

  /** Agreement in a cluster of 3f+1 replicas of which at most f are faulty, whoever the
      primaries are and whatever views are announced: all correct replicas settle on one digest
      for a sequence number. */
  lemma {:induction false} AgreementInAllViews(env: Env, correct: set<NodeId>, run: Run, a: NodeId, b: NodeId, s: nat,
                                               d: Hash, d': Hash)
    requires env.Valid() && |Members(env)| == 3 * env.config.f + 1 && FaultsBounded(env, correct)
    requires Obeys(env, correct, AGREEMENT_RULES, run) && a in correct && b in correct
    requires var sys := After(env, correct, run); Settled(env, sys[a], s, d) && Settled(env, sys[b], s, d')
    ensures d == d'
  {
    var sys := After(env, correct, run);
    ReplicaInvariant(env, correct, run, a);
    ReplicaInvariant(env, correct, run, b);
    SettledSigned(env, sys[a], s, d);
    SettledSigned(env, sys[b], s, d');
    FewerRules(env, correct, AGREEMENT_RULES, COUNTING_RULES, run);
    CommitsCertifiedInRuns(env, correct, run, a);
    CommitsCertifiedInRuns(env, correct, run, b);
    var p :| p <= Members(env) && |p| >= env.config.Quorum() && AllSigned(sys, p, s, d);
    var q :| q <= Members(env) && |q| >= env.config.Quorum() && AllSigned(sys, q, s, d');
    var k := Quorums.CommonCorrectMember(Members(env), correct, env.config.f, p, q);
    FewerRules(env, correct, AGREEMENT_RULES, {ConsistentAssignments}, run);
    OneDigestEverInRuns(env, correct, run, k);
  }

  const MEMBER_RULES := {Unforgeable, MemberVoters, MatchingQuorums, FreshAssignments}

  lemma {:induction false} MembersKeepRules(env: Env, correct: set<NodeId>, run: Run)
    requires env.Valid() && correct <= Members(env) && Obeys(env, correct, MEMBER_RULES, run)
    ensures Obeys(env, correct, AGREEMENT_RULES, run)
  {
    FewerRules(env, correct, MEMBER_RULES, {MemberVoters}, run);
    FewerRules(env, correct, MEMBER_RULES, {MatchingQuorums}, run);
    MembersCount(env, correct, run);
    FewerRules(env, correct, MEMBER_RULES, {FreshAssignments}, run);
    FreshAreConsistent(env, correct, run);
    FewerRules(env, correct, MEMBER_RULES, {Unforgeable}, run);
    MoreRules(env, correct, {Unforgeable}, {MatchingMembers}, run);
    MoreRules(env, correct, {Unforgeable} + {MatchingMembers}, {ConsistentAssignments}, run);
    assert {Unforgeable} + {MatchingMembers} + {ConsistentAssignments} == AGREEMENT_RULES;
  }

  /** In particular if votes are taken from members only, a quorum of the prepares that are counted
      match, and assignments are fresh. */
  lemma {:induction false} AgreementAmongMembers(env: Env, correct: set<NodeId>, run: Run, a: NodeId, b: NodeId,
                                                 s: nat, d: Hash, d': Hash)
    requires env.Valid() && |Members(env)| == 3 * env.config.f + 1 && FaultsBounded(env, correct)
    requires Obeys(env, correct, MEMBER_RULES, run) && a in correct && b in correct
    requires var sys := After(env, correct, run); Settled(env, sys[a], s, d) && Settled(env, sys[b], s, d')
    ensures d == d'
  {
    MembersKeepRules(env, correct, run);
    AgreementInAllViews(env, correct, run, a, b, s, d, d');
  }

  /** The same if early prepares match: then all prepares that are counted match. */
  lemma {:induction false} AgreementWithoutMisfits(env: Env, correct: set<NodeId>, run: Run, a: NodeId, b: NodeId,
                                                   s: nat, d: Hash, d': Hash)
    requires env.Valid() && |Members(env)| == 3 * env.config.f + 1 && FaultsBounded(env, correct)
    requires Obeys(env, correct, {Unforgeable, MemberVoters, EarlyVotesMatch, FreshAssignments}, run)
    requires a in correct && b in correct
    requires var sys := After(env, correct, run); Settled(env, sys[a], s, d) && Settled(env, sys[b], s, d')
    ensures d == d'
  {
    var rules := {Unforgeable, MemberVoters, EarlyVotesMatch, FreshAssignments};
    FewerRules(env, correct, rules, {EarlyVotesMatch}, run);
    EarlyVotesCount(env, correct, run);
    FewerRules(env, correct, rules, {Unforgeable, MemberVoters, FreshAssignments}, run);
    MoreRules(env, correct, {Unforgeable, MemberVoters, FreshAssignments}, {MatchingQuorums}, run);
    assert {Unforgeable, MemberVoters, FreshAssignments} + {MatchingQuorums} == MEMBER_RULES;
    AgreementAmongMembers(env, correct, run, a, b, s, d, d');
  }

  const LATE_VOTERS := {Unforgeable, MemberVoters, VotesAfterPrePrepare}

  lemma {:induction false} LateVotersKeepRules(env: Env, correct: set<NodeId>, run: Run)
    requires env.Valid() && Obeys(env, correct, LATE_VOTERS, run) && Obeys(env, correct, {FreshAssignments}, run)
    ensures Obeys(env, correct, MEMBER_RULES, run)
  {
    FewerRules(env, correct, LATE_VOTERS, {VotesAfterPrePrepare}, run);
    MoreRules(env, correct, {VotesAfterPrePrepare}, {FreshAssignments}, run);
    assert {VotesAfterPrePrepare} + {FreshAssignments} == LATE_VOTES;
    LateVotesMatch(env, correct, run);
    EarlyVotesCount(env, correct, run);
    FewerRules(env, correct, LATE_VOTERS, {Unforgeable, MemberVoters}, run);
    MoreRules(env, correct, {Unforgeable, MemberVoters}, {MatchingQuorums}, run);
    MoreRules(env, correct, {Unforgeable, MemberVoters} + {MatchingQuorums}, {FreshAssignments}, run);
    assert {Unforgeable, MemberVoters} + {MatchingQuorums} + {FreshAssignments} == MEMBER_RULES;
  }

  /** Agreement in one view, with a possibly faulty primary, if replicas take prepares only for
      numbers they hold the pre-prepare of. */
  lemma {:induction false} AgreementInOneView(env: Env, correct: set<NodeId>, run: Run, a: NodeId, b: NodeId,
                                              s: nat, d: Hash, d': Hash)
    requires env.Valid() && |Members(env)| == 3 * env.config.f + 1 && FaultsBounded(env, correct)
    requires Obeys(env, correct, LATE_VOTERS + {NoNewView}, run) && a in correct && b in correct
    requires var sys := After(env, correct, run); Settled(env, sys[a], s, d) && Settled(env, sys[b], s, d')
    ensures d == d'
  {
    FewerRules(env, correct, LATE_VOTERS + {NoNewView}, {Unforgeable, NoNewView}, run);
    FewerRules(env, correct, LATE_VOTERS + {NoNewView}, LATE_VOTERS, run);
    NoNewViewsAssignFresh(env, correct, run);
    LateVotersKeepRules(env, correct, run);
    AgreementAmongMembers(env, correct, run, a, b, s, d, d');
  }

  /** Two tests that a replica could make by itself give agreement in all views: to take prepares
      only for numbers it holds the pre-prepare of, and, as a primary, to assign only numbers in
      its window that it holds no pre-prepare for. */
  lemma {:induction false} AgreementWithGuards(env: Env, correct: set<NodeId>, run: Run, a: NodeId, b: NodeId,
                                               s: nat, d: Hash, d': Hash)
    requires env.Valid() && |Members(env)| == 3 * env.config.f + 1 && FaultsBounded(env, correct)
    requires Obeys(env, correct, LATE_VOTERS + {GuardedAssignments}, run) && a in correct && b in correct
    requires var sys := After(env, correct, run); Settled(env, sys[a], s, d) && Settled(env, sys[b], s, d')
    ensures d == d'
  {
    FewerRules(env, correct, LATE_VOTERS + {GuardedAssignments}, {GuardedAssignments}, run);
    FewerRules(env, correct, LATE_VOTERS + {GuardedAssignments}, LATE_VOTERS, run);
    GuardedAssignmentsAreFresh(env, correct, run);
    LateVotersKeepRules(env, correct, run);
    AgreementAmongMembers(env, correct, run, a, b, s, d, d');
  }
}
