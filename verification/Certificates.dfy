/** What stands behind a commit when the primary is correct: f+1 correct replicas that prepared
    the request, each of them on the prepares of f+1 correct replicas. */
module Certificates {
  import opened Messages
  import opened Protocol
  import opened Moves
  import opened Invariant
  import opened Records
  import opened Runs
  import opened HonestPrimary
  import opened RecordedVotes
  import Quorums

  const CERTIFICATE_RULES := {Unforgeable, MemberQuorums, NoNewView}

  // ---------- What stands behind a commit ----------

  /** Among these prepares are those of at least f+1 correct replicas for the digest; each of them
      has signed its own. */
  ghost predicate BackedBy(env: Env, sys: System, prepares: map<NodeId, Prepare>, backers: set<NodeId>, s: nat,
                           d: Hash)
  {
    && backers <= sys.Keys
    && |backers| >= env.config.f + 1
    && forall k :: k in backers ==>
         && k in prepares
         && prepares[k].digest == d
         && PrepareData(prepares[k].view, s, d) in sys[k].signed
  }

  /** The replica has moved the number to Prepared with this digest on a quorum of prepares, among
      them those of the backers. */
  ghost predicate CountedFor(env: Env, sys: System, n: Node, c: Certificate, backers: set<NodeId>, s: nat, d: Hash) {
    && c in n.certificates
    && c.sequence == s && c.digest == d
    && |c.prepares| >= env.config.Quorum()
    && BackedBy(env, sys, c.prepares, backers, s, d)
  }

  /** The replica has prepared the digest on the backers' prepares for it; and as long as it keeps
      the instance, it still holds prepares of theirs for it. */
  ghost predicate PreparedOn(env: Env, sys: System, n: Node, backers: set<NodeId>, s: nat, d: Hash) {
    && (exists c :: CountedFor(env, sys, n, c, backers, s, d))
    && (s > n.st.lowWatermark ==> s in n.st.log && BackedBy(env, sys, n.st.log[s].prepares, backers, s, d))
  }

  ghost predicate CommitsBackedByCorrect(env: Env, sys: System, n: Node) {
    forall s, d :: SignedCommit(n, s, d) ==> exists backers :: PreparedOn(env, sys, n, backers, s, d)
  }

  /** At least f+1 correct replicas have reached the prepared phase with the digest. */
  ghost predicate CommittedOn(env: Env, sys: System, committers: set<NodeId>, s: nat, d: Hash) {
    && committers <= sys.Keys
    && |committers| >= env.config.f + 1
    && forall k :: k in committers ==> SignedCommit(sys[k], s, d)
  }

  ghost predicate DecisionsBackedByCorrect(env: Env, sys: System, n: Node) {
    forall x :: x in n.decided ==> exists committers :: CommittedOn(env, sys, committers, x.sequence, x.digest)
  }

  /** All correct replicas sign the one digest that the primary has signed for the number. */
  ghost predicate OneAssignment(env: Env, sys: System)
    requires env.Valid()
  {
    forall a, b, s, d, d' ::
      a in sys && b in sys && SignedPrepare(sys[a], s, d) && SignedPrepare(sys[b], s, d') ==> d == d'
  }

  lemma BackedByGrows(env: Env, sys: System, at: NodeId, sys': System, prepares: map<NodeId, Prepare>,
                      backers: set<NodeId>, s: nat, d: Hash)
    requires Stepped(sys, at, sys') && BackedBy(env, sys, prepares, backers, s, d)
    ensures BackedBy(env, sys', prepares, backers, s, d)
  {
  }

  lemma CountedForGrows(env: Env, sys: System, at: NodeId, sys': System, n: Node, n': Node, c: Certificate,
                        backers: set<NodeId>, s: nat, d: Hash)
    requires Stepped(sys, at, sys') && n.certificates <= n'.certificates && CountedFor(env, sys, n, c, backers, s, d)
    ensures CountedFor(env, sys', n', c, backers, s, d)
  {
    BackedByGrows(env, sys, at, sys', c.prepares, backers, s, d);
  }

  /** A move keeps the backers' prepares; if the replica's own is replaced, then by one for the
      same digest. */
  lemma MovedBackedBy(env: Env, sys: System, st: State, m: Move, backers: set<NodeId>, s: nat, d: Hash)
    requires env.Valid() && Guard(env, st, m) && s in st.log && s in Moved(env, st, m) && OneAssignment(env, sys)
    requires st.nodeId in sys && SignedBy(env, st, m) <= sys[st.nodeId].signed
    requires BackedBy(env, sys, st.log[s].prepares, backers, s, d)
    ensures BackedBy(env, sys, Moved(env, st, m)[s].prepares, backers, s, d)
  {
    if m.Open? && m.prePrepare.sequence == s && st.nodeId in backers {
      var pp, k := m.prePrepare, st.nodeId;
      assert PrepareData(pp.view, s, pp.digest) in sys[k].signed;
      assert SignedPrepare(sys[k], s, pp.digest) && SignedPrepare(sys[k], s, d);
    }
  }

  lemma PreparedOnKept(env: Env, sys: System, at: NodeId, e: Event, sys': System, m: Move, k: NodeId,
                       backers: set<NodeId>, s: nat, d: Hash)
    requires env.Valid() && GenuineStep(env, sys, at, e, sys', m) && k in sys && OneAssignment(env, sys')
    requires WindowOk(env, sys[k].st) && PreparedOn(env, sys, sys[k], backers, s, d)
    ensures PreparedOn(env, sys', sys'[k], backers, s, d)
  {
    hide Origin, SignedPrepare, OneAssignment;
    var c :| CountedFor(env, sys, sys[k], c, backers, s, d);
    CountedForGrows(env, sys, at, sys', sys[k], sys'[k], c, backers, s, d);
    if s > sys'[k].st.lowWatermark {
      BackedByGrows(env, sys, at, sys', sys[k].st.log[s].prepares, backers, s, d);
      if k == at {
        MovedBackedBy(env, sys', sys[k].st, m, backers, s, d);
      }
    }
  }

  lemma CommittedOnKept(env: Env, sys: System, at: NodeId, e: Event, sys': System, committers: set<NodeId>, s: nat,
                        d: Hash)
    requires Stepped(sys, at, sys') && CommittedOn(env, sys, committers, s, d)
    ensures CommittedOn(env, sys', committers, s, d)
  {
    forall k | k in committers ensures SignedCommit(sys'[k], s, d) {
      var v :| CommitData(v, s, d) in sys[k].signed;
      assert CommitData(v, s, d) in sys'[k].signed;
    }
  }

  /** Reaching the prepared phase takes the prepares of f+1 correct replicas. */
  lemma QuorumOfPrepares(env: Env, correct: set<NodeId>, sys: System, n: Node, s: nat)
    requires env.Valid() && FaultsBounded(env, correct) && sys.Keys == correct && OneAssignment(env, sys)
    requires n.st.nodeId in sys && n == sys[n.st.nodeId]
    requires LogSigned(env, n) && VotesVouched(sys, n) && CanPrepare(env, n.st, s)
    requires |n.st.log[s].prepares.Keys * Members(env)| >= env.config.Quorum()
    ensures var i := n.st.log[s];
            exists backers :: BackedBy(env, sys, i.prepares, backers, s, i.digest.value)
  {
    var i := n.st.log[s];
    var members := i.prepares.Keys * Members(env);
    var backers := members * correct;
    assert InstanceVouched(sys, s, i);
    Quorums.CorrectPart(Members(env), correct, env.config.f, members);
    assert SignedPrepare(n, s, i.digest.value);
    forall k | k in backers ensures i.prepares[k].digest == i.digest.value {
      assert SignedPrepare(sys[k], s, i.prepares[k].digest);
    }
    assert BackedBy(env, sys, i.prepares, backers, s, i.digest.value);
  }

  /** Reaching the committed phase takes the commits of f+1 correct replicas. */
  lemma QuorumOfCommits(env: Env, correct: set<NodeId>, sys: System, n: Node, s: nat)
    requires env.Valid() && FaultsBounded(env, correct) && sys.Keys == correct && OneAssignment(env, sys)
    requires forall k :: k in sys ==> CommitsBacked(sys[k])
    requires n.st.nodeId in sys && n == sys[n.st.nodeId]
    requires LogSigned(env, n) && VotesVouched(sys, n) && CanCommit(env, n.st, s)
    requires |n.st.log[s].commits.Keys * Members(env)| >= env.config.Quorum()
    ensures exists committers :: CommittedOn(env, sys, committers, s, n.st.log[s].digest.value)
  {
    var i := n.st.log[s];
    var members := i.commits.Keys * Members(env);
    var committers := members * correct;
    assert InstanceVouched(sys, s, i);
    Quorums.CorrectPart(Members(env), correct, env.config.f, members);
    assert SignedPrepare(n, s, i.digest.value);
    forall k | k in committers ensures SignedCommit(sys[k], s, i.digest.value) {
      var c := i.commits[k];
      assert CommitData(c.view, s, c.digest) in sys[k].signed;
      assert SignedPrepare(sys[k], s, c.digest);
    }
    assert CommittedOn(env, sys, committers, s, i.digest.value);
  }

  lemma {:induction false} OneAssignmentInRuns(env: Env, correct: set<NodeId>, run: Run)
    requires env.Valid() && env.Primary(0) in correct && Obeys(env, correct, STABLE_VIEW, run)
    ensures OneAssignment(env, After(env, correct, run))
  {
    var sys := After(env, correct, run);
    forall a, b, s, d, d' | a in sys && b in sys && SignedPrepare(sys[a], s, d) && SignedPrepare(sys[b], s, d')
      ensures d == d'
    {
      AgreementWithCorrectPrimary(env, correct, run, a, b, s, d, d');
    }
  }

  ghost predicate CertificateCluster(env: Env, correct: set<NodeId>, run: Run)
    requires env.Valid()
  {
    && env.Primary(0) in correct
    && FaultsBounded(env, correct)
    && Obeys(env, correct, CERTIFICATE_RULES, run)
  }

  lemma {:induction false} CertificateFacts(env: Env, correct: set<NodeId>, run: Run)
    requires env.Valid() && CertificateCluster(env, correct, run)
    ensures OneAssignment(env, After(env, correct, run))
    ensures Obeys(env, correct, {Unforgeable}, run) && Obeys(env, correct, {MemberQuorums}, run)
    ensures forall k :: k in correct ==>
              var sys := After(env, correct, run);
              && sys[k].st.nodeId == k
              && LogSigned(env, sys[k]) && WindowOk(env, sys[k].st) && CommitsBacked(sys[k])
              && VotesVouched(sys, sys[k])
  {
    FewerRules(env, correct, CERTIFICATE_RULES, STABLE_VIEW, run);
    FewerRules(env, correct, CERTIFICATE_RULES, {Unforgeable}, run);
    FewerRules(env, correct, CERTIFICATE_RULES, {MemberQuorums}, run);
    OneAssignmentInRuns(env, correct, run);
    forall k | k in correct
      ensures var sys := After(env, correct, run);
              && sys[k].st.nodeId == k
              && LogSigned(env, sys[k]) && WindowOk(env, sys[k].st) && CommitsBacked(sys[k])
              && VotesVouched(sys, sys[k])
    {
      ReplicaInvariant(env, correct, run, k);
      VotesVouchedInRuns(env, correct, run, k);
    }
  }

  /** What is counted, is counted of a quorum of members. */
  ghost predicate MembersCounted(env: Env, st: State, m: Move)
    requires Guard(env, st, m)
  {
    && (m.Certify? ==> |st.log[m.sequence].prepares.Keys * Members(env)| >= env.config.Quorum())
    && (m.Finish? ==> |st.log[m.sequence].commits.Keys * Members(env)| >= env.config.Quorum())
  }

  /** Preparing counts the prepares that are recorded. */
  lemma CertifyCounts(env: Env, correct: set<NodeId>, sys: System, at: NodeId, e: Event, sys': System, m: Move)
    requires env.Valid() && FaultsBounded(env, correct) && sys.Keys == correct && OneAssignment(env, sys)
    requires GenuineStep(env, sys, at, e, sys', m) && m.Certify? && MembersCounted(env, sys[at].st, m)
    requires LogSigned(env, sys[at]) && VotesVouched(sys, sys[at])
    ensures var s, d := m.sequence, sys[at].st.log[m.sequence].digest.value;
            exists backers :: PreparedOn(env, sys', sys'[at], backers, s, d)
  {
    var n, s := sys[at], m.sequence;
    var i := n.st.log[s];
    QuorumOfPrepares(env, correct, sys, n, s);
    var backers :| BackedBy(env, sys, i.prepares, backers, s, i.digest.value);
    BackedByGrows(env, sys, at, sys', i.prepares, backers, s, i.digest.value);
    var c := Certificate(s, i.digest.value, i.prepares);
    assert c in sys'[at].certificates;
    assert CountedFor(env, sys', sys'[at], c, backers, s, i.digest.value);
    assert sys'[at].st.log[s].prepares == i.prepares;
    assert PreparedOn(env, sys', sys'[at], backers, s, i.digest.value);
  }

  lemma CommitsBackedStep(env: Env, correct: set<NodeId>, sys: System, at: NodeId, e: Event, sys': System, m: Move,
                          k: NodeId)
    requires env.Valid() && FaultsBounded(env, correct) && sys.Keys == correct
    requires OneAssignment(env, sys) && OneAssignment(env, sys')
    requires GenuineStep(env, sys, at, e, sys', m) && k in sys && MembersCounted(env, sys[at].st, m)
    requires LogSigned(env, sys[k]) && WindowOk(env, sys[k].st) && VotesVouched(sys, sys[k])
    requires CommitsBackedByCorrect(env, sys, sys[k])
    ensures CommitsBackedByCorrect(env, sys', sys'[k])
  {
    hide PreparedOn, OneAssignment, WindowOk, LogSigned, VotesVouched, Follows, FaultsBounded;
    forall s, d | SignedCommit(sys'[k], s, d) ensures exists backers :: PreparedOn(env, sys', sys'[k], backers, s, d) {
      if SignedCommit(sys[k], s, d) {
        var backers :| PreparedOn(env, sys, sys[k], backers, s, d);
        PreparedOnKept(env, sys, at, e, sys', m, k, backers, s, d);
      } else {
        NewCommit(env, sys, at, e, sys', m, k, s, d);
        CertifyCounts(env, correct, sys, at, e, sys', m);
      }
    }
  }

  lemma NewDecision(env: Env, sys: System, at: NodeId, e: Event, sys': System, m: Move, k: NodeId, x: Decision)
    requires env.Valid() && GenuineStep(env, sys, at, e, sys', m) && k in sys
    requires x in sys'[k].decided && x !in sys[k].decided
    ensures k == at && m == Finish(x.sequence) && sys[at].st.log[x.sequence].digest.value == x.digest
  {
  }

  lemma DecisionsBackedStep(env: Env, correct: set<NodeId>, sys: System, at: NodeId, e: Event, sys': System, m: Move,
                            k: NodeId)
    requires env.Valid() && FaultsBounded(env, correct) && sys.Keys == correct && OneAssignment(env, sys)
    requires forall b :: b in sys ==> CommitsBacked(sys[b])
    requires GenuineStep(env, sys, at, e, sys', m) && k in sys && MembersCounted(env, sys[at].st, m)
    requires LogSigned(env, sys[k]) && VotesVouched(sys, sys[k]) && DecisionsBackedByCorrect(env, sys, sys[k])
    ensures DecisionsBackedByCorrect(env, sys', sys'[k])
  {
    hide CommittedOn, OneAssignment, LogSigned, VotesVouched, Origin, Moved, Speaks, FaultsBounded, CommitsBacked;
    forall x | x in sys'[k].decided
      ensures exists committers :: CommittedOn(env, sys', committers, x.sequence, x.digest)
    {
      if x !in sys[k].decided {
        NewDecision(env, sys, at, e, sys', m, k, x);
        QuorumOfCommits(env, correct, sys, sys[k], x.sequence);
      }
      var committers :| CommittedOn(env, sys, committers, x.sequence, x.digest);
      CommittedOnKept(env, sys, at, e, sys', committers, x.sequence, x.digest);
    }
  }

  lemma {:induction false} MembersCountedInRun(env: Env, correct: set<NodeId>, run: Run, m: Move)
    requires env.Valid() && run.Then? && run.at in correct && Obeys(env, correct, {MemberQuorums}, run)
    requires var n := After(env, correct, run.before)[run.at]; m == MoveOf(env, n, run.event) && Guard(env, n.st, m)
    ensures MembersCounted(env, After(env, correct, run.before)[run.at].st, m)
  {
    hide Step, MoveOf, Guard;
    assert Allowed(env, After(env, correct, run.before), run.at, run.event, MemberQuorums);
  }

  lemma StepGuard(env: Env, sys: System, at: NodeId, e: Event, sys': System, m: Move)
    requires env.Valid() && GenuineStep(env, sys, at, e, sys', m)
    ensures Guard(env, sys[at].st, m)
  {
  }

  lemma {:induction false} BackedInRuns(env: Env, correct: set<NodeId>, run: Run, k: NodeId)
    requires env.Valid() && k in correct && CertificateCluster(env, correct, run)
    ensures var sys := After(env, correct, run);
            CommitsBackedByCorrect(env, sys, sys[k]) && DecisionsBackedByCorrect(env, sys, sys[k])
  {
    hide LogSigned, WindowOk, CommitsBacked, VotesVouched, OneAssignment, GenuineStep;
    if run.Then? {
      var Then(before, at, e) := run;
      var sys, sys' := After(env, correct, before), After(env, correct, run);
      BackedInRuns(env, correct, before, k);
      CertificateFacts(env, correct, run);
      CertificateFacts(env, correct, before);
      if at in correct {
        var m := GenuineStepInRun(env, correct, run);
        StepGuard(env, sys, at, e, sys', m);
        MembersCountedInRun(env, correct, run, m);
        CommitsBackedStep(env, correct, sys, at, e, sys', m, k);
        DecisionsBackedStep(env, correct, sys, at, e, sys', m, k);
      }
    }
  }

  /** The commit certificate. If a correct replica has moved (s, d) to Committed then at least
      f+1 correct replicas have reached Prepared at (s, d), and each of those did so on a quorum
      of prepares with prepares for d of at least f+1 correct replicas among them, which signed
      them; and it holds prepares of theirs for d for as long as it keeps the instance. Early votes
      for other digests may be recorded and counted all the same. */
  lemma {:induction false} CommitCertificate(env: Env, correct: set<NodeId>, run: Run, k: NodeId, s: nat, d: Hash)
    requires env.Valid() && k in correct && CertificateCluster(env, correct, run)
    requires Decision(s, d) in After(env, correct, run)[k].decided
    ensures var sys := After(env, correct, run);
            exists committers :: CommittedOn(env, sys, committers, s, d)
              && forall c :: c in committers ==> exists backers :: PreparedOn(env, sys, sys[c], backers, s, d)
  {
    var sys := After(env, correct, run);
    BackedInRuns(env, correct, run, k);
    var committers :| CommittedOn(env, sys, committers, s, d);
    forall c | c in committers ensures exists backers :: PreparedOn(env, sys, sys[c], backers, s, d) {
      BackedInRuns(env, correct, run, c);
    }
  }

  /** In particular if votes are taken from members only. */
  lemma {:induction false} CommitCertificateOfMembers(env: Env, correct: set<NodeId>, run: Run, k: NodeId, s: nat,
                                                      d: Hash)
    requires env.Valid() && k in correct && env.Primary(0) in correct && FaultsBounded(env, correct)
    requires Obeys(env, correct, {Unforgeable, MemberVoters, NoNewView}, run)
    requires Decision(s, d) in After(env, correct, run)[k].decided
    ensures var sys := After(env, correct, run);
            exists committers :: CommittedOn(env, sys, committers, s, d)
              && forall c :: c in committers ==> exists backers :: PreparedOn(env, sys, sys[c], backers, s, d)
  {
    var rules := {Unforgeable, MemberVoters, NoNewView};
    FewerRules(env, correct, rules, {MemberVoters}, run);
    MembersCount(env, correct, run);
    FewerRules(env, correct, rules, STABLE_VIEW, run);
    MoreRules(env, correct, STABLE_VIEW, {MemberQuorums}, run);
    assert STABLE_VIEW + {MemberQuorums} == CERTIFICATE_RULES;
    CommitCertificate(env, correct, run, k, s, d);
  }
}
