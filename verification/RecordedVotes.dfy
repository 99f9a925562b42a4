/** The votes in a replica's log are genuine: correct replicas have signed theirs; and if no others
    are taken, they come from members. */
module RecordedVotes {
  import opened Messages
  import opened Protocol
  import opened Moves
  import opened Records
  import opened Runs

  // ---------- Signed votes ----------

  ghost predicate InstanceVouched(sys: System, s: nat, i: Instance) {
    && (forall k :: k in i.prepares ==> Vouched(sys, k, PrepareData(i.prepares[k].view, s, i.prepares[k].digest)))
    && (forall k :: k in i.commits ==> Vouched(sys, k, CommitData(i.commits[k].view, s, i.commits[k].digest)))
  }

  ghost predicate VotesVouched(sys: System, n: Node) {
    forall s :: s in n.st.log ==> InstanceVouched(sys, s, n.st.log[s])
  }

  /** The step of `at` in a run in which signatures cannot be forged. */
  ghost predicate GenuineStep(env: Env, sys: System, at: NodeId, e: Event, sys': System, m: Move)
    requires env.Valid()
  {
    && Stepped(sys, at, sys')
    && sys[at].st.nodeId == at
    && Follows(env, sys[at], e, m, sys'[at])
    && Speaks(env, sys[at], e, m, sys'[at])
    && Genuine(env, sys, e)
  }

  /** What a move adds to the votes is vouched for. */
  ghost predicate AdditionsVouched(env: Env, sys: System, st: State, m: Move)
    requires Guard(env, st, m)
  {
    && (forall data :: data in SignedBy(env, st, m) ==> Vouched(sys, st.nodeId, data))
    && (m.AddPrepare? ==>
          var p := m.prepare;
          Vouched(sys, p.replicaId, PrepareData(p.view, p.sequence, p.digest)))
    && (m.AddCommit? ==>
          var c := m.commit;
          Vouched(sys, c.replicaId, CommitData(c.view, c.sequence, c.digest)))
  }

  lemma MovedInstanceVouched(env: Env, sys: System, st: State, m: Move, s: nat)
    requires Guard(env, st, m) && AdditionsVouched(env, sys, st, m)
    requires s in st.log ==> InstanceVouched(sys, s, st.log[s])
    requires s in Moved(env, st, m)
    ensures InstanceVouched(sys, s, Moved(env, st, m)[s])
  {
    assert InstanceVouched(sys, s, st.InstanceAt(s));
  }

  lemma VotesVouchedStep(env: Env, sys: System, at: NodeId, e: Event, sys': System, m: Move, k: NodeId)
    requires env.Valid() && GenuineStep(env, sys, at, e, sys', m)
    requires k in sys && VotesVouched(sys, sys[k])
    ensures VotesVouched(sys', sys'[k])
  {
    forall s | s in sys[k].st.log ensures InstanceVouched(sys', s, sys[k].st.log[s]) {
      assert InstanceVouched(sys, s, sys[k].st.log[s]);
    }
    if k == at {
      forall s | s in sys'[k].st.log ensures InstanceVouched(sys', s, sys'[k].st.log[s]) {
        MovedInstanceVouched(env, sys', sys[k].st, m, s);
      }
    }
  }

  /** A commit is signed when its instance is certified. */
  lemma NewCommit(env: Env, sys: System, at: NodeId, e: Event, sys': System, m: Move, k: NodeId, s: nat, d: Hash)
    requires env.Valid() && GenuineStep(env, sys, at, e, sys', m) && k in sys
    requires SignedCommit(sys'[k], s, d) && !SignedCommit(sys[k], s, d)
    ensures k == at && m == Certify(s) && sys[at].st.log[s].digest.value == d
  {
    var v :| CommitData(v, s, d) in sys'[k].signed;
    assert CommitData(v, s, d) in SignedBy(env, sys[at].st, m);
  }

  lemma {:induction false} GenuineStepInRun(env: Env, correct: set<NodeId>, run: Run) returns (m: Move)
    requires env.Valid() && run.Then? && run.at in correct && Obeys(env, correct, {Unforgeable}, run)
    ensures GenuineStep(env, After(env, correct, run.before), run.at, run.event, After(env, correct, run), m)
    ensures m == MoveOf(env, After(env, correct, run.before)[run.at], run.event)
  {
    hide Step, MoveOf, Follows, Speaks, Inv;
    m := StepInRun(env, correct, run);
    assert Allowed(env, After(env, correct, run.before), run.at, run.event, Unforgeable);
  }

  /** Every prepare and commit of a correct replica that is recorded anywhere was signed by it. */
  lemma {:induction false} VotesVouchedInRuns(env: Env, correct: set<NodeId>, run: Run, k: NodeId)
    requires env.Valid() && k in correct && Obeys(env, correct, {Unforgeable}, run)
    ensures var sys := After(env, correct, run); VotesVouched(sys, sys[k])
  {
    if run.Then? {
      var Then(before, at, e) := run;
      VotesVouchedInRuns(env, correct, before, k);
      if at in correct {
        var m := GenuineStepInRun(env, correct, run);
        VotesVouchedStep(env, After(env, correct, before), at, e, After(env, correct, run), m, k);
      }
    }
  }

  // ---------- Members' votes ----------

  ghost predicate InstanceOfMembers(env: Env, i: Instance) {
    i.prepares.Keys <= Members(env) && i.commits.Keys <= Members(env)
  }

  ghost predicate VotesOfMembers(env: Env, st: State) {
    forall s :: s in st.log ==> InstanceOfMembers(env, st.log[s])
  }

  lemma MovedInstanceOfMembers(env: Env, st: State, m: Move, s: nat)
    requires Guard(env, st, m) && InstanceOfMembers(env, st.InstanceAt(s)) && st.nodeId in env.replicas
    requires m.AddPrepare? ==> m.prepare.replicaId in env.replicas
    requires m.AddCommit? ==> m.commit.replicaId in env.replicas
    requires s in Moved(env, st, m)
    ensures InstanceOfMembers(env, Moved(env, st, m)[s])
  {
  }

  lemma VotesOfMembersStep(env: Env, n: Node, e: Event, m: Move, n': Node)
    requires env.Valid() && Follows(env, n, e, m, n') && VotesOfMembers(env, n.st) && n.st.nodeId in env.replicas
    requires e.RecvPrepare? ==> e.prepare.replicaId in env.replicas
    requires e.RecvCommit? ==> e.commit.replicaId in env.replicas
    ensures VotesOfMembers(env, n'.st)
  {
    hide Guard, Moved;
    forall s | s in n'.st.log ensures InstanceOfMembers(env, n'.st.log[s]) {
      assert InstanceOfMembers(env, n.st.InstanceAt(s));
      MovedInstanceOfMembers(env, n.st, m, s);
    }
  }

  /** If votes are taken from members only, then all recorded ones are from members. */
  lemma {:induction false} VotesOfMembersInRuns(env: Env, correct: set<NodeId>, run: Run, k: NodeId)
    requires env.Valid() && correct <= Members(env) && k in correct && Obeys(env, correct, {MemberVoters}, run)
    ensures VotesOfMembers(env, After(env, correct, run)[k].st)
  {
    hide Step, MoveOf, Follows, Speaks, Inv;
    if run.Then? {
      var Then(before, at, e) := run;
      VotesOfMembersInRuns(env, correct, before, k);
      if at == k {
        var m := StepInRun(env, correct, run);
        assert Allowed(env, After(env, correct, before), at, e, MemberVoters);
        VotesOfMembersStep(env, After(env, correct, before)[k], e, m, After(env, correct, run)[k]);
      }
    }
  }

  lemma CountedAreMembers(env: Env, st: State, s: nat)
    requires VotesOfMembers(env, st) && s in st.log
    ensures |st.log[s].prepares.Keys * Members(env)| == |st.log[s].prepares|
    ensures |st.log[s].commits.Keys * Members(env)| == |st.log[s].commits|
    ensures MatchingMembersOf(env, st.log[s]) == MatchingVoters(st.log[s])
  {
    var i := st.log[s];
    assert InstanceOfMembers(env, i);
    assert i.prepares.Keys * Members(env) == i.prepares.Keys && |i.prepares.Keys| == |i.prepares|;
    assert i.commits.Keys * Members(env) == i.commits.Keys && |i.commits.Keys| == |i.commits|;
  }

  lemma MembersCountStep(env: Env, sys: System, at: NodeId, e: Event, m: Move)
    requires env.Valid() && at in sys && VotesOfMembers(env, sys[at].st)
    requires m == MoveOf(env, sys[at], e) && Guard(env, sys[at].st, m)
    ensures Allowed(env, sys, at, e, MemberQuorums)
    ensures Allowed(env, sys, at, e, MatchingQuorums) ==> Allowed(env, sys, at, e, MatchingMembers)
  {
    hide MoveOf, VotesOfMembers, MatchingVoters, MatchingMembersOf;
    if m.Certify? || m.Finish? {
      CountedAreMembers(env, sys[at].st, m.sequence);
    }
  }

  lemma {:induction false} MembersCountAt(env: Env, correct: set<NodeId>, run: Run)
    requires env.Valid() && correct <= Members(env) && run.Then? && Obeys(env, correct, {MemberVoters}, run)
    ensures var sys := After(env, correct, run.before);
            && Allowed(env, sys, run.at, run.event, MemberQuorums)
            && (Allowed(env, sys, run.at, run.event, MatchingQuorums) ==>
                  Allowed(env, sys, run.at, run.event, MatchingMembers))
  {
    if run.at in correct {
      hide Step, MoveOf, Speaks, Inv, VotesOfMembers, Allowed, Moved, Origin;
      var m := StepInRun(env, correct, run);
      VotesOfMembersInRuns(env, correct, run.before, run.at);
      MembersCountStep(env, After(env, correct, run.before), run.at, run.event, m);
    }
  }

  /** Then a quorum that is counted is one of members. */
  lemma {:induction false} MembersCount(env: Env, correct: set<NodeId>, run: Run)
    requires env.Valid() && correct <= Members(env) && Obeys(env, correct, {MemberVoters}, run)
    ensures Obeys(env, correct, {MemberQuorums}, run)
    ensures Obeys(env, correct, {MatchingQuorums}, run) ==> Obeys(env, correct, {MatchingMembers}, run)
  {
    hide Allowed, After;
    if run.Then? {
      MembersCount(env, correct, run.before);
      MembersCountAt(env, correct, run);
    }
  }
}
