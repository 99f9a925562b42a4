/** Tools for writing down a run at sequence number 1, event by event. */
module Replays {
  import opened Messages
  import opened Protocol
  import opened Moves
  import opened Invariant
  import opened Runs

  // ---------- Replaying a move ----------

  /** What has been executed, if number 1 is the only one that may have been. */
  function ExecutedWith(i: Instance): set<Hash> {
    if i.phase == Committed && i.digest.Some? then {i.digest.value} else {}
  }

  /** A replica in the view of this instance, which it has at sequence number 1. */
  ghost predicate At(n: Node, k: NodeId, i: Instance) {
    && n.st.nodeId == k
    && n.st.view == i.view
    && n.st.sequence == 0
    && n.st.stableCheckpoint == 0
    && n.st.checkpoints == map[]
    && n.st.InWindow(1)
    && n.st.InstanceAt(1) == i
    && n.st.executed == ExecutedWith(i)
  }

  /** What a move does to the instance. */
  function Changed(env: Env, k: NodeId, i: Instance, m: Move): Instance
    requires m.Certify? ==> i.digest.Some?
  {
    match m
    case Open(pp) => Opened(i, pp, MakePrepare(env, k, pp.view, pp.sequence, pp.digest))
    case AddPrepare(p) => WithPrepare(i, p)
    case AddCommit(c) => WithCommit(i, c)
    case Certify(_) => WithCommit(i.(phase := Prepared), MakeCommit(env, k, i.view, 1, i.digest.value))
    case Finish(_) => i.(phase := Committed)
    case _ => i
  }

  function About(m: Move): Option<nat> {
    match m
    case Open(pp) => Some(pp.sequence)
    case AddPrepare(p) => Some(p.sequence)
    case AddCommit(c) => Some(c.sequence)
    case Certify(s) => Some(s)
    case Finish(s) => Some(s)
    case _ => None
  }

  lemma MovedInstance(env: Env, st: State, m: Move, k: NodeId, i: Instance)
    requires Guard(env, st, m) && st.nodeId == k && st.InstanceAt(1) == i && About(m) == Some(1)
    requires m.Certify? ==> i.digest.Some?
    ensures 1 in Moved(env, st, m) && Moved(env, st, m)[1] == Changed(env, k, i, m)
    ensures Changed(env, k, i, m).view == i.view
  {
  }

  lemma MovedExecuted(env: Env, n: Node, e: Event, m: Move, n': Node, k: NodeId, i: Instance)
    requires env.Valid() && Guard(env, n.st, m) && Origin(env, n, e, m) && Outputs(env, n, e, m, n')
    requires n.st.InstanceAt(1) == i && InstanceOk(env, n.st.nodeId, 1, i) && n.st.executed == ExecutedWith(i)
    requires About(m) == Some(1) && (m.Certify? ==> i.digest.Some?) && !e.ClientRequest?
    ensures n'.st.executed == ExecutedWith(Changed(env, k, i, m))
  {
    match m
    case Open(pp) => assert i.phase == Idle;
    case Finish(_) =>
      assert Executes(env, n.st, 1);
      assert n'.st.executed == {} + {i.digest.value};
    case _ =>
  }

  lemma MovedAt(env: Env, n: Node, e: Event, m: Move, n': Node, k: NodeId, i: Instance)
    requires env.Valid() && Follows(env, n, e, m, n') && Outputs(env, n, e, m, n') && LogOk(env, n.st)
    requires At(n, k, i) && About(m) == Some(1) && (m.Certify? ==> i.digest.Some?)
    requires !e.ClientRequest? && !e.RecvNewView?
    ensures At(n', k, Changed(env, k, i, m))
  {
    hide Moved, Outputs, Guard, ExecutedWith, Changed;
    assert InstanceOk(env, k, 1, i);
    MovedInstance(env, n.st, m, k, i);
    MovedExecuted(env, n, e, m, n', k, i);
  }

  lemma {:induction false} LogInRuns(env: Env, correct: set<NodeId>, run: Run, k: NodeId)
    requires env.Valid() && k in correct
    ensures LogOk(env, After(env, correct, run)[k].st)
  {
    ReplicaInvariant(env, correct, run, k);
  }

  /** One more step of a run, at sequence number 1. */
  lemma {:induction false} Extended(env: Env, correct: set<NodeId>, rules: set<Rule>, run: Run, k: NodeId, e: Event,
                                    i: Instance, m: Move)
    returns (run': Run)
    requires env.Valid() && k in correct && Obeys(env, correct, rules, run) && !e.ClientRequest? && !e.RecvNewView?
    requires var sys := After(env, correct, run);
             && (forall rule :: rule in rules ==> Allowed(env, sys, k, e, rule))
             && At(sys[k], k, i)
             && m == MoveOf(env, sys[k], e) && About(m) == Some(1) && (m.Certify? ==> i.digest.Some?)
    ensures run' == Then(run, k, e) && Obeys(env, correct, rules, run')
    ensures var sys, sys' := After(env, correct, run), After(env, correct, run');
            && Stepped(sys, k, sys')
            && At(sys'[k], k, Changed(env, k, i, m))
            && (FollowUp(m).Some? ==> FollowUp(m).value in sys'[k].pending)
            && (m.Open? ==> PrepareData(m.prePrepare.view, 1, m.prePrepare.digest) in sys'[k].signed)
            && (m.Certify? ==> CommitData(i.view, 1, i.digest.value) in sys'[k].signed)
            && (m.Finish? ==> i.digest.Some? && Decision(1, i.digest.value) in sys'[k].decided)
  {
    hide Step, MoveOf, Outputs, LogOk;
    run' := Then(run, k, e);
    var sys, sys' := After(env, correct, run), After(env, correct, run');
    StepMoves(env, sys[k], e);
    LogInRuns(env, correct, run, k);
    MovedAt(env, sys[k], e, m, sys'[k], k, i);
    assert SignedBy(env, sys[k].st, m) <= sys'[k].signed;
  }

  // ---------- A cluster of four with one faulty replica ----------

  ghost predicate Four(env: Env, a: NodeId, b: NodeId, c: NodeId, d: NodeId) {
    && env.Valid()
    && env.replicas == [a, b, c, d]
    && a != b && a != c && a != d && b != c && b != d && c != d
    && env.config == NewConfig(4)
    && SignaturesVerify(env, {a, b, c, d})
  }

  lemma FourMembers(env: Env, a: NodeId, b: NodeId, c: NodeId, d: NodeId)
    requires Four(env, a, b, c, d)
    ensures |Members(env)| == 3 * env.config.f + 1 && FaultsBounded(env, {b, c, d})
  {
    assert Members(env) == {a, b, c, d};
    assert Members(env) - {b, c, d} == {a};
  }

  const RULES := {Unforgeable, MemberVoters, VotesAfterPrePrepare, MatchingQuorums, MatchingMembers, MemberQuorums,
                  FreshAssignments, ConsistentAssignments, GuardedAssignments, NoNewView, AuthenticCheckpoints,
                  AuthenticQuorums}

  /** Replica `k`, with instance `i`, at the end of a run that keeps the rules. */
  ghost predicate Standing(env: Env, correct: set<NodeId>, rules: set<Rule>, run: Run, k: NodeId, i: Instance) {
    && env.Valid()
    && rules <= RULES
    && k in correct
    && Obeys(env, correct, rules, run)
    && At(After(env, correct, run)[k], k, i)
  }

  /** What the step of `k` after `run` leaves. */
  ghost predicate Next(env: Env, correct: set<NodeId>, rules: set<Rule>, run: Run, k: NodeId, i': Instance, run': Run)
    requires env.Valid()
  {
    && Standing(env, correct, rules, run', k, i')
    && Stepped(After(env, correct, run), k, After(env, correct, run'))
  }

  lemma {:induction false} TakesPrePrepare(env: Env, correct: set<NodeId>, rules: set<Rule>, run: Run, k: NodeId,
                                           i: Instance, pp: PrePrepare)
    returns (run': Run)
    requires Standing(env, correct, rules, run, k, i) && i.prePrepare.None?
    requires pp == MakePrePrepare(env, env.Primary(i.view), i.view, 1, pp.request)
    requires env.verify(pp.primaryId, PrepareData(i.view, 1, pp.digest), pp.signature)
    requires Vouched(After(env, correct, run), pp.primaryId, PrepareData(i.view, 1, pp.digest))
    ensures Next(env, correct, rules, run, k, Opened(i, pp, MakePrepare(env, k, i.view, 1, pp.digest)), run')
    ensures var n := After(env, correct, run')[k];
            AdvancePrepared(1) in n.pending && PrepareData(i.view, 1, pp.digest) in n.signed
  {
    run' := Extended(env, correct, rules, run, k, RecvPrePrepare(pp), i, Open(pp));
  }

  lemma {:induction false} TakesPrepare(env: Env, correct: set<NodeId>, rules: set<Rule>, run: Run, k: NodeId,
                                        i: Instance, p: Prepare)
    returns (run': Run)
    requires Standing(env, correct, rules, run, k, i) && p.replicaId !in i.prepares
    requires p == MakePrepare(env, p.replicaId, i.view, 1, p.digest)
    requires if i.prePrepare.Some? then i.prePrepare.value.digest == p.digest else VotesAfterPrePrepare !in rules
    requires MemberVoters in rules ==> p.replicaId in env.replicas
    requires env.verify(p.replicaId, PrepareData(i.view, 1, p.digest), p.signature)
    requires Vouched(After(env, correct, run), p.replicaId, PrepareData(i.view, 1, p.digest))
    ensures Next(env, correct, rules, run, k, WithPrepare(i, p), run')
    ensures AdvancePrepared(1) in After(env, correct, run')[k].pending
  {
    run' := Extended(env, correct, rules, run, k, RecvPrepare(p), i, AddPrepare(p));
  }

  lemma {:induction false} TakesCommit(env: Env, correct: set<NodeId>, rules: set<Rule>, run: Run, k: NodeId,
                                       i: Instance, c: Commit)
    returns (run': Run)
    requires Standing(env, correct, rules, run, k, i) && c.replicaId !in i.commits
    requires c == MakeCommit(env, c.replicaId, i.view, 1, c.digest) && (i.digest.Some? ==> i.digest.value == c.digest)
    requires MemberVoters in rules ==> c.replicaId in env.replicas
    requires env.verify(c.replicaId, CommitData(i.view, 1, c.digest), c.signature)
    requires Vouched(After(env, correct, run), c.replicaId, CommitData(i.view, 1, c.digest))
    ensures Next(env, correct, rules, run, k, WithCommit(i, c), run')
    ensures AdvanceCommitted(1) in After(env, correct, run')[k].pending
  {
    run' := Extended(env, correct, rules, run, k, RecvCommit(c), i, AddCommit(c));
  }

  lemma {:induction false} Certifies(env: Env, correct: set<NodeId>, rules: set<Rule>, run: Run, k: NodeId, i: Instance)
    returns (run': Run)
    requires Standing(env, correct, rules, run, k, i) && i.phase == PrePrepared && i.prePrepare.Some? && i.digest.Some?
    requires |i.prepares| >= env.config.Quorum() && AdvancePrepared(1) in After(env, correct, run)[k].pending
    requires MatchingQuorums in rules ==> |MatchingVoters(i)| >= env.config.Quorum()
    requires MatchingMembers in rules ==> |MatchingMembersOf(env, i)| >= env.config.Quorum()
    requires MemberQuorums in rules ==> |i.prepares.Keys * Members(env)| >= env.config.Quorum()
    ensures Next(env, correct, rules, run, k,
                 WithCommit(i.(phase := Prepared), MakeCommit(env, k, i.view, 1, i.digest.value)), run')
    ensures CommitData(i.view, 1, i.digest.value) in After(env, correct, run')[k].signed
    ensures AdvanceCommitted(1) in After(env, correct, run')[k].pending
  {
    run' := Extended(env, correct, rules, run, k, Run(AdvancePrepared(1)), i, Certify(1));
  }

  lemma {:induction false} Finishes(env: Env, correct: set<NodeId>, rules: set<Rule>, run: Run, k: NodeId, i: Instance)
    returns (run': Run)
    requires Standing(env, correct, rules, run, k, i) && i.phase == Prepared && i.digest.Some?
    requires MemberQuorums in rules ==> |i.commits.Keys * Members(env)| >= env.config.Quorum()
    requires |i.commits| >= env.config.Quorum() && AdvanceCommitted(1) in After(env, correct, run)[k].pending
    ensures Next(env, correct, rules, run, k, i.(phase := Committed), run')
    ensures Decision(1, i.digest.value) in After(env, correct, run')[k].decided
  {
    run' := Extended(env, correct, rules, run, k, Run(AdvanceCommitted(1)), i, Finish(1));
  }

  lemma Starting(env: Env, correct: set<NodeId>, k: NodeId)
    requires env.Valid() && k in correct
    ensures Standing(env, correct, RULES, Start, k, NewInstance(1, 0))
    ensures After(env, correct, Start)[k] == InitialNode(env, k)
  {
  }

  lemma SteppedTwice(sys: System, k: NodeId, sys': System, sys'': System)
    requires Stepped(sys, k, sys') && Stepped(sys', k, sys'')
    ensures Stepped(sys, k, sys'')
  {
    assert sys'' == sys[k := sys''[k]];
  }

  lemma ThreeKeys<V>(m: map<NodeId, V>, a: NodeId, b: NodeId, c: NodeId)
    requires m.Keys == {a, b, c} && a != b && a != c && b != c
    ensures |m| == 3
  {
    assert |m.Keys| == |m|;
  }
}
