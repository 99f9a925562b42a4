/** Runs of a cluster. The correct replicas take steps of the protocol; everything else, that
    is the network and the faulty replicas, is free to hand any message to any replica at any
    time, as often as it likes or never. What may be assumed of it is said by rules. */
module Runs {
  import opened Messages
  import opened Protocol
  import opened Moves
  import opened Invariant
  import opened Records

  /** The correct replicas. */
  type System = map<NodeId, Node>

  datatype Run = Start | Then(before: Run, at: NodeId, event: Event)

  function Initial(env: Env, correct: set<NodeId>): System {
    map k | k in correct :: InitialNode(env, k)
  }

  function After(env: Env, correct: set<NodeId>, run: Run): (sys: System)
    requires env.Valid()
    ensures sys.Keys == correct
  {
    match run
    case Start => Initial(env, correct)
    case Then(before, at, e) =>
      var sys := After(env, correct, before);
      if at in sys then sys[at := Step(env, sys[at], e)] else sys
  }

  /** If `k` is a correct replica then it has signed the datum. */
  ghost predicate Vouched(sys: System, k: NodeId, data: SignedData) {
    k in sys ==> data in sys[k].signed
  }

  /** `sys'` is `sys` with a step made by `at`. */
  ghost predicate Stepped(sys: System, at: NodeId, sys': System) {
    at in sys && at in sys' && sys' == sys[at := sys'[at]] && sys[at].signed <= sys'[at].signed
  }

  ghost function Members(env: Env): set<NodeId> {
    set k | k in env.replicas
  }

  /** The correct replicas are members, and at most f members are not correct. */
  ghost predicate FaultsBounded(env: Env, correct: set<NodeId>) {
    correct <= Members(env) && |Members(env) - correct| <= env.config.f
  }

  /** What these replicas sign passes verification. */
  ghost predicate SignaturesVerify(env: Env, signers: set<NodeId>) {
    forall k, data :: k in signers ==> env.verify(k, data, env.sign(k, data))
  }

  datatype Rule =
    | Unforgeable              // a verified signature of a correct replica was made by that replica
    | MemberVoters             // prepares and commits come from members of the replica list
    | VotesAfterPrePrepare     // a replica takes prepares for a sequence number it holds the pre-prepare of
    | EarlyVotesMatch          // prepares that came before the pre-prepare are for the same digest
    | MatchingQuorums          // a quorum of the prepares that are counted are for the digest they are counted for
    | MatchingMembers          // and a quorum of them are both for that digest and from members
    | MemberQuorums            // a quorum of the prepares, or commits, that are counted are from members
    | FreshAssignments         // a primary assigns numbers it has not signed a pre-prepare or prepare for
    | ConsistentAssignments    // a primary assigns no number to a digest that it has signed another digest for
    | GuardedAssignments       // a primary assigns numbers in its window that it holds no pre-prepare for
    | NoNewView                // no replica is handed the announcement of a later view
    | AuthenticCheckpoints     // checkpoints come from members, and a correct replica's was signed by it
    | AuthenticQuorums         // a quorum of the checkpoints that are counted are of that kind

  ghost predicate Genuine(env: Env, sys: System, e: Event) {
    match e
    case RecvPrePrepare(pp) =>
      var data := PrepareData(pp.view, pp.sequence, pp.digest);
      env.verify(pp.primaryId, data, pp.signature) ==> Vouched(sys, pp.primaryId, data)
    case RecvPrepare(p) =>
      var data := PrepareData(p.view, p.sequence, p.digest);
      env.verify(p.replicaId, data, p.signature) ==> Vouched(sys, p.replicaId, data)
    case RecvCommit(c) =>
      var data := CommitData(c.view, c.sequence, c.digest);
      env.verify(c.replicaId, data, c.signature) ==> Vouched(sys, c.replicaId, data)
    case _ => true
  }

  /** The senders of recorded prepares for the recorded digest. */
  function MatchingVoters(i: Instance): set<NodeId> {
    set k | k in i.prepares && i.digest == Some(i.prepares[k].digest)
  }

  function MatchingMembersOf(env: Env, i: Instance): set<NodeId> {
    set k | k in MatchingVoters(i) && k in env.replicas
  }

  ghost predicate AuthenticClaim(env: Env, sys: System, s: nat, claims: map<NodeId, Checkpoint>, k: NodeId) {
    k in claims && k in env.replicas && Vouched(sys, k, CheckpointData(s, claims[k].digest))
  }

  /** The members whose claims to have executed the number are authentic. */
  ghost function AuthenticClaims(env: Env, sys: System, s: nat, claims: map<NodeId, Checkpoint>): set<NodeId> {
    set k | k in claims && AuthenticClaim(env, sys, s, claims, k)
  }

  /** The request handler of the primary assigns the next number to a request, though the primary
      has signed another digest for it. */
  ghost predicate AssignsAnother(env: Env, n: Node, e: Event)
    requires env.Valid()
  {
    && e.ClientRequest?
    && ClassifyRequest(env, n.st, e.request) == Assign
    && SignedAnother(n, n.st.sequence + 1, env.digest(e.request))
  }

  /** The prepares of others that are recorded already are for the digest of the pre-prepare. */
  predicate EarlyVotesFit(st: State, pp: PrePrepare) {
    var i := st.InstanceAt(pp.sequence);
    forall k :: k in i.prepares && k != st.nodeId ==> i.prepares[k].digest == pp.digest
  }

  ghost predicate Allowed(env: Env, sys: System, at: NodeId, e: Event, rule: Rule)
    requires env.Valid()
  {
    match rule
    case Unforgeable => Genuine(env, sys, e)
    case MemberVoters =>
      && (e.RecvPrepare? ==> e.prepare.replicaId in env.replicas)
      && (e.RecvCommit? ==> e.commit.replicaId in env.replicas)
    case VotesAfterPrePrepare => at in sys && e.RecvPrepare? ==> sys[at].st.HoldsPrePrepare(e.prepare.sequence)
    case EarlyVotesMatch =>
      at in sys ==> var m := MoveOf(env, sys[at], e); m.Open? ==> EarlyVotesFit(sys[at].st, m.prePrepare)
    case MatchingQuorums =>
      at in sys ==>
        var m := MoveOf(env, sys[at], e);
        m.Certify? ==> |MatchingVoters(sys[at].st.log[m.sequence])| >= env.config.Quorum()
    case MatchingMembers =>
      at in sys ==>
        var m := MoveOf(env, sys[at], e);
        m.Certify? ==> |MatchingMembersOf(env, sys[at].st.log[m.sequence])| >= env.config.Quorum()
    case MemberQuorums =>
      at in sys ==>
        var m := MoveOf(env, sys[at], e);
        && (m.Certify? ==> |sys[at].st.log[m.sequence].prepares.Keys * Members(env)| >= env.config.Quorum())
        && (m.Finish? ==> |sys[at].st.log[m.sequence].commits.Keys * Members(env)| >= env.config.Quorum())
    case ConsistentAssignments => at in sys ==> !AssignsAnother(env, sys[at], e)
    case FreshAssignments =>
      at in sys && Assigns(env, sys[at].st, e) ==> Unsigned(sys[at], sys[at].st.sequence + 1)
    case GuardedAssignments =>
      at in sys && Assigns(env, sys[at].st, e) ==>
        var next := sys[at].st.sequence + 1;
        next > sys[at].st.lowWatermark && !sys[at].st.HoldsPrePrepare(next)
    case NoNewView => at in sys && e.RecvNewView? ==> e.newView.newView <= sys[at].st.view
    case AuthenticCheckpoints =>
      e.RecvCheckpoint? ==>
        && e.checkpoint.replicaId in env.replicas
        && Vouched(sys, e.checkpoint.replicaId, CheckpointData(e.checkpoint.sequence, e.checkpoint.digest))
    case AuthenticQuorums =>
      at in sys && e.RecvCheckpoint? && BecomesStable(env, sys[at].st, e.checkpoint) ==>
        var s := e.checkpoint.sequence;
        |AuthenticClaims(env, sys, s, WithCheckpoint(sys[at].st, e.checkpoint)[s])| >= env.config.Quorum()
  }

  /** Every step of the run keeps the rules. */
  ghost predicate Obeys(env: Env, correct: set<NodeId>, rules: set<Rule>, run: Run)
    requires env.Valid()
  {
    match run
    case Start => true
    case Then(before, at, e) =>
      && Obeys(env, correct, rules, before)
      && forall rule :: rule in rules ==> Allowed(env, After(env, correct, before), at, e, rule)
  }

  lemma {:induction false} FewerRules(env: Env, correct: set<NodeId>, rules: set<Rule>, fewer: set<Rule>, run: Run)
    requires env.Valid() && Obeys(env, correct, rules, run) && fewer <= rules
    ensures Obeys(env, correct, fewer, run)
  {
    if run.Then? {
      FewerRules(env, correct, rules, fewer, run.before);
    }
  }

  lemma {:induction false} MoreRules(env: Env, correct: set<NodeId>, rules: set<Rule>, more: set<Rule>, run: Run)
    requires env.Valid() && Obeys(env, correct, rules, run) && Obeys(env, correct, more, run)
    ensures Obeys(env, correct, rules + more, run)
  {
    if run.Then? {
      MoreRules(env, correct, rules, more, run.before);
    }
  }

  /** The run goes on from an earlier one. */
  ghost predicate Extends(run: Run, earlier: Run) {
    run == earlier || (run.Then? && Extends(run.before, earlier))
  }

  /** Correct replicas keep their identity and the replica invariant, in all runs. */
  lemma {:induction false} ReplicaInvariant(env: Env, correct: set<NodeId>, run: Run, k: NodeId)
    requires env.Valid() && k in correct
    ensures var n := After(env, correct, run)[k]; n.st.nodeId == k && Inv(env, n)
  {
    hide Step, MoveOf, Speaks, Outputs, Inv;
    match run
    case Start => InvInitially(env, k);
    case Then(before, at, e) =>
      ReplicaInvariant(env, correct, before, k);
      var n := After(env, correct, before)[k];
      if at == k {
        StepMoves(env, n, e);
        InvStep(env, n, e);
      }
  }

  /** The last step of a run, if a correct replica made it. */
  lemma {:induction false} StepInRun(env: Env, correct: set<NodeId>, run: Run) returns (m: Move)
    requires env.Valid() && run.Then? && run.at in correct
    ensures var sys, sys' := After(env, correct, run.before), After(env, correct, run);
            var n, n' := sys[run.at], sys'[run.at];
            && Stepped(sys, run.at, sys')
            && n.st.nodeId == run.at
            && Inv(env, n)
            && LogOk(env, n.st)
            && WindowOk(env, n.st)
            && LogSigned(env, n)
            && m == MoveOf(env, n, run.event)
            && n' == Step(env, n, run.event)
            && Follows(env, n, run.event, m, n')
            && Speaks(env, n, run.event, m, n')
  {
    hide Step, MoveOf, Follows, Outputs;
    var n := After(env, correct, run.before)[run.at];
    ReplicaInvariant(env, correct, run.before, run.at);
    StepMoves(env, n, run.event);
    m := MoveOf(env, n, run.event);
  }
}
