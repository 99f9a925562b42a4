/** Stable checkpoints: what a replica that has moved its window knows about the others. */
module Checkpoints {
  import opened Messages
  import opened Protocol
  import opened Moves
  import opened Invariant
  import opened Records
  import opened Runs
  import opened Signing
  import opened HonestPrimary
  import Quorums

  // ---------- What a stable checkpoint rests on ----------

  /** The stable checkpoint is on record with what was filed for it. */
  ghost predicate StableProven(n: Node) {
    n.st.stableCheckpoint > 0 ==> exists p :: p in n.proofs && p.sequence == n.st.stableCheckpoint
  }

  lemma StableProvenStep(env: Env, n: Node, e: Event, m: Move, n': Node)
    requires env.Valid() && Follows(env, n, e, m, n') && Speaks(env, n, e, m, n') && StableProven(n)
    ensures StableProven(n')
  {
    if m.Discard? {
      var p := StableProof(m.bound, WithCheckpoint(n.st, e.checkpoint)[m.bound]);
      assert p in Proven(n.st, e) && p in n'.proofs;
    }
  }

  lemma {:induction false} StableProvenInRuns(env: Env, correct: set<NodeId>, run: Run, k: NodeId)
    requires env.Valid() && k in correct
    ensures StableProven(After(env, correct, run)[k])
  {
    hide Step, MoveOf, Follows, Speaks, Inv;
    if run.Then? {
      StableProvenInRuns(env, correct, run.before, k);
      if run.at == k {
        var m := StepInRun(env, correct, run);
        StableProvenStep(env, After(env, correct, run.before)[k], run.event, m, After(env, correct, run)[k]);
      }
    }
  }

  /** A quorum of members has made authentic claims for every checkpoint that has become stable. */
  ghost predicate ProofsAuthentic(env: Env, sys: System, n: Node) {
    forall p :: p in n.proofs ==> |AuthenticClaims(env, sys, p.sequence, p.claims)| >= env.config.Quorum()
  }

  lemma AuthenticGrows(env: Env, sys: System, at: NodeId, sys': System, s: nat, claims: map<NodeId, Checkpoint>)
    requires Stepped(sys, at, sys')
    ensures |AuthenticClaims(env, sys, s, claims)| <= |AuthenticClaims(env, sys', s, claims)|
  {
    Quorums.SubsetSize(AuthenticClaims(env, sys, s, claims), AuthenticClaims(env, sys', s, claims));
  }

  lemma ProofsGrow(env: Env, sys: System, at: NodeId, sys': System, n: Node)
    requires Stepped(sys, at, sys') && ProofsAuthentic(env, sys, n)
    ensures ProofsAuthentic(env, sys', n)
  {
    hide AuthenticClaims;
    forall p | p in n.proofs ensures |AuthenticClaims(env, sys', p.sequence, p.claims)| >= env.config.Quorum() {
      AuthenticGrows(env, sys, at, sys', p.sequence, p.claims);
    }
  }

  /** Receiving a checkpoint makes no claim authentic. */
  lemma AuthenticSame(env: Env, sys: System, at: NodeId, e: Event, m: Move, sys': System, s: nat,
                      claims: map<NodeId, Checkpoint>)
    requires env.Valid() && Stepped(sys, at, sys') && e.RecvCheckpoint?
    requires Guard(env, sys[at].st, m) && Speaks(env, sys[at], e, m, sys'[at])
    ensures AuthenticClaims(env, sys', s, claims) == AuthenticClaims(env, sys, s, claims)
  {
    forall k | k in claims
      ensures AuthenticClaim(env, sys', s, claims, k) <==> AuthenticClaim(env, sys, s, claims, k)
    {
    }
  }

  /** The step makes a checkpoint stable for which fewer than a quorum of members have made
      authentic claims. */
  ghost predicate CountsUnbackedClaims(env: Env, sys: System, at: NodeId, e: Event)
    requires at in sys
  {
    && e.RecvCheckpoint?
    && BecomesStable(env, sys[at].st, e.checkpoint)
    && var s := e.checkpoint.sequence;
       |AuthenticClaims(env, sys, s, WithCheckpoint(sys[at].st, e.checkpoint)[s])| < env.config.Quorum()
  }

  lemma NewProofs(env: Env, n: Node, e: Event, m: Move, n': Node)
    requires env.Valid() && m == MoveOf(env, n, e) && Guard(env, n.st, m) && Speaks(env, n, e, m, n')
    ensures m.Discard? <==> e.RecvCheckpoint? && BecomesStable(env, n.st, e.checkpoint)
    ensures m.Discard? ==> m.bound == e.checkpoint.sequence
    ensures n'.proofs == n.proofs + if m.Discard? then Proven(n.st, e) else {}
  {
  }

  lemma ProofsAuthenticStep(env: Env, sys: System, at: NodeId, e: Event, m: Move, sys': System)
    requires env.Valid() && Stepped(sys, at, sys') && m == MoveOf(env, sys[at], e)
    requires Guard(env, sys[at].st, m) && Origin(env, sys[at], e, m) && Speaks(env, sys[at], e, m, sys'[at])
    requires ProofsAuthentic(env, sys, sys[at])
    ensures ProofsAuthentic(env, sys', sys'[at]) <==> !CountsUnbackedClaims(env, sys, at, e)
  {
    hide AuthenticClaims, Speaks;
    var n := sys[at];
    ProofsGrow(env, sys, at, sys', n);
    NewProofs(env, n, e, m, sys'[at]);
    if m.Discard? {
      var p := StableProof(m.bound, WithCheckpoint(n.st, e.checkpoint)[m.bound]);
      assert p in sys'[at].proofs;
      AuthenticSame(env, sys, at, e, m, sys', p.sequence, p.claims);
    }
  }

  /** When a checkpoint becomes stable without authentic claims of a quorum of members: exactly when
      it is counted without them. */
  lemma AuthenticExactlyIfCounted(env: Env, sys: System, at: NodeId, e: Event)
    requires env.Valid() && at in sys && ProofsAuthentic(env, sys, sys[at])
    ensures var sys' := sys[at := Step(env, sys[at], e)];
            ProofsAuthentic(env, sys', sys'[at]) <==> !CountsUnbackedClaims(env, sys, at, e)
  {
    hide Step, MoveOf, ProofsAuthentic, CountsUnbackedClaims, Moved, Outputs;
    StepMoves(env, sys[at], e);
    ProofsAuthenticStep(env, sys, at, e, MoveOf(env, sys[at], e), sys[at := Step(env, sys[at], e)]);
  }

  lemma NoProofs(env: Env, correct: set<NodeId>, k: NodeId)
    requires env.Valid() && k in correct
    ensures var sys := Initial(env, correct); ProofsAuthentic(env, sys, sys[k])
  {
  }

  lemma {:induction false} ProofsInRuns(env: Env, correct: set<NodeId>, run: Run, k: NodeId)
    requires env.Valid() && k in correct && Obeys(env, correct, {AuthenticQuorums}, run)
    ensures var sys := After(env, correct, run); ProofsAuthentic(env, sys, sys[k])
  {
    hide Step, MoveOf, Follows, Speaks, Inv, ProofsAuthentic, AuthenticClaims;
    if run.Then? {
      var Then(before, at, e) := run;
      var sys, sys' := After(env, correct, before), After(env, correct, run);
      ProofsInRuns(env, correct, before, k);
      if at in correct {
        var m := StepInRun(env, correct, run);
        if at != k {
          ProofsGrow(env, sys, at, sys', sys[k]);
        } else {
          assert Allowed(env, sys, at, e, AuthenticQuorums);
          AuthenticExactlyIfCounted(env, sys, at, e);
          assert sys' == sys[at := Step(env, sys[at], e)];
        }
      }
    } else {
      NoProofs(env, correct, k);
    }
  }

  // ---------- Checkpoint validity ----------

  ghost predicate AllExecuted(sys: System, executors: set<NodeId>, s: nat) {
    forall x :: x in executors && x in sys ==> ExecutedAt(sys[x], s)
  }

  /** At least f+1 correct replicas have executed a request at the sequence number. */
  ghost predicate ExecutedByCorrect(env: Env, sys: System, s: nat) {
    exists executors :: executors <= sys.Keys && |executors| >= env.config.f + 1 && AllExecuted(sys, executors, s)
  }

  /** If a correct replica's stable checkpoint is s > 0 then at least f+1 correct replicas have
      executed a request at s, and s is a multiple of the checkpoint interval; whatever other claims
      are made, as long as quorums of members back those that are counted. */
  lemma {:induction false} StableCheckpointIsExecuted(env: Env, correct: set<NodeId>, run: Run, k: NodeId)
    requires env.Valid() && FaultsBounded(env, correct) && k in correct
    requires Obeys(env, correct, {AuthenticQuorums}, run)
    requires After(env, correct, run)[k].st.stableCheckpoint > 0
    ensures var sys := After(env, correct, run);
            var s := sys[k].st.stableCheckpoint;
            s % env.config.checkpointInterval == 0 && ExecutedByCorrect(env, sys, s)
  {
    hide Step;
    var sys := After(env, correct, run);
    var s := sys[k].st.stableCheckpoint;
    StableProvenInRuns(env, correct, run, k);
    ProofsInRuns(env, correct, run, k);
    var p :| p in sys[k].proofs && p.sequence == s;
    var claimants := AuthenticClaims(env, sys, s, p.claims);
    Quorums.CorrectPart(Members(env), correct, env.config.f, claimants);
    var executors := claimants * correct;
    forall x | x in executors ensures ExecutedAt(sys[x], s) && s % env.config.checkpointInterval == 0 {
      assert AuthenticClaim(env, sys, s, p.claims, x);
      ReplicaInvariant(env, correct, run, x);
      assert CheckpointData(s, p.claims[x].digest) in sys[x].signed;
    }
    var x :| x in executors;
    assert AllExecuted(sys, executors, s);
  }

  // ---------- Authentic checkpoints ----------

  ghost predicate AllAuthentic(env: Env, sys: System, s: nat, claims: map<NodeId, Checkpoint>) {
    forall k :: k in claims ==> AuthenticClaim(env, sys, s, claims, k)
  }

  ghost predicate FiledAuthentic(env: Env, sys: System, st: State) {
    forall s :: s in st.checkpoints ==> AllAuthentic(env, sys, s, st.checkpoints[s])
  }

  lemma FiledGrows(env: Env, sys: System, at: NodeId, sys': System, st: State)
    requires Stepped(sys, at, sys') && FiledAuthentic(env, sys, st)
    ensures FiledAuthentic(env, sys', st)
  {
    forall s | s in st.checkpoints ensures AllAuthentic(env, sys', s, st.checkpoints[s]) {
      assert AllAuthentic(env, sys, s, st.checkpoints[s]);
      forall k | k in st.checkpoints[s] ensures AuthenticClaim(env, sys', s, st.checkpoints[s], k) {
        assert AuthenticClaim(env, sys, s, st.checkpoints[s], k);
      }
    }
  }

  lemma ReceivedIsAuthentic(env: Env, sys: System, st: State, cp: Checkpoint)
    requires FiledAuthentic(env, sys, st)
    requires cp.replicaId in env.replicas && Vouched(sys, cp.replicaId, CheckpointData(cp.sequence, cp.digest))
    ensures FiledAuthentic(env, sys, st.(checkpoints := WithCheckpoint(st, cp)))
  {
    var s, filed := cp.sequence, WithCheckpoint(st, cp);
    forall k | k in filed[s] ensures AuthenticClaim(env, sys, s, filed[s], k) {
      assert k != cp.replicaId ==> AuthenticClaim(env, sys, s, st.checkpoints[s], k);
    }
    assert AllAuthentic(env, sys, s, filed[s]);
  }

  lemma FiledStep(env: Env, sys: System, n: Node, cp: Checkpoint)
    requires env.Valid() && FiledAuthentic(env, sys, n.st)
    requires cp.replicaId in env.replicas && Vouched(sys, cp.replicaId, CheckpointData(cp.sequence, cp.digest))
    ensures FiledAuthentic(env, sys, Step(env, n, RecvCheckpoint(cp)).st)
  {
    ReceivedIsAuthentic(env, sys, n.st, cp);
    var st' := HandleCheckpoint(env, n, cp).st;
    assert Step(env, n, RecvCheckpoint(cp)).st == st';
    forall s | s in st'.checkpoints ensures AllAuthentic(env, sys, s, st'.checkpoints[s]) {
      assert s in WithCheckpoint(n.st, cp) && st'.checkpoints[s] == WithCheckpoint(n.st, cp)[s];
    }
  }

  lemma OtherStep(env: Env, n: Node, e: Event, m: Move, n': Node)
    requires env.Valid() && Follows(env, n, e, m, n') && !e.RecvCheckpoint?
    ensures n'.st.checkpoints == n.st.checkpoints
  {
  }

  lemma {:induction false} FiledInRuns(env: Env, correct: set<NodeId>, run: Run, k: NodeId)
    requires env.Valid() && k in correct && Obeys(env, correct, {AuthenticCheckpoints}, run)
    ensures var sys := After(env, correct, run); FiledAuthentic(env, sys, sys[k].st)
  {
    hide Step, MoveOf, Follows, Speaks, Inv, AllAuthentic;
    if run.Then? {
      var Then(before, at, e) := run;
      var sys, sys' := After(env, correct, before), After(env, correct, run);
      FiledInRuns(env, correct, before, k);
      if at in correct {
        var m := StepInRun(env, correct, run);
        FiledGrows(env, sys, at, sys', sys[k].st);
        if at == k && e.RecvCheckpoint? {
          assert Allowed(env, sys, at, e, AuthenticCheckpoints);
          FiledStep(env, sys', sys[k], e.checkpoint);
        } else if at == k {
          OtherStep(env, sys[k], e, m, sys'[k]);
        }
      }
    }
  }

  lemma AllAuthenticCount(env: Env, sys: System, s: nat, claims: map<NodeId, Checkpoint>)
    requires AllAuthentic(env, sys, s, claims)
    ensures |AuthenticClaims(env, sys, s, claims)| == |claims|
  {
    assert AuthenticClaims(env, sys, s, claims) == claims.Keys && |claims.Keys| == |claims|;
  }

  lemma {:induction false} AuthenticHere(env: Env, correct: set<NodeId>, run: Run)
    requires env.Valid() && run.Then? && run.at in correct && Obeys(env, correct, {AuthenticCheckpoints}, run)
    ensures var sys := After(env, correct, run.before);
            FiledAuthentic(env, sys, sys[run.at].st) && Allowed(env, sys, run.at, run.event, AuthenticCheckpoints)
  {
    FiledInRuns(env, correct, run.before, run.at);
  }

  lemma {:induction false} AuthenticCountsAt(env: Env, correct: set<NodeId>, run: Run)
    requires env.Valid() && run.Then? && Obeys(env, correct, {AuthenticCheckpoints}, run)
    ensures Allowed(env, After(env, correct, run.before), run.at, run.event, AuthenticQuorums)
  {
    hide Step, Obeys, AllAuthentic;
    var Then(before, at, e) := run;
    var sys := After(env, correct, before);
    if at in sys && e.RecvCheckpoint? {
      AuthenticHere(env, correct, run);
      ReceivedIsAuthentic(env, sys, sys[at].st, e.checkpoint);
      var s := e.checkpoint.sequence;
      AllAuthenticCount(env, sys, s, WithCheckpoint(sys[at].st, e.checkpoint)[s]);
    }
  }

  /** If all checkpoints are authentic then those that are counted are. */
  lemma {:induction false} AuthenticCheckpointsCount(env: Env, correct: set<NodeId>, run: Run)
    requires env.Valid() && Obeys(env, correct, {AuthenticCheckpoints}, run)
    ensures Obeys(env, correct, {AuthenticQuorums}, run)
  {
    hide Allowed, After;
    if run.Then? {
      AuthenticCheckpointsCount(env, correct, run.before);
      AuthenticCountsAt(env, correct, run);
    }
  }

  // ---------- Windows and the primary's counter ----------

  const CHECKPOINT_RULES := {Unforgeable, NoNewView, AuthenticQuorums}

  /** No window of a correct replica is ahead of the counter of a correct primary. */
  lemma {:induction false} WindowBehindPrimary(env: Env, correct: set<NodeId>, run: Run, k: NodeId)
    requires env.Valid() && FaultsBounded(env, correct) && env.Primary(0) in correct && k in correct
    requires Obeys(env, correct, CHECKPOINT_RULES, run)
    ensures var sys := After(env, correct, run);
            sys[k].st.lowWatermark <= sys[env.Primary(0)].st.sequence
  {
    var sys := After(env, correct, run);
    ReplicaInvariant(env, correct, run, k);
    var s := sys[k].st.stableCheckpoint;
    if s > 0 {
      FewerRules(env, correct, CHECKPOINT_RULES, {AuthenticQuorums}, run);
      FewerRules(env, correct, CHECKPOINT_RULES, STABLE_VIEW, run);
      StableCheckpointIsExecuted(env, correct, run, k);
      var executors :| executors <= sys.Keys && |executors| >= env.config.f + 1 && AllExecuted(sys, executors, s);
      var x :| x in executors;
      ReplicaInvariant(env, correct, run, x);
      var i :| 0 <= i < |sys[x].delivered| && sys[x].delivered[i].sequence == s;
      RecordedIsAssigned(env, correct, run, x, s, env.digest(sys[x].delivered[i].request));
    }
  }

  ghost predicate LogInWindow(st: State) {
    forall s :: s in st.log ==> st.InWindow(s)
  }

  lemma LogInWindowStep(env: Env, n: Node, e: Event, m: Move, n': Node)
    requires env.Valid() && Follows(env, n, e, m, n') && WindowOk(env, n.st) && LogInWindow(n.st)
    requires env.Primary(n.st.view) == n.st.nodeId ==> n.st.lowWatermark <= n.st.sequence
    ensures LogInWindow(n'.st)
  {
    WindowOkStep(env, n, e, m, n');
  }

  /** So the log lies in the window at every correct replica, at the primary as well. */
  lemma {:induction false} LogStaysInWindow(env: Env, correct: set<NodeId>, run: Run, k: NodeId)
    requires env.Valid() && FaultsBounded(env, correct) && env.Primary(0) in correct && k in correct
    requires Obeys(env, correct, CHECKPOINT_RULES, run)
    ensures LogInWindow(After(env, correct, run)[k].st)
  {
    hide Step, MoveOf, Follows, Speaks, Inv;
    if run.Then? {
      var Then(before, at, e) := run;
      LogStaysInWindow(env, correct, before, k);
      if at == k {
        var n := After(env, correct, before)[k];
        WindowBehindPrimary(env, correct, before, k);
        FewerRules(env, correct, CHECKPOINT_RULES, {NoNewView}, before);
        ViewStaysZero(env, correct, before, k);
        var m := StepInRun(env, correct, run);
        LogInWindowStep(env, n, e, m, After(env, correct, run)[k]);
      }
    }
  }
}
