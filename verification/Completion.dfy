/** Completion: with a correct primary and a quorum of correct replicas, once the messages
    among the correct replicas about a number have been delivered and no advance is pending,
    every correct replica has committed and executed it, whatever faulty backups send. */
module Completion {
  import opened Messages
  import opened Protocol
  import opened Moves
  import opened Invariant
  import opened Records
  import opened Runs
  import opened Signing
  import opened HonestPrimary
  import opened Certificates
  import Quorums

  // ---------- Delivered messages take effect ----------

  /** A pre-prepare for the first view that a backup has no reason to reject. */
  ghost predicate Proper(env: Env, pp: PrePrepare)
    requires env.Valid()
  {
    && pp.view == 0
    && pp.primaryId == env.Primary(0)
    && pp.digest == env.digest(pp.request)
    && env.verify(pp.primaryId, PrepareData(0, pp.sequence, pp.digest), pp.signature)
  }

  ghost predicate PrePreparesTaken(env: Env, n: Node)
    requires env.Valid()
  {
    forall pp :: PrePrepareMsg(pp) in n.arrived && Proper(env, pp) && pp.sequence > n.st.lowWatermark ==>
      n.st.HoldsPrePrepare(pp.sequence)
  }

  /** A prepare or commit of the first view, signed by its sender. */
  ghost predicate SignedVote(env: Env, m: Message) {
    match m
    case PrepareMsg(p) => p.view == 0 && env.verify(p.replicaId, PrepareData(0, p.sequence, p.digest), p.signature)
    case CommitMsg(c) => c.view == 0 && env.verify(c.replicaId, CommitData(0, c.sequence, c.digest), c.signature)
    case _ => false
  }

  ghost predicate PreparesTaken(env: Env, sys: System, n: Node) {
    forall p: Prepare ::
      && PrepareMsg(p) in n.arrived
      && SignedVote(env, PrepareMsg(p))
      && p.replicaId in sys
      && p.sequence > n.st.lowWatermark
      ==> p.sequence in n.st.log && p.replicaId in n.st.log[p.sequence].prepares
  }

  ghost predicate CommitsTaken(env: Env, sys: System, n: Node) {
    forall c: Commit ::
      && CommitMsg(c) in n.arrived
      && SignedVote(env, CommitMsg(c))
      && c.replicaId in sys
      && c.sequence > n.st.lowWatermark
      ==> c.sequence in n.st.log && c.replicaId in n.st.log[c.sequence].commits
  }

  /** The step of replica `at` in the first view. */
  ghost predicate FirstViewStep(env: Env, sys: System, at: NodeId, e: Event, m: Move, n': Node)
    requires env.Valid()
  {
    && at in sys
    && sys[at].st.nodeId == at
    && sys[at].st.view == 0
    && Inv(env, sys[at])
    && m == MoveOf(env, sys[at], e)
    && Follows(env, sys[at], e, m, n')
    && Speaks(env, sys[at], e, m, n')
    && Genuine(env, sys, e)
    && OneAssignment(env, sys)
    && forall k :: k in sys ==> CommitsBacked(sys[k])
  }

  /** A move keeps pre-prepares and votes of instances that stay above the low watermark. */
  lemma RecordsKept(env: Env, n: Node, e: Event, m: Move, n': Node, s: nat)
    requires env.Valid() && Follows(env, n, e, m, n') && WindowOk(env, n.st)
    requires s in n.st.log && s > n'.st.lowWatermark
    ensures s in n'.st.log && s > n.st.lowWatermark
    ensures n.st.HoldsPrePrepare(s) ==> n'.st.HoldsPrePrepare(s)
    ensures n.st.log[s].prepares.Keys <= n'.st.log[s].prepares.Keys
    ensures n.st.log[s].commits.Keys <= n'.st.log[s].commits.Keys
  {
  }

  lemma PrePreparesTakenStep(env: Env, sys: System, at: NodeId, e: Event, m: Move, n': Node)
    requires env.Valid() && FirstViewStep(env, sys, at, e, m, n') && PrePreparesTaken(env, sys[at])
    ensures PrePreparesTaken(env, n')
  {
    hide Step, Speaks, OneAssignment, LogOk, LogSigned, ExecutionOk, ViewChangesOk, NoLostAdvance;
    var n := sys[at];
    forall pp | PrePrepareMsg(pp) in n'.arrived && Proper(env, pp) && pp.sequence > n'.st.lowWatermark
      ensures n'.st.HoldsPrePrepare(pp.sequence)
    {
      if n.st.HoldsPrePrepare(pp.sequence) {
        RecordsKept(env, n, e, m, n', pp.sequence);
      } else {
        assert e == RecvPrePrepare(pp) && CheckPrePrepare(env, n.st, pp) == Accept;
      }
    }
  }

  /** A correct replica's prepare agrees with whatever pre-prepare the receiver holds. */
  lemma PrepareNotRefused(env: Env, sys: System, n: Node, p: Prepare)
    requires env.Valid() && OneAssignment(env, sys) && n.st.nodeId in sys && sys[n.st.nodeId] == n
    requires LogOk(env, n.st) && LogSigned(env, n) && n.st.view == 0 && n.st.InWindow(p.sequence)
    requires SignedVote(env, PrepareMsg(p)) && p.replicaId in sys
    requires PrepareData(0, p.sequence, p.digest) in sys[p.replicaId].signed
    ensures CheckPrepare(env, n.st, p) != Accept ==>
              p.sequence in n.st.log && p.replicaId in n.st.log[p.sequence].prepares
  {
    var s := p.sequence;
    assert SignedPrepare(sys[p.replicaId], s, p.digest);
    assert n.st.HoldsPrePrepare(s) ==> SignedPrepare(n, s, n.st.log[s].digest.value);
  }

  lemma CommitNotRefused(env: Env, sys: System, n: Node, c: Commit)
    requires env.Valid() && OneAssignment(env, sys) && n.st.nodeId in sys && sys[n.st.nodeId] == n
    requires LogOk(env, n.st) && LogSigned(env, n) && n.st.view == 0 && n.st.InWindow(c.sequence)
    requires SignedVote(env, CommitMsg(c)) && c.replicaId in sys && CommitsBacked(sys[c.replicaId])
    requires CommitData(0, c.sequence, c.digest) in sys[c.replicaId].signed
    ensures CheckCommit(env, n.st, c) != Accept ==>
              c.sequence in n.st.log && c.replicaId in n.st.log[c.sequence].commits
  {
    var s := c.sequence;
    assert SignedPrepare(sys[c.replicaId], s, c.digest);
    assert n.st.HoldsPrePrepare(s) ==> SignedPrepare(n, s, n.st.log[s].digest.value);
    assert s in n.st.log ==> InstanceOk(env, n.st.nodeId, s, n.st.log[s]);
  }

  lemma PreparesTakenStep(env: Env, sys: System, at: NodeId, e: Event, m: Move, n': Node)
    requires env.Valid() && FirstViewStep(env, sys, at, e, m, n') && PreparesTaken(env, sys, sys[at])
    ensures PreparesTaken(env, sys, n')
  {
    hide Step, Speaks, OneAssignment, LogOk, LogSigned;
    var n := sys[at];
    forall p: Prepare | PrepareMsg(p) in n'.arrived && SignedVote(env, PrepareMsg(p)) && p.replicaId in sys
      && p.sequence > n'.st.lowWatermark
      ensures p.sequence in n'.st.log && p.replicaId in n'.st.log[p.sequence].prepares
    {
      if PrepareMsg(p) !in n.arrived {
        assert e == RecvPrepare(p);
        PrepareNotRefused(env, sys, n, p);
      }
      if m != AddPrepare(p) {
        RecordsKept(env, n, e, m, n', p.sequence);
      }
    }
  }

  lemma CommitsTakenStep(env: Env, sys: System, at: NodeId, e: Event, m: Move, n': Node)
    requires env.Valid() && FirstViewStep(env, sys, at, e, m, n') && CommitsTaken(env, sys, sys[at])
    ensures CommitsTaken(env, sys, n')
  {
    hide Step, Speaks, OneAssignment, LogOk, LogSigned;
    var n := sys[at];
    forall c: Commit | CommitMsg(c) in n'.arrived && SignedVote(env, CommitMsg(c)) && c.replicaId in sys
      && c.sequence > n'.st.lowWatermark
      ensures c.sequence in n'.st.log && c.replicaId in n'.st.log[c.sequence].commits
    {
      if CommitMsg(c) !in n.arrived {
        assert e == RecvCommit(c);
        CommitNotRefused(env, sys, n, c);
      }
      if m != AddCommit(c) {
        RecordsKept(env, n, e, m, n', c.sequence);
      }
    }
  }

  // ---------- What a correct replica sends ----------

  /** The instance belongs to the first view, and what was prepared or committed was said. */
  ghost predicate AnnouncedAt(env: Env, sent: seq<Outgoing>, me: NodeId, s: nat, i: Instance) {
    && i.view == 0
    && (i.digest.Some? ==> Broadcast(PrepareMsg(MakePrepare(env, me, 0, s, i.digest.value))) in sent)
    && (i.digest.Some? && Rank(i.phase) >= Rank(Prepared) ==>
          Broadcast(CommitMsg(MakeCommit(env, me, 0, s, i.digest.value))) in sent)
  }

  ghost predicate Announced(env: Env, n: Node) {
    forall s :: s in n.st.log ==> AnnouncedAt(env, n.sent, n.st.nodeId, s, n.st.log[s])
  }

  lemma MovedAnnounced(env: Env, st: State, m: Move, e: Event, sent: seq<Outgoing>, s: nat)
    requires LogOk(env, st) && Guard(env, st, m) && st.view == 0 && s in Moved(env, st, m)
    requires s in st.log ==> AnnouncedAt(env, sent, st.nodeId, s, st.log[s])
    requires forall o :: o in Votes(env, st, m, e) ==> o in sent
    ensures AnnouncedAt(env, sent, st.nodeId, s, Moved(env, st, m)[s])
  {
    match m
    case Open(pp) => assert Broadcast(PrepareMsg(OwnPrepare(env, st, pp))) in Votes(env, st, m, e);
    case Certify(t) => assert Broadcast(CommitMsg(OwnCommit(env, st, t))) in Votes(env, st, m, e);
    case Finish(t) => assert InstanceOk(env, st.nodeId, t, st.log[t]);
    case _ =>
  }

  lemma AnnouncedGrows(env: Env, sent: seq<Outgoing>, sent': seq<Outgoing>, me: NodeId, s: nat, i: Instance)
    requires sent <= sent' && AnnouncedAt(env, sent, me, s, i)
    ensures AnnouncedAt(env, sent', me, s, i)
  {
  }

  lemma VotesAreSent(env: Env, n: Node, e: Event, m: Move, n': Node)
    requires env.Valid() && Guard(env, n.st, m) && Speaks(env, n, e, m, n')
    ensures n.sent <= n'.sent && forall o :: o in Votes(env, n.st, m, e) ==> o in n'.sent
  {
  }

  lemma AnnouncedStep(env: Env, n: Node, e: Event, m: Move, n': Node)
    requires env.Valid() && Follows(env, n, e, m, n') && Speaks(env, n, e, m, n')
    requires LogOk(env, n.st) && n.st.view == 0 && Announced(env, n)
    ensures Announced(env, n')
  {
    hide Origin, Moved, AnnouncedAt, LogOk, FollowUp;
    assert forall o :: o in Votes(env, n.st, m, e) ==> o in n'.sent by {
      VotesAreSent(env, n, e, m, n');
    }
    forall s | s in n'.st.log ensures AnnouncedAt(env, n'.sent, n.st.nodeId, s, n'.st.log[s]) {
      assert s in n.st.log ==> AnnouncedAt(env, n.sent, n.st.nodeId, s, n.st.log[s]);
      if s in n.st.log {
        AnnouncedGrows(env, n.sent, n'.sent, n.st.nodeId, s, n.st.log[s]);
      }
      MovedAnnounced(env, n.st, m, e, n'.sent, s);
    }
  }

  /** A replica only broadcasts pre-prepares of its own making, as the primary, and holds them. */
  ghost predicate OwnPrePrepares(env: Env, n: Node)
    requires env.Valid()
  {
    forall pp :: Broadcast(PrePrepareMsg(pp)) in n.sent ==>
      && pp == MakePrePrepare(env, n.st.nodeId, 0, pp.sequence, pp.request)
      && env.Primary(0) == n.st.nodeId
      && (pp.sequence > n.st.lowWatermark ==> n.st.HoldsPrePrepare(pp.sequence))
  }

  lemma OwnPrePreparesStep(env: Env, n: Node, e: Event, m: Move, n': Node)
    requires env.Valid() && Follows(env, n, e, m, n') && Speaks(env, n, e, m, n')
    requires WindowOk(env, n.st) && n.st.view == 0 && OwnPrePrepares(env, n)
    ensures OwnPrePrepares(env, n')
  {
    forall pp | Broadcast(PrePrepareMsg(pp)) in n'.sent && pp.sequence > n'.st.lowWatermark
      ensures n'.st.HoldsPrePrepare(pp.sequence)
    {
      if n.st.HoldsPrePrepare(pp.sequence) {
        RecordsKept(env, n, e, m, n', pp.sequence);
      }
    }
  }

  // ---------- In runs ----------

  ghost predicate Ready(env: Env, sys: System, n: Node)
    requires env.Valid()
  {
    && PrePreparesTaken(env, n)
    && PreparesTaken(env, sys, n)
    && CommitsTaken(env, sys, n)
    && Announced(env, n)
    && OwnPrePrepares(env, n)
  }

  lemma {:induction false} FirstViewStepInRun(env: Env, correct: set<NodeId>, run: Run) returns (m: Move)
    requires env.Valid() && env.Primary(0) in correct && run.Then? && run.at in correct
    requires Obeys(env, correct, STABLE_VIEW, run)
    ensures var sys' := After(env, correct, run);
            FirstViewStep(env, After(env, correct, run.before), run.at, run.event, m, sys'[run.at])
  {
    hide Step, MoveOf, Follows, Speaks;
    var Then(before, at, e) := run;
    var sys := After(env, correct, before);
    m := StepInRun(env, correct, run);
    FewerRules(env, correct, STABLE_VIEW, {NoNewView}, before);
    ViewStaysZero(env, correct, before, at);
    OneAssignmentInRuns(env, correct, before);
    assert Allowed(env, sys, at, e, Unforgeable);
    forall k | k in sys ensures sys[k].st.nodeId == k && Inv(env, sys[k]) {
      ReplicaInvariant(env, correct, before, k);
    }
  }

  lemma {:induction false} ReadyInRuns(env: Env, correct: set<NodeId>, run: Run, k: NodeId)
    requires env.Valid() && env.Primary(0) in correct && k in correct && Obeys(env, correct, STABLE_VIEW, run)
    ensures var sys := After(env, correct, run); Ready(env, sys, sys[k])
  {
    if run.Then? {
      var Then(before, at, e) := run;
      var sys, sys' := After(env, correct, before), After(env, correct, run);
      ReadyInRuns(env, correct, before, k);
      if at == k {
        var m := FirstViewStepInRun(env, correct, run);
        PrePreparesTakenStep(env, sys, at, e, m, sys'[k]);
        PreparesTakenStep(env, sys, at, e, m, sys'[k]);
        CommitsTakenStep(env, sys, at, e, m, sys'[k]);
        AnnouncedStep(env, sys[k], e, m, sys'[k]);
        OwnPrePreparesStep(env, sys[k], e, m, sys'[k]);
      }
    }
  }

  // ---------- Completion ----------

  predicate IsAbout(m: Message, s: nat) {
    match m
    case PrePrepareMsg(pp) => pp.sequence == s
    case PrepareMsg(p) => p.sequence == s
    case CommitMsg(c) => c.sequence == s
    case _ => false
  }

  /** What correct replicas have broadcast about the number has reached all other correct ones,
      when the number was not above their windows. */
  ghost predicate DeliveredAbout(sys: System, s: nat) {
    forall a, b, m ::
      a in sys && b in sys && a != b && Broadcast(m) in sys[a].sent && IsAbout(m, s) ==> m in sys[b].arrived
  }

  ghost predicate NoAdvancePending(sys: System, s: nat) {
    forall k :: k in sys ==> AdvancePrepared(s) !in sys[k].pending && AdvanceCommitted(s) !in sys[k].pending
  }

  ghost predicate AboveAllCheckpoints(sys: System, s: nat) {
    forall k :: k in sys ==> s > sys[k].st.lowWatermark
  }

  ghost predicate Holds(n: Node, s: nat, d: Hash) {
    s in n.st.log && n.st.log[s].digest == Some(d)
  }

  /** The primary's pre-prepare, once delivered, is held. */
  lemma PrePrepareHeld(env: Env, sys: System, k: NodeId, s: nat, d: Hash)
    requires env.Valid() && env.Primary(0) in sys && k in sys && SignaturesVerify(env, sys.Keys)
    requires var p := env.Primary(0);
             && sys[p].st.nodeId == p
             && OwnPrePrepares(env, sys[p]) && OwnPrePrepares(env, sys[k]) && PrePreparesTaken(env, sys[k])
             && Assigned(sys[p], 0, s, d)
    requires DeliveredAbout(sys, s) && AboveAllCheckpoints(sys, s)
    ensures sys[k].st.HoldsPrePrepare(s)
  {
    var p := env.Primary(0);
    var pp :| Broadcast(PrePrepareMsg(pp)) in sys[p].sent && pp.view == 0 && pp.sequence == s && pp.digest == d;
    if k != p {
      assert IsAbout(PrePrepareMsg(pp), s);
      assert PrePrepareMsg(pp) in sys[k].arrived;
      assert Proper(env, pp);
    }
  }

  lemma {:induction false} EveryoneHolds(env: Env, correct: set<NodeId>, run: Run, s: nat, d: Hash, k: NodeId)
    requires env.Valid() && env.Primary(0) in correct && SignaturesVerify(env, correct) && k in correct
    requires Obeys(env, correct, STABLE_VIEW, run)
    requires var sys := After(env, correct, run);
             && Assigned(sys[env.Primary(0)], 0, s, d)
             && DeliveredAbout(sys, s)
             && AboveAllCheckpoints(sys, s)
    ensures Holds(After(env, correct, run)[k], s, d)
  {
    var sys, p := After(env, correct, run), env.Primary(0);
    ReadyInRuns(env, correct, run, p);
    ReadyInRuns(env, correct, run, k);
    ReplicaInvariant(env, correct, run, k);
    ReplicaInvariant(env, correct, run, p);
    PrePrepareHeld(env, sys, k, s, d);
    assert InstanceOk(env, k, s, sys[k].st.log[s]);
    var d' := sys[k].st.log[s].digest.value;
    assert Recorded(env, sys[k], s, d');
    RecordedIsAssigned(env, correct, run, k, s, d');
  }

  /** A correct replica's prepare, once delivered, is held by every other. */
  lemma PrepareHeld(env: Env, sys: System, k: NodeId, j: NodeId, s: nat, d: Hash)
    requires k in sys && j in sys && sys[k].st.nodeId == k && sys[j].st.nodeId == j
    requires SignaturesVerify(env, sys.Keys) && DeliveredAbout(sys, s) && AboveAllCheckpoints(sys, s)
    requires LogOk(env, sys[k].st) && PreparesTaken(env, sys, sys[k]) && Announced(env, sys[j])
    requires Holds(sys[k], s, d) && Holds(sys[j], s, d)
    ensures j in sys[k].st.log[s].prepares
  {
    assert InstanceOk(env, k, s, sys[k].st.log[s]);
    if j != k {
      assert AnnouncedAt(env, sys[j].sent, j, s, sys[j].st.log[s]);
      var vote := PrepareMsg(MakePrepare(env, j, 0, s, d));
      assert Broadcast(vote) in sys[j].sent && IsAbout(vote, s);
      assert SignedVote(env, vote);
    }
  }

  lemma CommitHeld(env: Env, sys: System, k: NodeId, j: NodeId, s: nat, d: Hash)
    requires k in sys && j in sys && sys[k].st.nodeId == k && sys[j].st.nodeId == j
    requires SignaturesVerify(env, sys.Keys) && DeliveredAbout(sys, s) && AboveAllCheckpoints(sys, s)
    requires LogOk(env, sys[k].st) && CommitsTaken(env, sys, sys[k]) && Announced(env, sys[j])
    requires Holds(sys[k], s, d) && Rank(sys[k].st.log[s].phase) >= Rank(Prepared)
    requires Holds(sys[j], s, d) && Rank(sys[j].st.log[s].phase) >= Rank(Prepared)
    ensures j in sys[k].st.log[s].commits
  {
    assert InstanceOk(env, k, s, sys[k].st.log[s]);
    if j != k {
      assert AnnouncedAt(env, sys[j].sent, j, s, sys[j].st.log[s]);
      var vote := CommitMsg(MakeCommit(env, j, 0, s, d));
      assert Broadcast(vote) in sys[j].sent && IsAbout(vote, s);
      assert SignedVote(env, vote);
    }
  }

  lemma {:induction false} ReadyAndOk(env: Env, correct: set<NodeId>, run: Run, k: NodeId)
    requires env.Valid() && env.Primary(0) in correct && k in correct && Obeys(env, correct, STABLE_VIEW, run)
    ensures var sys := After(env, correct, run);
            && sys[k].st.nodeId == k && LogOk(env, sys[k].st) && NoLostAdvance(env, sys[k])
            && PreparesTaken(env, sys, sys[k]) && CommitsTaken(env, sys, sys[k]) && Announced(env, sys[k])
  {
    ReadyInRuns(env, correct, run, k);
    ReplicaInvariant(env, correct, run, k);
  }

  /** An instance with a quorum of prepares, and of commits, that nothing is pending for. */
  lemma QuietAdvanced(env: Env, n: Node, s: nat)
    requires s in n.st.log && InstanceOk(env, n.st.nodeId, s, n.st.log[s]) && NoLostAdvanceAt(env, n, s)
    requires AdvancePrepared(s) !in n.pending && AdvanceCommitted(s) !in n.pending
    requires n.st.log[s].digest.Some? && |n.st.log[s].prepares| >= env.config.Quorum()
    ensures Rank(n.st.log[s].phase) >= Rank(Prepared)
    ensures |n.st.log[s].commits| >= env.config.Quorum() ==> n.st.log[s].phase == Committed
  {
  }

  lemma InstanceFacts(env: Env, n: Node, s: nat)
    requires LogOk(env, n.st) && NoLostAdvance(env, n) && s in n.st.log
    ensures InstanceOk(env, n.st.nodeId, s, n.st.log[s]) && NoLostAdvanceAt(env, n, s)
  {
  }

  lemma CommittedIsExecuted(env: Env, n: Node, s: nat, d: Hash)
    requires env.Valid() && Inv(env, n) && Holds(n, s, d) && n.st.log[s].phase == Committed
    ensures d in n.st.executed
  {
    assert Decision(s, d) in n.decided;
  }

  lemma {:induction false} EveryonePrepares(env: Env, correct: set<NodeId>, run: Run, s: nat, d: Hash, k: NodeId)
    requires env.Valid() && env.Primary(0) in correct && SignaturesVerify(env, correct) && k in correct
    requires Obeys(env, correct, STABLE_VIEW, run) && |correct| >= env.config.Quorum()
    requires var sys := After(env, correct, run);
             && Assigned(sys[env.Primary(0)], 0, s, d)
             && DeliveredAbout(sys, s)
             && AboveAllCheckpoints(sys, s)
             && NoAdvancePending(sys, s)
    ensures var n := After(env, correct, run)[k]; Holds(n, s, d) && Rank(n.st.log[s].phase) >= Rank(Prepared)
  {
    hide Step, After, Obeys, LogOk, NoLostAdvance, PreparesTaken, CommitsTaken, Announced, SignaturesVerify,
      DeliveredAbout, Assigned;
    var sys := After(env, correct, run);
    EveryoneHolds(env, correct, run, s, d, k);
    ReadyAndOk(env, correct, run, k);
    var i := sys[k].st.log[s];
    forall j | j in correct ensures j in i.prepares {
      EveryoneHolds(env, correct, run, s, d, j);
      ReadyAndOk(env, correct, run, j);
      PrepareHeld(env, sys, k, j, s, d);
    }
    Quorums.SubsetSize(correct, i.prepares.Keys);
    assert |i.prepares.Keys| == |i.prepares|;
    InstanceFacts(env, sys[k], s);
    QuietAdvanced(env, sys[k], s);
  }

  /** Completion. If the primary and a quorum are correct, the view has not changed and no stable
      checkpoint has reached the number, then in every state in which the messages among the
      correct replicas about an assigned number are delivered and no advance is pending, every
      correct replica has committed it with the assigned digest, and executed the digest. */
  lemma {:induction false} EveryoneCommits(env: Env, correct: set<NodeId>, run: Run, s: nat, d: Hash, k: NodeId)
    requires env.Valid() && env.Primary(0) in correct && SignaturesVerify(env, correct) && k in correct
    requires Obeys(env, correct, STABLE_VIEW, run) && |correct| >= env.config.Quorum()
    requires var sys := After(env, correct, run);
             && Assigned(sys[env.Primary(0)], 0, s, d)
             && DeliveredAbout(sys, s)
             && AboveAllCheckpoints(sys, s)
             && NoAdvancePending(sys, s)
    ensures var n := After(env, correct, run)[k];
            Holds(n, s, d) && n.st.log[s].phase == Committed && d in n.st.executed
  {
    hide Step, After, Obeys, LogOk, NoLostAdvance, PreparesTaken, CommitsTaken, Announced, SignaturesVerify,
      DeliveredAbout, Assigned, Inv;
    var sys := After(env, correct, run);
    EveryonePrepares(env, correct, run, s, d, k);
    ReadyAndOk(env, correct, run, k);
    var i := sys[k].st.log[s];
    forall j | j in correct ensures j in i.commits {
      EveryonePrepares(env, correct, run, s, d, j);
      ReadyAndOk(env, correct, run, j);
      CommitHeld(env, sys, k, j, s, d);
    }
    Quorums.SubsetSize(correct, i.commits.Keys);
    assert |i.commits.Keys| == |i.commits|;
    InstanceFacts(env, sys[k], s);
    QuietAdvanced(env, sys[k], s);
    ReplicaInvariant(env, correct, run, k);
    CommittedIsExecuted(env, sys[k], s, d);
  }
}
