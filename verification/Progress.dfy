/** How many deliveries completion takes: as long as a number is not committed everywhere there
    is a message between correct replicas to deliver or an advance to run, and the number of
    deliveries that bring a correct replica something it lacks is bounded. */
module Progress {
  import opened Messages
  import opened Protocol
  import opened Moves
  import opened Records
  import opened Runs
  import opened Signing
  import opened HonestPrimary
  import opened Completion
  import Quorums

  // ---------- What correct replicas say about a number ----------

  ghost function Prepares(env: Env, correct: set<NodeId>, pp: PrePrepare): set<Message> {
    set j | j in correct :: PrepareMsg(MakePrepare(env, j, 0, pp.sequence, pp.digest))
  }

  ghost function Commits(env: Env, correct: set<NodeId>, pp: PrePrepare): set<Message> {
    set j | j in correct :: CommitMsg(MakeCommit(env, j, 0, pp.sequence, pp.digest))
  }

  ghost function Traffic(env: Env, correct: set<NodeId>, pp: PrePrepare): set<Message> {
    {PrePrepareMsg(pp)} + Prepares(env, correct, pp) + Commits(env, correct, pp)
  }

  /** What a correct replica broadcasts it has made and signed. */
  ghost predicate OwnPrepares(env: Env, n: Node) {
    forall p: Prepare :: Broadcast(PrepareMsg(p)) in n.sent ==>
      p == MakePrepare(env, n.st.nodeId, 0, p.sequence, p.digest) && PrepareData(0, p.sequence, p.digest) in n.signed
  }

  ghost predicate OwnCommits(env: Env, n: Node) {
    forall c: Commit :: Broadcast(CommitMsg(c)) in n.sent ==>
      c == MakeCommit(env, n.st.nodeId, 0, c.sequence, c.digest) && CommitData(0, c.sequence, c.digest) in n.signed
  }

  /** And it broadcasts one pre-prepare for a number. */
  ghost predicate OneProposal(n: Node) {
    && (forall pp :: Broadcast(PrePrepareMsg(pp)) in n.sent ==> pp.sequence <= n.st.sequence)
    && (forall a: PrePrepare, b: PrePrepare ::
          Broadcast(PrePrepareMsg(a)) in n.sent && Broadcast(PrePrepareMsg(b)) in n.sent && a.sequence == b.sequence
          ==> a == b)
  }

  ghost predicate OwnBroadcasts(env: Env, n: Node) {
    OwnPrepares(env, n) && OwnCommits(env, n) && OneProposal(n)
  }

  lemma OwnPreparesStep(env: Env, n: Node, e: Event, m: Move, n': Node)
    requires env.Valid() && Guard(env, n.st, m) && Speaks(env, n, e, m, n') && n'.st.nodeId == n.st.nodeId
    requires n.st.view == 0 && OwnPrepares(env, n)
    ensures OwnPrepares(env, n')
  {
    NewVotes(env, n, e, m, n');
    assert m.Open? ==> PrepareData(0, m.prePrepare.sequence, m.prePrepare.digest) in SignedBy(env, n.st, m);
  }

  lemma OwnCommitsStep(env: Env, n: Node, e: Event, m: Move, n': Node)
    requires env.Valid() && Guard(env, n.st, m) && Speaks(env, n, e, m, n') && n'.st.nodeId == n.st.nodeId
    requires Announced(env, n) && OwnCommits(env, n)
    ensures OwnCommits(env, n')
  {
    NewVotes(env, n, e, m, n');
    if m.Certify? {
      var i := n.st.log[m.sequence];
      assert AnnouncedAt(env, n.sent, n.st.nodeId, m.sequence, i);
      assert CommitData(0, m.sequence, i.digest.value) in SignedBy(env, n.st, m);
    }
  }

  lemma OneProposalStep(env: Env, n: Node, e: Event, m: Move, n': Node)
    requires env.Valid() && Follows(env, n, e, m, n') && Speaks(env, n, e, m, n') && OneProposal(n)
    ensures OneProposal(n')
  {
    NewVotes(env, n, e, m, n');
  }

  lemma OwnBroadcastsStep(env: Env, n: Node, e: Event, m: Move, n': Node)
    requires env.Valid() && Follows(env, n, e, m, n') && Speaks(env, n, e, m, n')
    requires n.st.view == 0 && Announced(env, n) && OwnBroadcasts(env, n)
    ensures OwnBroadcasts(env, n')
  {
    hide Speaks, Announced, Origin, Moved, Guard, OwnPrepares, OwnCommits, OneProposal;
    OwnPreparesStep(env, n, e, m, n');
    OwnCommitsStep(env, n, e, m, n');
    OneProposalStep(env, n, e, m, n');
  }

  lemma {:induction false} OwnBroadcastsInRuns(env: Env, correct: set<NodeId>, run: Run, k: NodeId)
    requires env.Valid() && env.Primary(0) in correct && k in correct && Obeys(env, correct, STABLE_VIEW, run)
    ensures OwnBroadcasts(env, After(env, correct, run)[k])
  {
    if run.Then? {
      var Then(before, at, e) := run;
      OwnBroadcastsInRuns(env, correct, before, k);
      if at == k {
        var m := FirstViewStepInRun(env, correct, run);
        ReadyInRuns(env, correct, before, k);
        OwnBroadcastsStep(env, After(env, correct, before)[k], e, m, After(env, correct, run)[k]);
      }
    }
  }

  /** The primary has broadcast the pre-prepare. */
  ghost predicate Issued(env: Env, sys: System, pp: PrePrepare)
    requires env.Valid() && env.Primary(0) in sys
  {
    Broadcast(PrePrepareMsg(pp)) in sys[env.Primary(0)].sent
  }

  /** Once a pre-prepare has been issued, correct replicas say nothing else about its number. */
  lemma {:induction false} BroadcastsAreTraffic(env: Env, correct: set<NodeId>, run: Run, pp: PrePrepare, a: NodeId,
                                                m: Message)
    requires env.Valid() && env.Primary(0) in correct && a in correct && Obeys(env, correct, STABLE_VIEW, run)
    requires Issued(env, After(env, correct, run), pp)
    requires Broadcast(m) in After(env, correct, run)[a].sent && IsAbout(m, pp.sequence)
    ensures m in Traffic(env, correct, pp)
  {
    var sys, p := After(env, correct, run), env.Primary(0);
    ReplicaInvariant(env, correct, run, a);
    ReplicaInvariant(env, correct, run, p);
    ReadyInRuns(env, correct, run, a);
    ReadyInRuns(env, correct, run, p);
    OwnBroadcastsInRuns(env, correct, run, a);
    OwnBroadcastsInRuns(env, correct, run, p);
    AssignmentsSigned(env, correct, run, p);
    assert Assigned(sys[p], 0, pp.sequence, pp.digest);
    assert Recorded(env, sys[p], pp.sequence, pp.digest);
    if m.PrepareMsg? {
      assert SignedPrepare(sys[a], pp.sequence, m.prepare.digest);
      assert Recorded(env, sys[a], pp.sequence, m.prepare.digest);
      AgreementWithCorrectPrimary(env, correct, run, a, p, pp.sequence, m.prepare.digest, pp.digest);
    } else if m.CommitMsg? {
      assert CommitData(0, pp.sequence, m.commit.digest) in sys[a].signed;
      assert SignedPrepare(sys[a], pp.sequence, m.commit.digest);
      AgreementWithCorrectPrimary(env, correct, run, a, p, pp.sequence, m.commit.digest, pp.digest);
    }
  }

  // ---------- Deliveries ----------

  /** What correct replicas have not been handed yet. */
  ghost function Outstanding(env: Env, sys: System, pp: PrePrepare): set<(NodeId, Message)> {
    set b, m | b in sys.Keys && m in Traffic(env, sys.Keys, pp) && m !in sys[b].arrived :: (b, m)
  }

  lemma {:induction false} TrafficSize(env: Env, correct: set<NodeId>, pp: PrePrepare)
    ensures |Prepares(env, correct, pp)| <= |correct| && |Commits(env, correct, pp)| <= |correct|
    decreases |correct|
  {
    if correct == {} {
      assert Prepares(env, correct, pp) == {} && Commits(env, correct, pp) == {};
    } else {
      var k :| k in correct;
      var rest := correct - {k};
      TrafficSize(env, rest, pp);
      assert Prepares(env, correct, pp)
          == Prepares(env, rest, pp) + {PrepareMsg(MakePrepare(env, k, 0, pp.sequence, pp.digest))};
      assert Commits(env, correct, pp)
          == Commits(env, rest, pp) + {CommitMsg(MakeCommit(env, k, 0, pp.sequence, pp.digest))};
    }
  }

  function DeliveryBound(h: nat): nat {
    h * (1 + 2 * h)
  }

  lemma MoreTimes(a: nat, b: nat, c: nat)
    requires b <= c
    ensures a * b <= a * c
  {
  }

  lemma OutstandingBound(env: Env, sys: System, pp: PrePrepare)
    ensures |Outstanding(env, sys, pp)| <= DeliveryBound(|sys.Keys|)
  {
    var traffic := Traffic(env, sys.Keys, pp);
    TrafficSize(env, sys.Keys, pp);
    Quorums.PairsSize(sys.Keys, traffic);
    Quorums.SubsetSize(Outstanding(env, sys, pp), Quorums.Pairs(sys.Keys, traffic));
    MoreTimes(|sys.Keys|, |traffic|, 1 + 2 * |sys.Keys|);
  }

  /** The steps since `earlier` that handed a correct replica something outstanding. */
  ghost function UsefulDeliveries(env: Env, correct: set<NodeId>, run: Run, earlier: Run, pp: PrePrepare): nat
    requires env.Valid()
  {
    if run == earlier || run.Start? then 0
    else
      UsefulDeliveries(env, correct, run.before, earlier, pp)
      + if Outstanding(env, After(env, correct, run), pp) != Outstanding(env, After(env, correct, run.before), pp)
        then 1 else 0
  }

  lemma {:induction false} OutstandingShrinks(env: Env, correct: set<NodeId>, run: Run, pp: PrePrepare)
    requires env.Valid() && run.Then?
    ensures Outstanding(env, After(env, correct, run), pp) <= Outstanding(env, After(env, correct, run.before), pp)
  {
    hide Step, MoveOf, Moved, Origin, Speaks, Inv;
    if run.at in correct {
      var m := StepInRun(env, correct, run);
    }
  }

  /** Every delivery of an outstanding message, to a replica whose window it is not above, counts. */
  lemma {:induction false} DeliveryIsUseful(env: Env, correct: set<NodeId>, run: Run, pp: PrePrepare, b: NodeId,
                                            m: Message)
    requires env.Valid() && b in correct
    requires var sys := After(env, correct, run);
             (b, m) in Outstanding(env, sys, pp) && pp.sequence <= sys[b].st.highWatermark
    requires IsAbout(m, pp.sequence)
    ensures (b, m) !in Outstanding(env, After(env, correct, Then(run, b, EventOf(m))), pp)
  {
    StepMoves(env, After(env, correct, run)[b], EventOf(m));
  }

  lemma ShrinkingCounts<T>(before: set<T>, after: set<T>)
    requires after <= before
    ensures |after| + (if after != before then 1 else 0) <= |before|
  {
    assert before == after + (before - after);
    if before - after == {} {
      assert after == before;
    }
  }

  /** No run has more useful deliveries for a number than h * (1 + 2h), for h correct replicas. */
  lemma {:induction false} DeliveriesBounded(env: Env, correct: set<NodeId>, run: Run, earlier: Run, pp: PrePrepare)
    requires env.Valid()
    ensures UsefulDeliveries(env, correct, run, earlier, pp) + |Outstanding(env, After(env, correct, run), pp)|
         <= DeliveryBound(|correct|)
  {
    if run == earlier || run.Start? {
      OutstandingBound(env, After(env, correct, run), pp);
    } else {
      var before := Outstanding(env, After(env, correct, run.before), pp);
      var after := Outstanding(env, After(env, correct, run), pp);
      DeliveriesBounded(env, correct, run.before, earlier, pp);
      OutstandingShrinks(env, correct, run, pp);
      ShrinkingCounts(before, after);
    }
  }

  /** Until the number is committed everywhere, an advance is pending or a correct replica has
      broadcast something outstanding at another. */
  lemma {:induction false} SomethingToDo(env: Env, correct: set<NodeId>, run: Run, pp: PrePrepare, k: NodeId)
    requires env.Valid() && env.Primary(0) in correct && SignaturesVerify(env, correct) && k in correct
    requires Obeys(env, correct, STABLE_VIEW, run) && |correct| >= env.config.Quorum()
    requires var sys := After(env, correct, run);
             && Issued(env, sys, pp)
             && AboveAllCheckpoints(sys, pp.sequence)
             && NoAdvancePending(sys, pp.sequence)
             && !(Holds(sys[k], pp.sequence, pp.digest) && sys[k].st.log[pp.sequence].phase == Committed)
    ensures var sys := After(env, correct, run);
            exists a, b, m :: a in sys && b in sys && a != b && Broadcast(m) in sys[a].sent
                              && (b, m) in Outstanding(env, sys, pp)
  {
    var sys, s := After(env, correct, run), pp.sequence;
    ReadyInRuns(env, correct, run, env.Primary(0));
    assert Assigned(sys[env.Primary(0)], 0, s, pp.digest);
    if DeliveredAbout(sys, s) {
      EveryoneCommits(env, correct, run, s, pp.digest, k);
    }
    var a, b, m :| a in sys && b in sys && a != b && Broadcast(m) in sys[a].sent && IsAbout(m, s)
      && m !in sys[b].arrived;
    BroadcastsAreTraffic(env, correct, run, pp, a, m);
    assert (b, m) in Outstanding(env, sys, pp);
  }
}
