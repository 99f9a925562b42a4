/** What every correct replica guarantees by itself, in every run: no rule is assumed of the
    network, of the other replicas or of the interleaving. */
module Guarantees {
  import opened Messages
  import opened Protocol
  import opened Moves
  import opened Invariant
  import opened Records
  import opened Runs

  // ---------- Phases ----------

  /** Unwrapping the digest never fails: where the handlers have tested what they test, the
      digest and the request are there. */
  lemma {:induction false} UnwrapsSucceed(env: Env, correct: set<NodeId>, run: Run, k: NodeId, s: nat)
    requires env.Valid() && k in correct
    ensures var st := After(env, correct, run)[k].st;
            s in st.log && (st.log[s].prePrepare.Some? || Rank(st.log[s].phase) > 0) ==>
              && st.log[s].digest.Some?
              && st.log[s].request.Some?
              && st.log[s].digest.value == env.digest(st.log[s].request.value)
  {
    ReplicaInvariant(env, correct, run, k);
  }

  /** The phase that the recorded messages call for. */
  function PhaseFor(env: Env, i: Instance): Phase {
    if i.prePrepare.None? then Idle
    else if |i.prepares| < env.config.Quorum() then PrePrepared
    else if |i.commits| < env.config.Quorum() then Prepared
    else Committed
  }

  /** No advance is lost: an instance that has not got as far as its messages call for has an
      advance pending; so when none is pending, the phase is exactly what they call for. */
  lemma {:induction false} PhaseCatchesUp(env: Env, correct: set<NodeId>, run: Run, k: NodeId, s: nat)
    requires env.Valid() && k in correct && s in After(env, correct, run)[k].st.log
    ensures var n := After(env, correct, run)[k];
            var i := n.st.log[s];
            && Rank(i.phase) <= Rank(PhaseFor(env, i))
            && (i.phase != PhaseFor(env, i) ==> AdvancePrepared(s) in n.pending || AdvanceCommitted(s) in n.pending)
  {
    hide Step, ExecutionOk, ViewChangesOk, LogSigned, CommitsBacked, ExecutionsDecided, CheckpointsEarned, WindowOk;
    ReplicaInvariant(env, correct, run, k);
    var n := After(env, correct, run)[k];
    assert InstanceOk(env, k, s, n.st.log[s]) && NoLostAdvanceAt(env, n, s);
  }

  // ---------- Execution ----------

  /** At most once: no two requests sent to the application share a digest, even if one request
      is ordered at several sequence numbers; and the executed digests are exactly those of the
      requests that were sent or are about to be. */
  lemma {:induction false} ExecutesAtMostOnce(env: Env, correct: set<NodeId>, run: Run, k: NodeId)
    requires env.Valid() && k in correct
    ensures var n := After(env, correct, run)[k];
            && (forall i, j :: 0 <= i < j < |n.delivered| ==>
                  env.digest(n.delivered[i].request) != env.digest(n.delivered[j].request))
            && (forall h :: h in n.st.executed <==> Delivered(env, n, h) || BeingDelivered(env, n, h))
            && (forall h :: !(Delivered(env, n, h) && BeingDelivered(env, n, h)))
  {
    ReplicaInvariant(env, correct, run, k);
  }

  // ---------- Own votes ----------

  /** A pre-prepared instance holds the replica's own prepare for that pre-prepare, a prepared one its own
      commit for the digest in the instance's view. */
  ghost predicate OwnVotesIn(env: Env, me: NodeId, s: nat, i: Instance) {
    && (i.prePrepare.Some? ==>
          var pp := i.prePrepare.value;
          && me in i.prepares
          && i.prepares[me] == Prepare(pp.view, s, pp.digest, me, env.sign(me, PrepareData(pp.view, s, pp.digest))))
    && (i.phase in {Prepared, Committed} && i.digest.Some? ==>
          var d := i.digest.value;
          && me in i.commits
          && i.commits[me] == Commit(i.view, s, d, me, env.sign(me, CommitData(i.view, s, d))))
  }

  /** And they have been broadcast as they are. */
  ghost predicate OwnVotesSent(sent: seq<Outgoing>, me: NodeId, i: Instance) {
    && (i.prePrepare.Some? && me in i.prepares ==> Broadcast(PrepareMsg(i.prepares[me])) in sent)
    && (i.phase in {Prepared, Committed} && me in i.commits ==> Broadcast(CommitMsg(i.commits[me])) in sent)
  }

  ghost predicate OwnVotesFiled(env: Env, n: Node, s: nat) {
    s in n.st.log ==>
      OwnVotesIn(env, n.st.nodeId, s, n.st.log[s]) && OwnVotesSent(n.sent, n.st.nodeId, n.st.log[s])
  }

  lemma NewInstanceEmpty(env: Env, n: Node, s: nat)
    requires LogOk(env, n.st)
    ensures InstanceOk(env, n.st.nodeId, s, n.st.InstanceAt(s))
    ensures s !in n.st.log ==>
              var i := n.st.InstanceAt(s); OwnVotesIn(env, n.st.nodeId, s, i) && OwnVotesSent(n.sent, n.st.nodeId, i)
  {
  }

  lemma OwnVotesMoved(env: Env, st: State, m: Move, s: nat)
    requires Guard(env, st, m) && s in Moved(env, st, m) && InstanceOk(env, st.nodeId, s, st.InstanceAt(s))
    requires OwnVotesIn(env, st.nodeId, s, st.InstanceAt(s))
    ensures OwnVotesIn(env, st.nodeId, s, Moved(env, st, m)[s])
  {
  }

  /** A move that sends no prepare or commit replaces none of the replica's own. */
  lemma OwnVotesKept(env: Env, st: State, m: Move, s: nat, sent: seq<Outgoing>)
    requires Guard(env, st, m) && s in Moved(env, st, m) && InstanceOk(env, st.nodeId, s, st.InstanceAt(s))
    requires !(m.Open? && m.prePrepare.sequence == s) && m != Certify(s)
    requires OwnVotesSent(sent, st.nodeId, st.InstanceAt(s))
    ensures OwnVotesSent(sent, st.nodeId, Moved(env, st, m)[s])
  {
  }

  lemma OwnVotesBroadcast(env: Env, st: State, m: Move, s: nat, sent: seq<Outgoing>)
    requires Guard(env, st, m) && s in Moved(env, st, m) && InstanceOk(env, st.nodeId, s, st.InstanceAt(s))
    requires (m.Open? && m.prePrepare.sequence == s) || m == Certify(s)
    requires OwnVotesSent(sent, st.nodeId, st.InstanceAt(s))
    requires m.Open? ==> Broadcast(PrepareMsg(OwnPrepare(env, st, m.prePrepare))) in sent
    requires m.Certify? ==> Broadcast(CommitMsg(OwnCommit(env, st, s))) in sent
    ensures OwnVotesSent(sent, st.nodeId, Moved(env, st, m)[s])
  {
  }

  lemma OwnVotesSentStep(env: Env, n: Node, e: Event, m: Move, n': Node, s: nat)
    requires env.Valid() && Guard(env, n.st, m) && Speaks(env, n, e, m, n') && s in Moved(env, n.st, m)
    requires InstanceOk(env, n.st.nodeId, s, n.st.InstanceAt(s))
    requires OwnVotesSent(n.sent, n.st.nodeId, n.st.InstanceAt(s))
    ensures OwnVotesSent(n'.sent, n.st.nodeId, Moved(env, n.st, m)[s])
  {
    hide Guard, Moved, InstanceOk;
    NewVotes(env, n, e, m, n');
    if (m.Open? && m.prePrepare.sequence == s) || m == Certify(s) {
      OwnVotesBroadcast(env, n.st, m, s, n'.sent);
    } else {
      OwnVotesKept(env, n.st, m, s, n'.sent);
    }
  }

  lemma OwnVotesFiledStep(env: Env, n: Node, e: Event, m: Move, n': Node, s: nat)
    requires env.Valid() && LogOk(env, n.st) && Follows(env, n, e, m, n') && Speaks(env, n, e, m, n')
    requires OwnVotesFiled(env, n, s)
    ensures OwnVotesFiled(env, n', s)
  {
    NewInstanceEmpty(env, n, s);
    hide Speaks, Origin, Guard, Moved, OwnVotesIn, OwnVotesSent, InstanceOk;
    if s in n'.st.log {
      OwnVotesMoved(env, n.st, m, s);
      OwnVotesSentStep(env, n, e, m, n', s);
    }
  }

  lemma NoOwnVotes(env: Env, k: NodeId, s: nat)
    ensures OwnVotesFiled(env, InitialNode(env, k), s)
  {
  }

  /** In every run. In particular a vote that came in under the replica's own name does not stay in
      place of its own. */
  lemma {:induction false} OwnVotesInRuns(env: Env, correct: set<NodeId>, run: Run, k: NodeId, s: nat)
    requires env.Valid() && k in correct
    ensures OwnVotesFiled(env, After(env, correct, run)[k], s)
  {
    hide Step, MoveOf, Follows, Speaks, Inv, LogOk, WindowOk, LogSigned, OwnVotesFiled;
    if run.Then? {
      OwnVotesInRuns(env, correct, run.before, k, s);
      if run.at == k {
        var m := StepInRun(env, correct, run);
        OwnVotesFiledStep(env, After(env, correct, run.before)[k], run.event, m, After(env, correct, run)[k], s);
      }
    } else {
      NoOwnVotes(env, k, s);
    }
  }

  // ---------- View changes ----------

  /** A new view announced by the replica: it is that view's primary, and the announcement
      carries the view changes of a quorum of distinct replicas, all for that view. */
  ghost predicate NewViewJustified(env: Env, me: NodeId, nv: NewView)
    requires env.Valid()
  {
    && nv.primaryId == me == env.Primary(nv.newView)
    && |nv.viewChanges| >= env.config.Quorum()
    && (forall vc :: vc in nv.viewChanges ==> vc.newView == nv.newView)
    && (forall vc, vc' :: vc in nv.viewChanges && vc' in nv.viewChanges && vc.replicaId == vc'.replicaId ==> vc == vc')
  }

  ghost predicate NewViewsJustified(env: Env, n: Node)
    requires env.Valid()
  {
    forall o :: o in n.sent && o.message.NewViewMsg? ==> NewViewJustified(env, n.st.nodeId, o.message.newView)
  }

  /** View changes filed under their senders are as many as their senders. */
  lemma {:induction false} FiledVotesDistinct(votes: map<NodeId, ViewChange>)
    requires forall k :: k in votes ==> votes[k].replicaId == k
    ensures |votes.Values| == |votes|
    decreases |votes|
  {
    if votes.Keys != {} {
      var k :| k in votes;
      var rest := votes - {k};
      FiledVotesDistinct(rest);
      assert rest.Keys == votes.Keys - {k};
      forall v ensures v in votes.Values <==> v in rest.Values + {votes[k]} {
        if v in votes.Values {
          var j :| j in votes && votes[j] == v;
          assert j != k ==> j in rest && rest[j] == v;
        }
      }
      assert votes.Values == rest.Values + {votes[k]};
      assert votes[k] !in rest.Values;
    } else {
      assert votes.Values == {};
    }
  }

  /** What a replica announces when a view change reaches it, and that the view is above its own. */
  lemma NewViewFromVotes(env: Env, n: Node, vc: ViewChange)
    requires env.Valid() && ViewChangesOk(env, n.st)
    ensures var n' := HandleViewChange(env, n, vc);
            forall i :: |n.sent| <= i < |n'.sent| ==>
              && n'.sent[i].Broadcast?
              && n'.sent[i].message.NewViewMsg?
              && NewViewJustified(env, n.st.nodeId, n'.sent[i].message.newView)
              && n'.sent[i].message.newView.newView > n.st.view
  {
    if vc.newView > n.st.view {
      ViewChangesOkVote(env, n, vc);
      FiledVotesDistinct(WithViewChange(n.st, vc)[vc.newView]);
    }
  }

  /** What is announced between two states of a replica is above its view in the first. */
  ghost predicate AnnouncesLater(n: Node, n': Node) {
    forall i :: |n.sent| <= i < |n'.sent| && n'.sent[i].message.NewViewMsg? ==>
      n'.sent[i].message.newView.newView > n.st.view
  }

  lemma NewViewsJustifiedStep(env: Env, n: Node, e: Event, m: Move)
    requires env.Valid() && ViewChangesOk(env, n.st) && NewViewsJustified(env, n)
    requires Guard(env, n.st, m) && Speaks(env, n, e, m, Step(env, n, e))
    requires Step(env, n, e).st.nodeId == n.st.nodeId
    ensures NewViewsJustified(env, Step(env, n, e)) && AnnouncesLater(n, Step(env, n, e))
  {
    var n' := Step(env, n, e);
    if e.RecvViewChange? {
      NewViewFromVotes(env, n, e.viewChange);
    }
    forall o | o in n'.sent && o.message.NewViewMsg? ensures NewViewJustified(env, n.st.nodeId, o.message.newView) {
      var i :| 0 <= i < |n'.sent| && n'.sent[i] == o;
      assert i < |n.sent| ==> o in n.sent;
    }
  }

  /** Whenever the replica has announced a view, that was above its view. */
  ghost predicate AlwaysAnnouncesLater(env: Env, correct: set<NodeId>, run: Run, k: NodeId)
    requires env.Valid() && k in correct
  {
    run.Then? ==>
      && AlwaysAnnouncesLater(env, correct, run.before, k)
      && AnnouncesLater(After(env, correct, run.before)[k], After(env, correct, run)[k])
  }

  lemma {:induction false} NewViewsJustifiedInRuns(env: Env, correct: set<NodeId>, run: Run, k: NodeId)
    requires env.Valid() && k in correct
    ensures NewViewsJustified(env, After(env, correct, run)[k]) && AlwaysAnnouncesLater(env, correct, run, k)
  {
    hide Step, MoveOf, Moved, Origin, Speaks, NewViewJustified;
    if run.Then? {
      NewViewsJustifiedInRuns(env, correct, run.before, k);
      if run.at == k {
        var m := StepInRun(env, correct, run);
        NewViewsJustifiedStep(env, After(env, correct, run.before)[k], run.event, m);
      }
    }
  }

  lemma KeepsViewChanges(env: Env, n: Node)
    requires env.Valid() && Inv(env, n)
    ensures ViewChangesOk(env, n.st)
  {
  }

  /** View, counter and window of a replica do not go back, and neither does what it has executed. */
  ghost predicate Risen(st: State, st': State) {
    && st.view <= st'.view
    && st.sequence <= st'.sequence
    && st.stableCheckpoint <= st'.stableCheckpoint
    && st.lowWatermark <= st'.lowWatermark
    && st.highWatermark <= st'.highWatermark
    && st.executed <= st'.executed
  }

  lemma RisesInStep(env: Env, n: Node, e: Event, m: Move, n': Node)
    requires env.Valid() && WindowOk(env, n.st) && Follows(env, n, e, m, n') && Outputs(env, n, e, m, n')
    ensures Risen(n.st, n'.st)
  {
  }

  /** Between any two points of any run: also at a primary that assigns numbers anew. */
  lemma {:induction false} RisesInRuns(env: Env, correct: set<NodeId>, run: Run, earlier: Run, k: NodeId)
    requires env.Valid() && k in correct && Extends(run, earlier)
    ensures Risen(After(env, correct, earlier)[k].st, After(env, correct, run)[k].st)
  {
    hide Step, MoveOf, Follows, Speaks, Outputs, Inv;
    if run != earlier {
      RisesInRuns(env, correct, run.before, earlier, k);
      if run.at == k {
        var n := After(env, correct, run.before)[k];
        var m := StepInRun(env, correct, run);
        StepMoves(env, n, run.event);
        RisesInStep(env, n, run.event, m, After(env, correct, run)[k]);
      }
    }
  }

  /** Only votes for later views are kept, each filed under its sender and view; a replica in
      view change has voted for the next view itself; and its view never goes back. */
  lemma {:induction false} ViewChangeBookkeeping(env: Env, correct: set<NodeId>, before: Run, at: NodeId, e: Event,
                                                 k: NodeId)
    requires env.Valid() && k in correct
    ensures var st, st' := After(env, correct, before)[k].st, After(env, correct, Then(before, at, e))[k].st;
            && st.view <= st'.view
            && (forall v :: v in st'.viewChanges ==> v > st'.view)
            && (forall v, j :: v in st'.viewChanges && j in st'.viewChanges[v] ==>
                  st'.viewChanges[v][j].replicaId == j && st'.viewChanges[v][j].newView == v)
            && (st'.viewChanging ==> st'.view + 1 in st'.viewChanges && k in st'.viewChanges[st'.view + 1])
  {
    hide Step, Inv;
    ReplicaInvariant(env, correct, Then(before, at, e), k);
    KeepsViewChanges(env, After(env, correct, Then(before, at, e))[k]);
    RisesInRuns(env, correct, Then(before, at, e), before, k);
  }
}
