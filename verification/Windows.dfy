/** Where a replica's window is: the stable checkpoint is the highest number that a quorum of
    senders has claimed to it, whatever came in between (`handle_checkpoint` in src/pbft.rs). */
module Windows {
  import opened Messages
  import opened Protocol
  import opened Moves
  import opened Invariant
  import opened Records
  import opened Runs
  import opened CheckpointFlow
  import Guarantees
  import Quorums
  import Requests

  // ---------- One checkpoint ----------

  /** The senders of the checkpoints on file for a number. */
  function FiledFor(st: State, s: nat): set<NodeId> {
    if s in st.checkpoints then st.checkpoints[s].Keys else {}
  }

  /** The checkpoint makes up a quorum of senders for a number above the stable one. */
  predicate Completes(env: Env, st: State, cp: Checkpoint) {
    cp.sequence > st.stableCheckpoint && |FiledFor(st, cp.sequence) + {cp.replicaId}| >= 2 * env.config.f + 1
  }

  /** What is on file for a number once a checkpoint has been added. */
  function FiledWith(st: State, cp: Checkpoint, s: nat): map<NodeId, Checkpoint> {
    var filed := if s in st.checkpoints then st.checkpoints[s] else map[];
    if s == cp.sequence then filed[cp.replicaId := cp] else filed
  }

  /** A checkpoint is filed under its number and sender, over an earlier one of that sender, and nothing
      else on file changes; if it completes a quorum the window moves to its number and what is behind
      it is dropped, instances at the number itself but not checkpoints. */
  ghost predicate CheckpointFiled(env: Env, n: Node, cp: Checkpoint, n': Node) {
    var st, st', bottom := n.st, n'.st, if Completes(env, n.st, cp) then cp.sequence else 0;
    && n' == n.(st := n'.st, proofs := n'.proofs)
    && n'.proofs == n.proofs + (if Completes(env, st, cp) then {StableProof(bottom, FiledWith(st, cp, bottom))} else {})
    && st' == st.(stableCheckpoint := st'.stableCheckpoint, lowWatermark := st'.lowWatermark,
                  highWatermark := st'.highWatermark, log := st'.log, checkpoints := st'.checkpoints)
    && (forall s :: s in st'.checkpoints <==> s >= bottom && (s in st.checkpoints || s == cp.sequence))
    && (forall s :: s in st'.checkpoints ==> st'.checkpoints[s] == FiledWith(st, cp, s))
    && (if Completes(env, st, cp) then
          && st'.stableCheckpoint == st'.lowWatermark == cp.sequence
          && st'.highWatermark == cp.sequence + 2 * env.config.checkpointInterval
          && (forall s :: s in st'.log <==> s in st.log && s > cp.sequence)
          && (forall s :: s in st'.log ==> st'.log[s] == st.log[s])
        else
          && st'.stableCheckpoint == st.stableCheckpoint && st'.lowWatermark == st.lowWatermark
          && st'.highWatermark == st.highWatermark && st'.log == st.log)
  }

  lemma FiledExactly(st: State, cp: Checkpoint)
    ensures WithCheckpoint(st, cp).Keys == st.checkpoints.Keys + {cp.sequence}
    ensures forall s :: s in WithCheckpoint(st, cp) ==> WithCheckpoint(st, cp)[s] == FiledWith(st, cp, s)
  {
  }

  lemma CompletesWhenCounted(env: Env, st: State, cp: Checkpoint)
    ensures Completes(env, st, cp) <==> BecomesStable(env, st, cp)
  {
    hide WithCheckpoint;
    var filed := FiledWith(st, cp, cp.sequence);
    FiledExactly(st, cp);
    assert filed.Keys == FiledFor(st, cp.sequence) + {cp.replicaId} && |filed| == |filed.Keys|;
  }

  lemma CheckpointStep(env: Env, n: Node, cp: Checkpoint)
    requires env.Valid()
    ensures CheckpointFiled(env, n, cp, Step(env, n, RecvCheckpoint(cp)))
  {
    hide WithCheckpoint, FiledWith, BecomesStable, Completes, FiledFor;
    CompletesWhenCounted(env, n.st, cp);
    FiledExactly(n.st, cp);
    assert Step(env, n, RecvCheckpoint(cp)) == HandleCheckpoint(env, n, cp);
  }

  // ---------- What a replica has been handed ----------

  /** The message has been handed to the replica. */
  ghost predicate WasHanded(run: Run, k: NodeId, m: Message) {
    run.Then? && ((run.at == k && run.event == EventOf(m)) || WasHanded(run.before, k, m))
  }

  /** The senders of the checkpoints for a number that a replica has been handed. */
  ghost function Claimants(run: Run, k: NodeId, s: nat): set<NodeId> {
    match run
    case Start => {}
    case Then(before, at, e) =>
      Claimants(before, k, s)
      + if at == k && e.RecvCheckpoint? && e.checkpoint.sequence == s then {e.checkpoint.replicaId} else {}
  }

  lemma {:induction false} HandedIsClaimed(run: Run, k: NodeId, cp: Checkpoint)
    requires WasHanded(run, k, CheckpointMsg(cp))
    ensures cp.replicaId in Claimants(run, k, cp.sequence)
  {
    if !(run.at == k && run.event == EventOf(CheckpointMsg(cp))) {
      HandedIsClaimed(run.before, k, cp);
    }
  }

  /** The number has been claimed by a quorum of senders. */
  ghost predicate ClaimedByQuorum(env: Env, run: Run, k: NodeId, s: nat) {
    |Claimants(run, k, s)| >= 2 * env.config.f + 1
  }

  /** From the stable checkpoint on, all that was claimed is on file; none of it above the stable
      checkpoint by a quorum, and the stable checkpoint itself, unless it is 0, by one. */
  ghost predicate WindowFollowsAt(env: Env, run: Run, k: NodeId, st: State, s: nat) {
    && (s >= st.stableCheckpoint ==> FiledFor(st, s) == Claimants(run, k, s))
    && (s > st.stableCheckpoint ==> !ClaimedByQuorum(env, run, k, s))
    && (s == st.stableCheckpoint > 0 ==> ClaimedByQuorum(env, run, k, s))
  }

  lemma FiledAfter(env: Env, n: Node, cp: Checkpoint, n': Node, s: nat)
    requires CheckpointFiled(env, n, cp, n') && s >= n'.st.stableCheckpoint >= n.st.stableCheckpoint
    ensures FiledFor(n'.st, s) == FiledFor(n.st, s) + if s == cp.sequence then {cp.replicaId} else {}
  {
  }

  lemma WindowMoves(env: Env, n: Node, cp: Checkpoint, n': Node)
    requires CheckpointFiled(env, n, cp, n')
    ensures n'.st.stableCheckpoint == if Completes(env, n.st, cp) then cp.sequence else n.st.stableCheckpoint
  {
  }

  lemma WindowFollowsCheckpoint(env: Env, before: Run, k: NodeId, n: Node, cp: Checkpoint, n': Node, s: nat)
    requires CheckpointFiled(env, n, cp, n')
    requires WindowFollowsAt(env, before, k, n.st, s) && WindowFollowsAt(env, before, k, n.st, cp.sequence)
    ensures WindowFollowsAt(env, Then(before, k, RecvCheckpoint(cp)), k, n'.st, s)
  {
    hide CheckpointFiled, FiledFor;
    var run := Then(before, k, RecvCheckpoint(cp));
    WindowMoves(env, n, cp, n');
    if s >= n'.st.stableCheckpoint {
      FiledAfter(env, n, cp, n', s);
    }
    if s == cp.sequence {
      Quorums.SubsetSize(Claimants(before, k, s), Claimants(run, k, s));
    } else {
      assert Claimants(run, k, s) == Claimants(before, k, s);
    }
  }

  /** Other steps, of the replica and of others, leave window and claims as they are. */
  lemma WindowStays(env: Env, run: Run, k: NodeId, st: State, st': State, s: nat)
    requires run.Then? && WindowFollowsAt(env, run.before, k, st, s) && (run.at != k || !run.event.RecvCheckpoint?)
    requires st'.stableCheckpoint == st.stableCheckpoint && st'.checkpoints == st.checkpoints
    ensures WindowFollowsAt(env, run, k, st', s)
  {
    assert Claimants(run, k, s) == Claimants(run.before, k, s);
  }

  lemma OtherEvents(env: Env, n: Node, e: Event, m: Move, n': Node)
    requires env.Valid() && Follows(env, n, e, m, n') && !e.RecvCheckpoint?
    ensures n'.st.stableCheckpoint == n.st.stableCheckpoint && n'.st.checkpoints == n.st.checkpoints
  {
  }

  lemma NoClaims(env: Env, k: NodeId, s: nat)
    ensures WindowFollowsAt(env, Start, k, InitialNode(env, k).st, s)
  {
  }

  lemma {:induction false} WindowFollows(env: Env, correct: set<NodeId>, run: Run, k: NodeId, s: nat)
    requires env.Valid() && k in correct
    ensures WindowFollowsAt(env, run, k, After(env, correct, run)[k].st, s)
  {
    hide Step, MoveOf, Follows, Speaks, Inv, LogOk, WindowOk, LogSigned, WindowFollowsAt, CheckpointFiled;
    if run.Then? {
      WindowFollows(env, correct, run.before, k, s);
      var n, n' := After(env, correct, run.before)[k], After(env, correct, run)[k];
      if run.at == k && run.event.RecvCheckpoint? {
        WindowFollows(env, correct, run.before, k, run.event.checkpoint.sequence);
        CheckpointStep(env, n, run.event.checkpoint);
        WindowFollowsCheckpoint(env, run.before, k, n, run.event.checkpoint, n', s);
      } else {
        if run.at == k {
          var m := StepInRun(env, correct, run);
          OtherEvents(env, n, run.event, m, n');
        }
        WindowStays(env, run, k, n.st, n'.st, s);
      }
    } else {
      NoClaims(env, k, s);
    }
  }

  /** In every run the stable checkpoint of a replica is the highest number that 2f+1 senders have
      claimed to it, and 0 if there is none: in whatever order and however often checkpoints came,
      with whatever else in between. No claim from the stable checkpoint on is ever lost. */
  lemma {:induction false} StableIsHighestClaimed(env: Env, correct: set<NodeId>, run: Run, k: NodeId)
    requires env.Valid() && k in correct
    ensures var st := After(env, correct, run)[k].st;
            && (st.stableCheckpoint > 0 ==> ClaimedByQuorum(env, run, k, st.stableCheckpoint))
            && (forall s: nat :: ClaimedByQuorum(env, run, k, s) ==> s <= st.stableCheckpoint)
            && (forall s: nat :: s >= st.stableCheckpoint ==> FiledFor(st, s) == Claimants(run, k, s))
            && st.lowWatermark == st.stableCheckpoint
            && st.highWatermark == st.stableCheckpoint + 2 * env.config.checkpointInterval
  {
    hide After, Claimants, ClaimedByQuorum, FiledFor;
    hide LogOk, NoLostAdvance, ExecutionOk, ViewChangesOk, LogSigned, CommitsBacked, ExecutionsDecided,
      CheckpointsEarned;
    var st := After(env, correct, run)[k].st;
    ReplicaInvariant(env, correct, run, k);
    WindowFollows(env, correct, run, k, st.stableCheckpoint);
    forall s: nat
      ensures ClaimedByQuorum(env, run, k, s) ==> s <= st.stableCheckpoint
      ensures s >= st.stableCheckpoint ==> FiledFor(st, s) == Claimants(run, k, s)
    {
      WindowFollows(env, correct, run, k, s);
    }
  }

  /** The configuration made for n replicas tolerates as many faults as 3f+1 <= n allows and takes
      quorums of 2f+1; its windows hold 200 numbers, and checkpoints are sent for multiples of 100. */
  lemma {:induction false} DefaultWindow(env: Env, n: nat, correct: set<NodeId>, run: Run, k: NodeId, s: nat)
    requires env.Valid() && k in correct && n >= 1 && env.config == NewConfig(n)
    ensures env.config.n == n && 3 * env.config.f + 1 <= n <= 3 * env.config.f + 3
    ensures env.config.Quorum() == 2 * env.config.f + 1
    ensures var st := After(env, correct, run)[k].st;
            st.highWatermark == st.lowWatermark + 200 && (st.stableCheckpoint == 0 ==> st.highWatermark == 200)
    ensures CheckpointsAt(After(env, correct, run)[k].sent, s) > 0 ==> s % 100 == 0
  {
    hide Step, LogOk;
    var node := After(env, correct, run)[k];
    StableIsHighestClaimed(env, correct, run, k);
    CheckpointsConserved(env, correct, run, k, s);
    CountedIsSent(node.sent, s);
  }

  /** Replicas to which the same numbers have been claimed by the same senders have the same window,
      be it in different runs. */
  lemma {:induction false} SameClaimsSameWindow(env: Env, correct: set<NodeId>, run: Run, k: NodeId,
                                                run': Run, k': NodeId)
    requires env.Valid() && k in correct && k' in correct
    requires forall s: nat :: Claimants(run, k, s) == Claimants(run', k', s)
    ensures var st, st' := After(env, correct, run)[k].st, After(env, correct, run')[k'].st;
            && st.stableCheckpoint == st'.stableCheckpoint
            && st.lowWatermark == st'.lowWatermark
            && st.highWatermark == st'.highWatermark
  {
    hide After, Claimants, FiledFor;
    StableIsHighestClaimed(env, correct, run, k);
    StableIsHighestClaimed(env, correct, run', k');
    assert forall s: nat :: ClaimedByQuorum(env, run, k, s) <==> ClaimedByQuorum(env, run', k', s);
  }

  // ---------- From executions to windows ----------

  /** The replica has executed at the number, and has no checkpoint attempt for it pending. */
  ghost predicate FinishedAt(n: Node, s: nat) {
    ExecutedAt(n, s) && TryCheckpoint(s) !in n.pending
  }

  /** Every checkpoint for the number that the group has broadcast has been handed to the replica. */
  ghost predicate CheckpointsHanded(sys: System, run: Run, k: NodeId, group: set<NodeId>, s: nat) {
    forall x, cp: Checkpoint ::
      x in group && x in sys && cp.sequence == s && Broadcast(CheckpointMsg(cp)) in sys[x].sent ==>
        WasHanded(run, k, CheckpointMsg(cp))
  }

  lemma OwnCheckpointOf(env: Env, x: NodeId, s: nat)
    ensures OwnCheckpoint(env, x, s).sequence == s && OwnCheckpoint(env, x, s).replicaId == x
  {
  }

  /** When 2f+1 correct replicas have executed at a multiple of the interval, and their checkpoints have
      all been handed to a correct replica, then it has moved its window there, or further. */
  lemma {:induction false} ExecutionsMoveWindow(env: Env, correct: set<NodeId>, run: Run, k: NodeId,
                                                group: set<NodeId>, s: nat)
    requires env.Valid() && k in correct && group <= correct && |group| >= 2 * env.config.f + 1
    requires s % env.config.checkpointInterval == 0
    requires var sys := After(env, correct, run);
             (forall x :: x in group ==> FinishedAt(sys[x], s)) && CheckpointsHanded(sys, run, k, group, s)
    ensures After(env, correct, run)[k].st.stableCheckpoint >= s
  {
    hide Step, OwnCheckpoint;
    forall x | x in group ensures x in Claimants(run, k, s) {
      ExecutionIsClaimed(env, correct, run, x, s);
      OwnCheckpointOf(env, x, s);
      HandedIsClaimed(run, k, OwnCheckpoint(env, x, s));
    }
    Quorums.SubsetSize(group, Claimants(run, k, s));
    assert ClaimedByQuorum(env, run, k, s);
    StableIsHighestClaimed(env, correct, run, k);
  }

  // ---------- Windows that never move ----------

  lemma {:induction false} DecidedInWindow(env: Env, correct: set<NodeId>, run: Run, k: NodeId)
    requires env.Valid() && k in correct
    ensures var n := After(env, correct, run)[k]; forall x :: x in n.decided ==> x.sequence <= n.st.highWatermark
  {
    hide Step, MoveOf, Speaks, Inv;
    if run.Then? {
      DecidedInWindow(env, correct, run.before, k);
      if run.at == k {
        Guarantees.RisesInRuns(env, correct, run, run.before, k);
        var m := StepInRun(env, correct, run);
      }
    }
  }

  /** Neither the log nor the proposals nor the executions of the replica go beyond the number. */
  ghost predicate StopsAt(n: Node, s: nat) {
    && (forall k :: k in n.st.log ==> k <= s)
    && (forall x :: x in n.decided ==> x.sequence <= s)
    && (forall x :: x in n.delivered ==> x.sequence <= s)
    && (forall o :: o in n.sent && o.message.PrePrepareMsg? ==> o.message.prePrepare.sequence <= s)
  }

  lemma StopsAtHigh(env: Env, n: Node)
    requires env.Valid() && Inv(env, n) && Requests.ProposalsOk(env, n)
    requires forall x :: x in n.decided ==> x.sequence <= n.st.highWatermark
    ensures StopsAt(n, n.st.highWatermark)
  {
    hide LogOk, NoLostAdvance, ExecutionOk, ViewChangesOk, LogSigned, CommitsBacked, CheckpointsEarned;
    forall x | x in n.delivered ensures x.sequence <= n.st.highWatermark {
      assert Decision(x.sequence, env.digest(x.request)) in n.decided;
    }
    forall o | o in n.sent && o.message.PrePrepareMsg?
      ensures o.message.prePrepare.sequence <= n.st.highWatermark
    {
      var i :| 0 <= i < |n.sent| && n.sent[i] == o;
      assert Requests.OwnProposal(env, n, n.sent[i].message.prePrepare);
    }
  }

  /** A replica does not file its own checkpoint. So where there are no more than 2f+1 correct replicas,
      and a correct one is handed checkpoints of the others only, because faulty ones are silent and
      broadcasts do not come back, its window never moves: it never gets beyond the first two
      intervals. */
  lemma {:induction false} SilentFaultsFreezeWindow(env: Env, correct: set<NodeId>, run: Run, k: NodeId)
    requires env.Valid() && k in correct && |correct| <= 2 * env.config.f + 1
    requires forall s: nat :: Claimants(run, k, s) <= correct - {k}
    ensures var n := After(env, correct, run)[k];
            && n.st.stableCheckpoint == 0
            && n.st.highWatermark == 2 * env.config.checkpointInterval
            && StopsAt(n, 2 * env.config.checkpointInterval)
  {
    hide Step, Inv, Requests.ProposalsOk, StopsAt;
    var n := After(env, correct, run)[k];
    StableIsHighestClaimed(env, correct, run, k);
    var s := n.st.stableCheckpoint;
    assert |correct - {k}| <= 2 * env.config.f;
    Quorums.SubsetSize(Claimants(run, k, s), correct - {k});
    ReplicaInvariant(env, correct, run, k);
    Requests.ProposalsRise(env, correct, run, k);
    DecidedInWindow(env, correct, run, k);
    StopsAtHigh(env, n);
  }
}
