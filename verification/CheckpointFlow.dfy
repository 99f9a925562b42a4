/** From executions to checkpoints, and from checkpoints to windows: every delivery at a multiple of
    the interval is followed by one checkpoint, and the checkpoints that a replica is handed decide
    where its window is (`try_checkpoint` and `handle_checkpoint` in src/pbft.rs). */
module CheckpointFlow {
  import opened Messages
  import opened Protocol
  import opened Moves
  import opened Invariant
  import opened Records
  import opened Runs
  import opened Effects

  // ---------- One checkpoint for each delivery ----------

  function DeliveriesAt(delivered: seq<Delivery>, s: nat): nat {
    if delivered == [] then 0
    else
      var last := |delivered| - 1;
      DeliveriesAt(delivered[..last], s) + if delivered[last].sequence == s then 1 else 0
  }

  function OwnCheckpoint(env: Env, me: NodeId, s: nat): Checkpoint {
    Checkpoint(s, NoState(), me, env.sign(me, CheckpointData(s, NoState())))
  }

  predicate SendsCheckpoint(o: Outgoing, s: nat) {
    o.message.CheckpointMsg? && o.message.checkpoint.sequence == s
  }

  function CheckpointsAt(sent: seq<Outgoing>, s: nat): nat {
    if sent == [] then 0
    else
      var last := |sent| - 1;
      CheckpointsAt(sent[..last], s) + if SendsCheckpoint(sent[last], s) then 1 else 0
  }

  lemma {:induction false} CheckpointsAdd(a: seq<Outgoing>, b: seq<Outgoing>, s: nat)
    ensures CheckpointsAt(a + b, s) == CheckpointsAt(a, s) + CheckpointsAt(b, s)
    decreases |b|
  {
    if b == [] {
      assert a + b == a;
    } else {
      var last := |b| - 1;
      CheckpointsAdd(a, b[..last], s);
      assert (a + b)[..|a + b| - 1] == a + b[..last];
    }
  }

  lemma {:induction false} CountedIsThere(delivered: seq<Delivery>, s: nat)
    ensures DeliveriesAt(delivered, s) > 0 <==> exists i :: 0 <= i < |delivered| && delivered[i].sequence == s
  {
    if delivered != [] {
      var last := |delivered| - 1;
      CountedIsThere(delivered[..last], s);
      if i :| 0 <= i < |delivered| && delivered[i].sequence == s {
        assert i < last ==> delivered[..last][i].sequence == s;
      }
    }
  }

  lemma {:induction false} CountedIsSent(sent: seq<Outgoing>, s: nat)
    ensures CheckpointsAt(sent, s) > 0 <==> exists i :: 0 <= i < |sent| && SendsCheckpoint(sent[i], s)
  {
    if sent != [] {
      var last := |sent| - 1;
      CountedIsSent(sent[..last], s);
      if i :| 0 <= i < |sent| && SendsCheckpoint(sent[i], s) {
        assert i < last ==> SendsCheckpoint(sent[..last][i], s);
      }
    }
  }

  /** At a multiple of the interval: as many deliveries as checkpoints sent and attempts pending. */
  ghost predicate Conserved(env: Env, n: Node, s: nat)
    requires env.Valid()
  {
    s % env.config.checkpointInterval == 0 ==>
      DeliveriesAt(n.delivered, s) == CheckpointsAt(n.sent, s) + n.pending[TryCheckpoint(s)]
  }

  /** Every checkpoint that has been sent is a broadcast of the replica's own, over 32 zero bytes,
      signed, for a multiple of the interval at which it has executed a request. */
  ghost predicate CheckpointsOwn(env: Env, n: Node)
    requires env.Valid()
  {
    forall o, s: nat :: o in n.sent && SendsCheckpoint(o, s) ==>
      && o == Broadcast(CheckpointMsg(OwnCheckpoint(env, n.st.nodeId, s)))
      && s % env.config.checkpointInterval == 0
      && CheckpointData(s, NoState()) in n.signed
      && ExecutedAt(n, s)
  }

  lemma CheckpointsOfFew(a: Outgoing, b: Outgoing, s: nat)
    ensures CheckpointsAt([a], s) == if SendsCheckpoint(a, s) then 1 else 0
    ensures CheckpointsAt([a, b], s) == CheckpointsAt([a], s) + CheckpointsAt([b], s)
  {
    assert [a][..0] == [] && [a, b][..1] == [a];
  }

  /** A checkpoint is sent exactly when an attempt that is due is run. */
  lemma SentCheckpoints(env: Env, n: Node, e: Event, s: nat)
    requires env.Valid() && LogOk(env, n.st)
    ensures var due := e == Run(TryCheckpoint(s)) && ChecksIn(env, n, s);
            && CheckpointsAt(Sends(env, n, e), s) == (if due then 1 else 0)
            && (forall o :: o in Sends(env, n, e) && SendsCheckpoint(o, s) ==>
                  due && o == Broadcast(CheckpointMsg(OwnCheckpoint(env, n.st.nodeId, s))))
  {
    hide LogOk, Takes, IsPrepared, Announces, NoState;
    var sends := Sends(env, n, e);
    if sends != [] {
      CheckpointsOfFew(sends[0], sends[|sends| - 1], s);
      assert sends == [sends[0]] || sends == [sends[0], sends[|sends| - 1]];
    }
  }

  lemma Delivers(env: Env, n: Node, e: Event)
    requires env.Valid()
    ensures Step(env, n, e).delivered ==
              n.delivered + if e.Run? && e.task.Deliver? && e.task in n.pending
                            then [Delivery(e.task.sequence, e.task.request)] else []
  {
    hide Step, MoveOf, Follows, Speaks;
    StepMoves(env, n, e);
  }

  lemma PendingAttempts(env: Env, n: Node, e: Event, s: nat)
    requires env.Valid() && LogOk(env, n.st)
    ensures Step(env, n, e).pending[TryCheckpoint(s)] ==
              n.pending[TryCheckpoint(s)]
              + (if e.Run? && e.task.Deliver? && e.task in n.pending && e.task.sequence == s then 1 else 0)
              - (if e == Run(TryCheckpoint(s)) && TryCheckpoint(s) in n.pending then 1 else 0)
  {
    hide Step, LogOk, Takes, Proposes, IsPrepared, IsCommitted;
    StepQueues(env, n, e);
  }

  lemma ConservedStep(env: Env, n: Node, e: Event, s: nat)
    requires env.Valid() && LogOk(env, n.st) && Conserved(env, n, s)
    ensures Conserved(env, Step(env, n, e), s)
  {
    hide Step, LogOk, Sends, SendsCheckpoint;
    var n' := Step(env, n, e);
    StepSpeaks(env, n, e);
    PendingAttempts(env, n, e, s);
    SentCheckpoints(env, n, e, s);
    CheckpointsAdd(n.sent, Sends(env, n, e), s);
    Delivers(env, n, e);
    if e.Run? && e.task.Deliver? && e.task in n.pending {
      assert n'.delivered[..|n.delivered|] == n.delivered;
    } else {
      assert n'.delivered == n.delivered;
    }
  }

  lemma CheckpointsOwnStep(env: Env, n: Node, e: Event)
    requires env.Valid() && LogOk(env, n.st) && CheckpointsEarned(env, n) && CheckpointsOwn(env, n)
    requires Step(env, n, e).st.nodeId == n.st.nodeId
    ensures CheckpointsOwn(env, Step(env, n, e))
  {
    hide Step, LogOk, Sends, NoState;
    var n', sends := Step(env, n, e), Sends(env, n, e);
    StepSpeaks(env, n, e);
    Delivers(env, n, e);
    forall s: nat | ExecutedAt(n, s) ensures ExecutedAt(n', s) {
      var i :| 0 <= i < |n.delivered| && n.delivered[i].sequence == s;
      assert n'.delivered[i] == n.delivered[i];
    }
    forall o, s: nat | o in sends && SendsCheckpoint(o, s)
      ensures o == Broadcast(CheckpointMsg(OwnCheckpoint(env, n.st.nodeId, s)))
      ensures s % env.config.checkpointInterval == 0 && CheckpointData(s, NoState()) in n'.signed && ExecutedAt(n, s)
    {
      SentCheckpoints(env, n, e, s);
      assert CheckpointData(s, NoState()) in SignedFor(o.message);
    }
  }

  lemma NoCheckpoints(env: Env, k: NodeId, s: nat)
    requires env.Valid()
    ensures Conserved(env, InitialNode(env, k), s) && CheckpointsOwn(env, InitialNode(env, k))
  {
  }

  /** In every run: for each multiple of the interval a replica has sent as many checkpoints as it
      has made deliveries there, but for the attempts that are pending; all are its own and signed,
      and there are none for other numbers. */
  lemma {:induction false} CheckpointsConserved(env: Env, correct: set<NodeId>, run: Run, k: NodeId, s: nat)
    requires env.Valid() && k in correct
    ensures var n := After(env, correct, run)[k]; Conserved(env, n, s) && CheckpointsOwn(env, n)
  {
    hide Step, MoveOf, Follows, Speaks, LogOk, Conserved, CheckpointsOwn, CheckpointsEarned;
    if run.Then? {
      CheckpointsConserved(env, correct, run.before, k, s);
      if run.at == k {
        var n := After(env, correct, run.before)[k];
        ReplicaInvariant(env, correct, run, k);
        var m := StepInRun(env, correct, run);
        ConservedStep(env, n, run.event, s);
        CheckpointsOwnStep(env, n, run.event);
      }
    } else {
      NoCheckpoints(env, k, s);
    }
  }

  /** So whoever has executed at a multiple of the interval has an attempt pending, or has broadcast
      its signed checkpoint. */
  lemma {:induction false} ExecutionIsClaimed(env: Env, correct: set<NodeId>, run: Run, k: NodeId, s: nat)
    requires env.Valid() && k in correct && s % env.config.checkpointInterval == 0
    requires ExecutedAt(After(env, correct, run)[k], s) && TryCheckpoint(s) !in After(env, correct, run)[k].pending
    ensures var n := After(env, correct, run)[k];
            && Broadcast(CheckpointMsg(OwnCheckpoint(env, k, s))) in n.sent
            && CheckpointData(s, NoState()) in n.signed
    ensures SignaturesVerify(env, {k}) ==>
              env.verify(k, CheckpointData(s, NoState()), OwnCheckpoint(env, k, s).signature)
  {
    hide NoState, Inv;
    var n := After(env, correct, run)[k];
    ReplicaInvariant(env, correct, run, k);
    CheckpointsConserved(env, correct, run, k, s);
    CountedIsThere(n.delivered, s);
    CountedIsSent(n.sent, s);
    var i :| 0 <= i < |n.sent| && SendsCheckpoint(n.sent[i], s);
    assert n.sent[i] in n.sent;
  }
}
