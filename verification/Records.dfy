/** How a replica's state, signatures, decisions and deliveries depend on each other: it has
    signed for whatever it holds, and executes only what it has decided. */
module Records {
  import opened Messages
  import opened Protocol
  import opened Moves
  import opened Invariant

  /** The replica has signed a pre-prepare or prepare for the digest, in some view. */
  ghost predicate SignedPrepare(n: Node, s: nat, d: Hash) {
    exists v :: PrepareData(v, s, d) in n.signed
  }

  /** Nothing has been signed for the sequence number. */
  ghost predicate Unsigned(n: Node, s: nat) {
    forall d :: !SignedPrepare(n, s, d)
  }

  /** Another digest has been signed for the sequence number. */
  ghost predicate SignedAnother(n: Node, s: nat, d: Hash) {
    exists d' :: d' != d && SignedPrepare(n, s, d')
  }

  ghost predicate SignedCommit(n: Node, s: nat, d: Hash) {
    exists v :: CommitData(v, s, d) in n.signed
  }

  ghost predicate ExecutedAt(n: Node, s: nat) {
    exists i :: 0 <= i < |n.delivered| && n.delivered[i].sequence == s
  }

  // ---------- Signatures behind the log ----------

  /** A recorded digest is signed for, and a prepared one committed to. */
  ghost predicate LogSigned(env: Env, n: Node) {
    forall s :: s in n.st.log && n.st.log[s].digest.Some? ==>
      var i := n.st.log[s];
      && i.prePrepare.Some?
      && i.prePrepare.value.view <= n.st.view
      && PrepareData(i.prePrepare.value.view, s, i.digest.value) in n.signed
      && (i.phase in {Prepared, Committed} ==> CommitData(i.view, s, i.digest.value) in n.signed)
      && (i.phase == Committed ==> Decision(s, i.digest.value) in n.decided)
  }

  lemma LogSignedStep(env: Env, n: Node, e: Event, m: Move, n': Node)
    requires env.Valid() && Follows(env, n, e, m, n') && Speaks(env, n, e, m, n') && LogSigned(env, n)
    ensures LogSigned(env, n')
  {
  }

  /** Commits are signed for signed digests, and decisions made on signed commits. */
  ghost predicate CommitsBacked(n: Node) {
    && (forall v, s, d :: CommitData(v, s, d) in n.signed ==> SignedPrepare(n, s, d))
    && (forall x :: x in n.decided ==> SignedCommit(n, x.sequence, x.digest))
  }

  lemma CommitsBackedStep(env: Env, n: Node, e: Event, m: Move, n': Node)
    requires env.Valid() && Follows(env, n, e, m, n') && Speaks(env, n, e, m, n')
    requires LogOk(env, n.st) && LogSigned(env, n) && CommitsBacked(n)
    ensures CommitsBacked(n')
  {
    forall v, s, d | CommitData(v, s, d) in n'.signed ensures SignedPrepare(n', s, d) {
      if CommitData(v, s, d) in n.signed {
        var w :| PrepareData(w, s, d) in n.signed;
        assert PrepareData(w, s, d) in n'.signed;
      } else {
        assert CommitData(v, s, d) in SignedBy(env, n.st, m);
        var w := n.st.log[s].prePrepare.value.view;
        assert PrepareData(w, s, d) in n'.signed;
      }
    }
    forall x | x in n'.decided ensures SignedCommit(n', x.sequence, x.digest) {
      if x in n.decided {
        var w :| CommitData(w, x.sequence, x.digest) in n.signed;
        assert CommitData(w, x.sequence, x.digest) in n'.signed;
      } else {
        assert CommitData(n.st.log[x.sequence].view, x.sequence, x.digest) in n'.signed;
      }
    }
  }

  // ---------- Executions and checkpoints ----------

  /** Requests go to the application on a decision for their digest, once per decided digest. */
  ghost predicate ExecutionsDecided(env: Env, n: Node) {
    && (forall x :: x in n.delivered ==> Decision(x.sequence, env.digest(x.request)) in n.decided)
    && (forall t :: t in n.pending && t.Deliver? ==> Decision(t.sequence, env.digest(t.request)) in n.decided)
    && (forall x :: x in n.decided ==> x.digest in n.st.executed)
  }

  lemma ExecutionsDecidedStep(env: Env, n: Node, e: Event, m: Move, n': Node)
    requires env.Valid() && Follows(env, n, e, m, n') && Outputs(env, n, e, m, n')
    requires LogOk(env, n.st) && ExecutionsDecided(env, n)
    ensures ExecutionsDecided(env, n')
  {
    forall t | t in n'.pending && t.Deliver? ensures Decision(t.sequence, env.digest(t.request)) in n'.decided {
      assert n'.pending[t] > 0;
    }
  }

  /** Checkpoints are signed at multiples of the interval, for executed sequence numbers. */
  ghost predicate CheckpointsEarned(env: Env, n: Node)
    requires env.Valid()
  {
    && (forall t: Task :: t in n.pending && t.TryCheckpoint? ==> ExecutedAt(n, t.sequence))
    && (forall s: nat, z :: CheckpointData(s, z) in n.signed ==>
          s % env.config.checkpointInterval == 0 && ExecutedAt(n, s))
  }

  lemma CheckpointsEarnedStep(env: Env, n: Node, e: Event, m: Move, n': Node)
    requires env.Valid() && Guard(env, n.st, m) && Speaks(env, n, e, m, n') && Outputs(env, n, e, m, n')
    requires CheckpointsEarned(env, n)
    ensures CheckpointsEarned(env, n')
  {
    forall s: nat | ExecutedAt(n, s) ensures ExecutedAt(n', s) {
      var i :| 0 <= i < |n.delivered| && n.delivered[i].sequence == s;
      assert n'.delivered[i] == n.delivered[i];
    }
    forall t: Task | t in n'.pending && t.TryCheckpoint? ensures ExecutedAt(n', t.sequence) {
      if t !in n.pending {
        assert n'.delivered[|n.delivered|].sequence == t.sequence;
      }
    }
  }

  // ---------- Everything a replica keeps ----------

  ghost predicate Inv(env: Env, n: Node)
    requires env.Valid()
  {
    && LogOk(env, n.st)
    && WindowOk(env, n.st)
    && NoLostAdvance(env, n)
    && ExecutionOk(env, n)
    && ViewChangesOk(env, n.st)
    && LogSigned(env, n)
    && CommitsBacked(n)
    && ExecutionsDecided(env, n)
    && CheckpointsEarned(env, n)
  }

  lemma InvInitially(env: Env, k: NodeId)
    requires env.Valid()
    ensures Inv(env, InitialNode(env, k))
  {
  }

  /** Every step keeps the invariant: no message, however wrong, and no interleaving breaks it. */
  lemma InvStep(env: Env, n: Node, e: Event)
    requires env.Valid() && Inv(env, n)
    ensures Inv(env, Step(env, n, e))
  {
    StepMoves(env, n, e);
    var m, n' := MoveOf(env, n, e), Step(env, n, e);
    LogOkStep(env, n, e, m, n');
    WindowOkStep(env, n, e, m, n');
    NoLostAdvanceStep(env, n, e, m, n');
    ExecutionOkStep(env, n, e, m, n');
    ViewChangesOkStep(env, n, e, m);
    LogSignedStep(env, n, e, m, n');
    CommitsBackedStep(env, n, e, m, n');
    ExecutionsDecidedStep(env, n, e, m, n');
    CheckpointsEarnedStep(env, n, e, m, n');
  }
}
