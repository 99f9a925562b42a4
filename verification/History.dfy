/** What happens to a sequence number at one replica over the whole of a run: its instance only
    moves forward, across garbage collection, except where a primary assigns the number anew. */
module History {
  import opened Messages
  import opened Protocol
  import opened Moves
  import opened Invariant
  import opened Records
  import opened Runs
  import Quorums

  ghost predicate InstanceForward(i: Instance, i': Instance) {
    && Rank(i.phase) <= Rank(i'.phase)
    && (i.digest.Some? ==> i'.digest == i.digest)
    && i.prepares.Keys <= i'.prepares.Keys
    && i.commits.Keys <= i'.commits.Keys
  }

  /** From `st` to `st'` every instance has moved forward or has been discarded behind the
      window, and none that was behind the window has come back. */
  ghost predicate Forward(st: State, st': State) {
    && st.lowWatermark <= st'.lowWatermark
    && st.highWatermark <= st'.highWatermark
    && st.view <= st'.view
    && st.sequence <= st'.sequence
    && (forall s :: s in st.log && s in st'.log ==> InstanceForward(st.log[s], st'.log[s]))
    && (forall s :: s in st.log && s !in st'.log ==> s <= st'.lowWatermark)
    && (forall s :: s <= st.lowWatermark && s !in st.log ==> s !in st'.log)
  }

  lemma ForwardTransitive(a: State, b: State, c: State)
    requires Forward(a, b) && Forward(b, c)
    ensures Forward(a, c)
  {
    forall s | s in a.log && s in c.log ensures InstanceForward(a.log[s], c.log[s]) {
      assert s in b.log;
      assert InstanceForward(a.log[s], b.log[s]) && InstanceForward(b.log[s], c.log[s]);
    }
  }

  /** The primary branch of the request handler takes a number whose instance has another digest
      or is past PrePrepared, or a number behind the window whose instance is gone. */
  predicate Restarts(env: Env, st: State, e: Event)
    requires env.Valid()
  {
    && e.ClientRequest?
    && ClassifyRequest(env, st, e.request) == Assign
    && var s := st.sequence + 1;
       if s in st.log then
         || Rank(st.log[s].phase) > Rank(PrePrepared)
         || (st.log[s].digest.Some? && st.log[s].digest.value != env.digest(e.request))
       else s <= st.lowWatermark
  }

  lemma MovedInstanceForward(env: Env, st: State, m: Move, s: nat)
    requires LogOk(env, st) && Guard(env, st, m) && s in st.log && s in Moved(env, st, m)
    requires m.Open? && m.prePrepare.sequence == s ==>
               && Rank(st.log[s].phase) <= Rank(PrePrepared)
               && (st.log[s].digest.Some? ==> st.log[s].digest.value == m.prePrepare.digest)
    ensures InstanceForward(st.log[s], Moved(env, st, m)[s])
  {
    assert InstanceOk(env, st.nodeId, s, st.log[s]);
  }

  /** What an opened instance is like if it is no restart. */
  lemma OpenedForward(env: Env, n: Node, e: Event, m: Move)
    requires env.Valid() && LogOk(env, n.st) && Guard(env, n.st, m) && Origin(env, n, e, m)
    requires m.Open? && !Restarts(env, n.st, e)
    ensures var s := m.prePrepare.sequence;
            if s in n.st.log then
              && Rank(n.st.log[s].phase) <= Rank(PrePrepared)
              && (n.st.log[s].digest.Some? ==> n.st.log[s].digest.value == m.prePrepare.digest)
            else s > n.st.lowWatermark
  {
    var s := m.prePrepare.sequence;
    assert s in n.st.log ==> InstanceOk(env, n.st.nodeId, s, n.st.log[s]);
  }

  lemma MovesForward(env: Env, n: Node, e: Event, m: Move, n': Node)
    requires env.Valid() && LogOk(env, n.st) && WindowOk(env, n.st) && Follows(env, n, e, m, n')
    requires !Restarts(env, n.st, e)
    ensures Forward(n.st, n'.st)
  {
    if m.Open? {
      OpenedForward(env, n, e, m);
    }
    forall s | s in n.st.log && s in n'.st.log ensures InstanceForward(n.st.log[s], n'.st.log[s]) {
      MovedInstanceForward(env, n.st, m, s);
    }
  }

  lemma RestartIsNoMoveForward(env: Env, n: Node, e: Event, m: Move, n': Node)
    requires env.Valid() && LogOk(env, n.st) && Follows(env, n, e, m, n') && m == MoveOf(env, n, e)
    requires Restarts(env, n.st, e)
    ensures !Forward(n.st, n'.st)
  {
    var s := n.st.sequence + 1;
    assert s in n'.st.log;
    assert s in n.st.log ==> !InstanceForward(n.st.log[s], n'.st.log[s]);
  }

  /** A step moves every instance forward exactly if it is not such an assignment. */
  lemma ForwardUnlessRestarted(env: Env, n: Node, e: Event)
    requires env.Valid() && Inv(env, n)
    ensures Forward(n.st, Step(env, n, e).st) <==> !Restarts(env, n.st, e)
  {
    hide Step, Speaks, Outputs;
    StepMoves(env, n, e);
    var m, n' := MoveOf(env, n, e), Step(env, n, e);
    if Restarts(env, n.st, e) {
      RestartIsNoMoveForward(env, n, e, m, n');
    } else {
      MovesForward(env, n, e, m, n');
    }
  }

  // ---------- In runs ----------

  /** No step of replica `k` is a restart. */
  ghost predicate NeverRestarts(env: Env, correct: set<NodeId>, run: Run, k: NodeId)
    requires env.Valid() && k in correct
  {
    run.Then? ==>
      && NeverRestarts(env, correct, run.before, k)
      && (run.at == k ==> !Restarts(env, After(env, correct, run.before)[k].st, run.event))
  }

  /** A replica whose counter is still 0 has never run the primary branch. */
  lemma {:induction false} NeverPrimaryNeverRestarts(env: Env, correct: set<NodeId>, run: Run, k: NodeId)
    requires env.Valid() && k in correct && After(env, correct, run)[k].st.sequence == 0
    ensures NeverRestarts(env, correct, run, k)
  {
    hide Step, MoveOf, Moved, Speaks, Inv;
    if run.Then? {
      if run.at == k {
        var m := StepInRun(env, correct, run);
      }
      NeverPrimaryNeverRestarts(env, correct, run.before, k);
    }
  }

  lemma GuardedIsNoRestart(env: Env, sys: System, k: NodeId, e: Event)
    requires env.Valid() && k in sys && LogOk(env, sys[k].st) && Allowed(env, sys, k, e, GuardedAssignments)
    ensures !Restarts(env, sys[k].st, e)
  {
    var st := sys[k].st;
    assert st.sequence + 1 in st.log ==> InstanceOk(env, st.nodeId, st.sequence + 1, st.log[st.sequence + 1]);
  }

  /** Nor does a primary restart an instance that tests its number before it assigns it. */
  lemma {:induction false} GuardedNeverRestarts(env: Env, correct: set<NodeId>, run: Run, k: NodeId)
    requires env.Valid() && k in correct && Obeys(env, correct, {GuardedAssignments}, run)
    ensures NeverRestarts(env, correct, run, k)
  {
    if run.Then? {
      var Then(before, at, e) := run;
      GuardedNeverRestarts(env, correct, before, k);
      ReplicaInvariant(env, correct, before, k);
      var sys := After(env, correct, before);
      assert Allowed(env, sys, at, e, GuardedAssignments);
      if at == k {
        GuardedIsNoRestart(env, sys, k, e);
      }
    }
  }

  /** At a replica that never restarts an instance each sequence number moves, over its whole
      history, only from Idle to PrePrepared, Prepared and Committed; its digest never changes;
      and once discarded it never starts again. The window and the view only rise. */
  lemma {:induction false} ForwardOnly(env: Env, correct: set<NodeId>, run: Run, earlier: Run, k: NodeId)
    requires env.Valid() && k in correct && Extends(run, earlier) && NeverRestarts(env, correct, run, k)
    ensures Forward(After(env, correct, earlier)[k].st, After(env, correct, run)[k].st)
  {
    hide Step, MoveOf, Follows, Speaks, Inv;
    if run != earlier {
      var Then(before, at, e) := run;
      ForwardOnly(env, correct, before, earlier, k);
      if at == k {
        var n, n' := After(env, correct, before)[k], After(env, correct, run)[k];
        var m := StepInRun(env, correct, run);
        MovesForward(env, n, e, m, n');
        ForwardTransitive(After(env, correct, earlier)[k].st, n.st, n'.st);
      }
    }
  }

  lemma CommittedHasDigest(env: Env, n: Node, s: nat)
    requires env.Valid() && Inv(env, n) && s in n.st.log && n.st.log[s].phase == Committed
    ensures n.st.log[s].digest.Some?
  {
    assert InstanceOk(env, n.st.nodeId, s, n.st.log[s]);
  }

  /** Committed once is committed for good: with the same digest for as long as the instance is kept. */
  lemma {:induction false} CommittedForGood(env: Env, correct: set<NodeId>, run: Run, earlier: Run, k: NodeId, s: nat)
    requires env.Valid() && k in correct && Extends(run, earlier) && NeverRestarts(env, correct, run, k)
    requires var st := After(env, correct, earlier)[k].st; s in st.log && st.log[s].phase == Committed
    ensures var st, st' := After(env, correct, earlier)[k].st, After(env, correct, run)[k].st;
            if s in st'.log then st'.log[s].phase == Committed && st'.log[s].digest == st.log[s].digest
            else s <= st'.lowWatermark
  {
    hide Step, Inv, LogOk;
    ForwardOnly(env, correct, run, earlier, k);
    ReplicaInvariant(env, correct, earlier, k);
    CommittedHasDigest(env, After(env, correct, earlier)[k], s);
  }

  // ---------- One commit, one decision ----------

  ghost predicate AboveWindowBottom(st: State) {
    forall s :: s in st.log ==> s > st.lowWatermark
  }

  /** An instance that has reached a phase keeps it until it is behind the window. */
  ghost predicate Reached(st: State, s: nat, p: Phase) {
    s > st.lowWatermark ==> s in st.log && Rank(st.log[s].phase) >= Rank(p)
  }

  lemma ReachedStep(env: Env, n: Node, e: Event, m: Move, n': Node, s: nat, p: Phase)
    requires env.Valid() && LogOk(env, n.st) && WindowOk(env, n.st) && Follows(env, n, e, m, n')
    requires !Restarts(env, n.st, e) && AboveWindowBottom(n.st)
    requires Reached(n.st, s, p) || (p == Prepared && m == Certify(s)) || (p == Committed && m == Finish(s))
    ensures Reached(n'.st, s, p) && AboveWindowBottom(n'.st)
  {
    MovesForward(env, n, e, m, n');
    if m.Open? {
      OpenedForward(env, n, e, m);
    }
  }

  ghost predicate DecidedOnce(n: Node) {
    && (forall i :: 0 <= i < |n.decided| ==> Reached(n.st, n.decided[i].sequence, Committed))
    && (forall i, j :: 0 <= i < j < |n.decided| ==> n.decided[i].sequence != n.decided[j].sequence)
  }

  /** What can be committed now has not been decided yet. */
  lemma NotDecidedYet(env: Env, n: Node, s: nat)
    requires CanCommit(env, n.st, s) && AboveWindowBottom(n.st) && DecidedOnce(n)
    ensures forall i :: 0 <= i < |n.decided| ==> n.decided[i].sequence != s
  {
    assert forall i :: 0 <= i < |n.decided| ==> Reached(n.st, n.decided[i].sequence, Committed);
  }

  lemma NewDecision(env: Env, n: Node, e: Event, m: Move, n': Node)
    requires env.Valid() && Follows(env, n, e, m, n')
    ensures m.Finish? ==> CanCommit(env, n.st, m.sequence) && n'.decided == n.decided +
                            [Decision(m.sequence, n.st.log[m.sequence].digest.value)]
    ensures !m.Finish? ==> n'.decided == n.decided
  {
  }

  lemma DecidedOnceStep(env: Env, n: Node, e: Event, m: Move, n': Node)
    requires env.Valid() && LogOk(env, n.st) && WindowOk(env, n.st) && Follows(env, n, e, m, n')
    requires !Restarts(env, n.st, e) && AboveWindowBottom(n.st) && DecidedOnce(n)
    ensures DecidedOnce(n')
  {
    hide LogOk, WindowOk, Follows, Restarts, AboveWindowBottom, Reached;
    NewDecision(env, n, e, m, n');
    if m.Finish? {
      NotDecidedYet(env, n, m.sequence);
    }
    forall i | 0 <= i < |n'.decided| ensures Reached(n'.st, n'.decided[i].sequence, Committed) {
      ReachedStep(env, n, e, m, n', n'.decided[i].sequence, Committed);
    }
  }

  ghost predicate SendsCommit(o: Outgoing, s: nat) {
    o.Broadcast? && o.message.CommitMsg? && o.message.commit.sequence == s
  }

  ghost predicate CommitSentOnce(n: Node) {
    && (forall i, s :: 0 <= i < |n.sent| && SendsCommit(n.sent[i], s) ==> Reached(n.st, s, Prepared))
    && (forall i, j, s :: 0 <= i < j < |n.sent| && SendsCommit(n.sent[i], s) ==> !SendsCommit(n.sent[j], s))
  }

  lemma OnlyCertifySendsCommit(env: Env, n: Node, e: Event, m: Move, n': Node, i: nat, s: nat)
    requires env.Valid() && Guard(env, n.st, m) && Speaks(env, n, e, m, n')
    requires |n.sent| <= i < |n'.sent| && SendsCommit(n'.sent[i], s)
    ensures m == Certify(s) && i == |n.sent| && |n'.sent| == i + 1
  {
    if m.Open? || m.Certify? {
      assert n'.sent[i] == Votes(env, n.st, m, e)[i - |n.sent|];
    }
  }

  lemma NoSecondCommit(env: Env, n: Node, e: Event, m: Move, n': Node, i: nat, j: nat, s: nat)
    requires env.Valid() && Guard(env, n.st, m) && Speaks(env, n, e, m, n')
    requires AboveWindowBottom(n.st) && CommitSentOnce(n)
    requires i < j < |n'.sent| && SendsCommit(n'.sent[i], s)
    ensures !SendsCommit(n'.sent[j], s)
  {
    assert i < |n.sent| ==> n'.sent[i] == n.sent[i] && Reached(n.st, s, Prepared);
    assert j < |n.sent| ==> n'.sent[j] == n.sent[j];
    if SendsCommit(n'.sent[j], s) && j >= |n.sent| {
      OnlyCertifySendsCommit(env, n, e, m, n', j, s);
    }
  }

  lemma CommitSentOnceStep(env: Env, n: Node, e: Event, m: Move, n': Node)
    requires env.Valid() && LogOk(env, n.st) && WindowOk(env, n.st) && Follows(env, n, e, m, n')
    requires Speaks(env, n, e, m, n') && !Restarts(env, n.st, e) && AboveWindowBottom(n.st) && CommitSentOnce(n)
    ensures CommitSentOnce(n')
  {
    forall i, s: nat | 0 <= i < |n'.sent| && SendsCommit(n'.sent[i], s) ensures Reached(n'.st, s, Prepared) {
      if i >= |n.sent| {
        OnlyCertifySendsCommit(env, n, e, m, n', i, s);
      } else {
        assert SendsCommit(n.sent[i], s);
      }
      ReachedStep(env, n, e, m, n', s, Prepared);
    }
    forall i, j, s: nat | 0 <= i < j < |n'.sent| && SendsCommit(n'.sent[i], s) ensures !SendsCommit(n'.sent[j], s) {
      NoSecondCommit(env, n, e, m, n', i, j, s);
    }
  }

  /** A replica that never restarts an instance broadcasts at most one commit for a sequence
      number, and moves it to Committed at most once. */
  lemma {:induction false} OneCommitOneDecision(env: Env, correct: set<NodeId>, run: Run, k: NodeId)
    requires env.Valid() && k in correct && NeverRestarts(env, correct, run, k)
    ensures var n := After(env, correct, run)[k]; AboveWindowBottom(n.st) && CommitSentOnce(n) && DecidedOnce(n)
  {
    hide Step, MoveOf, Speaks, Inv;
    if run.Then? {
      var Then(before, at, e) := run;
      OneCommitOneDecision(env, correct, before, k);
      if at == k {
        var n, n' := After(env, correct, before)[k], After(env, correct, run)[k];
        var m := StepInRun(env, correct, run);
        ReachedStep(env, n, e, m, n', 0, Idle);
        CommitSentOnceStep(env, n, e, m, n');
        DecidedOnceStep(env, n, e, m, n');
      }
    }
  }

  // ---------- Bounded log ----------

  /** Such a replica keeps at most two checkpoint intervals of instances. */
  lemma {:induction false} LogIsBounded(env: Env, correct: set<NodeId>, run: Run, k: NodeId)
    requires env.Valid() && k in correct && NeverRestarts(env, correct, run, k)
    ensures var st := After(env, correct, run)[k].st;
            && st.lowWatermark == st.stableCheckpoint
            && st.highWatermark == st.lowWatermark + 2 * env.config.checkpointInterval
            && (forall s :: s in st.log ==> st.InWindow(s))
            && |st.log| <= 2 * env.config.checkpointInterval
  {
    var st := After(env, correct, run)[k].st;
    OneCommitOneDecision(env, correct, run, k);
    ReplicaInvariant(env, correct, run, k);
    Quorums.WindowSize(st.log.Keys, st.lowWatermark, st.highWatermark);
    assert |st.log.Keys| == |st.log|;
  }
}
