/** What every replica keeps in every run, whatever messages it is handed and however the
    lock scopes of its handlers interleave. */
module Invariant {
  import opened Messages
  import opened Protocol
  import opened Moves

  // ---------- Instances ----------

  /** One instance: its request, digest and pre-prepare come together and agree; its phase never
      runs ahead of its votes; votes are filed under their sender. */
  ghost predicate InstanceOk(env: Env, me: NodeId, s: nat, i: Instance) {
    && i.sequence == s
    && (i.phase == Idle <==> i.digest.None?)
    && (i.digest.Some? <==> i.request.Some?)
    && (i.digest.Some? <==> i.prePrepare.Some?)
    && (i.digest.Some? ==>
          && i.digest.value == env.digest(i.request.value)
          && i.prePrepare.value.digest == i.digest.value
          && i.prePrepare.value.request == i.request.value
          && i.prePrepare.value.sequence == s
          && me in i.prepares)
    && (i.phase in {Prepared, Committed} ==> |i.prepares| >= env.config.Quorum() && me in i.commits)
    && (i.phase == Committed ==> |i.commits| >= env.config.Quorum())
    && (forall k :: k in i.prepares ==> i.prepares[k].replicaId == k && i.prepares[k].sequence == s)
    && (forall k :: k in i.commits ==> i.commits[k].replicaId == k && i.commits[k].sequence == s)
  }

  ghost predicate LogOk(env: Env, st: State) {
    forall s :: s in st.log ==> InstanceOk(env, st.nodeId, s, st.log[s])
  }

  lemma MovedInstanceOk(env: Env, st: State, m: Move, s: nat)
    requires Guard(env, st, m) && s in Moved(env, st, m) && InstanceOk(env, st.nodeId, s, st.InstanceAt(s))
    ensures InstanceOk(env, st.nodeId, s, Moved(env, st, m)[s])
  {
  }

  lemma InstanceAtOk(env: Env, st: State, s: nat)
    requires LogOk(env, st)
    ensures InstanceOk(env, st.nodeId, s, st.InstanceAt(s))
  {
  }

  lemma LogOkStep(env: Env, n: Node, e: Event, m: Move, n': Node)
    requires env.Valid() && Follows(env, n, e, m, n') && LogOk(env, n.st)
    ensures LogOk(env, n'.st)
  {
    hide Origin, Guard, Moved, InstanceOk, Arrivals;
    forall s | s in n'.st.log ensures InstanceOk(env, n'.st.nodeId, s, n'.st.log[s]) {
      InstanceAtOk(env, n.st, s);
      MovedInstanceOk(env, n.st, m, s);
    }
  }

  // ---------- Window ----------

  /** The window follows the stable checkpoint; instances lie in it, except that a primary
      may have assigned sequence numbers behind it. */
  ghost predicate WindowOk(env: Env, st: State) {
    && st.lowWatermark == st.stableCheckpoint
    && st.highWatermark == st.lowWatermark + 2 * env.config.checkpointInterval
    && (forall s :: s in st.log ==> s <= st.highWatermark && (st.lowWatermark < s || 1 <= s <= st.sequence))
  }

  lemma WindowOkStep(env: Env, n: Node, e: Event, m: Move, n': Node)
    requires env.Valid() && Follows(env, n, e, m, n') && WindowOk(env, n.st)
    ensures WindowOk(env, n'.st)
  {
  }

  // ---------- No lost advance ----------

  ghost predicate NoLostAdvanceAt(env: Env, n: Node, s: nat)
    requires s in n.st.log
  {
    var i := n.st.log[s];
    && (i.phase == PrePrepared && |i.prepares| >= env.config.Quorum() ==> AdvancePrepared(s) in n.pending)
    && (i.phase == Prepared && |i.commits| >= env.config.Quorum() ==> AdvanceCommitted(s) in n.pending)
  }

  ghost predicate NoLostAdvance(env: Env, n: Node) {
    forall s :: s in n.st.log ==> NoLostAdvanceAt(env, n, s)
  }

  /** A step that leaves the log alone. */
  lemma StayLosesNothing(env: Env, n: Node, e: Event, n': Node, s: nat)
    requires env.Valid() && Follows(env, n, e, Stay, n')
    requires s in n.st.log && InstanceOk(env, n.st.nodeId, s, n.st.log[s]) && NoLostAdvanceAt(env, n, s)
    ensures NoLostAdvanceAt(env, n', s)
  {
  }

  lemma MoveLosesNothing(env: Env, n: Node, e: Event, m: Move, n': Node, s: nat)
    requires env.Valid() && Follows(env, n, e, m, n') && m != Stay && s in n'.st.log
    requires s in n.st.log ==> NoLostAdvanceAt(env, n, s)
    ensures NoLostAdvanceAt(env, n', s)
  {
  }

  lemma NoLostAdvanceStepAt(env: Env, n: Node, e: Event, m: Move, n': Node, s: nat)
    requires env.Valid() && Follows(env, n, e, m, n') && LogOk(env, n.st) && NoLostAdvance(env, n)
    requires s in n'.st.log
    ensures NoLostAdvanceAt(env, n', s)
  {
    hide NoLostAdvanceAt, InstanceOk, Origin;
    if m == Stay {
      StayLosesNothing(env, n, e, n', s);
    } else {
      MoveLosesNothing(env, n, e, m, n', s);
    }
  }

  lemma NoLostAdvanceStep(env: Env, n: Node, e: Event, m: Move, n': Node)
    requires env.Valid() && Follows(env, n, e, m, n') && LogOk(env, n.st) && NoLostAdvance(env, n)
    ensures NoLostAdvance(env, n')
  {
    forall s | s in n'.st.log ensures NoLostAdvanceAt(env, n', s) {
      NoLostAdvanceStepAt(env, n, e, m, n', s);
    }
  }

  // ---------- Execution ----------

  ghost predicate Delivered(env: Env, n: Node, h: Hash) {
    exists i :: 0 <= i < |n.delivered| && env.digest(n.delivered[i].request) == h
  }

  ghost predicate BeingDelivered(env: Env, n: Node, h: Hash) {
    exists t :: t in n.pending && t.Deliver? && env.digest(t.request) == h
  }

  /** Executed digests are those of requests sent, or about to be sent, to the application; and
      each has one such request. */
  ghost predicate ExecutionOk(env: Env, n: Node) {
    && (forall h :: h in n.st.executed <==> Delivered(env, n, h) || BeingDelivered(env, n, h))
    && (forall i, j :: 0 <= i < j < |n.delivered| ==>
          env.digest(n.delivered[i].request) != env.digest(n.delivered[j].request))
    && (forall t, u :: t in n.pending && u in n.pending && t.Deliver? && u.Deliver? ==>
          env.digest(t.request) == env.digest(u.request) ==> t == u)
    && (forall t :: t in n.pending && t.Deliver? ==>
          n.pending[t] == 1 && !Delivered(env, n, env.digest(t.request)))
  }

  lemma ExecutionOkAfterExecuting(env: Env, n: Node, t: Task, n': Node)
    requires ExecutionOk(env, n) && t.Deliver? && env.digest(t.request) !in n.st.executed
    requires n'.st.executed == n.st.executed + {env.digest(t.request)} && n'.delivered == n.delivered
    requires forall u: Task :: u.Deliver? ==> n'.pending[u] == n.pending[u] + if u == t then 1 else 0
    ensures ExecutionOk(env, n')
  {
    assert !Delivered(env, n, env.digest(t.request)) && !BeingDelivered(env, n, env.digest(t.request));
    assert t in n'.pending;
    assert forall u: Task :: u.Deliver? ==> (u in n'.pending <==> u in n.pending || u == t);
    forall h ensures h in n'.st.executed <==> Delivered(env, n', h) || BeingDelivered(env, n', h) {
      assert Delivered(env, n', h) <==> Delivered(env, n, h);
      assert BeingDelivered(env, n', h) <==> BeingDelivered(env, n, h) || h == env.digest(t.request);
    }
  }

  lemma ExecutionOkAfterDelivering(env: Env, n: Node, t: Task, n': Node)
    requires ExecutionOk(env, n) && t.Deliver? && t in n.pending
    requires n'.st.executed == n.st.executed
    requires n'.delivered == n.delivered + [Delivery(t.sequence, t.request)]
    requires forall u: Task :: u.Deliver? ==> n'.pending[u] == n.pending[u] - if u == t then 1 else 0
    ensures ExecutionOk(env, n')
  {
    assert forall u: Task :: u.Deliver? ==> (u in n'.pending <==> u in n.pending && u != t);
    assert n'.delivered[|n.delivered|] == Delivery(t.sequence, t.request);
    assert forall i :: 0 <= i < |n.delivered| ==> n'.delivered[i] == n.delivered[i];
    forall h
      ensures Delivered(env, n', h) <==> Delivered(env, n, h) || h == env.digest(t.request)
      ensures BeingDelivered(env, n, h) <==> BeingDelivered(env, n', h) || h == env.digest(t.request)
    {
    }
  }

  lemma ExecutionOkStep(env: Env, n: Node, e: Event, m: Move, n': Node)
    requires env.Valid() && Guard(env, n.st, m) && Origin(env, n, e, m) && Outputs(env, n, e, m, n')
    requires ExecutionOk(env, n)
    ensures ExecutionOk(env, n')
  {
    if m.Finish? && Executes(env, n.st, m.sequence) {
      ExecutionOkAfterExecuting(env, n, Deliver(n.st.log[m.sequence].request.value, m.sequence), n');
    } else if e.Run? && e.task.Deliver? && e.task in n.pending {
      ExecutionOkAfterDelivering(env, n, e.task, n');
    } else {
      assert forall t: Task :: t.Deliver? ==> (t in n'.pending <==> t in n.pending);
      assert forall h :: Delivered(env, n', h) <==> Delivered(env, n, h);
      assert forall h :: BeingDelivered(env, n', h) <==> BeingDelivered(env, n, h);
    }
  }

  // ---------- View changes ----------

  ghost predicate ViewChangesOk(env: Env, st: State) {
    && (forall v :: v in st.viewChanges ==> v > st.view)
    && (forall v, k :: v in st.viewChanges && k in st.viewChanges[v] ==>
          st.viewChanges[v][k].replicaId == k && st.viewChanges[v][k].newView == v)
    && (st.viewChanging ==> st.view + 1 in st.viewChanges && st.nodeId in st.viewChanges[st.view + 1])
  }

  lemma ViewChangesOkVote(env: Env, n: Node, vc: ViewChange)
    requires env.Valid() && ViewChangesOk(env, n.st)
    ensures ViewChangesOk(env, HandleViewChange(env, n, vc).st)
  {
    if vc.newView > n.st.view {
      assert HandleViewChange(env, n, vc).st == n.st.(viewChanges := WithViewChange(n.st, vc));
    }
  }

  lemma ViewChangesOkNewView(env: Env, n: Node, nv: NewView)
    requires env.Valid() && ViewChangesOk(env, n.st)
    ensures ViewChangesOk(env, HandleNewView(n, nv).st)
  {
  }

  lemma ViewChangesOkTimeout(env: Env, n: Node)
    requires env.Valid() && ViewChangesOk(env, n.st)
    ensures ViewChangesOk(env, StartViewChange(env, n).st)
  {
  }

  lemma ViewChangesOkOther(env: Env, st: State, st': State)
    requires ViewChangesOk(env, st) && st'.nodeId == st.nodeId && st'.view == st.view
    requires st'.viewChanges == st.viewChanges && st'.viewChanging == st.viewChanging
    ensures ViewChangesOk(env, st')
  {
  }

  lemma ViewChangesOkStep(env: Env, n: Node, e: Event, m: Move)
    requires env.Valid() && ViewChangesOk(env, n.st) && Follows(env, n, e, m, Step(env, n, e))
    ensures ViewChangesOk(env, Step(env, n, e).st)
  {
    hide Guard, Origin, Moved, Arrivals, ViewChangesOk, HandleViewChange, HandleNewView, StartViewChange;
    match e
    case RecvViewChange(vc) => ViewChangesOkVote(env, n, vc);
    case RecvNewView(nv) => ViewChangesOkNewView(env, n, nv);
    case Timeout => ViewChangesOkTimeout(env, n);
    case _ => ViewChangesOkOther(env, n.st, Step(env, n, e).st);
  }
}
