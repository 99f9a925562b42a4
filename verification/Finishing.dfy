/** Completion put together: from any point of a run a sequence number that the correct primary has
    issued can be brought to commitment everywhere by a bounded number of deliveries. */
module Finishing {
  import opened Messages
  import opened Protocol
  import opened Moves
  import opened Invariant
  import opened Records
  import opened Runs
  import opened Signing
  import opened HonestPrimary
  import opened Completion
  import opened Progress

  // ---------- Going on with a run ----------

  predicate IsAdvanceOf(e: Event, s: nat) {
    e == Run(AdvancePrepared(s)) || e == Run(AdvanceCommitted(s))
  }

  /** The event hands `at` what another correct replica has broadcast about the number. */
  ghost predicate Delivers(sys: System, at: NodeId, e: Event, s: nat) {
    exists a, m :: a in sys && a != at && Broadcast(m) in sys[a].sent && IsAbout(m, s) && e == EventOf(m)
  }

  /** `later` goes on from `run` with this number of deliveries among correct replicas about the
      number, besides advances of the number. */
  ghost predicate GoesOn(env: Env, correct: set<NodeId>, run: Run, s: nat, later: Run, deliveries: nat)
    requires env.Valid()
    decreases later
  {
    || (later == run && deliveries == 0)
    || (later.Then? && later.at in correct &&
        if IsAdvanceOf(later.event, s) then GoesOn(env, correct, run, s, later.before, deliveries)
        else
          && deliveries > 0
          && Delivers(After(env, correct, later.before), later.at, later.event, s)
          && GoesOn(env, correct, run, s, later.before, deliveries - 1))
  }

  lemma {:induction false} GoesOnTwice(env: Env, correct: set<NodeId>, run: Run, s: nat, later: Run, i: nat,
                                       last: Run, j: nat)
    requires env.Valid() && GoesOn(env, correct, run, s, later, i) && GoesOn(env, correct, later, s, last, j)
    ensures GoesOn(env, correct, run, s, last, i + j)
    decreases last
  {
    hide Delivers, IsAdvanceOf, After;
    if !(last == later && j == 0) {
      if IsAdvanceOf(last.event, s) {
        GoesOnTwice(env, correct, run, s, later, i, last.before, j);
      } else {
        GoesOnTwice(env, correct, run, s, later, i, last.before, j - 1);
      }
    }
  }

  // ---------- What stays on the way ----------

  ghost predicate InAllWindows(sys: System, s: nat) {
    forall k :: k in sys ==> sys[k].st.InWindow(s)
  }

  /** The primary has issued the pre-prepare, in the first view, and its number is in all windows. */
  ghost predicate Underway(env: Env, correct: set<NodeId>, run: Run, pp: PrePrepare)
    requires env.Valid() && env.Primary(0) in correct
  {
    && Obeys(env, correct, STABLE_VIEW, run)
    && Issued(env, After(env, correct, run), pp)
    && InAllWindows(After(env, correct, run), pp.sequence)
  }

  /** What a correct replica has broadcast verifies as what it has signed. */
  lemma {:induction false} BroadcastsGenuine(env: Env, correct: set<NodeId>, run: Run, a: NodeId, m: Message, s: nat)
    requires env.Valid() && env.Primary(0) in correct && a in correct && Obeys(env, correct, STABLE_VIEW, run)
    requires Broadcast(m) in After(env, correct, run)[a].sent && IsAbout(m, s)
    ensures Genuine(env, After(env, correct, run), EventOf(m))
  {
    hide After, Obeys, Inv;
    var n := After(env, correct, run)[a];
    ReplicaInvariant(env, correct, run, a);
    OwnBroadcastsInRuns(env, correct, run, a);
    ReadyInRuns(env, correct, run, a);
    AssignmentsSigned(env, correct, run, a);
    if m.PrePrepareMsg? {
      assert Assigned(n, 0, m.prePrepare.sequence, m.prePrepare.digest);
    }
  }

  /** Deliveries and advances leave windows alone and take nothing back. */
  lemma UnderwayStep(env: Env, n: Node, e: Event, m: Move, n': Node, s: nat)
    requires env.Valid() && Follows(env, n, e, m, n') && Speaks(env, n, e, m, n')
    requires IsAdvanceOf(e, s) || e.RecvPrePrepare? || e.RecvPrepare? || e.RecvCommit?
    ensures n'.st.lowWatermark == n.st.lowWatermark && n'.st.highWatermark == n.st.highWatermark
    ensures n.sent <= n'.sent
  {
  }

  lemma {:induction false} StaysUnderway(env: Env, correct: set<NodeId>, run: Run, pp: PrePrepare, k: NodeId, e: Event)
    requires env.Valid() && env.Primary(0) in correct && k in correct && Underway(env, correct, run, pp)
    requires IsAdvanceOf(e, pp.sequence) || Delivers(After(env, correct, run), k, e, pp.sequence)
    ensures Underway(env, correct, Then(run, k, e), pp)
    ensures Outstanding(env, After(env, correct, Then(run, k, e)), pp) <= Outstanding(env, After(env, correct, run), pp)
  {
    hide Step, MoveOf, Follows, Speaks, Inv, LogOk, WindowOk, LogSigned, Outstanding;
    var sys := After(env, correct, run);
    if !IsAdvanceOf(e, pp.sequence) {
      var a, m :| a in sys && a != k && Broadcast(m) in sys[a].sent && IsAbout(m, pp.sequence) && e == EventOf(m);
      BroadcastsGenuine(env, correct, run, a, m, pp.sequence);
    }
    var move := StepInRun(env, correct, Then(run, k, e));
    UnderwayStep(env, sys[k], e, move, After(env, correct, Then(run, k, e))[k], pp.sequence);
    OutstandingShrinks(env, correct, Then(run, k, e), pp);
  }

  // ---------- Running the advances ----------

  function Advances(n: Node, s: nat): nat {
    2 * n.pending[AdvancePrepared(s)] + n.pending[AdvanceCommitted(s)]
  }

  lemma AdvanceUsesUp(env: Env, n: Node, s: nat)
    requires env.Valid()
    ensures AdvancePrepared(s) in n.pending ==> Advances(Step(env, n, Run(AdvancePrepared(s))), s) < Advances(n, s)
    ensures AdvanceCommitted(s) in n.pending ==> Advances(Step(env, n, Run(AdvanceCommitted(s))), s) < Advances(n, s)
  {
  }

  ghost predicate Quiet(n: Node, s: nat) {
    AdvancePrepared(s) !in n.pending && AdvanceCommitted(s) !in n.pending
  }

  /** Replica `k` runs its advances of the number until there are none. */
  lemma {:induction false} Advanced(env: Env, correct: set<NodeId>, run: Run, pp: PrePrepare, k: NodeId)
    returns (later: Run)
    requires env.Valid() && env.Primary(0) in correct && k in correct && Underway(env, correct, run, pp)
    ensures GoesOn(env, correct, run, pp.sequence, later, 0) && Underway(env, correct, later, pp)
    ensures var sys, sys' := After(env, correct, run), After(env, correct, later);
            && Quiet(sys'[k], pp.sequence)
            && sys' == sys[k := sys'[k]]
            && Outstanding(env, sys', pp) <= Outstanding(env, sys, pp)
    decreases Advances(After(env, correct, run)[k], pp.sequence)
  {
    hide Step, MoveOf, Underway, Outstanding;
    var n, s := After(env, correct, run)[k], pp.sequence;
    if Quiet(n, s) {
      later := run;
    } else {
      var t := if AdvancePrepared(s) in n.pending then AdvancePrepared(s) else AdvanceCommitted(s);
      var next := Then(run, k, Run(t));
      AdvanceUsesUp(env, n, s);
      StaysUnderway(env, correct, run, pp, k, Run(t));
      later := Advanced(env, correct, next, pp, k);
      assert GoesOn(env, correct, run, s, next, 0);
      GoesOnTwice(env, correct, run, s, next, 0, later, 0);
    }
  }

  /** All correct replicas in `todo` run theirs. */
  lemma {:induction false} AllAdvanced(env: Env, correct: set<NodeId>, run: Run, pp: PrePrepare, todo: set<NodeId>)
    returns (later: Run)
    requires env.Valid() && env.Primary(0) in correct && todo <= correct && Underway(env, correct, run, pp)
    requires forall k :: k in correct && k !in todo ==> Quiet(After(env, correct, run)[k], pp.sequence)
    ensures GoesOn(env, correct, run, pp.sequence, later, 0) && Underway(env, correct, later, pp)
    ensures NoAdvancePending(After(env, correct, later), pp.sequence)
    ensures Outstanding(env, After(env, correct, later), pp) <= Outstanding(env, After(env, correct, run), pp)
    decreases todo
  {
    hide Step, MoveOf, Underway, Outstanding;
    if todo == {} {
      later := run;
    } else {
      var k :| k in todo;
      var next := Advanced(env, correct, run, pp, k);
      later := AllAdvanced(env, correct, next, pp, todo - {k});
      GoesOnTwice(env, correct, run, pp.sequence, next, 0, later, 0);
    }
  }

  // ---------- Until everyone has committed ----------

  /** Every correct replica has committed the number with the digest, and executed the digest. */
  ghost predicate CommittedEverywhere(sys: System, s: nat, d: Hash) {
    forall k :: k in sys ==>
      Holds(sys[k], s, d) && sys[k].st.log[s].phase == Committed && d in sys[k].st.executed
  }

  lemma Smaller<T>(a: set<T>, b: set<T>)
    requires a <= b
    ensures |a| <= |b|
    ensures a != b ==> |a| < |b|
  {
    assert b == a + (b - a);
  }

  lemma OutstandingIsAbout(env: Env, sys: System, pp: PrePrepare, b: NodeId, m: Message)
    requires (b, m) in Outstanding(env, sys, pp)
    ensures b in sys && IsAbout(m, pp.sequence)
  {
  }

  ghost predicate Lacks(sys: System, k: NodeId, s: nat, d: Hash) {
    k in sys && !(Holds(sys[k], s, d) && sys[k].st.log[s].phase == Committed)
  }

  /** While a replica has not committed and no advance is pending, a delivery gets the others
      further. */
  lemma {:induction false} NextDelivery(env: Env, correct: set<NodeId>, run: Run, pp: PrePrepare, k: NodeId)
    returns (next: Run)
    requires env.Valid() && env.Primary(0) in correct && SignaturesVerify(env, correct)
    requires |correct| >= env.config.Quorum() && Underway(env, correct, run, pp)
    requires NoAdvancePending(After(env, correct, run), pp.sequence)
    requires Lacks(After(env, correct, run), k, pp.sequence, pp.digest)
    ensures GoesOn(env, correct, run, pp.sequence, next, 1) && Underway(env, correct, next, pp)
    ensures |Outstanding(env, After(env, correct, next), pp)| < |Outstanding(env, After(env, correct, run), pp)|
  {
    hide Step, MoveOf, Inv, SignaturesVerify, Outstanding, NoAdvancePending, After, Obeys, Issued;
    var sys, s := After(env, correct, run), pp.sequence;
    SomethingToDo(env, correct, run, pp, k);
    var a, b, m :| a in sys && b in sys && a != b && Broadcast(m) in sys[a].sent && (b, m) in Outstanding(env, sys, pp);
    OutstandingIsAbout(env, sys, pp, b, m);
    var e := EventOf(m);
    next := Then(run, b, e);
    StaysUnderway(env, correct, run, pp, b, e);
    DeliveryIsUseful(env, correct, run, pp, b, m);
    Smaller(Outstanding(env, After(env, correct, next), pp), Outstanding(env, sys, pp));
    assert GoesOn(env, correct, run, s, run, 0);
  }

  lemma {:induction false} NothingLacking(env: Env, correct: set<NodeId>, run: Run, s: nat, d: Hash)
    requires env.Valid() && forall k :: !Lacks(After(env, correct, run), k, s, d)
    ensures CommittedEverywhere(After(env, correct, run), s, d)
  {
    hide Step, MoveOf, Inv, After;
    var sys := After(env, correct, run);
    forall k | k in sys
      ensures Holds(sys[k], s, d) && sys[k].st.log[s].phase == Committed && d in sys[k].st.executed
    {
      assert !Lacks(sys, k, s, d);
      ReplicaInvariant(env, correct, run, k);
      CommittedIsExecuted(env, sys[k], s, d);
    }
  }

  lemma {:induction false} Completed(env: Env, correct: set<NodeId>, run: Run, pp: PrePrepare)
    returns (later: Run, deliveries: nat)
    requires env.Valid() && env.Primary(0) in correct && SignaturesVerify(env, correct)
    requires |correct| >= env.config.Quorum() && Underway(env, correct, run, pp)
    ensures GoesOn(env, correct, run, pp.sequence, later, deliveries) && Obeys(env, correct, STABLE_VIEW, later)
    ensures CommittedEverywhere(After(env, correct, later), pp.sequence, pp.digest)
    ensures deliveries <= |Outstanding(env, After(env, correct, run), pp)|
    decreases |Outstanding(env, After(env, correct, run), pp)|
  {
    hide Outstanding, NoAdvancePending, SignaturesVerify, Lacks, CommittedEverywhere, GoesOn, After, Obeys, Issued,
      InAllWindows;
    var s, d := pp.sequence, pp.digest;
    var quiet := AllAdvanced(env, correct, run, pp, correct);
    Smaller(Outstanding(env, After(env, correct, quiet), pp), Outstanding(env, After(env, correct, run), pp));
    if k :| Lacks(After(env, correct, quiet), k, s, d) {
      var next := NextDelivery(env, correct, quiet, pp, k);
      var rest: nat;
      later, rest := Completed(env, correct, next, pp);
      GoesOnTwice(env, correct, run, s, quiet, 0, next, 1);
      GoesOnTwice(env, correct, run, s, next, 1, later, rest);
      deliveries := 1 + rest;
    } else {
      later, deliveries := quiet, 0;
      NothingLacking(env, correct, quiet, s, d);
    }
  }

  /** From every run in which the correct primary has issued a number that is in all windows, and
      with a quorum of correct replicas, at most h * (1 + 2h) deliveries of what the h correct
      replicas have broadcast, besides pending advances, lead to a run in which every correct
      replica has committed the number and executed its digest, whatever faulty backups have sent. */
  lemma {:induction false} CompletesInTime(env: Env, correct: set<NodeId>, run: Run, pp: PrePrepare)
    returns (later: Run, deliveries: nat)
    requires env.Valid() && env.Primary(0) in correct && SignaturesVerify(env, correct)
    requires |correct| >= env.config.Quorum() && Underway(env, correct, run, pp)
    ensures GoesOn(env, correct, run, pp.sequence, later, deliveries) && Obeys(env, correct, STABLE_VIEW, later)
    ensures CommittedEverywhere(After(env, correct, later), pp.sequence, pp.digest)
    ensures deliveries <= DeliveryBound(|correct|)
  {
    later, deliveries := Completed(env, correct, run, pp);
    OutstandingBound(env, After(env, correct, run), pp);
  }
}
