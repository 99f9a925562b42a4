/** What a correct replica signs: one digest for a sequence number in a view, and, as long as
    primaries assign fresh numbers only, one digest for a sequence number altogether. */
module Signing {
  import opened Messages
  import opened Protocol
  import opened Moves
  import opened Invariant
  import opened Records
  import opened Runs

  /** The broadcast of a pre-prepare. */
  ghost predicate Assigned(n: Node, v: nat, s: nat, d: Hash) {
    exists pp :: Broadcast(PrePrepareMsg(pp)) in n.sent && pp.view == v && pp.sequence == s && pp.digest == d
  }

  // ---------- One digest in a view ----------

  /** What is behind a signed pre-prepare or prepare: at the primary of the view, an assignment
      of the number; at a backup, as long as the view and the window last, the recorded digest. */
  ghost predicate Accounted(env: Env, n: Node, v: nat, s: nat, d: Hash)
    requires env.Valid()
  {
    && v <= n.st.view
    && (env.Primary(v) == n.st.nodeId ==> 1 <= s <= n.st.sequence && Assigned(n, v, s, d))
    && (env.Primary(v) != n.st.nodeId && v == n.st.view && s > n.st.lowWatermark ==>
          s in n.st.log && n.st.log[s].digest == Some(d))
  }

  ghost predicate OneDigest(env: Env, n: Node)
    requires env.Valid()
  {
    && (forall v: nat, s: nat, d :: PrepareData(v, s, d) in n.signed ==> Accounted(env, n, v, s, d))
    && (forall v: nat, s: nat, d, d' ::
          PrepareData(v, s, d) in n.signed && PrepareData(v, s, d') in n.signed ==> d == d')
  }

  /** A replica that is handed its own pre-prepare has signed it before. */
  ghost predicate OwnVouched(env: Env, n: Node, e: Event, m: Move) {
    m.Open? && e.RecvPrePrepare? && m.prePrepare.primaryId == n.st.nodeId ==>
      var pp := m.prePrepare;
      PrepareData(pp.view, pp.sequence, pp.digest) in n.signed
  }

  lemma AssignedStep(env: Env, n: Node, e: Event, m: Move, n': Node, v: nat, s: nat, d: Hash)
    requires env.Valid() && Follows(env, n, e, m, n') && Speaks(env, n, e, m, n')
    requires Assigned(n, v, s, d) || (m.Open? && e.ClientRequest? && PrepareData(v, s, d) in SignedBy(env, n.st, m))
    ensures Assigned(n', v, s, d)
  {
    if Assigned(n, v, s, d) {
      var pp :| Broadcast(PrePrepareMsg(pp)) in n.sent && pp.view == v && pp.sequence == s && pp.digest == d;
      assert Broadcast(PrePrepareMsg(pp)) in n'.sent;
    } else {
      assert Votes(env, n.st, m, e)[0] == Broadcast(PrePrepareMsg(m.prePrepare));
      assert Broadcast(PrePrepareMsg(m.prePrepare)) in n'.sent;
    }
  }

  lemma AccountedStep(env: Env, n: Node, e: Event, m: Move, n': Node, v: nat, s: nat, d: Hash)
    requires env.Valid() && Follows(env, n, e, m, n') && Speaks(env, n, e, m, n')
    requires LogOk(env, n.st) && WindowOk(env, n.st) && OwnVouched(env, n, e, m)
    requires PrepareData(v, s, d) in n.signed ==> Accounted(env, n, v, s, d)
    requires PrepareData(v, s, d) in n'.signed
    ensures Accounted(env, n', v, s, d)
  {
    if env.Primary(v) == n.st.nodeId {
      AssignedStep(env, n, e, m, n', v, s, d);
    }
  }

  /** A new signature is for a number nothing else was signed for in the view. */
  lemma OneDigestAddition(env: Env, n: Node, e: Event, m: Move, v: nat, s: nat, d: Hash, d': Hash)
    requires env.Valid() && Guard(env, n.st, m) && Origin(env, n, e, m)
    requires LogOk(env, n.st) && WindowOk(env, n.st) && OneDigest(env, n) && OwnVouched(env, n, e, m)
    requires PrepareData(v, s, d) in n.signed && PrepareData(v, s, d') in SignedBy(env, n.st, m)
    ensures d == d'
  {
    assert Accounted(env, n, v, s, d);
  }

  lemma OneDigestStep(env: Env, n: Node, e: Event, m: Move, n': Node)
    requires env.Valid() && Follows(env, n, e, m, n') && Speaks(env, n, e, m, n')
    requires LogOk(env, n.st) && WindowOk(env, n.st) && OneDigest(env, n) && OwnVouched(env, n, e, m)
    ensures OneDigest(env, n')
  {
    hide LogOk, WindowOk, Accounted, Origin, Moved, OwnVouched;
    forall v: nat, s: nat, d | PrepareData(v, s, d) in n'.signed ensures Accounted(env, n', v, s, d) {
      AccountedStep(env, n, e, m, n', v, s, d);
    }
    forall v: nat, s: nat, d, d' | PrepareData(v, s, d) in n.signed && PrepareData(v, s, d') in SignedBy(env, n.st, m)
      ensures d == d'
    {
      OneDigestAddition(env, n, e, m, v, s, d, d');
    }
  }

  /** Broadcast pre-prepares are signed. */
  ghost predicate AssignmentsBacked(n: Node) {
    forall v: nat, s: nat, d :: Assigned(n, v, s, d) ==> PrepareData(v, s, d) in n.signed
  }

  lemma AssignmentsBackedStep(env: Env, n: Node, e: Event, m: Move, n': Node)
    requires env.Valid() && Follows(env, n, e, m, n') && Speaks(env, n, e, m, n') && AssignmentsBacked(n)
    ensures AssignmentsBacked(n')
  {
    forall v: nat, s: nat, d | Assigned(n', v, s, d) ensures PrepareData(v, s, d) in n'.signed {
      var pp :| Broadcast(PrePrepareMsg(pp)) in n'.sent && pp.view == v && pp.sequence == s && pp.digest == d;
      if Broadcast(PrePrepareMsg(pp)) in n.sent {
        assert Assigned(n, v, s, d);
      }
    }
  }

  // ---------- One digest in all views ----------

  ghost predicate OneDigestEver(n: Node) {
    && (forall s: nat, d :: SignedPrepare(n, s, d) && s > n.st.lowWatermark ==>
          s in n.st.log && n.st.log[s].digest == Some(d))
    && (forall s: nat, d, d' :: SignedPrepare(n, s, d) && SignedPrepare(n, s, d') ==> d == d')
  }

  /** A prepare for a new digest is for the instance that is opened, of a number that nothing was
      signed for. */
  lemma NewPrepare(env: Env, n: Node, e: Event, m: Move, n': Node, s: nat, d: Hash)
    requires env.Valid() && Follows(env, n, e, m, n') && Speaks(env, n, e, m, n')
    requires LogOk(env, n.st) && WindowOk(env, n.st) && OneDigestEver(n)
    requires !AssignsAnother(env, n, e)
    requires SignedPrepare(n', s, d) && !SignedPrepare(n, s, d)
    ensures m.Open? && s == m.prePrepare.sequence && d == m.prePrepare.digest && Unsigned(n, s)
  {
    var v :| PrepareData(v, s, d) in n'.signed;
    assert PrepareData(v, s, d) in SignedBy(env, n.st, m);
    forall d' ensures !SignedPrepare(n, s, d') {
      assert s in n.st.log ==> InstanceOk(env, n.st.nodeId, s, n.st.log[s]);
      assert e.ClientRequest? ==> d == env.digest(e.request) && !SignedAnother(n, s, d);
    }
  }

  lemma DigestStays(env: Env, st: State, m: Move, s: nat, d: Hash)
    requires Guard(env, st, m) && s in st.log && st.log[s].digest == Some(d)
    requires s in Moved(env, st, m) && !(m.Open? && m.prePrepare.sequence == s)
    ensures Moved(env, st, m)[s].digest == Some(d)
  {
  }

  lemma PrepareStays(env: Env, n: Node, e: Event, m: Move, n': Node, s: nat, d: Hash)
    requires env.Valid() && Follows(env, n, e, m, n') && WindowOk(env, n.st) && LogOk(env, n.st)
    requires !AssignsAnother(env, n, e)
    requires SignedPrepare(n, s, d) && s > n'.st.lowWatermark
    requires s > n.st.lowWatermark ==> s in n.st.log && n.st.log[s].digest == Some(d)
    ensures s in n'.st.log && n'.st.log[s].digest == Some(d)
  {
    assert s in n.st.log ==> InstanceOk(env, n.st.nodeId, s, n.st.log[s]);
    assert m.Open? && e.ClientRequest? && m.prePrepare.sequence == s ==> !SignedAnother(n, s, m.prePrepare.digest);
    if !(m.Open? && m.prePrepare.sequence == s) {
      DigestStays(env, n.st, m, s, d);
    }
  }

  lemma OpenedDigest(env: Env, n: Node, e: Event, m: Move, n': Node)
    requires env.Valid() && Follows(env, n, e, m, n') && m.Open?
    ensures var pp := m.prePrepare;
            pp.sequence in n'.st.log && n'.st.log[pp.sequence].digest == Some(pp.digest)
  {
  }

  lemma OneDigestEverStep(env: Env, n: Node, e: Event, m: Move, n': Node)
    requires env.Valid() && Follows(env, n, e, m, n') && Speaks(env, n, e, m, n')
    requires LogOk(env, n.st) && WindowOk(env, n.st) && OneDigestEver(n)
    requires !AssignsAnother(env, n, e)
    ensures OneDigestEver(n')
  {
    hide Follows, Speaks, LogOk, WindowOk, AssignsAnother, SignedPrepare;
    forall s: nat, d | SignedPrepare(n', s, d)
      ensures || SignedPrepare(n, s, d)
              || (m.Open? && s == m.prePrepare.sequence && d == m.prePrepare.digest && Unsigned(n, s))
    {
      if !SignedPrepare(n, s, d) {
        NewPrepare(env, n, e, m, n', s, d);
      }
    }
    forall s: nat, d | SignedPrepare(n', s, d) && s > n'.st.lowWatermark
      ensures s in n'.st.log && n'.st.log[s].digest == Some(d)
    {
      if SignedPrepare(n, s, d) {
        PrepareStays(env, n, e, m, n', s, d);
      } else {
        OpenedDigest(env, n, e, m, n');
      }
    }
  }

  lemma GuardHolds(env: Env, n: Node, e: Event, m: Move, n': Node)
    requires env.Valid() && Follows(env, n, e, m, n')
    ensures Guard(env, n.st, m)
  {
  }

  lemma SecondDigest(env: Env, n: Node, e: Event, m: Move, n': Node)
    requires env.Valid() && m == MoveOf(env, n, e) && Speaks(env, n, e, m, n') && AssignsAnother(env, n, e)
    requires Guard(env, n.st, m)
    ensures !OneDigestEver(n')
  {
    var s, d := n.st.sequence + 1, env.digest(e.request);
    assert PrepareData(n.st.view, s, d) in SignedBy(env, n.st, m);
    assert SignedPrepare(n', s, d);
    var d' :| d' != d && SignedPrepare(n, s, d');
    var v :| PrepareData(v, s, d') in n.signed;
    assert PrepareData(v, s, d') in n'.signed;
    assert SignedPrepare(n', s, d');
  }

  /** When a replica comes to sign two digests for one number: exactly when, as the primary, it
      assigns the number though it has signed another digest for it. */
  lemma OneDigestEverExactly(env: Env, n: Node, e: Event)
    requires env.Valid() && Inv(env, n) && OneDigestEver(n)
    ensures OneDigestEver(Step(env, n, e)) <==> !AssignsAnother(env, n, e)
  {
    hide Step, MoveOf, OneDigestEver, AssignsAnother, Follows, Speaks;
    StepMoves(env, n, e);
    var m, n' := MoveOf(env, n, e), Step(env, n, e);
    if AssignsAnother(env, n, e) {
      GuardHolds(env, n, e, m, n');
      SecondDigest(env, n, e, m, n');
    } else {
      OneDigestEverStep(env, n, e, m, n');
    }
  }

  /** Above the low watermark, the numbers nothing was signed for are those without a recorded
      pre-prepare: freshness is a test a primary could make before it assigns. */
  lemma UnsignedIsTestable(env: Env, n: Node, s: nat)
    requires env.Valid() && Inv(env, n) && OneDigestEver(n) && s > n.st.lowWatermark
    ensures Unsigned(n, s) <==> !n.st.HoldsPrePrepare(s)
  {
    if n.st.HoldsPrePrepare(s) {
      assert SignedPrepare(n, s, n.st.log[s].digest.value);
    }
  }

  /** What is signed for a number above the low watermark is what is recorded. */
  lemma SignedIsRecorded(env: Env, n: Node, s: nat, d: Hash)
    requires env.Valid() && Inv(env, n) && OneDigestEver(n) && s > n.st.lowWatermark
    ensures SignedPrepare(n, s, d) <==> s in n.st.log && n.st.log[s].digest == Some(d)
    ensures s in n.st.log ==> (n.st.log[s].digest.Some? <==> n.st.log[s].prePrepare.Some?)
  {
    assert s in n.st.log ==> InstanceOk(env, n.st.nodeId, s, n.st.log[s]);
  }

  /** So is consistency: the test is whether another digest is recorded. */
  lemma AssignsAnotherIsTestable(env: Env, n: Node, e: Event)
    requires env.Valid() && Inv(env, n) && OneDigestEver(n) && n.st.sequence + 1 > n.st.lowWatermark
    ensures AssignsAnother(env, n, e) <==>
              && e.ClientRequest?
              && ClassifyRequest(env, n.st, e.request) == Assign
              && n.st.HoldsPrePrepare(n.st.sequence + 1)
              && n.st.log[n.st.sequence + 1].digest != Some(env.digest(e.request))
  {
    hide Inv, OneDigestEver, SignedPrepare, ClassifyRequest;
    var s := n.st.sequence + 1;
    forall d ensures SignedPrepare(n, s, d) <==> s in n.st.log && n.st.log[s].digest == Some(d) {
      SignedIsRecorded(env, n, s, d);
    }
    SignedIsRecorded(env, n, s, Hash([]));
    if n.st.HoldsPrePrepare(s) {
      assert SignedPrepare(n, s, n.st.log[s].digest.value);
    }
  }

  // ---------- In runs ----------

  lemma {:induction false} OwnIsVouched(env: Env, correct: set<NodeId>, run: Run, m: Move)
    requires env.Valid() && run.Then? && run.at in correct && Obeys(env, correct, {Unforgeable}, run)
    requires var n := After(env, correct, run.before)[run.at];
             n.st.nodeId == run.at && Follows(env, n, run.event, m, After(env, correct, run)[run.at])
    ensures OwnVouched(env, After(env, correct, run.before)[run.at], run.event, m)
  {
    hide Step, Guard, Moved;
    assert Allowed(env, After(env, correct, run.before), run.at, run.event, Unforgeable);
  }

  lemma {:induction false} OneDigestInRuns(env: Env, correct: set<NodeId>, run: Run, k: NodeId)
    requires env.Valid() && k in correct && Obeys(env, correct, {Unforgeable}, run)
    ensures OneDigest(env, After(env, correct, run)[k])
  {
    hide Step, MoveOf, Follows, Speaks, Inv;
    if run.Then? {
      var Then(before, at, e) := run;
      OneDigestInRuns(env, correct, before, k);
      if at == k {
        var m := StepInRun(env, correct, run);
        OwnIsVouched(env, correct, run, m);
        OneDigestStep(env, After(env, correct, before)[k], e, m, After(env, correct, run)[k]);
      }
    }
  }

  lemma {:induction false} AssignmentsSigned(env: Env, correct: set<NodeId>, run: Run, k: NodeId)
    requires env.Valid() && k in correct
    ensures AssignmentsBacked(After(env, correct, run)[k])
  {
    hide Step, MoveOf, Follows, Speaks, Inv;
    if run.Then? {
      AssignmentsSigned(env, correct, run.before, k);
      if run.at == k {
        var m := StepInRun(env, correct, run);
        AssignmentsBackedStep(env, After(env, correct, run.before)[k], run.event, m, After(env, correct, run)[k]);
      }
    }
  }

  /** A correct replica never signs pre-prepares or prepares for two digests at one sequence
      number of one view, over any run, with checkpoints and new views. */
  lemma {:induction false} OneDigestPerSlot(env: Env, correct: set<NodeId>, run: Run, k: NodeId, v: nat, s: nat,
                                            d: Hash, d': Hash)
    requires env.Valid() && k in correct && Obeys(env, correct, {Unforgeable}, run)
    requires var n := After(env, correct, run)[k];
             PrepareData(v, s, d) in n.signed && PrepareData(v, s, d') in n.signed
    ensures d == d'
  {
    OneDigestInRuns(env, correct, run, k);
  }

  /** While primaries assign numbers consistently, a correct replica signs one digest for a number,
      whatever the view. */
  lemma {:induction false} OneDigestEverInRuns(env: Env, correct: set<NodeId>, run: Run, k: NodeId)
    requires env.Valid() && k in correct && Obeys(env, correct, {ConsistentAssignments}, run)
    ensures OneDigestEver(After(env, correct, run)[k])
  {
    hide Step, MoveOf, Follows, Speaks, Inv;
    if run.Then? {
      var Then(before, at, e) := run;
      var sys := After(env, correct, before);
      OneDigestEverInRuns(env, correct, before, k);
      if at == k {
        var m := StepInRun(env, correct, run);
        assert Allowed(env, sys, at, e, ConsistentAssignments);
        OneDigestEverStep(env, sys[k], e, m, After(env, correct, run)[k]);
      }
    }
  }

  /** Fresh assignments are consistent. */
  lemma {:induction false} FreshAreConsistent(env: Env, correct: set<NodeId>, run: Run)
    requires env.Valid() && Obeys(env, correct, {FreshAssignments}, run)
    ensures Obeys(env, correct, {ConsistentAssignments}, run)
  {
    hide Step;
    if run.Then? {
      var Then(before, at, e) := run;
      FreshAreConsistent(env, correct, before);
      assert Allowed(env, After(env, correct, before), at, e, FreshAssignments);
    }
  }

  lemma {:induction false} ViewStaysZero(env: Env, correct: set<NodeId>, run: Run, k: NodeId)
    requires env.Valid() && k in correct && Obeys(env, correct, {NoNewView}, run)
    ensures After(env, correct, run)[k].st.view == 0
  {
    hide Step, MoveOf, Moved, Speaks, Inv;
    if run.Then? {
      var Then(before, at, e) := run;
      var sys := After(env, correct, before);
      ViewStaysZero(env, correct, before, k);
      if at == k {
        var m := StepInRun(env, correct, run);
        assert Allowed(env, sys, at, e, NoNewView);
      }
    }
  }

  /** Without new views every assignment is fresh: the primary's counter only goes up. */
  lemma {:induction false} NoNewViewsAssignFresh(env: Env, correct: set<NodeId>, run: Run)
    requires env.Valid() && Obeys(env, correct, {Unforgeable, NoNewView}, run)
    ensures Obeys(env, correct, {FreshAssignments}, run)
  {
    if run.Then? {
      var Then(before, at, e) := run;
      var sys := After(env, correct, before);
      NoNewViewsAssignFresh(env, correct, before);
      FewerRules(env, correct, {Unforgeable, NoNewView}, {Unforgeable}, before);
      FewerRules(env, correct, {Unforgeable, NoNewView}, {NoNewView}, before);
      if at in sys && Assigns(env, sys[at].st, e) {
        OneDigestInRuns(env, correct, before, at);
        ReplicaInvariant(env, correct, before, at);
        ViewStaysZero(env, correct, before, at);
        assert Unsigned(sys[at], sys[at].st.sequence + 1);
      }
    }
  }

  /** A primary that tests before it assigns also assigns fresh numbers only, in any view. */
  lemma {:induction false} GuardedAssignmentsAreFresh(env: Env, correct: set<NodeId>, run: Run)
    requires env.Valid() && Obeys(env, correct, {GuardedAssignments}, run)
    ensures Obeys(env, correct, {FreshAssignments}, run)
  {
    if run.Then? {
      var Then(before, at, e) := run;
      var sys := After(env, correct, before);
      GuardedAssignmentsAreFresh(env, correct, before);
      if at in sys && Assigns(env, sys[at].st, e) {
        FreshAreConsistent(env, correct, before);
        OneDigestEverInRuns(env, correct, before, at);
        ReplicaInvariant(env, correct, before, at);
        assert Allowed(env, sys, at, e, GuardedAssignments);
        UnsignedIsTestable(env, sys[at], sys[at].st.sequence + 1);
      }
    }
  }
}
