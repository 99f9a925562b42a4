/** Runs with a correct primary and no new view: every digest a correct replica records is the
    one the primary assigned, and commits rest on correct replicas, whatever the backups do. */
module HonestPrimary {
  import opened Messages
  import opened Protocol
  import opened Moves
  import opened Records
  import opened Runs
  import opened Signing

  const STABLE_VIEW := {Unforgeable, NoNewView}

  // ---------- Everyone follows the primary ----------

  /** Whatever a correct replica signs in the first view, the primary has signed. */
  ghost predicate PrimaryFollowed(env: Env, sys: System, k: NodeId)
    requires env.Valid() && k in sys
  {
    forall v, s, d :: PrepareData(v, s, d) in sys[k].signed ==>
      v == 0 && Vouched(sys, env.Primary(0), PrepareData(0, s, d))
  }

  lemma PrimaryFollowedStep(env: Env, sys: System, at: NodeId, e: Event, sys': System, m: Move, k: NodeId)
    requires env.Valid() && Stepped(sys, at, sys') && Genuine(env, sys, e)
    requires var n, n' := sys[at], sys'[at];
             Follows(env, n, e, m, n') && Speaks(env, n, e, m, n') && n.st.nodeId == at && n.st.view == 0
    requires k in sys && PrimaryFollowed(env, sys, k)
    ensures PrimaryFollowed(env, sys', k)
  {
    forall v, s, d | PrepareData(v, s, d) in sys'[k].signed
      ensures v == 0 && Vouched(sys', env.Primary(0), PrepareData(0, s, d))
    {
      if PrepareData(v, s, d) !in sys[k].signed {
        assert PrepareData(v, s, d) in SignedBy(env, sys[at].st, m);
      }
    }
  }

  lemma {:induction false} PrimaryFollowedInRuns(env: Env, correct: set<NodeId>, run: Run, k: NodeId)
    requires env.Valid() && k in correct && Obeys(env, correct, STABLE_VIEW, run)
    ensures PrimaryFollowed(env, After(env, correct, run), k)
  {
    hide Step, MoveOf, Follows, Speaks, Inv;
    if run.Then? {
      var Then(before, at, e) := run;
      var sys, sys' := After(env, correct, before), After(env, correct, run);
      PrimaryFollowedInRuns(env, correct, before, k);
      if at in correct {
        var m := StepInRun(env, correct, run);
        FewerRules(env, correct, STABLE_VIEW, {NoNewView}, before);
        ViewStaysZero(env, correct, before, at);
        assert Allowed(env, sys, at, e, Unforgeable);
        PrimaryFollowedStep(env, sys, at, e, sys', m, k);
      }
    }
  }

  /** The replica has recorded the digest, prepared, committed or executed at the number, now or
      earlier in the run. */
  ghost predicate Recorded(env: Env, n: Node, s: nat, d: Hash) {
    || SignedPrepare(n, s, d)
    || (s in n.st.log && n.st.log[s].digest == Some(d))
    || Decision(s, d) in n.decided
    || (exists x :: x in n.delivered && x.sequence == s && env.digest(x.request) == d)
  }

  lemma RecordedSigned(env: Env, n: Node, s: nat, d: Hash)
    requires env.Valid() && Inv(env, n) && Recorded(env, n, s, d)
    ensures SignedPrepare(n, s, d)
  {
    if s in n.st.log && n.st.log[s].digest == Some(d) {
      assert PrepareData(n.st.log[s].prePrepare.value.view, s, d) in n.signed;
    }
  }

  /** With a correct primary every digest that a correct replica ever records for a sequence
      number, even if it has discarded the instance since, is the one in the pre-prepare that the
      primary broadcast for the number; for any number of faulty backups, and whatever the
      network does. */
  lemma {:induction false} RecordedIsAssigned(env: Env, correct: set<NodeId>, run: Run, k: NodeId, s: nat, d: Hash)
    requires env.Valid() && env.Primary(0) in correct && k in correct && Obeys(env, correct, STABLE_VIEW, run)
    requires Recorded(env, After(env, correct, run)[k], s, d)
    ensures var sys := After(env, correct, run);
            var primary := sys[env.Primary(0)];
            && 1 <= s <= primary.st.sequence
            && PrepareData(0, s, d) in primary.signed
            && Assigned(primary, 0, s, d)
            && forall d' :: Assigned(primary, 0, s, d') ==> d' == d
  {
    var sys, p := After(env, correct, run), env.Primary(0);
    ReplicaInvariant(env, correct, run, k);
    ReplicaInvariant(env, correct, run, p);
    RecordedSigned(env, sys[k], s, d);
    PrimaryFollowedInRuns(env, correct, run, k);
    FewerRules(env, correct, STABLE_VIEW, {Unforgeable}, run);
    OneDigestInRuns(env, correct, run, p);
    assert Accounted(env, sys[p], 0, s, d);
    AssignmentsSigned(env, correct, run, p);
  }

  /** Agreement with a correct primary. */
  lemma {:induction false} AgreementWithCorrectPrimary(env: Env, correct: set<NodeId>, run: Run, a: NodeId, b: NodeId,
                                                       s: nat, d: Hash, d': Hash)
    requires env.Valid() && env.Primary(0) in correct && a in correct && b in correct
    requires Obeys(env, correct, STABLE_VIEW, run)
    requires var sys := After(env, correct, run); Recorded(env, sys[a], s, d) && Recorded(env, sys[b], s, d')
    ensures d == d'
  {
    RecordedIsAssigned(env, correct, run, a, s, d);
    RecordedIsAssigned(env, correct, run, b, s, d');
  }
}
