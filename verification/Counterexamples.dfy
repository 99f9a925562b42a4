/** Ways in which the protocol as it is coded loses agreement or checkpoint validity, which is why
    the theorems have the rules they have: prepares and commits that come before the pre-prepare
    count whatever their digest, voters need not be members, checkpoints need not be signed, and a
    new primary assigns numbers that are in use. */
module Counterexamples {
  import opened Messages
  import opened Protocol
  import opened Moves
  import opened Invariant
  import opened Records
  import opened Runs
  import opened Replays
  import Agreement

  // ---------- A request is committed on three votes ----------

  function PrepareOf(env: Env, k: NodeId, r: Request): Prepare {
    MakePrepare(env, k, 0, 1, env.digest(r))
  }

  function CommitOf(env: Env, k: NodeId, r: Request): Commit {
    MakeCommit(env, k, 0, 1, env.digest(r))
  }

  /** The instance of `k` with the pre-prepare of `a`. */
  function Proposed(env: Env, k: NodeId, a: NodeId, r: Request): Instance {
    Opened(NewInstance(1, 0), MakePrePrepare(env, a, 0, 1, r), PrepareOf(env, k, r))
  }

  /** And the prepares of `a` and `x`. */
  function Voted(env: Env, k: NodeId, a: NodeId, x: NodeId, r: Request): Instance {
    WithPrepare(WithPrepare(Proposed(env, k, a, r), PrepareOf(env, a, r)), PrepareOf(env, x, r))
  }

  /** Prepared on them. */
  function Certain(env: Env, k: NodeId, a: NodeId, x: NodeId, r: Request): Instance {
    WithCommit(Voted(env, k, a, x, r).(phase := Prepared), CommitOf(env, k, r))
  }

  /** With the commits of `a` and `x`. */
  function Decided(env: Env, k: NodeId, a: NodeId, x: NodeId, r: Request): Instance {
    WithCommit(WithCommit(Certain(env, k, a, x, r), CommitOf(env, a, r)), CommitOf(env, x, r))
  }

  lemma ThreeVoters(env: Env, k: NodeId, a: NodeId, x: NodeId, r: Request)
    requires k != a && k != x && a != x
    ensures var i := Voted(env, k, a, x, r);
            && |i.prepares| == 3
            && |MatchingVoters(i)| == 3
            && ({k, a, x} <= Members(env) ==> |MatchingMembersOf(env, i)| == 3 && |i.prepares.Keys * Members(env)| == 3)
  {
    var i := Voted(env, k, a, x, r);
    ThreeKeys(i.prepares, k, a, x);
    assert MatchingVoters(i) == i.prepares.Keys && |i.prepares.Keys| == |i.prepares|;
    if {k, a, x} <= Members(env) {
      assert MatchingMembersOf(env, i) == MatchingVoters(i) && i.prepares.Keys * Members(env) == i.prepares.Keys;
    }
  }

  lemma ThreeCommitters(env: Env, k: NodeId, a: NodeId, x: NodeId, r: Request)
    requires k != a && k != x && a != x
    ensures var i := Decided(env, k, a, x, r);
            |i.commits| == 3 && ({k, a, x} <= Members(env) ==> |i.commits.Keys * Members(env)| == 3)
  {
    var i := Decided(env, k, a, x, r);
    ThreeKeys(i.commits, k, a, x);
    assert |i.commits.Keys| == |i.commits|;
    if {k, a, x} <= Members(env) {
      assert i.commits.Keys * Members(env) == i.commits.Keys;
    }
  }

  const MEMBERSHIP := {MemberVoters, MatchingMembers, MemberQuorums}

  /** Votes of `y` pass where these rules are kept. */
  ghost predicate MayVote(env: Env, rules: set<Rule>, y: NodeId) {
    SignaturesVerify(env, {y}) && (rules * MEMBERSHIP != {} ==> y in env.replicas)
  }

  ghost predicate Trio(env: Env, rules: set<Rule>, k: NodeId, a: NodeId, x: NodeId) {
    && env.config.f == 1
    && k != a && k != x && a != x && k in env.replicas
    && MayVote(env, rules, a) && MayVote(env, rules, x)
  }

  lemma TrioOfMembers(env: Env, rules: set<Rule>, k: NodeId, a: NodeId, x: NodeId, rule: Rule)
    requires Trio(env, rules, k, a, x) && rule in rules && rule in MEMBERSHIP
    ensures {k, a, x} <= Members(env)
  {
    assert rule in rules * MEMBERSHIP;
  }

  lemma EachMembers(env: Env, rules: set<Rule>, k: NodeId, a: NodeId, x: NodeId)
    requires Trio(env, rules, k, a, x)
    ensures MemberVoters in rules || MatchingMembers in rules || MemberQuorums in rules ==> {k, a, x} <= Members(env)
  {
    forall rule | rule in rules && rule in MEMBERSHIP ensures {k, a, x} <= Members(env) {
      TrioOfMembers(env, rules, k, a, x, rule);
    }
  }

  /** Replica `k` prepares on its own vote and those of `a` and `x`. */
  lemma {:induction false} PreparesOn(env: Env, correct: set<NodeId>, rules: set<Rule>, run: Run, k: NodeId,
                                      a: NodeId, x: NodeId, r: Request)
    returns (run': Run)
    requires Standing(env, correct, rules, run, k, Proposed(env, k, a, r)) && Trio(env, rules, k, a, x)
    requires var sys, data := After(env, correct, run), PrepareData(0, 1, env.digest(r));
             Vouched(sys, a, data) && Vouched(sys, x, data)
    ensures Next(env, correct, rules, run, k, Certain(env, k, a, x, r), run')
    ensures CommitData(0, 1, env.digest(r)) in After(env, correct, run')[k].signed
  {
    hide Step, MoveOf, After, Obeys, At, MatchingVoters, MatchingMembersOf;
    EachMembers(env, rules, k, a, x);
    var i := Proposed(env, k, a, r);
    var run1 := TakesPrepare(env, correct, rules, run, k, i, PrepareOf(env, a, r));
    var run2 := TakesPrepare(env, correct, rules, run1, k, WithPrepare(i, PrepareOf(env, a, r)), PrepareOf(env, x, r));
    ThreeVoters(env, k, a, x, r);
    run' := Certifies(env, correct, rules, run2, k, Voted(env, k, a, x, r));
    SteppedTwice(After(env, correct, run), k, After(env, correct, run1), After(env, correct, run2));
    SteppedTwice(After(env, correct, run), k, After(env, correct, run2), After(env, correct, run'));
  }

  /** And commits on its own commit and those of `a` and `x`. */
  lemma {:induction false} CommitsOn(env: Env, correct: set<NodeId>, rules: set<Rule>, run: Run, k: NodeId,
                                     a: NodeId, x: NodeId, r: Request)
    returns (run': Run)
    requires Standing(env, correct, rules, run, k, Certain(env, k, a, x, r)) && Trio(env, rules, k, a, x)
    requires var sys, data := After(env, correct, run), CommitData(0, 1, env.digest(r));
             Vouched(sys, a, data) && Vouched(sys, x, data)
    ensures Next(env, correct, rules, run, k, Decided(env, k, a, x, r).(phase := Committed), run')
    ensures Decision(1, env.digest(r)) in After(env, correct, run')[k].decided
  {
    hide Step, MoveOf, After, Obeys, At;
    EachMembers(env, rules, k, a, x);
    var i := Certain(env, k, a, x, r);
    var run1 := TakesCommit(env, correct, rules, run, k, i, CommitOf(env, a, r));
    var run2 := TakesCommit(env, correct, rules, run1, k, WithCommit(i, CommitOf(env, a, r)), CommitOf(env, x, r));
    ThreeCommitters(env, k, a, x, r);
    run' := Finishes(env, correct, rules, run2, k, Decided(env, k, a, x, r));
    SteppedTwice(After(env, correct, run), k, After(env, correct, run1), After(env, correct, run2));
    SteppedTwice(After(env, correct, run), k, After(env, correct, run2), After(env, correct, run'));
  }

  /** Replica `k` has committed the request, and has signed for it. */
  ghost predicate HasCommitted(env: Env, n: Node, r: Request) {
    && Decision(1, env.digest(r)) in n.decided
    && PrepareData(0, 1, env.digest(r)) in n.signed
    && CommitData(0, 1, env.digest(r)) in n.signed
  }

  /** The faulty primary `a` proposes the request to `b` and `d`, who prepare it on their three
      votes; `b` commits it. Nothing has reached `c`. */
  lemma FirstCommitted(env: Env, a: NodeId, b: NodeId, c: NodeId, d: NodeId, r: Request) returns (run: Run)
    requires Four(env, a, b, c, d)
    ensures Standing(env, {b, c, d}, RULES, run, b, Decided(env, b, a, d, r).(phase := Committed))
    ensures Standing(env, {b, c, d}, RULES, run, c, NewInstance(1, 0))
    ensures After(env, {b, c, d}, run)[c] == InitialNode(env, c)
    ensures HasCommitted(env, After(env, {b, c, d}, run)[b], r)
  {
    hide Step, MoveOf, After, Obeys, At;
    var correct, pp := {b, c, d}, MakePrePrepare(env, a, 0, 1, r);
    Starting(env, correct, b);
    Starting(env, correct, c);
    Starting(env, correct, d);
    var run1 := TakesPrePrepare(env, correct, RULES, Start, b, NewInstance(1, 0), pp);
    var run2 := TakesPrePrepare(env, correct, RULES, run1, d, NewInstance(1, 0), pp);
    var run3 := PreparesOn(env, correct, RULES, run2, b, a, d, r);
    var run4 := PreparesOn(env, correct, RULES, run3, d, a, b, r);
    run := CommitsOn(env, correct, RULES, run4, b, a, d, r);
  }

  // ---------- Early votes ----------

  const EARLY_VOTERS := {Unforgeable, MemberVoters, FreshAssignments, ConsistentAssignments, GuardedAssignments,
                         NoNewView, AuthenticCheckpoints, AuthenticQuorums}

  /** The instance of `c` with votes of `b` for one request and the pre-prepare for another. */
  function Misled(env: Env, a: NodeId, b: NodeId, c: NodeId, r: Request, r': Request): Instance {
    var early := WithCommit(WithPrepare(NewInstance(1, 0), PrepareOf(env, b, r)), CommitOf(env, b, r));
    WithPrepare(Opened(early, MakePrePrepare(env, a, 0, 1, r'), PrepareOf(env, c, r')), PrepareOf(env, a, r'))
  }

  /** Prepared on them, and with the commit of the primary besides. */
  function Misguided(env: Env, a: NodeId, b: NodeId, c: NodeId, r: Request, r': Request): Instance {
    WithCommit(WithCommit(Misled(env, a, b, c, r, r').(phase := Prepared), CommitOf(env, c, r')), CommitOf(env, a, r'))
  }

  lemma MisledVotes(env: Env, a: NodeId, b: NodeId, c: NodeId, r: Request, r': Request)
    requires a != b && a != c && b != c
    ensures var i := Misled(env, a, b, c, r, r');
            && |i.prepares| == 3 && a !in i.commits && c !in i.commits
            && i.view == 0 && i.phase == PrePrepared && i.prePrepare.Some? && i.digest == Some(env.digest(r'))
  {
    ThreeKeys(Misled(env, a, b, c, r, r').prepares, a, b, c);
  }

  lemma MisguidedVotes(env: Env, a: NodeId, b: NodeId, c: NodeId, r: Request, r': Request)
    requires a != b && a != c && b != c
    ensures var i := Misguided(env, a, b, c, r, r');
            |i.commits| == 3 && i.view == 0 && i.phase == Prepared && i.digest == Some(env.digest(r'))
  {
    ThreeKeys(Misguided(env, a, b, c, r, r').commits, a, b, c);
  }

  /** Votes of `b` for the first request reach `c`, then the pre-prepare for another request does. */
  lemma {:induction false} Misleads(env: Env, a: NodeId, b: NodeId, c: NodeId, d: NodeId, run: Run, r: Request,
                                    r': Request)
    returns (run': Run)
    requires Four(env, a, b, c, d) && Standing(env, {b, c, d}, EARLY_VOTERS, run, c, NewInstance(1, 0))
    requires HasCommitted(env, After(env, {b, c, d}, run)[b], r)
    ensures Standing(env, {b, c, d}, EARLY_VOTERS, run', c, Misled(env, a, b, c, r, r'))
    ensures Stepped(After(env, {b, c, d}, run), c, After(env, {b, c, d}, run'))
    ensures AdvancePrepared(1) in After(env, {b, c, d}, run')[c].pending
  {
    hide Step, MoveOf, After, Obeys, At;
    var correct, i := {b, c, d}, NewInstance(1, 0);
    var run1 := TakesPrepare(env, correct, EARLY_VOTERS, run, c, i, PrepareOf(env, b, r));
    i := WithPrepare(i, PrepareOf(env, b, r));
    var run2 := TakesCommit(env, correct, EARLY_VOTERS, run1, c, i, CommitOf(env, b, r));
    i := WithCommit(i, CommitOf(env, b, r));
    var pp := MakePrePrepare(env, a, 0, 1, r');
    var run3 := TakesPrePrepare(env, correct, EARLY_VOTERS, run2, c, i, pp);
    i := Opened(i, pp, PrepareOf(env, c, r'));
    run' := TakesPrepare(env, correct, EARLY_VOTERS, run3, c, i, PrepareOf(env, a, r'));
    SteppedTwice(After(env, correct, run), c, After(env, correct, run1), After(env, correct, run2));
    SteppedTwice(After(env, correct, run), c, After(env, correct, run2), After(env, correct, run3));
    SteppedTwice(After(env, correct, run), c, After(env, correct, run3), After(env, correct, run'));
  }

  /** The early votes of `b` and those of the faulty primary make two quorums at `c`. */
  lemma {:induction false} SecondCommitted(env: Env, a: NodeId, b: NodeId, c: NodeId, d: NodeId, run: Run, r: Request,
                                           r': Request)
    returns (run': Run)
    requires Four(env, a, b, c, d) && Standing(env, {b, c, d}, EARLY_VOTERS, run, c, Misled(env, a, b, c, r, r'))
    requires AdvancePrepared(1) in After(env, {b, c, d}, run)[c].pending
    ensures Obeys(env, {b, c, d}, EARLY_VOTERS, run')
    ensures Stepped(After(env, {b, c, d}, run), c, After(env, {b, c, d}, run'))
    ensures Decision(1, env.digest(r')) in After(env, {b, c, d}, run')[c].decided
  {
    hide Step, MoveOf, After, Obeys, At, Misled, MatchingVoters, MatchingMembersOf, Members;
    var correct, i := {b, c, d}, Misled(env, a, b, c, r, r');
    MisledVotes(env, a, b, c, r, r');
    MisguidedVotes(env, a, b, c, r, r');
    var run1 := Certifies(env, correct, EARLY_VOTERS, run, c, i);
    i := WithCommit(i.(phase := Prepared), CommitOf(env, c, r'));
    var run2 := TakesCommit(env, correct, EARLY_VOTERS, run1, c, i, CommitOf(env, a, r'));
    run' := Finishes(env, correct, EARLY_VOTERS, run2, c, Misguided(env, a, b, c, r, r'));
    SteppedTwice(After(env, correct, run), c, After(env, correct, run1), After(env, correct, run2));
    SteppedTwice(After(env, correct, run), c, After(env, correct, run2), After(env, correct, run'));
  }

  /** Agreement fails of the code as it is, in a cluster of four with one faulty replica and without
      any new view. The prepare and the commit of `b` for the first request reach `c` before any
      pre-prepare and are stored; then the primary proposes another request to `c`, and they are
      counted for that: `c` commits the other request at the same sequence number. Every rule of
      the agreement theorem holds of the run except that matching prepares are counted. */
  lemma EarlyVotesBreakAgreement(env: Env, a: NodeId, b: NodeId, c: NodeId, d: NodeId, r: Request, r': Request)
    returns (run: Run)
    requires Four(env, a, b, c, d) && env.digest(r) != env.digest(r')
    ensures |Members(env)| == 3 * env.config.f + 1 && FaultsBounded(env, {b, c, d})
    ensures Obeys(env, {b, c, d}, EARLY_VOTERS, run)
    ensures var sys := After(env, {b, c, d}, run);
            Decision(1, env.digest(r)) in sys[b].decided && Decision(1, env.digest(r')) in sys[c].decided
  {
    hide Step, MoveOf, After, Obeys, At, Misled;
    var correct := {b, c, d};
    FourMembers(env, a, b, c, d);
    var run0 := FirstCommitted(env, a, b, c, d, r);
    FewerRules(env, correct, RULES, EARLY_VOTERS, run0);
    var run1 := Misleads(env, a, b, c, d, run0, r, r');
    run := SecondCommitted(env, a, b, c, d, run1, r, r');
  }

  // ---------- Voters that are no members ----------

  const ANY_VOTERS := RULES - MEMBERSHIP

  /** The faulty primary `a` and an identity `x` of no member bring `k` to commit a request. */
  lemma {:induction false} Swayed(env: Env, a: NodeId, b: NodeId, c: NodeId, d: NodeId, x: NodeId, run: Run, k: NodeId,
                                  r: Request)
    returns (run': Run)
    requires Four(env, a, b, c, d) && k in {b, c} && x !in {a, b, c, d} && SignaturesVerify(env, {x})
    requires Standing(env, {b, c, d}, ANY_VOTERS, run, k, NewInstance(1, 0))
    ensures Obeys(env, {b, c, d}, ANY_VOTERS, run')
    ensures Stepped(After(env, {b, c, d}, run), k, After(env, {b, c, d}, run'))
    ensures Decision(1, env.digest(r)) in After(env, {b, c, d}, run')[k].decided
  {
    hide Step, MoveOf, After, Obeys, At;
    var correct := {b, c, d};
    var run1 := TakesPrePrepare(env, correct, ANY_VOTERS, run, k, NewInstance(1, 0), MakePrePrepare(env, a, 0, 1, r));
    var run2 := PreparesOn(env, correct, ANY_VOTERS, run1, k, a, x, r);
    run' := CommitsOn(env, correct, ANY_VOTERS, run2, k, a, x, r);
    SteppedTwice(After(env, correct, run), k, After(env, correct, run1), After(env, correct, run2));
    SteppedTwice(After(env, correct, run), k, After(env, correct, run2), After(env, correct, run'));
  }

  /** Voters are not looked up in the replica list. A faulty primary with one more identity makes
      quorums of its own: two correct replicas commit different requests, and every rule but
      those on membership is kept. */
  lemma OutsidersBreakAgreement(env: Env, a: NodeId, b: NodeId, c: NodeId, d: NodeId, x: NodeId, r: Request,
                                r': Request)
    returns (run: Run)
    requires Four(env, a, b, c, d) && x !in {a, b, c, d} && SignaturesVerify(env, {x})
    requires env.digest(r) != env.digest(r')
    ensures |Members(env)| == 3 * env.config.f + 1 && FaultsBounded(env, {b, c, d})
    ensures Obeys(env, {b, c, d}, ANY_VOTERS, run)
    ensures var sys := After(env, {b, c, d}, run);
            Decision(1, env.digest(r)) in sys[b].decided && Decision(1, env.digest(r')) in sys[c].decided
  {
    hide Step, MoveOf, After, Obeys, At;
    var correct := {b, c, d};
    FourMembers(env, a, b, c, d);
    Starting(env, correct, b);
    Starting(env, correct, c);
    FewerRules(env, correct, RULES, ANY_VOTERS, Start);
    var run1 := Swayed(env, a, b, c, d, x, Start, b, r);
    run := Swayed(env, a, b, c, d, x, run1, c, r');
  }

  // ---------- Checkpoints nobody signed ----------

  const ANY_CHECKPOINTS := RULES - {AuthenticCheckpoints, AuthenticQuorums}

  function Claim(k: NodeId, s: nat): Checkpoint {
    Checkpoint(s, Hash([]), k, [])
  }

  /** A replica whose window has been moved up to `s`. */
  ghost predicate MovedTo(n: Node, s: nat, n': Node) {
    && n'.st.stableCheckpoint == s && n'.st.lowWatermark == s && n'.st.highWatermark > s
    && n'.st.log == Above(n.st.log, s)
    && n'.st.nodeId == n.st.nodeId && n'.st.view == n.st.view && n'.st.sequence == n.st.sequence
    && n'.st.executed == n.st.executed
    && n'.signed == n.signed && n'.decided == n.decided && n'.delivered == n.delivered
  }

  /** A claim that makes no quorum. */
  lemma ClaimFiled(env: Env, n: Node, s: nat, claims: map<NodeId, Checkpoint>, k: NodeId)
    requires env.Valid() && env.config.f == 1 && |claims| < 2
    requires n.st.checkpoints == if claims == map[] then map[] else map[s := claims]
    ensures Step(env, n, RecvCheckpoint(Claim(k, s))) ==
              n.(st := n.st.(checkpoints := map[s := claims[k := Claim(k, s)]]))
  {
    assert WithCheckpoint(n.st, Claim(k, s)) == map[s := claims[k := Claim(k, s)]];
  }

  lemma LastClaim(env: Env, n: Node, s: nat, claims: map<NodeId, Checkpoint>, k: NodeId)
    requires env.Valid() && env.config.f == 1 && |claims| == 2 && k !in claims
    requires n.st.checkpoints == map[s := claims] && s > n.st.stableCheckpoint
    ensures MovedTo(n, s, Step(env, n, RecvCheckpoint(Claim(k, s))))
  {
    assert WithCheckpoint(n.st, Claim(k, s))[s] == claims[k := Claim(k, s)];
  }

  lemma ClaimAllowed(env: Env, sys: System, at: NodeId, cp: Checkpoint, rule: Rule)
    requires env.Valid() && rule in ANY_CHECKPOINTS
    ensures Allowed(env, sys, at, RecvCheckpoint(cp), rule)
  {
  }

  lemma ThreeClaims(env: Env, n: Node, a: NodeId, b: NodeId, c: NodeId, s: nat)
    requires env.Valid() && env.config.f == 1 && a != b && a != c && b != c
    requires s > n.st.stableCheckpoint && n.st.checkpoints == map[]
    ensures var n1 := Step(env, n, RecvCheckpoint(Claim(a, s)));
            var n2 := Step(env, n1, RecvCheckpoint(Claim(b, s)));
            MovedTo(n, s, Step(env, n2, RecvCheckpoint(Claim(c, s))))
  {
    var first := map[a := Claim(a, s)];
    var second := first[b := Claim(b, s)];
    ClaimFiled(env, n, s, map[], a);
    var n1 := Step(env, n, RecvCheckpoint(Claim(a, s)));
    ClaimFiled(env, n1, s, first, b);
    var n2 := Step(env, n1, RecvCheckpoint(Claim(b, s)));
    LastClaim(env, n2, s, second, c);
  }

  /** Three claims that a number has been executed, which anyone may make in anyone's name. */
  lemma {:induction false} Claimed(env: Env, correct: set<NodeId>, rules: set<Rule>, run: Run, k: NodeId, s: nat,
                                   a: NodeId, b: NodeId, c: NodeId)
    returns (run': Run)
    requires env.Valid() && env.config.f == 1 && a != b && a != c && b != c && k in correct
    requires rules <= ANY_CHECKPOINTS && Obeys(env, correct, rules, run)
    requires var st := After(env, correct, run)[k].st; s > st.stableCheckpoint && st.checkpoints == map[]
    ensures Obeys(env, correct, rules, run')
    ensures var sys, sys' := After(env, correct, run), After(env, correct, run');
            MovedTo(sys[k], s, sys'[k]) && sys' == sys[k := sys'[k]]
  {
    hide Step, MovedTo, Allowed;
    var run1 := Then(run, k, RecvCheckpoint(Claim(a, s)));
    var run2 := Then(run1, k, RecvCheckpoint(Claim(b, s)));
    run' := Then(run2, k, RecvCheckpoint(Claim(c, s)));
    forall rule, sys, x | rule in rules ensures Allowed(env, sys, k, RecvCheckpoint(Claim(x, s)), rule) {
      ClaimAllowed(env, sys, k, Claim(x, s), rule);
    }
    assert Obeys(env, correct, rules, run1) && Obeys(env, correct, rules, run2);
    var sys, sys1, sys2 := After(env, correct, run), After(env, correct, run1), After(env, correct, run2);
    var sys' := After(env, correct, run');
    assert sys1 == sys[k := sys1[k]] && sys2 == sys1[k := sys2[k]] && sys' == sys2[k := sys'[k]];
    assert sys1[k] == Step(env, sys[k], RecvCheckpoint(Claim(a, s)));
    assert sys2[k] == Step(env, sys1[k], RecvCheckpoint(Claim(b, s)));
    assert sys'[k] == Step(env, sys2[k], RecvCheckpoint(Claim(c, s)));
    ThreeClaims(env, sys[k], a, b, c, s);
  }

  /** Checkpoints are taken as they come. A correct replica's stable checkpoint can be one that no
      replica has executed and that is no multiple of the interval, and every rule is kept but that
      checkpoints are authentic. */
  lemma ClaimsBecomeStable(env: Env, a: NodeId, b: NodeId, c: NodeId, d: NodeId) returns (run: Run)
    requires Four(env, a, b, c, d)
    ensures FaultsBounded(env, {b, c, d}) && Obeys(env, {b, c, d}, ANY_CHECKPOINTS, run)
    ensures var sys := After(env, {b, c, d}, run);
            && sys[b].st.stableCheckpoint == 7
            && 7 % env.config.checkpointInterval != 0
            && forall k :: k in sys ==> sys[k].delivered == []
  {
    hide Step, MoveOf;
    var correct := {b, c, d};
    FourMembers(env, a, b, c, d);
    run := Claimed(env, correct, ANY_CHECKPOINTS, Start, b, 7, a, c, d);
  }

  // ---------- Forgotten numbers ----------

  const ANY_ASSIGNMENTS := {Unforgeable, MemberVoters, VotesAfterPrePrepare, MatchingQuorums, MatchingMembers}

  /** A run in which `k` is announced a later view. */
  lemma {:induction false} Announced(env: Env, correct: set<NodeId>, rules: set<Rule>, run: Run, k: NodeId, v: nat)
    returns (run': Run)
    requires env.Valid() && k in correct && rules <= ANY_ASSIGNMENTS && Obeys(env, correct, rules, run)
    requires After(env, correct, run)[k].st.view < v
    ensures Obeys(env, correct, rules, run')
    ensures var sys, sys' := After(env, correct, run), After(env, correct, run');
            && sys' == sys[k := sys'[k]]
            && sys'[k] == HandleNewView(sys[k], NewView(v, {}, k, []))
  {
    run' := Then(run, k, RecvNewView(NewView(v, {}, k, [])));
  }

  /** A primary that has not assigned anything, and keeps nothing of number 1, assigns it. */
  lemma {:induction false} Reproposed(env: Env, correct: set<NodeId>, run: Run, k: NodeId, r: Request)
    returns (run': Run)
    requires env.Valid() && k in correct && Obeys(env, correct, ANY_ASSIGNMENTS, run)
    requires var st := After(env, correct, run)[k].st;
             && st.nodeId == k && env.Primary(st.view) == k && st.sequence == 0 && st.highWatermark > 0
             && env.digest(r) !in st.executed
    ensures Obeys(env, correct, ANY_ASSIGNMENTS, run')
    ensures var sys, sys' := After(env, correct, run), After(env, correct, run');
            && sys' == sys[k := sys'[k]]
            && sys'[k].decided == sys[k].decided
            && PrepareData(sys[k].st.view, 1, env.digest(r)) in sys'[k].signed
  {
    run' := Then(run, k, ClientRequest(r));
    var n := After(env, correct, run)[k];
    assert Step(env, n, ClientRequest(r)) == HandleRequest(env, n, r);
  }

  /** After `b` has committed the first request, three claims move its window past number 1 and a new
      view makes it the primary; it assigns the number anew. */
  lemma ForgottenAndReproposed(env: Env, a: NodeId, b: NodeId, c: NodeId, d: NodeId, r: Request, r': Request)
    returns (run: Run)
    requires Four(env, a, b, c, d) && env.digest(r) != env.digest(r')
    ensures Obeys(env, {b, c, d}, ANY_ASSIGNMENTS, run)
    ensures var sys := After(env, {b, c, d}, run);
            && Decision(1, env.digest(r)) in sys[b].decided
            && PrepareData(1, 1, env.digest(r')) in sys[b].signed
            && sys[c] == InitialNode(env, c)
  {
    hide Step, MoveOf, After, Obeys;
    var correct := {b, c, d};
    var run0 := FirstCommitted(env, a, b, c, d, r);
    FewerRules(env, correct, RULES, ANY_ASSIGNMENTS, run0);
    var run1 := Claimed(env, correct, ANY_ASSIGNMENTS, run0, b, 1, a, c, d);
    var run2 := Announced(env, correct, ANY_ASSIGNMENTS, run1, b, 1);
    run := Reproposed(env, correct, run2, b, r');
  }

  /** The instance of `c` with the pre-prepare of `b`, and its prepare and that of `a`. */
  function Renewed(env: Env, a: NodeId, b: NodeId, c: NodeId, r: Request): Instance {
    var h := env.digest(r);
    var i := Opened(NewInstance(1, 1), MakePrePrepare(env, b, 1, 1, r), MakePrepare(env, c, 1, 1, h));
    WithPrepare(WithPrepare(i, MakePrepare(env, b, 1, 1, h)), MakePrepare(env, a, 1, 1, h))
  }

  lemma RenewedVotes(env: Env, a: NodeId, b: NodeId, c: NodeId, r: Request)
    requires a != b && a != c && b != c && {a, b, c} <= Members(env)
    ensures var i := Renewed(env, a, b, c, r);
            |i.prepares| == 3 && |MatchingVoters(i)| == 3 && |MatchingMembersOf(env, i)| == 3
  {
    var i := Renewed(env, a, b, c, r);
    ThreeKeys(i.prepares, a, b, c);
    assert MatchingVoters(i) == i.prepares.Keys && |i.prepares.Keys| == |i.prepares|;
    assert MatchingMembersOf(env, i) == MatchingVoters(i);
  }

  /** Replica `c`, in the new view, prepares the other request on the votes of `b`, `a` and itself. */
  lemma {:induction false} PreparesRenewed(env: Env, a: NodeId, b: NodeId, c: NodeId, d: NodeId, run: Run, r: Request)
    returns (run': Run)
    requires Four(env, a, b, c, d) && Standing(env, {b, c, d}, ANY_ASSIGNMENTS, run, c, NewInstance(1, 1))
    requires PrepareData(1, 1, env.digest(r)) in After(env, {b, c, d}, run)[b].signed
    ensures Obeys(env, {b, c, d}, ANY_ASSIGNMENTS, run')
    ensures Stepped(After(env, {b, c, d}, run), c, After(env, {b, c, d}, run'))
    ensures CommitData(1, 1, env.digest(r)) in After(env, {b, c, d}, run')[c].signed
  {
    hide Step, MoveOf, After, Obeys, At, MatchingVoters, MatchingMembersOf;
    var correct, rules, i, h := {b, c, d}, ANY_ASSIGNMENTS, NewInstance(1, 1), env.digest(r);
    var pp := MakePrePrepare(env, b, 1, 1, r);
    var run1 := TakesPrePrepare(env, correct, rules, run, c, i, pp);
    i := Opened(i, pp, MakePrepare(env, c, 1, 1, h));
    var run2 := TakesPrepare(env, correct, rules, run1, c, i, MakePrepare(env, b, 1, 1, h));
    i := WithPrepare(i, MakePrepare(env, b, 1, 1, h));
    var run3 := TakesPrepare(env, correct, rules, run2, c, i, MakePrepare(env, a, 1, 1, h));
    RenewedVotes(env, a, b, c, r);
    run' := Certifies(env, correct, rules, run3, c, Renewed(env, a, b, c, r));
    SteppedTwice(After(env, correct, run), c, After(env, correct, run1), After(env, correct, run2));
    SteppedTwice(After(env, correct, run), c, After(env, correct, run2), After(env, correct, run3));
    SteppedTwice(After(env, correct, run), c, After(env, correct, run3), After(env, correct, run'));
  }

  lemma {:induction false} EntersFresh(env: Env, correct: set<NodeId>, run: Run, k: NodeId)
    requires env.Valid() && k in correct && Obeys(env, correct, ANY_ASSIGNMENTS, run)
    requires After(env, correct, run)[k] == HandleNewView(InitialNode(env, k), NewView(1, {}, k, []))
    ensures Standing(env, correct, ANY_ASSIGNMENTS, run, k, NewInstance(1, 1))
  {
  }

  /** Agreement needs fresh assignments even if only matching prepares are counted: `b` commits a
      request, forgets it behind its window, and as the primary of the next view assigns its number
      to another request, which `c` prepares and commits to. */
  lemma ForgottenNumberBreaksAgreement(env: Env, a: NodeId, b: NodeId, c: NodeId, d: NodeId, r: Request, r': Request)
    returns (run: Run)
    requires Four(env, a, b, c, d) && env.digest(r) != env.digest(r')
    ensures |Members(env)| == 3 * env.config.f + 1 && FaultsBounded(env, {b, c, d})
    ensures Obeys(env, {b, c, d}, ANY_ASSIGNMENTS, run)
    ensures var sys := After(env, {b, c, d}, run);
            Decision(1, env.digest(r)) in sys[b].decided && SignedCommit(sys[c], 1, env.digest(r'))
  {
    hide Step, MoveOf, After, Obeys, At, HandleNewView;
    var correct := {b, c, d};
    FourMembers(env, a, b, c, d);
    var run1 := ForgottenAndReproposed(env, a, b, c, d, r, r');
    var run2 := Announced(env, correct, ANY_ASSIGNMENTS, run1, c, 1);
    EntersFresh(env, correct, run2, c);
    run := PreparesRenewed(env, a, b, c, d, run2, r');
    assert CommitData(1, 1, env.digest(r')) in After(env, correct, run)[c].signed;
  }

  // ---------- Reassigned numbers ----------

  /** The instance of a number for a digest in some phase, with the votes that it takes. */
  ghost predicate Stage(env: Env, n: Node, s: nat, d: Hash, phase: Phase) {
    && s in n.st.log
    && n.st.log[s].phase == phase
    && n.st.log[s].digest == Some(d)
    && n.st.log[s].prePrepare.Some?
    && |n.st.log[s].prepares| >= env.config.Quorum()
    && |n.st.log[s].commits| >= env.config.Quorum()
  }

  lemma StageKept(env: Env, n: Node, s: nat, d: Hash, phase: Phase, n': Node)
    requires Stage(env, n, s, d, phase) && n'.st == n.st
    ensures Stage(env, n', s, d, phase)
  {
  }

  lemma Reassigns(env: Env, n: Node, r: Request)
    requires env.Valid() && WindowOk(env, n.st) && env.Primary(n.st.view) == n.st.nodeId
    requires env.digest(r) !in n.st.executed
    requires var s := n.st.sequence + 1;
             s in n.st.log && n.st.log[s].phase == Committed && InstanceOk(env, n.st.nodeId, s, n.st.log[s])
    ensures var n' := HandleRequest(env, n, r);
            && Stage(env, n', n.st.sequence + 1, env.digest(r), PrePrepared)
            && AdvancePrepared(n.st.sequence + 1) in n'.pending
            && n'.decided == n.decided
  {
  }

  lemma KeepsLog(env: Env, n: Node)
    requires env.Valid() && Inv(env, n)
    ensures LogOk(env, n.st) && WindowOk(env, n.st)
  {
  }

  predicate HasDecided(n: Node, s: nat, d: Hash) {
    Decision(s, d) in n.decided
  }

  /** A committed number has been decided, for an executed digest. */
  lemma DecidedBefore(env: Env, n: Node, s: nat, d: Hash)
    requires env.Valid() && Inv(env, n) && s in n.st.log && n.st.log[s].phase == Committed && d !in n.st.executed
    ensures exists d' :: d' != d && HasDecided(n, s, d')
  {
    assert InstanceOk(env, n.st.nodeId, s, n.st.log[s]);
    assert HasDecided(n, s, n.st.log[s].digest.value);
  }

  lemma PreparesAgain(env: Env, n: Node, s: nat, d: Hash)
    requires Stage(env, n, s, d, PrePrepared)
    ensures var n' := AdvanceToPrepared(env, n, s);
            Stage(env, n', s, d, Prepared) && AdvanceCommitted(s) in n'.pending && n'.decided == n.decided
  {
  }

  lemma CommitsAgain(env: Env, n: Node, s: nat, d: Hash)
    requires Stage(env, n, s, d, Prepared)
    ensures var n' := AdvanceToCommitted(env, n, s);
            Stage(env, n', s, d, Committed) && n'.decided == n.decided + [Decision(s, d)]
  {
  }

  /** The request, and the two advances that follow it. */
  ghost function Reassigned(env: Env, n: Node, r: Request): Node
    requires env.Valid()
  {
    var s := n.st.sequence + 1;
    Step(env, Step(env, Step(env, n, ClientRequest(r)), Run(AdvancePrepared(s))), Run(AdvanceCommitted(s)))
  }

  ghost predicate DecidedTwice(n: Node, s: nat) {
    exists d, d' :: d != d' && HasDecided(n, s, d) && HasDecided(n, s, d')
  }

  /** A primary whose counter is behind a number it has committed, say because its view is new,
      assigns the number to the next request. The old votes are still there, and they are counted
      for the new digest: without hearing from anyone it commits the number a second time. */
  lemma ReassignedNumberIsCommittedAgain(env: Env, n: Node, r: Request)
    requires env.Valid() && Inv(env, n) && env.Primary(n.st.view) == n.st.nodeId
    requires env.digest(r) !in n.st.executed
    requires var s := n.st.sequence + 1; s in n.st.log && n.st.log[s].phase == Committed
    ensures var s := n.st.sequence + 1;
            var n' := Reassigned(env, n, r);
            Stage(env, n', s, env.digest(r), Committed) && DecidedTwice(n', s)
  {
    hide Inv, HandleRequest, AdvanceToPrepared, AdvanceToCommitted, Stage;
    var s := n.st.sequence + 1;
    KeepsLog(env, n);
    DecidedBefore(env, n, s, env.digest(r));
    Reassigns(env, n, r);
    var n1 := HandleRequest(env, n, r);
    var n1' := n1.(pending := n1.pending - multiset{AdvancePrepared(s)});
    StageKept(env, n1, s, env.digest(r), PrePrepared, n1');
    PreparesAgain(env, n1', s, env.digest(r));
    var n2 := AdvanceToPrepared(env, n1', s);
    var n2' := n2.(pending := n2.pending - multiset{AdvanceCommitted(s)});
    StageKept(env, n2, s, env.digest(r), Prepared, n2');
    CommitsAgain(env, n2', s, env.digest(r));
    var n3 := AdvanceToCommitted(env, n2', s);
    assert n3 == Reassigned(env, n, r);
    assert HasDecided(n3, s, env.digest(r));
    var d :| d != env.digest(r) && HasDecided(n, s, d);
    assert HasDecided(n3, s, d);
  }

  /** A run in which `k` is handed a request and left to run the two advances that follow. */
  lemma {:induction false} RunsReassigned(env: Env, correct: set<NodeId>, run: Run, k: NodeId,
                                          r: Request) returns (run': Run)
    requires env.Valid() && k in correct && Obeys(env, correct, Agreement.LATE_VOTERS, run)
    ensures Obeys(env, correct, Agreement.LATE_VOTERS, run')
    ensures After(env, correct, run')[k] == Reassigned(env, After(env, correct, run)[k], r)
  {
    hide Step, MoveOf;
    var s := After(env, correct, run)[k].st.sequence + 1;
    var run1 := Then(run, k, ClientRequest(r));
    var run2 := Then(run1, k, Run(AdvancePrepared(s)));
    run' := Then(run2, k, Run(AdvanceCommitted(s)));
    assert Obeys(env, correct, Agreement.LATE_VOTERS, run1) && Obeys(env, correct, Agreement.LATE_VOTERS, run2);
    assert After(env, correct, run1)[k] == Step(env, After(env, correct, run)[k], ClientRequest(r));
    assert After(env, correct, run2)[k] == Step(env, After(env, correct, run1)[k], Run(AdvancePrepared(s)));
  }

  /** Agreement fails across views even if no vote comes early: `b` commits a request in the first
      view, becomes the primary of the next, and commits another one at the same number. */
  lemma NewViewBreaksAgreement(env: Env, a: NodeId, b: NodeId, c: NodeId, d: NodeId, r: Request, r': Request)
    returns (run: Run)
    requires Four(env, a, b, c, d) && env.digest(r) != env.digest(r')
    ensures |Members(env)| == 3 * env.config.f + 1 && FaultsBounded(env, {b, c, d})
    ensures Obeys(env, {b, c, d}, Agreement.LATE_VOTERS, run)
    ensures DecidedTwice(After(env, {b, c, d}, run)[b], 1)
  {
    hide Step, MoveOf, After, Obeys, Inv, Reassigned;
    var correct := {b, c, d};
    FourMembers(env, a, b, c, d);
    var run0 := FirstCommitted(env, a, b, c, d, r);
    FewerRules(env, correct, RULES, Agreement.LATE_VOTERS, run0);
    var run1 := Announced(env, correct, Agreement.LATE_VOTERS, run0, b, 1);
    ReplicaInvariant(env, correct, run1, b);
    ReassignedNumberIsCommittedAgain(env, After(env, correct, run1)[b], r');
    run := RunsReassigned(env, correct, run1, b, r');
  }
}
