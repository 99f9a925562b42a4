/** At one backup, in one view, the order in which matching messages arrive does not matter:
    once no advance is pending, phases, voters, executed digests and broadcast votes depend on
    the set of messages only. */
module DeliveryOrder {
  import opened Messages
  import opened Protocol
  import opened Moves
  import opened Invariant
  import opened Records

  /** A replica that has just entered a view, with a stable checkpoint and an empty log. */
  function Entering(env: Env, me: NodeId, view: nat, checkpoint: nat): Node {
    InitialNode(env, me).(st := InitialState(env, me).(view := view, stableCheckpoint := checkpoint,
      lowWatermark := checkpoint, highWatermark := checkpoint + env.config.checkpointInterval * 2))
  }

  /** What the deliveries have in common: the backup, its view and window, and the digest that
      the primary has assigned to each number. */
  datatype Setting = Setting(me: NodeId, view: nat, checkpoint: nat, digestAt: nat -> Hash) {
    predicate InWindow(env: Env, s: nat) {
      checkpoint < s <= checkpoint + env.config.checkpointInterval * 2
    }

    /** Signed messages of the view from other replicas, in the window, for the assigned digests. */
    ghost predicate Matching(env: Env, e: Event)
      requires env.Valid()
    {
      match e
      case RecvPrePrepare(pp) =>
        && pp.view == view && InWindow(env, pp.sequence) && pp.digest == digestAt(pp.sequence)
        && pp.primaryId == env.Primary(view) && pp.digest == env.digest(pp.request)
        && env.verify(pp.primaryId, PrepareData(pp.view, pp.sequence, pp.digest), pp.signature)
      case RecvPrepare(p) =>
        && p.view == view && InWindow(env, p.sequence) && p.digest == digestAt(p.sequence) && p.replicaId != me
        && env.verify(p.replicaId, PrepareData(p.view, p.sequence, p.digest), p.signature)
      case RecvCommit(c) =>
        && c.view == view && InWindow(env, c.sequence) && c.digest == digestAt(c.sequence) && c.replicaId != me
        && env.verify(c.replicaId, CommitData(c.view, c.sequence, c.digest), c.signature)
      case Run(_) => true
      case _ => false
    }
  }

  /** Handling events one after the other. */
  function Play(env: Env, n: Node, events: seq<Event>): Node
    requires env.Valid()
  {
    if events == [] then n
    else Step(env, Play(env, n, events[..|events| - 1]), events[|events| - 1])
  }

  /** The protocol messages among the events. */
  function Handed(events: seq<Event>): set<Message> {
    if events == [] then {}
    else
      Handed(events[..|events| - 1])
      + match events[|events| - 1]
        case RecvPrePrepare(pp) => {PrePrepareMsg(pp)}
        case RecvPrepare(p) => {PrepareMsg(p)}
        case RecvCommit(c) => {CommitMsg(c)}
        case _ => {}
  }

  // ---------- The state as a function of the messages ----------

  ghost predicate Seen(messages: set<Message>, s: nat) {
    exists pp :: PrePrepareMsg(pp) in messages && pp.sequence == s
  }

  ghost predicate PreparedBy(messages: set<Message>, s: nat, k: NodeId) {
    exists p: Prepare :: PrepareMsg(p) in messages && p.sequence == s && p.replicaId == k
  }

  ghost predicate CommittedBy(messages: set<Message>, s: nat, k: NodeId) {
    exists c: Commit :: CommitMsg(c) in messages && c.sequence == s && c.replicaId == k
  }

  /** The instance at a number reflects the messages about it. */
  ghost predicate InstanceReflects(x: Setting, messages: set<Message>, s: nat, i: Instance) {
    && i.view == x.view
    && (i.digest.Some? <==> Seen(messages, s))
    && (i.digest.Some? ==> i.digest.value == x.digestAt(s))
    && (forall k :: k in i.prepares <==> PreparedBy(messages, s, k) || (k == x.me && i.digest.Some?))
    && (forall k :: k in i.commits <==> CommittedBy(messages, s, k) || (k == x.me && Rank(i.phase) >= Rank(Prepared)))
  }

  ghost predicate Reflects(env: Env, x: Setting, n: Node, s: nat) {
    InstanceReflects(x, n.arrived, s, n.st.InstanceAt(s))
  }

  ghost predicate InSetting(env: Env, x: Setting, n: Node) {
    && n.st.nodeId == x.me
    && n.st.view == x.view
    && n.st.lowWatermark == x.checkpoint
    && n.st.highWatermark == x.checkpoint + env.config.checkpointInterval * 2
  }

  /** What a move of the replica on its log needs to be in the setting. */
  ghost predicate HereMoves(env: Env, x: Setting, st: State, e: Event, m: Move) {
    && env.Valid()
    && x.Matching(env, e)
    && st.nodeId == x.me
    && LogOk(env, st)
    && Guard(env, st, m)
    && match e
       case RecvPrePrepare(pp) => m == if st.HoldsPrePrepare(pp.sequence) then Stay else Open(pp)
       case RecvPrepare(p) => m == if p.replicaId in st.InstanceAt(p.sequence).prepares then Stay else AddPrepare(p)
       case RecvCommit(c) => m == if c.replicaId in st.InstanceAt(c.sequence).commits then Stay else AddCommit(c)
       case _ => m == Stay || m.Certify? || m.Finish?
  }

  /** A matching message is accepted, or ignored because one of its kind from its sender is there. */
  lemma MatchingNotRefused(env: Env, x: Setting, n: Node, e: Event)
    requires env.Valid() && x.Matching(env, e) && InSetting(env, x, n) && LogOk(env, n.st)
    requires forall s :: Reflects(env, x, n, s)
    ensures HereMoves(env, x, n.st, e, MoveOf(env, n, e))
  {
    if e.RecvPrePrepare? {
      assert Reflects(env, x, n, e.prePrepare.sequence);
    } else if e.RecvPrepare? {
      assert Reflects(env, x, n, e.prepare.sequence);
    } else if e.RecvCommit? {
      assert Reflects(env, x, n, e.commit.sequence);
    }
    StepMoves(env, n, e);
  }

  /** What one more message adds to what is known about a number. */
  lemma ArrivalAdds(env: Env, x: Setting, n: Node, e: Event, s: nat)
    requires env.Valid() && x.Matching(env, e) && InSetting(env, x, n)
    ensures var messages' := n.arrived + Arrivals(n.st, e);
            && (Seen(messages', s) <==> Seen(n.arrived, s) || (e.RecvPrePrepare? && e.prePrepare.sequence == s))
            && (forall k :: PreparedBy(messages', s, k) <==>
                  || PreparedBy(n.arrived, s, k)
                  || (e.RecvPrepare? && e.prepare.sequence == s && e.prepare.replicaId == k))
            && (forall k :: CommittedBy(messages', s, k) <==>
                  || CommittedBy(n.arrived, s, k)
                  || (e.RecvCommit? && e.commit.sequence == s && e.commit.replicaId == k))
  {
    var messages' := n.arrived + Arrivals(n.st, e);
    if e.RecvPrePrepare? {
      assert PrePrepareMsg(e.prePrepare) in messages';
    } else if e.RecvPrepare? {
      assert PrepareMsg(e.prepare) in messages';
    } else if e.RecvCommit? {
      assert CommitMsg(e.commit) in messages';
    }
  }

  /** The instance changes as the message or the task says. */
  ghost predicate Gains(x: Setting, e: Event, s: nat, i: Instance, i': Instance) {
    && i'.view == i.view
    && Rank(i.phase) <= Rank(i'.phase)
    && i'.digest == (if e.RecvPrePrepare? && e.prePrepare.sequence == s then Some(x.digestAt(s)) else i.digest)
    && (forall k :: k in i'.prepares <==>
          || k in i.prepares
          || (e.RecvPrepare? && e.prepare.sequence == s && e.prepare.replicaId == k)
          || (e.RecvPrePrepare? && e.prePrepare.sequence == s && k == x.me))
    && (forall k :: k in i'.commits <==>
          || k in i.commits
          || (e.RecvCommit? && e.commit.sequence == s && e.commit.replicaId == k)
          || (k == x.me && Rank(i.phase) < Rank(Prepared) <= Rank(i'.phase)))
  }

  /** A recorded digest is the assigned one, and own votes are recorded. */
  ghost predicate Fits(x: Setting, i: Instance, s: nat) {
    && (i.digest.Some? ==> i.digest.value == x.digestAt(s) && x.me in i.prepares)
    && (Rank(i.phase) >= Rank(Prepared) ==> x.me in i.commits)
  }

  lemma GainsFromPrePrepare(env: Env, x: Setting, st: State, e: Event, m: Move, s: nat)
    requires e.RecvPrePrepare? && HereMoves(env, x, st, e, m) && Fits(x, st.InstanceAt(s), s)
    ensures Gains(x, e, s, st.InstanceAt(s), st.(log := Moved(env, st, m)).InstanceAt(s))
  {
  }

  lemma GainsFromPrepare(env: Env, x: Setting, st: State, e: Event, m: Move, s: nat)
    requires e.RecvPrepare? && HereMoves(env, x, st, e, m) && Fits(x, st.InstanceAt(s), s)
    ensures Gains(x, e, s, st.InstanceAt(s), st.(log := Moved(env, st, m)).InstanceAt(s))
  {
  }

  lemma GainsFromCommit(env: Env, x: Setting, st: State, e: Event, m: Move, s: nat)
    requires e.RecvCommit? && HereMoves(env, x, st, e, m) && Fits(x, st.InstanceAt(s), s)
    ensures Gains(x, e, s, st.InstanceAt(s), st.(log := Moved(env, st, m)).InstanceAt(s))
  {
  }

  lemma GainsFromTask(env: Env, x: Setting, st: State, e: Event, m: Move, s: nat)
    requires e.Run? && HereMoves(env, x, st, e, m) && Fits(x, st.InstanceAt(s), s)
    ensures Gains(x, e, s, st.InstanceAt(s), st.(log := Moved(env, st, m)).InstanceAt(s))
  {
  }

  lemma GainsStep(env: Env, x: Setting, n: Node, e: Event, m: Move, n': Node, s: nat)
    requires env.Valid() && InSetting(env, x, n) && Follows(env, n, e, m, n')
    requires HereMoves(env, x, n.st, e, m) && Fits(x, n.st.InstanceAt(s), s)
    ensures Gains(x, e, s, n.st.InstanceAt(s), n'.st.InstanceAt(s))
  {
    assert n'.st.InstanceAt(s) == n.st.(log := Moved(env, n.st, m)).InstanceAt(s);
    match e
    case RecvPrePrepare(_) => GainsFromPrePrepare(env, x, n.st, e, m, s);
    case RecvPrepare(_) => GainsFromPrepare(env, x, n.st, e, m, s);
    case RecvCommit(_) => GainsFromCommit(env, x, n.st, e, m, s);
    case Run(_) => GainsFromTask(env, x, n.st, e, m, s);
  }

  lemma ReflectsStep(env: Env, x: Setting, n: Node, e: Event, m: Move, n': Node, s: nat)
    requires env.Valid() && x.Matching(env, e) && InSetting(env, x, n) && Follows(env, n, e, m, n')
    requires HereMoves(env, x, n.st, e, m) && Reflects(env, x, n, s)
    ensures Reflects(env, x, n', s)
  {
    ArrivalAdds(env, x, n, e, s);
    GainsStep(env, x, n, e, m, n', s);
  }

  // ---------- Decisions and broadcasts ----------

  ghost predicate CommittedAt(log: map<nat, Instance>, s: nat, d: Hash) {
    s in log && log[s].phase == Committed && log[s].digest == Some(d)
  }

  ghost predicate DecisionsHeld(n: Node) {
    forall y :: y in n.decided ==> CommittedAt(n.st.log, y.sequence, y.digest)
  }

  lemma CommittedStays(env: Env, x: Setting, st: State, e: Event, m: Move, s: nat, d: Hash)
    requires env.Valid() && HereMoves(env, x, st, e, m)
    requires CommittedAt(st.log, s, d) || (m == Finish(s) && st.log[s].digest.value == d)
    ensures CommittedAt(Moved(env, st, m), s, d)
  {
    assert s in st.log && InstanceOk(env, st.nodeId, s, st.log[s]);
  }

  lemma DecisionsHeldStep(env: Env, x: Setting, n: Node, e: Event, m: Move, n': Node)
    requires env.Valid() && HereMoves(env, x, n.st, e, m) && Follows(env, n, e, m, n') && DecisionsHeld(n)
    ensures DecisionsHeld(n')
  {
    hide HereMoves, Moved, Origin, CommittedAt;
    forall y | y in n'.decided ensures CommittedAt(n'.st.log, y.sequence, y.digest) {
      CommittedStays(env, x, n.st, e, m, y.sequence, y.digest);
    }
  }

  ghost predicate PrepareSentFor(env: Env, x: Setting, n: Node, s: nat) {
    forall p: Prepare :: p.sequence == s ==>
      (Broadcast(PrepareMsg(p)) in n.sent <==>
         n.st.InstanceAt(s).digest.Some? && p == MakePrepare(env, x.me, x.view, s, x.digestAt(s)))
  }

  ghost predicate CommitSentFor(env: Env, x: Setting, n: Node, s: nat) {
    forall c: Commit :: c.sequence == s ==>
      (Broadcast(CommitMsg(c)) in n.sent <==>
         Rank(n.st.InstanceAt(s).phase) >= Rank(Prepared) && c == MakeCommit(env, x.me, x.view, s, x.digestAt(s)))
  }

  /** Exactly the votes that the phases call for have been broadcast. */
  ghost predicate VotesSentFor(env: Env, x: Setting, n: Node, s: nat) {
    PrepareSentFor(env, x, n, s) && CommitSentFor(env, x, n, s)
  }

  lemma PrepareSentStep(env: Env, x: Setting, n: Node, e: Event, m: Move, n': Node, s: nat)
    requires env.Valid() && InSetting(env, x, n) && HereMoves(env, x, n.st, e, m) && Follows(env, n, e, m, n')
    requires Speaks(env, n, e, m, n') && Reflects(env, x, n, s) && PrepareSentFor(env, x, n, s)
    ensures PrepareSentFor(env, x, n', s)
  {
    NewVotes(env, n, e, m, n');
    GainsStep(env, x, n, e, m, n', s);
  }

  /** An instance becomes prepared when it is certified. */
  lemma CertifyShows(env: Env, n: Node, e: Event, m: Move, n': Node, s: nat)
    requires env.Valid() && Follows(env, n, e, m, n')
    ensures m == Certify(s) <==>
              Rank(n.st.InstanceAt(s).phase) < Rank(Prepared) <= Rank(n'.st.InstanceAt(s).phase)
  {
  }

  lemma CommitSentStep(env: Env, x: Setting, n: Node, e: Event, m: Move, n': Node, s: nat)
    requires env.Valid() && InSetting(env, x, n) && HereMoves(env, x, n.st, e, m) && Follows(env, n, e, m, n')
    requires Speaks(env, n, e, m, n') && Reflects(env, x, n, s) && CommitSentFor(env, x, n, s)
    ensures CommitSentFor(env, x, n', s)
  {
    hide Follows, Speaks, LogOk, PreparedBy, CommittedBy, Seen;
    NewVotes(env, n, e, m, n');
    GainsStep(env, x, n, e, m, n', s);
    CertifyShows(env, n, e, m, n', s);
    assert m == Certify(s) ==> OwnCommit(env, n.st, s) == MakeCommit(env, x.me, x.view, s, x.digestAt(s));
  }

  // ---------- Whole deliveries ----------

  ghost predicate AllMatching(env: Env, x: Setting, events: seq<Event>)
    requires env.Valid()
  {
    forall e :: e in events ==> x.Matching(env, e)
  }

  ghost predicate Canonical(env: Env, x: Setting, n: Node, messages: set<Message>)
    requires env.Valid()
  {
    && Inv(env, n)
    && InSetting(env, x, n)
    && n.arrived == messages
    && DecisionsHeld(n)
    && (forall s :: Reflects(env, x, n, s))
    && (forall s :: VotesSentFor(env, x, n, s))
  }

  lemma StaysInSetting(env: Env, x: Setting, n: Node, e: Event, m: Move, n': Node)
    requires env.Valid() && InSetting(env, x, n) && HereMoves(env, x, n.st, e, m) && Follows(env, n, e, m, n')
    ensures InSetting(env, x, n')
  {
  }

  lemma CanonicalStep(env: Env, x: Setting, n: Node, e: Event)
    requires env.Valid() && x.Matching(env, e) && Canonical(env, x, n, n.arrived)
    ensures Canonical(env, x, Step(env, n, e), n.arrived + Arrivals(n.st, e))
  {
    hide Step, MoveOf, Speaks, Outputs, HereMoves, LogOk, DecisionsHeld, InSetting, InstanceReflects, PrepareSentFor,
      CommitSentFor, Moved, Origin, Guard;
    InvStep(env, n, e);
    StepMoves(env, n, e);
    MatchingNotRefused(env, x, n, e);
    var m, n' := MoveOf(env, n, e), Step(env, n, e);
    StaysInSetting(env, x, n, e, m, n');
    DecisionsHeldStep(env, x, n, e, m, n');
    forall s ensures Reflects(env, x, n', s) && VotesSentFor(env, x, n', s) {
      ReflectsStep(env, x, n, e, m, n', s);
      assert VotesSentFor(env, x, n, s);
      PrepareSentStep(env, x, n, e, m, n', s);
      CommitSentStep(env, x, n, e, m, n', s);
    }
  }

  lemma CanonicalArrived(env: Env, x: Setting, n: Node, messages: set<Message>)
    requires env.Valid() && Canonical(env, x, n, messages)
    ensures n.arrived == messages && InSetting(env, x, n)
  {
  }

  /** A matching message is not above the window. */
  lemma ArrivesInWindow(env: Env, x: Setting, n: Node, e: Event)
    requires env.Valid() && x.Matching(env, e) && InSetting(env, x, n)
    ensures Arrivals(n.st, e) == Handed([e])
  {
    assert [e][..0] == [] && Handed([]) == {};
  }

  /** Playing on from a canonical state, with whatever is recorded in it. */
  lemma {:induction false} CanonicalFrom(env: Env, x: Setting, n: Node, events: seq<Event>)
    requires env.Valid() && Canonical(env, x, n, n.arrived) && AllMatching(env, x, events)
    ensures Canonical(env, x, Play(env, n, events), n.arrived + Handed(events))
  {
    hide Step, Canonical;
    if events == [] {
      assert n.arrived + Handed(events) == n.arrived;
    } else {
      var before, e := events[..|events| - 1], events[|events| - 1];
      CanonicalFrom(env, x, n, before);
      var now := Play(env, n, before);
      CanonicalArrived(env, x, now, n.arrived + Handed(before));
      CanonicalStep(env, x, now, e);
      ArrivesInWindow(env, x, now, e);
      assert n.arrived + Handed(events) == now.arrived + Arrivals(now.st, e);
    }
  }

  lemma EnteringIsCanonical(env: Env, x: Setting)
    requires env.Valid()
    ensures Canonical(env, x, Entering(env, x.me, x.view, x.checkpoint), {})
  {
  }

  lemma {:induction false} CanonicalAfter(env: Env, x: Setting, events: seq<Event>)
    requires env.Valid() && AllMatching(env, x, events)
    ensures Canonical(env, x, Play(env, Entering(env, x.me, x.view, x.checkpoint), events), Handed(events))
  {
    hide Canonical, Play, Handed;
    EnteringIsCanonical(env, x);
    var n0 := Entering(env, x.me, x.view, x.checkpoint);
    CanonicalFrom(env, x, n0, events);
    assert n0.arrived + Handed(events) == Handed(events);
  }

  ghost predicate NothingToAdvance(n: Node) {
    forall s :: AdvancePrepared(s) !in n.pending && AdvanceCommitted(s) !in n.pending
  }

  ghost predicate SameInstance(i: Instance, j: Instance) {
    i.phase == j.phase && i.digest == j.digest && i.prepares.Keys == j.prepares.Keys && i.commits.Keys == j.commits.Keys
  }

  /** The same phases, digests, voters, executed digests, and broadcast prepares and commits. */
  ghost predicate SameOutcome(a: Node, b: Node) {
    && (forall s :: SameInstance(a.st.InstanceAt(s), b.st.InstanceAt(s)))
    && a.st.executed == b.st.executed
    && (forall p: Prepare :: Broadcast(PrepareMsg(p)) in a.sent <==> Broadcast(PrepareMsg(p)) in b.sent)
    && (forall c: Commit :: Broadcast(CommitMsg(c)) in a.sent <==> Broadcast(CommitMsg(c)) in b.sent)
  }

  /** The phase is what the recorded votes call for. */
  ghost predicate CaughtUp(env: Env, i: Instance) {
    && (i.digest.None? <==> i.phase == Idle)
    && (Rank(i.phase) >= Rank(Prepared) <==> i.digest.Some? && |i.prepares| >= env.config.Quorum())
    && (i.phase == Committed <==> Rank(i.phase) >= Rank(Prepared) && |i.commits| >= env.config.Quorum())
  }

  lemma QuietIsCaughtUp(env: Env, n: Node, s: nat)
    requires env.Valid() && Inv(env, n) && NothingToAdvance(n)
    ensures CaughtUp(env, n.st.InstanceAt(s))
  {
    if s in n.st.log {
      assert InstanceOk(env, n.st.nodeId, s, n.st.log[s]) && NoLostAdvanceAt(env, n, s);
    }
  }

  lemma MessagesDetermineInstance(env: Env, x: Setting, messages: set<Message>, s: nat, i: Instance, j: Instance)
    requires InstanceReflects(x, messages, s, i) && InstanceReflects(x, messages, s, j)
    requires CaughtUp(env, i) && CaughtUp(env, j)
    ensures SameInstance(i, j)
  {
    assert i.prepares.Keys == j.prepares.Keys;
    assert |i.prepares.Keys| == |i.prepares| && |j.prepares.Keys| == |j.prepares|;
    assert i.commits.Keys == j.commits.Keys;
    assert |i.commits.Keys| == |i.commits| && |j.commits.Keys| == |j.commits|;
  }

  /** Executed digests are those of committed instances. */
  lemma ExecutedIsCommitted(env: Env, x: Setting, n: Node, messages: set<Message>, h: Hash)
    requires env.Valid() && Canonical(env, x, n, messages)
    ensures h in n.st.executed <==>
              exists s: nat :: n.st.InstanceAt(s).phase == Committed && n.st.InstanceAt(s).digest == Some(h)
  {
    if h in n.st.executed {
      assert Delivered(env, n, h) || BeingDelivered(env, n, h);
      assert exists y :: y in n.decided && y.digest == h;
      var y :| y in n.decided && y.digest == h;
      assert n.st.InstanceAt(y.sequence).phase == Committed;
    }
  }

  lemma CanonicalSame(env: Env, x: Setting, a: Node, b: Node, messages: set<Message>)
    requires env.Valid() && Canonical(env, x, a, messages) && Canonical(env, x, b, messages)
    requires NothingToAdvance(a) && NothingToAdvance(b)
    ensures SameOutcome(a, b)
  {
    forall s ensures SameInstance(a.st.InstanceAt(s), b.st.InstanceAt(s)) {
      QuietIsCaughtUp(env, a, s);
      QuietIsCaughtUp(env, b, s);
      assert Reflects(env, x, a, s) && Reflects(env, x, b, s);
      MessagesDetermineInstance(env, x, messages, s, a.st.InstanceAt(s), b.st.InstanceAt(s));
    }
    forall h ensures h in a.st.executed <==> h in b.st.executed {
      ExecutedIsCommitted(env, x, a, messages, h);
      ExecutedIsCommitted(env, x, b, messages, h);
    }
    forall p: Prepare ensures Broadcast(PrepareMsg(p)) in a.sent <==> Broadcast(PrepareMsg(p)) in b.sent {
      assert VotesSentFor(env, x, a, p.sequence) && VotesSentFor(env, x, b, p.sequence);
    }
    forall c: Commit ensures Broadcast(CommitMsg(c)) in a.sent <==> Broadcast(CommitMsg(c)) in b.sent {
      assert VotesSentFor(env, x, a, c.sequence) && VotesSentFor(env, x, b, c.sequence);
    }
  }

  /** `n` is what the backup comes to from `n0` when exactly these messages are handed to it, in some
      order, each as often as you like, and interleaved with the pending advances in some way. */
  ghost predicate HandedInSomeOrder(env: Env, x: Setting, n0: Node, messages: set<Message>, n: Node)
    requires env.Valid()
  {
    exists events :: AllMatching(env, x, events) && Handed(events) == messages && n == Play(env, n0, events)
  }

  /** Delivery order does not matter. From any state that reflects the matching messages received
      so far, with whatever instances and votes, and whatever two orders the same further messages
      come in, with whatever repetitions and advances, the backup ends with the same phases,
      voters, executed digests and broadcast votes. */
  lemma DeliveryOrderIrrelevant(env: Env, x: Setting, n0: Node, messages: set<Message>, a: Node, b: Node)
    requires env.Valid() && Canonical(env, x, n0, n0.arrived)
    requires HandedInSomeOrder(env, x, n0, messages, a) && HandedInSomeOrder(env, x, n0, messages, b)
    requires NothingToAdvance(a) && NothingToAdvance(b)
    ensures SameOutcome(a, b)
  {
    hide Canonical, Play, Handed, NothingToAdvance, SameOutcome;
    var one :| AllMatching(env, x, one) && Handed(one) == messages && a == Play(env, n0, one);
    var other :| AllMatching(env, x, other) && Handed(other) == messages && b == Play(env, n0, other);
    CanonicalFrom(env, x, n0, one);
    CanonicalFrom(env, x, n0, other);
    CanonicalSame(env, x, a, b, n0.arrived + messages);
  }

  /** In particular for a backup that has just entered the view. */
  lemma DeliveryOrderIrrelevantOnEntering(env: Env, x: Setting, messages: set<Message>, a: Node, b: Node)
    requires env.Valid()
    requires HandedInSomeOrder(env, x, Entering(env, x.me, x.view, x.checkpoint), messages, a)
    requires HandedInSomeOrder(env, x, Entering(env, x.me, x.view, x.checkpoint), messages, b)
    requires NothingToAdvance(a) && NothingToAdvance(b)
    ensures SameOutcome(a, b)
  {
    hide Canonical, HandedInSomeOrder, NothingToAdvance, SameOutcome;
    EnteringIsCanonical(env, x);
    DeliveryOrderIrrelevant(env, x, Entering(env, x.me, x.view, x.checkpoint), messages, a, b);
  }
}
