/** Every step of a replica makes one of a few moves on its log. This module names the moves
    and proves what each step does in terms of its move; the other proofs reason about moves. */
module Moves {
  import opened Messages
  import opened Protocol

  datatype Move =
    | Stay
    | Open(prePrepare: PrePrepare)
    | AddPrepare(prepare: Prepare)
    | AddCommit(commit: Commit)
    | Certify(sequence: nat)
    | Finish(sequence: nat)
    | Discard(bound: nat)

  function MoveOf(env: Env, n: Node, e: Event): Move
    requires env.Valid()
  {
    var st := n.st;
    match e
    case ClientRequest(r) =>
      if ClassifyRequest(env, st, r) == Assign then
        Open(MakePrePrepare(env, st.nodeId, st.view, st.sequence + 1, r))
      else Stay
    case RecvPrePrepare(pp) => if CheckPrePrepare(env, st, pp) == Accept then Open(pp) else Stay
    case RecvPrepare(p) => if CheckPrepare(env, st, p) == Accept then AddPrepare(p) else Stay
    case RecvCommit(c) => if CheckCommit(env, st, c) == Accept then AddCommit(c) else Stay
    case RecvCheckpoint(cp) => if BecomesStable(env, st, cp) then Discard(cp.sequence) else Stay
    case Run(t) =>
      if t !in n.pending then Stay
      else if t.AdvancePrepared? && CanPrepare(env, st, t.sequence) then Certify(t.sequence)
      else if t.AdvanceCommitted? && CanCommit(env, st, t.sequence) then Finish(t.sequence)
      else Stay
    case _ => Stay
  }

  /** When a move is made. */
  ghost predicate Guard(env: Env, st: State, m: Move) {
    match m
    case Stay => true
    case Open(pp) => pp.view == st.view && pp.digest == env.digest(pp.request) && 1 <= pp.sequence <= st.highWatermark
    case AddPrepare(p) =>
      var i := st.InstanceAt(p.sequence);
      && st.InWindow(p.sequence) && p.view == st.view && p.replicaId !in i.prepares
      && (i.prePrepare.Some? ==> i.prePrepare.value.digest == p.digest)
    case AddCommit(c) =>
      var i := st.InstanceAt(c.sequence);
      && st.InWindow(c.sequence) && c.view == st.view && c.replicaId !in i.commits
      && (i.digest.Some? ==> i.digest.value == c.digest)
    case Certify(s) => CanPrepare(env, st, s)
    case Finish(s) => CanCommit(env, st, s)
    case Discard(bound) => bound > st.stableCheckpoint
  }

  function OwnPrepare(env: Env, st: State, pp: PrePrepare): Prepare {
    MakePrepare(env, st.nodeId, pp.view, pp.sequence, pp.digest)
  }

  function OwnCommit(env: Env, st: State, s: nat): Commit
    requires s in st.log && st.log[s].digest.Some?
  {
    MakeCommit(env, st.nodeId, st.log[s].view, s, st.log[s].digest.value)
  }

  /** The log after a move. */
  ghost function Moved(env: Env, st: State, m: Move): map<nat, Instance>
    requires Guard(env, st, m)
  {
    match m
    case Stay => st.log
    case Open(pp) => st.log[pp.sequence := Opened(st.InstanceAt(pp.sequence), pp, OwnPrepare(env, st, pp))]
    case AddPrepare(p) => st.log[p.sequence := WithPrepare(st.InstanceAt(p.sequence), p)]
    case AddCommit(c) => st.log[c.sequence := WithCommit(st.InstanceAt(c.sequence), c)]
    case Certify(s) => st.log[s := WithCommit(st.log[s].(phase := Prepared), OwnCommit(env, st, s))]
    case Finish(s) => st.log[s := st.log[s].(phase := Committed)]
    case Discard(bound) => Above(st.log, bound)
  }

  /** The pre-prepares, prepares and commits a move signs. */
  function SignedBy(env: Env, st: State, m: Move): set<SignedData>
    requires m.Certify? ==> m.sequence in st.log && st.log[m.sequence].digest.Some?
  {
    match m
    case Open(pp) => {PrepareData(pp.view, pp.sequence, pp.digest)}
    case Certify(s) => {CommitData(st.log[s].view, s, st.log[s].digest.value)}
    case _ => {}
  }

  /** The advance that a move leaves pending. */
  function FollowUp(m: Move): Option<Task> {
    match m
    case Open(pp) => Some(AdvancePrepared(pp.sequence))
    case AddPrepare(p) => Some(AdvancePrepared(p.sequence))
    case AddCommit(c) => Some(AdvanceCommitted(c.sequence))
    case Certify(s) => Some(AdvanceCommitted(s))
    case _ => None
  }

  predicate IsAdvance(t: Task) {
    t.AdvancePrepared? || t.AdvanceCommitted?
  }

  predicate IsVote(data: SignedData) {
    data.PrepareData? || data.CommitData?
  }

  /** Whether the primary branch of the request handler takes the next sequence number. */
  predicate Assigns(env: Env, st: State, e: Event)
    requires env.Valid()
  {
    e.ClientRequest? && ClassifyRequest(env, st, e.request) in {AboveWindow, Assign}
  }

  /** Where a move comes from. */
  ghost predicate Origin(env: Env, n: Node, e: Event, m: Move)
    requires env.Valid()
  {
    match m
    case Stay =>
      e.Run? && e.task in n.pending ==>
        && (e.task.AdvancePrepared? ==> !CanPrepare(env, n.st, e.task.sequence))
        && (e.task.AdvanceCommitted? ==> !CanCommit(env, n.st, e.task.sequence))
    case Open(pp) =>
      if e.ClientRequest? then
        && Assigns(env, n.st, e)
        && env.Primary(n.st.view) == n.st.nodeId
        && pp == MakePrePrepare(env, n.st.nodeId, n.st.view, n.st.sequence + 1, e.request)
      else
        && e == RecvPrePrepare(pp)
        && n.st.InWindow(pp.sequence)
        && !n.st.HoldsPrePrepare(pp.sequence)
        && pp.primaryId == env.Primary(pp.view)
        && env.verify(pp.primaryId, PrepareData(pp.view, pp.sequence, pp.digest), pp.signature)
    case AddPrepare(p) =>
      e == RecvPrepare(p) && env.verify(p.replicaId, PrepareData(p.view, p.sequence, p.digest), p.signature)
    case AddCommit(c) =>
      e == RecvCommit(c) && env.verify(c.replicaId, CommitData(c.view, c.sequence, c.digest), c.signature)
    case Certify(s) => e == Run(AdvancePrepared(s)) && e.task in n.pending
    case Finish(s) => e == Run(AdvanceCommitted(s)) && e.task in n.pending
    case Discard(bound) => e.RecvCheckpoint? && BecomesStable(env, n.st, e.checkpoint) && bound == e.checkpoint.sequence
  }

  function Arrivals(st: State, e: Event): set<Message> {
    match e
    case RecvPrePrepare(pp) => if pp.sequence <= st.highWatermark then {PrePrepareMsg(pp)} else {}
    case RecvPrepare(p) => if p.sequence <= st.highWatermark then {PrepareMsg(p)} else {}
    case RecvCommit(c) => if c.sequence <= st.highWatermark then {CommitMsg(c)} else {}
    case _ => {}
  }

  /** What a step does to the state, in terms of its move. */
  ghost predicate Follows(env: Env, n: Node, e: Event, m: Move, n': Node)
    requires env.Valid()
  {
    && n'.st.nodeId == n.st.nodeId
    && Guard(env, n.st, m)
    && Origin(env, n, e, m)
    && n'.st.log == Moved(env, n.st, m)
    && n'.st.view == (if e.RecvNewView? && e.newView.newView > n.st.view then e.newView.newView else n.st.view)
    && n'.st.sequence == (if Assigns(env, n.st, e) then n.st.sequence + 1 else n.st.sequence)
    && n'.st.stableCheckpoint == (if m.Discard? then m.bound else n.st.stableCheckpoint)
    && n'.st.lowWatermark == (if m.Discard? then m.bound else n.st.lowWatermark)
    && n'.st.highWatermark ==
         (if m.Discard? then m.bound + env.config.checkpointInterval * 2 else n.st.highWatermark)
    && n'.decided ==
         (if m.Finish? then n.decided + [Decision(m.sequence, n.st.log[m.sequence].digest.value)] else n.decided)
    && (!e.RecvCheckpoint? ==> n'.st.checkpoints == n.st.checkpoints)
    && (!e.RecvViewChange? && !e.RecvNewView? && !e.Timeout? ==>
          n'.st.viewChanges == n.st.viewChanges && n'.st.viewChanging == n.st.viewChanging)
    && n'.arrived == n.arrived + Arrivals(n.st, e)
    && (FollowUp(m).Some? ==> FollowUp(m).value in n'.pending)
    && (forall t :: t in n.pending && IsAdvance(t) && e != Run(t) ==> t in n'.pending)
  }

  /** The vote messages a move sends. */
  function Votes(env: Env, st: State, m: Move, e: Event): seq<Outgoing>
    requires m.Certify? ==> m.sequence in st.log && st.log[m.sequence].digest.Some?
  {
    match m
    case Open(pp) =>
      (if e.ClientRequest? then [Broadcast(PrePrepareMsg(pp))] else [])
      + [Broadcast(PrepareMsg(OwnPrepare(env, st, pp)))]
    case Certify(s) => [Broadcast(CommitMsg(OwnCommit(env, st, s)))]
    case _ => []
  }

  predicate IsVoteMessage(m: Message) {
    m.PrePrepareMsg? || m.PrepareMsg? || m.CommitMsg?
  }

  /** The prepares a move counts. */
  function Counted(st: State, m: Move): set<Certificate>
    requires m.Certify? ==> m.sequence in st.log && st.log[m.sequence].digest.Some?
  {
    match m
    case Certify(s) => {Certificate(s, st.log[s].digest.value, st.log[s].prepares)}
    case _ => {}
  }

  function Proven(st: State, e: Event): set<StableProof> {
    if e.RecvCheckpoint? then
      var s := e.checkpoint.sequence;
      {StableProof(s, WithCheckpoint(st, e.checkpoint)[s])}
    else {}
  }

  /** What a step signs, counts and sends. */
  ghost predicate Speaks(env: Env, n: Node, e: Event, m: Move, n': Node)
    requires env.Valid() && Guard(env, n.st, m)
  {
    && n.signed <= n'.signed
    && SignedBy(env, n.st, m) <= n'.signed
    && (forall d :: IsVote(d) && d in n'.signed ==> d in n.signed || d in SignedBy(env, n.st, m))
    && (forall d: SignedData :: d.CheckpointData? && d in n'.signed ==>
          d in n.signed || (e == Run(TryCheckpoint(d.sequence)) && e.task in n.pending
                            && d.sequence % env.config.checkpointInterval == 0))
    && n'.certificates == n.certificates + Counted(n.st, m)
    && n'.proofs == n.proofs + (if m.Discard? then Proven(n.st, e) else {})
    && n.sent <= n'.sent
    && (m.Open? || m.Certify? ==> n'.sent == n.sent + Votes(env, n.st, m, e))
    && (!m.Open? && !m.Certify? ==>
          forall i :: |n.sent| <= i < |n'.sent| ==> !IsVoteMessage(n'.sent[i].message))
    && (forall i :: |n.sent| <= i < |n'.sent| && n'.sent[i].message.NewViewMsg? ==> e.RecvViewChange?)
  }

  /** What a step hands to the application. */
  ghost predicate Outputs(env: Env, n: Node, e: Event, m: Move, n': Node)
    requires env.Valid() && Guard(env, n.st, m)
  {
    var executes := m.Finish? && Executes(env, n.st, m.sequence);
    && n'.st.executed ==
         (if executes then n.st.executed + {env.digest(n.st.log[m.sequence].request.value)} else n.st.executed)
    && n'.delivered ==
         (if e.Run? && e.task.Deliver? && e.task in n.pending
          then n.delivered + [Delivery(e.task.sequence, e.task.request)] else n.delivered)
    && (forall t: Task :: t.Deliver? ==>
          n'.pending[t] == n.pending[t]
                           + (if executes && t == Deliver(n.st.log[m.sequence].request.value, m.sequence) then 1 else 0)
                           - (if e == Run(t) && t in n.pending then 1 else 0))
    && (forall t: Task :: t.TryCheckpoint? && t in n'.pending ==>
          t in n.pending || (e.Run? && e.task.Deliver? && e.task in n.pending && e.task.sequence == t.sequence))
  }

  ghost predicate Explains(env: Env, n: Node, e: Event)
    requires env.Valid()
  {
    var m, n' := MoveOf(env, n, e), Step(env, n, e);
    Follows(env, n, e, m, n') && Speaks(env, n, e, m, n') && Outputs(env, n, e, m, n')
  }

  lemma AssignMoves(env: Env, n: Node, r: Request)
    requires env.Valid() && ClassifyRequest(env, n.st, r) == Assign
    ensures Explains(env, n, ClientRequest(r))
  {
    hide CanPrepare, CanCommit, Executes, WithCommit;
    assert Step(env, n, ClientRequest(r)) == HandleRequest(env, n, r);
  }

  lemma NoAssignMoves(env: Env, n: Node, r: Request)
    requires env.Valid() && ClassifyRequest(env, n.st, r) != Assign
    ensures Explains(env, n, ClientRequest(r))
  {
  }

  lemma PrePrepareMoves(env: Env, n: Node, pp: PrePrepare)
    requires env.Valid() && CheckPrePrepare(env, n.st, pp) == Accept
    ensures Explains(env, n, RecvPrePrepare(pp))
  {
    hide CanPrepare, CanCommit, Executes, WithCommit;
  }

  lemma PrepareMoves(env: Env, n: Node, p: Prepare)
    requires env.Valid() && CheckPrepare(env, n.st, p) == Accept
    ensures Explains(env, n, RecvPrepare(p))
  {
  }

  lemma CommitMoves(env: Env, n: Node, c: Commit)
    requires env.Valid() && CheckCommit(env, n.st, c) == Accept
    ensures Explains(env, n, RecvCommit(c))
  {
  }

  /** A pre-prepare, prepare or commit that is not accepted changes nothing but the history. */
  lemma NoVoteMoves(env: Env, n: Node, e: Event)
    requires env.Valid() && (e.RecvPrePrepare? || e.RecvPrepare? || e.RecvCommit?) && MoveOf(env, n, e) == Stay
    ensures Step(env, n, e) == n.(arrived := n.arrived + Arrivals(n.st, e))
    ensures Explains(env, n, e)
  {
    assert Step(env, n, e) == n.(arrived := n.arrived + Arrivals(n.st, e));
  }

  lemma CheckpointMoves(env: Env, n: Node, cp: Checkpoint)
    requires env.Valid()
    ensures Explains(env, n, RecvCheckpoint(cp))
  {
    hide WithCheckpoint, From, CanPrepare, CanCommit, Executes;
  }

  lemma ViewChangeMoves(env: Env, n: Node, vc: ViewChange)
    requires env.Valid()
    ensures Explains(env, n, RecvViewChange(vc))
  {
    hide WithViewChange;
    assert Step(env, n, RecvViewChange(vc)) == HandleViewChange(env, n, vc);
  }

  lemma NewViewMoves(env: Env, n: Node, nv: NewView)
    requires env.Valid()
    ensures Explains(env, n, RecvNewView(nv))
  {
  }

  lemma TimeoutMoves(env: Env, n: Node)
    requires env.Valid()
    ensures Explains(env, n, Timeout)
  {
  }

  lemma CertifyMoves(env: Env, n: Node, s: nat)
    requires env.Valid() && AdvancePrepared(s) in n.pending && CanPrepare(env, n.st, s)
    ensures Explains(env, n, Run(AdvancePrepared(s)))
  {
    var e := Run(AdvancePrepared(s));
    hide CanCommit, Opened, WithPrepare;
    assert MoveOf(env, n, e) == Certify(s);
    assert Step(env, n, e) == AdvanceToPrepared(env, n.(pending := n.pending - multiset{AdvancePrepared(s)}), s);
  }

  function Finished(env: Env, n: Node, s: nat): Node {
    AdvanceToCommitted(env, n.(pending := n.pending - multiset{AdvanceCommitted(s)}), s)
  }

  lemma FinishFollows(env: Env, n: Node, s: nat)
    requires env.Valid() && AdvanceCommitted(s) in n.pending && CanCommit(env, n.st, s)
    ensures Follows(env, n, Run(AdvanceCommitted(s)), Finish(s), Finished(env, n, s))
  {
    hide CanPrepare, Executes;
  }

  lemma FinishOutputs(env: Env, n: Node, s: nat)
    requires env.Valid() && AdvanceCommitted(s) in n.pending && CanCommit(env, n.st, s)
    ensures var e, n' := Run(AdvanceCommitted(s)), Finished(env, n, s);
            Speaks(env, n, e, Finish(s), n') && Outputs(env, n, e, Finish(s), n')
  {
    hide CanPrepare, Executes;
  }

  lemma FinishMoves(env: Env, n: Node, s: nat)
    requires env.Valid() && AdvanceCommitted(s) in n.pending && CanCommit(env, n.st, s)
    ensures Explains(env, n, Run(AdvanceCommitted(s)))
  {
    hide CanCommit, Follows, Speaks, Outputs, AdvanceToCommitted;
    FinishFollows(env, n, s);
    FinishOutputs(env, n, s);
    assert MoveOf(env, n, Run(AdvanceCommitted(s))) == Finish(s);
    assert Step(env, n, Run(AdvanceCommitted(s))) == Finished(env, n, s);
  }

  lemma DeliverMoves(env: Env, n: Node, r: Request, s: nat)
    requires env.Valid() && Deliver(r, s) in n.pending
    ensures Explains(env, n, Run(Deliver(r, s)))
  {
    hide CanPrepare, CanCommit;
    assert Step(env, n, Run(Deliver(r, s))) == DeliverRequest(n.(pending := n.pending - multiset{Deliver(r, s)}), r, s);
  }

  lemma CheckpointTaskMoves(env: Env, n: Node, s: nat)
    requires env.Valid() && TryCheckpoint(s) in n.pending
    ensures Explains(env, n, Run(TryCheckpoint(s)))
  {
    hide ZeroDigest, MakeCheckpoint, CanPrepare, CanCommit;
    assert Step(env, n, Run(TryCheckpoint(s))) ==
           MaybeCheckpoint(env, n.(pending := n.pending - multiset{TryCheckpoint(s)}), s);
  }

  /** An advance that finds nothing to do. */
  lemma UselessAdvanceMoves(env: Env, n: Node, t: Task)
    requires env.Valid() && t in n.pending && IsAdvance(t) && MoveOf(env, n, Run(t)) == Stay
    ensures Explains(env, n, Run(t))
  {
    assert Step(env, n, Run(t)) == n.(pending := n.pending - multiset{t});
  }

  lemma NoTaskMoves(env: Env, n: Node, t: Task)
    requires env.Valid() && t !in n.pending
    ensures Explains(env, n, Run(t))
  {
  }

  lemma TaskMoves(env: Env, n: Node, t: Task)
    requires env.Valid()
    ensures Explains(env, n, Run(t))
  {
    if t !in n.pending {
      NoTaskMoves(env, n, t);
    } else if IsAdvance(t) && MoveOf(env, n, Run(t)) == Stay {
      UselessAdvanceMoves(env, n, t);
    } else {
      match t
      case AdvancePrepared(s) => CertifyMoves(env, n, s);
      case AdvanceCommitted(s) => FinishMoves(env, n, s);
      case Deliver(r, s) => DeliverMoves(env, n, r, s);
      case TryCheckpoint(s) => CheckpointTaskMoves(env, n, s);
    }
  }

  lemma StepMoves(env: Env, n: Node, e: Event)
    requires env.Valid()
    ensures Explains(env, n, e)
  {
    match e
    case ClientRequest(r) =>
      if ClassifyRequest(env, n.st, r) == Assign {
        AssignMoves(env, n, r);
      } else {
        NoAssignMoves(env, n, r);
      }
    case RecvPrePrepare(pp) =>
      if CheckPrePrepare(env, n.st, pp) == Accept {
        PrePrepareMoves(env, n, pp);
      } else {
        NoVoteMoves(env, n, e);
      }
    case RecvPrepare(p) =>
      if CheckPrepare(env, n.st, p) == Accept {
        PrepareMoves(env, n, p);
      } else {
        NoVoteMoves(env, n, e);
      }
    case RecvCommit(c) =>
      if CheckCommit(env, n.st, c) == Accept {
        CommitMoves(env, n, c);
      } else {
        NoVoteMoves(env, n, e);
      }
    case RecvCheckpoint(cp) => CheckpointMoves(env, n, cp);
    case RecvViewChange(vc) => ViewChangeMoves(env, n, vc);
    case RecvNewView(nv) => NewViewMoves(env, n, nv);
    case Timeout => TimeoutMoves(env, n);
    case Run(t) => TaskMoves(env, n, t);
  }

  /** Pre-prepares and prepares are broadcast when an instance is opened, commits when it is
      certified. */
  lemma NewVotes(env: Env, n: Node, e: Event, m: Move, n': Node)
    requires env.Valid() && Guard(env, n.st, m) && Speaks(env, n, e, m, n')
    ensures forall pp: PrePrepare :: Broadcast(PrePrepareMsg(pp)) in n'.sent <==>
              Broadcast(PrePrepareMsg(pp)) in n.sent || (m.Open? && e.ClientRequest? && pp == m.prePrepare)
    ensures forall p: Prepare :: Broadcast(PrepareMsg(p)) in n'.sent <==>
              Broadcast(PrepareMsg(p)) in n.sent || (m.Open? && p == OwnPrepare(env, n.st, m.prePrepare))
    ensures forall c: Commit :: Broadcast(CommitMsg(c)) in n'.sent <==>
              Broadcast(CommitMsg(c)) in n.sent || (m.Certify? && c == OwnCommit(env, n.st, m.sequence))
  {
    if m.Open? {
      assert Broadcast(PrepareMsg(OwnPrepare(env, n.st, m.prePrepare))) in Votes(env, n.st, m, e);
      assert e.ClientRequest? ==> Broadcast(PrePrepareMsg(m.prePrepare)) in Votes(env, n.st, m, e);
    } else if m.Certify? {
      assert Broadcast(CommitMsg(OwnCommit(env, n.st, m.sequence))) in Votes(env, n.st, m, e);
    } else {
      forall o | o in n'.sent && IsVoteMessage(o.message) ensures o in n.sent {
        var i :| 0 <= i < |n'.sent| && n'.sent[i] == o;
        assert i < |n.sent|;
      }
    }
  }
}
