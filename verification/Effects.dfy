/** What each event makes a replica sign, send and queue, laid out case by case; that its steps do
    exactly this is proved, and what follows for whole runs is proved from it. */
module Effects {
  import opened Messages
  import opened Protocol
  import opened Moves
  import opened Invariant
  import opened Verdicts

  // ---------- When a replica acts ----------

  /** The message passes its tests and is not held already. */
  ghost predicate Takes(env: Env, st: State, m: Message)
    requires env.Valid()
  {
    Passes(Tests(env, st, m)) && !Held(st, m)
  }

  /** The primary of the view, with room in its window, is asked for something it has not executed. */
  predicate Proposes(env: Env, st: State, r: Request)
    requires env.Valid()
  {
    && env.Primary(st.view) == st.nodeId
    && env.digest(r) !in st.executed
    && st.sequence + 1 <= st.highWatermark
  }

  /** A pre-prepared instance with 2f+1 prepares. */
  predicate IsPrepared(env: Env, st: State, s: nat) {
    s in st.log && st.log[s].phase == PrePrepared && |st.log[s].prepares| >= 2 * env.config.f + 1
  }

  /** The senders of the view changes on file for a view. */
  function VotersFor(st: State, view: nat): set<NodeId> {
    if view in st.viewChanges then st.viewChanges[view].Keys else {}
  }

  /** What is on file for the view of a view change once it has been added. */
  function VotesWith(st: State, vc: ViewChange): map<NodeId, ViewChange> {
    (if vc.newView in st.viewChanges then st.viewChanges[vc.newView] else map[])[vc.replicaId := vc]
  }

  /** The primary of a later view receives a vote for it, and then has those of 2f+1 senders. */
  predicate Announces(env: Env, st: State, vc: ViewChange)
    requires env.Valid()
  {
    && vc.newView > st.view
    && env.Primary(vc.newView) == st.nodeId
    && |VotersFor(st, vc.newView) + {vc.replicaId}| >= 2 * env.config.f + 1
  }

  /** The number is a multiple of the checkpoint interval, and the attempt is due. */
  predicate ChecksIn(env: Env, n: Node, s: nat)
    requires env.Valid()
  {
    TryCheckpoint(s) in n.pending && s % env.config.checkpointInterval == 0
  }

  // ---------- What it then signs and sends ----------

  function Signed(env: Env, st: State, data: SignedData): Signature {
    env.sign(st.nodeId, data)
  }

  function ProposalFor(env: Env, st: State, r: Request): PrePrepare {
    var s, d := st.sequence + 1, env.digest(r);
    PrePrepare(st.view, s, d, r, st.nodeId, Signed(env, st, PrepareData(st.view, s, d)))
  }

  function PrepareFor(env: Env, st: State, pp: PrePrepare): Prepare {
    Prepare(pp.view, pp.sequence, pp.digest, st.nodeId,
            Signed(env, st, PrepareData(pp.view, pp.sequence, pp.digest)))
  }

  function CommitFor(env: Env, st: State, view: nat, s: nat, d: Hash): Commit {
    Commit(view, s, d, st.nodeId, Signed(env, st, CommitData(view, s, d)))
  }

  function AnnouncementFor(env: Env, st: State, vc: ViewChange): NewView {
    NewView(vc.newView, VotesWith(st, vc).Values, st.nodeId, Signed(env, st, NewViewData(vc.newView)))
  }

  function VoteOf(env: Env, st: State): ViewChange {
    ViewChange(st.view + 1, st.nodeId, st.sequence, Signed(env, st, ViewChangeData(st.view + 1)))
  }

  /** The digest that stands in for the state: 32 zero bytes. */
  function NoState(): Hash {
    Hash(seq(32, _ => 0))
  }

  function CheckpointFor(env: Env, st: State, s: nat): Checkpoint {
    Checkpoint(s, NoState(), st.nodeId, Signed(env, st, CheckpointData(s, NoState())))
  }

  /** What an event makes the replica send, in order. */
  ghost function Sends(env: Env, n: Node, e: Event): seq<Outgoing>
    requires env.Valid() && LogOk(env, n.st)
  {
    var st := n.st;
    match e
    case ClientRequest(r) =>
      if env.Primary(st.view) != st.nodeId then [SendTo(env.Primary(st.view), RequestMsg(r))]
      else if Proposes(env, st, r) then
        var pp := ProposalFor(env, st, r);
        [Broadcast(PrePrepareMsg(pp)), Broadcast(PrepareMsg(PrepareFor(env, st, pp)))]
      else []
    case RecvPrePrepare(pp) =>
      if Takes(env, st, PrePrepareMsg(pp)) then [Broadcast(PrepareMsg(PrepareFor(env, st, pp)))] else []
    case RecvViewChange(vc) =>
      if Announces(env, st, vc) then [Broadcast(NewViewMsg(AnnouncementFor(env, st, vc)))] else []
    case Timeout => if st.viewChanging then [] else [Broadcast(ViewChangeMsg(VoteOf(env, st)))]
    case Run(AdvancePrepared(s)) =>
      if e.task in n.pending && IsPrepared(env, st, s) then
        assert InstanceOk(env, st.nodeId, s, st.log[s]);
        [Broadcast(CommitMsg(CommitFor(env, st, st.log[s].view, s, st.log[s].digest.value)))]
      else []
    case Run(TryCheckpoint(s)) =>
      if ChecksIn(env, n, s) then [Broadcast(CheckpointMsg(CheckpointFor(env, st, s)))] else []
    case _ => []
  }

  /** What a message that a replica sends is signed for. */
  function SignedFor(m: Message): set<SignedData> {
    match m
    case PrePrepareMsg(pp) => {PrepareData(pp.view, pp.sequence, pp.digest)}
    case PrepareMsg(p) => {PrepareData(p.view, p.sequence, p.digest)}
    case CommitMsg(c) => {CommitData(c.view, c.sequence, c.digest)}
    case ViewChangeMsg(vc) => {ViewChangeData(vc.newView)}
    case NewViewMsg(nv) => {NewViewData(nv.newView)}
    case CheckpointMsg(cp) => {CheckpointData(cp.sequence, cp.digest)}
    case RequestMsg(_) => {}
  }

  function SignedForAll(sent: seq<Outgoing>): set<SignedData> {
    set o, data | o in sent && data in SignedFor(o.message) :: data
  }

  /** A replica signs for what it sends, and for nothing else. */
  ghost predicate SpeaksExactly(env: Env, n: Node, e: Event)
    requires env.Valid() && LogOk(env, n.st)
  {
    var n' := Step(env, n, e);
    && n'.sent == n.sent + Sends(env, n, e)
    && n'.signed == n.signed + SignedForAll(Sends(env, n, e))
  }

  lemma {:induction false} ZerosAre(k: nat)
    ensures Zeros(k) == seq(k, _ => 0 as Byte)
  {
    if k > 0 {
      ZerosAre(k - 1);
    }
  }

  lemma ZeroDigestIsNoState()
    ensures ZeroDigest() == NoState()
  {
    ZerosAre(32);
  }

  lemma SignedForNothing()
    ensures SignedForAll([]) == {}
  {
  }

  lemma SignedForFew(a: Outgoing, b: Outgoing)
    ensures SignedForAll([a]) == SignedFor(a.message)
    ensures SignedForAll([a, b]) == SignedFor(a.message) + SignedFor(b.message)
  {
  }

  lemma RequestSpeaks(env: Env, n: Node, r: Request)
    requires env.Valid() && LogOk(env, n.st)
    ensures SpeaksExactly(env, n, ClientRequest(r))
  {
    hide LogOk, Opened, SignedForAll;
    var st := n.st;
    var pp := ProposalFor(env, st, r);
    SignedForFew(Broadcast(PrePrepareMsg(pp)), Broadcast(PrepareMsg(PrepareFor(env, st, pp))));
    var forward := SendTo(env.Primary(st.view), RequestMsg(r));
    SignedForNothing();
    SignedForFew(forward, forward);
    assert Step(env, n, ClientRequest(r)) == HandleRequest(env, n, r);
  }

  lemma PrePrepareSpeaks(env: Env, n: Node, pp: PrePrepare)
    requires env.Valid() && LogOk(env, n.st)
    ensures SpeaksExactly(env, n, RecvPrePrepare(pp))
  {
    hide LogOk, Opened, SignedForAll, CheckPrePrepare, Tests, Held;
    var own := Broadcast(PrepareMsg(PrepareFor(env, n.st, pp)));
    SignedForNothing();
    SignedForFew(own, own);
    PrePrepareVerdict(env, n.st, pp);
    var n1 := Arrive(n, PrePrepareMsg(pp), pp.sequence);
    assert Step(env, n, RecvPrePrepare(pp)) == HandlePrePrepare(env, n1, pp);
  }

  lemma SilentSpeaks(env: Env, n: Node, e: Event)
    requires env.Valid() && LogOk(env, n.st)
    requires e.RecvPrepare? || e.RecvCommit? || e.RecvCheckpoint? || e.RecvNewView?
    ensures SpeaksExactly(env, n, e)
  {
    hide LogOk, CheckPrepare, CheckCommit, SignedForAll;
    SignedForNothing();
  }

  lemma VotesCounted(st: State, vc: ViewChange)
    ensures WithViewChange(st, vc)[vc.newView] == VotesWith(st, vc)
    ensures |VotesWith(st, vc)| == |VotersFor(st, vc.newView) + {vc.replicaId}|
  {
    var votes := VotesWith(st, vc);
    assert votes.Keys == VotersFor(st, vc.newView) + {vc.replicaId} && |votes| == |votes.Keys|;
  }

  lemma ViewChangeSpeaks(env: Env, n: Node, vc: ViewChange)
    requires env.Valid() && LogOk(env, n.st)
    ensures SpeaksExactly(env, n, RecvViewChange(vc))
  {
    hide LogOk, SignedForAll, VotesWith, WithViewChange, VotersFor;
    var nv := Broadcast(NewViewMsg(AnnouncementFor(env, n.st, vc)));
    SignedForNothing();
    SignedForFew(nv, nv);
    VotesCounted(n.st, vc);
    assert Step(env, n, RecvViewChange(vc)) == HandleViewChange(env, n, vc);
  }

  lemma TimeoutSpeaks(env: Env, n: Node)
    requires env.Valid() && LogOk(env, n.st)
    ensures SpeaksExactly(env, n, Timeout)
  {
    hide LogOk, SignedForAll, WithViewChange;
    var vote := Broadcast(ViewChangeMsg(VoteOf(env, n.st)));
    SignedForNothing();
    SignedForFew(vote, vote);
    assert Step(env, n, Timeout) == StartViewChange(env, n);
  }

  lemma TaskSpeaks(env: Env, n: Node, t: Task)
    requires env.Valid() && LogOk(env, n.st) && !t.AdvancePrepared?
    ensures SpeaksExactly(env, n, Run(t))
  {
    hide LogOk, SignedForAll, ZeroDigest, NoState, CanCommit, Executes;
    ZeroDigestIsNoState();
    var cp := Broadcast(CheckpointMsg(CheckpointFor(env, n.st, t.sequence)));
    SignedForNothing();
    SignedForFew(cp, cp);
  }

  lemma OneInstanceOk(env: Env, st: State, s: nat)
    requires LogOk(env, st) && s in st.log
    ensures st.log[s].phase != Idle ==>
              st.log[s].digest.Some? && st.log[s].prePrepare.Some? && st.log[s].request.Some?
  {
    assert InstanceOk(env, st.nodeId, s, st.log[s]);
  }

  lemma AdvanceSpeaks(env: Env, n: Node, s: nat)
    requires env.Valid() && LogOk(env, n.st)
    ensures SpeaksExactly(env, n, Run(AdvancePrepared(s)))
  {
    hide SignedForAll, WithCommit, LogOk;
    SignedForNothing();
    if AdvancePrepared(s) in n.pending && s in n.st.log {
      OneInstanceOk(env, n.st, s);
      if IsPrepared(env, n.st, s) {
        var i := n.st.log[s];
        var c := Broadcast(CommitMsg(CommitFor(env, n.st, i.view, s, i.digest.value)));
        SignedForFew(c, c);
        assert CanPrepare(env, n.st, s);
      }
    }
  }

  /** Each event makes a replica send exactly what is laid out, and sign for exactly that. */
  lemma StepSpeaks(env: Env, n: Node, e: Event)
    requires env.Valid() && LogOk(env, n.st)
    ensures SpeaksExactly(env, n, e)
  {
    hide SpeaksExactly, LogOk;
    match e
    case ClientRequest(r) => RequestSpeaks(env, n, r);
    case RecvPrePrepare(pp) => PrePrepareSpeaks(env, n, pp);
    case RecvViewChange(vc) => ViewChangeSpeaks(env, n, vc);
    case Timeout => TimeoutSpeaks(env, n);
    case Run(AdvancePrepared(s)) => AdvanceSpeaks(env, n, s);
    case Run(t) => TaskSpeaks(env, n, t);
    case _ => SilentSpeaks(env, n, e);
  }

  // ---------- What it is left to do ----------

  /** A prepared instance with 2f+1 commits. */
  predicate IsCommitted(env: Env, st: State, s: nat) {
    s in st.log && st.log[s].phase == Prepared && |st.log[s].commits| >= 2 * env.config.f + 1
  }

  /** What an event adds to the tasks of the replica. */
  ghost function Queues(env: Env, n: Node, e: Event): multiset<Task>
    requires env.Valid() && LogOk(env, n.st)
  {
    var st := n.st;
    match e
    case ClientRequest(r) => if Proposes(env, st, r) then multiset{AdvancePrepared(st.sequence + 1)} else multiset{}
    case RecvPrePrepare(pp) =>
      if Takes(env, st, PrePrepareMsg(pp)) then multiset{AdvancePrepared(pp.sequence)} else multiset{}
    case RecvPrepare(p) =>
      if Takes(env, st, PrepareMsg(p)) then multiset{AdvancePrepared(p.sequence)} else multiset{}
    case RecvCommit(c) =>
      if Takes(env, st, CommitMsg(c)) then multiset{AdvanceCommitted(c.sequence)} else multiset{}
    case Run(AdvancePrepared(s)) =>
      if e.task in n.pending && IsPrepared(env, st, s) then multiset{AdvanceCommitted(s)} else multiset{}
    case Run(AdvanceCommitted(s)) =>
      if e.task in n.pending && IsCommitted(env, st, s) then
        assert InstanceOk(env, st.nodeId, s, st.log[s]);
        var r := st.log[s].request.value;
        if env.digest(r) in st.executed then multiset{} else multiset{Deliver(r, s)}
      else multiset{}
    case Run(Deliver(_, s)) => if e.task in n.pending then multiset{TryCheckpoint(s)} else multiset{}
    case _ => multiset{}
  }

  ghost predicate QueuesExactly(env: Env, n: Node, e: Event)
    requires env.Valid() && LogOk(env, n.st)
  {
    var done := if e.Run? then multiset{e.task} else multiset{};
    Step(env, n, e).pending == n.pending - done + Queues(env, n, e)
  }

  lemma RequestQueues(env: Env, n: Node, r: Request)
    requires env.Valid() && LogOk(env, n.st)
    ensures QueuesExactly(env, n, ClientRequest(r))
  {
    hide LogOk, Opened;
    assert Step(env, n, ClientRequest(r)) == HandleRequest(env, n, r);
  }

  lemma PrePrepareQueues(env: Env, n: Node, pp: PrePrepare)
    requires env.Valid() && LogOk(env, n.st)
    ensures QueuesExactly(env, n, RecvPrePrepare(pp))
  {
    hide LogOk, Opened, CheckPrePrepare, Tests, Held;
    PrePrepareVerdict(env, n.st, pp);
  }

  lemma PrepareQueues(env: Env, n: Node, p: Prepare)
    requires env.Valid() && LogOk(env, n.st)
    ensures QueuesExactly(env, n, RecvPrepare(p))
  {
    hide LogOk, WithPrepare, CheckPrepare, Tests, Held;
    PrepareVerdict(env, n.st, p);
  }

  lemma CommitQueues(env: Env, n: Node, c: Commit)
    requires env.Valid() && LogOk(env, n.st)
    ensures QueuesExactly(env, n, RecvCommit(c))
  {
    hide LogOk, WithCommit, CheckCommit, Tests, Held;
    CommitVerdict(env, n.st, c);
  }

  lemma OtherQueues(env: Env, n: Node, e: Event)
    requires env.Valid() && LogOk(env, n.st)
    requires e.RecvViewChange? || e.RecvNewView? || e.RecvCheckpoint? || e.Timeout?
    ensures QueuesExactly(env, n, e)
  {
    hide LogOk, WithViewChange, WithCheckpoint, BecomesStable;
  }

  lemma PreparedQueues(env: Env, n: Node, s: nat)
    requires env.Valid() && LogOk(env, n.st)
    ensures QueuesExactly(env, n, Run(AdvancePrepared(s)))
  {
    hide LogOk, WithCommit;
    if s in n.st.log {
      OneInstanceOk(env, n.st, s);
    }
  }

  lemma CommittedQueues(env: Env, n: Node, s: nat)
    requires env.Valid() && LogOk(env, n.st)
    ensures QueuesExactly(env, n, Run(AdvanceCommitted(s)))
  {
    hide LogOk;
    if s in n.st.log {
      OneInstanceOk(env, n.st, s);
    }
  }

  lemma DeliverQueues(env: Env, n: Node, t: Task)
    requires env.Valid() && LogOk(env, n.st) && !IsAdvance(t)
    ensures QueuesExactly(env, n, Run(t))
  {
    hide LogOk, ZeroDigest;
  }

  /** Each event adds to the pending tasks exactly what is laid out; a task that is run is done. */
  lemma StepQueues(env: Env, n: Node, e: Event)
    requires env.Valid() && LogOk(env, n.st)
    ensures QueuesExactly(env, n, e)
  {
    hide QueuesExactly, LogOk;
    match e
    case ClientRequest(r) => RequestQueues(env, n, r);
    case RecvPrePrepare(pp) => PrePrepareQueues(env, n, pp);
    case RecvPrepare(p) => PrepareQueues(env, n, p);
    case RecvCommit(c) => CommitQueues(env, n, c);
    case Run(AdvancePrepared(s)) => PreparedQueues(env, n, s);
    case Run(AdvanceCommitted(s)) => CommittedQueues(env, n, s);
    case Run(t) => DeliverQueues(env, n, t);
    case _ => OtherQueues(env, n, e);
  }
}
