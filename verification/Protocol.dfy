/** The replica state machine of src/pbft.rs as pure steps. Each scope in which a handler
    holds the state lock is one step; what a handler does after it has dropped the lock is a
    pending task, so that it may interleave with the scopes of other handlers. */
module Protocol {
  import opened Messages
  import Quorums

  /** Cluster size, tolerated faults and checkpoint interval. */
  datatype Config = Config(n: nat, f: nat, checkpointInterval: nat) {
    function Quorum(): nat {
      Quorums.QuorumSize(f)
    }
  }

  const DEFAULT_CHECKPOINT_INTERVAL := 100

  function NewConfig(n: nat): Config
    requires n >= 1
  {
    Config(n, Quorums.FaultBound(n), DEFAULT_CHECKPOINT_INTERVAL)
  }

  /** What a replica is given and never changes: its configuration, the ordered replica list,
      and the cryptographic primitives. `sign` and `verify` take the datum; the string it is
      printed as is the subject of module Encoding. */
  datatype Env = Env(
    config: Config,
    replicas: seq<NodeId>,
    digest: Request -> Hash,
    sign: (NodeId, SignedData) -> Signature,
    verify: (NodeId, SignedData, Signature) -> bool
  ) {
    predicate Valid() {
      |replicas| > 0 && config.checkpointInterval > 0
    }

    function Primary(view: nat): NodeId
      requires Valid()
    {
      replicas[view % |replicas|]
    }
  }

  datatype Phase = Idle | PrePrepared | Prepared | Committed

  function Rank(p: Phase): nat {
    match p
    case Idle => 0
    case PrePrepared => 1
    case Prepared => 2
    case Committed => 3
  }

  /** The state of consensus on one sequence number. */
  datatype Instance = Instance(
    sequence: nat,
    view: nat,
    request: Option<Request>,
    digest: Option<Hash>,
    phase: Phase,
    prePrepare: Option<PrePrepare>,
    prepares: map<NodeId, Prepare>,
    commits: map<NodeId, Commit>
  )

  function NewInstance(sequence: nat, view: nat): Instance {
    Instance(sequence, view, None, None, Idle, None, map[], map[])
  }

  datatype State = State(
    nodeId: NodeId,
    view: nat,
    sequence: nat,
    lowWatermark: nat,
    highWatermark: nat,
    log: map<nat, Instance>,
    executed: set<Hash>,
    checkpoints: map<nat, map<NodeId, Checkpoint>>,
    stableCheckpoint: nat,
    viewChanges: map<nat, map<NodeId, ViewChange>>,
    viewChanging: bool
  ) {
    /** The instance at a sequence number, created in the current view if there is none. */
    function InstanceAt(s: nat): Instance {
      if s in log then log[s] else NewInstance(s, view)
    }

    predicate InWindow(s: nat) {
      lowWatermark < s <= highWatermark
    }

    predicate HoldsPrePrepare(s: nat) {
      s in log && log[s].prePrepare.Some?
    }
  }

  // ---------- What a step does to one instance ----------

  function WithPrepare(i: Instance, p: Prepare): Instance {
    i.(prepares := i.prepares[p.replicaId := p])
  }

  function WithCommit(i: Instance, c: Commit): Instance {
    i.(commits := i.commits[c.replicaId := c])
  }

  /** Recording a pre-prepare and the replica's own prepare for it. */
  function Opened(i: Instance, pp: PrePrepare, own: Prepare): Instance {
    WithPrepare(i.(request := Some(pp.request), digest := Some(pp.digest), prePrepare := Some(pp),
                   phase := PrePrepared), own)
  }

  function InitialState(env: Env, nodeId: NodeId): State {
    State(nodeId, 0, 0, 0, env.config.checkpointInterval * 2, map[], {}, map[], 0, map[], false)
  }

  /** What handlers still have to do once they have dropped the lock. */
  datatype Task =
    | AdvancePrepared(sequence: nat)
    | AdvanceCommitted(sequence: nat)
    | Deliver(request: Request, sequence: nat)
    | TryCheckpoint(sequence: nat)

  datatype Delivery = Delivery(sequence: nat, request: Request)

  datatype Decision = Decision(sequence: nat, digest: Hash)

  /** The prepares that were there when an instance moved to Prepared. */
  datatype Certificate = Certificate(sequence: nat, digest: Hash, prepares: map<NodeId, Prepare>)

  /** The checkpoints that were filed for a number when it became stable. */
  datatype StableProof = StableProof(sequence: nat, claims: map<NodeId, Checkpoint>)

  /** A replica: its state, its pending tasks and output channels, and histories of what it has
      signed, on which prepares it has moved instances to Prepared, on which checkpoints it has moved
      its window, which instances it has moved to Committed, and which protocol messages reached it
      while their sequence number was not above its high watermark. */
  datatype Node = Node(
    st: State,
    pending: multiset<Task>,
    sent: seq<Outgoing>,
    delivered: seq<Delivery>,
    signed: set<SignedData>,
    certificates: set<Certificate>,
    proofs: set<StableProof>,
    decided: seq<Decision>,
    arrived: set<Message>
  )

  function InitialNode(env: Env, nodeId: NodeId): Node {
    Node(InitialState(env, nodeId), multiset{}, [], [], {}, {}, {}, [], {})
  }

  datatype PbftError = InvalidMessage | InvalidSignature | InvalidView | InvalidSequence | NotPrimary | DuplicateMessage

  /** What a handler decides about its input before it changes anything. */
  datatype Verdict = Accept | Ignore | Reject(error: PbftError)

  // ---------- The messages a replica makes ----------

  function MakePrePrepare(env: Env, me: NodeId, v: nat, s: nat, request: Request): PrePrepare {
    var d := env.digest(request);
    PrePrepare(v, s, d, request, me, env.sign(me, PrepareData(v, s, d)))
  }

  function MakePrepare(env: Env, me: NodeId, v: nat, s: nat, d: Hash): Prepare {
    Prepare(v, s, d, me, env.sign(me, PrepareData(v, s, d)))
  }

  function MakeCommit(env: Env, me: NodeId, v: nat, s: nat, d: Hash): Commit {
    Commit(v, s, d, me, env.sign(me, CommitData(v, s, d)))
  }

  function Zeros(k: nat): seq<Byte> {
    if k == 0 then [] else [0] + Zeros(k - 1)
  }

  /** Checkpoints carry no state hash, but 32 zero bytes. */
  function ZeroDigest(): Hash {
    Hash(Zeros(32))
  }

  function MakeCheckpoint(env: Env, me: NodeId, s: nat): Checkpoint {
    Checkpoint(s, ZeroDigest(), me, env.sign(me, CheckpointData(s, ZeroDigest())))
  }

  // ---------- Requests ----------

  datatype RequestAction = Forward | AlreadyExecuted | AboveWindow | Assign

  function ClassifyRequest(env: Env, st: State, request: Request): RequestAction
    requires env.Valid()
  {
    if env.Primary(st.view) != st.nodeId then Forward
    else if env.digest(request) in st.executed then AlreadyExecuted
    else if st.sequence + 1 > st.highWatermark then AboveWindow
    else Assign
  }

  /** A backup forwards the request; the primary assigns the next sequence number. The counter
      moves even when the number turns out to be above the window. */
  function HandleRequest(env: Env, n: Node, request: Request): Node
    requires env.Valid()
  {
    var st := n.st;
    match ClassifyRequest(env, st, request)
    case Forward => n.(sent := n.sent + [SendTo(env.Primary(st.view), RequestMsg(request))])
    case AlreadyExecuted => n
    case AboveWindow => n.(st := st.(sequence := st.sequence + 1))
    case Assign =>
      var s, me := st.sequence + 1, st.nodeId;
      var pp := MakePrePrepare(env, me, st.view, s, request);
      var own := MakePrepare(env, me, st.view, s, pp.digest);
      n.(st := st.(sequence := s, log := st.log[s := Opened(st.InstanceAt(s), pp, own)]),
         signed := n.signed + {PrepareData(st.view, s, pp.digest)},
         sent := n.sent + [Broadcast(PrePrepareMsg(pp)), Broadcast(PrepareMsg(own))],
         pending := n.pending + multiset{AdvancePrepared(s)})
  }

  // ---------- Pre-prepares, prepares and commits ----------

  function CheckPrePrepare(env: Env, st: State, pp: PrePrepare): Verdict
    requires env.Valid()
  {
    if pp.view != st.view then Reject(InvalidView)
    else if pp.primaryId != env.Primary(st.view) then Reject(NotPrimary)
    else if !st.InWindow(pp.sequence) then Reject(InvalidSequence)
    else if !env.verify(pp.primaryId, PrepareData(pp.view, pp.sequence, pp.digest), pp.signature) then
      Reject(InvalidSignature)
    else if st.HoldsPrePrepare(pp.sequence) then
      if st.log[pp.sequence].digest != Some(pp.digest) then Reject(InvalidMessage) else Ignore
    else if env.digest(pp.request) != pp.digest then Reject(InvalidMessage)
    else Accept
  }

  function HandlePrePrepare(env: Env, n: Node, pp: PrePrepare): Node
    requires env.Valid()
  {
    var st := n.st;
    if CheckPrePrepare(env, st, pp) != Accept then n
    else
      var s := pp.sequence;
      var own := MakePrepare(env, st.nodeId, pp.view, s, pp.digest);
      n.(st := st.(log := st.log[s := Opened(st.InstanceAt(s), pp, own)]),
         signed := n.signed + {PrepareData(pp.view, s, pp.digest)},
         sent := n.sent + [Broadcast(PrepareMsg(own))],
         pending := n.pending + multiset{AdvancePrepared(s)})
  }

  function CheckPrepare(env: Env, st: State, p: Prepare): Verdict {
    var i := st.InstanceAt(p.sequence);
    if p.view != st.view then Reject(InvalidView)
    else if !st.InWindow(p.sequence) then Reject(InvalidSequence)
    else if !env.verify(p.replicaId, PrepareData(p.view, p.sequence, p.digest), p.signature) then
      Reject(InvalidSignature)
    else if i.prePrepare.Some? && i.prePrepare.value.digest != p.digest then Reject(InvalidMessage)
    else if p.replicaId in i.prepares then Ignore
    else Accept
  }

  /** A vote that comes before the pre-prepare is stored, whatever its digest. */
  function HandlePrepare(env: Env, n: Node, p: Prepare): Node {
    var st := n.st;
    if CheckPrepare(env, st, p) != Accept then n
    else
      n.(st := st.(log := st.log[p.sequence := WithPrepare(st.InstanceAt(p.sequence), p)]),
         pending := n.pending + multiset{AdvancePrepared(p.sequence)})
  }

  function CheckCommit(env: Env, st: State, c: Commit): Verdict {
    var i := st.InstanceAt(c.sequence);
    if c.view != st.view then Reject(InvalidView)
    else if !st.InWindow(c.sequence) then Reject(InvalidSequence)
    else if !env.verify(c.replicaId, CommitData(c.view, c.sequence, c.digest), c.signature) then
      Reject(InvalidSignature)
    else if i.digest.Some? && i.digest.value != c.digest then Reject(InvalidMessage)
    else if c.replicaId in i.commits then Ignore
    else Accept
  }

  function HandleCommit(env: Env, n: Node, c: Commit): Node {
    var st := n.st;
    if CheckCommit(env, st, c) != Accept then n
    else
      n.(st := st.(log := st.log[c.sequence := WithCommit(st.InstanceAt(c.sequence), c)]),
         pending := n.pending + multiset{AdvanceCommitted(c.sequence)})
  }

  // ---------- Advancing an instance ----------

  /** The votes are counted, not compared. The last conjunct says that unwrapping the digest
      succeeds; it follows from the others in every reachable state. */
  predicate CanPrepare(env: Env, st: State, s: nat) {
    && s in st.log
    && st.log[s].prePrepare.Some?
    && st.log[s].phase == PrePrepared
    && |st.log[s].prepares| >= env.config.Quorum()
    && st.log[s].digest.Some?
  }

  function AdvanceToPrepared(env: Env, n: Node, s: nat): Node {
    var st := n.st;
    if !CanPrepare(env, st, s) then n
    else
      var i, me := st.log[s], st.nodeId;
      var commit := MakeCommit(env, me, i.view, s, i.digest.value);
      n.(st := st.(log := st.log[s := WithCommit(i.(phase := Prepared), commit)]),
         signed := n.signed + {CommitData(i.view, s, i.digest.value)},
         certificates := n.certificates + {Certificate(s, i.digest.value, i.prepares)},
         sent := n.sent + [Broadcast(CommitMsg(commit))],
         pending := n.pending + multiset{AdvanceCommitted(s)})
  }

  predicate CanCommit(env: Env, st: State, s: nat) {
    && s in st.log
    && st.log[s].phase == Prepared
    && |st.log[s].commits| >= env.config.Quorum()
    && st.log[s].digest.Some?
  }

  /** The request is handed on unless one with the same digest has been executed before. */
  predicate Executes(env: Env, st: State, s: nat)
    requires CanCommit(env, st, s)
  {
    st.log[s].request.Some? && env.digest(st.log[s].request.value) !in st.executed
  }

  function AdvanceToCommitted(env: Env, n: Node, s: nat): Node {
    var st := n.st;
    if !CanCommit(env, st, s) then n
    else
      var i, executes := st.log[s], Executes(env, st, s);
      n.(st := st.(log := st.log[s := i.(phase := Committed)],
                   executed := if executes then st.executed + {env.digest(i.request.value)} else st.executed),
         decided := n.decided + [Decision(s, i.digest.value)],
         pending := if executes then n.pending + multiset{Deliver(i.request.value, s)} else n.pending)
  }

  /** Sending the request to the application, outside the lock. */
  function DeliverRequest(n: Node, request: Request, s: nat): Node {
    n.(delivered := n.delivered + [Delivery(s, request)],
       pending := n.pending + multiset{TryCheckpoint(s)})
  }

  function MaybeCheckpoint(env: Env, n: Node, s: nat): Node
    requires env.Valid()
  {
    if s % env.config.checkpointInterval != 0 then n
    else
      n.(signed := n.signed + {CheckpointData(s, ZeroDigest())},
         sent := n.sent + [Broadcast(CheckpointMsg(MakeCheckpoint(env, n.st.nodeId, s)))])
  }

  function RunTask(env: Env, n: Node, t: Task): Node
    requires env.Valid()
  {
    match t
    case AdvancePrepared(s) => AdvanceToPrepared(env, n, s)
    case AdvanceCommitted(s) => AdvanceToCommitted(env, n, s)
    case Deliver(request, s) => DeliverRequest(n, request, s)
    case TryCheckpoint(s) => MaybeCheckpoint(env, n, s)
  }

  // ---------- Checkpoints ----------

  /** What retaining the keys above, or not below, a bound leaves of a map. */
  function Above<V>(m: map<nat, V>, bound: nat): map<nat, V> {
    map k | k in m && k > bound :: m[k]
  }

  function From<V>(m: map<nat, V>, bound: nat): map<nat, V> {
    map k | k in m && k >= bound :: m[k]
  }

  function WithCheckpoint(st: State, cp: Checkpoint): map<nat, map<NodeId, Checkpoint>> {
    var received := if cp.sequence in st.checkpoints then st.checkpoints[cp.sequence] else map[];
    st.checkpoints[cp.sequence := received[cp.replicaId := cp]]
  }

  predicate BecomesStable(env: Env, st: State, cp: Checkpoint) {
    |WithCheckpoint(st, cp)[cp.sequence]| >= env.config.Quorum() && cp.sequence > st.stableCheckpoint
  }

  /** Checkpoints are stored as they come; a quorum at a later sequence number moves the window
      and discards what is behind it. */
  function HandleCheckpoint(env: Env, n: Node, cp: Checkpoint): Node {
    var st, s := n.st, cp.sequence;
    var checkpoints' := WithCheckpoint(st, cp);
    if BecomesStable(env, st, cp) then
      n.(st := st.(stableCheckpoint := s, lowWatermark := s,
                   highWatermark := s + env.config.checkpointInterval * 2,
                   log := Above(st.log, s),
                   checkpoints := From(checkpoints', s)),
         proofs := n.proofs + {StableProof(s, checkpoints'[s])})
    else
      n.(st := st.(checkpoints := checkpoints'))
  }

  // ---------- View changes ----------

  function WithViewChange(st: State, vc: ViewChange): map<nat, map<NodeId, ViewChange>> {
    var received := if vc.newView in st.viewChanges then st.viewChanges[vc.newView] else map[];
    st.viewChanges[vc.newView := received[vc.replicaId := vc]]
  }

  function HandleViewChange(env: Env, n: Node, vc: ViewChange): Node
    requires env.Valid()
  {
    var st, v := n.st, vc.newView;
    if v <= st.view then n
    else
      var viewChanges' := WithViewChange(st, vc);
      var n' := n.(st := st.(viewChanges := viewChanges'));
      if |viewChanges'[v]| >= env.config.Quorum() && env.Primary(v) == st.nodeId then
        var newView := NewView(v, viewChanges'[v].Values, st.nodeId, env.sign(st.nodeId, NewViewData(v)));
        n'.(signed := n.signed + {NewViewData(v)}, sent := n.sent + [Broadcast(NewViewMsg(newView))])
      else n'
  }

  /** A later view is entered on the word of whoever announces it. */
  function HandleNewView(n: Node, nv: NewView): Node {
    var st := n.st;
    if nv.newView <= st.view then n
    else
      n.(st := st.(view := nv.newView, viewChanging := false,
                   viewChanges := Above(st.viewChanges, nv.newView)))
  }

  function StartViewChange(env: Env, n: Node): Node {
    var st := n.st;
    if st.viewChanging then n
    else
      var v, me := st.view + 1, st.nodeId;
      var vc := ViewChange(v, me, st.sequence, env.sign(me, ViewChangeData(v)));
      n.(st := st.(viewChanging := true, viewChanges := WithViewChange(st, vc)),
         signed := n.signed + {ViewChangeData(v)},
         sent := n.sent + [Broadcast(ViewChangeMsg(vc))])
  }

  // ---------- One step of a replica ----------

  datatype Event =
    | ClientRequest(request: Request)
    | RecvPrePrepare(prePrepare: PrePrepare)
    | RecvPrepare(prepare: Prepare)
    | RecvCommit(commit: Commit)
    | RecvCheckpoint(checkpoint: Checkpoint)
    | RecvViewChange(viewChange: ViewChange)
    | RecvNewView(newView: NewView)
    | Timeout
    | Run(task: Task)

  /** The step that a message asks for. */
  function EventOf(m: Message): Event {
    match m
    case RequestMsg(request) => ClientRequest(request)
    case PrePrepareMsg(pp) => RecvPrePrepare(pp)
    case PrepareMsg(p) => RecvPrepare(p)
    case CommitMsg(c) => RecvCommit(c)
    case ViewChangeMsg(vc) => RecvViewChange(vc)
    case NewViewMsg(nv) => RecvNewView(nv)
    case CheckpointMsg(cp) => RecvCheckpoint(cp)
  }

  function Arrive(n: Node, m: Message, s: nat): Node {
    n.(arrived := n.arrived + if s <= n.st.highWatermark then {m} else {})
  }

  function Step(env: Env, n: Node, e: Event): Node
    requires env.Valid()
  {
    match e
    case ClientRequest(r) => HandleRequest(env, n, r)
    case RecvPrePrepare(pp) => HandlePrePrepare(env, Arrive(n, PrePrepareMsg(pp), pp.sequence), pp)
    case RecvPrepare(p) => HandlePrepare(env, Arrive(n, PrepareMsg(p), p.sequence), p)
    case RecvCommit(c) => HandleCommit(env, Arrive(n, CommitMsg(c), c.sequence), c)
    case RecvCheckpoint(cp) => HandleCheckpoint(env, n, cp)
    case RecvViewChange(vc) => HandleViewChange(env, n, vc)
    case RecvNewView(nv) => HandleNewView(n, nv)
    case Timeout => StartViewChange(env, n)
    case Run(t) => if t in n.pending then RunTask(env, n.(pending := n.pending - multiset{t}), t) else n
  }
}
