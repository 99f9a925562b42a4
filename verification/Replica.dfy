/** The consensus engine of src/pbft.rs: an object whose handlers update its fields. Every
    method is one scope of the state lock, with the sends that follow it; what the handler goes
    on to do is queued in `pending`. Each is proved against its step of module Protocol. */
module Replica {
  import opened Messages
  import opened Protocol
  import opened Records
  import opened Verdicts

  lemma InvRecordsDigests(env: Env, n: Node)
    requires env.Valid() && Inv(env, n)
    ensures forall s :: s in n.st.log && (n.st.log[s].prePrepare.Some? || n.st.log[s].phase != Idle) ==>
              n.st.log[s].digest.Some?
  {
  }

  class Replica {
    const env: Env
    const nodeId: NodeId

    // Protocol state
    var view: nat
    var sequence: nat
    var lowWatermark: nat
    var highWatermark: nat
    var log: map<nat, Instance>
    var executed: set<Hash>
    var checkpoints: map<nat, map<NodeId, Checkpoint>>
    var stableCheckpoint: nat
    var viewChanges: map<nat, map<NodeId, ViewChange>>
    var viewChanging: bool

    // Output channels and queued continuations
    var sent: seq<Outgoing>
    var delivered: seq<Delivery>
    var pending: multiset<Task>

    // Histories
    ghost var signed: set<SignedData>
    ghost var certificates: set<Certificate>
    ghost var proofs: set<StableProof>
    ghost var decided: seq<Decision>
    ghost var arrived: set<Message>

    ghost function Snapshot(): State
      reads this
    {
      State.State(nodeId, view, sequence, lowWatermark, highWatermark, log, executed, checkpoints,
                  stableCheckpoint, viewChanges, viewChanging)
    }

    ghost function Abs(): Node
      reads this
    {
      Node(Snapshot(), pending, sent, delivered, signed, certificates, proofs, decided, arrived)
    }

    ghost predicate Valid()
      reads this
    {
      env.Valid() && Inv(env, Abs())
    }

    /** Instances with a pre-prepare, or past Idle, have a digest to unwrap. */
    ghost predicate DigestsRecorded()
      reads this
    {
      forall s :: s in log && (log[s].prePrepare.Some? || log[s].phase != Idle) ==> log[s].digest.Some?
    }

    constructor (env: Env, nodeId: NodeId)
      requires env.Valid()
      ensures Valid() && this.env == env && Abs() == InitialNode(env, nodeId)
    {
      this.env, this.nodeId := env, nodeId;
      view, sequence := 0, 0;
      lowWatermark, highWatermark := 0, env.config.checkpointInterval * 2;
      log, executed, checkpoints, stableCheckpoint := map[], {}, map[], 0;
      viewChanges, viewChanging := map[], false;
      sent, delivered, pending := [], [], multiset{};
      signed, certificates, proofs, decided, arrived := {}, {}, {}, [], {};
      new;
      InvInitially(env, nodeId);
    }

    function GetOrCreateInstance(s: nat): Instance
      reads this
    {
      if s in log then log[s] else NewInstance(s, view)
    }

    /** Signs and records a prepare of the replica's own for a pre-prepare, records the pre-prepare
        itself, and queues the advance. */
    method OpenInstance(pp: PrePrepare, own: Prepare)
      requires own.sequence == pp.sequence
      modifies this`log, this`pending, this`signed
      ensures var i := old(Snapshot()).InstanceAt(pp.sequence);
              Abs() == old(Abs()).(
                st := old(Snapshot()).(log := old(log)[pp.sequence := Opened(i, pp, own)]),
                signed := old(signed) + {PrepareData(own.view, own.sequence, own.digest)},
                pending := old(pending) + multiset{AdvancePrepared(pp.sequence)})
    {
      var i := GetOrCreateInstance(pp.sequence);
      i := i.(request := Some(pp.request));
      i := i.(digest := Some(pp.digest));
      i := i.(prePrepare := Some(pp));
      i := i.(phase := PrePrepared);
      i := i.(prepares := i.prepares[own.replicaId := own]);
      signed := signed + {PrepareData(own.view, own.sequence, own.digest)};
      log := log[pp.sequence := i];
      pending := pending + multiset{AdvancePrepared(pp.sequence)};
    }

    method HandleRequest(request: Request) returns (r: Outcome)
      requires env.Valid()
      modifies this
      ensures Abs() == Protocol.HandleRequest(env, old(Abs()), request)
      ensures r == RequestOutcome(env, old(Snapshot()), request)
    {
      if env.Primary(view) != nodeId {
        sent := sent + [SendTo(env.Primary(view), RequestMsg(request))];
        return Done;
      }
      var digest := env.digest(request);
      if digest in executed {
        return Done;
      }
      sequence := sequence + 1;
      if sequence > highWatermark {
        return Failed(InvalidSequence);
      }
      var data := PrepareData(view, sequence, digest);
      var prePrepare := PrePrepare(view, sequence, digest, request, nodeId, env.sign(nodeId, data));
      var prepare := Prepare(view, sequence, digest, nodeId, env.sign(nodeId, data));
      OpenInstance(prePrepare, prepare);
      sent := sent + [Broadcast(PrePrepareMsg(prePrepare)), Broadcast(PrepareMsg(prepare))];
      return Done;
    }

    method HandlePrePrepare(pp: PrePrepare) returns (r: Outcome)
      requires env.Valid()
      modifies this
      ensures Abs() == Protocol.HandlePrePrepare(env, old(Abs()), pp)
      ensures r == OutcomeOf(CheckPrePrepare(env, old(Snapshot()), pp))
    {
      if pp.view != view {
        return Failed(InvalidView);
      }
      if pp.primaryId != env.Primary(view) {
        return Failed(NotPrimary);
      }
      if pp.sequence <= lowWatermark || pp.sequence > highWatermark {
        return Failed(InvalidSequence);
      }
      if !env.verify(pp.primaryId, PrepareData(pp.view, pp.sequence, pp.digest), pp.signature) {
        return Failed(InvalidSignature);
      }
      if pp.sequence in log && log[pp.sequence].prePrepare.Some? {
        if log[pp.sequence].digest != Some(pp.digest) {
          return Failed(InvalidMessage);
        }
        return Done;
      }
      if env.digest(pp.request) != pp.digest {
        return Failed(InvalidMessage);
      }
      assert CheckPrePrepare(env, Snapshot(), pp) == Accept;
      var data := PrepareData(pp.view, pp.sequence, pp.digest);
      var prepare := Prepare(pp.view, pp.sequence, pp.digest, nodeId, env.sign(nodeId, data));
      OpenInstance(pp, prepare);
      sent := sent + [Broadcast(PrepareMsg(prepare))];
      return Done;
    }

    method HandlePrepare(p: Prepare) returns (r: Outcome)
      requires env.Valid()
      modifies this
      ensures Abs() == Protocol.HandlePrepare(env, old(Abs()), p)
      ensures r == OutcomeOf(CheckPrepare(env, old(Snapshot()), p))
    {
      if p.view != view {
        return Failed(InvalidView);
      }
      if p.sequence <= lowWatermark || p.sequence > highWatermark {
        return Failed(InvalidSequence);
      }
      if !env.verify(p.replicaId, PrepareData(p.view, p.sequence, p.digest), p.signature) {
        return Failed(InvalidSignature);
      }
      var i := GetOrCreateInstance(p.sequence);
      if i.prePrepare.Some? && i.prePrepare.value.digest != p.digest {
        return Failed(InvalidMessage);
      }
      if p.replicaId in i.prepares {
        return Done;
      }
      log := log[p.sequence := i.(prepares := i.prepares[p.replicaId := p])];
      pending := pending + multiset{AdvancePrepared(p.sequence)};
      return Done;
    }

    /** Signs and records a commit of the replica's own, moves the instance on, and queues the next
        advance. */
    method CertifyInstance(s: nat)
      requires CanPrepare(env, Snapshot(), s)
      modifies this`log, this`pending, this`signed, this`certificates, this`sent
      ensures Abs() == AdvanceToPrepared(env, old(Abs()), s)
    {
      var i := log[s];
      var data := CommitData(i.view, s, i.digest.value);
      var commit := Commit(i.view, s, i.digest.value, nodeId, env.sign(nodeId, data));
      i := i.(phase := Prepared);
      i := i.(commits := i.commits[nodeId := commit]);
      signed := signed + {data};
      certificates := certificates + {Certificate(s, i.digest.value, i.prepares)};
      log := log[s := i];
      sent := sent + [Broadcast(CommitMsg(commit))];
      pending := pending + multiset{AdvanceCommitted(s)};
    }

    method TryAdvanceToPrepared(s: nat)
      requires env.Valid() && DigestsRecorded()
      modifies this
      ensures Abs() == AdvanceToPrepared(env, old(Abs()), s)
    {
      if s !in log || log[s].prePrepare.None? {
        return;
      }
      if log[s].phase != PrePrepared || |log[s].prepares| < env.config.Quorum() {
        return;
      }
      CertifyInstance(s);
    }

    method HandleCommit(c: Commit) returns (r: Outcome)
      requires env.Valid()
      modifies this
      ensures Abs() == Protocol.HandleCommit(env, old(Abs()), c)
      ensures r == OutcomeOf(CheckCommit(env, old(Snapshot()), c))
    {
      if c.view != view {
        return Failed(InvalidView);
      }
      if c.sequence <= lowWatermark || c.sequence > highWatermark {
        return Failed(InvalidSequence);
      }
      if !env.verify(c.replicaId, CommitData(c.view, c.sequence, c.digest), c.signature) {
        return Failed(InvalidSignature);
      }
      var i := GetOrCreateInstance(c.sequence);
      if i.digest.Some? && c.digest != i.digest.value {
        return Failed(InvalidMessage);
      }
      if c.replicaId in i.commits {
        return Done;
      }
      log := log[c.sequence := i.(commits := i.commits[c.replicaId := c])];
      pending := pending + multiset{AdvanceCommitted(c.sequence)};
      return Done;
    }

    /** Moves the instance on, and queues the delivery of its request unless it has been executed
        before. */
    method CommitInstance(s: nat)
      requires CanCommit(env, Snapshot(), s)
      modifies this`log, this`pending, this`executed, this`decided
      ensures Abs() == AdvanceToCommitted(env, old(Abs()), s)
    {
      var i := log[s];
      log := log[s := i.(phase := Committed)];
      decided := decided + [Decision(s, i.digest.value)];
      if i.request.Some? && env.digest(i.request.value) !in executed {
        executed := executed + {env.digest(i.request.value)};
        pending := pending + multiset{Deliver(i.request.value, s)};
      }
    }

    method TryAdvanceToCommitted(s: nat)
      requires env.Valid() && DigestsRecorded()
      modifies this
      ensures Abs() == AdvanceToCommitted(env, old(Abs()), s)
    {
      if s !in log || log[s].phase != Prepared || |log[s].commits| < env.config.Quorum() {
        return;
      }
      CommitInstance(s);
    }

    /** Hands a committed request to the application. */
    method SendCommitted(request: Request, s: nat)
      requires env.Valid()
      modifies this
      ensures Abs() == DeliverRequest(old(Abs()), request, s)
    {
      delivered := delivered + [Delivery(s, request)];
      pending := pending + multiset{TryCheckpoint(s)};
    }

    method TakeCheckpoint(s: nat)
      requires env.Valid()
      modifies this
      ensures Abs() == MaybeCheckpoint(env, old(Abs()), s)
    {
      if s % env.config.checkpointInterval != 0 {
        return;
      }
      var data := CheckpointData(s, ZeroDigest());
      signed := signed + {data};
      sent := sent + [Broadcast(CheckpointMsg(Checkpoint(s, ZeroDigest(), nodeId, env.sign(nodeId, data))))];
    }

    method RecordCheckpoint(cp: Checkpoint)
      modifies this`checkpoints
      ensures Abs() == old(Abs()).(st := old(Snapshot()).(checkpoints := WithCheckpoint(old(Snapshot()), cp)))
    {
      var received := if cp.sequence in checkpoints then checkpoints[cp.sequence] else map[];
      checkpoints := checkpoints[cp.sequence := received[cp.replicaId := cp]];
    }

    method RaiseWindow(s: nat)
      modifies this`stableCheckpoint, this`lowWatermark, this`highWatermark
      ensures Abs() == old(Abs()).(
                st := old(Snapshot()).(stableCheckpoint := s, lowWatermark := s,
                                       highWatermark := s + env.config.checkpointInterval * 2))
    {
      stableCheckpoint := s;
      lowWatermark := s;
      highWatermark := s + env.config.checkpointInterval * 2;
    }

    /** Drops what is behind the window. */
    method CollectGarbage()
      modifies this`log, this`checkpoints
      ensures Abs() == old(Abs()).(
                st := old(Snapshot()).(log := Above(old(log), lowWatermark),
                                       checkpoints := From(old(checkpoints), stableCheckpoint)))
    {
      log := Above(log, lowWatermark);
      checkpoints := From(checkpoints, stableCheckpoint);
    }

    /** Makes a checkpoint stable and collects what is behind it. */
    method MoveWindow(s: nat)
      modifies this`stableCheckpoint, this`lowWatermark, this`highWatermark, this`log, this`checkpoints
      ensures Abs() == old(Abs()).(
                st := old(Snapshot()).(stableCheckpoint := s, lowWatermark := s,
                                       highWatermark := s + env.config.checkpointInterval * 2,
                                       log := Above(old(log), s), checkpoints := From(old(checkpoints), s)))
    {
      hide Above, From;
      RaiseWindow(s);
      CollectGarbage();
    }

    method HandleCheckpoint(cp: Checkpoint)
      requires env.Valid()
      modifies this
      ensures Abs() == Protocol.HandleCheckpoint(env, old(Abs()), cp)
    {
      hide Above, From;
      RecordCheckpoint(cp);
      if |checkpoints[cp.sequence]| >= env.config.Quorum() && cp.sequence > stableCheckpoint {
        proofs := proofs + {StableProof(cp.sequence, checkpoints[cp.sequence])};
        MoveWindow(cp.sequence);
      }
    }

    method FileViewChange(vc: ViewChange)
      modifies this`viewChanges
      ensures Abs() == old(Abs()).(st := old(Snapshot()).(viewChanges := WithViewChange(old(Snapshot()), vc)))
    {
      var votes := if vc.newView in viewChanges then viewChanges[vc.newView] else map[];
      viewChanges := viewChanges[vc.newView := votes[vc.replicaId := vc]];
    }

    method HandleViewChange(vc: ViewChange)
      requires env.Valid()
      modifies this
      ensures Abs() == Protocol.HandleViewChange(env, old(Abs()), vc)
    {
      if vc.newView <= view {
        return;
      }
      var v := vc.newView;
      FileViewChange(vc);
      if |viewChanges[v]| >= env.config.Quorum() && env.Primary(v) == nodeId {
        var newView := NewView(v, viewChanges[v].Values, nodeId, env.sign(nodeId, NewViewData(v)));
        signed := signed + {NewViewData(v)};
        sent := sent + [Broadcast(NewViewMsg(newView))];
      }
    }

    method HandleNewView(nv: NewView)
      requires env.Valid()
      modifies this
      ensures Abs() == Protocol.HandleNewView(old(Abs()), nv)
    {
      if nv.newView <= view {
        return;
      }
      view := nv.newView;
      viewChanging := false;
      viewChanges := Above(viewChanges, view);
    }

    method StartViewChange()
      requires env.Valid()
      modifies this
      ensures Abs() == Protocol.StartViewChange(env, old(Abs()))
    {
      if viewChanging {
        return;
      }
      var v := view + 1;
      viewChanging := true;
      var vc := ViewChange(v, nodeId, sequence, env.sign(nodeId, ViewChangeData(v)));
      signed := signed + {ViewChangeData(v)};
      FileViewChange(vc);
      sent := sent + [Broadcast(ViewChangeMsg(vc))];
    }

    // ---------- The event loop ----------

    /** Handles a message that has come in. */
    method ProcessMessage(m: Message) returns (r: Outcome)
      requires Valid()
      modifies this
      ensures Valid() && Abs() == Step(env, old(Abs()), EventOf(m))
      ensures Answers(Tests(env, old(Snapshot()), m), r)
    {
      hide Inv, Protocol.HandleRequest, Protocol.HandlePrePrepare, Protocol.HandlePrepare, Protocol.HandleCommit,
        Protocol.HandleViewChange, Protocol.HandleNewView, Protocol.HandleCheckpoint, ClassifyRequest, CheckPrePrepare,
        CheckPrepare, CheckCommit, Answers, Tests;
      InvStep(env, Abs(), EventOf(m));
      AnswerTo(env, Snapshot(), m);
      r := Done;
      match m
      case RequestMsg(request) => r := HandleRequest(request);
      case PrePrepareMsg(pp) =>
        arrived := Arrive(Abs(), m, pp.sequence).arrived;
        r := HandlePrePrepare(pp);
      case PrepareMsg(p) =>
        arrived := Arrive(Abs(), m, p.sequence).arrived;
        r := HandlePrepare(p);
      case CommitMsg(c) =>
        arrived := Arrive(Abs(), m, c.sequence).arrived;
        r := HandleCommit(c);
      case ViewChangeMsg(vc) => HandleViewChange(vc);
      case NewViewMsg(nv) => HandleNewView(nv);
      case CheckpointMsg(cp) => HandleCheckpoint(cp);
    }

    /** The timeout task has found the primary inactive. */
    method OnTimeout()
      requires Valid()
      modifies this
      ensures Valid() && Abs() == Step(env, old(Abs()), Timeout)
    {
      hide Inv, Protocol.StartViewChange;
      InvStep(env, Abs(), Timeout);
      StartViewChange();
    }

    /** Runs one queued continuation. */
    method RunPending(t: Task)
      requires Valid() && t in pending
      modifies this
      ensures Valid() && Abs() == Step(env, old(Abs()), Run(t))
    {
      hide Inv, AdvanceToPrepared, AdvanceToCommitted, DeliverRequest, MaybeCheckpoint;
      InvStep(env, Abs(), Run(t));
      InvRecordsDigests(env, Abs());
      pending := pending - multiset{t};
      match t
      case AdvancePrepared(s) => TryAdvanceToPrepared(s);
      case AdvanceCommitted(s) => TryAdvanceToCommitted(s);
      case Deliver(request, s) => SendCommitted(request, s);
      case TryCheckpoint(s) => TakeCheckpoint(s);
    }
  }
}
