/** What becomes of client requests (`handle_request` in src/pbft.rs): which of them a replica
    proposes, and that it proposes nothing that it has executed. */
module Requests {
  import opened Messages
  import opened Protocol
  import opened Moves
  import opened Invariant
  import opened Records
  import opened Runs
  import opened Effects
  import Guarantees

  // ---------- One request ----------

  /** The instance holds the pre-prepare, with its request and digest, and the own prepare; its view
      and the votes of others are as they were. */
  ghost predicate RecordedAs(i: Instance, pp: PrePrepare, own: Prepare, i': Instance) {
    && i'.prePrepare == Some(pp) && i'.request == Some(pp.request) && i'.digest == Some(pp.digest)
    && i'.phase == PrePrepared && i'.sequence == i.sequence && i'.view == i.view
    && i'.commits == i.commits && i'.prepares == i.prepares[own.replicaId := own]
  }

  /** The request has been given the next number: signed, recorded with the replica's own prepare,
      broadcast, and left to be advanced. Nothing else has changed. */
  ghost predicate Proposed(env: Env, n: Node, r: Request, n': Node)
    requires env.Valid()
  {
    var st, s := n.st, n.st.sequence + 1;
    var pp := ProposalFor(env, st, r);
    var own := PrepareFor(env, st, pp);
    && n' == n.(st := n'.st, signed := n'.signed, sent := n'.sent, pending := n'.pending)
    && n'.st == st.(sequence := s, log := n'.st.log)
    && n'.st.log.Keys == st.log.Keys + {s}
    && (forall k :: k in st.log && k != s ==> n'.st.log[k] == st.log[k])
    && RecordedAs(if s in st.log then st.log[s] else NewInstance(s, st.view), pp, own, n'.st.log[s])
    && n'.signed == n.signed + {PrepareData(st.view, s, env.digest(r))}
    && n'.sent == n.sent + [Broadcast(PrePrepareMsg(pp)), Broadcast(PrepareMsg(own))]
    && n'.pending == n.pending + multiset{AdvancePrepared(s)}
  }

  lemma ProposalStep(env: Env, n: Node, r: Request)
    requires env.Valid() && Effects.Proposes(env, n.st, r)
    ensures Proposed(env, n, r, Step(env, n, ClientRequest(r)))
  {
    assert Step(env, n, ClientRequest(r)) == HandleRequest(env, n, r);
  }

  /** What a request does: at a backup it is forwarded to the primary of the view, once; at the primary
      it does nothing if its digest is executed, uses up a number if the window is full, and is
      proposed otherwise. */
  lemma RequestStep(env: Env, n: Node, r: Request)
    requires env.Valid()
    ensures var st, n' := n.st, Step(env, n, ClientRequest(r));
            if env.Primary(st.view) != st.nodeId then
              n' == n.(sent := n.sent + [SendTo(env.Primary(st.view), RequestMsg(r))])
            else if env.digest(r) in st.executed then
              n' == n
            else if st.sequence + 1 > st.highWatermark then
              n' == n.(st := st.(sequence := st.sequence + 1))
            else
              Proposed(env, n, r, n')
  {
    hide Proposed;
    if Effects.Proposes(env, n.st, r) {
      ProposalStep(env, n, r);
    }
  }

  // ---------- Proposals ----------

  /** The step from `n` to `n'` broadcasts the pre-prepare. */
  ghost predicate NewlySent(n: Node, n': Node, m: Message) {
    exists i :: |n.sent| <= i < |n'.sent| && n'.sent[i] == Broadcast(m)
  }

  /** A pre-prepare is broadcast exactly by the primary of the view, for a request that it has not
      executed, with the next number, which is in its window. */
  lemma ProposesExactly(env: Env, n: Node, e: Event, pp: PrePrepare)
    requires env.Valid() && LogOk(env, n.st)
    ensures NewlySent(n, Step(env, n, e), PrePrepareMsg(pp)) <==>
              && e.ClientRequest?
              && env.Primary(n.st.view) == n.st.nodeId
              && env.digest(e.request) !in n.st.executed
              && n.st.sequence + 1 <= n.st.highWatermark
              && pp == ProposalFor(env, n.st, e.request)
  {
    hide LogOk, Step, Takes, IsPrepared, Announces;
    StepSpeaks(env, n, e);
    var n', sends := Step(env, n, e), Sends(env, n, e);
    if e.ClientRequest? && Proposes(env, n.st, e.request) {
      assert n'.sent[|n.sent|] == sends[0];
    }
    forall i | |n.sent| <= i < |n'.sent| ensures n'.sent[i] == sends[i - |n.sent|] {
    }
  }

  // ---------- In runs ----------

  /** The digest has been executed before the message was sent, and is proposed in it. */
  ghost predicate ProposesDigest(o: Outgoing, h: Hash) {
    o.message.PrePrepareMsg? && o.message.prePrepare.digest == h
  }

  lemma ProposesNoExecuted(env: Env, n: Node, e: Event, h: Hash, i: nat)
    requires env.Valid() && LogOk(env, n.st) && h in n.st.executed
    requires |n.sent| <= i < |Step(env, n, e).sent|
    ensures !ProposesDigest(Step(env, n, e).sent[i], h)
  {
    hide LogOk, Step, Takes, IsPrepared, Announces;
    StepSpeaks(env, n, e);
    assert Step(env, n, e).sent[i] == Sends(env, n, e)[i - |n.sent|];
  }

  /** What a replica has executed it never proposes again, whatever happens and whichever views it
      is the primary of; and while it is the primary, asking for it again changes nothing. */
  lemma {:induction false} ExecutedIsNotProposed(env: Env, correct: set<NodeId>, run: Run, earlier: Run, k: NodeId,
                                                 h: Hash)
    requires env.Valid() && k in correct && Extends(run, earlier) && h in After(env, correct, earlier)[k].st.executed
    ensures var n0, n := After(env, correct, earlier)[k], After(env, correct, run)[k];
            && n0.sent <= n.sent
            && (forall i :: |n0.sent| <= i < |n.sent| ==> !ProposesDigest(n.sent[i], h))
            && (forall r :: env.digest(r) == h && env.Primary(n.st.view) == k ==> Step(env, n, ClientRequest(r)) == n)
  {
    hide Step, MoveOf, Follows, Speaks, Inv, LogOk, WindowOk, LogSigned, ProposesDigest;
    var n0, n := After(env, correct, earlier)[k], After(env, correct, run)[k];
    Guarantees.RisesInRuns(env, correct, run, earlier, k);
    ReplicaInvariant(env, correct, run, k);
    forall r | env.digest(r) == h && env.Primary(n.st.view) == k ensures Step(env, n, ClientRequest(r)) == n {
      RequestStep(env, n, r);
    }
    if run != earlier {
      ExecutedIsNotProposed(env, correct, run.before, earlier, k, h);
      if run.at == k {
        var before := After(env, correct, run.before)[k];
        Guarantees.RisesInRuns(env, correct, run.before, earlier, k);
        var m := StepInRun(env, correct, run);
        StepSpeaks(env, before, run.event);
        forall i | |n0.sent| <= i < |n.sent| ensures !ProposesDigest(n.sent[i], h) {
          if i >= |before.sent| {
            ProposesNoExecuted(env, before, run.event, h, i);
          }
        }
      }
    }
  }

  /** A pre-prepare of the replica's own: made as the primary of a view up to the current one, with
      a number up to its counter, for the request it carries. */
  ghost predicate OwnProposal(env: Env, n: Node, pp: PrePrepare)
    requires env.Valid()
  {
    && pp.primaryId == n.st.nodeId == env.Primary(pp.view) && pp.view <= n.st.view
    && 1 <= pp.sequence <= n.st.sequence && pp.sequence <= n.st.highWatermark
    && pp.digest == env.digest(pp.request)
    && pp.signature == env.sign(pp.primaryId, PrepareData(pp.view, pp.sequence, pp.digest))
    && PrepareData(pp.view, pp.sequence, pp.digest) in n.signed
  }

  /** Proposals are the replica's own, and broadcast with rising numbers. */
  ghost predicate ProposalsOk(env: Env, n: Node)
    requires env.Valid()
  {
    && (forall i :: 0 <= i < |n.sent| && n.sent[i].message.PrePrepareMsg? ==>
          n.sent[i].Broadcast? && OwnProposal(env, n, n.sent[i].message.prePrepare))
    && (forall i, j :: 0 <= i < j < |n.sent| && n.sent[i].message.PrePrepareMsg? && n.sent[j].message.PrePrepareMsg? ==>
          n.sent[i].message.prePrepare.sequence < n.sent[j].message.prePrepare.sequence)
  }

  lemma OwnProposalKept(env: Env, n: Node, n': Node, pp: PrePrepare)
    requires env.Valid() && OwnProposal(env, n, pp)
    requires n'.st.nodeId == n.st.nodeId && Guarantees.Risen(n.st, n'.st) && n.signed <= n'.signed
    ensures OwnProposal(env, n', pp)
  {
  }

  lemma NewProposal(env: Env, n: Node, e: Event, pp: PrePrepare)
    requires env.Valid() && LogOk(env, n.st) && NewlySent(n, Step(env, n, e), PrePrepareMsg(pp))
    ensures OwnProposal(env, Step(env, n, e), pp) && pp.sequence == n.st.sequence + 1
  {
    hide Step, LogOk;
    ProposesExactly(env, n, e, pp);
    RequestStep(env, n, e.request);
  }

  /** What a step sends on top: broadcasts only, if it is a pre-prepare, and not two of them. */
  lemma OneProposal(env: Env, n: Node, e: Event, i: nat, j: nat)
    requires env.Valid() && LogOk(env, n.st) && |n.sent| <= i < |Step(env, n, e).sent|
    requires |n.sent| <= j < |Step(env, n, e).sent|
    requires Step(env, n, e).sent[i].message.PrePrepareMsg?
    ensures Step(env, n, e).sent[i].Broadcast?
    ensures Step(env, n, e).sent[j].message.PrePrepareMsg? ==> i == j
  {
    hide Step, LogOk, Takes, IsPrepared, Announces;
    StepSpeaks(env, n, e);
    assert Step(env, n, e).sent[i] == Sends(env, n, e)[i - |n.sent|];
    assert Step(env, n, e).sent[j] == Sends(env, n, e)[j - |n.sent|];
  }

  lemma OwnSequence(env: Env, n: Node, pp: PrePrepare)
    requires env.Valid()
    ensures OwnProposal(env, n, pp) ==> pp.sequence <= n.st.sequence
  {
  }

  lemma ProposalsOkStep(env: Env, n: Node, e: Event)
    requires env.Valid() && LogOk(env, n.st) && ProposalsOk(env, n)
    requires var n' := Step(env, n, e);
             && n'.st.nodeId == n.st.nodeId && Guarantees.Risen(n.st, n'.st)
             && n.signed <= n'.signed && n.sent <= n'.sent
    ensures ProposalsOk(env, Step(env, n, e))
  {
    hide Step, LogOk, OwnProposal, Guarantees.Risen;
    var n' := Step(env, n, e);
    forall i | 0 <= i < |n'.sent| && n'.sent[i].message.PrePrepareMsg?
      ensures n'.sent[i].Broadcast? && OwnProposal(env, n', n'.sent[i].message.prePrepare)
      ensures i >= |n.sent| ==> n'.sent[i].message.prePrepare.sequence == n.st.sequence + 1
      ensures forall j :: |n.sent| <= j < |n'.sent| && n'.sent[j].message.PrePrepareMsg? && i >= |n.sent| ==> i == j
    {
      if i < |n.sent| {
        assert n'.sent[i] == n.sent[i];
        OwnProposalKept(env, n, n', n.sent[i].message.prePrepare);
      } else {
        forall j | |n.sent| <= j < |n'.sent| && n'.sent[j].message.PrePrepareMsg? ensures i == j {
          OneProposal(env, n, e, i, j);
        }
        OneProposal(env, n, e, i, i);
        NewProposal(env, n, e, n'.sent[i].message.prePrepare);
      }
    }
    forall i, j | 0 <= i < j < |n'.sent| && n'.sent[i].message.PrePrepareMsg? && n'.sent[j].message.PrePrepareMsg?
      ensures n'.sent[i].message.prePrepare.sequence < n'.sent[j].message.prePrepare.sequence
    {
      assert i < |n.sent| ==> n'.sent[i] == n.sent[i] && OwnProposal(env, n, n.sent[i].message.prePrepare);
      OwnSequence(env, n, n'.sent[i].message.prePrepare);
    }
  }

  lemma NoProposals(env: Env, k: NodeId)
    requires env.Valid()
    ensures ProposalsOk(env, InitialNode(env, k))
  {
  }

  /** In every run the pre-prepares a replica broadcasts are its own, with strictly rising numbers:
      across views and window moves it proposes no number twice. */
  lemma {:induction false} ProposalsRise(env: Env, correct: set<NodeId>, run: Run, k: NodeId)
    requires env.Valid() && k in correct
    ensures ProposalsOk(env, After(env, correct, run)[k])
  {
    hide Step, MoveOf, Follows, Inv, LogOk, WindowOk, LogSigned, Guarantees.Risen, ProposalsOk;
    if run.Then? {
      ProposalsRise(env, correct, run.before, k);
      if run.at == k {
        Guarantees.RisesInRuns(env, correct, run, run.before, k);
        ReplicaInvariant(env, correct, run, k);
        var m := StepInRun(env, correct, run);
        ProposalsOkStep(env, After(env, correct, run.before)[k], run.event);
      }
    } else {
      NoProposals(env, k);
    }
  }
}
