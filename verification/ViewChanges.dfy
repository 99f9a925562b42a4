/** How a view ends and the next begins: which votes are on file, which views are announced, and in
    which view a replica is (the view-change handlers in src/pbft.rs). */
module ViewChanges {
  import opened Messages
  import opened Protocol
  import opened Moves
  import opened Invariant
  import opened Records
  import opened Runs
  import opened Effects
  import opened Windows
  import Guarantees
  import Quorums

  // ---------- One step ----------

  /** Nothing has changed but what is on file for one view, where there is one vote more. */
  ghost predicate VoteFiled(st: State, vc: ViewChange, st': State) {
    && st' == st.(viewChanges := st'.viewChanges, viewChanging := st'.viewChanging)
    && st'.viewChanges == st.viewChanges[vc.newView := VotesWith(st, vc)]
  }

  lemma VotesFiled(st: State, vc: ViewChange)
    ensures WithViewChange(st, vc) == st.viewChanges[vc.newView := VotesWith(st, vc)]
    ensures |VotesWith(st, vc)| == |VotesWith(st, vc).Keys|
  {
  }

  /** A vote for a view that is not later than the current one is ignored; another is filed under its
      view and sender. If the replica is the primary of that view and has votes of 2f+1 senders for it
      now, it broadcasts one announcement, with exactly the votes on file, and signs it. */
  lemma VoteStep(env: Env, n: Node, vc: ViewChange)
    requires env.Valid()
    ensures var n', v, me := Step(env, n, RecvViewChange(vc)), vc.newView, n.st.nodeId;
            if v <= n.st.view then n' == n
            else
              && VoteFiled(n.st, vc, n'.st) && n'.st.viewChanging == n.st.viewChanging
              && n' == n.(st := n'.st, sent := n'.sent, signed := n'.signed)
              && if env.Primary(v) == me && |VotersFor(n'.st, v)| >= 2 * env.config.f + 1 then
                   var nv := NewView(v, n'.st.viewChanges[v].Values, me, env.sign(me, NewViewData(v)));
                   && n'.sent == n.sent + [Broadcast(NewViewMsg(nv))]
                   && n'.signed == n.signed + {NewViewData(v)}
                 else
                   n'.sent == n.sent && n'.signed == n.signed
  {
    hide VotesWith, WithViewChange;
    VotesCounted(n.st, vc);
    VotesFiled(n.st, vc);
    assert Step(env, n, RecvViewChange(vc)) == HandleViewChange(env, n, vc);
  }

  /** An announcement of a later view is followed: the replica enters it, is no longer changing views,
      and keeps exactly the votes for views that are later still. */
  lemma NewViewStep(env: Env, n: Node, nv: NewView)
    requires env.Valid()
    ensures var n' := Step(env, n, RecvNewView(nv));
            if nv.newView <= n.st.view then n' == n
            else
              && n' == n.(st := n.st.(view := nv.newView, viewChanging := false, viewChanges := n'.st.viewChanges))
              && (forall v :: v in n'.st.viewChanges <==> v in n.st.viewChanges && v > nv.newView)
              && (forall v :: v in n'.st.viewChanges ==> n'.st.viewChanges[v] == n.st.viewChanges[v])
  {
    assert Step(env, n, RecvNewView(nv)) == HandleNewView(n, nv);
  }

  /** A timeout makes a replica that is not changing views vote for the next view: it files its vote,
      signs it and broadcasts it, once. It does not count the votes. */
  lemma TimeoutStep(env: Env, n: Node)
    requires env.Valid()
    ensures var n', v, me := Step(env, n, Timeout), n.st.view + 1, n.st.nodeId;
            if n.st.viewChanging then n' == n
            else
              var vc := ViewChange(v, me, n.st.sequence, env.sign(me, ViewChangeData(v)));
              && VoteFiled(n.st, vc, n'.st) && n'.st.viewChanging
              && n' == n.(st := n'.st, sent := n.sent + [Broadcast(ViewChangeMsg(vc))],
                          signed := n.signed + {ViewChangeData(v)})
  {
    hide VotesWith, WithViewChange;
    VotesFiled(n.st, VoteOf(env, n.st));
    assert Step(env, n, Timeout) == StartViewChange(env, n);
  }

  // ---------- Votes ----------

  ghost predicate Voted(n: Node, v: nat) {
    exists vc: ViewChange :: Broadcast(ViewChangeMsg(vc)) in n.sent && vc.newView == v
  }

  /** A vote of the replica's own, for a view up to the next one, with its counter at that time. */
  ghost predicate OwnVote(env: Env, n: Node, o: Outgoing)
    requires o.message.ViewChangeMsg?
  {
    var vc := o.message.viewChange;
    && o.Broadcast?
    && 1 <= vc.newView <= n.st.view + 1
    && (vc.newView == n.st.view + 1 ==> n.st.viewChanging)
    && vc.lastSequence <= n.st.sequence
    && vc.replicaId == n.st.nodeId
    && vc.signature == env.sign(n.st.nodeId, ViewChangeData(vc.newView))
    && ViewChangeData(vc.newView) in n.signed
  }

  /** Votes are the replica's own, for rising views; and it is changing views exactly if it has voted
      for the next one. */
  ghost predicate VotesOk(env: Env, n: Node) {
    && (forall o :: o in n.sent && o.message.ViewChangeMsg? ==> OwnVote(env, n, o))
    && (forall i, j :: 0 <= i < j < |n.sent| && n.sent[i].message.ViewChangeMsg? && n.sent[j].message.ViewChangeMsg? ==>
          n.sent[i].message.viewChange.newView < n.sent[j].message.viewChange.newView)
    && (n.st.viewChanging <==> Voted(n, n.st.view + 1))
  }

  lemma OwnVoteKept(env: Env, n: Node, n': Node, o: Outgoing)
    requires o.message.ViewChangeMsg? && OwnVote(env, n, o)
    requires n'.st.nodeId == n.st.nodeId && n.st.view <= n'.st.view && n.st.sequence <= n'.st.sequence
    requires n.signed <= n'.signed && (n.st.viewChanging && n.st.view == n'.st.view ==> n'.st.viewChanging)
    ensures OwnVote(env, n', o)
  {
  }

  lemma VotesOkTimeout(env: Env, n: Node)
    requires env.Valid() && VotesOk(env, n) && !n.st.viewChanging
    ensures VotesOk(env, Step(env, n, Timeout))
  {
    hide Step;
    TimeoutStep(env, n);
    var n' := Step(env, n, Timeout);
    var o := n'.sent[|n.sent|];
    assert o in n'.sent && OwnVote(env, n', o);
    forall x | x in n.sent && x.message.ViewChangeMsg? ensures OwnVote(env, n', x) {
      OwnVoteKept(env, n, n', x);
    }
    assert forall i :: 0 <= i < |n.sent| ==> n'.sent[i] == n.sent[i] && n.sent[i] in n.sent;
  }

  /** A step that sends no vote, and leaves the replica changing views or not unless it enters one. */
  lemma VotesOkOther(env: Env, n: Node, n': Node)
    requires VotesOk(env, n) && n'.st.nodeId == n.st.nodeId && n.st.view <= n'.st.view
    requires n.st.sequence <= n'.st.sequence && n.signed <= n'.signed && n.sent <= n'.sent
    requires n'.st.viewChanging == (n'.st.view == n.st.view && n.st.viewChanging)
    requires forall i :: |n.sent| <= i < |n'.sent| ==> !n'.sent[i].message.ViewChangeMsg?
    ensures VotesOk(env, n')
  {
    forall o | o in n'.sent && o.message.ViewChangeMsg? ensures o in n.sent && OwnVote(env, n', o) {
      var i :| 0 <= i < |n'.sent| && n'.sent[i] == o;
      assert n.sent[i] == o;
      OwnVoteKept(env, n, n', o);
    }
    forall v ensures Voted(n', v) <==> Voted(n, v) {
    }
  }

  lemma NoVotes(env: Env, n: Node, e: Event)
    requires env.Valid() && LogOk(env, n.st) && (e == Timeout ==> n.st.viewChanging)
    ensures var n' := Step(env, n, e);
            n.sent <= n'.sent && forall i :: |n.sent| <= i < |n'.sent| ==> !n'.sent[i].message.ViewChangeMsg?
  {
    hide Step, LogOk, Takes, IsPrepared, Announces;
    StepSpeaks(env, n, e);
    var n', sends := Step(env, n, e), Sends(env, n, e);
    forall i | |n.sent| <= i < |n'.sent| ensures !n'.sent[i].message.ViewChangeMsg? {
      assert n'.sent[i] == sends[i - |n.sent|];
    }
  }

  lemma ChangingViews(env: Env, n: Node, e: Event, m: Move)
    requires env.Valid() && Follows(env, n, e, m, Step(env, n, e)) && (e == Timeout ==> n.st.viewChanging)
    ensures var n' := Step(env, n, e);
            n'.st.viewChanging == (n'.st.view == n.st.view && n.st.viewChanging)
  {
    match e
    case RecvViewChange(vc) => VoteStep(env, n, vc);
    case RecvNewView(nv) => NewViewStep(env, n, nv);
    case Timeout => TimeoutStep(env, n);
    case _ =>
  }

  lemma NothingVoted(env: Env, k: NodeId)
    requires env.Valid()
    ensures VotesOk(env, InitialNode(env, k))
  {
  }

  /** In every run: votes are signed, for rising views, and never more than one for a view; and whoever
      is changing views has voted, whoever has voted for the next view is changing views. */
  lemma {:induction false} VotesInRuns(env: Env, correct: set<NodeId>, run: Run, k: NodeId)
    requires env.Valid() && k in correct
    ensures VotesOk(env, After(env, correct, run)[k])
  {
    hide Step, MoveOf, Follows, Inv, LogOk, WindowOk, LogSigned, VotesOk;
    if run.Then? {
      VotesInRuns(env, correct, run.before, k);
      if run.at == k {
        var n, n' := After(env, correct, run.before)[k], After(env, correct, run)[k];
        Guarantees.RisesInRuns(env, correct, run, run.before, k);
        ReplicaInvariant(env, correct, run, k);
        var m := StepInRun(env, correct, run);
        if run.event == Timeout && !n.st.viewChanging {
          VotesOkTimeout(env, n);
        } else {
          NoVotes(env, n, run.event);
          ChangingViews(env, n, run.event, m);
          VotesOkOther(env, n, n');
        }
      }
    } else {
      NothingVoted(env, k);
    }
  }

  // ---------- Views ----------

  /** The view has been announced to the replica, by whomever. */
  ghost predicate Heard(run: Run, k: NodeId, v: nat) {
    run.Then? && ((run.at == k && run.event.RecvNewView? && run.event.newView.newView == v) || Heard(run.before, k, v))
  }

  /** In every run a replica is in the highest view that has been announced to it, and in view 0 if
      none has been. Nothing else moves it on: a new primary does not enter its own view. */
  lemma {:induction false} ViewIsHighestHeard(env: Env, correct: set<NodeId>, run: Run, k: NodeId)
    requires env.Valid() && k in correct
    ensures var view := After(env, correct, run)[k].st.view;
            && (view > 0 ==> Heard(run, k, view))
            && (forall v: nat :: Heard(run, k, v) ==> v <= view)
  {
    hide Step, MoveOf, Moved, Speaks, Inv, LogOk, WindowOk, LogSigned;
    if run.Then? {
      ViewIsHighestHeard(env, correct, run.before, k);
      if run.at == k {
        var m := StepInRun(env, correct, run);
      }
    }
  }

  // ---------- Ballots ----------

  /** The senders of the votes for a view that a replica has been handed. */
  ghost function HandedVoters(run: Run, k: NodeId, v: nat): set<NodeId> {
    match run
    case Start => {}
    case Then(before, at, e) =>
      HandedVoters(before, k, v)
      + if at == k && e.RecvViewChange? && e.viewChange.newView == v then {e.viewChange.replicaId} else {}
  }

  /** For a later view there are on file the votes handed over, and the replica's own once it has voted. */
  ghost predicate BallotAt(run: Run, k: NodeId, n: Node, v: nat) {
    v > n.st.view ==> VotersFor(n.st, v) == HandedVoters(run, k, v) + if Voted(n, v) then {k} else {}
  }

  lemma SameVoted(n: Node, n': Node, v: nat)
    requires n.sent <= n'.sent
    requires forall i :: |n.sent| <= i < |n'.sent| ==> !n'.sent[i].message.ViewChangeMsg?
    ensures Voted(n', v) <==> Voted(n, v)
  {
    if vc: ViewChange :| Broadcast(ViewChangeMsg(vc)) in n'.sent && vc.newView == v {
      var i :| 0 <= i < |n'.sent| && n'.sent[i] == Broadcast(ViewChangeMsg(vc));
      assert n.sent[i] in n.sent;
    }
    if vc: ViewChange :| Broadcast(ViewChangeMsg(vc)) in n.sent && vc.newView == v {
      assert Broadcast(ViewChangeMsg(vc)) in n'.sent;
    }
  }

  lemma BallotTimeout(env: Env, run: Run, k: NodeId, n: Node, v: nat)
    requires env.Valid() && run.Then? && run.at == k && run.event == Timeout && n.st.nodeId == k && !n.st.viewChanging
    requires BallotAt(run.before, k, n, v)
    ensures BallotAt(run, k, Step(env, n, Timeout), v)
  {
    hide Step;
    TimeoutStep(env, n);
    var n' := Step(env, n, Timeout);
    assert n'.sent[|n.sent|] in n'.sent;
    if v != n.st.view + 1 {
      assert Voted(n', v) <==> Voted(n, v);
    } else {
      var vc := n'.sent[|n.sent|].message.viewChange;
      assert Broadcast(ViewChangeMsg(vc)) in n'.sent && Voted(n', v);
    }
  }

  lemma VotersAfterVote(env: Env, n: Node, vc: ViewChange, v: nat)
    requires env.Valid() && v > n.st.view
    ensures VotersFor(Step(env, n, RecvViewChange(vc)).st, v) ==
              VotersFor(n.st, v) + if vc.newView == v then {vc.replicaId} else {}
  {
    hide Step;
    VoteStep(env, n, vc);
  }

  lemma VotersAfterNewView(env: Env, n: Node, nv: NewView, v: nat)
    requires env.Valid() && v > Step(env, n, RecvNewView(nv)).st.view
    ensures VotersFor(Step(env, n, RecvNewView(nv)).st, v) == VotersFor(n.st, v)
  {
    hide Step;
    NewViewStep(env, n, nv);
  }

  lemma SameVoters(st: State, st': State, v: nat)
    requires st'.viewChanges == st.viewChanges
    ensures VotersFor(st', v) == VotersFor(st, v)
  {
  }

  lemma VotersStep(env: Env, n: Node, e: Event, m: Move, v: nat)
    requires env.Valid() && Follows(env, n, e, m, Step(env, n, e)) && (e == Timeout ==> n.st.viewChanging)
    requires v > Step(env, n, e).st.view
    ensures VotersFor(Step(env, n, e).st, v) ==
              VotersFor(n.st, v)
              + if e.RecvViewChange? && e.viewChange.newView == v then {e.viewChange.replicaId} else {}
  {
    hide Step, VotersFor, Guard, Origin, Moved, Arrivals;
    match e
    case RecvViewChange(vc) => VotersAfterVote(env, n, vc, v);
    case RecvNewView(nv) => VotersAfterNewView(env, n, nv, v);
    case Timeout => TimeoutStep(env, n);
    case _ => SameVoters(n.st, Step(env, n, e).st, v);
  }

  lemma NoBallots(env: Env, k: NodeId, v: nat)
    ensures BallotAt(Start, k, InitialNode(env, k), v)
  {
  }

  /** In every run. */
  lemma {:induction false} BallotsInRuns(env: Env, correct: set<NodeId>, run: Run, k: NodeId, v: nat)
    requires env.Valid() && k in correct
    ensures BallotAt(run, k, After(env, correct, run)[k], v)
  {
    hide Step, MoveOf, Inv, LogOk, WindowOk, LogSigned, VotersFor, Voted, Follows;
    if run.Then? {
      BallotsInRuns(env, correct, run.before, k, v);
      if run.at == k {
        var n, n' := After(env, correct, run.before)[k], After(env, correct, run)[k];
        Guarantees.RisesInRuns(env, correct, run, run.before, k);
        var m := StepInRun(env, correct, run);
        if run.event == Timeout && !n.st.viewChanging {
          BallotTimeout(env, run, k, n, v);
        } else if v > n'.st.view {
          NoVotes(env, n, run.event);
          SameVoted(n, n', v);
          VotersStep(env, n, run.event, m, v);
        }
      }
    } else {
      NoBallots(env, k, v);
    }
  }

  // ---------- Announcements ----------

  ghost predicate Announced(n: Node, v: nat) {
    exists nv: NewView :: Broadcast(NewViewMsg(nv)) in n.sent && nv.newView == v
  }

  /** The event hands the primary of a later view a vote for it, and leaves it with those of 2f+1
      senders on file. */
  ghost predicate CountsQuorum(env: Env, n: Node, e: Event, v: nat)
    requires env.Valid()
  {
    && e.RecvViewChange? && e.viewChange.newView == v > n.st.view
    && env.Primary(v) == n.st.nodeId
    && |VotersFor(n.st, v) + {e.viewChange.replicaId}| >= 2 * env.config.f + 1
  }

  lemma AnnouncedStep(env: Env, n: Node, e: Event, v: nat)
    requires env.Valid() && LogOk(env, n.st)
    ensures Announced(Step(env, n, e), v) <==> Announced(n, v) || CountsQuorum(env, n, e, v)
  {
    hide Step, LogOk, Takes, IsPrepared, VotersFor, VotesWith;
    StepSpeaks(env, n, e);
    var n', sends := Step(env, n, e), Sends(env, n, e);
    if CountsQuorum(env, n, e, v) {
      assert n'.sent[|n.sent|] == sends[0] == Broadcast(NewViewMsg(AnnouncementFor(env, n.st, e.viewChange)));
      assert sends[0] in n'.sent;
    }
    if nv: NewView :| Broadcast(NewViewMsg(nv)) in n.sent && nv.newView == v {
      assert Broadcast(NewViewMsg(nv)) in n'.sent;
    }
    if nv: NewView :| Broadcast(NewViewMsg(nv)) in n'.sent && nv.newView == v {
      var i :| 0 <= i < |n'.sent| && n'.sent[i] == Broadcast(NewViewMsg(nv));
      assert if i < |n.sent| then n.sent[i] in n.sent else n'.sent[i] == sends[i - |n.sent|];
    }
  }

  /** Some step of the run has counted a quorum at the replica. */
  ghost predicate HasCountedQuorum(env: Env, correct: set<NodeId>, run: Run, k: NodeId, v: nat)
    requires env.Valid() && k in correct
  {
    && run.Then?
    && (|| HasCountedQuorum(env, correct, run.before, k, v)
        || (run.at == k && CountsQuorum(env, After(env, correct, run.before)[k], run.event, v)))
  }

  lemma NothingAnnounced(env: Env, k: NodeId, v: nat)
    ensures !Announced(InitialNode(env, k), v)
  {
  }

  /** A view has been announced exactly if a vote for it has been counted to a quorum. */
  lemma {:induction false} AnnouncedExactlyIfCounted(env: Env, correct: set<NodeId>, run: Run, k: NodeId, v: nat)
    requires env.Valid() && k in correct
    ensures Announced(After(env, correct, run)[k], v) <==> HasCountedQuorum(env, correct, run, k, v)
  {
    hide Step, LogOk, Announced, CountsQuorum;
    if run.Then? {
      AnnouncedExactlyIfCounted(env, correct, run.before, k, v);
      if run.at == k {
        ReplicaInvariant(env, correct, run.before, k);
        AnnouncedStep(env, After(env, correct, run.before)[k], run.event, v);
      }
    } else {
      NothingAnnounced(env, k, v);
    }
  }

  lemma InvLogOk(env: Env, n: Node)
    requires env.Valid() && Inv(env, n)
    ensures LogOk(env, n.st)
  {
  }

  /** Once the primary of a view has been handed votes for it by 2f+1 senders, and has not got to it
      yet, it has announced the view. */
  lemma {:induction false} QuorumIsAnnounced(env: Env, correct: set<NodeId>, run: Run, k: NodeId, v: nat)
    requires env.Valid() && k in correct && env.Primary(v) == k
    requires |HandedVoters(run, k, v)| >= 2 * env.config.f + 1 && After(env, correct, run)[k].st.view < v
    ensures Announced(After(env, correct, run)[k], v)
  {
    hide Step, Inv, LogOk, Announced, VotersFor, Voted;
    if run.Then? {
      var n := After(env, correct, run.before)[k];
      Guarantees.RisesInRuns(env, correct, run, run.before, k);
      if run.at == k {
        ReplicaInvariant(env, correct, run.before, k);
        InvLogOk(env, n);
        AnnouncedStep(env, n, run.event, v);
      }
      if run.at == k && run.event.RecvViewChange? && run.event.viewChange.newView == v {
        BallotsInRuns(env, correct, run.before, k, v);
        Quorums.SubsetSize(HandedVoters(run, k, v), VotersFor(n.st, v) + {run.event.viewChange.replicaId});
      } else {
        assert HandedVoters(run, k, v) == HandedVoters(run.before, k, v);
        QuorumIsAnnounced(env, correct, run.before, k, v);
      }
    }
  }

  /** The votes that the group has broadcast for the view have all been handed to the replica. */
  ghost predicate VotesHanded(sys: System, run: Run, k: NodeId, group: set<NodeId>, v: nat) {
    forall x, vc: ViewChange ::
      x in group && x in sys && vc.newView == v && Broadcast(ViewChangeMsg(vc)) in sys[x].sent ==>
        WasHanded(run, k, ViewChangeMsg(vc))
  }

  lemma {:induction false} HandedIsVote(run: Run, k: NodeId, vc: ViewChange)
    requires WasHanded(run, k, ViewChangeMsg(vc))
    ensures vc.replicaId in HandedVoters(run, k, vc.newView)
  {
    if !(run.at == k && run.event == EventOf(ViewChangeMsg(vc))) {
      HandedIsVote(run.before, k, vc);
    }
  }

  /** When 2f+1 correct replicas have voted for a view and their votes have all been handed to its
      primary, a correct replica, then that has announced the view, unless it is there or beyond. */
  lemma {:induction false} VotesBringAnnouncement(env: Env, correct: set<NodeId>, run: Run, k: NodeId,
                                                  group: set<NodeId>, v: nat)
    requires env.Valid() && k in correct && env.Primary(v) == k
    requires group <= correct && |group| >= 2 * env.config.f + 1
    requires var sys := After(env, correct, run);
             (forall x :: x in group ==> Voted(sys[x], v)) && VotesHanded(sys, run, k, group, v)
    ensures After(env, correct, run)[k].st.view >= v || Announced(After(env, correct, run)[k], v)
  {
    hide Step, Announced;
    var sys := After(env, correct, run);
    forall x | x in group ensures x in HandedVoters(run, k, v) {
      var vc: ViewChange :| Broadcast(ViewChangeMsg(vc)) in sys[x].sent && vc.newView == v;
      VotesInRuns(env, correct, run, x);
      assert OwnVote(env, sys[x], Broadcast(ViewChangeMsg(vc)));
      ReplicaInvariant(env, correct, run, x);
      HandedIsVote(run, k, vc);
    }
    Quorums.SubsetSize(group, HandedVoters(run, k, v));
    if sys[k].st.view < v {
      QuorumIsAnnounced(env, correct, run, k, v);
    }
  }

  lemma {:induction false} HandedIsHeard(run: Run, k: NodeId, nv: NewView)
    requires WasHanded(run, k, NewViewMsg(nv))
    ensures Heard(run, k, nv.newView)
  {
    if !(run.at == k && run.event == EventOf(NewViewMsg(nv))) {
      HandedIsHeard(run.before, k, nv);
    }
  }

  /** And then whoever is handed what that primary has announced has got to the view. */
  lemma {:induction false} VotesBringNewView(env: Env, correct: set<NodeId>, run: Run, primary: NodeId,
                                             group: set<NodeId>, v: nat, k: NodeId)
    requires env.Valid() && primary in correct && env.Primary(v) == primary && k in correct
    requires group <= correct && |group| >= 2 * env.config.f + 1
    requires var sys := After(env, correct, run);
             && (forall x :: x in group ==> Voted(sys[x], v))
             && VotesHanded(sys, run, primary, group, v)
             && sys[primary].st.view < v
             && (forall nv: NewView :: Broadcast(NewViewMsg(nv)) in sys[primary].sent ==>
                   WasHanded(run, k, NewViewMsg(nv)))
    ensures After(env, correct, run)[k].st.view >= v
  {
    hide Step;
    VotesBringAnnouncement(env, correct, run, primary, group, v);
    var nv: NewView :| Broadcast(NewViewMsg(nv)) in After(env, correct, run)[primary].sent && nv.newView == v;
    HandedIsHeard(run, k, nv);
    ViewIsHighestHeard(env, correct, run, k);
  }

  // ---------- Where the announced votes come from ----------

  /** The vote was handed to the replica, or is its own. */
  ghost predicate Cast(run: Run, k: NodeId, n: Node, vc: ViewChange) {
    WasHanded(run, k, ViewChangeMsg(vc)) || Broadcast(ViewChangeMsg(vc)) in n.sent
  }

  ghost predicate FiledCast(run: Run, k: NodeId, n: Node) {
    forall v, j :: v in n.st.viewChanges && j in n.st.viewChanges[v] ==> Cast(run, k, n, n.st.viewChanges[v][j])
  }

  /** Announcements are broadcast, signed, and carry only votes that were cast. */
  ghost predicate AnnouncementsCast(env: Env, run: Run, k: NodeId, n: Node) {
    forall o :: o in n.sent && o.message.NewViewMsg? ==>
      var nv := o.message.newView;
      && o.Broadcast?
      && nv.signature == env.sign(k, NewViewData(nv.newView))
      && NewViewData(nv.newView) in n.signed
      && forall vc :: vc in nv.viewChanges ==> Cast(run, k, n, vc)
  }

  lemma CastKept(run: Run, k: NodeId, n: Node, n': Node, vc: ViewChange)
    requires run.Then? && Cast(run.before, k, n, vc) && n.sent <= n'.sent
    ensures Cast(run, k, n', vc)
  {
  }

  lemma NewlyCast(run: Run, k: NodeId, n: Node, vc: ViewChange)
    requires run.Then? && run.at == k && (run.event == RecvViewChange(vc) || Broadcast(ViewChangeMsg(vc)) in n.sent)
    ensures Cast(run, k, n, vc)
  {
  }

  /** What is on file after a step was there before, or has come in, or is the vote just sent. */
  lemma FiledBefore(env: Env, n: Node, e: Event, m: Move)
    requires env.Valid() && Follows(env, n, e, m, Step(env, n, e))
    ensures var n' := Step(env, n, e);
            forall v, j :: v in n'.st.viewChanges && j in n'.st.viewChanges[v] ==>
              var vc := n'.st.viewChanges[v][j];
              || (v in n.st.viewChanges && j in n.st.viewChanges[v] && n.st.viewChanges[v][j] == vc)
              || e == RecvViewChange(vc)
              || Broadcast(ViewChangeMsg(vc)) in n'.sent
  {
    hide Step;
    match e
    case RecvViewChange(vc) => VoteStep(env, n, vc);
    case RecvNewView(nv) => NewViewStep(env, n, nv);
    case Timeout =>
      TimeoutStep(env, n);
      if !n.st.viewChanging {
        assert Step(env, n, e).sent[|n.sent|] in Step(env, n, e).sent;
      }
    case _ =>
  }

  lemma FiledCastStep(env: Env, run: Run, k: NodeId, n: Node, m: Move)
    requires env.Valid() && LogOk(env, n.st) && run.Then? && run.at == k && FiledCast(run.before, k, n)
    requires Follows(env, n, run.event, m, Step(env, n, run.event))
    ensures FiledCast(run, k, Step(env, n, run.event))
  {
    hide Step, Follows, LogOk, Cast, Sends;
    var n', e := Step(env, n, run.event), run.event;
    StepSpeaks(env, n, e);
    FiledBefore(env, n, e, m);
    forall v, j | v in n'.st.viewChanges && j in n'.st.viewChanges[v]
      ensures Cast(run, k, n', n'.st.viewChanges[v][j])
    {
      var vc := n'.st.viewChanges[v][j];
      if v in n.st.viewChanges && j in n.st.viewChanges[v] && n.st.viewChanges[v][j] == vc {
        CastKept(run, k, n, n', vc);
      } else {
        NewlyCast(run, k, n', vc);
      }
    }
  }

  /** A new announcement carries what is on file. */
  lemma NewAnnouncement(env: Env, n: Node, e: Event, i: nat)
    requires env.Valid() && LogOk(env, n.st) && |n.sent| <= i < |Step(env, n, e).sent|
    requires Step(env, n, e).sent[i].message.NewViewMsg?
    ensures var n' := Step(env, n, e);
            var o, v := n'.sent[i], n'.sent[i].message.newView.newView;
            && o.Broadcast?
            && o.message.newView.signature == env.sign(n.st.nodeId, NewViewData(v))
            && NewViewData(v) in n'.signed
            && v in n'.st.viewChanges
            && o.message.newView.viewChanges == n'.st.viewChanges[v].Values
  {
    hide Step, LogOk, Takes, IsPrepared;
    StepSpeaks(env, n, e);
    assert Step(env, n, e).sent[i] == Sends(env, n, e)[i - |n.sent|];
    VoteStep(env, n, e.viewChange);
  }

  lemma AnnouncementsCastStep(env: Env, run: Run, k: NodeId, n: Node)
    requires env.Valid() && LogOk(env, n.st) && run.Then? && run.at == k == n.st.nodeId
    requires AnnouncementsCast(env, run.before, k, n)
    requires var n' := Step(env, n, run.event);
             FiledCast(run, k, n') && n.sent <= n'.sent && n.signed <= n'.signed
    ensures AnnouncementsCast(env, run, k, Step(env, n, run.event))
  {
    hide Step, LogOk, Cast;
    var n', e := Step(env, n, run.event), run.event;
    forall o | o in n'.sent && o.message.NewViewMsg?
      ensures var nv := o.message.newView;
              && o.Broadcast?
              && nv.signature == env.sign(k, NewViewData(nv.newView))
              && NewViewData(nv.newView) in n'.signed
              && forall vc :: vc in nv.viewChanges ==> Cast(run, k, n', vc)
    {
      var i :| 0 <= i < |n'.sent| && n'.sent[i] == o;
      if i >= |n.sent| {
        NewAnnouncement(env, n, e, i);
      } else {
        assert n.sent[i] in n.sent;
        forall vc | vc in o.message.newView.viewChanges ensures Cast(run, k, n', vc) {
          CastKept(run, k, n, n', vc);
        }
      }
    }
  }

  lemma CastElsewhere(env: Env, run: Run, k: NodeId, n: Node)
    requires run.Then? && FiledCast(run.before, k, n) && AnnouncementsCast(env, run.before, k, n)
    ensures FiledCast(run, k, n) && AnnouncementsCast(env, run, k, n)
  {
    hide Cast;
    forall vc: ViewChange | Cast(run.before, k, n, vc) ensures Cast(run, k, n, vc) {
      CastKept(run, k, n, n, vc);
    }
  }

  lemma NothingCast(env: Env, k: NodeId)
    ensures FiledCast(Start, k, InitialNode(env, k)) && AnnouncementsCast(env, Start, k, InitialNode(env, k))
  {
  }

  /** In every run all votes on file, and all votes in announcements, were handed to the replica or are
      its own; and the announcements are signed. */
  lemma {:induction false} VotesCastInRuns(env: Env, correct: set<NodeId>, run: Run, k: NodeId)
    requires env.Valid() && k in correct
    ensures var n := After(env, correct, run)[k]; FiledCast(run, k, n) && AnnouncementsCast(env, run, k, n)
  {
    hide Step, MoveOf, Follows, Inv, LogOk, WindowOk, LogSigned, FiledCast, AnnouncementsCast;
    if run.Then? {
      VotesCastInRuns(env, correct, run.before, k);
      var n := After(env, correct, run.before)[k];
      if run.at == k {
        var m := StepInRun(env, correct, run);
        FiledCastStep(env, run, k, n, m);
        AnnouncementsCastStep(env, run, k, n);
      } else {
        CastElsewhere(env, run, k, n);
      }
    } else {
      NothingCast(env, k);
    }
  }

  // ---------- The vote that is not counted ----------

  /** Of the later views that the replica is the primary of, those are announced for which votes of
      2f+1 senders are on file, and no others. */
  ghost predicate AnnouncedIffQuorum(env: Env, n: Node)
    requires env.Valid()
  {
    forall v: nat :: v > n.st.view && env.Primary(v) == n.st.nodeId ==>
      (Announced(n, v) <==> |VotersFor(n.st, v)| >= 2 * env.config.f + 1)
  }

  /** The replica is the primary of the next view, has the votes of 2f others for it, and now votes
      itself: that makes a quorum. */
  ghost predicate OwnVoteCompletes(env: Env, n: Node, e: Event)
    requires env.Valid()
  {
    var v := n.st.view + 1;
    && e == Timeout && !n.st.viewChanging && env.Primary(v) == n.st.nodeId
    && n.st.nodeId !in VotersFor(n.st, v) && |VotersFor(n.st, v)| == 2 * env.config.f
  }

  lemma AnnouncedAfterTimeout(env: Env, n: Node, v: nat)
    requires env.Valid() && LogOk(env, n.st) && !n.st.viewChanging && v > n.st.view
    ensures var n' := Step(env, n, Timeout);
            && n'.st.view == n.st.view && n'.st.nodeId == n.st.nodeId
            && (Announced(n', v) <==> Announced(n, v))
            && VotersFor(n'.st, v) == VotersFor(n.st, v) + if v == n.st.view + 1 then {n.st.nodeId} else {}
  {
    hide Step, Announced, LogOk;
    TimeoutStep(env, n);
    AnnouncedStep(env, n, Timeout, v);
  }

  lemma AnnouncedAfterOther(env: Env, n: Node, e: Event, m: Move, v: nat)
    requires env.Valid() && LogOk(env, n.st) && Follows(env, n, e, m, Step(env, n, e))
    requires e == Timeout ==> n.st.viewChanging
    requires v > Step(env, n, e).st.view >= n.st.view && env.Primary(v) == n.st.nodeId
    requires Announced(n, v) <==> |VotersFor(n.st, v)| >= 2 * env.config.f + 1
    ensures Announced(Step(env, n, e), v) <==> |VotersFor(Step(env, n, e).st, v)| >= 2 * env.config.f + 1
  {
    hide Step, LogOk, Announced, VotersFor, Follows;
    AnnouncedStep(env, n, e, v);
    VotersStep(env, n, e, m, v);
    Quorums.SubsetSize(VotersFor(n.st, v), VotersFor(Step(env, n, e).st, v));
  }

  lemma ViewAfter(env: Env, n: Node, e: Event, m: Move, n': Node)
    requires env.Valid() && Follows(env, n, e, m, n')
    ensures n'.st.view >= n.st.view && n'.st.nodeId == n.st.nodeId
  {
  }

  /** A replica's own vote is filed but not counted. So a step leaves a quorum on file at the primary
      of a later view without announcement exactly if it is the timeout by which that primary's own
      vote completes the quorum. */
  lemma AnnouncedUnlessOwnVoteCompletes(env: Env, n: Node, e: Event)
    requires env.Valid() && LogOk(env, n.st) && AnnouncedIffQuorum(env, n)
    ensures AnnouncedIffQuorum(env, Step(env, n, e)) <==> !OwnVoteCompletes(env, n, e)
  {
    hide Step, LogOk, Announced, VotersFor, Follows, Speaks, Outputs;
    StepMoves(env, n, e);
    var n', m := Step(env, n, e), MoveOf(env, n, e);
    if e == Timeout && !n.st.viewChanging {
      var v := n.st.view + 1;
      AnnouncedAfterTimeout(env, n, v);
      forall w: nat | w > v && env.Primary(w) == n.st.nodeId
        ensures Announced(n', w) <==> |VotersFor(n'.st, w)| >= 2 * env.config.f + 1
      {
        AnnouncedAfterTimeout(env, n, w);
      }
      if env.Primary(v) == n.st.nodeId {
        assert Announced(n, v) <==> |VotersFor(n.st, v)| >= 2 * env.config.f + 1;
      }
    } else {
      ViewAfter(env, n, e, m, n');
      forall v: nat | v > n'.st.view && env.Primary(v) == n.st.nodeId
        ensures Announced(n', v) <==> |VotersFor(n'.st, v)| >= 2 * env.config.f + 1
      {
        AnnouncedAfterOther(env, n, e, m, v);
      }
    }
  }

  /** In no step of the run does the replica's own vote complete a quorum. */
  ghost predicate NeverCompletes(env: Env, correct: set<NodeId>, run: Run, k: NodeId)
    requires env.Valid() && k in correct
  {
    run.Then? ==>
      && NeverCompletes(env, correct, run.before, k)
      && (run.at == k ==> !OwnVoteCompletes(env, After(env, correct, run.before)[k], run.event))
  }

  lemma NoAnnouncementsYet(env: Env, k: NodeId)
    requires env.Valid()
    ensures AnnouncedIffQuorum(env, InitialNode(env, k))
  {
  }

  /** In runs without such a timeout the views announced, of those to come, are exactly those with a
      quorum of votes on file at their primary. */
  lemma {:induction false} AnnouncedUnlessOwnVoteCompletesInRuns(env: Env, correct: set<NodeId>, run: Run, k: NodeId)
    requires env.Valid() && k in correct && NeverCompletes(env, correct, run, k)
    ensures AnnouncedIffQuorum(env, After(env, correct, run)[k])
  {
    hide Step, Inv, LogOk, AnnouncedIffQuorum, OwnVoteCompletes;
    if run.Then? {
      AnnouncedUnlessOwnVoteCompletesInRuns(env, correct, run.before, k);
      if run.at == k {
        var n := After(env, correct, run.before)[k];
        ReplicaInvariant(env, correct, run.before, k);
        InvLogOk(env, n);
        AnnouncedUnlessOwnVoteCompletes(env, n, run.event);
      }
    } else {
      NoAnnouncementsYet(env, k);
    }
  }

  /** A vote for the next view, short of a quorum. */
  lemma EarlyVote(env: Env, n: Node, vc: ViewChange)
    requires env.Valid() && LogOk(env, n.st) && n.st.view == 0 && vc.newView == 1 && !Announced(n, 1)
    requires |VotersFor(n.st, 1) + {vc.replicaId}| < 2 * env.config.f + 1
    ensures var n' := Step(env, n, RecvViewChange(vc));
            && !Announced(n', 1) && VotersFor(n'.st, 1) == VotersFor(n.st, 1) + {vc.replicaId}
            && n'.st.view == 0 && n'.st.nodeId == n.st.nodeId && n'.st.viewChanging == n.st.viewChanging
  {
    hide Step, LogOk, Announced;
    AnnouncedStep(env, n, RecvViewChange(vc), 1);
    VoteStep(env, n, vc);
  }

  lemma NobodyVoted(env: Env, k: NodeId)
    ensures VotersFor(InitialNode(env, k).st, 1) == {} && LogOk(env, InitialNode(env, k).st)
  {
  }

  /** It does happen: where one fault is tolerated, the primary of view 1 is handed the votes of two
      others and then votes itself; it holds a quorum for view 1 and has announced nothing. */
  lemma OwnVoteGoesUncounted(env: Env, primary: NodeId, a: ViewChange, b: ViewChange) returns (run: Run)
    requires env.Valid() && env.config.f == 1 && env.Primary(1) == primary
    requires a.newView == b.newView == 1 && |{a.replicaId, b.replicaId, primary}| == 3
    ensures var n := After(env, {primary}, run)[primary];
            |VotersFor(n.st, 1)| == 2 * env.config.f + 1 && n.st.view == 0 && !Announced(n, 1)
  {
    hide Step, Inv, LogOk, Announced, VotersFor;
    var correct, one := {primary}, Then(Start, primary, RecvViewChange(a));
    var two := Then(one, primary, RecvViewChange(b));
    run := Then(two, primary, Timeout);
    var n0, n1, n2 := InitialNode(env, primary), After(env, correct, one)[primary], After(env, correct, two)[primary];
    NothingAnnounced(env, primary, 1);
    NobodyVoted(env, primary);
    ReplicaInvariant(env, correct, one, primary);
    InvLogOk(env, n1);
    ReplicaInvariant(env, correct, two, primary);
    InvLogOk(env, n2);
    assert After(env, correct, Start)[primary] == n0;
    assert n1 == Step(env, n0, RecvViewChange(a)) && VotersFor(n0.st, 1) + {a.replicaId} == {a.replicaId};
    EarlyVote(env, n0, a);
    assert n2 == Step(env, n1, RecvViewChange(b));
    assert VotersFor(n1.st, 1) + {b.replicaId} == {a.replicaId, b.replicaId};
    EarlyVote(env, n1, b);
    AnnouncedAfterTimeout(env, n2, 1);
    assert {a.replicaId, b.replicaId} + {primary} == {a.replicaId, b.replicaId, primary};
  }
}
