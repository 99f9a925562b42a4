/** The order in which requests reach the application. It is the order in which sequence numbers
    are committed; which that is depends on the order in which votes arrive, and it need not be
    that of the numbers. */
module ExecutionOrder {
  import opened Messages
  import opened Protocol
  import opened Moves
  import opened Invariant
  import opened Records
  import opened Runs
  import opened DeliveryOrder
  import Replays

  /** Requests have been handed to the application in sequence number order. */
  ghost predicate InOrder(n: Node) {
    forall i, j :: 0 <= i < j < |n.delivered| ==> n.delivered[i].sequence < n.delivered[j].sequence
  }

  /** The number is above that of the last request handed on. */
  predicate AboveLast(n: Node, s: nat) {
    |n.delivered| > 0 ==> n.delivered[|n.delivered| - 1].sequence < s
  }

  /** Handing on what is on its way keeps the order exactly if its number is above the last one. */
  lemma InOrderUnlessOvertaken(env: Env, n: Node, e: Event)
    requires env.Valid() && InOrder(n)
    ensures InOrder(Step(env, n, e)) <==>
              (e.Run? && e.task.Deliver? && e.task in n.pending ==> AboveLast(n, e.task.sequence))
  {
    hide Step, MoveOf, Follows, Speaks;
    StepMoves(env, n, e);
    var n', last := Step(env, n, e), |n.delivered| - 1;
    if e.Run? && e.task.Deliver? && e.task in n.pending && !AboveLast(n, e.task.sequence) {
      assert n'.delivered[last] == n.delivered[last] && n'.delivered[last + 1].sequence == e.task.sequence;
    }
  }

  predicate OnItsWay(n: Node, t: Task) {
    t in n.pending && t.Deliver?
  }

  /** Requests have been handed on in order; and at most one is on its way, which keeps the order. */
  ghost predicate OrderSafe(n: Node) {
    && InOrder(n)
    && (forall t, u :: OnItsWay(n, t) && OnItsWay(n, u) ==> t == u)
    && (forall t :: OnItsWay(n, t) ==> AboveLast(n, t.sequence))
  }

  /** The step commits a number and executes it. */
  predicate Executing(env: Env, n: Node, e: Event) {
    && e.Run? && e.task.AdvanceCommitted? && e.task in n.pending
    && CanCommit(env, n.st, e.task.sequence)
    && Executes(env, n.st, e.task.sequence)
  }

  /** The step commits a number and executes it, though a request is still on its way to the
      application or the number is not above the last one handed on. */
  ghost predicate Overtakes(env: Env, n: Node, e: Event) {
    && Executing(env, n, e)
    && ((exists t :: OnItsWay(n, t)) || !AboveLast(n, e.task.sequence))
  }

  lemma ExecutingKeepsOrder(env: Env, n: Node, t: Task, n': Node)
    requires ExecutionOk(env, n) && OrderSafe(n) && t.Deliver? && env.digest(t.request) !in n.st.executed
    requires n'.delivered == n.delivered
    requires forall u: Task :: u.Deliver? ==> n'.pending[u] == n.pending[u] + if u == t then 1 else 0
    ensures OrderSafe(n') <==> !(exists u :: OnItsWay(n, u)) && AboveLast(n, t.sequence)
  {
    assert !BeingDelivered(env, n, env.digest(t.request));
    forall u ensures OnItsWay(n', u) <==> OnItsWay(n, u) || u == t {
      assert u.Deliver? ==> n'.pending[u] == n.pending[u] + if u == t then 1 else 0;
    }
    assert OnItsWay(n', t);
    if u :| OnItsWay(n, u) {
      assert OnItsWay(n', u);
    }
  }

  lemma DeliveringKeepsOrder(env: Env, n: Node, t: Task, n': Node)
    requires ExecutionOk(env, n) && OrderSafe(n) && OnItsWay(n, t)
    requires n'.delivered == n.delivered + [Delivery(t.sequence, t.request)]
    requires forall u: Task :: u.Deliver? ==> n'.pending[u] == n.pending[u] - if u == t then 1 else 0
    ensures OrderSafe(n')
  {
    forall u ensures !OnItsWay(n', u) {
      assert u.Deliver? ==> n'.pending[u] == n.pending[u] - if u == t then 1 else 0;
      assert OnItsWay(n, u) ==> u == t;
    }
  }

  lemma OtherwiseKeepsOrder(n: Node, n': Node)
    requires OrderSafe(n) && n'.delivered == n.delivered
    requires forall u: Task :: u.Deliver? ==> n'.pending[u] == n.pending[u]
    ensures OrderSafe(n')
  {
    forall u ensures OnItsWay(n', u) <==> OnItsWay(n, u) {
      assert u.Deliver? ==> n'.pending[u] == n.pending[u];
    }
  }

  lemma FinishExecutes(env: Env, n: Node, e: Event)
    requires env.Valid()
    ensures var m := MoveOf(env, n, e);
            && (Executing(env, n, e) <==> m.Finish? && Executes(env, n.st, m.sequence))
            && (m.Finish? ==> e == Run(AdvanceCommitted(m.sequence)))
  {
  }

  lemma DecidesDigest(env: Env, n: Node, s: nat)
    requires CanCommit(env, n.st, s) && Executes(env, n.st, s)
    ensures s in n.st.log && n.st.log[s].request.Some? && env.digest(n.st.log[s].request.value) !in n.st.executed
  {
  }

  lemma IsOnItsWay(n: Node, t: Task)
    requires t in n.pending && t.Deliver?
    ensures OnItsWay(n, t)
  {
  }

  /** The order of execution is safe after a step exactly if the step does not overtake: a test
      that is missing where a committed number is executed. */
  lemma OrderSafeUnlessOvertaking(env: Env, n: Node, e: Event)
    requires env.Valid() && Inv(env, n) && OrderSafe(n)
    ensures OrderSafe(Step(env, n, e)) <==> !Overtakes(env, n, e)
  {
    hide Step, MoveOf, Follows, Speaks, OrderSafe, OnItsWay, AboveLast, ExecutionOk, CanCommit, Executes;
    StepMoves(env, n, e);
    FinishExecutes(env, n, e);
    var m, n' := MoveOf(env, n, e), Step(env, n, e);
    if Executing(env, n, e) {
      DecidesDigest(env, n, m.sequence);
      ExecutingKeepsOrder(env, n, Deliver(n.st.log[m.sequence].request.value, m.sequence), n');
    } else if e.Run? && e.task.Deliver? && e.task in n.pending {
      IsOnItsWay(n, e.task);
      DeliveringKeepsOrder(env, n, e.task, n');
    } else {
      OtherwiseKeepsOrder(n, n');
    }
  }

  lemma HandsOn(env: Env, n: Node, t: Task)
    requires env.Valid() && OnItsWay(n, t)
    ensures var n' := Step(env, n, Run(t));
            && n'.delivered == n.delivered + [Delivery(t.sequence, t.request)]
            && forall u :: u != t && OnItsWay(n, u) ==> OnItsWay(n', u)
  {
    hide Step, MoveOf, Follows, Speaks;
    StepMoves(env, n, Run(t));
    var n' := Step(env, n, Run(t));
    forall u | u != t && OnItsWay(n, u) ensures OnItsWay(n', u) {
      assert n'.pending[u] >= n.pending[u];
    }
  }

  lemma ExecutedIsOnItsWay(env: Env, n: Node, e: Event)
    requires env.Valid() && Executing(env, n, e)
    ensures var n' := Step(env, n, e);
            && OnItsWay(n', Deliver(n.st.log[e.task.sequence].request.value, e.task.sequence))
            && n'.delivered == n.delivered
            && forall u :: OnItsWay(n, u) ==> OnItsWay(n', u)
  {
    hide Step, MoveOf, Follows, Speaks;
    StepMoves(env, n, e);
    FinishExecutes(env, n, e);
    var t, n' := Deliver(n.st.log[e.task.sequence].request.value, e.task.sequence), Step(env, n, e);
    assert n'.pending[t] >= 1;
    forall u | OnItsWay(n, u) ensures OnItsWay(n', u) {
      assert n'.pending[u] >= n.pending[u];
    }
  }

  lemma MoreDelivered(env: Env, n: Node, e: Event)
    requires env.Valid()
    ensures n.delivered <= Step(env, n, e).delivered
  {
    hide Step, MoveOf, Follows, Speaks;
    StepMoves(env, n, e);
  }

  lemma ExecutingIsNew(env: Env, n: Node, e: Event, u: Task)
    requires env.Valid() && Inv(env, n) && Executing(env, n, e) && OnItsWay(n, u)
    ensures u != Deliver(n.st.log[e.task.sequence].request.value, e.task.sequence)
  {
    assert !BeingDelivered(env, n, env.digest(n.st.log[e.task.sequence].request.value));
  }

  lemma OutOfOrder(n: Node, i: nat, j: nat)
    requires i < j < |n.delivered| && n.delivered[i].sequence >= n.delivered[j].sequence
    ensures !InOrder(n)
  {
  }

  /** And a step that overtakes does lead to disorder, as soon as what is on its way is handed on. */
  lemma OvertakingLeadsToDisorder(env: Env, n: Node, e: Event)
    requires env.Valid() && Inv(env, n) && OrderSafe(n) && Overtakes(env, n, e)
    ensures var n1 := Step(env, n, e);
            exists t: Task, u: Task ::
              OnItsWay(n1, t) && u.Deliver? && !InOrder(Step(env, Step(env, n1, Run(t)), Run(u)))
  {
    hide Step, Inv, InOrder;
    var n1, last := Step(env, n, e), |n.delivered| - 1;
    var t := Deliver(n.st.log[e.task.sequence].request.value, e.task.sequence);
    ExecutedIsOnItsWay(env, n, e);
    if !AboveLast(n, t.sequence) {
      var n2 := Step(env, n1, Run(t));
      HandsOn(env, n1, t);
      MoreDelivered(env, n2, Run(t));
      OutOfOrder(Step(env, n2, Run(t)), last, last + 1);
    } else {
      var u :| OnItsWay(n, u);
      ExecutingIsNew(env, n, e, u);
      var first, second := if u.sequence >= t.sequence then u else t, if u.sequence >= t.sequence then t else u;
      HandsOn(env, n1, first);
      HandsOn(env, Step(env, n1, Run(first)), second);
      OutOfOrder(Step(env, Step(env, n1, Run(first)), Run(second)), last + 1, last + 2);
    }
  }

  // ---------- In runs ----------

  /** No step of replica `k` overtakes. */
  ghost predicate NeverOvertakes(env: Env, correct: set<NodeId>, run: Run, k: NodeId)
    requires env.Valid() && k in correct
  {
    run.Then? ==>
      && NeverOvertakes(env, correct, run.before, k)
      && (run.at == k ==> !Overtakes(env, After(env, correct, run.before)[k], run.event))
  }

  /** A replica that never overtakes hands requests on in sequence number order. */
  lemma {:induction false} InOrderUnlessOvertaking(env: Env, correct: set<NodeId>, run: Run, k: NodeId)
    requires env.Valid() && k in correct && NeverOvertakes(env, correct, run, k)
    ensures OrderSafe(After(env, correct, run)[k]) && InOrder(After(env, correct, run)[k])
  {
    hide Step, Inv, Overtakes;
    if run.Then? {
      InOrderUnlessOvertaking(env, correct, run.before, k);
      if run.at == k {
        ReplicaInvariant(env, correct, run.before, k);
        OrderSafeUnlessOvertaking(env, After(env, correct, run.before)[k], run.event);
      }
    }
  }

  // ---------- A number from its pre-prepare to its execution ----------

  /** Backup `b`, with nothing to do. */
  ghost predicate Idling(n: Node, b: NodeId) {
    && n.st.nodeId == b && n.st.view == 0 && n.st.lowWatermark == 0 && n.st.highWatermark == 200
    && n.pending == multiset{}
  }

  /** What backup `b` has recorded for a number, and what it still has to do. */
  ghost predicate Doing(env: Env, n: Node, b: NodeId, s: nat, r: Request, phase: Phase,
                        prepares: set<NodeId>, commits: set<NodeId>, tasks: multiset<Task>)
  {
    && n.st.nodeId == b && n.st.view == 0 && n.st.lowWatermark == 0 && n.st.highWatermark == 200
    && n.pending == tasks
    && 0 < s <= 200 && s in n.st.log
    && var i := n.st.log[s];
    && i.phase == phase && i.request == Some(r) && i.digest == Some(env.digest(r))
    && i.prePrepare.Some? && i.prePrepare.value.digest == env.digest(r)
    && i.prepares.Keys == prepares && |i.prepares| == |prepares|
    && i.commits.Keys == commits && |i.commits| == |commits|
  }

  /** Nothing is executed, and other numbers are left alone. */
  ghost predicate OnlyAt(n: Node, s: nat, n': Node) {
    && n'.st.executed == n.st.executed && n'.delivered == n.delivered
    && forall t :: t != s ==> (t in n'.st.log <==> t in n.st.log)
  }

  lemma Opens(env: Env, a: NodeId, b: NodeId, c: NodeId, d: NodeId, n: Node, s: nat, r: Request)
    requires Replays.Four(env, a, b, c, d) && Idling(n, b) && s !in n.st.log && 0 < s <= 200
    ensures var n' := Step(env, n, RecvPrePrepare(MakePrePrepare(env, a, 0, s, r)));
            && Doing(env, n', b, s, r, PrePrepared, {b}, {}, multiset{AdvancePrepared(s)})
            && OnlyAt(n, s, n')
  {
    var pp := MakePrePrepare(env, a, 0, s, r);
    var n' := Step(env, n, RecvPrePrepare(pp));
    assert CheckPrePrepare(env, n.st, pp) == Accept;
    assert n'.st.log[s].prepares.Keys == {b} && |n'.st.log[s].prepares.Keys| == |n'.st.log[s].prepares|;
  }

  lemma TakesPrepare(env: Env, b: NodeId, n: Node, s: nat, r: Request, k: NodeId, p: set<NodeId>, c: set<NodeId>)
    requires env.Valid() && SignaturesVerify(env, {k}) && k !in p
    requires Doing(env, n, b, s, r, PrePrepared, p, c, multiset{})
    ensures var n' := Step(env, n, RecvPrepare(MakePrepare(env, k, 0, s, env.digest(r))));
            && Doing(env, n', b, s, r, PrePrepared, p + {k}, c, multiset{AdvancePrepared(s)})
            && OnlyAt(n, s, n')
  {
    var vote := MakePrepare(env, k, 0, s, env.digest(r));
    assert CheckPrepare(env, n.st, vote) == Accept;
    assert WithPrepare(n.st.log[s], vote).prepares.Keys == p + {k};
  }

  lemma TakesCommit(env: Env, b: NodeId, n: Node, s: nat, r: Request, k: NodeId, p: set<NodeId>, c: set<NodeId>)
    requires env.Valid() && SignaturesVerify(env, {k}) && k !in c
    requires Doing(env, n, b, s, r, Prepared, p, c, multiset{})
    ensures var n' := Step(env, n, RecvCommit(MakeCommit(env, k, 0, s, env.digest(r))));
            && Doing(env, n', b, s, r, Prepared, p, c + {k}, multiset{AdvanceCommitted(s)})
            && OnlyAt(n, s, n')
  {
    var vote := MakeCommit(env, k, 0, s, env.digest(r));
    assert CheckCommit(env, n.st, vote) == Accept;
    assert WithCommit(n.st.log[s], vote).commits.Keys == c + {k};
  }

  /** An advance that comes too early. */
  lemma Waits(env: Env, b: NodeId, n: Node, s: nat, r: Request, phase: Phase, p: set<NodeId>, c: set<NodeId>, t: Task)
    requires env.Valid() && Doing(env, n, b, s, r, phase, p, c, multiset{t})
    requires || (t == AdvancePrepared(s) && |p| < env.config.Quorum())
             || (t == AdvanceCommitted(s) && |c| < env.config.Quorum())
    ensures var n' := Step(env, n, Run(t)); Doing(env, n', b, s, r, phase, p, c, multiset{}) && OnlyAt(n, s, n')
  {
  }

  lemma Certifies(env: Env, b: NodeId, n: Node, s: nat, r: Request, p: set<NodeId>, c: set<NodeId>)
    requires env.Valid() && Doing(env, n, b, s, r, PrePrepared, p, c, multiset{AdvancePrepared(s)})
    requires |p| >= env.config.Quorum() && b !in c
    ensures var n' := Step(env, n, Run(AdvancePrepared(s)));
            && Doing(env, n', b, s, r, Prepared, p, c + {b}, multiset{AdvanceCommitted(s)})
            && OnlyAt(n, s, n')
  {
    assert CanPrepare(env, n.st, s);
    var n' := Step(env, n, Run(AdvancePrepared(s)));
    assert n'.st.log[s].commits.Keys == c + {b};
  }

  lemma Finishes(env: Env, b: NodeId, n: Node, s: nat, r: Request, p: set<NodeId>, c: set<NodeId>)
    requires env.Valid() && Doing(env, n, b, s, r, Prepared, p, c, multiset{AdvanceCommitted(s)})
    requires |c| >= env.config.Quorum() && env.digest(r) !in n.st.executed
    ensures var n' := Step(env, n, Run(AdvanceCommitted(s)));
            && Doing(env, n', b, s, r, Committed, p, c, multiset{Deliver(r, s)})
            && n'.st.executed == n.st.executed + {env.digest(r)} && n'.delivered == n.delivered
            && forall t :: t != s ==> (t in n'.st.log <==> t in n.st.log)
  {
    assert CanCommit(env, n.st, s) && Executes(env, n.st, s);
  }

  lemma Hands(env: Env, b: NodeId, n: Node, s: nat, r: Request, p: set<NodeId>, c: set<NodeId>)
    requires env.Valid() && Doing(env, n, b, s, r, Committed, p, c, multiset{Deliver(r, s)})
    requires s % env.config.checkpointInterval != 0
    ensures var n1 := Step(env, n, Run(Deliver(r, s)));
            var n' := Step(env, n1, Run(TryCheckpoint(s)));
            && n'.st == n.st && Idling(n', b) && n'.delivered == n.delivered + [Delivery(s, r)]
  {
    var n1 := Step(env, n, Run(Deliver(r, s)));
    assert n1.pending == multiset{TryCheckpoint(s)};
  }

  /** What a backup is handed about a number by the primary `a` and another backup `c`, and what it
      goes on to do after each message. */
  function Turn(env: Env, a: NodeId, c: NodeId, s: nat, r: Request): seq<Event> {
    var h := env.digest(r);
    [RecvPrePrepare(MakePrePrepare(env, a, 0, s, r)), Run(AdvancePrepared(s)),
     RecvPrepare(MakePrepare(env, a, 0, s, h)), Run(AdvancePrepared(s)),
     RecvPrepare(MakePrepare(env, c, 0, s, h)), Run(AdvancePrepared(s)), Run(AdvanceCommitted(s)),
     RecvCommit(MakeCommit(env, a, 0, s, h)), Run(AdvanceCommitted(s)),
     RecvCommit(MakeCommit(env, c, 0, s, h)), Run(AdvanceCommitted(s)), Run(Deliver(r, s)), Run(TryCheckpoint(s))]
  }

  lemma TurnEvents(env: Env, a: NodeId, c: NodeId, s: nat, r: Request)
    ensures var t, h := Turn(env, a, c, s, r), env.digest(r);
            && |t| == 13
            && t[0] == RecvPrePrepare(MakePrePrepare(env, a, 0, s, r))
            && t[1] == t[3] == t[5] == Run(AdvancePrepared(s))
            && t[2] == RecvPrepare(MakePrepare(env, a, 0, s, h)) && t[4] == RecvPrepare(MakePrepare(env, c, 0, s, h))
            && t[6] == t[8] == t[10] == Run(AdvanceCommitted(s))
            && t[7] == RecvCommit(MakeCommit(env, a, 0, s, h)) && t[9] == RecvCommit(MakeCommit(env, c, 0, s, h))
            && t[11] == Run(Deliver(r, s)) && t[12] == Run(TryCheckpoint(s))
  {
  }

  lemma PlayNext(env: Env, n: Node, events: seq<Event>, i: nat)
    requires env.Valid() && i < |events|
    ensures Play(env, n, events[..i + 1]) == Step(env, Play(env, n, events[..i]), events[i])
  {
    hide Step;
    assert events[..i + 1][..i] == events[..i];
  }

  lemma NothingPlayed(env: Env, n: Node, events: seq<Event>)
    requires env.Valid()
    ensures Play(env, n, events[..0]) == n
  {
  }

  lemma OnlyAtTwice(n: Node, s: nat, n': Node, n'': Node)
    requires OnlyAt(n, s, n') && OnlyAt(n', s, n'')
    ensures OnlyAt(n, s, n'')
  {
  }

  /** The first two events of a turn: the pre-prepare. */
  lemma TurnBegins(env: Env, a: NodeId, b: NodeId, c: NodeId, d: NodeId, n: Node, s: nat, r: Request)
    requires Replays.Four(env, a, b, c, d) && Idling(n, b) && s !in n.st.log && 0 < s < 100
    ensures var n' := Play(env, n, Turn(env, a, c, s, r)[..2]);
            Doing(env, n', b, s, r, PrePrepared, {b}, {}, multiset{}) && OnlyAt(n, s, n')
  {
    hide Step, Doing, Play, Idling, OnlyAt, Turn;
    TurnEvents(env, a, c, s, r);
    var turn := Turn(env, a, c, s, r);
    NothingPlayed(env, n, turn);
    var n1 := Play(env, n, turn[..1]);
    Opens(env, a, b, c, d, n, s, r);
    PlayNext(env, n, turn, 0);
    Waits(env, b, n1, s, r, PrePrepared, {b}, {}, AdvancePrepared(s));
    PlayNext(env, n, turn, 1);
    OnlyAtTwice(n, s, n1, Play(env, n, turn[..2]));
  }

  /** The next two: the primary's prepare. */
  lemma TurnOpens(env: Env, a: NodeId, b: NodeId, c: NodeId, d: NodeId, n: Node, s: nat, r: Request)
    requires Replays.Four(env, a, b, c, d) && Idling(n, b) && s !in n.st.log && 0 < s < 100
    ensures var n' := Play(env, n, Turn(env, a, c, s, r)[..4]);
            Doing(env, n', b, s, r, PrePrepared, {b, a}, {}, multiset{}) && OnlyAt(n, s, n')
  {
    hide Step, Doing, Play, Idling, OnlyAt, Turn;
    TurnEvents(env, a, c, s, r);
    var turn := Turn(env, a, c, s, r);
    assert {b} + {a} == {b, a};
    var n2, n3 := Play(env, n, turn[..2]), Play(env, n, turn[..3]);
    TurnBegins(env, a, b, c, d, n, s, r);
    TakesPrepare(env, b, n2, s, r, a, {b}, {});
    PlayNext(env, n, turn, 2);
    OnlyAtTwice(n, s, n2, n3);
    Waits(env, b, n3, s, r, PrePrepared, {b, a}, {}, AdvancePrepared(s));
    PlayNext(env, n, turn, 3);
    OnlyAtTwice(n, s, n3, Play(env, n, turn[..4]));
  }

  /** The next three: the other backup's prepare, on which the backup prepares. */
  lemma TurnPrepares(env: Env, a: NodeId, b: NodeId, c: NodeId, d: NodeId, n: Node, s: nat, r: Request)
    requires Replays.Four(env, a, b, c, d) && Idling(n, b) && s !in n.st.log && 0 < s < 100
    ensures var n' := Play(env, n, Turn(env, a, c, s, r)[..7]);
            Doing(env, n', b, s, r, Prepared, {b, a, c}, {b}, multiset{}) && OnlyAt(n, s, n')
  {
    hide Step, Doing, Play, Idling, OnlyAt, Turn;
    TurnEvents(env, a, c, s, r);
    var turn := Turn(env, a, c, s, r);
    assert {b, a} + {c} == {b, a, c} && {} + {b} == {b};
    var n4, n5, n6 := Play(env, n, turn[..4]), Play(env, n, turn[..5]), Play(env, n, turn[..6]);
    TurnOpens(env, a, b, c, d, n, s, r);
    TakesPrepare(env, b, n4, s, r, c, {b, a}, {});
    PlayNext(env, n, turn, 4);
    OnlyAtTwice(n, s, n4, n5);
    Certifies(env, b, n5, s, r, {b, a, c}, {});
    PlayNext(env, n, turn, 5);
    OnlyAtTwice(n, s, n5, n6);
    Waits(env, b, n6, s, r, Prepared, {b, a, c}, {b}, AdvanceCommitted(s));
    PlayNext(env, n, turn, 6);
    OnlyAtTwice(n, s, n6, Play(env, n, turn[..7]));
  }

  /** The next three: the two commits, on which the backup has enough to commit. */
  lemma TurnCommits(env: Env, a: NodeId, b: NodeId, c: NodeId, d: NodeId, n: Node, s: nat, r: Request)
    requires Replays.Four(env, a, b, c, d) && Idling(n, b) && s !in n.st.log && 0 < s < 100
    ensures var n' := Play(env, n, Turn(env, a, c, s, r)[..10]);
            && Doing(env, n', b, s, r, Prepared, {b, a, c}, {b, a, c}, multiset{AdvanceCommitted(s)})
            && OnlyAt(n, s, n')
  {
    hide Step, Doing, Play, Idling, OnlyAt, Turn;
    TurnEvents(env, a, c, s, r);
    var turn := Turn(env, a, c, s, r);
    assert {b} + {a} == {b, a} && {b, a} + {c} == {b, a, c};
    var n7, n8, n9 := Play(env, n, turn[..7]), Play(env, n, turn[..8]), Play(env, n, turn[..9]);
    TurnPrepares(env, a, b, c, d, n, s, r);
    TakesCommit(env, b, n7, s, r, a, {b, a, c}, {b});
    PlayNext(env, n, turn, 7);
    OnlyAtTwice(n, s, n7, n8);
    Waits(env, b, n8, s, r, Prepared, {b, a, c}, {b, a}, AdvanceCommitted(s));
    PlayNext(env, n, turn, 8);
    OnlyAtTwice(n, s, n8, n9);
    TakesCommit(env, b, n9, s, r, c, {b, a, c}, {b, a});
    PlayNext(env, n, turn, 9);
    OnlyAtTwice(n, s, n9, Play(env, n, turn[..10]));
  }

  /** A turn ends with the request executed. */
  lemma TurnExecutes(env: Env, a: NodeId, b: NodeId, c: NodeId, d: NodeId, n: Node, s: nat, r: Request)
    requires Replays.Four(env, a, b, c, d) && Idling(n, b) && s !in n.st.log && 0 < s < 100
    requires env.digest(r) !in n.st.executed
    ensures var n' := Play(env, n, Turn(env, a, c, s, r));
            && Idling(n', b)
            && n'.st.executed == n.st.executed + {env.digest(r)}
            && n'.delivered == n.delivered + [Delivery(s, r)]
            && forall t :: t != s ==> (t in n'.st.log <==> t in n.st.log)
  {
    hide Step, Play, Doing, Idling, Turn;
    TurnEvents(env, a, c, s, r);
    var turn := Turn(env, a, c, s, r);
    assert turn[..13] == turn;
    TurnCommits(env, a, b, c, d, n, s, r);
    Finishes(env, b, Play(env, n, turn[..10]), s, r, {b, a, c}, {b, a, c});
    PlayNext(env, n, turn, 10);
    Hands(env, b, Play(env, n, turn[..11]), s, r, {b, a, c}, {b, a, c});
    PlayNext(env, n, turn, 11);
    PlayNext(env, n, turn, 12);
  }

  // ---------- Two orders ----------

  lemma {:induction false} PlayAppend(env: Env, n: Node, one: seq<Event>, more: seq<Event>)
    requires env.Valid()
    ensures Play(env, n, one + more) == Play(env, Play(env, n, one), more)
    ensures Handed(one + more) == Handed(one) + Handed(more)
    decreases |more|
  {
    hide Step;
    if more == [] {
      assert one + more == one;
    } else {
      var before := more[..|more| - 1];
      PlayAppend(env, n, one, before);
      assert (one + more)[..|one + more| - 1] == one + before;
    }
  }

  lemma TurnMatches(env: Env, a: NodeId, b: NodeId, c: NodeId, d: NodeId, x: Setting, s: nat, r: Request)
    requires Replays.Four(env, a, b, c, d) && x.me == b && x.view == 0 && x.checkpoint == 0
    requires 0 < s < 100 && x.digestAt(s) == env.digest(r)
    ensures AllMatching(env, x, Turn(env, a, c, s, r))
  {
  }

  /** The order of execution is that of arrival, not that of the numbers. A backup is handed the
      same messages, all in order and signed, in two ways, and finishes with each before it takes
      the next: one way it executes number 1 before number 2, the other way number 2 before 1. */
  lemma ExecutionFollowsArrival(env: Env, a: NodeId, b: NodeId, c: NodeId, d: NodeId, r: Request, r': Request)
    returns (x: Setting, one: seq<Event>, other: seq<Event>)
    requires Replays.Four(env, a, b, c, d) && env.digest(r) != env.digest(r')
    ensures x.me == b && x.view == 0 && x.checkpoint == 0
    ensures AllMatching(env, x, one) && AllMatching(env, x, other) && Handed(one) == Handed(other)
    ensures Play(env, Entering(env, b, 0, 0), one).delivered == [Delivery(1, r), Delivery(2, r')]
    ensures Play(env, Entering(env, b, 0, 0), other).delivered == [Delivery(2, r'), Delivery(1, r)]
  {
    hide Step, Play, Handed;
    x := Setting(b, 0, 0, (s: nat) => if s == 1 then env.digest(r) else env.digest(r'));
    var first, second, n := Turn(env, a, c, 1, r), Turn(env, a, c, 2, r'), Entering(env, b, 0, 0);
    TurnMatches(env, a, b, c, d, x, 1, r);
    TurnMatches(env, a, b, c, d, x, 2, r');
    one, other := first + second, second + first;
    PlayAppend(env, n, first, second);
    PlayAppend(env, n, second, first);
    TurnExecutes(env, a, b, c, d, n, 1, r);
    TurnExecutes(env, a, b, c, d, Play(env, n, first), 2, r');
    TurnExecutes(env, a, b, c, d, n, 2, r');
    TurnExecutes(env, a, b, c, d, Play(env, n, second), 1, r);
  }
}
