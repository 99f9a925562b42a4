/** What a handler answers: each tests its message in a fixed order, and the first test that fails
    gives the error (src/pbft.rs). The tests are listed here; that the handlers' verdicts follow
    them is proved. */
module Verdicts {
  import opened Messages
  import opened Protocol

  /** What a handler returns. */
  datatype Outcome = Done | Failed(error: PbftError)

  function OutcomeOf(v: Verdict): Outcome {
    if v.Reject? then Failed(v.error) else Done
  }

  datatype Test = Test(passes: bool, error: PbftError)

  /** The tests of a message, in order. */
  function Tests(env: Env, st: State, m: Message): seq<Test>
    requires env.Valid()
  {
    match m
    case RequestMsg(r) =>
      [Test(env.Primary(st.view) == st.nodeId && env.digest(r) !in st.executed ==>
              st.sequence < st.highWatermark, InvalidSequence)]
    case PrePrepareMsg(pp) =>
      var held := pp.sequence in st.log && st.log[pp.sequence].prePrepare.Some?;
      [Test(pp.view == st.view, InvalidView),
       Test(pp.primaryId == env.Primary(st.view), NotPrimary),
       Test(st.lowWatermark < pp.sequence <= st.highWatermark, InvalidSequence),
       Test(env.verify(pp.primaryId, PrepareData(pp.view, pp.sequence, pp.digest), pp.signature), InvalidSignature),
       Test(held ==> st.log[pp.sequence].digest == Some(pp.digest), InvalidMessage),
       Test(!held ==> env.digest(pp.request) == pp.digest, InvalidMessage)]
    case PrepareMsg(p) =>
      [Test(p.view == st.view, InvalidView),
       Test(st.lowWatermark < p.sequence <= st.highWatermark, InvalidSequence),
       Test(env.verify(p.replicaId, PrepareData(p.view, p.sequence, p.digest), p.signature), InvalidSignature),
       Test(p.sequence in st.log && st.log[p.sequence].prePrepare.Some? ==>
              st.log[p.sequence].prePrepare.value.digest == p.digest, InvalidMessage)]
    case CommitMsg(c) =>
      [Test(c.view == st.view, InvalidView),
       Test(st.lowWatermark < c.sequence <= st.highWatermark, InvalidSequence),
       Test(env.verify(c.replicaId, CommitData(c.view, c.sequence, c.digest), c.signature), InvalidSignature),
       Test(c.sequence in st.log && st.log[c.sequence].digest.Some? ==>
              st.log[c.sequence].digest.value == c.digest, InvalidMessage)]
    case _ => []
  }

  ghost predicate Passes(tests: seq<Test>) {
    forall i :: 0 <= i < |tests| ==> tests[i].passes
  }

  /** Test `i` is the first that fails. */
  ghost predicate FailsAt(tests: seq<Test>, i: nat) {
    i < |tests| && !tests[i].passes && forall j: nat :: j < i ==> tests[j].passes
  }

  /** The answer to a message: the error of the first test that fails, or none. */
  ghost predicate Answers(tests: seq<Test>, r: Outcome) {
    match r
    case Done => Passes(tests)
    case Failed(error) => exists i: nat :: FailsAt(tests, i) && tests[i].error == error
  }

  /** The first test that fails, if any does. */
  lemma FirstFailing(tests: seq<Test>) returns (i: nat)
    ensures i <= |tests| && if i < |tests| then FailsAt(tests, i) else Passes(tests)
  {
    i := 0;
    while i < |tests| && tests[i].passes
      invariant i <= |tests| && forall j :: 0 <= j < i ==> tests[j].passes
    {
      i := i + 1;
    }
  }

  /** There is exactly one answer. */
  lemma OneAnswer(tests: seq<Test>) returns (r: Outcome)
    ensures Answers(tests, r) && forall r' :: Answers(tests, r') ==> r' == r
  {
    var i := FirstFailing(tests);
    r := if i < |tests| then Failed(tests[i].error) else Done;
    forall r' | Answers(tests, r') ensures r' == r {
      if r'.Failed? {
        var j: nat :| FailsAt(tests, j) && tests[j].error == r'.error;
        assert j == i;
      }
    }
  }

  /** What a replica holds already is a message of the same sender for the same number. */
  predicate Held(st: State, m: Message) {
    match m
    case PrePrepareMsg(pp) => pp.sequence in st.log && st.log[pp.sequence].prePrepare.Some?
    case PrepareMsg(p) => p.sequence in st.log && p.replicaId in st.log[p.sequence].prepares
    case CommitMsg(c) => c.sequence in st.log && c.replicaId in st.log[c.sequence].commits
    case _ => false
  }

  /** A verdict and the tests agree: the error is the first one's that fails; what passes is
      ignored exactly if it is held already, and accepted otherwise. */
  ghost predicate Fits(env: Env, st: State, m: Message, v: Verdict)
    requires env.Valid()
  {
    && Answers(Tests(env, st, m), OutcomeOf(v))
    && (!v.Reject? ==> (v == Ignore <==> Held(st, m)))
  }

  lemma PrePrepareVerdict(env: Env, st: State, pp: PrePrepare)
    requires env.Valid()
    ensures Fits(env, st, PrePrepareMsg(pp), CheckPrePrepare(env, st, pp))
  {
    var tests := Tests(env, st, PrePrepareMsg(pp));
    var i := FirstFailing(tests);
    assert tests[0].error == InvalidView && tests[1].error == NotPrimary && tests[2].error == InvalidSequence;
    assert tests[3].error == InvalidSignature && tests[4].error == InvalidMessage && tests[5].error == InvalidMessage;
  }

  lemma PrepareVerdict(env: Env, st: State, p: Prepare)
    requires env.Valid()
    ensures Fits(env, st, PrepareMsg(p), CheckPrepare(env, st, p))
  {
    var tests := Tests(env, st, PrepareMsg(p));
    var i := FirstFailing(tests);
    assert tests[0].error == InvalidView && tests[1].error == InvalidSequence;
    assert tests[2].error == InvalidSignature && tests[3].error == InvalidMessage;
  }

  lemma CommitVerdict(env: Env, st: State, c: Commit)
    requires env.Valid()
    ensures Fits(env, st, CommitMsg(c), CheckCommit(env, st, c))
  {
    var tests := Tests(env, st, CommitMsg(c));
    var i := FirstFailing(tests);
    assert tests[0].error == InvalidView && tests[1].error == InvalidSequence;
    assert tests[2].error == InvalidSignature && tests[3].error == InvalidMessage;
  }

  function RequestOutcome(env: Env, st: State, r: Request): Outcome
    requires env.Valid()
  {
    if ClassifyRequest(env, st, r) == AboveWindow then Failed(InvalidSequence) else Done
  }

  /** Only a request that finds the window full is refused. */
  lemma RequestVerdict(env: Env, st: State, r: Request)
    requires env.Valid()
    ensures Answers(Tests(env, st, RequestMsg(r)), RequestOutcome(env, st, r))
  {
    var tests := Tests(env, st, RequestMsg(r));
    var i := FirstFailing(tests);
    assert tests[0].error == InvalidSequence;
  }

  /** What the handler of a message returns. */
  function OutcomeFor(env: Env, st: State, m: Message): Outcome
    requires env.Valid()
  {
    match m
    case RequestMsg(r) => RequestOutcome(env, st, r)
    case PrePrepareMsg(pp) => OutcomeOf(CheckPrePrepare(env, st, pp))
    case PrepareMsg(p) => OutcomeOf(CheckPrepare(env, st, p))
    case CommitMsg(c) => OutcomeOf(CheckCommit(env, st, c))
    case _ => Done
  }

  /** Every handler answers by the tests of its message. */
  lemma AnswerTo(env: Env, st: State, m: Message)
    requires env.Valid()
    ensures Answers(Tests(env, st, m), OutcomeFor(env, st, m))
  {
    hide CheckPrePrepare, CheckPrepare, CheckCommit, ClassifyRequest;
    match m
    case RequestMsg(r) => RequestVerdict(env, st, r);
    case PrePrepareMsg(pp) => PrePrepareVerdict(env, st, pp);
    case PrepareMsg(p) => PrepareVerdict(env, st, p);
    case CommitMsg(c) => CommitVerdict(env, st, c);
    case _ =>
  }

  // ---------- What an answer says about the state ----------

  lemma NoDuplicateErrors(env: Env, st: State, m: Message)
    requires env.Valid()
    ensures OutcomeFor(env, st, m) != Failed(DuplicateMessage)
    ensures m.RequestMsg? ==> OutcomeFor(env, st, m) in {Done, Failed(InvalidSequence)}
  {
  }

  /** A message that is answered with an error changes nothing but the record of arrivals, except
      that a request that finds the window full uses up a number. */
  lemma ErrorsChangeNothing(env: Env, n: Node, m: Message, error: PbftError)
    requires env.Valid() && Answers(Tests(env, n.st, m), Failed(error))
    ensures var n' := Step(env, n, EventOf(m));
            n' == n.(arrived := n'.arrived,
                     st := n.st.(sequence := if m.RequestMsg? then n.st.sequence + 1 else n.st.sequence))
    ensures error != DuplicateMessage && (m.RequestMsg? ==> error == InvalidSequence)
  {
    hide Tests, Answers, CheckPrePrepare, CheckPrepare, CheckCommit;
    AnswerTo(env, n.st, m);
    var r := OneAnswer(Tests(env, n.st, m));
    NoDuplicateErrors(env, n.st, m);
  }
}
