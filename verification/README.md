# A verified model of the PBFT engine

This project models the consensus engine of `src/pbft.rs`: a four-phase protocol per sequence
number (pre-prepare, prepare, commit, execute), quorum counting, checkpoints with watermarks and
garbage collection, deduplicated execution, and view-change bookkeeping. The protocol is that of
Castro and Liskov, "Practical Byzantine Fault Tolerance" (OSDI 1999), sections 4.2 to 4.5; what is
modelled is what the code does, which differs from the paper.

Check it with `dafny verify dfyconfig.toml`.

## How it is built

* **Replica layer.** `Replica.Replica` is the object with the fields of `PbftState` and one method
  for each handler. A method is one scope of the state lock with the sends that follow it; what a
  handler does after it has dropped the lock (an advance, the delivery of a committed request, a
  checkpoint) is queued as a task, so that it may interleave with the scopes of other handlers.
  Every method is proved equal to a pure step of module `Protocol`. `Moves` says what each step
  does to the log, the signatures and the output channels; `Invariant` and `Records` are what
  every step keeps. `Verdicts` lists the tests a message has to pass, in order, and `Effects` what
  each event makes a replica send, sign and queue; both are written without the functions of
  `Protocol`, which are proved to agree with them.
* **System layer.** In `Runs` the correct replicas of a cluster take steps in any order. The network
  and the faulty replicas are not modelled as such: any message may be handed to any replica at
  any time, any number of times. What a theorem assumes of them is a set of *rules* on the steps
  of a run, named in `Runs.Rule`. Signatures are an abstract predicate, digests an abstract
  function. `Unforgeable` says that a signature that verifies for a correct replica was made by it;
  it is assumed for the three handlers that verify signatures. Checkpoint, view-change and new-view
  messages are not verified by the code, and voters are not looked up in the replica list. Rules
  on what is *counted* (`MatchingMembers`, `MemberQuorums`, `AuthenticQuorums`) say what has to be
  true at the branches that count; rules on everything that is *received* (`MemberVoters`,
  `EarlyVotesMatch`, `AuthenticCheckpoints`) imply them, and give corollaries.
* **Theorems** are about every run, with any number of replicas and messages. They build on each
  other in the order `Rotation`, `Guarantees`, `Requests`, `CheckpointFlow`, `Windows`, `ViewChanges`,
  `History`, `Signing`, `EarlyVotes`, `RecordedVotes`, `Agreement`, `HonestPrimary`, `Certificates`,
  `Checkpoints`, `Completion`, `Progress`, `Finishing`, `DeliveryOrder`, `ExecutionOrder`.
* **Counterexamples** are runs, for every cluster of four with one faulty replica, in which a theorem
  fails though all its rules but one are kept. For agreement they are about `MatchingMembers` (by
  way of digests, and by way of senders) and `ConsistentAssignments`, for checkpoint validity about
  `AuthenticQuorums`. `Unforgeable` and the bound on faults have none: they are what signatures and
  the number f are for. `Counterexamples.NewViewBreaksAgreement` does without `NoNewView`.

## Where the code differs from its documentation

* `DOCUMENTATION.md:77` has two quorums of 2f+1 always overlap in a correct node. With
  f = (n-1)/3 this holds exactly for n = 3f+1 (`Quorums.QuorumsShareCorrectMember`).
* `DOCUMENTATION.md:1181` has a prepared replica know that every other correct replica prepares the
  same request. Prepares and commits that come before the pre-prepare are stored whatever their
  digest (`src/pbft.rs:443-447`, `564-572`), voters are not looked up in the replica list, and
  votes are counted without looking at digests or senders (`src/pbft.rs:492`, `616`), so two correct
  replicas can commit different requests (`Counterexamples.EarlyVotesBreakAgreement`,
  `Counterexamples.OutsidersBreakAgreement`). A step leaves a prepared instance without prepares
  of a quorum of members for its digest exactly when it counts prepares of which fewer than a
  quorum are members' for that digest (`EarlyVotes.MatchingExactlyIfCounted`). In runs without such a step, and with consistent
  assignments (next item), there is agreement, whatever other votes are recorded
  (`Agreement.AgreementInAllViews`).
* A new primary's counter is not advanced, and `handle_request` overwrites the instance of the
  number it takes (`src/pbft.rs:249-257`, `290-296`). A number committed in one view can be
  committed again, with another request, in the next (`Counterexamples.NewViewBreaksAgreement`).
  A replica comes to sign two digests for one number exactly when, as the primary, it assigns the
  number though it has signed another digest for it (`Signing.OneDigestEverExactly`); above the
  window's bottom it could tell from its log (`Signing.AssignsAnotherIsTestable`). In runs without
  such a step there is agreement in all views. `History.ForwardUnlessRestarted` says exactly when an
  assignment undoes an instance. Three tests that the code lacks give agreement in all views: of a
  number before it is assigned, and of the pre-prepare and the voter before a prepare is taken
  (`Agreement.AgreementWithGuards`).
* `DOCUMENTATION.md:196`, and line 279 of the repository's own README, have requests executed in
  sequence number order. The code executes in the order in which numbers are committed, which is up
  to the order in which messages arrive (`ExecutionOrder.ExecutionFollowsArrival`). What is
  missing is a test where a committed number is executed: `ExecutionOrder.OrderSafeUnlessOvertaking`
  says exactly which, and `ExecutionOrder.InOrderUnlessOvertaking` that it is enough in every run.
* Checkpoints are not verified and are counted as they come (`src/pbft.rs:697-707`), so a checkpoint
  can become stable that nobody has executed (`Counterexamples.ClaimsBecomeStable`). A step makes
  such a checkpoint stable exactly when it counts claims without authentic ones of a quorum of
  members among them (`Checkpoints.AuthenticExactlyIfCounted`); in runs without such a step stable
  checkpoints are executed by f+1 correct replicas (`Checkpoints.StableCheckpointIsExecuted`).
* Line 25 of the repository's own README has f faulty nodes of 3f+1 tolerated. A replica does not file
  its own checkpoint (`src/pbft.rs:684-685`), and broadcasts do not come back, so with f silent members
  nobody is ever handed more than 2f checkpoints for a number: no window moves, and nothing beyond the
  first two intervals is proposed, committed or executed (`Windows.SilentFaultsFreezeWindow`). The
  window of a replica is where 2f+1 senders have claimed it to be, always
  (`Windows.StableIsHighestClaimed`).
* `DOCUMENTATION.md:228` has the new primary send the new view once view changes have come. It counts
  votes when it is handed one, not when it files its own (`src/pbft.rs:746-755`, `837-842`); if its own
  vote is the one that completes the quorum, nothing is announced (`ViewChanges.OwnVoteGoesUncounted`).
  `ViewChanges.AnnouncedUnlessOwnVoteCompletes` says exactly when a quorum goes unannounced. A new
  primary does not enter the view it announces (`ViewChanges.ViewIsHighestHeard`).
* `DOCUMENTATION.md:240` has a view change carry the last committed sequence number. It carries the
  counter for assignments (`src/pbft.rs:828`), which is 0 at a replica that was never primary
  (`ViewChanges.TimeoutStep`).

## Model

| member | source | states |
|---|---|---|
| Quorums.LargestFaultBound | src/pbft.rs:105-107 | The f of n replicas is the largest with 3f+1 <= n |
| Quorums.CorrectReplicasFormQuorum | src/pbft.rs:105-118 | For every n >= 1 the n - f correct replicas alone reach a quorum |
| Quorums.OverlapSize | src/pbft.rs:116-118 | Two member sets share at least as many members as their sizes exceed the membership: quorums share 2 * quorum - n |
| Quorums.ThinOverlap | src/pbft.rs:105-118 | For every n with n mod 3 != 1 there are two quorums that share f members only, built explicitly |
| Quorums.QuorumsShareCorrectMember | src/pbft.rs:105-118 | Two quorums always share more than f members if and only if n mod 3 = 1 |
| Quorums.CommonCorrectMember | src/pbft.rs:105-118 | With n = 3f+1 and at most f faulty members, any two sets of quorum size have a correct member in common |
| Encoding.DecimalReads | src/pbft.rs:265 | A printed number is digits without a leading zero, unless it is 0, and their value by character arithmetic in base 10 is the number |
| Encoding.NumeralPrints | src/pbft.rs:265 | Each such string of digits is what its value is printed as |
| Encoding.ItemsRead | src/pbft.rs:265 | The printed items of a byte list, cut at commas and blanks, read as the list |
| Encoding.DebugBytesRead | src/pbft.rs:503 | A printed byte array followed by any text reads as the array and the text |
| Encoding.DecodeEncode | src/pbft.rs:265-825 | Every signed string, cut at its dashes and brackets, gives back view, number and digest bytes in the order of the source, and its family by the literal suffixes `-commit`, `new-view` and `view-change` |
| Encoding.DecodesExactly | src/pbft.rs:265-825 | And nothing else reads as a datum: a text reads as a datum if and only if it is the string signed for it |
| Encoding.EncodeInjective | src/pbft.rs:265-825 | The strings signed for pre-prepares and prepares (265, 278, 336), commits (503, 547), checkpoints (673), new views (765) and view changes (825) are injective in their numbers and digest bytes, and the five families are disjoint |
| Encoding.Printed | src/pbft.rs:265-825 | One signed string of each family, literally |
| Signatures.StringsStandForData | src/pbft.rs:336-347 | If nobody else can sign strings for a correct replica, a message is genuine on the level of strings if and only if it is on the level of the data they print: no signature passes for another purpose, number, view or digest |
| Rotation.FirstRound | src/pbft.rs:177-180 | The first views have the replicas of the list in order as primaries, and every round after them too |
| Rotation.NextPrimary | src/pbft.rs:177-180 | The primary of the next view is the next replica of the list, the first one after the last |
| Rotation.EveryonesTurn | src/pbft.rs:177-180 | Each replica is the primary of exactly one of any n consecutive views |
| Rotation.CorrectPrimaryComes | src/pbft.rs:177-180 | With at most f faulty members one of any f+1 consecutive views has a correct primary |
| Verdicts.PrePrepareVerdict | src/pbft.rs:318-363 | A pre-prepare is rejected with the error of the first test that fails, in this order: view, primary, window, signature, conflict, digest; else it is ignored if one is held, and accepted otherwise |
| Verdicts.PrepareVerdict | src/pbft.rs:415-452 | The same for prepares: view, window, signature, digest of the pre-prepare; ignored if the sender's is held |
| Verdicts.CommitVerdict | src/pbft.rs:536-577 | The same for commits: view, window, signature, recorded digest; ignored if the sender's is held |
| Verdicts.OneAnswer | src/pbft.rs:30-44 | The answer to a message, which every handler gives, is determined by its tests |
| Verdicts.ErrorsChangeNothing | src/pbft.rs:227-594 | A message answered with an error changes nothing, except that a request refused for a full window uses up a number; that is the only error of a request, and duplicates are never an error |
| Effects.StepSpeaks | src/pbft.rs:227-849 | Exactly what each event makes a replica broadcast or forward, in order, and that it signs for exactly the messages it sends |
| Effects.StepQueues | src/pbft.rs:308-659 | Exactly which follow-ups each event leaves pending, and that one that is run is done |
| Replica.Replica.constructor | src/pbft.rs:155-174 | A new replica is in view 0 with an empty log and the window (0, 2 * interval], and satisfies the invariant |
| Replica.Replica.OpenInstance | src/pbft.rs:289-296 | Records request, digest, pre-prepare, phase and own prepare in a new or existing instance, whose view and votes stay, and nothing else |
| Replica.Replica.HandleRequest | src/pbft.rs:227-311 | Forwards at a backup, ignores executed digests, else takes the next number even if it is above the window, and in the window signs, records and broadcasts the pre-prepare and a prepare; error exactly above the window |
| Replica.Replica.HandlePrePrepare | src/pbft.rs:314-408 | The new state and the error of every branch: view, primary, window, signature, conflicting or repeated pre-prepare, digest; else records it, signs and broadcasts a prepare |
| Replica.Replica.HandlePrepare | src/pbft.rs:411-469 | The new state and the error of every branch; a vote before the pre-prepare is stored whatever its digest, the first of each sender only |
| Replica.Replica.CertifyInstance | src/pbft.rs:498-526 | Signs, records and broadcasts the replica's own commit for the recorded digest, moves the instance to Prepared and queues the next advance |
| Replica.Replica.TryAdvanceToPrepared | src/pbft.rs:472-529 | Nothing without a pre-prepare in phase PrePrepared and a quorum of prepares, else Prepared with own signed, recorded and broadcast commit; no unwrap fails |
| Replica.Replica.HandleCommit | src/pbft.rs:532-594 | The new state and the error of every branch; a commit before the digest is known is stored whatever its digest |
| Replica.Replica.CommitInstance | src/pbft.rs:626-647 | Moves the instance to Committed, and marks and queues its request exactly if its digest was not executed before |
| Replica.Replica.TryAdvanceToCommitted | src/pbft.rs:597-648 | Nothing unless Prepared with a quorum of commits, else Committed, and the request handed on exactly if its digest was not executed before |
| Replica.Replica.SendCommitted | src/pbft.rs:650-656 | The request goes to the application, and a checkpoint is due to be considered |
| Replica.Replica.TakeCheckpoint | src/pbft.rs:662-688 | Exactly at multiples of the interval a signed checkpoint is broadcast, and not recorded by its sender |
| Replica.Replica.RecordCheckpoint | src/pbft.rs:694-701 | Checkpoints are filed by number and sender, whoever sends them, at any number |
| Replica.Replica.CollectGarbage | src/pbft.rs:713-717 | Log entries up to the low watermark and checkpoints before the stable one are dropped, all others kept |
| Replica.Replica.MoveWindow | src/pbft.rs:709-717 | Both watermarks follow the stable checkpoint; log entries up to it and checkpoints before it are dropped, all others kept |
| Replica.Replica.HandleCheckpoint | src/pbft.rs:691-721 | The window moves exactly when a quorum of senders is reached at a number above the stable checkpoint |
| Replica.Replica.FileViewChange | src/pbft.rs:740-744 | View changes are filed by view and sender |
| Replica.Replica.HandleViewChange | src/pbft.rs:724-788 | Files votes for later views; with a quorum, and as the primary of that view, signs and broadcasts a new view with all its votes, without entering it |
| Replica.Replica.HandleNewView | src/pbft.rs:791-810 | Enters exactly a later view, leaves view change, and keeps the votes for still later views only |
| Replica.Replica.StartViewChange | src/pbft.rs:813-849 | Unless changing view already, signs, files and broadcasts a vote for the next view |
| Replica.Replica.OnTimeout | src/pbft.rs:852-865 | A timeout is a step of the model and keeps the invariant |
| Replica.Replica.ProcessMessage | src/pbft.rs:868-879 | Handling any message is the step of the model for it, keeps the invariant, and answers with the error of the first test of the message that fails |
| Replica.Replica.RunPending | src/pbft.rs:522-526 | Running any queued continuation is the step of the model for it, and keeps the invariant; the preconditions of the advances are met |
| Moves.StepMoves | src/pbft.rs:227-849 | Every step makes one of seven moves on the log; for each it says who may cause it, under which test, and what becomes of every field, signature, broadcast, delivery and pending task |
| Moves.NewVotes | src/pbft.rs:298-305 | Pre-prepares and prepares are broadcast exactly when an instance is opened, commits exactly when it is prepared |
| Records.InvStep | src/pbft.rs:227-849 | Every step keeps the whole replica invariant, whatever message it is handed |
| Invariant.LogOkStep | src/pbft.rs:188-193 | Every step keeps: request, digest and pre-prepare are set together and agree, Idle exactly without them, Prepared has a prepare quorum and own votes, Committed a commit quorum, votes are filed under their sender and number |
| Invariant.NoLostAdvanceStep | src/pbft.rs:460-466 | Every step keeps: an instance with the votes to advance has its advance pending |
| Runs.ReplicaInvariant | src/pbft.rs:208-219 | In every run, with no rule assumed, every correct replica satisfies the replica invariant |
| Guarantees.UnwrapsSucceed | src/pbft.rs:498-515 | In every reachable state an instance with a pre-prepare, or past Idle, has a digest to unwrap, that of its request |
| Guarantees.PhaseCatchesUp | src/pbft.rs:460-466 | The phase is never ahead of what the recorded messages call for, and if it is behind then an advance is pending: with none pending it is exactly the function of pre-prepare, prepares and commits |
| Guarantees.OwnVotesInRuns | src/pbft.rs:289-526 | In every run a pre-prepared instance holds the replica's own prepare for its pre-prepare, a prepared one its own commit, signed and broadcast as they are; a vote received under its own name does not stay in their place |
| Guarantees.ExecutesAtMostOnce | src/pbft.rs:597-652 | In every run no two requests handed to the application share a digest, and the executed digests are exactly those handed on or about to be |
| Guarantees.FiledVotesDistinct | src/pbft.rs:759-763 | View changes filed by sender are as many as their senders, so a quorum of entries is a quorum of votes in the announcement |
| Guarantees.NewViewFromVotes | src/pbft.rs:724-788 | What a replica announces on a view change is above its view, and carries a quorum of distinct senders' votes for that view, of which it is the primary |
| Guarantees.NewViewsJustifiedInRuns | src/pbft.rs:724-788 | In every run, each new view a correct replica has broadcast is by its primary with a quorum of distinct senders' votes for it, and was above the replica's view in the step that broadcast it |
| Guarantees.ViewChangeBookkeeping | src/pbft.rs:791-849 | The view never decreases; kept votes are for later views, filed by view and sender; a replica in view change holds its own vote for the next view |
| Requests.RequestStep | src/pbft.rs:227-311 | A request is forwarded by a backup, once; at the primary it changes nothing if its digest is executed, takes up a number if the window is full, and else is signed, recorded, broadcast with the own prepare, and left to be advanced, with nothing else changed |
| Requests.ProposesExactly | src/pbft.rs:242-286 | A step broadcasts a pre-prepare if and only if it is a request at the primary of the view, for a digest not executed, and the next number is in the window; it carries that number |
| Requests.ExecutedIsNotProposed | src/pbft.rs:242-246 | From any point of any run on, what a replica has executed by then it never proposes again, in whatever view; and as the primary it is left as it is by a request for it |
| Requests.ProposalsRise | src/pbft.rs:249-286 | In every run a replica's pre-prepares are its own, made as primary, signed, for their requests, and with strictly rising numbers: it proposes no number twice, across views |
| CheckpointFlow.CheckpointsConserved | src/pbft.rs:651-688 | In every run, at each multiple of the interval, deliveries are as many as checkpoints broadcast and attempts pending; every checkpoint broadcast is own, signed, over 32 zero bytes, and for an executed multiple |
| CheckpointFlow.ExecutionIsClaimed | src/pbft.rs:651-688 | So a replica that has executed at a multiple and has no attempt pending has broadcast its checkpoint for it, with a signature that verifies |
| Windows.CheckpointStep | src/pbft.rs:691-721 | A checkpoint is filed by number and sender and changes nothing else, unless it completes a quorum of senders above the stable checkpoint: then the window moves there, and exactly what is behind it is dropped |
| Windows.StableIsHighestClaimed | src/pbft.rs:691-721 | In every run the stable checkpoint is the highest number that 2f+1 senders have claimed to the replica, 0 if there is none, and all claims from there on are on file |
| Windows.DefaultWindow | src/pbft.rs:105-118 | With the configuration made for n replicas, f is the largest with 3f+1 <= n, windows hold 200 numbers and checkpoints are for multiples of 100 |
| Windows.SameClaimsSameWindow | src/pbft.rs:691-721 | So the window depends on nothing but which senders have claimed which numbers: not on order, repetition or anything else |
| Windows.ExecutionsMoveWindow | src/pbft.rs:651-721 | If 2f+1 correct replicas have executed at a multiple of the interval, have no attempt pending, and their checkpoints have been handed to a correct replica, its stable checkpoint is at least there |
| Windows.SilentFaultsFreezeWindow | src/pbft.rs:684-718 | If there are at most 2f+1 correct replicas and one of them is handed the checkpoints of the others only, its window never moves, and it proposes, commits and executes nothing beyond the first two intervals |
| ViewChanges.VoteStep | src/pbft.rs:724-788 | A vote for a later view is filed; if the replica is the primary of that view and holds votes of 2f+1 senders now, it broadcasts exactly one signed announcement, with exactly the votes on file; otherwise it sends and signs nothing |
| ViewChanges.NewViewStep | src/pbft.rs:791-810 | An announcement of a later view is followed, ends the view change, and leaves exactly the votes for views that are later still |
| ViewChanges.TimeoutStep | src/pbft.rs:813-849 | A timeout makes a replica not in view change sign, file and broadcast one vote for the next view, with its counter; nothing is counted |
| ViewChanges.VotesInRuns | src/pbft.rs:813-849 | In every run a replica's votes are its own, signed and for rising views, so at most one for each; and it is in view change if and only if it has voted for the next view |
| ViewChanges.ViewIsHighestHeard | src/pbft.rs:791-810 | In every run a replica is in the highest view announced to it, 0 if none: a new primary does not enter its own view |
| ViewChanges.BallotsInRuns | src/pbft.rs:733-744 | In every run the votes on file for a later view are those handed over, and the replica's own if it has voted |
| ViewChanges.AnnouncedExactlyIfCounted | src/pbft.rs:746-785 | In every run a replica has announced a view if and only if, as its primary, it was handed a vote for it above its own view that left it with votes of 2f+1 senders |
| ViewChanges.QuorumIsAnnounced | src/pbft.rs:746-785 | Whoever is the primary of a view and has been handed votes of 2f+1 senders for it has announced it, unless it has got to that view |
| ViewChanges.VotesBringNewView | src/pbft.rs:724-849 | If 2f+1 correct replicas have voted for a view, their votes have been handed to its correct primary, and what that has broadcast to a correct replica, then that replica is in the view or a later one |
| ViewChanges.VotesCastInRuns | src/pbft.rs:733-785 | In every run all votes on file and in announcements were handed over or are the replica's own, and announcements are signed |
| ViewChanges.AnnouncedUnlessOwnVoteCompletes | src/pbft.rs:746-842 | Of the later views a replica is primary of, those announced are those with a quorum on file: a step keeps this if and only if it is not the timeout by which its own vote completes the quorum |
| ViewChanges.AnnouncedUnlessOwnVoteCompletesInRuns | src/pbft.rs:746-842 | So in every run without such a timeout |
| ViewChanges.OwnVoteGoesUncounted | src/pbft.rs:813-849 | A run in which the primary of view 1 holds a quorum for it, its own vote last, and has announced nothing |
| History.ForwardUnlessRestarted | src/pbft.rs:249-296 | A step moves every instance forward and loses none above the window if and only if it is not an assignment of a number in use or discarded |
| History.NeverPrimaryNeverRestarts | src/pbft.rs:248-251 | A replica whose counter is 0 has never made such an assignment |
| History.GuardedNeverRestarts | src/pbft.rs:249-257 | Nor has a primary that assigns only numbers in its window it holds no pre-prepare for |
| Guarantees.RisesInRuns | src/pbft.rs:709-801 | Between any two points of any run, with no rule assumed, also at a primary that assigns numbers anew: view, counter, stable checkpoint and both watermarks never decrease, and executed digests stay executed |
| History.ForwardOnly | src/pbft.rs:421-716 | Without such assignments, between any two points of a run phases, digests and voters only move forward, and discarded numbers never start again |
| History.CommittedForGood | src/pbft.rs:597-648 | At such a replica an instance once committed stays committed with its digest for as long as it is kept, and is dropped only behind the window |
| History.OneCommitOneDecision | src/pbft.rs:488-640 | And a replica broadcasts at most one commit for a number and commits it at most once, across garbage collection |
| History.LogIsBounded | src/pbft.rs:707-718 | And its log lies in the window and has at most 2 * interval instances |
| Signing.OneDigestPerSlot | src/pbft.rs:329-394 | Over any run, with checkpoints and new views, a correct replica signs one digest only at a view and number |
| Signing.OneDigestEverExactly | src/pbft.rs:249-296 | A replica that has signed one digest for each number still has after a step if and only if the step does not assign a number to a request though another digest has been signed for it |
| Signing.OneDigestEverInRuns | src/pbft.rs:249-357 | In runs without such an assignment a correct replica signs one digest only at a number, whatever the view |
| Signing.AssignsAnotherIsTestable | src/pbft.rs:249-296 | Above the low watermark an assignment is such a one if and only if a pre-prepare with another digest is recorded for the next number |
| Signing.FreshAreConsistent | src/pbft.rs:249-251 | Assigning only numbers nothing has been signed for rules it out |
| Signing.UnsignedIsTestable | src/pbft.rs:349-357 | Above the low watermark nothing was signed for a number if and only if no pre-prepare is recorded for it |
| Signing.NoNewViewsAssignFresh | src/pbft.rs:249-251 | Without new views all assignments are fresh |
| Signing.GuardedAssignmentsAreFresh | src/pbft.rs:249-257 | Assignments in the window of numbers without a pre-prepare are fresh in any view |
| EarlyVotes.MatchingExactlyIfCounted | src/pbft.rs:488-517 | A step keeps every Prepared or Committed instance backed by recorded prepares of a quorum of members for its own digest if and only if it does not certify an instance in which fewer than a quorum of the counted prepares are members' for that digest |
| EarlyVotes.UniformExactlyIfFitting | src/pbft.rs:388-394 | A step leaves all recorded prepares for the recorded digests if and only if it does not open an instance over another replica's prepare for another digest |
| EarlyVotes.UniformInRuns | src/pbft.rs:388-447 | So in runs in which no such instance is opened all recorded prepares are for the recorded digests |
| EarlyVotes.EarlyVotesCount | src/pbft.rs:443-447 | If no instance is ever opened over such a prepare then all prepares ever counted are for the digest they are counted for |
| EarlyVotes.LateVotesMatch | src/pbft.rs:442-447 | If prepares are taken only with the pre-prepare at hand, and assignments are fresh, no such instance is ever opened |
| Agreement.AgreementInAllViews | src/pbft.rs:313-659 | n = 3f+1, at most f faulty, any primaries and views: if among the prepares that are counted are those of a quorum of members for the digest they are counted for, and no number is assigned to a second digest, no two correct replicas ever prepare, commit or execute different digests at one number, whatever other votes, of whatever senders, are recorded |
| Agreement.AgreementAmongMembers | src/pbft.rs:313-659 | In particular if votes are taken from members only, a quorum of the counted prepares match and assignments are fresh |
| Agreement.AgreementWithoutMisfits | src/pbft.rs:388-394 | In particular if no instance is opened over another replica's prepare for another digest |
| Agreement.AgreementInOneView | src/pbft.rs:313-659 | In particular with a faulty primary and no new view, if prepares are taken only with the pre-prepare at hand |
| Agreement.AgreementWithGuards | src/pbft.rs:249-659 | And in all views, if moreover primaries assign only numbers in their window they hold no pre-prepare for: two tests the code lacks |
| Agreement.CommitsCertifiedInRuns | src/pbft.rs:472-529 | If a quorum of the prepares that are counted are members' and match, every digest a correct replica commits to has been signed by whoever is correct in some quorum of members |
| HonestPrimary.PrimaryFollowedInRuns | src/pbft.rs:324-347 | With no new view every prepare a correct replica signs is for what the primary signed |
| HonestPrimary.RecordedIsAssigned | src/pbft.rs:248-394 | With a correct primary and no new view, any number of faulty backups and any network: every digest a correct replica ever records, prepares, commits or executes at a number is the only one the primary broadcast for it, after garbage collection as well |
| HonestPrimary.AgreementWithCorrectPrimary | src/pbft.rs:248-394 | So all correct replicas agree on every number, early mismatched votes or not, for every cluster size |
| RecordedVotes.VotesVouchedInRuns | src/pbft.rs:426-455 | Every prepare and commit of a correct replica that is recorded anywhere was signed by it |
| RecordedVotes.VotesOfMembersInRuns | src/pbft.rs:439-455 | If votes are taken from members only then all recorded ones are members' |
| RecordedVotes.MembersCount | src/pbft.rs:492-616 | Then every quorum that is counted is one of members, and one of matching members if it matches |
| Certificates.QuorumOfPrepares | src/pbft.rs:492-517 | If a quorum of the prepares that are counted are members', among them are those of f+1 correct replicas for the digest, which have signed them |
| Certificates.QuorumOfCommits | src/pbft.rs:616-640 | If a quorum of the commits that are counted are members', f+1 correct replicas have signed commits for the digest |
| Certificates.CommitCertificate | src/pbft.rs:472-648 | With a correct primary, at most f faulty, and quorums of members among the votes that are counted: a decision at (s, d) means f+1 correct replicas have prepared (s, d), each having counted a quorum of prepares with those of f+1 correct replicas for d, signed by them, among them; this is on record after the instance is discarded, and until then the replica still holds prepares of theirs for d |
| Certificates.CommitCertificateOfMembers | src/pbft.rs:472-648 | In particular if votes are taken from members only |
| Checkpoints.StableProvenInRuns | src/pbft.rs:704-711 | In every run a correct replica's stable checkpoint is on record with the checkpoints that were filed for it when it became stable |
| Checkpoints.AuthenticExactlyIfCounted | src/pbft.rs:704-711 | A step keeps every checkpoint that has become stable backed by authentic claims of a quorum of members if and only if it does not count claims without such a quorum among them |
| Checkpoints.StableCheckpointIsExecuted | src/pbft.rs:651-718 | With at most f faulty, in runs without such a step, a stable checkpoint s > 0 is a multiple of the interval and f+1 correct replicas executed a request at s, whatever other claims are received |
| Checkpoints.AuthenticCheckpointsCount | src/pbft.rs:697-707 | If all checkpoints received are authentic and from members there is no such step |
| Checkpoints.WindowBehindPrimary | src/pbft.rs:249-257 | With a correct primary and no new view no correct replica's low watermark is above the primary's counter |
| Checkpoints.LogStaysInWindow | src/pbft.rs:707-718 | So every log key lies in the window, at the primary too |
| Completion.EveryoneHolds | src/pbft.rs:314-408 | Once the pre-prepare is delivered every correct replica holds the assigned digest |
| Completion.EveryonePrepares | src/pbft.rs:410-529 | Once the prepares are too and nothing is pending, every correct replica is Prepared |
| Completion.EveryoneCommits | src/pbft.rs:227-659 | With a correct primary and a quorum of correct replicas: when messages among correct replicas about an assigned number above all checkpoints are delivered and no advance is pending, every correct replica has committed the assigned digest and has it in `executed`, whatever faulty backups send |
| Progress.BroadcastsAreTraffic | src/pbft.rs:298-305 | All that correct replicas ever broadcast about an issued number is its pre-prepare and one prepare and one commit each, for its digest |
| Progress.DeliveryIsUseful | src/pbft.rs:314-594 | Delivering an outstanding message about the number takes it off the outstanding ones for good |
| Progress.DeliveriesBounded | src/pbft.rs:227-659 | In every run at most h * (1 + 2h) deliveries about a number are useful, for h correct replicas |
| Progress.SomethingToDo | src/pbft.rs:227-659 | Until the number is committed everywhere, an advance is pending or a correct replica's broadcast is outstanding at another |
| Finishing.CompletesInTime | src/pbft.rs:227-659 | From every run with a correct primary, no new view, a quorum of correct replicas and an issued number in all windows, at most h * (1 + 2h) deliveries of broadcasts among the h correct replicas, besides pending advances, lead to a run in which every correct replica has committed the number and has its digest in `executed` |
| DeliveryOrder.CanonicalFrom | src/pbft.rs:314-659 | From any state that reflects the matching messages received so far, with whatever instances and votes, and after any sequence of matching messages and advances, the voters, digests and broadcasts are a function of the set of messages and the phases |
| DeliveryOrder.ExecutedIsCommitted | src/pbft.rs:597-648 | In such a state the executed digests are exactly those of committed instances |
| DeliveryOrder.DeliveryOrderIrrelevant | src/pbft.rs:314-659 | From any such state, any two orders of the same matching messages, with repetitions and any interleaving of advances, end with the same phases, voters, executed digests and broadcast votes |
| DeliveryOrder.DeliveryOrderIrrelevantOnEntering | src/pbft.rs:314-659 | In particular from an empty log |
| ExecutionOrder.OrderSafeUnlessOvertaking | src/pbft.rs:616-652 | Deliveries so far in order and at most one on its way, above the last: a step keeps this if and only if it does not execute a committed number while one is on its way or not above the last one handed on |
| ExecutionOrder.OvertakingLeadsToDisorder | src/pbft.rs:650-653 | After a step that does, handing on what is on its way breaks the order |
| ExecutionOrder.InOrderUnlessOvertaking | src/pbft.rs:597-653 | A replica that makes no such step hands requests on in sequence number order, in every run |
| ExecutionOrder.ExecutionFollowsArrival | src/pbft.rs:597-659 | A backup of four that is handed the same proper messages about two numbers in two orders executes number 1 before 2 one way and 2 before 1 the other, each number finished before the next is begun |
| Counterexamples.FirstCommitted | src/pbft.rs:472-648 | In a cluster of four with a faulty primary a correct backup commits on three votes, in a run that keeps all rules |
| Counterexamples.EarlyVotesBreakAgreement | src/pbft.rs:443-492 | From there another correct replica commits another request at the same number on early votes of members, in the first view, with consistent assignments: what is counted does not match |
| Counterexamples.OutsidersBreakAgreement | src/pbft.rs:430-455 | With one more identity that is no member a faulty primary makes two correct replicas commit different requests, in a run that keeps every rule but those on membership: what is counted matches, but is not members' |
| Counterexamples.ClaimsBecomeStable | src/pbft.rs:691-718 | Three unsigned claims make 7 a stable checkpoint of a correct replica though nobody has executed anything and 7 is no multiple of the interval, in a run that keeps every rule but those on checkpoints |
| Counterexamples.ForgottenNumberBreaksAgreement | src/pbft.rs:249-257 | A new primary whose window has passed a number it committed assigns it to another request and another correct replica commits to that, though all counted prepares are members' and match: assignments have to be consistent |
| Counterexamples.ReassignedNumberIsCommittedAgain | src/pbft.rs:249-296 | Every primary whose next number is committed already commits it a second time, with the next request, on the old votes alone |
| Counterexamples.NewViewBreaksAgreement | src/pbft.rs:791-810 | So agreement fails across views even without early votes |

## Left out

- The network (`src/network.rs`), the node and the command line (`src/node.rs`, `src/main.rs`) and `run.sh`: of them the model has only that broadcasts do not come back to their sender by themselves.
- Ed25519, SHA-256, hex and bincode: signatures and digests are abstract. Agreement is on digests; that different requests have different digests is not claimed (`Request::digest` hashes variable-length fields without their lengths), and digests may have any length.
- Time: `started_at`, `last_primary_activity` and `check_timeout` become a timeout that may come at any moment at any replica.
- `Reply` messages, log lines, channel capacity and cancellation: nothing depends on them.
- 64-bit wrap-around: numbers are unbounded, so `sequence += 1` and `checkpoint_seq + interval * 2` do not overflow.
- `PbftConfig` is not tied to the replica list: theorems that need n = 3f+1 or at most f faults say so; an empty replica list and a zero interval, on which the code panics, are excluded.
- Sends happen in the step that decides on them, not after the lock is dropped; since messages may be handed over at any later time, or never, only the order in one sender's output channel is affected.
- The list of view changes in a new view is a set: the code lists the values of a hash map, in no particular order.
- Agreement.AgreementInAllViews: the rules are sufficient, not necessary, for a whole run; the exact conditions are for a step, in EarlyVotes.MatchingExactlyIfCounted and Signing.OneDigestEverExactly, because a run that breaks a rule may still happen not to disagree. Counterexamples has runs that keep all of them but MatchingMembers and but ConsistentAssignments, and disagree.
- Checkpoints.StableCheckpointIsExecuted: the rule is sufficient, not necessary, for a whole run; the exact condition is for a step, in Checkpoints.AuthenticExactlyIfCounted, because what was counted without authentic claims may be executed, and claimed, later. It says that a request was executed at the number, not that states agree, because the code sends 32 zero bytes for the state digest and never compares digests.
- DeliveryOrder.DeliveryOrderIrrelevant: is about one backup in one view that takes no checkpoints, because the order does matter for early votes that do not match and for what a checkpoint discards.
- Finishing.CompletesInTime: says that a run can be completed in so many deliveries, not that the network makes them; the delivery to the application that follows execution is not counted.
- That stored checkpoints are never below the stable one: the code accepts late ones.
- What happens after a view change: a new primary carries nothing over and does not enter its own view, so nothing is resumed. That votes lead to an announcement, and it to the view, is in ViewChanges.
