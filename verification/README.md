# DDPoA consensus, modelled and proved in Dafny

Delegated Proof of Authority with Downgrade lets the members of a network elect, epoch by epoch, a
list of witnesses. The witnesses take turns producing blocks, a witness that fails its slot is
downgraded and replaced, and a node that falls behind catches up from its peers. This project models
the four parts that decide anything: the election, the epoch, the node, and the engine with its block
cache.

| file | what it holds |
|---|---|
| `Types.dfy`, `PyDict.dfy` | keys, blocks, digests; a dict that remembers insertion order |
| `Epoch.dfy`, `EpochRuns.dfy`, `EpochSeats.dfy` | the epoch object; fairness, length, replacement queue, restoring; who sits where while witnesses are downgraded |
| `Voting.dfy`, `VotingSystem.dfy`, `ElectionProperties.dfy` | tie-break, books of ballots and results, ballot drawing; what the election promises |
| `Node.dfy`, `NodeRuns.dfy`, `Agreement.dfy`, `QuorumBound.dfy` | the node object; runs of a node; agreement between nodes whose peers report one result each, and its sharp bound |
| `Thresholds.dfy`, `Reputation.dfy` | when a node votes, counts and decides, in numbers; what moves a peer's score |
| `OwnReports.dfy`, `ClosedPolls.dfy`, `Network.dfy`, `Validity.dfy` | when and how often a node reports; agreement among members that run the code; what is seated is the election |
| `Schedules.dfy`, `TieBreaks.dfy`, `LateBallots.dfy`, `Partition.dfy` | networks put together event by event, in which agreement fails |
| `Lineage.dfy` | epochs across a network in which members catch up from one another |
| `BlockCache.dfy`, `Chains.dfy` | the cache object; what its walks compute |
| `BootstrapTally.dfy`, `BootstrapQuorum.dfy` | choosing the head to catch up to; how many members stand behind it |
| `Engine.dfy`, `EngineClass.dfy`, `EngineLoop.dfy` | the engine's steps; the engine object that carries them out; its loop |
| `EngineCalls.dfy`, `EngineLedgers.dfy` | what each handler asks of the validator; slots and commits over whole runs |
| `EngineRuns.dfy`, `LostVerdict.dfy` | the validation counter, and a run in which it goes wrong |
| `CatchUp.dfy`, `EngineRefinement.dfy`, `CaughtUp.dfy` | catching up and forks; engine runs as node runs; agreement for engines that caught up |

Each object of the source that updates its fields is a class. Its methods are proved to move the
object's value (`State()`) the way a step function says, and the properties are proved of those
functions over whole runs. What the environment supplies comes in as parameters: the number of online
peers, the validator's chain head and block store, whether a timestamp lies in the future. Requests to
the validator are kept in a log. SHA-256 and Scottish STV are parameters too: the hash is any function
from text to numbers, STV any function from the bag of ballots and the peers to a list. Random draws
are nondeterministic choices. Blocks are well formed: an id names one block, and a block is numbered
one higher than its parent. A handler that raises keeps what it changed before, and a handler that never
returns (a downgrade with nobody queued) leaves the engine stuck.

The main results:

* `Network.MembersAgree`: among n members of whom fewer than a third are faulty, two members that run the
  code and reach an epoch by themselves seat one list, if no report timer fires for it and everybody is
  online when ballots and reports come in. `Validity.SeatedIsElection`: if nobody is faulty, that list is
  the election of all members' ballots. `OwnReports.ReportsExactly` and `OwnReports.ReportsAgainExactly`
  say exactly when a node reports, and when it does so again.
* Where the conditions fail, agreement does. `LateBallots.AgreementFails`: with timers, four members of
  whom none is faulty seat two lists, for any hash, STV and ballots for which the late ballot changes the
  election.
  `Partition.HalvesDisagree`: two halves of a network that see only themselves seat their own elections.
  `QuorumBound.DecisionsCanDiffer`: the bound on quorums in `Agreement.DecisionsAgree` is sharp.
* `EngineRefinement.EnginesAgree`: engines that begin an epoch from their own books seat one list, however
  they were started and whatever they caught up with. `CaughtUp.EnginesOneLineage`: any two engines in one
  epoch, however many catch-ups lie behind them, come from one seated list.
* `EngineLoop.ProcessAll`: the engine object's loop is a run of the engine.
* `CatchUp.CatchUpCompletes`: a catch-up with anything interleaved ends on the target, in the
  producer's own epoch; `CatchUp.ForkBranch` says what is sent when the chains have forked.
* `ElectionProperties.OrderIndependent`: the order in which ballots arrive does not matter.
* `EpochRuns.FairSchedule`, `EpochRuns.QueueLaw` and `EpochRuns.ReachableEpochsRestore` for the epoch;
  `EpochSeats.SlotsGoWithSeats`: with downgrades, too, a slot belongs to its seat and whoever sits there.
* `EngineRuns.ValidationLedger`, `EngineLedgers.CommitLedger` and `EngineLedgers.SlotLedger`: over every run
  the counters of blocks under validation and of commits waited for are right, and blocks of our own are
  dropped and started exactly at the slots of the node's run.
* `Thresholds.DecidesExactly`: exactly when a report decides a list, and which. `Reputation.ScoreMoves`: a
  peer's score falls exactly at its penalties and rises exactly at its rewards.

Points where the code does something a reader would not expect; the model follows the code:

* A node that has reported on three of four ballots reports again, and otherwise if the fourth changes the
  election, when that ballot comes in; then members that all run the code seat different lists
  (`LateBallots.AgreementFails`). STV need not cause this: where it elects nobody, the code's own tie-break
  does, for every hash (`LateBallots.DisagreementExists`).
* How many reports decide depends on how many peers are online, so a network split in two begins the first
  epoch twice (`Partition.HalvesDisagree`).
* The threshold for catching up counts messages, not members: one member that repeats a message about a
  block nobody has sends a node catching up to it (`BootstrapQuorum.OneMemberIsEnough`). The count is a
  number of members exactly when nobody names the block twice (`BootstrapQuorum.CountIsMembers`).
* When the fork point is the target itself (our chain extends the target), `fastforward` fails our
  block and sends an empty list for checking (`CatchUp.ForkBranch`).
* A verdict on an invalid block is not counted when the signer is no peer, when it is a witness and
  nobody is queued to replace it, or when the slot it costs raises while changing the epoch.
  `EngineRuns.VerdictCountedIff` gives the exact condition, and `LostVerdict.UncountedVerdictExample` a
  run from the genesis block in which it happens.
* A valid block whose verdict arrives before its parent is committed is failed, even during a catch-up
  (`CatchUp.VerdictInOrder`).
* A block that is next in line and also on the way to a catch-up target is sent for checking twice
  (`EngineRuns.NewBlockRequests`).
* Appending a block id that is already cached makes the id list and the dict disagree
  (`Chains.AppendConsistent` is an equivalence).
* A node that begins an epoch with an empty list stays in PRODUCTION without a slot
  (`NodeRuns.EmptySeats`).
* Commits of a catch-up lower the counter of commits waited for without having raised it
  (`EngineLedgers.CommitLedger`).
* The docstring of `current_witness` promises None once the epoch is over; the code, and the model,
  return the entry at the index modulo the length.

## Model

| member | source | states |
|---|---|---|
| Epoch.Epoch.SetCandidatesAndWitnesses | consensus/pkg/engine/epoch.py:25-33 | the first `num_slots` candidates become witnesses and the rest join the queue, in order |
| Epoch.Epoch.IncrementWitness | consensus/pkg/engine/epoch.py:35-50 | the new value of the epoch, with the reshuffle at a round boundary that does not end it; the index is bumped even when the division raises, which happens exactly without witnesses |
| Epoch.Epoch.DowngradeWitness | consensus/pkg/engine/epoch.py:52-63 | the oldest queued candidate takes the witness's place and the witness goes to the back of the queue; non-witnesses change nothing; the call never returns exactly for a witness while the queue is empty |
| Epoch.Epoch.ReorderWitnessList | consensus/pkg/engine/epoch.py:79-91 | the list is sorted by the digest of key, seed and index |
| Epoch.ModIsRemainder | consensus/pkg/engine/epoch.py:42 | the counted-out remainder that the epoch functions use is Python's `%` |
| Epoch.SortByDigestSorts | consensus/pkg/engine/epoch.py:85-91 | the reshuffled list is ascending in its digests and keeps the order of equal ones |
| EpochRuns.RoundsAreReshuffled | consensus/pkg/engine/epoch.py:35-50 | rounds two and three start with a permutation sorted by digests salted with the last block id and the slot number |
| EpochSeats.ReshufflesExactly | consensus/pkg/engine/epoch.py:35-50 | a slot moves the index by one and reshuffles the witnesses exactly when it ends round one or two, by the digests of key, block id and new index |
| EpochRuns.OverAfterThreeRounds | consensus/pkg/engine/epoch.py:130-136 | under any interleaving of downgrades the epoch is over exactly after three slots per witness |
| EpochRuns.RunConserves | consensus/pkg/engine/epoch.py:52-91 | no run of slots and downgrades loses, adds or duplicates a key |
| EpochRuns.FairSchedule | consensus/pkg/engine/epoch.py:93-105 | without downgrades every key is in charge in each of the three rounds exactly as often as it is listed |
| EpochRuns.EveryWitnessThreeSlots | consensus/pkg/engine/epoch.py:35-50 | from distinct witnesses, each is in charge of exactly 3 of the 3n slots, one per round, across both reshuffles |
| EpochRuns.QueueLaw | consensus/pkg/engine/epoch.py:60-63 | first in, first out over every run: what left the queue followed by what is in it is the first queue followed by everybody demoted |
| EpochRuns.ReturnsAfterQueueTurns | consensus/pkg/engine/epoch.py:52-63 | a downgraded witness stays out, at a known place of the queue, until exactly the q-th further effective downgrade brings it back |
| EpochSeats.ReplacedInPlace | consensus/pkg/engine/epoch.py:52-63 | an effective downgrade puts the queue's head at the index where the witness stood first, the witness at the end of the queue, and leaves every other seat and the slot index alone |
| EpochSeats.HangsExactly | consensus/pkg/engine/epoch.py:52-63 | the call never returns exactly for a witness while nobody is queued |
| EpochSeats.SlotsGoWithSeats | consensus/pkg/engine/epoch.py:52-105 | within a round, under any downgrades, each slot belongs to its seat: to whoever sat there at first if it was never filled anew, else to the one last put there, who is the m-th of the queue and those demoted |
| EpochSeats.MissedSlotPasses | consensus/pkg/engine/epoch.py:52-105 | after the witness in charge is downgraded and its slot has passed, the witness of the next seat is in charge |
| EpochSeats.SeatedInOrder | consensus/pkg/engine/epoch.py:25-33 | seats are filled from the front of the list, and the rest is queued in order behind those who wait already |
| EpochRuns.RestoreRoundTrip | consensus/pkg/engine/ddpoa_node.py:123-130 | a block payload rebuilds the epoch exactly when its seats are full |
| EpochRuns.ReachableEpochsRestore | consensus/pkg/engine/ddpoa_engine.py:240-247 | every epoch reachable by slots and downgrades survives the trip, and both copies stay equal afterwards |
| Voting.WeightTable | consensus/pkg/engine/voting_system.py:193-196 | the table holds 1/2, 1/4, 1/8, ..., one entry per candidate and at least one |
| ElectionProperties.PlaceOutweighsRest | consensus/pkg/engine/voting_system.py:193-196 | the first place is worth a half, and a place is worth more than any number of places after it, by the weight of the last of them |
| ElectionProperties.PlaceScores | consensus/pkg/engine/voting_system.py:200-206 | a candidate named once on a ballot scores the weight of its place |
| ElectionProperties.TotalsAdd | consensus/pkg/engine/voting_system.py:200-206 | scores add up ballot by ballot |
| Voting.ScoreBallots | consensus/pkg/engine/voting_system.py:198-206 | exactly the named candidates that STV left out are scored, each with its total weight; it raises exactly when a needed weight is missing |
| Voting.GetSlotWinner | consensus/pkg/engine/voting_system.py:222-227 | the first of the candidates with the highest digest |
| Voting.DrawWinner | consensus/pkg/engine/voting_system.py:213-215 | the drawn candidate beats every remaining one by score, and by digest on equal scores |
| Voting.FillSlots | consensus/pkg/engine/voting_system.py:212-219 | the STV list is kept and followed by the best of the rest, best first; it raises exactly when the scores run out |
| Voting.BreakTies | consensus/pkg/engine/voting_system.py:186-219 | the whole tie-break: its result, and exactly when it raises |
| VotingSystem.VotingSystem.AddPeerBallot | consensus/pkg/engine/voting_system.py:49-56 | the ballot is stored by epoch and peer and nothing else changes |
| VotingSystem.VotingSystem.StorePeerResult | consensus/pkg/engine/voting_system.py:114-121 | the result is stored by epoch and peer and nothing else changes |
| VotingSystem.VotingSystem.StoreCandidates | consensus/pkg/engine/voting_system.py:58-62 | the candidate list of the epoch is set and nothing else changes |
| VotingSystem.NoneMoreCommon | consensus/pkg/engine/voting_system.py:68-75 | the winner is a reported result and no result is reported more often |
| VotingSystem.FirstOfTheMostCommon | consensus/pkg/engine/voting_system.py:68-77 | among the results reported most often the one that occurs first wins |
| VotingSystem.ConsensusAmountExact | consensus/pkg/engine/voting_system.py:171-173 | the quorum is the least number that is no less than the slots and more than two thirds of the online peers |
| VotingSystem.VotingSystem.GetConsensusResult | consensus/pkg/engine/voting_system.py:64-77 | the winner, ties going to the result that occurs first, and its number of occurrences |
| VotingSystem.VotingSystem.CalculateResult | consensus/pkg/engine/voting_system.py:79-105 | the STV result completed by the tie-break, recorded as the node's own report; exactly when it raises |
| VotingSystem.VotingSystem.RemoveOldEpochData | consensus/pkg/engine/voting_system.py:175-183 | the epochs with results except the five latest are deleted one by one until a deletion raises |
| VotingSystem.RemoveOldKeepsRecent | consensus/pkg/engine/voting_system.py:175-183 | no epoch less than five behind the latest loses anything |
| VotingSystem.ExpiredExactly | consensus/pkg/engine/voting_system.py:175-183 | with fewer than ten epochs nothing expires; otherwise all but five do, and those five are the latest |
| VotingSystem.RemoveOldLeavesFive | consensus/pkg/engine/voting_system.py:175-183 | unless it raises, the deletion leaves exactly the five latest of ten or more epochs |
| VotingSystem.RemoveOldSucceeds | consensus/pkg/engine/voting_system.py:175-183 | the deletion raises exactly when some expired epoch has no candidates or no ballots |
| VotingSystem.VotingSystem.FillBallot | consensus/pkg/engine/voting_system.py:27-47 | the ballot is one that weighted draws without replacement can give; positive weights never fail |
| ElectionProperties.DrawnIsPermutation | consensus/pkg/engine/voting_system.py:35-40 | whatever is drawn is a permutation of the peers |
| ElectionProperties.AnyPermutationCanBeDrawn | consensus/pkg/engine/voting_system.py:31-40 | with positive weights the ballots that can be drawn are exactly the permutations |
| ElectionProperties.OrderIndependent | consensus/pkg/engine/voting_system.py:79-105 | two nodes with the same ballots in any order of arrival compute the same list, unless tied candidates have colliding digests |
| ElectionProperties.SuccessOrderIndependent | consensus/pkg/engine/voting_system.py:79-105 | whether the calculation raises does not depend on the order of arrival |
| ElectionProperties.BestOfUnique | consensus/pkg/engine/voting_system.py:212-217 | score and digest leave one possible outcome of the selection loop |
| ElectionProperties.FullBallotsRankEveryPeer | consensus/pkg/engine/voting_system.py:95-102 | with full ballots the scores never run out, the STV result stays in front and the list is a permutation of the peers |
| ElectionProperties.UnanimityRespected | consensus/pkg/engine/voting_system.py:198-217 | if every ballot ranks a above b and STV elected neither, a precedes b |
| Node.DDPoANode.CastVote | consensus/pkg/engine/ddpoa_node.py:40-52 | the node's own ballot is drawn, stored for the next epoch, and the node enters the election unless it is catching up; with positive weights a ballot is always found |
| Node.DDPoANode.BroadcastResult | consensus/pkg/engine/ddpoa_node.py:117-121 | what is broadcast is the election result of the stored ballots, and exactly when nothing is |
| Node.DDPoANode.HandlePeerVote | consensus/pkg/engine/ddpoa_node.py:188-210 | the new state for stale, repeated, sufficient and complete ballots, with the pending timer; the election of the stored ballots is broadcast exactly when this ballot completes the set and the calculation succeeds |
| Node.DDPoANode.TimerFired | consensus/pkg/engine/ddpoa_node.py:207-210 | when the pending timer fires the election of the stored ballots is broadcast, unless the calculation raises |
| Node.DDPoANode.HandlePeerResult | consensus/pkg/engine/ddpoa_node.py:212-232 | the new state, whether a new epoch begins, and whether it raises |
| Node.DDPoANode.Initialize | consensus/pkg/engine/ddpoa_node.py:132-149 | the new epoch seats the decided list, and old data is deleted |
| Node.DDPoANode.AdvanceSlot | consensus/pkg/engine/ddpoa_node.py:234-255 | the new state after a slot, with the change of epoch when its successor is ready |
| Node.DDPoANode.BootstrapFrom | consensus/pkg/engine/ddpoa_node.py:123-130 | the epoch is rebuilt from the payload and the node produces |
| Node.DDPoANode.PenalizePeer | consensus/pkg/engine/ddpoa_node.py:161-166 | the peer's score is scaled down, one's own never; it raises exactly for strangers |
| Node.DDPoANode.RewardPeer | consensus/pkg/engine/ddpoa_node.py:168-173 | the peer's score is scaled up to at most one, one's own never; it raises exactly for strangers |
| NodeRuns.StepInv | consensus/pkg/engine/ddpoa_node.py:132-255 | every event but a bootstrap keeps the books in order (only the next epoch may be ready, then it has candidates, and it does not wait once this epoch is over), and changes the epoch number only by beginning the next epoch |
| NodeRuns.PhaseMatchesSlots | consensus/pkg/engine/ddpoa_node.py:132-155 | in every run without a catch-up IDLE implies the epoch is over, and an epoch that is over never waits for a decided successor; PRODUCTION implies slots remain unless an empty list was decided |
| NodeRuns.EmptySeats | consensus/pkg/engine/ddpoa_node.py:132-141 | a node that begins an epoch is in PRODUCTION without a slot exactly when the list is empty or there are no seats |
| NodeRuns.FirstBallotCounts | consensus/pkg/engine/ddpoa_node.py:193-199 | no event ever replaces a ballot that a peer cast for an epoch |
| NodeRuns.SlotForgets | consensus/pkg/engine/ddpoa_node.py:151-155 | the slot that ends an epoch forgets the readiness of the epoch two before and leaves the node idle or in the next epoch; other slots leave both alone |
| Digest.HashedText | consensus/pkg/engine/utils.py:5-8 | what is hashed is the key, then the seed, then the number; it differs from number to number and from key to key |
| Thresholds.VotesExactly | consensus/pkg/engine/ddpoa_node.py:40-71 | a ballot is cast exactly before the first epoch or with at most five slots left, with more peers online than slots, and no ballot yet; then the node is in the election unless it catches up |
| Thresholds.CompleteSet | consensus/pkg/engine/voting_system.py:140-144 | the ballots are complete exactly when there are as many as peers online, and these fill the slots |
| Thresholds.SufficientSet | consensus/pkg/engine/voting_system.py:132-138 | they are enough exactly when they fill the slots and are more than two thirds of the peers online |
| Thresholds.DecidesExactly | consensus/pkg/engine/ddpoa_node.py:217-228 | a report decides w exactly when w leads (most reporters, first among equals) and has enough: all online for the first epoch, else as many as slots and more than two thirds |
| Thresholds.DecidesSomething | consensus/pkg/engine/ddpoa_node.py:217-228 | outside the first epoch a report decides exactly when some list has that many reporters |
| Thresholds.DecisionReadies | consensus/pkg/engine/ddpoa_node.py:226-232 | a decision makes its epoch ready with the decided list, or begins it if this one is over; any other report leaves both alone |
| Thresholds.NewEpochReturned | consensus/pkg/engine/ddpoa_node.py:212-232 | `handle_vote_result` returns True exactly when the report begins an epoch and the deletion of old data does not raise |
| Thresholds.BegunTidies | consensus/pkg/engine/ddpoa_node.py:149 | an epoch that begins without raising leaves the results of at most nine epochs |
| Reputation.PenaltyTakesQuarter | consensus/pkg/engine/ddpoa_node.py:161-166 | a penalty leaves three quarters of another peer's score and changes nothing else |
| Reputation.RewardRaises | consensus/pkg/engine/ddpoa_node.py:168-173 | a reward leaves the lesser of 1 and 1.075 times the score, which is more below 1, and changes nothing else |
| Reputation.StrangerExactly | consensus/pkg/engine/ddpoa_node.py:161-173 | neither raises for the node itself, and both do for any other key without a peer |
| Reputation.ScoreMoves | consensus/pkg/engine/ddpoa_node.py:161-173 | in every run another peer's score falls exactly at its penalties, by a quarter, and rises exactly at its rewards below 1 |
| Reputation.OwnScoreStays | consensus/pkg/engine/ddpoa_node.py:161-173 | a node's own score stays 1 |
| Reputation.WeightExactly | consensus/pkg/engine/voting_system.py:32 | in every run a peer's weight in the draw is its score if it is the node itself or was heard of, and a thousandth otherwise |
| Reputation.MissedSlotIsPenalized | consensus/pkg/engine/ddpoa_engine.py:222-225 | a missed slot costs the witness in charge a quarter of its score and changes nobody else's |
| Reputation.InvalidBlockIsPenalized | consensus/pkg/engine/ddpoa_engine.py:424-433 | an invalid block costs its signer a quarter of its score and changes nobody else's |
| Reputation.CommitIsRewarded | consensus/pkg/engine/ddpoa_engine.py:457-458 | a committed block raises its signer's score and changes nobody else's |
| Agreement.VotersCount | consensus/pkg/engine/voting_system.py:64-77 | the returned count is the number of peers that report the winner |
| Agreement.ReportsStep | consensus/pkg/engine/ddpoa_node.py:188-232 | every event changes the reports of an epoch only by the one report it records, or by forgetting the epoch |
| Agreement.QuorumExactly | consensus/pkg/engine/ddpoa_node.py:223-224 | a decision takes all reports for the first epoch, and else the least number that fills the slots and is more than two thirds of those online |
| Agreement.QuorumsOverlap | consensus/pkg/engine/voting_system.py:171-173 | so two quorums of n members share more members than can be faulty |
| Agreement.DecisionsAgree | consensus/pkg/engine/ddpoa_node.py:212-232 | two decisions for one epoch, on one node or on two, pick the same list when their quorums cannot overlap in faulty members only |
| QuorumBound.DecisionsCanDiffer | consensus/pkg/engine/ddpoa_node.py:212-232 | whenever they can, any two runs that wait for the epoch can go on to decide any two different lists, though every other member reports one list |
| Agreement.CandidatesWereDecided | consensus/pkg/engine/ddpoa_node.py:223-228 | in every run, bootstrapped or not, the candidates of an epoch are what some earlier report decided |
| Agreement.SeatedWasDecided | consensus/pkg/engine/ddpoa_node.py:132-141 | whatever event begins an epoch, its list was decided by then, and the node stands in the epoch seated with it |
| Agreement.EpochProgress | consensus/pkg/engine/ddpoa_node.py:234-245 | without bootstraps the epoch number rises by one at most, only when all slots are used, and only to an epoch seated from a decided list |
| Agreement.EveryEpochWasSeated | consensus/pkg/engine/ddpoa_node.py:132-141 | every epoch that a run without bootstraps has reached was begun by some event |
| Agreement.SeatsAgree | consensus/pkg/engine/voting_system.py:171-173 | with n members online, fewer than n/3 faulty and one result reported by each other member, two events that begin an epoch, on one node or on two, seat the same list |
| Agreement.SameEpochSameWitnesses | consensus/pkg/engine/voting_system.py:171-173 | under the same assumptions two nodes that reach an epoch were seated from one list |
| Agreement.StaysReady | consensus/pkg/engine/ddpoa_node.py:223-239 | within an epoch a ready successor stays ready, whatever happens short of a bootstrap |
| Agreement.StableDecision | consensus/pkg/engine/ddpoa_node.py:217-232 | once the next epoch is ready it stays ready with the same candidates when fewer than two quorums of peers report, one result each |
| Agreement.ScoresStayPositive | consensus/pkg/engine/ddpoa_node.py:161-173 | over every run scores stay in (0, 1], so every peer keeps a positive weight in the draw |
| OwnReports.ReportsExactly | consensus/pkg/engine/ddpoa_node.py:188-210 | a run of the code reports about an epoch exactly with an accepted ballot that completes a countable set, or when the timer fires that an accepted ballot started by being enough and nothing stopped |
| OwnReports.ReportsAgainExactly | consensus/pkg/engine/ddpoa_node.py:193-210 | after a report, the node reports about the epoch again exactly when a later ballot completes the set or starts a timer that fires |
| OwnReports.SecondReportNeedsBallot | consensus/pkg/engine/ddpoa_node.py:193-210 | between two reports of a node about one epoch, genuine or not, it accepted a ballot for that epoch |
| OwnReports.OneReport | consensus/pkg/engine/ddpoa_node.py:188-210 | a node that accepts no ballot for an epoch after its first report about it reports once |
| ClosedPolls.ReportIsComplete | consensus/pkg/engine/ddpoa_node.py:199-205 | if no report timer fires, and ballots come from members with all of them online, a node reports with a ballot after which exactly the members have voted |
| ClosedPolls.PunctualPollCloses | consensus/pkg/engine/ddpoa_node.py:193-210 | and then, unless it falls back to an earlier epoch, it accepts no ballot for the epoch after its report |
| Network.RecordsWords | consensus/pkg/engine/ddpoa_node.py:212-220 | what such members record is what each of them said |
| Network.MemberSeatsAgree | consensus/pkg/engine/voting_system.py:171-173 | with fewer than n/3 faulty, all online for reports and polls that close with the first report, two events that begin an epoch on any two members, bootstrapped or not, seat the same list |
| Network.PunctualAssured | consensus/pkg/engine/ddpoa_node.py:188-210 | the polls close with the first report if no report timer fires, ballots come from members with all of them online, and no member falls back to an earlier epoch |
| Network.MembersAgree | consensus/pkg/engine/voting_system.py:171-173 | with fewer than n/3 faulty, all online and no report timer firing, two members running the code that reach an epoch by themselves seated the same list |
| Validity.SeatedIsElection | consensus/pkg/engine/voting_system.py:79-105 | if nobody is faulty, no timer fires and ballots are what their voters cast, the list any member seats is the election of all members' ballots |
| Validity.OneElection | consensus/pkg/engine/voting_system.py:79-105 | and unless digests collide there is one such list |
| LateBallots.AgreementFails | consensus/pkg/engine/ddpoa_node.py:204-210 | for any hash, STV and ballots of which three and four are decidable: four members running the code, none faulty, all online, seat the election of three and the election of four in epoch 2 |
| LateBallots.DisagreementExists | consensus/pkg/engine/voting_system.py:186-219 | for every hash there are ballots for which these differ by the tie-break alone |
| Partition.HalvesDisagree | consensus/pkg/engine/ddpoa_node.py:217-232 | two halves of four members that run the code, with two online each and every poll closed, each seat their own election in epoch 1 |
| Partition.OpposedHalves | consensus/pkg/engine/voting_system.py:186-219 | for every hash there are ballots for which these differ |
| Lineage.EpochsAreLawful | consensus/pkg/engine/ddpoa_node.py:123-149 | where agreement is assured and members resume from the payloads of members, any epoch a member ever stands in is vacant or follows by slots and downgrades from the list seated for it |
| Lineage.OneLineage | consensus/pkg/engine/ddpoa_node.py:123-149 | so two members in one epoch, whenever and by whatever catch-ups, hold the keys of one seated list |
| BlockCache.BlockCache.AppendBlock | consensus/pkg/engine/ddpoa_engine.py:566-572 | the new id list and dict, the block the validator is told to ignore, and whether the eviction raises |
| BlockCache.BlockCache.BlockByNumAndSigner | consensus/pkg/engine/ddpoa_engine.py:577-580 | the first cached block with the number and the signer |
| BlockCache.FirstMatch | consensus/pkg/engine/ddpoa_engine.py:577-580 | what is found matches, and nothing is found only when nothing matches |
| BlockCache.FirstMatchAt | consensus/pkg/engine/ddpoa_engine.py:577-580 | what is found is the first block that matches |
| BlockCache.BlockCache.Traversable | consensus/pkg/engine/ddpoa_engine.py:582-588 | true exactly when the target is on the backward walk up to the first uncached id; it terminates |
| BlockCache.BlockCache.BlockPath | consensus/pkg/engine/ddpoa_engine.py:593-601 | the path to the start, or that a lookup raises; it terminates |
| BlockCache.BlockCache.LongestChainFrom | consensus/pkg/engine/ddpoa_engine.py:603-610 | the chain to the start, or that the start is not cached; it terminates |
| Chains.BlockPathExact | consensus/pkg/engine/ddpoa_engine.py:593-601 | a result of `block_path` is the one parent-linked list from the child of b to a, without duplicates, and conversely |
| Chains.BlockPathSucceeds | consensus/pkg/engine/ddpoa_engine.py:593-601 | `block_path` succeeds exactly when a is cached, differs from b, and b is traversable from a |
| Chains.TraversableMeansLinked | consensus/pkg/engine/ddpoa_engine.py:582-588 | `traversable` holds exactly when b is a or parent links through cached blocks lead to it |
| Chains.LongestChainMaximal | consensus/pkg/engine/ddpoa_engine.py:603-610 | the longest chain is linked, ends in a, and cannot be extended backwards |
| Chains.ChainIsWalk | consensus/pkg/engine/ddpoa_engine.py:582-610 | the longest chain holds exactly the cached blocks that are traversable from a |
| Chains.ChainDecomposes | consensus/pkg/engine/ddpoa_engine.py:593-610 | the chain to a is the chain to b followed by the path from b to a, or just the path when b is not cached |
| Chains.AppendConsistent | consensus/pkg/engine/ddpoa_engine.py:566-572 | id list and dict stay in step exactly when the block is new |
| Chains.CacheHoldsLatest | consensus/pkg/engine/ddpoa_engine.py:566-572 | after any number of distinct blocks the cache holds exactly the ten latest, in order |
| Chains.OldestLeaves | consensus/pkg/engine/ddpoa_engine.py:566-572 | a new block pushes out exactly the oldest of ten, and that is the one to be ignored |
| Chains.IgnoredIsTenBefore | consensus/pkg/engine/ddpoa_engine.py:566-572 | after any distinct blocks a new one makes the validator ignore the block ten before it |
| BootstrapTally.TallyMessages | consensus/pkg/engine/ddpoa_engine.py:517-526 | the tally of the messages, entry by entry |
| BootstrapTally.CountIsMentions | consensus/pkg/engine/ddpoa_engine.py:517-526 | an id's count is the number of messages naming it as head plus those naming it as parent |
| BootstrapTally.NoneOutranksBest | consensus/pkg/engine/ddpoa_engine.py:528-530 | the chosen head is maximal in count, then in number |
| BootstrapTally.BestIsFirst | consensus/pkg/engine/ddpoa_engine.py:528-530 | of heads equal in both the one tallied first is chosen |
| BootstrapTally.HeadHeldByAll | consensus/pkg/engine/ddpoa_engine.py:515-530 | when the heads lie on one chain and differ by at most one block, the choice is the highest block every reporter holds |
| BootstrapQuorum.OneMemberIsEnough | consensus/pkg/engine/ddpoa_engine.py:509-538 | one member that repeats one message, about a block nobody has, as often as the threshold says sends a node catching up to that block |
| BootstrapQuorum.CountIsMembers | consensus/pkg/engine/ddpoa_engine.py:517-526 | a block's count is at least the number of members naming it, and equal to it exactly when nobody names it twice |
| BootstrapQuorum.ThresholdOfMembers | consensus/pkg/engine/ddpoa_engine.py:534-538 | a node sent catching up aims at a block named as often as the threshold says, by that many members if nobody named it twice |
| BootstrapQuorum.AimsExactly | consensus/pkg/engine/ddpoa_engine.py:534-538 | a node goes after the best head exactly when those naming it and itself fill the slots and are more than two thirds of the peers online |
| EngineClass.DDPoAEngine.NextSlotBegins | consensus/pkg/engine/ddpoa_engine.py:269-274 | the new state and calls of a slot change |
| EngineClass.DDPoAEngine.HandleMissedSlot | consensus/pkg/engine/ddpoa_engine.py:222-225 | the expected witness is penalized and downgraded and the next slot begins, as far as that does not raise or hang |
| EngineClass.DDPoAEngine.FinalizeBlock | consensus/pkg/engine/ddpoa_engine.py:236-253 | the payload carries the producer's epoch, and the engine waits for its own block |
| EngineClass.DDPoAEngine.CommonAndForkedBlock | consensus/pkg/engine/ddpoa_engine.py:329-336 | ten rounds back over our own chain: found, not found, or a lookup raises |
| EngineClass.DDPoAEngine.FastforwardTo | consensus/pkg/engine/ddpoa_engine.py:276-319 | the new state and requests of a catch-up |
| EngineClass.DDPoAEngine.HandleNewBlock | consensus/pkg/engine/ddpoa_engine.py:338-399 | the new state and requests for a new block, in every state of the node and even for a cached id |
| EngineClass.DDPoAEngine.HandleValidBlock | consensus/pkg/engine/ddpoa_engine.py:401-422 | the verdict is counted and the block committed or failed |
| EngineClass.DDPoAEngine.HandleInvalidBlock | consensus/pkg/engine/ddpoa_engine.py:424-433 | the signer is penalized and downgraded, and the verdict counted unless one of these or the slot raises or hangs |
| EngineClass.DDPoAEngine.HandleCommittedBlock | consensus/pkg/engine/ddpoa_engine.py:435-477 | the head moves, the signer is rewarded or that raises, a catch-up resumes from the target's payload, and a cached successor is checked |
| EngineClass.DDPoAEngine.HandlePeerMessage | consensus/pkg/engine/ddpoa_engine.py:479-542 | the new state for every kind of peer message, and what a vote makes the node broadcast; strangers are ignored |
| EngineLoop.Handle | consensus/pkg/engine/ddpoa_engine.py:130-195 | whatever comes in, the object stays valid, its ballots stay drawable, and its value moves by one step of the engine's runs |
| EngineLoop.ProcessAll | consensus/pkg/engine/ddpoa_engine.py:130-195 | the loop makes the object go through a run of the engine, with the validation counter right at its end |
| EngineRuns.ValidationLedger | consensus/pkg/engine/ddpoa_engine.py:298-477 | after every handler of every run the validation counter is the number of blocks sent minus the verdicts counted |
| EngineLedgers.SlotLedger | consensus/pkg/engine/ddpoa_engine.py:263-274 | over every run the requests that drop and start our own blocks are exactly those that the slots of the node's run call for |
| EngineLedgers.CommitLedger | consensus/pkg/engine/ddpoa_engine.py:401-458 | over every run the counter of commits waited for is the commits requested outside a catch-up less the commits handled |
| EngineCalls.LaunchedState | consensus/pkg/engine/ddpoa_engine.py:61-113 | the engine starts on the chain head, with nothing waited for or asked, and at work at once exactly on the genesis block |
| EngineCalls.SlotRequests | consensus/pkg/engine/ddpoa_engine.py:269-274 | a slot drops any block in the making and starts one exactly if the witness then in charge, of the new epoch where one begins, is the node; nothing is requested if the node's part raises |
| EngineCalls.FailureRequests | consensus/pkg/engine/ddpoa_engine.py:222-225 | a failed witness's slot makes the requests of a slot, or none if the penalty raises or the downgrade never returns |
| EngineCalls.EmptySlotRequests | consensus/pkg/engine/ddpoa_engine.py:171-178 | an own slot without a block is announced and then passes |
| EngineCalls.EmptySlotHeard | consensus/pkg/engine/ddpoa_engine.py:497-500 | a member's empty slot passes exactly if that member is in charge |
| EngineCalls.VerdictRequests | consensus/pkg/engine/ddpoa_engine.py:401-422 | outside a catch-up a positive verdict commits the block, and one more commit is waited for, exactly when it is the next one and its signer is in charge; otherwise it is failed |
| EngineCalls.CommitEffect | consensus/pkg/engine/ddpoa_engine.py:435-471 | a commit moves the head, rewards, resumes and clears the collection at the target, and passes the slot |
| EngineCalls.FirstSuccessor | consensus/pkg/engine/ddpoa_engine.py:473-477 | the first cached block with the next number by the witness now in charge is sent for checking |
| EngineCalls.NoSuccessor | consensus/pkg/engine/ddpoa_engine.py:473-477 | without one nothing is |
| EngineCalls.TimelyRequests | consensus/pkg/engine/ddpoa_engine.py:360-399 | what a member's timely new block is checked or ignored for, when our own block is no longer waited for, when the block is kept for a later bootstrap, and when the peers are asked for their heads |
| EngineCalls.NewBlockEffect | consensus/pkg/engine/ddpoa_engine.py:338-399 | exactly what is requested for a new block, in order |
| EngineCalls.ReplyIsHonest | consensus/pkg/engine/ddpoa_engine.py:502-507 | a request for our head is answered with its id, number and parent |
| EngineCalls.CollectionEffect | consensus/pkg/engine/ddpoa_engine.py:509-542 | when the collection of heads grows and when it starts over |
| EngineRuns.VerdictCountedIff | consensus/pkg/engine/ddpoa_engine.py:401-433 | a verdict is counted exactly when the block is known and it is positive, or its signer is a peer, the downgrade returns, and the slot does not raise while changing the epoch |
| LostVerdict.UncountedVerdictExample | consensus/pkg/engine/ddpoa_engine.py:432-433 | a run from the genesis block after which a block sent for checking is found invalid and still waited for |
| EngineRuns.CatchUpVerdict | consensus/pkg/engine/ddpoa_engine.py:401-422 | during a catch-up a positive verdict requests the commit exactly when the block extends the committed head, and fails the block otherwise |
| EngineRuns.CommitRequests | consensus/pkg/engine/ddpoa_engine.py:401-422 | a commit is only ever requested for a checked block that extends the committed head and, outside a catch-up, has the next number and the expected signer |
| EngineRuns.NewBlockRequests | consensus/pkg/engine/ddpoa_engine.py:348-382 | how many checks a new block causes, in terms of its place in the chain, its signer and the catch-up target |
| CatchUp.ForkPoint | consensus/pkg/engine/ddpoa_engine.py:329-336 | what the walk finds is the highest block on both chains and its child on ours |
| CatchUp.ForkFoundIff | consensus/pkg/engine/ddpoa_engine.py:329-336 | a fork point is found exactly when one of the ten ancestors reached over known blocks lies on the chain |
| CatchUp.ForkBlocksArePath | consensus/pkg/engine/ddpoa_engine.py:315-317 | cutting the chain at the fork point leaves exactly the path from it to the target |
| CatchUp.ForkBranch | consensus/pkg/engine/ddpoa_engine.py:300-319 | the fork point, the failed block and the blocks sent, oldest first |
| CatchUp.StraightBranch | consensus/pkg/engine/ddpoa_engine.py:294-299 | the whole path to the target is sent, oldest first |
| CatchUp.VerdictInOrder | consensus/pkg/engine/ddpoa_engine.py:401-422 | of the blocks of a catch-up, with k of them committed, exactly the k-th is committed on its verdict; any other is failed |
| CatchUp.Progress | consensus/pkg/engine/ddpoa_engine.py:401-477 | until the target is committed a catch-up is exactly as far as its verdicts and commits say, whatever else happens that does not hang |
| CatchUp.CatchUpCompletes | consensus/pkg/engine/ddpoa_engine.py:435-471 | the catch-up asks for every commit in order and ends on the target, in the producer's epoch one slot on if the target's signer is a peer, and still catching up if not |
| CatchUp.TakenOver | consensus/pkg/engine/ddpoa_engine.py:460-471 | unless that slot ends the epoch, the node produces in the producer's own next epoch state |
| CatchUp.BootstrapAimsAtCommonHead | consensus/pkg/engine/ddpoa_engine.py:509-538 | honest reporters at most one block apart make the node aim at the highest block they all hold, under its true number |
| EngineRefinement.StepRefines | consensus/pkg/engine/ddpoa_engine.py:222-542 | every engine step is a sequence of node events; a catch-up is an interruption that ends with a bootstrap |
| EngineRefinement.EngineRefinesNode | consensus/pkg/engine/ddpoa_engine.py:130-195 | in every run the node inside the engine is a run of the node alone |
| EngineRefinement.EnginesAgree | consensus/pkg/engine/ddpoa_engine.py:479-495 | whenever two engines begin an epoch from their own books, however they were started and whether or not they ever caught up, they seat one list, when fewer than n/3 members are faulty and the polls close with the first report |
| EngineRefinement.EngineStands | consensus/pkg/engine/ddpoa_engine.py:269-274 | an engine that begins an epoch in some event stands in it, seated with that list, when the event is handled |
| EngineRefinement.EnginesReachAlike | consensus/pkg/engine/ddpoa_engine.py:479-495 | engines that reach an epoch without resuming from a payload did begin it so |
| CaughtUp.EnginesOneLineage | consensus/pkg/engine/ddpoa_engine.py:460-471 | two engines in one epoch, however many catch-ups lie behind them, hold the keys of one seated list, moved only by slots and downgrades |
| CaughtUp.CaughtUpAgrees | consensus/pkg/engine/ddpoa_engine.py:460-471 | an engine that catches up to a producer's block stands one slot after the producer's epoch, which comes from the list that any engine in that epoch comes from, even if the producer had caught up itself |

## Left out

- Agreement.SeatsAgree: takes it as given that every honest member reports one result per epoch and that all are online when reports come in; Network.MembersAgree derives the former from punctual ballots, and LateBallots.AgreementFails and Partition.HalvesDisagree show that neither can be dropped.
- Agreement.SameEpochSameWitnesses: the same.
- Network.MembersAgree: asks that no report timer fires and all are online; the exact condition for one node's reports is OwnReports.ReportsAgainExactly, Network.MemberSeatsAgree asks for closed polls only, and members that caught up are covered by it and by Lineage.OneLineage.
- CaughtUp.EnginesOneLineage: a member has one run; one that restarts counts as a new member, and what it reported before the restart is not held against it. Members resume from payloads that some member wrote, since a faulty producer may write anything.
- Runs of the engine ignore a new block whose id is already cached, because the validator hands out each block once; what such a block does is stated by `EngineClass.DDPoAEngine.HandleNewBlock` and `Chains.AppendConsistent`.
- CatchUp.ForkBranch: does not claim that the switch completes, because the source never moves its committed head back to the fork point.
- The branch of `fastforward` that compares the target id with cached Block objects can never be taken and is not modelled.
- Floating point: weights and scores are exact reals, so the rounding of weights below the precision of a double, and scores that underflow to zero, are not modelled.
- Scottish STV and SHA-256 themselves, and the poll objects that are stored but never read.
- `has_enough_similar_results`, `is_last_round` and the other read-only helpers that no handler calls.
- Network, gRPC, threads, wall-clock time, rebroadcasting, pinging and peer connection; they appear as parameters or events.
- Exceptions raised by the validator's own calls, and parsing of payloads.
- PeerNode objects: kept as values in a map, so aliasing of peer objects is not modelled.
- Logging, configuration, deployment and metrics.
