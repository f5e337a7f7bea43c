/** Runs of a node: how epochs follow each other, and why decided candidate lists are safe. */
module NodeRuns {
  import opened Types
  import opened Digest
  import opened VotingSystem
  import opened Epoch
  import opened Node

  /** Everything that can happen to a node: besides votes, results, slots and scores it may be
      interrupted, to wait for its peers or to catch up, and resume from the payload of a block. */
  datatype NodeEvent =
    | MayVote(ballot: Ballot, online: nat)
    | BallotMsg(peer: Key, epoch: nat, votes: Ballot, online: nat, sent: Option<Result>)
    | TimerFired(sent: Option<Result>)
    | ResultMsg(peer: Key, epoch: nat, result: Result, online: nat)
    | SlotPassed(blockId: Id)
    | WitnessFailed(peer: Key)
    | Penalized(peer: Key)
    | Rewarded(peer: Key)
    | Heard(peer: Key)
    | Interrupted(phase: Phase)
    | Bootstrapped(payload: ConsensusData)

  function NodeStep(c: Config, s: NodeState, e: NodeEvent): (t: NodeState)
    ensures !e.Bootstrapped? ==> t.numSlots == s.numSlots
  {
    match e
    case MayVote(b, online) => if ShouldVote(c, s, online) then Vote(c, s, b) else s
    case BallotMsg(p, n, votes, online, sent) => HandleVote(c, s, p, n, votes, online, sent)
    case TimerFired(sent) => TimerFires(c, s, sent)
    case ResultMsg(p, n, result, online) => HandleVoteResult(c, s, p, n, result, online).0
    case SlotPassed(b) => NextSlot(s, c.hash, b).0
    case WitnessFailed(p) => DowngradeWitness(s, p)
    case Penalized(p) => Penalize(c, s, p)
    case Rewarded(p) => Reward(c, s, p)
    case Heard(p) => Seen(s, p)
    case Interrupted(phase) => s.(phase := phase)
    case Bootstrapped(p) => Bootstrap(s, p)
  }

  function NodeRun(c: Config, s: NodeState, es: seq<NodeEvent>): NodeState {
    if es == [] then s
    else NodeStep(c, NodeRun(c, s, es[..|es|-1]), es[|es|-1])
  }

  function From(c: Config, es: seq<NodeEvent>): NodeState {
    NodeRun(c, InitialState(c), es)
  }

  /** The list that an event decides for the next epoch, if any. */
  function DecisionOf(c: Config, s: NodeState, ev: NodeEvent): Option<Result> {
    if ev.ResultMsg? then Decision(c, s, ev.peer, ev.epoch, ev.result, ev.online) else None
  }

  /** The node learns of epochs from its own elections only. */
  predicate NeverBootstrapped(es: seq<NodeEvent>) {
    forall ev :: ev in es ==> !ev.Bootstrapped?
  }

  /** The node takes part all the time. */
  predicate Uninterrupted(es: seq<NodeEvent>) {
    forall ev :: ev in es ==> !ev.Bootstrapped? && !ev.Interrupted?
  }

  // ---- the invariants of a run

  /** Only the next epoch may be waiting to begin; it has a candidate list, and it does not wait once
      this epoch is over. */
  ghost predicate BooksInv(s: NodeState) {
    && (forall e :: e in s.ready ==> e <= s.NextEpoch())
    && (s.NextEpoch() in s.ready ==> s.NextEpoch() in s.voting.candidates)
    && (s.epoch.IsOver() ==> s.NextEpoch() !in s.ready)
  }

  /** The phase of a node that is not bootstrapped. */
  ghost predicate PhaseInv(s: NodeState) {
    s.phase != WaitingForBootstrap && s.phase != CatchingUp && (s.phase == Idle ==> s.epoch.IsOver())
  }

  /** What holds as long as every decided list seats somebody. */
  ghost predicate SeatsInv(s: NodeState) {
    && s.numSlots >= 1
    && (s.phase == Production ==> !s.epoch.IsOver())
    && (s.NextEpoch() in s.ready && s.NextEpoch() in s.voting.candidates ==> s.voting.candidates[s.NextEpoch()] != [])
  }

  /** Deleting old data never changes what it leaves. */
  lemma {:induction false} PurgedIsPart(v: VotingState, es: seq<nat>, e: nat)
    ensures var w := Purge(v, es).0;
      && (e in w.results ==> e in v.results && w.results[e] == v.results[e])
      && (e in w.ballots ==> e in v.ballots && w.ballots[e] == v.ballots[e])
      && (e in w.candidates ==> e in v.candidates && w.candidates[e] == v.candidates[e])
    decreases |es|
  {
    if es != [] && es[0] in v.results && es[0] in v.candidates && es[0] in v.ballots {
      PurgedIsPart(VotingState(v.ballots - {es[0]}, v.results - {es[0]}, v.candidates - {es[0]}), es[1..], e);
    }
  }

  /** The list of the successor of the node's epoch, once it is ready. */
  function ReadyList(s: NodeState): Option<Result> {
    var e := s.NextEpoch();
    if e in s.ready && e in s.voting.candidates then Some(s.voting.candidates[e]) else None
  }

  predicate SlotsRunOut(s: NodeState, hash: Hash, blockId: Id) {
    var e := Increment(s.epoch, hash, blockId);
    e.witnesses != [] && e.IsOver()
  }

  /** The list of the epoch that this event begins, if it begins one. All slots of the old epoch are
      used: they were before this report decided the list, or this slot was the last one. */
  function Begun(c: Config, s: NodeState, e: NodeEvent): Option<Result> {
    if e.ResultMsg? then if s.epoch.IsOver() then DecisionOf(c, s, e) else None
    else if e.SlotPassed? && SlotsRunOut(s, c.hash, e.blockId) then ReadyList(s)
    else None
  }

  /** Seating a decided list begins the epoch, and its successor is not ready. */
  lemma InitializeKeeps(s: NodeState)
    requires forall e :: e in s.ready ==> e <= s.NextEpoch()
    requires s.NextEpoch() in s.voting.candidates
    ensures var t := InitializeEpoch(s, s.NextEpoch()).0;
      && BooksInv(t) && t.epoch == Seat(NewEpoch(s.NextEpoch(), s.numSlots), s.voting.candidates[s.NextEpoch()])
  {
  }

  lemma SettleKeeps(s: NodeState, d: Option<Result>)
    requires BooksInv(s)
    ensures var e := s.NextEpoch(); var t := Settle(s, e, d).0;
      BooksInv(t) && t.epoch == if d.Some? && s.epoch.IsOver() then Seat(NewEpoch(e, s.numSlots), d.value) else s.epoch
  {
    if d.Some? && s.epoch.IsOver() {
      InitializeKeeps(Decided(s, s.NextEpoch(), d.value));
    }
  }

  lemma ResultSettles(c: Config, s: NodeState, e: NodeEvent)
    requires e.ResultMsg?
    ensures NodeStep(c, s, e) == if e.epoch != s.NextEpoch() then s
                                 else Settle(Reported(s, e.peer, e.epoch, e.result), e.epoch, DecisionOf(c, s, e)).0
  {
  }

  lemma ReportKeeps(s: NodeState, peer: Key, e: nat, result: Result)
    requires BooksInv(s)
    ensures var r := Reported(s, peer, e, result); BooksInv(r) && r.epoch == s.epoch && r.numSlots == s.numSlots
  {
  }

  lemma ResultBooks(s: NodeState, peer: Key, result: Result, d: Option<Result>)
    requires BooksInv(s)
    ensures var e := s.NextEpoch(); var t := Settle(Reported(s, peer, e, result), e, d).0;
      BooksInv(t) && t.epoch == if d.Some? && s.epoch.IsOver() then Seat(NewEpoch(e, s.numSlots), d.value) else s.epoch
  {
    ReportKeeps(s, peer, s.NextEpoch(), result);
    SettleKeeps(Reported(s, peer, s.NextEpoch(), result), d);
  }

  lemma StepResult(c: Config, s: NodeState, e: NodeEvent)
    requires BooksInv(s) && e.ResultMsg?
    ensures var t := NodeStep(c, s, e);
      BooksInv(t) && (t.epoch == s.epoch || Begun(c, s, e).Some?)
  {
    ResultSettles(c, s, e);
    ResultBooks(s, e.peer, e.result, DecisionOf(c, s, e));
  }

  lemma SlotKeeps(s: NodeState, hash: Hash, blockId: Id)
    requires BooksInv(s)
    ensures var t := NextSlot(s, hash, blockId).0;
      && BooksInv(t)
      && (t.epoch == Increment(s.epoch, hash, blockId) || (SlotsRunOut(s, hash, blockId) && ReadyList(s).Some?))
  {
    var t := s.(epoch := Increment(s.epoch, hash, blockId));
    if t.epoch.witnesses != [] && t.epoch.IsOver() {
      var u := FinalizeEpoch(t);
      if u.NextEpoch() in u.ready {
        InitializeKeeps(u);
      }
    }
  }

  lemma StepSlot(c: Config, s: NodeState, e: NodeEvent)
    requires BooksInv(s) && e.SlotPassed?
    ensures var t := NodeStep(c, s, e);
      BooksInv(t) && (t.epoch == Increment(s.epoch, c.hash, e.blockId) || Begun(c, s, e).Some?)
  {
    SlotKeeps(s, c.hash, e.blockId);
  }

  /** What slots, results and bootstraps may change, and nothing else does. */
  lemma OtherFrame(c: Config, s: NodeState, e: NodeEvent)
    requires !e.SlotPassed? && !e.ResultMsg? && !e.Bootstrapped?
    ensures var t := NodeStep(c, s, e);
      && t.epoch.number == s.epoch.number && |t.epoch.witnesses| == |s.epoch.witnesses| && t.epoch.idx == s.epoch.idx
      && t.ready == s.ready && t.voting.candidates == s.voting.candidates
      && (e.Interrupted? || t.phase == s.phase || (t.phase == Election && s.phase != CatchingUp))
  {
    if e.BallotMsg? {
      BallotFrame(c, s, e.peer, e.epoch, e.votes, e.online, e.sent);
    } else if e.MayVote? {
      VoteFrame(c, s, e.ballot, e.online);
    }
  }

  lemma BallotFrame(c: Config, s: NodeState, peer: Key, n: nat, votes: Ballot, online: nat, sent: Option<Result>)
    ensures var t := HandleVote(c, s, peer, n, votes, online, sent);
      t.epoch == s.epoch && t.ready == s.ready && t.voting.candidates == s.voting.candidates && t.phase == s.phase
  {
  }

  lemma VoteFrame(c: Config, s: NodeState, ballot: Ballot, online: nat)
    ensures var t := NodeStep(c, s, MayVote(ballot, online));
      && t.epoch == s.epoch && t.ready == s.ready && t.voting.candidates == s.voting.candidates
      && (t.phase == s.phase || (t.phase == Election && s.phase != CatchingUp))
  {
  }

  lemma StepOther(c: Config, s: NodeState, e: NodeEvent)
    requires BooksInv(s) && !e.SlotPassed? && !e.ResultMsg? && !e.Bootstrapped?
    ensures BooksInv(NodeStep(c, s, e)) && NodeStep(c, s, e).epoch.number == s.epoch.number
  {
    OtherFrame(c, s, e);
  }

  /** Every event but a bootstrap keeps the books in order, and changes the epoch number only by
      beginning the next epoch, whatever anybody reports. */
  lemma StepInv(c: Config, s: NodeState, e: NodeEvent)
    requires BooksInv(s) && !e.Bootstrapped?
    ensures BooksInv(NodeStep(c, s, e))
    ensures NodeStep(c, s, e).epoch.number == s.epoch.number || Begun(c, s, e).Some?
  {
    if e.ResultMsg? {
      StepResult(c, s, e);
    } else if e.SlotPassed? {
      StepSlot(c, s, e);
    } else {
      StepOther(c, s, e);
    }
  }

  /** An event that begins an epoch begins the next one, with the list's first entries as witnesses and
      the others queued. This holds in every state, bootstrapped or not. */
  lemma BegunSeats(c: Config, s: NodeState, e: NodeEvent)
    requires Begun(c, s, e).Some?
    ensures NodeStep(c, s, e).epoch == Seat(NewEpoch(s.NextEpoch(), s.numSlots), Begun(c, s, e).value)
  {
    if e.ResultMsg? {
      ResultSettles(c, s, e);
      SettleSeats(Reported(s, e.peer, e.epoch, e.result), Begun(c, s, e).value);
    } else {
      SlotSeats(s, c.hash, e.blockId);
    }
  }

  lemma SettleSeats(s: NodeState, w: Result)
    requires s.epoch.IsOver()
    ensures Settle(s, s.NextEpoch(), Some(w)).0.epoch == Seat(NewEpoch(s.NextEpoch(), s.numSlots), w)
  {
  }

  lemma SlotSeats(s: NodeState, hash: Hash, blockId: Id)
    requires SlotsRunOut(s, hash, blockId) && ReadyList(s).Some?
    ensures NextSlot(s, hash, blockId).0.epoch == Seat(NewEpoch(s.NextEpoch(), s.numSlots), ReadyList(s).value)
  {
  }

  /** The slot that ends an epoch forgets that the epoch two before it was ready, and leaves the node idle or
      in the next epoch; any other slot leaves what is ready, and the phase, alone. */
  lemma SlotForgets(s: NodeState, hash: Hash, blockId: Id)
    ensures var t := NextSlot(s, hash, blockId).0; var n := s.epoch.number;
      if SlotsRunOut(s, hash, blockId) then
        && (forall e :: e in t.ready <==> e in s.ready && (n < 2 || e != n - 2))
        && t.phase == (if s.phase == CatchingUp then CatchingUp else if n + 1 in s.ready then Production else Idle)
      else t.ready == s.ready && t.phase == s.phase
  {
  }

  lemma {:induction false} RunInv(c: Config, es: seq<NodeEvent>)
    requires NeverBootstrapped(es)
    ensures BooksInv(From(c, es))
  {
    if es != [] {
      var n := |es| - 1;
      RunInv(c, es[..n]);
      StepInv(c, From(c, es[..n]), es[n]);
    }
  }

  // ---- phases

  lemma PhaseStep(c: Config, s: NodeState, e: NodeEvent)
    requires PhaseInv(s) && !e.Bootstrapped? && !e.Interrupted?
    ensures PhaseInv(NodeStep(c, s, e))
  {
    if e.SlotPassed? {
      PhaseAfterSlot(s, c.hash, e.blockId);
    } else if e.ResultMsg? {
      PhaseAfterSettle(Reported(s, e.peer, e.epoch, e.result), e.epoch, DecisionOf(c, s, e));
    } else {
      OtherFrame(c, s, e);
    }
  }

  lemma PhaseAfterSlot(s: NodeState, hash: Hash, blockId: Id)
    requires PhaseInv(s)
    ensures PhaseInv(NextSlot(s, hash, blockId).0)
  {
    assert |Increment(s.epoch, hash, blockId).witnesses| == |s.epoch.witnesses|;
  }

  lemma PhaseAfterSettle(s: NodeState, e: nat, d: Option<Result>)
    requires PhaseInv(s)
    ensures PhaseInv(Settle(s, e, d).0)
  {
  }

  lemma SeatsStep(c: Config, s: NodeState, e: NodeEvent)
    requires BooksInv(s) && SeatsInv(s) && s.phase != CatchingUp && DecisionOf(c, s, e) != Some([])
    requires !e.Bootstrapped? && !e.Interrupted?
    ensures SeatsInv(NodeStep(c, s, e))
  {
    if e.SlotPassed? {
      SeatsAfterSlot(s, c.hash, e.blockId);
    } else if e.ResultMsg? {
      SeatsAfterResult(c, s, e);
    } else {
      SeatsAfterOther(c, s, e);
    }
  }

  lemma SeatsAfterResult(c: Config, s: NodeState, e: NodeEvent)
    requires BooksInv(s) && SeatsInv(s) && s.phase != CatchingUp && e.ResultMsg? && DecisionOf(c, s, e) != Some([])
    ensures SeatsInv(NodeStep(c, s, e))
  {
    ResultSettles(c, s, e);
    SeatsAfterReport(s, e.peer, e.result, DecisionOf(c, s, e));
  }

  lemma SeatsAfterReport(s: NodeState, peer: Key, result: Result, d: Option<Result>)
    requires BooksInv(s) && SeatsInv(s) && s.phase != CatchingUp && d != Some([])
    ensures SeatsInv(Settle(Reported(s, peer, s.NextEpoch(), result), s.NextEpoch(), d).0)
  {
    ReportKeeps(s, peer, s.NextEpoch(), result);
    SeatsAfterSettle(Reported(s, peer, s.NextEpoch(), result), d);
  }

  lemma SeatsAfterSlot(s: NodeState, hash: Hash, blockId: Id)
    requires BooksInv(s) && SeatsInv(s) && s.phase != CatchingUp
    ensures SeatsInv(NextSlot(s, hash, blockId).0)
  {
    SlotKeeps(s, hash, blockId);
    if SlotsRunOut(s, hash, blockId) && ReadyList(s).Some? {
      SlotSeats(s, hash, blockId);
    }
    assert |Increment(s.epoch, hash, blockId).witnesses| == |s.epoch.witnesses|;
  }

  lemma SeatsAfterSettle(s: NodeState, d: Option<Result>)
    requires BooksInv(s) && SeatsInv(s) && s.phase != CatchingUp && d != Some([])
    ensures SeatsInv(Settle(s, s.NextEpoch(), d).0)
  {
    SettleKeeps(s, d);
  }

  lemma SeatsAfterOther(c: Config, s: NodeState, e: NodeEvent)
    requires SeatsInv(s) && !e.SlotPassed? && !e.ResultMsg? && !e.Bootstrapped? && !e.Interrupted?
    ensures SeatsInv(NodeStep(c, s, e))
  {
    OtherFrame(c, s, e);
  }

  lemma {:induction false} RunPhase(c: Config, es: seq<NodeEvent>)
    requires Uninterrupted(es)
    ensures PhaseInv(From(c, es))
  {
    if es != [] {
      var n := |es| - 1;
      RunPhase(c, es[..n]);
      PhaseStep(c, From(c, es[..n]), es[n]);
    }
  }

  lemma {:induction false} RunSeats(c: Config, es: seq<NodeEvent>)
    requires c.slots >= 1 && SeatsDecided(c, es) && Uninterrupted(es)
    ensures SeatsInv(From(c, es))
  {
    if es != [] {
      var n := |es| - 1;
      SeatsDecidedBefore(c, es, n);
      RunSeats(c, es[..n]);
      RunInv(c, es[..n]);
      RunPhase(c, es[..n]);
      SeatsStep(c, From(c, es[..n]), es[n]);
    }
  }

  lemma SeatsDecidedBefore(c: Config, es: seq<NodeEvent>, n: nat)
    requires n <= |es| && SeatsDecided(c, es)
    ensures SeatsDecided(c, es[..n]) && (n < |es| ==> DecisionOf(c, From(c, es[..n]), es[n]) != Some([]))
  {
    forall i | 0 <= i < n ensures DecisionOf(c, From(c, es[..n][..i]), es[..n][i]) != Some([]) {
      PrefixOfPrefix(es, n, i);
    }
  }

  /** No event of the run decides an empty list. */
  ghost predicate SeatsDecided(c: Config, es: seq<NodeEvent>) {
    forall i :: 0 <= i < |es| ==> DecisionOf(c, From(c, es[..i]), es[i]) != Some([])
  }

  /** In every uninterrupted run an idle node has used all slots of its epoch, and an epoch that is over
      never waits for a successor that is already decided. Unless an empty list is decided, a producing
      node has slots left. */
  lemma PhaseMatchesSlots(c: Config, es: seq<NodeEvent>)
    requires Uninterrupted(es)
    ensures var s := From(c, es);
      && (s.phase == Idle ==> s.epoch.SlotsRemaining() <= 0)
      && (s.epoch.SlotsRemaining() <= 0 ==> s.NextEpoch() !in s.ready)
      && (c.slots >= 1 && SeatsDecided(c, es) ==> (s.phase == Production ==> s.epoch.SlotsRemaining() > 0))
  {
    RunInv(c, es);
    RunPhase(c, es);
    if c.slots >= 1 && SeatsDecided(c, es) {
      RunSeats(c, es);
    }
  }

  /** The exception is real: a node that begins an epoch with an empty list, or with no slots to seat it
      in, produces without any slot. */
  lemma EmptySeats(c: Config, s: NodeState, e: NodeEvent)
    requires PhaseInv(s) && Begun(c, s, e).Some?
    ensures Begun(c, s, e).value == [] || s.numSlots == 0 <==> NodeStep(c, s, e).epoch.SlotsRemaining() <= 0
    ensures NodeStep(c, s, e).phase == Production
  {
    BegunSeats(c, s, e);
  }

  // ---- ballots

  /** Ballots are added or forgotten by the epoch, never replaced. */
  ghost predicate BallotsFollow(s: NodeState, t: NodeState) {
    forall e, k :: HasVoted(s.voting, k, e) && e in t.voting.ballots ==>
      HasVoted(t.voting, k, e) && t.voting.ballots[e].vals[k] == s.voting.ballots[e].vals[k]
  }

  lemma InitializeKeepsBallots(s: NodeState, n: nat)
    ensures BallotsFollow(s, InitializeEpoch(s, n).0)
  {
    forall e, k | HasVoted(s.voting, k, e) && e in InitializeEpoch(s, n).0.voting.ballots
      ensures HasVoted(InitializeEpoch(s, n).0.voting, k, e)
           && InitializeEpoch(s, n).0.voting.ballots[e].vals[k] == s.voting.ballots[e].vals[k]
    {
      if n in s.voting.candidates {
        PurgedIsPart(s.voting, Expired(s.voting.results), e);
      }
    }
  }

  lemma SettleKeepsBallots(s: NodeState, e: nat, d: Option<Result>)
    ensures BallotsFollow(s, Settle(s, e, d).0)
  {
    if d.Some? {
      InitializeKeepsBallots(Decided(s, e, d.value), e);
    }
  }

  lemma BallotsAfterSlot(c: Config, s: NodeState, ev: NodeEvent)
    requires ev.SlotPassed?
    ensures BallotsFollow(s, NodeStep(c, s, ev))
  {
    var u := FinalizeEpoch(s.(epoch := Increment(s.epoch, c.hash, ev.blockId)));
    InitializeKeepsBallots(u, u.NextEpoch());
  }

  lemma NewBallotFollows(s: NodeState, t: NodeState, e: nat, k: Key, b: Ballot)
    requires !HasVoted(s.voting, k, e) && t.voting.ballots == AddBallot(s.voting, e, k, b).ballots
    ensures BallotsFollow(s, t)
  {
  }

  lemma BallotsAfterVote(c: Config, s: NodeState, peer: Key, e: nat, votes: Ballot, online: nat, sent: Option<Result>)
    ensures BallotsFollow(s, HandleVote(c, s, peer, e, votes, online, sent))
  {
    if !Ignored(s, peer, e) {
      NewBallotFollows(s, HandleVote(c, s, peer, e, votes, online, sent), e, peer, votes);
    }
  }

  lemma BallotsAfterOwnVote(c: Config, s: NodeState, ballot: Ballot, online: nat)
    requires ShouldVote(c, s, online)
    ensures BallotsFollow(s, Vote(c, s, ballot))
  {
    NewBallotFollows(s, Vote(c, s, ballot), s.NextEpoch(), c.key, ballot);
  }

  lemma BallotsAfterOther(c: Config, s: NodeState, ev: NodeEvent)
    requires !ev.MayVote? && !ev.BallotMsg? && !ev.ResultMsg? && !ev.SlotPassed?
    ensures BallotsFollow(s, NodeStep(c, s, ev))
  {
    assert NodeStep(c, s, ev).voting.ballots == s.voting.ballots;
  }

  /** The first ballot of a peer for an epoch counts: no event replaces it. */
  lemma FirstBallotCounts(c: Config, s: NodeState, ev: NodeEvent)
    ensures BallotsFollow(s, NodeStep(c, s, ev))
  {
    if ev.ResultMsg? {
      SettleKeepsBallots(Reported(s, ev.peer, ev.epoch, ev.result), ev.epoch,
                         Decision(c, s, ev.peer, ev.epoch, ev.result, ev.online));
    } else if ev.SlotPassed? {
      BallotsAfterSlot(c, s, ev);
    } else if ev.BallotMsg? {
      BallotsAfterVote(c, s, ev.peer, ev.epoch, ev.votes, ev.online, ev.sent);
    } else if ev.MayVote? {
      if ShouldVote(c, s, ev.online) {
        BallotsAfterOwnVote(c, s, ev.ballot, ev.online);
      }
    } else {
      BallotsAfterOther(c, s, ev);
    }
  }

  lemma {:induction false} NodeRunAppend(c: Config, s: NodeState, a: seq<NodeEvent>, b: seq<NodeEvent>)
    ensures NodeRun(c, s, a + b) == NodeRun(c, NodeRun(c, s, a), b)
  {
    if b == [] {
      assert a + b == a;
    } else {
      NodeRunAppend(c, s, a, b[..|b|-1]);
      AppendLast(c, s, a, b);
    }
  }

  lemma AppendLast(c: Config, s: NodeState, a: seq<NodeEvent>, b: seq<NodeEvent>)
    requires b != [] && NodeRun(c, s, a + b[..|b|-1]) == NodeRun(c, NodeRun(c, s, a), b[..|b|-1])
    ensures NodeRun(c, s, a + b) == NodeRun(c, NodeRun(c, s, a), b)
  {
    LastOfAppend(a, b);
    LastStep(c, s, a + b);
    LastStep(c, NodeRun(c, s, a), b);
  }

  lemma LastOfAppend<T>(a: seq<T>, b: seq<T>)
    requires b != []
    ensures (a + b)[..|a+b|-1] == a + b[..|b|-1] && (a + b)[|a+b|-1] == b[|b|-1]
  {
  }

  lemma LastStep(c: Config, s: NodeState, es: seq<NodeEvent>)
    requires es != []
    ensures NodeRun(c, s, es) == NodeStep(c, NodeRun(c, s, es[..|es|-1]), es[|es|-1])
  {
  }

  lemma FromSnoc(c: Config, es: seq<NodeEvent>, ev: NodeEvent)
    ensures From(c, es + [ev]) == NodeStep(c, From(c, es), ev)
  {
    assert (es + [ev])[..|es|] == es;
  }
}
