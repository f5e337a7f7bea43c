/** When a node's polls close with its first report: it is enough that no report timer fires, that ballots
    come from members with all of them online, and that the node never falls back to an earlier epoch. */
module ClosedPolls {
  import opened Types
  import opened Digest
  import opened Voting
  import opened VotingSystem
  import opened ElectionProperties
  import opened Epoch
  import opened Node
  import opened NodeRuns
  import opened Agreement
  import opened OwnReports

  /** No report timer for e fires, and ballots for e come from members while all members are online. */
  ghost predicate Punctual(c: Config, es: seq<NodeEvent>, e: nat, members: set<Key>) {
    && c.key in members
    && (forall i :: 0 <= i < |es| ==> PunctualAt(From(c, es[..i]), es[i], e, members))
  }

  ghost predicate PunctualAt(s: NodeState, ev: NodeEvent, e: nat, members: set<Key>) {
    && (ev.TimerFired? ==> s.timer != Some(e))
    && (ev.BallotMsg? && ev.epoch == e ==> ev.peer in members && ev.online == |members|)
  }

  lemma PunctualBefore(c: Config, es: seq<NodeEvent>, e: nat, members: set<Key>, n: nat)
    requires Punctual(c, es, e, members) && n <= |es|
    ensures Punctual(c, es[..n], e, members) && (n < |es| ==> PunctualAt(From(c, es[..n]), es[n], e, members))
  {
    forall i | 0 <= i < n ensures PunctualAt(From(c, es[..n][..i]), es[..n][i], e, members) {
      PrefixOfPrefix(es, n, i);
    }
  }

  // ---- who has voted

  /** Who casts the ballot for e that this event stores, if it stores one. */
  function Voter(c: Config, s: NodeState, ev: NodeEvent, e: nat): Option<Key> {
    if Accepts(s, ev) && ev.epoch == e then Some(ev.peer)
    else if ev.MayVote? && ShouldVote(c, s, ev.online) && s.NextEpoch() == e then Some(c.key)
    else None
  }

  /** Voters for e after an event: those there were, if they are not forgotten, and the new one. */
  lemma VotersStep(c: Config, s: NodeState, ev: NodeEvent, e: nat, k: Key)
    requires HasVoted(NodeStep(c, s, ev).voting, k, e)
    ensures HasVoted(s.voting, k, e) || Voter(c, s, ev, e) == Some(k)
  {
    if ev.ResultMsg? {
      ResultSettles(c, s, ev);
      VotersAfterSettle(Reported(s, ev.peer, ev.epoch, ev.result), ev.epoch, DecisionOf(c, s, ev), e, k);
    } else if ev.SlotPassed? {
      VotersAfterSlot(s, c.hash, ev.blockId, e, k);
    } else if ev.BallotMsg? {
      VotersAfterBallot(c, s, ev.peer, ev.epoch, ev.votes, ev.online, ev.sent, e, k);
    } else if ev.MayVote? {
      VotersAfterOwnVote(c, s, ev.ballot, ev.online, e, k);
    } else {
      BallotsAfterOther(c, s, ev);
      assert NodeStep(c, s, ev).voting.ballots == s.voting.ballots;
    }
  }

  lemma VotersAfterBallot(c: Config, s: NodeState, peer: Key, n: nat, votes: Ballot, online: nat, sent: Option<Result>,
                          e: nat, k: Key)
    requires HasVoted(HandleVote(c, s, peer, n, votes, online, sent).voting, k, e)
    ensures HasVoted(s.voting, k, e) || (!Ignored(s, peer, n) && n == e && peer == k)
  {
    if !Ignored(s, peer, n) {
      var t := HandleVote(c, s, peer, n, votes, online, sent);
      assert t.voting.ballots == AddBallot(s.voting, n, peer, votes).ballots;
    }
  }

  lemma VotersAfterOwnVote(c: Config, s: NodeState, ballot: Ballot, online: nat, e: nat, k: Key)
    requires HasVoted(NodeStep(c, s, MayVote(ballot, online)).voting, k, e)
    ensures HasVoted(s.voting, k, e) || (ShouldVote(c, s, online) && s.NextEpoch() == e && c.key == k)
  {
  }

  lemma VotersAfterInit(s: NodeState, n: nat, e: nat, k: Key)
    requires HasVoted(InitializeEpoch(s, n).0.voting, k, e)
    ensures HasVoted(s.voting, k, e)
  {
    if n in s.voting.candidates {
      PurgedIsPart(s.voting, Expired(s.voting.results), e);
    }
  }

  lemma VotersAfterSettle(s: NodeState, n: nat, d: Option<Result>, e: nat, k: Key)
    requires HasVoted(Settle(s, n, d).0.voting, k, e)
    ensures HasVoted(s.voting, k, e)
  {
    if d.Some? && s.epoch.IsOver() {
      VotersAfterInit(Decided(s, n, d.value), n, e, k);
    }
  }

  lemma VotersAfterSlot(s: NodeState, hash: Hash, blockId: Id, e: nat, k: Key)
    requires HasVoted(NextSlot(s, hash, blockId).0.voting, k, e)
    ensures HasVoted(s.voting, k, e)
  {
    var u := FinalizeEpoch(s.(epoch := Increment(s.epoch, hash, blockId)));
    if HasVoted(InitializeEpoch(u, u.NextEpoch()).0.voting, k, e) {
      VotersAfterInit(u, u.NextEpoch(), e, k);
    }
  }

  lemma {:induction false} VotersAreMembers(c: Config, es: seq<NodeEvent>, e: nat, members: set<Key>, k: Key)
    requires Punctual(c, es, e, members) && HasVoted(From(c, es).voting, k, e)
    ensures k in members
  {
    if es != [] {
      var n := |es| - 1;
      PunctualBefore(c, es, e, members, n);
      LastStep(c, InitialState(c), es);
      VotersStep(c, From(c, es[..n]), es[n], e, k);
      if HasVoted(From(c, es[..n]).voting, k, e) {
        VotersAreMembers(c, es[..n], e, members, k);
      }
    }
  }

  // ---- while the epoch lasts, nobody's vote is forgotten

  lemma SettleWithin(s: NodeState, d: Option<Result>)
    requires Settle(s, s.NextEpoch(), d).0.epoch.number == s.epoch.number
    ensures Settle(s, s.NextEpoch(), d).0.voting.ballots == s.voting.ballots
  {
  }

  lemma SlotWithin(s: NodeState, hash: Hash, blockId: Id)
    requires NextSlot(s, hash, blockId).0.epoch.number == s.epoch.number
    ensures NextSlot(s, hash, blockId).0.voting.ballots == s.voting.ballots
  {
  }

  lemma BallotsRemain(c: Config, s: NodeState, ev: NodeEvent, e: nat)
    requires e in s.voting.ballots && NodeStep(c, s, ev).epoch.number == s.epoch.number
    ensures e in NodeStep(c, s, ev).voting.ballots
  {
    if ev.ResultMsg? {
      ResultSettles(c, s, ev);
      if ev.epoch == s.NextEpoch() {
        SettleWithin(Reported(s, ev.peer, ev.epoch, ev.result), DecisionOf(c, s, ev));
      }
    } else if ev.SlotPassed? {
      SlotWithin(s, c.hash, ev.blockId);
    } else {
      VotesRemain(c, s, ev, e);
    }
  }

  lemma VotesRemain(c: Config, s: NodeState, ev: NodeEvent, e: nat)
    requires e in s.voting.ballots && !ev.ResultMsg? && !ev.SlotPassed?
    ensures e in NodeStep(c, s, ev).voting.ballots
  {
    if !ev.BallotMsg? && !ev.MayVote? {
      assert NodeStep(c, s, ev).voting.ballots == s.voting.ballots;
    }
  }

  /** The run never falls back to an earlier epoch. */
  ghost predicate Onward(c: Config, es: seq<NodeEvent>) {
    forall i, k :: 0 <= i <= k <= |es| ==> From(c, es[..i]).epoch.number <= From(c, es[..k]).epoch.number
  }

  /** Only resuming from an old payload could make it fall back. */
  lemma NeverBootstrappedOnward(c: Config, es: seq<NodeEvent>)
    requires NeverBootstrapped(es)
    ensures Onward(c, es)
  {
    forall i, k | 0 <= i <= k <= |es| ensures From(c, es[..i]).epoch.number <= From(c, es[..k]).epoch.number {
      EpochsRise(c, es, i, k);
    }
  }

  lemma VotedNext(c: Config, es: seq<NodeEvent>, i: nat, k: Key, e: nat)
    requires i < |es| && From(c, es[..i+1]).epoch.number == From(c, es[..i]).epoch.number
    requires HasVoted(From(c, es[..i]).voting, k, e)
    ensures HasVoted(From(c, es[..i+1]).voting, k, e)
  {
    NextPrefix(c, es, i);
    BallotsRemain(c, From(c, es[..i]), es[i], e);
    FirstBallotCounts(c, From(c, es[..i]), es[i]);
  }

  lemma {:induction false} VotedSince(c: Config, es: seq<NodeEvent>, i: nat, m: nat, k: Key, e: nat)
    requires i <= m <= |es| && Onward(c, es)
    requires From(c, es[..m]).epoch.number == From(c, es[..i]).epoch.number
    requires HasVoted(From(c, es[..i]).voting, k, e)
    ensures HasVoted(From(c, es[..m]).voting, k, e)
  {
    if i < m {
      var n := m - 1;
      VotedSince(c, es, i, n, k, e);
      VotedNext(c, es, n, k, e);
      assert n + 1 == m;
    }
  }

  // ---- the first report comes with the complete set

  lemma CompleteSet(ks: seq<Key>, members: set<Key>)
    requires Distinct(ks) && (forall k :: k in ks ==> k in members) && |ks| >= |members|
    ensures forall k :: k in members ==> k in ks
  {
    DistinctSize(ks);
    SameSize(Elements(ks), members);
  }

  /** In a punctual run a node reports with a ballot after which everybody has voted. */
  lemma ReportIsComplete(c: Config, es: seq<NodeEvent>, e: nat, members: set<Key>, i: nat)
    requires Punctual(c, es, e, members) && ReportsAbout(c, es, i, e)
    ensures AcceptsAt(c, es, i, e)
    ensures forall k :: k in members ==> HasVoted(From(c, es[..i+1]).voting, k, e)
    ensures forall k :: HasVoted(From(c, es[..i+1]).voting, k, e) ==> k in members
  {
    PunctualBefore(c, es, e, members, i);
    PunctualBefore(c, es, e, members, i + 1);
    NextPrefix(c, es, i);
    var t := From(c, es[..i+1]);
    ReportHolds(c, From(c, es[..i]), es[i], e);
    forall k | HasVoted(t.voting, k, e) ensures k in members {
      VotersAreMembers(c, es[..i+1], e, members, k);
    }
    var ks := BallotsFor(t.voting, e).keys;
    assert forall k :: k in ks ==> HasVoted(t.voting, k, e);
    CompleteSet(ks, members);
  }

  lemma ReportHolds(c: Config, s: NodeState, ev: NodeEvent, e: nat)
    requires OwnReport(c, s, ev).Some? && OwnReport(c, s, ev).value.epoch == e
    requires ev.TimerFired? ==> s.timer != Some(e)
    ensures Accepts(s, ev) && ev.epoch == e && |BallotsFor(NodeStep(c, s, ev).voting, e).keys| >= ev.online
  {
  }

  /** Then no later ballot is accepted, so the node reports once. */
  lemma PunctualPollCloses(c: Config, es: seq<NodeEvent>, e: nat, members: set<Key>)
    requires Punctual(c, es, e, members) && Onward(c, es)
    ensures PollCloses(c, es, e)
  {
    forall i, m | i < m && ReportsAbout(c, es, i, e) ensures !AcceptsAt(c, es, m, e) {
      if AcceptsAt(c, es, m, e) {
        LateBallotRefused(c, es, e, members, i, m);
      }
    }
  }

  lemma AcceptedFor(c: Config, es: seq<NodeEvent>, m: nat, e: nat)
    requires AcceptsAt(c, es, m, e)
    ensures From(c, es[..m]).NextEpoch() == e == From(c, es[..m+1]).NextEpoch()
    ensures !HasVoted(From(c, es[..m]).voting, es[m].peer, e)
  {
    NextPrefix(c, es, m);
  }

  lemma LateBallotRefused(c: Config, es: seq<NodeEvent>, e: nat, members: set<Key>, i: nat, m: nat)
    requires Punctual(c, es, e, members) && Onward(c, es) && i < m && ReportsAbout(c, es, i, e)
    ensures !AcceptsAt(c, es, m, e)
  {
    if AcceptsAt(c, es, m, e) {
      var p := es[m].peer;
      PunctualBefore(c, es, e, members, m);
      ReportIsComplete(c, es, e, members, i);
      AcceptedFor(c, es, i, e);
      AcceptedFor(c, es, m, e);
      VotedSince(c, es, i + 1, m, p, e);
      assert false;
    }
  }
}
