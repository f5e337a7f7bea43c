/** When a node votes, when ballots are enough and when reports decide, in numbers. */
module Thresholds {
  import opened Types
  import opened PyDict
  import opened Voting
  import opened VotingSystem
  import opened ElectionProperties
  import opened Epoch
  import opened Node
  import opened NodeRuns
  import opened Agreement

  // ---- voting

  /** Before the first epoch, or with at most five slots left of this one. */
  predicate VotingTime(p: EpochState) {
    p.number == 0 || 3 * |p.witnesses| <= p.idx + 5
  }

  /** A node that gets the chance casts its ballot exactly when it is time, more peers are online than there
      are slots, and it has not voted yet. Then it is in the election, unless it is catching up. */
  lemma VotesExactly(c: Config, s: NodeState, ballot: Ballot, online: nat)
    ensures var e := s.epoch.number + 1; var t := NodeStep(c, s, MayVote(ballot, online));
      if VotingTime(s.epoch) && online > s.numSlots && !HasVoted(s.voting, c.key, e) then
        && HasVoted(t.voting, c.key, e) && t.voting.ballots[e].vals[c.key] == ballot
        && t.phase == (if s.phase == CatchingUp then CatchingUp else Election)
        && t == s.(voting := t.voting, phase := t.phase)
      else t == s
  {
  }

  // ---- ballots

  /** The set is complete when it is as large as the online peers are many, and they fill the slots. */
  lemma CompleteSet(c: Config, s: NodeState, e: nat, online: nat)
    ensures AllBallots(c, s, e, online) <==>
      online >= 1 && online >= c.slots && |BallotsFor(s.voting, e).vals.Keys| >= online
  {
    QuorumReached(c.slots, online, online);
    VoterKeys(BallotsFor(s.voting, e));
  }

  /** It can be counted without all of them when it fills the slots and is more than two thirds. */
  lemma SufficientSet(c: Config, s: NodeState, e: nat, online: nat)
    ensures var n := |BallotsFor(s.voting, e).vals.Keys|;
      EnoughBallots(c, s, e, online) <==> n >= c.slots && 3 * n > 2 * online
  {
    VoterKeys(BallotsFor(s.voting, e));
    QuorumReached(c.slots, online, |BallotsFor(s.voting, e).keys|);
  }

  lemma VoterKeys(d: Dict<Key, Ballot>)
    ensures |d.vals.Keys| == |d.keys|
  {
    DistinctSize(d.keys);
    assert forall k :: k in d.vals <==> k in d.keys;
    assert d.vals.Keys == Elements(d.keys);
  }

  // ---- reports

  /** The reports for the epoch of a message, with the one it brings. */
  function ReportsWith(s: NodeState, ev: NodeEvent): Dict<Key, Result>
    requires ev.ResultMsg?
  {
    Put(ResultsFor(s.voting, ev.epoch), ev.peer, ev.result)
  }

  /** Are n equal reports decisive, with so many peers online? */
  predicate Enough(c: Config, s: NodeState, n: nat, online: nat) {
    if s.epoch.number == 0 then n == online else n >= c.slots && 3 * n > 2 * online
  }

  lemma EnoughDecides(c: Config, s: NodeState, n: nat, online: nat)
    ensures Decisive(c, s, n, online) <==> Enough(c, s, n, online)
  {
    QuorumReached(c.slots, online, n);
  }

  /** No list has more reporters than w, and w is first among those that have as many. */
  ghost predicate Foremost(d: Dict<Key, Result>, w: Result) {
    && w in Values(d)
    && (forall x :: |Voters(d, x)| <= |Voters(d, w)|)
    && (forall x :: x in Values(d) && |Voters(d, x)| == |Voters(d, w)| ==>
          IndexOf(Values(d), w) <= IndexOf(Values(d), x))
  }

  lemma WinnerLeads(d: Dict<Key, Result>)
    requires d.keys != []
    ensures Foremost(d, MostCommon(Values(d)))
  {
    var vs := Values(d);
    var w := MostCommon(vs);
    NoneMoreCommon(vs);
    forall x ensures |Voters(d, x)| == multiset(vs)[x] {
      VotersCount(d, x);
    }
    forall x | x in vs && |Voters(d, x)| == |Voters(d, w)| ensures IndexOf(vs, w) <= IndexOf(vs, x) {
      FirstOfTheMostCommon(vs, x);
    }
  }

  lemma OneLeader(d: Dict<Key, Result>, v: Result, w: Result)
    requires Foremost(d, v) && Foremost(d, w)
    ensures v == w
  {
    assert |Voters(d, v)| == |Voters(d, w)|;
    assert IndexOf(Values(d), v) == IndexOf(Values(d), w);
  }

  /** A report for the next epoch decides exactly when the leading list has enough reporters: all peers online
      for the first epoch, and else as many as there are slots and more than two thirds. */
  lemma DecidesExactly(c: Config, s: NodeState, ev: NodeEvent, w: Result)
    requires ev.ResultMsg?
    ensures DecisionOf(c, s, ev) == Some(w) <==>
      && ev.epoch == s.epoch.number + 1 && Foremost(ReportsWith(s, ev), w)
      && Enough(c, s, |Voters(ReportsWith(s, ev), w)|, ev.online)
  {
    var d := ReportsWith(s, ev);
    assert ev.peer in d.keys;
    var v := MostCommon(Values(d));
    WinnerLeads(d);
    VotersCount(d, v);
    EnoughDecides(c, s, |Voters(d, v)|, ev.online);
    if Foremost(d, w) {
      OneLeader(d, v, w);
    }
    if ev.epoch == s.NextEpoch() {
      ReportDecision(c, s, ev);
    }
  }

  lemma ReportDecision(c: Config, s: NodeState, ev: NodeEvent)
    requires ev.ResultMsg? && ev.epoch == s.NextEpoch()
    ensures Values(ReportsWith(s, ev)) != []
    ensures var vs := Values(ReportsWith(s, ev)); var w := MostCommon(vs);
      DecisionOf(c, s, ev) == if Decisive(c, s, multiset(vs)[w], ev.online) then Some(w) else None
  {
    assert ev.peer in ReportsWith(s, ev).keys;
    assert Reported(s, ev.peer, ev.epoch, ev.result).voting.results[ev.epoch] == ReportsWith(s, ev);
  }

  /** Outside the first epoch it is enough that some list has that many reporters. */
  lemma DecidesSomething(c: Config, s: NodeState, ev: NodeEvent)
    requires ev.ResultMsg? && s.epoch.number > 0
    ensures DecisionOf(c, s, ev).Some? <==>
      && ev.epoch == s.epoch.number + 1
      && exists x :: var n := |Voters(ReportsWith(s, ev), x)|; n >= c.slots && 3 * n > 2 * ev.online
  {
    var d := ReportsWith(s, ev);
    assert ev.peer in d.keys;
    var v := MostCommon(Values(d));
    WinnerLeads(d);
    DecidesExactly(c, s, ev, v);
    if DecisionOf(c, s, ev).Some? {
      DecidesExactly(c, s, ev, DecisionOf(c, s, ev).value);
    }
  }

  /** A decision makes its epoch ready with the decided list, or begins it if this epoch is over; a report that
      decides nothing leaves both as they are. */
  lemma DecisionReadies(c: Config, s: NodeState, ev: NodeEvent)
    requires ev.ResultMsg?
    ensures var t, d := NodeStep(c, s, ev), DecisionOf(c, s, ev);
      if d.None? then ReadyList(t) == ReadyList(s) && t.epoch == s.epoch && t.ready == s.ready
      else if s.epoch.IsOver() then t.epoch == Seat(NewEpoch(s.NextEpoch(), s.numSlots), d.value)
      else ReadyList(t) == d && t.epoch == s.epoch
  {
    ResultSettles(c, s, ev);
    if ev.epoch == s.NextEpoch() {
      SettledReady(Reported(s, ev.peer, ev.epoch, ev.result), DecisionOf(c, s, ev));
      SameReady(s, ev.peer, ev.result);
    }
  }

  lemma SettledReady(s: NodeState, d: Option<Result>)
    ensures var t := Settle(s, s.NextEpoch(), d).0;
      if d.None? then t == s
      else if s.epoch.IsOver() then t.epoch == Seat(NewEpoch(s.NextEpoch(), s.numSlots), d.value)
      else ReadyList(t) == d && t.epoch == s.epoch
  {
    if d.Some? && s.epoch.IsOver() {
      SettleSeats(s, d.value);
    }
  }

  lemma SameReady(s: NodeState, peer: Key, result: Result)
    ensures var t := Reported(s, peer, s.NextEpoch(), result);
      ReadyList(t) == ReadyList(s) && t.epoch == s.epoch && t.ready == s.ready && t.numSlots == s.numSlots
  {
  }

  // ---- what the source's return value means

  /** `handle_vote_result` returns True exactly when the report begins an epoch and deleting old data does not
      raise; it raises only while beginning one. */
  lemma NewEpochReturned(c: Config, s: NodeState, ev: NodeEvent)
    requires ev.ResultMsg?
    ensures var r := HandleVoteResult(c, s, ev.peer, ev.epoch, ev.result, ev.online);
      (r.1 <==> Begun(c, s, ev).Some? && r.2) && (!r.2 ==> Begun(c, s, ev).Some?)
  {
  }

  // ---- what a new epoch leaves of old ones

  lemma TidiedBooks(s: NodeState, e: nat)
    requires e in s.voting.candidates && InitializeEpoch(s, e).1
    ensures |InitializeEpoch(s, e).0.voting.results.Keys| <= 9
  {
    if |s.voting.results.Keys| >= 10 {
      RemoveOldLeavesFive(s.voting);
    } else {
      ExpiredExactly(s.voting.results);
    }
  }

  /** When an epoch begins without raising, the books hold results of at most nine epochs. */
  lemma BegunTidies(c: Config, s: NodeState, ev: NodeEvent)
    requires Begun(c, s, ev).Some?
    requires if ev.ResultMsg? then HandleVoteResult(c, s, ev.peer, ev.epoch, ev.result, ev.online).2
             else NextSlot(s, c.hash, ev.blockId).1
    ensures |NodeStep(c, s, ev).voting.results.Keys| <= 9
  {
    if ev.ResultMsg? {
      TidiedBooks(Decided(Reported(s, ev.peer, ev.epoch, ev.result), ev.epoch, Begun(c, s, ev).value), ev.epoch);
    } else {
      var u := FinalizeEpoch(s.(epoch := Increment(s.epoch, c.hash, ev.blockId)));
      TidiedBooks(u, u.NextEpoch());
    }
  }
}
