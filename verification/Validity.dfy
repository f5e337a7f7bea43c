/** What is seated is the election: when nobody is faulty and everybody counts the same complete set of
    ballots, every report is the election of those ballots, and so is every list that is seated. */
module Validity {
  import opened Types
  import opened Digest
  import opened PyDict
  import opened Voting
  import opened VotingSystem
  import opened ElectionProperties
  import opened Node
  import opened NodeRuns
  import opened Agreement
  import opened OwnReports
  import opened ClosedPolls
  import opened Network

  // ---- ballots are what their voters cast

  /** A ballot for e carries its voter's vote, and so does the node's own. */
  ghost predicate CastAt(c: Config, s: NodeState, ev: NodeEvent, e: nat, votes: map<Key, Ballot>) {
    && (ev.BallotMsg? && ev.epoch == e ==> ev.peer in votes && ev.votes == votes[ev.peer])
    && (ev.MayVote? && s.NextEpoch() == e ==> c.key in votes && ev.ballot == votes[c.key])
  }

  ghost predicate Cast(c: Config, es: seq<NodeEvent>, e: nat, votes: map<Key, Ballot>) {
    forall i :: 0 <= i < |es| ==> CastAt(c, From(c, es[..i]), es[i], e, votes)
  }

  lemma CastBefore(c: Config, es: seq<NodeEvent>, e: nat, votes: map<Key, Ballot>, n: nat)
    requires Cast(c, es, e, votes) && n <= |es|
    ensures Cast(c, es[..n], e, votes) && (n < |es| ==> CastAt(c, From(c, es[..n]), es[n], e, votes))
  {
    forall i | 0 <= i < n ensures CastAt(c, From(c, es[..n][..i]), es[..n][i], e, votes) {
      PrefixOfPrefix(es, n, i);
    }
  }

  lemma NewVote(c: Config, s: NodeState, ev: NodeEvent, e: nat, k: Key, votes: map<Key, Ballot>)
    requires Voter(c, s, ev, e) == Some(k) && CastAt(c, s, ev, e, votes)
    ensures HasVoted(NodeStep(c, s, ev).voting, k, e) && k in votes
    ensures NodeStep(c, s, ev).voting.ballots[e].vals[k] == votes[k]
  {
  }

  lemma {:induction false} BallotsAreVotes(c: Config, es: seq<NodeEvent>, e: nat, votes: map<Key, Ballot>, k: Key)
    requires Cast(c, es, e, votes) && HasVoted(From(c, es).voting, k, e)
    ensures k in votes && From(c, es).voting.ballots[e].vals[k] == votes[k]
  {
    if es != [] {
      var n := |es| - 1;
      CastBefore(c, es, e, votes, n);
      LastStep(c, InitialState(c), es);
      VotersStep(c, From(c, es[..n]), es[n], e, k);
      if HasVoted(From(c, es[..n]).voting, k, e) {
        BallotsAreVotes(c, es[..n], e, votes, k);
        FirstBallotCounts(c, From(c, es[..n]), es[n]);
      } else {
        NewVote(c, From(c, es[..n]), es[n], e, k, votes);
      }
    }
  }

  // ---- every report is the election of all votes

  /** r is the election of the votes, counted in some order. */
  ghost predicate ElectedBy(c: Config, e: nat, votes: map<Key, Ballot>, r: Result) {
    exists d: Dict<Key, Ballot> :: d.vals == votes && IsElection(c.stv, c.hash, Values(d), c.peerKeys, e, r)
  }

  lemma ReportIsElection(c: Config, es: seq<NodeEvent>, e: nat, votes: map<Key, Ballot>, i: nat, r: Result)
    requires GenuineRun(c, es) && Punctual(c, es, e, votes.Keys) && Cast(c, es, e, votes) && ReportedAt(c, es, i, e, r)
    ensures ElectedBy(c, e, votes, r)
  {
    var t := Counting(c, es, i);
    assert ReportsAbout(c, es, i, e);
    ReportsElection(c, es, i, e, r);
    CountsAllVotes(c, es, e, votes, i);
    assert t.voting.ballots[e].vals == votes;
  }

  lemma CountsAllVotes(c: Config, es: seq<NodeEvent>, e: nat, votes: map<Key, Ballot>, i: nat)
    requires Punctual(c, es, e, votes.Keys) && Cast(c, es, e, votes) && ReportsAbout(c, es, i, e)
    ensures var t := Counting(c, es, i); e in t.voting.ballots && t.voting.ballots[e].vals == votes
  {
    var t, u := Counting(c, es, i), From(c, es[..i+1]);
    ReportIsComplete(c, es, e, votes.Keys, i);
    NextPrefix(c, es, i);
    CastBefore(c, es, e, votes, i + 1);
    assert t.voting.ballots == u.voting.ballots;
    assert e in u.voting.ballots;
    forall k | k in u.voting.ballots[e].vals ensures k in votes && u.voting.ballots[e].vals[k] == votes[k] {
      BallotsAreVotes(c, es[..i+1], e, votes, k);
    }
    assert u.voting.ballots[e].vals.Keys == votes.Keys;
  }

  /** Whatever the order, votes without colliding digests have one election. */
  lemma OneElection(c1: Config, c2: Config, e: nat, votes: map<Key, Ballot>, r1: Result, r2: Result)
    requires ElectedBy(c1, e, votes, r1) && ElectedBy(c2, e, votes, r2)
    requires c1.stv == c2.stv && c1.hash == c2.hash && c1.peerKeys == c2.peerKeys
    requires forall d: Dict<Key, Ballot> ::
      d.vals == votes ==> Separated(Values(d), c1.hash, Decimal(e), Named(Values(d)))
    ensures r1 == r2
  {
    var d1: Dict<Key, Ballot> :| d1.vals == votes && IsElection(c1.stv, c1.hash, Values(d1), c1.peerKeys, e, r1);
    var d2: Dict<Key, Ballot> :| d2.vals == votes && IsElection(c2.stv, c2.hash, Values(d2), c2.peerKeys, e, r2);
    OrderIndependent(c1.stv, c1.hash, d1, d2, c1.peerKeys, e, r1, r2);
  }

  // ---- and so is every list that is seated

  /** Nobody is faulty, every poll is punctual and every message genuine, and ballots are what their voters cast. */
  ghost predicate AllHonest(net: Net, e: nat, votes: map<Key, Ballot>) {
    && net.Keys == votes.Keys && Authentic(net, net.Keys, e) && AllPunctual(net, net.Keys, e)
    && forall k :: k in net ==> GenuineRun(net[k].cfg, net[k].events) && Cast(net[k].cfg, net[k].events, e, votes)
  }

  lemma SomebodySaid(net: Net, e: nat, k: Key, j: nat, w: Result) returns (p: Key)
    requires Authentic(net, net.Keys, e) && PollsClose(net, e) && k in net
    requires DecidedAt(net[k].cfg, net[k].events, j, e, w) && AllOnline(net[k].events, e, |net.Keys|)
    ensures p in net && Said(net[p], e, w)
  {
    var other := w + [""];
    RecordsWords(net, net.Keys, e, other, k);
    assert net.Keys - net.Keys == {};
    var voters := DecisionQuorum(net[k].cfg, net[k].events, j, e, w, net.Keys, {}, q => Word(net, e, other, q));
    SomeVoter(net[k].cfg, e, net[k].events[j].online, voters, net.Keys, k);
    p :| p in voters;
    assert Word(net, e, other, p) == w && w != other;
  }

  lemma SomeVoter(c: Config, e: nat, online: nat, voters: set<Key>, members: set<Key>, k: Key)
    requires |voters| >= QuorumSize(c, e, online) && online == |members| && k in members
    ensures voters != {}
  {
  }

  /** Validity: the list that any member seats in e is the election of all members' votes. */
  lemma SeatedIsElection(net: Net, e: nat, votes: map<Key, Ballot>, k: Key, i: nat, list: Result) returns (p: Key)
    requires AllHonest(net, e, votes) && k in net && AllOnline(net[k].events, e, |net.Keys|)
    requires SeatedAt(net[k].cfg, net[k].events, i, e, list)
    ensures p in net && ElectedBy(net[p].cfg, e, votes, list)
  {
    var j := SeatedWasDecided(net[k].cfg, net[k].events, i, e, list);
    PunctualPollsClose(net, net.Keys, e);
    p := SomebodySaid(net, e, k, j, list);
    var m := net[p];
    var x: nat :| ReportedAt(m.cfg, m.events, x, e, list);
    ReportIsElection(m.cfg, m.events, e, votes, x, list);
  }
}
