/** Elections that STV leaves to the tie-break: with strictly falling scores the ranking is the same for
    every hash. */
module TieBreaks {
  import opened Types
  import opened Digest
  import opened Voting
  import opened VotingSystem
  import opened Node

  /** STV elects nobody, so that the tie-break decides alone. */
  function Nobody(bag: multiset<Ballot>, peers: seq<Key>): Result {
    []
  }

  lemma ScoreNext(b: Ballot, x: Key, c: Key)
    ensures BallotScore(b + [x], c) == BallotScore(b, c) + (if x == c then Weight(|b|) else 0.0)
  {
    assert (b + [x])[..|b|] == b;
  }

  lemma ScoreOf(w: Key, x: Key, y: Key, z: Key, c: Key)
    ensures BallotScore([w, x, y, z], c) == (if c == w then 0.5 else 0.0) + (if c == x then 0.25 else 0.0)
                                          + (if c == y then 0.125 else 0.0) + (if c == z then 0.0625 else 0.0)
  {
    ScoreNext([], w, c);
    ScoreNext([w], x, c);
    ScoreNext([w, x], y, c);
    ScoreNext([w, x, y], z, c);
    assert [] + [w] == [w] && [w] + [x] == [w, x] && [w, x] + [y] == [w, x, y] && [w, x, y] + [z] == [w, x, y, z];
    assert Weight(0) == 0.5 && Weight(1) == 0.25 && Weight(2) == 0.125 && Weight(3) == 0.0625;
  }

  lemma TotalNext(bs: seq<Ballot>, b: Ballot, c: Key)
    ensures TotalScore(bs + [b], c) == TotalScore(bs, c) + BallotScore(b, c)
    ensures Named(bs + [b]) == Named(bs) + Elements(b)
  {
    assert (bs + [b])[..|bs|] == bs;
  }

  /** The totals of three ballots. */
  lemma Totals(w: Ballot, x: Ballot, y: Ballot, c: Key)
    ensures TotalScore([w, x, y], c) == BallotScore(w, c) + BallotScore(x, c) + BallotScore(y, c)
    ensures Named([w, x, y]) == Elements(w) + Elements(x) + Elements(y)
  {
    TotalNext([], w, c);
    TotalNext([w], x, c);
    TotalNext([w, x], y, c);
    assert [] + [w] == [w] && [w] + [x] == [w, x] && [w, x] + [y] == [w, x, y];
  }

  lemma FourthTotal(w: Ballot, x: Ballot, y: Ballot, z: Ballot, c: Key)
    ensures TotalScore([w, x, y, z], c) == TotalScore([w, x, y], c) + BallotScore(z, c)
    ensures Named([w, x, y, z]) == Named([w, x, y]) + Elements(z)
  {
    TotalNext([w, x, y], z, c);
    assert [w, x, y] + [z] == [w, x, y, z];
  }

  /** A ranking by strictly falling totals is the best one for every hash. */
  lemma FallingIsBest(bs: seq<Ballot>, hash: Hash, suffix: string, r: Result)
    requires Distinct(r) && forall i, j :: 0 <= i < j < |r| ==> TotalScore(bs, r[i]) > TotalScore(bs, r[j])
    ensures BestOf(Elements(r), bs, hash, suffix, r)
  {
  }

  lemma RankedBreakable(bs: seq<Ballot>, r: Result)
    requires r != [] && Named(bs) == Elements(r) && |Elements(r)| == |r| && forall b :: b in bs ==> |b| <= |r|
    ensures Breakable([], bs, |r|)
  {
    assert Named(bs) - Elements([]) == Named(bs);
    assert forall k :: 0 <= k < |bs| ==> bs[k] in bs;
  }

  lemma RankedTieBreak(bs: seq<Ballot>, hash: Hash, suffix: string, r: Result)
    requires Named(bs) == Elements(r) && BestOf(Elements(r), bs, hash, suffix, r)
    ensures IsTieBreak([], bs, |r|, hash, suffix, r)
  {
    assert Named(bs) - Elements([]) == Named(bs);
    assert r[0..] == r;
  }

  /** So it is the election where STV elects nobody. */
  lemma Ranked(c: Config, bs: seq<Ballot>, e: nat, r: Result)
    requires c.stv == Nobody && |c.peerKeys| == |r| && Distinct(r) && r != []
    requires Named(bs) == Elements(r) && |Elements(r)| == |r| && forall b :: b in bs ==> |b| <= |r|
    requires forall i, j :: 0 <= i < j < |r| ==> TotalScore(bs, r[i]) > TotalScore(bs, r[j])
    ensures Decidable(c.stv, bs, c.peerKeys) && IsElection(c.stv, c.hash, bs, c.peerKeys, e, r)
  {
    FallingIsBest(bs, c.hash, Decimal(e), r);
    RankedBreakable(bs, r);
    RankedTieBreak(bs, c.hash, Decimal(e), r);
  }
}
