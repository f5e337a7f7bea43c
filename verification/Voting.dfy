/** Ballots, results and the seeded tie-break. */
module Voting {
  import opened Types
  import opened Digest
  import opened PyDict

  /** Scottish STV: which candidates a poll elects, in order, without any tie-break. */
  type Stv = (multiset<Ballot>, seq<Key>) -> seq<Key>

  /** What the STV library promises: it elects peers, each at most once. */
  ghost predicate Elected(elected: seq<Key>, peers: seq<Key>) {
    Distinct(elected) && forall k :: k in elected ==> k in peers
  }

  // ---- scores

  /** The weight of the i-th place of a ballot: 1/2, 1/4, 1/8, ... */
  function Weight(i: nat): (w: real)
    ensures w > 0.0
  {
    if i == 0 then 0.5 else Weight(i - 1) / 2.0
  }

  function BallotScore(b: Ballot, c: Key): real {
    if b == [] then 0.0
    else
      var n := |b| - 1;
      BallotScore(b[..n], c) + (if b[n] == c then Weight(n) else 0.0)
  }

  function TotalScore(bs: seq<Ballot>, c: Key): real {
    if bs == [] then 0.0
    else TotalScore(bs[..|bs|-1], c) + BallotScore(bs[|bs|-1], c)
  }

  function Elements(s: seq<Key>): set<Key> {
    set k | k in s
  }

  /** Everybody who appears on some ballot. */
  function Named(bs: seq<Ballot>): set<Key> {
    if bs == [] then {} else Named(bs[..|bs|-1]) + Elements(bs[|bs|-1])
  }

  lemma {:induction false} NoScore(b: Ballot, c: Key)
    requires c !in b
    ensures BallotScore(b, c) == 0.0
  {
    if b != [] {
      NoScore(b[..|b|-1], c);
    }
  }

  lemma {:induction false} NoTotal(bs: seq<Ballot>, c: Key)
    requires c !in Named(bs)
    ensures TotalScore(bs, c) == 0.0
  {
    if bs != [] {
      NoTotal(bs[..|bs|-1], c);
      NoScore(bs[|bs|-1], c);
    }
  }

  // ---- the tie-break, stated without its loops

  /** a is placed before b: by score, and by digest on equal scores. */
  ghost predicate Beats(bs: seq<Ballot>, hash: Hash, suffix: string, a: Key, b: Key) {
    TotalScore(bs, a) > TotalScore(bs, b)
    || (TotalScore(bs, a) == TotalScore(bs, b) && Rank(hash, suffix, a) >= Rank(hash, suffix, b))
  }

  /** `tail` lists the best of `pool`, best first, and beats whoever it leaves out. */
  ghost predicate BestOf(pool: set<Key>, bs: seq<Ballot>, hash: Hash, suffix: string, tail: seq<Key>) {
    && Distinct(tail)
    && (forall i :: 0 <= i < |tail| ==> tail[i] in pool)
    && (forall i, j :: 0 <= i < j < |tail| ==> Beats(bs, hash, suffix, tail[i], tail[j]))
    && (forall i, c :: 0 <= i < |tail| && c in pool && c !in tail ==> Beats(bs, hash, suffix, tail[i], c))
  }

  /** r extends the STV result to n places with the best of the named candidates it lacks. */
  ghost predicate IsTieBreak(prefix: Result, bs: seq<Ballot>, n: nat, hash: Hash, suffix: string, r: Result) {
    && |r| == (if n > |prefix| then n else |prefix|)
    && r[..|prefix|] == prefix
    && BestOf(Named(bs) - Elements(prefix), bs, hash, suffix, r[|prefix|..])
  }

  /** No ballot is longer than the list of weights where that matters, and the ballots name enough candidates. */
  ghost predicate Breakable(prefix: Result, bs: seq<Ballot>, n: nat) {
    && Weighted(prefix, bs, n)
    && |Named(bs) - Elements(prefix)| >= n - |prefix|
  }

  ghost predicate Weighted(prefix: Result, bs: seq<Ballot>, n: nat) {
    forall k, i :: 0 <= k < |bs| && 0 <= i < |bs[k]| && i >= n && i > 0 ==> bs[k][i] in prefix
  }

  // ---- the tie-break as the code runs it

  /** Python's `max` over the values of a dict. */
  function Highest(s: seq<real>): (m: real)
    requires s != []
    ensures m in s && forall i :: 0 <= i < |s| ==> s[i] <= m
  {
    var n := |s| - 1;
    if n == 0 then s[0]
    else
      var m := Highest(s[..n]);
      assert forall i :: 0 <= i < n ==> s[..n][i] == s[i];
      if s[n] > m then s[n] else m
  }

  /** The keys that hold the value v, in iteration order. */
  function Holders(keys: seq<Key>, scores: map<Key, real>, v: real): (r: seq<Key>)
    requires forall k :: k in keys ==> k in scores
    ensures forall k :: k in r <==> k in keys && scores[k] == v
  {
    if keys == [] then []
    else
      var n := |keys| - 1;
      assert keys == keys[..n] + [keys[n]];
      Holders(keys[..n], scores, v) + (if scores[keys[n]] == v then [keys[n]] else [])
  }

  /** `get_slot_winner`: the first of the candidates with the highest digest. */
  function GetSlotWinner(candidates: seq<Key>, hash: Hash, suffix: string): (w: Key)
    requires candidates != []
    ensures w in candidates
    ensures forall c :: c in candidates ==> Rank(hash, suffix, c) <= Rank(hash, suffix, w)
    ensures exists i :: FirstHighest(candidates, hash, suffix, w, i)
  {
    var n := |candidates| - 1;
    if n == 0 then
      assert FirstHighest(candidates, hash, suffix, candidates[0], 0);
      candidates[0]
    else
      assert candidates == candidates[..n] + [candidates[n]];
      var w := GetSlotWinner(candidates[..n], hash, suffix);
      if Rank(hash, suffix, candidates[n]) > Rank(hash, suffix, w) then
        assert FirstHighest(candidates, hash, suffix, candidates[n], n);
        candidates[n]
      else
        assert forall i ::
          FirstHighest(candidates[..n], hash, suffix, w, i) ==> FirstHighest(candidates, hash, suffix, w, i);
        w
  }

  /** w stands at place i and everybody before it has a lower digest. */
  ghost predicate FirstHighest(candidates: seq<Key>, hash: Hash, suffix: string, w: Key, i: nat) {
    && i < |candidates| && candidates[i] == w
    && forall j :: 0 <= j < i ==> Rank(hash, suffix, candidates[j]) < Rank(hash, suffix, w)
  }

  /** `scores` holds exactly the candidates named so far that STV left out, each with its total. */
  ghost predicate Scored(scores: Dict<Key, real>, prefix: Result, bs: seq<Ballot>) {
    && scores.vals.Keys == Named(bs) - Elements(prefix)
    && forall c :: c in scores.vals ==> scores.vals[c] == TotalScore(bs, c)
  }

  ghost predicate PartlyScored(scores: Dict<Key, real>, prefix: Result, bs: seq<Ballot>, b: Ballot) {
    && scores.vals.Keys == Named(bs) + Elements(b) - Elements(prefix)
    && forall c :: c in scores.vals ==> scores.vals[c] == TotalScore(bs, c) + BallotScore(b, c)
  }

  method WeightTable(n: nat) returns (weights: seq<real>)
    ensures |weights| == (if n > 1 then n else 1)
    ensures forall i :: 0 <= i < |weights| ==> weights[i] == Weight(i)
  {
    weights := [0.5];
    var i := 1;
    while i < n
      invariant |weights| == i && (n > 1 ==> i <= n) && i >= 1 && (n <= 1 ==> i == 1)
      invariant forall j :: 0 <= j < i ==> weights[j] == Weight(j)
    {
      weights := weights + [weights[i - 1] / 2.0];
      i := i + 1;
    }
  }

  function AddScore(scores: Dict<Key, real>, c: Key, w: real): Dict<Key, real> {
    Put(scores, c, if c in scores.vals then scores.vals[c] + w else w)
  }

  lemma StartBallot(scores: Dict<Key, real>, prefix: Result, bs: seq<Ballot>, b: Ballot)
    requires Scored(scores, prefix, bs)
    ensures PartlyScored(scores, prefix, bs, b[..0])
  {
    assert b[..0] == [];
  }

  /** The inner scoring loop, over one ballot. */
  method ScoreBallot(start: Dict<Key, real>, prefix: Result, ghost bs: seq<Ballot>, ballot: Ballot, weights: seq<real>)
    returns (r: Outcome<Dict<Key, real>>)
    requires |weights| > 0 && forall i :: 0 <= i < |weights| ==> weights[i] == Weight(i)
    requires Scored(start, prefix, bs)
    ensures r.Returned? <==> forall j :: |weights| <= j < |ballot| ==> ballot[j] in prefix
    ensures r.Returned? ==> PartlyScored(r.value, prefix, bs, ballot)
  {
    var scores := start;
    StartBallot(scores, prefix, bs, ballot);
    var i := 0;
    while i < |ballot|
      invariant 0 <= i <= |ballot|
      invariant forall j :: |weights| <= j < i ==> ballot[j] in prefix
      invariant PartlyScored(scores, prefix, bs, ballot[..i])
    {
      var candidate := ballot[i];
      if candidate !in prefix {
        if i >= |weights| {
          return Raised(IndexError);
        }
        ScoreStep(scores, prefix, bs, ballot, i);
        scores := AddScore(scores, candidate, weights[i]);
      } else {
        ScoreSkip(scores, prefix, bs, ballot, i);
      }
      i := i + 1;
    }
    assert ballot[..i] == ballot;
    return Returned(scores);
  }

  lemma WholeBallot(scores: Dict<Key, real>, prefix: Result, bs: seq<Ballot>, k: nat)
    requires k < |bs| && PartlyScored(scores, prefix, bs[..k], bs[k])
    ensures Scored(scores, prefix, bs[..k+1])
  {
    assert bs[..k+1][..k] == bs[..k];
  }

  method ScoreBallots(prefix: Result, ballots: seq<Ballot>, weights: seq<real>) returns (r: Outcome<Dict<Key, real>>)
    requires |weights| > 0 && forall i :: 0 <= i < |weights| ==> weights[i] == Weight(i)
    ensures r.Returned? <==> Weighted(prefix, ballots, |weights|)
    ensures r.Returned? ==> Scored(r.value, prefix, ballots)
  {
    var scores: Dict<Key, real> := Empty();
    var k := 0;
    while k < |ballots|
      invariant 0 <= k <= |ballots|
      invariant forall j, i :: 0 <= j < k && |weights| <= i < |ballots[j]| ==> ballots[j][i] in prefix
      invariant Scored(scores, prefix, ballots[..k])
    {
      var scored := ScoreBallot(scores, prefix, ballots[..k], ballots[k], weights);
      if scored.Raised? {
        return scored;
      }
      WholeBallot(scored.value, prefix, ballots, k);
      scores := scored.value;
      k := k + 1;
    }
    assert ballots[..k] == ballots;
    return Returned(scores);
  }

  lemma ScoreStep(scores: Dict<Key, real>, prefix: Result, bs: seq<Ballot>, b: Ballot, i: nat)
    requires i < |b| && b[i] !in prefix && PartlyScored(scores, prefix, bs, b[..i])
    ensures PartlyScored(AddScore(scores, b[i], Weight(i)), prefix, bs, b[..i+1])
  {
    ElementsNext(b, i);
    if b[i] !in scores.vals.Keys {
      NoTotal(bs, b[i]);
      NoScore(b[..i], b[i]);
    }
    forall c ensures BallotScore(b[..i+1], c) == BallotScore(b[..i], c) + (if b[i] == c then Weight(i) else 0.0) {
      assert b[..i+1][..i] == b[..i];
    }
  }

  lemma ElementsNext(b: Ballot, i: nat)
    requires i < |b|
    ensures Elements(b[..i+1]) == Elements(b[..i]) + {b[i]}
  {
    assert b[..i+1] == b[..i] + [b[i]];
  }

  lemma ScoreSkip(scores: Dict<Key, real>, prefix: Result, bs: seq<Ballot>, b: Ballot, i: nat)
    requires i < |b| && b[i] in prefix && PartlyScored(scores, prefix, bs, b[..i])
    ensures PartlyScored(scores, prefix, bs, b[..i+1])
  {
    assert b[..i+1] == b[..i] + [b[i]];
  }

  /** After drawing `tail` out of `pool`, `scores` holds the rest of the pool. */
  ghost predicate Drawn(scores: Dict<Key, real>, pool: set<Key>, bs: seq<Ballot>, hash: Hash, suffix: string,
                        tail: seq<Key>) {
    && BestOf(pool, bs, hash, suffix, tail)
    && scores.vals.Keys == pool - Elements(tail)
    && |pool| == |scores.vals.Keys| + |tail|
    && forall c :: c in scores.vals ==> scores.vals[c] == TotalScore(bs, c)
  }

  lemma BestOfStep(pool: set<Key>, bs: seq<Ballot>, hash: Hash, suffix: string, tail: seq<Key>, w: Key)
    requires BestOf(pool, bs, hash, suffix, tail) && w in pool && w !in tail
    requires forall c :: c in pool && c !in tail ==> Beats(bs, hash, suffix, w, c)
    ensures BestOf(pool, bs, hash, suffix, tail + [w])
  {
    var next := tail + [w];
    assert forall c :: c !in next ==> c !in tail;
    forall i, j | 0 <= i < j < |next| ensures next[i] != next[j] && Beats(bs, hash, suffix, next[i], next[j]) {
      if j == |tail| {
        assert next[j] == w && next[i] == tail[i];
      }
    }
    forall i, c | 0 <= i < |next| && c in pool && c !in next ensures Beats(bs, hash, suffix, next[i], c) {
      if i < |tail| {
        assert next[i] == tail[i];
      }
    }
  }

  lemma DrawStep(scores: Dict<Key, real>, pool: set<Key>, bs: seq<Ballot>, hash: Hash, suffix: string, tail: seq<Key>,
                 w: Key)
    requires Drawn(scores, pool, bs, hash, suffix, tail) && w in scores.vals
    requires forall c :: c in scores.vals ==> Beats(bs, hash, suffix, w, c)
    ensures Drawn(Pop(scores, w), pool, bs, hash, suffix, tail + [w])
  {
    assert w in scores.vals.Keys;
    BestOfStep(pool, bs, hash, suffix, tail, w);
    assert Elements(tail + [w]) == Elements(tail) + {w};
    assert Pop(scores, w).vals.Keys == scores.vals.Keys - {w};
  }

  lemma AppendAssoc(a: seq<Key>, b: seq<Key>, c: seq<Key>)
    ensures (a + b) + c == a + (b + c)
  {
  }

  /** One turn of the selection loop: the best remaining candidate. */
  method DrawWinner(scores: Dict<Key, real>, hash: Hash, suffix: string, ghost bs: seq<Ballot>) returns (winner: Key)
    requires scores.keys != []
    requires forall c :: c in scores.vals ==> scores.vals[c] == TotalScore(bs, c)
    ensures winner in scores.vals
    ensures forall c :: c in scores.vals ==> Beats(bs, hash, suffix, winner, c)
  {
    var maxScore := Highest(Values(scores));
    var draws := Holders(scores.keys, scores.vals, maxScore);
    assert draws != [] by {
      var n :| 0 <= n < |scores.keys| && Values(scores)[n] == maxScore;
      assert scores.keys[n] in draws;
    }
    winner := GetSlotWinner(draws, hash, suffix);
    WinnerBeatsRest(scores, bs, hash, suffix, draws);
  }

  method FillSlots(scored: Dict<Key, real>, prefix: Result, n: nat, hash: Hash, suffix: string, ghost bs: seq<Ballot>)
    returns (r: Outcome<Result>)
    requires Scored(scored, prefix, bs)
    ensures r.Returned? <==> |Named(bs) - Elements(prefix)| >= n - |prefix|
    ensures r.Returned? ==> IsTieBreak(prefix, bs, n, hash, suffix, r.value)
  {
    ghost var pool := scored.vals.Keys;
    var scores := scored;
    var ranked := prefix;
    ghost var tail: seq<Key> := [];
    assert Drawn(scores, pool, bs, hash, suffix, tail);
    var i := |prefix|;
    while i < n
      invariant |prefix| <= i && (n > |prefix| ==> i <= n) && (n <= |prefix| ==> i == |prefix|)
      invariant |tail| == i - |prefix| && ranked == prefix + tail
      invariant Drawn(scores, pool, bs, hash, suffix, tail)
    {
      if scores.keys == [] {
        assert scores.vals.Keys == {};
        return Raised(ValueError);
      }
      var winner := DrawWinner(scores, hash, suffix, bs);
      DrawStep(scores, pool, bs, hash, suffix, tail, winner);
      AppendAssoc(prefix, tail, [winner]);
      scores := Pop(scores, winner);
      ranked := ranked + [winner];
      tail := tail + [winner];
      i := i + 1;
    }
    assert ranked[|prefix|..] == tail;
    return Returned(ranked);
  }

  /** `break_ties`. It raises exactly when a needed weight is missing or the scores run out. */
  method BreakTies(result: Result, ballots: seq<Ballot>, numCandidates: nat, hash: Hash, seed: nat)
    returns (r: Outcome<Result>)
    ensures r.Returned? <==> Breakable(result, ballots, numCandidates)
    ensures r.Returned? ==> IsTieBreak(result, ballots, numCandidates, hash, Decimal(seed), r.value)
  {
    var weights := WeightTable(numCandidates);
    var scored := ScoreBallots(result, ballots, weights);
    assert Weighted(result, ballots, |weights|) <==> Weighted(result, ballots, numCandidates);
    if scored.Raised? {
      return Raised(scored.error);
    }
    r := FillSlots(scored.value, result, numCandidates, hash, Decimal(seed), ballots);
  }

  lemma WinnerBeatsRest(scores: Dict<Key, real>, bs: seq<Ballot>, hash: Hash, suffix: string, draws: seq<Key>)
    requires scores.keys != [] && draws != []
    requires draws == Holders(scores.keys, scores.vals, Highest(Values(scores)))
    requires forall c :: c in scores.vals ==> scores.vals[c] == TotalScore(bs, c)
    ensures var w := GetSlotWinner(draws, hash, suffix);
      w in scores.vals && forall c :: c in scores.vals ==> Beats(bs, hash, suffix, w, c)
  {
    var top := Highest(Values(scores));
    var w := GetSlotWinner(draws, hash, suffix);
    forall c | c in scores.vals ensures Beats(bs, hash, suffix, w, c) {
      NoneHigher(scores, c);
      assert scores.vals[c] == top ==> c in draws;
    }
  }

  lemma NoneHigher(scores: Dict<Key, real>, c: Key)
    requires c in scores.vals
    ensures c in scores.keys && scores.vals[c] <= Highest(Values(scores))
  {
    assert c in scores.keys;
    var n :| 0 <= n < |scores.keys| && scores.keys[n] == c;
    assert Values(scores)[n] == scores.vals[c];
  }
}
