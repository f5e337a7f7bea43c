/** What the election promises: the outcome does not depend on the order in which ballots arrived,
    it ranks every peer once, and it respects unanimous preferences. */
module ElectionProperties {
  import opened Types
  import opened Digest
  import opened PyDict
  import opened Voting
  import opened VotingSystem

  // ---- dicts with the same entries

  function Lookups<V>(ks: seq<Key>, m: map<Key, V>): (r: seq<V>)
    requires forall k :: k in ks ==> k in m
    ensures |r| == |ks| && forall i :: 0 <= i < |ks| ==> r[i] == m[ks[i]]
  {
    seq(|ks|, i requires 0 <= i < |ks| => m[ks[i]])
  }

  lemma SplitAt<T>(s: seq<T>, k: nat)
    requires k < |s|
    ensures multiset(s) == multiset(s[..k] + s[k+1..]) + multiset{s[k]}
    ensures multiset(s[..k] + s[k+1..]) == multiset(s) - multiset{s[k]}
  {
    assert s == s[..k] + [s[k]] + s[k+1..];
  }

  /** Two bags stay equal when the same element leaves both. */
  lemma TakeFromBoth<T>(xs: seq<T>, ys: seq<T>, i: nat, k: nat)
    requires multiset(xs) == multiset(ys) && i < |xs| && k < |ys| && xs[i] == ys[k]
    ensures multiset(xs[..i] + xs[i+1..]) == multiset(ys[..k] + ys[k+1..])
  {
    SplitAt(xs, i);
    SplitAt(ys, k);
  }

  lemma SamePlace<T>(xs: seq<T>, ys: seq<T>, i: nat) returns (k: nat)
    requires multiset(xs) == multiset(ys) && i < |xs|
    ensures k < |ys| && ys[k] == xs[i]
    ensures multiset(xs[..i] + xs[i+1..]) == multiset(ys[..k] + ys[k+1..])
  {
    assert xs[i] in multiset(xs);
    k :| 0 <= k < |ys| && ys[k] == xs[i];
    TakeFromBoth(xs, ys, i, k);
  }

  lemma LookupsSplit<V>(ks: seq<Key>, k: nat, m: map<Key, V>)
    requires k < |ks| && forall k :: k in ks ==> k in m
    ensures forall x :: x in ks[..k] + ks[k+1..] ==> x in m
    ensures multiset(Lookups(ks, m)) == multiset(Lookups(ks[..k] + ks[k+1..], m)) + multiset{m[ks[k]]}
  {
    var ls := Lookups(ks, m);
    SplitAt(ls, k);
    assert Lookups(ks[..k] + ks[k+1..], m) == ls[..k] + ls[k+1..];
  }

  lemma {:induction false} LookupsPermuted<V>(xs: seq<Key>, ys: seq<Key>, m: map<Key, V>)
    requires multiset(xs) == multiset(ys)
    requires (forall k :: k in xs ==> k in m) && forall k :: k in ys ==> k in m
    ensures multiset(Lookups(xs, m)) == multiset(Lookups(ys, m))
  {
    if xs == [] {
      assert |multiset(ys)| == |ys|;
    } else {
      var n := |xs| - 1;
      var k := SamePlace(xs, ys, n);
      LookupsSplit(xs, n, m);
      LookupsSplit(ys, k, m);
      assert xs[..n] + xs[n+1..] == xs[..n];
      LookupsPermuted(xs[..n], ys[..k] + ys[k+1..], m);
    }
  }

  lemma SameElements(xs: seq<Key>, ys: seq<Key>)
    requires Distinct(xs) && Distinct(ys) && forall k :: k in xs <==> k in ys
    ensures multiset(xs) == multiset(ys) && |xs| == |ys|
  {
    forall k ensures multiset(xs)[k] == multiset(ys)[k] {
      DistinctOnce(xs, k);
      DistinctOnce(ys, k);
    }
    assert |multiset(xs)| == |xs| && |multiset(ys)| == |ys|;
  }

  /** The values of a dict form the same bag whatever the insertion order. */
  lemma SameBag<V>(d1: Dict<Key, V>, d2: Dict<Key, V>)
    requires d1.vals == d2.vals
    ensures multiset(Values(d1)) == multiset(Values(d2))
  {
    SameElements(d1.keys, d2.keys);
    LookupsPermuted(d1.keys, d2.keys, d1.vals);
    assert Values(d1) == Lookups(d1.keys, d1.vals) && Values(d2) == Lookups(d2.keys, d1.vals);
  }

  // ---- scores do not depend on the order of the ballots

  lemma {:induction false} ScoreWithout(bs: seq<Ballot>, k: nat, c: Key)
    requires k < |bs|
    ensures TotalScore(bs, c) == TotalScore(bs[..k] + bs[k+1..], c) + BallotScore(bs[k], c)
  {
    var n := |bs| - 1;
    var rest := bs[..k] + bs[k+1..];
    if k == n {
      assert rest == bs[..n];
    } else {
      ScoreWithout(bs[..n], k, c);
      LastTwo(bs, k);
    }
  }

  lemma LastTwo(bs: seq<Ballot>, k: nat)
    requires k < |bs| - 1
    ensures var n := |bs| - 1; var rest := bs[..k] + bs[k+1..];
      |rest| == n && rest[..n-1] == bs[..n][..k] + bs[..n][k+1..] && rest[n-1] == bs[n] && bs[..n][k] == bs[k]
  {
  }

  lemma {:induction false} ScoreOrder(xs: seq<Ballot>, ys: seq<Ballot>, c: Key)
    requires multiset(xs) == multiset(ys)
    ensures TotalScore(xs, c) == TotalScore(ys, c)
  {
    if xs == [] {
      assert |multiset(ys)| == |ys|;
    } else {
      var n := |xs| - 1;
      var k := SamePlace(xs, ys, n);
      assert xs[..n] + xs[n+1..] == xs[..n];
      ScoreWithout(ys, k, c);
      ScoreOrder(xs[..n], ys[..k] + ys[k+1..], c);
    }
  }

  lemma {:induction false} NamedOnBallot(bs: seq<Ballot>, c: Key)
    ensures c in Named(bs) <==> exists b :: b in bs && c in b
  {
    if bs != [] {
      NamedOnBallot(bs[..|bs|-1], c);
      assert bs == bs[..|bs|-1] + [bs[|bs|-1]];
    }
  }

  lemma NamedOrder(xs: seq<Ballot>, ys: seq<Ballot>)
    requires multiset(xs) == multiset(ys)
    ensures Named(xs) == Named(ys)
  {
    assert forall b :: b in xs <==> b in multiset(ys);
    forall c ensures c in Named(xs) <==> c in Named(ys) {
      NamedOnBallot(xs, c);
      NamedOnBallot(ys, c);
    }
  }

  /** No needed weight is missing, ballot by ballot. */
  lemma WeightedByBallot(prefix: Result, bs: seq<Ballot>, n: nat)
    ensures Weighted(prefix, bs, n) <==> forall b :: b in bs ==> Weighted(prefix, [b], n)
  {
    if Weighted(prefix, bs, n) {
      forall b | b in bs ensures Weighted(prefix, [b], n) {
        var k :| 0 <= k < |bs| && bs[k] == b;
      }
    } else {
      var k, i :| 0 <= k < |bs| && 0 <= i < |bs[k]| && i >= n && i > 0 && bs[k][i] !in prefix;
      assert [bs[k]][0][i] !in prefix && bs[k] in bs;
    }
  }

  // ---- one outcome

  /** No two of the keys have both the same score and the same digest. */
  ghost predicate Separated(bs: seq<Ballot>, hash: Hash, suffix: string, pool: set<Key>) {
    forall a, b :: a in pool && b in pool && a != b && TotalScore(bs, a) == TotalScore(bs, b)
      ==> Rank(hash, suffix, a) != Rank(hash, suffix, b)
  }

  /** Unless tied candidates have colliding digests, the best n of a pool form one list only. */
  lemma {:induction false} BestOfUnique(pool: set<Key>, xs: seq<Ballot>, ys: seq<Ballot>, hash: Hash, suffix: string,
                                        s: seq<Key>, t: seq<Key>, n: nat)
    requires BestOf(pool, xs, hash, suffix, s) && BestOf(pool, ys, hash, suffix, t) && |s| == |t| && n <= |s|
    requires forall c :: TotalScore(xs, c) == TotalScore(ys, c)
    requires Separated(xs, hash, suffix, pool)
    ensures s[..n] == t[..n]
  {
    if n > 0 {
      var i := n - 1;
      BestOfUnique(pool, xs, ys, hash, suffix, s, t, i);
      if s[i] != t[i] {
        Ahead(pool, xs, hash, suffix, s, t, i);
        Ahead(pool, ys, hash, suffix, t, s, i);
        assert false;
      }
    }
  }

  lemma Ahead(pool: set<Key>, bs: seq<Ballot>, hash: Hash, suffix: string, s: seq<Key>, t: seq<Key>, i: nat)
    requires BestOf(pool, bs, hash, suffix, s) && i < |s| == |t|
    requires Distinct(t) && t[i] in pool && s[..i] == t[..i] && s[i] != t[i]
    ensures Beats(bs, hash, suffix, s[i], t[i])
  {
    if t[i] in s {
      assert forall j :: 0 <= j < i ==> s[j] == s[..i][j] == t[j];
      var j :| 0 <= j < |s| && s[j] == t[i];
      assert j > i;
    }
  }

  /** The result a node computes from its ballots is the same whatever the order of arrival. */
  lemma OrderIndependent(stv: Stv, hash: Hash, d1: Dict<Key, Ballot>, d2: Dict<Key, Ballot>,
                         peers: seq<Key>, epoch: nat, r1: Result, r2: Result)
    requires d1.vals == d2.vals
    requires IsElection(stv, hash, Values(d1), peers, epoch, r1)
    requires IsElection(stv, hash, Values(d2), peers, epoch, r2)
    requires Separated(Values(d1), hash, Decimal(epoch), Named(Values(d1)))
    ensures r1 == r2
  {
    var xs, ys := Values(d1), Values(d2);
    SameBag(d1, d2);
    var prefix := stv(multiset(xs), peers);
    if |prefix| < |peers| {
      forall c ensures TotalScore(xs, c) == TotalScore(ys, c) {
        ScoreOrder(xs, ys, c);
      }
      NamedOrder(xs, ys);
      SameTieBreak(prefix, xs, ys, |peers|, hash, Decimal(epoch), r1, r2);
    }
  }

  lemma DecidableOrder(stv: Stv, xs: seq<Ballot>, ys: seq<Ballot>, peers: seq<Key>)
    requires multiset(xs) == multiset(ys)
    ensures Decidable(stv, xs, peers) <==> Decidable(stv, ys, peers)
  {
    NamedOrder(xs, ys);
    var prefix := stv(multiset(xs), peers);
    WeightedByBallot(prefix, xs, |peers|);
    WeightedByBallot(prefix, ys, |peers|);
    assert forall b :: b in xs <==> b in multiset(ys);
  }

  /** Whether the calculation succeeds does not depend on the order of arrival either. */
  lemma SuccessOrderIndependent(stv: Stv, d1: Dict<Key, Ballot>, d2: Dict<Key, Ballot>, peers: seq<Key>)
    requires d1.vals == d2.vals
    ensures Decidable(stv, Values(d1), peers) <==> Decidable(stv, Values(d2), peers)
  {
    SameBag(d1, d2);
    DecidableOrder(stv, Values(d1), Values(d2), peers);
  }

  lemma BestOrder(pool: set<Key>, xs: seq<Ballot>, ys: seq<Ballot>, hash: Hash, suffix: string, tail: seq<Key>)
    requires multiset(xs) == multiset(ys) && BestOf(pool, xs, hash, suffix, tail)
    ensures BestOf(pool, ys, hash, suffix, tail)
  {
    forall a, b ensures Beats(xs, hash, suffix, a, b) <==> Beats(ys, hash, suffix, a, b) {
      ScoreOrder(xs, ys, a);
      ScoreOrder(xs, ys, b);
    }
  }

  /** An election stays one in any order of the ballots. */
  lemma ElectionOrder(stv: Stv, hash: Hash, xs: seq<Ballot>, ys: seq<Ballot>, peers: seq<Key>, epoch: nat, r: Result)
    requires multiset(xs) == multiset(ys) && IsElection(stv, hash, xs, peers, epoch, r)
    ensures IsElection(stv, hash, ys, peers, epoch, r)
  {
    var prefix := stv(multiset(xs), peers);
    if |prefix| < |peers| {
      NamedOrder(xs, ys);
      BestOrder(Named(xs) - Elements(prefix), xs, ys, hash, Decimal(epoch), r[|prefix|..]);
    }
  }

  lemma SameTieBreak(prefix: seq<Key>, xs: seq<Ballot>, ys: seq<Ballot>, size: nat, hash: Hash, suffix: string,
                     r1: seq<Key>, r2: seq<Key>)
    requires IsTieBreak(prefix, xs, size, hash, suffix, r1) && IsTieBreak(prefix, ys, size, hash, suffix, r2)
    requires Named(xs) == Named(ys) && Separated(xs, hash, suffix, Named(xs))
    requires forall c :: TotalScore(xs, c) == TotalScore(ys, c)
    ensures r1 == r2
  {
    var n := |prefix|;
    var s, t := r1[n..], r2[n..];
    BestOfUnique(Named(xs) - Elements(prefix), xs, ys, hash, suffix, s, t, |s|);
    EqualInParts(r1, r2, n);
  }

  lemma EqualInParts<T>(a: seq<T>, b: seq<T>, n: nat)
    requires |a| == |b| && n <= |a| && a[..n] == b[..n] && a[n..][..|a|-n] == b[n..][..|a|-n]
    ensures a == b
  {
    assert a == a[..n] + a[n..][..|a|-n] && b == b[..n] + b[n..][..|b|-n];
  }

  // ---- full ballots rank every peer once

  /** A ballot as `fill_ballot` makes it: every peer exactly once. */
  ghost predicate FullBallot(b: Ballot, peers: seq<Key>) {
    multiset(b) == multiset(peers)
  }

  lemma PermutedElements(xs: seq<Key>, ys: seq<Key>)
    requires multiset(xs) == multiset(ys)
    ensures Elements(xs) == Elements(ys) && |xs| == |ys|
  {
    forall k ensures k in xs <==> k in ys {
      assert k in xs <==> k in multiset(xs);
      assert k in ys <==> k in multiset(ys);
    }
    assert |multiset(xs)| == |xs| && |multiset(ys)| == |ys|;
  }

  lemma {:induction false} NamedAll(bs: seq<Ballot>, peers: seq<Key>)
    requires bs != [] && forall b :: b in bs ==> FullBallot(b, peers)
    ensures Named(bs) == Elements(peers)
  {
    var n := |bs| - 1;
    assert bs[n] in bs;
    PermutedElements(bs[n], peers);
    if n > 0 {
      NamedAll(bs[..n], peers);
    } else {
      assert Named(bs[..n]) == {};
    }
  }

  lemma {:induction false} DistinctSize(s: seq<Key>)
    requires Distinct(s)
    ensures |Elements(s)| == |s|
  {
    if s != [] {
      var n := |s| - 1;
      DistinctSize(s[..n]);
      assert Elements(s) == Elements(s[..n]) + {s[n]};
    }
  }

  lemma MissingCount(prefix: seq<Key>, peers: seq<Key>)
    requires Distinct(peers) && Elected(prefix, peers)
    ensures |Elements(peers) - Elements(prefix)| == |peers| - |prefix|
  {
    DistinctSize(peers);
    DistinctSize(prefix);
    assert Elements(prefix) <= Elements(peers);
  }

  /** With at least one ballot, all of them full, the tie-break never raises and the result is the
      STV list followed by every missing peer: a permutation of the peers. */
  lemma FullBallotsRankEveryPeer(stv: Stv, hash: Hash, bs: seq<Ballot>, peers: seq<Key>, epoch: nat)
    requires Distinct(peers) && Elected(stv(multiset(bs), peers), peers)
    requires bs != [] && forall b :: b in bs ==> FullBallot(b, peers)
    ensures Decidable(stv, bs, peers)
    ensures forall r :: IsElection(stv, hash, bs, peers, epoch, r) ==>
      stv(multiset(bs), peers) <= r && multiset(r) == multiset(peers)
  {
    var prefix := stv(multiset(bs), peers);
    NamedAll(bs, peers);
    MissingCount(prefix, peers);
    forall k | 0 <= k < |bs| ensures |bs[k]| == |peers| {
      assert bs[k] in bs;
      PermutedElements(bs[k], peers);
    }
    forall r | IsElection(stv, hash, bs, peers, epoch, r)
      ensures prefix <= r && multiset(r) == multiset(peers)
    {
      Completes(prefix, r, peers);
    }
  }

  lemma Completes(prefix: seq<Key>, r: seq<Key>, peers: seq<Key>)
    requires Distinct(peers) && Elected(prefix, peers)
    requires |prefix| <= |r| == |peers| && r[..|prefix|] == prefix && Distinct(r[|prefix|..])
    requires forall k :: k in r[|prefix|..] ==> k in peers && k !in prefix
    ensures prefix <= r && multiset(r) == multiset(peers)
  {
    DistinctSize(peers);
    DistinctSize(prefix);
    assert Elements(prefix) <= Elements(peers);
    SetSizes(Elements(prefix), Elements(peers));
    assert r == prefix + r[|prefix|..];
    forall i, j | 0 <= i < j < |r| ensures r[i] != r[j] {
      if j >= |prefix| {
        assert r[j] == r[|prefix|..][j-|prefix|] && r[j] in r[|prefix|..];
        if i >= |prefix| {
          assert r[i] == r[|prefix|..][i-|prefix|];
        } else {
          assert r[i] == prefix[i];
        }
      } else {
        assert r[i] == prefix[i] && r[j] == prefix[j];
      }
    }
    DistinctSize(r);
    assert Elements(r) <= Elements(peers);
    SameSize(Elements(r), Elements(peers));
    assert forall k :: k in r <==> k in Elements(r);
    assert forall k :: k in peers <==> k in Elements(peers);
    SameElements(r, peers);
  }

  lemma SameSize(a: set<Key>, b: set<Key>)
    requires a <= b && |a| >= |b|
    ensures a == b
  {
    assert b == a + (b - a);
  }

  // ---- unanimous preferences

  lemma {:induction false} WeightsFall(i: nat, j: nat)
    requires i < j
    ensures Weight(i) > Weight(j)
  {
    if i + 1 < j {
      WeightsFall(i, j - 1);
    }
  }

  lemma {:induction false} ScoreIsWeight(b: Ballot, i: nat)
    requires Distinct(b) && i < |b|
    ensures BallotScore(b, b[i]) == Weight(i)
  {
    var n := |b| - 1;
    if i == n {
      NoScore(b[..n], b[n]);
    } else {
      ScoreIsWeight(b[..n], i);
    }
  }

  ghost predicate Precedes(s: seq<Key>, a: Key, b: Key) {
    exists i, j :: 0 <= i < j < |s| && s[i] == a && s[j] == b
  }

  lemma {:induction false} UnanimousScore(bs: seq<Ballot>, a: Key, b: Key)
    requires forall x :: x in bs ==> Distinct(x) && Precedes(x, a, b)
    ensures if bs == [] then TotalScore(bs, a) == TotalScore(bs, b) else TotalScore(bs, a) > TotalScore(bs, b)
  {
    if bs != [] {
      var n := |bs| - 1;
      UnanimousScore(bs[..n], a, b);
      assert bs[n] in bs;
      var i, j :| 0 <= i < j < |bs[n]| && bs[n][i] == a && bs[n][j] == b;
      ScoreIsWeight(bs[n], i);
      ScoreIsWeight(bs[n], j);
      WeightsFall(i, j);
    }
  }

  lemma RepeatedTwice(xs: seq<Key>, i: nat, j: nat)
    requires i < j < |xs| && xs[i] == xs[j]
    ensures multiset(xs)[xs[i]] >= 2
  {
    SplitAt(xs, i);
    assert (xs[..i] + xs[i+1..])[j-1] == xs[i];
  }

  lemma PermutedDistinct(xs: seq<Key>, ys: seq<Key>)
    requires multiset(xs) == multiset(ys) && Distinct(ys)
    ensures Distinct(xs)
  {
    forall i, j | 0 <= i < j < |xs| ensures xs[i] != xs[j] {
      DistinctOnce(ys, xs[i]);
      if xs[i] == xs[j] {
        RepeatedTwice(xs, i, j);
      }
    }
  }

  lemma HigherScoreFirst(pool: set<Key>, bs: seq<Ballot>, hash: Hash, suffix: string, tail: seq<Key>, a: Key, b: Key)
    requires BestOf(pool, bs, hash, suffix, tail) && a in tail && b in tail
    requires TotalScore(bs, a) > TotalScore(bs, b)
    ensures Precedes(tail, a, b)
  {
    var i :| 0 <= i < |tail| && tail[i] == a;
    var j :| 0 <= j < |tail| && tail[j] == b;
    assert j < i ==> Beats(bs, hash, suffix, tail[j], tail[i]);
  }

  lemma PrecedesInTail(prefix: seq<Key>, tail: seq<Key>, a: Key, b: Key)
    requires Precedes(tail, a, b)
    ensures Precedes(prefix + tail, a, b)
  {
    var i, j :| 0 <= i < j < |tail| && tail[i] == a && tail[j] == b;
    assert (prefix + tail)[|prefix| + i] == a && (prefix + tail)[|prefix| + j] == b;
  }

  /** If every ballot ranks a above b, and STV elected neither, a precedes b in the result. */
  lemma UnanimityRespected(stv: Stv, hash: Hash, bs: seq<Ballot>, peers: seq<Key>, epoch: nat, r: Result, a: Key,
                           b: Key)
    requires Distinct(peers) && Elected(stv(multiset(bs), peers), peers)
    requires bs != [] && forall x :: x in bs ==> FullBallot(x, peers) && Precedes(x, a, b)
    requires a !in stv(multiset(bs), peers) && b !in stv(multiset(bs), peers)
    requires IsElection(stv, hash, bs, peers, epoch, r)
    ensures Precedes(r, a, b)
  {
    var prefix := stv(multiset(bs), peers);
    forall x | x in bs ensures Distinct(x) {
      PermutedDistinct(x, peers);
    }
    UnanimousScore(bs, a, b);
    assert bs[0] in bs;
    PermutedElements(bs[0], peers);
    assert a in Elements(bs[0]) && b in Elements(bs[0]);
    FullBallotsRankEveryPeer(stv, hash, bs, peers, epoch);
    PermutedElements(r, peers);
    assert a in Elements(r) && b in Elements(r);
    MissingCount(prefix, peers);
    assert a in Elements(peers) - Elements(prefix);
    var tail := r[|prefix|..];
    assert r == prefix + tail;
    HigherScoreFirst(Named(bs) - Elements(prefix), bs, hash, Decimal(epoch), tail, a, b);
    PrecedesInTail(prefix, tail, a, b);
  }

  // ---- ballots

  lemma RemoveAtBag<T>(s: seq<T>, i: nat)
    requires i < |s|
    ensures multiset(RemoveAt(s, i)) == multiset(s) - multiset{s[i]}
  {
    SplitAt(s, i);
  }

  /** Whatever is drawn is a permutation of the peers. */
  lemma {:induction false} DrawnIsPermutation(population: seq<Key>, weights: seq<real>, ballot: Ballot)
    requires |population| == |weights| && CanDraw(population, weights, ballot)
    ensures multiset(ballot) == multiset(population)
    decreases |population|
  {
    if population != [] {
      var j := IndexOf(population, ballot[0]);
      DrawnIsPermutation(RemoveAt(population, j), RemoveAt(weights, j), ballot[1..]);
      RemoveAtBag(population, j);
      assert ballot == [ballot[0]] + ballot[1..];
      assert population[j] in multiset(population);
    }
  }

  /** With positive weights, the ballots that can be drawn are exactly the
      permutations of the peers: nobody is ever left out, and no order is ruled out. */
  lemma {:induction false} AnyPermutationCanBeDrawn(population: seq<Key>, weights: seq<real>, ballot: Ballot)
    requires |population| == |weights| && forall i :: 0 <= i < |weights| ==> weights[i] > 0.0
    ensures CanDraw(population, weights, ballot) <==> multiset(ballot) == multiset(population)
    decreases |population|
  {
    if CanDraw(population, weights, ballot) {
      DrawnIsPermutation(population, weights, ballot);
    } else if multiset(ballot) == multiset(population) {
      assert |multiset(ballot)| == |ballot| && |multiset(population)| == |population|;
      assert ballot[0] in multiset(ballot);
      var j := IndexOf(population, ballot[0]);
      TakeFromBoth(ballot, population, 0, j);
      assert ballot[..0] + ballot[1..] == ballot[1..];
      AnyPermutationCanBeDrawn(RemoveAt(population, j), RemoveAt(weights, j), ballot[1..]);
      assert false;
    }
  }

  // ---- what a place on a ballot is worth

  /** The weights of the places from i up to, but not including, n. */
  function WeightsFrom(i: nat, n: nat): real
    decreases n
  {
    if n <= i then 0.0 else WeightsFrom(i, n - 1) + Weight(n - 1)
  }

  /** The first place is worth a half, and every place is worth what all places after it approach together: any
      number of them is worth less, by exactly the weight of the last of them. */
  lemma {:induction false} PlaceOutweighsRest(i: nat, n: nat)
    requires i < n
    ensures Weight(0) == 0.5
    ensures WeightsFrom(i + 1, n) == Weight(i) - Weight(n - 1) && WeightsFrom(i + 1, n) < Weight(i)
    decreases n
  {
    if i + 1 < n {
      PlaceOutweighsRest(i, n - 1);
    }
  }

  /** On a ballot that names nobody twice a candidate scores the weight of its place. */
  lemma {:induction false} PlaceScores(b: Ballot, i: nat)
    requires i < |b| && Distinct(b)
    ensures BallotScore(b, b[i]) == Weight(i)
  {
    var n := |b| - 1;
    if i < n {
      PlaceScores(b[..n], i);
    } else {
      NoScore(b[..n], b[n]);
    }
  }

  /** The total over two sets of ballots is the sum of their totals, and over one ballot its score. */
  lemma {:induction false} TotalsAdd(xs: seq<Ballot>, ys: seq<Ballot>, c: Key)
    ensures TotalScore(xs + ys, c) == TotalScore(xs, c) + TotalScore(ys, c)
    ensures forall b: Ballot :: TotalScore([b], c) == BallotScore(b, c)
  {
    if ys == [] {
      assert xs + ys == xs;
    } else {
      var n := |ys| - 1;
      TotalsAdd(xs, ys[..n], c);
      assert (xs + ys)[..|xs+ys|-1] == xs + ys[..n];
    }
    assert forall b: Ballot :: [b][..0] == [];
  }
}
