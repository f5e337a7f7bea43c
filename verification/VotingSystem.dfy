/** The per-epoch books of ballots, reported results and decided candidate lists. */
module VotingSystem {
  import opened Types
  import opened Digest
  import opened PyDict
  import opened Voting

  datatype VotingState = VotingState(
    ballots: map<nat, Dict<Key, Ballot>>,
    results: map<nat, Dict<Key, Result>>,
    candidates: map<nat, Result>)

  function BallotsFor(v: VotingState, e: nat): Dict<Key, Ballot> {
    if e in v.ballots then v.ballots[e] else Empty()
  }

  function ResultsFor(v: VotingState, e: nat): Dict<Key, Result> {
    if e in v.results then v.results[e] else Empty()
  }

  function AddBallot(v: VotingState, e: nat, k: Key, b: Ballot): VotingState {
    v.(ballots := v.ballots[e := Put(BallotsFor(v, e), k, b)])
  }

  function SetPeerResult(v: VotingState, e: nat, k: Key, r: Result): VotingState {
    v.(results := v.results[e := Put(ResultsFor(v, e), k, r)])
  }

  function SetCandidates(v: VotingState, e: nat, r: Result): VotingState {
    v.(candidates := v.candidates[e := r])
  }

  predicate HasVoted(v: VotingState, k: Key, e: nat) {
    e in v.ballots && k in v.ballots[e].vals
  }

  /** `consensus_amount`: more than two thirds of the online peers, and at least one per slot. */
  function ConsensusAmount(slots: nat, online: nat): nat {
    var n := 1 + (online * 2) / 3;
    if slots >= n then slots else n
  }

  /** It is the least number that is no less than the slots and more than two thirds of the online peers. */
  lemma ConsensusAmountExact(slots: nat, online: nat)
    ensures var q := ConsensusAmount(slots, online);
      q >= slots && 3 * q > 2 * online && (q == slots || 3 * (q - 1) <= 2 * online)
  {
  }

  /** So many are a quorum exactly when they fill the slots and are more than two thirds. */
  lemma QuorumReached(slots: nat, online: nat, count: nat)
    ensures count >= ConsensusAmount(slots, online) <==> count >= slots && 3 * count > 2 * online
  {
    ConsensusAmountExact(slots, online);
  }

  // ---- the most frequent result

  /** How often each result occurs, in order of first occurrence. */
  function Counts(vs: seq<Result>): (d: Dict<Result, nat>)
    ensures vs != [] ==> d.keys != []
  {
    if vs == [] then Empty() else CountOne(Counts(vs[..|vs|-1]), vs[|vs|-1])
  }

  lemma {:induction false} CountsOccurrences(vs: seq<Result>)
    ensures var d := Counts(vs);
      && (forall r :: r in d.vals <==> r in vs)
      && forall r :: r in d.vals ==> d.vals[r] == multiset(vs)[r]
  {
    if vs != [] {
      var n := |vs| - 1;
      CountsOccurrences(vs[..n]);
      assert vs == vs[..n] + [vs[n]];
      CountOneMore(Counts(vs[..n]), vs[..n], vs[n]);
    }
  }

  lemma CountOneMore(d: Dict<Result, nat>, vs: seq<Result>, x: Result)
    requires forall r :: r in d.vals <==> r in vs
    requires forall r :: r in d.vals ==> d.vals[r] == multiset(vs)[r]
    ensures var e := CountOne(d, x).vals;
      && (forall r :: r in e <==> r in vs + [x])
      && forall r :: r in e ==> e[r] == multiset(vs + [x])[r]
  {
    forall r ensures multiset(vs + [x])[r] == multiset(vs)[r] + (if x == r then 1 else 0) {
      CountAppended(vs, x, r);
    }
  }

  function CountOne(d: Dict<Result, nat>, r: Result): Dict<Result, nat> {
    Put(d, r, if r in d.vals then d.vals[r] + 1 else 1)
  }

  lemma CountsNext(vs: seq<Result>, i: nat)
    requires i < |vs|
    ensures Counts(vs[..i+1]) == CountOne(Counts(vs[..i]), vs[i])
  {
    assert vs[..i+1][..i] == vs[..i];
  }

  /** Python's `max(d, key=d.get)`: the first key with the highest value. */
  function FirstMax(keys: seq<Result>, counts: map<Result, nat>): (w: Result)
    requires keys != [] && forall k :: k in keys ==> k in counts
    ensures w in keys
  {
    var n := |keys| - 1;
    if n == 0 then keys[0]
    else
      var w := FirstMax(keys[..n], counts);
      if counts[keys[n]] > counts[w] then keys[n] else w
  }

  lemma {:induction false} FirstMaxHighest(keys: seq<Result>, counts: map<Result, nat>)
    requires keys != [] && forall k :: k in keys ==> k in counts
    ensures forall k :: k in keys ==> counts[k] <= counts[FirstMax(keys, counts)]
  {
    var n := |keys| - 1;
    if n > 0 {
      FirstMaxHighest(keys[..n], counts);
      assert keys == keys[..n] + [keys[n]];
    }
  }

  /** The winner among the reported results. */
  function MostCommon(vs: seq<Result>): Result
    requires vs != []
  {
    FirstMax(Counts(vs).keys, Counts(vs).vals)
  }

  /** No result is reported more often than the winner. */
  lemma NoneMoreCommon(vs: seq<Result>)
    requires vs != []
    ensures var w := MostCommon(vs); w in vs && forall r :: multiset(vs)[r] <= multiset(vs)[w]
  {
    var d := Counts(vs);
    CountsOccurrences(vs);
    FirstMaxHighest(d.keys, d.vals);
    forall r ensures multiset(vs)[r] <= multiset(vs)[MostCommon(vs)] {
      assert r in vs ==> r in d.keys;
    }
  }

  lemma {:induction false} FirstMaxFirst(keys: seq<Result>, counts: map<Result, nat>, i: nat)
    requires i < |keys| && forall k :: k in keys ==> k in counts
    requires counts[keys[i]] == counts[FirstMax(keys, counts)]
    ensures FirstMax(keys, counts) in keys[..i+1]
  {
    var n := |keys| - 1;
    FirstMaxHighest(keys, counts);
    if n > 0 && i < n {
      FirstMaxHighest(keys[..n], counts);
      assert FirstMax(keys, counts) == FirstMax(keys[..n], counts);
      FirstMaxFirst(keys[..n], counts, i);
      assert keys[..n][..i+1] == keys[..i+1];
    }
  }

  lemma {:induction false} IndexStays<T>(s: seq<T>, x: T, y: T)
    requires y in s
    ensures IndexOf(s + [x], y) == IndexOf(s, y)
  {
    assert (s + [x])[1..] == s[1..] + [x];
    if s[0] != y {
      IndexStays(s[1..], x, y);
    }
  }

  lemma {:induction false} IndexNew<T>(s: seq<T>, x: T)
    requires x !in s
    ensures IndexOf(s + [x], x) == |s|
  {
    if s != [] {
      assert (s + [x])[1..] == s[1..] + [x];
      IndexNew(s[1..], x);
    }
  }

  /** The results are counted in the order in which they first occur. */
  lemma {:induction false} CountsInOrder(vs: seq<Result>)
    ensures forall r :: r in Counts(vs).keys <==> r in vs
    ensures var ks := Counts(vs).keys;
      forall i, j :: 0 <= i < j < |ks| ==> IndexOf(vs, ks[i]) < IndexOf(vs, ks[j])
  {
    CountsOccurrences(vs);
    assert forall r :: r in Counts(vs).vals <==> r in Counts(vs).keys;
    if vs != [] {
      var n := |vs| - 1;
      var before, ks := Counts(vs[..n]).keys, Counts(vs).keys;
      CountsInOrder(vs[..n]);
      CountsOccurrences(vs[..n]);
      assert vs == vs[..n] + [vs[n]];
      assert ks == if vs[n] in vs[..n] then before else before + [vs[n]];
      forall i, j | 0 <= i < j < |ks| ensures IndexOf(vs, ks[i]) < IndexOf(vs, ks[j]) {
        IndexStays(vs[..n], vs[n], ks[i]);
        if j < |before| {
          IndexStays(vs[..n], vs[n], ks[j]);
        } else {
          IndexNew(vs[..n], vs[n]);
        }
      }
    }
  }

  /** A key that comes no later among the counted ones occurs no later. */
  lemma NoLater(vs: seq<Result>, w: Result, i: nat)
    requires i < |Counts(vs).keys| && w in Counts(vs).keys[..i+1]
    ensures w in vs && Counts(vs).keys[i] in vs && IndexOf(vs, w) <= IndexOf(vs, Counts(vs).keys[i])
  {
    var ks := Counts(vs).keys;
    CountsInOrder(vs);
    var j :| 0 <= j <= i && ks[j] == w;
    assert j < i ==> IndexOf(vs, ks[j]) < IndexOf(vs, ks[i]);
  }

  /** Of the results reported most often, the one that occurs first wins. */
  lemma FirstOfTheMostCommon(vs: seq<Result>, r: Result)
    requires r in vs && multiset(vs)[r] == multiset(vs)[MostCommon(vs)]
    ensures MostCommon(vs) in vs && IndexOf(vs, MostCommon(vs)) <= IndexOf(vs, r)
  {
    var d := Counts(vs);
    CountsOccurrences(vs);
    assert r in d.keys && MostCommon(vs) in d.keys;
    var i :| 0 <= i < |d.keys| && d.keys[i] == r;
    FirstMaxFirst(d.keys, d.vals, i);
    NoLater(vs, MostCommon(vs), i);
  }

  // ---- forgetting old epochs

  predicate IsLeast(m: nat, s: set<nat>) {
    m in s && forall x :: x in s ==> m <= x
  }

  function Least(s: set<nat>): (m: nat)
    requires s != {}
    ensures IsLeast(m, s)
  {
    LeastExists(s);
    var m :| IsLeast(m, s);
    m
  }

  lemma {:induction false} LeastExists(s: set<nat>)
    requires s != {}
    ensures exists m :: IsLeast(m, s)
    decreases |s|
  {
    var x :| x in s;
    if forall y :: y in s ==> x <= y {
      assert IsLeast(x, s);
    } else {
      var y :| y in s && y < x;
      LeastExists(s - {x});
      var m :| IsLeast(m, s - {x});
      assert y in s - {x};
      assert IsLeast(m, s) by {
        assert forall z :: z in s ==> z == x || z in s - {x};
        assert m <= y < x;
      }
    }
  }

  predicate Climbing(s: seq<nat>) {
    forall i, j :: 0 <= i < j < |s| ==> s[i] < s[j]
  }

  /** `sorted(keys)`. */
  function Ascending(s: set<nat>): (r: seq<nat>)
    ensures |r| == |s|
    decreases |s|
  {
    if s == {} then []
    else
      var m := Least(s);
      assert |s - {m}| == |s| - 1;
      [m] + Ascending(s - {m})
  }

  lemma {:induction false} AscendingSorts(s: set<nat>)
    ensures Climbing(Ascending(s)) && forall x :: x in Ascending(s) <==> x in s
    decreases |s|
  {
    if s != {} {
      AscendingSorts(s - {Least(s)});
      LeastFirst(s, Least(s), Ascending(s - {Least(s)}));
    }
  }

  lemma LeastFirst(s: set<nat>, m: nat, rest: seq<nat>)
    requires IsLeast(m, s) && Climbing(rest) && forall x :: x in rest <==> x in s - {m}
    ensures Climbing([m] + rest) && forall x :: x in [m] + rest <==> x in s
  {
    assert s == (s - {m}) + {m};
    forall i, j | 0 <= i < j < |[m] + rest| ensures ([m] + rest)[i] < ([m] + rest)[j] {
      assert rest[j-1] in s;
    }
  }

  /** The epochs with results, except the five latest. */
  function Expired(results: map<nat, Dict<Key, Result>>): seq<nat> {
    if |results.Keys| >= 10 then Ascending(results.Keys)[..|results.Keys|-5] else []
  }

  /** Deleting the epochs one by one; a missing entry raises and leaves the rest. */
  function Purge(v: VotingState, es: seq<nat>): (VotingState, bool)
    decreases |es|
  {
    if es == [] then (v, true)
    else if es[0] !in v.results then (v, false)
    else
      var v1 := v.(results := v.results - {es[0]});
      if es[0] !in v.candidates then (v1, false)
      else
        var v2 := v1.(candidates := v.candidates - {es[0]});
        if es[0] !in v.ballots then (v2, false) else Purge(v2.(ballots := v.ballots - {es[0]}), es[1..])
  }

  /** `remove_old_epoch_data`. */
  function RemoveOld(v: VotingState): (VotingState, bool) {
    Purge(v, Expired(v.results))
  }

  ghost predicate SameFor(v: VotingState, w: VotingState, e: nat) {
    && (e in v.ballots <==> e in w.ballots) && (e in v.ballots ==> v.ballots[e] == w.ballots[e])
    && (e in v.results <==> e in w.results) && (e in v.results ==> v.results[e] == w.results[e])
    && (e in v.candidates <==> e in w.candidates) && (e in v.candidates ==> v.candidates[e] == w.candidates[e])
  }

  lemma {:induction false} PurgeKeeps(v: VotingState, es: seq<nat>, e: nat)
    requires e !in es
    ensures SameFor(v, Purge(v, es).0, e)
    ensures Purge(v, es).0.results.Keys <= v.results.Keys
    decreases |es|
  {
    if es != [] && es[0] in v.results && es[0] in v.candidates && es[0] in v.ballots {
      PurgeKeeps(VotingState(v.ballots - {es[0]}, v.results - {es[0]}, v.candidates - {es[0]}), es[1..], e);
    }
  }

  lemma {:induction false} ClimbingGap(s: seq<nat>, i: nat, j: nat)
    requires i <= j < |s| && Climbing(s)
    ensures s[i] + (j - i) <= s[j]
  {
    if i < j {
      ClimbingGap(s, i, j - 1);
    }
  }

  lemma ExpiredAreOld(results: map<nat, Dict<Key, Result>>, i: nat, latest: nat)
    requires forall x :: x in results ==> x <= latest
    requires i < |Expired(results)|
    ensures Expired(results)[i] + 5 <= latest
  {
    var all := Ascending(results.Keys);
    AscendingSorts(results.Keys);
    ClimbingGap(all, i, |all| - 1);
    assert all[|all|-1] in all;
  }

  /** Only epochs at least five behind the latest one with results lose anything. */
  lemma RemoveOldKeepsRecent(v: VotingState, e: nat, latest: nat)
    requires forall x :: x in v.results ==> x <= latest
    requires e + 5 > latest
    ensures SameFor(v, RemoveOld(v).0, e)
    ensures RemoveOld(v).0.results.Keys <= v.results.Keys
  {
    var es := Expired(v.results);
    if e in es {
      var i :| 0 <= i < |es| && es[i] == e;
      ExpiredAreOld(v.results, i, latest);
    }
    PurgeKeeps(v, es, e);
  }

  lemma {:induction false} PurgeSucceeds(v: VotingState, es: seq<nat>)
    requires Distinct(es) && forall x :: x in es ==> x in v.results
    ensures Purge(v, es).1 <==> forall x :: x in es ==> x in v.candidates && x in v.ballots
    decreases |es|
  {
    if es != [] {
      assert es == [es[0]] + es[1..];
      if es[0] in v.candidates && es[0] in v.ballots {
        PurgeSucceeds(VotingState(v.ballots - {es[0]}, v.results - {es[0]}, v.candidates - {es[0]}), es[1..]);
      }
    }
  }

  /** Old data can be deleted exactly when every expired epoch has candidates and ballots. */
  lemma RemoveOldSucceeds(v: VotingState)
    ensures RemoveOld(v).1 <==> forall x :: x in Expired(v.results) ==> x in v.candidates && x in v.ballots
  {
    AscendingSorts(v.results.Keys);
    PurgeSucceeds(v, Expired(v.results));
  }

  lemma CutClimbing(all: seq<nat>, n: nat, x: nat, y: nat)
    requires Climbing(all) && n <= |all| && x in all[..n] && y in all && y !in all[..n]
    ensures x < y
  {
    assert all == all[..n] + all[n..];
    var i :| 0 <= i < n && all[..n][i] == x;
    var j :| 0 <= j < |all| - n && all[n..][j] == y;
    assert all[i] == x && all[n+j] == y;
  }

  /** With fewer than ten epochs nothing expires; otherwise all but five do, and those five are the latest. */
  lemma ExpiredExactly(results: map<nat, Dict<Key, Result>>)
    ensures var es := Expired(results);
      && Climbing(es) && (forall x :: x in es ==> x in results)
      && |es| == (if |results.Keys| < 10 then 0 else |results.Keys| - 5)
      && forall x, y :: x in es && y in results && y !in es ==> x < y
  {
    if |results.Keys| >= 10 {
      var all, n := Ascending(results.Keys), |results.Keys| - 5;
      AscendingSorts(results.Keys);
      assert Expired(results) == all[..n];
      forall x, y | x in all[..n] && y in results && y !in all[..n] ensures x < y {
        CutClimbing(all, n, x, y);
      }
    }
  }

  lemma {:induction false} PurgeLeaves(v: VotingState, es: seq<nat>)
    requires Purge(v, es).1
    ensures var w := Purge(v, es).0; |w.results.Keys| == |v.results.Keys| - |es|
    ensures var w := Purge(v, es).0; forall x :: x in w.results <==> x in v.results && x !in es
    ensures var w := Purge(v, es).0; forall x :: x in es ==> x !in w.candidates && x !in w.ballots
    decreases |es|
  {
    if es != [] {
      var w := VotingState(v.ballots - {es[0]}, v.results - {es[0]}, v.candidates - {es[0]});
      assert w.results.Keys == v.results.Keys - {es[0]};
      PurgeLeaves(w, es[1..]);
      PurgeAddsNothing(w, es[1..], es[0]);
      assert forall x :: x in es <==> x == es[0] || x in es[1..];
    }
  }

  lemma {:induction false} PurgeAddsNothing(v: VotingState, es: seq<nat>, x: nat)
    requires x !in v.candidates && x !in v.ballots
    ensures x !in Purge(v, es).0.candidates && x !in Purge(v, es).0.ballots
    decreases |es|
  {
    if es != [] && es[0] in v.results && es[0] in v.candidates && es[0] in v.ballots {
      PurgeAddsNothing(VotingState(v.ballots - {es[0]}, v.results - {es[0]}, v.candidates - {es[0]}), es[1..], x);
    }
  }

  /** When the deletion does not raise, ten or more epochs come down to the five latest. */
  lemma RemoveOldLeavesFive(v: VotingState)
    requires |v.results.Keys| >= 10 && RemoveOld(v).1
    ensures var w := RemoveOld(v).0;
      && w.results.Keys <= v.results.Keys && |w.results.Keys| == 5
      && (forall x, y :: x in v.results && x !in w.results && y in w.results ==> x < y)
      && forall x :: x in v.results && x !in w.results ==> x !in w.candidates && x !in w.ballots
  {
    var es := Expired(v.results);
    ExpiredExactly(v.results);
    PurgeLeaves(v, es);
  }

  // ---- drawing a ballot

  /** A peer's reputation and whether it was seen lately. */
  datatype Peer = Peer(score: real, online: bool)

  function DrawWeight(p: Peer): real {
    if p.online then p.score else 0.001
  }

  /** The weights `fill_ballot` gives to the keys. */
  function Weights(keys: seq<Key>, peers: map<Key, Peer>): (w: seq<real>)
    requires forall k :: k in keys ==> k in peers
    ensures |w| == |keys| && forall i :: 0 <= i < |w| ==> w[i] == DrawWeight(peers[keys[i]])
  {
    seq(|keys|, i requires 0 <= i < |keys| => DrawWeight(peers[keys[i]]))
  }

  function RemoveAt<T>(s: seq<T>, i: nat): (r: seq<T>)
    requires i < |s|
    ensures |r| == |s| - 1
  {
    s[..i] + s[i+1..]
  }

  /** Can weighted draws without replacement produce this ballot? */
  ghost predicate CanDraw(population: seq<Key>, weights: seq<real>, ballot: Ballot)
    requires |population| == |weights|
    decreases |population|
  {
    if population == [] then ballot == []
    else
      ballot != [] &&
      (exists i :: 0 <= i < |population| && weights[i] > 0.0 && population[i] == ballot[0]) &&
      var j := IndexOf(population, ballot[0]);
      CanDraw(RemoveAt(population, j), RemoveAt(weights, j), ballot[1..])
  }

  /** `random.choices` with one draw: any index of positive weight, if there is one. */
  method Choose(weights: seq<real>) returns (i: Option<nat>)
    ensures i.Some? ==> i.value < |weights| && weights[i.value] > 0.0
    ensures i.None? ==> forall j :: 0 <= j < |weights| ==> weights[j] <= 0.0
  {
    if exists j :: 0 <= j < |weights| && weights[j] > 0.0 {
      var j: nat :| j < |weights| && weights[j] > 0.0;
      return Some(j);
    }
    return None;
  }

  class VotingSystem {
    const key: Key
    const peerKeys: seq<Key>
    const numSlots: nat
    const hash: Hash
    const stv: Stv
    var ballots: map<nat, Dict<Key, Ballot>>
    var results: map<nat, Dict<Key, Result>>
    var candidates: map<nat, Result>

    function State(): VotingState
      reads this
    {
      VotingState(ballots, results, candidates)
    }

    constructor (key: Key, peers: seq<Key>, slots: nat, hash: Hash, stv: Stv)
      ensures State() == VotingState(map[], map[], map[])
      ensures this.key == key && this.peerKeys == peers && this.numSlots == slots && this.hash == hash
      ensures this.stv == stv
    {
      this.key, this.peerKeys, this.numSlots, this.hash, this.stv := key, peers, slots, hash, stv;
      this.ballots, this.results, this.candidates := map[], map[], map[];
    }

    /** `fill_ballot`; None when every remaining weight is zero, which `random.choices` refuses. */
    method FillBallot(peers: map<Key, Peer>) returns (r: Option<Ballot>)
      requires forall k :: k in peerKeys ==> k in peers
      ensures r.Some? ==> CanDraw(peerKeys, Weights(peerKeys, peers), r.value)
      ensures (forall k :: k in peerKeys ==> DrawWeight(peers[k]) > 0.0) ==> r.Some?
    {
      var population := peerKeys;
      var weights := Weights(peerKeys, peers);
      ghost var all := weights;
      var ballot: Ballot := [];
      assert forall rest: Ballot :: [] + rest == rest;
      while population != []
        invariant |population| == |weights|
        invariant forall rest :: CanDraw(population, weights, rest) ==> CanDraw(peerKeys, all, ballot + rest)
        invariant (forall i :: 0 <= i < |all| ==> all[i] > 0.0) ==> forall i :: 0 <= i < |weights| ==> weights[i] > 0.0
        decreases |population|
      {
        var drawn := Choose(weights);
        if drawn.None? {
          assert weights[0] <= 0.0;
          return None;
        }
        var candidate := population[drawn.value];
        var idx := IndexOf(population, candidate);
        forall rest | CanDraw(RemoveAt(population, idx), RemoveAt(weights, idx), rest)
          ensures CanDraw(peerKeys, all, ballot + [candidate] + rest)
        {
          assert ([candidate] + rest)[1..] == rest;
          assert CanDraw(population, weights, [candidate] + rest);
          assert ballot + ([candidate] + rest) == ballot + [candidate] + rest;
        }
        ballot := ballot + [candidate];
        population := RemoveAt(population, idx);
        weights := RemoveAt(weights, idx);
      }
      assert ballot + [] == ballot;
      return Some(ballot);
    }

    method AddPeerBallot(epoch: nat, peer: Key, ballot: Ballot)
      modifies this
      ensures State() == AddBallot(old(State()), epoch, peer, ballot)
    {
      if epoch !in ballots {
        ballots := ballots[epoch := Empty()];
      }
      ballots := ballots[epoch := Put(ballots[epoch], peer, ballot)];
    }

    method StoreCandidates(epoch: nat, result: Result)
      modifies this
      ensures State() == SetCandidates(old(State()), epoch, result)
    {
      candidates := candidates[epoch := result];
    }

    method StorePeerResult(epoch: nat, peer: Key, result: Result)
      modifies this
      ensures State() == SetPeerResult(old(State()), epoch, peer, result)
    {
      if epoch !in results {
        results := results[epoch := Empty()];
      }
      results := results[epoch := Put(results[epoch], peer, result)];
    }

    /** `get_consensus_result`: the winner and how many peers report it. */
    method GetConsensusResult(epoch: nat) returns (result: Result, count: nat)
      requires epoch in results && results[epoch].keys != []
      ensures result == MostCommon(Values(results[epoch]))
      ensures count == multiset(Values(results[epoch]))[result]
      ensures forall r :: multiset(Values(results[epoch]))[r] <= count
    {
      var vs := Values(results[epoch]);
      var counts: Dict<Result, nat> := Empty();
      var i := 0;
      while i < |vs|
        invariant 0 <= i <= |vs| && counts == Counts(vs[..i])
      {
        CountsNext(vs, i);
        counts := CountOne(counts, vs[i]);
        i := i + 1;
      }
      assert vs[..i] == vs;
      CountsOccurrences(vs);
      NoneMoreCommon(vs);
      result := FirstMax(counts.keys, counts.vals);
      count := counts.vals[result];
    }

    /** `calculate_result`: on success the result is also recorded as this node's own report. */
    method CalculateResult(epoch: nat) returns (r: Outcome<Result>)
      modifies this
      ensures r.Returned? ==> epoch in old(ballots)
      ensures r.Returned? ==> IsElection(stv, hash, Values(old(ballots[epoch])), peerKeys, epoch, r.value)
      ensures r.Returned? ==> State() == SetPeerResult(old(State()), epoch, key, r.value)
      ensures r.Raised? ==> State() == old(State())
      ensures r.Raised? <==> epoch !in old(ballots) || !Decidable(stv, Values(old(ballots[epoch])), peerKeys)
    {
      if epoch !in ballots {
        return Raised(KeyError);
      }
      var bs := Values(ballots[epoch]);
      var result := stv(multiset(bs), peerKeys);
      if |result| < |peerKeys| {
        var broken := BreakTies(result, bs, |peerKeys|, hash, epoch);
        if broken.Raised? {
          return broken;
        }
        result := broken.value;
      }
      StorePeerResult(epoch, key, result);
      return Returned(result);
    }

    /** `remove_old_epoch_data`; false when a deletion raises. */
    method RemoveOldEpochData() returns (ok: bool)
      modifies this
      ensures (State(), ok) == RemoveOld(old(State()))
    {
      var expired := Expired(results);
      ok := true;
      while expired != [] && ok
        invariant ok ==> Purge(State(), expired) == RemoveOld(old(State()))
        invariant !ok ==> (State(), false) == RemoveOld(old(State()))
        decreases |expired|
      {
        ok := DeleteEpoch(expired);
        expired := expired[1..];
      }
    }

    /** The three `del` statements for one epoch, the first of `es`. */
    method DeleteEpoch(es: seq<nat>) returns (ok: bool)
      requires es != []
      modifies this
      ensures ok ==> Purge(State(), es[1..]) == Purge(old(State()), es)
      ensures !ok ==> (State(), false) == Purge(old(State()), es)
    {
      if es[0] !in results {
        return false;
      }
      results := results - {es[0]};
      if es[0] !in candidates {
        return false;
      }
      candidates := candidates - {es[0]};
      if es[0] !in ballots {
        return false;
      }
      ballots := ballots - {es[0]};
      return true;
    }
  }

  /** The list `calculate_result` derives from these ballots. */
  ghost predicate IsElection(stv: Stv, hash: Hash, bs: seq<Ballot>, peers: seq<Key>, epoch: nat, r: Result) {
    var elected := stv(multiset(bs), peers);
    if |elected| < |peers| then IsTieBreak(elected, bs, |peers|, hash, Decimal(epoch), r) else r == elected
  }

  ghost predicate Decidable(stv: Stv, bs: seq<Ballot>, peers: seq<Key>) {
    var elected := stv(multiset(bs), peers);
    |elected| < |peers| ==> Breakable(elected, bs, |peers|)
  }
}
