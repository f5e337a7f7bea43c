/** The epoch: a ring of witnesses used ROUNDS_PER_EPOCH times, reshuffled at round
    boundaries, with a FIFO queue of replacements for downgraded witnesses. */
module Epoch {
  import opened Types
  import opened Digest

  const ROUNDS_PER_EPOCH: nat := 3

  /** `a % n`, counted out, so that proofs about slots need no division. */
  function Mod(a: nat, n: nat): (r: nat)
    requires n > 0
    ensures r < n
    decreases a
  {
    if a < n then a else Mod(a - n, n)
  }

  lemma SmallMultiple(n: nat, d: int, e: int)
    requires n * d == e && -(n as int) < e < n
    ensures d == 0
  {
  }

  lemma {:induction false} ModIsRemainder(a: nat, n: nat)
    requires n > 0
    ensures Mod(a, n) == a % n
    decreases a
  {
    if a >= n {
      ModIsRemainder(a - n, n);
      RemainderLess(a, n);
    }
  }

  lemma RemainderLess(a: nat, n: nat)
    requires 0 < n <= a
    ensures (a - n) % n == a % n
  {
    var p, q := (a - n) / n, a / n;
    assert n * (q - 1 - p) == n * q - n - n * p;
    SmallMultiple(n, q - 1 - p, (a - n) % n - a % n);
  }

  /** The value of an Epoch object. */
  datatype EpochState = EpochState(number: nat, idx: nat, witnesses: seq<Key>, queue: seq<Key>, numSlots: nat) {
    predicate IsOver() {
      idx >= |witnesses| * ROUNDS_PER_EPOCH
    }

    function SlotsRemaining(): int {
      |witnesses| * ROUNDS_PER_EPOCH - idx
    }

    function CurrentWitness(): Option<Key> {
      if witnesses == [] then None else Some(witnesses[Mod(idx, |witnesses|)])
    }

    function FullCandidateList(): seq<Key> {
      witnesses + queue
    }
  }

  function NewEpoch(number: nat, slots: nat): EpochState {
    EpochState(number, 0, [], [], slots)
  }

  /** `set_candidates_and_witnesses`. */
  function Seat(s: EpochState, candidates: seq<Key>): EpochState {
    s.(witnesses := Take(candidates, s.numSlots), queue := s.queue + Drop(candidates, s.numSlots))
  }

  // ---- the reshuffle: Python's stable sort on the digests

  function Insert(sorted: seq<Key>, k: Key, hash: Hash, suffix: string): (r: seq<Key>)
    ensures multiset(r) == multiset(sorted) + multiset{k}
  {
    if sorted == [] then [k]
    else
      var n := |sorted| - 1;
      assert sorted == sorted[..n] + [sorted[n]];
      if Rank(hash, suffix, sorted[n]) <= Rank(hash, suffix, k) then sorted + [k]
      else Insert(sorted[..n], k, hash, suffix) + [sorted[n]]
  }

  function SortByDigest(s: seq<Key>, hash: Hash, suffix: string): (r: seq<Key>)
    ensures multiset(r) == multiset(s)
    ensures |r| == |s|
  {
    if s == [] then []
    else
      var n := |s| - 1;
      assert s == s[..n] + [s[n]];
      var r := Insert(SortByDigest(s[..n], hash, suffix), s[n], hash, suffix);
      assert |multiset(r)| == |r| && |multiset(s)| == |s|;
      r
  }

  ghost predicate SortedByDigest(s: seq<Key>, hash: Hash, suffix: string) {
    forall i, j :: 0 <= i < j < |s| ==> Rank(hash, suffix, s[i]) <= Rank(hash, suffix, s[j])
  }

  /** The members of `s` whose digest is `d`, in order. */
  function WithDigest(s: seq<Key>, hash: Hash, suffix: string, d: nat): seq<Key> {
    if s == [] then []
    else
      var n := |s| - 1;
      WithDigest(s[..n], hash, suffix, d) + (if Rank(hash, suffix, s[n]) == d then [s[n]] else [])
  }

  lemma {:induction false} InsertSorted(s: seq<Key>, k: Key, hash: Hash, suffix: string)
    requires SortedByDigest(s, hash, suffix)
    ensures SortedByDigest(Insert(s, k, hash, suffix), hash, suffix)
  {
    var n := |s| - 1;
    if s != [] && Rank(hash, suffix, s[n]) > Rank(hash, suffix, k) {
      InsertSorted(s[..n], k, hash, suffix);
      var r := Insert(s[..n], k, hash, suffix);
      forall i | 0 <= i < |r| ensures Rank(hash, suffix, r[i]) <= Rank(hash, suffix, s[n]) {
        assert r[i] in multiset(r);
        assert r[i] in s[..n] || r[i] == k;
      }
    }
  }

  lemma {:induction false} InsertStable(s: seq<Key>, k: Key, hash: Hash, suffix: string, d: nat)
    ensures WithDigest(Insert(s, k, hash, suffix), hash, suffix, d)
         == WithDigest(s, hash, suffix, d) + (if Rank(hash, suffix, k) == d then [k] else [])
  {
    var n := |s| - 1;
    if s != [] && Rank(hash, suffix, s[n]) > Rank(hash, suffix, k) {
      InsertStable(s[..n], k, hash, suffix, d);
      var r := Insert(s[..n], k, hash, suffix);
      assert (r + [s[n]])[..|r|] == r;
    } else {
      assert (s + [k])[..|s|] == s;
    }
  }

  /** The reshuffled list is in ascending digest order and equal digests keep their order:
      with the permutation that SortByDigest promises, this leaves exactly one list. */
  lemma {:induction false} SortByDigestSorts(s: seq<Key>, hash: Hash, suffix: string, d: nat)
    ensures SortedByDigest(SortByDigest(s, hash, suffix), hash, suffix)
    ensures WithDigest(SortByDigest(s, hash, suffix), hash, suffix, d) == WithDigest(s, hash, suffix, d)
  {
    if s != [] {
      var n := |s| - 1;
      SortByDigestSorts(s[..n], hash, suffix, d);
      InsertStable(SortByDigest(s[..n], hash, suffix), s[n], hash, suffix, d);
      InsertSorted(SortByDigest(s[..n], hash, suffix), s[n], hash, suffix);
    }
  }

  // ---- the two state changes of a running epoch

  /** `reorder_witnesslist`. */
  function Reorder(s: EpochState, hash: Hash, seed: Id): EpochState {
    s.(witnesses := SortByDigest(s.witnesses, hash, seed + Decimal(s.idx)))
  }

  /** `increment_witness`. With no witnesses the index is bumped before the division raises. */
  function Increment(s: EpochState, hash: Hash, blockId: Id): EpochState {
    var t := s.(idx := s.idx + 1);
    if t.witnesses == [] then t
    else if Mod(t.idx, |t.witnesses|) == 0 && !t.IsOver() then Reorder(t, hash, blockId)
    else t
  }

  /** Does `downgrade_witness` replace anybody? */
  predicate Effective(s: EpochState, k: Key) {
    k in s.witnesses && s.queue != []
  }

  /** `downgrade_witness` waits for a queued candidate; with the queue empty it never returns. */
  predicate Hangs(s: EpochState, k: Key) {
    k in s.witnesses && s.queue == []
  }

  /** `downgrade_witness`. */
  function Downgrade(s: EpochState, k: Key): EpochState {
    if !Effective(s, k) then s
    else s.(witnesses := s.witnesses[IndexOf(s.witnesses, k) := s.queue[0]], queue := s.queue[1..] + [k])
  }

  /** Is the index a multiple of the number of witnesses? */
  method RoundEnds(idx: nat, n: nat) returns (ends: bool)
    requires n > 0
    ensures ends <==> Mod(idx, n) == 0
  {
    ModIsRemainder(idx, n);
    ends := idx % n == 0;
  }

  class Epoch {
    const hash: Hash
    const number: nat
    const numSlots: nat
    var currentWitnessIdx: nat
    var candidates: seq<Key>
    var witnesses: seq<Key>

    function State(): EpochState
      reads this
    {
      EpochState(number, currentWitnessIdx, witnesses, candidates, numSlots)
    }

    constructor (hash: Hash, number: nat, slots: nat)
      ensures State() == NewEpoch(number, slots) && this.hash == hash
    {
      this.hash := hash;
      this.number := number;
      this.currentWitnessIdx := 0;
      this.candidates := [];
      this.witnesses := [];
      this.numSlots := slots;
    }

    method SetCandidatesAndWitnesses(list: seq<Key>)
      modifies this
      ensures State() == Seat(old(State()), list)
    {
      witnesses := Take(list, numSlots);
      var rest := Drop(list, numSlots);
      var i := 0;
      while i < |rest|
        invariant 0 <= i <= |rest|
        invariant candidates == old(candidates) + rest[..i]
        invariant witnesses == Take(list, numSlots) && currentWitnessIdx == old(currentWitnessIdx)
      {
        candidates := candidates + [rest[i]];
        i := i + 1;
      }
      assert rest[..i] == rest;
    }

    /** False when the division by the number of witnesses raises. */
    method IncrementWitness(preBlockId: Id) returns (ok: bool)
      modifies this
      ensures State() == Increment(old(State()), hash, preBlockId)
      ensures ok <==> witnesses != []
    {
      currentWitnessIdx := currentWitnessIdx + 1;
      if witnesses == [] {
        return false;
      }
      var round := RoundEnds(currentWitnessIdx, |witnesses|);
      if round && !State().IsOver() {
        ReorderWitnessList(preBlockId);
      }
      return true;
    }

    method ReorderWitnessList(seed: Id)
      modifies this
      ensures State() == Reorder(old(State()), hash, seed)
    {
      witnesses := SortByDigest(witnesses, hash, seed + Decimal(currentWitnessIdx));
    }

    /** False when the call never returns. */
    method DowngradeWitness(witnessKey: Key) returns (returned: bool)
      modifies this
      ensures State() == Downgrade(old(State()), witnessKey)
      ensures returned <==> !Hangs(old(State()), witnessKey)
    {
      if witnessKey !in witnesses {
        return true;
      }
      if candidates == [] {
        return false;
      }
      var downgradedIdx := IndexOf(witnesses, witnessKey);
      var upgradedCandidate := candidates[0];
      candidates := candidates[1..];
      candidates := candidates + [witnessKey];
      witnesses := witnesses[downgradedIdx := upgradedCandidate];
      return true;
    }
  }
}
