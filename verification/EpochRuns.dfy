/** Properties of whole epochs: fairness, length, the replacement queue, and restoring an epoch
    from the payload of a block. */
module EpochRuns {
  import opened Types
  import opened Digest
  import opened Epoch

  datatype EpochEvent = Slot(blockId: Id) | Downgraded(key: Key)

  function Step(s: EpochState, hash: Hash, e: EpochEvent): EpochState {
    match e
    case Slot(b) => Increment(s, hash, b)
    case Downgraded(k) => Downgrade(s, k)
  }

  function Slots(es: seq<EpochEvent>): nat {
    if es == [] then 0
    else Slots(es[..|es|-1]) + (if es[|es|-1].Slot? then 1 else 0)
  }

  /** No event changes how many witnesses or queued candidates there are, and only slots move the index. */
  function Run(s: EpochState, hash: Hash, es: seq<EpochEvent>): (t: EpochState)
    ensures |t.witnesses| == |s.witnesses| && |t.queue| == |s.queue|
    ensures t.idx == s.idx + Slots(es) && t.number == s.number && t.numSlots == s.numSlots
  {
    if es == [] then s
    else Step(Run(s, hash, es[..|es|-1]), hash, es[|es|-1])
  }

  // ---- length of an epoch

  /** However downgrades are interleaved, an epoch is over after exactly three slots per witness. */
  lemma OverAfterThreeRounds(s: EpochState, hash: Hash, es: seq<EpochEvent>)
    requires s.idx == 0
    ensures Run(s, hash, es).IsOver() <==> Slots(es) >= 3 * |s.witnesses|
    ensures Run(s, hash, es).SlotsRemaining() == 3 * |s.witnesses| - Slots(es)
  {
    assert Run(s, hash, es).idx == Slots(es);
  }

  /** Reshuffles and downgrades only ever move keys between the two lists. */
  lemma {:induction false} RunConserves(s: EpochState, hash: Hash, es: seq<EpochEvent>)
    ensures multiset(Run(s, hash, es).FullCandidateList()) == multiset(s.FullCandidateList())
  {
    if es != [] {
      var t := Run(s, hash, es[..|es|-1]);
      RunConserves(s, hash, es[..|es|-1]);
      match es[|es|-1]
      case Slot(b) =>
      case Downgraded(k) => DowngradeConserves(t, k);
    }
  }

  lemma DowngradeConserves(s: EpochState, k: Key)
    ensures multiset(Downgrade(s, k).FullCandidateList()) == multiset(s.FullCandidateList())
  {
    if Effective(s, k) {
      assert s.queue == [s.queue[0]] + s.queue[1..];
    }
  }

  // ---- fairness

  function AfterSlots(s: EpochState, hash: Hash, ids: seq<Id>): EpochState {
    if ids == [] then s
    else Increment(AfterSlots(s, hash, ids[..|ids|-1]), hash, ids[|ids|-1])
  }

  /** The witness in charge of each slot, the k-th slot starting after k increments. */
  function Schedule(s: EpochState, hash: Hash, ids: seq<Id>): (r: seq<Option<Key>>)
    ensures |r| == |ids|
  {
    seq(|ids|, k requires 0 <= k < |ids| => AfterSlots(s, hash, ids[..k]).CurrentWitness())
  }

  lemma ScheduleAt(s: EpochState, hash: Hash, ids: seq<Id>, k: nat)
    requires k < |ids|
    ensures Schedule(s, hash, ids)[k] == AfterSlots(s, hash, ids[..k]).CurrentWitness()
  {
  }

  lemma {:induction false} ModAdd(a: nat, n: nat, j: nat)
    requires n > 0 && Mod(a, n) + j < n
    ensures Mod(a + j, n) == Mod(a, n) + j
    decreases a
  {
    if a >= n {
      ModAdd(a - n, n, j);
    }
  }

  lemma AfterNext(s: EpochState, hash: Hash, ids: seq<Id>, k: nat)
    requires 0 < k <= |ids|
    ensures AfterSlots(s, hash, ids[..k]) == Increment(AfterSlots(s, hash, ids[..k-1]), hash, ids[k-1])
  {
    assert ids[..k][..k-1] == ids[..k-1];
  }

  lemma {:induction false} AfterSlotsShape(s: EpochState, hash: Hash, ids: seq<Id>)
    ensures var t := AfterSlots(s, hash, ids);
      && t.idx == s.idx + |ids| && |t.witnesses| == |s.witnesses|
      && multiset(t.witnesses) == multiset(s.witnesses)
  {
    if ids != [] {
      AfterSlotsShape(s, hash, ids[..|ids|-1]);
    }
  }

  /** Slot k of the round that starts at slot a belongs to entry k - a of the witness list. */
  lemma SlotIndex(s: EpochState, hash: Hash, ids: seq<Id>, a: nat, k: nat)
    requires s.idx == 0 && a <= k < a + |s.witnesses| && Mod(a, |s.witnesses|) == 0 && k <= |ids|
    ensures var t := AfterSlots(s, hash, ids[..k]); |t.witnesses| == |s.witnesses| && Mod(t.idx, |t.witnesses|) == k - a
  {
    var j := k - a;
    AfterSlotsShape(s, hash, ids[..k]);
    ModAdd(a, |s.witnesses|, j);
    assert a + j == k == |ids[..k]|;
    var t, n := AfterSlots(s, hash, ids[..k]), |s.witnesses|;
    assert t.idx == k && |t.witnesses| == n && Mod(k, n) == j;
  }

  ghost predicate StandsStill(s: EpochState, hash: Hash, ids: seq<Id>, k: nat)
    requires 0 < k <= |ids|
  {
    AfterSlots(s, hash, ids[..k]).witnesses == AfterSlots(s, hash, ids[..k-1]).witnesses
  }

  /** Within that round the witness list stands still. */
  lemma WithinRound(s: EpochState, hash: Hash, ids: seq<Id>, a: nat, k: nat)
    requires s.idx == 0 && a < k < a + |s.witnesses| && Mod(a, |s.witnesses|) == 0 && k <= |ids|
    ensures StandsStill(s, hash, ids, k)
  {
    SlotIndex(s, hash, ids, a, k);
    NextWithinRound(s, hash, ids, k);
  }

  lemma {:induction false} StillSince(s: EpochState, hash: Hash, ids: seq<Id>, a: nat, k: nat)
    requires a <= k <= |ids| && forall i :: a < i <= k ==> StandsStill(s, hash, ids, i)
    ensures AfterSlots(s, hash, ids[..k]).witnesses == AfterSlots(s, hash, ids[..a]).witnesses
  {
    if a < k {
      var n := k - 1;
      StillSince(s, hash, ids, a, n);
      assert StandsStill(s, hash, ids, k);
    }
  }

  lemma RoundSlot(s: EpochState, hash: Hash, ids: seq<Id>, a: nat, k: nat)
    requires s.idx == 0 && a <= k < a + |s.witnesses| && Mod(a, |s.witnesses|) == 0 && k <= |ids|
    ensures AfterSlots(s, hash, ids[..k]).witnesses == AfterSlots(s, hash, ids[..a]).witnesses
  {
    forall i | a < i <= k ensures StandsStill(s, hash, ids, i) {
      WithinRound(s, hash, ids, a, i);
    }
    StillSince(s, hash, ids, a, k);
  }

  lemma NextWithinRound(s: EpochState, hash: Hash, ids: seq<Id>, k: nat)
    requires 0 < k <= |ids|
    requires var t := AfterSlots(s, hash, ids[..k]); t.witnesses != [] && Mod(t.idx, |t.witnesses|) != 0
    ensures AfterSlots(s, hash, ids[..k]).witnesses == AfterSlots(s, hash, ids[..k-1]).witnesses
  {
    AfterNext(s, hash, ids, k);
  }

  function Somes(ks: seq<Key>): (r: seq<Option<Key>>)
    ensures |r| == |ks| && forall i :: 0 <= i < |ks| ==> r[i] == Some(ks[i])
  {
    seq(|ks|, i requires 0 <= i < |ks| => Some(ks[i]))
  }

  lemma {:induction false} SomesMultiset(xs: seq<Key>, k: Key)
    ensures multiset(Somes(xs))[Some(k)] == multiset(xs)[k]
  {
    if xs != [] {
      var n := |xs| - 1;
      SomesMultiset(xs[..n], k);
      assert xs == xs[..n] + [xs[n]];
      assert Somes(xs) == Somes(xs[..n]) + [Some(xs[n])];
    }
  }

  lemma ScheduleEntry(s: EpochState, hash: Hash, ids: seq<Id>, a: nat, k: nat)
    requires s.idx == 0 && a <= k < a + |s.witnesses| && Mod(a, |s.witnesses|) == 0 && k < |ids|
    ensures var ws := AfterSlots(s, hash, ids[..a]).witnesses;
      |ws| == |s.witnesses| && Schedule(s, hash, ids)[k] == Some(ws[k-a])
  {
    WitnessOfSlot(s, hash, ids, a, k);
    ScheduleAt(s, hash, ids, k);
  }

  lemma WitnessOfSlot(s: EpochState, hash: Hash, ids: seq<Id>, a: nat, k: nat)
    requires s.idx == 0 && a <= k < a + |s.witnesses| && Mod(a, |s.witnesses|) == 0 && k <= |ids|
    ensures var ws := AfterSlots(s, hash, ids[..a]).witnesses;
      |ws| == |s.witnesses| && AfterSlots(s, hash, ids[..k]).CurrentWitness() == Some(ws[k-a])
  {
    SlotIndex(s, hash, ids, a, k);
    RoundSlot(s, hash, ids, a, k);
    var t := AfterSlots(s, hash, ids[..k]);
    assert t.CurrentWitness() == Some(t.witnesses[k-a]);
  }

  /** How often x occurs among the n entries of s from position a on. */
  function Tally<T(==)>(s: seq<T>, a: nat, n: nat, x: T): nat
    requires a + n <= |s|
  {
    multiset(s[a..a+n])[x]
  }

  lemma TallyOfRound(sched: seq<Option<Key>>, a: nat, ws: seq<Key>, k: Key)
    requires a + |ws| <= |sched|
    requires forall j :: 0 <= j < |ws| ==> sched[a+j] == Some(ws[j])
    ensures Tally(sched, a, |ws|, Some(k)) == multiset(ws)[k]
  {
    assert sched[a..a+|ws|] == Somes(ws);
    SomesMultiset(ws, k);
  }

  /** The round that starts at slot a is some permutation of the initial witness list. */
  lemma RoundSchedule(s: EpochState, hash: Hash, ids: seq<Id>, a: nat, k: Key)
    requires s.idx == 0 && s.witnesses != [] && Mod(a, |s.witnesses|) == 0 && a + |s.witnesses| <= |ids|
    ensures Tally(Schedule(s, hash, ids), a, |s.witnesses|, Some(k)) == multiset(s.witnesses)[k]
  {
    var ws := AfterSlots(s, hash, ids[..a]).witnesses;
    AfterSlotsShape(s, hash, ids[..a]);
    forall j | 0 <= j < |ws| ensures Schedule(s, hash, ids)[a+j] == Some(ws[j]) {
      ScheduleEntry(s, hash, ids, a, a + j);
    }
    TallyOfRound(Schedule(s, hash, ids), a, ws, k);
  }

  lemma ThreeParts<T>(s: seq<T>, n: nat, x: T)
    requires |s| == 3 * n
    ensures multiset(s)[x] == Tally(s, 0, n, x) + Tally(s, n, n, x) + Tally(s, 2 * n, n, x)
  {
    assert s == s[0..n] + s[n..n+n] + s[2*n..2*n+n];
  }

  /** Over the 3n slots of an epoch without downgrades a key is in charge three times as often as
      it is listed, and in each of the three rounds exactly as often as it is listed. */
  lemma FairSchedule(s: EpochState, hash: Hash, ids: seq<Id>, k: Key)
    requires s.idx == 0 && s.witnesses != [] && |ids| == 3 * |s.witnesses|
    ensures var n := |s.witnesses|; var sched := Schedule(s, hash, ids); var c := multiset(s.witnesses)[k];
      && Tally(sched, 0, n, Some(k)) == Tally(sched, n, n, Some(k)) == Tally(sched, 2 * n, n, Some(k)) == c
      && multiset(sched)[Some(k)] == 3 * c
  {
    var n := |s.witnesses|;
    assert Mod(n, n) == 0 && Mod(2 * n, n) == Mod(n, n);
    RoundSchedule(s, hash, ids, 0, k);
    RoundSchedule(s, hash, ids, n, k);
    RoundSchedule(s, hash, ids, 2 * n, k);
    ThreeParts(Schedule(s, hash, ids), n, Some(k));
  }

  /** From distinct witnesses, each one is in charge of exactly 3 of the 3n slots, one per round. */
  lemma EveryWitnessThreeSlots(s: EpochState, hash: Hash, ids: seq<Id>, w: Key)
    requires s.idx == 0 && Distinct(s.witnesses) && w in s.witnesses && |ids| == 3 * |s.witnesses|
    ensures var n := |s.witnesses|; var sched := Schedule(s, hash, ids);
      && Tally(sched, 0, n, Some(w)) == Tally(sched, n, n, Some(w)) == Tally(sched, 2 * n, n, Some(w)) == 1
      && multiset(sched)[Some(w)] == 3
  {
    FairSchedule(s, hash, ids, w);
    DistinctOnce(s.witnesses, w);
  }

  /** A single witness stays where it is. */
  lemma SoleWitness(s: EpochState, hash: Hash, blockId: Id)
    requires |s.witnesses| == 1
    ensures Increment(s, hash, blockId) == s.(idx := s.idx + 1)
  {
    var r := SortByDigest(s.witnesses, hash, blockId + Decimal(s.idx + 1));
    assert r[0] in multiset(r);
  }

  lemma ReorderSorts(t: EpochState, hash: Hash, seed: Id)
    ensures SortedByDigest(Reorder(t, hash, seed).witnesses, hash, seed + Decimal(t.idx))
  {
    SortByDigestSorts(t.witnesses, hash, seed + Decimal(t.idx), 0);
  }

  /** Every round after the first starts with a list in ascending order of digests, salted with the
      last block and the slot number. */
  lemma RoundsAreReshuffled(s: EpochState, hash: Hash, ids: seq<Id>, a: nat)
    requires s.idx == 0 && s.witnesses != [] && 0 < a <= |ids| && a < 3 * |s.witnesses| && Mod(a, |s.witnesses|) == 0
    ensures var t := AfterSlots(s, hash, ids[..a]);
      && SortedByDigest(t.witnesses, hash, ids[a-1] + Decimal(a))
      && multiset(t.witnesses) == multiset(s.witnesses)
  {
    AfterSlotsShape(s, hash, ids[..a]);
    AfterSlotsShape(s, hash, ids[..a-1]);
    AfterNext(s, hash, ids, a);
    RoundBoundary(AfterSlots(s, hash, ids[..a-1]), hash, ids[a-1], a);
  }

  lemma RoundBoundary(t: EpochState, hash: Hash, seed: Id, a: nat)
    requires t.idx + 1 == a && t.witnesses != [] && Mod(a, |t.witnesses|) == 0 && a < 3 * |t.witnesses|
    ensures SortedByDigest(Increment(t, hash, seed).witnesses, hash, seed + Decimal(a))
  {
    ReorderSorts(t.(idx := a), hash, seed);
  }

  // ---- the replacement queue

  /** The keys that downgrades removed from the witness list, oldest first. */
  function Demoted(s: EpochState, hash: Hash, es: seq<EpochEvent>): seq<Key> {
    if es == [] then []
    else
      var n := |es| - 1;
      Demoted(s, hash, es[..n]) +
      (if es[n].Downgraded? && Effective(Run(s, hash, es[..n]), es[n].key) then [es[n].key] else [])
  }

  /** The keys that those downgrades brought in, oldest first. */
  function Promoted(s: EpochState, hash: Hash, es: seq<EpochEvent>): (r: seq<Key>)
    ensures |r| == |Demoted(s, hash, es)|
  {
    if es == [] then []
    else
      var n := |es| - 1;
      var t := Run(s, hash, es[..n]);
      Promoted(s, hash, es[..n]) + (if es[n].Downgraded? && Effective(t, es[n].key) then [t.queue[0]] else [])
  }

  lemma QueueTurn(left: seq<Key>, queue: seq<Key>, first: seq<Key>, joined: seq<Key>, k: Key)
    requires queue != [] && left + queue == first + joined
    ensures (left + [queue[0]]) + (queue[1..] + [k]) == first + (joined + [k])
  {
    assert (left + [queue[0]]) + (queue[1..] + [k]) == (left + queue) + [k];
  }

  /** First in, first out: what left the queue and what is still in it is what it held at first
      followed by everybody demoted since. */
  lemma {:induction false} QueueLaw(s: EpochState, hash: Hash, es: seq<EpochEvent>)
    ensures Promoted(s, hash, es) + Run(s, hash, es).queue == s.queue + Demoted(s, hash, es)
  {
    if es != [] {
      var n := |es| - 1;
      QueueLaw(s, hash, es[..n]);
      var t, p, d := Run(s, hash, es[..n]), Promoted(s, hash, es[..n]), Demoted(s, hash, es[..n]);
      if es[n].Downgraded? && Effective(t, es[n].key) {
        QueueTurn(p, t.queue, s.queue, d, es[n].key);
      } else {
        assert p + [] == p && d + [] == d;
      }
    }
  }

  /** A downgraded witness w waits behind the q keys queued before it: it is out of the witness
      list, at place q-1-d of the queue, until the q-th further effective downgrade brings it back,
      whatever slots and reshuffles happen in between. */
  lemma ReturnsAfterQueueTurns(s: EpochState, hash: Hash, w: Key, es: seq<EpochEvent>)
    requires Distinct(s.FullCandidateList()) && w in s.witnesses && s.queue != []
    ensures var q := |s.queue|; var s1 := Downgrade(s, w); var t := Run(s1, hash, es);
      var d := |Demoted(s1, hash, es)|;
      && |t.queue| == q
      && (d < q ==> w !in t.witnesses && t.queue[q-1-d] == w)
      && (d >= q ==> Promoted(s1, hash, es)[q-1] == w)
      && (es != [] && d == q && |Demoted(s1, hash, es[..|es|-1])| == q - 1 ==> w in t.witnesses)
  {
    var q := |s.queue|;
    var s1 := Downgrade(s, w);
    var d := |Demoted(s1, hash, es)|;
    PlaceInQueue(s1, hash, es);
    if d < q {
      OutOfTheList(s, hash, w, es);
    } else if es != [] && d == q && |Demoted(s1, hash, es[..|es|-1])| == q - 1 {
      var u := Run(s1, hash, es[..|es|-1]);
      PlaceInQueue(s1, hash, es[..|es|-1]);
      assert Run(s1, hash, es).witnesses[IndexOf(u.witnesses, es[|es|-1].key)] == u.queue[0];
    }
  }

  lemma PlaceInQueue(s: EpochState, hash: Hash, es: seq<EpochEvent>)
    requires s.queue != []
    ensures var q := |s.queue|; var d := |Demoted(s, hash, es)|; var w := s.queue[q-1];
      if d < q then Run(s, hash, es).queue[q-1-d] == w else Promoted(s, hash, es)[q-1] == w
  {
    var q := |s.queue|;
    QueueLaw(s, hash, es);
    assert (s.queue + Demoted(s, hash, es))[q-1] == s.queue[q-1];
  }

  lemma OutOfTheList(s: EpochState, hash: Hash, w: Key, es: seq<EpochEvent>)
    requires Distinct(s.FullCandidateList()) && w in s.witnesses
    requires w in Run(Downgrade(s, w), hash, es).queue
    ensures w !in Run(Downgrade(s, w), hash, es).witnesses
  {
    var t := Run(Downgrade(s, w), hash, es);
    DowngradeConserves(s, w);
    RunConserves(Downgrade(s, w), hash, es);
    DistinctOnce(s.FullCandidateList(), w);
    assert multiset(t.FullCandidateList())[w] == multiset(t.witnesses)[w] + multiset(t.queue)[w];
  }

  // ---- restoring an epoch from a block payload

  /** `DDPoANode.bootstrap`, epoch part: build the epoch, seat the candidates, set the index. */
  function Restore(p: ConsensusData): EpochState {
    Seat(NewEpoch(p.epoch, p.numSlots), p.candidates).(idx := p.witnessIdx)
  }

  /** `_finalize_block`: what a producer writes into its block. */
  function Payload(s: EpochState): ConsensusData {
    ConsensusData(s.number, s.idx, s.FullCandidateList(), s.numSlots)
  }

  /** All slots are taken, or there is nobody left to take them. */
  predicate Full(s: EpochState) {
    |s.witnesses| == s.numSlots || (|s.witnesses| < s.numSlots && s.queue == [])
  }

  /** A payload rebuilds the same witnesses, queue order and index exactly when the seats are full. */
  lemma RestoreRoundTrip(s: EpochState)
    ensures Restore(Payload(s)) == s <==> Full(s)
  {
    var l := s.FullCandidateList();
    if |s.witnesses| == s.numSlots {
      assert l[..s.numSlots] == s.witnesses && l[s.numSlots..] == s.queue;
    }
  }

  /** Every epoch a node can be in has full seats, so every such epoch survives the trip through a
      payload, and the copy stays equal under any later slots and downgrades. */
  lemma ReachableEpochsRestore(number: nat, slots: nat, candidates: seq<Key>, hash: Hash,
                               es: seq<EpochEvent>, later: seq<EpochEvent>)
    ensures var s := Run(Seat(NewEpoch(number, slots), candidates), hash, es);
      && Restore(Payload(s)) == s
      && Run(Restore(Payload(s)), hash, later) == Run(s, hash, later)
  {
    RestoreRoundTrip(Run(Seat(NewEpoch(number, slots), candidates), hash, es));
  }
}
