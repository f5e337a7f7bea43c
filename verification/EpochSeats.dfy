/** Who sits where while witnesses are downgraded: a replacement takes the seat of the witness that failed,
    and with it that seat's slots; all other seats keep theirs. */
module EpochSeats {
  import opened Types
  import opened Digest
  import opened Epoch
  import opened EpochRuns

  /** A downgrade that returns either finds no such witness and changes nothing, or puts the head of the queue
      into the seat where the witness stood first, and the witness at the end of the queue. */
  lemma ReplacedInPlace(s: EpochState, k: Key)
    requires !Hangs(s, k)
    ensures k !in s.witnesses ==> Downgrade(s, k) == s
    ensures k in s.witnesses ==> var t := Downgrade(s, k);
      && s.queue != [] && |t.witnesses| == |s.witnesses| && t.queue == s.queue[1..] + [k]
      && t.idx == s.idx && t.number == s.number && t.numSlots == s.numSlots
      && forall i :: 0 <= i < |s.witnesses| ==>
           t.witnesses[i] == if s.witnesses[i] == k && k !in s.witnesses[..i] then s.queue[0] else s.witnesses[i]
  {
    if k in s.witnesses {
      var j := IndexOf(s.witnesses, k);
      forall i | 0 <= i < |s.witnesses|
        ensures i == j <==> s.witnesses[i] == k && k !in s.witnesses[..i]
      {
        FirstOnly(s.witnesses, k, i, j);
      }
    }
  }

  lemma FirstOnly(s: seq<Key>, k: Key, i: nat, j: nat)
    requires i < |s| && j < |s| && s[j] == k && k !in s[..j]
    ensures i == j <==> s[i] == k && k !in s[..i]
  {
    if i < j {
      assert s[..j][i] == s[i];
    } else if j < i {
      assert s[..i][j] == k;
    }
  }

  /** Seating a list fills as many seats as there are slots from its front, and queues the rest behind those who
      wait already. */
  lemma SeatedInOrder(s: EpochState, list: seq<Key>)
    ensures var t, q := Seat(s, list), |s.queue|;
      && |t.witnesses| == (if |list| < s.numSlots then |list| else s.numSlots)
      && |t.queue| >= q && t.queue[..q] == s.queue && t.witnesses + t.queue[q..] == list
      && t == s.(witnesses := t.witnesses, queue := t.queue)
  {
  }

  lemma MultipleWithin(a: nat, n: nat)
    requires n > 0 && 0 < a < 3 * n
    ensures Mod(a, n) == 0 <==> a == n || a == 2 * n
  {
    if a >= n {
      assert Mod(a, n) == Mod(a - n, n);
      if a >= 2 * n {
        assert Mod(a - n, n) == Mod(a - 2 * n, n);
      }
    }
  }

  /** A slot moves the index by one, and reshuffles the witnesses exactly when it ends the first or the second
      round: by the digests of key, block id and new index. */
  lemma ReshufflesExactly(s: EpochState, hash: Hash, blockId: Id)
    ensures var n, i := |s.witnesses|, s.idx + 1;
      Increment(s, hash, blockId) ==
        if n > 0 && (i == n || i == 2 * n) then
          s.(idx := i, witnesses := SortByDigest(s.witnesses, hash, blockId + Decimal(i)))
        else s.(idx := i)
  {
    var n, i := |s.witnesses|, s.idx + 1;
    if n > 0 && i < 3 * n {
      MultipleWithin(i, n);
    }
  }

  /** It never returns exactly for a witness whom nobody is queued to replace. */
  lemma HangsExactly(s: EpochState, k: Key)
    ensures Hangs(s, k) <==> (exists i :: 0 <= i < |s.witnesses| && s.witnesses[i] == k) && |s.queue| == 0
  {
  }

  // ---- a round with downgrades

  /** The seats that the downgrades of a run filled, oldest first. */
  function Filled(s: EpochState, hash: Hash, es: seq<EpochEvent>): (r: seq<nat>)
    ensures |r| == |Promoted(s, hash, es)|
  {
    if es == [] then []
    else
      var n := |es| - 1;
      var t := Run(s, hash, es[..n]);
      Filled(s, hash, es[..n]) +
      (if es[n].Downgraded? && Effective(t, es[n].key) then [IndexOf(t.witnesses, es[n].key)] else [])
  }

  /** The place of the last x. */
  function LastPlace(s: seq<nat>, x: nat): (i: nat)
    requires x in s
    ensures i < |s| && s[i] == x && x !in s[i+1..]
  {
    var n := |s| - 1;
    if s[n] == x then n
    else
      assert s == s[..n] + [s[n]];
      var i := LastPlace(s[..n], x);
      assert s[i+1..] == s[..n][i+1..] + [s[n]];
      i
  }

  /** Who sits in seat j: whoever was last put there, or who sat there first. */
  function Sitting(seats: seq<nat>, names: seq<Key>, j: nat, first: Key): Key
    requires |seats| == |names|
  {
    if j in seats then names[LastPlace(seats, j)] else first
  }

  function Occupant(s: EpochState, hash: Hash, es: seq<EpochEvent>, j: nat): Key
    requires j < |s.witnesses|
  {
    Sitting(Filled(s, hash, es), Promoted(s, hash, es), j, s.witnesses[j])
  }

  /** The run does not get to the end of the round it starts in. */
  predicate WithinTheRound(s: EpochState, es: seq<EpochEvent>) {
    s.witnesses != [] && Mod(s.idx, |s.witnesses|) + Slots(es) < |s.witnesses|
  }

  lemma NoReshuffle(t: EpochState, hash: Hash, blockId: Id, a: nat, m: nat)
    requires t.witnesses != [] && t.idx == a + m && Mod(a, |t.witnesses|) + m + 1 < |t.witnesses|
    ensures Increment(t, hash, blockId) == t.(idx := t.idx + 1)
  {
    ModAdd(a, |t.witnesses|, m + 1);
  }

  lemma NotFilled(s: EpochState, hash: Hash, es: seq<EpochEvent>, j: nat)
    requires es != [] && j < |s.witnesses|
    requires Filled(s, hash, es) == Filled(s, hash, es[..|es|-1])
    requires Promoted(s, hash, es) == Promoted(s, hash, es[..|es|-1])
    ensures Occupant(s, hash, es, j) == Occupant(s, hash, es[..|es|-1], j)
  {
  }

  lemma SittingNext(seats: seq<nat>, names: seq<Key>, x: nat, k: Key, j: nat, first: Key)
    requires |seats| == |names|
    ensures Sitting(seats + [x], names + [k], j, first) == if j == x then k else Sitting(seats, names, j, first)
  {
    assert (seats + [x])[..|seats|] == seats;
  }

  lemma NextFilled(s: EpochState, hash: Hash, es: seq<EpochEvent>, x: nat, k: Key, j: nat)
    requires es != [] && j < |s.witnesses|
    requires Filled(s, hash, es) == Filled(s, hash, es[..|es|-1]) + [x]
    requires Promoted(s, hash, es) == Promoted(s, hash, es[..|es|-1]) + [k]
    ensures Occupant(s, hash, es, j) == if j == x then k else Occupant(s, hash, es[..|es|-1], j)
  {
    SittingNext(Filled(s, hash, es[..|es|-1]), Promoted(s, hash, es[..|es|-1]), x, k, j, s.witnesses[j]);
  }

  lemma {:induction false} SeatsHeld(s: EpochState, hash: Hash, es: seq<EpochEvent>, j: nat)
    requires WithinTheRound(s, es) && j < |s.witnesses|
    ensures Run(s, hash, es).witnesses[j] == Occupant(s, hash, es, j)
  {
    if es != [] {
      var n := |es| - 1;
      var t := Run(s, hash, es[..n]);
      SeatsHeld(s, hash, es[..n], j);
      if es[n].Slot? {
        NoReshuffle(t, hash, es[n].blockId, s.idx, Slots(es[..n]));
        NotFilled(s, hash, es, j);
      } else if Effective(t, es[n].key) {
        NextFilled(s, hash, es, IndexOf(t.witnesses, es[n].key), t.queue[0], j);
      } else {
        NotFilled(s, hash, es, j);
      }
    }
  }

  /** In a round with any downgrades, the slot at place p belongs to seat p: to the witness who sat there when
      the run began if the seat was never filled anew, and otherwise to the one last put there. The one put
      there by the m-th downgrade is the m-th of those queued at first followed by those demoted since. */
  lemma SlotsGoWithSeats(s: EpochState, hash: Hash, es: seq<EpochEvent>)
    requires WithinTheRound(s, es)
    ensures var p := Mod(s.idx, |s.witnesses|) + Slots(es);
      var seats, next := Filled(s, hash, es), s.queue + Demoted(s, hash, es);
      && |seats| <= |next|
      && Run(s, hash, es).CurrentWitness() == Some(if p in seats then next[LastPlace(seats, p)] else s.witnesses[p])
  {
    var p := Mod(s.idx, |s.witnesses|) + Slots(es);
    SeatInCharge(s, hash, es);
    SeatsHeld(s, hash, es, p);
    OccupantNamed(s, hash, es, p);
  }

  lemma SeatInCharge(s: EpochState, hash: Hash, es: seq<EpochEvent>)
    requires WithinTheRound(s, es)
    ensures var t := Run(s, hash, es);
      t.CurrentWitness() == Some(t.witnesses[Mod(s.idx, |s.witnesses|) + Slots(es)])
  {
    ChargeAt(Run(s, hash, es), s.idx, Slots(es));
  }

  lemma ChargeAt(t: EpochState, a: nat, m: nat)
    requires t.witnesses != [] && t.idx == a + m && Mod(a, |t.witnesses|) + m < |t.witnesses|
    ensures t.CurrentWitness() == Some(t.witnesses[Mod(a, |t.witnesses|) + m])
  {
    ModAdd(a, |t.witnesses|, m);
  }

  lemma OccupantNamed(s: EpochState, hash: Hash, es: seq<EpochEvent>, j: nat)
    requires j < |s.witnesses|
    ensures var seats, next := Filled(s, hash, es), s.queue + Demoted(s, hash, es);
      && |seats| <= |next|
      && Occupant(s, hash, es, j) == if j in seats then next[LastPlace(seats, j)] else s.witnesses[j]
  {
    var left := Promoted(s, hash, es);
    QueueLaw(s, hash, es);
    assert s.queue + Demoted(s, hash, es) == left + Run(s, hash, es).queue;
  }

  /** A missed slot costs nobody else a slot: after the witness in charge is downgraded and its slot has
      passed, the next seat of the round is in charge, whoever was put into the failed one. */
  lemma MissedSlotPasses(s: EpochState, hash: Hash, blockId: Id)
    requires s.witnesses != [] && s.queue != [] && Distinct(s.witnesses)
    requires Mod(s.idx, |s.witnesses|) + 1 < |s.witnesses|
    ensures var p := Mod(s.idx, |s.witnesses|);
      && s.CurrentWitness() == Some(s.witnesses[p])
      && var t := Increment(Downgrade(s, s.witnesses[p]), hash, blockId);
         t.CurrentWitness() == Some(s.witnesses[p+1]) && t.witnesses[p] == s.queue[0]
  {
    var p := Mod(s.idx, |s.witnesses|);
    ReplacedInPlace(s, s.witnesses[p]);
    var u := Downgrade(s, s.witnesses[p]);
    NoReshuffle(u, hash, blockId, s.idx, 0);
    ChargeAt(Increment(u, hash, blockId), s.idx, 1);
    assert s.witnesses[p] !in s.witnesses[..p];
  }
}
