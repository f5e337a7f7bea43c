/** Epochs across a network in which members catch up from one another: however many catch-ups lie behind a
    member, the epoch it stands in comes from the one list that was elected for it. */
module Lineage {
  import opened Types
  import opened Digest
  import opened Epoch
  import opened EpochRuns
  import opened Node
  import opened NodeRuns
  import opened Agreement
  import opened Network

  // ---- within an epoch

  function EpochEvents(ev: NodeEvent): seq<EpochEvent> {
    if ev.SlotPassed? then [Slot(ev.blockId)] else if ev.WitnessFailed? then [Downgraded(ev.peer)] else []
  }

  /** Nobody is a witness or queued. */
  predicate Vacant(p: EpochState) {
    p.FullCandidateList() == []
  }

  /** The epoch follows by slots and downgrades from seating the list. */
  ghost predicate Rooted(p: EpochState, hash: Hash, list: Result) {
    exists ees: seq<EpochEvent> :: p == Run(Seat(NewEpoch(p.number, p.numSlots), list), hash, ees)
  }

  lemma {:induction false} RunAppend(s: EpochState, hash: Hash, a: seq<EpochEvent>, b: seq<EpochEvent>)
    ensures Run(s, hash, a + b) == Run(Run(s, hash, a), hash, b)
  {
    if b == [] {
      assert a + b == a;
    } else {
      var n := |b| - 1;
      RunAppend(s, hash, a, b[..n]);
      assert (a + b)[..|a+b|-1] == a + b[..n] && (a + b)[|a+b|-1] == b[n];
    }
  }

  lemma RootedOn(p: EpochState, hash: Hash, list: Result, ees: seq<EpochEvent>)
    requires Rooted(p, hash, list)
    ensures Rooted(Run(p, hash, ees), hash, list)
  {
    var before: seq<EpochEvent> :| p == Run(Seat(NewEpoch(p.number, p.numSlots), list), hash, before);
    RunAppend(Seat(NewEpoch(p.number, p.numSlots), list), hash, before, ees);
  }

  lemma SeatIsFull(e: nat, slots: nat, list: Result)
    ensures var seat := Seat(NewEpoch(e, slots), list); Full(seat) && seat.FullCandidateList() == list
  {
  }

  /** What is rooted in a list holds its keys, and survives the trip through a payload. */
  lemma RootedKeeps(p: EpochState, hash: Hash, list: Result)
    requires Rooted(p, hash, list)
    ensures multiset(p.FullCandidateList()) == multiset(list) && Full(p) && Restore(Payload(p)) == p
  {
    var ees: seq<EpochEvent> :| p == Run(Seat(NewEpoch(p.number, p.numSlots), list), hash, ees);
    SeatIsFull(p.number, p.numSlots, list);
    RunConserves(Seat(NewEpoch(p.number, p.numSlots), list), hash, ees);
    ReachableEpochsRestore(p.number, p.numSlots, list, hash, ees, []);
    RestoreRoundTrip(p);
  }

  lemma VacantRestores(p: EpochState)
    requires Vacant(p)
    ensures Vacant(Restore(Payload(p)))
  {
  }

  // ---- the epoch after an event

  /** An event that neither begins an epoch nor resumes one moves the epoch by a slot, by a downgrade or
      not at all; only a change of epoch that raises leaves nobody in it. */
  lemma EpochMoves(c: Config, s: NodeState, ev: NodeEvent)
    requires Begun(c, s, ev).None? && !ev.Bootstrapped?
    ensures var p := NodeStep(c, s, ev).epoch; p == Run(s.epoch, c.hash, EpochEvents(ev)) || Vacant(p)
  {
    assert forall x: EpochEvent :: [x][..0] == [];
    if ev.ResultMsg? {
      ResultSettles(c, s, ev);
      assert Settle(Reported(s, ev.peer, ev.epoch, ev.result), ev.epoch, DecisionOf(c, s, ev)).0.epoch == s.epoch;
    } else if ev.SlotPassed? {
      SlotMoves(s, c.hash, ev.blockId);
    }
  }

  lemma SlotMoves(s: NodeState, hash: Hash, blockId: Id)
    requires SlotsRunOut(s, hash, blockId) ==> ReadyList(s).None?
    ensures var p := NextSlot(s, hash, blockId).0.epoch; p == Increment(s.epoch, hash, blockId) || Vacant(p)
  {
  }

  // ---- the network

  /** Agreement is assured for every epoch: nothing is forged, polls close with the first report, fewer than
      a third of the members are faulty, and all are online when reports come in. */
  ghost predicate Orderly(net: Net, members: set<Key>, hash: Hash) {
    && (forall e: nat :: Authentic(net, members, e) && PollsClose(net, e)) && 3 * |members - net.Keys| < |members|
    && (forall k :: k in net ==> OrderlyMember(net[k], members, hash))
  }

  ghost predicate OrderlyMember(m: Member, members: set<Key>, hash: Hash) {
    m.cfg.hash == hash && forall e: nat :: AllOnline(m.events, e, |members|)
  }

  ghost predicate SeatedBy(net: Net, k: Key, i: nat, e: nat, list: Result) {
    k in net && SeatedAt(net[k].cfg, net[k].events, i, e, list)
  }

  /** The list that some member seats in e; nothing if nobody does. */
  ghost function Agreed(net: Net, e: nat): (list: Result)
    ensures list == [] || exists k, i: nat :: SeatedBy(net, k, i, e, list)
    ensures (exists k, i: nat, x :: SeatedBy(net, k, i, e, x)) ==> exists k, i: nat :: SeatedBy(net, k, i, e, list)
  {
    if exists k, i: nat, list :: SeatedBy(net, k, i, e, list) then
      var k, i: nat, list :| SeatedBy(net, k, i, e, list);
      list
    else []
  }

  lemma SeatedIsAgreed(net: Net, members: set<Key>, hash: Hash, k: Key, i: nat, e: nat, list: Result)
    requires Orderly(net, members, hash) && SeatedBy(net, k, i, e, list)
    ensures list == Agreed(net, e)
  {
    var agreed := Agreed(net, e);
    var k2, i2: nat :| SeatedBy(net, k2, i2, e, agreed);
    assert OrderlyMember(net[k], members, hash) && OrderlyMember(net[k2], members, hash);
    MemberSeatsAgree(net, members, e, k, i, list, k2, i2, agreed);
  }

  /** The epoch is vacant, or comes from the list agreed for it. */
  ghost predicate Lawful(net: Net, p: EpochState, hash: Hash) {
    Vacant(p) || Rooted(p, hash, Agreed(net, p.number))
  }

  /** What happens when: a member's clock does not run backwards, and whatever it resumes from is the
      payload of an epoch in which some member stood before. That member may have caught up itself. */
  type Clock = (Key, nat) -> nat

  ghost predicate Timed(net: Net, clock: Clock) {
    forall k, i: nat :: k in net && i < |net[k].events| ==> TimedAt(net, clock, k, i)
  }

  ghost predicate TimedAt(net: Net, clock: Clock, k: Key, i: nat)
    requires k in net && i < |net[k].events|
  {
    var ev := net[k].events[i];
    && clock(k, i) <= clock(k, i + 1)
    && (ev.Bootstrapped? ==> exists w, n: nat :: WrittenBy(net, ev.payload, w, n) && clock(w, n) < clock(k, i + 1))
  }

  /** The payload is the one of w's epoch after n events. */
  ghost predicate WrittenBy(net: Net, payload: ConsensusData, w: Key, n: nat) {
    w in net && n <= |net[w].events| && payload == Payload(EpochAt(net[w], n))
  }

  function EpochAt(m: Member, n: nat): EpochState
    requires n <= |m.events|
  {
    From(m.cfg, m.events[..n]).epoch
  }

  lemma LawfulOn(net: Net, p: EpochState, hash: Hash, ees: seq<EpochEvent>)
    requires Lawful(net, p, hash)
    ensures Lawful(net, Run(p, hash, ees), hash)
  {
    if !Vacant(p) {
      RootedOn(p, hash, Agreed(net, p.number), ees);
    }
  }

  lemma LawfulRestores(net: Net, p: EpochState, hash: Hash)
    requires Lawful(net, p, hash)
    ensures Lawful(net, Restore(Payload(p)), hash)
  {
    if Vacant(p) {
      VacantRestores(p);
    } else {
      RootedKeeps(p, hash, Agreed(net, p.number));
    }
  }

  lemma BegunLawful(net: Net, members: set<Key>, hash: Hash, k: Key, i: nat)
    requires Orderly(net, members, hash) && k in net && i < |net[k].events|
    requires Begun(net[k].cfg, From(net[k].cfg, net[k].events[..i]), net[k].events[i]).Some?
    ensures Lawful(net, EpochAt(net[k], i + 1), hash)
  {
    var c, es := net[k].cfg, net[k].events;
    var s := From(c, es[..i]);
    var list := Begun(c, s, es[i]).value;
    assert SeatedBy(net, k, i, s.NextEpoch(), list);
    SeatedIsAgreed(net, members, hash, k, i, s.NextEpoch(), list);
    NextPrefix(c, es, i);
    BegunSeats(c, s, es[i]);
    assert EpochAt(net[k], i + 1) == Run(Seat(NewEpoch(s.NextEpoch(), s.numSlots), list), hash, []);
  }

  lemma MovedLawful(net: Net, m: Member, hash: Hash, i: nat)
    requires i < |m.events| && m.cfg.hash == hash && Lawful(net, EpochAt(m, i), hash)
    requires Begun(m.cfg, From(m.cfg, m.events[..i]), m.events[i]).None? && !m.events[i].Bootstrapped?
    ensures Lawful(net, EpochAt(m, i + 1), hash)
  {
    NextPrefix(m.cfg, m.events, i);
    EpochMoves(m.cfg, From(m.cfg, m.events[..i]), m.events[i]);
    LawfulOn(net, EpochAt(m, i), hash, EpochEvents(m.events[i]));
  }

  lemma OwnLawful(net: Net, members: set<Key>, hash: Hash, k: Key, i: nat)
    requires Orderly(net, members, hash) && k in net && i < |net[k].events| && !net[k].events[i].Bootstrapped?
    requires Lawful(net, EpochAt(net[k], i), hash)
    ensures Lawful(net, EpochAt(net[k], i + 1), hash)
  {
    assert OrderlyMember(net[k], members, hash);
    if Begun(net[k].cfg, From(net[k].cfg, net[k].events[..i]), net[k].events[i]).Some? {
      BegunLawful(net, members, hash, k, i);
    } else {
      MovedLawful(net, net[k], hash, i);
    }
  }

  lemma ResumedLawful(net: Net, m: Member, hash: Hash, i: nat, p: EpochState)
    requires i < |m.events| && m.events[i] == Bootstrapped(Payload(p)) && Lawful(net, p, hash)
    ensures Lawful(net, EpochAt(m, i + 1), hash)
  {
    NextPrefix(m.cfg, m.events, i);
    BootstrappedEpoch(m.cfg, From(m.cfg, m.events[..i]), Payload(p));
    LawfulRestores(net, p, hash);
  }

  lemma BootstrappedEpoch(c: Config, s: NodeState, p: ConsensusData)
    ensures NodeStep(c, s, Bootstrapped(p)).epoch == Restore(p)
  {
  }

  lemma Source(net: Net, clock: Clock, k: Key, i: nat) returns (w: Key, n: nat)
    requires Timed(net, clock) && k in net && i < |net[k].events| && net[k].events[i].Bootstrapped?
    ensures w in net && n <= |net[w].events| && clock(w, n) < clock(k, i + 1)
    ensures net[k].events[i] == Bootstrapped(Payload(EpochAt(net[w], n)))
  {
    var payload := net[k].events[i].payload;
    assert TimedAt(net, clock, k, i);
    w, n :| WrittenBy(net, payload, w, n) && clock(w, n) < clock(k, i + 1);
  }

  /** Whatever epoch a member stands in at any time, it is vacant or comes from the agreed list. */
  lemma {:induction false} EpochsAreLawful(net: Net, members: set<Key>, hash: Hash, clock: Clock, k: Key, n: nat)
    requires Orderly(net, members, hash) && Timed(net, clock) && k in net && n <= |net[k].events|
    ensures Lawful(net, EpochAt(net[k], n), hash)
    decreases clock(k, n), n
  {
    if n > 0 {
      var i := n - 1;
      assert i + 1 == n;
      if net[k].events[i].Bootstrapped? {
        var w, j := Source(net, clock, k, i);
        EpochsAreLawful(net, members, hash, clock, w, j);
        ResumedLawful(net, net[k], hash, i, EpochAt(net[w], j));
      } else {
        assert TimedAt(net, clock, k, i);
        EpochsAreLawful(net, members, hash, clock, k, i);
        OwnLawful(net, members, hash, k, i);
      }
    }
  }

  /** So two members that stand in one epoch, whenever and by whatever catch-ups, hold the same witnesses
      and candidates, moved only by slots and downgrades since some member seated their list. */
  lemma OneLineage(net: Net, members: set<Key>, hash: Hash, clock: Clock, k1: Key, n1: nat, k2: Key, n2: nat)
      returns (k: Key, i: nat, list: Result)
    requires Orderly(net, members, hash) && Timed(net, clock)
    requires k1 in net && n1 <= |net[k1].events| && !Vacant(EpochAt(net[k1], n1))
    requires k2 in net && n2 <= |net[k2].events| && !Vacant(EpochAt(net[k2], n2))
    requires EpochAt(net[k1], n1).number == EpochAt(net[k2], n2).number
    ensures SeatedBy(net, k, i, EpochAt(net[k1], n1).number, list)
    ensures Rooted(EpochAt(net[k1], n1), hash, list) && Rooted(EpochAt(net[k2], n2), hash, list)
    ensures multiset(EpochAt(net[k1], n1).FullCandidateList()) == multiset(list)
    ensures multiset(EpochAt(net[k2], n2).FullCandidateList()) == multiset(list)
  {
    EpochsAreLawful(net, members, hash, clock, k1, n1);
    EpochsAreLawful(net, members, hash, clock, k2, n2);
    var p1, p2 := EpochAt(net[k1], n1), EpochAt(net[k2], n2);
    list := Agreed(net, p1.number);
    RootedKeeps(p1, hash, list);
    RootedKeeps(p2, hash, list);
    EmptyList(p1.FullCandidateList(), list);
    k, i :| SeatedBy(net, k, i, p1.number, list);
  }

  lemma EmptyList(a: seq<Key>, b: seq<Key>)
    requires multiset(a) == multiset(b) && a != []
    ensures b != []
  {
    assert a[0] in multiset(a);
  }
}
