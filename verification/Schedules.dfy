/** Runs of a node put together event by event: the polls of a network with one witness slot. */
module Schedules {
  import opened Types
  import opened Digest
  import opened PyDict
  import opened VotingSystem
  import opened ElectionProperties
  import opened Epoch
  import opened EpochRuns
  import opened Node
  import opened NodeRuns
  import opened Agreement
  import opened OwnReports
  import opened Network

  const MEMBERS: seq<Key> := ["a", "b", "c", "d"]

  lemma FourKeys(s: set<Key>)
    requires forall k :: k in s <==> k in MEMBERS
    ensures s == {"a", "b", "c", "d"} && |s| == 4
  {
    assert s == {"a", "b", "c", "d"};
  }

  type Votes = Key -> Ballot

  /** The ballots of the keys, in this order. */
  function Ballots(v: Votes, ks: seq<Key>): (r: seq<Ballot>)
    ensures |r| == |ks| && forall i :: 0 <= i < |r| ==> r[i] == v(ks[i])
  {
    seq(|ks|, i requires 0 <= i < |ks| => v(ks[i]))
  }

  /** r is the election of these ballots for epoch e. */
  ghost predicate Elects(c: Config, v: Votes, ks: seq<Key>, e: nat, r: Result) {
    Decidable(c.stv, Ballots(v, ks), c.peerKeys) && IsElection(c.stv, c.hash, Ballots(v, ks), c.peerKeys, e, r)
  }

  /** The order of the ballots and the node that counts them do not matter. */
  lemma ElectsInOrder(c1: Config, c2: Config, v: Votes, ks1: seq<Key>, ks2: seq<Key>, e: nat, r: Result)
    requires c1.stv == c2.stv && c1.hash == c2.hash && c1.peerKeys == c2.peerKeys
    requires Elects(c1, v, ks1, e, r) && Distinct(ks1) && Distinct(ks2) && forall k :: k in ks1 <==> k in ks2
    ensures Elects(c2, v, ks2, e, r)
  {
    SameElements(ks1, ks2);
    var m := map k | k in ks1 :: v(k);
    LookupsPermuted(ks1, ks2, m);
    assert Ballots(v, ks1) == Lookups(ks1, m) && Ballots(v, ks2) == Lookups(ks2, m);
    DecidableOrder(c1.stv, Ballots(v, ks1), Ballots(v, ks2), c1.peerKeys);
    ElectionOrder(c1.stv, c1.hash, Ballots(v, ks1), Ballots(v, ks2), c1.peerKeys, e, r);
  }

  // ---- the poll for an epoch, event by event

  ghost predicate AllSay(d: Dict<Key, Result>, r: Result) {
    forall k :: k in d.vals ==> d.vals[k] == r
  }

  ghost predicate AllCast(d: Dict<Key, Ballot>, v: Votes) {
    forall k :: k in d.vals ==> d.vals[k] == v(k)
  }

  /** The poll for e is on: the ballots of `ks` and the reports of `qs` are in, which all say r. */
  ghost predicate Poll(n: NodeState, v: Votes, e: nat, ks: seq<Key>, qs: seq<Key>, r: Result) {
    && n.NextEpoch() == e && n.numSlots == 1
    && BallotsFor(n.voting, e).keys == ks && AllCast(BallotsFor(n.voting, e), v)
    && ResultsFor(n.voting, e).keys == qs && AllSay(ResultsFor(n.voting, e), r)
    && (forall x :: x in n.voting.ballots || x in n.voting.results || x in n.ready ==> x <= e)
  }

  lemma Unanimous(d: Dict<Key, Result>, r: Result)
    requires d.keys != [] && AllSay(d, r)
    ensures MostCommon(Values(d)) == r && multiset(Values(d))[r] == |d.keys|
  {
    NoneMoreCommon(Values(d));
    AllSame(Values(d), r);
  }

  lemma {:induction false} AllSame<T>(s: seq<T>, x: T)
    requires forall i :: 0 <= i < |s| ==> s[i] == x
    ensures multiset(s)[x] == |s|
  {
    if s != [] {
      var n := |s| - 1;
      assert s == s[..n] + [s[n]];
      AllSame(s[..n], x);
    }
  }

  lemma OwnBallot(c: Config, n: NodeState, v: Votes, e: nat, r: Result, online: nat)
    requires Poll(n, v, e, [], [], r) && ShouldVote(c, n, online)
    ensures var t := NodeStep(c, n, MayVote(v(c.key), online));
      Poll(t, v, e, [c.key], [], r) && t.epoch == n.epoch && t.timer == n.timer
  {
    assert NodeStep(c, n, MayVote(v(c.key), online)) == Vote(c, n, v(c.key));
  }

  lemma BallotIn(n: NodeState, v: Votes, e: nat, p: Key, ks: seq<Key>, qs: seq<Key>, r: Result)
    requires Poll(n, v, e, ks, qs, r) && p !in ks
    ensures !Ignored(n, p, e)
    ensures var t := Balloted(n, p, e, v(p)); Poll(t, v, e, ks + [p], qs, r) && t.epoch == n.epoch && t.timer.None?
  {
    assert p !in BallotsFor(n.voting, e).keys;
  }

  predicate All(c: Config, ballots: nat, online: nat) {
    online >= ConsensusAmount(c.slots, online) && ballots >= online
  }

  /** A ballot that does not complete the set; it starts the timer if it is enough to count. */
  lemma EarlyBallot(c: Config, n: NodeState, v: Votes, e: nat, p: Key, ks: seq<Key>, qs: seq<Key>, r: Result,
                    online: nat)
    requires Poll(n, v, e, ks, qs, r) && p !in ks && !All(c, |ks| + 1, online)
    ensures var ev := BallotMsg(p, e, v(p), online, None); var t := NodeStep(c, n, ev);
      && Poll(t, v, e, ks + [p], qs, r) && t.epoch == n.epoch && Genuine(c, n, ev)
      && t.timer == if |ks| + 1 >= ConsensusAmount(c.slots, online) then Some(e) else None
  {
    BallotIn(n, v, e, p, ks, qs, r);
  }

  lemma Elected(c: Config, n: NodeState, v: Votes, e: nat, ks: seq<Key>, qs: seq<Key>, r: Result, w: Result)
    requires Poll(n, v, e, ks, qs, r) && ks != [] && Elects(c, v, ks, e, w)
    ensures SentFor(c, n.voting, e, Some(w))
  {
    var d := BallotsFor(n.voting, e);
    assert Values(d) == Ballots(v, ks);
  }

  /** A ballot that completes the set makes the node report, perhaps for the second time. */
  lemma LastBallot(c: Config, n: NodeState, v: Votes, e: nat, p: Key, ks: seq<Key>, qs: seq<Key>, r: Result, w: Result,
                   online: nat)
    requires Poll(n, v, e, ks, qs, r) && p !in ks && All(c, |ks| + 1, online) && (qs == [] || qs == [c.key])
    requires Elects(c, v, ks + [p], e, w)
    ensures var ev := BallotMsg(p, e, v(p), online, Some(w)); var t := NodeStep(c, n, ev);
      && Poll(t, v, e, ks + [p], [c.key], w) && t.epoch == n.epoch && t.timer.None?
      && Genuine(c, n, ev) && OwnReport(c, n, ev) == Some(Report(c.key, e, w))
  {
    BallotIn(n, v, e, p, ks, qs, r);
    var t := Balloted(n, p, e, v(p));
    Elected(c, t, v, e, ks + [p], qs, r, w);
    OwnReportIn(c, t, v, e, ks + [p], qs, r, w);
  }

  lemma OwnReportIn(c: Config, n: NodeState, v: Votes, e: nat, ks: seq<Key>, qs: seq<Key>, r: Result, w: Result)
    requires Poll(n, v, e, ks, qs, r) && (qs == [] || qs == [c.key])
    ensures var t := RecordOwn(c, n, e, Some(w));
      Poll(t, v, e, ks, [c.key], w) && t.epoch == n.epoch && t.timer == n.timer
  {
    OnlyReport(ResultsFor(n.voting, e), c.key, w);
  }

  lemma OnlyReport(d: Dict<Key, Result>, k: Key, w: Result)
    requires d.keys == [] || d.keys == [k]
    ensures Put(d, k, w).keys == [k] && AllSay(Put(d, k, w), w)
  {
    assert k in d.vals <==> k in d.keys;
    assert forall o :: o in d.vals ==> o in d.keys;
  }

  lemma TimerReport(c: Config, n: NodeState, v: Votes, e: nat, ks: seq<Key>, r: Result, w: Result)
    requires Poll(n, v, e, ks, [], r) && ks != [] && n.timer == Some(e) && Elects(c, v, ks, e, w)
    ensures var ev := TimerFired(Some(w)); var t := NodeStep(c, n, ev);
      && Poll(t, v, e, ks, [c.key], w) && t.epoch == n.epoch && t.timer.None?
      && Genuine(c, n, ev) && OwnReport(c, n, ev) == Some(Report(c.key, e, w))
  {
    Elected(c, n, v, e, ks, [], r, w);
    OwnReportIn(c, n, v, e, ks, [], r, w);
  }

  // ---- reports from others

  lemma ReportStored(n: NodeState, v: Votes, e: nat, p: Key, ks: seq<Key>, qs: seq<Key>, r: Result)
    requires Poll(n, v, e, ks, qs, r) && p !in qs
    ensures Poll(Reported(n, p, e, r), v, e, ks, qs + [p], r)
  {
    assert p !in ResultsFor(n.voting, e).keys;
  }

  lemma ReportIn(c: Config, n: NodeState, v: Votes, e: nat, p: Key, ks: seq<Key>, qs: seq<Key>, r: Result, online: nat)
    requires Poll(n, v, e, ks, qs, r) && p !in qs
    ensures Poll(Reported(n, p, e, r), v, e, ks, qs + [p], r)
    ensures Decision(c, n, p, e, r, online) == if Decisive(c, n, |qs| + 1, online) then Some(r) else None
  {
    ReportStored(n, v, e, p, ks, qs, r);
    Unanimous(Reported(n, p, e, r).voting.results[e], r);
  }

  lemma ReportCounts(c: Config, n: NodeState, v: Votes, e: nat, p: Key, ks: seq<Key>, qs: seq<Key>, r: Result,
                     online: nat)
    requires Poll(n, v, e, ks, qs, r) && p !in qs && !Decisive(c, n, |qs| + 1, online)
    ensures var t := NodeStep(c, n, ResultMsg(p, e, r, online));
      Poll(t, v, e, ks, qs + [p], r) && t.epoch == n.epoch && t.timer == n.timer
  {
    ReportIn(c, n, v, e, p, ks, qs, r, online);
  }

  lemma ReportDecides(c: Config, n: NodeState, v: Votes, e: nat, p: Key, ks: seq<Key>, qs: seq<Key>, r: Result,
                      online: nat)
    requires Poll(n, v, e, ks, qs, r) && p !in qs && Decisive(c, n, |qs| + 1, online) && !n.epoch.IsOver()
    ensures var t := NodeStep(c, n, ResultMsg(p, e, r, online));
      t.epoch == n.epoch && ReadyList(t) == Some(r) && t.numSlots == 1
  {
    ReportIn(c, n, v, e, p, ks, qs, r, online);
  }

  lemma FewBooks(v: VotingState)
    requires forall x :: x in v.results ==> x <= 2
    ensures Expired(v.results) == []
  {
    assert v.results.Keys <= {0, 1, 2};
    SetSizes(v.results.Keys, {0, 1, 2});
  }

  /** The report that decides the first epoch begins it. */
  lemma ReportBegins(c: Config, n: NodeState, v: Votes, p: Key, ks: seq<Key>, qs: seq<Key>, r: Result, online: nat)
    requires Poll(n, v, 1, ks, qs, r) && p !in qs && Decisive(c, n, |qs| + 1, online) && n.epoch.IsOver()
    ensures var t := NodeStep(c, n, ResultMsg(p, 1, r, online));
      Poll(t, v, 2, [], [], []) && t.epoch == Seat(NewEpoch(1, 1), r) && t.timer == n.timer
    ensures Begun(c, n, ResultMsg(p, 1, r, online)) == Some(r)
  {
    ReportIn(c, n, v, 1, p, ks, qs, r, online);
    FirstSettled(Reported(n, p, 1, r), v, ks, qs + [p], r);
    ResultSettles(c, n, ResultMsg(p, 1, r, online));
  }

  lemma FirstSettled(n: NodeState, v: Votes, ks: seq<Key>, qs: seq<Key>, r: Result)
    requires Poll(n, v, 1, ks, qs, r) && n.epoch.IsOver()
    ensures var t := Settle(n, 1, Some(r)).0;
      Poll(t, v, 2, [], [], []) && t.epoch == Seat(NewEpoch(1, 1), r) && t.timer == n.timer
  {
    var u := Decided(n, 1, r);
    FewBooks(u.voting);
    FirstSeats(u, r);
  }

  lemma FirstSeats(u: NodeState, r: Result)
    requires u.numSlots == 1 && 1 in u.voting.candidates && u.voting.candidates[1] == r
    requires Expired(u.voting.results) == []
    ensures var t := InitializeEpoch(u, 1).0;
      && t.epoch == Seat(NewEpoch(1, 1), r) && t.voting == u.voting && t.ready == u.ready && t.timer == u.timer
      && t.numSlots == 1
  {
  }

  // ---- the slots of an epoch with one witness

  /** In an epoch with a single witness, i slots used, and the next one decided. */
  ghost predicate OneSeat(n: NodeState, e: nat, i: nat, r: Result) {
    n.epoch.number == e && n.epoch.idx == i && |n.epoch.witnesses| == 1 && n.numSlots == 1 && ReadyList(n) == Some(r)
  }

  lemma InnerSlot(n: NodeState, hash: Hash, blockId: Id, e: nat, i: nat, r: Result)
    requires OneSeat(n, e, i, r) && i < 2
    ensures NextSlot(n, hash, blockId).0 == n.(epoch := n.epoch.(idx := i + 1))
    ensures OneSeat(NextSlot(n, hash, blockId).0, e, i + 1, r)
  {
    SoleWitness(n.epoch, hash, blockId);
  }

  lemma LastSlot(n: NodeState, hash: Hash, blockId: Id, e: nat, r: Result)
    requires OneSeat(n, e, 2, r)
    ensures SlotsRunOut(n, hash, blockId)
    ensures NextSlot(n, hash, blockId).0.epoch == Seat(NewEpoch(e + 1, 1), r)
  {
    SoleWitness(n.epoch, hash, blockId);
    SlotSeats(n, hash, blockId);
  }

  // ---- runs

  /** What a story lets a member hear. */
  type Hearsay = NodeEvent -> bool

  /** A genuine, uninterrupted run that ends in n and hears only what the story allows. */
  ghost predicate Leads(c: Config, ok: Hearsay, es: seq<NodeEvent>, n: NodeState) {
    From(c, es) == n && GenuineRun(c, es) && Uninterrupted(es) && forall ev :: ev in es ==> ok(ev)
  }

  /** Whatever was said is still said. */
  ghost predicate Continues(c: Config, es: seq<NodeEvent>, later: seq<NodeEvent>) {
    forall e, r :: Said(Member(c, es), e, r) ==> Said(Member(c, later), e, r)
  }

  lemma Extend(c: Config, ok: Hearsay, es: seq<NodeEvent>, n: NodeState, ev: NodeEvent) returns (later: seq<NodeEvent>)
    requires Leads(c, ok, es, n) && Genuine(c, n, ev) && ok(ev) && !ev.Interrupted? && !ev.Bootstrapped?
    ensures Leads(c, ok, later, NodeStep(c, n, ev)) && Continues(c, es, later)
    ensures forall e, r :: OwnReport(c, n, ev) == Some(Report(c.key, e, r)) ==> Said(Member(c, later), e, r)
    ensures forall r :: Begun(c, n, ev) == Some(r) ==> SeatedAt(c, later, |es|, n.NextEpoch(), r)
  {
    later := es + [ev];
    Snoc(c, es, ev);
    assert later[..|es|] == es;
    forall e, r | Said(Member(c, es), e, r) ensures Said(Member(c, later), e, r) {
      var i: nat :| ReportedAt(c, es, i, e, r);
      assert later[..i] == es[..i];
      assert ReportedAt(c, later, i, e, r);
    }
    forall e, r | OwnReport(c, n, ev) == Some(Report(c.key, e, r)) ensures Said(Member(c, later), e, r) {
      assert ReportedAt(c, later, |es|, e, r);
    }
  }

  lemma Snoc(c: Config, es: seq<NodeEvent>, ev: NodeEvent)
    requires GenuineRun(c, es) && Genuine(c, From(c, es), ev)
    ensures From(c, es + [ev]) == NodeStep(c, From(c, es), ev)
    ensures GenuineRun(c, es + [ev])
  {
    FromSnoc(c, es, ev);
    forall i | 0 <= i <= |es| ensures Genuine(c, From(c, (es + [ev])[..i]), (es + [ev])[i]) {
      assert i < |es| ==> (es + [ev])[..i] == es[..i];
    }
  }

  /** A run so far, in which the poll for e stands like this. */
  ghost predicate Stage(c: Config, ok: Hearsay, v: Votes, es: seq<NodeEvent>, n: NodeState,
                        e: nat, ks: seq<Key>, qs: seq<Key>, r: Result) {
    Leads(c, ok, es, n) && Poll(n, v, e, ks, qs, r)
  }

  lemma CastBallot(c: Config, ok: Hearsay, v: Votes, es: seq<NodeEvent>, n: NodeState, e: nat, r: Result, online: nat)
      returns (later: seq<NodeEvent>, t: NodeState)
    requires Stage(c, ok, v, es, n, e, [], [], r) && ShouldVote(c, n, online) && ok(MayVote(v(c.key), online))
    ensures Stage(c, ok, v, later, t, e, [c.key], [], r) && Continues(c, es, later) && t.epoch == n.epoch
  {
    OwnBallot(c, n, v, e, r, online);
    later := Extend(c, ok, es, n, MayVote(v(c.key), online));
    t := NodeStep(c, n, MayVote(v(c.key), online));
  }

  lemma GetBallot(c: Config, ok: Hearsay, v: Votes, es: seq<NodeEvent>, n: NodeState, e: nat, p: Key, ks: seq<Key>,
                  r: Result, online: nat)
      returns (later: seq<NodeEvent>, t: NodeState)
    requires Stage(c, ok, v, es, n, e, ks, [], r) && p !in ks && !All(c, |ks| + 1, online)
    requires ok(BallotMsg(p, e, v(p), online, None))
    ensures Stage(c, ok, v, later, t, e, ks + [p], [], r) && Continues(c, es, later) && t.epoch == n.epoch
    ensures t.timer == if |ks| + 1 >= ConsensusAmount(c.slots, online) then Some(e) else None
  {
    var ev := BallotMsg(p, e, v(p), online, None);
    EarlyBallot(c, n, v, e, p, ks, [], r, online);
    later := Extend(c, ok, es, n, ev);
    t := NodeStep(c, n, ev);
  }

  lemma GetLastBallot(c: Config, ok: Hearsay, v: Votes, es: seq<NodeEvent>, n: NodeState, e: nat, p: Key, ks: seq<Key>,
                      qs: seq<Key>, r: Result, w: Result, online: nat)
      returns (later: seq<NodeEvent>, t: NodeState)
    requires Stage(c, ok, v, es, n, e, ks, qs, r) && p !in ks && All(c, |ks| + 1, online) && (qs == [] || qs == [c.key])
    requires Elects(c, v, ks + [p], e, w) && ok(BallotMsg(p, e, v(p), online, Some(w)))
    ensures Stage(c, ok, v, later, t, e, ks + [p], [c.key], w) && Continues(c, es, later) && t.epoch == n.epoch
    ensures Said(Member(c, later), e, w)
  {
    var ev := BallotMsg(p, e, v(p), online, Some(w));
    LastBallot(c, n, v, e, p, ks, qs, r, w, online);
    later := Extend(c, ok, es, n, ev);
    t := NodeStep(c, n, ev);
  }

  lemma FireTimer(c: Config, ok: Hearsay, v: Votes, es: seq<NodeEvent>, n: NodeState, e: nat, ks: seq<Key>, r: Result,
                  w: Result)
      returns (later: seq<NodeEvent>, t: NodeState)
    requires Stage(c, ok, v, es, n, e, ks, [], r) && ks != [] && n.timer == Some(e) && Elects(c, v, ks, e, w)
    requires ok(TimerFired(Some(w)))
    ensures Stage(c, ok, v, later, t, e, ks, [c.key], w) && Continues(c, es, later) && t.epoch == n.epoch
    ensures Said(Member(c, later), e, w)
  {
    TimerReport(c, n, v, e, ks, r, w);
    later := Extend(c, ok, es, n, TimerFired(Some(w)));
    t := NodeStep(c, n, TimerFired(Some(w)));
  }

  lemma GetReport(c: Config, ok: Hearsay, v: Votes, es: seq<NodeEvent>, n: NodeState, e: nat, p: Key, ks: seq<Key>,
                  qs: seq<Key>, r: Result, online: nat)
      returns (later: seq<NodeEvent>, t: NodeState)
    requires Stage(c, ok, v, es, n, e, ks, qs, r) && p !in qs && !Decisive(c, n, |qs| + 1, online)
    requires ok(ResultMsg(p, e, r, online))
    ensures Stage(c, ok, v, later, t, e, ks, qs + [p], r) && Continues(c, es, later) && t.epoch == n.epoch
  {
    ReportCounts(c, n, v, e, p, ks, qs, r, online);
    later := Extend(c, ok, es, n, ResultMsg(p, e, r, online));
    t := NodeStep(c, n, ResultMsg(p, e, r, online));
  }

  lemma GetDecisiveReport(c: Config, ok: Hearsay, v: Votes, es: seq<NodeEvent>, n: NodeState, e: nat, p: Key,
                          ks: seq<Key>, qs: seq<Key>, r: Result, online: nat)
      returns (later: seq<NodeEvent>, t: NodeState)
    requires Stage(c, ok, v, es, n, e, ks, qs, r) && p !in qs && Decisive(c, n, |qs| + 1, online) && !n.epoch.IsOver()
    requires ok(ResultMsg(p, e, r, online))
    ensures Leads(c, ok, later, t) && Continues(c, es, later)
    ensures t.epoch == n.epoch && ReadyList(t) == Some(r) && t.numSlots == 1
  {
    ReportDecides(c, n, v, e, p, ks, qs, r, online);
    later := Extend(c, ok, es, n, ResultMsg(p, e, r, online));
    t := NodeStep(c, n, ResultMsg(p, e, r, online));
  }

  /** The member's i-th event seats this list in epoch e. */
  ghost predicate Seats(m: Member, e: nat, list: Result) {
    exists i: nat :: SeatedAt(m.cfg, m.events, i, e, list)
  }

  lemma GetFirstEpoch(c: Config, ok: Hearsay, v: Votes, es: seq<NodeEvent>, n: NodeState, p: Key, ks: seq<Key>,
                      qs: seq<Key>, r: Result, online: nat)
      returns (later: seq<NodeEvent>, t: NodeState)
    requires Stage(c, ok, v, es, n, 1, ks, qs, r) && p !in qs && Decisive(c, n, |qs| + 1, online) && n.epoch.IsOver()
    requires ok(ResultMsg(p, 1, r, online))
    ensures Stage(c, ok, v, later, t, 2, [], [], []) && Continues(c, es, later) && t.epoch == Seat(NewEpoch(1, 1), r)
    ensures Seats(Member(c, later), 1, r)
  {
    ReportBegins(c, n, v, p, ks, qs, r, online);
    later := Extend(c, ok, es, n, ResultMsg(p, 1, r, online));
    t := NodeStep(c, n, ResultMsg(p, 1, r, online));
    assert SeatedAt(c, later, |es|, 1, r);
  }

  lemma PassSlot(c: Config, ok: Hearsay, es: seq<NodeEvent>, n: NodeState, e: nat, i: nat, r: Result)
      returns (later: seq<NodeEvent>, t: NodeState)
    requires Leads(c, ok, es, n) && OneSeat(n, e, i, r) && i < 2 && ok(SlotPassed("x"))
    ensures Leads(c, ok, later, t) && Continues(c, es, later) && OneSeat(t, e, i + 1, r)
  {
    InnerSlot(n, c.hash, "x", e, i, r);
    later := Extend(c, ok, es, n, SlotPassed("x"));
    t := NodeStep(c, n, SlotPassed("x"));
  }

  lemma PassLastSlot(c: Config, ok: Hearsay, es: seq<NodeEvent>, n: NodeState, e: nat, r: Result)
      returns (later: seq<NodeEvent>)
    requires Leads(c, ok, es, n) && OneSeat(n, e, 2, r) && ok(SlotPassed("x"))
    ensures Plays(c, ok, later) && Continues(c, es, later) && Seats(Member(c, later), e + 1, r)
  {
    LastSlot(n, c.hash, "x", e, r);
    later := Extend(c, ok, es, n, SlotPassed("x"));
    assert SeatedAt(c, later, |es|, e + 1, r);
  }

  /** A genuine, uninterrupted run that hears only what the story allows. */
  ghost predicate Plays(c: Config, ok: Hearsay, es: seq<NodeEvent>) {
    Leads(c, ok, es, From(c, es))
  }

  lemma SlotsPass(c: Config, ok: Hearsay, es: seq<NodeEvent>, n: NodeState, e: nat, r: Result)
      returns (later: seq<NodeEvent>)
    requires Leads(c, ok, es, n) && OneSeat(n, e, 0, r) && ok(SlotPassed("x"))
    ensures Plays(c, ok, later) && Continues(c, es, later) && Seats(Member(c, later), e + 1, r)
  {
    var t;
    later, t := PassSlot(c, ok, es, n, e, 0, r);
    later, t := PassSlot(c, ok, later, t, e, 1, r);
    later := PassLastSlot(c, ok, later, t, e, r);
  }

  /** A network in which every one of these members is as it should be. */
  lemma {:induction false} Assemble(ks: seq<Key>, ok: (Member, Key) -> bool) returns (net: Net)
    requires forall k :: k in ks ==> exists m :: ok(m, k)
    ensures (forall k :: k in net <==> k in ks) && forall k :: k in net ==> ok(net[k], k)
  {
    net := map[];
    if ks != [] {
      forall k | k in ks[1..] ensures exists m :: ok(m, k) {
        assert k in ks;
      }
      var others := Assemble(ks[1..], ok);
      assert ks[0] in ks;
      var m :| ok(m, ks[0]);
      net := others[ks[0] := m];
      assert forall k :: k in ks <==> k == ks[0] || k in ks[1..];
    }
  }

  /** The first poll, on a node that knows nothing yet. */
  lemma FirstPoll(c: Config, ok: Hearsay, v: Votes, online: nat)
    requires c.slots == 1 && online > 1
    ensures Stage(c, ok, v, [], InitialState(c), 1, [], [], [])
    ensures ShouldVote(c, InitialState(c), online) && InitialState(c).epoch == NewEpoch(0, 1)
  {
  }
}
