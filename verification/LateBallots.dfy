/** Why agreement needs the polls to close. Four members run the code, nobody is faulty, everybody is
    online all the time, and yet two of them seat different lists whenever the election of three ballots
    differs from that of all four. Two members report the former when their timers fire and the latter
    when the fourth ballot comes in late. One member hears the early reports, the others the late ones. */
module LateBallots {
  import opened Types
  import opened Digest
  import opened Voting
  import opened VotingSystem
  import opened Epoch
  import opened Node
  import opened NodeRuns
  import opened Agreement
  import opened OwnReports
  import opened Network
  import opened Schedules
  import opened TieBreaks

  /** Any hash and STV, what each member votes, and what the code elects: `first` for epoch 1 from all four
      ballots, and for epoch 2 `early` from those of a, b and c and `late` from all four. */
  datatype Tale = Tale(hash: Hash, stv: Stv, v: Votes, first: Result, early: Result, late: Result) {
    function Cfg(k: Key): Config {
      Config(k, MEMBERS, 1, hash, stv)
    }

    ghost predicate Valid() {
      && first != [] && Elects(Cfg("a"), v, MEMBERS, 1, first)
      && Elects(Cfg("a"), v, ["a", "b", "c"], 2, early) && Elects(Cfg("a"), v, MEMBERS, 2, late)
    }
  }

  /** Ballots are what their senders cast, and reports what their senders say in this story. */
  predicate FairReport(t: Tale, p: Key, e: nat, r: Result) {
    || (e == 1 && r == t.first)
    || (e == 2 && p in ["b", "c"] && r == t.early)
    || (e == 2 && p in ["b", "c", "d"] && r == t.late)
  }

  function Fair(t: Tale): Hearsay {
    (ev: NodeEvent) =>
      && (ev.BallotMsg? ==> ev.online == 4 && ev.peer in MEMBERS && ev.votes == t.v(ev.peer))
      && (ev.ResultMsg? ==> ev.online == 4 && ev.peer in MEMBERS && FairReport(t, ev.peer, ev.epoch, ev.result))
  }

  predicate Four(k: Key, x: Key, y: Key, z: Key) {
    && k != x && k != y && k != z && x != y && x != z && y != z
    && k in MEMBERS && x in MEMBERS && y in MEMBERS && z in MEMBERS
  }

  // ---- elections are the same on every member

  lemma AllFour(t: Tale, k: Key, x: Key, y: Key, z: Key)
    requires t.Valid() && Four(k, x, y, z)
    ensures Elects(t.Cfg(k), t.v, [k, x, y, z], 1, t.first) && Elects(t.Cfg(k), t.v, [k, x, y, z], 2, t.late)
  {
    FourAreAll(k, x, y, z);
    ElectsInOrder(t.Cfg("a"), t.Cfg(k), t.v, MEMBERS, [k, x, y, z], 1, t.first);
    ElectsInOrder(t.Cfg("a"), t.Cfg(k), t.v, MEMBERS, [k, x, y, z], 2, t.late);
  }

  lemma FourAreAll(k: Key, x: Key, y: Key, z: Key)
    requires Four(k, x, y, z)
    ensures Distinct(MEMBERS) && Distinct([k, x, y, z]) && forall o :: o in MEMBERS <==> o in [k, x, y, z]
  {
  }

  lemma FirstThree(t: Tale, k: Key, x: Key, y: Key)
    requires t.Valid() && Four(k, x, y, "d")
    ensures Elects(t.Cfg(k), t.v, [k, x, y], 2, t.early)
  {
    assert Distinct(["a", "b", "c"]) && Distinct([k, x, y]);
    assert forall o :: o in ["a", "b", "c"] <==> o in [k, x, y];
    ElectsInOrder(t.Cfg("a"), t.Cfg(k), t.v, ["a", "b", "c"], [k, x, y], 2, t.early);
  }

  // ---- the story of one member

  lemma ThreeBallots(t: Tale, k: Key, es: seq<NodeEvent>, n: NodeState, e: nat, x: Key, y: Key)
      returns (later: seq<NodeEvent>, u: NodeState)
    requires k != x && k != y && x != y && x in MEMBERS && y in MEMBERS
    requires Stage(t.Cfg(k), Fair(t), t.v, es, n, e, [], [], []) && ShouldVote(t.Cfg(k), n, 4)
    ensures Stage(t.Cfg(k), Fair(t), t.v, later, u, e, [k, x, y], [], []) && Continues(t.Cfg(k), es, later)
    ensures u.epoch == n.epoch && u.timer == Some(e)
  {
    var c := t.Cfg(k);
    later, u := CastBallot(c, Fair(t), t.v, es, n, e, [], 4);
    later, u := GetBallot(c, Fair(t), t.v, later, u, e, x, [k], [], 4);
    later, u := GetBallot(c, Fair(t), t.v, later, u, e, y, [k, x], [], 4);
  }

  /** Epoch 1 is elected by all four ballots. */
  lemma FourBallots(t: Tale, k: Key, x: Key, y: Key, z: Key) returns (es: seq<NodeEvent>, u: NodeState)
    requires t.Valid() && Four(k, x, y, z)
    ensures Stage(t.Cfg(k), Fair(t), t.v, es, u, 1, [k, x, y, z], [k], t.first)
    ensures Said(Member(t.Cfg(k), es), 1, t.first) && u.epoch == NewEpoch(0, 1)
  {
    var c := t.Cfg(k);
    FirstPoll(c, Fair(t), t.v, 4);
    AllFour(t, k, x, y, z);
    es, u := ThreeBallots(t, k, [], InitialState(c), 1, x, y);
    assert [k, x, y] + [z] == [k, x, y, z];
    es, u := GetLastBallot(c, Fair(t), t.v, es, u, 1, z, [k, x, y], [], [], t.first, 4);
  }

  /** Everybody reports the same about it. */
  lemma HearThree(t: Tale, k: Key, es: seq<NodeEvent>, n: NodeState, ks: seq<Key>, x: Key, y: Key, z: Key)
      returns (later: seq<NodeEvent>, u: NodeState)
    requires Four(k, x, y, z) && Stage(t.Cfg(k), Fair(t), t.v, es, n, 1, ks, [k], t.first) && n.epoch == NewEpoch(0, 1)
    ensures Stage(t.Cfg(k), Fair(t), t.v, later, u, 2, [], [], []) && Continues(t.Cfg(k), es, later)
    ensures u.epoch == Seat(NewEpoch(1, 1), t.first)
  {
    var c := t.Cfg(k);
    later, u := HearTwoFirst(t, k, es, n, ks, x, y);
    later, u := GetFirstEpoch(c, Fair(t), t.v, later, u, z, ks, [k, x, y], t.first, 4);
  }

  lemma HearTwoFirst(t: Tale, k: Key, es: seq<NodeEvent>, n: NodeState, ks: seq<Key>, x: Key, y: Key)
      returns (later: seq<NodeEvent>, u: NodeState)
    requires k != x && k != y && x != y && x in MEMBERS && y in MEMBERS
    requires Stage(t.Cfg(k), Fair(t), t.v, es, n, 1, ks, [k], t.first) && n.epoch == NewEpoch(0, 1)
    ensures Stage(t.Cfg(k), Fair(t), t.v, later, u, 1, ks, [k, x, y], t.first) && Continues(t.Cfg(k), es, later)
    ensures u.epoch == n.epoch
  {
    var c := t.Cfg(k);
    later, u := GetReport(c, Fair(t), t.v, es, n, 1, x, ks, [k], t.first, 4);
    assert [k] + [x] == [k, x] && [k, x] + [y] == [k, x, y];
    later, u := GetReport(c, Fair(t), t.v, later, u, 1, y, ks, [k, x], t.first, 4);
  }

  lemma SecondPoll(t: Tale, k: Key, n: NodeState)
    requires Poll(n, t.v, 2, [], [], []) && n.epoch == Seat(NewEpoch(1, 1), t.first)
    ensures ShouldVote(t.Cfg(k), n, 4)
  {
    assert k !in BallotsFor(n.voting, 2).keys;
    assert |n.epoch.witnesses| <= 1;
  }

  /** Then three ballots for epoch 2 come in. */
  lemma SecondEpochPoll(t: Tale, k: Key, x: Key, y: Key, z: Key) returns (es: seq<NodeEvent>, u: NodeState)
    requires t.Valid() && Four(k, x, y, z)
    ensures Stage(t.Cfg(k), Fair(t), t.v, es, u, 2, [k, x, y], [], []) && Said(Member(t.Cfg(k), es), 1, t.first)
    ensures u.epoch == Seat(NewEpoch(1, 1), t.first) && u.timer == Some(2)
  {
    es, u := FourBallots(t, k, x, y, z);
    es, u := HearThree(t, k, es, u, [k, x, y, z], x, y, z);
    SecondPoll(t, k, u);
    es, u := ThreeBallots(t, k, es, u, 2, x, y);
  }

  /** The timer fires on them: an early report. */
  lemma ReportEarly(t: Tale, k: Key, x: Key, y: Key) returns (es: seq<NodeEvent>, u: NodeState)
    requires t.Valid() && Four(k, x, y, "d")
    ensures Stage(t.Cfg(k), Fair(t), t.v, es, u, 2, [k, x, y], [k], t.early) && Said(Member(t.Cfg(k), es), 1, t.first)
    ensures Said(Member(t.Cfg(k), es), 2, t.early) && u.epoch == Seat(NewEpoch(1, 1), t.first)
  {
    es, u := SecondEpochPoll(t, k, x, y, "d");
    FirstThree(t, k, x, y);
    es, u := FireTimer(t.Cfg(k), Fair(t), t.v, es, u, 2, [k, x, y], [], t.early);
  }

  /** The fourth ballot comes in: a late report, the second one on a member that reported early. */
  lemma ReportLate(t: Tale, k: Key, es: seq<NodeEvent>, n: NodeState, x: Key, y: Key, z: Key, qs: seq<Key>, r: Result)
      returns (later: seq<NodeEvent>, u: NodeState)
    requires t.Valid() && Four(k, x, y, z) && (qs == [] || qs == [k])
    requires Stage(t.Cfg(k), Fair(t), t.v, es, n, 2, [k, x, y], qs, r)
    ensures Stage(t.Cfg(k), Fair(t), t.v, later, u, 2, [k, x, y, z], [k], t.late) && Continues(t.Cfg(k), es, later)
    ensures Said(Member(t.Cfg(k), later), 2, t.late) && u.epoch == n.epoch
  {
    AllFour(t, k, x, y, z);
    assert [k, x, y] + [z] == [k, x, y, z];
    later, u := GetLastBallot(t.Cfg(k), Fair(t), t.v, es, n, 2, z, [k, x, y], qs, r, t.late, 4);
  }

  lemma HearDecision(t: Tale, k: Key, es: seq<NodeEvent>, n: NodeState, ks: seq<Key>, p: Key, q: Key, r: Result)
      returns (later: seq<NodeEvent>, u: NodeState)
    requires k != p && k != q && p != q && p in MEMBERS && q in MEMBERS && t.first != []
    requires FairReport(t, p, 2, r) && FairReport(t, q, 2, r)
    requires Stage(t.Cfg(k), Fair(t), t.v, es, n, 2, ks, [k], r) && n.epoch == Seat(NewEpoch(1, 1), t.first)
    ensures Leads(t.Cfg(k), Fair(t), later, u) && Continues(t.Cfg(k), es, later) && OneSeat(u, 1, 0, r)
  {
    later, u := GetReport(t.Cfg(k), Fair(t), t.v, es, n, 2, p, ks, [k], r, 4);
    assert [k] + [p] == [k, p];
    later, u := GetDecisiveReport(t.Cfg(k), Fair(t), t.v, later, u, 2, q, ks, [k, p], r, 4);
  }

  /** Two more reports of one list decide it, and after the slots of epoch 1 it is seated. */
  lemma HearTwo(t: Tale, k: Key, es: seq<NodeEvent>, n: NodeState, ks: seq<Key>, p: Key, q: Key, r: Result)
      returns (later: seq<NodeEvent>)
    requires k != p && k != q && p != q && p in MEMBERS && q in MEMBERS && t.first != []
    requires FairReport(t, p, 2, r) && FairReport(t, q, 2, r)
    requires Stage(t.Cfg(k), Fair(t), t.v, es, n, 2, ks, [k], r) && n.epoch == Seat(NewEpoch(1, 1), t.first)
    ensures Plays(t.Cfg(k), Fair(t), later) && Continues(t.Cfg(k), es, later) && Seats(Member(t.Cfg(k), later), 2, r)
  {
    var u;
    later, u := HearDecision(t, k, es, n, ks, p, q, r);
    later := SlotsPass(t.Cfg(k), Fair(t), later, u, 1, r);
  }

  // ---- the four members

  /** What member k votes, hears and says. */
  ghost predicate Tells(m: Member, k: Key, t: Tale) {
    && m.cfg == t.Cfg(k) && (forall ev :: ev in m.events ==> Fair(t)(ev))
    && Said(m, 1, t.first)
    && (k in ["b", "c"] ==> Said(m, 2, t.early)) && (k in ["b", "c", "d"] ==> Said(m, 2, t.late))
  }

  /** What member k seats, running the code. */
  ghost predicate Behaves(m: Member, k: Key, t: Tale) {
    GenuineRun(m.cfg, m.events) && Uninterrupted(m.events) && Seats(m, 2, if k == "a" then t.early else t.late)
  }

  lemma MemberA(t: Tale) returns (m: Member)
    requires t.Valid()
    ensures Tells(m, "a", t) && Behaves(m, "a", t)
  {
    var es, u := ReportEarly(t, "a", "b", "c");
    es := HearTwo(t, "a", es, u, ["a", "b", "c"], "b", "c", t.early);
    m := Member(t.Cfg("a"), es);
  }

  /** b and c report early and late. */
  lemma Changing(t: Tale, k: Key, x: Key, y: Key, p: Key) returns (m: Member)
    requires t.Valid() && Four(k, x, y, "d") && k != "a" && p in ["b", "c"] && p != k
    ensures Tells(m, k, t) && Behaves(m, k, t)
  {
    var es, u := ReportEarly(t, k, x, y);
    es, u := ReportLate(t, k, es, u, x, y, "d", [k], t.early);
    es := HearTwo(t, k, es, u, [k, x, y, "d"], p, "d", t.late);
    m := Member(t.Cfg(k), es);
  }

  lemma MemberD(t: Tale) returns (m: Member)
    requires t.Valid()
    ensures Tells(m, "d", t) && Behaves(m, "d", t)
  {
    var es, u := SecondEpochPoll(t, "d", "a", "b", "c");
    es, u := ReportLate(t, "d", es, u, "a", "b", "c", [], []);
    es := HearTwo(t, "d", es, u, ["d", "a", "b", "c"], "b", "c", t.late);
    m := Member(t.Cfg("d"), es);
  }

  lemma OneMember(t: Tale, k: Key) returns (m: Member)
    requires t.Valid() && k in MEMBERS
    ensures Tells(m, k, t) && Behaves(m, k, t)
  {
    if k == "a" {
      m := MemberA(t);
    } else if k == "d" {
      m := MemberD(t);
    } else {
      m := Changing(t, k, "a", if k == "b" then "c" else "b", if k == "b" then "c" else "b");
    }
  }

  lemma AllMembers(t: Tale) returns (net: Net)
    requires t.Valid()
    ensures forall k :: k in net <==> k in MEMBERS
    ensures forall k :: k in net ==> Tells(net[k], k, t) && Behaves(net[k], k, t)
  {
    var ok := (m: Member, k: Key) => Tells(m, k, t) && Behaves(m, k, t);
    forall k | k in MEMBERS ensures exists m :: ok(m, k) {
      var m := OneMember(t, k);
      assert ok(m, k);
    }
    net := Assemble(MEMBERS, ok);
    assert forall k :: k in net ==> ok(net[k], k);
  }

  lemma Unforged(net: Net, t: Tale, e: nat, ev: NodeEvent)
    requires (forall k :: k in MEMBERS ==> k in net && Tells(net[k], k, t)) && Fair(t)(ev)
    ensures AuthenticAt(net, net.Keys, e, ev)
  {
    if ev.ResultMsg? && ev.epoch == e {
      assert ev.peer in net && Tells(net[ev.peer], ev.peer, t);
    }
  }

  lemma NothingForged(net: Net, t: Tale, e: nat)
    requires (forall k :: k in net ==> Tells(net[k], k, t)) && forall k :: k in MEMBERS ==> k in net
    ensures Authentic(net, net.Keys, e)
  {
    forall k, i | k in net && 0 <= i < |net[k].events| ensures AuthenticAt(net, net.Keys, e, net[k].events[i]) {
      Unforged(net, t, e, net[k].events[i]);
    }
  }

  lemma FourOnline(m: Member, k: Key, t: Tale, e: nat)
    requires Tells(m, k, t)
    ensures AllOnline(m.events, e, 4)
  {
    forall j | 0 <= j < |m.events| && m.events[j].ResultMsg? && m.events[j].epoch == e ensures m.events[j].online == 4 {
      assert Fair(t)(m.events[j]);
    }
  }

  /** Four members that all run the code, none faulty, nothing forged, everybody online, and every ballot
      what its sender cast: "a" begins epoch 2 with the early election, the others with the late one. So
      they disagree exactly when the ballot that comes in late changes the election. */
  lemma AgreementFails(t: Tale) returns (net: Net)
    requires t.Valid()
    ensures net.Keys == {"a", "b", "c", "d"} && |net.Keys| == 4
    ensures forall k :: k in net ==> net[k].cfg == t.Cfg(k) && Behaves(net[k], k, t)
    ensures forall e: nat :: Authentic(net, net.Keys, e)
    ensures forall k, e: nat :: k in net ==> AllOnline(net[k].events, e, 4)
    ensures forall k, ev :: k in net && ev in net[k].events ==> Fair(t)(ev)
  {
    net := AllMembers(t);
    FourKeys(net.Keys);
    forall e: nat ensures Authentic(net, net.Keys, e) {
      NothingForged(net, t, e);
    }
    forall k, e: nat | k in net ensures AllOnline(net[k].events, e, 4) {
      FourOnline(net[k], k, t, e);
    }
  }

  // ---- a vote that the code's own tie-break splits

  /** a and c rank "a" first, b and d rank "b" first, and d ranks "a" last. */
  function Split(k: Key): Ballot {
    if k == "b" then ["b", "a", "c", "d"] else if k == "d" then ["b", "c", "d", "a"] else ["a", "b", "c", "d"]
  }

  lemma SplitTotals(c: Key)
    ensures var three := Ballots(Split, ["a", "b", "c"]);
      && TotalScore(three, c) == BallotScore(Split("a"), c) + BallotScore(Split("b"), c) + BallotScore(Split("c"), c)
      && TotalScore(Ballots(Split, MEMBERS), c) == TotalScore(three, c) + BallotScore(Split("d"), c)
  {
    Totals(Split("a"), Split("b"), Split("c"), c);
    FourthTotal(Split("a"), Split("b"), Split("c"), Split("d"), c);
    SplitBallots();
  }

  lemma SplitBallots()
    ensures Ballots(Split, ["a", "b", "c"]) == [Split("a"), Split("b"), Split("c")]
    ensures Ballots(Split, MEMBERS) == [Split("a"), Split("b"), Split("c"), Split("d")]
  {
  }

  lemma SplitNames()
    ensures Named(Ballots(Split, ["a", "b", "c"])) == {"a", "b", "c", "d"}
    ensures Named(Ballots(Split, MEMBERS)) == {"a", "b", "c", "d"}
  {
    Totals(Split("a"), Split("b"), Split("c"), "");
    FourthTotal(Split("a"), Split("b"), Split("c"), Split("d"), "");
    SplitBallots();
    EverybodyRanked("a");
    EverybodyRanked("b");
    EverybodyRanked("c");
    EverybodyRanked("d");
  }

  lemma EverybodyRanked(k: Key)
    ensures Elements(Split(k)) == {"a", "b", "c", "d"} && |Split(k)| == 4
  {
  }

  lemma SplitScores(c: Key)
    ensures var s := TotalScore(Ballots(Split, ["a", "b", "c"]), c);
      && (c == "a" ==> s == 1.25) && (c == "b" ==> s == 1.0) && (c == "c" ==> s == 0.375) && (c == "d" ==> s == 0.1875)
    ensures var s := TotalScore(Ballots(Split, MEMBERS), c);
      && (c == "a" ==> s == 1.3125) && (c == "b" ==> s == 1.5)
      && (c == "c" ==> s == 0.625) && (c == "d" ==> s == 0.3125)
  {
    SplitTotals(c);
    ScoreOf("a", "b", "c", "d", c);
    ScoreOf("b", "a", "c", "d", c);
    ScoreOf("b", "c", "d", "a", c);
  }

  lemma FourNames(r: seq<Key>)
    requires r == ["a", "b", "c", "d"] || r == ["b", "a", "c", "d"]
    ensures Distinct(r) && Elements(r) == {"a", "b", "c", "d"} && |Elements(r)| == |r| == 4
  {
    assert Elements(r) == {"a", "b", "c", "d"};
  }

  lemma EarlyFalling()
    ensures var r, bs := ["a", "b", "c", "d"], Ballots(Split, ["a", "b", "c"]);
      forall i, j :: 0 <= i < j < |r| ==> TotalScore(bs, r[i]) > TotalScore(bs, r[j])
  {
    SplitScores("a");
    SplitScores("b");
    SplitScores("c");
    SplitScores("d");
  }

  lemma LateFalling()
    ensures var r, bs := ["b", "a", "c", "d"], Ballots(Split, MEMBERS);
      forall i, j :: 0 <= i < j < |r| ==> TotalScore(bs, r[i]) > TotalScore(bs, r[j])
  {
    SplitScores("a");
    SplitScores("b");
    SplitScores("c");
    SplitScores("d");
  }

  /** The ranking r of these ballots can be made, and falls strictly. */
  ghost predicate Ranking(bs: seq<Ballot>, r: Result) {
    && |r| == 4 && Distinct(r) && Named(bs) == Elements(r) && |Elements(r)| == |r|
    && (forall b :: b in bs ==> |b| <= |r|)
    && forall i, j :: 0 <= i < j < |r| ==> TotalScore(bs, r[i]) > TotalScore(bs, r[j])
  }

  lemma EarlyRanking() returns (bs: seq<Ballot>, r: Result)
    ensures bs == Ballots(Split, ["a", "b", "c"]) && r == ["a", "b", "c", "d"] && Ranking(bs, r)
  {
    bs, r := Ballots(Split, ["a", "b", "c"]), ["a", "b", "c", "d"];
    FourNames(r);
    SplitNames();
    EarlyFalling();
    ShortBallots(["a", "b", "c"]);
  }

  lemma LateRanking() returns (bs: seq<Ballot>, r: Result)
    ensures bs == Ballots(Split, MEMBERS) && r == ["b", "a", "c", "d"] && Ranking(bs, r)
  {
    bs, r := Ballots(Split, MEMBERS), ["b", "a", "c", "d"];
    FourNames(r);
    SplitNames();
    LateFalling();
    ShortBallots(MEMBERS);
  }

  lemma RankingElects(c: Config, ks: seq<Key>, bs: seq<Ballot>, e: nat, r: Result)
    requires c.stv == Nobody && |c.peerKeys| == 4 && bs == Ballots(Split, ks) && Ranking(bs, r)
    ensures Elects(c, Split, ks, e, r)
  {
    Ranked(c, bs, e, r);
  }

  lemma ShortBallots(ks: seq<Key>)
    ensures forall b :: b in Ballots(Split, ks) ==> |b| == 4
  {
    forall i | 0 <= i < |ks| ensures |Ballots(Split, ks)[i]| == 4 {
      EverybodyRanked(ks[i]);
    }
  }

  /** For every hash there is such a tale in which the late ballot changes the election. */
  lemma DisagreementExists(hash: Hash) returns (t: Tale)
    ensures t.Valid() && t.hash == hash && t.early != t.late
  {
    var three, early := EarlyRanking();
    var four, late := LateRanking();
    t := Tale(hash, Nobody, Split, late, early, late);
    RankingElects(t.Cfg("a"), MEMBERS, four, 1, late);
    RankingElects(t.Cfg("a"), MEMBERS, four, 2, late);
    RankingElects(t.Cfg("a"), ["a", "b", "c"], three, 2, early);
  }
}
