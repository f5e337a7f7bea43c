/** Why agreement needs everybody online. Four members run the code, nobody is faulty, no ballot is late and
    no timer fires, but each half of the network sees two members online. Two reports are then enough to
    begin epoch 1, and each half begins it with its own election. */
module Partition {
  import opened Types
  import opened Digest
  import opened Voting
  import opened ElectionProperties
  import opened Epoch
  import opened Node
  import opened NodeRuns
  import opened Agreement
  import opened OwnReports
  import opened ClosedPolls
  import opened Network
  import opened Schedules
  import opened TieBreaks

  /** The half of the network that the member belongs to. */
  function Half(k: Key): set<Key> {
    if k == "a" || k == "b" then {"a", "b"} else {"c", "d"}
  }

  /** Any hash and STV, what each member votes, and what the code elects from the ballots of each half. */
  datatype Halves = Halves(hash: Hash, stv: Stv, v: Votes, left: Result, right: Result) {
    function Cfg(k: Key): Config {
      Config(k, MEMBERS, 1, hash, stv)
    }

    /** What k's half elects. */
    function List(k: Key): Result {
      if k == "a" || k == "b" then left else right
    }

    ghost predicate Valid() {
      Elects(Cfg("a"), v, ["a", "b"], 1, left) && Elects(Cfg("a"), v, ["c", "d"], 1, right)
    }
  }

  /** Member k hears its half of the network only, and no timer fires. */
  function Near(t: Halves, k: Key): Hearsay {
    (ev: NodeEvent) =>
      && !ev.TimerFired?
      && (ev.BallotMsg? ==> ev.online == 2 && ev.peer in Half(k) && ev.votes == t.v(ev.peer))
      && (ev.ResultMsg? ==> ev.online == 2 && ev.peer in Half(k) && ev.epoch == 1 && ev.result == t.List(k))
  }

  predicate Pair(k: Key, p: Key) {
    k in MEMBERS && p in MEMBERS && k != p && p in Half(k)
  }

  lemma HalfElects(t: Halves, k: Key, p: Key)
    requires t.Valid() && Pair(k, p)
    ensures Elects(t.Cfg(k), t.v, [k, p], 1, t.List(k))
  {
    var ks := if k == "a" || k == "b" then ["a", "b"] else ["c", "d"];
    assert Distinct(ks) && Distinct([k, p]) && forall o :: o in ks <==> o in [k, p];
    ElectsInOrder(t.Cfg("a"), t.Cfg(k), t.v, ks, [k, p], 1, t.List(k));
  }

  // ---- one member

  lemma BothBallots(t: Halves, k: Key, p: Key) returns (es: seq<NodeEvent>, u: NodeState)
    requires t.Valid() && Pair(k, p)
    ensures Stage(t.Cfg(k), Near(t, k), t.v, es, u, 1, [k, p], [k], t.List(k)) && u.epoch == NewEpoch(0, 1)
    ensures Said(Member(t.Cfg(k), es), 1, t.List(k))
  {
    var c := t.Cfg(k);
    FirstPoll(c, Near(t, k), t.v, 2);
    es, u := CastBallot(c, Near(t, k), t.v, [], InitialState(c), 1, [], 2);
    es, u := SecondBallot(t, k, p, es, u);
  }

  lemma SecondBallot(t: Halves, k: Key, p: Key, es: seq<NodeEvent>, n: NodeState)
      returns (later: seq<NodeEvent>, u: NodeState)
    requires t.Valid() && Pair(k, p)
    requires Stage(t.Cfg(k), Near(t, k), t.v, es, n, 1, [k], [], []) && n.epoch == NewEpoch(0, 1)
    ensures Stage(t.Cfg(k), Near(t, k), t.v, later, u, 1, [k, p], [k], t.List(k)) && u.epoch == NewEpoch(0, 1)
    ensures Said(Member(t.Cfg(k), later), 1, t.List(k))
  {
    HalfElects(t, k, p);
    assert [k] + [p] == [k, p];
    later, u := GetLastBallot(t.Cfg(k), Near(t, k), t.v, es, n, 1, p, [k], [], [], t.List(k), 2);
  }

  /** What member k hears and says. */
  ghost predicate Tells(m: Member, k: Key, t: Halves) {
    m.cfg == t.Cfg(k) && (forall ev :: ev in m.events ==> Near(t, k)(ev)) && Said(m, 1, t.List(k))
  }

  /** What member k seats, running the code. */
  ghost predicate Behaves(m: Member, k: Key, t: Halves) {
    GenuineRun(m.cfg, m.events) && Uninterrupted(m.events) && Seats(m, 1, t.List(k))
  }

  lemma OneMember(t: Halves, k: Key, p: Key) returns (m: Member)
    requires t.Valid() && Pair(k, p)
    ensures Tells(m, k, t) && Behaves(m, k, t)
  {
    var es, u := BothBallots(t, k, p);
    es, u := GetFirstEpoch(t.Cfg(k), Near(t, k), t.v, es, u, p, [k, p], [k], t.List(k), 2);
    m := Member(t.Cfg(k), es);
  }

  lemma AllMembers(t: Halves) returns (net: Net)
    requires t.Valid()
    ensures forall k :: k in net <==> k in MEMBERS
    ensures forall k :: k in net ==> Tells(net[k], k, t) && Behaves(net[k], k, t)
  {
    var ok := (m: Member, k: Key) => Tells(m, k, t) && Behaves(m, k, t);
    forall k | k in MEMBERS ensures exists m :: ok(m, k) {
      var m := OneMember(t, k, Other(k));
      assert ok(m, k);
    }
    net := Assemble(MEMBERS, ok);
    assert forall k :: k in net ==> ok(net[k], k);
  }

  function Other(k: Key): (p: Key)
    ensures k in MEMBERS ==> Pair(k, p)
  {
    if k == "a" then "b" else if k == "b" then "a" else if k == "c" then "d" else "c"
  }

  // ---- the network

  lemma Unforged(net: Net, t: Halves, k: Key, e: nat, ev: NodeEvent)
    requires (forall p :: p in MEMBERS ==> p in net && Tells(net[p], p, t)) && k in MEMBERS && Near(t, k)(ev)
    ensures AuthenticAt(net, net.Keys, e, ev)
  {
    if ev.ResultMsg? && ev.epoch == e {
      HalfOf(t, k, ev.peer);
      assert ev.peer in net && Tells(net[ev.peer], ev.peer, t);
    }
  }

  lemma HalfOf(t: Halves, k: Key, p: Key)
    requires k in MEMBERS && p in Half(k)
    ensures p in MEMBERS && t.List(p) == t.List(k)
  {
  }

  lemma NothingForged(net: Net, t: Halves, e: nat)
    requires (forall k :: k in net <==> k in MEMBERS) && forall k :: k in net ==> Tells(net[k], k, t)
    ensures Authentic(net, net.Keys, e)
  {
    forall k, i | k in net && 0 <= i < |net[k].events| ensures AuthenticAt(net, net.Keys, e, net[k].events[i]) {
      Unforged(net, t, k, e, net[k].events[i]);
    }
  }

  lemma OnePunctual(m: Member, k: Key, t: Halves, e: nat)
    requires Tells(m, k, t) && k in MEMBERS && Uninterrupted(m.events)
    ensures PollCloses(m.cfg, m.events, e)
  {
    forall i | 0 <= i < |m.events| ensures PunctualAt(From(m.cfg, m.events[..i]), m.events[i], e, Half(k)) {
      assert Near(t, k)(m.events[i]);
    }
    NeverBootstrappedOnward(m.cfg, m.events);
    PunctualPollCloses(m.cfg, m.events, e, Half(k));
  }

  lemma TwoOnline(m: Member, k: Key, t: Halves, e: nat)
    requires Tells(m, k, t)
    ensures AllOnline(m.events, e, 2)
  {
    forall j | 0 <= j < |m.events| && m.events[j].ResultMsg? && m.events[j].epoch == e ensures m.events[j].online == 2 {
      assert Near(t, k)(m.events[j]);
    }
  }

  /** Everything that agreement asks for holds, except that reports come in with two members online: four
      members that run the code, nothing forged, every poll closed with its report. Yet each half seats
      its own election in epoch 1. */
  lemma HalvesDisagree(t: Halves) returns (net: Net)
    requires t.Valid()
    ensures net.Keys == {"a", "b", "c", "d"} && |net.Keys| == 4
    ensures forall k :: k in net ==> net[k].cfg == t.Cfg(k) && Behaves(net[k], k, t)
    ensures forall e: nat :: Authentic(net, net.Keys, e) && PollsClose(net, e)
    ensures forall k, e: nat :: k in net ==> AllOnline(net[k].events, e, 2)
  {
    net := AllMembers(t);
    FourKeys(net.Keys);
    forall e: nat ensures Authentic(net, net.Keys, e) && PollsClose(net, e) {
      NothingForged(net, t, e);
      AllPollsClose(net, t, e);
    }
    forall k, e: nat | k in net ensures AllOnline(net[k].events, e, 2) {
      TwoOnline(net[k], k, t, e);
    }
  }

  lemma AllPollsClose(net: Net, t: Halves, e: nat)
    requires forall k :: k in net <==> k in MEMBERS
    requires forall k :: k in net ==> Tells(net[k], k, t) && Behaves(net[k], k, t)
    ensures PollsClose(net, e)
  {
    forall k | k in net ensures PollCloses(net[k].cfg, net[k].events, e) {
      OnePunctual(net[k], k, t, e);
    }
  }

  // ---- two halves that elect differently

  function Opposed(k: Key): Ballot {
    if k == "a" || k == "b" then ["a", "b", "c", "d"] else ["d", "c", "b", "a"]
  }

  lemma TwoAlike(w: Ballot, c: Key)
    ensures TotalScore([w, w], c) == 2.0 * BallotScore(w, c) && Named([w, w]) == Elements(w)
  {
    TotalNext([], w, c);
    TotalNext([w], w, c);
    assert [] + [w] == [w] && [w] + [w] == [w, w];
  }

  lemma AlikeScore(r: Ballot, w: Key, x: Key, y: Key, z: Key, c: Key)
    requires r == [w, x, y, z]
    ensures TotalScore([r, r], c) == 2.0 * ((if c == w then 0.5 else 0.0) + (if c == x then 0.25 else 0.0)
                                            + (if c == y then 0.125 else 0.0) + (if c == z then 0.0625 else 0.0))
  {
    TwoAlike(r, c);
    ScoreOf(w, x, y, z, c);
  }

  lemma AlikeFalling(r: Ballot, w: Key, x: Key, y: Key, z: Key)
    requires r == [w, x, y, z] && Distinct(r)
    ensures forall i, j :: 0 <= i < j < |r| ==> TotalScore([r, r], r[i]) > TotalScore([r, r], r[j])
  {
    AlikeScore(r, w, x, y, z, w);
    AlikeScore(r, w, x, y, z, x);
    AlikeScore(r, w, x, y, z, y);
    AlikeScore(r, w, x, y, z, z);
    assert r[0] == w && r[1] == x && r[2] == y && r[3] == z;
  }

  lemma AlikeElect(c: Config, v: Votes, k: Key, p: Key, e: nat, w: Key, x: Key, y: Key, z: Key) returns (r: Result)
    requires c.stv == Nobody && |c.peerKeys| == 4 && v(k) == v(p) == [w, x, y, z] && Distinct(v(k))
    ensures r == [w, x, y, z] && Elects(c, v, [k, p], e, r)
  {
    r := [w, x, y, z];
    DistinctSize(r);
    assert Ballots(v, [k, p]) == [r, r];
    TwoAlike(r, w);
    AlikeFalling(r, w, x, y, z);
    Ranked(c, [r, r], e, r);
  }

  lemma LeftHalf(c: Config) returns (r: Result)
    requires c.stv == Nobody && |c.peerKeys| == 4
    ensures Elects(c, Opposed, ["a", "b"], 1, r) && r == ["a", "b", "c", "d"]
  {
    r := AlikeElect(c, Opposed, "a", "b", 1, "a", "b", "c", "d");
  }

  lemma RightHalf(c: Config) returns (r: Result)
    requires c.stv == Nobody && |c.peerKeys| == 4
    ensures Elects(c, Opposed, ["c", "d"], 1, r) && r == ["d", "c", "b", "a"]
  {
    r := AlikeElect(c, Opposed, "c", "d", 1, "d", "c", "b", "a");
  }

  lemma TwoHalves(hash: Hash, left: Result, right: Result) returns (t: Halves)
    requires var c := Config("a", MEMBERS, 1, hash, Nobody);
      Elects(c, Opposed, ["a", "b"], 1, left) && Elects(c, Opposed, ["c", "d"], 1, right)
    ensures t.Valid() && t.hash == hash && t.left == left && t.right == right
  {
    t := Halves(hash, Nobody, Opposed, left, right);
  }

  /** For every hash there are halves that elect differently. */
  lemma OpposedHalves(hash: Hash) returns (t: Halves)
    ensures t.Valid() && t.hash == hash && t.left != t.right
  {
    var c := Config("a", MEMBERS, 1, hash, Nobody);
    var left := LeftHalf(c);
    var right := RightHalf(c);
    assert left[0] != right[0];
    t := TwoHalves(hash, left, right);
  }
}
