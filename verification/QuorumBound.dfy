/** The bound under which decisions agree is sharp: when two quorums need not share a member that is not
    faulty, two nodes can decide different lists, though every other member reports one list to everybody. */
module QuorumBound {
  import opened Types
  import opened VotingSystem
  import opened Node
  import opened NodeRuns
  import opened Agreement
  import opened Schedules

  // ---- choosing the quorums

  lemma {:induction false} SubsetOf(s: set<Key>, n: nat) returns (t: set<Key>)
    requires n <= |s|
    ensures t <= s && |t| == n
  {
    t := {};
    if n > 0 {
      t := SubsetOf(s, n - 1);
      if s <= t {
        SetSizes(s, t);
      }
      var x :| x in s && x !in t;
      t := t + {x};
    }
  }

  /** Two quorums of the members that share faulty members only. */
  lemma ApartQuorums(members: set<Key>, faulty: set<Key>, q1: nat, q2: nat) returns (v1: set<Key>, v2: set<Key>)
    requires faulty <= members && q1 <= |members| && q2 <= |members| && q1 + q2 <= |members| + |faulty|
    ensures v1 <= members && v2 <= members && v1 * v2 <= faulty && |v1| == q1 && |v2| == q2
  {
    var both := if q1 + q2 > |members| then q1 + q2 - |members| else 0;
    var shared := SubsetOf(faulty, both);
    assert |members - shared| == |members| - both;
    var a := SubsetOf(members - shared, q1 - both);
    assert |members - shared - a| == |members| - q1;
    var b := SubsetOf(members - shared - a, q2 - both);
    v1, v2 := shared + a, shared + b;
    assert |v1| == |shared| + |a| && |v2| == |shared| + |b|;
    assert v1 * v2 == shared;
  }

  lemma {:induction false} Listed(s: set<Key>) returns (ks: seq<Key>)
    ensures |ks| == |s| && Distinct(ks) && forall k :: k in ks <==> k in s
  {
    ks := [];
    if s != {} {
      var x :| x in s;
      var rest := Listed(s - {x});
      ks := rest + [x];
    }
  }

  // ---- a quorum reports

  /** The run waits for epoch e and has recorded no report about it. */
  ghost predicate Waits(c: Config, es: seq<NodeEvent>, e: nat) {
    From(c, es).NextEpoch() == e && NothingRecorded(c, es, e)
  }

  ghost predicate NothingRecorded(c: Config, es: seq<NodeEvent>, e: nat) {
    forall i :: 0 <= i < |es| ==> NotAbout(Recorded(c, From(c, es[..i]), es[i]), e)
  }

  predicate NotAbout(r: Option<Report>, e: nat) {
    r.Some? ==> r.value.epoch != e
  }

  lemma {:induction false} NoReports(c: Config, es: seq<NodeEvent>, e: nat)
    requires NothingRecorded(c, es, e)
    ensures ReportsAt(From(c, es), e).None?
  {
    if es != [] {
      var n := |es| - 1;
      forall i | 0 <= i < n ensures NotAbout(Recorded(c, From(c, es[..n][..i]), es[..n][i]), e) {
        PrefixOfPrefix(es, n, i);
      }
      NoReports(c, es[..n], e);
      LastStep(c, InitialState(c), es);
      ReportsStep(c, From(c, es[..n]), es[n], e);
    }
  }

  /** The run goes on with reports of w by these keys. */
  function AndReports(es: seq<NodeEvent>, ks: seq<Key>, e: nat, w: Result, online: nat): seq<NodeEvent> {
    if ks == [] then es else AndReports(es, ks[..|ks|-1], e, w, online) + [ResultMsg(ks[|ks|-1], e, w, online)]
  }

  ghost predicate Hears(s: NodeState, e: nat, ks: seq<Key>, w: Result) {
    s.NextEpoch() == e && ResultsFor(s.voting, e).keys == ks && AllSay(ResultsFor(s.voting, e), w)
  }

  lemma ReportHeard(s: NodeState, e: nat, ks: seq<Key>, k: Key, w: Result)
    requires Hears(s, e, ks, w) && k !in ks
    ensures Hears(Reported(s, k, e, w), e, ks + [k], w) && e in Reported(s, k, e, w).voting.results
  {
    assert k !in ResultsFor(s.voting, e).keys;
  }

  lemma HeardVerdict(c: Config, t: NodeState, e: nat, ks: seq<Key>, w: Result, online: nat)
    requires Hears(t, e, ks, w) && ks != [] && e in t.voting.results
    ensures Verdict(c, t, e, online) == if Decisive(c, t, |ks|, online) then Some(w) else None
  {
    Unanimous(t.voting.results[e], w);
  }

  lemma DecisionHeard(c: Config, s: NodeState, e: nat, ks: seq<Key>, k: Key, w: Result, online: nat)
    requires Hears(s, e, ks, w) && k !in ks
    ensures Decision(c, s, k, e, w, online) == if Decisive(c, s, |ks| + 1, online) then Some(w) else None
  {
    ReportHeard(s, e, ks, k, w);
    HeardVerdict(c, Reported(s, k, e, w), e, ks + [k], w, online);
  }

  lemma DecisiveQuorum(c: Config, s: NodeState, e: nat, count: nat, online: nat)
    requires s.NextEpoch() == e && count <= QuorumSize(c, e, online)
    ensures Decisive(c, s, count, online) <==> count == QuorumSize(c, e, online)
  {
  }

  lemma OneMore(c: Config, s: NodeState, e: nat, ks: seq<Key>, k: Key, w: Result, online: nat)
    requires Hears(s, e, ks, w) && k !in ks && |ks| + 1 < QuorumSize(c, e, online)
    ensures Hears(NodeStep(c, s, ResultMsg(k, e, w, online)), e, ks + [k], w)
  {
    ReportHeard(s, e, ks, k, w);
    DecisionHeard(c, s, e, ks, k, w, online);
    DecisiveQuorum(c, s, e, |ks| + 1, online);
    ResultSettles(c, s, ResultMsg(k, e, w, online));
  }

  lemma OneMoreReport(c: Config, es: seq<NodeEvent>, ks: seq<Key>, k: Key, e: nat, w: Result, online: nat)
      returns (later: seq<NodeEvent>)
    requires Hears(From(c, es), e, ks, w) && k !in ks && |ks| + 1 < QuorumSize(c, e, online)
    ensures later == es + [ResultMsg(k, e, w, online)] && Hears(From(c, later), e, ks + [k], w)
  {
    later := es + [ResultMsg(k, e, w, online)];
    OneMore(c, From(c, es), e, ks, k, w, online);
    FromSnoc(c, es, ResultMsg(k, e, w, online));
  }

  lemma NothingHeard(c: Config, es: seq<NodeEvent>, e: nat, w: Result)
    requires Waits(c, es, e)
    ensures Hears(From(c, es), e, [], w)
  {
    NoReports(c, es, e);
  }

  /** Fewer reports than a quorum decide nothing. */
  lemma {:induction false} FewReports(c: Config, es: seq<NodeEvent>, ks: seq<Key>, e: nat, w: Result, online: nat)
      returns (later: seq<NodeEvent>)
    requires Waits(c, es, e) && Distinct(ks) && |ks| < QuorumSize(c, e, online)
    ensures later == AndReports(es, ks, e, w, online) && Hears(From(c, later), e, ks, w)
  {
    if ks == [] {
      NothingHeard(c, es, e, w);
      later := es;
    } else {
      var n := |ks| - 1;
      var before := FewReports(c, es, ks[..n], e, w, online);
      later := OneMoreReport(c, before, ks[..n], ks[n], e, w, online);
      assert ks == ks[..n] + [ks[n]];
    }
  }

  lemma LastOne(c: Config, s: NodeState, e: nat, ks: seq<Key>, k: Key, w: Result, online: nat)
    requires Hears(s, e, ks, w) && k !in ks && |ks| + 1 == QuorumSize(c, e, online)
    ensures Decision(c, s, k, e, w, online) == Some(w)
  {
    DecisionHeard(c, s, e, ks, k, w, online);
    DecisiveQuorum(c, s, e, |ks| + 1, online);
  }

  lemma LastDecides(c: Config, es: seq<NodeEvent>, k: Key, e: nat, w: Result, online: nat)
    requires Decision(c, From(c, es), k, e, w, online) == Some(w)
    ensures DecidedAt(c, es + [ResultMsg(k, e, w, online)], |es|, e, w)
  {
    assert (es + [ResultMsg(k, e, w, online)])[..|es|] == es;
  }

  /** The last report of a quorum decides w. */
  lemma QuorumDecides(c: Config, es: seq<NodeEvent>, ks: seq<Key>, e: nat, w: Result, online: nat)
      returns (later: seq<NodeEvent>, j: nat)
    requires Waits(c, es, e) && Distinct(ks) && |ks| == QuorumSize(c, e, online) >= 1
    ensures later == AndReports(es, ks, e, w, online) && DecidedAt(c, later, j, e, w) && later[j].online == online
  {
    var n := |ks| - 1;
    var before := FewReports(c, es, ks[..n], e, w, online);
    LastOne(c, From(c, before), e, ks[..n], ks[n], w, online);
    LastDecides(c, before, ks[n], e, w, online);
    later, j := before + [ResultMsg(ks[n], e, w, online)], |before|;
  }

  // ---- the reports are truthful

  lemma TruthfulNext(c: Config, es: seq<NodeEvent>, ev: NodeEvent, e: nat, members: set<Key>, faulty: set<Key>,
                     truth: Key -> Result)
    requires Truthful(c, es, e, members, faulty, truth) && TruthfulAt(c, From(c, es), ev, e, members, faulty, truth)
    ensures Truthful(c, es + [ev], e, members, faulty, truth)
  {
    var later := es + [ev];
    forall i | 0 <= i < |later| ensures TruthfulAt(c, From(c, later[..i]), later[i], e, members, faulty, truth) {
      assert later[..i] == es[..i];
      assert i == |es| ==> es[..i] == es;
    }
  }

  lemma {:induction false} TruthfulReports(c: Config, es: seq<NodeEvent>, ks: seq<Key>, e: nat, w: Result, online: nat,
                                           members: set<Key>, faulty: set<Key>, truth: Key -> Result)
    requires NothingRecorded(c, es, e) && forall k :: k in ks ==> Sound(k, w, members, faulty, truth)
    ensures Truthful(c, AndReports(es, ks, e, w, online), e, members, faulty, truth)
  {
    if ks == [] {
      forall i | 0 <= i < |es| ensures TruthfulAt(c, From(c, es[..i]), es[i], e, members, faulty, truth) {
        assert NotAbout(Recorded(c, From(c, es[..i]), es[i]), e);
      }
    } else {
      var n := |ks| - 1;
      TruthfulReports(c, es, ks[..n], e, w, online, members, faulty, truth);
      assert ks[n] in ks;
      TruthfulNext(c, AndReports(es, ks[..n], e, w, online), ResultMsg(ks[n], e, w, online), e, members, faulty, truth);
    }
  }

  /** Two runs that wait for e can go on to decide different lists whenever their quorums fit into the
      members with nobody but faulty members in common. */
  lemma DecisionsCanDiffer(c1: Config, es1: seq<NodeEvent>, w1: Result, online1: nat,
                           c2: Config, es2: seq<NodeEvent>, w2: Result, online2: nat,
                           e: nat, members: set<Key>, faulty: set<Key>)
      returns (later1: seq<NodeEvent>, j1: nat, later2: seq<NodeEvent>, j2: nat, truth: Key -> Result)
    requires Waits(c1, es1, e) && Waits(c2, es2, e) && faulty <= members
    requires 1 <= QuorumSize(c1, e, online1) <= |members| && 1 <= QuorumSize(c2, e, online2) <= |members|
    requires QuorumSize(c1, e, online1) + QuorumSize(c2, e, online2) <= |members| + |faulty|
    ensures es1 <= later1 && Truthful(c1, later1, e, members, faulty, truth)
    ensures DecidedAt(c1, later1, j1, e, w1) && later1[j1].online == online1
    ensures es2 <= later2 && Truthful(c2, later2, e, members, faulty, truth)
    ensures DecidedAt(c2, later2, j2, e, w2) && later2[j2].online == online2
  {
    var v1, v2 := ApartQuorums(members, faulty, QuorumSize(c1, e, online1), QuorumSize(c2, e, online2));
    truth := k => if k in v1 then w1 else w2;
    later1, j1 := TruthfulDecision(c1, es1, v1, w1, online1, e, members, faulty, truth);
    forall k | k in v2 ensures Sound(k, w2, members, faulty, truth) {
      assert k in v1 ==> k in v1 * v2;
    }
    later2, j2 := TruthfulDecision(c2, es2, v2, w2, online2, e, members, faulty, truth);
  }

  lemma TruthfulDecision(c: Config, es: seq<NodeEvent>, voters: set<Key>, w: Result, online: nat, e: nat,
                         members: set<Key>, faulty: set<Key>, truth: Key -> Result)
      returns (later: seq<NodeEvent>, j: nat)
    requires Waits(c, es, e) && |voters| == QuorumSize(c, e, online) >= 1
    requires forall k :: k in voters ==> Sound(k, w, members, faulty, truth)
    ensures es <= later && Truthful(c, later, e, members, faulty, truth)
    ensures DecidedAt(c, later, j, e, w) && later[j].online == online
  {
    var ks := Listed(voters);
    later, j := QuorumDecides(c, es, ks, e, w, online);
    TruthfulReports(c, es, ks, e, w, online, members, faulty, truth);
    Continued(es, ks, e, w, online);
  }

  lemma {:induction false} Continued(es: seq<NodeEvent>, ks: seq<Key>, e: nat, w: Result, online: nat)
    ensures es <= AndReports(es, ks, e, w, online)
  {
    if ks != [] {
      Continued(es, ks[..|ks|-1], e, w, online);
    }
  }
}
