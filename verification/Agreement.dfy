/** Safety of the election across nodes: when each member reports one result, two nodes do not seat
    different lists for the same epoch. */
module Agreement {
  import opened Types
  import opened Digest
  import opened PyDict
  import opened VotingSystem
  import opened ElectionProperties
  import opened Epoch
  import opened Node
  import opened NodeRuns

  // ---- counting reports

  function Voters(d: Dict<Key, Result>, w: Result): set<Key> {
    set k | k in d.vals && d.vals[k] == w
  }

  function Among(ks: seq<Key>, m: map<Key, Result>, w: Result): (r: set<Key>)
    requires forall k :: k in ks ==> k in m
    ensures forall k :: k in r <==> k in ks && m[k] == w
  {
    if ks == [] then {}
    else
      var n := |ks| - 1;
      assert ks == ks[..n] + [ks[n]];
      Among(ks[..n], m, w) + (if m[ks[n]] == w then {ks[n]} else {})
  }

  lemma {:induction false} AmongCount(ks: seq<Key>, m: map<Key, Result>, w: Result)
    requires Distinct(ks) && forall k :: k in ks ==> k in m
    ensures |Among(ks, m, w)| == multiset(Lookups(ks, m))[w]
  {
    if ks != [] {
      var n := |ks| - 1;
      AmongCount(ks[..n], m, w);
      AmongNext(ks, m, w);
      CountAppended(Lookups(ks[..n], m), m[ks[n]], w);
    }
  }

  lemma AmongNext(ks: seq<Key>, m: map<Key, Result>, w: Result)
    requires ks != [] && Distinct(ks) && forall k :: k in ks ==> k in m
    ensures var n := |ks| - 1;
      |Among(ks, m, w)| == |Among(ks[..n], m, w)| + (if m[ks[n]] == w then 1 else 0)
    ensures Lookups(ks, m) == Lookups(ks[..|ks|-1], m) + [m[ks[|ks|-1]]]
  {
    var n := |ks| - 1;
    assert ks[n] !in Among(ks[..n], m, w);
    LookupsNext(ks, m);
  }

  lemma LookupsNext(ks: seq<Key>, m: map<Key, Result>)
    requires ks != [] && forall k :: k in ks ==> k in m
    ensures Lookups(ks, m) == Lookups(ks[..|ks|-1], m) + [m[ks[|ks|-1]]]
  {
  }

  /** The count `get_consensus_result` returns is the number of peers that report the result. */
  lemma VotersCount(d: Dict<Key, Result>, w: Result)
    ensures |Voters(d, w)| == multiset(Values(d))[w]
  {
    AmongCount(d.keys, d.vals, w);
    assert Voters(d, w) == Among(d.keys, d.vals, w);
    assert Values(d) == Lookups(d.keys, d.vals);
  }

  lemma Disjoint(all: set<Key>, a: set<Key>, b: set<Key>, faulty: set<Key>)
    requires a <= all && b <= all && a * b <= faulty
    ensures |a| + |b| <= |all| + |faulty|
  {
    SetSizes(a + b, all);
    SetSizes(a * b, faulty);
    assert |a + b| + |a * b| == |a| + |b|;
  }

  // ---- what a step records

  datatype Report = Report(peer: Key, epoch: nat, result: Result)

  function Recorded(c: Config, s: NodeState, e: NodeEvent): Option<Report> {
    match e
    case ResultMsg(p, n, r, _) => if n == s.NextEpoch() then Some(Report(p, n, r)) else None
    case BallotMsg(p, n, votes, online, sent) =>
      if sent.Some? && !Ignored(s, p, n)
         && AllBallots(c, Balloted(s, p, n, votes), n, online)
      then Some(Report(c.key, n, sent.value)) else None
    case TimerFired(sent) =>
      if sent.Some? && s.timer.Some? then Some(Report(c.key, s.timer.value, sent.value)) else None
    case _ => None
  }

  function ReportsAt(s: NodeState, e: nat): Option<Dict<Key, Result>> {
    if e in s.voting.results then Some(s.voting.results[e]) else None
  }

  function CandidatesAt(s: NodeState, e: nat): Option<Result> {
    if e in s.voting.candidates then Some(s.voting.candidates[e]) else None
  }

  /** Reports for e after an event: none, or what it recorded, or what was there. */
  predicate ReportsFollow(s: NodeState, t: NodeState, r: Option<Report>, e: nat) {
    ReportsAt(t, e).None? || ReportsAt(t, e) ==
      if r.Some? && r.value.epoch == e then Some(Put(ResultsFor(s.voting, e), r.value.peer, r.value.result))
      else ReportsAt(s, e)
  }

  lemma InitializeForgets(s: NodeState, n: nat, e: nat)
    ensures var t := InitializeEpoch(s, n).0;
      && (ReportsAt(t, e).None? || ReportsAt(t, e) == ReportsAt(s, e))
      && (CandidatesAt(t, e).None? || CandidatesAt(t, e) == CandidatesAt(s, e))
  {
    if n in s.voting.candidates {
      PurgedIsPart(s.voting, Expired(s.voting.results), e);
    }
  }

  lemma SettleForgets(s: NodeState, n: nat, d: Option<Result>, e: nat)
    ensures var t := Settle(s, n, d).0;
      && (ReportsAt(t, e).None? || ReportsAt(t, e) == ReportsAt(s, e))
      && (CandidatesAt(t, e).None? || CandidatesAt(t, e) == if d.Some? && e == n then d else CandidatesAt(s, e))
  {
    if d.Some? {
      InitializeForgets(Decided(s, n, d.value), n, e);
    }
  }

  lemma ReportsAfterResult(s: NodeState, peer: Key, n: nat, result: Result, d: Option<Result>, e: nat)
    ensures ReportsFollow(s, Settle(Reported(s, peer, n, result), n, d).0, Some(Report(peer, n, result)), e)
  {
    SettleForgets(Reported(s, peer, n, result), n, d, e);
  }

  lemma ReportsAfterSlot(c: Config, s: NodeState, ev: NodeEvent, e: nat)
    requires ev.SlotPassed?
    ensures ReportsFollow(s, NodeStep(c, s, ev), None, e)
  {
    var u := FinalizeEpoch(s.(epoch := Increment(s.epoch, c.hash, ev.blockId)));
    InitializeForgets(u, u.NextEpoch(), e);
  }

  lemma ReportsAfterOther(c: Config, s: NodeState, ev: NodeEvent, e: nat)
    requires !ev.SlotPassed? && !ev.ResultMsg?
    ensures ReportsFollow(s, NodeStep(c, s, ev), Recorded(c, s, ev), e)
  {
  }

  /** A step changes the reports for an epoch only by what it records, or by forgetting the epoch. */
  lemma ReportsStep(c: Config, s: NodeState, ev: NodeEvent, e: nat)
    ensures ReportsFollow(s, NodeStep(c, s, ev), Recorded(c, s, ev), e)
  {
    if ev.ResultMsg? {
      ReportsAfterResult(s, ev.peer, ev.epoch, ev.result, DecisionOf(c, s, ev), e);
    } else if ev.SlotPassed? {
      ReportsAfterSlot(c, s, ev, e);
    } else {
      ReportsAfterOther(c, s, ev, e);
    }
  }

  // ---- runs from the initial state

  /** Every report about epoch e comes from a member, and every member that is not faulty reports
      what `truth` says: one result, the same to everybody. */
  ghost predicate Truthful(c: Config, es: seq<NodeEvent>, e: nat, members: set<Key>, faulty: set<Key>,
                           truth: Key -> Result) {
    forall i :: 0 <= i < |es| ==> TruthfulAt(c, From(c, es[..i]), es[i], e, members, faulty, truth)
  }

  ghost predicate TruthfulAt(c: Config, s: NodeState, ev: NodeEvent, e: nat, members: set<Key>, faulty: set<Key>,
                             truth: Key -> Result) {
    var r := Recorded(c, s, ev);
    r.Some? && r.value.epoch == e ==> Sound(r.value.peer, r.value.result, members, faulty, truth)
  }

  ghost predicate Sound(peer: Key, result: Result, members: set<Key>, faulty: set<Key>, truth: Key -> Result) {
    peer in members && (peer in faulty || result == truth(peer))
  }

  ghost predicate AllSound(d: Dict<Key, Result>, members: set<Key>, faulty: set<Key>, truth: Key -> Result) {
    forall k :: k in d.vals ==> Sound(k, d.vals[k], members, faulty, truth)
  }

  lemma {:induction false} BooksSound(c: Config, es: seq<NodeEvent>, e: nat, members: set<Key>, faulty: set<Key>,
                                      truth: Key -> Result)
    requires Truthful(c, es, e, members, faulty, truth)
    ensures AllSound(ResultsFor(From(c, es).voting, e), members, faulty, truth)
  {
    if es != [] {
      var n := |es| - 1;
      TruthfulPrefix(c, es, n, e, members, faulty, truth);
      BooksSound(c, es[..n], e, members, faulty, truth);
      ReportsStep(c, From(c, es[..n]), es[n], e);
    }
  }

  lemma TruthfulPrefix(c: Config, es: seq<NodeEvent>, n: nat, e: nat, members: set<Key>, faulty: set<Key>,
                       truth: Key -> Result)
    requires Truthful(c, es, e, members, faulty, truth) && n <= |es|
    ensures Truthful(c, es[..n], e, members, faulty, truth)
    ensures n < |es| ==> TruthfulAt(c, From(c, es[..n]), es[n], e, members, faulty, truth)
  {
    forall i | 0 <= i < n ensures TruthfulAt(c, From(c, es[..n][..i]), es[..n][i], e, members, faulty, truth) {
      PrefixOfPrefix(es, n, i);
    }
  }

  // ---- decisions

  /** The j-th event of the run decides list w for epoch e. */
  ghost predicate DecidedAt(c: Config, es: seq<NodeEvent>, j: nat, e: nat, w: Result) {
    && j < |es| && es[j].ResultMsg? && es[j].epoch == e
    && Decision(c, From(c, es[..j]), es[j].peer, e, es[j].result, es[j].online) == Some(w)
  }

  /** How many reports it takes. */
  function QuorumSize(c: Config, e: nat, online: nat): nat {
    if e == 1 then online else ConsensusAmount(c.slots, online)
  }

  lemma DecisionQuorum(c: Config, es: seq<NodeEvent>, j: nat, e: nat, w: Result,
                       members: set<Key>, faulty: set<Key>, truth: Key -> Result)
      returns (voters: set<Key>)
    requires Truthful(c, es, e, members, faulty, truth) && DecidedAt(c, es, j, e, w)
    ensures |voters| >= QuorumSize(c, e, es[j].online) && voters <= members
    ensures forall k :: k in voters && k !in faulty ==> truth(k) == w
  {
    var s := From(c, es[..j]);
    DecisionCount(c, s, es[j], w);
    DecisionSound(c, es, j, e, w, members, faulty, truth);
    voters := Voters(Put(ResultsFor(s.voting, e), es[j].peer, es[j].result), w);
  }

  lemma DecisionSound(c: Config, es: seq<NodeEvent>, j: nat, e: nat, w: Result,
                      members: set<Key>, faulty: set<Key>, truth: Key -> Result)
    requires Truthful(c, es, e, members, faulty, truth) && DecidedAt(c, es, j, e, w)
    ensures AllSound(Put(ResultsFor(From(c, es[..j]).voting, e), es[j].peer, es[j].result), members, faulty, truth)
  {
    TruthfulPrefix(c, es, j, e, members, faulty, truth);
    BooksSound(c, es[..j], e, members, faulty, truth);
    assert Recorded(c, From(c, es[..j]), es[j]) == Some(Report(es[j].peer, e, es[j].result));
    SoundPut(ResultsFor(From(c, es[..j]).voting, e), es[j].peer, es[j].result, members, faulty, truth);
  }

  lemma SoundPut(d: Dict<Key, Result>, k: Key, r: Result, members: set<Key>, faulty: set<Key>, truth: Key -> Result)
    requires AllSound(d, members, faulty, truth) && Sound(k, r, members, faulty, truth)
    ensures AllSound(Put(d, k, r), members, faulty, truth)
  {
  }

  /** A decided list is reported by a quorum. */
  lemma DecisionCount(c: Config, s: NodeState, ev: NodeEvent, w: Result)
    requires ev.ResultMsg? && Decision(c, s, ev.peer, ev.epoch, ev.result, ev.online) == Some(w)
    ensures ev.epoch == s.NextEpoch()
    ensures |Voters(Put(ResultsFor(s.voting, ev.epoch), ev.peer, ev.result), w)| >= QuorumSize(c, ev.epoch, ev.online)
  {
    var t := Reported(s, ev.peer, ev.epoch, ev.result);
    assert t.voting.results[ev.epoch] == Put(ResultsFor(s.voting, ev.epoch), ev.peer, ev.result);
    VotersCount(t.voting.results[ev.epoch], w);
  }

  /** Two decisions for one epoch, on one node or on two, pick the same list when their quorums are
      too large to overlap in faulty members only. */
  lemma DecisionsAgree(c1: Config, es1: seq<NodeEvent>, j1: nat, w1: Result,
                       c2: Config, es2: seq<NodeEvent>, j2: nat, w2: Result,
                       e: nat, members: set<Key>, faulty: set<Key>, truth: Key -> Result)
    requires Truthful(c1, es1, e, members, faulty, truth) && DecidedAt(c1, es1, j1, e, w1)
    requires Truthful(c2, es2, e, members, faulty, truth) && DecidedAt(c2, es2, j2, e, w2)
    requires QuorumSize(c1, e, es1[j1].online) + QuorumSize(c2, e, es2[j2].online) > |members| + |faulty|
    ensures w1 == w2
  {
    var v1 := DecisionQuorum(c1, es1, j1, e, w1, members, faulty, truth);
    var v2 := DecisionQuorum(c2, es2, j2, e, w2, members, faulty, truth);
    if w1 != w2 {
      Disjoint(members, v1, v2, faulty);
    }
  }

  /** The first epoch takes everybody's report; any other the least number of them that fills the slots and is
      more than two thirds. */
  lemma QuorumExactly(c: Config, e: nat, n: nat)
    ensures var q := QuorumSize(c, e, n);
      if e == 1 then q == n
      else q >= c.slots && 3 * q > 2 * n && (q == c.slots || 3 * (q - 1) <= 2 * n)
  {
    ConsensusAmountExact(c.slots, n);
  }

  /** With n members, fewer than a third of them faulty, two quorums of n share an honest member. */
  lemma QuorumsOverlap(c1: Config, c2: Config, e: nat, n: nat, f: nat)
    requires 3 * f < n
    ensures QuorumSize(c1, e, n) + QuorumSize(c2, e, n) > n + f
  {
    QuorumExactly(c1, e, n);
    QuorumExactly(c2, e, n);
  }

  // ---- where a node's candidate lists come from

  lemma DecidedLater(c: Config, es: seq<NodeEvent>, n: nat, j: nat, e: nat, w: Result)
    requires n <= |es| && DecidedAt(c, es[..n], j, e, w)
    ensures DecidedAt(c, es, j, e, w)
  {
    PrefixOfPrefix(es, n, j);
  }

  /** Candidates of e after an event: none, or what it decided, or what was there. */
  predicate CandidatesFollow(s: NodeState, t: NodeState, d: Option<Result>, e: nat) {
    CandidatesAt(t, e).None? || CandidatesAt(t, e) == if d.Some? then d else CandidatesAt(s, e)
  }

  function DecisionFor(c: Config, s: NodeState, ev: NodeEvent, e: nat): Option<Result> {
    if ev.ResultMsg? && ev.epoch == e then DecisionOf(c, s, ev) else None
  }

  lemma CandidatesAfterReport(s: NodeState, peer: Key, n: nat, result: Result, d: Option<Result>, e: nat)
    ensures CandidatesFollow(s, Settle(Reported(s, peer, n, result), n, d).0, if e == n then d else None, e)
  {
    SettleForgets(Reported(s, peer, n, result), n, d, e);
  }

  lemma CandidatesAfterSlot(s: NodeState, hash: Hash, blockId: Id, e: nat)
    ensures CandidatesFollow(s, NextSlot(s, hash, blockId).0, None, e)
  {
    var u := FinalizeEpoch(s.(epoch := Increment(s.epoch, hash, blockId)));
    InitializeForgets(u, u.NextEpoch(), e);
  }

  lemma CandidatesAfterOther(c: Config, s: NodeState, ev: NodeEvent)
    requires !ev.ResultMsg? && !ev.SlotPassed?
    ensures NodeStep(c, s, ev).voting.candidates == s.voting.candidates
  {
  }

  /** A step changes the candidates of an epoch only by deciding them, or by forgetting them. */
  lemma CandidatesStep(c: Config, s: NodeState, ev: NodeEvent, e: nat)
    ensures CandidatesFollow(s, NodeStep(c, s, ev), DecisionFor(c, s, ev, e), e)
  {
    if ev.ResultMsg? {
      ResultSettles(c, s, ev);
      CandidatesAfterReport(s, ev.peer, ev.epoch, ev.result, DecisionOf(c, s, ev), e);
    } else if ev.SlotPassed? {
      CandidatesAfterSlot(s, c.hash, ev.blockId, e);
    } else {
      CandidatesAfterOther(c, s, ev);
    }
  }

  ghost predicate WasDecided(c: Config, es: seq<NodeEvent>, e: nat, w: Result) {
    exists j: nat :: DecidedAt(c, es, j, e, w)
  }

  lemma WasDecidedLater(c: Config, es: seq<NodeEvent>, n: nat, e: nat, w: Result)
    requires n <= |es| && WasDecided(c, es[..n], e, w)
    ensures WasDecided(c, es, e, w)
  {
    var j: nat :| DecidedAt(c, es[..n], j, e, w);
    DecidedLater(c, es, n, j, e, w);
  }

  /** In every run, bootstrapped or not, the candidates of an epoch are what some report decided. */
  lemma {:induction false} CandidatesWereDecided(c: Config, es: seq<NodeEvent>, e: nat)
    ensures CandidatesAt(From(c, es), e).Some? ==> WasDecided(c, es, e, CandidatesAt(From(c, es), e).value)
  {
    if es != [] {
      var n := |es| - 1;
      CandidatesWereDecided(c, es[..n], e);
      DecidedByLast(c, es, e);
    }
  }

  lemma DecidedByLast(c: Config, es: seq<NodeEvent>, e: nat)
    requires es != []
    requires var s := From(c, es[..|es|-1]);
      CandidatesAt(s, e).Some? ==> WasDecided(c, es[..|es|-1], e, CandidatesAt(s, e).value)
    ensures CandidatesAt(From(c, es), e).Some? ==> WasDecided(c, es, e, CandidatesAt(From(c, es), e).value)
  {
    var n := |es| - 1;
    var s, d := From(c, es[..n]), CandidatesAt(From(c, es), e);
    LastStep(c, InitialState(c), es);
    CandidatesStep(c, s, es[n], e);
    if d.Some? {
      if DecisionFor(c, s, es[n], e).Some? {
        assert DecidedAt(c, es, n, e, d.value);
      } else {
        WasDecidedLater(c, es, n, e, d.value);
      }
    }
  }

  /** The i-th event begins epoch e with the candidates `list`. */
  ghost predicate SeatedAt(c: Config, es: seq<NodeEvent>, i: nat, e: nat, list: Result) {
    i < |es| && From(c, es[..i]).NextEpoch() == e && Begun(c, From(c, es[..i]), es[i]) == Some(list)
  }

  /** What is seated was decided by then, and what the node has seated is what it works with. */
  lemma SeatedWasDecided(c: Config, es: seq<NodeEvent>, i: nat, e: nat, list: Result) returns (j: nat)
    requires SeatedAt(c, es, i, e, list)
    ensures j <= i && DecidedAt(c, es, j, e, list)
    ensures From(c, es[..i+1]).epoch == Seat(NewEpoch(e, From(c, es[..i]).numSlots), list)
  {
    NextPrefix(c, es, i);
    BegunSeats(c, From(c, es[..i]), es[i]);
    if es[i].ResultMsg? {
      j := i;
    } else {
      CandidatesWereDecided(c, es[..i], e);
      j :| DecidedAt(c, es[..i], j, e, list);
      DecidedLater(c, es, i, j, e, list);
    }
  }

  /** Without bootstraps epochs follow one another: a step keeps the number, or begins the next epoch. */
  lemma EpochProgress(c: Config, es: seq<NodeEvent>, i: nat)
    requires i < |es| && NeverBootstrapped(es)
    ensures var s, t := From(c, es[..i]), From(c, es[..i+1]);
      t.epoch.number == s.epoch.number ||
      (t.epoch.number == s.epoch.number + 1 && exists list :: SeatedAt(c, es, i, t.epoch.number, list))
  {
    var s := From(c, es[..i]);
    NextPrefix(c, es, i);
    RunInv(c, es[..i]);
    StepInv(c, s, es[i]);
    if From(c, es[..i+1]).epoch.number != s.epoch.number {
      BegunSeats(c, s, es[i]);
      assert SeatedAt(c, es, i, s.NextEpoch(), Begun(c, s, es[i]).value);
    }
  }

  lemma NextPrefix(c: Config, es: seq<NodeEvent>, i: nat)
    requires i < |es|
    ensures From(c, es[..i+1]) == NodeStep(c, From(c, es[..i]), es[i])
  {
    assert es[..i+1][..i] == es[..i];
  }

  lemma SeatedLater(c: Config, es: seq<NodeEvent>, n: nat, i: nat, e: nat, list: Result)
    requires n <= |es| && SeatedAt(c, es[..n], i, e, list)
    ensures SeatedAt(c, es, i, e, list)
  {
    PrefixOfPrefix(es, n, i);
  }

  lemma {:induction false} EveryEpochWasSeated(c: Config, es: seq<NodeEvent>, e: nat)
    requires NeverBootstrapped(es) && 1 <= e <= From(c, es).epoch.number
    ensures exists i: nat, list :: SeatedAt(c, es, i, e, list)
  {
    var n := |es| - 1;
    assert es != [] && es[..n+1] == es;
    EpochProgress(c, es, n);
    if e <= From(c, es[..n]).epoch.number {
      EveryEpochWasSeated(c, es[..n], e);
      var i: nat, list :| SeatedAt(c, es[..n], i, e, list);
      SeatedLater(c, es, n, i, e, list);
    } else {
      assert From(c, es[..n+1]).epoch.number == e;
      var list :| SeatedAt(c, es, n, e, list);
    }
  }

  // ---- the theorems

  ghost predicate AllOnline(es: seq<NodeEvent>, e: nat, n: nat) {
    forall j :: 0 <= j < |es| && es[j].ResultMsg? && es[j].epoch == e ==> es[j].online == n
  }

  /** With n members, all online whenever a report comes in, and fewer than a third of them faulty: if
      every other member reports one result, two events that begin epoch e, on one node or on two, seat
      the same witnesses and the same queue. */
  lemma SeatsAgree(c1: Config, es1: seq<NodeEvent>, i1: nat, list1: Result,
                   c2: Config, es2: seq<NodeEvent>, i2: nat, list2: Result,
                   e: nat, members: set<Key>, faulty: set<Key>, truth: Key -> Result)
    requires SeatedAt(c1, es1, i1, e, list1) && SeatedAt(c2, es2, i2, e, list2)
    requires Truthful(c1, es1, e, members, faulty, truth) && Truthful(c2, es2, e, members, faulty, truth)
    requires AllOnline(es1, e, |members|) && AllOnline(es2, e, |members|) && 3 * |faulty| < |members|
    ensures list1 == list2
  {
    var j1 := SeatedWasDecided(c1, es1, i1, e, list1);
    var j2 := SeatedWasDecided(c2, es2, i2, e, list2);
    DecisionsAgreeOnline(c1, es1, j1, list1, c2, es2, j2, list2, e, members, faulty, truth);
  }

  lemma DecisionsAgreeOnline(c1: Config, es1: seq<NodeEvent>, j1: nat, w1: Result,
                             c2: Config, es2: seq<NodeEvent>, j2: nat, w2: Result,
                             e: nat, members: set<Key>, faulty: set<Key>, truth: Key -> Result)
    requires DecidedAt(c1, es1, j1, e, w1) && DecidedAt(c2, es2, j2, e, w2)
    requires Truthful(c1, es1, e, members, faulty, truth) && Truthful(c2, es2, e, members, faulty, truth)
    requires AllOnline(es1, e, |members|) && AllOnline(es2, e, |members|) && 3 * |faulty| < |members|
    ensures w1 == w2
  {
    QuorumsOverlap(c1, c2, e, |members|, |faulty|);
    assert es1[j1].online == |members| && es2[j2].online == |members|;
    DecisionsAgree(c1, es1, j1, w1, c2, es2, j2, w2, e, members, faulty, truth);
  }

  /** Under the same assumptions any two nodes that reach epoch e were seated from one list. */
  lemma SameEpochSameWitnesses(c1: Config, es1: seq<NodeEvent>, c2: Config, es2: seq<NodeEvent>,
                               e: nat, members: set<Key>, faulty: set<Key>, truth: Key -> Result)
      returns (i1: nat, i2: nat, list: Result)
    requires NeverBootstrapped(es1) && NeverBootstrapped(es2)
    requires 1 <= e <= From(c1, es1).epoch.number && e <= From(c2, es2).epoch.number
    requires Truthful(c1, es1, e, members, faulty, truth) && Truthful(c2, es2, e, members, faulty, truth)
    requires AllOnline(es1, e, |members|) && AllOnline(es2, e, |members|) && 3 * |faulty| < |members|
    ensures SeatedAt(c1, es1, i1, e, list) && SeatedAt(c2, es2, i2, e, list)
  {
    EveryEpochWasSeated(c1, es1, e);
    i1, list :| SeatedAt(c1, es1, i1, e, list);
    EveryEpochWasSeated(c2, es2, e);
    var list2;
    i2, list2 :| SeatedAt(c2, es2, i2, e, list2);
    SeatsAgree(c1, es1, i1, list, c2, es2, i2, list2, e, members, faulty, truth);
  }

  /** Within an epoch, nothing makes its successor less ready. */
  lemma ReadyPersists(c: Config, s: NodeState, ev: NodeEvent)
    requires ReadyList(s).Some? && NodeStep(c, s, ev).NextEpoch() == s.NextEpoch() && !ev.Bootstrapped?
    ensures ReadyList(NodeStep(c, s, ev)).Some?
  {
    if ev.ResultMsg? {
      ReportedStaysReady(c, s, ev);
    } else if ev.SlotPassed? {
      SlotStaysReady(s, c.hash, ev.blockId);
    } else {
      OtherFrame(c, s, ev);
    }
  }

  lemma ReportedStaysReady(c: Config, s: NodeState, ev: NodeEvent)
    requires ev.ResultMsg? && ReadyList(s).Some? && NodeStep(c, s, ev).NextEpoch() == s.NextEpoch()
    ensures ReadyList(NodeStep(c, s, ev)).Some?
  {
    if ev.epoch == s.NextEpoch() {
      SettledStaysReady(Reported(s, ev.peer, ev.epoch, ev.result), DecisionOf(c, s, ev));
    }
  }

  lemma SettledStaysReady(s: NodeState, d: Option<Result>)
    requires ReadyList(s).Some? && Settle(s, s.NextEpoch(), d).0.NextEpoch() == s.NextEpoch()
    ensures ReadyList(Settle(s, s.NextEpoch(), d).0).Some?
  {
  }

  lemma SlotStaysReady(s: NodeState, hash: Hash, blockId: Id)
    requires ReadyList(s).Some? && NextSlot(s, hash, blockId).0.NextEpoch() == s.NextEpoch()
    ensures ReadyList(NextSlot(s, hash, blockId).0).Some?
  {
  }

  lemma {:induction false} EpochsRise(c: Config, es: seq<NodeEvent>, i: nat, k: nat)
    requires i <= k <= |es| && NeverBootstrapped(es)
    ensures From(c, es[..i]).epoch.number <= From(c, es[..k]).epoch.number
  {
    if i < k {
      var n := k - 1;
      EpochsRise(c, es, i, n);
      NextEpochRises(c, es, n);
      assert n + 1 == k;
    }
  }

  lemma NextEpochRises(c: Config, es: seq<NodeEvent>, k: nat)
    requires k < |es| && NeverBootstrapped(es)
    ensures From(c, es[..k]).epoch.number <= From(c, es[..k+1]).epoch.number
  {
    EpochProgress(c, es, k);
  }

  lemma {:induction false} StaysReady(c: Config, es: seq<NodeEvent>, i: nat, k: nat)
    requires i <= k <= |es| && NeverBootstrapped(es) && From(c, es[..k]).NextEpoch() == From(c, es[..i]).NextEpoch()
    requires ReadyList(From(c, es[..i])).Some?
    ensures ReadyList(From(c, es[..k])).Some?
  {
    if i < k {
      var n := k - 1;
      EpochsRise(c, es, i, n);
      EpochsRise(c, es, n, k);
      StaysReady(c, es, i, n);
      StaysReadyNext(c, es, n);
      assert n + 1 == k;
    }
  }

  lemma StaysReadyNext(c: Config, es: seq<NodeEvent>, k: nat)
    requires k < |es| && NeverBootstrapped(es) && From(c, es[..k+1]).NextEpoch() == From(c, es[..k]).NextEpoch()
    requires ReadyList(From(c, es[..k])).Some?
    ensures ReadyList(From(c, es[..k+1])).Some?
  {
    NextPrefix(c, es, k);
    ReadyPersists(c, From(c, es[..k]), es[k]);
  }

  /** Once the next epoch is ready, it stays ready with the same candidates until it begins, whatever
      is reported, provided each peer reports one result and fewer than two quorums of peers report. */
  lemma StableDecision(c: Config, es: seq<NodeEvent>, i: nat, k: nat, reporters: set<Key>, truth: Key -> Result, q: nat)
    requires i <= k <= |es| && NeverBootstrapped(es)
    requires var e := From(c, es[..i]).NextEpoch();
      && From(c, es[..k]).NextEpoch() == e && e in From(c, es[..i]).ready
      && Truthful(c, es, e, reporters, {}, truth)
      && (forall j :: 0 <= j < |es| && es[j].ResultMsg? && es[j].epoch == e ==> QuorumSize(c, e, es[j].online) >= q)
    requires |reporters| < 2 * q
    ensures ReadyList(From(c, es[..i])).Some?
    ensures ReadyList(From(c, es[..k])) == ReadyList(From(c, es[..i]))
  {
    var e := From(c, es[..i]).NextEpoch();
    RunInv(c, es[..i]);
    StaysReady(c, es, i, k);
    CandidatesWereDecided(c, es[..i], e);
    CandidatesWereDecided(c, es[..k], e);
    var w1, w2 := ReadyList(From(c, es[..i])).value, ReadyList(From(c, es[..k])).value;
    var j1: nat :| DecidedAt(c, es[..i], j1, e, w1);
    var j2: nat :| DecidedAt(c, es[..k], j2, e, w2);
    DecidedLater(c, es, i, j1, e, w1);
    DecidedLater(c, es, k, j2, e, w2);
    DecisionsAgree(c, es, j1, w1, c, es, j2, w2, e, reporters, {}, truth);
  }

  // ---- reputation

  ghost predicate GoodScores(s: NodeState) {
    forall k :: k in s.peers ==> 0.0 < s.peers[k].score <= 1.0
  }

  /** Whatever the sequence of penalties and rewards, scores stay in (0, 1], so every peer keeps a
      positive weight and a ballot can always be drawn. */
  lemma {:induction false} ScoresStayPositive(c: Config, es: seq<NodeEvent>)
    ensures var s := From(c, es);
      && GoodScores(s) && s.peers.Keys == InitialPeers(c.peerKeys, c.key).Keys
      && forall k :: k in c.peerKeys ==> k in s.peers && DrawWeight(s.peers[k]) > 0.0
  {
    if es != [] {
      var n := |es| - 1;
      ScoresStayPositive(c, es[..n]);
      ScoreStep(c, From(c, es[..n]), es[n]);
    }
  }

  lemma ScoreStep(c: Config, s: NodeState, e: NodeEvent)
    requires GoodScores(s)
    ensures GoodScores(NodeStep(c, s, e)) && NodeStep(c, s, e).peers.Keys == s.peers.Keys
  {
    match e
    case Penalized(p) => assert NodeStep(c, s, e).peers.Keys == s.peers.Keys;
    case Rewarded(p) => assert NodeStep(c, s, e).peers.Keys == s.peers.Keys;
    case Heard(p) => assert NodeStep(c, s, e).peers.Keys == s.peers.Keys;
    case _ =>
  }
}
