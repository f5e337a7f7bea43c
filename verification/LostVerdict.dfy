/** A run in which the engine never counts a verdict it was given. A node learns of ten epochs from the
    reports of another member alone, so it holds no ballots for them; then the deletion of old data
    raises in the middle of handling an invalid block. */
module LostVerdict {
  import opened Types
  import opened Digest
  import opened PyDict
  import opened Voting
  import opened VotingSystem
  import opened Epoch
  import opened EpochRuns
  import opened Node
  import opened BlockCache
  import opened Chains
  import opened Engine
  import opened EngineRuns

  const FIRST: Block := Block("g", 0, "", "a", ConsensusData(0, 0, [], 1))
  const LAST: Block := Block("x", 1, "g", "b", ConsensusData(9, 2, ["b", "a"], 1))
  const LIST: Result := ["b", "a"]

  function Cfg(hash: Hash, stv: Stv): Config {
    Config("a", ["a", "b"], 1, hash, stv)
  }

  function TwoMembers(hash: Hash, stv: Stv): Env {
    Env(Cfg(hash, stv), map["g" := FIRST, "x" := LAST])
  }

  // ---- the node

  /** The candidates of epoch e, if it was decided. */
  function ListFor(n: NodeState, e: nat): Option<Result> {
    if e in n.ready && e in n.voting.candidates then Some(n.voting.candidates[e]) else None
  }

  /** In epoch k, i slots used, reports for the epochs up to r, the last of them decided, and no ballots. */
  ghost predicate Informed(n: NodeState, k: nat, i: nat, r: nat) {
    && n == n.(epoch := EpochState(k, i, ["b"], ["a"], 1), numSlots := 1, phase := Production,
               voting := n.voting.(ballots := map[]))
    && ListFor(n, r) == Some(LIST) && "b" in n.peers
    && |n.voting.results.Keys| == r && forall e :: e in n.voting.results <==> 1 <= e <= r
  }

  lemma OneReportDecides(c: Config, t: NodeState, e: nat)
    requires c.slots == 1 && e in t.voting.results && t.voting.results[e] == Assoc(["b"], map["b" := LIST])
    ensures Verdict(c, t, e, 1) == Some(LIST)
  {
    var vs := Values(t.voting.results[e]);
    assert vs == [LIST];
    NoneMoreCommon(vs);
  }

  /** A single report decides its epoch, which nobody has reported about before. */
  lemma ReportEffect(c: Config, n: NodeState, e: nat)
    requires c.slots == 1 && e == n.NextEpoch() && e !in n.voting.results
    ensures HandleVoteResult(c, n, "b", e, LIST, 1).0 == Settle(Reported(n, "b", e, LIST), e, Some(LIST)).0
  {
    OneReportDecides(c, Reported(n, "b", e, LIST), e);
  }

  lemma FirstEpoch(t: NodeState)
    requires t.epoch == NewEpoch(0, 1) && t.numSlots == 1 && t.phase == Idle && t.ready == {}
    requires t.voting.results.Keys == {1} && t.voting.ballots == map[] && "b" in t.peers
    ensures Informed(Settle(t, 1, Some(LIST)).0, 1, 0, 1)
  {
    var u := Decided(t, 1, LIST);
    assert Expired(u.voting.results) == [];
    assert InitializeEpoch(u, 1).0.epoch == EpochState(1, 0, ["b"], ["a"], 1);
  }

  /** The node after "b" reported the list for e, and so decided it. */
  function Told(n: NodeState, e: nat): NodeState {
    Settle(Reported(Seen(n, "b"), "b", e, LIST), e, Some(LIST)).0
  }

  lemma NextReport(n: NodeState, k: nat)
    requires Informed(n, k, 0, k) && k >= 1
    ensures Informed(Told(n, k + 1), k, 0, k + 1)
  {
    var t := Reported(Seen(n, "b"), "b", k + 1, LIST);
    assert t.voting.results.Keys == n.voting.results.Keys + {k + 1};
  }

  lemma SlotPasses(n: NodeState, hash: Hash, blockId: Id, k: nat, i: nat)
    requires Informed(n, k, i, k + 1) && i < 2
    ensures Informed(NextSlot(n, hash, blockId).0, k, i + 1, k + 1)
  {
    SoleWitness(n.epoch, hash, blockId);
  }

  lemma EpochTurns(n: NodeState, hash: Hash, blockId: Id, k: nat)
    requires Informed(n, k, 2, k + 1) && k + 1 < 10
    ensures Informed(NextSlot(n, hash, blockId).0, k + 1, 0, k + 1)
  {
    var u := FinalizeEpoch(n.(epoch := Increment(n.epoch, hash, blockId)));
    assert Expired(u.voting.results) == [];
  }

  // ---- the engine

  /** The engine holds only the first block and waits for nothing. */
  ghost predicate Calm(env: Env, s: EngineState) {
    s == Launched(env, FIRST, true).(node := s.node, log := s.log)
  }

  lemma StoreInv(env: Env, s: EngineState)
    requires env == TwoMembers(env.cfg.hash, env.cfg.stv) && Calm(env, s)
    ensures EngineInv(env, s)
  {
  }

  lemma ReportMsg(env: Env, s: EngineState, e: nat)
    requires env == TwoMembers(env.cfg.hash, env.cfg.stv) && Calm(env, s) && "b" in s.node.peers
    requires e == s.node.NextEpoch() && e !in s.node.voting.results
    ensures EngineInv(env, s)
    ensures var t := EngineStep(env, s, FromPeer("b", VoteResultMsg(e, LIST), 1));
      t == s.(node := Told(s.node, e))
  {
    StoreInv(env, s);
    ReportEffect(env.cfg, Seen(s.node, "b"), e);
    ResultStep(env, s, "b", e, LIST, 1);
    assert EngineStep(env, s, FromPeer("b", VoteResultMsg(e, LIST), 1))
        == HandlePeerStep(env, s, "b", VoteResultMsg(e, LIST), 1);
  }

  lemma AdvanceCalm(env: Env, s: EngineState)
    requires Calm(env, s)
    ensures Calm(env, AdvanceSlot(env, s).0)
  {
    AdvanceFrame(env, s);
  }

  lemma AdvanceFrame(env: Env, s: EngineState)
    ensures var t := AdvanceSlot(env, s).0; t == s.(node := t.node, log := t.log)
  {
  }

  lemma EmptySlot(env: Env, s: EngineState)
    requires env == TwoMembers(env.cfg.hash, env.cfg.stv) && Calm(env, s) && "b" in s.node.peers
    requires Seen(s.node, "b").epoch.CurrentWitness() == Some("b")
    ensures EngineInv(env, s)
    ensures var t := EngineStep(env, s, FromPeer("b", EmptySlotMsg, 1));
      Calm(env, t) && t.node == NextSlot(Seen(s.node, "b"), env.cfg.hash, "g").0
  {
    StoreInv(env, s);
    var t := s.(node := Seen(s.node, "b"));
    AdvanceCalm(env, t);
    assert HandlePeerStep(env, s, "b", EmptySlotMsg, 1) == AdvanceSlot(env, t).0;
  }

  lemma SeenInformed(n: NodeState, k: nat, i: nat, r: nat)
    requires Informed(n, k, i, r)
    ensures Informed(Seen(n, "b"), k, i, r) && n.epoch.CurrentWitness() == Some("b")
  {
  }

  /** The story's settings; the engine can be started with them. */
  ghost predicate Ours(env: Env) {
    env == TwoMembers(env.cfg.hash, env.cfg.stv) && EngineInv(env, Launched(env, FIRST, true))
  }

  lemma StartInv(env: Env)
    requires env == TwoMembers(env.cfg.hash, env.cfg.stv)
    ensures EngineInv(env, Launched(env, FIRST, true))
  {
  }

  ghost predicate Reaches(env: Env, es: seq<EngineEvent>, k: nat, i: nat, r: nat)
    requires EngineInv(env, Launched(env, FIRST, true))
  {
    var s := EngineRun(env, Launched(env, FIRST, true), es);
    Calm(env, s) && Informed(s.node, k, i, r)
  }

  lemma InnerSlotPasses(env: Env, es: seq<EngineEvent>, k: nat, i: nat)
    requires Ours(env) && Reaches(env, es, k, i, k + 1) && i < 2
    ensures Reaches(env, es + [FromPeer("b", EmptySlotMsg, 1)], k, i + 1, k + 1)
  {
    var s := EngineRun(env, Launched(env, FIRST, true), es);
    SeenInformed(s.node, k, i, k + 1);
    EmptySlot(env, s);
    SlotPasses(Seen(s.node, "b"), env.cfg.hash, "g", k, i);
    RunSnoc(env, Launched(env, FIRST, true), es, FromPeer("b", EmptySlotMsg, 1));
  }

  lemma LastSlotPasses(env: Env, es: seq<EngineEvent>, k: nat)
    requires Ours(env) && Reaches(env, es, k, 2, k + 1) && k + 1 < 10
    ensures Reaches(env, es + [FromPeer("b", EmptySlotMsg, 1)], k + 1, 0, k + 1)
  {
    var s := EngineRun(env, Launched(env, FIRST, true), es);
    SeenInformed(s.node, k, 2, k + 1);
    EmptySlot(env, s);
    EpochTurns(Seen(s.node, "b"), env.cfg.hash, "g", k);
    RunSnoc(env, Launched(env, FIRST, true), es, FromPeer("b", EmptySlotMsg, 1));
  }

  lemma ReportRun(env: Env, es: seq<EngineEvent>, k: nat)
    requires Ours(env) && Reaches(env, es, k, 0, k)
    ensures
      var s := EngineRun(env, Launched(env, FIRST, true), es);
      var m := FromPeer("b", VoteResultMsg(k + 1, LIST), 1);
      EngineRun(env, Launched(env, FIRST, true), es + [m]) == s.(node := Told(s.node, k + 1))
  {
    RunSnoc(env, Launched(env, FIRST, true), es, FromPeer("b", VoteResultMsg(k + 1, LIST), 1));
    ReportMsg(env, EngineRun(env, Launched(env, FIRST, true), es), k + 1);
  }

  lemma ReportArrives(env: Env, es: seq<EngineEvent>, k: nat)
    requires Ours(env) && Reaches(env, es, k, 0, k) && k >= 1
    ensures Reaches(env, es + [FromPeer("b", VoteResultMsg(k + 1, LIST), 1)], k, 0, k + 1)
  {
    ReportRun(env, es, k);
    NextReport(EngineRun(env, Launched(env, FIRST, true), es).node, k);
  }

  lemma FirstEpochBegins(env: Env)
    requires Ours(env)
    ensures Reaches(env, [FromPeer("b", VoteResultMsg(1, LIST), 1)], 1, 0, 1)
  {
    var s := Launched(env, FIRST, true);
    ReportMsg(env, s, 1);
    FirstEpoch(Reported(Seen(s.node, "b"), "b", 1, LIST));
    RunSnoc(env, s, [], FromPeer("b", VoteResultMsg(1, LIST), 1));
    assert [] + [FromPeer("b", VoteResultMsg(1, LIST), 1)] == [FromPeer("b", VoteResultMsg(1, LIST), 1)];
  }

  /** One member reports the next epoch's list, and lets two of its own three slots pass. */
  lemma TwoSlotsPass(env: Env, es: seq<EngineEvent>, k: nat) returns (later: seq<EngineEvent>)
    requires Ours(env) && Reaches(env, es, k, 0, k) && k >= 1
    ensures Reaches(env, later, k, 2, k + 1)
  {
    ReportArrives(env, es, k);
    later := InnerSlotsPass(env, es + [FromPeer("b", VoteResultMsg(k + 1, LIST), 1)], k);
  }

  lemma InnerSlotsPass(env: Env, es: seq<EngineEvent>, k: nat) returns (later: seq<EngineEvent>)
    requires Ours(env) && Reaches(env, es, k, 0, k + 1)
    ensures Reaches(env, later, k, 2, k + 1)
  {
    later := es + [FromPeer("b", EmptySlotMsg, 1)];
    InnerSlotPasses(env, es, k, 0);
    InnerSlotPasses(env, later, k, 1);
    later := later + [FromPeer("b", EmptySlotMsg, 1)];
  }

  lemma EpochsPass(env: Env, k: nat) returns (es: seq<EngineEvent>)
    requires Ours(env) && 1 <= k < 10
    ensures Reaches(env, es, k, 0, k)
  {
    if k == 1 {
      FirstEpochBegins(env);
      es := [FromPeer("b", VoteResultMsg(1, LIST), 1)];
    } else {
      es := EpochsPass(env, k - 1);
      es := EpochPasses(env, es, k - 1);
    }
  }

  lemma EpochPasses(env: Env, es: seq<EngineEvent>, k: nat) returns (later: seq<EngineEvent>)
    requires Ours(env) && Reaches(env, es, k, 0, k) && 1 <= k < 9
    ensures Reaches(env, later, k + 1, 0, k + 1)
  {
    later := TwoSlotsPass(env, es, k);
    LastSlotPasses(env, later, k);
    later := later + [FromPeer("b", EmptySlotMsg, 1)];
  }

  // ---- the verdict

  /** The block of the last slot of epoch 9 is sent for checking. */
  lemma BlockArrives(env: Env, s: EngineState)
    requires env == TwoMembers(env.cfg.hash, env.cfg.stv) && Calm(env, s) && Informed(s.node, 9, 2, 10)
    ensures EngineInv(env, s)
    ensures EngineStep(env, s, BlockNew(LAST, false, false)) == Accept(env, s.(node := Seen(s.node, "b")), LAST, false)
  {
    StoreInv(env, s);
    AppendPart(env.store, s.cache, LAST);
    assert EngineStep(env, s, BlockNew(LAST, false, false)) == NewBlockStep(env, s, BlockNew(LAST, false, false));
  }

  lemma BlockIsChecked(env: Env, s: EngineState)
    requires env == TwoMembers(env.cfg.hash, env.cfg.stv) && Calm(env, s) && Informed(s.node, 9, 2, 10)
    requires EngineInv(env, s)
    ensures WellFormed(Append(s.cache, LAST).0.blocks.vals)
    ensures var t := Accept(env, s.(node := Seen(s.node, "b")), LAST, false);
      t.waitingValidation == 1 && !t.stuck && t.node == Seen(s.node, "b")
  {
    AppendPart(env.store, s.cache, LAST);
    AppendConsistent(s.cache, LAST);
    TimelyCounts(env, s, LAST, false);
    assert NextInLine(s, LAST) && !OnTheWay(s, LAST);
  }

  lemma ChangeRaises(n: NodeState, hash: Hash, blockId: Id)
    requires Informed(n, 9, 2, 10)
    ensures EpochChangeRaises(DowngradeWitness(n, "b"), hash, blockId)
  {
    var d := DowngradeWitness(n, "b");
    assert d.epoch == EpochState(9, 2, ["a"], ["b"], 1);
    var x := Expired(d.voting.results)[0];
    assert x in Expired(d.voting.results) && x !in d.voting.ballots;
  }

  lemma PenalizedInformed(c: Config, n: NodeState)
    requires Informed(n, 9, 2, 10)
    ensures Informed(Penalize(c, n, "b"), 9, 2, 10) && !Stranger(c, n, "b") && !Hangs(n.epoch, "b")
  {
  }

  lemma RejectionLost(env: Env, s: EngineState)
    requires env.cfg == Cfg(env.cfg.hash, env.cfg.stv) && Informed(s.node, 9, 2, 10)
    ensures !Rejected(env, s, "b").1 && Rejected(env, s, "b").0.waitingValidation == s.waitingValidation
  {
    PenalizedInformed(env.cfg, s.node);
    ChangeRaises(Penalize(env.cfg, s.node, "b"), env.cfg.hash, s.pre);
    RejectionCounted(env, s, "b");
    UncountedKeepsWaiting(env, s, "b");
  }

  lemma VerdictLost(env: Env, s: EngineState)
    requires env == TwoMembers(env.cfg.hash, env.cfg.stv) && EngineInv(env, s) && !s.stuck && Informed(s.node, 9, 2, 10)
    ensures Counted(env, s, BlockInvalid("x")) == 0
    ensures EngineStep(env, s, BlockInvalid("x")).waitingValidation == s.waitingValidation
  {
    RejectionLost(env, s);
    assert Lookup(env, s, "x") == Some(LAST);
    assert InvalidBlock(env, s, "x") == Rejected(env, s, "b");
  }

  lemma UncountedKeepsWaiting(env: Env, s: EngineState, k: Key)
    requires !Rejected(env, s, k).1
    ensures Rejected(env, s, k).0.waitingValidation == s.waitingValidation
  {
  }

  /** Started on the genesis block, a node with real members reaches a state in which it sends a block for
      checking, is told that the block is invalid, and still waits for that verdict. */
  lemma UncountedVerdictExample(hash: Hash, stv: Stv) returns (es: seq<EngineEvent>)
    ensures EngineInv(TwoMembers(hash, stv), Launched(TwoMembers(hash, stv), FIRST, true))
    ensures var env := TwoMembers(hash, stv); var s := EngineRun(env, Launched(env, FIRST, true), es);
      && s.waitingValidation == 1 && !s.stuck && Counted(env, s, BlockInvalid("x")) == 0
      && EngineStep(env, s, BlockInvalid("x")).waitingValidation == 1
  {
    var env := TwoMembers(hash, stv);
    StartInv(env);
    es := EpochsPass(env, 9);
    es := TwoSlotsPass(env, es, 9);
    var s := EngineRun(env, Launched(env, FIRST, true), es);
    BlockArrives(env, s);
    BlockIsChecked(env, s);
    RunSnoc(env, Launched(env, FIRST, true), es, BlockNew(LAST, false, false));
    es := es + [BlockNew(LAST, false, false)];
    SeenInformed(s.node, 9, 2, 10);
    VerdictLost(env, EngineRun(env, Launched(env, FIRST, true), es));
  }
}
