/** The engine drives its node only through the node's own events, so what is proved of node runs holds
    inside every engine run, whether it catches up or not. */
module EngineRefinement {
  import opened Types
  import opened Epoch
  import opened Node
  import opened NodeRuns
  import opened Agreement
  import opened Network
  import opened BlockCache
  import opened BootstrapTally
  import opened Engine
  import opened EngineRuns

  /** A witness fails: it is penalized, downgraded, and its slot passes, as far as the code gets. */
  function Failure(c: Config, n: NodeState, k: Key, pre: Id): seq<NodeEvent> {
    if Stranger(c, n, k) then []
    else if Hangs(n.epoch, k) then [Penalized(k)]
    else [Penalized(k), WitnessFailed(k), SlotPassed(pre)]
  }

  /** The committed block is the target of a catch-up. */
  predicate Resumes(s: EngineState, b: Block) {
    s.CatchingUp() && s.target.Some? && b.num == s.target.value.num
  }

  function FeltCommitted(c: Config, s: EngineState, b: Block): seq<NodeEvent> {
    if Stranger(c, s.node, b.signer) then []
    else if Resumes(s, b) then [Rewarded(b.signer), Bootstrapped(b.payload), SlotPassed(b.id)]
    else [Rewarded(b.signer), SlotPassed(b.id)]
  }

  /** A message about a peer's chain head may send the node catching up. */
  ghost function FeltHead(env: Env, s: EngineState, boot: Boot, head: Block, online: nat): seq<NodeEvent>
    requires WellFormed(s.cache.blocks.vals)
  {
    if !s.CatchingUp() && HandleBootstrap(env, s, boot, online, head).CatchingUp() then [Interrupted(Phase.CatchingUp)]
    else []
  }

  ghost function FeltPeer(env: Env, s: EngineState, signer: Key, m: PeerMsg, online: nat): seq<NodeEvent>
    requires WellFormed(s.cache.blocks.vals)
  {
    if signer !in env.cfg.peerKeys || signer !in s.node.peers then []
    else [Heard(signer)] + (match m
      case VoteMsg(n, votes, sent) => [BallotMsg(signer, n, votes, online, sent)]
      case VoteResultMsg(n, result) => [ResultMsg(signer, n, result, online)]
      case EmptySlotMsg => if s.ExpectedSigner() == Some(signer) then [SlotPassed(s.pre)] else []
      case BootstrapRequestMsg(_) => []
      case BootstrapMsg(boot, head) => FeltHead(env, s.(node := Seen(s.node, signer)), boot, head, online))
  }

  ghost function FeltBlock(env: Env, s: EngineState, e: EngineEvent): seq<NodeEvent>
    requires e.BlockNew?
  {
    if !Acceptable(env, s, e) || e.block.signer !in env.cfg.peerKeys then []
    else if e.early then [Penalized(e.block.signer)]
    else [Heard(e.block.signer)]
  }

  /** What the node experiences when the engine handles an event. */
  ghost function Felt(env: Env, s: EngineState, e: EngineEvent): seq<NodeEvent>
    requires EngineInv(env, s)
  {
    PartWellFormed(s.cache.blocks.vals, env.store);
    if s.stuck && !e.ResultTimer? then [] else
    match e
    case BlockNew(_, _, _) => FeltBlock(env, s, e)
    case BlockValid(_) => []
    case BlockInvalid(id) =>
      if Lookup(env, s, id).None? then [] else Failure(env.cfg, s.node, Lookup(env, s, id).value.signer, s.pre)
    case BlockCommitted(id) =>
      if CommittedLookup(env, s, id).None? then [] else FeltCommitted(env.cfg, s, CommittedLookup(env, s, id).value)
    case FromPeer(signer, m, online) => FeltPeer(env, s, signer, m, online)
    case OwnBlockFinalized => []
    case OwnSlotEmpty => [SlotPassed(s.pre)]
    case SlotMissed =>
      if s.ExpectedSigner().None? then [] else Failure(env.cfg, s.node, s.ExpectedSigner().value, s.pre)
    case OwnVote(ballot, online) => [MayVote(ballot, online)]
    case ResultTimer(sent) => [TimerFired(sent)]
  }

  lemma RunOne(c: Config, s: NodeState, a: NodeEvent)
    ensures NodeRun(c, s, [a]) == NodeStep(c, s, a)
  {
    assert [a][..0] == [];
  }

  lemma RunTwo(c: Config, s: NodeState, a: NodeEvent, b: NodeEvent)
    ensures NodeRun(c, s, [a, b]) == NodeStep(c, NodeStep(c, s, a), b)
  {
    RunOne(c, s, a);
    assert [a, b][..1] == [a];
  }

  lemma RunThree(c: Config, s: NodeState, a: NodeEvent, b: NodeEvent, d: NodeEvent)
    ensures NodeRun(c, s, [a, b, d]) == NodeStep(c, NodeStep(c, NodeStep(c, s, a), b), d)
  {
    RunTwo(c, s, a, b);
    assert [a, b, d][..2] == [a, b];
  }

  lemma FeltFailure(env: Env, s: EngineState, k: Key)
    ensures LoseSlot(env, s, k).0.node == NodeRun(env.cfg, s.node, Failure(env.cfg, s.node, k, s.pre))
  {
    if !Stranger(env.cfg, s.node, k) {
      PenaltyKeepsEpoch(env.cfg, s.node, k);
      FeltDemotion(env, s.(node := Penalize(env.cfg, s.node, k)), k);
      if Hangs(s.node.epoch, k) {
        RunOne(env.cfg, s.node, Penalized(k));
      } else {
        RunThree(env.cfg, s.node, Penalized(k), WitnessFailed(k), SlotPassed(s.pre));
      }
      PenaltyStep(env.cfg, s.node, k);
    }
  }

  lemma PenaltyStep(c: Config, n: NodeState, k: Key)
    ensures NodeStep(c, n, Penalized(k)) == Penalize(c, n, k)
  {
  }

  lemma FeltDemotion(env: Env, s: EngineState, k: Key)
    ensures DemoteAndAdvance(env, s, k).0.node ==
      if Hangs(s.node.epoch, k) then s.node
      else NodeStep(env.cfg, NodeStep(env.cfg, s.node, WitnessFailed(k)), SlotPassed(s.pre))
  {
  }

  lemma PenaltyKeepsEpoch(c: Config, n: NodeState, k: Key)
    ensures Penalize(c, n, k).epoch == n.epoch
  {
  }

  lemma FeltCommit(env: Env, s: EngineState, id: Id)
    requires EngineInv(env, s) && !s.stuck
    ensures Committed(env, s, id).node == NodeRun(env.cfg, s.node, Felt(env, s, BlockCommitted(id)))
  {
    var b := CommittedLookup(env, s, id);
    if b.Some? {
      FeltMove(env, s, b.value);
      assert Committed(env, s, id) == CommitBlockFound(env, s, b.value);
    }
  }

  lemma FeltMove(env: Env, s: EngineState, b: Block)
    ensures CommitBlockFound(env, s, b).node == NodeRun(env.cfg, s.node, FeltCommitted(env.cfg, s, b))
  {
    if !Stranger(env.cfg, s.node, b.signer) {
      MovedNode(env, s, b);
      RewardAndSlot(env.cfg, s.node, b);
      RewardAndResume(env.cfg, s.node, b);
    }
  }

  lemma RewardAndSlot(c: Config, n: NodeState, b: Block)
    ensures NodeRun(c, n, [Rewarded(b.signer), SlotPassed(b.id)]) == NextSlot(Reward(c, n, b.signer), c.hash, b.id).0
  {
    RunTwo(c, n, Rewarded(b.signer), SlotPassed(b.id));
  }

  lemma RewardAndResume(c: Config, n: NodeState, b: Block)
    ensures NodeRun(c, n, [Rewarded(b.signer), Bootstrapped(b.payload), SlotPassed(b.id)])
         == NextSlot(Bootstrap(Reward(c, n, b.signer), b.payload), c.hash, b.id).0
  {
    RunThree(c, n, Rewarded(b.signer), Bootstrapped(b.payload), SlotPassed(b.id));
    ResumeSteps(c, n, b);
    ResumeSteps(c, Reward(c, n, b.signer), b);
    ResumeSteps(c, Bootstrap(Reward(c, n, b.signer), b.payload), b);
  }

  lemma ResumeSteps(c: Config, n: NodeState, b: Block)
    ensures NodeStep(c, n, Rewarded(b.signer)) == Reward(c, n, b.signer)
    ensures NodeStep(c, n, Bootstrapped(b.payload)) == Bootstrap(n, b.payload)
    ensures NodeStep(c, n, SlotPassed(b.id)) == NextSlot(n, c.hash, b.id).0
  {
  }

  /** The node after a commit that does not raise. */
  lemma MovedNode(env: Env, s: EngineState, b: Block)
    requires !Stranger(env.cfg, s.node, b.signer)
    ensures var n := Reward(env.cfg, s.node, b.signer);
      CommitBlockFound(env, s, b).node ==
        NextSlot(if Resumes(s, b) then Bootstrap(n, b.payload) else n, env.cfg.hash, b.id).0
  {
    ResumedNode(env, s, b);
    assert CommitBlockFound(env, s, b) == FollowUp(env, Resume(MoveHead(env, s, b).0, b), b.num);
  }

  lemma ResumedNode(env: Env, s: EngineState, b: Block)
    requires !Stranger(env.cfg, s.node, b.signer)
    ensures var n := Reward(env.cfg, s.node, b.signer); var t := Resume(MoveHead(env, s, b).0, b);
      t.node == (if Resumes(s, b) then Bootstrap(n, b.payload) else n) && t.pre == b.id
  {
  }

  lemma FeltNewBlock(env: Env, s: EngineState, e: EngineEvent)
    requires EngineInv(env, s) && !s.stuck && e.BlockNew?
    ensures EngineStep(env, s, e).node == NodeRun(env.cfg, s.node, Felt(env, s, e))
  {
    if Acceptable(env, s, e) {
      NewBlockNode(env, s, e);
      FeltAtBlock(env.cfg, s.node, e.block.signer, e.early);
    }
  }

  lemma FeltAtBlock(c: Config, n: NodeState, k: Key, early: bool)
    ensures NodeRun(c, n, []) == n
    ensures NodeRun(c, n, [Penalized(k)]) == Penalize(c, n, k)
    ensures NodeRun(c, n, [Heard(k)]) == Seen(n, k)
  {
    RunOne(c, n, Penalized(k));
    RunOne(c, n, Heard(k));
  }

  lemma NewBlockNode(env: Env, s: EngineState, e: EngineEvent)
    requires EngineInv(env, s) && !s.stuck && e.BlockNew? && Acceptable(env, s, e)
    ensures EngineStep(env, s, e).node ==
      if e.block.signer !in env.cfg.peerKeys then s.node
      else if e.early then Penalize(env.cfg, s.node, e.block.signer) else Seen(s.node, e.block.signer)
  {
    AppendPart(env.store, s.cache, e.block);
    assert EngineStep(env, s, e) == NewBlock(env, s, e.block, e.early, e.rested);
  }

  lemma FeltTwo(env: Env, s: EngineState, signer: Key, a: NodeEvent)
    ensures NodeRun(env.cfg, s.node, [Heard(signer)] + [a]) == NodeStep(env.cfg, Seen(s.node, signer), a)
  {
    assert [Heard(signer)] + [a] == [Heard(signer), a];
    RunTwo(env.cfg, s.node, Heard(signer), a);
    HeardStep(env.cfg, s.node, signer);
  }

  lemma HeardStep(c: Config, n: NodeState, k: Key)
    ensures NodeStep(c, n, Heard(k)) == Seen(n, k)
  {
  }

  lemma FeltNoMore(env: Env, s: EngineState, signer: Key)
    ensures NodeRun(env.cfg, s.node, [Heard(signer)] + []) == Seen(s.node, signer)
  {
    assert [Heard(signer)] + [] == [Heard(signer)];
    RunOne(env.cfg, s.node, Heard(signer));
  }

  lemma FeltBallot(env: Env, s: EngineState, signer: Key, m: PeerMsg, online: nat)
    requires WellFormed(s.cache.blocks.vals)
    requires signer in env.cfg.peerKeys && signer in s.node.peers && m.VoteMsg?
    ensures HandlePeerStep(env, s, signer, m, online).node
         == NodeRun(env.cfg, s.node, FeltPeer(env, s, signer, m, online))
  {
    FeltTwo(env, s, signer, BallotMsg(signer, m.epoch, m.votes, online, m.sent));
  }

  lemma FeltResult(env: Env, s: EngineState, signer: Key, m: PeerMsg, online: nat)
    requires WellFormed(s.cache.blocks.vals)
    requires signer in env.cfg.peerKeys && signer in s.node.peers && m.VoteResultMsg?
    ensures HandlePeerStep(env, s, signer, m, online).node
         == NodeRun(env.cfg, s.node, FeltPeer(env, s, signer, m, online))
  {
    FeltTwo(env, s, signer, ResultMsg(signer, m.epoch, m.result, online));
  }

  lemma FeltEmptySlot(env: Env, s: EngineState, signer: Key, m: PeerMsg, online: nat)
    requires WellFormed(s.cache.blocks.vals)
    requires signer in env.cfg.peerKeys && signer in s.node.peers && m.EmptySlotMsg?
    ensures HandlePeerStep(env, s, signer, m, online).node
         == NodeRun(env.cfg, s.node, FeltPeer(env, s, signer, m, online))
  {
    FeltTwo(env, s, signer, SlotPassed(s.pre));
    FeltNoMore(env, s, signer);
    assert s.(node := Seen(s.node, signer)).ExpectedSigner() == s.ExpectedSigner();
  }

  /** Chasing a head leaves the node as it is, or sends it catching up. */
  predicate SameOrCatching(n: NodeState, t: NodeState) {
    t == n || t == n.(phase := Phase.CatchingUp)
  }

  lemma ChaseNode(env: Env, s: EngineState, online: nat, head: Block)
    requires WellFormed(s.cache.blocks.vals) && s.boots != []
    ensures SameOrCatching(s.node, Chase(env, s, online, head).0.node)
  {
    TalliedKeys(s.boots);
    var d := Tallied(s.boots);
    var b := Best(d.keys, d.vals);
    AimedNode(env, s, b, d.vals[b].num, head);
  }

  lemma AimedNode(env: Env, s: EngineState, target: Id, num: int, head: Block)
    requires WellFormed(s.cache.blocks.vals)
    ensures SameOrCatching(s.node, Fastforward(env, s, target, num, head).0.node)
  {
    var t := s.(node := s.node.(phase := Phase.CatchingUp), target := Some(Target(target, num)));
    if target in s.cache.blocks.vals {
      MissingNode(env, t, target, head);
    }
  }

  lemma MissingNode(env: Env, s: EngineState, target: Id, head: Block)
    requires WellFormed(s.cache.blocks.vals) && target in s.cache.blocks.vals
    ensures CheckMissing(env, s, target, head).0.node == s.node
  {
  }

  lemma BootstrapNode(env: Env, s: EngineState, boot: Boot, online: nat, head: Block)
    requires WellFormed(s.cache.blocks.vals)
    ensures SameOrCatching(s.node, HandleBootstrap(env, s, boot, online, head).node)
  {
    ChaseNode(env, s.(boots := s.boots + [boot]), online, head);
  }

  lemma HeadCases(c: Config, n: NodeState, t: NodeState)
    requires SameOrCatching(n, t)
    ensures t == if n.phase != Phase.CatchingUp && t.phase == Phase.CatchingUp
                 then NodeRun(c, n, [Interrupted(Phase.CatchingUp)]) else n
  {
    RunOne(c, n, Interrupted(Phase.CatchingUp));
  }

  lemma FeltHeadRun(env: Env, s: EngineState, boot: Boot, head: Block, online: nat)
    requires WellFormed(s.cache.blocks.vals)
    ensures HandleBootstrap(env, s, boot, online, head).node
         == NodeRun(env.cfg, s.node, FeltHead(env, s, boot, head, online))
  {
    BootstrapNode(env, s, boot, online, head);
    HeadCases(env.cfg, s.node, HandleBootstrap(env, s, boot, online, head).node);
  }

  lemma FeltAnswer(env: Env, s: EngineState, signer: Key, boot: Boot, head: Block, online: nat)
    requires WellFormed(s.cache.blocks.vals) && signer in env.cfg.peerKeys && signer in s.node.peers
    ensures FeltPeer(env, s, signer, BootstrapMsg(boot, head), online)
         == [Heard(signer)] + FeltHead(env, s.(node := Seen(s.node, signer)), boot, head, online)
  {
  }

  lemma FeltBootstrap(env: Env, s: EngineState, signer: Key, boot: Boot, head: Block, online: nat)
    requires WellFormed(s.cache.blocks.vals) && signer in env.cfg.peerKeys && signer in s.node.peers
    ensures var m := BootstrapMsg(boot, head);
      HandlePeerStep(env, s, signer, m, online).node == NodeRun(env.cfg, s.node, FeltPeer(env, s, signer, m, online))
  {
    BootstrapStep(env, s, signer, boot, head, online);
    FeltAnswer(env, s, signer, boot, head, online);
    HeardThenHead(env, s, signer, s.(node := Seen(s.node, signer)), boot, head, online);
  }

  lemma HeardThenHead(env: Env, s: EngineState, signer: Key, t: EngineState, boot: Boot, head: Block, online: nat)
    requires WellFormed(t.cache.blocks.vals) && t.node == Seen(s.node, signer)
    ensures HandleBootstrap(env, t, boot, online, head).node
         == NodeRun(env.cfg, s.node, [Heard(signer)] + FeltHead(env, t, boot, head, online))
  {
    FeltHeadRun(env, t, boot, head, online);
    RunOne(env.cfg, s.node, Heard(signer));
    HeardStep(env.cfg, s.node, signer);
    NodeRunAppend(env.cfg, s.node, [Heard(signer)], FeltHead(env, t, boot, head, online));
  }

  lemma FeltRequest(env: Env, s: EngineState, signer: Key, m: PeerMsg, online: nat)
    requires WellFormed(s.cache.blocks.vals)
    requires signer in env.cfg.peerKeys && signer in s.node.peers && m.BootstrapRequestMsg?
    ensures HandlePeerStep(env, s, signer, m, online).node
         == NodeRun(env.cfg, s.node, FeltPeer(env, s, signer, m, online))
  {
    FeltNoMore(env, s, signer);
  }

  lemma FeltMessage(env: Env, s: EngineState, e: EngineEvent)
    requires EngineInv(env, s) && !s.stuck && e.FromPeer?
    ensures EngineStep(env, s, e).node == NodeRun(env.cfg, s.node, Felt(env, s, e))
  {
    PartWellFormed(s.cache.blocks.vals, env.store);
    if e.signer in env.cfg.peerKeys && e.signer in s.node.peers {
      match e.msg
      case VoteMsg(_, _, _) => FeltBallot(env, s, e.signer, e.msg, e.online);
      case VoteResultMsg(_, _) => FeltResult(env, s, e.signer, e.msg, e.online);
      case EmptySlotMsg => FeltEmptySlot(env, s, e.signer, e.msg, e.online);
      case BootstrapRequestMsg(_) => FeltRequest(env, s, e.signer, e.msg, e.online);
      case BootstrapMsg(boot, head) => FeltBootstrap(env, s, e.signer, boot, head, e.online);
    }
  }

  lemma FeltLocal(env: Env, s: EngineState, e: EngineEvent)
    requires EngineInv(env, s) && !s.stuck && !e.BlockNew? && !e.FromPeer? && !e.BlockCommitted?
    ensures EngineStep(env, s, e).node == NodeRun(env.cfg, s.node, Felt(env, s, e))
  {
    match e
    case BlockValid(id) => assert ValidBlock(env, s, id).node == s.node;
    case BlockInvalid(id) => FeltInvalid(env, s, id);
    case SlotMissed => FeltMissed(env, s);
    case OwnSlotEmpty => FeltEmpty(env, s);
    case OwnVote(ballot, online) => FeltOwnVote(env, s, ballot, online);
    case ResultTimer(sent) => FeltTimer(env, s, sent);
    case OwnBlockFinalized =>
  }

  lemma FeltEmpty(env: Env, s: EngineState)
    ensures LocalStep(env, s, OwnSlotEmpty).node == NodeRun(env.cfg, s.node, [SlotPassed(s.pre)])
  {
    RunOne(env.cfg, s.node, SlotPassed(s.pre));
  }

  lemma FeltOwnVote(env: Env, s: EngineState, ballot: Ballot, online: nat)
    ensures LocalStep(env, s, OwnVote(ballot, online)).node == NodeRun(env.cfg, s.node, [MayVote(ballot, online)])
  {
    RunOne(env.cfg, s.node, MayVote(ballot, online));
  }

  lemma FeltTimer(env: Env, s: EngineState, sent: Option<Result>)
    ensures LocalStep(env, s, ResultTimer(sent)).node == NodeRun(env.cfg, s.node, [TimerFired(sent)])
  {
    RunOne(env.cfg, s.node, TimerFired(sent));
  }

  lemma FeltInvalid(env: Env, s: EngineState, id: Id)
    requires EngineInv(env, s) && !s.stuck
    ensures InvalidBlock(env, s, id).0.node == NodeRun(env.cfg, s.node, Felt(env, s, BlockInvalid(id)))
  {
    if Lookup(env, s, id).Some? {
      FeltFailure(env, s, Lookup(env, s, id).value.signer);
    }
  }

  lemma FeltMissed(env: Env, s: EngineState)
    requires EngineInv(env, s) && !s.stuck
    ensures MissedSlot(env, s).node == NodeRun(env.cfg, s.node, Felt(env, s, SlotMissed))
  {
    if s.ExpectedSigner().Some? {
      var k := s.ExpectedSigner().value;
      FeltFailure(env, s, k);
      MissedAndFelt(env, s, k);
    }
  }

  lemma MissedAndFelt(env: Env, s: EngineState, k: Key)
    requires EngineInv(env, s) && !s.stuck && s.ExpectedSigner() == Some(k)
    ensures MissedSlot(env, s) == LoseSlot(env, s, k).0
    ensures Felt(env, s, SlotMissed) == Failure(env.cfg, s.node, k, s.pre)
  {
  }

  lemma FeltStuck(env: Env, s: EngineState, e: EngineEvent)
    requires EngineInv(env, s) && s.stuck
    ensures EngineStep(env, s, e).node == NodeRun(env.cfg, s.node, Felt(env, s, e))
  {
    if e.ResultTimer? {
      FeltTimer(env, s, e.sent);
    }
  }

  /** An engine step is a sequence of node events. */
  lemma StepRefines(env: Env, s: EngineState, e: EngineEvent)
    requires EngineInv(env, s)
    ensures EngineStep(env, s, e).node == NodeRun(env.cfg, s.node, Felt(env, s, e))
  {
    if s.stuck {
      FeltStuck(env, s, e);
    } else if e.BlockNew? {
      FeltNewBlock(env, s, e);
    } else if e.FromPeer? {
      FeltMessage(env, s, e);
    } else if e.BlockCommitted? {
      FeltCommit(env, s, e.id);
    } else {
      FeltLocal(env, s, e);
    }
  }

  /** Everything the node experiences in an engine run. */
  ghost function FeltRun(env: Env, s: EngineState, es: seq<EngineEvent>): seq<NodeEvent>
    requires EngineInv(env, s)
  {
    if es == [] then []
    else FeltRun(env, s, es[..|es|-1]) + Felt(env, EngineRun(env, s, es[..|es|-1]), es[|es|-1])
  }

  /** The node inside the engine is a run of the node on its own. */
  lemma {:induction false} EngineRefinesNode(env: Env, s: EngineState, es: seq<EngineEvent>)
    requires EngineInv(env, s)
    ensures EngineRun(env, s, es).node == NodeRun(env.cfg, s.node, FeltRun(env, s, es))
  {
    if es != [] {
      var n := |es| - 1;
      var t := EngineRun(env, s, es[..n]);
      EngineRefinesNode(env, s, es[..n]);
      StepRefines(env, t, es[n]);
      NodeRunAppend(env.cfg, s.node, FeltRun(env, s, es[..n]), Felt(env, t, es[n]));
    }
  }

  // ---- members that run the engine

  /** A node that is not started on the genesis block waits for its peers first. */
  function FeltStart(genesis: bool): seq<NodeEvent> {
    if genesis then [] else [Interrupted(WaitingForBootstrap)]
  }

  /** A member that runs the engine: the chain head it is started on, whether that is the genesis block,
      and everything that happens to it. */
  datatype EngineMember = EngineMember(env: Env, head: Block, genesis: bool, events: seq<EngineEvent>) {
    ghost predicate Startable() {
      EngineInv(env, Launched(env, head, genesis))
    }

    /** The engine after n events. */
    ghost function After(n: nat): (s: EngineState)
      requires Startable() && n <= |events|
      ensures EngineInv(env, s)
    {
      EngineRun(env, Launched(env, head, genesis), events[..n])
    }

    /** What the node inside experiences in the first n events. */
    ghost function FeltBy(n: nat): seq<NodeEvent>
      requires Startable() && n <= |events|
    {
      FeltStart(genesis) + FeltRun(env, Launched(env, head, genesis), events[..n])
    }

    ghost function Inside(): Member
      requires Startable()
    {
      Member(env.cfg, FeltBy(|events|))
    }
  }

  lemma LaunchedFelt(env: Env, head: Block, genesis: bool)
    ensures Launched(env, head, genesis).node == From(env.cfg, FeltStart(genesis))
  {
    RunOne(env.cfg, InitialState(env.cfg), Interrupted(WaitingForBootstrap));
  }

  /** At every moment the engine's node is where its own events lead. */
  lemma NodeAfter(m: EngineMember, n: nat)
    requires m.Startable() && n <= |m.events|
    ensures m.After(n).node == From(m.env.cfg, m.FeltBy(n))
  {
    var start := Launched(m.env, m.head, m.genesis);
    LaunchedFelt(m.env, m.head, m.genesis);
    EngineRefinesNode(m.env, start, m.events[..n]);
    NodeRunAppend(m.env.cfg, InitialState(m.env.cfg), FeltStart(m.genesis), FeltRun(m.env, start, m.events[..n]));
  }

  lemma FeltRunNext(env: Env, s: EngineState, es: seq<EngineEvent>, n: nat)
    requires EngineInv(env, s) && n < |es|
    ensures FeltRun(env, s, es[..n+1]) == FeltRun(env, s, es[..n]) + Felt(env, EngineRun(env, s, es[..n]), es[n])
  {
    assert es[..n+1][..n] == es[..n];
  }

  lemma FeltNext(m: EngineMember, n: nat)
    requires m.Startable() && n < |m.events|
    ensures m.FeltBy(n + 1) == m.FeltBy(n) + Felt(m.env, m.After(n), m.events[n])
  {
    var start := Launched(m.env, m.head, m.genesis);
    FeltRunNext(m.env, start, m.events, n);
    AppendTwice(FeltStart(m.genesis), FeltRun(m.env, start, m.events[..n]),
                Felt(m.env, m.After(n), m.events[n]));
  }

  lemma AppendTwice<T>(a: seq<T>, b: seq<T>, c: seq<T>)
    ensures a + (b + c) == a + b + c
  {
  }

  lemma FeltGrows(m: EngineMember, n: nat)
    requires m.Startable() && n < |m.events|
    ensures m.FeltBy(n) <= m.FeltBy(n + 1)
  {
    FeltNext(m, n);
  }

  lemma {:induction false} FeltPrefix(m: EngineMember, n: nat, k: nat)
    requires m.Startable() && n <= k <= |m.events|
    ensures m.FeltBy(n) <= m.FeltBy(k)
  {
    if n < k {
      var j := k - 1;
      FeltPrefix(m, n, j);
      FeltGrows(m, j);
      assert j + 1 == k;
    }
  }

  lemma FeltMoment(m: EngineMember, n: nat) returns (es: seq<NodeEvent>, all: Member)
    requires m.Startable() && n <= |m.events|
    ensures all == m.Inside() && es == m.FeltBy(n)
    ensures es <= all.events && From(all.cfg, es) == m.After(n).node
  {
    es, all := m.FeltBy(n), m.Inside();
    FeltPrefix(m, n, |m.events|);
    NodeAfter(m, n);
  }

  /** Every state of the engine's node is one of the moments of the node's own run. */
  lemma Moment(m: EngineMember, n: nat) returns (x: nat)
    requires m.Startable() && n <= |m.events|
    ensures x <= |m.Inside().events| && From(m.Inside().cfg, m.Inside().events[..x]) == m.After(n).node
  {
    var es, all := FeltMoment(m, n);
    x := |es|;
    assert all.events[..x] == es;
  }

  // ---- agreement between engines

  type EngineNet = map<Key, EngineMember>

  ghost predicate AllStartable(net: EngineNet) {
    forall k :: k in net ==> net[k].Startable()
  }

  /** What the nodes inside the engines experience. */
  ghost function FeltNet(net: EngineNet): Net
    requires AllStartable(net)
  {
    map k | k in net :: net[k].Inside()
  }

  /** The last event of the run begins epoch e with this list. */
  ghost predicate EndsSeating(c: Config, es: seq<NodeEvent>, e: nat, list: Result) {
    es != [] && SeatedAt(c, es, |es| - 1, e, list)
  }

  lemma EndSeats(c: Config, es: seq<NodeEvent>, e: nat, list: Result) returns (slots: nat)
    requires EndsSeating(c, es, e, list)
    ensures From(c, es).epoch == Seat(NewEpoch(e, slots), list)
  {
    var n := |es| - 1;
    slots := From(c, es[..n]).numSlots;
    var j := SeatedWasDecided(c, es, n, e, list);
    assert n + 1 == |es| && es[..|es|] == es;
  }

  lemma EndStays(c: Config, es: seq<NodeEvent>, all: seq<NodeEvent>, e: nat, list: Result) returns (x: nat)
    requires es <= all && EndsSeating(c, es, e, list)
    ensures SeatedAt(c, all, x, e, list)
  {
    x := |es| - 1;
    assert all[..|es|] == es;
    SeatedLater(c, all, |es|, x, e, list);
  }

  /** Handling the i-th event, the engine begins epoch e with this list from its own books: that is the
      last thing its node experiences then. */
  ghost predicate EngineSeats(m: EngineMember, i: nat, e: nat, list: Result)
    requires m.Startable()
  {
    && i < |m.events| && |m.FeltBy(i)| < |m.FeltBy(i + 1)|
    && EndsSeating(m.env.cfg, m.FeltBy(i + 1), e, list)
  }

  lemma SeatsFelt(m: EngineMember, i: nat, e: nat, list: Result) returns (es: seq<NodeEvent>)
    requires m.Startable() && EngineSeats(m, i, e, list)
    ensures EndsSeating(m.env.cfg, es, e, list)
    ensures es <= m.Inside().events && m.After(i + 1).node == From(m.env.cfg, es)
  {
    es := m.FeltBy(i + 1);
    FeltPrefix(m, i + 1, |m.events|);
    NodeAfter(m, i + 1);
  }

  /** Then the engine stands in that epoch. */
  lemma EngineStands(m: EngineMember, i: nat, e: nat, list: Result) returns (slots: nat)
    requires m.Startable() && EngineSeats(m, i, e, list)
    ensures m.After(i + 1).node.epoch == Seat(NewEpoch(e, slots), list)
  {
    var es := SeatsFelt(m, i, e, list);
    slots := EndSeats(m.env.cfg, es, e, list);
  }

  lemma SeatsInside(m: EngineMember, i: nat, e: nat, list: Result) returns (x: nat)
    requires m.Startable() && EngineSeats(m, i, e, list)
    ensures SeatedAt(m.Inside().cfg, m.Inside().events, x, e, list)
  {
    var es := SeatsFelt(m, i, e, list);
    x := EndStays(m.env.cfg, es, m.Inside().events, e, list);
  }

  /** If agreement about e is assured, then any two engines that begin e from their own books seat the same
      list, whether they ever caught up or not, and however they were started. */
  lemma EnginesAgree(net: EngineNet, members: set<Key>, e: nat, k1: Key, i1: nat, list1: Result,
                     k2: Key, i2: nat, list2: Result)
    requires AllStartable(net) && Assured(FeltNet(net), members, e, k1, k2)
    requires EngineSeats(net[k1], i1, e, list1) && EngineSeats(net[k2], i2, e, list2)
    ensures list1 == list2
  {
    var x1 := SeatsInside(net[k1], i1, e, list1);
    var x2 := SeatsInside(net[k2], i2, e, list2);
    MemberSeatsAgree(FeltNet(net), members, e, k1, x1, list1, k2, x2, list2);
  }

  /** Engines that reach e without resuming from anybody's payload did begin it from their own books. */
  lemma EnginesReachAlike(net: EngineNet, members: set<Key>, e: nat, k1: Key, n1: nat, k2: Key, n2: nat)
      returns (x1: nat, x2: nat, list: Result)
    requires AllStartable(net) && Assured(FeltNet(net), members, e, k1, k2)
    requires HasReached(net[k1], n1, e) && HasReached(net[k2], n2, e)
    ensures SeatedAt(net[k1].Inside().cfg, net[k1].Inside().events, x1, e, list)
    ensures SeatedAt(net[k2].Inside().cfg, net[k2].Inside().events, x2, e, list)
  {
    var list2;
    x1, list := ReachedSeats(net[k1], n1, e);
    x2, list2 := ReachedSeats(net[k2], n2, e);
    MemberSeatsAgree(FeltNet(net), members, e, k1, x1, list, k2, x2, list2);
  }

  /** After n events the engine has reached epoch e, and never resumed from a payload. */
  ghost predicate HasReached(m: EngineMember, n: nat, e: nat)
    requires m.Startable()
  {
    n <= |m.events| && NeverBootstrapped(m.FeltBy(n)) && 1 <= e <= m.After(n).node.epoch.number
  }

  lemma ReachedSeats(m: EngineMember, n: nat, e: nat) returns (x: nat, list: Result)
    requires m.Startable() && HasReached(m, n, e)
    ensures SeatedAt(m.Inside().cfg, m.Inside().events, x, e, list)
  {
    var es, all := FeltMoment(m, n);
    x, list := SeatedOnTheWay(all.cfg, es, all.events, e);
  }

  lemma SeatedOnTheWay(c: Config, es: seq<NodeEvent>, all: seq<NodeEvent>, e: nat) returns (x: nat, list: Result)
    requires es <= all && NeverBootstrapped(es) && 1 <= e <= From(c, es).epoch.number
    ensures SeatedAt(c, all, x, e, list)
  {
    EveryEpochWasSeated(c, es, e);
    x, list :| SeatedAt(c, es, x, e, list);
    assert all[..|es|] == es;
    SeatedLater(c, all, |es|, x, e, list);
  }
}
