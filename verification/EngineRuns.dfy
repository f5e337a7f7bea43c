/** Runs of the engine: the validation counter, and what may be committed. */
module EngineRuns {
  import opened Types
  import opened Digest
  import opened VotingSystem
  import opened Epoch
  import opened Node
  import opened BlockCache
  import opened Chains
  import opened Engine

  ghost function EngineRun(env: Env, s: EngineState, es: seq<EngineEvent>): (t: EngineState)
    requires EngineInv(env, s)
    ensures EngineInv(env, t)
  {
    if es == [] then s else EngineStep(env, EngineRun(env, s, es[..|es|-1]), es[|es|-1])
  }

  lemma RunSnoc(env: Env, s: EngineState, es: seq<EngineEvent>, e: EngineEvent)
    requires EngineInv(env, s)
    ensures EngineRun(env, s, es + [e]) == EngineStep(env, EngineRun(env, s, es), e)
  {
    assert (es + [e])[..|es|] == es;
  }

  /** The verdicts that the handlers of a run counted. */
  ghost function Verdicts(env: Env, s: EngineState, es: seq<EngineEvent>): nat
    requires EngineInv(env, s)
  {
    if es == [] then 0
    else Verdicts(env, s, es[..|es|-1]) + Counted(env, EngineRun(env, s, es[..|es|-1]), es[|es|-1])
  }

  /** After every handler of every run, the counter of blocks under validation is the number of
      blocks sent for checking minus the number of verdicts counted. */
  lemma {:induction false} ValidationLedger(env: Env, s: EngineState, es: seq<EngineEvent>)
    requires EngineInv(env, s)
    ensures EngineRun(env, s, es).waitingValidation - s.waitingValidation
         == Requested(EngineRun(env, s, es).log) - Requested(s.log) - Verdicts(env, s, es)
  {
    if es != [] {
      ValidationLedger(env, s, es[..|es|-1]);
    }
  }

  /** In this slot the epoch ends and its successor is ready, but it has no candidate list, or an
      expired epoch has no candidates or no ballots to delete. */
  predicate EpochChangeRaises(s: NodeState, hash: Hash, blockId: Id) {
    var e := Increment(s.epoch, hash, blockId);
    var v := s.voting;
    && e.witnesses != [] && e.IsOver() && s.NextEpoch() in s.ready
    && (|| s.NextEpoch() !in v.candidates
        || exists x :: x in Expired(v.results) && (x !in v.candidates || x !in v.ballots))
  }

  /** A verdict that reaches a running engine is counted exactly when its block is known and is valid,
      or else its signer is a peer, not a witness without a replacement, and the slot it costs does not
      raise while changing the epoch. */
  lemma VerdictCountedIff(env: Env, s: EngineState, e: EngineEvent)
    requires EngineInv(env, s) && !s.stuck && (e.BlockValid? || e.BlockInvalid?)
    ensures Counted(env, s, e) == 1 <==>
      && e.id in env.store
      && var k := env.store[e.id].signer;
         e.BlockValid?
         || (&& !Stranger(env.cfg, s.node, k) && !Hangs(s.node.epoch, k)
             && !EpochChangeRaises(DowngradeWitness(Penalize(env.cfg, s.node, k), k), env.cfg.hash, s.pre))
  {
    if e.id in env.store {
      RejectionCounted(env, s, env.store[e.id].signer);
      assert Lookup(env, s, e.id) == Some(env.store[e.id]);
    }
  }

  lemma RejectionCounted(env: Env, s: EngineState, k: Key)
    ensures Rejected(env, s, k).1 <==>
      && !Stranger(env.cfg, s.node, k) && !Hangs(s.node.epoch, k)
      && !EpochChangeRaises(DowngradeWitness(Penalize(env.cfg, s.node, k), k), env.cfg.hash, s.pre)
  {
    NextSlotRaises(DowngradeWitness(Penalize(env.cfg, s.node, k), k), env.cfg.hash, s.pre);
  }

  lemma NextSlotRaises(n: NodeState, hash: Hash, blockId: Id)
    ensures NextSlot(n, hash, blockId).1 <==> !EpochChangeRaises(n, hash, blockId)
  {
    RemoveOldSucceeds(n.voting);
  }

  /** The one place where the engine asks for a commit, and what it makes sure of: the block extends
      the committed head, and outside a catch-up it has the next number and the expected signer. */
  lemma CommitRequests(env: Env, s: EngineState, e: EngineEvent)
    requires EngineInv(env, s)
    ensures var t := EngineStep(env, s, e);
      Commits(t.log) == Commits(s.log) ||
      (&& e.BlockValid? && e.id in env.store && Commits(t.log) == Commits(s.log) + [e.id]
       && env.store[e.id].prev == s.pre
       && (s.CatchingUp()
           || (env.store[e.id].num == s.preNum + 1 && Some(env.store[e.id].signer) == s.ExpectedSigner())))
  {
  }

  /** During a catch-up a valid block is committed exactly when it extends the committed head, whoever signed
      it and whatever its number; any other is failed. */
  lemma CatchUpVerdict(env: Env, s: EngineState, id: Id)
    requires EngineInv(env, s) && !s.stuck && s.CatchingUp() && id in env.store
    ensures var t := EngineStep(env, s, BlockValid(id));
      && (Commits(t.log) == Commits(s.log) + [id] <==> env.store[id].prev == s.pre)
      && t.log == s.log + [if env.store[id].prev == s.pre then CommitBlock(id) else FailBlock(id)]
      && t.pre == s.pre && t.preNum == s.preNum && t.node == s.node && t.target == s.target
  {
    assert ValidBlock(env, s, id) == Judge(VerdictIn(s), id, env.store[id]);
    assert Commits(s.log) != Commits(s.log) + [id];
  }

  /** A member's timely new block that extends the committed head in the expected witness's slot. */
  predicate NextInLine(s: EngineState, b: Block) {
    b.prev == s.pre && b.num == s.preNum + 1 && Some(b.signer) == s.ExpectedSigner()
  }

  /** A new block met on the way to the target of a catch-up. */
  ghost predicate OnTheWay(s: EngineState, b: Block)
    requires WellFormed(Append(s.cache, b).0.blocks.vals)
  {
    s.CatchingUp() && s.target.Some? && s.target.value.id in Walk(Append(s.cache, b).0.blocks.vals, b.id)
  }

  /** A running engine sends a new block for checking exactly when its sender is a member and a peer,
      it is not from the future, and it is next in line or on the way to the target; if it is both, it is sent twice. */
  lemma NewBlockRequests(env: Env, s: EngineState, b: Block, early: bool, rested: bool)
    requires EngineInv(env, s) && Acceptable(env, s, BlockNew(b, early, rested))
    ensures WellFormed(Append(s.cache, b).0.blocks.vals)
    ensures Requested(EngineStep(env, s, BlockNew(b, early, rested)).log) - Requested(s.log) ==
      if s.stuck || b.signer !in env.cfg.peerKeys || early || b.signer !in s.node.peers then 0
      else (if NextInLine(s, b) then 1 else 0) + (if OnTheWay(s, b) then 1 else 0)
  {
    AppendPart(env.store, s.cache, b);
    AppendConsistent(s.cache, b);
    NewBlockCounts(env, s, b, early, rested);
  }

  lemma NewBlockCounts(env: Env, s: EngineState, b: Block, early: bool, rested: bool)
    requires WellFormed(Append(s.cache, b).0.blocks.vals) && Append(s.cache, b).1
    ensures NewBlock(env, s, b, early, rested).waitingValidation - s.waitingValidation ==
      if b.signer !in env.cfg.peerKeys || early || b.signer !in s.node.peers then 0
      else (if NextInLine(s, b) then 1 else 0) + (if OnTheWay(s, b) then 1 else 0)
  {
    if b.signer in env.cfg.peerKeys && !early && b.signer in s.node.peers {
      TimelyCounts(env, s, b, rested);
    }
  }

  lemma TimelyCounts(env: Env, s: EngineState, b: Block, rested: bool)
    requires WellFormed(Append(s.cache, b).0.blocks.vals)
    ensures var t := Remember(s.(node := Seen(s.node, b.signer)), b);
      React(ConsiderNext(env, t, b), b, rested).waitingValidation - s.waitingValidation
      == (if NextInLine(s, b) then 1 else 0) + (if OnTheWay(s, b) then 1 else 0)
  {
    var t := Remember(s.(node := Seen(s.node, b.signer)), b);
    ReactRequests(ConsiderNext(env, t, b), b, rested);
    ConsiderRequests(env, t, b);
    assert t.ExpectedSigner() == s.ExpectedSigner();
  }

  lemma ConsiderRequests(env: Env, s: EngineState, b: Block)
    ensures ConsiderNext(env, s, b).waitingValidation - s.waitingValidation == if NextInLine(s, b) then 1 else 0
    ensures ConsiderNext(env, s, b).target == s.target
  {
  }

  lemma ReactRequests(s: EngineState, b: Block, rested: bool)
    requires WellFormed(s.cache.blocks.vals)
    ensures React(s, b, rested).waitingValidation - s.waitingValidation ==
      if s.CatchingUp() && s.target.Some? && s.target.value.id in Walk(s.cache.blocks.vals, b.id) then 1 else 0
  {
  }
}
