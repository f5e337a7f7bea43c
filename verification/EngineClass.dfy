/** The engine object. Every handler is proved to do what the step function of module Engine says. */
module EngineClass {
  import opened Types
  import opened VotingSystem
  import opened EpochRuns
  import opened Node
  import opened BlockCache
  import opened BootstrapTally
  import opened Engine

  class DDPoAEngine {
    const node: DDPoANode
    const blockCache: BlockCache
    const store: Blocks
    var preCommittedId: Id
    var preCommittedNum: nat
    var waitingForOwnBlock: bool
    var waitingForCommit: int
    var waitingForValidation: int
    var bootstrapMessages: seq<Boot>
    var bootstrapCache: Blocks
    var fastforwardTarget: Option<Target>
    var hasRequestedBootstrap: bool
    var stuck: bool
    var calls: seq<Call>

    function Environment(): Env {
      Env(node.Cfg(), store)
    }

    function State(): EngineState
      reads this, node, node.epoch, node.voting, blockCache
    {
      EngineState(node.State(), blockCache.State(), preCommittedId, preCommittedNum, waitingForOwnBlock,
                  waitingForCommit, waitingForValidation, bootstrapMessages, bootstrapCache, fastforwardTarget,
                  hasRequestedBootstrap, stuck, calls)
    }

    ghost predicate Valid()
      reads this, node, node.epoch, node.voting, blockCache
    {
      node.Valid() && EngineInv(Environment(), State())
    }

    constructor (node: DDPoANode, store: Blocks, chainHead: Block, genesis: bool)
      requires node.Valid() && WellFormed(store) && chainHead.id in store && store[chainHead.id] == chainHead
      modifies node
      ensures Valid() && this.node == node && fresh(blockCache) && node.epoch == old(node.epoch)
      ensures State() == Started(old(node.State()), chainHead, genesis)
    {
      this.node, this.store := node, store;
      blockCache := new BlockCache();
      preCommittedId, preCommittedNum := chainHead.id, chainHead.num;
      waitingForOwnBlock, waitingForCommit, waitingForValidation := false, 0, 0;
      bootstrapMessages, bootstrapCache, fastforwardTarget := [], map[], None;
      hasRequestedBootstrap, stuck, calls := false, false, [];
      new;
      if !genesis {
        node.state := WaitingForBootstrap;
      }
      var ignored, ok := blockCache.AppendBlock(chainHead);
      StartedInv(Environment(), old(node.State()), chainHead, genesis);
      assert State() == Started(old(node.State()), chainHead, genesis);
    }

    method Tell(c: Call)
      modifies this`calls
      ensures State() == Ask(old(State()), c)
    {
      calls := calls + [c];
    }

    method RequestCheck(ids: seq<Id>)
      modifies this`calls, this`waitingForValidation
      ensures State() == AskCheck(old(State()), ids)
    {
      waitingForValidation := waitingForValidation + |ids|;
      calls := calls + [CheckBlocks(ids)];
    }

    method NextSlotBegins() returns (ok: bool)
      requires node.Valid()
      modifies this`calls, node, node.epoch, node.voting
      ensures node.Valid() && (fresh(node.epoch) || node.epoch == old(node.epoch))
      ensures (State(), ok) == AdvanceSlot(Environment(), old(State()))
    {
      ok := node.AdvanceSlot(preCommittedId);
      if ok {
        Tell(CancelBlock);
        if node.epoch.State().CurrentWitness() == Some(node.key) {
          Tell(InitializeBlock);
        }
      }
    }

    method WitnessFails(k: Key) returns (ok: bool)
      requires node.Valid()
      modifies this`calls, this`stuck, node, node.epoch, node.voting
      ensures node.Valid() && (fresh(node.epoch) || node.epoch == old(node.epoch))
      ensures (State(), ok) == LoseSlot(Environment(), old(State()), k)
    {
      ok := node.PenalizePeer(k);
      if ok {
        ok := SlotIsLost(k);
      }
    }

    method SlotIsLost(k: Key) returns (ok: bool)
      requires node.Valid()
      modifies this`calls, this`stuck, node, node.epoch, node.voting
      ensures node.Valid() && (fresh(node.epoch) || node.epoch == old(node.epoch))
      ensures (State(), ok) == DemoteAndAdvance(Environment(), old(State()), k)
    {
      ok := node.DowngradePeer(k);
      if ok {
        ok := NextSlotBegins();
      } else {
        stuck := true;
      }
    }

    /** `handle_missed_slot`; without an expected signer the lookup of the peer raises. */
    method HandleMissedSlot()
      requires node.Valid()
      modifies this`calls, this`stuck, node, node.epoch, node.voting
      ensures node.Valid() && (fresh(node.epoch) || node.epoch == old(node.epoch))
      ensures State() == MissedSlot(Environment(), old(State()))
    {
      var expected := node.epoch.State().CurrentWitness();
      if expected.Some? {
        var ok := WitnessFails(expected.value);
      }
    }

    /** `common_and_forked_block`. */
    method CommonAndForkedBlock(head: Block, chain: seq<Id>) returns (r: Fork)
      ensures r == CommonAndForked(store, head, chain, 10)
    {
      var curBlock := head;
      var tries := 10;
      while tries > 0
        invariant 0 <= tries <= 10
        invariant CommonAndForked(store, head, chain, 10) == CommonAndForked(store, curBlock, chain, tries)
      {
        var preId := curBlock.prev;
        if preId in chain {
          return ForkAt(preId, curBlock.id);
        }
        if preId !in store {
          return UnknownBlock;
        }
        curBlock := store[preId];
        tries := tries - 1;
      }
      return NoFork;
    }

    /** `fastforward`. */
    method FastforwardTo(targetId: Id, targetNum: int, head: Block) returns (ok: bool)
      requires WellFormed(blockCache.cache.vals)
      modifies this, node`state
      ensures (State(), ok) == Fastforward(Environment(), old(State()), targetId, targetNum, head)
    {
      ok := true;
      if targetId == preCommittedId {
        hasRequestedBootstrap := false;
        bootstrapMessages := [];
        return;
      }
      if node.state != Phase.CatchingUp {
        node.state := Phase.CatchingUp;
        fastforwardTarget := Some(Target(targetId, targetNum));
        if blockCache.BlockFromId(targetId).Some? {
          ok := RequestMissing(targetId, head);
        }
      }
    }

    /** The requests of `fastforward` for a cached target. */
    method RequestMissing(targetId: Id, head: Block) returns (ok: bool)
      requires WellFormed(blockCache.cache.vals) && targetId in blockCache.cache.vals && targetId != preCommittedId
      modifies this`calls, this`waitingForValidation
      ensures (State(), ok) == CheckMissing(Environment(), old(State()), targetId, head)
    {
      ok := true;
      var straight := blockCache.Traversable(targetId, preCommittedId);
      if straight {
        var path := blockCache.BlockPath(targetId, preCommittedId);
        if path.Some? {
          RequestCheck(path.value);
        }
      } else {
        var chain := blockCache.LongestChainFrom(targetId);
        var fork := CommonAndForkedBlock(head, chain.value);
        ForkInChain(store, head, chain.value, 10);
        ok := RequestFork(chain.value, fork);
      }
    }

    method RequestFork(chain: seq<Id>, fork: Fork) returns (ok: bool)
      requires fork.ForkAt? ==> fork.common in chain
      modifies this`calls, this`waitingForValidation
      ensures (State(), ok) == CheckFork(old(State()), chain, fork)
    {
      ok := true;
      match fork
      case NoFork =>
      case UnknownBlock => ok := false;
      case ForkAt(common, forked) =>
        Tell(FailBlock(forked));
        RequestCheck(ForkBlocks(chain, common, preCommittedId));
    }

    method HandleValidBlock(id: Id)
      modifies this`calls, this`waitingForValidation, this`waitingForCommit
      ensures State() == ValidBlock(Environment(), old(State()), id)
    {
      if id in store {
        CountVerdict();
        JudgeBlock(id, store[id]);
      }
    }

    method JudgeBlock(id: Id, block: Block)
      modifies this`calls, this`waitingForCommit
      ensures State() == Judge(old(State()), id, block)
    {
      if node.state == Phase.CatchingUp && block.prev == preCommittedId {
        Tell(CommitBlock(id));
        return;
      }
      var correctSigner := node.epoch.State().CurrentWitness() == Some(block.signer);
      var correctId := block.prev == preCommittedId;
      var correctNum := block.num == preCommittedNum + 1;
      if correctSigner && correctId && correctNum {
        waitingForCommit := waitingForCommit + 1;
        Tell(CommitBlock(id));
      } else {
        Tell(FailBlock(id));
      }
    }

    function Find(id: Id): Option<Block>
      reads blockCache
    {
      if blockCache.BlockFromId(id).Some? then blockCache.BlockFromId(id)
      else if id in store then Some(store[id]) else None
    }

    /** `_handle_invalid_block`; false when the verdict is not counted. */
    method HandleInvalidBlock(id: Id) returns (ok: bool)
      requires node.Valid()
      modifies this`calls, this`stuck, this`waitingForValidation, node, node.epoch, node.voting
      ensures node.Valid() && (fresh(node.epoch) || node.epoch == old(node.epoch))
      ensures (State(), ok) == InvalidBlock(Environment(), old(State()), id)
    {
      var block := Find(id);
      if block.None? {
        return false;
      }
      ok := RejectBlock(block.value.signer);
    }

    method RejectBlock(k: Key) returns (ok: bool)
      requires node.Valid()
      modifies this`calls, this`stuck, this`waitingForValidation, node, node.epoch, node.voting
      ensures node.Valid() && (fresh(node.epoch) || node.epoch == old(node.epoch))
      ensures (State(), ok) == Rejected(Environment(), old(State()), k)
    {
      ok := WitnessFails(k);
      if ok {
        CountVerdict();
      }
    }

    method CountVerdict()
      modifies this`waitingForValidation
      ensures State() == VerdictIn(old(State()))
    {
      waitingForValidation := waitingForValidation - 1;
    }

    /** `_handle_committed_block`. */
    method HandleCommittedBlock(id: Id)
      requires node.Valid()
      modifies this, node, node.epoch, node.voting
      ensures node.Valid() && (fresh(node.epoch) || node.epoch == old(node.epoch))
      ensures State() == Committed(Environment(), old(State()), id)
    {
      var found := if id in bootstrapCache then Some(bootstrapCache[id]) else Find(id);
      if found.Some? {
        CommitFound(found.value);
      }
    }

    method CommitFound(block: Block)
      requires node.Valid()
      modifies this, node, node.epoch, node.voting
      ensures node.Valid() && (fresh(node.epoch) || node.epoch == old(node.epoch))
      ensures State() == CommitBlockFound(Environment(), old(State()), block)
    {
      var ok := CommitMoves(block);
      if ok {
        ResumeFrom(block);
        FollowUpCommit(block.num);
      }
    }

    /** False when rewarding the signer raises. */
    method CommitMoves(block: Block) returns (ok: bool)
      requires node.Valid()
      modifies this, node
      ensures node.Valid() && node.epoch == old(node.epoch)
      ensures (State(), ok) == MoveHead(Environment(), old(State()), block)
    {
      preCommittedId, preCommittedNum := block.id, block.num;
      ok := node.RewardPeer(block.signer);
      if ok {
        waitingForCommit := waitingForCommit - 1;
      }
    }

    method ResumeFrom(block: Block)
      requires node.Valid()
      modifies this, node
      ensures node.Valid() && (fresh(node.epoch) || node.epoch == old(node.epoch))
      ensures State() == Resume(old(State()), block)
    {
      if node.state == Phase.CatchingUp {
        if fastforwardTarget.Some? && block.num == fastforwardTarget.value.num {
          node.BootstrapFrom(block.payload);
          bootstrapMessages := [];
          hasRequestedBootstrap := false;
        }
      }
    }

    method FollowUpCommit(num: nat)
      requires node.Valid()
      modifies this, node, node.epoch, node.voting
      ensures node.Valid() && (fresh(node.epoch) || node.epoch == old(node.epoch))
      ensures State() == FollowUp(Environment(), old(State()), num)
    {
      ghost var r := AdvanceSlot(Environment(), State());
      var ok := NextSlotBegins();
      assert State() == r.0 && ok == r.1;
      if ok {
        CheckCachedSuccessor(num);
      }
    }

    method CheckCachedSuccessor(num: nat)
      modifies this`calls, this`waitingForValidation
      ensures State() == CheckSuccessor(old(State()), num)
    {
      var next := blockCache.BlockByNumAndSigner(num + 1, node.epoch.State().CurrentWitness());
      if next.Some? {
        RequestCheck([next.value.id]);
      }
    }

    /** `_handle_new_block`, for a block that may be cached already; a new one keeps the engine valid. */
    method HandleNewBlock(block: Block, early: bool, rested: bool)
      requires node.Valid() && WellFormed(store) && PartOf(blockCache.cache.vals, store)
      requires block.id in store && store[block.id] == block
      modifies this, node, blockCache
      ensures node.Valid() && node.epoch == old(node.epoch)
      ensures WellFormed(Append(old(blockCache.State()), block).0.blocks.vals)
      ensures State() == NewBlock(Environment(), old(State()), block, early, rested)
      ensures old(Valid() && block.id !in blockCache.cache.vals) ==> Valid()
    {
      AppendWellFormed(store, blockCache.State(), block);
      ghost var s, isNew := State(), Valid() && block.id !in blockCache.cache.vals;
      DispatchNewBlock(block, early, rested);
      if isNew {
        assert State() == NewBlockStep(Environment(), s, BlockNew(block, early, rested));
      }
    }

    method DispatchNewBlock(block: Block, early: bool, rested: bool)
      requires node.Valid() && WellFormed(Append(blockCache.State(), block).0.blocks.vals)
      modifies this, node, blockCache
      ensures node.Valid() && node.epoch == old(node.epoch)
      ensures State() == NewBlock(Environment(), old(State()), block, early, rested)
    {
      if block.signer !in node.peerKeys {
        Tell(FailBlock(block.id));
      } else if early {
        var ok := node.PenalizePeer(block.signer);
        if ok {
          Tell(FailBlock(block.id));
        }
      } else {
        var ok := node.SeePeer(block.signer);
        if ok {
          AcceptBlock(block, rested);
        }
      }
    }

    method AcceptBlock(block: Block, rested: bool)
      requires WellFormed(Append(blockCache.State(), block).0.blocks.vals)
      modifies this, blockCache
      ensures State() == Accept(Environment(), old(State()), block, rested)
    {
      var ok := RememberBlock(block);
      if ok {
        ConsiderBlock(block);
        ReactTo(block, rested);
      }
    }

    /** False when the cache fails to evict its oldest block. */
    method RememberBlock(block: Block) returns (ok: bool)
      modifies this`calls, blockCache
      ensures State() == Remember(old(State()), block) && ok == Append(old(blockCache.State()), block).1
    {
      var ignored;
      ignored, ok := blockCache.AppendBlock(block);
      if ignored.Some? {
        Tell(IgnoreBlock(ignored.value));
      }
    }

    method ConsiderBlock(block: Block)
      modifies this
      ensures State() == ConsiderNext(Environment(), old(State()), block)
    {
      if block.prev == preCommittedId && block.num == preCommittedNum + 1 {
        if node.epoch.State().CurrentWitness() == Some(block.signer) {
          if waitingForOwnBlock {
            waitingForOwnBlock := block.signer != node.key;
          }
          assert State() == old(State()).(waitingOwn := old(waitingForOwnBlock) && block.signer != node.key);
          RequestCheck([block.id]);
        }
      }
    }

    method ReactTo(block: Block, rested: bool)
      requires WellFormed(blockCache.cache.vals)
      modifies this
      ensures State() == React(old(State()), block, rested)
    {
      if node.state == WaitingForBootstrap {
        bootstrapCache := bootstrapCache[block.id := block];
        return;
      } else if node.state == Phase.CatchingUp && fastforwardTarget.Some? {
        var onTheWay := blockCache.Traversable(block.id, fastforwardTarget.value.id);
        if onTheWay {
          RequestCheck([block.id]);
          return;
        }
      }
      AskAboutGap(block, rested);
    }

    method AskAboutGap(block: Block, rested: bool)
      modifies this`calls, this`hasRequestedBootstrap
      ensures State() == SuspectGap(old(State()), block, rested)
    {
      if block.num > preCommittedNum + 1 && !State().Waiting() {
        if rested || !hasRequestedBootstrap {
          hasRequestedBootstrap := true;
          Tell(RequestBootstrap);
        }
      }
    }

    method ChaseBestHead(online: nat, head: Block) returns (ok: bool)
      requires WellFormed(blockCache.cache.vals) && bootstrapMessages != []
      modifies this, node`state
      ensures (State(), ok) == Chase(Environment(), old(State()), online, head)
    {
      ok := true;
      TalliedKeys(bootstrapMessages);
      var blocks := TallyMessages(bootstrapMessages);
      var consensusHead := Best(blocks.keys, blocks.vals);
      if blocks.vals[consensusHead].count >= ConsensusAmount(node.voting.numSlots, online) - 1 {
        ok := FastforwardTo(consensusHead, blocks.vals[consensusHead].num, head);
      }
    }

    /** The BOOTSTRAP branch of `_handle_peer_msgs`. */
    method HandleBootstrapMessage(boot: Boot, online: nat, head: Block)
      requires WellFormed(blockCache.cache.vals)
      modifies this, node`state
      ensures State() == HandleBootstrap(Environment(), old(State()), boot, online, head)
    {
      bootstrapMessages := bootstrapMessages + [boot];
      var ok := ChaseBestHead(online, head);
      if ok {
        CollectionDone(online);
      }
    }

    method CollectionDone(online: nat)
      modifies this
      ensures State() == Collected(old(State()), online)
    {
      if |bootstrapMessages| == online - 1 {
        bootstrapMessages := [];
        hasRequestedBootstrap := false;
      }
    }

    /** `_handle_peer_msgs` for a VOTE; the broadcast result, if any. */
    method HandleVoteMsg(signer: Key, e: nat, votes: Ballot, online: nat) returns (sent: Option<Result>)
      requires node.Valid() && signer in node.peers
      modifies node, node.voting
      ensures node.Valid() && node.epoch == old(node.epoch)
      ensures State() == HandlePeerStep(Environment(), old(State()), signer, VoteMsg(e, votes, sent), online)
      ensures SentOnVote(node.Cfg(), Seen(old(node.State()), signer), signer, e, votes, online, sent)
    {
      var ok := node.SeePeer(signer);
      sent := node.HandlePeerVote(signer, e, votes, online);
    }

    /** `_handle_peer_msgs` for a VOTE_RESULT. */
    method HandleResultMsg(signer: Key, e: nat, result: Result, online: nat)
      requires node.Valid() && signer in node.peers
      modifies node, node.voting
      ensures node.Valid() && (fresh(node.epoch) || node.epoch == old(node.epoch))
      ensures State() == HandlePeerStep(Environment(), old(State()), signer, VoteResultMsg(e, result), online)
    {
      var seen := node.SeePeer(signer);
      var begun, ok := node.HandlePeerResult(signer, e, result, online);
    }

    /** `_handle_peer_msgs` for an EMPTY_SLOT. */
    method HandleEmptySlotMsg(signer: Key, online: nat)
      requires node.Valid() && signer in node.peers
      modifies this`calls, node, node.epoch, node.voting
      ensures node.Valid() && (fresh(node.epoch) || node.epoch == old(node.epoch))
      ensures State() == HandlePeerStep(Environment(), old(State()), signer, EmptySlotMsg, online)
    {
      var seen := node.SeePeer(signer);
      if node.epoch.State().CurrentWitness() == Some(signer) {
        var ok := NextSlotBegins();
      }
    }

    /** `_handle_peer_msgs`; the result broadcast on counting a vote, if any. Strangers are ignored. */
    method HandlePeerMessage(signer: Key, m: PeerMsg, online: nat) returns (sent: Option<Result>)
      requires node.Valid() && WellFormed(blockCache.cache.vals)
      modifies this, node, node.epoch, node.voting
      ensures node.Valid() && (fresh(node.epoch) || node.epoch == old(node.epoch))
      ensures State() == HandlePeerMsg(Environment(), old(State()), signer, WithSent(m, sent), online)
      ensures SentOnMsg(Environment(), old(State()), signer, m, online, sent)
    {
      sent := None;
      if signer in node.peerKeys && signer in node.peers {
        match m
        case VoteMsg(e, votes, _) => sent := HandleVoteMsg(signer, e, votes, online);
        case VoteResultMsg(e, result) => HandleResultMsg(signer, e, result, online);
        case EmptySlotMsg => HandleEmptySlotMsg(signer, online);
        case BootstrapRequestMsg(h) => HandleRequestMsg(signer, h, online);
        case BootstrapMsg(boot, h) => HandleBootstrapMsg(signer, boot, h, online);
      }
    }

    /** `_handle_peer_msgs` for a BOOTSTRAP_REQUEST. */
    method HandleRequestMsg(signer: Key, head: Block, online: nat)
      requires node.Valid() && signer in node.peers
      modifies this`calls, node
      ensures node.Valid() && node.epoch == old(node.epoch)
      ensures State() == HandlePeerStep(Environment(), old(State()), signer, BootstrapRequestMsg(head), online)
    {
      var seen := node.SeePeer(signer);
      Tell(SendBootstrap(signer, Boot(head.id, head.num, head.prev)));
    }

    /** `_handle_peer_msgs` for a BOOTSTRAP. */
    method HandleBootstrapMsg(signer: Key, boot: Boot, head: Block, online: nat)
      requires node.Valid() && signer in node.peers && WellFormed(blockCache.cache.vals)
      modifies this, node
      ensures node.Valid() && node.epoch == old(node.epoch)
      ensures State() == HandlePeerStep(Environment(), old(State()), signer, BootstrapMsg(boot, head), online)
    {
      BootstrapStep(Environment(), State(), signer, boot, head, online);
      SeeSender(signer);
      HandleBootstrapMessage(boot, online, head);
    }

    method SeeSender(signer: Key)
      requires node.Valid() && signer in node.peers
      modifies node
      ensures node.Valid() && node.epoch == old(node.epoch)
      ensures State() == old(State()).(node := Seen(old(State()).node, signer))
    {
      var seen := node.SeePeer(signer);
    }

    /** `_finalize_block`: the payload, once the validator accepts the block. */
    method FinalizeBlock() returns (payload: ConsensusData)
      modifies this`waitingForOwnBlock
      ensures State() == old(State()).(waitingOwn := true)
      ensures payload == Payload(node.epoch.State())
    {
      payload := ConsensusData(node.epoch.number, node.epoch.currentWitnessIdx,
                               node.epoch.witnesses + node.epoch.candidates, node.epoch.numSlots);
      waitingForOwnBlock := true;
    }

    /** The main loop: our slot, and no block could be made. */
    method PassOwnSlot()
      requires node.Valid()
      modifies this`calls, node, node.epoch, node.voting
      ensures node.Valid() && (fresh(node.epoch) || node.epoch == old(node.epoch))
      ensures State() == AdvanceSlot(Environment(), Ask(old(State()), BroadcastEmptySlot)).0
    {
      Tell(BroadcastEmptySlot);
      var ok := NextSlotBegins();
    }
  }
}
