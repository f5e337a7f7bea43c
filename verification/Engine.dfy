/** The consensus engine: block notifications, peer messages and catching up. The validator's
    answers are parameters, and the calls the engine makes on it are kept in a log. */
module Engine {
  import opened Types
  import opened PyDict
  import opened VotingSystem
  import opened Epoch
  import opened Node
  import opened BlockCache
  import opened Chains
  import opened BootstrapTally

  /** Requests made on the validator. */
  datatype Call =
    | CheckBlocks(ids: seq<Id>)
    | CommitBlock(id: Id)
    | FailBlock(id: Id)
    | IgnoreBlock(id: Id)
    | CancelBlock
    | InitializeBlock
    | RequestBootstrap
    | SendBootstrap(peer: Key, boot: Boot)
    | BroadcastEmptySlot

  /** The node's settings, and the blocks the validator knows. */
  datatype Env = Env(cfg: Config, store: Blocks)

  datatype Target = Target(id: Id, num: int)

  datatype EngineState = EngineState(
    node: NodeState,
    cache: CacheState,
    pre: Id,
    preNum: nat,
    waitingOwn: bool,
    waitingCommit: int,
    waitingValidation: int,
    boots: seq<Boot>,
    bootCache: Blocks,
    target: Option<Target>,
    requested: bool,
    stuck: bool,
    log: seq<Call>)
  {
    predicate Waiting() {
      waitingOwn || waitingValidation > 0 || waitingCommit > 0
    }

    function ExpectedSigner(): Option<Key> {
      node.epoch.CurrentWitness()
    }

    predicate CatchingUp() {
      node.phase == Phase.CatchingUp
    }
  }

  /** How many blocks the calls ask the validator to check. */
  function Requested(log: seq<Call>): nat {
    if log == [] then 0
    else
      var c := log[|log|-1];
      Requested(log[..|log|-1]) + (if c.CheckBlocks? then |c.ids| else 0)
  }

  /** The blocks the calls ask the validator to commit. */
  function Commits(log: seq<Call>): seq<Id> {
    if log == [] then []
    else
      var c := log[|log|-1];
      Commits(log[..|log|-1]) + (if c.CommitBlock? then [c.id] else [])
  }

  /** The counter of blocks under validation moved with the requests made, less `verdicts`. */
  ghost predicate Balanced(s: EngineState, t: EngineState, verdicts: int) {
    t.waitingValidation - Requested(t.log) == s.waitingValidation - Requested(s.log) - verdicts
  }

  /** No commit is requested, the committed head stays, and a catch-up goes on undisturbed. */
  ghost predicate Steady(s: EngineState, t: EngineState) {
    && t.pre == s.pre && t.preNum == s.preNum && Commits(t.log) == Commits(s.log)
    && (s.CatchingUp() ==> t.CatchingUp() && t.target == s.target)
  }

  ghost predicate SameBlocks(s: EngineState, t: EngineState) {
    t.cache == s.cache && t.bootCache == s.bootCache
  }

  function Ask(s: EngineState, c: Call): (t: EngineState)
    ensures Balanced(s, t, if c.CheckBlocks? then |c.ids| else 0) && SameBlocks(s, t) && t.node == s.node
    ensures Commits(t.log) == Commits(s.log) + (if c.CommitBlock? then [c.id] else [])
    ensures !c.CommitBlock? ==> Steady(s, t)
  {
    assert (s.log + [c])[..|s.log|] == s.log;
    s.(log := s.log + [c])
  }

  /** `_waiting_for_validation += len(ids); check_blocks(ids)`. */
  function AskCheck(s: EngineState, ids: seq<Id>): (t: EngineState)
    ensures Balanced(s, t, 0) && SameBlocks(s, t) && Steady(s, t) && t.node == s.node
  {
    Ask(s.(waitingValidation := s.waitingValidation + |ids|), CheckBlocks(ids))
  }

  // ---- slots

  /** `_next_slot`; false when the node's part raises. */
  function AdvanceSlot(env: Env, s: EngineState): (r: (EngineState, bool))
    ensures Balanced(s, r.0, 0) && SameBlocks(s, r.0) && Steady(s, r.0)
    ensures r.0.node == NextSlot(s.node, env.cfg.hash, s.pre).0
  {
    var r := NextSlot(s.node, env.cfg.hash, s.pre);
    assert s.CatchingUp() ==> r.0.phase == Phase.CatchingUp by {
      if s.CatchingUp() { CatchingUpStays(s.node, env.cfg.hash, s.pre); }
    }
    var t := s.(node := r.0);
    if !r.1 then (t, false)
    else
      var u := Ask(t, CancelBlock);
      (if u.ExpectedSigner() == Some(env.cfg.key) then Ask(u, InitializeBlock) else u, true)
  }

  /** A witness failed: it is penalized and downgraded, and its slot is over. False when the penalty
      or the next slot raises, or when the downgrade never returns; then the engine's thread is stuck. */
  function LoseSlot(env: Env, s: EngineState, k: Key): (r: (EngineState, bool))
    ensures Balanced(s, r.0, 0) && SameBlocks(s, r.0) && Steady(s, r.0)
  {
    if Stranger(env.cfg, s.node, k) then (s, false)
    else DemoteAndAdvance(env, s.(node := Penalize(env.cfg, s.node, k)), k)
  }

  function DemoteAndAdvance(env: Env, s: EngineState, k: Key): (r: (EngineState, bool))
    ensures Balanced(s, r.0, 0) && SameBlocks(s, r.0) && Steady(s, r.0)
  {
    if Hangs(s.node.epoch, k) then (s.(stuck := true), false)
    else AdvanceSlot(env, s.(node := DowngradeWitness(s.node, k)))
  }

  /** `handle_missed_slot`. */
  function MissedSlot(env: Env, s: EngineState): (t: EngineState)
    ensures Balanced(s, t, 0) && SameBlocks(s, t) && Steady(s, t)
  {
    if s.ExpectedSigner().None? then s else LoseSlot(env, s, s.ExpectedSigner().value).0
  }

  // ---- catching up

  /** The outcome of walking back our own chain. */
  datatype Fork = NoFork | UnknownBlock | ForkAt(common: Id, forked: Id)

  /** `common_and_forked_block`, with `tries` rounds left. */
  function CommonAndForked(store: Blocks, cur: Block, chain: seq<Id>, tries: nat): Fork
    decreases tries
  {
    if tries == 0 then NoFork
    else if cur.prev in chain then ForkAt(cur.prev, cur.id)
    else if cur.prev !in store then UnknownBlock
    else CommonAndForked(store, store[cur.prev], chain, tries - 1)
  }

  /** The blocks of the other branch to check: the chain from the common block, without our head
      and without the common block itself. */
  function ForkBlocks(chain: seq<Id>, common: Id, pre: Id): seq<Id>
    requires common in chain
  {
    Without(Without(chain[IndexOf(chain, common)..], pre), common)
  }

  /** The requests of `fastforward` for a cached target; false when a block of our own chain is unknown. */
  ghost function CheckMissing(env: Env, s: EngineState, id: Id, head: Block): (r: (EngineState, bool))
    requires WellFormed(s.cache.blocks.vals) && id in s.cache.blocks.vals
    ensures Balanced(s, r.0, 0) && SameBlocks(s, r.0) && Steady(s, r.0)
  {
    if s.pre in Walk(s.cache.blocks.vals, id) then
      var path := Path(s.cache.blocks.vals, id, s.pre);
      (if path.Some? then AskCheck(s, path.value) else s, true)
    else
      var chain := LongestChain(s.cache.blocks.vals, id);
      ForkInChain(env.store, head, chain, 10);
      CheckFork(s, chain, CommonAndForked(env.store, head, chain, 10))
  }

  /** The requests for a target whose chain leaves ours at `fork`. */
  function CheckFork(s: EngineState, chain: seq<Id>, fork: Fork): (r: (EngineState, bool))
    requires fork.ForkAt? ==> fork.common in chain
    ensures Balanced(s, r.0, 0) && SameBlocks(s, r.0) && Steady(s, r.0)
  {
    match fork
    case NoFork => (s, true)
    case UnknownBlock => (s, false)
    case ForkAt(c, f) => (AskCheck(Ask(s, FailBlock(f)), ForkBlocks(chain, c, s.pre)), true)
  }

  /** `fastforward`. */
  ghost function Fastforward(env: Env, s: EngineState, id: Id, num: int, head: Block): (r: (EngineState, bool))
    requires WellFormed(s.cache.blocks.vals)
    ensures Balanced(s, r.0, 0) && SameBlocks(s, r.0) && Steady(s, r.0)
  {
    if id == s.pre then (s.(requested := false, boots := []), true)
    else if s.CatchingUp() then (s, true)
    else
      var t := s.(node := s.node.(phase := Phase.CatchingUp), target := Some(Target(id, num)));
      if id in s.cache.blocks.vals then CheckMissing(env, t, id, head) else (t, true)
  }

  lemma {:induction false} ForkInChain(store: Blocks, cur: Block, chain: seq<Id>, tries: nat)
    ensures var f := CommonAndForked(store, cur, chain, tries); f.ForkAt? ==> f.common in chain
    decreases tries
  {
    if tries > 0 && cur.prev in store {
      ForkInChain(store, store[cur.prev], chain, tries - 1);
    }
  }

  // ---- block notifications

  /** The part of `_handle_new_block` before the state is looked at: a block that extends the
      committed head and comes from the expected witness is checked. */
  function ConsiderNext(env: Env, s: EngineState, b: Block): (t: EngineState)
    ensures Balanced(s, t, 0) && SameBlocks(s, t) && Steady(s, t) && t.node == s.node
  {
    if b.prev == s.pre && b.num == s.preNum + 1 && Some(b.signer) == s.ExpectedSigner() then
      AskCheck(s.(waitingOwn := s.waitingOwn && b.signer != env.cfg.key), [b.id])
    else s
  }

  function Remember(s: EngineState, b: Block): (t: EngineState)
    ensures Balanced(s, t, 0) && Steady(s, t) && t.cache == Append(s.cache, b).0 && t.bootCache == s.bootCache
    ensures t.node == s.node && t.waitingValidation == s.waitingValidation && t.target == s.target
  {
    var t := s.(cache := Append(s.cache, b).0);
    var gone := Evicted(s.cache, b);
    if gone.Some? then Ask(t, IgnoreBlock(gone.value)) else t
  }

  /** The rest of `_handle_new_block`, which depends on the state of the node. */
  ghost function React(s: EngineState, b: Block, rested: bool): (t: EngineState)
    requires WellFormed(s.cache.blocks.vals)
    ensures Balanced(s, t, 0) && Steady(s, t) && t.cache == s.cache && t.node == s.node
    ensures t.bootCache == s.bootCache || t.bootCache == s.bootCache[b.id := b]
  {
    if s.node.phase == WaitingForBootstrap then s.(bootCache := s.bootCache[b.id := b])
    else if s.CatchingUp() && s.target.Some? && s.target.value.id in Walk(s.cache.blocks.vals, b.id)
    then AskCheck(s, [b.id])
    else SuspectGap(s, b, rested)
  }

  /** A block too far ahead makes an engine that waits for nothing ask its peers for their heads. */
  function SuspectGap(s: EngineState, b: Block, rested: bool): (t: EngineState)
    ensures Balanced(s, t, 0) && SameBlocks(s, t) && Steady(s, t) && t.node == s.node
    ensures t.waitingValidation == s.waitingValidation
  {
    if b.num > s.preNum + 1 && !s.Waiting() && (rested || !s.requested)
    then Ask(s.(requested := true), RequestBootstrap)
    else s
  }

  /** `_handle_new_block`. `early` says the payload's timestamp lies in the future, `rested` that
      the last bootstrap request is more than six seconds ago. */
  ghost function NewBlock(env: Env, s: EngineState, b: Block, early: bool, rested: bool): (t: EngineState)
    requires WellFormed(Append(s.cache, b).0.blocks.vals)
    ensures Balanced(s, t, 0) && Steady(s, t)
    ensures t.cache == s.cache || t.cache == Append(s.cache, b).0
    ensures t.bootCache == s.bootCache || t.bootCache == s.bootCache[b.id := b]
    ensures t.node == if b.signer !in env.cfg.peerKeys then s.node
                      else if early then Penalize(env.cfg, s.node, b.signer) else Seen(s.node, b.signer)
  {
    if b.signer !in env.cfg.peerKeys then Ask(s, FailBlock(b.id))
    else if early then
      if Stranger(env.cfg, s.node, b.signer) then s
      else Ask(s.(node := Penalize(env.cfg, s.node, b.signer)), FailBlock(b.id))
    else if b.signer !in s.node.peers then s
    else
      Accept(env, s.(node := Seen(s.node, b.signer)), b, rested)
  }

  /** A member's timely block, whose signer was just seen, is remembered and perhaps checked. */
  ghost function Accept(env: Env, s: EngineState, b: Block, rested: bool): (t: EngineState)
    requires WellFormed(Append(s.cache, b).0.blocks.vals)
    ensures Balanced(s, t, 0) && Steady(s, t) && t.node == s.node
    ensures t.cache == Append(s.cache, b).0 && (t.bootCache == s.bootCache || t.bootCache == s.bootCache[b.id := b])
  {
    var t := Remember(s, b);
    if !Append(s.cache, b).1 then t else React(ConsiderNext(env, t, b), b, rested)
  }

  /** One block fewer is under validation. */
  function VerdictIn(s: EngineState): (t: EngineState)
    ensures Balanced(s, t, 1) && SameBlocks(s, t) && Steady(s, t)
  {
    s.(waitingValidation := s.waitingValidation - 1)
  }

  /** `_handle_valid_block`; an unknown block raises before anything changes. */
  function ValidBlock(env: Env, s: EngineState, id: Id): (t: EngineState)
    ensures Balanced(s, t, if id in env.store then 1 else 0) && SameBlocks(s, t)
  {
    if id in env.store then Judge(VerdictIn(s), id, env.store[id]) else s
  }

  /** Is a valid block the one to commit now? */
  function Judge(s: EngineState, id: Id, b: Block): (t: EngineState)
    ensures Balanced(s, t, 0) && SameBlocks(s, t)
  {
    if s.CatchingUp() && b.prev == s.pre then Ask(s, CommitBlock(id))
    else if Some(b.signer) == s.ExpectedSigner() && b.prev == s.pre && b.num == s.preNum + 1
    then Ask(s.(waitingCommit := s.waitingCommit + 1), CommitBlock(id))
    else Ask(s, FailBlock(id))
  }

  /** `block_cache.block_from_id`, then `get_blocks`. */
  function Lookup(env: Env, s: EngineState, id: Id): Option<Block> {
    if id in s.cache.blocks.vals then Some(s.cache.blocks.vals[id])
    else if id in env.store then Some(env.store[id])
    else None
  }

  /** `_handle_invalid_block`. When the next slot raises, the verdict is never counted. */
  function InvalidBlock(env: Env, s: EngineState, id: Id): (r: (EngineState, bool))
    ensures Balanced(s, r.0, if r.1 then 1 else 0) && SameBlocks(s, r.0) && Steady(s, r.0)
  {
    var b := Lookup(env, s, id);
    if b.None? then (s, false) else Rejected(env, s, b.value.signer)
  }

  /** A block of k was found invalid. */
  function Rejected(env: Env, s: EngineState, k: Key): (r: (EngineState, bool))
    ensures Balanced(s, r.0, if r.1 then 1 else 0) && SameBlocks(s, r.0) && Steady(s, r.0)
  {
    var r := LoseSlot(env, s, k);
    if r.1 then (VerdictIn(r.0), true) else (r.0, false)
  }

  function CommittedLookup(env: Env, s: EngineState, id: Id): Option<Block> {
    if id in s.bootCache then Some(s.bootCache[id]) else Lookup(env, s, id)
  }

  /** The committed block is the one we were catching up to: resume from its payload. */
  function Resume(s: EngineState, b: Block): (t: EngineState)
    ensures Balanced(s, t, 0) && SameBlocks(s, t) && t.log == s.log
  {
    if s.CatchingUp() && s.target.Some? && b.num == s.target.value.num
    then s.(node := Bootstrap(s.node, b.payload), boots := [], requested := false)
    else s
  }

  /** The committed head moves and its signer is rewarded; false when that raises. */
  function MoveHead(env: Env, s: EngineState, b: Block): (r: (EngineState, bool))
    ensures Balanced(s, r.0, 0) && SameBlocks(s, r.0) && r.0.log == s.log
  {
    var t := s.(pre := b.id, preNum := b.num);
    if Stranger(env.cfg, s.node, b.signer) then (t, false)
    else (t.(node := Reward(env.cfg, s.node, b.signer), waitingCommit := s.waitingCommit - 1), true)
  }

  /** After a commit: the next slot, and then a cached successor by the expected witness is checked. */
  function FollowUp(env: Env, s: EngineState, num: nat): (t: EngineState)
    ensures Balanced(s, t, 0) && SameBlocks(s, t) && Steady(s, t)
    ensures t.node == NextSlot(s.node, env.cfg.hash, s.pre).0
  {
    var r := AdvanceSlot(env, s);
    if r.1 then CheckSuccessor(r.0, num) else r.0
  }

  function CheckSuccessor(s: EngineState, num: nat): (t: EngineState)
    ensures Balanced(s, t, 0) && SameBlocks(s, t) && Steady(s, t) && t.node == s.node
  {
    var next := FirstMatch(s.cache.blocks.keys, s.cache.blocks.vals, num + 1, s.ExpectedSigner());
    if next.Some? then AskCheck(s, [next.value.id]) else s
  }

  /** `_handle_committed_block`. */
  function Committed(env: Env, s: EngineState, id: Id): (t: EngineState)
    ensures Balanced(s, t, 0) && SameBlocks(s, t) && Commits(t.log) == Commits(s.log)
  {
    var b := CommittedLookup(env, s, id);
    if b.None? then s else CommitBlockFound(env, s, b.value)
  }

  function CommitBlockFound(env: Env, s: EngineState, b: Block): (t: EngineState)
    ensures Balanced(s, t, 0) && SameBlocks(s, t) && Commits(t.log) == Commits(s.log)
  {
    var r := MoveHead(env, s, b);
    if r.1 then FollowUp(env, Resume(r.0, b), b.num) else r.0
  }

  // ---- peer messages

  datatype PeerMsg =
    | VoteMsg(epoch: nat, votes: Ballot, sent: Option<Result>)
    | VoteResultMsg(epoch: nat, result: Result)
    | EmptySlotMsg
    | BootstrapRequestMsg(head: Block)
    | BootstrapMsg(boot: Boot, head: Block)

  /** Catch up to the best head if enough messages name it; false when that raises. */
  ghost function Chase(env: Env, s: EngineState, online: nat, head: Block): (r: (EngineState, bool))
    requires WellFormed(s.cache.blocks.vals) && s.boots != []
    ensures Balanced(s, r.0, 0) && SameBlocks(s, r.0) && Steady(s, r.0)
  {
    TalliedKeys(s.boots);
    var d := Tallied(s.boots);
    var b := Best(d.keys, d.vals);
    if d.vals[b].count >= ConsensusAmount(env.cfg.slots, online) - 1
    then Fastforward(env, s, b, d.vals[b].num, head) else (s, true)
  }

  /** The BOOTSTRAP branch of `_handle_peer_msgs`. */
  ghost function HandleBootstrap(env: Env, s: EngineState, boot: Boot, online: nat, head: Block): (t: EngineState)
    requires WellFormed(s.cache.blocks.vals)
    ensures Balanced(s, t, 0) && SameBlocks(s, t) && Steady(s, t)
  {
    var r := Chase(env, s.(boots := s.boots + [boot]), online, head);
    if r.1 then Collected(r.0, online) else r.0
  }

  /** With messages from all other peers in, the collection starts over. */
  function Collected(s: EngineState, online: nat): (t: EngineState)
    ensures Balanced(s, t, 0) && SameBlocks(s, t) && Steady(s, t) && t.node == s.node
  {
    if |s.boots| == online - 1 then s.(boots := [], requested := false) else s
  }

  /** A vote message together with the result that counting it made the node broadcast. */
  function WithSent(m: PeerMsg, sent: Option<Result>): PeerMsg {
    if m.VoteMsg? then m.(sent := sent) else m
  }

  /** What a member's message does once the sender is marked as seen. */
  ghost function HandlePeerStep(env: Env, s: EngineState, signer: Key, m: PeerMsg, online: nat): (t: EngineState)
    requires m.BootstrapMsg? ==> WellFormed(s.cache.blocks.vals)
    ensures Balanced(s, t, 0) && SameBlocks(s, t) && Steady(s, t)
  {
    var t := s.(node := Seen(s.node, signer));
    match m
    case VoteMsg(e, votes, sent) => t.(node := HandleVote(env.cfg, t.node, signer, e, votes, online, sent))
    case VoteResultMsg(e, result) =>
      var n := HandleVoteResult(env.cfg, t.node, signer, e, result, online).0;
      assert t.CatchingUp() ==> n.phase == Phase.CatchingUp by {
        if t.CatchingUp() { CatchingUpStaysOnResult(env.cfg, t.node, signer, e, result, online); }
      }
      t.(node := n)
    case EmptySlotMsg => if t.ExpectedSigner() == Some(signer) then AdvanceSlot(env, t).0 else t
    case BootstrapRequestMsg(h) => Ask(t, SendBootstrap(signer, Boot(h.id, h.num, h.prev)))
    case BootstrapMsg(boot, h) => HandleBootstrap(env, t, boot, online, h)
  }

  lemma ResultStep(env: Env, s: EngineState, signer: Key, e: nat, result: Result, online: nat)
    ensures HandlePeerStep(env, s, signer, VoteResultMsg(e, result), online)
         == s.(node := HandleVoteResult(env.cfg, Seen(s.node, signer), signer, e, result, online).0)
  {
  }

  lemma BootstrapStep(env: Env, s: EngineState, signer: Key, boot: Boot, head: Block, online: nat)
    requires WellFormed(s.cache.blocks.vals)
    ensures HandlePeerStep(env, s, signer, BootstrapMsg(boot, head), online)
         == HandleBootstrap(env, s.(node := Seen(s.node, signer)), boot, online, head)
  {
  }

  /** `_handle_peer_msgs`; the validator's chain head comes with the messages that ask for it. */
  ghost function HandlePeerMsg(env: Env, s: EngineState, signer: Key, m: PeerMsg, online: nat): (t: EngineState)
    requires WellFormed(s.cache.blocks.vals)
    ensures Balanced(s, t, 0) && SameBlocks(s, t) && Steady(s, t)
  {
    if signer !in env.cfg.peerKeys || signer !in s.node.peers then s else HandlePeerStep(env, s, signer, m, online)
  }

  /** What is broadcast while a message is handled: the result that a vote completes, if any. */
  ghost predicate SentOnMsg(env: Env, s: EngineState, signer: Key, m: PeerMsg, online: nat, sent: Option<Result>) {
    if m.VoteMsg? && signer in env.cfg.peerKeys && signer in s.node.peers
    then SentOnVote(env.cfg, Seen(s.node, signer), signer, m.epoch, m.votes, online, sent)
    else sent.None?
  }

  // ---- events of the main loop

  datatype EngineEvent =
    | BlockNew(block: Block, early: bool, rested: bool)
    | BlockValid(id: Id)
    | BlockInvalid(id: Id)
    | BlockCommitted(id: Id)
    | FromPeer(signer: Key, msg: PeerMsg, online: nat)
    | OwnBlockFinalized
    | OwnSlotEmpty
    | SlotMissed
    | OwnVote(ballot: Ballot, online: nat)
    | ResultTimer(sent: Option<Result>)

  /** The validator hands out each block once, and only blocks of the well-formed store. */
  predicate Acceptable(env: Env, s: EngineState, e: EngineEvent) {
    e.BlockNew? ==> e.block.id !in s.cache.blocks.vals && e.block.id in env.store && env.store[e.block.id] == e.block
  }

  /** What the engine remembers are blocks of the store. */
  ghost predicate EngineInv(env: Env, s: EngineState) {
    && WellFormed(env.store) && Consistent(s.cache)
    && PartOf(s.cache.blocks.vals, env.store) && PartOf(s.bootCache, env.store)
  }

  /** The engine after `start`, before its first event. */
  function Started(node: NodeState, chainHead: Block, genesis: bool): EngineState {
    EngineState(if genesis then node else node.(phase := WaitingForBootstrap),
                CacheState([chainHead.id], Put(Empty(), chainHead.id, chainHead)),
                chainHead.id, chainHead.num, false, 0, 0, [], map[], None, false, false, [])
  }

  /** The engine of a node that knows nothing yet. */
  function Launched(env: Env, chainHead: Block, genesis: bool): EngineState {
    Started(InitialState(env.cfg), chainHead, genesis)
  }

  lemma StartedInv(env: Env, node: NodeState, chainHead: Block, genesis: bool)
    requires WellFormed(env.store) && chainHead.id in env.store && env.store[chainHead.id] == chainHead
    ensures EngineInv(env, Started(node, chainHead, genesis))
  {
  }

  /** Verdicts this event makes the engine count. */
  ghost function Counted(env: Env, s: EngineState, e: EngineEvent): nat {
    if s.stuck then 0
    else if e.BlockValid? && e.id in env.store then 1
    else if e.BlockInvalid? && InvalidBlock(env, s, e.id).1 then 1
    else 0
  }

  /** A new block, or nothing when the validator would not hand it out. */
  ghost function NewBlockStep(env: Env, s: EngineState, e: EngineEvent): (t: EngineState)
    requires EngineInv(env, s) && e.BlockNew?
    ensures EngineInv(env, t) && Balanced(s, t, 0) && Steady(s, t)
  {
    if !Acceptable(env, s, e) then s
    else
      AppendPart(env.store, s.cache, e.block);
      NewBlock(env, s, e.block, e.early, e.rested)
  }

  /** Timers, our own slot and our own block: nothing is remembered and no verdict counted. */
  function LocalStep(env: Env, s: EngineState, e: EngineEvent): (t: EngineState)
    ensures Balanced(s, t, 0) && SameBlocks(s, t) && Steady(s, t)
  {
    match e
    case OwnBlockFinalized => s.(waitingOwn := true)
    case OwnSlotEmpty => AdvanceSlot(env, Ask(s, BroadcastEmptySlot)).0
    case SlotMissed => MissedSlot(env, s)
    case OwnVote(ballot, online) =>
      if ShouldVote(env.cfg, s.node, online) then s.(node := Vote(env.cfg, s.node, ballot)) else s
    case ResultTimer(sent) => s.(node := TimerFires(env.cfg, s.node, sent))
    case _ => s
  }

  /** One event. The result timer has a thread of its own; nothing else happens on a stuck engine. */
  ghost function EngineStep(env: Env, s: EngineState, e: EngineEvent): (t: EngineState)
    requires EngineInv(env, s)
    ensures EngineInv(env, t)
    ensures Balanced(s, t, Counted(env, s, e))
    ensures s.stuck ==> t.stuck
    ensures !e.BlockValid? && !e.BlockCommitted? ==> Steady(s, t)
  {
    PartWellFormed(s.cache.blocks.vals, env.store);
    if s.stuck && !e.ResultTimer? then s else
    match e
    case BlockNew(_, _, _) => NewBlockStep(env, s, e)
    case BlockValid(id) => ValidBlock(env, s, id)
    case BlockInvalid(id) => InvalidBlock(env, s, id).0
    case BlockCommitted(id) => Committed(env, s, id)
    case FromPeer(signer, m, online) => HandlePeerMsg(env, s, signer, m, online)
    case _ => LocalStep(env, s, e)
  }

  /** Appending a block of the store, cached or not, leaves blocks of the store. */
  lemma AppendWellFormed(store: Blocks, c: CacheState, b: Block)
    requires WellFormed(store) && PartOf(c.blocks.vals, store) && b.id in store && store[b.id] == b
    ensures WellFormed(Append(c, b).0.blocks.vals)
  {
    PartWellFormed(Append(c, b).0.blocks.vals, store);
  }

  lemma AppendPart(store: Blocks, c: CacheState, b: Block)
    requires WellFormed(store) && PartOf(c.blocks.vals, store) && b.id in store && store[b.id] == b
    requires Consistent(c) && b.id !in c.blocks.vals
    ensures PartOf(Append(c, b).0.blocks.vals, store) && WellFormed(Append(c, b).0.blocks.vals)
    ensures Consistent(Append(c, b).0)
  {
    AppendConsistent(c, b);
    PartWellFormed(Append(c, b).0.blocks.vals, store);
  }
}
