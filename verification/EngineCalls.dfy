/** What the engine asks of the validator, handler by handler: exactly which requests, in which order. */
module EngineCalls {
  import opened Types
  import opened VotingSystem
  import opened Epoch
  import opened Node
  import opened BlockCache
  import opened Chains
  import opened BootstrapTally
  import opened Engine
  import opened EngineRuns
  import opened EngineRefinement

  // ---- the start

  /** An engine starts with the chain head as its committed head and only cached block, waits for nothing, has
      asked for nothing, and is at work at once exactly on the genesis block. */
  lemma LaunchedState(env: Env, head: Block, genesis: bool)
    ensures var s := Launched(env, head, genesis);
      && s.pre == head.id && s.preNum == head.num && s.log == [] && !s.Waiting() && !s.stuck && !s.requested
      && s.cache.ids == [head.id] && s.cache.blocks.vals == map[head.id := head] && s.bootCache == map[]
      && s.boots == [] && s.target == None && s.waitingValidation == 0 && s.waitingCommit == 0 && !s.waitingOwn
      && s.node.phase == (if genesis then Idle else WaitingForBootstrap)
      && s.node == InitialState(env.cfg).(phase := s.node.phase)
  {
  }

  // ---- slots

  /** k stands at the index of the slot, counted round the list. */
  predicate InCharge(p: EpochState, k: Key) {
    p.witnesses != [] && p.witnesses[p.idx % |p.witnesses|] == k
  }

  lemma ChargeIsTurn(p: EpochState, k: Key)
    ensures p.CurrentWitness() == Some(k) <==> InCharge(p, k)
  {
    if p.witnesses != [] {
      ModIsRemainder(p.idx, |p.witnesses|);
    }
  }

  /** The requests when a slot passes on a node: any block in the making is dropped, and a new one is started
      if the slot that begins is the node's own. Nothing is requested if changing the epoch raises. */
  function SlotCalls(env: Env, n: NodeState, blockId: Id): seq<Call> {
    if EpochChangeRaises(n, env.cfg.hash, blockId) then []
    else if InCharge(NextSlot(n, env.cfg.hash, blockId).0.epoch, env.cfg.key) then [CancelBlock, InitializeBlock]
    else [CancelBlock]
  }

  lemma SlotRequests(env: Env, s: EngineState)
    ensures var r := AdvanceSlot(env, s);
      && r.0 == s.(node := NextSlot(s.node, env.cfg.hash, s.pre).0, log := s.log + SlotCalls(env, s.node, s.pre))
      && (r.1 <==> !EpochChangeRaises(s.node, env.cfg.hash, s.pre))
  {
    NextSlotRaises(s.node, env.cfg.hash, s.pre);
    ChargeIsTurn(NextSlot(s.node, env.cfg.hash, s.pre).0.epoch, env.cfg.key);
    assert s.log + [CancelBlock] + [InitializeBlock] == s.log + [CancelBlock, InitializeBlock];
  }

  /** The requests when k fails in its slot: none if the penalty raises or the downgrade never returns. */
  function FailureCalls(env: Env, s: EngineState, k: Key): seq<Call> {
    if Stranger(env.cfg, s.node, k) || Hangs(s.node.epoch, k) then []
    else SlotCalls(env, DowngradeWitness(Penalize(env.cfg, s.node, k), k), s.pre)
  }

  lemma FailureRequests(env: Env, s: EngineState, k: Key)
    ensures var t := LoseSlot(env, s, k).0;
      t == s.(node := t.node, stuck := t.stuck, log := s.log + FailureCalls(env, s, k))
    ensures LoseSlot(env, s, k).0.stuck <==> s.stuck || (!Stranger(env.cfg, s.node, k) && Hangs(s.node.epoch, k))
  {
    if !Stranger(env.cfg, s.node, k) && !Hangs(s.node.epoch, k) {
      PenaltyKeepsEpoch(env.cfg, s.node, k);
      SlotRequests(env, s.(node := DowngradeWitness(Penalize(env.cfg, s.node, k), k)));
    }
  }

  lemma EmptySlotRequests(env: Env, s: EngineState)
    requires EngineInv(env, s) && !s.stuck
    ensures EngineStep(env, s, OwnSlotEmpty).log
         == s.log + [BroadcastEmptySlot] + SlotCalls(env, s.node, s.pre)
  {
    SlotRequests(env, Ask(s, BroadcastEmptySlot));
    assert EngineStep(env, s, OwnSlotEmpty) == AdvanceSlot(env, Ask(s, BroadcastEmptySlot)).0;
  }

  /** A member's empty slot counts only if it is that member's turn. */
  lemma EmptySlotHeard(env: Env, s: EngineState, k: Key, online: nat)
    requires EngineInv(env, s) && !s.stuck && k in env.cfg.peerKeys && k in s.node.peers
    ensures EngineStep(env, s, FromPeer(k, EmptySlotMsg, online)).log
         == s.log + if InCharge(s.node.epoch, k) then SlotCalls(env, Seen(s.node, k), s.pre) else []
  {
    var t := s.(node := Seen(s.node, k));
    ChargeIsTurn(s.node.epoch, k);
    SlotRequests(env, t);
    assert t.ExpectedSigner() == s.ExpectedSigner();
    PartWellFormed(s.cache.blocks.vals, env.store);
    assert EngineStep(env, s, FromPeer(k, EmptySlotMsg, online)) == HandlePeerStep(env, s, k, EmptySlotMsg, online);
  }

  // ---- verdicts

  /** Outside a catch-up a positive verdict commits the block exactly when it is the next one after the committed
      head and its signer is in charge, and then one more commit is waited for; otherwise it fails the block. */
  lemma VerdictRequests(env: Env, s: EngineState, id: Id)
    requires EngineInv(env, s) && !s.stuck && !s.CatchingUp() && id in env.store
    ensures var b := env.store[id]; var t := EngineStep(env, s, BlockValid(id));
      var next := b.prev == s.pre && b.num == s.preNum + 1 && InCharge(s.node.epoch, b.signer);
      t == s.(waitingValidation := s.waitingValidation - 1,
              waitingCommit := s.waitingCommit + if next then 1 else 0,
              log := s.log + [if next then CommitBlock(id) else FailBlock(id)])
  {
    JudgeRequests(VerdictIn(s), id, env.store[id]);
    assert EngineStep(env, s, BlockValid(id)) == Judge(VerdictIn(s), id, env.store[id]);
  }

  lemma JudgeRequests(s: EngineState, id: Id, b: Block)
    requires !s.CatchingUp()
    ensures var next := b.prev == s.pre && b.num == s.preNum + 1 && InCharge(s.node.epoch, b.signer);
      Judge(s, id, b) == s.(waitingCommit := s.waitingCommit + if next then 1 else 0,
                            log := s.log + [if next then CommitBlock(id) else FailBlock(id)])
  {
    ChargeIsTurn(s.node.epoch, b.signer);
  }

  // ---- commits

  /** The block of this id is cached, has the next number, and its signer is in charge. */
  predicate Successor(s: EngineState, num: nat, id: Id) {
    && id in s.cache.blocks.vals && s.cache.blocks.vals[id].num == num + 1
    && InCharge(s.node.epoch, s.cache.blocks.vals[id].signer)
  }

  lemma SuccessorMatches(s: EngineState, num: nat, id: Id)
    requires id in s.cache.blocks.vals
    ensures Successor(s, num, id) <==> Matches(s.cache.blocks.vals[id], num + 1, s.ExpectedSigner())
  {
    ChargeIsTurn(s.node.epoch, s.cache.blocks.vals[id].signer);
  }

  lemma NoSuccessor(s: EngineState, num: nat)
    requires forall id :: !Successor(s, num, id)
    ensures CheckSuccessor(s, num) == s
  {
    var next := FirstMatch(s.cache.blocks.keys, s.cache.blocks.vals, num + 1, s.ExpectedSigner());
    if next.Some? {
      var k :| k in s.cache.blocks.keys && s.cache.blocks.vals[k] == next.value;
      SuccessorMatches(s, num, k);
    }
  }

  /** The first cached successor of a commit is sent for checking. */
  lemma FirstSuccessor(s: EngineState, num: nat, id: Id) returns (i: nat)
    requires WellFormed(s.cache.blocks.vals) && Successor(s, num, id)
    ensures var ks := s.cache.blocks.keys;
      && i < |ks| && Successor(s, num, ks[i]) && (forall j :: 0 <= j < i ==> !Successor(s, num, ks[j]))
      && CheckSuccessor(s, num)
         == s.(waitingValidation := s.waitingValidation + 1, log := s.log + [CheckBlocks([ks[i]])])
  {
    var ks, m := s.cache.blocks.keys, s.cache.blocks.vals;
    SuccessorMatches(s, num, id);
    assert id in ks;
    i := FirstMatchAt(ks, m, num + 1, s.ExpectedSigner());
    forall j | 0 <= j <= i ensures Successor(s, num, ks[j]) <==> Matches(m[ks[j]], num + 1, s.ExpectedSigner()) {
      SuccessorMatches(s, num, ks[j]);
    }
    assert m[ks[i]].id == ks[i];
  }

  /** A commit moves the head and rewards the signer, or raises. If it is the target of a catch-up the node
      resumes from its payload and the collection of heads starts over. Then its slot passes, one commit fewer
      is waited for, and the successor is looked for. */
  lemma CommitEffect(env: Env, s: EngineState, id: Id) returns (n: NodeState, t: EngineState)
    requires EngineInv(env, s) && !s.stuck && id in env.store
    ensures var b := env.store[id]; var done := s.(pre := b.id, preNum := b.num);
      if Stranger(env.cfg, s.node, b.signer) then EngineStep(env, s, BlockCommitted(id)) == done
      else
        var paid := Reward(env.cfg, s.node, b.signer);
        && n == (if Resumes(s, b) then Bootstrap(paid, b.payload) else paid)
        && t == done.(node := NextSlot(n, env.cfg.hash, b.id).0,
                      boots := if Resumes(s, b) then [] else s.boots,
                      requested := s.requested && !Resumes(s, b),
                      waitingCommit := s.waitingCommit - 1,
                      log := s.log + SlotCalls(env, n, b.id))
        && EngineStep(env, s, BlockCommitted(id))
           == if EpochChangeRaises(n, env.cfg.hash, b.id) then t else CheckSuccessor(t, b.num)
  {
    var b := env.store[id];
    n, t := s.node, s;
    assert CommittedLookup(env, s, id) == Some(b);
    assert EngineStep(env, s, BlockCommitted(id)) == CommitBlockFound(env, s, b);
    if !Stranger(env.cfg, s.node, b.signer) {
      n, t := CommittedSlot(env, s, b);
    }
  }

  lemma CommittedSlot(env: Env, s: EngineState, b: Block) returns (n: NodeState, t: EngineState)
    requires !Stranger(env.cfg, s.node, b.signer)
    ensures var paid := Reward(env.cfg, s.node, b.signer);
      && n == (if Resumes(s, b) then Bootstrap(paid, b.payload) else paid)
      && t == s.(pre := b.id, preNum := b.num,
                 node := NextSlot(n, env.cfg.hash, b.id).0,
                 boots := if Resumes(s, b) then [] else s.boots,
                 requested := s.requested && !Resumes(s, b),
                 waitingCommit := s.waitingCommit - 1,
                 log := s.log + SlotCalls(env, n, b.id))
    ensures CommitBlockFound(env, s, b)
         == if EpochChangeRaises(n, env.cfg.hash, b.id) then t else CheckSuccessor(t, b.num)
  {
    var u := Resume(MoveHead(env, s, b).0, b);
    ResumedNode(env, s, b);
    SlotRequests(env, u);
    n, t := u.node, AdvanceSlot(env, u).0;
    assert CommitBlockFound(env, s, b) == FollowUp(env, u, b.num);
  }

  // ---- new blocks

  /** The block is far ahead of an engine that waits for nothing, which has not asked for heads lately. */
  predicate FarAhead(s: EngineState, b: Block, rested: bool) {
    && b.num > s.preNum + 1 && !s.waitingOwn && s.waitingValidation <= 0 && s.waitingCommit <= 0
    && (rested || !s.requested)
  }

  /** What is asked for a member's timely new block: it may push out the oldest cached one; if it is next in line
      or on the way to the target it is checked; and if it is far ahead, the peers are asked for their heads. */
  ghost function TimelyCalls(s: EngineState, b: Block, rested: bool): seq<Call>
    requires WellFormed(Append(s.cache, b).0.blocks.vals) && Append(s.cache, b).1
  {
    (if |s.cache.ids| >= 10 then [IgnoreBlock(s.cache.ids[0])] else [])
    + (if NextInLine(s, b) then [CheckBlocks([b.id])] else [])
    + (if s.node.phase == WaitingForBootstrap then []
       else if OnTheWay(s, b) then [CheckBlocks([b.id])]
       else if FarAhead(s, b, rested) then [RequestBootstrap]
       else [])
  }

  lemma RememberEffect(s: EngineState, b: Block)
    requires Append(s.cache, b).1
    ensures Remember(s, b) == s.(cache := Append(s.cache, b).0,
                                 log := s.log + if |s.cache.ids| >= 10 then [IgnoreBlock(s.cache.ids[0])] else [])
  {
    assert s.log + [] == s.log;
    assert |s.cache.ids| >= 10 ==> (s.cache.ids + [b.id])[0] == s.cache.ids[0];
  }

  lemma ConsiderEffect(env: Env, s: EngineState, b: Block)
    ensures ConsiderNext(env, s, b) ==
      if NextInLine(s, b) then
        s.(waitingOwn := s.waitingOwn && b.signer != env.cfg.key, waitingValidation := s.waitingValidation + 1,
           log := s.log + [CheckBlocks([b.id])])
      else s
  {
  }

  lemma GapEffect(s: EngineState, b: Block, rested: bool)
    ensures SuspectGap(s, b, rested) ==
      if FarAhead(s, b, rested) then s.(requested := true, log := s.log + [RequestBootstrap]) else s
  {
  }

  lemma ReactEffect(s: EngineState, b: Block, rested: bool)
    requires WellFormed(s.cache.blocks.vals)
    ensures var way := s.CatchingUp() && s.target.Some? && s.target.value.id in Walk(s.cache.blocks.vals, b.id);
      React(s, b, rested) ==
      if s.node.phase == WaitingForBootstrap then s.(bootCache := s.bootCache[b.id := b])
      else if way then s.(waitingValidation := s.waitingValidation + 1, log := s.log + [CheckBlocks([b.id])])
      else if FarAhead(s, b, rested) then s.(requested := true, log := s.log + [RequestBootstrap])
      else s
  {
    GapEffect(s, b, rested);
    CheckOne(s, b.id);
  }

  lemma CheckOne(s: EngineState, id: Id)
    ensures AskCheck(s, [id]) == s.(waitingValidation := s.waitingValidation + 1, log := s.log + [CheckBlocks([id])])
  {
  }

  /** The state once the block is remembered and, if it is next in line, sent for checking. */
  lemma ConsideredState(env: Env, s: EngineState, b: Block) returns (u: EngineState)
    requires WellFormed(Append(s.cache, b).0.blocks.vals) && Append(s.cache, b).1
    ensures u == ConsiderNext(env, Remember(s, b), b) && u.cache == Append(s.cache, b).0 && u.node == s.node
    ensures u.target == s.target && u.bootCache == s.bootCache && u.requested == s.requested
    ensures u.waitingOwn == (s.waitingOwn && !(NextInLine(s, b) && b.signer == env.cfg.key))
    ensures u.waitingCommit == s.waitingCommit
    ensures u.log == s.log + (if |s.cache.ids| >= 10 then [IgnoreBlock(s.cache.ids[0])] else [])
                           + (if NextInLine(s, b) then [CheckBlocks([b.id])] else [])
    ensures FarAhead(u, b, true) <==> FarAhead(s, b, true)
  {
    RememberEffect(s, b);
    var t := Remember(s, b);
    ConsiderEffect(env, t, b);
    assert NextInLine(t, b) <==> NextInLine(s, b);
    u := ConsiderNext(env, t, b);
    assert t.log + [] == t.log;
  }

  lemma FarAheadRests(s: EngineState, u: EngineState, b: Block, rested: bool)
    requires u.requested == s.requested && (FarAhead(u, b, true) <==> FarAhead(s, b, true))
    ensures FarAhead(u, b, rested) <==> FarAhead(s, b, rested)
  {
  }

  /** What the rest of the handler asks for. */
  ghost function ReactCalls(s: EngineState, b: Block, rested: bool, way: bool): seq<Call> {
    if s.node.phase == WaitingForBootstrap then []
    else if way then [CheckBlocks([b.id])]
    else if FarAhead(s, b, rested) then [RequestBootstrap]
    else []
  }

  lemma ReactLog(s: EngineState, b: Block, rested: bool)
    requires WellFormed(s.cache.blocks.vals)
    ensures var way := s.CatchingUp() && s.target.Some? && s.target.value.id in Walk(s.cache.blocks.vals, b.id);
      var t := React(s, b, rested);
      && t.log == s.log + ReactCalls(s, b, rested, way)
      && t.waitingOwn == s.waitingOwn && t.waitingCommit == s.waitingCommit
      && t.bootCache == (if s.node.phase == WaitingForBootstrap then s.bootCache[b.id := b] else s.bootCache)
      && t.requested == (s.requested || RequestBootstrap in ReactCalls(s, b, rested, way))
  {
    ReactEffect(s, b, rested);
    assert s.log + [] == s.log;
  }

  lemma TimelyParts(s: EngineState, b: Block, rested: bool)
    requires WellFormed(Append(s.cache, b).0.blocks.vals) && Append(s.cache, b).1
    ensures TimelyCalls(s, b, rested)
         == (if |s.cache.ids| >= 10 then [IgnoreBlock(s.cache.ids[0])] else [])
            + (if NextInLine(s, b) then [CheckBlocks([b.id])] else []) + ReactCalls(s, b, rested, OnTheWay(s, b))
  {
  }

  lemma JoinCalls(log: seq<Call>, a: seq<Call>, b: seq<Call>, c: seq<Call>)
    ensures log + a + b + c == log + (a + b + c)
  {
  }

  /** What happens to a member's timely new block: our own block is no longer waited for once it is next in line,
      a node that waits for its peers keeps the block for later, and a request for heads is remembered. */
  lemma TimelyRequests(env: Env, s: EngineState, b: Block, rested: bool)
    requires WellFormed(Append(s.cache, b).0.blocks.vals) && Append(s.cache, b).1
    ensures var t := Accept(env, s, b, rested);
      && t.log == s.log + TimelyCalls(s, b, rested) && t.waitingCommit == s.waitingCommit
      && t.waitingOwn == (s.waitingOwn && !(NextInLine(s, b) && b.signer == env.cfg.key))
      && t.bootCache == (if s.node.phase == WaitingForBootstrap then s.bootCache[b.id := b] else s.bootCache)
      && t.requested == (s.requested || RequestBootstrap in ReactCalls(s, b, rested, OnTheWay(s, b)))
  {
    var u := ConsideredState(env, s, b);
    ReactLog(u, b, rested);
    FarAheadRests(s, u, b, rested);
    var way := OnTheWay(s, b);
    assert way <==> u.CatchingUp() && u.target.Some? && u.target.value.id in Walk(u.cache.blocks.vals, b.id);
    AcceptedState(env, s, b, rested);
    TimelyParts(s, b, rested);
    JoinCalls(s.log, if |s.cache.ids| >= 10 then [IgnoreBlock(s.cache.ids[0])] else [],
              if NextInLine(s, b) then [CheckBlocks([b.id])] else [], ReactCalls(s, b, rested, way));
    assert ReactCalls(u, b, rested, way) == ReactCalls(s, b, rested, way);
  }

  lemma AcceptedState(env: Env, s: EngineState, b: Block, rested: bool)
    requires WellFormed(Append(s.cache, b).0.blocks.vals) && Append(s.cache, b).1
    ensures Accept(env, s, b, rested) == React(ConsiderNext(env, Remember(s, b), b), b, rested)
  {
  }

  /** A stranger's block, and a member's from the future, is failed. */
  ghost function NewBlockCalls(env: Env, s: EngineState, b: Block, early: bool, rested: bool): seq<Call>
    requires WellFormed(Append(s.cache, b).0.blocks.vals) && Append(s.cache, b).1
  {
    if b.signer !in env.cfg.peerKeys then [FailBlock(b.id)]
    else if early then (if Stranger(env.cfg, s.node, b.signer) then [] else [FailBlock(b.id)])
    else if b.signer !in s.node.peers then []
    else TimelyCalls(s, b, rested)
  }

  /** Everything asked for a new block. */
  lemma NewBlockEffect(env: Env, s: EngineState, b: Block, early: bool, rested: bool)
    requires EngineInv(env, s) && !s.stuck && Acceptable(env, s, BlockNew(b, early, rested))
    ensures WellFormed(Append(s.cache, b).0.blocks.vals) && Append(s.cache, b).1
    ensures var t := EngineStep(env, s, BlockNew(b, early, rested));
      && t.waitingCommit == s.waitingCommit
      && t.log == s.log + NewBlockCalls(env, s, b, early, rested)
  {
    AppendPart(env.store, s.cache, b);
    AppendConsistent(s.cache, b);
    assert EngineStep(env, s, BlockNew(b, early, rested)) == NewBlock(env, s, b, early, rested);
    if b.signer in env.cfg.peerKeys && !early && b.signer in s.node.peers {
      var t := s.(node := Seen(s.node, b.signer));
      TimelyRequests(env, t, b, rested);
      SeenCalls(s, b, rested);
    }
  }

  lemma SeenCalls(s: EngineState, b: Block, rested: bool)
    requires WellFormed(Append(s.cache, b).0.blocks.vals) && Append(s.cache, b).1
    ensures TimelyCalls(s.(node := Seen(s.node, b.signer)), b, rested) == TimelyCalls(s, b, rested)
  {
    var t := s.(node := Seen(s.node, b.signer));
    assert t.ExpectedSigner() == s.ExpectedSigner() && t.node.phase == s.node.phase;
    SameNode(s, t.node, b, rested);
  }

  lemma SameNode(s: EngineState, n: NodeState, b: Block, rested: bool)
    requires WellFormed(Append(s.cache, b).0.blocks.vals) && Append(s.cache, b).1
    requires n.epoch.CurrentWitness() == s.ExpectedSigner() && n.phase == s.node.phase
    ensures TimelyCalls(s.(node := n), b, rested) == TimelyCalls(s, b, rested)
  {
    var t := s.(node := n);
    TimelyParts(s, b, rested);
    TimelyParts(t, b, rested);
    assert NextInLine(t, b) <==> NextInLine(s, b);
    assert FarAhead(t, b, rested) <==> FarAhead(s, b, rested);
    assert OnTheWay(t, b) <==> OnTheWay(s, b);
  }

  // ---- heads

  /** A member that asks for our head is told the truth about it, and only that member is. */
  lemma ReplyIsHonest(env: Env, s: EngineState, k: Key, head: Block, online: nat) returns (m: Boot)
    requires EngineInv(env, s) && !s.stuck && k in env.cfg.peerKeys && k in s.node.peers
    requires head.id in env.store && env.store[head.id] == head
    ensures EngineStep(env, s, FromPeer(k, BootstrapRequestMsg(head), online)).log == s.log + [SendBootstrap(k, m)]
    ensures Honest(env.store, m) && m.head == head.id
  {
    m := Boot(head.id, head.num, head.prev);
    PartWellFormed(s.cache.blocks.vals, env.store);
    assert EngineStep(env, s, FromPeer(k, BootstrapRequestMsg(head), online))
        == HandlePeerStep(env, s, k, BootstrapRequestMsg(head), online);
  }

  /** The collection of heads grows by a message, and starts over when it is complete or when the node already
      stands on the head it would aim at; a lookup that raises keeps it. */
  lemma CollectionEffect(env: Env, s: EngineState, m: Boot, online: nat, head: Block)
    requires WellFormed(s.cache.blocks.vals)
    ensures var all := s.boots + [m]; var d := Tallied(all);
      && d.keys != []
      && var b := Best(d.keys, d.vals); var c := d.vals[b].count + 1;
         var t := HandleBootstrap(env, s, m, online, head);
         var aims := c >= env.cfg.slots && 3 * c > 2 * online;
         var raises := !Chase(env, s.(boots := all), online, head).1;
         if (aims && b == s.pre) || (|all| + 1 == online && !raises) then t.boots == [] && !t.requested
         else t.boots == all && t.requested == s.requested
  {
    var all := s.boots + [m];
    TalliedKeys(all);
    var d := Tallied(all);
    var b := Best(d.keys, d.vals);
    QuorumReached(env.cfg.slots, online, d.vals[b].count + 1);
    ChasedBoots(env, s.(boots := all), online, head);
  }

  lemma ChasedBoots(env: Env, s: EngineState, online: nat, head: Block)
    requires WellFormed(s.cache.blocks.vals) && s.boots != []
    ensures Tallied(s.boots).keys != []
    ensures var d := Tallied(s.boots); var b := Best(d.keys, d.vals); var t := Chase(env, s, online, head).0;
      if d.vals[b].count >= ConsensusAmount(env.cfg.slots, online) - 1 && b == s.pre then
        t.boots == [] && !t.requested && Chase(env, s, online, head).1
      else t.boots == s.boots && t.requested == s.requested
  {
    TalliedKeys(s.boots);
    var d := Tallied(s.boots);
    var b := Best(d.keys, d.vals);
    AimedBoots(env, s, b, d.vals[b].num, head);
  }

  lemma AimedBoots(env: Env, s: EngineState, id: Id, num: int, head: Block)
    requires WellFormed(s.cache.blocks.vals)
    ensures var r := Fastforward(env, s, id, num, head);
      if id == s.pre then r.0.boots == [] && !r.0.requested && r.1
      else r.0.boots == s.boots && r.0.requested == s.requested
  {
    var t := s.(node := s.node.(phase := Phase.CatchingUp), target := Some(Target(id, num)));
    if id in s.cache.blocks.vals {
      MissingBoots(env, t, id, head);
    }
  }

  lemma MissingBoots(env: Env, s: EngineState, id: Id, head: Block)
    requires WellFormed(s.cache.blocks.vals) && id in s.cache.blocks.vals
    ensures var t := CheckMissing(env, s, id, head).0; t.boots == s.boots && t.requested == s.requested
  {
    if s.pre !in Walk(s.cache.blocks.vals, id) {
      var chain := LongestChain(s.cache.blocks.vals, id);
      ForkInChain(env.store, head, chain, 10);
      ForkedBoots(s, chain, CommonAndForked(env.store, head, chain, 10));
    }
  }

  lemma ForkedBoots(s: EngineState, chain: seq<Id>, fork: Fork)
    requires fork.ForkAt? ==> fork.common in chain
    ensures var t := CheckFork(s, chain, fork).0; t.boots == s.boots && t.requested == s.requested
  {
  }
}
