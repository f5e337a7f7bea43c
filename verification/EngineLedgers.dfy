/** Two more books that balance over every run of the engine: a block is started or dropped exactly when a slot
    of the node's own run passes, and the commits waited for are those requested outside a catch-up less those
    that were handled. */
module EngineLedgers {
  import opened Types
  import opened Epoch
  import opened Node
  import opened NodeRuns
  import opened BlockCache
  import opened BootstrapTally
  import opened Engine
  import opened EngineRuns
  import opened EngineRefinement
  import opened EngineCalls

  // ---- the books

  predicate ForSlot(c: Call) {
    c.CancelBlock? || c.InitializeBlock?
  }

  /** The requests that drop or start a block of our own. */
  function OwnBlockCalls(log: seq<Call>): seq<Call> {
    if log == [] then []
    else OwnBlockCalls(log[..|log|-1]) + (if ForSlot(log[|log|-1]) then [log[|log|-1]] else [])
  }

  lemma {:induction false} OwnBlockCallsAppend(a: seq<Call>, b: seq<Call>)
    ensures OwnBlockCalls(a + b) == OwnBlockCalls(a) + OwnBlockCalls(b)
  {
    if b == [] {
      assert a + b == a;
    } else {
      var n := |b| - 1;
      OwnBlockCallsAppend(a, b[..n]);
      assert (a + b)[..|a+b|-1] == a + b[..n];
    }
  }

  lemma {:induction false} NoneForSlot(calls: seq<Call>)
    requires forall c :: c in calls ==> !ForSlot(c)
    ensures OwnBlockCalls(calls) == []
  {
    if calls != [] {
      NoneForSlot(calls[..|calls|-1]);
    }
  }

  lemma SlotCallsCount(env: Env, n: NodeState, blockId: Id)
    ensures OwnBlockCalls(SlotCalls(env, n, blockId)) == SlotCalls(env, n, blockId)
  {
    OneAndTwo();
    assert SlotCalls(env, n, blockId) in [[], [CancelBlock], [CancelBlock, InitializeBlock]];
  }

  lemma OneAndTwo()
    ensures OwnBlockCalls([]) == [] && OwnBlockCalls([CancelBlock]) == [CancelBlock]
    ensures OwnBlockCalls([CancelBlock, InitializeBlock]) == [CancelBlock, InitializeBlock]
  {
    assert [CancelBlock, InitializeBlock][..1] == [CancelBlock];
    assert [CancelBlock][..0] == [];
  }

  /** What an event calls for if it is a slot. */
  function DueAt(env: Env, n: NodeState, ev: NodeEvent): seq<Call> {
    if ev.SlotPassed? then SlotCalls(env, n, ev.blockId) else []
  }

  /** What the slots of a node's run call for. */
  function Due(env: Env, s: NodeState, es: seq<NodeEvent>): seq<Call> {
    if es == [] then []
    else
      var n := |es| - 1;
      Due(env, s, es[..n]) + DueAt(env, NodeRun(env.cfg, s, es[..n]), es[n])
  }

  lemma Assoc(a: seq<Call>, b: seq<Call>, c: seq<Call>)
    ensures a + b + c == a + (b + c)
  {
  }

  lemma DueNext(env: Env, s: NodeState, es: seq<NodeEvent>)
    requires es != []
    ensures var n := |es| - 1;
      Due(env, s, es) == Due(env, s, es[..n]) + DueAt(env, NodeRun(env.cfg, s, es[..n]), es[n])
  {
  }

  lemma {:induction false} DueAppend(env: Env, s: NodeState, a: seq<NodeEvent>, b: seq<NodeEvent>)
    ensures Due(env, s, a + b) == Due(env, s, a) + Due(env, NodeRun(env.cfg, s, a), b)
  {
    if b == [] {
      assert a + b == a;
    } else {
      var n := |b| - 1;
      var t := NodeRun(env.cfg, s, a);
      DueAppend(env, s, a, b[..n]);
      NodeRunAppend(env.cfg, s, a, b[..n]);
      LastOfAppend(a, b);
      DueNext(env, s, a + b);
      DueNext(env, t, b);
      Assoc(Due(env, s, a), Due(env, t, b[..n]), DueAt(env, NodeRun(env.cfg, t, b[..n]), b[n]));
    }
  }

  lemma NothingDue(env: Env, s: NodeState, es: seq<NodeEvent>)
    requires forall ev :: ev in es ==> !ev.SlotPassed?
    ensures Due(env, s, es) == []
  {
    if es != [] {
      NothingDue(env, s, es[..|es|-1]);
    }
  }

  lemma DueLast(env: Env, s: NodeState, es: seq<NodeEvent>, blockId: Id)
    requires forall ev :: ev in es ==> !ev.SlotPassed?
    ensures Due(env, s, es + [SlotPassed(blockId)]) == SlotCalls(env, NodeRun(env.cfg, s, es), blockId)
  {
    NothingDue(env, s, es);
    assert (es + [SlotPassed(blockId)])[..|es|] == es;
  }

  /** The commits that this event grants outside a catch-up, and the commit that it handles. */
  ghost function Granted(env: Env, s: EngineState, e: EngineEvent): nat {
    if !s.stuck && !s.CatchingUp() && e.BlockValid? && e.id in env.store && NextInLine(s, env.store[e.id]) then 1 else 0
  }

  function Handled(env: Env, s: EngineState, e: EngineEvent): nat {
    if !s.stuck && e.BlockCommitted? && CommittedLookup(env, s, e.id).Some?
       && !Stranger(env.cfg, s.node, CommittedLookup(env, s, e.id).value.signer) then 1 else 0
  }

  /** Neither book is touched. */
  ghost predicate Aside(s: EngineState, t: EngineState) {
    OwnBlockCalls(t.log) == OwnBlockCalls(s.log) && t.waitingCommit == s.waitingCommit
  }

  lemma MoreCalls(s: EngineState, t: EngineState, calls: seq<Call>)
    requires t.log == s.log + calls && t.waitingCommit == s.waitingCommit && forall c :: c in calls ==> !ForSlot(c)
    ensures Aside(s, t)
  {
    OwnBlockCallsAppend(s.log, calls);
    NoneForSlot(calls);
  }

  lemma SameCalls(s: EngineState, t: EngineState)
    requires t.log == s.log && t.waitingCommit == s.waitingCommit
    ensures Aside(s, t)
  {
  }

  // ---- handlers that leave both alone

  lemma CheckAside(s: EngineState, ids: seq<Id>)
    ensures Aside(s, AskCheck(s, ids))
  {
    MoreCalls(s, AskCheck(s, ids), [CheckBlocks(ids)]);
  }

  lemma SuccessorAside(s: EngineState, num: nat)
    ensures Aside(s, CheckSuccessor(s, num))
  {
    var next := FirstMatch(s.cache.blocks.keys, s.cache.blocks.vals, num + 1, s.ExpectedSigner());
    if next.Some? {
      CheckAside(s, [next.value.id]);
    }
  }

  lemma ForkAside(s: EngineState, chain: seq<Id>, fork: Fork)
    requires fork.ForkAt? ==> fork.common in chain
    ensures Aside(s, CheckFork(s, chain, fork).0)
  {
    if fork.ForkAt? {
      MoreCalls(s, Ask(s, FailBlock(fork.forked)), [FailBlock(fork.forked)]);
      CheckAside(Ask(s, FailBlock(fork.forked)), ForkBlocks(chain, fork.common, s.pre));
    }
  }

  lemma MissingAside(env: Env, s: EngineState, id: Id, head: Block)
    requires WellFormed(s.cache.blocks.vals) && id in s.cache.blocks.vals
    ensures Aside(s, CheckMissing(env, s, id, head).0)
  {
    if s.pre in Walk(s.cache.blocks.vals, id) {
      var path := Path(s.cache.blocks.vals, id, s.pre);
      if path.Some? {
        CheckAside(s, path.value);
      }
    } else {
      var chain := LongestChain(s.cache.blocks.vals, id);
      ForkInChain(env.store, head, chain, 10);
      ForkAside(s, chain, CommonAndForked(env.store, head, chain, 10));
    }
  }

  lemma FastforwardAside(env: Env, s: EngineState, id: Id, num: int, head: Block)
    requires WellFormed(s.cache.blocks.vals)
    ensures Aside(s, Fastforward(env, s, id, num, head).0)
  {
    var t := s.(node := s.node.(phase := Phase.CatchingUp), target := Some(Target(id, num)));
    SameCalls(s, t);
    if id in s.cache.blocks.vals {
      MissingAside(env, t, id, head);
    }
  }

  lemma ChaseAside(env: Env, s: EngineState, online: nat, head: Block)
    requires WellFormed(s.cache.blocks.vals) && s.boots != []
    ensures Aside(s, Chase(env, s, online, head).0)
  {
    TalliedKeys(s.boots);
    var d := Tallied(s.boots);
    var b := Best(d.keys, d.vals);
    FastforwardAside(env, s, b, d.vals[b].num, head);
  }

  lemma BootstrapAside(env: Env, s: EngineState, boot: Boot, online: nat, head: Block)
    requires WellFormed(s.cache.blocks.vals)
    ensures Aside(s, HandleBootstrap(env, s, boot, online, head))
  {
    var t := s.(boots := s.boots + [boot]);
    ChaseAside(env, t, online, head);
    CollectedAside(Chase(env, t, online, head).0, online);
    assert HandleBootstrap(env, s, boot, online, head).log
        == (if Chase(env, t, online, head).1 then Collected(Chase(env, t, online, head).0, online)
            else Chase(env, t, online, head).0).log;
  }

  lemma CollectedAside(s: EngineState, online: nat)
    ensures Collected(s, online).log == s.log && Collected(s, online).waitingCommit == s.waitingCommit
    ensures Aside(s, Collected(s, online))
  {
  }

  // ---- one step

  /** What a step does to both books. */
  ghost predicate Booked(env: Env, s: EngineState, t: EngineState, felt: seq<NodeEvent>, granted: nat, handled: nat) {
    && OwnBlockCalls(t.log) == OwnBlockCalls(s.log) + Due(env, s.node, felt)
    && t.waitingCommit == s.waitingCommit + granted - handled
  }

  lemma AsideBooked(env: Env, s: EngineState, t: EngineState, felt: seq<NodeEvent>)
    requires Aside(s, t) && forall ev :: ev in felt ==> !ev.SlotPassed?
    ensures Booked(env, s, t, felt, 0, 0)
  {
    NothingDue(env, s.node, felt);
  }

  lemma SlotLog(log: seq<Call>, calls: seq<Call>, due: seq<Call>)
    requires (forall c :: c in calls ==> !ForSlot(c)) && OwnBlockCalls(due) == due
    ensures OwnBlockCalls(log + calls + due) == OwnBlockCalls(log) + due
  {
    OwnBlockCallsAppend(log + calls, due);
    OwnBlockCallsAppend(log, calls);
    NoneForSlot(calls);
    assert OwnBlockCalls(log) + [] == OwnBlockCalls(log);
  }

  /** A slot passes after these node events, and these other requests. */
  lemma SlotBooked(env: Env, s: EngineState, t: EngineState, before: seq<NodeEvent>, blockId: Id, calls: seq<Call>,
                   handled: nat)
    requires forall ev :: ev in before ==> !ev.SlotPassed?
    requires t.log == s.log + calls + SlotCalls(env, NodeRun(env.cfg, s.node, before), blockId)
    requires (forall c :: c in calls ==> !ForSlot(c)) && t.waitingCommit == s.waitingCommit - handled
    ensures Booked(env, s, t, before + [SlotPassed(blockId)], 0, handled)
  {
    SlotCallsCount(env, NodeRun(env.cfg, s.node, before), blockId);
    SlotLog(s.log, calls, SlotCalls(env, NodeRun(env.cfg, s.node, before), blockId));
    DueLast(env, s.node, before, blockId);
  }

  lemma FailureBooked(env: Env, s: EngineState, k: Key)
    ensures Booked(env, s, LoseSlot(env, s, k).0, Failure(env.cfg, s.node, k, s.pre), 0, 0)
  {
    var t := LoseSlot(env, s, k).0;
    FailureRequests(env, s, k);
    PenaltyKeepsEpoch(env.cfg, s.node, k);
    if Stranger(env.cfg, s.node, k) || Hangs(s.node.epoch, k) {
      assert s.log + [] == s.log;
      AsideBooked(env, s, t, Failure(env.cfg, s.node, k, s.pre));
    } else {
      FailedNode(env.cfg, s.node, k);
      assert s.log + [] == s.log;
      assert [Penalized(k), WitnessFailed(k)] + [SlotPassed(s.pre)]
          == [Penalized(k), WitnessFailed(k), SlotPassed(s.pre)];
      SlotBooked(env, s, t, [Penalized(k), WitnessFailed(k)], s.pre, [], 0);
    }
  }

  lemma FailedNode(c: Config, n: NodeState, k: Key)
    ensures NodeRun(c, n, [Penalized(k), WitnessFailed(k)]) == DowngradeWitness(Penalize(c, n, k), k)
  {
    RunTwo(c, n, Penalized(k), WitnessFailed(k));
  }

  predicate NoSlots(calls: seq<Call>) {
    forall c :: c in calls ==> !ForSlot(c)
  }

  lemma JoinNoSlots(a: seq<Call>, b: seq<Call>, c: seq<Call>)
    requires NoSlots(a) && NoSlots(b) && NoSlots(c)
    ensures NoSlots(a + b + c)
  {
  }

  lemma TimelyNoSlots(s: EngineState, b: Block, rested: bool)
    requires WellFormed(Append(s.cache, b).0.blocks.vals) && Append(s.cache, b).1
    ensures NoSlots(TimelyCalls(s, b, rested))
  {
    TimelyParts(s, b, rested);
    JoinNoSlots(if |s.cache.ids| >= 10 then [IgnoreBlock(s.cache.ids[0])] else [],
                if NextInLine(s, b) then [CheckBlocks([b.id])] else [], ReactCalls(s, b, rested, OnTheWay(s, b)));
  }

  lemma NewBlockNoSlots(env: Env, s: EngineState, b: Block, early: bool, rested: bool)
    requires WellFormed(Append(s.cache, b).0.blocks.vals) && Append(s.cache, b).1
    ensures NoSlots(NewBlockCalls(env, s, b, early, rested))
  {
    TimelyNoSlots(s, b, rested);
  }

  lemma NewBlockAside(env: Env, s: EngineState, b: Block, early: bool, rested: bool)
    requires EngineInv(env, s) && !s.stuck && Acceptable(env, s, BlockNew(b, early, rested))
    ensures Aside(s, EngineStep(env, s, BlockNew(b, early, rested)))
  {
    NewBlockEffect(env, s, b, early, rested);
    NewBlockNoSlots(env, s, b, early, rested);
    MoreCalls(s, EngineStep(env, s, BlockNew(b, early, rested)), NewBlockCalls(env, s, b, early, rested));
  }

  lemma NewBlockBooked(env: Env, s: EngineState, e: EngineEvent)
    requires EngineInv(env, s) && !s.stuck && e.BlockNew?
    ensures Booked(env, s, EngineStep(env, s, e), Felt(env, s, e), 0, 0)
  {
    if Acceptable(env, s, e) {
      NewBlockAside(env, s, e.block, e.early, e.rested);
    } else {
      Unhandled(env, s, e);
    }
    NewBlockFelt(env, s, e);
    AsideBooked(env, s, EngineStep(env, s, e), Felt(env, s, e));
  }

  lemma Unhandled(env: Env, s: EngineState, e: EngineEvent)
    requires EngineInv(env, s) && !s.stuck && e.BlockNew? && !Acceptable(env, s, e)
    ensures EngineStep(env, s, e) == s
  {
  }

  lemma NewBlockFelt(env: Env, s: EngineState, e: EngineEvent)
    requires EngineInv(env, s) && e.BlockNew?
    ensures forall ev :: ev in Felt(env, s, e) ==> !ev.SlotPassed?
  {
  }

  lemma VerdictBooked(env: Env, s: EngineState, t: EngineState, c: Call, granted: nat)
    requires t.log == s.log + [c] && !ForSlot(c) && t.waitingCommit == s.waitingCommit + granted
    ensures Booked(env, s, t, [], granted, 0)
  {
    OwnBlockCallsAppend(s.log, [c]);
    NoneForSlot([c]);
  }

  lemma ValidBooked(env: Env, s: EngineState, e: EngineEvent)
    requires EngineInv(env, s) && !s.stuck && e.BlockValid?
    ensures Booked(env, s, EngineStep(env, s, e), [], Granted(env, s, e), 0)
  {
    ValidStep(env, s, e.id);
    if e.id in env.store {
      var t := Judge(VerdictIn(s), e.id, env.store[e.id]);
      var c := Judged(VerdictIn(s), e.id, env.store[e.id]);
      GrantedByVerdict(env, s, e);
      VerdictBooked(env, s, t, c, Granted(env, s, e));
    } else {
      AsideBooked(env, s, s, []);
    }
  }

  lemma ValidStep(env: Env, s: EngineState, id: Id)
    requires EngineInv(env, s) && !s.stuck
    ensures Felt(env, s, BlockValid(id)) == []
    ensures EngineStep(env, s, BlockValid(id)) == if id in env.store then Judge(VerdictIn(s), id, env.store[id]) else s
  {
  }

  lemma Judged(s: EngineState, id: Id, b: Block) returns (c: Call)
    ensures var t := Judge(s, id, b);
      && t.log == s.log + [c] && !ForSlot(c)
      && t.waitingCommit == s.waitingCommit + if !s.CatchingUp() && NextInLine(s, b) then 1 else 0
  {
    if s.CatchingUp() {
      c := JudgedCatchingUp(s, id, b);
    } else {
      JudgeRequests(s, id, b);
      ChargeIsTurn(s.node.epoch, b.signer);
      c := if NextInLine(s, b) then CommitBlock(id) else FailBlock(id);
    }
  }

  lemma JudgedCatchingUp(s: EngineState, id: Id, b: Block) returns (c: Call)
    requires s.CatchingUp()
    ensures Judge(s, id, b).log == s.log + [c] && !ForSlot(c) && Judge(s, id, b).waitingCommit == s.waitingCommit
  {
    c := if b.prev == s.pre then CommitBlock(id) else FailBlock(id);
  }

  lemma GrantedByVerdict(env: Env, s: EngineState, e: EngineEvent)
    requires !s.stuck && e.BlockValid? && e.id in env.store
    ensures Granted(env, s, e) ==
      if !VerdictIn(s).CatchingUp() && NextInLine(VerdictIn(s), env.store[e.id]) then 1 else 0
  {
  }

  lemma InvalidBooked(env: Env, s: EngineState, e: EngineEvent)
    requires EngineInv(env, s) && !s.stuck && e.BlockInvalid?
    ensures Booked(env, s, EngineStep(env, s, e), Felt(env, s, e), 0, 0)
  {
    var b := Lookup(env, s, e.id);
    if b.Some? {
      FailureBooked(env, s, b.value.signer);
      assert EngineStep(env, s, e) == Rejected(env, s, b.value.signer).0;
    } else {
      AsideBooked(env, s, EngineStep(env, s, e), Felt(env, s, e));
    }
  }

  lemma MissedBooked(env: Env, s: EngineState)
    requires EngineInv(env, s) && !s.stuck
    ensures Booked(env, s, EngineStep(env, s, SlotMissed), Felt(env, s, SlotMissed), 0, 0)
  {
    assert EngineStep(env, s, SlotMissed) == MissedSlot(env, s);
    if s.ExpectedSigner().Some? {
      FailureBooked(env, s, s.ExpectedSigner().value);
      MissedAndFelt(env, s, s.ExpectedSigner().value);
    } else {
      AsideBooked(env, s, s, Felt(env, s, SlotMissed));
    }
  }

  lemma CommittedBooked(env: Env, s: EngineState, e: EngineEvent)
    requires EngineInv(env, s) && !s.stuck && e.BlockCommitted?
    ensures Booked(env, s, EngineStep(env, s, e), Felt(env, s, e), 0, Handled(env, s, e))
  {
    var b := CommittedLookup(env, s, e.id);
    if b.Some? {
      assert EngineStep(env, s, e) == CommitBlockFound(env, s, b.value);
      FoundBooked(env, s, b.value);
    } else {
      AsideBooked(env, s, EngineStep(env, s, e), Felt(env, s, e));
    }
  }

  lemma FoundBooked(env: Env, s: EngineState, b: Block)
    ensures Booked(env, s, CommitBlockFound(env, s, b), FeltCommitted(env.cfg, s, b), 0,
                   if Stranger(env.cfg, s.node, b.signer) then 0 else 1)
  {
    if Stranger(env.cfg, s.node, b.signer) {
      AsideBooked(env, s, CommitBlockFound(env, s, b), []);
    } else {
      var n, t := CommittedSlot(env, s, b);
      var before := BeforeSlot(env, s, b);
      assert s.log + [] == s.log;
      SlotBooked(env, s, t, before, b.id, [], 1);
      SuccessorAside(t, b.num);
      assert Aside(t, CommitBlockFound(env, s, b));
    }
  }

  /** What the node experiences of a commit before its slot passes. */
  lemma BeforeSlot(env: Env, s: EngineState, b: Block) returns (before: seq<NodeEvent>)
    requires !Stranger(env.cfg, s.node, b.signer)
    ensures FeltCommitted(env.cfg, s, b) == before + [SlotPassed(b.id)]
    ensures forall ev :: ev in before ==> !ev.SlotPassed?
    ensures var paid := Reward(env.cfg, s.node, b.signer);
      NodeRun(env.cfg, s.node, before) == if Resumes(s, b) then Bootstrap(paid, b.payload) else paid
  {
    ResumeSteps(env.cfg, s.node, b);
    ResumeSteps(env.cfg, Reward(env.cfg, s.node, b.signer), b);
    if Resumes(s, b) {
      before := [Rewarded(b.signer), Bootstrapped(b.payload)];
      RunTwo(env.cfg, s.node, Rewarded(b.signer), Bootstrapped(b.payload));
    } else {
      before := [Rewarded(b.signer)];
      RunOne(env.cfg, s.node, Rewarded(b.signer));
    }
  }

  lemma MessageBooked(env: Env, s: EngineState, e: EngineEvent)
    requires EngineInv(env, s) && !s.stuck && e.FromPeer?
    ensures Booked(env, s, EngineStep(env, s, e), Felt(env, s, e), 0, 0)
  {
    PartWellFormed(s.cache.blocks.vals, env.store);
    if e.signer !in env.cfg.peerKeys || e.signer !in s.node.peers {
      AsideBooked(env, s, EngineStep(env, s, e), Felt(env, s, e));
    } else if e.msg.EmptySlotMsg? {
      EmptySlotBooked(env, s, e.signer, e.online);
    } else {
      OtherMessageAside(env, s, e.signer, e.msg, e.online);
      MessageFelt(env, s, e);
      AsideBooked(env, s, EngineStep(env, s, e), Felt(env, s, e));
    }
  }

  lemma MessageFelt(env: Env, s: EngineState, e: EngineEvent)
    requires EngineInv(env, s) && e.FromPeer? && !e.msg.EmptySlotMsg?
    ensures forall ev :: ev in Felt(env, s, e) ==> !ev.SlotPassed?
  {
  }

  lemma OtherMessageAside(env: Env, s: EngineState, k: Key, m: PeerMsg, online: nat)
    requires WellFormed(s.cache.blocks.vals) && !m.EmptySlotMsg?
    ensures Aside(s, HandlePeerStep(env, s, k, m, online))
  {
    match m
    case BootstrapMsg(boot, head) =>
      BootstrapStep(env, s, k, boot, head, online);
      BootstrapAside(env, s.(node := Seen(s.node, k)), boot, online, head);
    case BootstrapRequestMsg(h) => RequestAside(env, s, k, h, online);
    case VoteResultMsg(n, result) => ResultStep(env, s, k, n, result, online);
    case VoteMsg(n, votes, sent) => VoteAside(env, s, k, n, votes, sent, online);
  }

  lemma RequestAside(env: Env, s: EngineState, k: Key, h: Block, online: nat)
    ensures Aside(s, HandlePeerStep(env, s, k, BootstrapRequestMsg(h), online))
  {
    var reply := SendBootstrap(k, Boot(h.id, h.num, h.prev));
    MoreCalls(s, HandlePeerStep(env, s, k, BootstrapRequestMsg(h), online), [reply]);
  }

  lemma VoteAside(env: Env, s: EngineState, k: Key, n: nat, votes: Ballot, sent: Option<Result>, online: nat)
    ensures Aside(s, HandlePeerStep(env, s, k, VoteMsg(n, votes, sent), online))
  {
    SameCalls(s, HandlePeerStep(env, s, k, VoteMsg(n, votes, sent), online));
  }

  lemma EmptySlotBooked(env: Env, s: EngineState, k: Key, online: nat)
    requires EngineInv(env, s) && !s.stuck && k in env.cfg.peerKeys && k in s.node.peers
    ensures var e := FromPeer(k, EmptySlotMsg, online);
      Booked(env, s, EngineStep(env, s, e), Felt(env, s, e), 0, 0)
  {
    var e := FromPeer(k, EmptySlotMsg, online);
    EmptySlotHeard(env, s, k, online);
    ChargeIsTurn(s.node.epoch, k);
    EmptySlotFrame(env, s, k, online);
    if InCharge(s.node.epoch, k) {
      RunOne(env.cfg, s.node, Heard(k));
      HeardStep(env.cfg, s.node, k);
      assert s.log + [] == s.log;
      SlotBooked(env, s, EngineStep(env, s, e), [Heard(k)], s.pre, [], 0);
    } else {
      assert s.log + [] == s.log;
      AsideBooked(env, s, EngineStep(env, s, e), Felt(env, s, e));
    }
  }

  lemma EmptySlotFrame(env: Env, s: EngineState, k: Key, online: nat)
    requires EngineInv(env, s) && !s.stuck && k in env.cfg.peerKeys && k in s.node.peers
    ensures EngineStep(env, s, FromPeer(k, EmptySlotMsg, online)).waitingCommit == s.waitingCommit
    ensures Felt(env, s, FromPeer(k, EmptySlotMsg, online))
         == [Heard(k)] + if s.ExpectedSigner() == Some(k) then [SlotPassed(s.pre)] else []
  {
    PartWellFormed(s.cache.blocks.vals, env.store);
    SlotRequests(env, s.(node := Seen(s.node, k)));
    assert EngineStep(env, s, FromPeer(k, EmptySlotMsg, online)) == HandlePeerStep(env, s, k, EmptySlotMsg, online);
  }

  lemma LocalBooked(env: Env, s: EngineState, e: EngineEvent)
    requires EngineInv(env, s) && (e.OwnVote? || e.ResultTimer? || e.OwnBlockFinalized?)
    ensures Booked(env, s, EngineStep(env, s, e), Felt(env, s, e), 0, 0)
  {
    SameCalls(s, EngineStep(env, s, e));
    AsideBooked(env, s, EngineStep(env, s, e), Felt(env, s, e));
  }

  lemma OwnSlotBooked(env: Env, s: EngineState)
    requires EngineInv(env, s) && !s.stuck
    ensures Booked(env, s, EngineStep(env, s, OwnSlotEmpty), Felt(env, s, OwnSlotEmpty), 0, 0)
  {
    EmptySlotRequests(env, s);
    SlotRequests(env, Ask(s, BroadcastEmptySlot));
    assert EngineStep(env, s, OwnSlotEmpty) == AdvanceSlot(env, Ask(s, BroadcastEmptySlot)).0;
    assert [] + [SlotPassed(s.pre)] == [SlotPassed(s.pre)];
    SlotBooked(env, s, EngineStep(env, s, OwnSlotEmpty), [], s.pre, [BroadcastEmptySlot], 0);
  }

  lemma StepBooked(env: Env, s: EngineState, e: EngineEvent)
    requires EngineInv(env, s)
    ensures Booked(env, s, EngineStep(env, s, e), Felt(env, s, e), Granted(env, s, e), Handled(env, s, e))
  {
    if e.ResultTimer? {
      LocalBooked(env, s, e);
    } else if s.stuck {
      AsideBooked(env, s, s, []);
    } else {
      match e
      case BlockNew(_, _, _) => NewBlockBooked(env, s, e);
      case BlockValid(id) =>
        ValidStep(env, s, id);
        ValidBooked(env, s, e);
      case BlockInvalid(_) => InvalidBooked(env, s, e);
      case BlockCommitted(_) => CommittedBooked(env, s, e);
      case FromPeer(_, _, _) => MessageBooked(env, s, e);
      case OwnSlotEmpty => OwnSlotBooked(env, s);
      case SlotMissed => MissedBooked(env, s);
      case _ => LocalBooked(env, s, e);
    }
  }

  // ---- over runs

  lemma BookedNext(env: Env, a: seq<Call>, n: NodeState, t: EngineState, u: EngineState,
                   before: seq<NodeEvent>, felt: seq<NodeEvent>, granted: nat, handled: nat)
    requires OwnBlockCalls(t.log) == a + Due(env, n, before) && t.node == NodeRun(env.cfg, n, before)
    requires Booked(env, t, u, felt, granted, handled)
    ensures OwnBlockCalls(u.log) == a + Due(env, n, before + felt)
  {
    DueAppend(env, n, before, felt);
    Assoc(a, Due(env, n, before), Due(env, t.node, felt));
  }

  /** In every run the requests that drop or start a block of our own are exactly those that the slots of the
      node's run call for: each slot that passes drops one, and starts one if the next is the node's own. */
  lemma {:induction false} SlotLedger(env: Env, s: EngineState, es: seq<EngineEvent>)
    requires EngineInv(env, s)
    ensures OwnBlockCalls(EngineRun(env, s, es).log) == OwnBlockCalls(s.log) + Due(env, s.node, FeltRun(env, s, es))
  {
    if es == [] {
      assert OwnBlockCalls(s.log) + [] == OwnBlockCalls(s.log);
    } else {
      var n := |es| - 1;
      SlotLedger(env, s, es[..n]);
      SlotLedgerNext(env, s, es);
    }
  }

  lemma SlotLedgerNext(env: Env, s: EngineState, es: seq<EngineEvent>)
    requires EngineInv(env, s) && es != []
    requires var t := EngineRun(env, s, es[..|es|-1]);
      OwnBlockCalls(t.log) == OwnBlockCalls(s.log) + Due(env, s.node, FeltRun(env, s, es[..|es|-1]))
    ensures OwnBlockCalls(EngineRun(env, s, es).log) == OwnBlockCalls(s.log) + Due(env, s.node, FeltRun(env, s, es))
  {
    var n := |es| - 1;
    var t, e := EngineRun(env, s, es[..n]), es[n];
    StepBooked(env, t, e);
    EngineRefinesNode(env, s, es[..n]);
    BookedNext(env, OwnBlockCalls(s.log), s.node, t, EngineStep(env, t, e), FeltRun(env, s, es[..n]), Felt(env, t, e),
               Granted(env, t, e), Handled(env, t, e));
  }

  /** The commits granted and handled in a run. */
  ghost function GrantedIn(env: Env, s: EngineState, es: seq<EngineEvent>): nat
    requires EngineInv(env, s)
  {
    if es == [] then 0
    else GrantedIn(env, s, es[..|es|-1]) + Granted(env, EngineRun(env, s, es[..|es|-1]), es[|es|-1])
  }

  ghost function HandledIn(env: Env, s: EngineState, es: seq<EngineEvent>): nat
    requires EngineInv(env, s)
  {
    if es == [] then 0
    else HandledIn(env, s, es[..|es|-1]) + Handled(env, EngineRun(env, s, es[..|es|-1]), es[|es|-1])
  }

  /** In every run the counter of commits waited for is the number requested outside a catch-up less the number
      handled without raising. Those of a catch-up are not counted when they are requested. */
  lemma {:induction false} CommitLedger(env: Env, s: EngineState, es: seq<EngineEvent>)
    requires EngineInv(env, s)
    ensures EngineRun(env, s, es).waitingCommit == s.waitingCommit + GrantedIn(env, s, es) - HandledIn(env, s, es)
  {
    if es != [] {
      var n := |es| - 1;
      CommitLedger(env, s, es[..n]);
      StepBooked(env, EngineRun(env, s, es[..n]), es[n]);
    }
  }
}
