/** Catching up: what is sent for checking, and where a completed catch-up ends. */
module CatchUp {
  import opened Types
  import opened PyDict
  import opened VotingSystem
  import opened Epoch
  import opened EpochRuns
  import opened Node
  import opened BlockCache
  import opened Chains
  import opened BootstrapTally
  import opened Engine
  import opened EngineRuns

  // ---- the fork branch

  /** Walking back from `cur`, the fork point is the first block of ours whose parent is on the chain. */
  lemma {:induction false} ForkPoint(store: Blocks, cur: Block, chain: seq<Id>, tries: nat)
    requires WellFormed(store) && cur.id in store && store[cur.id] == cur && cur.id !in chain
    requires CommonAndForked(store, cur, chain, tries).ForkAt?
    ensures var r := CommonAndForked(store, cur, chain, tries);
      && r.forked in store && r.forked in Walk(store, cur.id) && r.forked !in chain
      && store[r.forked].prev == r.common && r.common in chain && r.common in Walk(store, cur.id)
      && (r.common in store ==>
            forall x :: x in store && x in chain && x in Walk(store, cur.id) ==> store[x].num <= store[r.common].num)
    decreases tries
  {
    var r := CommonAndForked(store, cur, chain, tries);
    assert Walk(store, cur.id) == [cur.id] + Walk(store, cur.prev);
    if cur.prev in chain {
      assert cur.prev in Walk(store, cur.prev);
      forall x | r.common in store && x in store && x in chain && x in Walk(store, cur.id)
        ensures store[x].num <= store[r.common].num
      {
        WalkHeights(store, cur.prev, x);
      }
    } else {
      ForkPoint(store, store[cur.prev], chain, tries - 1);
    }
  }

  /** One of the first `tries` entries after the head of `ours` lies on the chain. */
  ghost predicate Meets(ours: seq<Id>, chain: seq<Id>, tries: nat) {
    exists i :: 1 <= i <= tries && i < |ours| && ours[i] in chain
  }

  lemma MeetsNext(x: Id, up: seq<Id>, chain: seq<Id>, tries: nat)
    requires up != [] && tries > 0
    ensures Meets([x] + up, chain, tries) <==> up[0] in chain || Meets(up, chain, tries - 1)
  {
    var ours := [x] + up;
    assert forall i :: 1 <= i < |ours| ==> ours[i] == up[i-1];
    if up[0] in chain {
      assert ours[1] in chain;
    }
    if i :| 1 <= i <= tries - 1 && i < |up| && up[i] in chain {
      assert ours[i+1] in chain;
    }
    if i :| 1 <= i <= tries && i < |ours| && ours[i] in chain {
      assert i > 1 ==> up[i-1] in chain;
    }
  }

  /** A fork point is found exactly when, within the given number of steps back over our own known
      blocks, some ancestor lies on the chain. */
  lemma {:induction false} ForkFoundIff(store: Blocks, cur: Block, chain: seq<Id>, tries: nat)
    requires WellFormed(store) && cur.id in store && store[cur.id] == cur
    ensures CommonAndForked(store, cur, chain, tries).ForkAt? <==> Meets(Walk(store, cur.id), chain, tries)
    decreases tries
  {
    var up := Walk(store, cur.prev);
    assert Walk(store, cur.id) == [cur.id] + up && up[0] == cur.prev;
    if tries > 0 {
      MeetsNext(cur.id, up, chain, tries);
      if cur.prev in store {
        ForkFoundIff(store, store[cur.prev], chain, tries - 1);
      } else {
        assert !Meets(up, chain, tries - 1);
      }
    }
  }

  lemma {:induction false} WithoutAbsent(s: seq<Id>, x: Id)
    requires x !in s
    ensures Without(s, x) == s
  {
    if s != [] {
      WithoutAbsent(s[1..], x);
    }
  }

  lemma {:induction false} IndexAfter(prefix: seq<Id>, x: Id, rest: seq<Id>)
    requires x !in prefix
    ensures IndexOf(prefix + [x] + rest, x) == |prefix|
  {
    if prefix != [] {
      IndexAfter(prefix[1..], x, rest);
      assert (prefix + [x] + rest)[1..] == prefix[1..] + [x] + rest;
    }
  }

  lemma CutAfter(prefix: seq<Id>, c: Id, rest: seq<Id>, pre: Id)
    requires c !in prefix && c != pre && pre !in rest
    ensures ForkBlocks(prefix + [c] + rest, c, pre) == rest
  {
    var chain := prefix + [c] + rest;
    IndexAfter(prefix, c, rest);
    assert chain[|prefix|..] == [c] + rest;
    WithoutAbsent([c] + rest, pre);
  }

  /** What is sent is the part of the chain to the target above the common block. */
  lemma ForkBlocksArePath(m: Blocks, target: Id, c: Id, pre: Id)
    requires WellFormed(m) && target in m && pre !in Walk(m, target) && c in LongestChain(m, target)
    ensures var sent := ForkBlocks(LongestChain(m, target), c, pre);
      && c in m && LongestChain(m, target) == LongestChain(m, c) + sent
      && (if c == target then sent == [] else Path(m, target, c) == Some(sent))
  {
    var chain := LongestChain(m, target);
    ChainIsWalk(m, target, pre);
    var rest := ChainAbove(m, target, c);
    LongestChainMaximal(m, target);
    LinkedDistinct(m, chain);
    LongestChainMaximal(m, c);
    var down := LongestChain(m, c);
    var prefix := down[..|down|-1];
    assert chain == prefix + [c] + rest && chain[|prefix|] == c;
    assert c !in prefix by {
      assert forall i :: 0 <= i < |prefix| ==> chain[i] == prefix[i];
    }
    assert forall x :: x in rest ==> x in chain;
    CutAfter(prefix, c, rest, pre);
  }

  lemma ChainAbove(m: Blocks, target: Id, c: Id) returns (rest: seq<Id>)
    requires WellFormed(m) && target in m && c in LongestChain(m, target)
    ensures c in m && LongestChain(m, target) == LongestChain(m, c) + rest
    ensures if c == target then rest == [] else Path(m, target, c) == Some(rest)
  {
    ChainIsWalk(m, target, c);
    rest := [];
    if c != target {
      BlockPathSucceeds(m, target, c);
      ChainDecomposes(m, target, c);
      rest := Path(m, target, c).value;
    }
  }

  /** c is the fork point below our head `ours`: the highest block on both chains. Its child f is ours
      and not on the target's chain, and `sent` are the target's blocks above c, oldest first. */
  ghost predicate ForkSite(store: Blocks, m: Blocks, ours: Id, target: Id, c: Id, f: Id, sent: seq<Id>)
    requires WellFormed(store) && WellFormed(m) && target in m
  {
    var chain := LongestChain(m, target);
    && f in store && f in Walk(store, ours) && f !in chain && store[f].prev == c
    && c in m && c in store && c in chain && c in Walk(store, ours)
    && (forall x :: x in store && x in chain && x in Walk(store, ours) ==> store[x].num <= store[c].num)
    && chain == LongestChain(m, c) + sent
    && (if c == target then sent == [] else Path(m, target, c) == Some(sent))
  }

  /** The fork branch: the target is cached but does not lead back to our committed head, which is the
      validator's head. If the walk back over our own chain finds (c, f), that is the fork point; f is
      failed, and exactly the target's blocks above c are sent for checking. */
  lemma ForkBranch(env: Env, s: EngineState, target: Id, num: int, head: Block)
    requires EngineInv(env, s) && !s.CatchingUp() && head.id == s.pre
    requires head.id in env.store && env.store[head.id] == head
    requires target in s.cache.blocks.vals && WellFormed(s.cache.blocks.vals)
    requires s.pre !in Walk(s.cache.blocks.vals, target)
    requires CommonAndForked(env.store, head, LongestChain(s.cache.blocks.vals, target), 10).ForkAt?
    ensures var m := s.cache.blocks.vals; var chain := LongestChain(m, target);
      var fork := CommonAndForked(env.store, head, chain, 10);
      && fork.common in chain
      && var sent := ForkBlocks(chain, fork.common, s.pre);
      && ForkSite(env.store, m, s.pre, target, fork.common, fork.forked, sent)
      && Fastforward(env, s, target, num, head).1
      && Fastforward(env, s, target, num, head).0.log == s.log + [FailBlock(fork.forked), CheckBlocks(sent)]
  {
    var m := s.cache.blocks.vals;
    var chain := LongestChain(m, target);
    var fork := CommonAndForked(env.store, head, chain, 10);
    ChainIsWalk(m, target, s.pre);
    ForkPoint(env.store, head, chain, 10);
    ForkBlocksArePath(m, target, fork.common, s.pre);
    assert Walk(m, target)[0] == target;
    ForkCalls(env, s, target, num, head);
  }

  lemma ForkCalls(env: Env, s: EngineState, target: Id, num: int, head: Block)
    requires EngineInv(env, s) && WellFormed(s.cache.blocks.vals) && !s.CatchingUp()
    requires target in s.cache.blocks.vals && s.pre !in Walk(s.cache.blocks.vals, target) && target != s.pre
    requires CommonAndForked(env.store, head, LongestChain(s.cache.blocks.vals, target), 10).ForkAt?
    ensures var chain := LongestChain(s.cache.blocks.vals, target);
      var fork := CommonAndForked(env.store, head, chain, 10);
      && fork.common in chain
      && Fastforward(env, s, target, num, head).1
      && Fastforward(env, s, target, num, head).0.log
         == s.log + [FailBlock(fork.forked), CheckBlocks(ForkBlocks(chain, fork.common, s.pre))]
  {
    var t := s.(node := s.node.(phase := Phase.CatchingUp), target := Some(Target(target, num)));
    ForkRequests(env, t, target, head);
    assert Fastforward(env, s, target, num, head) == CheckMissing(env, t, target, head);
  }

  lemma ForkRequests(env: Env, s: EngineState, target: Id, head: Block)
    requires WellFormed(s.cache.blocks.vals) && target in s.cache.blocks.vals
    requires s.pre !in Walk(s.cache.blocks.vals, target)
    requires CommonAndForked(env.store, head, LongestChain(s.cache.blocks.vals, target), 10).ForkAt?
    ensures var chain := LongestChain(s.cache.blocks.vals, target);
      var fork := CommonAndForked(env.store, head, chain, 10); var r := CheckMissing(env, s, target, head);
      && fork.common in chain && r.1
      && r.0.log == s.log + [FailBlock(fork.forked), CheckBlocks(ForkBlocks(chain, fork.common, s.pre))]
  {
    var chain := LongestChain(s.cache.blocks.vals, target);
    ForkInChain(env.store, head, chain, 10);
    ForkLog(s, chain, CommonAndForked(env.store, head, chain, 10));
    assert CheckMissing(env, s, target, head) == CheckFork(s, chain, CommonAndForked(env.store, head, chain, 10));
  }

  lemma ForkLog(s: EngineState, chain: seq<Id>, fork: Fork)
    requires fork.ForkAt? && fork.common in chain
    ensures var r := CheckFork(s, chain, fork);
      r.1 && r.0.log == s.log + [FailBlock(fork.forked), CheckBlocks(ForkBlocks(chain, fork.common, s.pre))]
  {
    AskedTwice(s, FailBlock(fork.forked), ForkBlocks(chain, fork.common, s.pre));
  }

  lemma AskedTwice(s: EngineState, c: Call, ids: seq<Id>)
    ensures AskCheck(Ask(s, c), ids).log == s.log + [c, CheckBlocks(ids)]
  {
  }

  // ---- the straight branch, from the request to the end

  /** The verdicts and commits of the path's blocks: each verdict after the previous commit. */
  function Script(path: seq<Id>): seq<EngineEvent> {
    if path == [] then []
    else Script(path[..|path|-1]) + [BlockValid(path[|path|-1]), BlockCommitted(path[|path|-1])]
  }

  /** The verdicts and commits in a run; everything else may be interleaved freely. */
  function Relevant(es: seq<EngineEvent>): seq<EngineEvent> {
    if es == [] then []
    else
      var e := es[|es|-1];
      Relevant(es[..|es|-1]) + (if e.BlockValid? || e.BlockCommitted? then [e] else [])
  }

  /** Catching up along `path`, with the first k blocks committed and `asked` commits requested. */
  ghost predicate Underway(s: EngineState, start: EngineState, path: seq<Id>, k: nat, asked: nat) {
    && k <= |path| && asked <= |path|
    && s.CatchingUp() && s.target == start.target
    && s.pre == (if k == 0 then start.pre else path[k-1])
    && Commits(s.log) == Commits(start.log) + path[..asked]
  }

  /** The blocks of the path: linked, known, and only the last one has the target's number. */
  ghost predicate Route(env: Env, start: EngineState, path: seq<Id>) {
    && path != [] && Linked(env.store, path) && env.store[path[0]].prev == start.pre
    && start.target == Some(Target(path[|path|-1], env.store[path[|path|-1]].num))
  }

  lemma RouteStep(env: Env, s: EngineState, start: EngineState, path: seq<Id>, k: nat)
    requires EngineInv(env, s) && !s.stuck && Route(env, start, path) && k < |path| && Underway(s, start, path, k, k)
    ensures Underway(EngineStep(env, s, BlockValid(path[k])), start, path, k, k + 1)
  {
    assert path[..k+1] == path[..k] + [path[k]];
  }

  lemma KnownBlock(env: Env, s: EngineState, id: Id)
    requires EngineInv(env, s) && id in env.store
    ensures CommittedLookup(env, s, id) == Some(env.store[id])
  {
  }

  lemma CommitStep(env: Env, s: EngineState, start: EngineState, path: seq<Id>, k: nat)
    requires EngineInv(env, s) && !s.stuck && Route(env, start, path) && k + 1 < |path|
    requires Underway(s, start, path, k, k + 1)
    ensures Underway(EngineStep(env, s, BlockCommitted(path[k])), start, path, k + 1, k + 1)
  {
    var b := env.store[path[k]];
    KnownBlock(env, s, path[k]);
    NumbersRise(env.store, path, k);
    NumbersRise(env.store, path, |path| - 1);
    var t := MoveHead(env, s, b).0;
    assert Resume(t, b) == t;
    assert EngineStep(env, s, BlockCommitted(path[k])) == CommitBlockFound(env, s, b);
  }

  /** As long as the target is not committed and no handler hangs, the catch-up is exactly as far as its
      verdicts and commits say, whatever else happened. */
  lemma {:induction false} Progress(env: Env, start: EngineState, es: seq<EngineEvent>, path: seq<Id>, k: nat,
                                    asked: bool)
    requires EngineInv(env, start) && start.CatchingUp() && Route(env, start, path) && k < |path|
    requires Relevant(es) == Script(path[..k]) + (if asked then [BlockValid(path[k])] else [])
    requires !EngineRun(env, start, es).stuck
    ensures Underway(EngineRun(env, start, es), start, path, k, if asked then k + 1 else k)
  {
    if es == [] {
      ScriptLength(path[..k]);
      assert path[..0] == [];
    } else {
      var n := |es| - 1;
      if !es[n].BlockValid? && !es[n].BlockCommitted? {
        Progress(env, start, es[..n], path, k, asked);
      } else if asked {
        LastOf(Relevant(es[..n]), es[n], Script(path[..k]), BlockValid(path[k]));
        Progress(env, start, es[..n], path, k, false);
        RouteStep(env, EngineRun(env, start, es[..n]), start, path, k);
      } else {
        LastCommitted(es, path, k);
        Progress(env, start, es[..n], path, k - 1, true);
        CommitStep(env, EngineRun(env, start, es[..n]), start, path, k - 1);
      }
    }
  }

  lemma LastCommitted(es: seq<EngineEvent>, path: seq<Id>, k: nat)
    requires es != [] && k < |path| && Relevant(es) == Script(path[..k])
    requires es[|es|-1].BlockValid? || es[|es|-1].BlockCommitted?
    ensures k > 0 && es[|es|-1] == BlockCommitted(path[k-1])
    ensures Relevant(es[..|es|-1]) == Script(path[..k-1]) + [BlockValid(path[k-1])]
  {
    ScriptLength(path[..k]);
    assert path[..k][..k-1] == path[..k-1];
    ScriptLast(path[..k]);
    LastOf(Relevant(es[..|es|-1]), es[|es|-1],
           Script(path[..k-1]) + [BlockValid(path[k-1])], BlockCommitted(path[k-1]));
  }

  lemma ScriptLast(path: seq<Id>)
    requires path != []
    ensures var k := |path| - 1;
      Script(path) == (Script(path[..k]) + [BlockValid(path[k])]) + [BlockCommitted(path[k])]
  {
  }

  lemma ScriptLength(path: seq<Id>)
    ensures Script(path) == [] <==> path == []
  {
  }

  lemma LastOf<T>(a: seq<T>, x: T, b: seq<T>, y: T)
    requires a + [x] == b + [y]
    ensures a == b && x == y
  {
    assert (a + [x])[|a|] == x && (b + [y])[|b|] == y;
    assert (a + [x])[..|a|] == a && (b + [y])[..|b|] == b;
  }

  /** The straight branch: the target is cached and leads back to the committed head. Then the whole
      path to it is sent for checking, and it is a route. */
  lemma StraightBranch(env: Env, s: EngineState, target: Id, num: int, head: Block)
    requires EngineInv(env, s) && !s.CatchingUp() && target != s.pre
    requires target in s.cache.blocks.vals && num == env.store[target].num
    ensures WellFormed(s.cache.blocks.vals)
    ensures s.pre in Walk(s.cache.blocks.vals, target) ==>
      var path := Path(s.cache.blocks.vals, target, s.pre); var t := Fastforward(env, s, target, num, head).0;
      && path.Some? && IsPath(s.cache.blocks.vals, path.value, target, s.pre)
      && t.log == s.log + [CheckBlocks(path.value)]
      && t.CatchingUp() && t.pre == s.pre && Route(env, t, path.value)
  {
    var m := s.cache.blocks.vals;
    PartWellFormed(m, env.store);
    BlockPathSucceeds(m, target, s.pre);
    if s.pre in Walk(m, target) {
      BlockPathExact(m, target, s.pre, Path(m, target, s.pre).value);
    }
  }

  /** With the first k blocks of the path committed, a positive verdict on its j-th block makes the engine ask
      for the commit exactly when j is next; if the verdict comes out of order, the block is failed. */
  lemma VerdictInOrder(env: Env, s: EngineState, start: EngineState, path: seq<Id>, k: nat, asked: nat, j: nat)
    requires EngineInv(env, s) && !s.stuck && Route(env, start, path) && Underway(s, start, path, k, asked)
    requires j < |path|
    ensures EngineStep(env, s, BlockValid(path[j])).log
         == s.log + [if j == k then CommitBlock(path[j]) else FailBlock(path[j])]
  {
    CatchUpVerdict(env, s, path[j]);
    Successor(env, start, path, k, j);
  }

  /** Of the path's blocks only the k-th one extends the block before it. */
  lemma Successor(env: Env, start: EngineState, path: seq<Id>, k: nat, j: nat)
    requires WellFormed(env.store) && Route(env, start, path) && k <= |path| && j < |path|
    ensures env.store[path[j]].prev == (if k == 0 then start.pre else path[k-1]) <==> j == k
  {
    NumbersRise(env.store, path, j);
    if k > 0 {
      NumbersRise(env.store, path, k - 1);
    }
    assert j > 0 ==> env.store[path[j]].prev == path[j-1];
  }

  /** The engine takes over a producer's epoch p in the slot of block `id`. */
  ghost predicate TakesOver(env: Env, t: EngineState, id: Id, p: EpochState) {
    exists n: NodeState :: n.epoch == p && n.numSlots == p.numSlots && n.phase == Production
                        && t.node == NextSlot(n, env.cfg.hash, id).0
  }

  lemma ResumeStep(env: Env, s: EngineState, start: EngineState, path: seq<Id>, p: EpochState)
    requires EngineInv(env, s) && !s.stuck && Route(env, start, path)
    requires Underway(s, start, path, |path| - 1, |path|)
    requires env.store[path[|path|-1]].payload == Payload(p) && Full(p)
    ensures var id := path[|path|-1]; var t := EngineStep(env, s, BlockCommitted(id));
      && t.pre == id && t.preNum == env.store[id].num
      && Commits(t.log) == Commits(start.log) + path
      && if Stranger(env.cfg, s.node, env.store[id].signer) then t.CatchingUp() else TakesOver(env, t, id, p)
  {
    var id := path[|path|-1];
    var b := env.store[id];
    KnownBlock(env, s, id);
    assert path[..|path|] == path;
    assert EngineStep(env, s, BlockCommitted(id)) == CommitBlockFound(env, s, b);
    if !Stranger(env.cfg, s.node, b.signer) {
      var r := Resumed(env, s, b, p);
      assert CommitBlockFound(env, s, b) == FollowUp(env, r, b.num);
    }
  }

  lemma Resumed(env: Env, s: EngineState, b: Block, p: EpochState) returns (r: EngineState)
    requires !Stranger(env.cfg, s.node, b.signer)
    requires s.CatchingUp() && s.target.Some? && b.num == s.target.value.num && b.payload == Payload(p) && Full(p)
    ensures r == Resume(MoveHead(env, s, b).0, b)
    ensures r.node.epoch == p && r.node.numSlots == p.numSlots && r.node.phase == Production
    ensures r.pre == b.id && r.preNum == b.num && r.log == s.log
  {
    RestoreRoundTrip(p);
    r := Resume(MoveHead(env, s, b).0, b);
  }

  // ---- the peers dict keeps its keys

  predicate SamePeers(s: NodeState, t: NodeState, k: Key) {
    k in t.peers <==> k in s.peers
  }

  lemma PeersInMessage(env: Env, s: EngineState, signer: Key, m: PeerMsg, online: nat, k: Key)
    requires WellFormed(s.cache.blocks.vals)
    ensures SamePeers(s.node, HandlePeerMsg(env, s, signer, m, online).node, k)
  {
    var t := s.(node := Seen(s.node, signer));
    if m.BootstrapMsg? {
      BootstrapStep(env, s, signer, m.boot, m.head, online);
      PeersInBootstrap(env, t, m.boot, online, m.head, k);
      assert m == BootstrapMsg(m.boot, m.head);
    } else if m.VoteResultMsg? {
      ResultStep(env, s, signer, m.epoch, m.result, online);
      assert m == VoteResultMsg(m.epoch, m.result);
    } else {
      PeersInOther(env, s, signer, m, online, k);
    }
  }

  lemma PeersInOther(env: Env, s: EngineState, signer: Key, m: PeerMsg, online: nat, k: Key)
    requires m.VoteMsg? || m.EmptySlotMsg? || m.BootstrapRequestMsg?
    ensures SamePeers(s.node, HandlePeerStep(env, s, signer, m, online).node, k)
  {
    if m.VoteMsg? {
      PeersInVote(env.cfg, Seen(s.node, signer), signer, m.epoch, m.votes, online, m.sent);
    } else if m.EmptySlotMsg? {
      assert AdvanceSlot(env, s.(node := Seen(s.node, signer))).0.node.peers == Seen(s.node, signer).peers;
    }
  }

  lemma PeersInVote(c: Config, n: NodeState, peer: Key, e: nat, votes: Ballot, online: nat, sent: Option<Result>)
    ensures HandleVote(c, n, peer, e, votes, online, sent).peers == n.peers
  {
  }

  lemma PeersInBootstrap(env: Env, s: EngineState, boot: Boot, online: nat, head: Block, k: Key)
    requires WellFormed(s.cache.blocks.vals)
    ensures SamePeers(s.node, HandleBootstrap(env, s, boot, online, head).node, k)
  {
    PeersInChase(env, s.(boots := s.boots + [boot]), online, head, k);
  }

  lemma PeersInChase(env: Env, s: EngineState, online: nat, head: Block, k: Key)
    requires WellFormed(s.cache.blocks.vals) && s.boots != []
    ensures SamePeers(s.node, Chase(env, s, online, head).0.node, k)
  {
    TalliedKeys(s.boots);
    var d := Tallied(s.boots);
    var b := Best(d.keys, d.vals);
    ChasedNode(env, s, b, d.vals[b].num, head);
  }

  lemma PeersInCommit(env: Env, s: EngineState, b: Block, k: Key)
    ensures SamePeers(s.node, CommitBlockFound(env, s, b).node, k)
  {
    var r := MoveHead(env, s, b);
    assert SamePeers(s.node, r.0.node, k);
    assert r.1 ==> CommitBlockFound(env, s, b) == FollowUp(env, Resume(r.0, b), b.num);
  }

  lemma PeersInLostSlot(env: Env, s: EngineState, w: Key, k: Key)
    ensures SamePeers(s.node, LoseSlot(env, s, w).0.node, k)
  {
  }

  lemma PeersInLocal(env: Env, s: EngineState, e: EngineEvent, k: Key)
    ensures SamePeers(s.node, LocalStep(env, s, e).node, k)
  {
    if e.SlotMissed? && s.ExpectedSigner().Some? {
      PeersInLostSlot(env, s, s.ExpectedSigner().value, k);
    }
  }

  lemma PeersInInvalid(env: Env, s: EngineState, id: Id, k: Key)
    ensures SamePeers(s.node, InvalidBlock(env, s, id).0.node, k)
  {
    if Lookup(env, s, id).Some? {
      PeersInLostSlot(env, s, Lookup(env, s, id).value.signer, k);
    }
  }

  lemma PeersInCommitted(env: Env, s: EngineState, id: Id, k: Key)
    ensures SamePeers(s.node, Committed(env, s, id).node, k)
  {
    if CommittedLookup(env, s, id).Some? {
      PeersInCommit(env, s, CommittedLookup(env, s, id).value, k);
    }
  }

  lemma PeersInNewBlock(env: Env, s: EngineState, e: EngineEvent, k: Key)
    requires EngineInv(env, s) && e.BlockNew?
    ensures SamePeers(s.node, NewBlockStep(env, s, e).node, k)
  {
    if Acceptable(env, s, e) {
      AppendPart(env.store, s.cache, e.block);
    }
  }

  lemma PeersInStep(env: Env, s: EngineState, e: EngineEvent, k: Key)
    requires EngineInv(env, s)
    ensures SamePeers(s.node, EngineStep(env, s, e).node, k)
  {
    PartWellFormed(s.cache.blocks.vals, env.store);
    match e
    case BlockNew(_, _, _) => PeersInNewBlock(env, s, e, k);
    case BlockValid(_) =>
    case BlockInvalid(id) => PeersInInvalid(env, s, id, k);
    case BlockCommitted(id) => PeersInCommitted(env, s, id, k);
    case FromPeer(signer, m, online) => PeersInMessage(env, s, signer, m, online, k);
    case _ => PeersInLocal(env, s, e, k);
  }

  lemma {:induction false} PeersStay(env: Env, s: EngineState, es: seq<EngineEvent>, k: Key)
    requires EngineInv(env, s)
    ensures SamePeers(s.node, EngineRun(env, s, es).node, k)
  {
    if es != [] {
      PeersStay(env, s, es[..|es|-1], k);
      PeersInStep(env, EngineRun(env, s, es[..|es|-1]), es[|es|-1], k);
    }
  }

  lemma ChasedNode(env: Env, s: EngineState, target: Id, num: int, head: Block)
    requires WellFormed(s.cache.blocks.vals)
    ensures Fastforward(env, s, target, num, head).0.node.peers == s.node.peers
  {
  }

  /** A catch-up to a cached target that leads back to the committed head, and everything that happens
      from the request to the commit of the target: the path's blocks get one verdict each, oldest first,
      each after the previous commit. Anything else may come in between that does not hang a handler. */
  ghost predicate RunToTarget(env: Env, s: EngineState, target: Id, num: int, head: Block, es: seq<EngineEvent>)
    requires EngineInv(env, s)
  {
    && !s.CatchingUp() && target != s.pre
    && target in s.cache.blocks.vals && num == env.store[target].num
    && WellFormed(s.cache.blocks.vals) && s.pre in Walk(s.cache.blocks.vals, target)
    && var path := Path(s.cache.blocks.vals, target, s.pre); var start := Fastforward(env, s, target, num, head).0;
       && path.Some? && Relevant(es) == Script(path.value) && es != [] && es[|es|-1].BlockCommitted?
       && EngineInv(env, start) && !EngineRun(env, start, es).stuck
  }

  /** Catch-up, end to end. Every block of the path is asked to be committed, in order, and the committed
      head is the target. If the target's signer is a peer, the node stands where the producer stands
      one slot after writing its epoch p into the target; if not, the handler raises and the node keeps
      catching up. */
  lemma CatchUpCompletes(env: Env, s: EngineState, target: Id, num: int, head: Block, es: seq<EngineEvent>,
                         p: EpochState)
    requires EngineInv(env, s) && RunToTarget(env, s, target, num, head, es)
    requires env.store[target].payload == Payload(p) && Full(p)
    ensures var path := Path(s.cache.blocks.vals, target, s.pre).value;
      var t := EngineRun(env, Fastforward(env, s, target, num, head).0, es);
      && t.pre == target && t.preNum == env.store[target].num
      && Commits(t.log) == Commits(s.log) + path
      && if Stranger(env.cfg, s.node, env.store[target].signer) then t.CatchingUp() else TakesOver(env, t, target, p)
  {
    var path := Path(s.cache.blocks.vals, target, s.pre).value;
    var start := Fastforward(env, s, target, num, head).0;
    StraightBranch(env, s, target, num, head);
    var n, k := |es| - 1, |path| - 1;
    ScriptLast(path);
    LastOf(Relevant(es[..n]), es[n], Script(path[..k]) + [BlockValid(path[k])], BlockCommitted(path[k]));
    Progress(env, start, es[..n], path, k, true);
    ResumeStep(env, EngineRun(env, start, es[..n]), start, path, p);
    ChasedNode(env, s, target, num, head);
    PeersStay(env, start, es[..n], env.store[target].signer);
  }

  /** What taking over means: unless that slot ends the epoch, the node produces in the producer's
      own next state; if it does end it and no successor is ready, the node idles there with it. */
  lemma TakenOver(env: Env, t: EngineState, id: Id, p: EpochState)
    requires TakesOver(env, t, id, p) && p.witnesses != []
    ensures var q := Increment(p, env.cfg.hash, id);
      if !q.IsOver() then t.node.epoch == q && t.node.phase == Production
      else (t.node.epoch == q && t.node.phase == Idle) || t.node.epoch.number == p.number + 1
  {
  }

  // ---- from the bootstrap messages to the target

  lemma HonestNumber(store: Blocks, ms: seq<Boot>, id: Id)
    requires WellFormed(store) && id in store && id in Tallied(ms).vals && forall m :: m in ms ==> Honest(store, m)
    ensures Tallied(ms).vals[id].num == store[id].num
  {
    NumIsGiven(ms, id);
    var n := Tallied(ms).vals[id].num;
    var m :| m in ms && Gives(m, id, n);
    assert Honest(store, m);
  }

  /** Honest reporters at most one block apart: once enough of them answered, a node that is not yet
      catching up aims at the highest block they all hold, under its true number; if that is its own
      committed head, it starts the collection over. */
  lemma BootstrapAimsAtCommonHead(env: Env, s: EngineState, online: nat, head: Block, top: Id)
    requires EngineInv(env, s) && WellFormed(s.cache.blocks.vals) && !s.CatchingUp() && s.boots != []
    requires Together(env.store, s.boots, top) && |s.boots| >= ConsensusAmount(env.cfg.slots, online) - 1
    requires CommonHead(env.store, s.boots, top) in env.store
    ensures var x := CommonHead(env.store, s.boots, top); var t := Chase(env, s, online, head).0;
      && HeldByAll(env.store, s.boots, x)
      && if x == s.pre then t == s.(requested := false, boots := [])
         else t.CatchingUp() && t.target == Some(Target(x, env.store[x].num))
  {
    var x := CommonHead(env.store, s.boots, top);
    var d := Tallied(s.boots);
    HeadHeldByAll(env.store, s.boots, top);
    CountAtCommon(env.store, s.boots, top);
    CountIsMentions(s.boots, x);
    HonestNumber(env.store, s.boots, x);
    assert Best(d.keys, d.vals) == x && d.vals[x].count == |s.boots|;
  }
}
