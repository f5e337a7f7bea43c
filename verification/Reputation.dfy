/** What makes a peer's score move, and when it counts in the draw of a ballot. */
module Reputation {
  import opened Types
  import opened VotingSystem
  import opened Node
  import opened NodeRuns
  import opened Agreement
  import opened Engine

  /** Everything but the score of k is the same. */
  ghost predicate OnlyScore(s: NodeState, t: NodeState, k: Key) {
    && t == s.(peers := t.peers) && t.peers.Keys == s.peers.Keys
    && (forall o :: o in s.peers && o != k ==> t.peers[o] == s.peers[o])
    && (k in s.peers ==> t.peers[k].online == s.peers[k].online)
  }

  /** A penalty takes a quarter of another peer's score, and changes nothing else. */
  lemma PenaltyTakesQuarter(c: Config, s: NodeState, k: Key)
    ensures OnlyScore(s, Penalize(c, s, k), k)
    ensures k == c.key ==> Penalize(c, s, k) == s
    ensures k != c.key && k in s.peers && s.peers[k].score > 0.0 ==>
      && 4.0 * Penalize(c, s, k).peers[k].score == 3.0 * s.peers[k].score
      && Penalize(c, s, k).peers[k].score < s.peers[k].score
  {
  }

  /** A reward adds 7.5 percent to another peer's score, up to 1, and changes nothing else. */
  lemma RewardRaises(c: Config, s: NodeState, k: Key)
    ensures OnlyScore(s, Reward(c, s, k), k)
    ensures k == c.key ==> Reward(c, s, k) == s
    ensures k != c.key && k in s.peers && 0.0 < s.peers[k].score <= 1.0 ==>
      var x, y := s.peers[k].score, Reward(c, s, k).peers[k].score;
      && 1000.0 * y == (if 1075.0 * x < 1000.0 then 1075.0 * x else 1000.0)
      && (x < 1.0 ==> x < y <= 1.0)
  {
  }

  /** Neither raises for the node itself, whoever its peers are, and both raise for any other key that is not
      among its peers. */
  lemma StrangerExactly(c: Config, s: NodeState, k: Key)
    ensures !Stranger(c, s, c.key)
    ensures k != c.key ==> (Stranger(c, s, k) <==> k !in s.peers)
  {
  }

  // ---- over runs

  function ScoreAt(c: Config, es: seq<NodeEvent>, i: nat, k: Key): real
    requires i <= |es| && k in From(c, es[..i]).peers
  {
    From(c, es[..i]).peers[k].score
  }

  lemma ScoreAfter(c: Config, s: NodeState, ev: NodeEvent, k: Key)
    requires k in s.peers && k != c.key && 0.0 < s.peers[k].score <= 1.0
    ensures k in NodeStep(c, s, ev).peers
    ensures var x, y := s.peers[k].score, NodeStep(c, s, ev).peers[k].score;
      && (ev == Penalized(k) ==> 4.0 * y == 3.0 * x)
      && (ev == Rewarded(k) ==> 1000.0 * y == if 1075.0 * x < 1000.0 then 1075.0 * x else 1000.0)
      && (ev != Penalized(k) && ev != Rewarded(k) ==> y == x)
  {
    match ev
    case Penalized(p) => PenaltyTakesQuarter(c, s, p);
    case Rewarded(p) => RewardRaises(c, s, p);
    case Heard(p) =>
    case _ => assert NodeStep(c, s, ev).peers == s.peers;
  }

  /** In every run another peer's score falls exactly at its penalties, by a quarter, and rises exactly at its
      rewards while it is below 1. */
  lemma ScoreMoves(c: Config, es: seq<NodeEvent>, i: nat, k: Key)
    requires i < |es| && k in c.peerKeys && k != c.key
    ensures k in From(c, es[..i]).peers && k in From(c, es[..i+1]).peers
    ensures var x, y := ScoreAt(c, es, i, k), ScoreAt(c, es, i + 1, k);
      && (y < x <==> es[i] == Penalized(k))
      && (y > x <==> es[i] == Rewarded(k) && x < 1.0)
      && (y < x ==> 4.0 * y == 3.0 * x)
  {
    ScoresStayPositive(c, es[..i]);
    NextPrefix(c, es, i);
    ScoreAfter(c, From(c, es[..i]), es[i], k);
  }

  /** A node's own score stays 1. */
  lemma {:induction false} OwnScoreStays(c: Config, es: seq<NodeEvent>)
    requires c.key in c.peerKeys
    ensures c.key in From(c, es).peers && From(c, es).peers[c.key].score == 1.0
  {
    if es != [] {
      var n := |es| - 1;
      OwnScoreStays(c, es[..n]);
      LastStep(c, InitialState(c), es);
      OwnScoreStep(c, From(c, es[..n]), es[n]);
    }
  }

  lemma OwnScoreStep(c: Config, s: NodeState, ev: NodeEvent)
    requires c.key in s.peers
    ensures c.key in NodeStep(c, s, ev).peers
    ensures NodeStep(c, s, ev).peers[c.key].score == s.peers[c.key].score
  {
    match ev
    case Penalized(p) => PenaltyTakesQuarter(c, s, p);
    case Rewarded(p) => RewardRaises(c, s, p);
    case Heard(p) =>
    case _ => assert NodeStep(c, s, ev).peers == s.peers;
  }

  // ---- the weight in the draw

  lemma SeenStep(c: Config, s: NodeState, ev: NodeEvent, k: Key)
    requires k in s.peers
    ensures k in NodeStep(c, s, ev).peers
    ensures NodeStep(c, s, ev).peers[k].online <==> s.peers[k].online || ev == Heard(k)
  {
    match ev
    case Penalized(p) => PenaltyTakesQuarter(c, s, p);
    case Rewarded(p) => RewardRaises(c, s, p);
    case Heard(p) =>
    case _ => assert NodeStep(c, s, ev).peers == s.peers;
  }

  /** A peer counts as online exactly when it is the node itself or was heard of. */
  lemma {:induction false} OnlineExactly(c: Config, es: seq<NodeEvent>, k: Key)
    requires k in c.peerKeys
    ensures k in From(c, es).peers && (From(c, es).peers[k].online <==> k == c.key || Heard(k) in es)
  {
    if es != [] {
      var n := |es| - 1;
      assert es == es[..n] + [es[n]];
      OnlineExactly(c, es[..n], k);
      LastStep(c, InitialState(c), es);
      SeenStep(c, From(c, es[..n]), es[n], k);
    }
  }

  /** Its weight in the draw of a ballot is its score then, and a thousandth otherwise. */
  lemma WeightExactly(c: Config, es: seq<NodeEvent>, k: Key)
    requires k in c.peerKeys
    ensures k in From(c, es).peers
    ensures var p := From(c, es).peers[k];
      1000.0 * DrawWeight(p) == if k == c.key || Heard(k) in es then 1000.0 * p.score else 1.0
  {
    OnlineExactly(c, es, k);
  }

  // ---- who is penalized and rewarded

  /** A witness that misses its slot, or whose block is found invalid, loses a quarter of its score and no other
      peer's score changes; the signer of a committed block gains. */
  lemma FailureIsPenalized(env: Env, s: EngineState, k: Key)
    ensures LoseSlot(env, s, k).0.node.peers == Penalize(env.cfg, s.node, k).peers
  {
  }

  lemma MissedSlotIsPenalized(env: Env, s: EngineState, k: Key)
    requires EngineInv(env, s) && !s.stuck && s.ExpectedSigner() == Some(k)
    requires k != env.cfg.key && k in s.node.peers && s.node.peers[k].score > 0.0
    ensures var t := EngineStep(env, s, SlotMissed).node;
      && k in t.peers && 4.0 * t.peers[k].score == 3.0 * s.node.peers[k].score
      && forall o :: o in s.node.peers && o != k ==> o in t.peers && t.peers[o] == s.node.peers[o]
  {
    MissedBy(env, s, k);
    FailureIsPenalized(env, s, k);
    PenaltyTakesQuarter(env.cfg, s.node, k);
  }

  lemma MissedBy(env: Env, s: EngineState, k: Key)
    requires EngineInv(env, s) && !s.stuck && s.ExpectedSigner() == Some(k)
    ensures EngineStep(env, s, SlotMissed) == LoseSlot(env, s, k).0
  {
    assert EngineStep(env, s, SlotMissed) == MissedSlot(env, s);
  }

  lemma InvalidBlockIsPenalized(env: Env, s: EngineState, id: Id)
    requires EngineInv(env, s) && !s.stuck && id in env.store
    requires var k := env.store[id].signer; k != env.cfg.key && k in s.node.peers && s.node.peers[k].score > 0.0
    ensures var k := env.store[id].signer; var t := EngineStep(env, s, BlockInvalid(id)).node;
      && k in t.peers && 4.0 * t.peers[k].score == 3.0 * s.node.peers[k].score
      && forall o :: o in s.node.peers && o != k ==> o in t.peers && t.peers[o] == s.node.peers[o]
  {
    var k := env.store[id].signer;
    RejectedBy(env, s, id);
    FailureIsPenalized(env, s, k);
    PenaltyTakesQuarter(env.cfg, s.node, k);
  }

  lemma RejectedBy(env: Env, s: EngineState, id: Id)
    requires EngineInv(env, s) && !s.stuck && id in env.store
    ensures EngineStep(env, s, BlockInvalid(id)).node == LoseSlot(env, s, env.store[id].signer).0.node
  {
    assert Lookup(env, s, id) == Some(env.store[id]);
    assert InvalidBlock(env, s, id) == Rejected(env, s, env.store[id].signer);
  }

  lemma CommitIsRewarded(env: Env, s: EngineState, id: Id)
    requires EngineInv(env, s) && !s.stuck && id in env.store
    requires var k := env.store[id].signer; k != env.cfg.key && k in s.node.peers && 0.0 < s.node.peers[k].score < 1.0
    ensures var k := env.store[id].signer; var t := EngineStep(env, s, BlockCommitted(id)).node;
      && k in t.peers && t.peers[k].score > s.node.peers[k].score
      && forall o :: o in s.node.peers && o != k ==> o in t.peers && t.peers[o] == s.node.peers[o]
  {
    var b := env.store[id];
    assert CommittedLookup(env, s, id) == Some(b);
    assert EngineStep(env, s, BlockCommitted(id)) == CommitBlockFound(env, s, b);
    RewardRaises(env.cfg, s.node, b.signer);
    CommittedPeers(env, s, b);
  }

  lemma CommittedPeers(env: Env, s: EngineState, b: Block)
    requires !Stranger(env.cfg, s.node, b.signer)
    ensures CommitBlockFound(env, s, b).node.peers == Reward(env.cfg, s.node, b.signer).peers
  {
    var r := Resume(MoveHead(env, s, b).0, b);
    assert r.node.peers == Reward(env.cfg, s.node, b.signer).peers;
    assert CommitBlockFound(env, s, b) == FollowUp(env, r, b.num);
  }
}
