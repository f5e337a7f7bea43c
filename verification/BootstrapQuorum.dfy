/** How many members stand behind the head that a node catches up to. The code counts messages: one member
    that repeats itself is enough, and only when nobody is counted twice the threshold means that many members. */
module BootstrapQuorum {
  import opened Types
  import opened VotingSystem
  import opened Node
  import opened BlockCache
  import opened BootstrapTally
  import opened Engine
  import opened EngineRuns

  // ---- one member repeats a message

  function Repeated<T>(x: T, n: nat): (s: seq<T>)
    ensures |s| == n && forall y :: y in s ==> y == x
  {
    if n == 0 then [] else Repeated(x, n - 1) + [x]
  }

  /** Then its head is chosen, and counts once for every message. */
  lemma RepeatedHead(m: Boot, n: nat)
    requires m.head != m.pre && n >= 1
    ensures var d := Tallied(Repeated(m, n));
      && d.keys != [] && Best(d.keys, d.vals) == m.head && d.vals[m.head] == Entry(m.num, n)
  {
    var ms := Repeated(m, n);
    var d := Tallied(ms);
    TalliedKeys(ms);
    var b := Best(d.keys, d.vals);
    NoneOutranksBest(d.keys, d.vals);
    RepeatedCount(m, n, m.head);
    RepeatedCount(m, n, b);
    RepeatedNum(m, n, m.head);
    RepeatedNum(m, n, b);
    assert m.head in d.keys && Outranks(d.vals[b], d.vals[m.head]);
  }

  lemma RepeatedCount(m: Boot, n: nat, id: Id)
    requires m.head != m.pre && n >= 1
    ensures var d := Tallied(Repeated(m, n));
      && m.head in d.vals && d.vals[m.head].count == n
      && (id in d.vals ==> d.vals[id].count <= n)
  {
    var ms := Repeated(m, n);
    MentionBounds(ms, m.head);
    MentionBounds(ms, id);
    CountIsMentions(ms, m.head);
    CountIsMentions(ms, id);
  }

  lemma RepeatedNum(m: Boot, n: nat, id: Id)
    requires id in Tallied(Repeated(m, n)).vals
    ensures Gives(m, id, Tallied(Repeated(m, n)).vals[id].num)
  {
    var ms := Repeated(m, n);
    NumIsGiven(ms, id);
    var o :| o in ms && Gives(o, id, Tallied(ms).vals[id].num);
  }

  /** The collection holds n copies of the message, and nothing else has changed. */
  ghost predicate Collecting(s: EngineState, t: EngineState, k: Key, m: Boot, n: nat) {
    t == s.(node := t.node, boots := Repeated(m, n)) && (t.node == s.node || t.node == Seen(s.node, k))
  }

  lemma SeenTwice(n: NodeState, k: Key)
    ensures Seen(Seen(n, k), k) == Seen(n, k)
  {
  }

  lemma TooFew(env: Env, s: EngineState, m: Boot, n: nat, online: nat, head: Block)
    requires WellFormed(s.cache.blocks.vals) && m.head != m.pre && s.boots == Repeated(m, n)
    requires n + 1 < ConsensusAmount(env.cfg.slots, online) - 1 <= online - 1
    ensures HandleBootstrap(env, s, m, online, head) == s.(boots := Repeated(m, n + 1))
  {
    var t := s.(boots := s.boots + [m]);
    RepeatedHead(m, n + 1);
    assert Chase(env, t, online, head) == (t, true);
  }

  lemma Enough(env: Env, s: EngineState, m: Boot, n: nat, online: nat, head: Block)
    requires WellFormed(s.cache.blocks.vals) && m.head != m.pre && s.boots == Repeated(m, n)
    requires !s.CatchingUp() && m.head != s.pre && m.head !in s.cache.blocks.vals
    requires n + 1 == ConsensusAmount(env.cfg.slots, online) - 1
    ensures var t := HandleBootstrap(env, s, m, online, head);
      t.CatchingUp() && t.target == Some(Target(m.head, m.num))
  {
    var t := s.(boots := s.boots + [m]);
    RepeatedHead(m, n + 1);
    assert Chase(env, t, online, head) == Fastforward(env, t, m.head, m.num, head);
  }

  /** The sender is a member and a peer, its head is unknown to everybody, and consensus is possible at all. */
  ghost predicate Unfounded(env: Env, s: EngineState, k: Key, m: Boot, online: nat) {
    && EngineInv(env, s) && !s.stuck && !s.CatchingUp() && s.boots == []
    && k in env.cfg.peerKeys && k in s.node.peers
    && m.head !in env.store && m.head != s.pre && m.head != m.pre
    && 2 <= ConsensusAmount(env.cfg.slots, online) <= online
  }

  lemma MessageStep(env: Env, s: EngineState, k: Key, m: Boot, online: nat, head: Block)
    requires EngineInv(env, s) && !s.stuck && k in env.cfg.peerKeys && k in s.node.peers
    ensures WellFormed(s.cache.blocks.vals)
    ensures EngineStep(env, s, FromPeer(k, BootstrapMsg(m, head), online))
         == HandleBootstrap(env, s.(node := Seen(s.node, k)), m, online, head)
  {
    PartWellFormed(s.cache.blocks.vals, env.store);
    BootstrapStep(env, s, k, m, head, online);
  }

  lemma NotYet(env: Env, s: EngineState, t: EngineState, k: Key, m: Boot, n: nat, online: nat, head: Block)
    requires Unfounded(env, s, k, m, online) && EngineInv(env, t) && Collecting(s, t, k, m, n)
    requires n + 1 < ConsensusAmount(env.cfg.slots, online) - 1
    ensures Collecting(s, EngineStep(env, t, FromPeer(k, BootstrapMsg(m, head), online)), k, m, n + 1)
  {
    MessageStep(env, t, k, m, online, head);
    SeenTwice(s.node, k);
    TooFew(env, t.(node := Seen(t.node, k)), m, n, online, head);
  }

  lemma {:induction false} Collects(env: Env, s: EngineState, k: Key, m: Boot, n: nat, online: nat, head: Block)
    requires Unfounded(env, s, k, m, online) && n < ConsensusAmount(env.cfg.slots, online) - 1
    ensures Collecting(s, EngineRun(env, s, Repeated(FromPeer(k, BootstrapMsg(m, head), online), n)), k, m, n)
  {
    if n > 0 {
      var e := FromPeer(k, BootstrapMsg(m, head), online);
      Collects(env, s, k, m, n - 1, online, head);
      RunSnoc(env, s, Repeated(e, n - 1), e);
      NotYet(env, s, EngineRun(env, s, Repeated(e, n - 1)), k, m, n - 1, online, head);
    }
  }

  /** A single member that repeats one message, about a block nobody has, sends the node catching up to it. */
  lemma OneMemberIsEnough(env: Env, s: EngineState, k: Key, m: Boot, online: nat, head: Block)
    requires Unfounded(env, s, k, m, online)
    ensures var n := ConsensusAmount(env.cfg.slots, online) - 1;
      var t := EngineRun(env, s, Repeated(FromPeer(k, BootstrapMsg(m, head), online), n));
      t.CatchingUp() && t.target == Some(Target(m.head, m.num)) && m.head !in env.store
  {
    var n := ConsensusAmount(env.cfg.slots, online) - 2;
    var e := FromPeer(k, BootstrapMsg(m, head), online);
    Collects(env, s, k, m, n, online, head);
    var t := EngineRun(env, s, Repeated(e, n));
    RunSnoc(env, s, Repeated(e, n), e);
    LastMessage(env, s, t, k, m, n, online, head);
  }

  lemma LastMessage(env: Env, s: EngineState, t: EngineState, k: Key, m: Boot, n: nat, online: nat, head: Block)
    requires Unfounded(env, s, k, m, online) && EngineInv(env, t) && Collecting(s, t, k, m, n)
    requires n + 1 == ConsensusAmount(env.cfg.slots, online) - 1
    ensures var u := EngineStep(env, t, FromPeer(k, BootstrapMsg(m, head), online));
      u.CatchingUp() && u.target == Some(Target(m.head, m.num))
  {
    MessageStep(env, t, k, m, online, head);
    Enough(env, t.(node := Seen(t.node, k)), m, n, online, head);
  }

  // ---- when the count is a number of members

  /** The members whose messages name the block; `senders` lists who sent each message. */
  function Mentioners(ms: seq<Boot>, senders: seq<Key>, id: Id): set<Key>
    requires |senders| == |ms|
  {
    if ms == [] then {}
    else
      var n := |ms| - 1;
      Mentioners(ms[..n], senders[..n], id) + (if MentionsIn(ms[n], id) > 0 then {senders[n]} else {})
  }

  /** Nobody names the block twice, in one message or in two. */
  ghost predicate NamedOnce(ms: seq<Boot>, senders: seq<Key>, id: Id)
    requires |senders| == |ms|
  {
    && (forall i :: 0 <= i < |ms| ==> MentionsIn(ms[i], id) <= 1)
    && (forall i, j :: 0 <= i < j < |ms| && MentionsIn(ms[i], id) > 0 && MentionsIn(ms[j], id) > 0 ==>
          senders[i] != senders[j])
  }

  lemma {:induction false} MentionerSent(ms: seq<Boot>, senders: seq<Key>, id: Id, k: Key)
    requires |senders| == |ms|
    ensures k in Mentioners(ms, senders, id) <==>
      exists i :: 0 <= i < |ms| && MentionsIn(ms[i], id) > 0 && senders[i] == k
  {
    if ms != [] {
      var n := |ms| - 1;
      MentionerSent(ms[..n], senders[..n], id, k);
      if i :| 0 <= i < n && MentionsIn(ms[i], id) > 0 && senders[i] == k {
        assert MentionsIn(ms[..n][i], id) > 0 && senders[..n][i] == k;
      }
    }
  }

  /** The count is at least the number of members that name the block, and exactly that when nobody names it
      twice, and only then. */
  lemma {:induction false} CountIsMembers(ms: seq<Boot>, senders: seq<Key>, id: Id)
    requires |senders| == |ms|
    ensures |Mentioners(ms, senders, id)| <= Mentions(ms, id)
    ensures |Mentioners(ms, senders, id)| == Mentions(ms, id) <==> NamedOnce(ms, senders, id)
  {
    if ms != [] {
      var n := |ms| - 1;
      CountIsMembers(ms[..n], senders[..n], id);
      MentionerSent(ms[..n], senders[..n], id, senders[n]);
      NamedOnceNext(ms, senders, id);
    }
  }

  lemma NamedOnceNext(ms: seq<Boot>, senders: seq<Key>, id: Id)
    requires |senders| == |ms| && ms != []
    ensures var n := |ms| - 1;
      NamedOnce(ms, senders, id) <==>
        && NamedOnce(ms[..n], senders[..n], id) && MentionsIn(ms[n], id) <= 1
        && (MentionsIn(ms[n], id) > 0 ==> senders[n] !in Mentioners(ms[..n], senders[..n], id))
  {
    var n := |ms| - 1;
    MentionerSent(ms[..n], senders[..n], id, senders[n]);
    assert forall i :: 0 <= i < n ==> ms[..n][i] == ms[i] && senders[..n][i] == senders[i];
  }

  /** A node that is sent catching up aims at a block for which as many messages as the threshold asks for
      were counted; if nobody named it twice, that many members did. */
  lemma ThresholdOfMembers(env: Env, s: EngineState, senders: seq<Key>, online: nat, head: Block) returns (b: Id)
    requires WellFormed(s.cache.blocks.vals) && s.boots != [] && |senders| == |s.boots|
    requires !s.CatchingUp() && Chase(env, s, online, head).0.CatchingUp()
    ensures var t := Chase(env, s, online, head).0; t.target.Some? && t.target.value.id == b
    ensures Mentions(s.boots, b) >= ConsensusAmount(env.cfg.slots, online) - 1
    ensures NamedOnce(s.boots, senders, b) ==>
      |Mentioners(s.boots, senders, b)| >= ConsensusAmount(env.cfg.slots, online) - 1
  {
    TalliedKeys(s.boots);
    var d := Tallied(s.boots);
    b := Best(d.keys, d.vals);
    CountIsMentions(s.boots, b);
    CountIsMembers(s.boots, senders, b);
  }

  /** A node that is neither catching up nor on the best head already is sent after it exactly when that many
      peers count for it, itself included, as fill the slots and are more than two thirds of those online. */
  lemma AimsExactly(env: Env, s: EngineState, online: nat, head: Block)
    requires WellFormed(s.cache.blocks.vals) && s.boots != [] && !s.CatchingUp()
    ensures var d := Tallied(s.boots);
      && d.keys != []
      && var b := Best(d.keys, d.vals); var n := Mentions(s.boots, b) + 1;
         b != s.pre ==> (Chase(env, s, online, head).0.CatchingUp() <==> n >= env.cfg.slots && 3 * n > 2 * online)
  {
    TalliedKeys(s.boots);
    var d := Tallied(s.boots);
    var b := Best(d.keys, d.vals);
    CountIsMentions(s.boots, b);
    QuorumReached(env.cfg.slots, online, d.vals[b].count + 1);
    if b != s.pre {
      AimedPhase(env, s, b, d.vals[b].num, head);
    }
  }

  lemma AimedPhase(env: Env, s: EngineState, id: Id, num: int, head: Block)
    requires WellFormed(s.cache.blocks.vals) && id != s.pre
    ensures Fastforward(env, s, id, num, head).0.CatchingUp()
  {
  }
}
