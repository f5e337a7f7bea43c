/** Agreement for engines that caught up, and for those that caught up from them. */
module CaughtUp {
  import opened Types
  import opened Digest
  import opened Epoch
  import opened EpochRuns
  import opened Node
  import opened Lineage
  import opened Engine
  import opened EngineRuns
  import opened EngineRefinement
  import opened CatchUp

  /** Agreement is assured for every epoch, and whoever resumes does so from the payload of an epoch in
      which some engine stood before, which may have caught up itself. */
  ghost predicate OrderlyNet(net: EngineNet, members: set<Key>, hash: Hash, clock: Clock) {
    AllStartable(net) && Orderly(FeltNet(net), members, hash) && Timed(FeltNet(net), clock)
  }

  /** Engine k, after n events, stands in p, and somebody sits in it. */
  ghost predicate Stands(net: EngineNet, k: Key, n: nat, p: EpochState)
    requires AllStartable(net)
  {
    k in net && n <= |net[k].events| && net[k].After(n).node.epoch == p && !Vacant(p)
  }

  lemma StandsInside(net: EngineNet, k: Key, n: nat, p: EpochState) returns (x: nat)
    requires AllStartable(net) && Stands(net, k, n, p)
    ensures k in FeltNet(net) && x <= |FeltNet(net)[k].events| && EpochAt(FeltNet(net)[k], x) == p
  {
    x := Moment(net[k], n);
  }

  /** Two engines in one epoch, whenever and however they came there, hold the same witnesses and
      candidates, moved only by slots and downgrades since some engine seated their list. */
  lemma EnginesOneLineage(net: EngineNet, members: set<Key>, hash: Hash, clock: Clock,
                          k1: Key, n1: nat, p1: EpochState, k2: Key, n2: nat, p2: EpochState)
      returns (k: Key, i: nat, list: Result)
    requires OrderlyNet(net, members, hash, clock)
    requires Stands(net, k1, n1, p1) && Stands(net, k2, n2, p2) && p1.number == p2.number
    ensures SeatedBy(FeltNet(net), k, i, p1.number, list) && Rooted(p1, hash, list) && Rooted(p2, hash, list)
    ensures multiset(p1.FullCandidateList()) == multiset(list) == multiset(p2.FullCandidateList())
  {
    var x1 := StandsInside(net, k1, n1, p1);
    var x2 := StandsInside(net, k2, n2, p2);
    k, i, list := OneLineage(FeltNet(net), members, hash, clock, k1, x1, k2, x2);
  }

  /** The producer k1 writes its epoch p into the target block. An engine that catches up to that block
      stands one slot after p, and p comes from the list that any engine k2 in that epoch comes from. */
  lemma CaughtUpAgrees(net: EngineNet, members: set<Key>, hash: Hash, clock: Clock,
                       k1: Key, n1: nat, p: EpochState, k2: Key, n2: nat, p2: EpochState,
                       env: Env, s: EngineState, target: Id, num: int, head: Block, es: seq<EngineEvent>)
      returns (k: Key, i: nat, list: Result)
    requires OrderlyNet(net, members, hash, clock)
    requires Stands(net, k1, n1, p) && Stands(net, k2, n2, p2) && p.number == p2.number
    requires EngineInv(env, s) && RunToTarget(env, s, target, num, head, es)
    requires !Stranger(env.cfg, s.node, env.store[target].signer) && env.store[target].payload == Payload(p)
    ensures SeatedBy(FeltNet(net), k, i, p.number, list) && Rooted(p, hash, list) && Rooted(p2, hash, list)
    ensures multiset(p.FullCandidateList()) == multiset(list) == multiset(p2.FullCandidateList())
    ensures TakesOver(env, EngineRun(env, Fastforward(env, s, target, num, head).0, es), target, p)
  {
    k, i, list := EnginesOneLineage(net, members, hash, clock, k1, n1, p, k2, n2, p2);
    RootedKeeps(p, hash, list);
    CatchUpCompletes(env, s, target, num, head, es, p);
  }
}
