/** What the cache walks compute: reachability, the unique path, and the maximal chain. */
module Chains {
  import opened Types
  import opened PyDict
  import opened BlockCache

  // ---- paths

  /** Along linked blocks the numbers rise by one. */
  lemma {:induction false} NumbersRise(m: Blocks, ids: seq<Id>, i: nat)
    requires WellFormed(m) && Linked(m, ids) && i < |ids|
    ensures m[ids[i]].num == m[ids[0]].num + i
  {
    if i > 0 {
      NumbersRise(m, ids, i - 1);
    }
  }

  lemma LinkedDistinct(m: Blocks, ids: seq<Id>)
    requires WellFormed(m) && Linked(m, ids)
    ensures Distinct(ids)
  {
    forall i, j | 0 <= i < j < |ids| ensures ids[i] != ids[j] {
      NumbersRise(m, ids, i);
      NumbersRise(m, ids, j);
    }
  }

  lemma {:induction false} PathSound(m: Blocks, a: Id, b: Id)
    requires WellFormed(m) && Path(m, a, b).Some?
    ensures IsPath(m, Path(m, a, b).value, a, b)
    decreases Height(m, a)
  {
    if m[a].prev != b {
      PathSound(m, m[a].prev, b);
    }
  }

  lemma {:induction false} PathUnique(m: Blocks, ids: seq<Id>, a: Id, b: Id)
    requires WellFormed(m) && IsPath(m, ids, a, b)
    ensures Path(m, a, b) == Some(ids)
    decreases |ids|
  {
    var n := |ids| - 1;
    NumbersRise(m, ids, n);
    if n == 0 {
      assert ids == [a];
    } else {
      assert m[a].prev == ids[n-1];
      NumbersRise(m, ids, n - 1);
      assert ids[n-1] != b;
      PathUnique(m, ids[..n], ids[n-1], b);
      assert ids == ids[..n] + [a];
    }
  }

  /** `block_path(a, b)` returns ids exactly when they are a parent-linked list of cached blocks from
      the child of b to a; there is at most one such list, and it repeats nothing. */
  lemma BlockPathExact(m: Blocks, a: Id, b: Id, ids: seq<Id>)
    requires WellFormed(m)
    ensures Path(m, a, b) == Some(ids) <==> IsPath(m, ids, a, b)
    ensures Path(m, a, b) == Some(ids) ==> Distinct(ids)
  {
    if Path(m, a, b) == Some(ids) {
      PathSound(m, a, b);
      LinkedDistinct(m, ids);
    } else if IsPath(m, ids, a, b) {
      PathUnique(m, ids, a, b);
    }
  }

  lemma {:induction false} WalkHeights(m: Blocks, a: Id, b: Id)
    requires WellFormed(m) && b in Walk(m, a) && b in m
    ensures a in m && m[b].num <= m[a].num
    ensures a != b ==> m[b].num < m[a].num
    decreases Height(m, a)
  {
    if a in m && a != b {
      assert Walk(m, a) == [a] + Walk(m, m[a].prev);
      WalkHeights(m, m[a].prev, b);
    }
  }

  lemma {:induction false} PathIffWalk(m: Blocks, a: Id, b: Id)
    requires WellFormed(m) && a in m
    ensures Path(m, a, b).Some? <==> b in Walk(m, m[a].prev)
    decreases Height(m, a)
  {
    if m[a].prev in m {
      PathIffWalk(m, m[a].prev, b);
    }
  }

  /** `block_path` raises exactly when its start is not cached, equals its end, or the end is not on
      the walk back from it: on every other pair that `traversable` accepts it succeeds. */
  lemma BlockPathSucceeds(m: Blocks, a: Id, b: Id)
    requires WellFormed(m)
    ensures Path(m, a, b).Some? <==> a in m && a != b && b in Walk(m, a)
  {
    if a in m {
      PathIffWalk(m, a, b);
      assert Walk(m, a) == [a] + Walk(m, m[a].prev);
      if a == b && b in Walk(m, m[a].prev) {
        WalkHeights(m, m[a].prev, b);
      }
    }
  }

  /** `traversable(a, b)` says: b is a, or parent links through cached blocks lead from a to b. */
  lemma TraversableMeansLinked(m: Blocks, a: Id, b: Id)
    requires WellFormed(m)
    ensures b in Walk(m, a) <==> a == b || exists ids :: IsPath(m, ids, a, b)
  {
    BlockPathSucceeds(m, a, b);
    if Path(m, a, b).Some? {
      BlockPathExact(m, a, b, Path(m, a, b).value);
    }
    if exists ids :: IsPath(m, ids, a, b) {
      var ids :| IsPath(m, ids, a, b);
      BlockPathExact(m, a, b, ids);
    }
  }

  // ---- the longest chain

  /** `longest_chain(a)` ends in a and starts at a block whose parent is not cached. */
  lemma {:induction false} LongestChainMaximal(m: Blocks, a: Id)
    requires WellFormed(m) && a in m
    ensures var c := LongestChain(m, a);
      && c != [] && c[0] in m && m[c[0]].prev !in m && IsPath(m, c, a, m[c[0]].prev)
    decreases Height(m, a)
  {
    if m[a].prev in m {
      LongestChainMaximal(m, m[a].prev);
    }
  }

  lemma {:induction false} ChainIsWalk(m: Blocks, a: Id, x: Id)
    requires WellFormed(m) && a in m
    ensures x in LongestChain(m, a) <==> x in m && x in Walk(m, a)
    decreases Height(m, a)
  {
    if m[a].prev in m {
      ChainIsWalk(m, m[a].prev, x);
    } else {
      assert Walk(m, m[a].prev) == [m[a].prev];
    }
  }

  /** The chain to a runs through the chain to b and then along the path from b to a; if b is not
      cached, the path is the whole chain. */
  lemma {:induction false} ChainDecomposes(m: Blocks, a: Id, b: Id)
    requires WellFormed(m) && Path(m, a, b).Some?
    ensures a in m
    ensures LongestChain(m, a) == (if b in m then LongestChain(m, b) else []) + Path(m, a, b).value
    decreases Height(m, a)
  {
    if m[a].prev != b {
      ChainDecomposes(m, m[a].prev, b);
    }
  }

  // ---- the bounded cache

  /** Appending keeps the id list and the dict in step exactly when the block is new. */
  lemma AppendConsistent(s: CacheState, b: Block)
    requires Consistent(s)
    ensures Consistent(Append(s, b).0) && Append(s, b).1 <==> b.id !in s.blocks.vals
  {
    var keys := s.blocks.keys;
    if b.id !in s.blocks.vals && |s.ids| == CACHE_SIZE {
      var t := keys + [b.id];
      assert t[0] == keys[0];
      assert Without(t, t[0]) == t[1..];
    }
  }

  function Latest<T>(s: seq<T>, n: nat): seq<T> {
    if |s| <= n then s else s[|s|-n..]
  }

  lemma AppendValues(s: CacheState, b: Block)
    requires Consistent(s) && b.id !in s.blocks.vals
    ensures Values(Append(s, b).0.blocks) == Latest(Values(s.blocks) + [b], CACHE_SIZE)
  {
    PutValues(s.blocks, b.id, b);
    if |s.ids| == CACHE_SIZE {
      PopFirst(Put(s.blocks, b.id, b));
    }
  }

  lemma PutValues(d: Dict<Id, Block>, id: Id, b: Block)
    requires id !in d.vals
    ensures Values(Put(d, id, b)) == Values(d) + [b]
  {
  }

  lemma PopFirst(d: Dict<Id, Block>)
    requires d.keys != []
    ensures d.keys[0] in d.vals && Values(Pop(d, d.keys[0])) == Values(d)[1..]
  {
    assert Without(d.keys, d.keys[0]) == d.keys[1..];
  }

  lemma LatestNext<T>(s: seq<T>, x: T, n: nat)
    requires n > 0
    ensures Latest(Latest(s, n) + [x], n) == Latest(s + [x], n)
  {
  }

  /** The cache holds the ten latest of the blocks, in order, each under its own id. */
  ghost predicate HoldsLatest(s: CacheState, bs: seq<Block>) {
    && Consistent(s) && Values(s.blocks) == Latest(bs, 10)
    && forall k :: k in s.blocks.vals ==> s.blocks.vals[k].id == k
  }

  lemma HoldsNext(s: CacheState, bs: seq<Block>, b: Block)
    requires HoldsLatest(s, bs) && forall x :: x in bs ==> x.id != b.id
    ensures HoldsLatest(Append(s, b).0, bs + [b])
  {
    NotCached(s, bs, b);
    AppendConsistent(s, b);
    AppendValues(s, b);
    LatestNext(bs, b, CACHE_SIZE);
  }

  lemma NotCached(s: CacheState, bs: seq<Block>, b: Block)
    requires HoldsLatest(s, bs) && forall x :: x in bs ==> x.id != b.id
    ensures b.id !in s.blocks.vals
  {
    forall k | k in s.blocks.keys ensures k != b.id {
      var i :| 0 <= i < |s.blocks.keys| && s.blocks.keys[i] == k;
      assert Values(s.blocks)[i] in bs;
    }
    assert b.id !in s.blocks.keys;
  }

  lemma LastIsNew(bs: seq<Block>)
    requires bs != [] && forall i, j :: 0 <= i < j < |bs| ==> bs[i].id != bs[j].id
    ensures var n := |bs| - 1; bs == bs[..n] + [bs[n]] && forall x :: x in bs[..n] ==> x.id != bs[n].id
  {
    var n := |bs| - 1;
    forall x | x in bs[..n] ensures x.id != bs[n].id {
      var i :| 0 <= i < n && bs[i] == x;
    }
  }

  /** After any number of blocks with distinct ids the cache holds exactly the ten latest, in order. */
  lemma {:induction false} CacheHoldsLatest(bs: seq<Block>)
    requires forall i, j :: 0 <= i < j < |bs| ==> bs[i].id != bs[j].id
    ensures HoldsLatest(AppendAll(CacheState([], Empty()), bs), bs)
  {
    if bs != [] {
      var n := |bs| - 1;
      CacheHoldsLatest(bs[..n]);
      LastIsNew(bs);
      HoldsNext(AppendAll(CacheState([], Empty()), bs[..n]), bs[..n], bs[n]);
    }
  }

  /** A new block pushes out exactly the oldest one, once there are ten, and that is the one to be ignored. */
  lemma OldestLeaves(s: CacheState, b: Block)
    requires Consistent(s) && b.id !in s.blocks.vals
    ensures var t := Append(s, b).0;
      if |s.ids| < 10 then
        Evicted(s, b) == None && t.ids == s.ids + [b.id] && t.blocks.vals == s.blocks.vals[b.id := b]
      else
        && Evicted(s, b) == Some(s.ids[0]) && t.ids == s.ids[1..] + [b.id]
        && t.blocks.vals == (s.blocks.vals - {s.ids[0]})[b.id := b]
  {
    assert |s.ids| >= 10 ==> (s.ids + [b.id])[0] == s.ids[0] && s.ids[0] in s.blocks.keys && s.ids[0] != b.id;
  }

  /** So after any blocks with distinct ids a new one makes the validator ignore the one ten blocks before it. */
  lemma IgnoredIsTenBefore(bs: seq<Block>, b: Block)
    requires forall i, j :: 0 <= i < j < |bs| ==> bs[i].id != bs[j].id
    requires forall x :: x in bs ==> x.id != b.id
    ensures Evicted(AppendAll(CacheState([], Empty()), bs), b)
         == if |bs| < 10 then None else Some(bs[|bs|-10].id)
  {
    var s := AppendAll(CacheState([], Empty()), bs);
    CacheHoldsLatest(bs);
    NotCached(s, bs, b);
    OldestLeaves(s, b);
    if |bs| >= 10 {
      assert Values(s.blocks)[0] == bs[|bs|-10];
      assert s.blocks.vals[s.ids[0]].id == s.ids[0];
    }
  }
}
