/** The bounded block cache and its backward walks along parent links. */
module BlockCache {
  import opened Types
  import opened PyDict

  const CACHE_SIZE: nat := 10

  type Blocks = map<Id, Block>

  /** A block's id names its content, and a block is numbered one higher than its parent. */
  ghost predicate WellFormed(m: Blocks) {
    forall id :: id in m ==> m[id].id == id && (m[id].prev in m ==> m[id].num == m[m[id].prev].num + 1)
  }

  /** The blocks of `m` are blocks of the chain `store`. */
  ghost predicate PartOf(m: Blocks, store: Blocks) {
    forall id :: id in m ==> id in store && m[id] == store[id]
  }

  lemma PartWellFormed(m: Blocks, store: Blocks)
    requires PartOf(m, store) && WellFormed(store)
    ensures WellFormed(m)
  {
  }

  ghost function Height(m: Blocks, a: Id): nat {
    if a in m then m[a].num + 1 else 0
  }

  // ---- what the walks mean

  /** The ids visited from `a` back through cached parents, up to and including the first uncached one. */
  ghost function Walk(m: Blocks, a: Id): seq<Id>
    requires WellFormed(m)
    decreases Height(m, a)
  {
    if a !in m then [a] else [a] + Walk(m, m[a].prev)
  }

  /** Cached blocks, each the parent of the next. */
  ghost predicate Linked(m: Blocks, ids: seq<Id>) {
    && (forall i :: 0 <= i < |ids| ==> ids[i] in m)
    && (forall i :: 0 < i < |ids| ==> m[ids[i]].prev == ids[i-1])
  }

  /** The blocks after `b` up to `a`, oldest first. */
  ghost predicate IsPath(m: Blocks, ids: seq<Id>, a: Id, b: Id) {
    ids != [] && Linked(m, ids) && ids[|ids|-1] == a && m[ids[0]].prev == b
  }

  /** `block_path`, as a recursion; None when a lookup fails. */
  ghost function Path(m: Blocks, a: Id, b: Id): Option<seq<Id>>
    requires WellFormed(m)
    decreases Height(m, a)
  {
    if a !in m then None
    else if m[a].prev == b then Some([a])
    else match Path(m, m[a].prev, b) case None => None case Some(p) => Some(p + [a])
  }

  /** `longest_chain`, as a recursion. */
  ghost function LongestChain(m: Blocks, a: Id): seq<Id>
    requires WellFormed(m) && a in m
    decreases Height(m, a)
  {
    if m[a].prev in m then LongestChain(m, m[a].prev) + [a] else [a]
  }

  function Reversed<T>(s: seq<T>): (r: seq<T>)
    ensures |r| == |s|
  {
    if s == [] then [] else Reversed(s[1..]) + [s[0]]
  }

  lemma {:induction false} ReversedAppend<T>(s: seq<T>, x: T)
    ensures Reversed(s + [x]) == [x] + Reversed(s)
  {
    if s != [] {
      ReversedAppend(s[1..], x);
      assert (s + [x])[1..] == s[1..] + [x];
    }
  }

  // ---- the state of the cache

  datatype CacheState = CacheState(ids: seq<Id>, blocks: Dict<Id, Block>)

  /** The id list and the dict tell the same story, in the same order. */
  predicate Consistent(s: CacheState) {
    s.ids == s.blocks.keys && |s.ids| <= CACHE_SIZE
  }

  /** `append`; false when the id to evict is no longer in the dict. */
  function Append(s: CacheState, b: Block): (CacheState, bool) {
    var t := CacheState(s.ids + [b.id], Put(s.blocks, b.id, b));
    if |t.ids| <= CACHE_SIZE then (t, true)
    else if t.ids[0] !in t.blocks.vals then (t.(ids := t.ids[1..]), false)
    else (CacheState(t.ids[1..], Pop(t.blocks, t.ids[0])), true)
  }

  /** The id that `append` tells the validator to ignore. */
  function Evicted(s: CacheState, b: Block): Option<Id> {
    if |s.ids| < CACHE_SIZE || !Append(s, b).1 then None
    else Some((s.ids + [b.id])[0])
  }

  function AppendAll(s: CacheState, bs: seq<Block>): CacheState {
    if bs == [] then s else Append(AppendAll(s, bs[..|bs|-1]), bs[|bs|-1]).0
  }

  class BlockCache {
    var cache: Dict<Id, Block>
    var cacheIds: seq<Id>

    function State(): CacheState
      reads this
    {
      CacheState(cacheIds, cache)
    }

    constructor ()
      ensures State() == CacheState([], Empty())
    {
      cache, cacheIds := Empty(), [];
    }

    method AppendBlock(block: Block) returns (ignored: Option<Id>, ok: bool)
      modifies this
      ensures (State(), ok) == Append(old(State()), block)
      ensures ignored == Evicted(old(State()), block)
    {
      cacheIds := cacheIds + [block.id];
      cache := Put(cache, block.id, block);
      if |cacheIds| > CACHE_SIZE {
        var idToPop := cacheIds[0];
        cacheIds := cacheIds[1..];
        if idToPop !in cache.vals {
          return None, false;
        }
        cache := Pop(cache, idToPop);
        return Some(idToPop), true;
      }
      return None, true;
    }

    function BlockFromId(id: Id): Option<Block>
      reads this
    {
      if id in cache.vals then Some(cache.vals[id]) else None
    }

    /** `block_by_num_and_signer`: the first match in insertion order. */
    method BlockByNumAndSigner(num: nat, signer: Option<Key>) returns (r: Option<Block>)
      ensures r == FirstMatch(cache.keys, cache.vals, num, signer)
    {
      var i := 0;
      while i < |cache.keys|
        invariant 0 <= i <= |cache.keys|
        invariant FirstMatch(cache.keys, cache.vals, num, signer)
               == FirstMatch(cache.keys[i..], cache.vals, num, signer)
      {
        var block := cache.vals[cache.keys[i]];
        if Matches(block, num, signer) {
          return Some(block);
        }
        assert cache.keys[i..][1..] == cache.keys[i+1..];
        i := i + 1;
      }
      return None;
    }

    /** `traversable`: is `to` on the walk back from `from`? */
    method Traversable(from: Id, to: Id) returns (r: bool)
      requires WellFormed(cache.vals)
      ensures r <==> to in Walk(cache.vals, from)
    {
      var prev := from;
      while prev in cache.vals
        invariant to in Walk(cache.vals, from) <==> to in Walk(cache.vals, prev)
        decreases Height(cache.vals, prev)
      {
        var curr := cache.vals[prev];
        if curr.id == to {
          return true;
        }
        prev := curr.prev;
      }
      return prev == to;
    }

    /** `block_path`; None when a lookup raises. */
    method BlockPath(from: Id, to: Id) returns (r: Option<seq<Id>>)
      requires WellFormed(cache.vals)
      ensures r == Path(cache.vals, from, to)
    {
      if from !in cache.vals {
        return None;
      }
      var blockIds: seq<Id> := [];
      var cur := cache.vals[from];
      assert forall ids: seq<Id> :: ids + [] == ids;
      while cur.prev != to
        invariant cur.id in cache.vals && cache.vals[cur.id] == cur
        invariant Joined(Path(cache.vals, cur.id, to), Reversed(blockIds)) == Path(cache.vals, from, to)
        decreases cur.num
      {
        ReversedAppend(blockIds, cur.id);
        blockIds := blockIds + [cur.id];
        if cur.prev !in cache.vals {
          return None;
        }
        JoinedStep(Path(cache.vals, cur.prev, to), cur.id, Reversed(blockIds)[1..]);
        cur := cache.vals[cur.prev];
      }
      ReversedAppend(blockIds, cur.id);
      return Some(Reversed(blockIds + [cur.id]));
    }

    /** `longest_chain`; None when `from` is not cached. */
    method LongestChainFrom(from: Id) returns (r: Option<seq<Id>>)
      requires WellFormed(cache.vals)
      ensures r == if from in cache.vals then Some(LongestChain(cache.vals, from)) else None
    {
      if from !in cache.vals {
        return None;
      }
      var blockIds := [from];
      var cur := cache.vals[from];
      while cur.prev in cache.vals
        invariant cur.id in cache.vals && cache.vals[cur.id] == cur
        invariant blockIds != [] && Reversed(blockIds)[0] == cur.id
        invariant LongestChain(cache.vals, cur.id) + Reversed(blockIds)[1..] == LongestChain(cache.vals, from)
        decreases cur.num
      {
        var block := cache.vals[cur.prev];
        ReversedAppend(blockIds, block.id);
        assert LongestChain(cache.vals, cur.id) == LongestChain(cache.vals, block.id) + [cur.id];
        assert Reversed(blockIds) == [cur.id] + Reversed(blockIds)[1..];
        blockIds := blockIds + [block.id];
        cur := block;
      }
      assert Reversed(blockIds) == [cur.id] + Reversed(blockIds)[1..];
      return Some(Reversed(blockIds));
    }
  }

  predicate Matches(b: Block, num: nat, signer: Option<Key>) {
    b.num == num && signer == Some(b.signer)
  }

  function FirstMatch(keys: seq<Id>, m: Blocks, num: nat, signer: Option<Key>): (r: Option<Block>)
    requires forall k :: k in keys ==> k in m
    ensures r.Some? ==> Matches(r.value, num, signer) && exists k :: k in keys && m[k] == r.value
    ensures r.None? ==> forall k :: k in keys ==> !Matches(m[k], num, signer)
  {
    if keys == [] then None
    else if Matches(m[keys[0]], num, signer) then Some(m[keys[0]])
    else
      assert keys == [keys[0]] + keys[1..];
      FirstMatch(keys[1..], m, num, signer)
  }

  /** It is the first one that matches. */
  lemma {:induction false} FirstMatchAt(keys: seq<Id>, m: Blocks, num: nat, signer: Option<Key>) returns (i: nat)
    requires forall k :: k in keys ==> k in m
    requires exists k :: k in keys && Matches(m[k], num, signer)
    ensures i < |keys| && Matches(m[keys[i]], num, signer) && FirstMatch(keys, m, num, signer) == Some(m[keys[i]])
    ensures forall j :: 0 <= j < i ==> !Matches(m[keys[j]], num, signer)
  {
    i := 0;
    if !Matches(m[keys[0]], num, signer) {
      assert keys == [keys[0]] + keys[1..];
      var n := FirstMatchAt(keys[1..], m, num, signer);
      i := n + 1;
      forall j | 0 <= j < i ensures !Matches(m[keys[j]], num, signer) {
        assert j > 0 ==> keys[j] == keys[1..][j-1];
      }
    }
  }

  function Joined(p: Option<seq<Id>>, rest: seq<Id>): Option<seq<Id>> {
    match p case None => None case Some(ids) => Some(ids + rest)
  }

  lemma JoinedStep(p: Option<seq<Id>>, id: Id, rest: seq<Id>)
    ensures Joined(p, [id] + rest) == Joined(Joined(p, [id]), rest)
  {
    if p.Some? {
      assert p.value + ([id] + rest) == (p.value + [id]) + rest;
    }
  }
}
