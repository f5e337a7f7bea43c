/** Choosing the chain head to catch up to from the bootstrap messages of the peers. */
module BootstrapTally {
  import opened Types
  import opened PyDict
  import opened BlockCache
  import opened Chains

  /** A peer's chain head, the head's number, and the head's parent. */
  datatype Boot = Boot(head: Id, num: int, pre: Id)

  datatype Entry = Entry(num: int, count: nat)

  type Tally = Dict<Id, Entry>

  function Mention(d: Tally, id: Id, num: int): Tally {
    Put(d, id, if id in d.vals then d.vals[id].(count := d.vals[id].count + 1) else Entry(num, 1))
  }

  function MentionBoth(d: Tally, m: Boot): Tally {
    Mention(Mention(d, m.head, m.num), m.pre, m.num - 1)
  }

  function Tallied(ms: seq<Boot>): Tally {
    if ms == [] then Empty() else MentionBoth(Tallied(ms[..|ms|-1]), ms[|ms|-1])
  }

  predicate Outranks(a: Entry, b: Entry) {
    a.count > b.count || (a.count == b.count && a.num >= b.num)
  }

  /** The head of the list sorted by (count, number), descending and stable: the first maximum. */
  function Best(keys: seq<Id>, m: map<Id, Entry>): (b: Id)
    requires keys != [] && forall k :: k in keys ==> k in m
    ensures b in keys
  {
    var n := |keys| - 1;
    if n == 0 then keys[0]
    else
      var b := Best(keys[..n], m);
      if Outranks(m[b], m[keys[n]]) then b else keys[n]
  }

  lemma {:induction false} NoneOutranksBest(keys: seq<Id>, m: map<Id, Entry>)
    requires keys != [] && forall k :: k in keys ==> k in m
    ensures forall k :: k in keys ==> Outranks(m[Best(keys, m)], m[k])
  {
    var n := |keys| - 1;
    if n > 0 {
      NoneOutranksBest(keys[..n], m);
      assert keys == keys[..n] + [keys[n]];
    }
  }

  /** Of equal entries it is the one tallied first. */
  lemma {:induction false} BestIsFirst(keys: seq<Id>, m: map<Id, Entry>, i: nat)
    requires i < |keys| && forall k :: k in keys ==> k in m
    requires m[keys[i]] == m[Best(keys, m)]
    ensures Best(keys, m) in keys[..i+1]
  {
    var n := |keys| - 1;
    if i < n {
      NoneOutranksBest(keys, m);
      NoneOutranksBest(keys[..n], m);
      assert keys[i] in keys[..n] by {
        assert keys[..n][i] == keys[i];
      }
      assert Best(keys, m) == Best(keys[..n], m);
      BestIsFirst(keys[..n], m, i);
      assert keys[..n][..i+1] == keys[..i+1];
    }
  }

  lemma TalliedKeys(ms: seq<Boot>)
    requires ms != []
    ensures Tallied(ms).keys != []
  {
    var m := ms[|ms|-1];
    assert m.pre in Tallied(ms).vals;
  }

  lemma TalliedNext(ms: seq<Boot>, i: nat)
    requires i < |ms|
    ensures Tallied(ms[..i+1]) == MentionBoth(Tallied(ms[..i]), ms[i])
  {
    assert ms[..i+1][..i] == ms[..i];
  }

  /** The tally loop of the BOOTSTRAP handler. */
  method TallyMessages(ms: seq<Boot>) returns (blocks: Tally)
    ensures blocks == Tallied(ms)
  {
    blocks := Empty();
    var i := 0;
    while i < |ms|
      invariant 0 <= i <= |ms| && blocks == Tallied(ms[..i])
    {
      TalliedNext(ms, i);
      blocks := Mention(blocks, ms[i].head, ms[i].num);
      blocks := Mention(blocks, ms[i].pre, ms[i].num - 1);
      i := i + 1;
    }
    assert ms[..i] == ms;
  }

  // ---- what the counts mean

  function MentionsIn(m: Boot, id: Id): nat {
    (if m.head == id then 1 else 0) + (if m.pre == id then 1 else 0)
  }

  /** How many messages name `id` as head, plus how many name it as parent. */
  function Mentions(ms: seq<Boot>, id: Id): nat {
    if ms == [] then 0 else Mentions(ms[..|ms|-1], id) + MentionsIn(ms[|ms|-1], id)
  }

  lemma {:induction false} CountIsMentions(ms: seq<Boot>, id: Id)
    ensures id in Tallied(ms).vals <==> Mentions(ms, id) > 0
    ensures id in Tallied(ms).vals ==> Tallied(ms).vals[id].count == Mentions(ms, id)
  {
    if ms != [] {
      CountIsMentions(ms[..|ms|-1], id);
    }
  }

  /** The number kept for an id is one that some message gave it. */
  ghost predicate Given(ms: seq<Boot>, id: Id, num: int) {
    exists m :: m in ms && Gives(m, id, num)
  }

  predicate Gives(m: Boot, id: Id, num: int) {
    (m.head == id && num == m.num) || (m.pre == id && num == m.num - 1)
  }

  lemma {:induction false} NumIsGiven(ms: seq<Boot>, id: Id)
    requires id in Tallied(ms).vals
    ensures Given(ms, id, Tallied(ms).vals[id].num)
  {
    var n := |ms| - 1;
    var d, m := Tallied(ms[..n]), ms[n];
    if id in d.vals {
      NumIsGiven(ms[..n], id);
      var o :| o in ms[..n] && Gives(o, id, d.vals[id].num);
      assert o in ms;
    } else {
      assert m in ms && Gives(m, id, Tallied(ms).vals[id].num);
    }
  }

  lemma {:induction false} MentionBounds(ms: seq<Boot>, id: Id)
    requires forall m :: m in ms ==> MentionsIn(m, id) <= 1
    ensures Mentions(ms, id) <= |ms|
    ensures (exists i :: 0 <= i < |ms| && MentionsIn(ms[i], id) == 0) ==> Mentions(ms, id) < |ms|
    ensures (forall m :: m in ms ==> MentionsIn(m, id) == 1) ==> Mentions(ms, id) == |ms|
  {
    if ms != [] {
      var n := |ms| - 1;
      assert ms == ms[..n] + [ms[n]];
      MentionBounds(ms[..n], id);
      if i :| 0 <= i < |ms| && MentionsIn(ms[i], id) == 0 {
        assert i < n ==> ms[..n][i] == ms[i];
      }
    }
  }

  // ---- reporters on one chain

  /** A message tells the truth about its head. */
  ghost predicate Honest(store: Blocks, m: Boot) {
    m.head in store && m.pre == store[m.head].prev && m.num == store[m.head].num
  }

  /** Every reporter's head is `top` or the parent of `top`. */
  ghost predicate Together(store: Blocks, ms: seq<Boot>, top: Id) {
    top in store && forall m :: m in ms ==> Honest(store, m) && (m.head == top || m.head == store[top].prev)
  }

  /** The highest block that every reporter holds: `top` if all have it, its parent otherwise. */
  function CommonHead(store: Blocks, ms: seq<Boot>, top: Id): Id
    requires top in store
  {
    if exists m :: m in ms && m.head != top then store[top].prev else top
  }

  /** Is the block on the chain of every reporter? */
  ghost predicate HeldByAll(store: Blocks, ms: seq<Boot>, id: Id)
    requires WellFormed(store)
  {
    id in store && forall m :: m in ms ==> id in Walk(store, m.head)
  }

  lemma CountAtCommon(store: Blocks, ms: seq<Boot>, top: Id)
    requires WellFormed(store) && ms != [] && Together(store, ms, top)
    ensures Mentions(ms, CommonHead(store, ms, top)) == |ms|
  {
    var x := CommonHead(store, ms, top);
    forall m | m in ms ensures MentionsIn(m, x) == 1 {
    }
    MentionBounds(ms, x);
  }

  lemma CountElsewhere(store: Blocks, ms: seq<Boot>, top: Id, id: Id)
    requires WellFormed(store) && ms != [] && Together(store, ms, top)
    requires id != CommonHead(store, ms, top) && Mentions(ms, id) >= |ms|
    ensures forall m :: m in ms ==> m.head == CommonHead(store, ms, top) && m.pre == id
  {
    var x := CommonHead(store, ms, top);
    forall m | m in ms ensures MentionsIn(m, id) <= 1 {
    }
    MentionBounds(ms, id);
    assert forall i :: 0 <= i < |ms| ==> MentionsIn(ms[i], id) != 0;
    assert forall m :: m in ms ==> MentionsIn(m, id) != 0;
    if x != top {
      var o :| o in ms && o.head == x;
      assert o.pre == id;
    }
  }

  lemma LowerNumber(ms: seq<Boot>, x: Id, b: Id, num: int)
    requires ms != [] && x != b && forall m :: m in ms ==> m.head == x && m.pre == b && m.num == num
    ensures x in Tallied(ms).vals && b in Tallied(ms).vals
    ensures Tallied(ms).vals[b].num < Tallied(ms).vals[x].num
  {
    assert ms[|ms|-1] in ms;
    NumIsGiven(ms, b);
    NumIsGiven(ms, x);
  }

  /** When the reporters' heads lie on one chain and differ by at most one block, the chosen head is
      the highest block that all of them hold. */
  lemma HeadHeldByAll(store: Blocks, ms: seq<Boot>, top: Id)
    requires WellFormed(store) && ms != [] && Together(store, ms, top)
    ensures Tallied(ms).keys != []
    ensures var b := Best(Tallied(ms).keys, Tallied(ms).vals);
      && b == CommonHead(store, ms, top) && HeldByAll(store, ms, b)
      && forall id :: HeldByAll(store, ms, id) ==> store[id].num <= store[b].num
  {
    TalliedKeys(ms);
    var d := Tallied(ms);
    var b, x := Best(d.keys, d.vals), CommonHead(store, ms, top);
    NoneOutranksBest(d.keys, d.vals);
    CountIsMentions(ms, x);
    CountIsMentions(ms, b);
    CountAtCommon(store, ms, top);
    assert x in d.keys && Outranks(d.vals[b], d.vals[x]);
    CommonIsHighest(store, ms, top);
    if b != x {
      CountElsewhere(store, ms, top, b);
      LowerNumber(ms, x, b, store[x].num);
      MentionBounds(ms, b);
    }
  }

  lemma CommonIsHighest(store: Blocks, ms: seq<Boot>, top: Id)
    requires WellFormed(store) && ms != [] && Together(store, ms, top)
    ensures var x := CommonHead(store, ms, top);
      HeldByAll(store, ms, x) && forall id :: HeldByAll(store, ms, id) ==> store[id].num <= store[x].num
  {
    var x := CommonHead(store, ms, top);
    assert ms[0] in ms;
    var m: Boot :| m in ms && m.head == x;
    assert Walk(store, top) == [top] + Walk(store, store[top].prev);
    forall id | HeldByAll(store, ms, id) ensures store[id].num <= store[x].num {
      WalkHeights(store, x, id);
    }
  }
}
