/** Vocabulary shared by the whole model: keys, ballots, blocks and optional values. */
module Types {
  type Key = string
  type Id = string
  type Ballot = seq<Key>
  type Result = seq<Key>

  datatype Option<+T> = None | Some(value: T)

  /** A Python call either returns a value or raises. */
  datatype Outcome<+T> = Returned(value: T) | Raised(error: Error)
  datatype Error = IndexError | ValueError | KeyError

  /** The fields of the protobuf payload a producer puts in its block. */
  datatype ConsensusData = ConsensusData(epoch: nat, witnessIdx: nat, candidates: seq<Key>, numSlots: nat)

  datatype Block = Block(id: Id, num: nat, prev: Id, signer: Key, payload: ConsensusData)

  ghost predicate Distinct<T(!new)>(s: seq<T>) {
    forall i, j :: 0 <= i < j < |s| ==> s[i] != s[j]
  }

  lemma PrefixOfPrefix<T>(s: seq<T>, n: nat, i: nat)
    requires i <= n <= |s|
    ensures s[..n][..i] == s[..i] && (i < n ==> s[..n][i] == s[i])
  {
  }

  lemma CountAppended<T>(s: seq<T>, x: T, w: T)
    ensures multiset(s + [x])[w] == multiset(s)[w] + (if x == w then 1 else 0)
  {
    assert multiset(s + [x]) == multiset(s) + multiset{x};
  }

  lemma {:induction false} DistinctOnce<T(!new)>(s: seq<T>, x: T)
    requires Distinct(s)
    ensures multiset(s)[x] == if x in s then 1 else 0
  {
    if s != [] {
      var n := |s| - 1;
      assert s == s[..n] + [s[n]];
      DistinctOnce(s[..n], x);
    }
  }

  lemma SetSizes<T(!new)>(a: set<T>, b: set<T>)
    requires a <= b
    ensures |a| <= |b|
  {
    assert b == a + (b - a);
  }

  /** Python's `s.index(x)`. */
  function IndexOf<T(==)>(s: seq<T>, x: T): (i: nat)
    requires x in s
    ensures i < |s| && s[i] == x && x !in s[..i]
  {
    if s[0] == x then 0 else 1 + IndexOf(s[1..], x)
  }

  /** Python's `s[:n]` and `s[n:]`, which clamp the bound to the length. */
  function Take<T>(s: seq<T>, n: nat): seq<T> {
    if n <= |s| then s[..n] else s
  }

  function Drop<T>(s: seq<T>, n: nat): seq<T> {
    if n <= |s| then s[n..] else []
  }
}

/** SHA-256 hex digests. The hash is a parameter of the model: a function from
    the concatenated text to a number (hex strings of equal length compare like
    the numbers they spell). */
module Digest {
  import opened Types

  type Hash = string -> nat

  function Digit(d: nat): char
    requires d < 10
  {
    "0123456789"[d]
  }

  /** The decimal text Python's `str` gives for a natural number. */
  function Decimal(n: nat): string {
    if n < 10 then [Digit(n)] else Decimal(n / 10) + [Digit(n % 10)]
  }

  /** `concat_and_hash(key, ...)`, with every argument after the key already joined. */
  function Rank(hash: Hash, suffix: string, k: Key): nat {
    hash(k + suffix)
  }

  lemma DigitsDiffer(a: nat, b: nat)
    requires a < 10 && b < 10 && Digit(a) == Digit(b)
    ensures a == b
  {
  }

  lemma LastDigit(n: nat)
    ensures Decimal(n) != [] && Decimal(n)[|Decimal(n)|-1] == Digit(n % 10)
    ensures Decimal(n)[..|Decimal(n)|-1] == if n < 10 then [] else Decimal(n / 10)
  {
  }

  /** Different numbers have different texts. */
  lemma {:induction false} DecimalInjective(m: nat, n: nat)
    requires Decimal(m) == Decimal(n)
    ensures m == n
  {
    LastDigit(m);
    LastDigit(n);
    DigitsDiffer(m % 10, n % 10);
    if m >= 10 && n >= 10 {
      DecimalInjective(m / 10, n / 10);
    } else if m >= 10 {
      LastDigit(m / 10);
    } else if n >= 10 {
      LastDigit(n / 10);
    }
  }

  /** What is hashed is the key, then the seed, then the number: it differs from number to number, and for
      one seed and number from key to key. */
  lemma HashedText(hash: Hash, seed: string, n: nat, k: Key)
    ensures Rank(hash, seed + Decimal(n), k) == hash(k + seed + Decimal(n))
    ensures forall m: nat :: k + seed + Decimal(m) == k + seed + Decimal(n) ==> m == n
    ensures forall j: Key :: j + seed + Decimal(n) == k + seed + Decimal(n) ==> j == k
  {
    assert k + (seed + Decimal(n)) == k + seed + Decimal(n);
    forall m: nat | k + seed + Decimal(m) == k + seed + Decimal(n) ensures m == n {
      SameRest(k + seed, Decimal(m), Decimal(n));
      DecimalInjective(m, n);
    }
    forall j: Key | j + seed + Decimal(n) == k + seed + Decimal(n) ensures j == k {
      assert j + seed + Decimal(n) == j + (seed + Decimal(n));
      SameStart(j, k, seed + Decimal(n));
    }
  }

  lemma SameRest(a: string, b: string, c: string)
    requires a + b == a + c
    ensures b == c
  {
    assert (a + b)[|a|..] == b && (a + c)[|a|..] == c;
  }

  lemma SameStart(a: string, b: string, c: string)
    requires a + c == b + c
    ensures a == b
  {
    assert |a + c| == |a| + |c| && |b + c| == |b| + |c|;
    assert (a + c)[..|a|] == a && (b + c)[..|b|] == b;
  }
}
