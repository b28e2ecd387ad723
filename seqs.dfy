/**
 * The JavaScript array operations the data layer is built from -- `filter`,
 * `filter(...).length`, `some`, `find` and `map` -- as functions on
 * sequences, with the facts about them that the rest of the model relies on.
 */
module Seqs {

  datatype Option<+T> = None | Some(value: T)

  /** `s.filter(p)`: the elements of `s` that satisfy `p`, in their order. */
  function Filter<T>(s: seq<T>, p: T -> bool): (r: seq<T>)
    ensures |r| <= |s|
    ensures forall i :: 0 <= i < |r| ==> r[i] in s && p(r[i])
    ensures forall i :: 0 <= i < |s| && p(s[i]) ==> s[i] in r
  {
    if s == [] then []
    else if p(s[0]) then [s[0]] + Filter(s[1..], p)
    else Filter(s[1..], p)
  }

  /** `s.filter(p).length`. */
  function Count<T>(s: seq<T>, p: T -> bool): nat
  {
    |Filter(s, p)|
  }

  /** No element is counted exactly when none satisfies `p`. */
  lemma CountZero<T>(s: seq<T>, p: T -> bool)
    ensures Count(s, p) == 0 <==> !Any(s, p)
  {
    if Count(s, p) > 0 {
      assert Filter(s, p)[0] in s;
    }
  }

  /** `filter` keeps every occurrence of an element that passes and none of one that fails. */
  lemma {:induction false} FilterMultiset<T>(s: seq<T>, p: T -> bool, x: T)
    ensures multiset(Filter(s, p))[x] == if p(x) then multiset(s)[x] else 0
  {
    if s != [] {
      FilterMultiset(s[1..], p, x);
      assert s == [s[0]] + s[1..];
      assert multiset(s) == multiset([s[0]]) + multiset(s[1..]);
    }
  }

  /** `s.some(p)`. */
  predicate Any<T>(s: seq<T>, p: T -> bool)
  {
    exists i :: 0 <= i < |s| && p(s[i])
  }

  /** `s.findIndex(p)`, with -1 read as None: the first position satisfying `p`. */
  function FindIndex<T>(s: seq<T>, p: T -> bool): (r: Option<nat>)
    ensures r.Some? ==> r.value < |s| && p(s[r.value])
    ensures r.Some? ==> forall j :: 0 <= j < r.value ==> !p(s[j])
    ensures r.None? <==> !Any(s, p)
  {
    if s == [] then None
    else if p(s[0]) then Some(0)
    else match FindIndex(s[1..], p)
      case None => None
      case Some(i) => Some(i + 1)
  }

  /** `s.find(p)`, with undefined read as None: the first element satisfying `p`. */
  function Find<T>(s: seq<T>, p: T -> bool): (r: Option<T>)
    ensures r.Some? <==> Any(s, p)
    ensures r.Some? ==> r.value in s && p(r.value)
  {
    match FindIndex(s, p)
    case None => None
    case Some(i) => Some(s[i])
  }

  /** What `find` returns is the element at the first position that satisfies `p`. */
  lemma FindFirst<T>(s: seq<T>, p: T -> bool)
    ensures Find(s, p).Some? ==>
      exists i :: 0 <= i < |s| && s[i] == Find(s, p).value && p(s[i]) && forall j :: 0 <= j < i ==> !p(s[j])
  {
  }

  /** `s.map(x => key(x) === k ? f(x) : x)`: rewrite the elements whose key is `k`. */
  function MapWhere<T, K(==)>(s: seq<T>, key: T -> K, k: K, f: T -> T): (r: seq<T>)
    ensures |r| == |s|
    ensures forall i :: 0 <= i < |s| && key(s[i]) != k ==> r[i] == s[i]
    ensures forall i :: 0 <= i < |s| && key(s[i]) == k ==> r[i] == f(s[i])
  {
    if s == [] then []
    else [if key(s[0]) == k then f(s[0]) else s[0]] + MapWhere(s[1..], key, k, f)
  }

  /** The predicate `x => key(x) === k`. */
  function KeyIs<T, K(==)>(key: T -> K, k: K): T -> bool
  {
    (x: T) => key(x) == k
  }

  /** The callback `_ => x` of a `map` that replaces what it visits. */
  function Const<T>(x: T): T -> T
  {
    (_: T) => x
  }

  /** The predicate `x => key(x) !== k`. */
  function KeyIsNot<T, K(==)>(key: T -> K, k: K): T -> bool
  {
    (x: T) => key(x) != k
  }

  /** `s.filter(x => key(x) !== k)`: drop every element whose key is `k`. */
  function Remove<T, K(==)>(s: seq<T>, key: T -> K, k: K): (r: seq<T>)
    ensures forall i :: 0 <= i < |r| ==> r[i] in s && key(r[i]) != k
    ensures forall i :: 0 <= i < |s| && key(s[i]) != k ==> s[i] in r
  {
    Filter(s, KeyIsNot(key, k))
  }

  /** `a` occurs in `b` in the same order, possibly with gaps. */
  predicate IsSubsequence<T(==)>(a: seq<T>, b: seq<T>)
    decreases |a| + |b|
  {
    a == [] || (b != [] && if a[0] == b[0] then IsSubsequence(a[1..], b[1..]) else IsSubsequence(a, b[1..]))
  }

  lemma {:induction false} SubsequenceReflexive<T>(s: seq<T>)
    ensures IsSubsequence(s, s)
  {
    if s != [] {
      SubsequenceReflexive(s[1..]);
    }
  }

  lemma {:induction false} FilterAppend<T>(a: seq<T>, b: seq<T>, p: T -> bool)
    ensures Filter(a + b, p) == Filter(a, p) + Filter(b, p)
  {
    if a == [] {
      assert a + b == b;
    } else {
      assert (a + b)[0] == a[0];
      assert (a + b)[1..] == a[1..] + b;
      FilterAppend(a[1..], b, p);
    }
  }

  lemma CountAppend<T>(a: seq<T>, b: seq<T>, p: T -> bool)
    ensures Count(a + b, p) == Count(a, p) + Count(b, p)
  {
    FilterAppend(a, b, p);
  }

  lemma CountSingleton<T>(x: T, p: T -> bool)
    ensures Count([x], p) == if p(x) then 1 else 0
  {
    assert [x][1..] == [];
  }

  /** Filtering twice by the same predicate is filtering once. */
  lemma {:induction false} FilterIdempotent<T>(s: seq<T>, p: T -> bool)
    ensures Filter(Filter(s, p), p) == Filter(s, p)
  {
    if s != [] {
      FilterIdempotent(s[1..], p);
      if p(s[0]) {
        assert ([s[0]] + Filter(s[1..], p))[1..] == Filter(s[1..], p);
      }
    }
  }

  /** A predicate every element satisfies filters nothing out. */
  lemma {:induction false} FilterKeepsAll<T>(s: seq<T>, p: T -> bool)
    requires forall i :: 0 <= i < |s| ==> p(s[i])
    ensures Filter(s, p) == s
  {
    if s != [] {
      FilterKeepsAll(s[1..], p);
      assert [s[0]] + s[1..] == s;
    }
  }

  /** Matching against a longer sequence: one extra element in front does no harm. */
  lemma {:induction false} SubsequenceOfTail<T>(a: seq<T>, b: seq<T>)
    requires b != [] && IsSubsequence(a, b[1..])
    ensures IsSubsequence(a, b)
    decreases 2 * |b|
  {
    if a != [] && a[0] == b[0] {
      DropHead(a, b[1..]);
    }
  }

  /** A subsequence without its first element is still a subsequence. */
  lemma {:induction false} DropHead<T>(a: seq<T>, c: seq<T>)
    requires a != [] && IsSubsequence(a, c)
    ensures IsSubsequence(a[1..], c)
    decreases 2 * |c| + 1
  {
    if a[0] == c[0] {
      SubsequenceOfTail(a[1..], c);
    } else {
      DropHead(a, c[1..]);
      SubsequenceOfTail(a[1..], c);
    }
  }

  /** `filter` keeps the survivors in their original order. */
  lemma {:induction false} FilterIsSubsequence<T>(s: seq<T>, p: T -> bool)
    ensures IsSubsequence(Filter(s, p), s)
  {
    if s != [] {
      FilterIsSubsequence(s[1..], p);
      if p(s[0]) {
        assert ([s[0]] + Filter(s[1..], p))[1..] == Filter(s[1..], p);
      } else {
        SubsequenceOfTail(Filter(s[1..], p), s);
      }
    }
  }

  /** Predicates that agree on the elements filter alike. */
  lemma {:induction false} FilterSamePredicate<T>(s: seq<T>, p: T -> bool, q: T -> bool)
    requires forall i :: 0 <= i < |s| ==> p(s[i]) == q(s[i])
    ensures Filter(s, p) == Filter(s, q)
  {
    if s != [] {
      FilterSamePredicate(s[1..], p, q);
    }
  }

  /** Two predicates can filter a sequence into complementary parts. */
  lemma {:induction false} FilterPartition<T>(s: seq<T>, p: T -> bool, q: T -> bool)
    requires forall i :: 0 <= i < |s| ==> q(s[i]) == !p(s[i])
    ensures |Filter(s, p)| + |Filter(s, q)| == |s|
  {
    if s != [] {
      FilterPartition(s[1..], p, q);
    }
  }

  /** On a sequence with no element keyed `k`, the rewrite is the identity. */
  lemma {:induction false} MapWhereMiss<T, K>(s: seq<T>, key: T -> K, k: K, f: T -> T)
    requires forall i :: 0 <= i < |s| ==> key(s[i]) != k
    ensures MapWhere(s, key, k, f) == s
  {
    if s != [] {
      MapWhereMiss(s[1..], key, k, f);
      assert [s[0]] + s[1..] == s;
    }
  }

  /** Rewriting twice by a rewrite that keeps the key and is idempotent is rewriting once. */
  lemma {:induction false} MapWhereIdempotent<T, K>(s: seq<T>, key: T -> K, k: K, f: T -> T)
    requires forall x :: key(x) == k ==> key(f(x)) == k && f(f(x)) == f(x)
    ensures MapWhere(MapWhere(s, key, k, f), key, k, f) == MapWhere(s, key, k, f)
  {
    if s != [] {
      MapWhereIdempotent(s[1..], key, k, f);
      var once := MapWhere(s, key, k, f);
      assert once[1..] == MapWhere(s[1..], key, k, f);
    }
  }

  /** A rewrite that keeps keys keeps them at every position. */
  lemma MapWhereKeepsKeys<T, K>(s: seq<T>, key: T -> K, k: K, f: T -> T, i: nat)
    requires forall x :: key(f(x)) == key(x)
    requires i < |s|
    ensures key(MapWhere(s, key, k, f)[i]) == key(s[i])
  {
  }

  /** Deleting by key drops exactly the elements keyed `k` and counts them. */
  lemma RemoveCount<T, K>(s: seq<T>, key: T -> K, k: K)
    ensures |Remove(s, key, k)| == |s| - Count(s, KeyIs(key, k))
  {
    FilterPartition(s, KeyIsNot(key, k), KeyIs(key, k));
  }

  /** Deleting the same key twice is deleting it once. */
  lemma RemoveIdempotent<T, K>(s: seq<T>, key: T -> K, k: K)
    ensures Remove(Remove(s, key, k), key, k) == Remove(s, key, k)
  {
    FilterIdempotent(s, KeyIsNot(key, k));
  }

  /** Deleting by key keeps the remaining elements in order. */
  lemma RemoveIsSubsequence<T, K>(s: seq<T>, key: T -> K, k: K)
    ensures IsSubsequence(Remove(s, key, k), s)
  {
    FilterIsSubsequence(s, KeyIsNot(key, k));
  }

  /** A find over a prefix with no match continues in the suffix. */
  lemma {:induction false} FindAppendMiss<T>(a: seq<T>, b: seq<T>, p: T -> bool)
    requires !Any(a, p)
    ensures Find(a + b, p) == Find(b, p)
  {
    if a != [] {
      assert (a + b)[0] == a[0];
      assert (a + b)[1..] == a[1..] + b;
      assert !Any(a[1..], p) by {
        forall i | 0 <= i < |a[1..]| ensures !p(a[1..][i]) { assert a[1..][i] == a[i + 1]; }
      }
      FindAppendMiss(a[1..], b, p);
      FindShift(a + b, p);
    } else {
      assert a + b == b;
    }
  }

  lemma FindShift<T>(s: seq<T>, p: T -> bool)
    requires s != [] && !p(s[0])
    ensures Find(s, p) == Find(s[1..], p)
  {
    match FindIndex(s[1..], p)
    case None =>
    case Some(i) => assert s[1..][i] == s[i + 1];
  }

  /** A find whose predicate singles out one position returns that element. */
  lemma FindOnly<T>(s: seq<T>, p: T -> bool, k: nat)
    requires k < |s| && p(s[k])
    requires forall j :: 0 <= j < |s| && j != k ==> !p(s[j])
    ensures Find(s, p) == Some(s[k])
  {
    var r := FindIndex(s, p);
    assert r.Some?;
    assert r.value == k;
  }
}
