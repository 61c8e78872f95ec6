/**
 The three Python list operations the game state relies on:
 `list.index` (first occurrence), `list.pop(i)` and their combination
 `s.pop(s.index(x))`, which removes the first occurrence of `x`.
 */
module Lists {

  /** `s.index(x)`: the position of the first occurrence of `x` in `s`. */
  function FirstIndex<T(==)>(s: seq<T>, x: T): (i: nat)
    requires x in s
    ensures i < |s| && s[i] == x
    ensures x !in s[..i]
  {
    if s[0] == x then 0
    else
      var j := FirstIndex(s[1..], x);
      assert s[..j + 1] == [s[0]] + s[1..][..j];
      j + 1
  }

  /** The first occurrence is the one after the longest prefix free of `x`. */
  lemma FirstIndexOfSplit<T>(p: seq<T>, x: T, q: seq<T>)
    requires x !in p
    ensures x in p + [x] + q
    ensures FirstIndex(p + [x] + q, x) == |p|
  {
    var s := p + [x] + q;
    assert s[|p|] == x;
  }

  /** `s.pop(i)`: `s` without its element at position `i`, the rest in order. */
  function RemoveAt<T>(s: seq<T>, i: nat): (r: seq<T>)
    requires i < |s|
    ensures |r| == |s| - 1
    ensures forall k :: 0 <= k < i ==> r[k] == s[k]
    ensures forall k :: i <= k < |r| ==> r[k] == s[k + 1]
    ensures multiset(r) + multiset{s[i]} == multiset(s)
  {
    assert s == s[..i] + [s[i]] + s[i + 1..];
    s[..i] + s[i + 1..]
  }

  /** `s.pop(s.index(x))`: removes the first occurrence of `x`. */
  function RemoveFirst<T(==)>(s: seq<T>, x: T): (r: seq<T>)
    requires x in s
    ensures |r| == |s| - 1
    ensures multiset(r) + multiset{x} == multiset(s)
  {
    RemoveAt(s, FirstIndex(s, x))
  }

  /**
   An independent description of RemoveFirst: cut `s` at the first `x`
   and glue the two sides together.
   */
  lemma RemoveFirstOfSplit<T>(p: seq<T>, x: T, q: seq<T>)
    requires x !in p
    ensures x in p + [x] + q
    ensures RemoveFirst(p + [x] + q, x) == p + q
  {
    FirstIndexOfSplit(p, x, q);
    var s := p + [x] + q;
    assert s[..|p|] == p;
    assert s[|p| + 1..] == q;
  }

  /** The number of occurrences of `x` in `s`, counted from the front. */
  function Count<T(==)>(s: seq<T>, x: T): (c: nat)
    ensures c <= |s|
    ensures x in s ==> 0 < c
  {
    if s == [] then 0 else (if s[0] == x then 1 else 0) + Count(s[1..], x)
  }

  /** Counting agrees with the multiplicity in the multiset of `s`. */
  lemma {:induction false} CountIsMultiplicity<T>(s: seq<T>, x: T)
    ensures Count(s, x) == multiset(s)[x]
  {
    if s != [] {
      CountIsMultiplicity(s[1..], x);
      assert s == [s[0]] + s[1..];
    }
  }

  /** Overwriting one element that differs from `x` with `x` adds one occurrence of `x`. */
  lemma {:induction false} CountAfterUpdate<T>(s: seq<T>, k: nat, x: T)
    requires k < |s| && s[k] != x
    ensures Count(s[k := x], x) == Count(s, x) + 1
  {
    if k == 0 {
      assert s[k := x][1..] == s[1..];
    } else {
      CountAfterUpdate(s[1..], k - 1, x);
      assert s[k := x][1..] == s[1..][k - 1 := x];
    }
  }

  /** Counting in a list of four is one test per element. */
  lemma CountOfFour<T>(a: T, b: T, c: T, d: T, x: T)
    ensures Count([a, b, c, d], x) ==
      (if a == x then 1 else 0) + (if b == x then 1 else 0) +
      (if c == x then 1 else 0) + (if d == x then 1 else 0)
  {
    assert [d][1..] == [];
    assert Count([d], x) == (if d == x then 1 else 0);
    assert [c, d][1..] == [d];
    assert Count([c, d], x) == (if c == x then 1 else 0) + Count([d], x);
    assert [b, c, d][1..] == [c, d];
    assert Count([b, c, d], x) == (if b == x then 1 else 0) + Count([c, d], x);
    assert [a, b, c, d][1..] == [b, c, d];
  }
}
