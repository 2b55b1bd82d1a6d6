/**
 * The array primitives the components call (`filter`, `findIndex`,
 * `splice`, `reduce`, `Array.from(new Set(...))`), stated once over
 * sequences.
 */
module Seqs {

  /** `a` is `b` with some elements dropped and the rest kept in order. */
  predicate IsSubseq<T(==)>(a: seq<T>, b: seq<T>)
    decreases |b|
  {
    if a == [] then true
    else if b == [] then false
    else if a[0] == b[0] then IsSubseq(a[1..], b[1..])
    else IsSubseq(a, b[1..])
  }

  /** No element occurs twice. */
  predicate NoDup<T(==)>(s: seq<T>) {
    forall i, j :: 0 <= i < j < |s| ==> s[i] != s[j]
  }

  /** Every element of a subsequence is an element of the whole. */
  lemma {:induction false} SubseqMembers<T>(a: seq<T>, b: seq<T>, x: T)
    requires IsSubseq(a, b) && x in a
    ensures x in b
    decreases |b|
  {
    if a[0] == b[0] {
      if x != a[0] {
        assert x in a[1..];
        SubseqMembers(a[1..], b[1..], x);
      }
    } else {
      SubseqMembers(a, b[1..], x);
    }
  }

  /** A subsequence of a sequence without repeats has none either. */
  lemma {:induction false} SubseqNoDup<T>(a: seq<T>, b: seq<T>)
    requires IsSubseq(a, b) && NoDup(b)
    ensures NoDup(a)
    decreases |b|
  {
    if a != [] {
      assert NoDup(b[1..]);
      if a[0] == b[0] {
        SubseqNoDup(a[1..], b[1..]);
        if a[0] in a[1..] {
          SubseqMembers(a[1..], b[1..], a[0]);
          assert false;
        }
        forall i, j | 0 <= i < j < |a| ensures a[i] != a[j] {
          if i == 0 {
            assert a[j] == a[1..][j - 1];
          } else {
            assert a[i] == a[1..][i - 1] && a[j] == a[1..][j - 1];
          }
        }
      } else {
        SubseqNoDup(a, b[1..]);
      }
    }
  }

  /** `s.filter(p)` */
  function Filter<T(!new)>(s: seq<T>, p: T -> bool): (r: seq<T>)
    ensures |r| <= |s|
    ensures forall x :: x in r <==> x in s && p(x)
    ensures forall x :: multiset(r)[x] == if p(x) then multiset(s)[x] else 0
  {
    if s == [] then []
    else var rest := Filter(s[1..], p);
      assert forall x :: x in s <==> x == s[0] || x in s[1..];
      assert s == [s[0]] + s[1..];
      if p(s[0]) then [s[0]] + rest else rest
  }

  /** A filter keeps the kept elements in their original order. */
  lemma {:induction false} FilterIsSubseq<T(!new)>(s: seq<T>, p: T -> bool)
    ensures IsSubseq(Filter(s, p), s)
  {
    if s != [] {
      FilterIsSubseq(s[1..], p);
      if !p(s[0]) {
        SubseqDropHead(Filter(s[1..], p), s);
      } else {
        assert ([s[0]] + Filter(s[1..], p))[1..] == Filter(s[1..], p);
      }
    }
  }

  /** A subsequence of the tail is a subsequence of the whole. */
  lemma {:induction false} SubseqDropHead<T>(a: seq<T>, b: seq<T>)
    requires b != [] && IsSubseq(a, b[1..])
    ensures IsSubseq(a, b)
    decreases |b|, 1
  {
    if a != [] && a[0] == b[0] {
      SubseqTail(a, b[1..]);
    }
  }

  /** Dropping the head of a subsequence keeps it a subsequence. */
  lemma {:induction false} SubseqTail<T>(a: seq<T>, b: seq<T>)
    requires a != [] && IsSubseq(a, b)
    ensures IsSubseq(a[1..], b)
    decreases |b|, 2
  {
    if b != [] {
      if a[0] != b[0] {
        SubseqTail(a, b[1..]);
      }
      SubseqDropHead(a[1..], b);
    }
  }

  /** Number of elements satisfying `p`: `s.filter(p).length`. */
  function Count<T>(s: seq<T>, p: T -> bool): (n: nat)
    ensures n <= |s|
  {
    if s == [] then 0 else (if p(s[0]) then 1 else 0) + Count(s[1..], p)
  }

  /** Count agrees with the length of the filtered list. */
  lemma {:induction false} CountIsFilterLength<T(!new)>(s: seq<T>, p: T -> bool)
    ensures Count(s, p) == |Filter(s, p)|
  {
    if s != [] { CountIsFilterLength(s[1..], p); }
  }

  /** Counting a sequence with one more element at the end. */
  lemma {:induction false} CountAppend<T>(s: seq<T>, x: T, p: T -> bool)
    ensures Count(s + [x], p) == Count(s, p) + (if p(x) then 1 else 0)
  {
    if s == [] {
      assert s + [x] == [x];
    } else {
      assert (s + [x])[1..] == s[1..] + [x];
      CountAppend(s[1..], x, p);
    }
  }

  /** The positions whose element satisfies `p`. */
  function Positions<T>(s: seq<T>, p: T -> bool): (r: set<int>)
    ensures forall i :: i in r <==> 0 <= i < |s| && p(s[i])
  {
    set i | 0 <= i < |s| && p(s[i])
  }

  /** Count is the number of positions whose element satisfies `p`. */
  lemma {:induction false} CountIsIndexCount<T>(s: seq<T>, p: T -> bool)
    ensures Count(s, p) == |Positions(s, p)|
    decreases |s|
  {
    if s != [] {
      var init, x := s[..|s| - 1], s[|s| - 1];
      assert init + [x] == s;
      CountIsIndexCount(init, p);
      CountAppend(init, x, p);
      var a, b := Positions(init, p), Positions(s, p);
      if p(x) {
        assert b == a + {|init|};
      } else {
        assert b == a;
      }
    }
  }

  /** Sum of `w` over `s`, added from the last element back (the order of `reduce` does not matter for exact sums). */
  function Sum<T>(s: seq<T>, w: T -> real): real {
    if s == [] then 0.0 else Sum(s[..|s| - 1], w) + w(s[|s| - 1])
  }

  /** `keys.findIndex(k => k === key)`: the first index holding `key`, or -1. */
  function IndexOf<T(==)>(keys: seq<T>, key: T): (r: int)
    ensures -1 <= r < |keys|
    ensures r == -1 <==> key !in keys
    ensures r >= 0 ==> keys[r] == key && forall j :: 0 <= j < r ==> keys[j] != key
  {
    if keys == [] then -1
    else if keys[0] == key then 0
    else var r := IndexOf(keys[1..], key);
      if r == -1 then -1 else r + 1
  }

  /** `Array.from(new Set(s))`: each value once, in order of first occurrence. */
  function Distinct<T(==,!new)>(s: seq<T>): (r: seq<T>)
    ensures NoDup(r)
    ensures forall x :: x in r <==> x in s
    decreases |s|
  {
    if s == [] then []
    else
      var init := Distinct(s[..|s| - 1]);
      var last := s[|s| - 1];
      assert forall x :: x in s <==> x in s[..|s| - 1] || x == last;
      if last in init then init else init + [last]
  }

  /** `s.filter(y => y !== x)` */
  function Without<T(==,!new)>(s: seq<T>, x: T): (r: seq<T>)
    ensures x !in r
    ensures forall y :: y != x ==> (y in r <==> y in s)
    ensures IsSubseq(r, s)
    ensures NoDup(s) && x in s ==> |r| == |s| - 1
  {
    var r := Filter(s, y => y != x);
    FilterIsSubseq(s, y => y != x);
    if NoDup(s) && x in s then
      WithoutOne(s, x);
      r
    else r
  }

  /** Removing an element just appended, and found nowhere else, gives the original back. */
  lemma {:induction false} WithoutAppended<T(!new)>(s: seq<T>, x: T)
    requires x !in s
    ensures Without(s + [x], x) == s
  {
    if s == [] {
      assert Filter([x], y => y != x) == [];
    } else {
      assert (s + [x])[1..] == s[1..] + [x];
      WithoutAppended(s[1..], x);
      assert [s[0]] + s[1..] == s;
    }
  }

  lemma {:induction false} WithoutOne<T(!new)>(s: seq<T>, x: T)
    requires NoDup(s) && x in s
    ensures |Filter(s, y => y != x)| == |s| - 1
  {
    if s[0] == x {
      assert x !in s[1..];
      FilterKeepsAll(s[1..], y => y != x);
    } else {
      assert NoDup(s[1..]);
      WithoutOne(s[1..], x);
    }
  }

  lemma {:induction false} FilterKeepsAll<T(!new)>(s: seq<T>, p: T -> bool)
    requires forall y :: y in s ==> p(y)
    ensures Filter(s, p) == s
  {
    if s != [] {
      FilterKeepsAll(s[1..], p);
      assert [s[0]] + s[1..] == s;
    }
  }

  /** `next.splice(i, 1)`: the sequence without index `i`. */
  function RemoveAt<T>(s: seq<T>, i: nat): (r: seq<T>)
    requires i < |s|
    ensures |r| == |s| - 1
    ensures forall k :: 0 <= k < i ==> r[k] == s[k]
    ensures forall k :: i <= k < |r| ==> r[k] == s[k + 1]
  {
    s[..i] + s[i + 1..]
  }

  /** `next.splice(i, 0, x)`: `x` inserted before index `i`. */
  function InsertAt<T>(s: seq<T>, i: nat, x: T): (r: seq<T>)
    requires i <= |s|
    ensures |r| == |s| + 1 && r[i] == x
    ensures forall k :: 0 <= k < i ==> r[k] == s[k]
    ensures forall k :: i < k < |r| ==> r[k] == s[k - 1]
  {
    s[..i] + [x] + s[i..]
  }

  /** Removing what was inserted gives the sequence back. */
  lemma RemoveInsert<T>(s: seq<T>, i: nat, x: T)
    requires i <= |s|
    ensures RemoveAt(InsertAt(s, i, x), i) == s
  {
  }

  /** The drag-and-drop move: take the element at `from` out, put it back at index `to` of the shortened sequence. */
  function Move<T>(s: seq<T>, from: nat, to: nat): (r: seq<T>)
    requires from < |s| && to < |s|
    ensures |r| == |s|
    ensures r[to] == s[from]
    ensures RemoveAt(r, to) == RemoveAt(s, from)
    ensures multiset(r) == multiset(s)
  {
    var rest := RemoveAt(s, from);
    var r := InsertAt(rest, to, s[from]);
    RemoveInsert(rest, to, s[from]);
    InsertAtMultiset(rest, to, s[from]);
    RemoveAtMultiset(s, from);
    r
  }

  /** Inserting adds exactly one occurrence. */
  lemma InsertAtMultiset<T>(s: seq<T>, i: nat, x: T)
    requires i <= |s|
    ensures multiset(InsertAt(s, i, x)) == multiset(s) + multiset{x}
  {
    assert InsertAt(s, i, x) == s[..i] + [x] + s[i..];
    assert s[..i] + s[i..] == s;
  }

  /** Removing takes away exactly the occurrence at that index. */
  lemma RemoveAtMultiset<T>(s: seq<T>, i: nat)
    requires i < |s|
    ensures multiset(RemoveAt(s, i)) + multiset{s[i]} == multiset(s)
  {
    assert RemoveAt(s, i) == s[..i] + s[i + 1..];
    assert s[..i] + [s[i]] + s[i + 1..] == s;
  }

  /** Moving an element and moving it back restores the original order. */
  lemma MoveBack<T>(s: seq<T>, from: nat, to: nat)
    requires from < |s| && to < |s|
    ensures Move(Move(s, from, to), to, from) == s
  {
    var m := Move(s, from, to);
    var b := Move(m, to, from);
    assert RemoveAt(b, from) == RemoveAt(s, from);
    assert b[from] == s[from];
    forall k | 0 <= k < |s| ensures b[k] == s[k] {
      if k < from {
        assert b[k] == RemoveAt(b, from)[k];
      } else if k > from {
        assert b[k] == RemoveAt(b, from)[k - 1];
      }
    }
  }
}
