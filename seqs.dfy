/**
 * Array.prototype.filter and Array.prototype.map on immutable sequences, with
 * the facts the calculators rely on: filter keeps the order of what it keeps,
 * and a filter and its complement split a list without losing anything.
 */
module Seqs {

  /** The elements of `s` that satisfy `p`, in their original order. */
  function Filter<T(!new)>(p: T -> bool, s: seq<T>): (r: seq<T>)
    ensures |r| <= |s|
    ensures forall i :: 0 <= i < |r| ==> p(r[i])
  {
    if s == [] then []
    else (if p(s[0]) then [s[0]] else []) + Filter(p, s[1..])
  }

  /** Filter keeps exactly the elements that pass. */
  lemma {:induction false} FilterMembers<T(!new)>(p: T -> bool, s: seq<T>)
    ensures forall x :: x in Filter(p, s) <==> x in s && p(x)
  {
    if s != [] {
      FilterMembers(p, s[1..]);
      assert s == [s[0]] + s[1..];
    }
  }

  /** `f` applied to every element of `s`. */
  function Map<T, U>(f: T -> U, s: seq<T>): (r: seq<U>)
    ensures |r| == |s|
    ensures forall i :: 0 <= i < |s| ==> r[i] == f(s[i])
  {
    if s == [] then [] else [f(s[0])] + Map(f, s[1..])
  }

  /** Filtering distributes over concatenation: the kept elements stay in their order. */
  lemma {:induction false} FilterConcat<T(!new)>(p: T -> bool, a: seq<T>, b: seq<T>)
    ensures Filter(p, a + b) == Filter(p, a) + Filter(p, b)
  {
    if a != [] {
      assert (a + b)[0] == a[0];
      assert (a + b)[1..] == a[1..] + b;
      FilterConcat(p, a[1..], b);
      calc {
        Filter(p, a + b);
        (if p(a[0]) then [a[0]] else []) + Filter(p, a[1..] + b);
        (if p(a[0]) then [a[0]] else []) + (Filter(p, a[1..]) + Filter(p, b));
      }
    } else {
      assert a + b == b;
    }
  }

  /** A filter that every element passes keeps the whole sequence. */
  lemma {:induction false} FilterAll<T(!new)>(p: T -> bool, s: seq<T>)
    requires forall x :: x in s ==> p(x)
    ensures Filter(p, s) == s
  {
    if s != [] {
      FilterAll(p, s[1..]);
    }
  }

  /** A filter and its complement together hold each element as often as the original does. */
  lemma {:induction false} FilterSplit<T(!new)>(p: T -> bool, q: T -> bool, s: seq<T>)
    requires forall x :: q(x) == !p(x)
    ensures multiset(Filter(p, s)) + multiset(Filter(q, s)) == multiset(s)
    ensures |Filter(p, s)| + |Filter(q, s)| == |s|
  {
    if s != [] {
      FilterSplit(p, q, s[1..]);
      assert s == [s[0]] + s[1..];
    }
  }

  /** Filter keeps every copy of an element that passes and none of one that fails. */
  lemma {:induction false} FilterCount<T(!new)>(p: T -> bool, s: seq<T>, x: T)
    ensures multiset(Filter(p, s))[x] == if p(x) then multiset(s)[x] else 0
  {
    if s != [] {
      FilterCount(p, s[1..], x);
      assert s == [s[0]] + s[1..];
    }
  }

  /** Filtering two permutations of one another gives two permutations of one another. */
  lemma FilterPermutation<T(!new)>(p: T -> bool, a: seq<T>, b: seq<T>)
    requires multiset(a) == multiset(b)
    ensures multiset(Filter(p, a)) == multiset(Filter(p, b))
  {
    forall x ensures multiset(Filter(p, a))[x] == multiset(Filter(p, b))[x] {
      FilterCount(p, a, x);
      FilterCount(p, b, x);
    }
  }

  /** Mapping after a split: the images of the two halves together are the image of the whole. */
  lemma {:induction false} MapFilterSplit<T(!new), U>(f: T -> U, p: T -> bool, q: T -> bool, s: seq<T>)
    requires forall x :: q(x) == !p(x)
    ensures multiset(Map(f, Filter(p, s))) + multiset(Map(f, Filter(q, s))) == multiset(Map(f, s))
  {
    if s != [] {
      var x, rest := s[0], s[1..];
      MapFilterSplit(f, p, q, rest);
      assert Map(f, s) == [f(x)] + Map(f, rest);
      if p(x) {
        assert Filter(p, s) == [x] + Filter(p, rest);
        assert Filter(q, s) == Filter(q, rest);
        MapConcat(f, [x], Filter(p, rest));
      } else {
        assert Filter(q, s) == [x] + Filter(q, rest);
        assert Filter(p, s) == Filter(p, rest);
        MapConcat(f, [x], Filter(q, rest));
      }
    }
  }

  /** Mapping distributes over concatenation. */
  lemma {:induction false} MapConcat<T, U>(f: T -> U, a: seq<T>, b: seq<T>)
    ensures Map(f, a + b) == Map(f, a) + Map(f, b)
  {
    if a != [] {
      assert (a + b)[1..] == a[1..] + b;
      MapConcat(f, a[1..], b);
    }
  }

  /** Taking one element out of a sequence takes one copy of it out of its multiset. */
  lemma {:induction false} RemoveAt<T>(b: seq<T>, j: nat)
    requires j < |b|
    ensures multiset(b[..j] + b[j + 1..]) + multiset{b[j]} == multiset(b)
  {
    assert b == b[..j] + [b[j]] + b[j + 1..];
  }

  /** Equal multisets stay equal when the same element is taken out of both. */
  lemma {:induction false} MultisetCancel<T>(a: multiset<T>, b: multiset<T>, x: T)
    requires a + multiset{x} == b + multiset{x}
    ensures a == b
  {
    forall y ensures a[y] == b[y] {
      assert (a + multiset{x})[y] == (b + multiset{x})[y];
    }
  }

  /** Taking one element out of a sequence takes its image out of the mapped multiset. */
  lemma {:induction false} MapRemoveAt<T, U>(f: T -> U, b: seq<T>, j: nat)
    requires j < |b|
    ensures multiset(Map(f, b)) == multiset(Map(f, b[..j] + b[j + 1..])) + multiset{f(b[j])}
  {
    var left, x, right := b[..j], b[j], b[j + 1..];
    assert b == left + ([x] + right);
    MapConcat(f, left, [x] + right);
    MapConcat(f, [x], right);
    MapConcat(f, left, right);
    var ml, mr := Map(f, left), Map(f, right);
    assert Map(f, [x]) == [f(x)];
    assert Map(f, b) == ml + ([f(x)] + mr);
    assert Map(f, left + right) == ml + mr;
    assert multiset(ml + ([f(x)] + mr)) == multiset(ml) + multiset{f(x)} + multiset(mr);
  }

  /** Reordering a sequence reorders its image: a permutation maps to a permutation. */
  lemma {:induction false} MapPermutation<T, U>(f: T -> U, a: seq<T>, b: seq<T>)
    requires multiset(a) == multiset(b)
    ensures multiset(Map(f, a)) == multiset(Map(f, b))
    decreases |a|
  {
    if a == [] {
      assert |b| == |multiset(b)| == 0;
    } else {
      var x := a[0];
      assert x in multiset(b);
      var j :| 0 <= j < |b| && b[j] == x;
      var rest := b[..j] + b[j + 1..];
      RemoveAt(b, j);
      assert a == [x] + a[1..];
      assert multiset(a[1..]) + multiset{x} == multiset(rest) + multiset{x};
      MultisetCancel(multiset(a[1..]), multiset(rest), x);
      MapPermutation(f, a[1..], rest);
      MapRemoveAt(f, a, 0);
      MapRemoveAt(f, b, j);
      assert a[..0] + a[1..] == a[1..];
    }
  }

  /** Regrouping a sum of three multisets. */
  lemma {:induction false} MultisetRegroup<T>(a: multiset<T>, b: multiset<T>, c: multiset<T>, d: multiset<T>, e: multiset<T>)
    requires b + c == d && a + d == e
    ensures (a + b) + c == e
  {
    assert (a + b) + c == a + (b + c);
  }

  /** One more step of mapping a prefix in place: the element at i is replaced by its image. */
  lemma {:induction false} MapPrefixStep<T>(f: T -> T, s: seq<T>, i: nat)
    requires i < |s|
    ensures (Map(f, s[..i]) + s[i..])[i := f(s[i])] == Map(f, s[..i + 1]) + s[i + 1..]
  {
    assert s[..i + 1] == s[..i] + [s[i]];
    MapConcat(f, s[..i], [s[i]]);
  }

  /** Strictly increasing positions. */
  predicate Increasing(idx: seq<nat>)
  {
    forall a, b :: 0 <= a < b < |idx| ==> idx[a] < idx[b]
  }

  /** Adds one to every position. */
  function Shift(idx: seq<nat>): (r: seq<nat>)
    ensures |r| == |idx|
    ensures forall k :: 0 <= k < |idx| ==> r[k] == idx[k] + 1
  {
    if idx == [] then [] else [idx[0] + 1] + Shift(idx[1..])
  }

  /** The positions in `s` of the elements Filter keeps, in order. */
  function FilterIndices<T(!new)>(p: T -> bool, s: seq<T>): (idx: seq<nat>)
    ensures |idx| == |Filter(p, s)|
    ensures forall k :: 0 <= k < |idx| ==> idx[k] < |s| && Filter(p, s)[k] == s[idx[k]]
    ensures Increasing(idx)
    ensures forall i :: 0 <= i < |s| && p(s[i]) ==> i in idx
  {
    if s == [] then []
    else
      var rest := FilterIndices(p, s[1..]);
      var shifted := Shift(rest);
      var head: seq<nat> := if p(s[0]) then [0] else [];
      FilterIndicesStep(p, s, rest, shifted, head);
      head + shifted
  }

  lemma {:induction false} FilterIndicesStep<T(!new)>(p: T -> bool, s: seq<T>, rest: seq<nat>, shifted: seq<nat>, head: seq<nat>)
    requires s != []
    requires |rest| == |Filter(p, s[1..])|
    requires forall k :: 0 <= k < |rest| ==> rest[k] < |s[1..]| && Filter(p, s[1..])[k] == s[1..][rest[k]]
    requires Increasing(rest)
    requires forall i :: 0 <= i < |s[1..]| && p(s[1..][i]) ==> i in rest
    requires |shifted| == |rest| && forall k :: 0 <= k < |rest| ==> shifted[k] == rest[k] + 1
    requires head == if p(s[0]) then [0] else []
    ensures var idx := head + shifted;
      && |idx| == |Filter(p, s)|
      && (forall k :: 0 <= k < |idx| ==> idx[k] < |s| && Filter(p, s)[k] == s[idx[k]])
      && Increasing(idx)
      && (forall i :: 0 <= i < |s| && p(s[i]) ==> i in idx)
  {
    ShiftedPositions(p, s, rest, shifted, head);
    ShiftedIncreasing(rest, shifted, head);
    ShiftedCovers(p, s, rest, shifted, head);
  }

  lemma {:induction false} ShiftedPositions<T(!new)>(p: T -> bool, s: seq<T>, rest: seq<nat>, shifted: seq<nat>, head: seq<nat>)
    requires s != []
    requires |rest| == |Filter(p, s[1..])|
    requires forall k :: 0 <= k < |rest| ==> rest[k] < |s[1..]| && Filter(p, s[1..])[k] == s[1..][rest[k]]
    requires |shifted| == |rest| && forall k :: 0 <= k < |rest| ==> shifted[k] == rest[k] + 1
    requires head == if p(s[0]) then [0] else []
    ensures var idx := head + shifted;
      && |idx| == |Filter(p, s)|
      && (forall k :: 0 <= k < |idx| ==> idx[k] < |s| && Filter(p, s)[k] == s[idx[k]])
  {
    var idx := head + shifted;
    var f := Filter(p, s);
    assert f == (if p(s[0]) then [s[0]] else []) + Filter(p, s[1..]);
    forall k | 0 <= k < |idx| ensures idx[k] < |s| && f[k] == s[idx[k]] {
      if k >= |head| {
        assert idx[k] == shifted[k - |head|];
        assert f[k] == Filter(p, s[1..])[k - |head|];
      }
    }
  }

  lemma {:induction false} ShiftedIncreasing(rest: seq<nat>, shifted: seq<nat>, head: seq<nat>)
    requires Increasing(rest)
    requires |shifted| == |rest| && forall k :: 0 <= k < |rest| ==> shifted[k] == rest[k] + 1
    requires head == [] || head == [0]
    ensures Increasing(head + shifted)
  {
    var idx := head + shifted;
    forall a, b | 0 <= a < b < |idx| ensures idx[a] < idx[b] {
      if a >= |head| {
        assert idx[a] == shifted[a - |head|] && idx[b] == shifted[b - |head|];
      } else {
        assert idx[b] == shifted[b - |head|];
      }
    }
  }

  lemma {:induction false} ShiftedCovers<T(!new)>(p: T -> bool, s: seq<T>, rest: seq<nat>, shifted: seq<nat>, head: seq<nat>)
    requires s != []
    requires forall i :: 0 <= i < |s[1..]| && p(s[1..][i]) ==> i in rest
    requires |shifted| == |rest| && forall k :: 0 <= k < |rest| ==> shifted[k] == rest[k] + 1
    requires head == if p(s[0]) then [0] else []
    ensures forall i :: 0 <= i < |s| && p(s[i]) ==> i in head + shifted
  {
    var idx := head + shifted;
    forall i | 0 <= i < |s| && p(s[i]) ensures i in idx {
      if i > 0 {
        assert s[1..][i - 1] == s[i];
        var k :| 0 <= k < |rest| && rest[k] == i - 1;
        assert idx[|head| + k] == i;
      } else {
        assert idx[0] == 0;
      }
    }
  }
}
