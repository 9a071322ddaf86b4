/** Generic sequence operations that mirror the Array methods the dashboard relies on. */
module Seqs {

  /** `Array.prototype.filter`: keeps, in order, the elements satisfying `f`. */
  function Filter<T(!new)>(s: seq<T>, f: T -> bool): (r: seq<T>)
    ensures |r| <= |s|
    ensures forall x :: x in r <==> x in s && f(x)
    ensures forall i :: 0 <= i < |r| ==> f(r[i])
  {
    if |s| == 0 then []
    else (if f(s[0]) then [s[0]] else []) + Filter(s[1..], f)
  }

  /** Filtering distributes over concatenation: the relative order of kept elements is the source order. */
  lemma {:induction false} FilterAppend<T(!new)>(a: seq<T>, b: seq<T>, f: T -> bool)
    ensures Filter(a + b, f) == Filter(a, f) + Filter(b, f)
  {
    if |a| == 0 {
      assert a + b == b;
    } else {
      assert (a + b)[1..] == a[1..] + b;
      FilterAppend(a[1..], b, f);
    }
  }

  /** Filtering keeps everything when every element passes. */
  lemma {:induction false} FilterAll<T(!new)>(s: seq<T>, f: T -> bool)
    requires forall i :: 0 <= i < |s| ==> f(s[i])
    ensures Filter(s, f) == s
  {
    if |s| > 0 {
      FilterAll(s[1..], f);
    }
  }

  /** Filtering drops everything when no element passes. */
  lemma {:induction false} FilterNone<T(!new)>(s: seq<T>, f: T -> bool)
    requires forall i :: 0 <= i < |s| ==> !f(s[i])
    ensures Filter(s, f) == []
  {
    if |s| > 0 {
      FilterNone(s[1..], f);
    }
  }

  /** When every element of `a` that passes has a passing counterpart in `b`, `b` keeps at least as many. */
  lemma {:induction false} FilterCountMonotone<T(!new)>(a: seq<T>, b: seq<T>, f: T -> bool)
    requires |a| == |b|
    requires forall i :: 0 <= i < |a| && f(a[i]) ==> f(b[i])
    ensures |Filter(a, f)| <= |Filter(b, f)|
  {
    if |a| > 0 {
      assert forall i :: 0 <= i < |a| - 1 ==> a[1..][i] == a[i + 1] && b[1..][i] == b[i + 1];
      FilterCountMonotone(a[1..], b[1..], f);
    }
  }

  /** A filter and its complement split a sequence into two parts that together hold every element. */
  lemma {:induction false} FilterSplit<T(!new)>(s: seq<T>, f: T -> bool, g: T -> bool)
    requires forall x :: g(x) == !f(x)
    ensures multiset(Filter(s, f)) + multiset(Filter(s, g)) == multiset(s)
    ensures |Filter(s, f)| + |Filter(s, g)| == |s|
  {
    if |s| > 0 {
      FilterSplit(s[1..], f, g);
      assert s == [s[0]] + s[1..];
    }
  }

  /** `Array.prototype.map`: applies `f` to every element, keeping positions. */
  function Map<T, U>(s: seq<T>, f: T -> U): (r: seq<U>)
    ensures |r| == |s|
    ensures forall i :: 0 <= i < |s| ==> r[i] == f(s[i])
  {
    seq(|s|, i requires 0 <= i < |s| => f(s[i]))
  }

  /** Mapping distributes over concatenation. */
  lemma MapAppend<T, U>(a: seq<T>, b: seq<T>, f: T -> U)
    ensures Map(a + b, f) == Map(a, f) + Map(b, f)
  {
  }

  /** `s.filter(f).map(g)` holds the images of exactly the elements that pass `f`. */
  lemma MapFilterMembers<T(!new), U(!new)>(s: seq<T>, f: T -> bool, g: T -> U)
    ensures forall x :: x in s && f(x) ==> g(x) in Map(Filter(s, f), g)
    ensures forall y :: y in Map(Filter(s, f), g) ==> exists x :: x in s && f(x) && y == g(x)
  {
    var m := Filter(s, f);
    forall x | x in s && f(x)
      ensures g(x) in Map(m, g)
    {
      var i :| 0 <= i < |m| && m[i] == x;
      assert Map(m, g)[i] == g(x);
    }
  }

  /** `prev.filter((_, i) => i !== index)`: drops the element at `index`, if there is one. */
  function RemoveAt<T>(s: seq<T>, index: int): (r: seq<T>)
    ensures 0 <= index < |s| ==> r == s[..index] + s[index + 1..]
    ensures !(0 <= index < |s|) ==> r == s
  {
    if |s| == 0 then []
    else (if index == 0 then [] else [s[0]]) + RemoveAt(s[1..], index - 1)
  }

  /** `Array.prototype.slice(0, n)` for `n >= 0`: the first `n` elements, or all of them. */
  function Take<T>(s: seq<T>, n: nat): (r: seq<T>)
    ensures |r| == if n < |s| then n else |s|
    ensures forall i :: 0 <= i < |r| ==> r[i] == s[i]
  {
    if n < |s| then s[..n] else s
  }
}
