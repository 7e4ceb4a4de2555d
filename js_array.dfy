/**
 * The two array methods the task list is built from: `Array.prototype.filter`
 * and `Array.prototype.map`. Both return a fresh array and leave their input
 * alone, so they are functions on sequences here.
 */
module JsArray {

  /** `s.filter(p)`: the elements of `s` that satisfy `p`, in their original order. */
  function Filter<T>(s: seq<T>, p: T -> bool): (r: seq<T>)
    ensures |r| <= |s|
    ensures forall i :: 0 <= i < |r| ==> p(r[i])
  {
    if s == [] then []
    else (if p(s[0]) then [s[0]] else []) + Filter(s[1..], p)
  }

  /** What `s.filter(p)` holds: elements of `s`, and every element of `s` that passes. */
  lemma {:induction false} FilterMembers<T>(s: seq<T>, p: T -> bool)
    ensures forall i :: 0 <= i < |Filter(s, p)| ==> Filter(s, p)[i] in s
    ensures forall i :: 0 <= i < |s| && p(s[i]) ==> s[i] in Filter(s, p)
  {
    if s != [] {
      FilterMembers(s[1..], p);
      var head := if p(s[0]) then [s[0]] else [];
      var rest := Filter(s[1..], p);
      assert Filter(s, p) == head + rest;
      forall i | 0 <= i < |s| && p(s[i]) ensures s[i] in Filter(s, p) {
        if i > 0 {
          assert s[i] == s[1..][i - 1];
        }
      }
    }
  }

  /** `s.map(f)`: one result per element, at the same index. */
  function Map<T, U>(s: seq<T>, f: T -> U): (r: seq<U>)
    ensures |r| == |s|
    ensures forall i :: 0 <= i < |s| ==> r[i] == f(s[i])
  {
    if s == [] then [] else [f(s[0])] + Map(s[1..], f)
  }

  /** Filtering distributes over concatenation: the kept elements stay in order. */
  lemma {:induction false} FilterAppend<T>(a: seq<T>, b: seq<T>, p: T -> bool)
    ensures Filter(a + b, p) == Filter(a, p) + Filter(b, p)
  {
    if a == [] {
      assert a + b == b;
    } else {
      assert (a + b)[1..] == a[1..] + b;
      FilterAppend(a[1..], b, p);
    }
  }

  /** A predicate that holds of every element keeps the whole sequence. */
  lemma {:induction false} FilterKeepsAll<T>(s: seq<T>, p: T -> bool)
    requires forall i :: 0 <= i < |s| ==> p(s[i])
    ensures Filter(s, p) == s
  {
    if s != [] {
      FilterKeepsAll(s[1..], p);
    }
  }

  /** When `p` rejects only the element at index `k`, filtering removes exactly that element. */
  lemma {:induction false} FilterDropsOne<T>(s: seq<T>, p: T -> bool, k: nat)
    requires k < |s| && !p(s[k])
    requires forall i :: 0 <= i < |s| && i != k ==> p(s[i])
    ensures Filter(s, p) == s[..k] + s[k + 1..]
  {
    var tail := s[1..];
    assert Filter(s, p) == (if p(s[0]) then [s[0]] else []) + Filter(tail, p);
    forall i | 0 <= i < |tail| && i + 1 != k ensures p(tail[i]) {
      assert tail[i] == s[i + 1];
    }
    if k == 0 {
      FilterKeepsAll(tail, p);
      assert s[..k] + s[k + 1..] == tail;
    } else {
      FilterDropsOne(tail, p, k - 1);
      calc {
        Filter(s, p);
        [s[0]] + (tail[..k - 1] + tail[k..]);
        { assert tail[..k - 1] == s[1..k] && tail[k..] == s[k + 1..]; }
        [s[0]] + (s[1..k] + s[k + 1..]);
        { assert [s[0]] + s[1..k] == s[..k]; }
        s[..k] + s[k + 1..];
      }
    }
  }

  /** Two predicates that agree on every element select the same elements. */
  lemma {:induction false} FilterAgree<T>(s: seq<T>, p: T -> bool, q: T -> bool)
    requires forall i :: 0 <= i < |s| ==> p(s[i]) == q(s[i])
    ensures Filter(s, p) == Filter(s, q)
  {
    if s != [] {
      FilterAgree(s[1..], p, q);
    }
  }

  /**
   * A predicate and its complement split a sequence: every element lands in
   * exactly one of the two results, so the lengths and the multisets add up.
   */
  lemma {:induction false} FilterPartition<T>(s: seq<T>, p: T -> bool, q: T -> bool)
    requires forall i :: 0 <= i < |s| ==> q(s[i]) == !p(s[i])
    ensures |Filter(s, p)| + |Filter(s, q)| == |s|
    ensures multiset(Filter(s, p)) + multiset(Filter(s, q)) == multiset(s)
  {
    if s != [] {
      FilterPartition(s[1..], p, q);
      assert s == [s[0]] + s[1..];
    }
  }

  /**
   * When two sequences of equal length differ, as far as `p` can tell, only
   * at index `k`, the number of kept elements differs only by what index `k`
   * contributes before and after.
   */
  lemma {:induction false} FilterLengthPointChange<T>(s: seq<T>, s': seq<T>, p: T -> bool, k: nat)
    requires |s| == |s'| && k < |s|
    requires forall i :: 0 <= i < |s| && i != k ==> p(s[i]) == p(s'[i])
    ensures |Filter(s', p)| + (if p(s[k]) then 1 else 0) == |Filter(s, p)| + (if p(s'[k]) then 1 else 0)
  {
    assert |Filter(s, p)| == (if p(s[0]) then 1 else 0) + |Filter(s[1..], p)|;
    assert |Filter(s', p)| == (if p(s'[0]) then 1 else 0) + |Filter(s'[1..], p)|;
    if k == 0 {
      FilterLengthAgree(s[1..], s'[1..], p);
    } else {
      FilterLengthPointChange(s[1..], s'[1..], p, k - 1);
    }
  }

  /** Sequences on which `p` gives the same answers index by index keep equally many elements. */
  lemma {:induction false} FilterLengthAgree<T>(s: seq<T>, s': seq<T>, p: T -> bool)
    requires |s| == |s'|
    requires forall i :: 0 <= i < |s| ==> p(s[i]) == p(s'[i])
    ensures |Filter(s', p)| == |Filter(s, p)|
  {
    if s != [] {
      FilterLengthAgree(s[1..], s'[1..], p);
    }
  }
}
