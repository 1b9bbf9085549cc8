/** The JavaScript array operations the dashboard pages build on
    (`Array.prototype.filter` and `find`), stated over Dafny sequences,
    with the facts the pages rely on. */
module ArrayOps {

  datatype Option<T> = None | Some(value: T)

  /** `r` can be obtained from `s` by deleting elements: order is kept. */
  predicate IsSubsequence<T(==)>(r: seq<T>, s: seq<T>)
  {
    r == [] ||
    (s != [] && ((r[0] == s[0] && IsSubsequence(r[1..], s[1..])) || IsSubsequence(r, s[1..])))
  }

  /** `s.filter(p)`: the elements of `s` that satisfy `p`, in their order:
      an order-preserving subsequence holding exactly the passing elements.
      How many copies of each it keeps is `FilterExact`. */
  function Filter<T(==,!new)>(s: seq<T>, p: T -> bool): (r: seq<T>)
    ensures IsSubsequence(r, s)
    ensures |r| <= |s|
    ensures forall i :: 0 <= i < |r| ==> p(r[i])
    ensures forall x :: x in r <==> x in s && p(x)
    ensures (forall i :: 0 <= i < |s| ==> p(s[i])) ==> r == s
    ensures (forall i :: 0 <= i < |s| ==> !p(s[i])) ==> r == []
  {
    if s == [] then []
    else
      var rest := Filter(s[1..], p);
      assert s == [s[0]] + s[1..];
      assert multiset(s) == multiset{s[0]} + multiset(s[1..]);
      if p(s[0]) then
        assert ([s[0]] + rest)[1..] == rest;
        [s[0]] + rest
      else rest
  }

  /** Filtering is exact: every copy of a passing element stays, every copy
      of a failing one goes. */
  lemma {:induction false} FilterExact<T(!new)>(s: seq<T>, p: T -> bool)
    ensures forall x :: multiset(Filter(s, p))[x] == if p(x) then multiset(s)[x] else 0
  {
    if s != [] {
      var rest := Filter(s[1..], p);
      FilterExact(s[1..], p);
      assert s == [s[0]] + s[1..];
      if p(s[0]) {
        assert Filter(s, p) == [s[0]] + rest;
      } else {
        assert Filter(s, p) == rest;
      }
    }
  }

  /** The positions of `s` whose element passes `p`. */
  ghost function Passing<T>(s: seq<T>, p: T -> bool): set<int>
  {
    set i | 0 <= i < |s| && p(s[i])
  }

  /** Appending one element adds its position exactly when it passes. */
  lemma PassingAppend<T>(s: seq<T>, x: T, p: T -> bool)
    ensures |Passing(s + [x], p)| == |Passing(s, p)| + (if p(x) then 1 else 0)
  {
    var last: set<int> := if p(x) then {|s|} else {};
    forall i ensures i in Passing(s + [x], p) <==> i in Passing(s, p) + last {
      if 0 <= i < |s| {
        assert (s + [x])[i] == s[i];
      }
    }
    assert Passing(s + [x], p) == Passing(s, p) + last;
    assert |s| !in Passing(s, p);
  }

  /** The length of `s.filter(p)` is the number of positions of `s` whose
      element passes `p`. */
  lemma {:induction false} FilterCountsPositions<T(!new)>(s: seq<T>, p: T -> bool)
    ensures |Filter(s, p)| == |Passing(s, p)|
  {
    if s != [] {
      var init, x := s[..|s| - 1], s[|s| - 1];
      assert s == init + [x];
      FilterCountsPositions(init, p);
      FilterAppend(init, x, p);
      PassingAppend(init, x, p);
    }
  }

  /** Filtering after appending one element: the new element is kept at the
      end exactly when it passes. */
  lemma {:induction false} FilterAppend<T(!new)>(s: seq<T>, x: T, p: T -> bool)
    ensures Filter(s + [x], p) == Filter(s, p) + (if p(x) then [x] else [])
  {
    if s == [] {
      assert [x][1..] == [];
    } else {
      assert (s + [x])[0] == s[0];
      assert (s + [x])[1..] == s[1..] + [x];
      FilterAppend(s[1..], x, p);
    }
  }

  /** Two complementary predicates split a list: the two filters together
      hold every element exactly once. */
  lemma {:induction false} FilterPartition<T(!new)>(s: seq<T>, p: T -> bool, q: T -> bool)
    requires forall x :: p(x) != q(x)
    ensures |Filter(s, p)| + |Filter(s, q)| == |s|
    ensures multiset(Filter(s, p)) + multiset(Filter(s, q)) == multiset(s)
  {
    if s != [] {
      var x, rest := s[0], s[1..];
      FilterPartition(rest, p, q);
      assert s == [x] + rest;
      if p(x) {
        assert Filter(s, p) == [x] + Filter(rest, p) && Filter(s, q) == Filter(rest, q);
      } else {
        assert Filter(s, p) == Filter(rest, p) && Filter(s, q) == [x] + Filter(rest, q);
      }
    }
  }

  /** When every element that passes `p` in `t` also passes it in `s`
      (position by position), `t` has no more passing elements than `s`. */
  lemma {:induction false} FilterCountMonotone<T(!new)>(s: seq<T>, t: seq<T>, p: T -> bool)
    requires |s| == |t|
    requires forall i :: 0 <= i < |t| && p(t[i]) ==> p(s[i])
    ensures |Filter(t, p)| <= |Filter(s, p)|
  {
    if s != [] {
      FilterCountMonotone(s[1..], t[1..], p);
      assert p(t[0]) ==> p(s[0]);
    }
  }

  /** A subsequence never has more elements passing `p` than the whole. */
  lemma {:induction false} SubsequenceFilterCount<T(!new)>(r: seq<T>, s: seq<T>, p: T -> bool)
    requires IsSubsequence(r, s)
    ensures |Filter(r, p)| <= |Filter(s, p)|
    decreases |s|
  {
    if r == [] {
    } else if r[0] == s[0] && IsSubsequence(r[1..], s[1..]) {
      SubsequenceFilterCount(r[1..], s[1..], p);
    } else {
      SubsequenceFilterCount(r, s[1..], p);
    }
  }

  /** `s.filter(x => key(x) !== k)`: the list without the entries whose
      key is `k`, the rest kept in order; nothing changes when no entry has it. */
  function WithoutKey<T(==,!new)>(s: seq<T>, key: T -> int, k: int): (r: seq<T>)
    ensures IsSubsequence(r, s)
    ensures forall x :: x in r <==> x in s && key(x) != k
    ensures (forall i :: 0 <= i < |s| ==> key(s[i]) != k) ==> r == s
  {
    Filter(s, x => key(x) != k)
  }

  /** Removal by key is exact: every copy of an entry with another key
      stays, every copy of an entry with key `k` goes. */
  lemma {:induction false} WithoutKeyExact<T(!new)>(s: seq<T>, key: T -> int, k: int)
    ensures forall x :: multiset(WithoutKey(s, key, k))[x] == if key(x) != k then multiset(s)[x] else 0
  {
    if s != [] {
      var rest := WithoutKey(s[1..], key, k);
      WithoutKeyExact(s[1..], key, k);
      assert s == [s[0]] + s[1..];
      if key(s[0]) != k {
        assert WithoutKey(s, key, k) == [s[0]] + rest;
      } else {
        assert WithoutKey(s, key, k) == rest;
      }
    }
  }

  /** `s.find(p)`: the first element satisfying `p`, or nothing. */
  function Find<T>(s: seq<T>, p: T -> bool): (r: Option<T>)
    ensures r.None? <==> forall i :: 0 <= i < |s| ==> !p(s[i])
    ensures r.Some? ==> exists i :: 0 <= i < |s| && s[i] == r.value && p(s[i]) &&
                                    forall j :: 0 <= j < i ==> !p(s[j])
  {
    if s == [] then None
    else if p(s[0]) then Some(s[0])
    else
      var r := Find(s[1..], p);
      assert r.Some? ==> exists i :: 1 <= i < |s| && s[i] == r.value && p(s[i]) &&
                                     forall j :: 1 <= j < i ==> !p(s[j]);
      r
  }
}
