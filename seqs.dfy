/** `Array.prototype.filter`, which every list view of the application uses. */
module Seqs {

  /** The elements satisfying `p`, in their original order. */
  function Filter<T>(s: seq<T>, p: T -> bool): (r: seq<T>)
    ensures |r| <= |s|
    ensures forall i :: 0 <= i < |r| ==> r[i] in s && p(r[i])
    ensures forall i :: 0 <= i < |s| && p(s[i]) ==> s[i] in r
  {
    if s == [] then [] else Filter(s[..|s| - 1], p) + (if p(s[|s| - 1]) then [s[|s| - 1]] else [])
  }

  /** Filtering a concatenation filters each part in place: the kept elements stay in order. */
  lemma {:induction false} FilterAppend<T>(a: seq<T>, b: seq<T>, p: T -> bool)
    ensures Filter(a + b, p) == Filter(a, p) + Filter(b, p)
    decreases |b|
  {
    if b != [] {
      var b' := b[..|b| - 1];
      assert (a + b)[..|a + b| - 1] == a + b';
      FilterAppend(a, b', p);
    } else {
      assert a + b == a;
    }
  }

  /** When every element passes, nothing is dropped. */
  lemma {:induction false} FilterKeepsAll<T>(s: seq<T>, p: T -> bool)
    requires forall i :: 0 <= i < |s| ==> p(s[i])
    ensures Filter(s, p) == s
  {
    if s != [] {
      var init := s[..|s| - 1];
      FilterKeepsAll(init, p);
      assert Filter(s, p) == init + [s[|s| - 1]];
      assert s == init + [s[|s| - 1]];
    }
  }

  /** When no element passes, nothing is kept. */
  lemma {:induction false} FilterDropsAll<T>(s: seq<T>, p: T -> bool)
    requires forall i :: 0 <= i < |s| ==> !p(s[i])
    ensures Filter(s, p) == []
  {
    if s != [] {
      FilterDropsAll(s[..|s| - 1], p);
    }
  }

  /** Filtering by one test and then by another is filtering once by both. */
  lemma {:induction false} FilterFilter<T>(s: seq<T>, p: T -> bool, q: T -> bool, both: T -> bool)
    requires forall x :: both(x) == (p(x) && q(x))
    ensures Filter(Filter(s, p), q) == Filter(s, both)
  {
    if s != [] {
      var init, x := s[..|s| - 1], s[|s| - 1];
      FilterFilter(init, p, q, both);
      var one := if p(x) then [x] else [];
      FilterAppend(Filter(init, p), one, q);
      assert Filter(one, q) == if both(x) then [x] else [] by {
        if one != [] {
          assert one[..0] == [];
        }
      }
    }
  }

  /** `items.map(f)`: one result per element, in order. */
  function Map<T, U>(items: seq<T>, f: T -> U): (r: seq<U>)
    ensures |r| == |items|
    ensures forall i :: 0 <= i < |items| ==> r[i] == f(items[i])
  {
    if items == [] then [] else Map(items[..|items| - 1], f) + [f(items[|items| - 1])]
  }

  /** `items.map((x, i) => f(i, x))`: one result per element, each from its position and the element. */
  function MapIndexed<T, U>(items: seq<T>, f: (nat, T) -> U): (r: seq<U>)
    ensures |r| == |items|
  {
    if items == [] then [] else MapIndexed(items[..|items| - 1], f) + [f(|items| - 1, items[|items| - 1])]
  }

  /** Mapping one more element adds its result at the end. */
  lemma {:induction false} MapIndexedSnoc<T, U>(items: seq<T>, f: (nat, T) -> U, i: nat)
    requires i < |items|
    ensures MapIndexed(items[..i + 1], f) == MapIndexed(items[..i], f) + [f(i, items[i])]
  {
    assert items[..i + 1][..i] == items[..i];
  }

  /** The j-th result is the one computed from position j and the j-th element. */
  lemma {:induction false} MapIndexedAt<T, U>(items: seq<T>, f: (nat, T) -> U, j: nat)
    requires j < |items|
    ensures MapIndexed(items, f)[j] == f(j, items[j])
  {
    var n := |items| - 1;
    if j < n {
      MapIndexedAt(items[..n], f, j);
      assert items[..n][j] == items[j];
    }
  }
}
