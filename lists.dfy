/** List operations the application uses through JavaScript's Array
    prototype (`filter`, `includes`, spread-append, `flatMap`, `sort`),
    stated once over Dafny sequences together with their properties. */
module Lists {

  /** Array filtering: the elements satisfying `keep`, in their original order. */
  function Filter<T>(s: seq<T>, keep: T -> bool): (r: seq<T>)
    ensures |r| <= |s|
    ensures forall k :: 0 <= k < |r| ==> keep(r[k])
    decreases |s|
  {
    if s == [] then []
    else (if keep(s[0]) then [s[0]] else []) + Filter(s[1..], keep)
  }

  /** An element is kept exactly when it was in the input and satisfies `keep`. */
  lemma {:induction false} FilterMembership<T>(s: seq<T>, keep: T -> bool, x: T)
    ensures x in Filter(s, keep) <==> x in s && keep(x)
    decreases |s|
  {
    if s != [] {
      FilterMembership(s[1..], keep, x);
      assert s == [s[0]] + s[1..];
    }
  }

  /** Filtering distributes over concatenation, so relative order is kept. */
  lemma {:induction false} FilterConcat<T>(a: seq<T>, b: seq<T>, keep: T -> bool)
    ensures Filter(a + b, keep) == Filter(a, keep) + Filter(b, keep)
    decreases |a|
  {
    if a != [] {
      assert (a + b)[1..] == a[1..] + b;
      FilterConcat(a[1..], b, keep);
    } else {
      assert a + b == b;
    }
  }

  /** Filtering leaves a list alone exactly when every element passes. */
  lemma {:induction false} FilterIdentity<T>(s: seq<T>, keep: T -> bool)
    ensures Filter(s, keep) == s <==> forall k :: 0 <= k < |s| ==> keep(s[k])
    decreases |s|
  {
    if s != [] {
      FilterIdentity(s[1..], keep);
      if !keep(s[0]) {
        assert |Filter(s, keep)| < |s|;
      } else if Filter(s, keep) == s {
        assert Filter(s[1..], keep) == s[1..];
      }
    }
  }

  /** Every element except those equal to `x`. */
  function FilterOut<T(==)>(s: seq<T>, x: T): (r: seq<T>) {
    Filter(s, y => y != x)
  }

  /** No element occurs twice. */
  predicate NoDuplicates<T(==)>(s: seq<T>) {
    forall i, j :: 0 <= i < j < |s| ==> s[i] != s[j]
  }

  /** Removing a value removes exactly that value: every other element stays. */
  lemma FilterOutMembership<T>(s: seq<T>, x: T, y: T)
    ensures y in FilterOut(s, x) <==> y in s && y != x
  {
    FilterMembership(s, z => z != x, y);
  }

  /** Removing a value removes exactly that value, stated for every element at once. */
  lemma FilterOutMembershipAll<T>(s: seq<T>, x: T)
    ensures forall y :: y in FilterOut(s, x) <==> y in s && y != x
  {
    forall y
      ensures y in FilterOut(s, x) <==> y in s && y != x
    {
      FilterOutMembership(s, x, y);
    }
  }

  /** Removing a value distributes over concatenation. */
  lemma FilterOutConcat<T>(a: seq<T>, b: seq<T>, x: T)
    ensures FilterOut(a + b, x) == FilterOut(a, x) + FilterOut(b, x)
  {
    FilterConcat(a, b, y => y != x);
  }

  /** Removing a value that is absent changes nothing. */
  lemma FilterOutAbsent<T>(s: seq<T>, x: T)
    requires x !in s
    ensures FilterOut(s, x) == s
  {
    FilterIdentity(s, y => y != x);
  }

  /** In a duplicate-free list, removing the value at position i deletes
      exactly position i and keeps the rest in order. */
  lemma FilterOutAt<T>(s: seq<T>, i: nat)
    requires NoDuplicates(s) && i < |s|
    ensures FilterOut(s, s[i]) == s[..i] + s[i + 1..]
  {
    var x := s[i];
    var keep := (y: T) => y != x;
    assert s == s[..i] + [x] + s[i + 1..];
    FilterConcat(s[..i] + [x], s[i + 1..], keep);
    FilterConcat(s[..i], [x], keep);
    FilterIdentity(s[..i], keep);
    FilterIdentity(s[i + 1..], keep);
    assert Filter([x], keep) == [];
  }

  /** Filtering keeps a list free of duplicates. */
  lemma {:induction false} FilterNoDuplicates<T>(s: seq<T>, keep: T -> bool)
    requires NoDuplicates(s)
    ensures NoDuplicates(Filter(s, keep))
    decreases |s|
  {
    if s != [] {
      FilterNoDuplicates(s[1..], keep);
      FilterMembership(s[1..], keep, s[0]);
      assert s[0] !in s[1..];
    }
  }

  /** The position of the first element satisfying `p`, or |s| when none does
      (`findOne` and `find` over a collection in natural order). */
  function FirstIndex<T>(s: seq<T>, p: T -> bool): (i: nat)
    ensures i <= |s|
    ensures i < |s| ==> p(s[i])
    ensures forall j :: 0 <= j < i ==> !p(s[j])
    decreases |s|
  {
    if s == [] || p(s[0]) then 0 else 1 + FirstIndex(s[1..], p)
  }

  /** Searching a list extended at the end finds the old match if there was one,
      and otherwise looks at the new element. */
  lemma FirstIndexAppend<T>(s: seq<T>, x: T, p: T -> bool)
    ensures FirstIndex(s, p) < |s| ==> FirstIndex(s + [x], p) == FirstIndex(s, p)
    ensures FirstIndex(s, p) == |s| && p(x) ==> FirstIndex(s + [x], p) == |s|
  {
    var t := s + [x];
    var i, k := FirstIndex(s, p), FirstIndex(t, p);
    assert forall j :: 0 <= j < |s| ==> t[j] == s[j];
    if i < |s| {
      assert p(t[i]);
    } else if p(x) {
      assert t[|s|] == x;
    }
  }

  /** Replacing the first match by another matching element keeps it the first match. */
  lemma FirstIndexUpdate<T>(s: seq<T>, i: nat, x: T, p: T -> bool)
    requires i < |s| && FirstIndex(s, p) == i && p(x)
    ensures FirstIndex(s[i := x], p) == i
  {
    var t := s[i := x];
    var k := FirstIndex(t, p);
    assert forall j :: 0 <= j < i ==> t[j] == s[j];
    assert p(t[i]);
  }

  /** Removing a value keeps a list free of duplicates. */
  lemma FilterOutNoDuplicates<T>(s: seq<T>, x: T)
    ensures NoDuplicates(s) ==> NoDuplicates(FilterOut(s, x))
  {
    if NoDuplicates(s) {
      FilterNoDuplicates(s, y => y != x);
    }
  }

  /** Filtering by position: drop the element at position i, if any. */
  function RemoveIndex<T>(s: seq<T>, i: int): (r: seq<T>)
    decreases |s|
  {
    if s == [] then []
    else (if i == 0 then [] else [s[0]]) + RemoveIndex(s[1..], i - 1)
  }

  /** Removing a position in range deletes exactly that element and keeps the
      others in order; a position out of range leaves the list unchanged. */
  lemma {:induction false} RemoveIndexSpec<T>(s: seq<T>, i: int)
    ensures 0 <= i < |s| ==> RemoveIndex(s, i) == s[..i] + s[i + 1..]
    ensures !(0 <= i < |s|) ==> RemoveIndex(s, i) == s
    decreases |s|
  {
    if 0 <= i < |s| {
      RemoveIndexInside(s, i);
    } else {
      RemoveIndexOutside(s, i);
    }
  }

  lemma {:induction false} RemoveIndexOutside<T>(s: seq<T>, i: int)
    requires !(0 <= i < |s|)
    ensures RemoveIndex(s, i) == s
    decreases |s|
  {
    if s != [] {
      RemoveIndexOutside(s[1..], i - 1);
      assert s == [s[0]] + s[1..];
    }
  }

  lemma {:induction false} RemoveIndexInside<T>(s: seq<T>, i: int)
    requires 0 <= i < |s|
    ensures RemoveIndex(s, i) == s[..i] + s[i + 1..]
    decreases |s|
  {
    if i == 0 {
      RemoveIndexOutside(s[1..], -1);
      assert s[..0] + s[1..] == s[1..];
    } else {
      RemoveIndexInside(s[1..], i - 1);
      assert s[..i] == [s[0]] + s[1..][..i - 1];
      assert s[i + 1..] == s[1..][i..];
    }
  }

  /** Flattening: the elements of every list, list after list. */
  function Flatten<T>(lists: seq<seq<T>>): (r: seq<T>)
    decreases |lists|
  {
    if lists == [] then [] else lists[0] + Flatten(lists[1..])
  }

  /** An element appears in the flattening exactly when it is in one of the lists. */
  lemma {:induction false} FlattenMembership<T>(lists: seq<seq<T>>, x: T)
    ensures x in Flatten(lists) <==> exists i :: 0 <= i < |lists| && x in lists[i]
    decreases |lists|
  {
    if lists != [] {
      FlattenMembership(lists[1..], x);
      if exists i :: 0 <= i < |lists| && x in lists[i] {
        var i :| 0 <= i < |lists| && x in lists[i];
        if i > 0 { assert x in lists[1..][i - 1]; }
      }
      if exists i :: 0 <= i < |lists[1..]| && x in lists[1..][i] {
        var i :| 0 <= i < |lists[1..]| && x in lists[1..][i];
        assert x in lists[i + 1];
      }
    }
  }

  /** Total length of all the lists. */
  function TotalLength<T>(lists: seq<seq<T>>): nat
    decreases |lists|
  {
    if lists == [] then 0 else |lists[0]| + TotalLength(lists[1..])
  }

  /** Flattening neither loses nor invents elements: its length is the sum of the lengths. */
  lemma {:induction false} FlattenLength<T>(lists: seq<seq<T>>)
    ensures |Flatten(lists)| == TotalLength(lists)
    decreases |lists|
  {
    if lists != [] {
      FlattenLength(lists[1..]);
    }
  }

  /** The list is in ascending order of `key`. */
  predicate SortedBy<T>(s: seq<T>, key: T -> int) {
    forall i, j :: 0 <= i < j < |s| ==> key(s[i]) <= key(s[j])
  }

  /** Insert `x` in front of the first element whose key is not below its own. */
  function InsertBy<T(==)>(x: T, s: seq<T>, key: T -> int): (r: seq<T>)
    requires SortedBy(s, key)
    ensures SortedBy(r, key)
    ensures multiset(r) == multiset(s) + multiset{x}
    decreases |s|
  {
    if s == [] then [x]
    else if key(x) <= key(s[0]) then [x] + s
    else
      var rest := InsertBy(x, s[1..], key);
      assert s == [s[0]] + s[1..];
      LowerBoundKept(rest, s[1..], x, key(s[0]), key);
      [s[0]] + rest
  }

  /** A lower bound on the keys of `pool` and of `x` bounds every element of
      a rearrangement of `pool` plus `x`. */
  lemma LowerBoundKept<T>(rest: seq<T>, pool: seq<T>, x: T, bound: int, key: T -> int)
    requires multiset(rest) == multiset(pool) + multiset{x}
    requires forall k :: 0 <= k < |pool| ==> bound <= key(pool[k])
    requires bound <= key(x)
    ensures forall k :: 0 <= k < |rest| ==> bound <= key(rest[k])
  {
    forall k | 0 <= k < |rest|
      ensures bound <= key(rest[k])
    {
      assert rest[k] in multiset(rest);
      if rest[k] != x {
        assert rest[k] in multiset(pool);
        var j :| 0 <= j < |pool| && pool[j] == rest[k];
      }
    }
  }

  /** `s` rearranged in ascending order of `key`, as `Array.prototype.sort`
      with a numeric comparator and MongoDB's `sort({ date: 1 })` return it. */
  function SortBy<T(==)>(s: seq<T>, key: T -> int): (r: seq<T>)
    ensures SortedBy(r, key)
    ensures multiset(r) == multiset(s)
    decreases |s|
  {
    if s == [] then []
    else
      assert s == [s[0]] + s[1..];
      InsertBy(s[0], SortBy(s[1..], key), key)
  }
}
