/** Sorting by a text key, as sort.Slice does it for keys that are distinct. */
module Sorting {

  predicate Distinct<T(==)>(items: seq<T>, key: T -> string) {
    forall i, j | 0 <= i < j < |items| :: key(items[i]) != key(items[j])
  }

  predicate Less(a: string, b: string) {
    b != "" && (a == "" || a[0] < b[0] || (a[0] == b[0] && Less(a[1..], b[1..])))
  }

  lemma {:induction false} LessTotal(a: string, b: string)
    ensures a == b || Less(a, b) || Less(b, a)
    ensures !(Less(a, b) && Less(b, a)) && !Less(a, a)
  {
    if a != "" && b != "" {
      LessTotal(a[1..], b[1..]);
      LessTotal(a[1..], a[1..]);
      assert a == [a[0]] + a[1..] && b == [b[0]] + b[1..];
    } else if a != "" {
      LessTotal(a[1..], a[1..]);
    }
  }

  lemma {:induction false} LessTransitive(a: string, b: string, c: string)
    requires Less(a, b) && Less(b, c)
    ensures Less(a, c)
  {
    if a != "" && a[0] == b[0] == c[0] {
      LessTransitive(a[1..], b[1..], c[1..]);
    }
  }

  /** Keys strictly increase. */
  predicate Ordered<T(==)>(items: seq<T>, key: T -> string) {
    forall i, j | 0 <= i < j < |items| :: Less(key(items[i]), key(items[j]))
  }

  function Insert<T(==)>(s: T, sorted: seq<T>, key: T -> string): seq<T> {
    if sorted == [] || !Less(key(sorted[0]), key(s)) then [s] + sorted
    else [sorted[0]] + Insert(s, sorted[1..], key)
  }

  function Sorted<T(==)>(items: seq<T>, key: T -> string): seq<T> {
    if items == [] then [] else Insert(items[|items| - 1], Sorted(items[..|items| - 1], key), key)
  }

  lemma {:induction false} InsertAdds<T>(s: T, sorted: seq<T>, key: T -> string)
    ensures multiset(Insert(s, sorted, key)) == multiset(sorted) + multiset{s}
  {
    if sorted != [] && Less(key(sorted[0]), key(s)) {
      InsertAdds(s, sorted[1..], key);
      assert sorted == [sorted[0]] + sorted[1..];
    }
  }

  lemma {:induction false} InsertOrders<T>(s: T, sorted: seq<T>, key: T -> string)
    requires Ordered(sorted, key) && forall k | 0 <= k < |sorted| :: key(sorted[k]) != key(s)
    ensures Ordered(Insert(s, sorted, key), key)
  {
    if sorted == [] {
    } else if !Less(key(sorted[0]), key(s)) {
      LessTotal(key(sorted[0]), key(s));
      forall i | 0 < i < |sorted| ensures Less(key(s), key(sorted[i])) {
        LessTransitive(key(s), key(sorted[0]), key(sorted[i]));
      }
    } else {
      InsertOrders(s, sorted[1..], key);
      InsertAdds(s, sorted[1..], key);
      var tail := Insert(s, sorted[1..], key);
      forall i | 0 <= i < |tail| ensures Less(key(sorted[0]), key(tail[i])) {
        assert tail[i] in multiset(tail);
        assert tail[i] == s || tail[i] in sorted[1..];
      }
    }
  }

  /** A key that none of some items has, no permutation of them has. */
  lemma KeysDiffer<T>(items: seq<T>, permuted: seq<T>, x: T, key: T -> string)
    requires multiset(permuted) == multiset(items) && forall i | 0 <= i < |items| :: key(items[i]) != key(x)
    ensures forall k | 0 <= k < |permuted| :: key(permuted[k]) != key(x)
  {
    SameMembers(permuted, items);
    forall k | 0 <= k < |permuted| ensures key(permuted[k]) != key(x) {
      assert permuted[k] in permuted;
      var i :| 0 <= i < |items| && items[i] == permuted[k];
    }
  }

  lemma {:induction false} SortedPermutes<T>(items: seq<T>, key: T -> string)
    ensures multiset(Sorted(items, key)) == multiset(items)
  {
    if items != [] {
      var (prefix, last) := (items[..|items| - 1], items[|items| - 1]);
      SortedPermutes(prefix, key);
      InsertAdds(last, Sorted(prefix, key), key);
      assert items == prefix + [last];
    }
  }

  lemma {:induction false} SortedDoes<T>(items: seq<T>, key: T -> string)
    ensures multiset(Sorted(items, key)) == multiset(items)
    ensures Distinct(items, key) ==> Ordered(Sorted(items, key), key)
  {
    SortedPermutes(items, key);
    if items != [] && Distinct(items, key) {
      var (prefix, last) := (items[..|items| - 1], items[|items| - 1]);
      SortedDoes(prefix, key);
      KeysDiffer(prefix, Sorted(prefix, key), last, key);
      InsertOrders(last, Sorted(prefix, key), key);
    }
  }

  // Permutations.

  lemma SameMembers<T>(a: seq<T>, b: seq<T>)
    requires multiset(a) == multiset(b)
    ensures |a| == |b| && forall x :: x in a <==> x in b
  {
    assert |a| == |multiset(a)| && |b| == |multiset(b)|;
    forall x ensures x in a <==> x in b {
      assert x in a <==> x in multiset(a);
      assert x in b <==> x in multiset(b);
    }
  }

  lemma Twice<T>(s: seq<T>, i: nat, j: nat)
    requires i < j < |s| && s[i] == s[j]
    ensures multiset(s)[s[i]] >= 2
  {
    assert s == s[..i] + [s[i]] + s[i + 1..j] + [s[j]] + s[j + 1..];
  }

  lemma {:induction false} DistinctOnce<T>(s: seq<T>, x: T, key: T -> string)
    requires Distinct(s, key)
    ensures multiset(s)[x] <= 1
  {
    if s != [] {
      var (prefix, last) := (s[..|s| - 1], s[|s| - 1]);
      assert s == prefix + [last];
      DistinctOnce(prefix, x, key);
      if x == last {
        assert x !in prefix;
      }
    }
  }

  lemma DistinctPermutes<T>(a: seq<T>, b: seq<T>, key: T -> string)
    requires multiset(a) == multiset(b) && Distinct(a, key)
    ensures Distinct(b, key)
  {
    SameMembers(a, b);
    forall i, j | 0 <= i < j < |b| ensures key(b[i]) != key(b[j]) {
      assert b[i] in a && b[j] in a;
      if b[i] == b[j] {
        Twice(b, i, j);
        DistinctOnce(a, b[i], key);
      }
    }
  }

  lemma SameFirst<T>(a: seq<T>, b: seq<T>, key: T -> string)
    requires Ordered(a, key) && Ordered(b, key) && a != [] && b != [] && forall x :: x in a <==> x in b
    ensures a[0] == b[0]
  {
    assert a[0] in b && b[0] in a;
    var i :| 0 <= i < |b| && b[i] == a[0];
    var j :| 0 <= j < |a| && a[j] == b[0];
    LessTotal(key(a[0]), key(b[0]));
  }

  lemma WithoutFirst<T>(a: seq<T>, b: seq<T>, x: T)
    requires multiset([x] + a) == multiset([x] + b)
    ensures multiset(a) == multiset(b)
  {
    forall y ensures multiset(a)[y] == multiset(b)[y] {
      assert multiset([x] + a)[y] == multiset([x])[y] + multiset(a)[y];
      assert multiset([x] + b)[y] == multiset([x])[y] + multiset(b)[y];
    }
  }

  /** Only one ordering of given items is strictly increasing. */
  lemma {:induction false} OrderedUnique<T>(a: seq<T>, b: seq<T>, key: T -> string)
    requires Ordered(a, key) && Ordered(b, key) && multiset(a) == multiset(b)
    ensures a == b
  {
    SameMembers(a, b);
    if a != [] {
      SameFirst(a, b, key);
      assert a == [a[0]] + a[1..] && b == [a[0]] + b[1..];
      WithoutFirst(a[1..], b[1..], a[0]);
      OrderedUnique(a[1..], b[1..], key);
    }
  }

  lemma {:induction false} InsertAt<T>(s: T, sorted: seq<T>, j: nat, key: T -> string)
    requires j <= |sorted| && forall k | 0 <= k < j :: Less(key(sorted[k]), key(s))
    requires j < |sorted| ==> !Less(key(sorted[j]), key(s))
    ensures Insert(s, sorted, key) == sorted[..j] + [s] + sorted[j..]
  {
    if j > 0 {
      InsertAt(s, sorted[1..], j - 1, key);
    }
  }

  lemma AllBelow<T>(s: T, sorted: seq<T>, j: nat, key: T -> string)
    requires Ordered(sorted, key) && 0 < j <= |sorted| && key(sorted[j - 1]) != key(s) && !Less(key(s), key(sorted[j - 1]))
    ensures forall k | 0 <= k < j :: Less(key(sorted[k]), key(s))
  {
    LessTotal(key(s), key(sorted[j - 1]));
    forall k | 0 <= k < j ensures Less(key(sorted[k]), key(s)) {
      if k < j - 1 {
        LessTransitive(key(sorted[k]), key(sorted[j - 1]), key(s));
      }
    }
  }

  /** Place j is right when everything from j on is larger and what is before it is not. */
  lemma InsertBelow<T>(s: T, sorted: seq<T>, j: nat, key: T -> string)
    requires Ordered(sorted, key) && j <= |sorted| && forall k | 0 <= k < |sorted| :: key(sorted[k]) != key(s)
    requires forall k | j <= k < |sorted| :: Less(key(s), key(sorted[k]))
    requires j > 0 ==> !Less(key(s), key(sorted[j - 1]))
    ensures Insert(s, sorted, key) == sorted[..j] + [s] + sorted[j..]
  {
    if j > 0 {
      AllBelow(s, sorted, j, key);
    }
    if j < |sorted| {
      LessTotal(key(s), key(sorted[j]));
    }
    InsertAt(s, sorted, j, key);
  }

  lemma SortedPrefix<T>(was: seq<T>, i: nat, key: T -> string)
    requires Distinct(was, key) && i < |was|
    ensures var sorted := Sorted(was[..i], key);
            && |sorted| == i && Ordered(sorted, key) && (forall k | 0 <= k < i :: key(sorted[k]) != key(was[i]))
            && Sorted(was[..i + 1], key) == Insert(was[i], sorted, key)
  {
    SortedDoes(was[..i], key);
    SameMembers(Sorted(was[..i], key), was[..i]);
    assert was[..i + 1][..i] == was[..i];
    KeysDiffer(was[..i], Sorted(was[..i], key), was[i], key);
  }

  /** sort.Slice on the encoded items, whose keys are distinct. */
  method SortInPlace<T(==)>(a: array<T>, key: T -> string)
    requires Distinct(a[..], key)
    modifies a
    ensures a[..] == Sorted(old(a[..]), key)
  {
    ghost var was := a[..];
    var i := 0;
    while i < a.Length
      invariant 0 <= i <= a.Length
      invariant a[..i] == Sorted(was[..i], key)
      invariant a[i..] == was[i..]
    {
      SortedPrefix(was, i, key);
      ghost var sorted := a[..i];
      assert a[i] == a[i..][0] == was[i];
      assert forall k | 0 <= k < i :: a[k] == sorted[k];
      InsertInPlace(a, i, key);
      i := i + 1;
    }
    assert was[..a.Length] == was && a[..a.Length] == a[..];
  }

  /** Moves a[i] down to its place among the sorted items before it. */
  method InsertInPlace<T(==)>(a: array<T>, i: nat, key: T -> string)
    requires i < a.Length && Ordered(a[..i], key) && forall k | 0 <= k < i :: key(a[k]) != key(a[i])
    modifies a
    ensures a[..i + 1] == Insert(old(a[i]), old(a[..i]), key) && a[i + 1..] == old(a[i + 1..])
  {
    var s := a[i];
    ghost var sorted := a[..i];
    var j := i;
    while j > 0 && Less(key(s), key(a[j - 1]))
      invariant 0 <= j <= i
      invariant forall k | 0 <= k < j :: a[k] == sorted[k]
      invariant forall k | j < k <= i :: a[k] == sorted[k - 1]
      invariant forall k | j <= k < i :: Less(key(s), key(sorted[k]))
      invariant a[i + 1..] == old(a[i + 1..])
    {
      a[j] := a[j - 1];
      j := j - 1;
    }
    a[j] := s;
    InsertBelow(s, sorted, j, key);
    assert a[..i + 1] == sorted[..j] + [s] + sorted[j..];
  }
}
