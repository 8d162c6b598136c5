/** Total orders, Python's stable `sorted`, and `sorted(set(...))`, as used throughout the model.

    Sorting is stable insertion. It permutes its input (`SortMultiset`) and sorts it (`SortSorted`)
    for any total preorder, ties included. Where no two different elements tie, the sorted sequence is
    the only one (`SortedUnique`), so that the order of the input cannot show in it
    (`SortPermutation`); this is what the results about arrival order rest on.

    Strings compare by code point, tuples of strings from the left, and both are total orders in which
    only equal values tie (`StrLeOrder`, `TupleLeOrder`).

    `sorted(set(xs))` is determined by the members of `xs` (`SortedSetCanonical`). */
module Ordering {

  /** `le` is a total preorder: reflexive (by totality), transitive, and total. Ties are allowed. */
  ghost predicate TotalPreorder<T(!new)>(le: (T, T) -> bool) {
    && (forall x, y :: le(x, y) || le(y, x))
    && (forall x, y, z :: le(x, y) && le(y, z) ==> le(x, z))
  }

  ghost predicate Sorted<T>(s: seq<T>, le: (T, T) -> bool) {
    forall i, j :: 0 <= i < j < |s| ==> le(s[i], s[j])
  }

  /** No two different elements of `s` tie under `le`. */
  ghost predicate NoTies<T>(s: seq<T>, le: (T, T) -> bool) {
    forall x, y :: x in s && y in s && le(x, y) && le(y, x) ==> x == y
  }

  // Stable insertion: an element goes in front of the first one it does not exceed.
  function Insert<T>(x: T, s: seq<T>, le: (T, T) -> bool): (r: seq<T>) {
    if s == [] || le(x, s[0]) then [x] + s else [s[0]] + Insert(x, s[1..], le)
  }

  function Sort<T>(s: seq<T>, le: (T, T) -> bool): (r: seq<T>) {
    if s == [] then [] else Insert(s[0], Sort(s[1..], le), le)
  }

  lemma {:induction false} InsertMultiset<T>(x: T, s: seq<T>, le: (T, T) -> bool)
    ensures multiset(Insert(x, s, le)) == multiset(s) + multiset{x}
    ensures |Insert(x, s, le)| == |s| + 1
  {
    if s == [] || le(x, s[0]) {
      assert multiset([x] + s) == multiset{x} + multiset(s);
    } else {
      InsertMultiset(x, s[1..], le);
      assert s == [s[0]] + s[1..];
      assert multiset(s) == multiset{s[0]} + multiset(s[1..]);
    }
  }

  lemma {:induction false} SortMultiset<T>(s: seq<T>, le: (T, T) -> bool)
    ensures multiset(Sort(s, le)) == multiset(s)
    ensures |Sort(s, le)| == |s|
  {
    if s != [] {
      SortMultiset(s[1..], le);
      InsertMultiset(s[0], Sort(s[1..], le), le);
      assert s == [s[0]] + s[1..];
    }
  }

  lemma MultisetMembers<T>(a: seq<T>, b: seq<T>)
    requires multiset(a) == multiset(b)
    ensures forall x :: x in a <==> x in b
    ensures |a| == |b|
  {
    forall x ensures x in a <==> x in b {
      assert x in a <==> x in multiset(a);
      assert x in b <==> x in multiset(b);
    }
    assert |a| == |multiset(a)| == |multiset(b)| == |b|;
  }

  lemma SortMembers<T>(s: seq<T>, le: (T, T) -> bool)
    ensures forall x :: x in Sort(s, le) <==> x in s
  {
    SortMultiset(s, le);
    MultisetMembers(Sort(s, le), s);
  }

  lemma {:induction false} InsertSorted<T(!new)>(x: T, s: seq<T>, le: (T, T) -> bool)
    requires TotalPreorder(le) && Sorted(s, le)
    ensures Sorted(Insert(x, s, le), le)
  {
    if s == [] || le(x, s[0]) {
      var r := [x] + s;
      forall i, j | 0 <= i < j < |r| ensures le(r[i], r[j]) {
        if i == 0 {
          assert j == 1 || le(s[0], s[j - 1]);
        } else {
          assert le(s[i - 1], s[j - 1]);
        }
      }
    } else {
      var rest := Insert(x, s[1..], le);
      InsertSorted(x, s[1..], le);
      InsertMultiset(x, s[1..], le);
      assert multiset(rest) == multiset(s[1..] + [x]);
      MultisetMembers(rest, s[1..] + [x]);
      var r := [s[0]] + rest;
      forall i, j | 0 <= i < j < |r| ensures le(r[i], r[j]) {
        if i == 0 {
          assert r[j] in rest;
          assert r[j] in s[1..] + [x];
        } else {
          assert le(rest[i - 1], rest[j - 1]);
        }
      }
    }
  }

  lemma {:induction false} SortSorted<T(!new)>(s: seq<T>, le: (T, T) -> bool)
    requires TotalPreorder(le)
    ensures Sorted(Sort(s, le), le)
  {
    if s != [] {
      SortSorted(s[1..], le);
      InsertSorted(s[0], Sort(s[1..], le), le);
    }
  }

  lemma TailMultiset<T>(a: seq<T>)
    requires a != []
    ensures multiset(a[1..]) == multiset(a) - multiset{a[0]}
  {
    assert a == [a[0]] + a[1..];
  }

  lemma RemoveAtMultiset<T>(s: seq<T>, i: nat)
    requires i < |s|
    ensures multiset(s[..i] + s[i + 1..]) == multiset(s) - multiset{s[i]}
    ensures |s[..i] + s[i + 1..]| == |s| - 1
  {
    assert s == s[..i] + [s[i]] + s[i + 1..];
  }

  /** A permutation's element equal to the first one; the rests are permutations too. */
  lemma MatchFirst<T>(a: seq<T>, b: seq<T>) returns (i: nat)
    requires a != [] && multiset(a) == multiset(b)
    ensures i < |b| && b[i] == a[0] && multiset(a[1..]) == multiset(b[..i] + b[i + 1..])
  {
    MultisetMembers(a, b);
    assert a[0] in a;
    i :| 0 <= i < |b| && b[i] == a[0];
    TailMultiset(a);
    RemoveAtMultiset(b, i);
  }

  lemma SortedHead<T>(a: seq<T>, le: (T, T) -> bool, x: T)
    requires Sorted(a, le) && x in a && le(x, x)
    ensures le(a[0], x)
  {
    var i :| 0 <= i < |a| && a[i] == x;
    assert i == 0 || le(a[0], a[i]);
  }

  lemma SameHead<T>(a: seq<T>, b: seq<T>, le: (T, T) -> bool)
    requires Sorted(a, le) && Sorted(b, le) && multiset(a) == multiset(b) && a != []
    requires NoTies(a, le)
    requires forall x :: x in a ==> le(x, x)
    ensures b != [] && a[0] == b[0] && multiset(a[1..]) == multiset(b[1..])
  {
    MultisetMembers(a, b);
    SortedHead(a, le, b[0]);
    SortedHead(b, le, a[0]);
    TailMultiset(a);
    TailMultiset(b);
  }

  lemma SortedTail<T>(a: seq<T>, le: (T, T) -> bool)
    requires Sorted(a, le) && a != []
    ensures Sorted(a[1..], le) && forall x :: x in a[1..] ==> x in a
    ensures NoTies(a, le) ==> NoTies(a[1..], le)
  {
  }

  // Two sorted sequences with the same contents and no ties are the same sequence.
  lemma {:induction false} SortedUnique<T>(a: seq<T>, b: seq<T>, le: (T, T) -> bool)
    requires Sorted(a, le) && Sorted(b, le) && multiset(a) == multiset(b)
    requires NoTies(a, le)
    requires forall x :: x in a ==> le(x, x)
    ensures a == b
  {
    if a != [] {
      SameHead(a, b, le);
      SortedTail(a, le);
      SortedTail(b, le);
      hide Sorted, NoTies;
      SortedUnique(a[1..], b[1..], le);
      assert a == [a[0]] + a[1..] && b == [b[0]] + b[1..];
    } else {
      assert |b| == |multiset(b)| == 0;
    }
  }

  /** Sorting forgets the arrival order of elements that do not tie. */
  lemma SortPermutation<T(!new)>(a: seq<T>, b: seq<T>, le: (T, T) -> bool)
    requires TotalPreorder(le) && multiset(a) == multiset(b) && NoTies(a, le)
    ensures Sort(a, le) == Sort(b, le)
  {
    SortSorted(a, le);
    SortSorted(b, le);
    SortMultiset(a, le);
    SortMultiset(b, le);
    SortMembers(a, le);
    SortedUnique(Sort(a, le), Sort(b, le), le);
  }

  lemma {:induction false} SortOfSorted<T(!new)>(s: seq<T>, le: (T, T) -> bool)
    requires TotalPreorder(le) && Sorted(s, le)
    ensures Sort(s, le) == s
  {
    if s != [] {
      SortOfSorted(s[1..], le);
      if |s| > 1 {
        assert le(s[0], s[1]);
      }
      assert s == [s[0]] + s[1..];
    }
  }

  // ----- strings by code point -----

  /** Python's `<=` on strings. */
  predicate StrLe(a: string, b: string) {
    if a == [] then true
    else if b == [] then false
    else a[0] < b[0] || (a[0] == b[0] && StrLe(a[1..], b[1..]))
  }

  lemma {:induction false} StrLeTotal(a: string, b: string)
    ensures StrLe(a, b) || StrLe(b, a)
  {
    if a != [] && b != [] { StrLeTotal(a[1..], b[1..]); }
  }

  lemma {:induction false} StrLeTransitive(a: string, b: string, c: string)
    requires StrLe(a, b) && StrLe(b, c)
    ensures StrLe(a, c)
  {
    if a != [] && b != [] && c != [] && a[0] == b[0] == c[0] {
      StrLeTransitive(a[1..], b[1..], c[1..]);
    }
  }

  lemma {:induction false} StrLeAntisymmetric(a: string, b: string)
    requires StrLe(a, b) && StrLe(b, a)
    ensures a == b
  {
    if a != [] && b != [] {
      StrLeAntisymmetric(a[1..], b[1..]);
      assert a == [a[0]] + a[1..] && b == [b[0]] + b[1..];
    }
  }

  lemma StrLeOrder()
    ensures TotalPreorder(StrLe)
    ensures forall a, b :: StrLe(a, b) && StrLe(b, a) ==> a == b
  {
    forall a, b ensures StrLe(a, b) || StrLe(b, a) { StrLeTotal(a, b); }
    forall a, b, c | StrLe(a, b) && StrLe(b, c) ensures StrLe(a, c) { StrLeTransitive(a, b, c); }
    forall a, b | StrLe(a, b) && StrLe(b, a) ensures a == b { StrLeAntisymmetric(a, b); }
  }

  /** The first difference decides, and a text comes before its own continuations. */
  lemma {:induction false} FirstCharacterDecides(p: string, c: char, x: string, d: char, y: string)
    requires c != d
    ensures StrLe(p + [c] + x, p + [d] + y) <==> c < d
    ensures StrLe(p, p + [c] + x) && !StrLe(p + [c] + x, p)
  {
    if p != [] {
      assert (p + [c] + x)[1..] == p[1..] + [c] + x && (p + [d] + y)[1..] == p[1..] + [d] + y;
      FirstCharacterDecides(p[1..], c, x, d, y);
    }
  }

  /** Python's `<=` on tuples of strings: the first difference decides. */
  predicate TupleLe(a: seq<string>, b: seq<string>) {
    if a == [] then true
    else if b == [] then false
    else if a[0] == b[0] then TupleLe(a[1..], b[1..])
    else StrLe(a[0], b[0])
  }

  lemma {:induction false} TupleLeTotal(a: seq<string>, b: seq<string>)
    ensures TupleLe(a, b) || TupleLe(b, a)
  {
    if a != [] && b != [] {
      StrLeTotal(a[0], b[0]);
      if a[0] == b[0] { TupleLeTotal(a[1..], b[1..]); }
    }
  }

  lemma {:induction false} TupleLeTransitive(a: seq<string>, b: seq<string>, c: seq<string>)
    requires TupleLe(a, b) && TupleLe(b, c)
    ensures TupleLe(a, c)
  {
    if a != [] && b != [] && c != [] {
      if a[0] == b[0] == c[0] {
        TupleLeTransitive(a[1..], b[1..], c[1..]);
      } else {
        StrLeOrder();
        StrLeTransitive(a[0], b[0], c[0]);
      }
    }
  }

  lemma {:induction false} TupleLeAntisymmetric(a: seq<string>, b: seq<string>)
    requires TupleLe(a, b) && TupleLe(b, a)
    ensures a == b
  {
    if a != [] && b != [] {
      if a[0] == b[0] {
        TupleLeAntisymmetric(a[1..], b[1..]);
        assert a == [a[0]] + a[1..] && b == [b[0]] + b[1..];
      } else {
        StrLeAntisymmetric(a[0], b[0]);
      }
    }
  }

  lemma TupleLeOrder()
    ensures TotalPreorder(TupleLe)
    ensures forall a, b :: TupleLe(a, b) && TupleLe(b, a) ==> a == b
  {
    forall a, b ensures TupleLe(a, b) || TupleLe(b, a) { TupleLeTotal(a, b); }
    forall a, b, c | TupleLe(a, b) && TupleLe(b, c) ensures TupleLe(a, c) { TupleLeTransitive(a, b, c); }
    forall a, b | TupleLe(a, b) && TupleLe(b, a) ensures a == b { TupleLeAntisymmetric(a, b); }
  }

  lemma {:induction false} FirstPartDecides(p: seq<string>, a: string, x: seq<string>, b: string, y: seq<string>)
    requires a != b
    ensures TupleLe(p + [a] + x, p + [b] + y) <==> StrLe(a, b)
  {
    if p != [] {
      assert (p + [a] + x)[1..] == p[1..] + [a] + x && (p + [b] + y)[1..] == p[1..] + [b] + y;
      FirstPartDecides(p[1..], a, x, b, y);
    }
  }

  // ----- sorted(set(xs)) -----

  ghost predicate Distinct<T>(s: seq<T>) {
    forall i, j :: 0 <= i < j < |s| ==> s[i] != s[j]
  }

  function Dedup<T(==,!new)>(s: seq<T>): (r: seq<T>)
    ensures forall x :: x in r <==> x in s
    ensures Distinct(r)
  {
    if s == [] then []
    else
      var rest := Dedup(s[1..]);
      if s[0] in rest then rest else [s[0]] + rest
  }

  /** `sorted(set(xs))` on strings: each member once, in code-point order. */
  function SortedSet(xs: seq<string>): (r: seq<string>) {
    Sort(Dedup(xs), StrLe)
  }

  lemma DistinctMultiset<T>(s: seq<T>)
    requires Distinct(s)
    ensures forall x :: multiset(s)[x] == if x in s then 1 else 0
  {
    forall x ensures multiset(s)[x] == if x in s then 1 else 0 {
      if s != [] {
        assert s == [s[0]] + s[1..];
        assert forall i :: 0 <= i < |s| - 1 ==> s[1..][i] == s[i + 1];
        DistinctMultiset(s[1..]);
      }
    }
  }

  lemma SameMembersSameMultiset<T>(a: seq<T>, b: seq<T>)
    requires Distinct(a) && Distinct(b)
    requires forall x :: x in a <==> x in b
    ensures multiset(a) == multiset(b)
  {
    DistinctMultiset(a);
    DistinctMultiset(b);
  }

  lemma RepeatedMember<T>(s: seq<T>, i: nat, j: nat)
    requires i < j < |s| && s[i] == s[j]
    ensures multiset(s)[s[i]] >= 2
  {
    assert s == s[..j] + [s[j]] + s[j + 1..];
    assert s[i] in s[..j];
  }

  lemma PermutationDistinct<T>(a: seq<T>, b: seq<T>)
    requires multiset(a) == multiset(b) && Distinct(a)
    ensures Distinct(b)
  {
    DistinctMultiset(a);
    forall i, j | 0 <= i < j < |b| ensures b[i] != b[j] {
      if b[i] == b[j] { RepeatedMember(b, i, j); }
    }
  }

  lemma SortedSetMembers(xs: seq<string>)
    ensures forall x :: x in SortedSet(xs) <==> x in xs
    ensures Sorted(SortedSet(xs), StrLe) && Distinct(SortedSet(xs))
  {
    StrLeOrder();
    SortMembers(Dedup(xs), StrLe);
    SortSorted(Dedup(xs), StrLe);
    SortMultiset(Dedup(xs), StrLe);
    PermutationDistinct(Dedup(xs), SortedSet(xs));
  }

  /** `sorted(set(xs))` depends only on which strings occur. */
  lemma SortedSetCanonical(xs: seq<string>, ys: seq<string>)
    requires forall x :: x in xs <==> x in ys
    ensures SortedSet(xs) == SortedSet(ys)
  {
    StrLeOrder();
    SameMembersSameMultiset(Dedup(xs), Dedup(ys));
    SortPermutation(Dedup(xs), Dedup(ys), StrLe);
  }
}
