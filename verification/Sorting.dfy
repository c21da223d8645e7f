/** Stable sorting by a total order, and the lexicographic order on strings. */
module Sorting {

  ghost predicate Total<T(!new)>(le: (T, T) -> bool) {
    && (forall a, b :: le(a, b) || le(b, a))
    && (forall a, b, c :: le(a, b) && le(b, c) ==> le(a, c))
  }

  ghost predicate Ascending<T>(s: seq<T>, le: (T, T) -> bool) {
    forall i, j | 0 <= i < j < |s| :: le(s[i], s[j])
  }

  function Insert<T>(s: seq<T>, x: T, le: (T, T) -> bool): seq<T> {
    if s == [] || !le(s[0], x) then [x] + s else [s[0]] + Insert(s[1..], x, le)
  }

  function SortBy<T>(s: seq<T>, le: (T, T) -> bool): seq<T> {
    if s == [] then [] else Insert(SortBy(s[..|s| - 1], le), s[|s| - 1], le)
  }

  lemma {:induction false} InsertKeepsAll<T>(s: seq<T>, x: T, le: (T, T) -> bool)
    ensures multiset(Insert(s, x, le)) == multiset(s) + multiset{x}
  {
    if s != [] {
      assert s == [s[0]] + s[1..];
      InsertKeepsAll(s[1..], x, le);
    }
  }

  lemma {:induction false} InsertAscends<T(!new)>(s: seq<T>, x: T, le: (T, T) -> bool)
    requires Total(le) && Ascending(s, le)
    ensures Ascending(Insert(s, x, le), le)
  {
    if s != [] && le(s[0], x) {
      var rest := Insert(s[1..], x, le);
      InsertAscends(s[1..], x, le);
      InsertKeepsAll(s[1..], x, le);
      forall i | 0 <= i < |rest| ensures le(s[0], rest[i]) {
        assert rest[i] in multiset(rest);
        assert rest[i] == x || rest[i] in s[1..];
      }
    } else if s != [] {
      assert forall i | 0 <= i < |s| :: le(s[0], s[i]);
    }
  }

  lemma {:induction false} SortByAscends<T(!new)>(s: seq<T>, le: (T, T) -> bool)
    requires Total(le)
    ensures Ascending(SortBy(s, le), le) && multiset(SortBy(s, le)) == multiset(s)
  {
    if s != [] {
      hide Total, Ascending, Insert;
      var init, last := s[..|s| - 1], s[|s| - 1];
      assert s == init + [last];
      SortByAscends(init, le);
      InsertAscends(SortBy(init, le), last, le);
      InsertKeepsAll(SortBy(init, le), last, le);
    } else {
      assert SortBy(s, le) == [];
    }
  }

  lemma CountedOnceIsApart<T>(s: seq<T>, i: nat, j: nat)
    requires i < j < |s| && multiset(s)[s[i]] <= 1
    ensures s[i] != s[j]
  {
    assert s == s[..i] + [s[i]] + s[i + 1..];
    assert s[i] !in multiset(s[i + 1..]);
    assert s[j] == s[i + 1..][j - i - 1];
  }

  lemma {:induction false} DistinctCountsOnce<T>(s: seq<T>, x: T)
    requires forall i, j | 0 <= i < j < |s| :: s[i] != s[j]
    ensures multiset(s)[x] <= 1
  {
    if s != [] {
      var init := s[..|s| - 1];
      assert s == init + [s[|s| - 1]];
      DistinctCountsOnce(init, x);
    }
  }

  /** Sorting keeps members, and keeps distinct ones distinct. */
  lemma PermutationKeeps<T>(a: seq<T>, b: seq<T>)
    requires multiset(a) == multiset(b)
    ensures forall x :: x in a <==> x in b
    ensures (forall i, j | 0 <= i < j < |a| :: a[i] != a[j]) ==> forall i, j | 0 <= i < j < |b| :: b[i] != b[j]
  {
    forall x ensures x in a <==> x in b {
      assert x in a <==> x in multiset(a);
      assert x in b <==> x in multiset(b);
    }
    if forall i, j | 0 <= i < j < |a| :: a[i] != a[j] {
      forall i, j | 0 <= i < j < |b| ensures b[i] != b[j] {
        DistinctCountsOnce(a, b[i]);
        CountedOnceIsApart(b, i, j);
      }
    }
  }

  /** `str::cmp`, at most. */
  predicate StringLe(a: string, b: string) {
    a == [] || (b != [] && (a[0] < b[0] || (a[0] == b[0] && StringLe(a[1..], b[1..]))))
  }

  lemma {:induction false} StringLeTotal(a: string, b: string)
    ensures StringLe(a, b) || StringLe(b, a)
    ensures StringLe(a, b) && StringLe(b, a) ==> a == b
  {
    if a != [] && b != [] {
      StringLeTotal(a[1..], b[1..]);
      assert a == [a[0]] + a[1..] && b == [b[0]] + b[1..];
    }
  }

  lemma {:induction false} StringLeTransitive(a: string, b: string, c: string)
    requires StringLe(a, b) && StringLe(b, c)
    ensures StringLe(a, c)
  {
    if a != [] && a[0] == b[0] && b[0] == c[0] {
      StringLeTransitive(a[1..], b[1..], c[1..]);
    }
  }

  lemma StringOrder()
    ensures Total(StringLe)
  {
    forall a, b ensures StringLe(a, b) || StringLe(b, a) {
      StringLeTotal(a, b);
    }
    forall a, b, c | StringLe(a, b) && StringLe(b, c) ensures StringLe(a, c) {
      StringLeTransitive(a, b, c);
    }
  }

  /** Of two different strings in order, the first is a proper prefix of the other, or has
      the smaller character where they first differ. */
  lemma {:induction false} StringLeMeans(a: string, b: string) returns (i: nat)
    requires StringLe(a, b) && a != b
    ensures i <= |a| && i < |b| && a[..i] == b[..i] && (i == |a| || a[i] < b[i])
  {
    i := 0;
    if a != [] && a[0] == b[0] {
      assert a == [a[0]] + a[1..] && b == [b[0]] + b[1..];
      var j := StringLeMeans(a[1..], b[1..]);
      i := j + 1;
      assert a[..i] == [a[0]] + a[1..][..j] && b[..i] == [b[0]] + b[1..][..j];
    }
  }
}
