/** Directories as maps from names to files, single file operations, and the rows a set of names holds. */
module Directories {
  import opened Seqs
  import opened Records

  datatype File = File(rows: seq<LogRecord>, bytes: nat)

  datatype Op<K> = Write(name: K, file: File) | Rename(source: K, target: K) | Delete(name: K)

  function Apply<K>(d: map<K, File>, op: Op<K>): map<K, File> {
    match op
    case Write(name, file) => d[name := file]
    case Rename(source, target) => if source in d then (d - {source})[target := d[source]] else d
    case Delete(name) => d - {name}
  }

  function ApplyAll<K>(d: map<K, File>, ops: seq<Op<K>>): map<K, File>
    decreases |ops|
  {
    if ops == [] then d else ApplyAll(Apply(d, ops[0]), ops[1..])
  }

  lemma {:induction false} ApplyAllAppend<K>(d: map<K, File>, a: seq<Op<K>>, b: seq<Op<K>>)
    ensures ApplyAll(d, a + b) == ApplyAll(ApplyAll(d, a), b)
    decreases |a|
  {
    if a == [] {
      assert a + b == b;
    } else {
      assert (a + b)[0] == a[0] && (a + b)[1..] == a[1..] + b;
      ApplyAllAppend(Apply(d, a[0]), a[1..], b);
    }
  }

  lemma ApplyAllOne<K>(d: map<K, File>, op: Op<K>)
    ensures ApplyAll(d, [op]) == Apply(d, op)
  {
    assert [op][1..] == [];
  }

  // ------------------------------------------------------------------ rows

  function RowsAt<K>(d: map<K, File>, name: K): multiset<LogRecord> {
    if name in d then multiset(d[name].rows) else multiset{}
  }

  /** The rows of the files named. */
  ghost function RowsIn<K>(d: map<K, File>, names: set<K>): multiset<LogRecord> {
    if names == {} then multiset{}
    else
      var n :| n in names;
      RowsAt(d, n) + RowsIn(d, names - {n})
  }

  lemma {:induction false} RowsInPick<K>(d: map<K, File>, names: set<K>, n: K)
    requires n in names
    ensures RowsIn(d, names) == RowsAt(d, n) + RowsIn(d, names - {n})
  {
    var m :| m in names && RowsIn(d, names) == RowsAt(d, m) + RowsIn(d, names - {m});
    if m != n {
      RowsInPick(d, names - {m}, n);
      RowsInPick(d, names - {n}, m);
      assert names - {m} - {n} == names - {n} - {m};
    }
  }

  lemma {:induction false} RowsInSame<K>(d: map<K, File>, e: map<K, File>, names: set<K>)
    requires forall n | n in names :: RowsAt(d, n) == RowsAt(e, n)
    ensures RowsIn(d, names) == RowsIn(e, names)
  {
    if names != {} {
      var n :| n in names;
      RowsInPick(d, names, n);
      RowsInPick(e, names, n);
      RowsInSame(d, e, names - {n});
    }
  }

  lemma UnionWithout<K>(a: set<K>, b: set<K>, n: K)
    requires n in a && a !! b
    ensures a + b - {n} == (a - {n}) + b && (a - {n}) !! b && n in a + b
  {
  }

  lemma {:induction false} RowsInUnion<K>(d: map<K, File>, a: set<K>, b: set<K>)
    requires a !! b
    ensures RowsIn(d, a + b) == RowsIn(d, a) + RowsIn(d, b)
  {
    if a == {} {
      assert a + b == b;
    } else {
      hide RowsIn, RowsAt;
      var n :| n in a;
      var rest := a - {n};
      RowsInPick(d, a, n);
      RowsInPick(d, a + b, n);
      UnionWithout(a, b, n);
      RowsInUnion(d, rest, b);
      Reassociate(RowsAt(d, n), RowsIn(d, rest), RowsIn(d, b));
    }
  }

  lemma Reassociate(a: multiset<LogRecord>, b: multiset<LogRecord>, c: multiset<LogRecord>)
    ensures a + (b + c) == a + b + c
  {
  }

  lemma BothEmpty(a: multiset<LogRecord>, b: multiset<LogRecord>)
    ensures a + b == multiset{} <==> a == multiset{} && b == multiset{}
  {
    assert forall r :: (a + b)[r] == a[r] + b[r];
  }

  lemma {:induction false} NoRowsIn<K>(d: map<K, File>, names: set<K>)
    ensures RowsIn(d, names) == multiset{} <==> forall n | n in names :: RowsAt(d, n) == multiset{}
  {
    if names != {} {
      hide RowsAt;
      var n :| n in names;
      RowsInPick(d, names, n);
      NoRowsIn(d, names - {n});
      BothEmpty(RowsAt(d, n), RowsIn(d, names - {n}));
    }
  }

  lemma RowsInOne<K>(d: map<K, File>, n: K)
    ensures RowsIn(d, {n}) == RowsAt(d, n)
  {
    RowsInPick(d, {n}, n);
    assert {n} - {n} == {};
  }

  // ----------------------------------------------- moving files aside and back

  ghost function Image<K>(moved: set<K>, aside: map<K, K>): set<K>
    requires moved <= aside.Keys
  {
    set f | f in moved :: aside[f]
  }

  /** `aside` gives files of `base` distinct new names. */
  ghost predicate GoodAside<K>(base: map<K, File>, aside: map<K, K>) {
    && aside.Keys <= base.Keys
    && (forall f | f in aside :: aside[f] !in base)
    && (forall f, g | f in aside && g in aside && aside[f] == aside[g] :: f == g)
  }

  /** `d` is `base` with the files `moved` under their other names, less those in `gone`. */
  ghost predicate Laid<K>(base: map<K, File>, d: map<K, File>, moved: set<K>, aside: map<K, K>, gone: set<K>)
    requires moved <= aside.Keys
  {
    && d.Keys == (base.Keys - moved) + (Image(moved, aside) - gone)
    && (forall n | n in base && n !in moved :: d[n] == base[n])
    && (forall f | f in moved && f in base && aside[f] !in gone :: d[aside[f]] == base[f])
  }

  lemma LaidNone<K>(base: map<K, File>, aside: map<K, K>)
    ensures Laid(base, base, {}, aside, {})
  {
  }

  lemma LaidNoneIsBase<K>(base: map<K, File>, d: map<K, File>, aside: map<K, K>)
    requires Laid(base, d, {}, aside, {})
    ensures d == base
  {
    assert Image({}, aside) == {};
  }

  lemma MoveOne<K>(base: map<K, File>, d: map<K, File>, moved: set<K>, aside: map<K, K>, f: K)
    requires GoodAside(base, aside) && moved <= aside.Keys && f in aside && f !in moved
    requires Laid(base, d, moved, aside, {})
    ensures Laid(base, Apply(d, Rename(f, aside[f])), moved + {f}, aside, {})
  {
    assert Image(moved + {f}, aside) == Image(moved, aside) + {aside[f]};
    assert f in base;
  }

  lemma MoveBackOne<K>(base: map<K, File>, d: map<K, File>, moved: set<K>, aside: map<K, K>, f: K)
    requires GoodAside(base, aside) && moved <= aside.Keys && f in moved
    requires Laid(base, d, moved, aside, {})
    ensures Laid(base, Apply(d, Rename(aside[f], f)), moved - {f}, aside, {})
  {
    assert moved == (moved - {f}) + {f};
    assert Image(moved, aside) == Image(moved - {f}, aside) + {aside[f]};
    assert aside[f] !in Image(moved - {f}, aside);
  }

  lemma DeleteAside<K>(base: map<K, File>, d: map<K, File>, moved: set<K>, aside: map<K, K>, gone: set<K>, n: K)
    requires GoodAside(base, aside) && moved <= aside.Keys && n in Image(moved, aside)
    requires Laid(base, d, moved, aside, gone)
    ensures Laid(base, Apply(d, Delete(n)), moved, aside, gone + {n})
  {
    assert n !in base;
  }

  /** A file that arrives under a new name arrives in both. */
  lemma ArriveOne<K>(base: map<K, File>, d: map<K, File>, moved: set<K>, aside: map<K, K>, gone: set<K>, n: K,
                     file: File)
    requires GoodAside(base, aside) && moved <= aside.Keys
    requires n !in base && forall f | f in aside :: aside[f] != n
    requires Laid(base, d, moved, aside, gone)
    ensures GoodAside(base[n := file], aside)
    ensures Laid(base[n := file], d[n := file], moved, aside, gone)
  {
    assert n !in moved;
    assert n !in Image(moved, aside);
  }

  lemma NotLaid<K>(base: map<K, File>, d: map<K, File>, moved: set<K>, aside: map<K, K>, gone: set<K>, n: K)
    requires moved <= aside.Keys && Laid(base, d, moved, aside, gone)
    requires n !in base && forall f | f in moved :: aside[f] != n
    ensures n !in d
  {
  }

  lemma RenameSwaps<K>(d: map<K, File>, a: K, b: K)
    requires a in d && b !in d
    ensures var e := Apply(d, Rename(a, b)); b in e && e[b] == d[a] && e - {b} == d - {a}
  {
  }

  lemma WithoutAfterWrite<K>(d: map<K, File>, w: K, file: File, n: K)
    requires w != n
    ensures d[w := file] - {n} == (d - {n})[w := file]
  {
  }

  /** Files left in place hold what they held. */
  lemma LaidKeepsRows<K>(base: map<K, File>, d: map<K, File>, moved: set<K>, aside: map<K, K>, gone: set<K>,
                         names: set<K>)
    requires moved <= aside.Keys && Laid(base, d, moved, aside, gone)
    requires names <= base.Keys && names !! moved
    ensures RowsIn(d, names) == RowsIn(base, names)
  {
    forall n | n in names ensures RowsAt(d, n) == RowsAt(base, n) {
      assert n in base && n !in moved;
    }
    RowsInSame(d, base, names);
  }

  /** Rows are neither lost nor gained by splitting the names. */
  lemma RowsInSplit<K>(d: map<K, File>, names: set<K>, part: set<K>)
    requires part <= names
    ensures RowsIn(d, names) == RowsIn(d, names - part) + RowsIn(d, part)
  {
    assert names == (names - part) + part;
    RowsInUnion(d, names - part, part);
  }

  function Matching<K(==)>(d: map<K, File>, p: K -> bool): set<K> {
    set n | n in d && p(n)
  }

  /** Names moved aside drop out of what a scan by `p` matches, and only those. */
  lemma LaidMatches<K>(base: map<K, File>, d: map<K, File>, moved: set<K>, aside: map<K, K>, gone: set<K>, p: K -> bool)
    requires moved <= aside.Keys && moved <= base.Keys && Laid(base, d, moved, aside, gone)
    requires forall f | f in moved :: p(f) && !p(aside[f])
    ensures Matching(d, p) == Matching(base, p) - moved
    ensures moved <= Matching(base, p)
  {
  }

  lemma MatchingWithout<K>(d: map<K, File>, n: K, p: K -> bool)
    requires n in d
    ensures Matching(d, p) == Matching(d - {n}, p) + (if p(n) then {n} else {})
    ensures n !in Matching(d - {n}, p)
  {
  }

  // ----------------------------------------------------- runs of operations

  function Elements<K(==)>(names: seq<K>): set<K> {
    set n | n in names
  }

  ghost predicate Distinct<K>(names: seq<K>) {
    forall i, j | 0 <= i < j < |names| :: names[i] != names[j]
  }

  lemma ElementsNext<K>(names: seq<K>, k: nat)
    requires k < |names|
    ensures Elements(names[..k + 1]) == Elements(names[..k]) + {names[k]}
    ensures Distinct(names) ==> names[k] !in Elements(names[..k])
  {
    assert names[..k + 1] == names[..k] + [names[k]];
  }

  lemma ElementsSnoc<K>(names: seq<K>, n: K)
    requires n !in Elements(names)
    ensures Elements(names + [n]) == Elements(names) + {n}
    ensures Distinct(names) ==> Distinct(names + [n])
  {
    assert forall i | 0 <= i < |names| :: names[i] in Elements(names);
  }

  /** The members of a set, in no particular order. */
  method Enumerate<K(==)>(members: set<K>) returns (listing: seq<K>)
    ensures Distinct(listing) && Elements(listing) == members
  {
    listing := [];
    var rest := members;
    while rest != {}
      invariant Distinct(listing) && Elements(listing) + rest == members && Elements(listing) !! rest
      decreases |rest|
    {
      var n :| n in rest;
      ElementsSnoc(listing, n);
      listing, rest := listing + [n], rest - {n};
    }
  }

  function Deletes<K>(names: seq<K>): seq<Op<K>> {
    seq(|names|, i requires 0 <= i < |names| => Delete(names[i]))
  }

  function Renames<K>(names: seq<K>, to: seq<K>): seq<Op<K>>
    requires |names| == |to|
  {
    seq(|names|, i requires 0 <= i < |names| => Rename(names[i], to[i]))
  }

  lemma ApplyPrefixNext<K>(d: map<K, File>, ops: seq<Op<K>>, k: nat)
    requires k < |ops|
    ensures ApplyAll(d, ops[..k + 1]) == Apply(ApplyAll(d, ops[..k]), ops[k])
  {
    assert ops[..k + 1] == ops[..k] + [ops[k]];
    ApplyAllAppend(d, ops[..k], [ops[k]]);
    ApplyAllOne(ApplyAll(d, ops[..k]), ops[k]);
  }

  lemma {:induction false} DeletesEffect<K>(d: map<K, File>, names: seq<K>, k: nat)
    requires k <= |names|
    ensures ApplyAll(d, Deletes(names)[..k]) == d - Elements(names[..k])
  {
    if k == 0 {
      assert d - {} == d;
    } else {
      DeletesEffect(d, names, k - 1);
      ApplyPrefixNext(d, Deletes(names), k - 1);
      ElementsNext(names, k - 1);
    }
  }

  lemma DeleteAll<K>(d: map<K, File>, names: seq<K>)
    ensures ApplyAll(d, Deletes(names)) == d - Elements(names)
  {
    var n := |names|;
    DeletesEffect(d, names, n);
    assert Deletes(names)[..n] == Deletes(names) && names[..n] == names;
  }

  lemma MinusTwice<K>(d: map<K, File>, n: K, names: set<K>)
    requires n in d && n !in names
    ensures n in d - names && (d - names)[n] == d[n]
    ensures (d - names) - {n} == (d - {n}) - names
  {
  }

  /** `names` are the other names of the files `back`, each once. */
  ghost predicate NamesAside<K>(names: seq<K>, back: seq<K>, moved: set<K>, aside: map<K, K>)
    requires moved <= aside.Keys
  {
    && |names| == |back| && Distinct(names)
    && (forall i | 0 <= i < |names| :: back[i] in moved && aside[back[i]] == names[i])
    && (forall f | f in moved :: f in back)
  }

  lemma BackDistinct<K>(names: seq<K>, back: seq<K>, moved: set<K>, aside: map<K, K>)
    requires moved <= aside.Keys && NamesAside(names, back, moved, aside)
    ensures Distinct(back)
  {
    forall i, j | 0 <= i < j < |back| ensures back[i] != back[j] {
      assert names[i] != names[j];
    }
  }

  /** Moving the first `k` back leaves exactly the others aside. */
  lemma {:induction false} RestoreEffect<K>(base: map<K, File>, d: map<K, File>, moved: set<K>, aside: map<K, K>,
                                            names: seq<K>, back: seq<K>, k: nat)
    requires GoodAside(base, aside) && moved <= aside.Keys && Laid(base, d, moved, aside, {})
    requires NamesAside(names, back, moved, aside) && k <= |names|
    ensures Laid(base, ApplyAll(d, Renames(names, back)[..k]), moved - Elements(back[..k]), aside, {})
  {
    if k == 0 {
      assert moved - Elements(back[..0]) == moved;
      assert Renames(names, back)[..0] == [];
    } else {
      hide Laid, GoodAside;
      RestoreEffect(base, d, moved, aside, names, back, k - 1);
      ApplyPrefixNext(d, Renames(names, back), k - 1);
      BackDistinct(names, back, moved, aside);
      ElementsNext(back, k - 1);
      var left := moved - Elements(back[..k - 1]);
      MoveBackOne(base, ApplyAll(d, Renames(names, back)[..k - 1]), left, aside, back[k - 1]);
      assert left - {back[k - 1]} == moved - Elements(back[..k]);
    }
  }

  /** Moving all of them back restores the directory. */
  lemma RestoreAll<K>(base: map<K, File>, d: map<K, File>, moved: set<K>, aside: map<K, K>, names: seq<K>, back: seq<K>)
    requires GoodAside(base, aside) && moved <= aside.Keys && Laid(base, d, moved, aside, {})
    requires NamesAside(names, back, moved, aside)
    ensures ApplyAll(d, Renames(names, back)) == base
  {
    var n := |names|;
    RestoreEffect(base, d, moved, aside, names, back, n);
    assert Renames(names, back)[..n] == Renames(names, back) && back[..n] == back;
    assert moved - Elements(back) == {};
    LaidNoneIsBase(base, ApplyAll(d, Renames(names, back)), aside);
  }

  /** Deleting names aside leaves the rest as it is. */
  lemma DropAside<K>(base: map<K, File>, d: map<K, File>, moved: set<K>, aside: map<K, K>, gone: set<K>, names: set<K>)
    requires GoodAside(base, aside) && moved <= aside.Keys && Laid(base, d, moved, aside, gone)
    requires names <= Image(moved, aside)
    ensures Laid(base, d - names, moved, aside, gone + names)
  {
    assert forall n | n in names :: n !in base;
  }

  lemma {:induction false} DistinctCount<K>(names: seq<K>, k: nat)
    requires Distinct(names) && k <= |names|
    ensures |Elements(names[..k])| == k
  {
    if k == 0 {
      assert Elements(names[..0]) == {};
    } else {
      DistinctCount(names, k - 1);
      ElementsNext(names, k - 1);
    }
  }

  lemma OnlyOne<K>(names: seq<K>, n: K)
    requires Distinct(names) && Elements(names) == {n}
    ensures names == [n]
  {
    DistinctCount(names, |names|);
    assert names[..|names|] == names;
    assert names[0] in Elements(names);
  }

  /** What a scan by `p` finds aside, when it finds nothing in place. */
  lemma LaidFinds<K>(base: map<K, File>, d: map<K, File>, moved: set<K>, aside: map<K, K>, gone: set<K>,
        p: K -> bool, all: bool)
    requires moved <= aside.Keys && Laid(base, d, moved, aside, gone)
    requires forall n | n in base :: !p(n)
    requires forall f | f in moved :: p(aside[f]) == all
    ensures Matching(d, p) == if all then Image(moved, aside) - gone else {}
  {
  }

  /** Names found aside, each once, with the inverse `to`. */
  lemma FoundAside<K>(names: seq<K>, back: seq<K>, moved: set<K>, aside: map<K, K>, to: K -> K)
    requires moved <= aside.Keys
    requires Distinct(names) && Elements(names) == Image(moved, aside)
    requires forall f | f in moved :: to(aside[f]) == f
    requires |back| == |names| && forall i | 0 <= i < |names| :: back[i] == to(names[i])
    ensures NamesAside(names, back, moved, aside)
  {
    forall i | 0 <= i < |names| ensures back[i] in moved && aside[back[i]] == names[i] {
      assert names[i] in Elements(names);
    }
    forall f | f in moved ensures f in back {
      assert aside[f] in Elements(names);
      var i :| 0 <= i < |names| && names[i] == aside[f];
      assert back[i] == f;
    }
  }

  // ------------------------------------- leftovers of an interrupted clean-up

  /** What a scan by `p` finds aside is empty just when the files moved there are. */
  lemma AsideEmpty<K>(base: map<K, File>, d: map<K, File>, moved: set<K>, aside: map<K, K>, p: K -> bool)
    requires moved <= aside.Keys && moved <= base.Keys && Laid(base, d, moved, aside, {})
    requires (forall n | n in base :: !p(n)) && (forall f | f in moved :: p(aside[f]))
    ensures (forall n | n in d && p(n) :: d[n].rows == []) <==> (forall f | f in moved :: RowsAt(base, f) == multiset{})
  {
    if forall n | n in d && p(n) :: d[n].rows == [] {
      forall f | f in moved ensures RowsAt(base, f) == multiset{} {
        assert aside[f] in d && d[aside[f]] == base[f];
      }
    } else {
      var n :| n in d && p(n) && d[n].rows != [];
      var f :| f in moved && aside[f] == n;
      assert d[n].rows[0] in RowsAt(base, f);
    }
  }

  /** The first operations of a rollback: drop `part`, then move names back. */
  lemma RestorePrefix<K>(base: map<K, File>, d: map<K, File>, part: K, moved: set<K>, aside: map<K, K>,
                         names: seq<K>, back: seq<K>, j: nat)
    requires GoodAside(base, aside) && moved <= aside.Keys && Laid(base, d - {part}, moved, aside, {})
    requires NamesAside(names, back, moved, aside) && |names| == |back| && 1 <= j <= |names| + 1
    ensures Laid(base, ApplyAll(d, (Deletes([part]) + Renames(names, back))[..j]), moved - Elements(back[..j - 1]),
            aside, {})
  {
    hide Laid, GoodAside, NamesAside;
    var ops := Renames(names, back);
    assert (Deletes([part]) + ops)[..j] == Deletes([part]) + ops[..j - 1];
    ApplyAllAppend(d, Deletes([part]), ops[..j - 1]);
    DeleteAll(d, [part]);
    assert Elements([part]) == {part};
    RestoreEffect(base, d - {part}, moved, aside, names, back, j - 1);
  }

  /** The files still aside. */
  function Left<K(==)>(aside: map<K, K>, gone: set<K>): set<K> {
    set f | f in aside && aside[f] !in gone
  }

  function AsideLeft<K(==)>(aside: map<K, K>, gone: set<K>): (left: map<K, K>)
    ensures left.Keys == Left(aside, gone)
  {
    map f | f in aside && aside[f] !in gone :: aside[f]
  }

  /** `base` with `final` in place of the files no longer aside. */
  function Undoing<K>(base: map<K, File>, aside: map<K, K>, gone: set<K>, final: K, merged: File): map<K, File> {
    (base - (aside.Keys - Left(aside, gone)))[final := merged]
  }

  lemma LaidAfterUndo<K>(base: map<K, File>, d: map<K, File>, aside: map<K, K>, gone: set<K>, final: K, merged: File)
    requires GoodAside(base, aside) && Laid(base, d - {final}, aside.Keys, aside, gone)
    requires final in d && d[final] == merged && final !in base && forall f | f in aside :: aside[f] != final
    ensures GoodAside(Undoing(base, aside, gone, final, merged), AsideLeft(aside, gone))
    ensures Laid(Undoing(base, aside, gone, final, merged), d, Left(aside, gone), AsideLeft(aside, gone), {})
  {
    var left, u := Left(aside, gone), Undoing(base, aside, gone, final, merged);
    var kept := AsideLeft(aside, gone);
    forall n | n in Image(aside.Keys, aside) - gone ensures n in Image(left, kept) {
      var f :| f in aside && aside[f] == n;
      assert f in left && kept[f] == n;
    }
    assert Image(left, kept) == Image(aside.Keys, aside) - gone;
    assert d.Keys == (d - {final}).Keys + {final};
    assert u.Keys - left == (base.Keys - aside.Keys) + {final};
  }

  /** Undoing brings back the rows of the files still aside, beside the merged ones. */
  lemma UndoingRows<K>(base: map<K, File>, aside: map<K, K>, gone: set<K>, final: K, merged: File, names: set<K>)
    requires aside.Keys <= names <= base.Keys && final !in base
    ensures var left := Left(aside, gone);
            var u := Undoing(base, aside, gone, final, merged);
            RowsIn(u, names - (aside.Keys - left) + {final}) + RowsIn(base, aside.Keys)
            == RowsIn(base, names) + RowsIn(base, left) + multiset(merged.rows)
  {
    var left, u := Left(aside, gone), Undoing(base, aside, gone, final, merged);
    var rest := names - (aside.Keys - left);
    assert rest == (names - aside.Keys) + left;
    assert forall n | n in rest :: RowsAt(u, n) == RowsAt(base, n);
    hide RowsIn, RowsAt, Left, Undoing;
    RowsInUnion(u, rest, {final});
    RowsInOne(u, final);
    RowsInSame(u, base, rest);
    RowsInUnion(base, names - aside.Keys, left);
    RowsInSplit(base, names, aside.Keys);
    assert RowsAt(u, final) == multiset(merged.rows) by { FinalRows(base, aside, gone, final, merged); }
    Regroup(RowsIn(base, names - aside.Keys), RowsIn(base, left), RowsAt(u, final), RowsIn(base, aside.Keys));
  }

  lemma FinalRows<K>(base: map<K, File>, aside: map<K, K>, gone: set<K>, final: K, merged: File)
    ensures RowsAt(Undoing(base, aside, gone, final, merged), final) == multiset(merged.rows)
  {
  }

  lemma Regroup(a: multiset<LogRecord>, b: multiset<LogRecord>, c: multiset<LogRecord>, d: multiset<LogRecord>)
    ensures a + b + c + d == a + d + b + c
  {
  }

  /** What scans find beside extra files. */
  lemma FindsBeside<K>(u: map<K, File>, e: map<K, File>, moved: set<K>, aside: map<K, K>, parts: map<K, File>,
                       p: K -> bool, q: K -> bool)
    requires moved <= aside.Keys && Laid(u, e, moved, aside, {})
    requires forall n | n in u :: !p(n) && !q(n)
    requires forall f | f in moved :: !p(aside[f]) && q(aside[f])
    requires forall n | n in parts :: p(n) && !q(n)
    ensures Matching(e + parts, p) == parts.Keys
    ensures Matching(e + parts, q) == Image(moved, aside)
  {
    LaidFinds(u, e, moved, aside, {}, p, false);
    LaidFinds(u, e, moved, aside, {}, q, true);
    BesideMatches(e, parts, p);
    BesideMatches(e, parts, q);
  }

  lemma BesideMatches<K>(e: map<K, File>, parts: map<K, File>, p: K -> bool)
    requires (forall n | n in parts :: p(n)) || (forall n | n in parts :: !p(n) && n !in Matching(e, p))
    ensures (forall n | n in parts :: p(n)) ==> Matching(e + parts, p) == Matching(e, p) + parts.Keys
    ensures (forall n | n in parts :: !p(n)) ==> Matching(e + parts, p) == Matching(e, p)
  {
  }

  lemma RestoreBeside<K>(u: map<K, File>, e: map<K, File>, moved: set<K>, aside: map<K, K>, parts: map<K, File>,
                         found: seq<K>, names: seq<K>, back: seq<K>)
    requires GoodAside(u, aside) && moved <= aside.Keys && Laid(u, e, moved, aside, {})
    requires parts.Keys !! e.Keys && Elements(found) == parts.Keys
    requires NamesAside(names, back, moved, aside) && |names| == |back|
    ensures ApplyAll(e + parts, Deletes(found) + Renames(names, back)) == u
  {
    hide Laid, GoodAside, NamesAside;
    ApplyAllAppend(e + parts, Deletes(found), Renames(names, back));
    DeleteAll(e + parts, found);
    WithoutBeside(e, parts);
    RestoreAll(u, e, moved, aside, names, back);
  }

  lemma WithoutBeside<K>(e: map<K, File>, parts: map<K, File>)
    requires parts.Keys !! e.Keys
    ensures (e + parts) - parts.Keys == e
  {
  }
}
