/** `Retention`: finding expired `day=` directories and removing them. */
module Retention {
  import opened Seqs
  import opened Records
  import opened Decimal
  import opened Calendar
  import opened Directories
  import opened Storage

  /** The subdirectories of `dir`: names that lead on to a file. */
  function Subdirs(store: Store, dir: Path): set<string> {
    set p | p in store && dir <= p && |dir| + 1 < |p| :: p[|dir|]
  }

  predicate IsExpired(dir: Path, cutoff: Date, range: Range) {
    var date := DayPartitionDate(dir, range);
    date.Some? && Before(date.value, cutoff)
  }

  /** A directory below `top` that dates before the cutoff, and the first on its path to have a date. */
  ghost predicate Expired(store: Store, top: Path, cutoff: Date, range: Range, p: Path) {
    && (exists f | f in store :: p <= f && |p| < |f|)
    && top <= p && |top| < |p|
    && IsExpired(p, cutoff, range)
    && forall n | |top| < n < |p| :: DayPartitionDate(p[..n], range).None?
  }

  /** An expired directory is an entry of `dir`, or lies below an entry without a date. */
  lemma ExpiredBelow(store: Store, dir: Path, cutoff: Date, range: Range, p: Path)
    requires Expired(store, dir, cutoff, range, p)
    ensures p[|dir|] in Subdirs(store, dir)
    ensures var q := dir + [p[|dir|]];
            p == q || (DayPartitionDate(q, range).None? && Expired(store, q, cutoff, range, p))
  {
    hide DayPartitionDate, IsExpired;
    var q := dir + [p[|dir|]];
    assert p[..|dir| + 1] == q;
    var f :| f in store && p <= f && |p| < |f|;
    assert f[|dir|] == p[|dir|];
  }

  lemma ExpiredEntry(store: Store, dir: Path, cutoff: Date, range: Range, name: string)
    requires name in Subdirs(store, dir) && IsExpired(dir + [name], cutoff, range)
    ensures Expired(store, dir, cutoff, range, dir + [name])
  {
    hide DayPartitionDate, IsExpired;
    var f :| f in store && dir <= f && |dir| + 1 < |f| && f[|dir|] == name;
    assert dir + [name] <= f;
  }

  lemma ExpiredFurtherDown(store: Store, dir: Path, cutoff: Date, range: Range, name: string, p: Path)
    requires DayPartitionDate(dir + [name], range).None? && Expired(store, dir + [name], cutoff, range, p)
    ensures Expired(store, dir, cutoff, range, p)
  {
    hide DayPartitionDate, IsExpired;
    assert p[..|dir| + 1] == dir + [name];
  }

  lemma NothingTwice<T>()
    ensures Distinct<T>([])
  {
  }

  lemma OnceMore<T>(s: seq<T>, x: T)
    requires Distinct(s) && x !in s
    ensures Distinct(s + [x])
  {
  }

  lemma OnceJoin<T>(a: seq<T>, b: seq<T>)
    requires Distinct(a) && Distinct(b) && forall x | x in b :: x !in a
    ensures Distinct(a + b)
  {
    forall i, j | 0 <= i < j < |a + b| ensures (a + b)[i] != (a + b)[j] {
      if i < |a| <= j {
        assert (a + b)[j] == b[j - |a|];
        assert b[j - |a|] in b;
      }
    }
  }

  lemma NewEntry(out: seq<Path>, entries: seq<string>, i: nat, dir: Path)
    requires i < |entries| && forall a, b | 0 <= a < b < |entries| :: entries[a] != entries[b]
    requires forall p | p in out :: exists n | n in entries[..i] :: p == dir + [n]
    ensures dir + [entries[i]] !in out
  {
    forall n | n in entries[..i] ensures dir + [entries[i]] != dir + [n] {
      assert (dir + [entries[i]])[|dir|] == entries[i] && (dir + [n])[|dir|] == n;
    }
  }

  /** The first loop of `walk_for_day_partitions`: entries with a date are judged, the others walked. */
  method JudgeEntries(entries: seq<string>, dir: Path, cutoff: Date, range: Range)
    returns (out: seq<Path>, subdirs: seq<string>)
    requires forall i, j | 0 <= i < j < |entries| :: entries[i] != entries[j]
    ensures Distinct(out) && Distinct(subdirs)
    ensures forall p :: p in out <==> exists n | n in entries :: p == dir + [n] && IsExpired(dir + [n], cutoff, range)
    ensures forall n :: n in subdirs <==> n in entries && DayPartitionDate(dir + [n], range).None?
  {
    hide *;
    out, subdirs := [], [];
    NothingTwice<Path>();
    NothingTwice<string>();
    var i := 0;
    while i < |entries|
      invariant i <= |entries| && Distinct(out) && Distinct(subdirs)
      invariant forall p ::
                  p in out <==> exists n | n in entries[..i] :: p == dir + [n] && IsExpired(dir + [n], cutoff, range)
      invariant forall n :: n in subdirs <==> n in entries[..i] && DayPartitionDate(dir + [n], range).None?
    {
      assert entries[..i + 1] == entries[..i] + [entries[i]];
      var path := dir + [entries[i]];
      ExpiredMeans(path, cutoff, range);
      var date := DayPartitionDate(path, range);
      if date.Some? {
        if Before(date.value, cutoff) {
          NewEntry(out, entries, i, dir);
          OnceMore(out, path);
          out := out + [path];
        }
      } else {
        OnceMore(subdirs, entries[i]);
        subdirs := subdirs + [entries[i]];
      }
      i := i + 1;
    }
    assert entries[..|entries|] == entries;
  }

  ghost predicate ExpiredUnder(store: Store, dir: Path, names: seq<string>, cutoff: Date, range: Range, p: Path) {
    exists n | n in names :: Expired(store, dir + [n], cutoff, range, p)
  }

  lemma UnderNext(store: Store, dir: Path, names: seq<string>, i: nat, cutoff: Date, range: Range)
    requires i < |names|
    ensures forall p ::
              ExpiredUnder(store, dir, names[..i + 1], cutoff, range, p)
              <==> (ExpiredUnder(store, dir, names[..i], cutoff, range, p)
                    || Expired(store, dir + [names[i]], cutoff, range, p))
  {
    hide Expired;
    assert names[..i + 1] == names[..i] + [names[i]];
  }

  lemma NoneUnder(store: Store, dir: Path, names: seq<string>, cutoff: Date, range: Range)
    ensures forall p :: !ExpiredUnder(store, dir, names[..0], cutoff, range, p)
  {
  }

  /** `walk_for_day_partitions` finds the expired directories below `dir`, and only those. */
  method WalkForDayPartitions(store: Store, dir: Path, cutoff: Date, range: Range, ghost depth: nat)
    returns (out: seq<Path>)
    requires |dir| <= depth && forall p | p in store :: |p| <= depth
    ensures Distinct(out) && forall p :: p in out <==> Expired(store, dir, cutoff, range, p)
    decreases depth - |dir|
  {
    var entries := Enumerate(Subdirs(store, dir));
    assert forall n :: n in entries <==> n in Subdirs(store, dir) by {
      assert forall n :: n in Elements(entries) <==> n in entries;
    }
    hide *;
    var subdirs;
    out, subdirs := JudgeEntries(entries, dir, cutoff, range);
    ghost var here := out;
    NoneUnder(store, dir, subdirs, cutoff, range);
    var i := 0;
    while i < |subdirs|
      invariant i <= |subdirs| && Distinct(out)
      invariant forall p :: p in out <==> p in here || ExpiredUnder(store, dir, subdirs[..i], cutoff, range, p)
    {
      DeepEnough(store, dir, subdirs[i], depth);
      var more := WalkForDayPartitions(store, dir + [subdirs[i]], cutoff, range, depth);
      UnderNext(store, dir, subdirs, i, cutoff, range);
      forall p | p in more ensures p !in out {
        NotFoundBefore(store, dir, subdirs, here, i, cutoff, range, p);
      }
      OnceJoin(out, more);
      out, i := out + more, i + 1;
    }
    assert subdirs[..|subdirs|] == subdirs;
    forall p ensures p in out <==> Expired(store, dir, cutoff, range, p) {
      WalkedIs(store, dir, cutoff, range, entries, subdirs, here, p);
    }
  }

  /** What one subdirectory yields, neither the entries nor another subdirectory did. */
  lemma NotFoundBefore(store: Store, dir: Path, subdirs: seq<string>, here: seq<Path>, i: nat, cutoff: Date,
        range: Range, p: Path)
    requires Distinct(subdirs) && i < |subdirs| && Expired(store, dir + [subdirs[i]], cutoff, range, p)
    requires forall q | q in here :: |q| == |dir| + 1
    ensures p !in here && !ExpiredUnder(store, dir, subdirs[..i], cutoff, range, p)
  {
    NameBelow(store, dir, subdirs[i], cutoff, range, p);
    hide Expired;
    forall n | n in subdirs[..i] && Expired(store, dir + [n], cutoff, range, p) ensures n == p[|dir|] {
      NameBelow(store, dir, n, cutoff, range, p);
    }
  }

  lemma NameBelow(store: Store, dir: Path, name: string, cutoff: Date, range: Range, p: Path)
    requires Expired(store, dir + [name], cutoff, range, p)
    ensures |dir| + 1 < |p| && p[|dir|] == name
  {
    hide DayPartitionDate, IsExpired;
    assert p[|dir|] == (dir + [name])[|dir|];
  }

  lemma ExpiredMeans(p: Path, cutoff: Date, range: Range)
    ensures IsExpired(p, cutoff, range)
            <==> (DayPartitionDate(p, range).Some? && Before(DayPartitionDate(p, range).value, cutoff))
  {
  }

  lemma DeepEnough(store: Store, dir: Path, name: string, depth: nat)
    requires name in Subdirs(store, dir) && forall p | p in store :: |p| <= depth
    ensures |dir + [name]| < depth
  {
  }

  lemma WalkedIs(store: Store, dir: Path, cutoff: Date, range: Range, entries: seq<string>, subdirs: seq<string>,
                 here: seq<Path>, p: Path)
    requires forall n :: n in entries <==> n in Subdirs(store, dir)
    requires p in here <==> exists n | n in entries :: p == dir + [n] && IsExpired(dir + [n], cutoff, range)
    requires forall n :: n in subdirs <==> n in entries && DayPartitionDate(dir + [n], range).None?
    ensures Expired(store, dir, cutoff, range, p)
            <==> p in here || ExpiredUnder(store, dir, subdirs, cutoff, range, p)
  {
    if Expired(store, dir, cutoff, range, p) {
      ExpiredBelow(store, dir, cutoff, range, p);
      assert IsExpired(p, cutoff, range);
    } else {
      hide Expired, IsExpired, DayPartitionDate, Subdirs;
      if p in here {
        var n :| n in entries && p == dir + [n] && IsExpired(dir + [n], cutoff, range);
        ExpiredEntry(store, dir, cutoff, range, n);
      } else if n :| n in subdirs && Expired(store, dir + [n], cutoff, range, p) {
        ExpiredFurtherDown(store, dir, cutoff, range, n, p);
      }
    }
  }

  // ------------------------------------------------------------- the purge

  /** `p` lies in an expired directory. */
  ghost predicate Doomed(store: Store, root: Path, cutoff: Date, range: Range, p: Path) {
    exists q :: q <= p && |q| < |p| && Expired(store, root, cutoff, range, q)
  }

  /** What is left of `store` without the files below `dirs`, save those that cannot be removed. */
  function Without(store: Store, dirs: seq<Path>, stubborn: set<Path>): Store {
    map p | p in store && (p in stubborn || forall q | q in dirs :: !(q <= p && |q| < |p|)) :: store[p]
  }

  ghost predicate Purged(before: Store, after: Store, root: Path, cutoff: Date, range: Range, stubborn: set<Path>) {
    && (forall p | p in after :: p in before && after[p] == before[p])
    && (forall p | p in before :: p in after <==> p in stubborn || !Doomed(before, root, cutoff, range, p))
  }

  lemma WithoutNext(store: Store, dirs: seq<Path>, i: nat, stubborn: set<Path>)
    requires i < |dirs|
    ensures Without(store, dirs[..i + 1], stubborn) == Without(Without(store, dirs[..i], stubborn), [dirs[i]], stubborn)
  {
    assert dirs[..i + 1] == dirs[..i] + [dirs[i]];
  }

  lemma WithoutIsPurged(store: Store, root: Path, cutoff: Date, range: Range, dirs: seq<Path>, stubborn: set<Path>)
    requires ExpiredOnes(store, root, cutoff, range, dirs)
    ensures Purged(store, Without(store, dirs, stubborn), root, cutoff, range, stubborn)
  {
    hide Expired;
    forall p | p in store
      ensures Doomed(store, root, cutoff, range, p) <==> exists q | q in dirs :: q <= p && |q| < |p|
    {
    }
  }

  /** `dirs` are the expired directories, each once. */
  ghost predicate ExpiredOnes(store: Store, root: Path, cutoff: Date, range: Range, dirs: seq<Path>) {
    Distinct(dirs) && forall p :: p in dirs <==> Expired(store, root, cutoff, range, p)
  }

  lemma OnlyOnce(store: Store, root: Path, cutoff: Date, range: Range, dirs: seq<Path>)
    requires ExpiredOnes(store, root, cutoff, range, dirs)
    ensures Distinct(dirs)
  {
    hide Expired;
  }

  /** The directories that were removed whole. */
  function Cleared(store: Store, dirs: seq<Path>, stubborn: set<Path>): seq<Path> {
    if dirs == [] then []
    else
      var n := |dirs| - 1;
      Cleared(store, dirs[..n], stubborn)
      + (if forall p | p in stubborn :: !(dirs[n] <= p && |dirs[n]| < |p| && p in store) then [dirs[n]] else [])
  }

  lemma ClearedNext(store: Store, dirs: seq<Path>, i: nat, stubborn: set<Path>)
    requires i < |dirs|
    ensures |Cleared(store, dirs[..i + 1], stubborn)| == |Cleared(store, dirs[..i], stubborn)|
              + if forall p | p in stubborn ::
                     !(dirs[i] <= p && |dirs[i]| < |p| && p in Without(store, dirs[..i + 1], stubborn)) then 1 else 0
  {
    assert dirs[..i + 1][..i] == dirs[..i];
    assert forall p | p in stubborn :: p in Without(store, dirs[..i + 1], stubborn) <==> p in store;
  }

  lemma {:induction false} ClearedMembers(store: Store, dirs: seq<Path>, stubborn: set<Path>)
    requires Distinct(dirs)
    ensures Distinct(Cleared(store, dirs, stubborn))
    ensures forall q :: q in Cleared(store, dirs, stubborn)
                        <==> q in dirs && forall p | p in stubborn && p in store :: !(q <= p && |q| < |p|)
  {
    if dirs != [] {
      var n := |dirs| - 1;
      assert dirs == dirs[..n] + [dirs[n]] && dirs[n] !in dirs[..n];
      ClearedMembers(store, dirs[..n], stubborn);
    }
  }

  /** The directories counted as purged are those below which nothing is left. */
  lemma ClearedAreEmpty(store: Store, dirs: seq<Path>, stubborn: set<Path>)
    requires Distinct(dirs)
    ensures var after := Without(store, dirs, stubborn);
            |Cleared(store, dirs, stubborn)| == |set q | q in dirs && (forall p | p in after :: !(q <= p && |q| < |p|))|
  {
    var after, cleared := Without(store, dirs, stubborn), Cleared(store, dirs, stubborn);
    ClearedMembers(store, dirs, stubborn);
    hide Cleared;
    forall q ensures q in cleared <==> q in dirs && forall p | p in after :: !(q <= p && |q| < |p|) {
      if p :| p in stubborn && p in store && q <= p && |q| < |p| {
        assert p in after;
      }
    }
    DistinctCount(cleared, |cleared|);
    assert cleared[..|cleared|] == cleared;
    assert Elements(cleared) == (set q | q in dirs && (forall p | p in after :: !(q <= p && |q| < |p|)));
  }

  lemma NothingRemoved(store: Store, dirs: seq<Path>, stubborn: set<Path>)
    ensures Without(store, dirs[..0], stubborn) == store && Cleared(store, dirs[..0], stubborn) == []
  {
  }

  class Purger {
    const root: Path
    var store: Store

    constructor (root: Path, store: Store)
      ensures this.root == root && this.store == store
    {
      this.root, this.store := root, store;
    }

    /** `purge_expired`, with a retention of `days`, run on day number `today`. A
        cutoff before the first representable date stops the sweep. */
    method PurgeExpired(days: Option<nat>, today: int, range: Range, stubborn: set<Path>, ghost depth: nat)
      returns (ok: bool, purged: nat, ghost dirs: seq<Path>)
      requires |root| <= depth && forall p | p in store :: |p| <= depth
      modifies `store
      ensures days.None? || !InRange(DateOf(today - days.value), range) ==> store == old(store) && purged == 0
      ensures days.Some? && InRange(DateOf(today - days.value), range) ==>
                && ok && Purged(old(store), store, root, DateOf(today - days.value), range, stubborn)
                && ExpiredOnes(old(store), root, DateOf(today - days.value), range, dirs)
                && purged == |Cleared(old(store), dirs, stubborn)|
                && purged == |set q | q in dirs && (forall p | p in store :: !(q <= p && |q| < |p|))|
    {
      dirs := [];
      if days.None? {
        return true, 0, [];
      }
      ghost var before := store;
      var cutoff := DateOf(today - days.value);
      if !InRange(cutoff, range) {
        return false, 0, [];
      }
      var expired := WalkForDayPartitions(store, root, cutoff, range, depth);
      assert ExpiredOnes(before, root, cutoff, range, expired);
      hide *;
      dirs := expired;
      purged := RemoveAll(expired, stubborn);
      OnlyOnce(before, root, cutoff, range, expired);
      ClearedAreEmpty(before, expired, stubborn);
      WithoutIsPurged(before, root, cutoff, range, expired, stubborn);
      ok := true;
    }

    /** The removing loop: a directory counts as purged when nothing below it is left. */
    method RemoveAll(expired: seq<Path>, stubborn: set<Path>) returns (purged: nat)
      modifies `store
      ensures store == Without(old(store), expired, stubborn) && purged == |Cleared(old(store), expired, stubborn)|
    {
      ghost var before := store;
      hide *;
      purged := 0;
      NothingRemoved(before, expired, stubborn);
      var i := 0;
      while i < |expired|
        invariant i <= |expired| && store == Without(before, expired[..i], stubborn)
        invariant purged == |Cleared(before, expired[..i], stubborn)|
      {
        WithoutNext(before, expired, i, stubborn);
        ClearedNext(before, expired, i, stubborn);
        store := Without(store, [expired[i]], stubborn);
        if forall p | p in stubborn :: !(expired[i] <= p && |expired[i]| < |p| && p in store) {
          purged := purged + 1;
        }
        i := i + 1;
      }
      assert expired[..|expired|] == expired;
    }
  }

  // ------------------------------------------------- what the purge removes

  predicate NamesADay(name: string) {
    "day=" <= name
  }

  lemma FirstLetterDiffers(a: string, b: string, rest: string)
    requires a != [] && b != [] && a[0] != b[0]
    ensures !(a <= b + rest)
  {
  }

  lemma NoDayPrefix(p: Path, n: nat, range: Range)
    requires n < |p| && !NamesADay(p[n])
    ensures DayPartitionDate(p[..n + 1], range) == None
  {
    assert p[..n + 1] == p[..n] + [p[n]];
    OtherNamesAreNoDay(p[..n], p[n], range);
  }

  lemma NamesOfPlaced(p: Path, rows: seq<LogRecord>, root: Path, k: Key, range: Range)
    requires PlacedUnder(p, rows, root, k, range)
    ensures var n := |root|;
            && |p| == n + 5 && root <= p[..n + 3] && p[..n + 3] == DayDir(root, k.1)
            && !NamesADay(p[n]) && !NamesADay(p[n + 1]) && !NamesADay(p[n + 3])
  {
    DirComponents(root, k);
    var n, dir := |root|, DirOf(root, k);
    hide DirOf, SignedDec, Padded, InRange, BelongsTo;
    assert forall i | 0 <= i < n + 4 :: p[i] == dir[i];
    assert p[..n + 3] == DayDir(root, k.1);
    assert DayDir(root, k.1)[n] == "year=" + SignedDec(k.1.year);
    assert DayDir(root, k.1)[n + 1] == "month=" + Padded(k.1.month, 2);
    FirstLetterDiffers("day=", "year=", SignedDec(k.1.year));
    FirstLetterDiffers("day=", "month=", Padded(k.1.month, 2));
    FirstLetterDiffers("day=", "service=", k.0);
  }

  /** The day directory is the only one on the path with a date, and its date is the key's. */
  lemma PrefixesOfPlaced(p: Path, rows: seq<LogRecord>, root: Path, k: Key, range: Range, m: nat)
    requires PlacedUnder(p, rows, root, k, range) && -(I32_MAX as int) - 1 <= range.firstYear
             && range.lastYear <= I32_MAX
    requires |root| < m < |p|
    ensures DayPartitionDate(p[..m], range) == if m == |root| + 3 then Some(k.1) else None
  {
    NamesOfPlaced(p, rows, root, k, range);
    DayDirReadsBack(root, k.1, range);
    hide *;
    var n := |root|;
    if m == n + 1 {
      NoDayPrefix(p, n, range);
    } else if m == n + 2 {
      NoDayPrefix(p, n + 1, range);
    } else if m == n + 4 {
      NoDayPrefix(p, n + 3, range);
    }
  }

  lemma ExpiredAbove(store: Store, root: Path, cutoff: Date, range: Range, p: Path, k: Key, q: Path)
    requires p in store && PlacedUnder(p, store[p].rows, root, k, range)
    requires -(I32_MAX as int) - 1 <= range.firstYear && range.lastYear <= I32_MAX
    requires q <= p && |q| < |p| && Expired(store, root, cutoff, range, q)
    ensures Before(k.1, cutoff)
  {
    hide DayPartitionDate, PlacedUnder;
    PrefixesOfPlaced(p, store[p].rows, root, k, range, |q|);
    assert q == p[..|q|];
  }

  lemma PrefixOfPrefix(p: Path, n: nat, m: nat)
    requires m <= n <= |p|
    ensures p[..n][..m] == p[..m] && p[..n] <= p
  {
  }

  lemma DayExpires(store: Store, root: Path, cutoff: Date, range: Range, p: Path, k: Key)
    requires p in store && PlacedUnder(p, store[p].rows, root, k, range)
    requires -(I32_MAX as int) - 1 <= range.firstYear && range.lastYear <= I32_MAX
    requires Before(k.1, cutoff)
    ensures |root| + 3 < |p| && Expired(store, root, cutoff, range, p[..|root| + 3])
  {
    NamesOfPlaced(p, store[p].rows, root, k, range);
    hide DayPartitionDate, PlacedUnder, DayDir, Before;
    var n := |root|;
    PrefixesOfPlaced(p, store[p].rows, root, k, range, n + 3);
    PrefixOfPrefix(p, n + 3, n + 3);
    var day := p[..n + 3];
    forall m | n < m < n + 3 ensures DayPartitionDate(day[..m], range).None? {
      PrefixesOfPlaced(p, store[p].rows, root, k, range, m);
      PrefixOfPrefix(p, n + 3, m);
    }
  }

  /** A placed file is doomed exactly when its day directory dates before the cutoff. */
  lemma DoomedIff(store: Store, root: Path, cutoff: Date, range: Range, p: Path, k: Key)
    requires p in store && PlacedUnder(p, store[p].rows, root, k, range)
    requires -(I32_MAX as int) - 1 <= range.firstYear && range.lastYear <= I32_MAX
    ensures Doomed(store, root, cutoff, range, p) <==> Before(k.1, cutoff)
  {
    hide DayPartitionDate, PlacedUnder, Expired, Before;
    if Before(k.1, cutoff) {
      DayExpires(store, root, cutoff, range, p, k);
      PrefixOfPrefix(p, |root| + 3, 0);
    }
    if Doomed(store, root, cutoff, range, p) {
      var q :| q <= p && |q| < |p| && Expired(store, root, cutoff, range, q);
      ExpiredAbove(store, root, cutoff, range, p, k, q);
    }
  }

  /** A purge removes exactly the rows dated before the cutoff: of a row whose day
      can be represented, its file goes if and only if that day comes first. */
  lemma PurgeIsExact(before: Store, after: Store, root: Path, range: Range, cutoffDay: int, p: Path, r: LogRecord)
    requires Placed(before, root, range) && -(I32_MAX as int) - 1 <= range.firstYear && range.lastYear <= I32_MAX
    requires Purged(before, after, root, DateOf(cutoffDay), range, {})
    requires p in before && r in before[p].rows && InRange(DateOf(DayOf(r.timestampUs)), range)
    ensures p in after <==> DayOf(r.timestampUs) >= cutoffDay
    ensures p in after ==> after[p] == before[p]
  {
    var k: Key :| PlacedUnder(p, before[p].rows, root, k, range);
    DoomedIff(before, root, DateOf(cutoffDay), range, p, k);
    BeforeIff(DayOf(r.timestampUs), cutoffDay);
    hide DateOf, Doomed;
  }
}
