/** Hive-style placement: `year=/month=/day=/service=` directories, and the flush that fills them. */
module Storage {
  import opened Seqs
  import opened Records
  import opened Decimal
  import opened Calendar
  import opened Directories
  import opened Sorting

  /** Path components, the data directory's own first. */
  type Path = seq<string>
  type Store = map<Path, File>

  const I32_MAX: nat := 0x7FFF_FFFF
  const U32_MAX: nat := 0xFFFF_FFFF

  /** The date library's range, the date a flush takes for "now", and the number its chunk names carry. */
  datatype Clock = Clock(range: Range, today: Date, nanos: int)

  /** Years the library represents fit `i32`, and it represents today. */
  ghost predicate Sane(c: Clock) {
    -(I32_MAX as int) - 1 <= c.range.firstYear && c.range.lastYear <= I32_MAX && InRange(c.today, c.range)
  }

  // ------------------------------------------------------------------ paths

  /** `partition_path`. */
  function DayDir(root: Path, d: Date): Path {
    root + ["year=" + SignedDec(d.year), "month=" + Padded(d.month, 2), "day=" + Padded(d.day, 2)]
  }

  function ServiceDir(root: Path, d: Date, service: string): Path {
    DayDir(root, d) + ["service=" + service]
  }

  function StripPrefix(s: string, prefix: string): Option<string> {
    if prefix <= s then Some(s[|prefix|..]) else None
  }

  /** `day_partition_date`: reads a date off the last three components. */
  function DayPartitionDate(dir: Path, range: Range): Option<Date> {
    if |dir| < 3 then None
    else
      var n := |dir|;
      match (StripPrefix(dir[n - 1], "day="), StripPrefix(dir[n - 2], "month="), StripPrefix(dir[n - 3], "year="))
      case (Some(day), Some(month), Some(year)) =>
        (match (ParseSigned(year, I32_MAX), ParseUnsigned(month, U32_MAX), ParseUnsigned(day, U32_MAX))
         case (Some(y), Some(m), Some(d)) => if InRange(Date(y, m, d), range) then Some(Date(y, m, d)) else None
         case _ => None)
      case _ => None
  }

  /** `day_partition_date` undoes `partition_path` on every date the library represents. */
  lemma DayDirReadsBack(root: Path, d: Date, range: Range)
    requires InRange(d, range) && -(I32_MAX as int) - 1 <= range.firstYear && range.lastYear <= I32_MAX
    ensures DayPartitionDate(DayDir(root, d), range) == Some(d)
  {
    SignedParses(d.year, I32_MAX);
    PaddedParses(d.month, 2, U32_MAX);
    PaddedParses(d.day, 2, U32_MAX);
    hide SignedDec, Padded, ParseSigned, ParseUnsigned;
    var dir, n := DayDir(root, d), |root| + 3;
    assert |dir| == n;
    assert dir[n - 1] == "day=" + Padded(d.day, 2) && dir[n - 2] == "month=" + Padded(d.month, 2);
    assert dir[n - 3] == "year=" + SignedDec(d.year);
    StripsBack("day=", Padded(d.day, 2));
    StripsBack("month=", Padded(d.month, 2));
    StripsBack("year=", SignedDec(d.year));
  }

  /** Months and days have two digits. */
  lemma DirectoriesLookLike()
    ensures DayDir(["data"], Date(42, 7, 7)) == ["data", "year=42", "month=07", "day=07"]
  {
    PaddedLookLike();
    assert SignedDec(42) == "42" by { assert Dec(4) == "4" && Dec(42) == "42"; }
    hide SignedDec, Padded;
    assert "year=" + "42" == "year=42" && "month=" + "07" == "month=07" && "day=" + "07" == "day=07";
  }

  lemma StripsBack(prefix: string, rest: string)
    ensures StripPrefix(prefix + rest, prefix) == Some(rest)
  {
  }

  /** Only a `day=` directory is a day partition. */
  lemma OtherNamesAreNoDay(dir: Path, name: string, range: Range)
    requires !("day=" <= name)
    ensures DayPartitionDate(dir + [name], range) == None
  {
    assert (dir + [name])[|dir|] == name;
  }

  // -------------------------------------------------------------- placement

  /** The service and date a row is stored under. */
  type Key = (string, Date)

  function KeyOf(r: LogRecord, c: Clock): Key {
    (r.service, MicrosToDate(r.timestampUs, c.range, c.today))
  }

  function DirOf(root: Path, k: Key): Path {
    ServiceDir(root, k.1, k.0)
  }

  function ChunkName(nanos: int): string {
    "chunk_" + SignedDec(nanos) + ".parquet"
  }

  function ChunkPath(root: Path, k: Key, nanos: int): Path {
    DirOf(root, k) + [ChunkName(nanos)]
  }

  function PartPath(root: Path, k: Key, nanos: int): Path {
    DirOf(root, k) + [ChunkName(nanos) + ".part"]
  }

  /** `r` may lie in a directory of service `k.0` and date `k.1`: its own, if its day is one the library represents. */
  predicate BelongsTo(r: LogRecord, k: Key, range: Range) {
    && r.service == k.0
    && (InRange(DateOf(DayOf(r.timestampUs)), range) ==> k.1 == DateOf(DayOf(r.timestampUs)))
  }

  predicate PlacedUnder(p: Path, rows: seq<LogRecord>, root: Path, k: Key, range: Range) {
    && InRange(k.1, range)
    && |p| == |root| + 5 && p[..|root| + 4] == DirOf(root, k)
    && forall r | r in rows :: BelongsTo(r, k, range)
  }

  /** Every file lies in a partition directory, and every row in its own. */
  ghost predicate Placed(store: Store, root: Path, range: Range) {
    forall p | p in store :: exists k: Key :: PlacedUnder(p, store[p].rows, root, k, range)
  }

  lemma DirComponents(root: Path, k: Key)
    ensures var dir := DirOf(root, k);
            && |dir| == |root| + 4 && dir[..|root| + 3] == DayDir(root, k.1)
            && dir[|root| + 3] == "service=" + k.0
  {
    hide SignedDec, Padded;
  }

  /** A directory's name gives its key back. */
  lemma DirsDiffer(root: Path, a: Key, b: Key, range: Range)
    requires InRange(a.1, range) && InRange(b.1, range)
    requires -(I32_MAX as int) - 1 <= range.firstYear && range.lastYear <= I32_MAX
    requires DirOf(root, a) == DirOf(root, b)
    ensures a == b
  {
    DirComponents(root, a);
    DirComponents(root, b);
    DayDirReadsBack(root, a.1, range);
    DayDirReadsBack(root, b.1, range);
    hide DayDir, DayPartitionDate, DirOf;
    StripsBack("service=", a.0);
    StripsBack("service=", b.0);
  }

  lemma ChunkComponents(root: Path, k: Key, nanos: int)
    ensures var n := |root| + 4;
            && |ChunkPath(root, k, nanos)| == n + 1 && ChunkPath(root, k, nanos)[..n] == DirOf(root, k)
            && |PartPath(root, k, nanos)| == n + 1 && PartPath(root, k, nanos)[..n] == DirOf(root, k)
            && ChunkPath(root, k, nanos)[n] == ChunkName(nanos)
               && PartPath(root, k, nanos)[n] == ChunkName(nanos) + ".part"
  {
    DirComponents(root, k);
    hide ChunkName, DirOf;
  }

  lemma KeyIsInRange(r: LogRecord, c: Clock)
    requires Sane(c)
    ensures InRange(KeyOf(r, c).1, c.range)
    ensures BelongsTo(r, KeyOf(r, c), c.range)
  {
    hide DateOf;
  }

  // -------------------------------------------------------------- the split

  function FilterByService(batch: seq<LogRecord>, service: string): seq<LogRecord> {
    if batch == [] then []
    else (if batch[0].service == service then [batch[0]] else []) + FilterByService(batch[1..], service)
  }

  function RowsForDay(split: seq<LogRecord>, d: Date, c: Clock): seq<LogRecord> {
    if split == [] then []
    else (if KeyOf(split[0], c).1 == d then [split[0]] else []) + RowsForDay(split[1..], d, c)
  }

  /** What a flush writes for one service and day. */
  function RowsFor(batch: seq<LogRecord>, k: Key, c: Clock): seq<LogRecord> {
    RowsForDay(FilterByService(batch, k.0), k.1, c)
  }

  function Keys(batch: seq<LogRecord>, c: Clock): set<Key> {
    set r | r in batch :: KeyOf(r, c)
  }

  /** The rows stored under `keys`. */
  function Kept(batch: seq<LogRecord>, keys: set<Key>, c: Clock): seq<LogRecord> {
    if batch == [] then []
    else (if KeyOf(batch[0], c) in keys then [batch[0]] else []) + Kept(batch[1..], keys, c)
  }

  lemma {:induction false} KeptOne(batch: seq<LogRecord>, k: Key, c: Clock)
    ensures Kept(batch, {k}, c) == RowsFor(batch, k, c)
  {
    if batch != [] {
      hide MicrosToDate;
      KeptOne(batch[1..], k, c);
      var rest := FilterByService(batch[1..], k.0);
      var split := FilterByService(batch, k.0);
      if batch[0].service == k.0 {
        assert split[0] == batch[0] && split[1..] == rest;
      } else {
        assert split == rest;
      }
    }
  }

  lemma {:induction false} KeptSplits(batch: seq<LogRecord>, keys: set<Key>, k: Key, c: Clock)
    requires k in keys
    ensures multiset(Kept(batch, keys, c)) == multiset(Kept(batch, {k}, c)) + multiset(Kept(batch, keys - {k}, c))
  {
    if batch != [] {
      hide MicrosToDate;
      KeptSplits(batch[1..], keys, k, c);
    }
  }

  lemma {:induction false} KeptAll(batch: seq<LogRecord>, keys: set<Key>, c: Clock)
    requires forall r | r in batch :: KeyOf(r, c) in keys
    ensures Kept(batch, keys, c) == batch
  {
    if batch != [] {
      hide KeyOf;
      KeptAll(batch[1..], keys, c);
    }
  }

  lemma {:induction false} KeptMembers(batch: seq<LogRecord>, keys: set<Key>, c: Clock)
    ensures forall r :: r in Kept(batch, keys, c) <==> r in batch && KeyOf(r, c) in keys
  {
    if batch != [] {
      hide KeyOf;
      KeptMembers(batch[1..], keys, c);
    }
  }

  // -------------------------------------------------- what a flush leaves

  function ChunkPaths(root: Path, keys: set<Key>, nanos: int): set<Path> {
    set k | k in keys :: ChunkPath(root, k, nanos)
  }

  function PartPaths(root: Path, keys: set<Key>, nanos: int): set<Path> {
    set k | k in keys :: PartPath(root, k, nanos)
  }

  /** The names a flush of `keys` writes. */
  function Written(root: Path, keys: set<Key>, nanos: int): set<Path> {
    ChunkPaths(root, keys, nanos) + PartPaths(root, keys, nanos)
  }

  /** `store` is `base` but for the names in `chunks` and `parts`. */
  ghost predicate Replaces<K(!new)>(store: map<K, File>, base: map<K, File>, chunks: set<K>, parts: set<K>) {
    store.Keys == base.Keys - parts + chunks && forall p | p in base && p !in chunks + parts :: store[p] == base[p]
  }

  ghost predicate HoldsRows(store: Store, batch: seq<LogRecord>, done: set<Key>, root: Path, c: Clock) {
    forall k | k in done ::
      ChunkPath(root, k, c.nanos) in store && store[ChunkPath(root, k, c.nanos)].rows == RowsFor(batch, k, c)
  }

  /** `store` is `base` with one chunk for each of `done`, holding its rows of
      `batch`. A file of `base` under a name that was written is gone. */
  ghost predicate HasChunks(store: Store, base: Store, batch: seq<LogRecord>, done: set<Key>, root: Path, c: Clock) {
    && Replaces(store, base, ChunkPaths(root, done, c.nanos), PartPaths(root, done, c.nanos))
    && HoldsRows(store, batch, done, root, c)
  }

  lemma ChunkPathsDiffer(root: Path, a: Key, b: Key, c: Clock)
    requires Sane(c) && InRange(a.1, c.range) && InRange(b.1, c.range)
    requires ChunkPath(root, a, c.nanos) == ChunkPath(root, b, c.nanos)
    ensures a == b
  {
    ChunkComponents(root, a, c.nanos);
    ChunkComponents(root, b, c.nanos);
    DirsDiffer(root, a, b, c.range);
  }

  lemma ChunkPathsWithout(root: Path, part: set<Key>, k: Key, c: Clock)
    requires Sane(c) && k in part && forall j | j in part :: InRange(j.1, c.range)
    ensures ChunkPaths(root, part, c.nanos) - {ChunkPath(root, k, c.nanos)} == ChunkPaths(root, part - {k}, c.nanos)
  {
    hide ChunkPath, InRange, Sane;
    var path := ChunkPath(root, k, c.nanos);
    forall j | j in part && j != k ensures ChunkPath(root, j, c.nanos) != path {
      if ChunkPath(root, j, c.nanos) == path {
        ChunkPathsDiffer(root, j, k, c);
      }
    }
  }

  lemma {:induction false} ChunksHoldTheirRows(store: Store, base: Store, batch: seq<LogRecord>, done: set<Key>,
                                               root: Path, c: Clock, part: set<Key>)
    requires Sane(c) && HasChunks(store, base, batch, done, root, c) && part <= done
    requires forall k | k in done :: InRange(k.1, c.range)
    ensures RowsIn(store, ChunkPaths(root, part, c.nanos)) == multiset(Kept(batch, part, c))
  {
    if part == {} {
      assert ChunkPaths(root, part, c.nanos) == {};
      NoneKept(batch, c);
    } else {
      hide ChunkPath, KeyOf, InRange, RowsFor, Kept, RowsIn, Sane;
      var k :| k in part;
      ChunksHoldTheirRows(store, base, batch, done, root, c, part - {k});
      ChunkPathsWithout(root, part, k, c);
      RowsInPick(store, ChunkPaths(root, part, c.nanos), ChunkPath(root, k, c.nanos));
      KeptOne(batch, k, c);
      KeptSplits(batch, part, k, c);
    }
  }

  lemma {:induction false} NoneKept(batch: seq<LogRecord>, c: Clock)
    ensures Kept(batch, {}, c) == []
  {
    if batch != [] {
      hide KeyOf;
      NoneKept(batch[1..], c);
    }
  }

  lemma KeysAreInRange(batch: seq<LogRecord>, c: Clock)
    requires Sane(c)
    ensures forall k | k in Keys(batch, c) :: InRange(k.1, c.range)
  {
    forall k | k in Keys(batch, c) ensures InRange(k.1, c.range) {
      var r :| r in batch && k == KeyOf(r, c);
      KeyIsInRange(r, c);
    }
  }

  /** A flush adds the rows of the keys it got through, each exactly once, to those
      of the files it did not write over. */
  lemma FlushAddsTheKept(store: Store, base: Store, batch: seq<LogRecord>, done: set<Key>, root: Path, c: Clock)
    requires Sane(c) && done <= Keys(batch, c) && HasChunks(store, base, batch, done, root, c)
    ensures RowsIn(store, store.Keys)
            == RowsIn(base, base.Keys - Written(root, done, c.nanos)) + multiset(Kept(batch, done, c))
    ensures multiset(Kept(batch, done, c)) <= multiset(batch)
  {
    KeysAreInRange(batch, c);
    ChunksHoldTheirRows(store, base, batch, done, root, c, done);
    KeptIsPart(batch, done, c);
    hide ChunkPath, PartPath, KeyOf, InRange, RowsFor, RowsIn, Kept, Keys, ChunkPaths, PartPaths;
    var rest := base.Keys - Written(root, done, c.nanos);
    ChunksApart(root, done, c.nanos);
    SetApart(base.Keys, ChunkPaths(root, done, c.nanos), PartPaths(root, done, c.nanos));
    RowsInUnion(store, rest, ChunkPaths(root, done, c.nanos));
    RowsInSame(store, base, rest);
  }

  lemma ChunksApart(root: Path, keys: set<Key>, nanos: int)
    ensures ChunkPaths(root, keys, nanos) !! PartPaths(root, keys, nanos)
  {
    hide ChunkPath, PartPath;
    forall k | k in keys ensures PartPath(root, k, nanos) !in ChunkPaths(root, keys, nanos) {
      PartIsNotListed(root, keys, k, nanos);
    }
  }

  lemma SetApart<K>(all: set<K>, chunks: set<K>, parts: set<K>)
    requires chunks !! parts
    ensures all - parts + chunks == (all - (chunks + parts)) + chunks && (all - (chunks + parts)) !! chunks
  {
  }

  /** So a flush loses nothing exactly when no row lies in a file it writes over: a
      chunk of the same number, as after the clock was set back. */
  lemma FlushLosesNothingIff(store: Store, base: Store, batch: seq<LogRecord>, done: set<Key>, root: Path, c: Clock)
    requires Sane(c) && done <= Keys(batch, c) && HasChunks(store, base, batch, done, root, c)
    ensures RowsIn(store, store.Keys) == RowsIn(base, base.Keys) + multiset(Kept(batch, done, c))
            <==> forall p | p in base && p in Written(root, done, c.nanos) :: base[p].rows == []
  {
    FlushAddsTheKept(store, base, batch, done, root, c);
    var over := base.Keys * Written(root, done, c.nanos);
    assert base.Keys == (base.Keys - Written(root, done, c.nanos)) + over;
    hide Written, Kept, Keys, RowsIn, HasChunks, Sane;
    RowsInUnion(base, base.Keys - Written(root, done, c.nanos), over);
    NoneThere(base, over);
    SumIsFirst(RowsIn(base, base.Keys - Written(root, done, c.nanos)), RowsIn(base, over),
               multiset(Kept(batch, done, c)));
  }

  lemma SumIsFirst(a: multiset<LogRecord>, b: multiset<LogRecord>, kept: multiset<LogRecord>)
    ensures a + kept == a + b + kept <==> b == multiset{}
  {
    if a + kept == a + b + kept {
      forall r ensures b[r] == 0 {
        assert (a + kept)[r] == (a + b + kept)[r];
      }
    }
  }

  lemma NoneThere(store: Store, names: set<Path>)
    requires names <= store.Keys
    ensures RowsIn(store, names) == multiset{} <==> forall p | p in names :: store[p].rows == []
  {
    NoRowsIn(store, names);
    forall p | p in names ensures RowsAt(store, p) == multiset{} <==> store[p].rows == [] {
      if store[p].rows != [] {
        assert store[p].rows[0] in RowsAt(store, p);
      }
    }
    hide RowsIn, RowsAt;
  }

  lemma {:induction false} KeptIsPart(batch: seq<LogRecord>, keys: set<Key>, c: Clock)
    ensures multiset(Kept(batch, keys, c)) <= multiset(batch)
  {
    if batch != [] {
      hide KeyOf;
      KeptIsPart(batch[1..], keys, c);
      assert batch == [batch[0]] + batch[1..];
    }
  }

  /** A flush that succeeds adds every row of the batch exactly once. */
  lemma FlushAddsTheBatch(store: Store, base: Store, batch: seq<LogRecord>, root: Path, c: Clock)
    requires Sane(c) && HasChunks(store, base, batch, Keys(batch, c), root, c)
    ensures RowsIn(store, store.Keys)
            == RowsIn(base, base.Keys - Written(root, Keys(batch, c), c.nanos)) + multiset(batch)
  {
    KeptAll(batch, Keys(batch, c), c);
    FlushAddsTheKept(store, base, batch, Keys(batch, c), root, c);
  }

  /** And puts each under its own service and day. */
  lemma FlushPlaces(store: Store, base: Store, batch: seq<LogRecord>, done: set<Key>, root: Path, c: Clock)
    requires Sane(c) && Placed(base, root, c.range) && HasChunks(store, base, batch, done, root, c)
    requires forall k | k in done :: InRange(k.1, c.range)
    ensures Placed(store, root, c.range)
  {
    hide BelongsTo, ChunkPath, PartPath, RowsFor, InRange;
    forall p | p in store ensures exists k: Key :: PlacedUnder(p, store[p].rows, root, k, c.range) {
      if p in ChunkPaths(root, done, c.nanos) {
        var k :| k in done && p == ChunkPath(root, k, c.nanos);
        RowsForBelong(batch, k, root, c);
      } else {
        var k: Key :| PlacedUnder(p, base[p].rows, root, k, c.range);
      }
    }
  }

  lemma RowsForBelong(batch: seq<LogRecord>, k: Key, root: Path, c: Clock)
    requires Sane(c) && InRange(k.1, c.range)
    ensures PlacedUnder(ChunkPath(root, k, c.nanos), RowsFor(batch, k, c), root, k, c.range)
    ensures PlacedUnder(PartPath(root, k, c.nanos), RowsFor(batch, k, c), root, k, c.range)
    ensures PlacedUnder(PartPath(root, k, c.nanos), [], root, k, c.range)
  {
    ChunkComponents(root, k, c.nanos);
    KeptOne(batch, k, c);
    KeptMembers(batch, {k}, c);
    hide BelongsTo, ChunkPath, PartPath, RowsFor, InRange, Kept, KeyOf, Sane;
    forall r | r in RowsFor(batch, k, c) ensures BelongsTo(r, k, c.range) {
      KeyIsInRange(r, c);
    }
  }

  // -------------------------------------------------------------- the flush

  /** A flush stopped midway: some chunks are there, perhaps with one half-written `.part`. */
  ghost predicate PartlyFlushed(store: Store, base: Store, batch: seq<LogRecord>, done: set<Key>, part: Option<Key>,
                                root: Path, c: Clock) {
    match part
    case None => HasChunks(store, base, batch, done, root, c)
    case Some(k) =>
      var temp := PartPath(root, k, c.nanos);
      && k in Keys(batch, c) && temp in store
      && (store[temp].rows == [] || store[temp].rows == RowsFor(batch, k, c))
      && HasChunks(store - {temp}, base - {temp}, batch, done, root, c)
  }

  lemma PartlyFlushedPlaces(store: Store, base: Store, batch: seq<LogRecord>, done: set<Key>, part: Option<Key>,
                            root: Path, c: Clock)
    requires Sane(c) && Placed(base, root, c.range) && done <= Keys(batch, c)
    requires PartlyFlushed(store, base, batch, done, part, root, c)
    ensures Placed(store, root, c.range)
  {
    KeysAreInRange(batch, c);
    hide PlacedUnder, HasChunks, RowsFor, PartPath, Keys, InRange, Sane;
    if part.None? {
      FlushPlaces(store, base, batch, done, root, c);
    } else {
      var k, temp := part.value, PartPath(root, part.value, c.nanos);
      PlacedWithout(base, temp, root, c.range);
      FlushPlaces(store - {temp}, base - {temp}, batch, done, root, c);
      RowsForBelong(batch, k, root, c);
      forall p | p in store ensures exists k: Key :: PlacedUnder(p, store[p].rows, root, k, c.range) {
        if p != temp {
          assert p in store - {temp};
        }
      }
    }
  }

  lemma PlacedWithout(store: Store, p: Path, root: Path, range: Range)
    requires Placed(store, root, range)
    ensures Placed(store - {p}, root, range)
  {
    hide PlacedUnder;
    forall q | q in store - {p} ensures exists k: Key :: PlacedUnder(q, (store - {p})[q].rows, root, k, range) {
      var k: Key :| PlacedUnder(q, store[q].rows, root, k, range);
      assert PlacedUnder(q, (store - {p})[q].rows, root, k, range);
    }
  }

  lemma OneMoreKey(root: Path, done: set<Key>, k: Key, nanos: int)
    ensures ChunkPaths(root, done + {k}, nanos) == ChunkPaths(root, done, nanos) + {ChunkPath(root, k, nanos)}
    ensures PartPaths(root, done + {k}, nanos) == PartPaths(root, done, nanos) + {PartPath(root, k, nanos)}
  {
    hide ChunkPath, PartPath;
  }

  lemma ReplacesMore<K(!new)>(store: map<K, File>, base: map<K, File>, chunks: set<K>, parts: set<K>,
                              temp: K, final: K, file: File)
    requires Replaces(store, base, chunks, parts) && temp !in chunks && temp != final
    ensures Replaces((store - {temp})[final := file], base, chunks + {final}, parts + {temp})
  {
  }

  lemma AddChunk(store: Store, base: Store, batch: seq<LogRecord>, done: set<Key>, k: Key, file: File, root: Path,
                 c: Clock)
    requires Sane(c) && HasChunks(store, base, batch, done, root, c)
    requires k !in done && InRange(k.1, c.range) && forall j | j in done :: InRange(j.1, c.range)
    requires file.rows == RowsFor(batch, k, c)
    ensures HasChunks((store - {PartPath(root, k, c.nanos)})[ChunkPath(root, k, c.nanos) := file], base, batch,
                      done + {k}, root, c)
  {
    OneMoreKey(root, done, k, c.nanos);
    PartIsNotListed(root, done, k, c.nanos);
    PartIsNoChunk(root, k, k, c.nanos);
    AddedRows(store, batch, done, k, file, root, c);
    hide ChunkPath, PartPath, InRange, RowsFor, Sane, ChunkPaths, PartPaths, Replaces, HoldsRows;
    ReplacesMore(store, base, ChunkPaths(root, done, c.nanos), PartPaths(root, done, c.nanos),
                 PartPath(root, k, c.nanos), ChunkPath(root, k, c.nanos), file);
  }

  lemma AddedRows(store: Store, batch: seq<LogRecord>, done: set<Key>, k: Key, file: File, root: Path, c: Clock)
    requires Sane(c) && HoldsRows(store, batch, done, root, c) && file.rows == RowsFor(batch, k, c)
    requires k !in done && InRange(k.1, c.range) && forall j | j in done :: InRange(j.1, c.range)
    ensures HoldsRows((store - {PartPath(root, k, c.nanos)})[ChunkPath(root, k, c.nanos) := file], batch, done + {k},
                      root, c)
  {
    hide ChunkPath, PartPath, InRange, RowsFor, Sane;
    PartIsNoChunk(root, k, k, c.nanos);
    forall j | j in done ensures ChunkPath(root, j, c.nanos) != ChunkPath(root, k, c.nanos)
      ensures ChunkPath(root, j, c.nanos) != PartPath(root, k, c.nanos)
    {
      PartIsNoChunk(root, j, k, c.nanos);
      if ChunkPath(root, j, c.nanos) == ChunkPath(root, k, c.nanos) {
        ChunkPathsDiffer(root, j, k, c);
      }
    }
  }

  lemma PartIsNoChunk(root: Path, j: Key, k: Key, nanos: int)
    ensures PartPath(root, k, nanos) != ChunkPath(root, j, nanos)
  {
    ChunkComponents(root, j, nanos);
    ChunkComponents(root, k, nanos);
    hide ChunkPath, PartPath, ChunkName;
    assert |ChunkName(nanos) + ".part"| > |ChunkName(nanos)|;
  }

  lemma PartIsNotListed(root: Path, done: set<Key>, k: Key, nanos: int)
    ensures PartPath(root, k, nanos) !in ChunkPaths(root, done, nanos)
  {
    hide ChunkPath, PartPath;
    if PartPath(root, k, nanos) in ChunkPaths(root, done, nanos) {
      var j :| j in done && PartPath(root, k, nanos) == ChunkPath(root, j, nanos);
      PartIsNoChunk(root, j, k, nanos);
    }
  }

  method UniqueServices(batch: seq<LogRecord>) returns (names: seq<string>)
    ensures Distinct(names) && Ascending(names, StringLe)
    ensures forall s :: s in names <==> exists r | r in batch :: r.service == s
  {
    var seen: set<string>, i := {}, 0;
    while i < |batch|
      invariant i <= |batch| && forall s :: s in seen <==> exists r | r in batch[..i] :: r.service == s
    {
      assert batch[..i + 1] == batch[..i] + [batch[i]];
      seen, i := seen + {batch[i].service}, i + 1;
    }
    assert batch[..|batch|] == batch;
    var listed := Enumerate(seen);
    StringOrder();
    hide Ascending, StringLe, Total;
    SortByAscends(listed, StringLe);
    PermutationKeeps(listed, SortBy(listed, StringLe));
    names := SortBy(listed, StringLe);
    forall s ensures s in names <==> s in seen {
      assert s in listed <==> s in Elements(listed);
    }
  }

  lemma DateOrder()
    ensures Total(NotAfter)
  {
  }

  method UniqueDays(split: seq<LogRecord>, c: Clock) returns (days: seq<Date>)
    ensures Distinct(days) && Ascending(days, NotAfter)
    ensures forall d :: d in days <==> exists r | r in split :: KeyOf(r, c).1 == d
  {
    hide MicrosToDate;
    var found: seq<Date>, i := [], 0;
    while i < |split|
      invariant i <= |split| && Distinct(found)
      invariant forall d :: d in found <==> exists r | r in split[..i] :: KeyOf(r, c).1 == d
    {
      assert split[..i + 1] == split[..i] + [split[i]];
      var d := KeyOf(split[i], c).1;
      if d !in found {
        found := found + [d];
      }
      i := i + 1;
    }
    assert split[..|split|] == split;
    DateOrder();
    hide Ascending, Total;
    SortByAscends(found, NotAfter);
    PermutationKeeps(found, SortBy(found, NotAfter));
    days := SortBy(found, NotAfter);
  }

  lemma {:induction false} FilterMembers(batch: seq<LogRecord>, service: string)
    ensures forall r :: r in FilterByService(batch, service) <==> r in batch && r.service == service
  {
    if batch != [] {
      FilterMembers(batch[1..], service);
    }
  }

  /** The days of a service's rows are the days it has keys for. */
  lemma DaysOfService(batch: seq<LogRecord>, service: string, d: Date, c: Clock)
    ensures (service, d) in Keys(batch, c) <==> exists r | r in FilterByService(batch, service) :: KeyOf(r, c).1 == d
  {
    FilterMembers(batch, service);
    hide MicrosToDate;
    if r :| r in batch && KeyOf(r, c) == (service, d) {
      assert r in FilterByService(batch, service);
    }
  }

  lemma {:induction false} SomeRowForDay(split: seq<LogRecord>, d: Date, c: Clock)
    requires exists r | r in split :: KeyOf(r, c).1 == d
    ensures RowsForDay(split, d, c) != []
  {
    hide KeyOf;
    if KeyOf(split[0], c).1 != d {
      var r :| r in split && KeyOf(r, c).1 == d;
      assert r in split[1..];
      SomeRowForDay(split[1..], d, c);
    }
  }

  lemma RowsForIs(batch: seq<LogRecord>, k: Key, c: Clock)
    ensures RowsFor(batch, k, c) == RowsForDay(FilterByService(batch, k.0), k.1, c)
  {
  }

  lemma NothingFlushed(base: Store, batch: seq<LogRecord>, root: Path, c: Clock)
    ensures HasChunks(base, base, batch, {}, root, c)
  {
    assert ChunkPaths(root, {}, c.nanos) == {} && PartPaths(root, {}, c.nanos) == {};
  }

  lemma AsPartlyFlushed(store: Store, base: Store, batch: seq<LogRecord>, done: set<Key>, root: Path, c: Clock)
    requires HasChunks(store, base, batch, done, root, c)
    ensures PartlyFlushed(store, base, batch, done, None, root, c)
  {
  }

  function KeysOf(batch: seq<LogRecord>, services: seq<string>, c: Clock): set<Key> {
    set k | k in Keys(batch, c) && k.0 in services
  }

  function Pairs(service: string, days: seq<Date>): set<Key> {
    set d | d in days :: (service, d)
  }

  lemma PairsNext(service: string, days: seq<Date>, j: nat)
    requires j < |days| && Distinct(days)
    ensures Pairs(service, days[..j + 1]) == Pairs(service, days[..j]) + {(service, days[j])}
    ensures (service, days[j]) !in Pairs(service, days[..j])
  {
    NotAmong(days, j);
    assert days[..j + 1] == days[..j] + [days[j]];
  }

  lemma PairsAll(batch: seq<LogRecord>, service: string, days: seq<Date>, c: Clock)
    requires forall d :: d in days <==> exists r | r in FilterByService(batch, service) :: KeyOf(r, c).1 == d
    ensures Pairs(service, days) == KeysOf(batch, [service], c)
  {
    forall d ensures d in days <==> (service, d) in Keys(batch, c) {
      DaysOfService(batch, service, d, c);
    }
    hide Keys, FilterByService, KeyOf;
    forall k | k in KeysOf(batch, [service], c) ensures k in Pairs(service, days) {
      assert k == (service, k.1);
    }
  }

  lemma KeysOfNext(batch: seq<LogRecord>, services: seq<string>, i: nat, c: Clock)
    requires i < |services| && Distinct(services)
    ensures KeysOf(batch, services[..i + 1], c) == KeysOf(batch, services[..i], c) + KeysOf(batch, [services[i]], c)
    ensures KeysOf(batch, services[..i], c) !! KeysOf(batch, [services[i]], c)
  {
    NotAmong(services, i);
    hide Keys;
    assert services[..i + 1] == services[..i] + [services[i]];
  }

  lemma KeysOfAll(batch: seq<LogRecord>, services: seq<string>, c: Clock)
    requires forall s :: s in services <==> exists r | r in batch :: r.service == s
    ensures KeysOf(batch, services, c) == Keys(batch, c)
  {
    forall k | k in Keys(batch, c) ensures k.0 in services {
      var r :| r in batch && k == KeyOf(r, c);
    }
  }

  lemma SubKeys(batch: seq<LogRecord>, services: seq<string>, c: Clock)
    ensures KeysOf(batch, services, c) <= Keys(batch, c)
  {
  }

  lemma NotAmong<T>(s: seq<T>, i: nat)
    requires Distinct(s) && i < |s|
    ensures s[i] !in s[..i]
  {
  }

  lemma NoPairs(service: string, days: seq<Date>)
    ensures Pairs(service, days[..0]) == {}
  {
  }

  lemma PairIn(service: string, days: seq<Date>, j: nat)
    requires j < |days|
    ensures (service, days[j]) in Pairs(service, days)
  {
  }

  lemma NoServices(batch: seq<LogRecord>, services: seq<string>, c: Clock)
    ensures KeysOf(batch, services[..0], c) == {}
  {
  }

  lemma ReplacesWithout<K(!new)>(store: map<K, File>, base: map<K, File>, chunks: set<K>, parts: set<K>,
                                 temp: K, file: File)
    requires Replaces(store, base, chunks, parts) && temp !in chunks
    ensures Replaces(store[temp := file] - {temp}, base - {temp}, chunks, parts)
  {
  }

  lemma LeavesPart(store: Store, base: Store, batch: seq<LogRecord>, done: set<Key>, k: Key, written: File,
                   root: Path, c: Clock)
    requires HasChunks(store, base, batch, done, root, c) && k in Keys(batch, c)
    requires written.rows == [] || written.rows == RowsFor(batch, k, c)
    ensures PartlyFlushed(store[PartPath(root, k, c.nanos) := written], base, batch, done, Some(k), root, c)
  {
    var temp := PartPath(root, k, c.nanos);
    PartIsNotListed(root, done, k, c.nanos);
    RowsStay(store, batch, done, k, written, root, c);
    hide PartPath, ChunkPath, RowsFor, Keys, ChunkPaths, PartPaths, Replaces, HoldsRows;
    ReplacesWithout(store, base, ChunkPaths(root, done, c.nanos), PartPaths(root, done, c.nanos), temp, written);
  }

  lemma RowsStay(store: Store, batch: seq<LogRecord>, done: set<Key>, k: Key, file: File, root: Path, c: Clock)
    requires HoldsRows(store, batch, done, root, c)
    ensures HoldsRows(store[PartPath(root, k, c.nanos) := file] - {PartPath(root, k, c.nanos)}, batch, done, root, c)
  {
    hide ChunkPath, PartPath, RowsFor;
    forall j | j in done ensures ChunkPath(root, j, c.nanos) != PartPath(root, k, c.nanos) {
      PartIsNoChunk(root, j, k, c.nanos);
    }
  }

  class Flusher {
    const root: Path
    var store: Store
    /** File operations until the next error. */
    var left: nat

    constructor (root: Path, store: Store, left: nat)
      ensures this.root == root && this.store == store && this.left == left
    {
      this.root, this.store, this.left := root, store, left;
    }

    /** Writes under a `.part` name and renames: the chunk appears whole or not at all. */
    method WriteChunk(k: Key, rows: seq<LogRecord>, c: Clock) returns (ok: bool, ghost written: File)
      modifies `store, `left
      ensures ok ==> written.rows == rows
                     && store == (old(store) - {PartPath(root, k, c.nanos)})[ChunkPath(root, k, c.nanos) := written]
      ensures !ok ==> store == old(store) || (store == old(store)[PartPath(root, k, c.nanos) := written]
                                              && (written.rows == [] || written.rows == rows))
    {
      var temp, final := PartPath(root, k, c.nanos), ChunkPath(root, k, c.nanos);
      PartIsNoChunk(root, k, k, c.nanos);
      hide PartPath, ChunkPath;
      written := File([], 0);
      if left == 0 {
        return false, written;
      }
      left := left - 1;
      store := store[temp := File([], 0)];
      if left == 0 {
        return false, written;
      }
      left := left - 1;
      var bytes: nat := *;
      store := store[temp := File(rows, bytes)];
      written := File(rows, bytes);
      if left == 0 {
        return false, written;
      }
      left := left - 1;
      store := (store - {temp})[final := store[temp]];
      ok := true;
    }

    method FlushDay(batch: seq<LogRecord>, k: Key, split: seq<LogRecord>, c: Clock, ghost base: Store,
                    ghost done: set<Key>)
      returns (ok: bool, ghost part: Option<Key>)
      requires Sane(c) && split == FilterByService(batch, k.0)
      requires done <= Keys(batch, c) && HasChunks(store, base, batch, done, root, c)
      requires k in Keys(batch, c) && k !in done && forall j | j in Keys(batch, c) :: InRange(j.1, c.range)
      modifies `store, `left
      ensures if ok then HasChunks(store, base, batch, done + {k}, root, c)
              else PartlyFlushed(store, base, batch, done, part, root, c)
    {
      ghost var before := store;
      ghost var written;
      part := None;
      hide *;
      var dayBatch := RowsForDay(split, k.1, c);
      // `rows_for_day` fails on a day without rows, which `unique_days` never yields.
      assert dayBatch != [] by {
        DaysOfService(batch, k.0, k.1, c);
        SomeRowForDay(split, k.1, c);
      }
      RowsForIs(batch, k, c);
      ok, written := WriteChunk(k, dayBatch, c);
      if ok {
        AddChunk(before, base, batch, done, k, written, root, c);
      } else if store == before {
        AsPartlyFlushed(store, base, batch, done, root, c);
      } else {
        part := Some(k);
        LeavesPart(before, base, batch, done, k, written, root, c);
      }
    }

    /** The inner loop of `flush`: the days of one service. */
    method FlushService(batch: seq<LogRecord>, service: string, c: Clock, ghost base: Store, ghost before: set<Key>)
      returns (ok: bool, ghost done: set<Key>, ghost part: Option<Key>)
      requires Sane(c)
      requires before <= Keys(batch, c) && HasChunks(store, base, batch, before, root, c)
      requires before !! KeysOf(batch, [service], c)
      requires forall k | k in Keys(batch, c) :: InRange(k.1, c.range)
      modifies `store, `left
      ensures done <= Keys(batch, c)
      ensures if ok then done == before + KeysOf(batch, [service], c) && HasChunks(store, base, batch, done, root, c)
              else PartlyFlushed(store, base, batch, done, part, root, c)
    {
      hide *;
      done, part := before, None;
      var split := FilterByService(batch, service);
      var days := UniqueDays(split, c);
      PairsAll(batch, service, days, c);
      SubKeys(batch, [service], c);
      NoPairs(service, days);
      var j := 0;
      while j < |days|
        invariant j <= |days| && done == before + Pairs(service, days[..j]) && done <= Keys(batch, c)
        invariant HasChunks(store, base, batch, done, root, c)
      {
        PairsNext(service, days, j);
        PairIn(service, days, j);
        ok, part := FlushDay(batch, (service, days[j]), split, c, base, done);
        if !ok {
          return;
        }
        done, j := done + {(service, days[j])}, j + 1;
      }
      assert days[..|days|] == days;
      ok := true;
    }

    /** `flush`: one chunk per service and day, in order; the first error stops it. */
    method Flush(batch: seq<LogRecord>, c: Clock) returns (ok: bool, ghost done: set<Key>, ghost part: Option<Key>)
      requires Sane(c)
      modifies `store, `left
      ensures done <= Keys(batch, c)
      ensures if ok then HasChunks(store, old(store), batch, Keys(batch, c), root, c)
              else PartlyFlushed(store, old(store), batch, done, part, root, c)
    {
      ghost var base := store;
      hide *;
      done, part := {}, None;
      NothingFlushed(base, batch, root, c);
      KeysAreInRange(batch, c);
      var services := UniqueServices(batch);
      KeysOfAll(batch, services, c);
      NoServices(batch, services, c);
      var i := 0;
      while i < |services|
        invariant i <= |services| && done == KeysOf(batch, services[..i], c) && done <= Keys(batch, c)
        invariant HasChunks(store, base, batch, done, root, c)
      {
        KeysOfNext(batch, services, i, c);
        ok, done, part := FlushService(batch, services[i], c, base, done);
        if !ok {
          return;
        }
        i := i + 1;
      }
      assert services[..|services|] == services;
      ok := true;
    }
  }
}
