/** Which chunks a merge takes by their size, what it leaves of the others, and so how often a byte is rewritten. */
module MergeSizes {
  import opened Seqs
  import opened Records
  import opened Directories
  import opened Compaction
  import opened CompactionSafety
  import CompactionCost

  /** `files` are exactly the published chunks below the target size, each once. */
  ghost predicate TakesTheSmall(d: Directory, target: nat, files: seq<string>) {
    Distinct(files) && forall n :: n in files <==> n in d && IsParquet(n) && d[n].bytes < target
  }

  /** They are as many as there are such chunks. */
  lemma SmallCount(d: Directory, target: nat, files: seq<string>)
    requires TakesTheSmall(d, target, files)
    ensures Elements(files) == set n | n in d && IsParquet(n) && d[n].bytes < target
    ensures |files| == |set n | n in d && IsParquet(n) && d[n].bytes < target|
  {
    hide IsParquet;
    DistinctCount(files, |files|);
    assert files[..|files|] == files;
    assert Elements(files) == set n | n in d && IsParquet(n) && d[n].bytes < target;
  }

  // ---------------------------------------------------- what is left alone

  ghost predicate Spares<K>(op: Op<K>, n: K) {
    match op
    case Write(name, _) => name != n
    case Rename(source, target) => source != n && target != n
    case Delete(name) => name != n
  }

  lemma {:induction false} SparedStays<K>(d: map<K, File>, ops: seq<Op<K>>, n: K)
    requires n in d && forall op | op in ops :: Spares(op, n)
    ensures n in ApplyAll(d, ops) && ApplyAll(d, ops)[n] == d[n]
    decreases |ops|
  {
    if ops != [] {
      assert Spares(ops[0], n);
      SparedStays(Apply(d, ops[0]), ops[1..], n);
    }
  }

  lemma OpSpares(m: Plan, n: string, i: nat)
    requires i < |Ops(m)| && n !in m.files && n != m.final && n != m.part
    requires forall f | f in m.files :: Hidden(f) != n
    ensures Spares(Ops(m)[i], n)
  {
    OpsAt(m, i);
    RemovedAreHidden(m.files, m.stuck);
    hide Ops, Hidden, Removed;
    if 2 <= i < |m.files| + 2 {
      assert m.files[i - 2] in m.files;
    } else if |m.files| + 2 < i {
      var gone := Removed(m.files, m.stuck)[i - |m.files| - 3];
      assert gone in Removed(m.files, m.stuck);
    }
  }

  /** A merge touches no published chunk but its sources and its result. */
  lemma MergeSpares(m: Plan, n: string)
    requires IsParquet(n) && n !in m.files && n != m.final && HasSuffix(m.part, PART_SUFFIX)
    requires forall f | f in m.files :: IsParquet(f)
    ensures forall op | op in Ops(m) :: Spares(op, n)
  {
    ParquetName(n);
    forall f | f in m.files ensures Hidden(f) != n {
      ParquetName(f);
      HiddenRoundTrip(f);
    }
    hide IsParquet, HasSuffix, Hidden, Removed, Ops, Spares;
    forall op | op in Ops(m) ensures Spares(op, n) {
      var i :| 0 <= i < |Ops(m)| && Ops(m)[i] == op;
      OpSpares(m, n, i);
    }
  }

  /** A published chunk at the target or above stays as it is, wherever a merge of the
      smaller ones stops. */
  lemma LargeChunkStays(r: Directory, m: Plan, target: nat, k: nat, n: string)
    requires TakesTheSmall(r, target, m.files) && HasSuffix(m.part, PART_SUFFIX) && k <= |Ops(m)|
    requires n in r && IsParquet(n) && r[n].bytes >= target && n != m.final
    ensures n in ApplyAll(r, Ops(m)[..k]) && ApplyAll(r, Ops(m)[..k])[n] == r[n]
  {
    hide IsParquet, HasSuffix, Ops, Spares;
    MergeSpares(m, n);
    assert forall op | op in Ops(m)[..k] :: op in Ops(m);
    SparedStays(r, Ops(m)[..k], n);
  }

  // ------------------------------------------------- what a whole merge leaves

  /** Of the published chunks of `r` those at the target or above are left, and one
      chunk `final` of the given size in place of all smaller ones, with their rows. */
  ghost predicate OneForTheSmall(r: Directory, e: Directory, target: nat, final: string, bytes: nat) {
    && (forall n :: n in e && IsParquet(n) <==> n == final || (n in r && IsParquet(n) && r[n].bytes >= target))
    && (forall n | n in r && IsParquet(n) && r[n].bytes >= target :: e[n] == r[n])
    && e[final].bytes == bytes
    && multiset(e[final].rows) == RowsIn(r, set n | n in r && IsParquet(n) && r[n].bytes < target)
  }

  lemma PhaseAtStart(r: Directory, m: Plan)
    requires Planned(r, m)
    ensures Phase(Begin(r), m)
  {
    hide Ops, Planned, PublishedPhase, HidingPhase;
  }

  lemma PhaseAtEnd(s: Merging, m: Plan)
    requires Phase(s, m) && s.pc >= |m.files| + 3
    ensures PublishedPhase(s, m, GoneBy(m, s.pc))
  {
    hide Ops, Planned, PublishedPhase, HidingPhase;
  }

  lemma OpsWhole(m: Plan)
    ensures |Ops(m)| >= |m.files| + 3 && Ops(m)[..0] == [] && Ops(m)[..|Ops(m)|] == Ops(m)
  {
  }

  lemma BeginIs(r: Directory, m: Plan)
    ensures Begin(r) == Merging(ApplyAll(r, Ops(m)[..0]), r, 0)
  {
    assert Ops(m)[..0] == [];
    hide Ops;
  }

  lemma WholeMergeIsARun(r: Directory, m: Plan)
    ensures Legal(Begin(r), m, Nexts(|Ops(m)|))
    ensures Exec(Begin(r), m, Nexts(|Ops(m)|)) == Merging(ApplyAll(r, Ops(m)), r, |Ops(m)|)
  {
    hide *;
    BeginIs(r, m);
    NextsAreOps(r, m, |Ops(m)|, Merging(ApplyAll(r, Ops(m)[..0]), r, 0));
    assert Ops(m)[..0 + |Ops(m)|] == Ops(m);
  }

  lemma EndsPublished(r: Directory, m: Plan)
    requires Planned(r, m)
    ensures PublishedPhase(Merging(ApplyAll(r, Ops(m)), r, |Ops(m)|), m, GoneBy(m, |Ops(m)|))
  {
    hide *;
    OpsWhole(m);
    PhaseAtStart(r, m);
    WholeMergeIsARun(r, m);
    RunKeepsPhase(Begin(r), m, Nexts(|Ops(m)|));
    PhaseAtEnd(Merging(ApplyAll(r, Ops(m)), r, |Ops(m)|), m);
  }

  lemma MergeRan(r: Directory, m: Plan)
    requires Planned(r, m)
    ensures var e := ApplyAll(r, Ops(m));
            && m.final in e && e[m.final] == m.merged && m.final !in r
            && Published(e) == (Published(r) - Elements(m.files)) + {m.final}
  {
    EndsPublished(r, m);
    hide Ops, RowsOf, Clean, Published, IsParquet, HasSuffix, Laid;
    PublishedAfter(Merging(ApplyAll(r, Ops(m)), r, |Ops(m)|), m, GoneBy(m, |Ops(m)|));
  }

  lemma PublishedMeans(d: Directory, n: string)
    ensures n in Published(d) <==> n in d && IsParquet(n)
  {
  }

  /** What is published afterwards, name by name. */
  lemma PublishedByThen(r: Directory, m: Plan, target: nat, n: string)
    requires Planned(r, m) && TakesTheSmall(r, target, m.files)
    ensures n in ApplyAll(r, Ops(m)) && IsParquet(n)
            <==> n == m.final || (n in r && IsParquet(n) && r[n].bytes >= target)
  {
    MergeRan(r, m);
    SmallCount(r, target, m.files);
    PublishedMeans(ApplyAll(r, Ops(m)), n);
    PublishedMeans(r, n);
    hide Ops, Planned, Published, IsParquet;
  }

  lemma SourcesOf(r: Directory, m: Plan, target: nat)
    requires Planned(r, m) && TakesTheSmall(r, target, m.files)
    ensures HasSuffix(m.part, PART_SUFFIX)
    ensures multiset(m.merged.rows) == RowsIn(r, set n | n in r && IsParquet(n) && r[n].bytes < target)
  {
    SmallCount(r, target, m.files);
    hide IsParquet, HasSuffix, Clean;
    RowsOfIsBag(r, m.files);
  }

  lemma MergeLeaves(r: Directory, m: Plan, target: nat)
    requires Planned(r, m) && TakesTheSmall(r, target, m.files)
    ensures OneForTheSmall(r, ApplyAll(r, Ops(m)), target, m.final, m.merged.bytes)
  {
    var e := ApplyAll(r, Ops(m));
    assert Ops(m)[..|Ops(m)|] == Ops(m);
    hide Ops, RowsOf, RowsIn, Planned, Published, IsParquet, HasSuffix, TakesTheSmall;
    MergeRan(r, m);
    SourcesOf(r, m, target);
    forall n ensures n in e && IsParquet(n) <==> n == m.final || (n in r && IsParquet(n) && r[n].bytes >= target) {
      PublishedByThen(r, m, target, n);
    }
    forall n | n in r && IsParquet(n) && r[n].bytes >= target ensures e[n] == r[n] {
      LargeChunkStays(r, m, target, |Ops(m)|, n);
    }
  }

  lemma {:induction false} RemovedAre(files: seq<string>, stuck: set<string>)
    ensures forall n :: n in Removed(files, stuck) <==> n !in stuck && exists f :: f in files && n == Hidden(f)
  {
    if files != [] {
      hide Hidden;
      RemovedAre(files[1..], stuck);
      assert files == [files[0]] + files[1..] && files[0] in files;
      forall n ensures n in Removed(files, stuck) <==> n !in stuck && exists f :: f in files && n == Hidden(f) {
        if f :| f in files[1..] && n == Hidden(f) {
          assert f in files;
        }
      }
    }
  }

  lemma GoneInTheEnd(m: Plan)
    ensures GoneBy(m, |Ops(m)|) == Elements(Removed(m.files, m.stuck))
  {
    var removed := Removed(m.files, m.stuck);
    assert |Ops(m)| == |m.files| + 3 + |removed| && removed[..|removed|] == removed;
    hide Ops, Removed;
  }

  /** What a whole merge leaves, name by name: its sources are gone, each hidden one too
      unless it could not be removed, the result is there, and nothing else has changed. */
  lemma WholeMergeLeaves(r: Directory, m: Plan, n: string)
    requires Planned(r, m)
    ensures var e := ApplyAll(r, Ops(m));
            && (n in e <==> n == m.final || (n in r && n !in m.files)
                            || (n in m.stuck && exists f :: f in m.files && n == Hidden(f)))
            && m.final in e && e[m.final] == m.merged && (n in r && n !in m.files ==> e[n] == r[n])
  {
    var e := ApplyAll(r, Ops(m));
    EndsPublished(r, m);
    MergeRan(r, m);
    GoneInTheEnd(m);
    RemovedAre(m.files, m.stuck);
    AsideIsGood(r, m);
    hide Ops, Planned, IsParquet, HasSuffix, Hidden, Stem, Removed, GoneBy, Published, Clean;
    LaidNames(r, e - {m.final}, m.files, Elements(Removed(m.files, m.stuck)), n);
  }

  lemma LaidNames(base: Directory, d: Directory, files: seq<string>, gone: set<string>, n: string)
    requires Laid(base, d, Elements(files), AsideOf(files), gone)
    ensures n in d <==> (n in base && n !in files) || (n !in gone && exists f :: f in files && n == Hidden(f))
    ensures n in base && n !in files ==> d[n] == base[n]
  {
    hide Hidden;
    if f :| f in files && n == Hidden(f) {
      assert f in Elements(files) && AsideOf(files)[f] == n;
    }
  }

  // ------------------------------------------------------- how often rewritten

  function TotalBytes(d: Directory, names: seq<string>): nat
    requires forall n | n in names :: n in d
  {
    if names == [] then 0 else d[names[0]].bytes + TotalBytes(d, names[1..])
  }

  lemma {:induction false} TotalBytesSplit(d: Directory, a: seq<string>, n: string, b: seq<string>)
    requires forall x | x in a + [n] + b :: x in d
    ensures TotalBytes(d, a + [n] + b) == d[n].bytes + TotalBytes(d, a + b)
  {
    if a == [] {
      assert [] + [n] + b == [n] + b && ([n] + b)[1..] == b && [] + b == b;
    } else {
      assert (a + [n] + b)[0] == a[0] && (a + [n] + b)[1..] == a[1..] + [n] + b;
      assert (a + b)[0] == a[0] && (a + b)[1..] == a[1..] + b;
      TotalBytesSplit(d, a[1..], n, b);
    }
  }

  /** The order of the names does not matter. */
  lemma {:induction false} TotalBytesOfSame(d: Directory, a: seq<string>, b: seq<string>)
    requires Distinct(a) && Distinct(b) && (forall x :: x in a <==> x in b) && forall x | x in a :: x in d
    ensures TotalBytes(d, a) == TotalBytes(d, b)
  {
    if a == [] {
      SameCount(a, b);
    } else {
      assert a[0] in b;
      var j :| 0 <= j < |b| && b[j] == a[0];
      var rest := b[..j] + b[j + 1..];
      assert b == b[..j] + [b[j]] + b[j + 1..];
      TotalBytesSplit(d, b[..j], b[j], b[j + 1..]);
      WithoutOne(a, b, j);
      TotalBytesOfSame(d, a[1..], rest);
    }
  }

  lemma WithoutOne(a: seq<string>, b: seq<string>, j: nat)
    requires Distinct(a) && Distinct(b) && (forall x :: x in a <==> x in b)
    requires a != [] && j < |b| && b[j] == a[0]
    ensures var rest := b[..j] + b[j + 1..];
            Distinct(a[1..]) && Distinct(rest) && forall x :: x in a[1..] <==> x in rest
  {
    var rest := b[..j] + b[j + 1..];
    assert a == [a[0]] + a[1..] && b == b[..j] + [b[j]] + b[j + 1..];
    forall x ensures x in a[1..] <==> x in rest {
      assert x in a <==> x in b;
    }
  }

  /** `chunks` are the published chunks of `d`, named `names`, byte by byte. */
  ghost predicate Weighs(d: Directory, names: seq<string>, chunks: seq<CompactionCost.Chunk>) {
    && |names| == |chunks| && Distinct(names) && (forall n :: n in names <==> n in d && IsParquet(n))
    && SizesAre(d, names, chunks)
  }

  ghost predicate SizesAre(d: Directory, names: seq<string>, chunks: seq<CompactionCost.Chunk>)
    requires |names| == |chunks|
  {
    forall i | 0 <= i < |names| :: names[i] in d && |chunks[i]| == d[names[i]].bytes
  }

  /** The names of the chunks below the target, or of the others. */
  function Below(d: Directory, names: seq<string>, target: nat, small: bool): seq<string>
    requires forall n | n in names :: n in d
  {
    if names == [] then []
    else (if (d[names[0]].bytes < target) == small then [names[0]] else []) + Below(d, names[1..], target, small)
  }

  lemma {:induction false} BelowMembers(d: Directory, names: seq<string>, target: nat, small: bool)
    requires (forall n | n in names :: n in d) && Distinct(names)
    ensures Distinct(Below(d, names, target, small))
    ensures forall n :: n in Below(d, names, target, small) <==> n in names && (d[n].bytes < target) == small
  {
    if names != [] {
      assert names == [names[0]] + names[1..] && names[0] !in names[1..];
      BelowMembers(d, names[1..], target, small);
    }
  }

  /** The small chunks of a sweep are those of the small names. */
  lemma {:induction false} SmallSizes(d: Directory, names: seq<string>, chunks: seq<CompactionCost.Chunk>, target: nat)
    requires |names| == |chunks| && SizesAre(d, names, chunks) && forall n | n in names :: n in d
    ensures var small := Below(d, names, target, true);
            && |CompactionCost.Small(chunks, target)| == |small| && (forall n | n in small :: n in d)
            && |Flat(CompactionCost.Small(chunks, target))| == TotalBytes(d, small)
  {
    if names != [] {
      RestSizes(d, names, chunks);
      SmallSizes(d, names[1..], chunks[1..], target);
      var chunks', names' := CompactionCost.Small(chunks[1..], target), Below(d, names[1..], target, true);
      assert ([chunks[0]] + chunks')[1..] == chunks' && ([names[0]] + names')[1..] == names';
      assert [] + chunks' == chunks' && [] + names' == names';
      hide SizesAre;
    }
  }

  /** And so are the large ones. */
  lemma {:induction false} LargeSizes(d: Directory, names: seq<string>, chunks: seq<CompactionCost.Chunk>, target: nat)
    requires |names| == |chunks| && SizesAre(d, names, chunks) && forall n | n in names :: n in d
    ensures var large := Below(d, names, target, false);
            && |CompactionCost.Large(chunks, target)| == |large|
            && SizesAre(d, large, CompactionCost.Large(chunks, target))
  {
    if names != [] {
      RestSizes(d, names, chunks);
      LargeSizes(d, names[1..], chunks[1..], target);
      SizesJoin(d, names[0], chunks[0], Below(d, names[1..], target, false),
                CompactionCost.Large(chunks[1..], target));
      assert [] + Below(d, names[1..], target, false) == Below(d, names[1..], target, false);
      assert [] + CompactionCost.Large(chunks[1..], target) == CompactionCost.Large(chunks[1..], target);
      hide SizesAre;
    }
  }

  lemma RestSizes(d: Directory, names: seq<string>, chunks: seq<CompactionCost.Chunk>)
    requires names != [] && |names| == |chunks| && SizesAre(d, names, chunks)
    ensures SizesAre(d, names[1..], chunks[1..]) && names[0] in d && |chunks[0]| == d[names[0]].bytes
  {
  }

  lemma SizesJoin(d: Directory, name: string, chunk: CompactionCost.Chunk, names: seq<string>,
                  chunks: seq<CompactionCost.Chunk>)
    requires |names| == |chunks| && SizesAre(d, names, chunks) && name in d && |chunk| == d[name].bytes
    ensures SizesAre(d, [name] + names, [chunk] + chunks)
  {
  }

  /** One change of a directory without crashes: a chunk arrives, or a sweep runs to its
      end, the merged file being as large as its sources together. */
  datatype Change = Arrived(name: string, file: File) | Swept(files: seq<string>, final: string)

  ghost predicate Follows(a: Directory, c: Change, b: Directory, target: nat, maxFiles: nat) {
    match c
    case Arrived(name, file) => IsParquet(name) && name !in a && file.bytes >= 1 && b == a[name := file]
    case Swept(files, final) =>
      && TakesTheSmall(a, target, files)
      && if |files| <= maxFiles then b == a
         else final !in a && OneForTheSmall(a, b, target, final, TotalBytes(a, files))
  }

  lemma SweepWeighs(a: Directory, b: Directory, target: nat, maxFiles: nat, files: seq<string>, final: string,
                    names: seq<string>, chunks: seq<CompactionCost.Chunk>) returns (after: seq<string>)
    requires Weighs(a, names, chunks) && Follows(a, Swept(files, final), b, target, maxFiles)
    ensures Weighs(b, after, CompactionCost.Swept(chunks, target, maxFiles))
  {
    hide IsParquet;
    var small, large := Below(a, names, target, true), Below(a, names, target, false);
    SmallSizes(a, names, chunks, target);
    LargeSizes(a, names, chunks, target);
    BelowMembers(a, names, target, true);
    BelowMembers(a, names, target, false);
    assert forall n :: n in small <==> n in files;
    SameCount(small, files);
    if |files| <= maxFiles {
      after := names;
    } else {
      TotalBytesOfSame(a, small, files);
      after := large + [final];
      hide Below, OneForTheSmall, CompactionCost.Small, CompactionCost.Large;
      SweptSizes(a, b, target, final, TotalBytes(a, files), large, CompactionCost.Large(chunks, target),
                 CompactionCost.Merged(CompactionCost.Small(chunks, target)));
    }
  }

  lemma SameCount(a: seq<string>, b: seq<string>)
    requires Distinct(a) && Distinct(b) && forall x :: x in a <==> x in b
    ensures |a| == |b|
  {
    DistinctCount(a, |a|);
    DistinctCount(b, |b|);
    assert a[..|a|] == a && b[..|b|] == b;
    assert Elements(a) == Elements(b);
  }

  lemma SweptSizes(a: Directory, b: Directory, target: nat, final: string, bytes: nat, large: seq<string>,
                   chunks: seq<CompactionCost.Chunk>, merged: CompactionCost.Chunk)
    requires OneForTheSmall(a, b, target, final, bytes) && final !in a && |merged| == bytes
    requires Distinct(large) && forall n :: n in large <==> n in a && IsParquet(n) && a[n].bytes >= target
    requires |large| == |chunks| && SizesAre(a, large, chunks)
    ensures Weighs(b, large + [final], chunks + [merged])
  {
    hide IsParquet, RowsIn;
    assert final !in large;
    forall i | 0 <= i < |large| ensures large[i] in b && |chunks[i]| == b[large[i]].bytes {
      assert large[i] in large;
    }
  }

  ghost predicate Run(states: seq<Directory>, changes: seq<Change>, target: nat, maxFiles: nat) {
    && |states| == |changes| + 1
    && forall i | 0 <= i < |changes| :: Follows(states[i], changes[i], states[i + 1], target, maxFiles)
  }

  function Acts(changes: seq<Change>): seq<CompactionCost.Act> {
    if changes == [] then []
    else
      var n := |changes| - 1;
      Acts(changes[..n])
      + [match changes[n]
         case Arrived(_, file) => CompactionCost.Arrive(file.bytes)
         case Swept(_, _) => CompactionCost.Sweep]
  }

  lemma ArrivalWeighs(a: Directory, name: string, file: File, names: seq<string>, chunks: seq<CompactionCost.Chunk>)
    requires Weighs(a, names, chunks) && IsParquet(name) && name !in a
    ensures Weighs(a[name := file], names + [name], chunks + [CompactionCost.Unmerged(file.bytes)])
  {
    hide IsParquet;
    assert name !in names;
  }

  /** The cost model follows the directory: over any run its chunks weigh what the
      published chunks weigh. */
  lemma {:induction false} RunWeighs(states: seq<Directory>, changes: seq<Change>, target: nat, maxFiles: nat)
    returns (names: seq<string>)
    requires Run(states, changes, target, maxFiles) && forall n | n in states[0] :: !IsParquet(n)
    ensures CompactionCost.Legal(Acts(changes))
    ensures Weighs(states[|changes|], names, CompactionCost.After([], target, maxFiles, Acts(changes)))
    decreases |changes|
  {
    hide IsParquet, Weighs, OneForTheSmall, TakesTheSmall, CompactionCost.Swept, CompactionCost.Unmerged;
    if changes == [] {
      names := [];
      NothingWeighs(states[0]);
    } else {
      var n := |changes| - 1;
      names := RunWeighs(states[..n + 1], changes[..n], target, maxFiles);
      var acts := Acts(changes[..n]);
      var chunks := CompactionCost.After([], target, maxFiles, acts);
      assert Follows(states[n], changes[n], states[n + 1], target, maxFiles);
      match changes[n]
      case Arrived(name, file) =>
        ArrivalWeighs(states[n], name, file, names, chunks);
        CompactionCost.AfterSnoc([], target, maxFiles, acts, CompactionCost.Arrive(file.bytes));
        names := names + [name];
      case Swept(files, final) =>
        CompactionCost.AfterSnoc([], target, maxFiles, acts, CompactionCost.Sweep);
        names := SweepWeighs(states[n], states[n + 1], target, maxFiles, files, final, names, chunks);
    }
  }

  lemma NothingWeighs(d: Directory)
    requires forall n | n in d :: !IsParquet(n)
    ensures Weighs(d, [], [])
  {
    hide IsParquet;
  }

  /** Over any run of a directory each byte of each published chunk can be told how many
      merges it has been through, and that is at most `ceil(target / maxFiles)`. */
  lemma ChunksAreRarelyRewritten(states: seq<Directory>, changes: seq<Change>, target: nat, maxFiles: nat)
    returns (names: seq<string>, chunks: seq<CompactionCost.Chunk>)
    requires Run(states, changes, target, maxFiles) && (forall n | n in states[0] :: !IsParquet(n)) && maxFiles >= 1
    ensures chunks == CompactionCost.After([], target, maxFiles, Acts(changes))
    ensures Weighs(states[|changes|], names, chunks)
    ensures forall c, i | c in chunks && 0 <= i < |c| :: c[i] <= (target + maxFiles - 1) / maxFiles
  {
    names := RunWeighs(states, changes, target, maxFiles);
    chunks := CompactionCost.After([], target, maxFiles, Acts(changes));
    forall c, i | c in chunks && 0 <= i < |c| ensures c[i] <= (target + maxFiles - 1) / maxFiles {
      CompactionCost.WriteAmplificationIsBounded(target, maxFiles, Acts(changes), c, i);
    }
  }
}
