/**
 When crashes are safe too. What a crash can take is what was never synced: rows
 replayed from the unsynced end of a file. They are flushed or shed as one batch,
 the oldest of the boot, so afterwards everything staged is on disk for good.
 */
module Crashes {
  import opened Seqs
  import opened Records
  import opened WritePath
  import opened LogInvariant
  import opened WriteRuns
  import opened ZeroLoss
  import opened Shedding

  const ANY_STATUS := {Leftover, Counted, Acked}

  lemma StatusIsAny(status: Status)
    ensures status in ANY_STATUS
  {
    match status
    case Leftover =>
    case Counted =>
    case Acked =>
  }

  lemma {:induction false} PickAny(es: seq<Entry>)
    ensures Pick(es, ANY_STATUS) == RecordsOf(es)
  {
    if es == [] {
      assert RecordsOf(es) == [];
    } else {
      PickAny(es[1..]);
      StatusIsAny(es[0].status);
      assert RecordsOf(es) == [es[0].record] + RecordsOf(es[1..]);
    }
  }

  /** What no crash can take. */
  function Synced(segment: Segment): Segment {
    Cut(segment, Min(segment.synced, |segment.entries|))
  }

  function SyncedPart(dir: Dir): Dir {
    Dir(map k | k in dir.files :: Synced(dir.files[k]), Synced(dir.active))
  }

  /** Every acknowledged record is in Parquet or in the synced part of the log. */
  ghost predicate SyncedCovered(s: State) {
    s.acked <= s.parquet + multiset(ReplayAll(SyncedPart(s.dir)))
  }

  // ------------------------------------------------------------ comparing logs

  lemma ReplayBag(dir: Dir)
    ensures multiset(ReplayAll(dir)) == Bag(DiskLog(dir), ANY_STATUS)
  {
    PickAny(DiskLog(dir));
  }

  ghost predicate LessAt(files: map<nat, Segment>, v: set<Status>, other: map<nat, Segment>, w: set<Status>, k: nat) {
    Bag(EntriesAt(files, k), v) <= Bag(EntriesAt(other, k), w)
  }

  lemma {:induction false} BelowLess(files: map<nat, Segment>, v: set<Status>, other: map<nat, Segment>, w: set<Status>,
                                     n: nat)
    requires forall k: nat :: LessAt(files, v, other, w, k)
    ensures Bag(LogBelow(files, n), v) <= Bag(LogBelow(other, n), w)
  {
    hide Bag, Pick, EntriesAt;
    if n == 0 {
      NoEntries(v);
    } else {
      BelowLess(files, v, other, w, n - 1);
      assert LessAt(files, v, other, w, n - 1);
      BagBelowStep(files, n, v);
      BagBelowStep(other, n, w);
      BagsAdd(Bag(LogBelow(files, n - 1), v), Bag(EntriesAt(files, n - 1), v),
              Bag(LogBelow(other, n - 1), w), Bag(EntriesAt(other, n - 1), w));
    }
  }

  lemma NoEntries(want: set<Status>)
    ensures Bag([], want) == multiset{}
  {
  }

  /** File by file less is less in all. */
  lemma DiskLess(dir: Dir, v: set<Status>, other: Dir, w: set<Status>)
    requires dir.files.Keys == other.files.Keys && Bag(dir.active.entries, v) <= Bag(other.active.entries, w)
    requires forall k: nat :: LessAt(dir.files, v, other.files, w, k)
    ensures Bag(DiskLog(dir), v) <= Bag(DiskLog(other), w)
  {
    hide Bag, Pick, LogBelow, DiskLog, LessAt;
    var n := NextSeq(dir.files.Keys);
    BelowLess(dir.files, v, other.files, w, n);
    BagOfDisk(dir, n, v);
    BagOfDisk(other, n, w);
    BagsAdd(Bag(LogBelow(dir.files, n), v), Bag(dir.active.entries, v),
            Bag(LogBelow(other.files, n), w), Bag(other.active.entries, w));
  }

  /** The same records file by file replay the same. */
  lemma SameReplay(dir: Dir, other: Dir)
    requires dir.files.Keys == other.files.Keys && RecordsOf(dir.active.entries) == RecordsOf(other.active.entries)
    requires forall k | k in dir.files :: RecordsOf(dir.files[k].entries) == RecordsOf(other.files[k].entries)
    ensures ReplayAll(dir) == ReplayAll(other)
  {
    PickAny(dir.active.entries);
    PickAny(other.active.entries);
    forall k | k in dir.files
      ensures Pick(dir.files[k].entries, ANY_STATUS) == Pick(other.files[k].entries, ANY_STATUS)
    {
      PickAny(dir.files[k].entries);
      PickAny(other.files[k].entries);
    }
    hide Pick, RecordsOf, DiskLog;
    DiskLogSamePick(dir, other, ANY_STATUS);
    PickAny(DiskLog(dir));
    PickAny(DiskLog(other));
  }

  lemma PrefixLess(es: seq<Entry>, n: nat, want: set<Status>)
    requires n <= |es|
    ensures Bag(es[..n], want) <= Bag(es, want)
  {
    assert es == es[..n] + es[n..];
    hide Bag;
    BagAppend(es[..n], es[n..], want);
  }

  lemma SyncedWithin(dir: Dir)
    ensures multiset(ReplayAll(SyncedPart(dir))) <= multiset(ReplayAll(dir))
  {
    forall k: nat ensures LessAt(SyncedPart(dir).files, ANY_STATUS, dir.files, ANY_STATUS, k) {
      if k in dir.files {
        PrefixLess(dir.files[k].entries, Min(dir.files[k].synced, |dir.files[k].entries|), ANY_STATUS);
      }
      hide Bag;
    }
    PrefixLess(dir.active.entries, Min(dir.active.synced, |dir.active.entries|), ANY_STATUS);
    hide Bag, LessAt;
    DiskLess(SyncedPart(dir), ANY_STATUS, dir, ANY_STATUS);
    ReplayBag(dir);
    ReplayBag(SyncedPart(dir));
  }

  /** Acknowledged records lie in the synced part. */
  lemma AckedIsSynced(segment: Segment)
    requires SegmentOk(segment)
    ensures Bag(segment.entries, {Acked}) <= Bag(Synced(segment).entries, ANY_STATUS)
  {
    var es, n := segment.entries, segment.synced;
    assert es == es[..n] + es[n..];
    BagAppend(es[..n], es[n..], {Acked});
    PickWithin(es[..n], {Acked});
    PickAny(es[..n]);
    hide Pick, RecordsOf;
  }

  lemma AckedAreSynced(dir: Dir)
    requires SegmentsOk(dir)
    ensures Bag(DiskLog(dir), {Acked}) <= multiset(ReplayAll(SyncedPart(dir)))
  {
    var part := SyncedPart(dir);
    hide Bag, Pick, SegmentOk, Synced;
    forall k: nat ensures LessAt(dir.files, {Acked}, part.files, ANY_STATUS, k) {
      if k in dir.files {
        AckedIsSynced(dir.files[k]);
      } else {
        NoEntries({Acked});
      }
    }
    AckedIsSynced(dir.active);
    hide LessAt;
    DiskLess(dir, {Acked}, part, ANY_STATUS);
    ReplayBag(part);
  }

  // -------------------------------------------- new rows are acknowledged ones

  function Part(counted: seq<LogRecord>, a: int, b: int): seq<LogRecord> {
    if 0 <= a <= b <= |counted| then counted[a..b] else []
  }

  /** Listed segment `i` holds the part of its slice beyond `b` as acknowledged. */
  ghost predicate FileAcked(sealed: seq<Sealed>, files: map<nat, Segment>, counted: seq<LogRecord>, released: nat,
                            b: nat, i: nat)
    requires i < |sealed|
  {
    sealed[i].seqNo in files ==>
      multiset(Part(counted, Max(b, Start(sealed, released, i)), Max(b, sealed[i].cumulative)))
      <= Bag(files[sealed[i].seqNo].entries, {Acked})
  }

  /** So does every listed segment, and the active file. */
  ghost predicate NewAcked(sealed: seq<Sealed>, dir: Dir, counted: seq<LogRecord>, released: nat, b: nat) {
    && b <= |counted|
    && (forall i | 0 <= i < |sealed| :: FileAcked(sealed, dir.files, counted, released, b, i))
    && multiset(Part(counted, Max(b, Start(sealed, released, |sealed|)), |counted|)) <= Bag(dir.active.entries, {Acked})
  }

  lemma PartOfLonger(counted: seq<LogRecord>, rows: seq<LogRecord>, a: int, b: int)
    ensures 0 <= b <= |counted| ==> Part(counted + rows, a, b) == Part(counted, a, b)
    ensures 0 <= a <= |counted| ==> Part(counted + rows, a, |counted + rows|) == Part(counted, a, |counted|) + rows
  {
  }

  lemma AddRows(a: multiset<LogRecord>, b: multiset<LogRecord>, rows: multiset<LogRecord>)
    requires a <= b
    ensures a + rows <= b + rows
  {
  }

  lemma CommitActive(dir: Dir, counted: seq<LogRecord>, a: nat, rows: seq<LogRecord>)
    requires a <= |counted| && multiset(Part(counted, a, |counted|)) <= Bag(dir.active.entries, {Acked})
    ensures multiset(Part(counted + rows, a, |counted + rows|)) <= Bag(dir.active.entries + Tag(rows, Acked), {Acked})
  {
    PartOfLonger(counted, rows, a, a);
    BagAppend(dir.active.entries, Tag(rows, Acked), {Acked});
    PickTag(rows, Acked, {Acked});
    hide Part, Pick;
    AddRows(multiset(Part(counted, a, |counted|)), Bag(dir.active.entries, {Acked}), multiset(rows));
  }

  lemma CommitKeepsNew(wal: Wal, dir: Dir, counted: seq<LogRecord>, released: nat, b: nat, rows: seq<LogRecord>,
                       io: CommitIo)
    requires LogInv(wal, dir, counted, released) && NewAcked(wal.sealed, dir, counted, released, b)
    requires io.Failed? ==> io.kept <= |rows|
    ensures var (wal', dir', ok) := Commit(wal, dir, rows, io);
            NewAcked(wal'.sealed, dir', if ok then counted + rows else counted, released, b)
  {
    var (wal', dir', ok) := Commit(wal, dir, rows, io);
    var last := Start(wal.sealed, released, |wal.sealed|);
    BagsOfTag(dir.active.entries, if io.Failed? then rows[..io.kept] else []);
    hide Bag, Part, Pick;
    if ok {
      CommitActive(dir, counted, Max(b, last), rows);
      hide Commit, Start, FileAcked, Listed;
      forall i | 0 <= i < |wal.sealed| ensures FileAcked(wal.sealed, dir.files, counted + rows, released, b, i) {
        assert Listed(wal.sealed, dir, counted, released, i);
        CommitFile(wal.sealed, dir, counted, released, b, i, rows);
      }
    }
  }

  lemma CommitFile(sealed: seq<Sealed>, dir: Dir, counted: seq<LogRecord>, released: nat, b: nat, i: nat,
                   rows: seq<LogRecord>)
    requires i < |sealed| && b <= |counted| && Listed(sealed, dir, counted, released, i)
    requires FileAcked(sealed, dir.files, counted, released, b, i)
    ensures FileAcked(sealed, dir.files, counted + rows, released, b, i)
  {
    PartOfLonger(counted, rows, Max(b, Start(sealed, released, i)), Max(b, sealed[i].cumulative));
    hide Bag, Part, Pick, Start;
  }

  lemma BagsOfTag(es: seq<Entry>, rows: seq<LogRecord>)
    ensures Bag(es + Tag(rows, Leftover), {Acked}) == Bag(es, {Acked})
  {
    BagAppend(es, Tag(rows, Leftover), {Acked});
    PickTag(rows, Leftover, {Acked});
  }

  lemma StartOfLonger(sealed: seq<Sealed>, more: seq<Sealed>, released: nat, i: nat)
    requires i <= |sealed|
    ensures Start(sealed + more, released, i) == Start(sealed, released, i)
  {
  }

  lemma NothingNew(counted: seq<LogRecord>)
    ensures Part(counted, |counted|, |counted|) == []
  {
  }

  /** `dir'` is `dir` after the active file was sealed as `last`. */
  ghost predicate SealedAs(sealed: seq<Sealed>, last: Sealed, dir: Dir, dir': Dir) {
    && (forall i | 0 <= i < |sealed| :: sealed[i].seqNo != last.seqNo)
    && (last.seqNo in dir'.files ==> dir'.files[last.seqNo].entries == dir.active.entries)
    && forall k | k in dir'.files && k != last.seqNo :: k in dir.files && dir'.files[k] == dir.files[k]
  }

  lemma SealIs(wal: Wal, dir: Dir, counted: seq<LogRecord>, released: nat, rows: nat, io: RotateIo)
    requires LogInv(wal, dir, counted, released)
    ensures var ((wal', dir'), last) := (Seal(wal, dir, rows, io), Sealed(wal.nextSeq, wal.cumulative));
            if wal.open && io.renamed then
              && wal'.sealed == wal.sealed + [last] && last.cumulative == |counted|
              && SealedAs(wal.sealed, last, dir, dir')
            else wal'.sealed == wal.sealed && dir'.files == dir.files && dir'.active.entries == dir.active.entries
  {
    hide Pick, SegmentsOk, Start;
    forall i | 0 <= i < |wal.sealed| ensures wal.sealed[i].seqNo != wal.nextSeq {
      assert Listed(wal.sealed, dir, counted, released, i);
    }
  }

  lemma FileBeforeSeal(sealed: seq<Sealed>, last: Sealed, dir: Dir, dir': Dir, counted: seq<LogRecord>, released: nat,
                       b: nat, i: nat)
    requires i < |sealed| && FileAcked(sealed, dir.files, counted, released, b, i) && SealedAs(sealed, last, dir, dir')
    ensures FileAcked(sealed + [last], dir'.files, counted, released, b, i)
  {
    StartOfLonger(sealed, [last], released, i);
    hide Start, Part, Bag;
  }

  lemma SealedFileIsActive(sealed: seq<Sealed>, last: Sealed, dir: Dir, dir': Dir, counted: seq<LogRecord>,
                           released: nat, b: nat)
    requires NewAcked(sealed, dir, counted, released, b) && SealedAs(sealed, last, dir, dir')
    requires last.cumulative == |counted|
    ensures b <= |counted| && FileAcked(sealed + [last], dir'.files, counted, released, b, |sealed|)
  {
    StartOfLonger(sealed, [last], released, |sealed|);
    hide Start, Part, Bag;
  }

  /** Behind a segment that holds the counted log to its end there is nothing new. */
  lemma NothingAfterAll(sealed: seq<Sealed>, last: Sealed, counted: seq<LogRecord>, released: nat, b: nat,
                        active: seq<Entry>)
    requires b <= |counted| && last.cumulative == |counted|
    ensures multiset(Part(counted, Max(b, Start(sealed + [last], released, |sealed + [last]|)), |counted|))
            <= Bag(active, {Acked})
  {
    NothingNew(counted);
    hide Bag, Part;
    assert (sealed + [last])[|sealed|] == last;
  }

  lemma NewAfterSeal(sealed: seq<Sealed>, last: Sealed, dir: Dir, dir': Dir, counted: seq<LogRecord>, released: nat,
                     b: nat)
    requires NewAcked(sealed, dir, counted, released, b) && SealedAs(sealed, last, dir, dir')
    requires last.cumulative == |counted|
    ensures NewAcked(sealed + [last], dir', counted, released, b)
  {
    hide SealedAs, FileAcked, Start, Part, Bag;
    SealedFileIsActive(sealed, last, dir, dir', counted, released, b);
    NothingAfterAll(sealed, last, counted, released, b, dir'.active.entries);
    forall i | 0 <= i < |sealed + [last]| ensures FileAcked(sealed + [last], dir'.files, counted, released, b, i) {
      if i < |sealed| {
        FileBeforeSeal(sealed, last, dir, dir', counted, released, b, i);
      }
    }
  }

  lemma SameEntriesSameNew(sealed: seq<Sealed>, dir: Dir, dir': Dir, counted: seq<LogRecord>, released: nat, b: nat)
    requires NewAcked(sealed, dir, counted, released, b)
    requires dir'.files == dir.files && dir'.active.entries == dir.active.entries
    ensures NewAcked(sealed, dir', counted, released, b)
  {
    hide FileAcked, Start, Part, Bag;
  }

  lemma SealKeepsNew(wal: Wal, dir: Dir, counted: seq<LogRecord>, released: nat, b: nat, rows: nat, io: RotateIo)
    requires LogInv(wal, dir, counted, released) && NewAcked(wal.sealed, dir, counted, released, b)
    ensures var (wal', dir') := Seal(wal, dir, rows, io); NewAcked(wal'.sealed, dir', counted, released, b)
  {
    hide *;
    var (wal', dir') := Seal(wal, dir, rows, io);
    SealIs(wal, dir, counted, released, rows, io);
    if wal.open && io.renamed {
      NewAfterSeal(wal.sealed, Sealed(wal.nextSeq, wal.cumulative), dir, dir', counted, released, b);
    } else {
      SameEntriesSameNew(wal.sealed, dir, dir', counted, released, b);
    }
  }

  lemma FileAckedAfterDrop(sealed: seq<Sealed>, files: map<nat, Segment>, left: map<nat, Segment>,
                           counted: seq<LogRecord>, released: nat, b: nat, n: nat, i: nat)
    requires n + i < |sealed| && FileAcked(sealed, files, counted, released, b, n + i)
    requires forall k | k in left :: k in files && left[k] == files[k]
    ensures FileAcked(sealed[n..], left, counted, Start(sealed, released, n), b, i)
  {
    StartAfterDrop(sealed, released, n, i);
    hide Bag, Part, Start;
  }

  /** What reclaiming leaves of the list and of the files. */
  lemma ReclaimLeaves(wal: Wal, dir: Dir, stuck: set<nat>)
    ensures var (wal', dir') := Reclaim(wal, dir, stuck);
            && wal'.sealed == wal.sealed[Reclaimable(wal.sealed, wal.confirmed)..] && dir'.active == dir.active
            && (forall k | k in dir'.files :: k in dir.files && dir'.files[k] == dir.files[k])
  {
  }

  lemma FilesAfterDrop(sealed: seq<Sealed>, files: map<nat, Segment>, left: map<nat, Segment>,
                       counted: seq<LogRecord>, released: nat, b: nat, n: nat)
    requires n <= |sealed| && forall k | k in left :: k in files && left[k] == files[k]
    requires forall i | 0 <= i < |sealed| :: FileAcked(sealed, files, counted, released, b, i)
    ensures forall i | 0 <= i < |sealed[n..]| ::
              FileAcked(sealed[n..], left, counted, Start(sealed, released, n), b, i)
  {
    hide Start, FileAcked;
    forall i | 0 <= i < |sealed[n..]|
      ensures FileAcked(sealed[n..], left, counted, Start(sealed, released, n), b, i)
    {
      assert FileAcked(sealed, files, counted, released, b, n + i);
      FileAckedAfterDrop(sealed, files, left, counted, released, b, n, i);
    }
  }

  lemma ReclaimKeepsNew(wal: Wal, dir: Dir, counted: seq<LogRecord>, released: nat, b: nat, stuck: set<nat>)
    requires NewAcked(wal.sealed, dir, counted, released, b)
    ensures var (wal', dir') := Reclaim(wal, dir, stuck);
            NewAcked(wal'.sealed, dir', counted, Start(wal.sealed, released, Reclaimable(wal.sealed, wal.confirmed)), b)
  {
    var n := Reclaimable(wal.sealed, wal.confirmed);
    hide Reclaim, Bag, Part, Start, FileAcked;
    ReclaimLeaves(wal, dir, stuck);
    StartAfterDrop(wal.sealed, released, n, |wal.sealed| - n);
    FilesAfterDrop(wal.sealed, dir.files, Reclaim(wal, dir, stuck).1.files, counted, released, b, n);
  }

  lemma ConfirmKeepsNew(wal: Wal, dir: Dir, counted: seq<LogRecord>, released: nat, b: nat, rows: nat, io: RotateIo,
                        stuck: set<nat>)
    requires LogInv(wal, dir, counted, released) && NewAcked(wal.sealed, dir, counted, released, b)
    ensures var (wal', dir') := Confirm(wal, dir, rows, io, stuck);
            NewAcked(wal'.sealed, dir', counted, ReleasedBy(wal, dir, rows, io, released), b)
  {
    hide LogInv, NewAcked, Seal, Reclaim;
    SealKeepsNew(wal, dir, counted, released, b, rows, io);
    var (sealing, dir1) := Seal(wal, dir, rows, io);
    ReclaimKeepsNew(sealing, dir1, counted, released, b, stuck);
  }

  /** The part of the counted log beyond `b` is on disk as acknowledged. */
  lemma {:induction false} NewOnDisk(wal: Wal, dir: Dir, counted: seq<LogRecord>, released: nat, b: nat, i: nat)
    requires LogInv(wal, dir, counted, released) && NewAcked(wal.sealed, dir, counted, released, b) && i <= |wal.sealed|
    ensures PrefixOnDisk(dir.files, EndOfListed(wal.sealed, i), counted, Max(b, released),
                         Max(b, Start(wal.sealed, released, i)), {Acked})
  {
    hide *;
    MaxIsNat(b, released);
    ReleasedIsCounted(wal, dir, counted, released);
    NewWithin(wal.sealed, dir, counted, released, b);
    if i == 0 {
      MaxWithin(b, released, |counted|);
      NothingOnDisk(dir.files, counted, Max(b, released), {Acked});
    } else {
      NewOnDisk(wal, dir, counted, released, b, i - 1);
      ListedSlice(wal, dir, counted, released, i - 1);
      var start, end := Start(wal.sealed, released, i - 1), wal.sealed[i - 1].cumulative;
      MaxIsNat(b, start);
      MaxIsNat(b, end);
      MaxWithin(b, end, |counted|);
      MaxGrows(b, start, end);
      NewInFile(wal, dir, counted, released, b, i - 1);
      NextOnDisk(dir.files, EndOfListed(wal.sealed, i - 1), wal.sealed[i - 1].seqNo, counted, Max(b, released),
                 Max(b, start), Max(b, end), {Acked});
    }
  }

  lemma MaxIsNat(a: nat, b: nat)
    ensures Max(a, b) >= a && Max(a, b) >= b
  {
  }

  lemma MaxWithin(a: nat, b: nat, c: nat)
    requires a <= c && b <= c
    ensures Max(a, b) <= c
  {
  }

  lemma MaxGrows(a: nat, b: nat, c: nat)
    requires b <= c
    ensures Max(a, b) <= Max(a, c)
  {
  }

  lemma NewWithin(sealed: seq<Sealed>, dir: Dir, counted: seq<LogRecord>, released: nat, b: nat)
    requires NewAcked(sealed, dir, counted, released, b)
    ensures b <= |counted|
  {
    hide FileAcked, Bag, Part;
  }

  lemma NewInFile(wal: Wal, dir: Dir, counted: seq<LogRecord>, released: nat, b: nat, i: nat)
    requires LogInv(wal, dir, counted, released) && NewAcked(wal.sealed, dir, counted, released, b) && i < |wal.sealed|
    ensures var from, to := Max(b, Start(wal.sealed, released, i)), Max(b, wal.sealed[i].cumulative);
            0 <= from <= to <= |counted|
            && multiset(counted[from..to]) <= Bag(EntriesAt(dir.files, wal.sealed[i].seqNo), {Acked})
  {
    assert FileAcked(wal.sealed, dir.files, counted, released, b, i) && Listed(wal.sealed, dir, counted, released, i);
    hide Pick, Start;
  }

  lemma PartToEnd(counted: seq<LogRecord>, a: nat)
    requires a <= |counted|
    ensures Part(counted, a, |counted|) == counted[a..]
  {
  }

  lemma ActiveIsAcked(sealed: seq<Sealed>, dir: Dir, counted: seq<LogRecord>, released: nat, b: nat)
    requires NewAcked(sealed, dir, counted, released, b)
    ensures b <= |counted|
    ensures multiset(Part(counted, Max(b, Start(sealed, released, |sealed|)), |counted|))
            <= Bag(dir.active.entries, {Acked})
  {
    hide Start, FileAcked, Part, Bag;
  }

  lemma NewInActive(wal: Wal, dir: Dir, counted: seq<LogRecord>, released: nat, b: nat)
    requires LogInv(wal, dir, counted, released) && NewAcked(wal.sealed, dir, counted, released, b)
    ensures var from := Max(b, Start(wal.sealed, released, |wal.sealed|));
            0 <= from <= |counted| && multiset(counted[from..]) <= Bag(dir.active.entries, {Acked})
    ensures EndOfListed(wal.sealed, |wal.sealed|) <= wal.nextSeq && forall k | k in dir.files :: k < wal.nextSeq
  {
    hide *;
    var start := Start(wal.sealed, released, |wal.sealed|);
    ActiveSlice(wal, dir, counted, released);
    ActiveIsAcked(wal.sealed, dir, counted, released, b);
    MaxIsNat(b, start);
    MaxWithin(b, start, |counted|);
    PartToEnd(counted, Max(b, start));
  }

  lemma NewIsAcked(wal: Wal, dir: Dir, counted: seq<LogRecord>, released: nat, b: nat)
    requires LogInv(wal, dir, counted, released) && NewAcked(wal.sealed, dir, counted, released, b)
    ensures 0 <= Max(b, released) <= |counted|
    ensures multiset(counted[Max(b, released)..]) <= Bag(DiskLog(dir), {Acked})
  {
    hide *;
    var last := |wal.sealed|;
    MaxIsNat(b, released);
    NewOnDisk(wal, dir, counted, released, b, last);
    NewInActive(wal, dir, counted, released, b);
    DiskHoldsBoth(dir, wal.nextSeq, EndOfListed(wal.sealed, last), counted, Max(b, released),
                  Max(b, Start(wal.sealed, released, last)), {Acked});
  }

  // ------------------------------------------- what a boot replayed comes first

  /** The first `b` counted rows were replayed at boot. Either they have left the stages,
      or they are one batch, the oldest there is, and nothing has left the stages. */
  ghost predicate Boot(s: State, b: nat) {
    && NewAcked(s.wal.sealed, s.dir, s.counted, s.released, b)
    && (b <= Passed(s) || (Passed(s) == 0 && s.signals == [] && OldestIs(s.inflight + s.live, b)))
  }

  predicate OldestIs(batches: seq<seq<LogRecord>>, b: nat) {
    batches != [] && |batches[0]| == b
  }

  ghost predicate Booted(s: State) {
    exists b: nat :: Boot(s, b)
  }

  lemma FirstIsPart(batches: seq<seq<LogRecord>>, b: nat)
    requires OldestIs(batches, b)
    ensures |Flat(batches)| >= b
  {
  }

  lemma ShedsTheOldest(batches: seq<seq<LogRecord>>, cap: nat, b: nat)
    requires OldestIs(batches, b) && Rows(batches) > cap
    ensures |ShedRows(batches, cap)| >= b
  {
  }

  lemma SameBoot(s: State, t: State, b: nat)
    requires Boot(s, b) && t.wal == s.wal && t.dir == s.dir && t.counted == s.counted && t.released == s.released
    requires Passed(t) == Passed(s) && (s.signals == [] ==> t.signals == [])
    requires OldestIs(s.inflight + s.live, b) ==> OldestIs(t.inflight + t.live, b)
    ensures Boot(t, b)
  {
    hide NewAcked, Passed, OldestIs;
  }

  lemma AppendBoots(s: State, e: Event, cap: nat, b: nat)
    requires Up(s) && Boot(s, b) && e.Append? && Enabled(s, e)
    ensures Boot(Step(s, e, cap), b)
  {
    hide Flat, NewAcked, Commit, LogInv, OldestIs, DiskLog, Bag, Aligned;
    CommitKeepsNew(s.wal, s.dir, s.counted, s.released, b, Flat(e.batches), e.commit);
    CommitCountsOnly(s.wal, s.dir, Flat(e.batches), e.commit);
  }

  lemma CommitCountsOnly(wal: Wal, dir: Dir, rows: seq<LogRecord>, io: CommitIo)
    requires io.Failed? ==> io.kept <= |rows|
    ensures Commit(wal, dir, rows, io).0.confirmed == wal.confirmed
  {
  }

  lemma ConfirmedBoots(s: State, e: Event, cap: nat, b: nat)
    requires Up(s) && Boot(s, b) && e.Confirmed? && Enabled(s, e)
    ensures b <= Passed(s) && Passed(Step(s, e, cap)) == Passed(s) && Boot(Step(s, e, cap), b)
  {
    hide NewAcked, Confirm, ReleasedBy, LogInv, OldestIs, DiskLog, Bag, Aligned;
    ConfirmKeepsNew(s.wal, s.dir, s.counted, s.released, b, s.signals[0], e.rotate, e.stuck);
    ConfirmCounts(s.wal, s.dir, s.signals[0], e.rotate, e.stuck);
  }

  lemma ConfirmCounts(wal: Wal, dir: Dir, rows: nat, io: RotateIo, stuck: set<nat>)
    ensures Confirm(wal, dir, rows, io, stuck).0.confirmed == wal.confirmed + rows
  {
  }

  lemma MovingBoots(s: State, e: Event, cap: nat, b: nat)
    requires Boot(s, b) && Enabled(s, e) && (e.Receive? || e.Push? || e.BeginFlush? || e.WalExit?)
    ensures Boot(Step(s, e, cap), b)
  {
    hide Flat, NewAcked;
    var t := Step(s, e, cap);
    if e.BeginFlush? {
      assert [] + s.live == s.live && s.live + [] == s.live;
    } else if e.Push? {
      assert s.inflight + (s.live + [s.table]) == s.inflight + s.live + [s.table];
    }
    SameBoot(s, t, b);
  }

  lemma FlushDoneBoots(s: State, e: Event, cap: nat, b: nat)
    requires Boot(s, b) && e.FlushDone? && Enabled(s, e)
    ensures Boot(Step(s, e, cap), b)
  {
    FlushDoneStages(s, cap);
    FlushDoneLeaves(s, cap);
    hide Flat, Sum, NewAcked, Passed, Staged, Step, Enabled;
    if b > Passed(s) {
      FirstIsPart(s.inflight, b);
    }
  }

  lemma FlushDoneLeaves(s: State, cap: nat)
    requires Enabled(s, FlushDone)
    ensures s.inflight != [] && forall b :: OldestIs(s.inflight + s.live, b) ==> OldestIs(s.inflight, b)
    ensures var t := Step(s, FlushDone, cap);
            t.wal == s.wal && t.dir == s.dir && t.counted == s.counted && t.released == s.released
  {
    hide Flat;
  }

  lemma FlushFailedBoots(s: State, e: Event, cap: nat, b: nat)
    requires Boot(s, b) && e.FlushFailed? && Enabled(s, e)
    ensures Boot(Step(s, e, cap), b)
  {
    var batches := s.inflight + s.live;
    TrimSplits(batches, cap);
    if Rows(batches) > cap && b > Passed(s) {
      ShedsTheOldest(batches, cap, b);
    }
    assert [] + Trim(batches, cap) == Trim(batches, cap);
    hide Flat, Trim, ShedRows, NewAcked, Sum, OldestIs;
  }

  lemma StepBoots(s: State, e: Event, cap: nat, b: nat)
    requires Up(s) && !s.phase.Down? && Boot(s, b) && Enabled(s, e) && !e.Crash?
    ensures Boot(Step(s, e, cap), b)
  {
    hide *;
    UpIsNotRestarted(s, e);
    if e.Append? {
      AppendBoots(s, e, cap, b);
    } else if e.Confirmed? {
      ConfirmedBoots(s, e, cap, b);
    } else if e.FlushDone? {
      FlushDoneBoots(s, e, cap, b);
    } else if e.FlushFailed? {
      FlushFailedBoots(s, e, cap, b);
    } else {
      MovingBoots(s, e, cap, b);
    }
  }

  lemma NothingNewAtBoot(sealed: seq<Sealed>, dir: Dir, counted: seq<LogRecord>)
    requires forall i | 0 <= i < |sealed| :: sealed[i].cumulative <= |counted|
    ensures NewAcked(sealed, dir, counted, 0, |counted|)
  {
    NothingNew(counted);
    forall i | 0 <= i < |sealed| ensures FileAcked(sealed, dir.files, counted, 0, |counted|, i) {
      if i > 0 {
        assert sealed[i - 1].cumulative <= |counted|;
      }
    }
    if sealed != [] {
      assert sealed[|sealed| - 1].cumulative <= |counted|;
    }
    hide Bag, FileAcked;
  }

  lemma FreshFields(s: State, e: Event, cap: nat)
    requires Inv(s) && e.Restart? && Enabled(s, e)
    ensures var t := Step(s, e, cap);
            && t.released == 0 && t.signals == [] && t.inflight == [] && t.lost == 0 && t.dropped == 0
            && t.wal == Reopen(t.dir, e.writable) && t.counted == ReplayAll(t.dir)
            && t.live == (if t.counted == [] then [] else [t.counted])
            && t.table == [] && t.handoff == [] && t.phase.Running? && t.acked == s.acked && t.parquet == s.parquet
  {
    hide ReplayAll, Reopen, Promote, Pick, DiskLog, Bag, SegmentsOk;
  }

  lemma PassedIs(s: State)
    requires s.wal.confirmed == 0 && s.signals == [] && s.lost == 0 && s.dropped == 0
    ensures Passed(s) == 0
  {
  }

  lemma RestartBoots(s: State, e: Event, cap: nat)
    requires Inv(s) && e.Restart? && Enabled(s, e)
    ensures Boot(Step(s, e, cap), |Step(s, e, cap).counted|)
  {
    RestartKeeps(s, e, cap);
    FreshFields(s, e, cap);
    hide Step, Enabled, Inv;
    var t := Step(s, e, cap);
    CumulativesBounded(t);
    ReopenConfirmsNothing(t.dir, e.writable);
    PassedIs(t);
    hide Up, Reopen, ReplayAll, NewAcked, Passed;
    NothingNewAtBoot(t.wal.sealed, t.dir, t.counted);
    assert [] + t.live == t.live;
  }

  // -------------------------------------------------- what every run keeps

  lemma StagedIsSynced(s: State, b: nat)
    requires Up(s) && Boot(s, b) && b <= Passed(s)
    ensures multiset(Staged(s)) <= multiset(ReplayAll(SyncedPart(s.dir)))
  {
    ReleasedBeforePassed(s);
    UpSegments(s);
    hide Bag, LogInv, DiskLog, NewAcked, Passed, Staged, ReplayAll, SyncedPart, SegmentsOk;
    NewIsAcked(s.wal, s.dir, s.counted, s.released, b);
    EndOfLog(s.counted, Max(b, s.released), Passed(s), Bag(DiskLog(s.dir), {Acked}));
    AckedAreSynced(s.dir);
  }

  lemma UpSegments(s: State)
    requires Up(s)
    ensures SegmentsOk(s.dir)
  {
    hide Pick, DiskLog, Bag, SegmentsOk;
  }

  /** Safe whatever comes without shedding. */
  ghost predicate Safe(s: State) {
    SyncedCovered(s) && (s.phase.Down? || (Up(s) && Booted(s) && Covered(s)))
  }

  lemma SafeLosesNothing(s: State)
    requires Safe(s)
    ensures NothingLost(s)
  {
    if s.phase.Down? {
      SyncedWithin(s.dir);
      hide ReplayAll, SyncedPart;
      Within(s.acked, s.parquet, multiset(ReplayAll(SyncedPart(s.dir))), multiset(ReplayAll(s.dir)));
    } else {
      hide Up, Covered, NothingLost, SyncedCovered;
      CoveredIsSafe(s);
    }
  }

  /** A commit that succeeds adds its rows to the synced part, one that fails nothing. */
  lemma CommitSyncs(dir: Dir, rows: seq<LogRecord>)
    ensures var es := dir.active.entries + Tag(rows, Acked);
            multiset(ReplayAll(SyncedPart(dir))) + multiset(rows)
            <= multiset(ReplayAll(SyncedPart(dir.(active := Segment(es, |es|)))))
  {
    var es := dir.active.entries + Tag(rows, Acked);
    var before, after := SyncedPart(dir), SyncedPart(dir.(active := Segment(es, |es|)));
    assert es[..|es|] == es;
    PrefixLess(dir.active.entries, Min(dir.active.synced, |dir.active.entries|), ANY_STATUS);
    BagAppend(dir.active.entries, Tag(rows, Acked), ANY_STATUS);
    PickTag(rows, Acked, ANY_STATUS);
    assert after.files == before.files;
    var n := NextSeq(before.files.Keys);
    hide Pick, LogBelow, DiskLog, ReplayAll, Bag, SyncedPart;
    ReplayBag(before);
    ReplayBag(after);
    BagOfDisk(before, n, ANY_STATUS);
    BagOfDisk(after, n, ANY_STATUS);
    assert Bag(Tag(rows, Acked), ANY_STATUS) == multiset(rows) by { TaggedBag(rows); }
    Sums(Bag(LogBelow(before.files, n), ANY_STATUS), Bag(before.active.entries, ANY_STATUS),
         Bag(dir.active.entries, ANY_STATUS), multiset(rows));
  }

  lemma TaggedBag(rows: seq<LogRecord>)
    ensures Bag(Tag(rows, Acked), ANY_STATUS) == multiset(rows)
  {
    PickTag(rows, Acked, ANY_STATUS);
  }

  lemma Sums(files: multiset<LogRecord>, part: multiset<LogRecord>, active: multiset<LogRecord>,
             rows: multiset<LogRecord>)
    requires part <= active
    ensures files + part + rows <= files + (active + rows)
  {
  }

  lemma FailureSyncsNothing(dir: Dir, rows: seq<LogRecord>)
    requires SegmentOk(dir.active)
    ensures SyncedPart(dir.(active := dir.active.(entries := dir.active.entries + Tag(rows, Leftover))))
            == SyncedPart(dir)
  {
    var es, n := dir.active.entries, dir.active.synced;
    assert (es + Tag(rows, Leftover))[..n] == es[..n];
    hide Pick;
  }

  /** A group committed is synced whole, one that fails adds nothing to the synced part. */
  lemma CommitAddsSynced(wal: Wal, dir: Dir, rows: seq<LogRecord>, io: CommitIo)
    requires SegmentOk(dir.active) && (io.Failed? ==> io.kept <= |rows|)
    ensures var (wal', dir', ok) := Commit(wal, dir, rows, io);
            multiset(ReplayAll(SyncedPart(dir))) + (if ok then multiset(rows) else multiset{})
            <= multiset(ReplayAll(SyncedPart(dir')))
  {
    if io.Durable? {
      CommitSyncs(dir, rows);
    } else {
      FailureSyncsNothing(dir, rows[..io.kept]);
    }
    hide ReplayAll, SyncedPart, Tag, SegmentOk;
  }

  lemma CommittedSyncs(s: State, e: Event, cap: nat)
    requires SegmentOk(s.dir.active) && e.Append? && Enabled(s, e)
    ensures var t, rows := Step(s, e, cap), Flat(e.batches);
            multiset(ReplayAll(SyncedPart(s.dir)))
            + (if Commit(s.wal, s.dir, rows, e.commit).2 then multiset(rows) else multiset{})
            <= multiset(ReplayAll(SyncedPart(t.dir)))
  {
    hide Flat, ReplayAll, SyncedPart, Tag, SegmentOk, Commit;
    CommitAddsSynced(s.wal, s.dir, Flat(e.batches), e.commit);
  }

  lemma AppendKeepsSynced(s: State, e: Event, cap: nat)
    requires Up(s) && SyncedCovered(s) && e.Append? && Enabled(s, e)
    ensures SyncedCovered(Step(s, e, cap))
  {
    UpSegments(s);
    var rows := Flat(e.batches);
    var added := if Commit(s.wal, s.dir, rows, e.commit).2 then multiset(rows) else multiset{};
    assert SegmentOk(s.dir.active);
    hide Up, SegmentsOk;
    CommittedSyncs(s, e, cap);
    AppendIs(s, e, cap);
    hide Flat, ReplayAll, SyncedPart, Step, Enabled, Commit;
    var t := Step(s, e, cap);
    assert t.acked == s.acked + added && t.parquet == s.parquet;
    Added(s.acked, s.parquet, multiset(ReplayAll(SyncedPart(s.dir))), added, multiset(ReplayAll(SyncedPart(t.dir))));
  }

  lemma Added(acked: multiset<LogRecord>, parquet: multiset<LogRecord>, log: multiset<LogRecord>,
              rows: multiset<LogRecord>, after: multiset<LogRecord>)
    requires acked <= parquet + log && log + rows <= after
    ensures acked + rows <= parquet + after
  {
    forall r ensures (acked + rows)[r] <= (parquet + after)[r] {
      assert acked[r] <= (parquet + log)[r] && (log + rows)[r] <= after[r];
    }
  }

  lemma ConfirmedKeepsSynced(s: State, e: Event, cap: nat, b: nat)
    requires Up(s) && Boot(s, b) && Covered(s) && e.Confirmed? && Enabled(s, e)
    ensures SyncedCovered(Step(s, e, cap))
  {
    ConfirmedBoots(s, e, cap, b);
    ConfirmedKeeps(s, e, cap);
    ConfirmedCovers(s, e, cap);
    hide Up, Boot, Passed, Staged, ReplayAll, SyncedPart, Step, Enabled;
    var t := Step(s, e, cap);
    StagedIsSynced(t, b);
    Within(t.acked, t.parquet, multiset(Staged(t)), multiset(ReplayAll(SyncedPart(t.dir))));
  }

  lemma WorkerKeepsSynced(s: State, e: Event, cap: nat)
    requires SyncedCovered(s) && Enabled(s, e)
    requires e.WalExit? || e.Receive? || e.Push? || e.BeginFlush? || e.FlushDone? || e.FlushFailed?
    ensures SyncedCovered(Step(s, e, cap))
  {
    hide Flat, Trim, ShedRows, ReplayAll, SyncedPart;
    var t := Step(s, e, cap);
    assert t.acked == s.acked && t.dir == s.dir && s.parquet <= t.parquet;
  }

  lemma UpStepIsSafe(s: State, e: Event, cap: nat)
    requires Safe(s) && !s.phase.Down? && Enabled(s, e) && !e.Crash? && !Sheds(s, e, cap)
    ensures Safe(Step(s, e, cap))
  {
    var b: nat :| Boot(s, b);
    var t := Step(s, e, cap);
    assert Up(s) && Covered(s) && SyncedCovered(s);
    hide *;
    UpIsNotRestarted(s, e);
    StepKeepsUp(s, e, cap);
    PhaseAfter(s, e, cap);
    StepKeepsCovered(s, e, cap);
    StepBoots(s, e, cap, b);
    if e.Append? {
      AppendKeepsSynced(s, e, cap);
    } else if e.Confirmed? {
      ConfirmedKeepsSynced(s, e, cap, b);
    } else {
      WorkerKeepsSynced(s, e, cap);
    }
    IsSafe(t, b);
  }

  lemma IsSafe(s: State, b: nat)
    requires Up(s) && Boot(s, b) && Covered(s) && SyncedCovered(s)
    ensures Safe(s)
  {
    hide Up, Boot, Covered, SyncedCovered;
  }

  lemma CutKeepsSynced(segment: Segment, keep: nat)
    requires segment.synced <= keep <= |segment.entries|
    ensures Synced(Cut(segment, keep)).entries == Synced(segment).entries
  {
  }

  lemma CrashKeepsSynced(s: State, e: Event, cap: nat)
    requires e.Crash? && Enabled(s, e)
    ensures ReplayAll(SyncedPart(Step(s, e, cap).dir)) == ReplayAll(SyncedPart(s.dir))
  {
    var t := Step(s, e, cap);
    hide Gone, Synced, Cut, ReplayAll;
    forall k | k in s.dir.files ensures Synced(t.dir.files[k]).entries == Synced(s.dir.files[k]).entries {
      CutKeepsSynced(s.dir.files[k], e.keep[k]);
    }
    CutKeepsSynced(s.dir.active, e.keepActive);
    SameReplay(SyncedPart(t.dir), SyncedPart(s.dir));
  }

  lemma PromoteKeepsRecords(segment: Segment)
    ensures RecordsOf(Synced(Promote(segment)).entries) == RecordsOf(Synced(segment).entries)
  {
  }

  lemma RestartKeepsSynced(s: State, e: Event, cap: nat)
    requires e.Restart? && Enabled(s, e)
    ensures ReplayAll(SyncedPart(Step(s, e, cap).dir)) == ReplayAll(SyncedPart(s.dir))
  {
    var t := Step(s, e, cap);
    hide Synced, Promote, ReplayAll, Reopen, RecordsOf;
    forall k | k in s.dir.files
      ensures RecordsOf(Synced(t.dir.files[k]).entries) == RecordsOf(Synced(s.dir.files[k]).entries)
    {
      PromoteKeepsRecords(s.dir.files[k]);
    }
    PromoteKeepsRecords(s.dir.active);
    SameReplay(SyncedPart(t.dir), SyncedPart(s.dir));
  }

  lemma RestartCovers(s: State, e: Event, cap: nat)
    requires Inv(s) && SyncedCovered(s) && e.Restart? && Enabled(s, e)
    ensures Covered(Step(s, e, cap)) && SyncedCovered(Step(s, e, cap))
  {
    RestartKeepsSynced(s, e, cap);
    RestartStages(s, e, cap);
    var t := Step(s, e, cap);
    SyncedWithin(t.dir);
    hide Inv, Step, Enabled, ReplayAll, SyncedPart, Staged;
    Within(t.acked, t.parquet, multiset(ReplayAll(SyncedPart(t.dir))), multiset(ReplayAll(t.dir)));
  }

  lemma RestartStages(s: State, e: Event, cap: nat)
    requires Inv(s) && e.Restart? && Enabled(s, e)
    ensures var t := Step(s, e, cap);
            && Staged(t) == ReplayAll(t.dir) && t.acked == s.acked && t.parquet == s.parquet
            && t.inflight == [] && t.phase.Running?
  {
    var t := Step(s, e, cap);
    FreshFields(s, e, cap);
    FlatOne(t.counted);
    FlatNone<LogRecord>();
    hide Inv, Step, Enabled, ReplayAll, Reopen, Flat;
    assert Flat(t.live) == t.counted;
  }

  lemma CrashKeepsRecords(s: State, e: Event, cap: nat)
    requires e.Crash? && Enabled(s, e)
    ensures var t := Step(s, e, cap); t.acked == s.acked && t.parquet == s.parquet && t.phase.Down?
  {
    hide Gone, Cut;
  }

  lemma CrashIsSafe(s: State, e: Event, cap: nat)
    requires SyncedCovered(s) && e.Crash? && Enabled(s, e)
    ensures Safe(Step(s, e, cap))
  {
    CrashKeepsSynced(s, e, cap);
    CrashKeepsRecords(s, e, cap);
    hide Step, Enabled, ReplayAll, SyncedPart, Up, Booted, Covered;
  }

  lemma RestartIsSafe(s: State, e: Event, cap: nat)
    requires Inv(s) && SyncedCovered(s) && e.Restart? && Enabled(s, e)
    ensures Safe(Step(s, e, cap))
  {
    hide *;
    RestartKeeps(s, e, cap);
    RestartBoots(s, e, cap);
    RestartCovers(s, e, cap);
    IsSafe(Step(s, e, cap), |Step(s, e, cap).counted|);
  }

  lemma SafeIsSynced(s: State)
    requires Safe(s)
    ensures SyncedCovered(s)
  {
    hide Up, Booted, Covered, SyncedCovered;
  }

  lemma StepIsSafe(s: State, e: Event, cap: nat)
    requires Inv(s) && Safe(s) && Enabled(s, e) && !Sheds(s, e, cap)
    ensures Safe(Step(s, e, cap))
  {
    hide *;
    SafeIsSynced(s);
    if e.Crash? {
      CrashIsSafe(s, e, cap);
    } else if e.Restart? {
      RestartIsSafe(s, e, cap);
    } else {
      DownOnlyRestarts(s, e);
      UpStepIsSafe(s, e, cap);
    }
  }

  lemma DownOnlyRestarts(s: State, e: Event)
    requires Enabled(s, e) && !e.Crash? && !e.Restart?
    ensures !s.phase.Down?
  {
  }

  lemma {:induction false} RunIsSafe(s: State, es: seq<Event>, cap: nat)
    requires Inv(s) && Safe(s) && Legal(s, es, cap) && NeverSheds(s, es, cap)
    ensures NothingLost(Exec(s, es, cap))
    decreases |es|
  {
    hide Inv, Safe, Step, Enabled, Sheds, NothingLost;
    if es == [] {
      SafeLosesNothing(s);
    } else {
      StepKeeps(s, es[0], cap);
      StepIsSafe(s, es[0], cap);
      RunIsSafe(Step(s, es[0], cap), es[1..], cap);
    }
  }

  lemma {:induction false} RunBoots(s: State, es: seq<Event>, cap: nat)
    requires Inv(s) && (s.phase.Down? || Booted(s)) && Legal(s, es, cap)
    ensures Exec(s, es, cap).phase.Down? || Booted(Exec(s, es, cap))
    decreases |es|
  {
    hide Inv, Booted, Step, Enabled;
    if es != [] {
      StepKeeps(s, es[0], cap);
      OneStepBoots(s, es[0], cap);
      RunBoots(Step(s, es[0], cap), es[1..], cap);
    }
  }

  lemma SomeBoot(s: State) returns (b: nat)
    requires Booted(s)
    ensures Boot(s, b)
  {
    hide Boot;
    b :| Boot(s, b);
  }

  lemma BootsAre(s: State, b: nat)
    requires Boot(s, b)
    ensures Booted(s)
  {
    hide Boot;
  }

  lemma RunningIsUp(s: State)
    requires Inv(s) && !s.phase.Down?
    ensures Up(s)
  {
    hide Up, SegmentsOk;
  }

  lemma OneStepBoots(s: State, e: Event, cap: nat)
    requires Inv(s) && (s.phase.Down? || Booted(s)) && Enabled(s, e)
    ensures Step(s, e, cap).phase.Down? || Booted(Step(s, e, cap))
  {
    hide *;
    if e.Restart? {
      RestartBoots(s, e, cap);
      BootsAre(Step(s, e, cap), |Step(s, e, cap).counted|);
    } else if e.Crash? {
      CrashKeepsRecords(s, e, cap);
    } else {
      DownOnlyRestarts(s, e);
      RunningIsUp(s);
      var b := SomeBoot(s);
      StepBoots(s, e, cap, b);
      BootsAre(Step(s, e, cap), b);
    }
  }

  // ------------------------------------------------------------ the condition

  function CrashToSynced(s: State): Event {
    Crash(map k | k in s.dir.files :: Min(s.dir.files[k].synced, |s.dir.files[k].entries|),
          Min(s.dir.active.synced, |s.dir.active.entries|))
  }

  lemma CanCrash(s: State)
    requires SegmentsOk(s.dir)
    ensures Enabled(s, CrashToSynced(s))
  {
    hide Pick;
  }

  lemma CrashLeavesSynced(s: State, cap: nat)
    requires Enabled(s, CrashToSynced(s))
    ensures var t := Step(s, CrashToSynced(s), cap);
            t.dir == SyncedPart(s.dir) && t.acked == s.acked && t.parquet == s.parquet
  {
    hide Gone, Cut;
  }

  lemma UnsyncedIsLost(s: State, cap: nat)
    requires Up(s) && !SyncedCovered(s)
    ensures !SafeFrom(s, cap)
  {
    UpSegments(s);
    CanCrash(s);
    CrashLeavesSynced(s, cap);
    OneStep(s, CrashToSynced(s), cap);
    var es := [CrashToSynced(s)];
    hide Up, Step, Enabled, ReplayAll, SyncedPart, Legal, Exec;
    NoSheds(s, cap);
    assert Legal(s, es, cap) && NeverSheds(s, es, cap) && !NothingLost(Exec(s, es, cap));
  }

  lemma NoSheds(s: State, cap: nat)
    requires Enabled(s, CrashToSynced(s)) && Legal(s, [CrashToSynced(s)], cap)
    ensures NeverSheds(s, [CrashToSynced(s)], cap)
  {
    var es := [CrashToSynced(s)];
    assert es[1..] == [];
    hide Step, Enabled;
  }

  lemma CalmLoss(s: State, u: State, cap: nat)
    requires CanReach(s, u, cap) && !NothingLost(u)
    ensures !SafeFrom(s, cap)
  {
    hide Legal, NeverSheds, Exec, NothingLost;
  }

  /** In any ready state any run leads to, shedding or not: no traffic without further
      shedding loses a record, with crashes and restarts at any moment, exactly when
      every acknowledged copy is in Parquet or still staged, and every one is in Parquet
      or in the synced part of the log. */
  lemma CrashesAreSafeIff(head: seq<Event>, s: State, cap: nat)
    requires Legal(INIT, head, cap) && Exec(INIT, head, cap) == s && Ready(s) && s.inflight == []
    ensures SafeFrom(s, cap) <==> Covered(s) && SyncedCovered(s)
  {
    InitInv();
    RunKeeps(INIT, head, cap);
    RunBoots(INIT, head, cap);
    assert !s.phase.Down? && Up(s) && Inv(s) && Booted(s);
    hide *;
    if Covered(s) && SyncedCovered(s) {
      CoveredIsSafeFrom(s, cap);
    } else if !Covered(s) {
      var u := UncoveredIsLost(s, cap);
      CalmLoss(s, u, cap);
    } else {
      UnsyncedIsLost(s, cap);
    }
  }

  lemma CoveredIsSafeFrom(s: State, cap: nat)
    requires Inv(s) && Up(s) && Booted(s) && Covered(s) && SyncedCovered(s)
    ensures SafeFrom(s, cap)
  {
    assert Safe(s) by { hide Up, Booted, Covered, SyncedCovered; }
    hide Inv, Safe, Legal, NeverSheds, Exec, NothingLost;
    forall es: seq<Event> | Legal(s, es, cap) && NeverSheds(s, es, cap) ensures NothingLost(Exec(s, es, cap)) {
      RunIsSafe(s, es, cap);
    }
  }
}
