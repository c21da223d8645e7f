/** What every operation of the WAL worker keeps true of the log on disk. */
module LogInvariant {
  import opened Records
  import opened WritePath

  // ------------------------------------------------------- picking and logs

  function Head(e: Entry, want: set<Status>): seq<LogRecord> {
    if e.status in want then [e.record] else []
  }

  lemma {:induction false} PickAppend(a: seq<Entry>, b: seq<Entry>, want: set<Status>)
    ensures Pick(a + b, want) == Pick(a, want) + Pick(b, want)
  {
    if a == [] {
      assert a + b == b;
    } else {
      var rest, head := a[1..], Head(a[0], want);
      assert (a + b)[0] == a[0] && (a + b)[1..] == rest + b;
      calc {
        Pick(a + b, want);
        head + Pick(rest + b, want);
        { PickAppend(rest, b, want); }
        head + (Pick(rest, want) + Pick(b, want));
        (head + Pick(rest, want)) + Pick(b, want);
        Pick(a, want) + Pick(b, want);
      }
    }
  }

  lemma PickNone(want: set<Status>)
    ensures Pick([], want) == []
  {
  }

  /** The records with a status in `want`, as a bag. */
  ghost function Bag(es: seq<Entry>, want: set<Status>): multiset<LogRecord> {
    multiset(Pick(es, want))
  }

  lemma BagAppend(a: seq<Entry>, b: seq<Entry>, want: set<Status>)
    ensures Bag(a + b, want) == Bag(a, want) + Bag(b, want)
  {
    PickAppend(a, b, want);
  }

  lemma {:induction false} PickTag(rs: seq<LogRecord>, status: Status, want: set<Status>)
    ensures Pick(Tag(rs, status), want) == if status in want then rs else []
  {
    if rs != [] {
      assert Tag(rs, status)[1..] == Tag(rs[1..], status);
      PickTag(rs[1..], status, want);
    }
  }

  lemma {:induction false} PickSplits(es: seq<Entry>)
    ensures multiset(Pick(es, COUNTED_OR_ACKED)) == multiset(Pick(es, {Counted})) + multiset(Pick(es, {Acked}))
  {
    if es != [] {
      PickSplits(es[1..]);
    }
  }

  lemma {:induction false} PickWithin(es: seq<Entry>, want: set<Status>)
    ensures multiset(Pick(es, want)) <= multiset(RecordsOf(es))
  {
    if es != [] {
      assert RecordsOf(es) == [es[0].record] + RecordsOf(es[1..]);
      PickWithin(es[1..], want);
    }
  }

  /** Listing further than the last file adds nothing. */
  lemma {:induction false} LogBelowStable(files: map<nat, Segment>, a: nat, b: nat)
    requires a <= b && forall k | k in files :: k < a
    ensures LogBelow(files, a) == LogBelow(files, b)
    decreases b
  {
    if a < b {
      LogBelowStable(files, a, b - 1);
    }
  }

  lemma DiskLogAt(dir: Dir, n: nat)
    requires forall k | k in dir.files :: k < n
    ensures DiskLog(dir) == LogBelow(dir.files, n) + dir.active.entries
  {
    var m := NextSeq(dir.files.Keys);
    if m <= n {
      LogBelowStable(dir.files, m, n);
    } else {
      LogBelowStable(dir.files, n, m);
    }
  }

  lemma {:induction false} LogBelowSame(files: map<nat, Segment>, other: map<nat, Segment>, n: nat)
    requires forall k | 0 <= k < n :: (k in files <==> k in other) && (k in files ==> files[k] == other[k])
    ensures LogBelow(files, n) == LogBelow(other, n)
  {
    if n > 0 {
      LogBelowSame(files, other, n - 1);
    }
  }

  lemma BagsAdd(a: multiset<LogRecord>, b: multiset<LogRecord>, c: multiset<LogRecord>, d: multiset<LogRecord>)
    requires a <= c && b <= d
    ensures a + b <= c + d
  {
    forall r ensures (a + b)[r] <= (c + d)[r] {
      assert a[r] <= c[r] && b[r] <= d[r];
    }
  }

  lemma BagOfFile(left: map<nat, Segment>, files: map<nat, Segment>, k: nat, want: set<Status>)
    requires k in left ==> k in files && left[k] == files[k]
    ensures Bag(EntriesAt(left, k), want) <= Bag(EntriesAt(files, k), want)
  {
    assert k !in left ==> EntriesAt(left, k) == [];
  }

  lemma BagBelowStep(files: map<nat, Segment>, n: nat, want: set<Status>)
    requires 0 < n
    ensures Bag(LogBelow(files, n), want) == Bag(LogBelow(files, n - 1), want) + Bag(EntriesAt(files, n - 1), want)
  {
    BagAppend(LogBelow(files, n - 1), EntriesAt(files, n - 1), want);
  }

  lemma BagOfDisk(dir: Dir, n: nat, want: set<Status>)
    requires forall k | k in dir.files :: k < n
    ensures Bag(DiskLog(dir), want) == Bag(LogBelow(dir.files, n), want) + Bag(dir.active.entries, want)
  {
    DiskLogAt(dir, n);
    BagAppend(LogBelow(dir.files, n), dir.active.entries, want);
  }

  lemma {:induction false} LogBelowRemove(left: map<nat, Segment>, files: map<nat, Segment>, n: nat, want: set<Status>)
    requires forall k | k in left :: k in files && left[k] == files[k]
    ensures Bag(LogBelow(left, n), want) <= Bag(LogBelow(files, n), want)
  {
    hide Bag, Pick;
    if n > 0 {
      LogBelowRemove(left, files, n - 1, want);
      BagOfFile(left, files, n - 1, want);
      BagBelowStep(files, n, want);
      BagBelowStep(left, n, want);
      BagsAdd(Bag(LogBelow(left, n - 1), want), Bag(EntriesAt(left, n - 1), want),
              Bag(LogBelow(files, n - 1), want), Bag(EntriesAt(files, n - 1), want));
    }
  }

  /** Removing files only removes records. */
  lemma DiskLogRemove(dir: Dir, gone: set<nat>, n: nat, want: set<Status>)
    requires forall k | k in dir.files :: k < n
    ensures Bag(DiskLog(dir.(files := dir.files - gone)), want) <= Bag(DiskLog(dir), want)
  {
    var left := dir.(files := dir.files - gone);
    BagOfDisk(dir, n, want);
    BagOfDisk(left, n, want);
    LogBelowRemove(left.files, dir.files, n, want);
    BagsAdd(Bag(LogBelow(left.files, n), want), Bag(dir.active.entries, want),
            Bag(LogBelow(dir.files, n), want), Bag(dir.active.entries, want));
  }

  // ------------------------------------------------------------- invariant

  /** No acknowledged record lies in the part a crash may cut away. */
  ghost predicate SegmentOk(segment: Segment) {
    && segment.synced <= |segment.entries|
    && Pick(segment.entries[segment.synced..], {Acked}) == []
  }

  ghost predicate SegmentsOk(dir: Dir) {
    SegmentOk(dir.active) && forall k | k in dir.files :: SegmentOk(dir.files[k])
  }

  /** Listed segment `i` is on disk and holds exactly its slice of the counted log. */
  ghost predicate Listed(sealed: seq<Sealed>, dir: Dir, counted: seq<LogRecord>, released: nat, i: nat)
    requires i < |sealed|
  {
    && sealed[i].seqNo in dir.files
    && Start(sealed, released, i) <= sealed[i].cumulative <= |counted|
    && Pick(dir.files[sealed[i].seqNo].entries, COUNTED_OR_ACKED)
       == counted[Start(sealed, released, i)..sealed[i].cumulative]
  }

  ghost predicate LogInv(wal: Wal, dir: Dir, counted: seq<LogRecord>, released: nat) {
    && wal.cumulative == |counted|
    && released <= wal.confirmed && released <= |counted|
    && (forall k | k in dir.files :: k < wal.nextSeq)
    && SegmentsOk(dir)
    && (forall i, j | 0 <= i < j < |wal.sealed| :: wal.sealed[i].seqNo < wal.sealed[j].seqNo)
    && (forall i | 0 <= i < |wal.sealed| :: Listed(wal.sealed, dir, counted, released, i))
    && Start(wal.sealed, released, |wal.sealed|) <= |counted|
    && Pick(dir.active.entries, COUNTED_OR_ACKED) == counted[Start(wal.sealed, released, |wal.sealed|)..]
  }

  // ------------------------------------------------------------ group commit

  lemma SyncedSegmentOk(es: seq<Entry>)
    ensures SegmentOk(Segment(es, |es|))
  {
    assert es[|es|..] == [];
  }

  lemma LeftoversKeepSegmentOk(segment: Segment, records: seq<LogRecord>)
    requires SegmentOk(segment)
    ensures SegmentOk(segment.(entries := segment.entries + Tag(records, Leftover)))
  {
    var more := Tag(records, Leftover);
    var n := segment.synced;
    assert (segment.entries + more)[n..] == segment.entries[n..] + more;
    PickAppend(segment.entries[n..], more, {Acked});
    PickTag(records, Leftover, {Acked});
  }

  /** A group that succeeds adds exactly its records to the counted log, durably;
      one that fails leaves the counted log alone. */
  lemma CommitKeepsLog(wal: Wal, dir: Dir, counted: seq<LogRecord>, released: nat,
                       records: seq<LogRecord>, io: CommitIo)
    requires LogInv(wal, dir, counted, released)
    requires io.Failed? ==> io.kept <= |records|
    ensures var (wal', dir', ok) := Commit(wal, dir, records, io);
            && LogInv(wal', dir', if ok then counted + records else counted, released)
            && dir'.files == dir.files
            && wal'.confirmed == wal.confirmed
            && (ok ==> dir'.active.synced == |dir'.active.entries|)
            && DiskLog(dir') == DiskLog(dir) + (if ok then Tag(records, Acked)
                                                else if wal.open then Tag(records[..io.kept], Leftover) else [])
  {
    hide Pick, LogBelow;
    var (wal', dir', ok) := Commit(wal, dir, records, io);
    if wal.open {
      var more := if ok then Tag(records, Acked) else Tag(records[..io.kept], Leftover);
      var counted' := if ok then counted + records else counted;
      assert dir'.active.entries == dir.active.entries + more;
      PickAppend(dir.active.entries, more, COUNTED_OR_ACKED);
      PickTag(records, Acked, COUNTED_OR_ACKED);
      PickTag(if ok then [] else records[..io.kept], Leftover, COUNTED_OR_ACKED);
      if ok {
        SyncedSegmentOk(dir'.active.entries);
      } else {
        LeftoversKeepSegmentOk(dir.active, records[..io.kept]);
      }
      forall i | 0 <= i < |wal.sealed| ensures Listed(wal'.sealed, dir', counted', released, i) {
        assert Listed(wal.sealed, dir, counted, released, i);
      }
    }
  }

  // ---------------------------------------------------------------- rotation

  lemma RenameKeepsLog(files: map<nat, Segment>, active: Segment, n: nat, sealed: Segment)
    requires forall k | k in files :: k < n
    requires sealed.entries == active.entries
    ensures DiskLog(Dir(files[n := sealed], EMPTY_SEGMENT)) == DiskLog(Dir(files, active))
  {
    hide LogBelow, DiskLog;
    DiskLogAt(Dir(files, active), n);
    DiskLogAt(Dir(files[n := sealed], EMPTY_SEGMENT), n + 1);
    LogBelowPut(files, n, sealed);
  }

  lemma LogBelowPut(files: map<nat, Segment>, n: nat, sealed: Segment)
    ensures LogBelow(files[n := sealed], n + 1) == LogBelow(files, n) + sealed.entries
  {
    LogBelowSame(files, files[n := sealed], n);
  }

  lemma ActiveSyncKeepsLog(dir: Dir, segment: Segment)
    requires segment.entries == dir.active.entries
    ensures DiskLog(dir.(active := segment)) == DiskLog(dir)
  {
  }

  /** Rotation moves records, and never onto an existing file. */
  lemma RotateKeepsDiskLog(wal: Wal, dir: Dir, io: RotateIo)
    requires forall k | k in dir.files :: k < wal.nextSeq
    requires SegmentsOk(dir)
    ensures var (wal', dir', path) := Rotate(wal, dir, io);
            && DiskLog(dir') == DiskLog(dir)
            && SegmentsOk(dir')
            && (forall k | k in dir'.files :: k < wal'.nextSeq)
            && (forall k | k in dir.files :: k in dir'.files && dir'.files[k] == dir.files[k])
            && (path.Some? ==> path.value !in dir.files && path.value in dir'.files
                               && dir'.files[path.value].entries == dir.active.entries
                               && dir'.active == EMPTY_SEGMENT)
            && (path.None? ==> dir'.files == dir.files && dir'.active.entries == dir.active.entries)
  {
    hide DiskLog, Pick;
    if wal.open {
      var segment := if io.synced then dir.active.(synced := |dir.active.entries|) else dir.active;
      SyncedSegmentOk(dir.active.entries);
      SyncedSegmentOk([]);
      RenameKeepsLog(dir.files, dir.active, wal.nextSeq, segment);
      ActiveSyncKeepsLog(dir, segment);
    }
  }

  /** Listed segments stay listed when files are added, and a sealed active file becomes listed. */
  lemma SealedIsListed(wal: Wal, dir: Dir, dir': Dir, counted: seq<LogRecord>, released: nat, sealed: seq<Sealed>,
                       i: nat)
    requires LogInv(wal, dir, counted, released)
    requires forall k | k in dir.files :: k in dir'.files && dir'.files[k] == dir.files[k]
    requires |wal.sealed| <= |sealed| <= |wal.sealed| + 1 && sealed[..|wal.sealed|] == wal.sealed
    requires |sealed| > |wal.sealed| ==>
               var last := sealed[|wal.sealed|];
               last.seqNo in dir'.files && dir'.files[last.seqNo].entries == dir.active.entries
                   && last.cumulative == |counted|
    requires i < |sealed|
    ensures Listed(sealed, dir', counted, released, i)
  {
    hide Pick;
    if i < |wal.sealed| {
      assert Listed(wal.sealed, dir, counted, released, i);
    }
  }

  lemma SealKeepsLog(wal: Wal, dir: Dir, counted: seq<LogRecord>, released: nat, rows: nat, io: RotateIo)
    requires LogInv(wal, dir, counted, released)
    ensures var (wal', dir') := Seal(wal, dir, rows, io);
            && LogInv(wal', dir', counted, released)
            && wal'.confirmed == wal.confirmed + rows
            && DiskLog(dir') == DiskLog(dir)
  {
    hide Pick, LogBelow, DiskLog;
    var wal0 := wal.(confirmed := wal.confirmed + rows);
    var (wal', dir') := Seal(wal, dir, rows, io);
    RotateKeepsDiskLog(wal0, dir, io);
    PickNone(COUNTED_OR_ACKED);
    forall i | 0 <= i < |wal'.sealed| ensures Listed(wal'.sealed, dir', counted, released, i) {
      SealedIsListed(wal, dir, dir', counted, released, wal'.sealed, i);
    }
    forall i | 0 <= i < |wal.sealed| ensures wal.sealed[i].seqNo < wal.nextSeq {
      assert Listed(wal.sealed, dir, counted, released, i);
    }
  }

  // ----------------------------------------------------------------- reclaim

  lemma {:induction false} CumulativeAscends(wal: Wal, dir: Dir, counted: seq<LogRecord>, released: nat, i: nat, j: nat)
    requires LogInv(wal, dir, counted, released)
    requires i <= j < |wal.sealed|
    ensures released <= wal.sealed[i].cumulative <= wal.sealed[j].cumulative
    decreases i + j
  {
    assert Listed(wal.sealed, dir, counted, released, j);
    if i < j {
      CumulativeAscends(wal, dir, counted, released, i, j - 1);
    } else if i > 0 {
      CumulativeAscends(wal, dir, counted, released, i - 1, i - 1);
    }
  }

  /** What is dropped is exactly the set of segments whose count is confirmed. */
  lemma ReclaimableExact(wal: Wal, dir: Dir, counted: seq<LogRecord>, released: nat)
    requires LogInv(wal, dir, counted, released)
    ensures forall i | 0 <= i < |wal.sealed| ::
              i < Reclaimable(wal.sealed, wal.confirmed) <==> wal.sealed[i].cumulative <= wal.confirmed
  {
    hide Pick;
    var n := Reclaimable(wal.sealed, wal.confirmed);
    forall i | n <= i < |wal.sealed| ensures wal.sealed[i].cumulative > wal.confirmed {
      CumulativeAscends(wal, dir, counted, released, n, i);
    }
  }

  /** The files of the segments still listed are none of those removed. */
  lemma LaterSegmentsStay(wal: Wal, dir: Dir, counted: seq<LogRecord>, released: nat, n: nat)
    requires LogInv(wal, dir, counted, released)
    requires n <= |wal.sealed|
    ensures forall i | n <= i < |wal.sealed| ::
              wal.sealed[i].seqNo in dir.files && wal.sealed[i].seqNo !in SeqNos(wal.sealed[..n])
  {
    hide Pick;
    forall i | n <= i < |wal.sealed|
      ensures wal.sealed[i].seqNo in dir.files && wal.sealed[i].seqNo !in SeqNos(wal.sealed[..n])
    {
      assert Listed(wal.sealed, dir, counted, released, i);
    }
  }

  lemma StartAfterDrop(sealed: seq<Sealed>, released: nat, n: nat, i: nat)
    requires n + i <= |sealed|
    ensures Start(sealed[n..], Start(sealed, released, n), i) == Start(sealed, released, n + i)
  {
  }

  lemma ListedAfterDrop(sealed: seq<Sealed>, dir: Dir, counted: seq<LogRecord>, released: nat, n: nat,
                        files: map<nat, Segment>, i: nat)
    requires n + i < |sealed| && Listed(sealed, dir, counted, released, n + i)
    requires sealed[n + i].seqNo in files && files[sealed[n + i].seqNo] == dir.files[sealed[n + i].seqNo]
    ensures Listed(sealed[n..], dir.(files := files), counted, Start(sealed, released, n), i)
  {
    StartAfterDrop(sealed, released, n, i);
    hide Pick, Start;
  }

  lemma StartIsCounted(sealed: seq<Sealed>, dir: Dir, counted: seq<LogRecord>, released: nat, n: nat)
    requires 0 < n <= |sealed| && Listed(sealed, dir, counted, released, n - 1)
    ensures Start(sealed, released, n) <= |counted|
  {
    hide Pick;
  }

  lemma DropKeepsLog(wal: Wal, dir: Dir, counted: seq<LogRecord>, released: nat, n: nat, files: map<nat, Segment>)
    requires LogInv(wal, dir, counted, released)
    requires n <= |wal.sealed| && Start(wal.sealed, released, n) <= wal.confirmed
    requires forall k | k in files :: k in dir.files && files[k] == dir.files[k]
    requires forall i | n <= i < |wal.sealed| :: wal.sealed[i].seqNo in files
    ensures LogInv(wal.(sealed := wal.sealed[n..]), dir.(files := files), counted, Start(wal.sealed, released, n))
  {
    StartAfterDrop(wal.sealed, released, n, |wal.sealed| - n);
    DroppedAreListed(wal, dir, counted, released, n, files);
    DropsSegments(dir, files);
    TailAscends(wal.sealed, n);
    hide Pick, Listed, Start, SegmentsOk;
  }

  lemma TailAscends(sealed: seq<Sealed>, n: nat)
    requires n <= |sealed| && forall i, j | 0 <= i < j < |sealed| :: sealed[i].seqNo < sealed[j].seqNo
    ensures forall i, j | 0 <= i < j < |sealed[n..]| :: sealed[n..][i].seqNo < sealed[n..][j].seqNo
  {
  }

  lemma DropsSegments(dir: Dir, files: map<nat, Segment>)
    requires SegmentsOk(dir) && forall k | k in files :: k in dir.files && files[k] == dir.files[k]
    ensures SegmentsOk(dir.(files := files))
  {
    hide SegmentOk;
  }

  lemma DroppedAreListed(wal: Wal, dir: Dir, counted: seq<LogRecord>, released: nat, n: nat, files: map<nat, Segment>)
    requires LogInv(wal, dir, counted, released) && n <= |wal.sealed|
    requires forall k | k in files :: k in dir.files && files[k] == dir.files[k]
    requires forall i | n <= i < |wal.sealed| :: wal.sealed[i].seqNo in files
    ensures Start(wal.sealed, released, n) <= |counted|
    ensures forall i | 0 <= i < |wal.sealed[n..]| ::
              Listed(wal.sealed[n..], dir.(files := files), counted, Start(wal.sealed, released, n), i)
  {
    assert n == 0 ==> Start(wal.sealed, released, n) == released;
    hide Pick, Listed, Start, SegmentsOk;
    if 0 < n {
      assert Listed(wal.sealed, dir, counted, released, n - 1);
      StartIsCounted(wal.sealed, dir, counted, released, n);
    }
    forall i | 0 <= i < |wal.sealed[n..]|
      ensures Listed(wal.sealed[n..], dir.(files := files), counted, Start(wal.sealed, released, n), i)
    {
      assert Listed(wal.sealed, dir, counted, released, n + i);
      ListedAfterDrop(wal.sealed, dir, counted, released, n, files, i);
    }
  }

  /** Dropping the covered prefix of the list, whichever of its files really go, keeps the invariant. */
  lemma ReclaimKeepsLog(wal: Wal, dir: Dir, counted: seq<LogRecord>, released: nat, stuck: set<nat>)
    requires LogInv(wal, dir, counted, released)
    ensures var (wal', dir') := Reclaim(wal, dir, stuck);
            LogInv(wal', dir', counted, Start(wal.sealed, released, Reclaimable(wal.sealed, wal.confirmed)))
  {
    hide Pick;
    var n := Reclaimable(wal.sealed, wal.confirmed);
    LaterSegmentsStay(wal, dir, counted, released, n);
    DropKeepsLog(wal, dir, counted, released, n, Reclaim(wal, dir, stuck).1.files);
  }

  /** A confirmation keeps the invariant and only removes records from disk. */
  lemma ConfirmKeepsLog(wal: Wal, dir: Dir, counted: seq<LogRecord>, released: nat,
                        rows: nat, io: RotateIo, stuck: set<nat>, want: set<Status>)
    requires LogInv(wal, dir, counted, released)
    ensures var (wal', dir') := Confirm(wal, dir, rows, io, stuck);
            && LogInv(wal', dir', counted, ReleasedBy(wal, dir, rows, io, released))
            && wal'.confirmed == wal.confirmed + rows
            && Bag(DiskLog(dir'), want) <= Bag(DiskLog(dir), want)
  {
    hide Pick, LogBelow, DiskLog, Bag, LogInv;
    SealKeepsLog(wal, dir, counted, released, rows, io);
    var (wal', dir') := Seal(wal, dir, rows, io);
    ReclaimKeepsLog(wal', dir', counted, released, stuck);
    ReclaimOnlyRemoves(wal', dir', counted, released, stuck, want);
  }

  lemma ReclaimOnlyRemoves(wal: Wal, dir: Dir, counted: seq<LogRecord>, released: nat, stuck: set<nat>,
                           want: set<Status>)
    requires LogInv(wal, dir, counted, released)
    ensures Bag(DiskLog(Reclaim(wal, dir, stuck).1), want) <= Bag(DiskLog(dir), want)
  {
    hide Pick, LogBelow, DiskLog, Bag;
    DiskLogRemove(dir, SeqNos(wal.sealed[..Reclaimable(wal.sealed, wal.confirmed)]) - stuck, wal.nextSeq, want);
  }

  lemma {:induction false} LogBelowMonotone(files: map<nat, Segment>, a: nat, b: nat, want: set<Status>)
    requires a <= b
    ensures Bag(LogBelow(files, a), want) <= Bag(LogBelow(files, b), want)
  {
    hide Bag, Pick;
    if a < b {
      LogBelowMonotone(files, a, b - 1, want);
      BagBelowStep(files, b, want);
    }
  }

  lemma SliceSplits(s: seq<LogRecord>, a: nat, b: nat, c: nat)
    requires a <= b <= c <= |s|
    ensures multiset(s[a..c]) == multiset(s[a..b]) + multiset(s[b..c])
  {
    assert s[a..c] == s[a..b] + s[b..c];
  }

  lemma TailSplits(s: seq<LogRecord>, a: nat, b: nat)
    requires a <= b <= |s|
    ensures multiset(s[a..]) == multiset(s[a..b]) + multiset(s[b..])
  {
    assert s[a..] == s[a..b] + s[b..];
  }

  function EndOfListed(sealed: seq<Sealed>, i: nat): nat
    requires i <= |sealed|
  {
    if i == 0 then 0 else sealed[i - 1].seqNo + 1
  }

  /** The slice `[a..c)` of the counted log is in the sealed files below `n`, with a status in `want`. */
  ghost predicate PrefixOnDisk(files: map<nat, Segment>, n: nat, counted: seq<LogRecord>, a: nat, c: nat,
                               want: set<Status>) {
    a <= c <= |counted| && multiset(counted[a..c]) <= Bag(LogBelow(files, n), want)
  }

  lemma NothingOnDisk(files: map<nat, Segment>, counted: seq<LogRecord>, a: nat, want: set<Status>)
    requires a <= |counted|
    ensures PrefixOnDisk(files, 0, counted, a, a, want)
  {
    assert counted[a..a] == [];
  }

  /** One more sealed file, holding the next slice. */
  lemma NextOnDisk(files: map<nat, Segment>, n: nat, k: nat, counted: seq<LogRecord>, a: nat, mid: nat, c: nat,
                   want: set<Status>)
    requires PrefixOnDisk(files, n, counted, a, mid, want) && n <= k && mid <= c <= |counted|
    requires multiset(counted[mid..c]) <= Bag(EntriesAt(files, k), want)
    ensures PrefixOnDisk(files, k + 1, counted, a, c, want)
  {
    hide Bag, Pick, LogBelow, EntriesAt;
    LogBelowMonotone(files, n, k, want);
    BagBelowStep(files, k + 1, want);
    SliceSplits(counted, a, mid, c);
    BagsAdd(multiset(counted[a..mid]), multiset(counted[mid..c]),
            Bag(LogBelow(files, k), want), Bag(EntriesAt(files, k), want));
  }

  /** What the invariant says of one listed segment. */
  lemma ListedSlice(wal: Wal, dir: Dir, counted: seq<LogRecord>, released: nat, i: nat)
    requires LogInv(wal, dir, counted, released) && i < |wal.sealed|
    ensures var s := wal.sealed[i];
            && EndOfListed(wal.sealed, i) <= s.seqNo && EndOfListed(wal.sealed, i + 1) == s.seqNo + 1
            && Start(wal.sealed, released, i + 1) == s.cumulative
            && Start(wal.sealed, released, i) <= s.cumulative <= |counted|
            && Bag(EntriesAt(dir.files, s.seqNo), COUNTED_OR_ACKED)
               == multiset(counted[Start(wal.sealed, released, i)..s.cumulative])
  {
    assert Listed(wal.sealed, dir, counted, released, i);
    hide Pick, LogBelow;
  }

  lemma ReleasedIsCounted(wal: Wal, dir: Dir, counted: seq<LogRecord>, released: nat)
    requires LogInv(wal, dir, counted, released)
    ensures released <= |counted|
    ensures Start(wal.sealed, released, 0) == released && EndOfListed(wal.sealed, 0) == 0
  {
    hide Pick, LogBelow;
  }

  /** The listed part of the counted log is on disk. */
  lemma {:induction false} ListedOnDisk(wal: Wal, dir: Dir, counted: seq<LogRecord>, released: nat, i: nat)
    requires LogInv(wal, dir, counted, released) && i <= |wal.sealed|
    ensures PrefixOnDisk(dir.files, EndOfListed(wal.sealed, i), counted, released, Start(wal.sealed, released, i),
                         COUNTED_OR_ACKED)
  {
    hide *;
    if i == 0 {
      ReleasedIsCounted(wal, dir, counted, released);
      NothingOnDisk(dir.files, counted, released, COUNTED_OR_ACKED);
    } else {
      ListedOnDisk(wal, dir, counted, released, i - 1);
      ListedSlice(wal, dir, counted, released, i - 1);
      NextOnDisk(dir.files, EndOfListed(wal.sealed, i - 1), wal.sealed[i - 1].seqNo, counted, released,
                 Start(wal.sealed, released, i - 1), wal.sealed[i - 1].cumulative, COUNTED_OR_ACKED);
    }
  }

  /** What the invariant says of the active file and the end of the list. */
  lemma ActiveSlice(wal: Wal, dir: Dir, counted: seq<LogRecord>, released: nat)
    requires LogInv(wal, dir, counted, released)
    ensures Start(wal.sealed, released, |wal.sealed|) <= |counted|
    ensures Bag(dir.active.entries, COUNTED_OR_ACKED) == multiset(counted[Start(wal.sealed, released, |wal.sealed|)..])
    ensures EndOfListed(wal.sealed, |wal.sealed|) <= wal.nextSeq && forall k | k in dir.files :: k < wal.nextSeq
  {
    if wal.sealed != [] {
      assert Listed(wal.sealed, dir, counted, released, |wal.sealed| - 1);
    }
    hide Pick, LogBelow;
  }

  lemma UnreleasedOnDisk(wal: Wal, dir: Dir, counted: seq<LogRecord>, released: nat)
    requires LogInv(wal, dir, counted, released)
    ensures multiset(counted[released..]) <= Bag(DiskLog(dir), COUNTED_OR_ACKED)
  {
    hide *;
    var last := |wal.sealed|;
    ListedOnDisk(wal, dir, counted, released, last);
    ActiveSlice(wal, dir, counted, released);
    DiskHoldsBoth(dir, wal.nextSeq, EndOfListed(wal.sealed, last), counted, released, Start(wal.sealed, released, last),
                  COUNTED_OR_ACKED);
  }

  lemma DiskHoldsBoth(dir: Dir, next: nat, n: nat, counted: seq<LogRecord>, a: nat, mid: nat, want: set<Status>)
    requires PrefixOnDisk(dir.files, n, counted, a, mid, want) && n <= next && forall k | k in dir.files :: k < next
    requires mid <= |counted| && multiset(counted[mid..]) <= Bag(dir.active.entries, want)
    ensures a <= |counted| && multiset(counted[a..]) <= Bag(DiskLog(dir), want)
  {
    hide Bag, Pick, LogBelow, DiskLog;
    LogBelowMonotone(dir.files, n, next, want);
    BagOfDisk(dir, next, want);
    TailSplits(counted, a, mid);
    BagsAdd(multiset(counted[a..mid]), multiset(counted[mid..]),
            Bag(LogBelow(dir.files, next), want), Bag(dir.active.entries, want));
  }

  /** A rotation uses up one number, and the writer is open after it exactly if it reopened:
      until then no group is acknowledged and nothing is written. */
  lemma RotationCountsUp(wal: Wal, dir: Dir, io: RotateIo, records: seq<LogRecord>, commit: CommitIo)
    requires wal.open && (commit.Failed? ==> commit.kept <= |records|)
    ensures var (wal', dir', path) := Rotate(wal, dir, io);
            && wal'.nextSeq == wal.nextSeq + 1
            && (io.renamed ==> path.Some? && path.value == wal.nextSeq && wal.nextSeq in dir'.files
                               && dir'.files[wal.nextSeq].entries == dir.active.entries && dir'.active.entries == [])
            && (io.renamed && io.synced ==> dir'.files[wal.nextSeq].synced == |dir.active.entries|)
            && (!io.renamed && io.synced ==> dir'.active.synced == |dir.active.entries|)
            && (!io.renamed ==> path.None? && dir'.files == dir.files && dir'.active.entries == dir.active.entries)
            && (io.reopened ==> Commit(wal', dir', records, commit).2 == commit.Durable?)
            && (!io.reopened ==> Commit(wal', dir', records, commit) == (wal', dir', false))
  {
  }

  lemma {:induction false} AllReclaimable(sealed: seq<Sealed>, confirmed: nat)
    requires forall i | 0 <= i < |sealed| :: sealed[i].cumulative <= confirmed
    ensures Reclaimable(sealed, confirmed) == |sealed|
  {
    if sealed != [] {
      AllReclaimable(sealed[1..], confirmed);
    }
  }

  lemma HealthySealIs(wal: Wal, dir: Dir, rows: nat)
    requires wal.open
    ensures var (wal', dir') := Seal(wal, dir, rows, RotateIo(true, true, true));
            && wal'.sealed == wal.sealed + [Sealed(wal.nextSeq, wal.cumulative)]
            && wal'.open && wal'.confirmed == wal.confirmed + rows
            && dir'.files.Keys == dir.files.Keys + {wal.nextSeq} && dir'.active.entries == []
            && forall k | k in dir.files && k != wal.nextSeq :: dir'.files[k] == dir.files[k]
  {
  }

  lemma ReclaimAll(wal: Wal, dir: Dir)
    requires Reclaimable(wal.sealed, wal.confirmed) == |wal.sealed|
    ensures var (wal', dir') := Reclaim(wal, dir, {});
            && wal'.sealed == [] && wal'.open == wal.open && dir'.active == dir.active
            && dir'.files == dir.files - (set s | s in wal.sealed :: s.seqNo)
  {
    assert wal.sealed[..|wal.sealed|] == wal.sealed;
    hide Reclaimable;
  }

  lemma CountsWithin(wal: Wal, dir: Dir, counted: seq<LogRecord>, released: nat)
    requires LogInv(wal, dir, counted, released)
    ensures wal.cumulative == |counted| && forall i | 0 <= i < |wal.sealed| :: wal.sealed[i].cumulative <= |counted|
  {
    hide Pick, SegmentsOk, Start;
    forall i | 0 <= i < |wal.sealed| ensures wal.sealed[i].cumulative <= |counted| {
      assert Listed(wal.sealed, dir, counted, released, i);
    }
  }

  lemma WithoutListed(files: map<nat, Segment>, more: map<nat, Segment>, sealed: seq<Sealed>, last: Sealed)
    requires last.seqNo !in files && more.Keys == files.Keys + {last.seqNo}
    requires forall k | k in files :: more[k] == files[k]
    ensures more - (set s | s in sealed + [last] :: s.seqNo) == files - (set s | s in sealed :: s.seqNo)
  {
    assert last in sealed + [last];
    assert forall s | s in sealed :: s in sealed + [last];
  }

  /** Once everything counted is confirmed, and nothing fails, every listed segment goes:
      nothing is listed any more, the active file is empty, and of the sealed files only
      such are left as were not listed. */
  lemma EverythingConfirmedIsReclaimed(wal: Wal, dir: Dir, counted: seq<LogRecord>, released: nat, rows: nat)
    requires LogInv(wal, dir, counted, released) && wal.open && wal.confirmed + rows >= |counted|
    ensures var (wal', dir') := Confirm(wal, dir, rows, RotateIo(true, true, true), {});
            && wal'.sealed == [] && wal'.open && dir'.active.entries == []
            && dir'.files == dir.files - (set s | s in wal.sealed :: s.seqNo)
  {
    CountsWithin(wal, dir, counted, released);
    NextIsNew(wal, dir, counted, released);
    HealthySealIs(wal, dir, rows);
    hide LogInv, Seal, Reclaim, Reclaimable;
    var (sealing, dir1) := Seal(wal, dir, rows, RotateIo(true, true, true));
    AllReclaimable(sealing.sealed, sealing.confirmed);
    ReclaimAll(sealing, dir1);
    WithoutListed(dir.files, dir1.files, wal.sealed, Sealed(wal.nextSeq, wal.cumulative));
  }

  lemma NextIsNew(wal: Wal, dir: Dir, counted: seq<LogRecord>, released: nat)
    requires LogInv(wal, dir, counted, released)
    ensures wal.nextSeq !in dir.files
  {
  }
}
