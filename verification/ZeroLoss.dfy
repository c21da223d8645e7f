/** Safety over whole runs: no acknowledged record is ever lost, unless rows are shed. */
module ZeroLoss {
  import opened Seqs
  import opened Records
  import opened WritePath
  import opened LogInvariant
  import opened WriteRuns

  /** Rows of the counted log that have left the stages in this boot: flushed, or shed. */
  function Passed(s: State): nat {
    s.wal.confirmed + Sum(s.signals) + s.lost + s.dropped
  }

  /** Rows on their way to Parquet, oldest first. */
  function Staged(s: State): seq<LogRecord> {
    Flat(s.inflight) + Flat(s.live) + s.table + Flat(s.handoff)
  }

  /** The counting invariant: the counted log is, in order, the rows that left
      the stages followed by everything staged. */
  ghost predicate Aligned(s: State) {
    && Passed(s) <= |s.counted|
    && s.counted[Passed(s)..] == Staged(s)
  }

  ghost predicate Up(s: State) {
    && LogInv(s.wal, s.dir, s.counted, s.released)
    && Aligned(s)
    && s.base + multiset(s.counted[..Passed(s)]) <= s.parquet + s.shed
    && (s.phase.Running? ==> s.lost == 0)
    && (s.phase.Draining? ==> s.signals == [])
    && s.acked + Bag(DiskLog(s.dir), {Counted}) <= s.base + multiset(s.counted)
    && Bag(DiskLog(s.dir), COUNTED_OR_ACKED) <= s.base + multiset(s.counted)
  }

  ghost predicate Inv(s: State) {
    if s.phase.Down? then
      && SegmentsOk(s.dir)
      && s == INIT.(dir := s.dir, parquet := s.parquet, acked := s.acked, base := s.base, shed := s.shed)
      && s.base <= s.parquet + s.shed
      && s.acked <= s.base + Bag(DiskLog(s.dir), {Acked})
    else Up(s)
  }

  /** Every acknowledged record is in Parquet or will be replayed. */
  ghost predicate NothingLost(s: State) {
    s.acked <= s.parquet + multiset(ReplayAll(s.dir))
  }

  /** At worst, rows that were shed are missing. */
  ghost predicate OnlyShedLost(s: State) {
    s.acked <= s.parquet + multiset(ReplayAll(s.dir)) + s.shed
  }

  // ------------------------------------------------------------ invariant => safety

  lemma BagWithin(es: seq<Entry>, want: set<Status>)
    ensures Bag(es, want) <= multiset(RecordsOf(es))
  {
    PickWithin(es, want);
  }

  lemma BagSplits(es: seq<Entry>)
    ensures Bag(es, COUNTED_OR_ACKED) == Bag(es, {Counted}) + Bag(es, {Acked})
  {
    PickSplits(es);
  }

  /** What is gone from the log is in Parquet. */
  lemma GoneIsStored(s: State)
    requires Up(s)
    ensures Gone(s) <= s.parquet + s.shed
    ensures s.acked <= Gone(s) + Bag(DiskLog(s.dir), {Acked})
  {
    hide Pick, DiskLog, Bag, LogInv;
    assert Bag(DiskLog(s.dir), COUNTED_OR_ACKED) == multiset(Pick(DiskLog(s.dir), COUNTED_OR_ACKED)) by {
      BagIsPick(DiskLog(s.dir));
    }
    UnreleasedOnDisk(s.wal, s.dir, s.counted, s.released);
    BagSplits(DiskLog(s.dir));
    ReleasedBeforePassed(s);
    var onDisk := Bag(DiskLog(s.dir), COUNTED_OR_ACKED);
    GoneArithmetic(s.base, multiset(s.counted), multiset(s.counted[..s.released]), multiset(s.counted[s.released..]),
                   multiset(s.counted[..Passed(s)]), onDisk, s.parquet + s.shed);
    LeftArithmetic(s.acked, Bag(DiskLog(s.dir), {Counted}), Bag(DiskLog(s.dir), {Acked}), s.base + multiset(s.counted));
  }

  lemma BagIsPick(es: seq<Entry>)
    ensures Bag(es, COUNTED_OR_ACKED) == multiset(Pick(es, COUNTED_OR_ACKED))
  {
  }

  lemma ReleasedBeforePassed(s: State)
    requires Up(s)
    ensures s.released <= Passed(s) <= |s.counted|
    ensures multiset(s.counted) == multiset(s.counted[..s.released]) + multiset(s.counted[s.released..])
    ensures multiset(s.counted[..s.released]) <= multiset(s.counted[..Passed(s)])
  {
    hide Pick, DiskLog, Bag;
    assert s.counted == s.counted[..s.released] + s.counted[s.released..];
    assert s.counted[..Passed(s)] == s.counted[..s.released] + s.counted[s.released..Passed(s)];
  }

  lemma GoneArithmetic(base: multiset<LogRecord>, counted: multiset<LogRecord>, before: multiset<LogRecord>,
                       after: multiset<LogRecord>, flushed: multiset<LogRecord>, onDisk: multiset<LogRecord>,
                       stored: multiset<LogRecord>)
    requires counted == before + after && before <= flushed && after <= onDisk && base + flushed <= stored
    ensures base + counted - onDisk <= stored
  {
    forall r ensures (base + counted - onDisk)[r] <= stored[r] {
      assert (base + flushed)[r] <= stored[r] && before[r] <= flushed[r] && after[r] <= onDisk[r];
    }
  }

  lemma LeftArithmetic(acked: multiset<LogRecord>, plain: multiset<LogRecord>, ackedOnDisk: multiset<LogRecord>,
                       total: multiset<LogRecord>)
    requires acked + plain <= total && plain + ackedOnDisk <= total
    ensures acked <= total - (plain + ackedOnDisk) + ackedOnDisk
  {
    forall r ensures acked[r] <= (total - (plain + ackedOnDisk) + ackedOnDisk)[r] {
      assert (acked + plain)[r] <= total[r] && (plain + ackedOnDisk)[r] <= total[r];
    }
  }

  lemma InvIsSafe(s: State)
    requires Inv(s)
    ensures OnlyShedLost(s)
  {
    hide Pick, DiskLog, Bag, LogInv;
    BagWithin(DiskLog(s.dir), {Acked});
    if !s.phase.Down? {
      GoneIsStored(s);
    }
  }

  // ---------------------------------------------------------- steps keep Inv

  lemma LogExtends(counted: seq<LogRecord>, rows: seq<LogRecord>, n: nat)
    requires n <= |counted|
    ensures (counted + rows)[..n] == counted[..n]
    ensures (counted + rows)[n..] == counted[n..] + rows
  {
  }

  lemma LogAdvances(counted: seq<LogRecord>, n: nat, rows: seq<LogRecord>, rest: seq<LogRecord>)
    requires n <= |counted| && counted[n..] == rows + rest
    ensures n + |rows| <= |counted|
    ensures counted[n + |rows|..] == rest
    ensures multiset(counted[..n + |rows|]) == multiset(counted[..n]) + multiset(rows)
  {
    assert |counted[n..]| == |rows| + |rest|;
    assert counted[n + |rows|..] == counted[n..][|rows|..];
    assert counted[..n + |rows|] == counted[..n] + rows;
  }

  lemma Reassociate(a: seq<LogRecord>, b: seq<LogRecord>, c: seq<LogRecord>, d: seq<LogRecord>)
    ensures a + b + (c + d) == a + (b + c) + d
    ensures a + b + (c + d) == a + b + c + d
    ensures a + b + c + d == a + (b + c) + [] + d
    ensures [] + b + c + d == b + [] + c + d
  {
    assert a + (b + c) + [] == a + (b + c) == a + b + c;
    assert [] + b == b == b + [];
  }

  lemma AddBoth(a: multiset<LogRecord>, b: multiset<LogRecord>, total: multiset<LogRecord>, more: multiset<LogRecord>)
    requires a + b <= total
    ensures a + more + b <= total + more
  {
    forall r ensures (a + more + b)[r] <= (total + more)[r] {
      assert (a + b)[r] <= total[r];
    }
  }

  lemma AppendAligned(s: State, e: Event, cap: nat)
    requires Aligned(s) && e.Append? && Enabled(s, e)
    ensures Aligned(Step(s, e, cap))
  {
    hide Flat;
    var rows := Flat(e.batches);
    FlatAppend(s.handoff, e.batches);
    LogExtends(s.counted, rows, Passed(s));
    Reassociate(Flat(s.inflight) + Flat(s.live), s.table, Flat(s.handoff), rows);
  }

  lemma AppendKeeps(s: State, e: Event, cap: nat)
    requires Up(s) && e.Append? && Enabled(s, e)
    ensures Up(Step(s, e, cap))
  {
    hide Pick, DiskLog, Bag, LogInv, Flat, Aligned;
    var rows := Flat(e.batches);
    CommitKeepsLog(s.wal, s.dir, s.counted, s.released, rows, e.commit);
    AppendAligned(s, e, cap);
    PassedInRange(s);
    if Commit(s.wal, s.dir, rows, e.commit).2 {
      BagsOfAcked(DiskLog(s.dir), rows);
      LogExtends(s.counted, rows, Passed(s));
      var t := Step(s, e, cap);
      assert t.counted == s.counted + rows && Passed(t) == Passed(s);
      assert multiset(t.counted) == multiset(s.counted) + multiset(rows);
      AddBoth(s.acked, Bag(DiskLog(s.dir), {Counted}), s.base + multiset(s.counted), multiset(rows));
      BagsAdd(Bag(DiskLog(s.dir), COUNTED_OR_ACKED), multiset(rows), s.base + multiset(s.counted), multiset(rows));
      assert t.base + multiset(t.counted) == s.base + multiset(s.counted) + multiset(rows);
    } else if s.wal.open {
      BagsOfLeftover(DiskLog(s.dir), rows[..e.commit.kept]);
    }
  }

  lemma PassedInRange(s: State)
    requires Aligned(s)
    ensures Passed(s) <= |s.counted|
  {
  }

  lemma BagsOfAcked(es: seq<Entry>, rows: seq<LogRecord>)
    ensures Bag(es + Tag(rows, Acked), {Counted}) == Bag(es, {Counted})
    ensures Bag(es + Tag(rows, Acked), COUNTED_OR_ACKED) == Bag(es, COUNTED_OR_ACKED) + multiset(rows)
  {
    BagAppend(es, Tag(rows, Acked), {Counted});
    BagAppend(es, Tag(rows, Acked), COUNTED_OR_ACKED);
    PickTag(rows, Acked, {Counted});
    PickTag(rows, Acked, COUNTED_OR_ACKED);
  }

  lemma BagsOfLeftover(es: seq<Entry>, rows: seq<LogRecord>)
    ensures Bag(es + Tag(rows, Leftover), {Counted}) == Bag(es, {Counted})
    ensures Bag(es + Tag(rows, Leftover), COUNTED_OR_ACKED) == Bag(es, COUNTED_OR_ACKED)
  {
    BagAppend(es, Tag(rows, Leftover), {Counted});
    BagAppend(es, Tag(rows, Leftover), COUNTED_OR_ACKED);
    PickTag(rows, Leftover, {Counted});
    PickTag(rows, Leftover, COUNTED_OR_ACKED);
  }

  lemma ConfirmedKeeps(s: State, e: Event, cap: nat)
    requires Up(s) && e.Confirmed? && Enabled(s, e)
    ensures Up(Step(s, e, cap))
  {
    hide Pick, DiskLog, Bag, LogInv, Confirm, ReleasedBy;
    ConfirmKeepsLog(s.wal, s.dir, s.counted, s.released, s.signals[0], e.rotate, e.stuck, {Counted});
    ConfirmKeepsLog(s.wal, s.dir, s.counted, s.released, s.signals[0], e.rotate, e.stuck, COUNTED_OR_ACKED);
    assert Passed(Step(s, e, cap)) == Passed(s);
  }

  /** `t` is `s` with its rows on the way in other stages. */
  ghost predicate SameStages(s: State, t: State) {
    && Staged(t) == Staged(s) && Passed(t) == Passed(s)
    && t == s.(phase := t.phase, signals := t.signals, lost := t.lost, handoff := t.handoff, table := t.table,
               live := t.live, inflight := t.inflight)
    && (t.phase.Running? ==> t.lost == 0) && (t.phase.Draining? ==> t.signals == [])
  }

  lemma SameStagesKeep(s: State, t: State)
    requires Up(s) && SameStages(s, t)
    ensures Up(t)
  {
    hide Pick, DiskLog, Bag, LogInv, Flat, Staged;
  }

  ghost predicate LostOnlyDraining(s: State) {
    (s.phase.Running? ==> s.lost == 0) && (s.phase.Draining? ==> s.signals == [])
  }

  lemma UpLosesOnlyDraining(s: State)
    requires Up(s)
    ensures LostOnlyDraining(s)
  {
    hide LogInv, Aligned, DiskLog, Bag;
  }

  lemma WalExitStages(s: State, cap: nat)
    requires LostOnlyDraining(s) && Enabled(s, WalExit)
    ensures SameStages(s, Step(s, WalExit, cap))
  {
    hide Flat;
  }

  lemma ReceiveStages(s: State, cap: nat)
    requires LostOnlyDraining(s) && Enabled(s, Receive)
    ensures SameStages(s, Step(s, Receive, cap))
  {
    Reassociate(Flat(s.inflight) + Flat(s.live), s.table, s.handoff[0], Flat(s.handoff[1..]));
  }

  lemma PushStages(s: State, cap: nat)
    requires LostOnlyDraining(s) && Enabled(s, Push)
    ensures SameStages(s, Step(s, Push, cap))
  {
    FlatAppend(s.live, [s.table]);
    FlatOne(s.table);
    FlatNone<LogRecord>();
    hide Flat;
    Reassociate(Flat(s.inflight), Flat(s.live), s.table, Flat(s.handoff));
  }

  lemma BeginFlushStages(s: State, cap: nat)
    requires LostOnlyDraining(s) && Enabled(s, BeginFlush)
    ensures SameStages(s, Step(s, BeginFlush, cap))
  {
    FlatNone<LogRecord>();
    hide Flat;
    Reassociate([], Flat(s.live), s.table, Flat(s.handoff));
  }

  lemma WalExitKeeps(s: State, e: Event, cap: nat)
    requires Up(s) && e.WalExit? && Enabled(s, e)
    ensures Up(Step(s, e, cap))
  {
    hide *;
    UpLosesOnlyDraining(s);
    WalExitStages(s, cap);
    SameStagesKeep(s, Step(s, e, cap));
  }

  lemma ReceiveKeeps(s: State, e: Event, cap: nat)
    requires Up(s) && e.Receive? && Enabled(s, e)
    ensures Up(Step(s, e, cap))
  {
    hide *;
    UpLosesOnlyDraining(s);
    ReceiveStages(s, cap);
    SameStagesKeep(s, Step(s, e, cap));
  }

  lemma PushKeeps(s: State, e: Event, cap: nat)
    requires Up(s) && e.Push? && Enabled(s, e)
    ensures Up(Step(s, e, cap))
  {
    hide *;
    UpLosesOnlyDraining(s);
    PushStages(s, cap);
    SameStagesKeep(s, Step(s, e, cap));
  }

  lemma BeginFlushKeeps(s: State, e: Event, cap: nat)
    requires Up(s) && e.BeginFlush? && Enabled(s, e)
    ensures Up(Step(s, e, cap))
  {
    hide *;
    UpLosesOnlyDraining(s);
    BeginFlushStages(s, cap);
    SameStagesKeep(s, Step(s, e, cap));
  }

  lemma FlushDoneStages(s: State, cap: nat)
    requires Enabled(s, FlushDone)
    ensures var t, rows := Step(s, FlushDone, cap), Flat(s.inflight);
            && t.counted == s.counted && Passed(t) == Passed(s) + |rows|
            && Staged(s) == rows + Staged(t)
  {
    hide Flat, Sum;
    SumAppend(s.signals, [|Flat(s.inflight)|]);
    SumOne(|Flat(s.inflight)|);
    FlatNone<LogRecord>();
    Regroup(Flat(s.inflight), Flat(s.live), s.table, Flat(s.handoff));
  }

  lemma AlignedMeans(s: State)
    ensures Aligned(s) <==> Passed(s) <= |s.counted| && s.counted[Passed(s)..] == Staged(s)
  {
    hide Passed, Staged;
  }

  /** A finished flush moves its rows across the line between staged and flushed. */
  lemma FlushDoneAdvances(s: State, e: Event, cap: nat)
    requires Aligned(s) && e.FlushDone? && Enabled(s, e)
    ensures var t, rows := Step(s, e, cap), Flat(s.inflight);
            && Aligned(t)
            && multiset(t.counted[..Passed(t)]) == multiset(s.counted[..Passed(s)]) + multiset(rows)
  {
    hide *;
    FlushDoneStages(s, cap);
    AlignedMeans(s);
    AlignedMeans(Step(s, e, cap));
    LogAdvances(s.counted, Passed(s), Flat(s.inflight), Staged(Step(s, e, cap)));
  }

  lemma Regroup(a: seq<LogRecord>, b: seq<LogRecord>, c: seq<LogRecord>, d: seq<LogRecord>)
    ensures a + b + c + d == a + (b + c + d)
    ensures [] + b + c + d == b + c + d
  {
  }

  lemma FlushDoneKeeps(s: State, e: Event, cap: nat)
    requires Up(s) && e.FlushDone? && Enabled(s, e)
    ensures Up(Step(s, e, cap))
  {
    hide Pick, DiskLog, Bag, LogInv, Flat, Sum, Staged;
    PassedInRange(s);
    FlushDoneAdvances(s, e, cap);
    var t, rows := Step(s, e, cap), multiset(Flat(s.inflight));
    DoneArithmetic(s.base, multiset(s.counted[..Passed(s)]), s.parquet, s.shed, rows);
    assert t.base + multiset(t.counted[..Passed(t)]) <= t.parquet + t.shed;
    assert Bag(DiskLog(t.dir), COUNTED_OR_ACKED) <= t.base + multiset(t.counted);
  }

  lemma SumOne(n: nat)
    ensures Sum([n]) == n
  {
  }

  /** A failed flush sheds from the front of the stages only. */
  lemma FlushFailedAdvances(s: State, e: Event, cap: nat)
    requires Aligned(s) && e.FlushFailed? && Enabled(s, e)
    ensures var t, rows := Step(s, e, cap), ShedRows(s.inflight + s.live, cap);
            && Aligned(t)
            && multiset(t.counted[..Passed(t)]) == multiset(s.counted[..Passed(s)]) + multiset(rows)
  {
    hide Flat, Sum, Trim, ShedRows;
    var batches := s.inflight + s.live;
    var rows, kept := ShedRows(batches, cap), Flat(Trim(batches, cap));
    FlatAppend(s.inflight, s.live);
    TrimSplits(batches, cap);
    FlatNone<LogRecord>();
    Regroup(rows, kept, s.table, Flat(s.handoff));
    assert Staged(s) == rows + (kept + s.table + Flat(s.handoff));
    LogAdvances(s.counted, Passed(s), rows, kept + s.table + Flat(s.handoff));
    var t := Step(s, e, cap);
    assert t.counted == s.counted;
    assert Passed(t) == Passed(s) + |rows|;
    assert Staged(t) == kept + s.table + Flat(s.handoff);
  }

  lemma FlushFailedKeeps(s: State, e: Event, cap: nat)
    requires Up(s) && e.FlushFailed? && Enabled(s, e)
    ensures Up(Step(s, e, cap))
  {
    hide Pick, DiskLog, Bag, LogInv, Flat, Sum, Staged, Trim, ShedRows;
    PassedInRange(s);
    FlushFailedAdvances(s, e, cap);
    ShedArithmetic(s.base, multiset(s.counted[..Passed(s)]), s.parquet, s.shed, e.landed,
                   multiset(ShedRows(s.inflight + s.live, cap)));
    var t := Step(s, e, cap);
    assert t.base + multiset(t.counted[..Passed(t)]) <= t.parquet + t.shed;
    assert t.acked + Bag(DiskLog(t.dir), {Counted}) <= t.base + multiset(t.counted);
    assert Bag(DiskLog(t.dir), COUNTED_OR_ACKED) <= t.base + multiset(t.counted);
  }

  lemma DoneArithmetic(base: multiset<LogRecord>, passed: multiset<LogRecord>, parquet: multiset<LogRecord>,
                       shed: multiset<LogRecord>, rows: multiset<LogRecord>)
    requires base + passed <= parquet + shed
    ensures base + (passed + rows) <= parquet + rows + shed
  {
    forall r ensures (base + (passed + rows))[r] <= (parquet + rows + shed)[r] {
      assert (base + passed)[r] <= (parquet + shed)[r];
    }
  }

  lemma WithoutShed(base: multiset<LogRecord>, passed: multiset<LogRecord>, parquet: multiset<LogRecord>)
    requires base + passed <= parquet + multiset{}
    ensures passed <= parquet
  {
    forall r ensures passed[r] <= parquet[r] {
      assert (base + passed)[r] <= (parquet + multiset{})[r];
    }
  }

  lemma LessThanStored(acked: multiset<LogRecord>, plain: multiset<LogRecord>, total: multiset<LogRecord>,
                       parquet: multiset<LogRecord>)
    requires acked + plain <= total && total <= parquet + multiset{}
    ensures acked <= parquet
  {
    forall r ensures acked[r] <= parquet[r] {
      assert (acked + plain)[r] <= total[r] <= (parquet + multiset{})[r];
    }
  }

  lemma ShedArithmetic(base: multiset<LogRecord>, passed: multiset<LogRecord>, parquet: multiset<LogRecord>,
                       shed: multiset<LogRecord>, landed: multiset<LogRecord>, rows: multiset<LogRecord>)
    requires base + passed <= parquet + shed
    ensures base + (passed + rows) <= parquet + landed + (shed + rows)
  {
    forall r ensures (base + (passed + rows))[r] <= (parquet + landed + (shed + rows))[r] {
      assert (base + passed)[r] <= (parquet + shed)[r];
    }
  }

  // ------------------------------------------------------- crash and restart

  /** Replacing each file by one with the same picked records keeps the bag. */
  lemma {:induction false} LogBelowSamePick(files: map<nat, Segment>, other: map<nat, Segment>, n: nat,
                                            want: set<Status>)
    requires files.Keys == other.Keys
    requires forall k | k in files :: Pick(files[k].entries, want) == Pick(other[k].entries, want)
    ensures Pick(LogBelow(files, n), want) == Pick(LogBelow(other, n), want)
  {
    hide Pick;
    if n > 0 {
      LogBelowSamePick(files, other, n - 1, want);
      PickAppend(LogBelow(files, n - 1), EntriesAt(files, n - 1), want);
      PickAppend(LogBelow(other, n - 1), EntriesAt(other, n - 1), want);
    }
  }

  lemma DiskLogSamePick(dir: Dir, other: Dir, want: set<Status>)
    requires dir.files.Keys == other.files.Keys
    requires forall k | k in dir.files :: Pick(dir.files[k].entries, want) == Pick(other.files[k].entries, want)
    requires Pick(dir.active.entries, want) == Pick(other.active.entries, want)
    ensures Pick(DiskLog(dir), want) == Pick(DiskLog(other), want)
  {
    hide Pick, LogBelow;
    var n := NextSeq(dir.files.Keys);
    LogBelowSamePick(dir.files, other.files, n, want);
    PickAppend(LogBelow(dir.files, n), dir.active.entries, want);
    PickAppend(LogBelow(other.files, n), other.active.entries, want);
  }

  /** A cut behind the synced part takes no acknowledged record. */
  lemma CutKeepsAcked(segment: Segment, keep: nat)
    requires SegmentOk(segment) && segment.synced <= keep <= |segment.entries|
    ensures SegmentOk(Cut(segment, keep))
    ensures Pick(Cut(segment, keep).entries, {Acked}) == Pick(segment.entries, {Acked})
  {
    var es, n := segment.entries, segment.synced;
    assert es[n..] == es[n..keep] + es[keep..];
    PickAppend(es[n..keep], es[keep..], {Acked});
    assert es == es[..keep] + es[keep..];
    PickAppend(es[..keep], es[keep..], {Acked});
    assert es[..keep][n..] == es[n..keep];
  }

  lemma CrashKeeps(s: State, e: Event, cap: nat)
    requires Inv(s) && e.Crash? && Enabled(s, e)
    ensures Inv(Step(s, e, cap))
  {
    hide Pick, DiskLog, Bag;
    var t := Step(s, e, cap);
    forall k | k in s.dir.files ensures SegmentOk(t.dir.files[k])
      ensures Pick(t.dir.files[k].entries, {Acked}) == Pick(s.dir.files[k].entries, {Acked})
    {
      CutKeepsAcked(s.dir.files[k], e.keep[k]);
    }
    CutKeepsAcked(s.dir.active, e.keepActive);
    DiskLogSamePick(t.dir, s.dir, {Acked});
    SamePickSameBag(DiskLog(t.dir), DiskLog(s.dir), {Acked});
    if !s.phase.Down? {
      GoneIsStored(s);
    }
  }

  lemma SamePickSameBag(a: seq<Entry>, b: seq<Entry>, want: set<Status>)
    requires Pick(a, want) == Pick(b, want)
    ensures Bag(a, want) == Bag(b, want)
  {
  }

  ghost predicate AllCounted(es: seq<Entry>) {
    forall i | 0 <= i < |es| :: !es[i].status.Leftover?
  }

  lemma {:induction false} AllCountedPick(es: seq<Entry>)
    requires AllCounted(es)
    ensures Pick(es, COUNTED_OR_ACKED) == RecordsOf(es)
  {
    if es != [] {
      AllCountedPick(es[1..]);
      assert RecordsOf(es) == [es[0].record] + RecordsOf(es[1..]);
    }
  }

  lemma {:induction false} PromotePick(segment: Segment, k: nat)
    requires k <= |segment.entries|
    ensures Pick(Promote(segment).entries[k..], {Acked}) == Pick(segment.entries[k..], {Acked})
    decreases |segment.entries| - k
  {
    if k < |segment.entries| {
      PromotePick(segment, k + 1);
      assert segment.entries[k..][1..] == segment.entries[k + 1..];
      assert Promote(segment).entries[k..][1..] == Promote(segment).entries[k + 1..];
    }
  }

  lemma PromoteOk(segment: Segment)
    requires SegmentOk(segment)
    ensures SegmentOk(Promote(segment)) && AllCounted(Promote(segment).entries)
    ensures Pick(Promote(segment).entries, {Acked}) == Pick(segment.entries, {Acked})
  {
    PromotePick(segment, segment.synced);
    PromotePick(segment, 0);
    assert Promote(segment).entries[0..] == Promote(segment).entries && segment.entries[0..] == segment.entries;
  }

  lemma {:induction false} LogBelowAllCounted(files: map<nat, Segment>, n: nat)
    requires forall k | k in files :: AllCounted(files[k].entries)
    ensures AllCounted(LogBelow(files, n))
  {
    if n > 0 {
      LogBelowAllCounted(files, n - 1);
    }
  }

  /** What `WalState::open` lists, against the log it counts. */
  ghost predicate BootListed(files: map<nat, Segment>, n: nat, counted: seq<LogRecord>, dir: Dir) {
    var sealed := SealedBelow(files, n);
    && GoodList(sealed, n, counted, dir)
    && Start(sealed, 0, |sealed|) == |LogBelow(files, n)|
  }

  /** One more file extends the list by its slice. */
  lemma MiddleOfPrefix(a: seq<LogRecord>, b: seq<LogRecord>, s: seq<LogRecord>)
    requires a + b <= s
    ensures s[|a|..|a| + |b|] == b
  {
    assert s[..|a| + |b|] == a + b;
  }

  lemma BootListsFile(dir: Dir, n: nat, counted: seq<LogRecord>)
    requires n in dir.files && AllCounted(dir.files[n].entries)
    requires RecordsOf(LogBelow(dir.files, n + 1)) <= counted
    requires BootListed(dir.files, n, counted, dir)
    ensures Listed(SealedBelow(dir.files, n + 1), dir, counted, 0, |SealedBelow(dir.files, n)|)
  {
    hide Pick, RecordsOf;
    var before, at := LogBelow(dir.files, n), dir.files[n].entries;
    RecordsAppend(before, at);
    AllCountedPick(at);
    MiddleOfPrefix(RecordsOf(before), RecordsOf(at), counted);
  }

  ghost predicate GoodList(sealed: seq<Sealed>, n: nat, counted: seq<LogRecord>, dir: Dir) {
    && (forall i | 0 <= i < |sealed| :: sealed[i].seqNo < n && Listed(sealed, dir, counted, 0, i))
    && (forall i, j | 0 <= i < j < |sealed| :: sealed[i].seqNo < sealed[j].seqNo)
  }

  lemma ListedInLonger(prev: seq<Sealed>, more: seq<Sealed>, dir: Dir, counted: seq<LogRecord>, i: nat)
    requires i < |prev| && Listed(prev, dir, counted, 0, i)
    ensures Listed(prev + more, dir, counted, 0, i)
  {
    hide Pick;
  }

  lemma GoodListGrows(prev: seq<Sealed>, last: Sealed, n: nat, counted: seq<LogRecord>, dir: Dir)
    requires GoodList(prev, n, counted, dir)
    requires last.seqNo == n && Listed(prev + [last], dir, counted, 0, |prev|)
    ensures GoodList(prev + [last], n + 1, counted, dir)
  {
    hide Listed;
    forall i | 0 <= i < |prev| ensures Listed(prev + [last], dir, counted, 0, i) {
      ListedInLonger(prev, [last], dir, counted, i);
    }
  }

  lemma BootListsStep(dir: Dir, n: nat, counted: seq<LogRecord>)
    requires n in dir.files ==> AllCounted(dir.files[n].entries)
    requires RecordsOf(LogBelow(dir.files, n + 1)) <= counted
    requires BootListed(dir.files, n, counted, dir)
    ensures BootListed(dir.files, n + 1, counted, dir)
  {
    hide Pick, RecordsOf, AllCounted, Listed;
    if n in dir.files {
      BootListsFile(dir, n, counted);
      GoodListGrows(SealedBelow(dir.files, n), Sealed(n, |LogBelow(dir.files, n + 1)|), n, counted, dir);
    } else {
      assert SealedBelow(dir.files, n + 1) == SealedBelow(dir.files, n);
    }
  }

  lemma {:induction false} BootLists(dir: Dir, n: nat, counted: seq<LogRecord>)
    requires forall k | k in dir.files :: AllCounted(dir.files[k].entries)
    requires RecordsOf(LogBelow(dir.files, n)) <= counted
    ensures BootListed(dir.files, n, counted, dir)
  {
    hide Pick, Listed;
    if n > 0 {
      RecordsAppend(LogBelow(dir.files, n - 1), EntriesAt(dir.files, n - 1));
      BootLists(dir, n - 1, counted);
      BootListsStep(dir, n - 1, counted);
    }
  }

  lemma RebootLog(dir: Dir, writable: bool)
    requires SegmentsOk(dir)
    requires AllCounted(dir.active.entries) && forall k | k in dir.files :: AllCounted(dir.files[k].entries)
    ensures LogInv(Reopen(dir, writable), dir, ReplayAll(dir), 0)
    ensures Bag(DiskLog(dir), COUNTED_OR_ACKED) == multiset(ReplayAll(dir))
  {
    hide Pick;
    var n := NextSeq(dir.files.Keys);
    var below := LogBelow(dir.files, n);
    RecordsAppend(below, dir.active.entries);
    BootLists(dir, n, ReplayAll(dir));
    AllCountedPick(dir.active.entries);
    LogBelowAllCounted(dir.files, n);
    AllCountedPick(DiskLog(dir));
  }

  lemma ReopenConfirmsNothing(dir: Dir, writable: bool)
    ensures Reopen(dir, writable).confirmed == 0
  {
  }

  /** Boot re-establishes the counting invariant from whatever survived. */
  lemma RestartKeeps(s: State, e: Event, cap: nat)
    requires Inv(s) && e.Restart? && Enabled(s, e)
    ensures Up(Step(s, e, cap))
  {
    hide Pick, DiskLog, Bag, LogInv, Reopen;
    var t := Step(s, e, cap);
    forall k | k in s.dir.files
      ensures SegmentOk(t.dir.files[k]) && AllCounted(t.dir.files[k].entries)
      ensures Pick(t.dir.files[k].entries, {Acked}) == Pick(s.dir.files[k].entries, {Acked})
    {
      PromoteOk(s.dir.files[k]);
    }
    PromoteOk(s.dir.active);
    DiskLogSamePick(t.dir, s.dir, {Acked});
    SamePickSameBag(DiskLog(t.dir), DiskLog(s.dir), {Acked});
    RebootLog(t.dir, e.writable);
    BagSplits(DiskLog(t.dir));
    ReopenConfirmsNothing(t.dir, e.writable);
    FlatOne(t.counted);
    assert t.counted[..0] == [] && t.counted[0..] == t.counted;
  }

  // ------------------------------------------------------------ whole runs

  lemma StepKeeps(s: State, e: Event, cap: nat)
    requires Inv(s) && Enabled(s, e)
    ensures Inv(Step(s, e, cap))
  {
    hide Up, Step;
    if e.Crash? {
      CrashKeeps(s, e, cap);
    } else {
      PhaseAfter(s, e, cap);
      match e
      case Append(_, _) => AppendKeeps(s, e, cap);
      case Confirmed(_, _) => ConfirmedKeeps(s, e, cap);
      case WalExit => WalExitKeeps(s, e, cap);
      case Receive => ReceiveKeeps(s, e, cap);
      case Push => PushKeeps(s, e, cap);
      case BeginFlush => BeginFlushKeeps(s, e, cap);
      case FlushDone => FlushDoneKeeps(s, e, cap);
      case FlushFailed(_) => FlushFailedKeeps(s, e, cap);
      case Restart(_) => RestartKeeps(s, e, cap);
    }
  }

  lemma PhaseAfter(s: State, e: Event, cap: nat)
    requires Enabled(s, e) && !e.Crash?
    ensures !Step(s, e, cap).phase.Down?
  {
  }

  lemma {:induction false} RunKeeps(s: State, es: seq<Event>, cap: nat)
    requires Inv(s) && Legal(s, es, cap)
    ensures Inv(Exec(s, es, cap))
    decreases |es|
  {
    hide Inv, Step;
    if es != [] {
      StepKeeps(s, es[0], cap);
      RunKeeps(Step(s, es[0], cap), es[1..], cap);
    }
  }

  lemma InitInv()
    ensures Inv(INIT)
  {
    assert DiskLog(INIT.dir) == LogBelow(map[], 1) == [];
  }

  ghost predicate NothingShed(s: State) {
    s.shed == multiset{} && s.dropped == 0
  }

  lemma {:induction false} RunShedsNothing(s: State, es: seq<Event>, cap: nat)
    requires NothingShed(s) && Legal(s, es, cap) && NeverSheds(s, es, cap)
    ensures NothingShed(Exec(s, es, cap))
    decreases |es|
  {
    if es != [] {
      RunShedsNothing(Step(s, es[0], cap), es[1..], cap);
    }
  }

  /** Over every interleaving of both workers, failures, crashes and restarts:
      an acknowledged record that is neither in Parquet nor returned by
      `replay_all` was shed from the live buffer. */
  lemma OnlyShedRecordsAreLost(es: seq<Event>, cap: nat)
    requires Legal(INIT, es, cap)
    ensures OnlyShedLost(Exec(INIT, es, cap))
  {
    InitInv();
    RunKeeps(INIT, es, cap);
    InvIsSafe(Exec(INIT, es, cap));
  }

  /** The zero-loss theorem: a run that sheds no row loses no acknowledged record. */
  lemma NoAcknowledgedRecordIsLost(es: seq<Event>, cap: nat)
    requires Legal(INIT, es, cap) && NeverSheds(INIT, es, cap)
    ensures NothingLost(Exec(INIT, es, cap))
  {
    OnlyShedRecordsAreLost(es, cap);
    RunShedsNothing(INIT, es, cap);
  }

  /** The counting invariant as the code relies on it: the counted log is, in
      order, confirmed rows, rows of queued confirmations, then the stages. */
  ghost predicate CountsMatchRows(s: State) {
    var flushed := s.wal.confirmed + Sum(s.signals);
    && s.wal.cumulative == |s.counted|
    && flushed <= |s.counted|
    && multiset(s.counted[..flushed]) <= s.parquet
    && s.counted[flushed..] == Flat(s.inflight) + Flat(s.live) + s.table + Flat(s.handoff)
  }

  lemma UpCounts(s: State)
    requires Up(s) && s.phase.Running? && NothingShed(s)
    ensures CountsMatchRows(s)
  {
    hide Pick, DiskLog, Bag, Flat;
    WithoutShed(s.base, multiset(s.counted[..Passed(s)]), s.parquet);
  }

  lemma ReachableIsUp(es: seq<Event>, cap: nat)
    requires Legal(INIT, es, cap)
    ensures !Exec(INIT, es, cap).phase.Down? ==> Up(Exec(INIT, es, cap))
    ensures NeverSheds(INIT, es, cap) ==> NothingShed(Exec(INIT, es, cap))
  {
    InitInv();
    RunKeeps(INIT, es, cap);
    if NeverSheds(INIT, es, cap) {
      RunShedsNothing(INIT, es, cap);
    }
  }

  /** It holds in every running state reached without shedding. */
  lemma CountsStayAligned(es: seq<Event>, cap: nat)
    requires Legal(INIT, es, cap) && NeverSheds(INIT, es, cap)
    ensures Exec(INIT, es, cap).phase.Running? ==> CountsMatchRows(Exec(INIT, es, cap))
  {
    ReachableIsUp(es, cap);
    if Exec(INIT, es, cap).phase.Running? {
      UpCounts(Exec(INIT, es, cap));
    }
  }

  /** In every reachable running state, even after shedding, the next rotation
      takes a name no sealed file has. */
  lemma RotationNeverOverwrites(es: seq<Event>, cap: nat)
    requires Legal(INIT, es, cap)
    ensures var s := Exec(INIT, es, cap);
            !s.phase.Down? ==> forall k | k in s.dir.files :: k < s.wal.nextSeq
  {
    hide Pick, DiskLog, Bag;
    ReachableIsUp(es, cap);
  }

  lemma EmptyStagesStored(s: State)
    requires Up(s) && NothingShed(s) && Staged(s) == []
    ensures s.acked <= s.parquet
  {
    hide Pick, DiskLog, Bag, LogInv, Staged;
    assert |s.counted[Passed(s)..]| == 0;
    assert s.counted[..Passed(s)] == s.counted;
    LessThanStored(s.acked, Bag(DiskLog(s.dir), {Counted}), s.base + multiset(s.counted), s.parquet);
  }

  /** Once nothing is staged, e.g. after a drained shutdown whose last flush
      succeeded, every acknowledged record is in Parquet itself. */
  lemma DrainedMeansStored(es: seq<Event>, cap: nat)
    requires Legal(INIT, es, cap) && NeverSheds(INIT, es, cap)
    requires !Exec(INIT, es, cap).phase.Down? && Staged(Exec(INIT, es, cap)) == []
    ensures Exec(INIT, es, cap).acked <= Exec(INIT, es, cap).parquet
  {
    ReachableIsUp(es, cap);
    EmptyStagesStored(Exec(INIT, es, cap));
  }

  /** When nothing is staged and the last signal comes, a confirmation in which nothing
      fails reclaims the whole log: the segments do not pile up. */
  lemma QuietLogIsReclaimed(es: seq<Event>, s: State, cap: nat)
    requires Legal(INIT, es, cap) && NeverSheds(INIT, es, cap) && Exec(INIT, es, cap) == s
    requires s.phase.Running? && s.wal.open && Staged(s) == [] && |s.signals| == 1
    ensures Enabled(s, Confirmed(RotateIo(true, true, true), {}))
    ensures var t := Step(s, Confirmed(RotateIo(true, true, true), {}), cap);
            && t.wal.sealed == [] && t.wal.open && t.dir.active.entries == []
            && t.dir.files == s.dir.files - (set k | k in s.wal.sealed :: k.seqNo)
  {
    ReachableIsUp(es, cap);
    CountsStayAligned(es, cap);
    NothingIsLeft(s);
    assert LogInv(s.wal, s.dir, s.counted, s.released) by { hide LogInv, Aligned, Bag, Legal, NeverSheds, Exec; }
    ConfirmedIs(s, RotateIo(true, true, true), {}, cap);
    hide *;
    EverythingConfirmedIsReclaimed(s.wal, s.dir, s.counted, s.released, s.signals[0]);
  }

  lemma ConfirmedIs(s: State, io: RotateIo, stuck: set<nat>, cap: nat)
    requires s.phase.Running? && s.signals != []
    ensures Enabled(s, Confirmed(io, stuck))
    ensures var t := Step(s, Confirmed(io, stuck), cap);
            (t.wal, t.dir) == Confirm(s.wal, s.dir, s.signals[0], io, stuck)
  {
    hide Confirm, ReleasedBy;
  }

  lemma NothingIsLeft(s: State)
    requires CountsMatchRows(s) && Staged(s) == [] && |s.signals| == 1
    ensures s.wal.confirmed + s.signals[0] == |s.counted|
  {
    assert s.signals[1..] == [];
    assert |s.counted[s.wal.confirmed + Sum(s.signals)..]| == 0;
    hide Flat;
  }
}
