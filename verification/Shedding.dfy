/**
 Why "no shedding" is needed: `return_to_live_buffer` drops rows without a
 signal, so from then on every confirmation counts against older segments, and
 ordinary later traffic reclaims the segment that holds the only copy.
 */
module Shedding {
  import opened Seqs
  import opened Records
  import opened WritePath
  import opened LogInvariant
  import opened WriteRuns
  import opened ZeroLoss

  // -------------------------------------------------------- reaching states

  ghost predicate Calm(es: seq<Event>) {
    forall e | e in es :: !e.Crash?
  }

  /** `t` follows from `s` by some run without a crash that sheds nothing. */
  ghost predicate CanReach(s: State, t: State, cap: nat) {
    exists es: seq<Event> :: Calm(es) && Legal(s, es, cap) && NeverSheds(s, es, cap) && Exec(s, es, cap) == t
  }

  lemma ReachSelf(s: State, cap: nat)
    ensures CanReach(s, s, cap)
  {
    var es: seq<Event> := [];
    assert Calm(es) && Legal(s, es, cap) && NeverSheds(s, es, cap) && Exec(s, es, cap) == s;
  }

  lemma ReachStep(s: State, e: Event, t: State, cap: nat)
    requires Enabled(s, e) && !Sheds(s, e, cap) && !e.Crash?
    requires CanReach(Step(s, e, cap), t, cap)
    ensures CanReach(s, t, cap)
  {
    hide Step, Enabled, Sheds;
    var es: seq<Event> :| Calm(es) && Legal(Step(s, e, cap), es, cap) && NeverSheds(Step(s, e, cap), es, cap)
                          && Exec(Step(s, e, cap), es, cap) == t;
    var all := [e] + es;
    assert all[0] == e && all[1..] == es;
    assert Calm(all) && Legal(s, all, cap) && NeverSheds(s, all, cap) && Exec(s, all, cap) == t;
  }

  lemma {:induction false} ReachAfterRun(s: State, es: seq<Event>, t: State, cap: nat)
    requires Calm(es) && Legal(s, es, cap) && NeverSheds(s, es, cap)
    requires CanReach(Exec(s, es, cap), t, cap)
    ensures CanReach(s, t, cap)
    decreases |es|
  {
    hide Step, Enabled, Sheds, CanReach;
    if es != [] {
      ReachAfterRun(Step(s, es[0], cap), es[1..], t, cap);
      ReachStep(s, es[0], t, cap);
    }
  }

  lemma ReachTrans(s: State, m: State, t: State, cap: nat)
    requires CanReach(s, m, cap) && CanReach(m, t, cap)
    ensures CanReach(s, t, cap)
  {
    var es: seq<Event> :| Calm(es) && Legal(s, es, cap) && NeverSheds(s, es, cap) && Exec(s, es, cap) == m;
    ReachAfterRun(s, es, t, cap);
  }

  // ----------------------------------------------- ordinary, healthy traffic

  const HEALTHY := RotateIo(true, true, true)

  /** A running worker with an open writer and no sealed file it does not list. */
  ghost predicate Ready(s: State) {
    Up(s) && s.phase.Running? && s.wal.open && s.dir.files.Keys == SeqNos(s.wal.sealed)
  }

  lemma HealthyConfirmKeepsReady(s: State, cap: nat)
    requires Ready(s) && s.signals != []
    ensures Ready(Step(s, Confirmed(HEALTHY, {}), cap))
    ensures Step(s, Confirmed(HEALTHY, {}), cap).dir.active == EMPTY_SEGMENT
  {
    hide Pick, DiskLog, Bag, LogInv, Aligned;
    StepKeeps(s, Confirmed(HEALTHY, {}), cap);
    HealthyConfirmLeavesNoStray(s.wal, s.dir, s.counted, s.released, s.signals[0]);
  }

  lemma HealthySealLeavesNoStray(wal: Wal, dir: Dir, rows: nat)
    requires wal.open && dir.files.Keys == SeqNos(wal.sealed)
    ensures var (wal', dir') := Seal(wal, dir, rows, HEALTHY);
            wal'.open && dir'.files.Keys == SeqNos(wal'.sealed) && dir'.active == EMPTY_SEGMENT
  {
    SeqNosSplit(wal.sealed, [Sealed(wal.nextSeq, wal.cumulative)]);
    assert SeqNos([Sealed(wal.nextSeq, wal.cumulative)]) == {wal.nextSeq};
  }

  lemma ReclaimLeavesNoStray(wal: Wal, dir: Dir)
    requires dir.files.Keys == SeqNos(wal.sealed)
    requires forall i, j | 0 <= i < j < |wal.sealed| :: wal.sealed[i].seqNo < wal.sealed[j].seqNo
    ensures Reclaim(wal, dir, {}).1.files.Keys == SeqNos(Reclaim(wal, dir, {}).0.sealed)
  {
    var n := Reclaimable(wal.sealed, wal.confirmed);
    SeqNosDrop(wal.sealed, n);
    assert Reclaim(wal, dir, {}).1.files.Keys == dir.files.Keys - (SeqNos(wal.sealed[..n]) - {});
  }

  lemma HealthyConfirmLeavesNoStray(wal: Wal, dir: Dir, counted: seq<LogRecord>, released: nat, rows: nat)
    requires LogInv(wal, dir, counted, released) && wal.open && dir.files.Keys == SeqNos(wal.sealed)
    ensures var (wal', dir') := Confirm(wal, dir, rows, HEALTHY, {});
            wal'.open && dir'.files.Keys == SeqNos(wal'.sealed) && dir'.active == EMPTY_SEGMENT
  {
    hide Pick, DiskLog, Seal, SeqNos;
    SealKeepsLog(wal, dir, counted, released, rows, HEALTHY);
    HealthySealLeavesNoStray(wal, dir, rows);
    ReclaimLeavesNoStray(Seal(wal, dir, rows, HEALTHY).0, Seal(wal, dir, rows, HEALTHY).1);
  }

  lemma SeqNosSplit(a: seq<Sealed>, b: seq<Sealed>)
    ensures SeqNos(a + b) == SeqNos(a) + SeqNos(b)
  {
    forall s | s in a ensures s in a + b {}
    forall s | s in b ensures s in a + b {}
  }

  lemma SeqNosDrop(sealed: seq<Sealed>, n: nat)
    requires n <= |sealed|
    requires forall i, j | 0 <= i < j < |sealed| :: sealed[i].seqNo < sealed[j].seqNo
    ensures SeqNos(sealed) - SeqNos(sealed[..n]) == SeqNos(sealed[n..])
  {
    assert sealed == sealed[..n] + sealed[n..];
    SeqNosSplit(sealed[..n], sealed[n..]);
  }

  /** The queued confirmations can be worked off. */
  lemma {:induction false} Settle(s: State, cap: nat) returns (t: State)
    requires Ready(s)
    ensures CanReach(s, t, cap) && Ready(t)
    ensures t == s.(wal := t.wal, dir := t.dir, signals := [], released := t.released)
    decreases |s.signals|
  {
    hide Up, Confirm, ReleasedBy;
    if s.signals == [] {
      t := s;
      ReachSelf(s, cap);
    } else {
      HealthyConfirmKeepsReady(s, cap);
      t := Settle(Step(s, Confirmed(HEALTHY, {}), cap), cap);
      ReachStep(s, Confirmed(HEALTHY, {}), t, cap);
    }
  }

  lemma ReceiveIs(s: State, cap: nat)
    requires Enabled(s, Receive)
    ensures !Sheds(s, Receive, cap)
    ensures Step(s, Receive, cap) == s.(table := s.table + s.handoff[0], handoff := s.handoff[1..])
  {
  }

  lemma CanReceive(s: State)
    ensures s.phase.Running? && s.handoff != [] ==> Enabled(s, Receive)
  {
  }

  lemma FlatFront(batches: seq<seq<LogRecord>>, table: seq<LogRecord>)
    ensures batches == [] ==> table + Flat(batches) == table
    ensures batches != [] ==> table + batches[0] + Flat(batches[1..]) == table + Flat(batches)
  {
    if batches != [] {
      Assoc(table, batches[0], Flat(batches[1..]));
    }
  }

  /** The hand-off queue can be drained into the table. */
  lemma {:induction false} ReceiveAll(s: State, cap: nat) returns (t: State)
    requires Up(s) && s.phase.Running?
    ensures CanReach(s, t, cap) && Up(t)
    ensures t == s.(handoff := [], table := s.table + Flat(s.handoff))
    decreases |s.handoff|
  {
    hide *;
    FlatFront(s.handoff, s.table);
    if s.handoff == [] {
      t := s;
      ReachSelf(s, cap);
    } else {
      CanReceive(s);
      ReceiveIs(s, cap);
      ReceiveKeeps(s, Receive, cap);
      t := ReceiveAll(Step(s, Receive, cap), cap);
      ReachStep(s, Receive, t, cap);
    }
  }

  function Filler(f: LogRecord, n: nat): seq<LogRecord> {
    seq(n, _ => f)
  }

  /** What one round of traffic does: `n` records `f` are acknowledged,
      everything staged is flushed, and the flush is confirmed. */
  ghost predicate RoundTo(s: State, n: nat, f: LogRecord, t: State) {
    var (wal, dir, _) := Commit(s.wal, s.dir, Filler(f, n), Durable);
    && Ready(t)
    && Staged(t) == [] && t.signals == [] && t.inflight == []
    && t.dropped == s.dropped
    && t.shed == s.shed
    && t.acked == s.acked + multiset(Filler(f, n))
    && t.counted == s.counted + Filler(f, n)
    && t.parquet == s.parquet + multiset(Staged(s) + Filler(f, n))
    && t.dir.active == EMPTY_SEGMENT
    && (t.wal, t.dir) == Confirm(wal, dir, |Staged(s)| + n, HEALTHY, {})
  }

  /** A round begins with a group of one batch. */
  lemma AppendOne(s: State, n: nat, f: LogRecord, cap: nat)
    requires Ready(s)
    ensures var e := Append([Filler(f, n)], Durable);
            var (wal, dir, _) := Commit(s.wal, s.dir, Filler(f, n), Durable);
            && Enabled(s, e)
            && Up(Step(s, e, cap))
            && Step(s, e, cap) == s.(wal := wal, dir := dir, handoff := s.handoff + [Filler(f, n)],
                                     acked := s.acked + multiset(Filler(f, n)), counted := s.counted + Filler(f, n))
            && Flat(s.handoff + [Filler(f, n)]) == Flat(s.handoff) + Filler(f, n)
  {
    hide Up, Filler;
    FlatOne(Filler(f, n));
    FlatAppend(s.handoff, [Filler(f, n)]);
    StepKeepsUp(s, Append([Filler(f, n)], Durable), cap);
  }

  /** Then everything handed over is moved into the live buffer. */
  lemma StageAll(s: State, cap: nat) returns (t: State)
    requires Up(s) && s.phase.Running? && Flat(s.handoff) != []
    ensures CanReach(s, t, cap) && Up(t)
    ensures t == s.(handoff := [], table := [], live := s.live + [s.table + Flat(s.handoff)])
  {
    hide Up, Flat;
    var b := ReceiveAll(s, cap);
    StepKeepsUp(b, Push, cap);
    t := Step(b, Push, cap);
    ReachSelf(t, cap);
    ReachStep(b, Push, t, cap);
    ReachTrans(s, b, t, cap);
  }

  /** First half of a round: append and stage. */
  lemma AppendAndStage(s: State, n: nat, f: LogRecord, cap: nat) returns (t: State)
    requires Ready(s) && s.inflight == [] && 0 < n
    ensures CanReach(s, t, cap) && Up(t)
    ensures var (wal, dir, _) := Commit(s.wal, s.dir, Filler(f, n), Durable);
            t == s.(wal := wal, dir := dir, handoff := [], table := [],
                    live := s.live + [s.table + (Flat(s.handoff) + Filler(f, n))],
                    acked := s.acked + multiset(Filler(f, n)), counted := s.counted + Filler(f, n))
    ensures Flat(t.live) == Staged(s) + Filler(f, n)
  {
    hide Up, Filler, Flat, Commit, Staged;
    var e := Append([Filler(f, n)], Durable);
    AppendOne(s, n, f, cap);
    FillerLength(f, n);
    var a := Step(s, e, cap);
    t := StageAll(a, cap);
    LiveAfterStaging(s, Filler(f, n));
    ReachStep(s, e, t, cap);
  }

  lemma LiveAfterStaging(s: State, rows: seq<LogRecord>)
    requires s.inflight == []
    ensures Flat(s.live + [s.table + (Flat(s.handoff) + rows)]) == Staged(s) + rows
  {
    hide Flat;
    var last := s.table + (Flat(s.handoff) + rows);
    FlatAppend(s.live, [last]);
    FlatOne(last);
    FlatNone<LogRecord>();
    Reassociate(Flat(s.live), s.table, Flat(s.handoff), rows);
    assert Flat(s.live) + last == Flat(s.live) + s.table + Flat(s.handoff) + rows;
  }

  lemma FillerLength(f: LogRecord, n: nat)
    ensures |Filler(f, n)| == n
  {
  }

  lemma StepKeepsUp(s: State, e: Event, cap: nat)
    requires Up(s) && !s.phase.Down? && Enabled(s, e) && !e.Crash?
    ensures Up(Step(s, e, cap))
  {
    hide Up, Step;
    StepKeeps(s, e, cap);
    PhaseAfter(s, e, cap);
  }

  lemma CommitKeepsStray(s: State, records: seq<LogRecord>)
    requires Ready(s)
    ensures var (wal, dir, _) := Commit(s.wal, s.dir, records, Durable);
            wal.open && dir.files.Keys == SeqNos(wal.sealed)
  {
    hide Up;
  }

  /** Second half: flush and confirm. */
  lemma FlushAndConfirm(s: State, cap: nat) returns (t: State)
    requires Ready(s) && s.signals == [] && s.inflight == [] && s.live != []
    ensures CanReach(s, t, cap) && Ready(t) && t.dir.active == EMPTY_SEGMENT
    ensures t == s.(wal := t.wal, dir := t.dir, live := [], released := t.released,
                    parquet := s.parquet + multiset(Flat(s.live)))
    ensures (t.wal, t.dir) == Confirm(s.wal, s.dir, |Flat(s.live)|, HEALTHY, {})
  {
    hide Up, Confirm, ReleasedBy, Flat;
    StepKeepsUp(s, BeginFlush, cap);
    var b := Step(s, BeginFlush, cap);
    StepKeepsUp(b, FlushDone, cap);
    var c := Step(b, FlushDone, cap);
    HealthyConfirmKeepsReady(c, cap);
    t := Step(c, Confirmed(HEALTHY, {}), cap);
    ReachSelf(t, cap);
    ReachStep(c, Confirmed(HEALTHY, {}), t, cap);
    ReachStep(b, FlushDone, t, cap);
    ReachStep(s, BeginFlush, t, cap);
  }

  lemma Round(s: State, n: nat, f: LogRecord, cap: nat) returns (t: State)
    requires Ready(s) && s.signals == [] && s.inflight == [] && 0 < n
    ensures CanReach(s, t, cap) && RoundTo(s, n, f, t)
  {
    hide Up, Filler, Confirm, Flat;
    CommitKeepsStray(s, Filler(f, n));
    var a := AppendAndStage(s, n, f, cap);
    t := FlushAndConfirm(a, cap);
    FillerLength(f, n);
    FlatNone<LogRecord>();
    ReachTrans(s, a, t, cap);
  }

  // ------------------------------------------------------------ the theorem

  /** After a second round as long as what was shed, the log on disk holds the
      second round's records and nothing else. */
  lemma SecondRoundLeavesOnlyItself(s: State, f: LogRecord, t: State)
    requires Ready(s) && Staged(s) == [] && s.signals == [] && s.dir.active == EMPTY_SEGMENT && 0 < s.dropped
    requires RoundTo(s, s.dropped, f, t)
    ensures ReplayAll(t.dir) == Filler(f, s.dropped)
  {
    var n := s.dropped;
    var (wal, dir, _) := Commit(s.wal, s.dir, Filler(f, n), Durable);
    ConfirmedIsCountedMinusDropped(s);
    CommitKeepsLog(s.wal, s.dir, s.counted, s.released, Filler(f, n), Durable);
    SealKeepsLog(wal, dir, s.counted + Filler(f, n), s.released, n, HEALTHY);
    var (sealing, dir1) := Seal(wal, dir, n, HEALTHY);
    ReclaimableExact(sealing, dir1, s.counted + Filler(f, n), s.released);
    CumulativesBounded(s);
    OnlyLastRemains(s, wal, dir, n);
    RemainingLog(t.dir, s.wal.nextSeq, Filler(f, n));
  }

  lemma ConfirmedIsCountedMinusDropped(s: State)
    requires Up(s) && s.phase.Running? && Staged(s) == [] && s.signals == []
    ensures s.wal.confirmed + s.dropped == |s.counted| == s.wal.cumulative
  {
    hide Pick, DiskLog, Bag, Staged;
    assert |s.counted[Passed(s)..]| == 0;
  }

  lemma CumulativesBounded(s: State)
    requires Up(s)
    ensures forall i | 0 <= i < |s.wal.sealed| :: s.wal.sealed[i].cumulative <= |s.counted|
  {
    hide Pick, DiskLog, Bag;
    forall i | 0 <= i < |s.wal.sealed| ensures s.wal.sealed[i].cumulative <= |s.counted| {
      assert Listed(s.wal.sealed, s.dir, s.counted, s.released, i);
    }
  }

  lemma OnlyLastRemains(s: State, wal: Wal, dir: Dir, n: nat)
    requires Ready(s)
    requires 0 < n && wal.open && wal.sealed == s.wal.sealed && wal.nextSeq == s.wal.nextSeq && dir.files == s.dir.files
    requires wal.confirmed + n == |s.counted| && wal.cumulative == |s.counted| + n
    requires forall i | 0 <= i < |wal.sealed| :: wal.sealed[i].cumulative <= |s.counted|
    ensures var (wal', dir') := Confirm(wal, dir, n, HEALTHY, {});
            && dir'.files.Keys == {wal.nextSeq}
            && dir'.files[wal.nextSeq].entries == dir.active.entries
            && dir'.active == EMPTY_SEGMENT
  {
    hide Pick, DiskLog, Up;
    var (sealing, dir1) := Seal(wal, dir, n, HEALTHY);
    var last := Sealed(wal.nextSeq, wal.cumulative);
    assert sealing.sealed == wal.sealed + [last];
    var r := Reclaimable(sealing.sealed, sealing.confirmed);
    assert forall i | 0 <= i < |wal.sealed| :: sealing.sealed[i] == wal.sealed[i];
    assert sealing.sealed[|wal.sealed|] == last;
    assert r == |wal.sealed|;
    assert sealing.sealed[..r] == wal.sealed;
    FilesBelowNext(s);
  }

  lemma FilesBelowNext(s: State)
    requires Up(s)
    ensures forall k | k in s.dir.files :: k < s.wal.nextSeq
  {
    hide Pick, DiskLog, Bag;
  }

  lemma OneFileLog(dir: Dir, k: nat)
    requires dir.files.Keys == {k} && dir.active == EMPTY_SEGMENT
    ensures DiskLog(dir) == dir.files[k].entries
  {
    DiskLogAt(dir, k + 1);
    LogBelowEmpty(dir.files, k);
    LogBelowNext(dir.files, k);
    hide LogBelow, DiskLog;
    Alone(dir.files[k].entries);
  }

  lemma LogBelowNext(files: map<nat, Segment>, k: nat)
    ensures LogBelow(files, k + 1) == LogBelow(files, k) + EntriesAt(files, k)
  {
  }

  lemma Alone<T>(s: seq<T>)
    ensures [] + s + [] == s
  {
  }

  lemma TagsBack(records: seq<LogRecord>)
    ensures RecordsOf(Tag(records, Acked)) == records
  {
  }

  lemma ReplayIs(dir: Dir)
    ensures ReplayAll(dir) == RecordsOf(DiskLog(dir))
  {
  }

  lemma RemainingLog(dir: Dir, k: nat, records: seq<LogRecord>)
    requires dir.files.Keys == {k} && dir.files[k].entries == Tag(records, Acked) && dir.active == EMPTY_SEGMENT
    ensures ReplayAll(dir) == records
  {
    hide *;
    OneFileLog(dir, k);
    TagsBack(records);
    ReplayIs(dir);
  }

  lemma {:induction false} LogBelowEmpty(files: map<nat, Segment>, n: nat)
    requires forall k | k in files :: n <= k
    ensures LogBelow(files, n) == []
  {
    if n > 0 {
      LogBelowEmpty(files, n - 1);
    }
  }

  lemma NothingListed(s: State, n: nat, f: LogRecord, t: State)
    requires Ready(s) && 0 < n && RoundTo(s, n, f, t) && t.dropped == 0
    ensures t.wal.sealed == []
  {
    ConfirmedIsCountedMinusDropped(t);
    CumulativesBounded(t);
    hide Up, Confirm, Commit, Staged;
    ConfirmLeavesUnconfirmed(Commit(s.wal, s.dir, Filler(f, n), Durable).0,
                             Commit(s.wal, s.dir, Filler(f, n), Durable).1,
                             |Staged(s)| + n, HEALTHY);
  }

  /** After a round in a boot that has shed nothing, the log on disk is empty. */
  lemma RoundEmptiesTheLog(s: State, n: nat, f: LogRecord, t: State)
    requires Ready(s) && 0 < n && RoundTo(s, n, f, t) && t.dropped == 0
    ensures ReplayAll(t.dir) == []
  {
    NothingListed(s, n, f, t);
    hide Up, Confirm, Commit, Staged;
    assert t.dir.files.Keys == {};
    EmptyDirReplays(t.dir);
  }

  lemma EmptyDirReplays(dir: Dir)
    requires dir.files.Keys == {} && dir.active == EMPTY_SEGMENT
    ensures ReplayAll(dir) == []
  {
    DiskLogAt(dir, 0);
  }

  lemma ConfirmLeavesUnconfirmed(wal: Wal, dir: Dir, rows: nat, io: RotateIo)
    ensures var (w, _) := Confirm(wal, dir, rows, io, {}); w.sealed != [] ==> w.sealed[0].cumulative > w.confirmed
  {
    hide Seal;
  }

  /** Every copy of an acknowledged record that is not in Parquet is on its way there. */
  ghost predicate Covered(s: State) {
    s.acked <= s.parquet + multiset(Staged(s))
  }

  lemma MissingRecord(s: State) returns (r: LogRecord)
    requires !Covered(s)
    ensures s.acked[r] > s.parquet[r] + multiset(Staged(s))[r]
  {
    hide Staged;
    r :| s.acked[r] > (s.parquet + multiset(Staged(s)))[r];
  }

  /** From a ready state that is not covered, ordinary traffic leads to a ready state
      with a loss. */
  lemma UncoveredIsLost(s: State, cap: nat) returns (u: State)
    requires Ready(s) && s.inflight == [] && !Covered(s)
    ensures CanReach(s, u, cap) && Ready(u) && u.inflight == [] && !NothingLost(u)
  {
    hide Up;
    var r := MissingRecord(s);
    var f := r.(timestampUs := r.timestampUs + 1);
    var a := Settle(s, cap);
    u := Round(a, 1, f, cap);
    ReachTrans(s, a, u, cap);
    assert Staged(a) == Staged(s);
    NoneInFiller(f, 1, r);
    if u.dropped == 0 {
      RoundEmptiesTheLog(a, 1, f, u);
    } else {
      var b := u;
      u := Round(b, b.dropped, f, cap);
      ReachTrans(s, b, u, cap);
      SecondRoundLeavesOnlyItself(b, f, u);
      NoneInFiller(f, b.dropped, r);
    }
    LostOne(u, r);
  }

  lemma LostOne(s: State, r: LogRecord)
    requires s.acked[r] > s.parquet[r] && multiset(ReplayAll(s.dir))[r] == 0
    ensures !NothingLost(s)
  {
    hide ReplayAll;
  }

  /** From every ready state whose failed flush leaves an acknowledged record with
      fewer copies, stored and staged, than were acknowledged, ordinary traffic
      leads to a state where a copy is gone. */
  lemma ShedRowsCanBeLost(s: State, e: Event, cap: nat, r: LogRecord)
    requires Ready(s) && e.FlushFailed? && Enabled(s, e)
    requires var t := Step(s, e, cap); t.acked[r] > t.parquet[r] + multiset(Staged(t))[r]
    ensures exists u :: CanReach(Step(s, e, cap), u, cap) && !NothingLost(u)
  {
    FlushFailedKeepsReady(s, e, cap);
    hide *;
    NotCovered(Step(s, e, cap), r);
    var u := UncoveredIsLost(Step(s, e, cap), cap);
  }

  lemma FlushFailedKeepsReady(s: State, e: Event, cap: nat)
    requires Ready(s) && e.FlushFailed? && Enabled(s, e)
    ensures Ready(Step(s, e, cap)) && Step(s, e, cap).inflight == []
  {
    hide Up, Trim, ShedRows, Flat;
    StepKeepsUp(s, e, cap);
  }

  lemma NotCovered(s: State, r: LogRecord)
    requires s.acked[r] > s.parquet[r] + multiset(Staged(s))[r]
    ensures !Covered(s)
  {
    hide Staged;
  }

  lemma NoneInFiller(f: LogRecord, n: nat, r: LogRecord)
    requires f != r
    ensures multiset(Filler(f, n))[r] == 0
  {
    assert r !in Filler(f, n);
  }

  /** A flush that fails before anything is published. */
  const FAILS_WHOLE := FlushFailed(multiset{})

  lemma FailsWholeStep(s: State, cap: nat)
    requires Enabled(s, FAILS_WHOLE)
    ensures var t := Step(s, FAILS_WHOLE, cap);
            && t.acked == s.acked && t.parquet == s.parquet && t.inflight == []
               && t.live == Trim(s.inflight + s.live, cap)
            && t.table == s.table && t.handoff == s.handoff
  {
    hide Trim, ShedRows, Flat;
    assert s.parquet + multiset{} == s.parquet;
  }

  // ------------------------------------------- when a failed flush is safe

  lemma EndOfLog(counted: seq<LogRecord>, released: nat, passed: nat, log: multiset<LogRecord>)
    requires released <= passed <= |counted| && multiset(counted[released..]) <= log
    ensures multiset(counted[passed..]) <= log
  {
    assert counted[released..] == counted[released..passed] + counted[passed..];
  }

  lemma StagedOnDisk(s: State)
    requires Up(s)
    ensures multiset(Staged(s)) <= multiset(ReplayAll(s.dir))
  {
    ReleasedBeforePassed(s);
    BagWithin(DiskLog(s.dir), COUNTED_OR_ACKED);
    hide Pick, DiskLog, Bag, LogInv, Staged, Passed, ReplayAll;
    UnreleasedOnDisk(s.wal, s.dir, s.counted, s.released);
    EndOfLog(s.counted, s.released, Passed(s), Bag(DiskLog(s.dir), COUNTED_OR_ACKED));
    ReplayIs(s.dir);
  }

  lemma Within(acked: multiset<LogRecord>, parquet: multiset<LogRecord>, staged: multiset<LogRecord>,
               log: multiset<LogRecord>)
    requires acked <= parquet + staged && staged <= log
    ensures acked <= parquet + log
  {
    forall r ensures acked[r] <= (parquet + log)[r] {
      assert acked[r] <= (parquet + staged)[r] && staged[r] <= log[r];
    }
  }

  lemma CoveredIsSafe(s: State)
    requires Up(s) && Covered(s)
    ensures NothingLost(s)
  {
    StagedOnDisk(s);
    hide Up, Staged, ReplayAll;
    Within(s.acked, s.parquet, multiset(Staged(s)), multiset(ReplayAll(s.dir)));
  }

  lemma MoveRows(acked: multiset<LogRecord>, parquet: multiset<LogRecord>, rows: multiset<LogRecord>,
                 before: multiset<LogRecord>, after: multiset<LogRecord>)
    requires acked <= parquet + before && before == rows + after
    ensures acked <= parquet + rows + after
  {
  }

  lemma MoreOnBoth(acked: multiset<LogRecord>, parquet: multiset<LogRecord>, staged: multiset<LogRecord>,
                   rows: multiset<LogRecord>)
    requires acked <= parquet + staged
    ensures acked + rows <= parquet + (staged + rows)
    ensures acked <= parquet + rows + staged
  {
  }

  lemma AppendIs(s: State, e: Event, cap: nat)
    requires e.Append? && Enabled(s, e)
    ensures var t, rows := Step(s, e, cap), Flat(e.batches);
            && t.parquet == s.parquet && t.inflight == s.inflight && t.live == s.live && t.table == s.table
            && if Commit(s.wal, s.dir, rows, e.commit).2
               then t.acked == s.acked + multiset(rows) && t.handoff == s.handoff + e.batches
               else t.acked == s.acked && t.handoff == s.handoff
  {
    hide Flat, Commit;
  }

  lemma AppendStages(s: State, e: Event, cap: nat)
    requires e.Append? && Enabled(s, e)
    ensures var t, rows := Step(s, e, cap), Flat(e.batches);
            && t.parquet == s.parquet
            && if Commit(s.wal, s.dir, rows, e.commit).2
               then t.acked == s.acked + multiset(rows) && Staged(t) == Staged(s) + rows
               else t.acked == s.acked && Staged(t) == Staged(s)
  {
    AppendIs(s, e, cap);
    FlatAppend(s.handoff, e.batches);
    hide Flat, Commit, Step, Enabled;
    Assoc(Flat(s.inflight) + Flat(s.live) + s.table, Flat(s.handoff), Flat(e.batches));
  }

  lemma AppendCovers(s: State, e: Event, cap: nat)
    requires e.Append? && Enabled(s, e) && Covered(s)
    ensures Covered(Step(s, e, cap))
  {
    AppendStages(s, e, cap);
    hide Flat, Commit, Step, Staged, Enabled;
    if Commit(s.wal, s.dir, Flat(e.batches), e.commit).2 {
      MoreOnBoth(s.acked, s.parquet, multiset(Staged(s)), multiset(Flat(e.batches)));
    }
  }

  lemma FlushDoneStores(s: State, cap: nat)
    requires Enabled(s, FlushDone)
    ensures var t := Step(s, FlushDone, cap);
            t.acked == s.acked && t.parquet == s.parquet + multiset(Flat(s.inflight))
  {
    hide Flat;
  }

  lemma FlushDoneCovers(s: State, e: Event, cap: nat)
    requires e.FlushDone? && Enabled(s, e) && Covered(s)
    ensures Covered(Step(s, e, cap))
  {
    FlushDoneStages(s, cap);
    FlushDoneStores(s, cap);
    hide Staged, Step, Flat, Passed, Enabled;
    MoveRows(s.acked, s.parquet, multiset(Flat(s.inflight)), multiset(Staged(s)), multiset(Staged(Step(s, e, cap))));
  }

  lemma FlushFailedStages(s: State, e: Event, cap: nat)
    requires e.FlushFailed? && Enabled(s, e) && !Sheds(s, e, cap)
    ensures var t := Step(s, e, cap);
            t.acked == s.acked && t.parquet == s.parquet + e.landed && Staged(t) == Staged(s)
  {
    TrimSplits(s.inflight + s.live, cap);
    FlatAppend(s.inflight, s.live);
    FlatNone<LogRecord>();
    hide Flat, Trim, ShedRows;
    assert [] + (Flat(s.inflight) + Flat(s.live)) == Flat(s.inflight) + Flat(s.live);
  }

  lemma FlushFailedCovers(s: State, e: Event, cap: nat)
    requires e.FlushFailed? && Enabled(s, e) && !Sheds(s, e, cap) && Covered(s)
    ensures Covered(Step(s, e, cap))
  {
    FlushFailedStages(s, e, cap);
    hide Staged, Step, Enabled, Sheds;
    MoreOnBoth(s.acked, s.parquet, multiset(Staged(s)), e.landed);
  }

  lemma MovingCovers(s: State, e: Event, cap: nat)
    requires Up(s) && !s.phase.Down? && Enabled(s, e) && Covered(s)
    requires e.WalExit? || e.Receive? || e.Push? || e.BeginFlush?
    ensures Covered(Step(s, e, cap))
  {
    UpLosesOnlyDraining(s);
    hide Up, Step, Enabled, Staged, Passed, LostOnlyDraining;
    match e
    case WalExit => WalExitStages(s, cap);
    case Receive => ReceiveStages(s, cap);
    case Push => PushStages(s, cap);
    case BeginFlush => BeginFlushStages(s, cap);
  }

  lemma ConfirmedCovers(s: State, e: Event, cap: nat)
    requires e.Confirmed? && Enabled(s, e) && Covered(s)
    ensures Covered(Step(s, e, cap))
  {
    hide Confirm, ReleasedBy, Flat;
  }

  lemma UpIsNotRestarted(s: State, e: Event)
    requires !s.phase.Down? && Enabled(s, e)
    ensures !e.Restart?
  {
  }

  lemma StepKeepsCovered(s: State, e: Event, cap: nat)
    requires Up(s) && !s.phase.Down? && Enabled(s, e) && Covered(s) && !e.Crash? && !Sheds(s, e, cap)
    ensures Covered(Step(s, e, cap))
  {
    hide *;
    UpIsNotRestarted(s, e);
    if e.Append? {
      AppendCovers(s, e, cap);
    } else if e.Confirmed? {
      ConfirmedCovers(s, e, cap);
    } else if e.FlushDone? {
      FlushDoneCovers(s, e, cap);
    } else if e.FlushFailed? {
      FlushFailedCovers(s, e, cap);
    } else {
      MovingCovers(s, e, cap);
    }
  }

  lemma {:induction false} CalmRunIsSafe(s: State, es: seq<Event>, cap: nat)
    requires Up(s) && !s.phase.Down? && Covered(s) && Calm(es) && Legal(s, es, cap) && NeverSheds(s, es, cap)
    ensures NothingLost(Exec(s, es, cap))
    decreases |es|
  {
    hide Up, Covered, Step, Enabled, Sheds, NothingLost;
    if es == [] {
      CoveredIsSafe(s);
    } else {
      assert es[0] in es && forall e | e in es[1..] :: e in es;
      StepKeepsUp(s, es[0], cap);
      PhaseAfter(s, es[0], cap);
      StepKeepsCovered(s, es[0], cap);
      CalmRunIsSafe(Step(s, es[0], cap), es[1..], cap);
    }
  }

  /** In any ready state, whatever a failed flush had published before it failed:
      no traffic without a crash and without further shedding loses a record
      exactly when, after the step, every acknowledged copy that is not in
      Parquet is still staged. */
  lemma FailedFlushIsSafeIff(s: State, landed: multiset<LogRecord>, cap: nat)
    requires Ready(s) && Enabled(s, FlushFailed(landed))
    ensures (forall u | CanReach(Step(s, FlushFailed(landed), cap), u, cap) :: NothingLost(u))
            <==> Covered(Step(s, FlushFailed(landed), cap))
  {
    var t := Step(s, FlushFailed(landed), cap);
    FlushFailedKeepsReady(s, FlushFailed(landed), cap);
    assert Up(t) && !t.phase.Down?;
    hide Up, Covered, NothingLost, Legal, NeverSheds, Exec, Step, Enabled;
    if Covered(t) {
      forall u | CanReach(t, u, cap) ensures NothingLost(u) {
        var es: seq<Event> :| Calm(es) && Legal(t, es, cap) && NeverSheds(t, es, cap) && Exec(t, es, cap) == u;
        CalmRunIsSafe(t, es, cap);
      }
    } else {
      var u := UncoveredIsLost(t, cap);
    }
  }

  // ----------------------------------------------- when the rows fit the cap

  /** No run from `s` that sheds nothing, with or without crashes, loses a record. */
  ghost predicate SafeFrom(s: State, cap: nat) {
    forall es: seq<Event> | Legal(s, es, cap) && NeverSheds(s, es, cap) :: NothingLost(Exec(s, es, cap))
  }

  lemma SafeWithoutShedding(head: seq<Event>, s: State, e: Event, cap: nat)
    requires Legal(INIT, head, cap) && NeverSheds(INIT, head, cap) && Exec(INIT, head, cap) == s
    requires Enabled(s, e) && !Sheds(s, e, cap)
    ensures SafeFrom(Step(s, e, cap), cap)
  {
    hide Step, NothingLost, Sheds;
    forall es: seq<Event> | Legal(Step(s, e, cap), es, cap) && NeverSheds(Step(s, e, cap), es, cap)
      ensures NothingLost(Exec(Step(s, e, cap), es, cap))
    {
      var tail := [e] + es;
      assert tail[0] == e && tail[1..] == es;
      NeverShedsJoin(INIT, head, tail, cap);
      NoAcknowledgedRecordIsLost(head + tail, cap);
    }
  }

  lemma SafeFromReaches(s: State, u: State, cap: nat)
    requires SafeFrom(s, cap) && CanReach(s, u, cap)
    ensures NothingLost(u)
  {
    hide Legal, NeverSheds, Exec, NothingLost;
  }

  lemma AddTo(a: seq<LogRecord>, b: seq<LogRecord>, shed: seq<LogRecord>, kept: seq<LogRecord>,
        table: seq<LogRecord>, handoff: seq<LogRecord>)
    requires a + b == shed + kept
    ensures multiset(a + b + table + handoff) == multiset(shed) + multiset([] + kept + table + handoff)
  {
    assert [] + kept + table + handoff == kept + (table + handoff);
    assert a + b + table + handoff == shed + (kept + (table + handoff));
  }

  /** A failed flush takes exactly the shed rows off the stages. */
  lemma ShedLeavesTheStages(s: State, cap: nat)
    requires Enabled(s, FAILS_WHOLE)
    ensures var shed, t := ShedRows(s.inflight + s.live, cap), Step(s, FAILS_WHOLE, cap);
            && multiset(Staged(s)) == multiset(shed) + multiset(Staged(t))
            && t.acked == s.acked && t.parquet == s.parquet
  {
    FailsWholeStep(s, cap);
    TrimSplits(s.inflight + s.live, cap);
    FlatAppend(s.inflight, s.live);
    hide Flat, Trim, ShedRows, Step, Enabled;
    FlatNone<LogRecord>();
    AddTo(Flat(s.inflight), Flat(s.live), ShedRows(s.inflight + s.live, cap), Flat(Trim(s.inflight + s.live, cap)),
          s.table, Flat(s.handoff));
  }

  lemma SomethingShed(batches: seq<seq<LogRecord>>, cap: nat) returns (r: LogRecord)
    requires Rows(batches) > cap
    ensures multiset(ShedRows(batches, cap))[r] > 0 && r in Flat(batches)
  {
    TrimSplits(batches, cap);
    r := ShedRows(batches, cap)[0];
    assert r in ShedRows(batches, cap);
  }

  /** No row about to be flushed is stored or staged more often than it was acknowledged. */
  ghost predicate NoSpareCopies(s: State) {
    forall r | r in Flat(s.inflight + s.live) :: s.acked[r] >= s.parquet[r] + multiset(Staged(s))[r]
  }

  lemma LastCopyShed(s: State, cap: nat)
    requires Enabled(s, FAILS_WHOLE) && NoSpareCopies(s) && Rows(s.inflight + s.live) > cap
    ensures !Covered(Step(s, FAILS_WHOLE, cap))
  {
    var r := SomethingShed(s.inflight + s.live, cap);
    ShedLeavesTheStages(s, cap);
    hide Step, Staged, Flat, ShedRows;
    NotCovered(Step(s, FAILS_WHOLE, cap), r);
  }

  lemma ShedsWhenOver(s: State, cap: nat)
    ensures Sheds(s, FAILS_WHOLE, cap) <==> Rows(s.inflight + s.live) > cap
    ensures FAILS_WHOLE.FlushFailed?
  {
  }

  /** In a ready state reached without shedding, where the rows about to be flushed
      have no spare copy, a flush that fails whole is safe, whatever follows it
      without further shedding, crashes too, exactly when those rows fit the cap. */
  lemma FittingFlushIsSafeIff(head: seq<Event>, s: State, cap: nat)
    requires Legal(INIT, head, cap) && NeverSheds(INIT, head, cap) && Exec(INIT, head, cap) == s
    requires Ready(s) && Enabled(s, FAILS_WHOLE) && NoSpareCopies(s)
    ensures SafeFrom(Step(s, FAILS_WHOLE, cap), cap) <==> Rows(s.inflight + s.live) <= cap
  {
    assert FAILS_WHOLE == FlushFailed(multiset{});
    hide *;
    ShedsWhenOver(s, cap);
    if Rows(s.inflight + s.live) <= cap {
      SafeWithoutShedding(head, s, FAILS_WHOLE, cap);
    } else {
      LastCopyShed(s, cap);
      FailedFlushIsSafeIff(s, multiset{}, cap);
      var u :| CanReach(Step(s, FAILS_WHOLE, cap), u, cap) && !NothingLost(u);
      if SafeFrom(Step(s, FAILS_WHOLE, cap), cap) {
        SafeFromReaches(Step(s, FAILS_WHOLE, cap), u, cap);
      }
    }
  }
}
