/**
 Runs of the two workers that lose acknowledged records: requests of one record each
 while Parquet writes fail, then ordinary traffic; and a crash after such a run.
 */
module LossRuns {
  import opened Seqs
  import opened Records
  import opened WritePath
  import opened LogInvariant
  import opened WriteRuns
  import opened ZeroLoss
  import opened MemTableWorker
  import opened Shedding
  import opened Crashes

  // ------------------------------------------------------------ the first boot

  const FIRST_BOOT := INIT.(phase := Running, wal := Wal(true, [], 0, 0, 1))

  lemma EmptyDirReplaysNothing()
    ensures Promote(EMPTY_SEGMENT) == EMPTY_SEGMENT
    ensures ReplayAll(INIT.dir) == [] && Reopen(INIT.dir, true) == Wal(true, [], 0, 0, 1)
  {
    assert LogBelow(map[], 1) == LogBelow(map[], 0) + [] == [];
    assert SealedBelow(map[], 1) == SealedBelow(map[], 0) + [] == [];
  }

  lemma BootsEmpty(cap: nat)
    ensures Step(INIT, Restart(true), cap) == FIRST_BOOT
    ensures Ready(FIRST_BOOT)
  {
    hide Promote, ReplayAll, Reopen, Up;
    EmptyDirReplaysNothing();
    assert (map k | k in INIT.dir.files :: Promote(INIT.dir.files[k])) == map[];
    assert Step(INIT, Restart(true), cap) == FIRST_BOOT;
    RestartKeeps(INIT, Restart(true), cap) by { InitInv(); }
    assert SeqNos([]) == {};
  }

  // ------------------------------------------------- requests while flushes fail

  const EMPTY_STAGE := Stage([], [], multiset{}, [])

  /** One record arrives; should a flush be due, it fails before anything is published. */
  function Request(r: LogRecord): Turn {
    Turn(Input.Records([r]), false, Broken(multiset{}))
  }

  /** The worker after `n` such turns. */
  function StageAfter(n: nat, r: LogRecord, limit: nat): Stage {
    if n == 0 then EMPTY_STAGE else AfterTurn(StageAfter(n - 1, r, limit), Request(r), limit)
  }

  /** The events of `n` requests, each a group of its own that is answered Ok, handed
      over, and taken up by one turn of the MemTable worker. */
  function Requests(n: nat, r: LogRecord, limit: nat): seq<Event> {
    if n == 0 then []
    else Requests(n - 1, r, limit)
         + ([Append([[r]], Durable)] + TurnEvents(StageAfter(n - 1, r, limit), Request(r), limit))
  }

  /** One full cap and one full table: `11 * limit` unless the cap saturates. */
  function TooMany(limit: nat): nat {
    LiveCap(limit) + Max(limit, 1)
  }

  lemma NothingLanded(n: nat, r: LogRecord, limit: nat)
    ensures StageAfter(n, r, limit).parquet == multiset{} && StageAfter(n, r, limit).signals == []
  {
    if n > 0 {
      NothingLanded(n - 1, r, limit);
      hide Trim, Flat;
    }
  }

  lemma {:induction false} StageBounds(n: nat, r: LogRecord, limit: nat)
    requires limit <= USIZE_MAX
    ensures TableBelow(StageAfter(n, r, limit), limit) && Rows(StageAfter(n, r, limit).live) <= LiveCap(limit)
  {
    if n == 0 {
      FlatNone<LogRecord>();
    } else {
      StageBounds(n - 1, r, limit);
      hide AfterTurn, Staging, Flat;
      TurnBounds(StageAfter(n - 1, r, limit), Request(r), limit, 1);
    }
  }

  /** Where the requests lead. */
  ghost predicate Requested(s: State, n: nat, r: LogRecord, limit: nat) {
    && Ready(s) && s.inflight == [] && s.handoff == [] && Matches(s, StageAfter(n, r, limit)) && s.acked[r] == n
  }

  lemma RequestAppends(s: State, r: LogRecord, cap: nat) returns (t: State)
    requires Ready(s)
    ensures Legal(s, [Append([[r]], Durable)], cap) && Exec(s, [Append([[r]], Durable)], cap) == t
    ensures Ready(t)
    ensures t == s.(wal := t.wal, dir := t.dir, handoff := s.handoff + [[r]], acked := s.acked + multiset([r]),
                    counted := t.counted)
  {
    assert Filler(r, 1) == [r];
    AppendOne(s, 1, r, cap);
    CommitKeepsStray(s, Filler(r, 1));
    hide Up, Commit, Step, Enabled;
    OneStep(s, Append([[r]], Durable), cap);
    t := Step(s, Append([[r]], Durable), cap);
  }

  lemma OneOf(r: LogRecord, acked: multiset<LogRecord>)
    ensures (acked + multiset([r]))[r] == acked[r] + 1
  {
  }

  lemma TurnKeepsReady(s: State, es: seq<Event>, t: State, cap: nat)
    requires Ready(s) && MovesBy(s, es, t, cap, false)
    ensures Ready(t) && t.inflight == s.inflight && t.acked == s.acked
  {
    RunKeeps(s, es, cap);
    hide Up, Legal, Exec;
    assert !t.phase.Down?;
  }

  lemma OneRequest(s: State, n: nat, r: LogRecord, limit: nat) returns (t: State)
    requires Requested(s, n, r, limit)
    ensures Legal(s, RequestEvents(n, r, limit), LiveCap(limit))
            && Exec(s, RequestEvents(n, r, limit), LiveCap(limit)) == t
    ensures Requested(t, n + 1, r, limit)
  {
    hide Ready, Legal, Exec, AfterTurn, Staging, TurnEvents, Flat, NeverSheds;
    var stage, cap := StageAfter(n, r, limit), LiveCap(limit);
    var a := RequestAppends(s, r, cap) by { assert Ready(s); }
    OneOf(r, s.acked);
    ReadyRuns(a);
    t := TurnIsARun(a, stage, Request(r), limit);
    MovesAnyway(a, TurnEvents(stage, Request(r), limit), t, cap, TurnKeepsAll(stage, Request(r), limit));
    TurnKeepsReady(a, TurnEvents(stage, Request(r), limit), t, cap);
    RunsJoin(s, [Append([[r]], Durable)], TurnEvents(stage, Request(r), limit), cap);
  }

  lemma ReadyRuns(s: State)
    requires Ready(s)
    ensures !s.phase.Down?
  {
    hide Up;
  }

  lemma MovesAnyway(s: State, es: seq<Event>, t: State, cap: nat, quiet: bool)
    requires MovesBy(s, es, t, cap, quiet)
    ensures MovesBy(s, es, t, cap, false) && Legal(s, es, cap) && Exec(s, es, cap) == t
  {
    hide Legal, Exec, NeverSheds;
  }

  lemma NoRequests(r: LogRecord, limit: nat)
    ensures Requests(0, r, limit) == [] && Requested(FIRST_BOOT, 0, r, limit)
  {
    BootsEmpty(0);
    FirstBootIs();
    hide FIRST_BOOT, Ready, Matches, EMPTY_STAGE;
  }

  lemma FirstBootIs()
    ensures FIRST_BOOT.inflight == [] && FIRST_BOOT.handoff == [] && FIRST_BOOT.acked == multiset{}
    ensures Matches(FIRST_BOOT, EMPTY_STAGE)
  {
  }

  /** The events of one more request. */
  function RequestEvents(n: nat, r: LogRecord, limit: nat): seq<Event> {
    [Append([[r]], Durable)] + TurnEvents(StageAfter(n, r, limit), Request(r), limit)
  }

  lemma NextRequest(n: nat, r: LogRecord, limit: nat)
    ensures Requests(n + 1, r, limit) == Requests(n, r, limit) + RequestEvents(n, r, limit)
  {
    hide TurnEvents, StageAfter;
  }

  lemma NoRun(s: State, cap: nat)
    ensures Legal(s, [], cap) && Exec(s, [], cap) == s
  {
  }

  lemma {:induction false} RequestsRun(n: nat, r: LogRecord, limit: nat) returns (t: State)
    ensures Legal(FIRST_BOOT, Requests(n, r, limit), LiveCap(limit))
            && Exec(FIRST_BOOT, Requests(n, r, limit), LiveCap(limit)) == t
    ensures Requested(t, n, r, limit)
  {
    hide *;
    if n == 0 {
      NoRequests(r, limit);
      NoRun(FIRST_BOOT, LiveCap(limit));
      t := FIRST_BOOT;
    } else {
      var m := RequestsRun(n - 1, r, limit);
      t := OneRequest(m, n - 1, r, limit);
      NextRequest(n - 1, r, limit);
      RunsJoin(FIRST_BOOT, Requests(n - 1, r, limit), RequestEvents(n - 1, r, limit), LiveCap(limit));
    }
  }

  lemma {:induction false} AtMostItsLength(rows: seq<LogRecord>, r: LogRecord)
    ensures multiset(rows)[r] <= |rows|
  {
    if rows != [] {
      assert rows == [rows[0]] + rows[1..];
      AtMostItsLength(rows[1..], r);
    }
  }

  lemma StagedAre(s: State, stage: Stage)
    requires Matches(s, stage) && s.inflight == [] && s.handoff == []
    ensures |Staged(s)| == Rows(stage.live) + |stage.table|
  {
    FlatNone<LogRecord>();
  }

  lemma RequestedIs(s: State, n: nat, r: LogRecord, limit: nat)
    requires Requested(s, n, r, limit)
    ensures Ready(s) && s.inflight == [] && s.handoff == [] && Matches(s, StageAfter(n, r, limit)) && s.acked[r] == n
  {
    hide Ready, StageAfter, Matches;
  }

  lemma MatchesParquet(s: State, stage: Stage)
    requires Matches(s, stage)
    ensures s.parquet == stage.parquet
  {
  }

  lemma TableWithin(stage: Stage, limit: nat)
    requires TableBelow(stage, limit)
    ensures |stage.table| < Max(limit, 1)
  {
  }

  lemma TooManyMeans(limit: nat)
    ensures TooMany(limit) == LiveCap(limit) + Max(limit, 1)
  {
  }

  lemma NotAllStaged(s: State, r: LogRecord, limit: nat)
    requires limit <= USIZE_MAX && Requested(s, TooMany(limit), r, limit)
    ensures !Covered(s)
  {
    hide *;
    var n := TooMany(limit);
    var stage := StageAfter(n, r, limit);
    TooManyMeans(limit);
    StageBounds(n, r, limit);
    TableWithin(stage, limit);
    NothingLanded(n, r, limit);
    RequestedIs(s, n, r, limit);
    StagedAre(s, stage);
    MatchesParquet(s, stage);
    AtMostItsLength(Staged(s), r);
    NotCovered(s, r);
  }

  /** The head of the run: a first boot, then the requests. */
  function LosingHead(r: LogRecord, limit: nat): seq<Event> {
    [Restart(true)] + Requests(TooMany(limit), r, limit)
  }

  lemma FirstRestart(cap: nat)
    ensures Legal(INIT, [Restart(true)], cap) && Exec(INIT, [Restart(true)], cap) == FIRST_BOOT
  {
    hide *;
    InitRestarts();
    BootsEmpty(cap);
    OneStep(INIT, Restart(true), cap);
  }

  lemma InitRestarts()
    ensures Enabled(INIT, Restart(true))
  {
  }

  lemma HeadIs(r: LogRecord, limit: nat)
    ensures LosingHead(r, limit) == [Restart(true)] + Requests(TooMany(limit), r, limit)
  {
    hide Requests, TooMany;
  }

  lemma HeadRuns(r: LogRecord, limit: nat) returns (s: State)
    requires limit <= USIZE_MAX
    ensures Legal(INIT, LosingHead(r, limit), LiveCap(limit)) && Exec(INIT, LosingHead(r, limit), LiveCap(limit)) == s
    ensures Ready(s) && s.inflight == [] && !Covered(s)
  {
    hide *;
    var cap := LiveCap(limit);
    FirstRestart(cap);
    s := RequestsRun(TooMany(limit), r, limit);
    NotAllStaged(s, r, limit);
    RequestedIs(s, TooMany(limit), r, limit);
    RunsJoin(INIT, [Restart(true)], Requests(TooMany(limit), r, limit), cap);
    HeadIs(r, limit);
  }

  /** For every flush limit: requests of one record each, one more than the full cap
      and a full table hold, each answered Ok and taken up by a turn of the worker whose
      flushes fail, can be followed by ordinary traffic, without a crash and without
      further shedding, after which a record answered Ok is neither in Parquet nor in
      the log. */
  lemma SheddingLosesRecords(r: LogRecord, limit: nat)
    requires limit <= USIZE_MAX
    ensures Legal(INIT, LosingHead(r, limit), LiveCap(limit))
    ensures exists u :: CanReach(Exec(INIT, LosingHead(r, limit), LiveCap(limit)), u, LiveCap(limit)) && !NothingLost(u)
  {
    hide *;
    var s := HeadRuns(r, limit);
    var u := UncoveredIsLost(s, LiveCap(limit));
  }

  lemma TooManyIs(limit: nat)
    requires 1 <= limit && 10 * limit <= USIZE_MAX
    ensures TooMany(limit) == 11 * limit
  {
  }

  // --------------------------------------- a covered state a crash is not safe from

  lemma {:induction false} Listing(rows: multiset<LogRecord>) returns (listed: seq<LogRecord>)
    ensures multiset(listed) == rows
    decreases |rows|
  {
    if rows == multiset{} {
      listed := [];
    } else {
      var r :| r in rows;
      var rest := Listing(rows - multiset{r});
      listed := rest + [r];
    }
  }

  /** A group with `rows` that fails after its last record was written. */
  function FailedGroup(rows: seq<LogRecord>): Event {
    Append([rows], Failed(|rows|))
  }

  /** A crash that takes nothing. */
  function CrashKeepingAll(s: State): Event {
    Crash(map k | k in s.dir.files :: |s.dir.files[k].entries|, |s.dir.active.entries|)
  }

  lemma GroupIs(s: State, rows: seq<LogRecord>, cap: nat)
    requires s.phase.Running? && s.wal.open
    ensures Enabled(s, FailedGroup(rows))
    ensures Step(s, FailedGroup(rows), cap)
            == s.(dir := s.dir.(active := s.dir.active.(entries := s.dir.active.entries + Tag(rows, Leftover))))
  {
    FlatOne(rows);
    assert rows[..|rows|] == rows;
    hide Flat;
  }

  lemma CrashKeeping(s: State, cap: nat)
    requires SegmentsOk(s.dir)
    ensures Enabled(s, CrashKeepingAll(s))
    ensures var t := Step(s, CrashKeepingAll(s), cap);
            && t.phase.Down? && t.acked == s.acked && t.parquet == s.parquet && t.dir == s.dir
  {
    CutsNothing(s.dir.active);
    forall k | k in s.dir.files ensures Cut(s.dir.files[k], |s.dir.files[k].entries|) == s.dir.files[k] {
      CutsNothing(s.dir.files[k]);
    }
    hide Cut, Gone, Pick;
  }

  lemma CutsNothing(segment: Segment)
    requires SegmentOk(segment)
    ensures Cut(segment, |segment.entries|) == segment
  {
    hide Pick;
  }

  lemma PromotedReplays(s: State, e: Event, cap: nat)
    requires e.Restart? && Enabled(s, e)
    ensures ReplayAll(Step(s, e, cap).dir) == ReplayAll(s.dir)
  {
    var t := Step(s, e, cap);
    hide Reopen, ReplayAll, RecordsOf, Promote;
    forall k | k in s.dir.files ensures RecordsOf(t.dir.files[k].entries) == RecordsOf(s.dir.files[k].entries) {
      PromotesRecords(s.dir.files[k]);
    }
    PromotesRecords(s.dir.active);
    SameReplay(t.dir, s.dir);
  }

  lemma PromotesRecords(segment: Segment)
    ensures RecordsOf(Promote(segment).entries) == RecordsOf(segment.entries)
  {
  }

  /** Every file a restart finds it lists. */
  lemma {:induction false} SealedNumbers(files: map<nat, Segment>, n: nat)
    ensures forall k :: k in SeqNos(SealedBelow(files, n)) <==> k in files && k < n
  {
    if n == 0 {
    } else {
      SealedNumbers(files, n - 1);
      var more := if n - 1 in files then [Sealed(n - 1, |LogBelow(files, n)|)] else [];
      SeqNosSplit(SealedBelow(files, n - 1), more);
      hide LogBelow;
    }
  }

  lemma RestartedIsReady(s: State, cap: nat)
    requires Inv(s) && s.phase.Down?
    ensures Enabled(s, Restart(true)) && Ready(Step(s, Restart(true), cap))
  {
    RestartKeeps(s, Restart(true), cap);
    var t := Step(s, Restart(true), cap);
    assert t.wal == Reopen(t.dir, true) && t.phase.Running? by { hide Up, Reopen, ReplayAll, Promote; }
    hide Up, Step, Enabled, Inv;
    ReopenListsAll(t.dir);
  }

  lemma ReopenListsAll(dir: Dir)
    ensures Reopen(dir, true).open && SeqNos(Reopen(dir, true).sealed) == dir.files.Keys
  {
    SealedNumbers(dir.files, NextSeq(dir.files.Keys));
    hide SealedBelow, SeqNos, DiskLog;
  }

  lemma LeftoverReplays(dir: Dir, rows: seq<LogRecord>)
    ensures var after := dir.(active := dir.active.(entries := dir.active.entries + Tag(rows, Leftover)));
            multiset(rows) <= multiset(ReplayAll(after))
  {
    var after := dir.(active := dir.active.(entries := dir.active.entries + Tag(rows, Leftover)));
    var n := NextSeq(dir.files.Keys);
    BagAppend(dir.active.entries, Tag(rows, Leftover), ANY_STATUS);
    PickTag(rows, Leftover, ANY_STATUS);
    hide Pick, DiskLog, LogBelow, ReplayAll;
    BagOfDisk(after, n, ANY_STATUS);
    ReplayBag(after);
  }

  lemma MissingAreCovered(acked: multiset<LogRecord>, parquet: multiset<LogRecord>, rows: multiset<LogRecord>,
                          staged: multiset<LogRecord>)
    requires rows == acked - parquet && rows <= staged
    ensures acked <= parquet + staged
  {
    forall r ensures acked[r] <= (parquet + staged)[r] {
      assert rows[r] <= staged[r] && rows[r] + parquet[r] >= acked[r];
    }
  }

  lemma InvSegments(s: State)
    requires Inv(s) && !s.phase.Down?
    ensures SegmentsOk(s.dir)
  {
    hide Up;
    UpSegments(s);
  }

  lemma CoveredAgain(u: State, s: State, rows: seq<LogRecord>)
    requires s.acked == u.acked && s.parquet == u.parquet && multiset(rows) == u.acked - u.parquet
    requires Staged(s) == ReplayAll(s.dir) && multiset(rows) <= multiset(ReplayAll(s.dir))
    ensures Covered(s)
  {
    hide Staged, ReplayAll;
    MissingAreCovered(u.acked, u.parquet, multiset(rows), multiset(Staged(s)));
  }

  lemma StillUnsynced(u: State, s: State)
    requires !NothingLost(u) && s.acked == u.acked && s.parquet == u.parquet
    requires ReplayAll(SyncedPart(s.dir)) == ReplayAll(SyncedPart(u.dir))
    ensures !SyncedCovered(s)
  {
    SyncedWithin(u.dir);
    hide ReplayAll, SyncedPart;
    if SyncedCovered(s) {
      Within(u.acked, u.parquet, multiset(ReplayAll(SyncedPart(u.dir))), multiset(ReplayAll(u.dir)));
    }
  }

  /** The three events after a loss, and what each leaves. */
  lemma GroupWritten(u: State, rows: seq<LogRecord>, cap: nat) returns (a: State)
    requires Ready(u)
    ensures Enabled(u, FailedGroup(rows)) && a == Step(u, FailedGroup(rows), cap)
    ensures Inv(a) && SegmentsOk(a.dir) && a.acked == u.acked && a.parquet == u.parquet
    ensures SyncedPart(a.dir) == SyncedPart(u.dir) && multiset(rows) <= multiset(ReplayAll(a.dir))
  {
    a := u;
    assert u.phase.Running? && u.wal.open && Up(u) && Inv(u);
    UpSegments(u);
    assert SegmentOk(u.dir.active);
    hide Ready, Up, Inv, SyncedPart, ReplayAll, Step, Enabled, SegmentsOk, SegmentOk;
    GroupIs(u, rows, cap);
    a := Step(u, FailedGroup(rows), cap);
    StepKeeps(u, FailedGroup(rows), cap);
    InvSegments(a);
    LeftoverReplays(u.dir, rows);
    FailureSyncsNothing(u.dir, rows);
  }

  lemma CrashedAndBack(a: State, cap: nat) returns (b: State, s: State)
    requires Inv(a) && SegmentsOk(a.dir)
    ensures Enabled(a, CrashKeepingAll(a)) && b == Step(a, CrashKeepingAll(a), cap)
    ensures Enabled(b, Restart(true)) && s == Step(b, Restart(true), cap)
    ensures Ready(s) && s.inflight == [] && s.acked == a.acked && s.parquet == a.parquet
    ensures Staged(s) == ReplayAll(s.dir) && ReplayAll(s.dir) == ReplayAll(a.dir)
    ensures ReplayAll(SyncedPart(s.dir)) == ReplayAll(SyncedPart(a.dir))
  {
    hide *;
    CrashKeeping(a, cap);
    b := Step(a, CrashKeepingAll(a), cap);
    CrashIsCrash(a);
    StepKeeps(a, CrashKeepingAll(a), cap);
    RestartedIsReady(b, cap);
    s := Step(b, Restart(true), cap);
    PromotedReplays(b, Restart(true), cap);
    RestartStages(b, Restart(true), cap);
    RestartKeepsSynced(b, Restart(true), cap);
  }

  lemma CrashIsCrash(s: State)
    ensures CrashKeepingAll(s).Crash?
  {
  }

  lemma ThreeSteps(s: State, x: Event, y: Event, z: Event, cap: nat)
    requires Enabled(s, x) && Enabled(Step(s, x, cap), y) && Enabled(Step(Step(s, x, cap), y, cap), z)
    ensures Legal(s, [x] + ([y] + [z]), cap)
    ensures Exec(s, [x] + ([y] + [z]), cap) == Step(Step(Step(s, x, cap), y, cap), z, cap)
  {
    hide Step, Enabled, Legal, Exec;
    var a := Step(s, x, cap);
    var b := Step(a, y, cap);
    OneStep(s, x, cap);
    OneStep(a, y, cap);
    OneStep(b, z, cap);
    RunsJoin(a, [y], [z], cap);
    RunsJoin(s, [x], [y] + [z], cap);
  }

  /** Of a state with a loss, the log can come to hold equal records that were never
      acknowledged nor synced, and a restart stages them. */
  lemma LossIsCoveredUp(u: State, cap: nat) returns (es: seq<Event>, s: State)
    requires Ready(u) && !NothingLost(u)
    ensures Legal(u, es, cap) && Exec(u, es, cap) == s
    ensures Ready(s) && s.inflight == [] && Covered(s) && !SyncedCovered(s)
  {
    hide *;
    var rows := Listing(u.acked - u.parquet);
    var a := GroupWritten(u, rows, cap);
    var b;
    b, s := CrashedAndBack(a, cap);
    CoveredAgain(u, s, rows);
    StillUnsynced(u, s);
    ThreeSteps(u, FailedGroup(rows), CrashKeepingAll(a), Restart(true), cap);
    es := [FailedGroup(rows)] + ([CrashKeepingAll(a)] + [Restart(true)]);
  }

  lemma ReachedBy(s: State, u: State, cap: nat) returns (es: seq<Event>)
    requires CanReach(s, u, cap)
    ensures Legal(s, es, cap) && Exec(s, es, cap) == u
  {
    hide Legal, Exec, NeverSheds;
    es :| Calm(es) && Legal(s, es, cap) && NeverSheds(s, es, cap) && Exec(s, es, cap) == u;
  }

  /** A run to a ready state in which every acknowledged copy is in Parquet or staged, and
      from which a crash loses one: the staged copy is an equal record that was never
      acknowledged, whose bytes the crash takes. */
  lemma CrashTakesTheCopy(r: LogRecord, limit: nat) returns (head: seq<Event>, s: State)
    requires limit <= USIZE_MAX
    ensures LosingHead(r, limit) <= head
    ensures Legal(INIT, head, LiveCap(limit)) && Exec(INIT, head, LiveCap(limit)) == s
    ensures Ready(s) && s.inflight == [] && Covered(s)
    ensures Enabled(s, CrashToSynced(s)) && !NothingLost(Step(s, CrashToSynced(s), LiveCap(limit)))
  {
    hide *;
    var cap := LiveCap(limit);
    var first := HeadRuns(r, limit);
    var u := UncoveredIsLost(first, cap);
    var more := ReachedBy(first, u, cap);
    var last;
    last, s := LossIsCoveredUp(u, cap);
    RunsJoin(INIT, LosingHead(r, limit), more, cap);
    RunsJoin(INIT, LosingHead(r, limit) + more, last, cap);
    head := LosingHead(r, limit) + more + last;
    ReadyIsUp(s);
    UpSegments(s);
    CanCrash(s);
    CrashLeavesSynced(s, cap);
    LostByCrash(s, Step(s, CrashToSynced(s), cap));
  }

  lemma ReadyIsUp(s: State)
    requires Ready(s)
    ensures Up(s)
  {
    hide Up;
  }

  lemma LostByCrash(s: State, t: State)
    requires !SyncedCovered(s) && t.dir == SyncedPart(s.dir) && t.acked == s.acked && t.parquet == s.parquet
    ensures !NothingLost(t)
  {
    hide ReplayAll, SyncedPart;
  }
}
