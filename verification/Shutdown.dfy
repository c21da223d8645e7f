/**
 The drained shutdown of `run_server`: the WAL worker returns, the MemTable worker
 empties the hand-off queue and flushes the rest.
 */
module Shutdown {
  import opened Seqs
  import opened Records
  import opened WritePath
  import opened WriteRuns
  import opened MemTableWorker
  import ZeroLoss

  /** The batches the turns take off the hand-off queue. */
  function Received(turns: seq<Turn>): seq<seq<LogRecord>>
    decreases |turns|
  {
    if turns == [] then []
    else (if turns[0].input.Records? then [turns[0].input.records] else []) + Received(turns[1..])
  }

  ghost predicate LandsWithin(io: FlushIo, live: seq<seq<LogRecord>>) {
    io.Broken? ==> io.landed <= multiset(Flat(live))
  }

  /** A flush that breaks has published only rows of its own batches. */
  ghost predicate FlushesFit(stage: Stage, turns: seq<Turn>, limit: nat)
    decreases |turns|
  {
    turns == [] || (LandsWithin(turns[0].io, Staging(stage, turns[0], limit).live)
                    && FlushesFit(AfterTurn(stage, turns[0], limit), turns[1..], limit))
  }

  /** No flush breaks with more rows than the cap. */
  predicate KeepsAll(stage: Stage, turns: seq<Turn>, limit: nat)
    decreases |turns|
  {
    turns == [] || (TurnKeepsAll(stage, turns[0], limit)
                    && KeepsAll(AfterTurn(stage, turns[0], limit), turns[1..], limit))
  }

  lemma QuietOnlyIf(s: State, es: seq<Event>, t: State, cap: nat, quiet: bool, less: bool)
    requires MovesBy(s, es, t, cap, quiet) && (less ==> quiet)
    ensures MovesBy(s, es, t, cap, less)
  {
    hide Legal, Exec, NeverSheds;
  }

  /** The events of those turns, and of what the worker does after the last. */
  function LoopEvents(stage: Stage, turns: seq<Turn>, limit: nat): seq<Event>
    decreases |turns|
  {
    if turns == [] then []
    else TurnEvents(stage, turns[0], limit) + LoopEvents(AfterTurn(stage, turns[0], limit), turns[1..], limit)
  }

  function RemainderEvents(stage: Stage, last: FlushIo): seq<Event> {
    PushEvents(stage) + (if Rows(Pushed(stage).live) > 0 then FlushEvents(last) else [])
  }

  lemma {:induction false} LoopIsARun(s: State, stage: Stage, turns: seq<Turn>, limit: nat) returns (t: State)
    requires !s.phase.Down? && s.inflight == [] && Matches(s, stage)
    requires Received(turns) == s.handoff && FlushesFit(stage, turns, limit)
    ensures MovesBy(s, LoopEvents(stage, turns, limit), t, LiveCap(limit), KeepsAll(stage, turns, limit))
    ensures Matches(t, Loop(stage, turns, limit)) && t.handoff == []
    decreases |turns|
  {
    hide AfterTurn, Staging, TurnKeepsAll, Legal, Exec, NeverSheds, Flat, TurnEvents;
    var cap := LiveCap(limit);
    if turns == [] {
      t := NoMove(s, cap, KeepsAll(stage, turns, limit));
    } else {
      var quiet, next := KeepsAll(stage, turns, limit), AfterTurn(stage, turns[0], limit);
      FirstReceived(turns);
      var m := TurnIsARun(s, stage, turns[0], limit);
      t := LoopIsARun(m, next, turns[1..], limit);
      QuietOnlyIf(s, TurnEvents(stage, turns[0], limit), m, cap, TurnKeepsAll(stage, turns[0], limit), quiet);
      QuietOnlyIf(m, LoopEvents(next, turns[1..], limit), t, cap, KeepsAll(next, turns[1..], limit), quiet);
      MovesJoin(s, TurnEvents(stage, turns[0], limit), m, LoopEvents(next, turns[1..], limit), t, cap, quiet);
    }
  }

  lemma NoMove(s: State, cap: nat, quiet: bool) returns (t: State)
    ensures MovesBy(s, [], t, cap, quiet) && t == s
  {
    t := s;
  }

  lemma FirstReceived(turns: seq<Turn>)
    requires turns != []
    ensures turns[0].input.Records? ==>
              Received(turns) != [] && Received(turns)[0] == turns[0].input.records
              && Received(turns)[1..] == Received(turns[1..])
    ensures !turns[0].input.Records? ==> Received(turns) == Received(turns[1..])
  {
  }

  lemma RemainderIsARun(s: State, stage: Stage, last: FlushIo, limit: nat) returns (t: State)
    requires !s.phase.Down? && s.inflight == [] && Matches(s, stage) && LandsWithin(last, Pushed(stage).live)
    ensures MovesBy(s, RemainderEvents(stage, last), t, LiveCap(limit), Fits(Pushed(stage).live, last, LiveCap(limit)))
    ensures Matches(t, Remainder(stage, last, limit)) && t.handoff == s.handoff
  {
    hide Legal, Exec, NeverSheds, Step, Flat, Flush, FlushEvents, PushEvents;
    var cap, quiet, es := LiveCap(limit), Fits(Pushed(stage).live, last, LiveCap(limit)), PushEvents(stage);
    t := PushRun(s, stage, cap);
    QuietOnlyIf(s, es, t, cap, true, quiet);
    if Rows(Pushed(stage).live) > 0 {
      FlatNone<LogRecord>();
      var t' := FlushRun(t, Pushed(stage), last, cap);
      MovesJoin(s, es, t, FlushEvents(last), t', cap, quiet);
      t := t';
    } else {
      assert es + [] == es;
    }
  }

  /** After a last flush that stored everything nothing is staged. */
  lemma StoredRemainderIsEmpty(stage: Stage, limit: nat)
    ensures var end := Remainder(stage, Stored, limit); end.table == [] && Flat(end.live) == []
  {
    FlatNone<LogRecord>();
  }

  // --------------------------------------------- the WAL worker may return any time

  /** The events of the MemTable worker. */
  predicate OfWorker(e: Event) {
    e.Receive? || e.Push? || e.BeginFlush? || e.FlushDone? || e.FlushFailed?
  }

  ghost predicate Commutes(s: State, e: Event, cap: nat)
    requires s.phase.Running? && Enabled(s, e) && OfWorker(e)
  {
    && Step(s, e, cap).phase.Running? && Enabled(Step(s, WalExit, cap), e)
    && Step(Step(s, WalExit, cap), e, cap) == Step(Step(s, e, cap), WalExit, cap)
    && (Sheds(s, e, cap) <==> Sheds(Step(s, WalExit, cap), e, cap))
  }

  lemma MoveCommutes(s: State, e: Event, cap: nat)
    requires s.phase.Running? && Enabled(s, e) && (e.Receive? || e.Push? || e.BeginFlush?)
    ensures Commutes(s, e, cap)
  {
    hide Flat, Sum;
  }

  lemma FailCommutes(s: State, e: Event, cap: nat)
    requires s.phase.Running? && Enabled(s, e) && e.FlushFailed?
    ensures Commutes(s, e, cap)
  {
    hide Flat, Sum, Trim, ShedRows;
  }

  lemma DoneCommutes(s: State, cap: nat)
    requires s.phase.Running? && Enabled(s, FlushDone)
    ensures Commutes(s, FlushDone, cap)
  {
    SumAppend(s.signals, [|Flat(s.inflight)|]);
    ZeroLoss.SumOne(|Flat(s.inflight)|);
    hide Flat, Sum;
  }

  /** They commute with the return of the WAL worker: a confirmation sent before is
      lost with the channel, one sent after it with its receiver. */
  lemma ExitCommutes(s: State, e: Event, cap: nat)
    requires s.phase.Running? && OfWorker(e) && Enabled(s, e)
    ensures Commutes(s, e, cap)
  {
    if e.FlushDone? {
      DoneCommutes(s, cap);
    } else if e.FlushFailed? {
      hide Enabled, Commutes;
      FailCommutes(s, e, cap);
    } else {
      hide Enabled, Commutes;
      MoveCommutes(s, e, cap);
    }
  }

  lemma {:induction false} ExitFirst(s: State, es: seq<Event>, cap: nat)
    requires s.phase.Running? && (forall e | e in es :: OfWorker(e)) && Legal(s, es, cap)
    ensures Exec(s, es, cap).phase.Running? && Legal(Step(s, WalExit, cap), es, cap)
    ensures Exec(Step(s, WalExit, cap), es, cap) == Step(Exec(s, es, cap), WalExit, cap)
    ensures NeverSheds(s, es, cap) <==> NeverSheds(Step(s, WalExit, cap), es, cap)
    decreases |es|
  {
    hide Step, OfWorker, Sheds, Enabled;
    CanExit(s);
    if es != [] {
      assert es[0] in es && forall e | e in es[1..] :: e in es;
      ExitCommutes(s, es[0], cap);
      CanExit(Step(s, es[0], cap));
      ExitFirst(Step(s, es[0], cap), es[1..], cap);
    }
  }

  lemma CanExit(s: State)
    requires s.phase.Running?
    ensures Enabled(s, WalExit)
  {
  }

  lemma {:induction false} RunSplits(s: State, es: seq<Event>, k: nat, cap: nat)
    requires k <= |es| && Legal(s, es, cap)
    ensures Legal(s, es[..k], cap) && Legal(Exec(s, es[..k], cap), es[k..], cap)
    ensures Exec(Exec(s, es[..k], cap), es[k..], cap) == Exec(s, es, cap)
    ensures NeverSheds(s, es, cap)
            <==> NeverSheds(s, es[..k], cap) && NeverSheds(Exec(s, es[..k], cap), es[k..], cap)
    decreases |es|
  {
    hide Step, Enabled, Sheds;
    if k == 0 {
      assert es[..0] == [] && es[0..] == es;
    } else {
      assert es[..k][0] == es[0] && es[..k][1..] == es[1..][..k - 1] && es[k..] == es[1..][k - 1..];
      RunSplits(Step(s, es[0], cap), es[1..], k - 1, cap);
    }
  }

  /** The rest of a turn with the return of the WAL worker after its first `k` events. */
  function ExitAfter(rest: seq<Event>, k: nat): seq<Event>
    requires k <= |rest|
  {
    rest[..k] + ([WalExit] + rest[k..])
  }

  lemma ExitAnywhere(s: State, rest: seq<Event>, k: nat, cap: nat)
    requires s.phase.Running? && (forall e | e in rest :: OfWorker(e)) && Legal(s, rest, cap) && k <= |rest|
    ensures Exec(s, rest, cap).phase.Running? && Enabled(Exec(s, rest, cap), WalExit)
    ensures Legal(s, ExitAfter(rest, k), cap)
    ensures Exec(s, ExitAfter(rest, k), cap) == Step(Exec(s, rest, cap), WalExit, cap)
    ensures NeverSheds(s, rest, cap) ==> NeverSheds(s, ExitAfter(rest, k), cap)
  {
    assert (forall e | e in rest[..k] :: e in rest) && forall e | e in rest[k..] :: e in rest;
    hide OfWorker, Legal, Exec, NeverSheds, Step, Enabled;
    RunSplits(s, rest, k, cap);
    ExitFirst(s, rest[..k], cap);
    var m := Exec(s, rest[..k], cap);
    ExitFirst(m, rest[k..], cap);
    CanExit(m);
    CanExit(Exec(s, rest, cap));
    AfterWalExit(m, rest[k..], cap);
    RunsJoin(s, rest[..k], [WalExit] + rest[k..], cap);
    if NeverSheds(s, rest, cap) {
      NeverShedsJoin(s, rest[..k], [WalExit] + rest[k..], cap);
    }
  }

  lemma AfterWalExit(s: State, es: seq<Event>, cap: nat)
    requires Enabled(s, WalExit) && Legal(Step(s, WalExit, cap), es, cap)
    ensures Legal(s, [WalExit] + es, cap) && Exec(s, [WalExit] + es, cap) == Exec(Step(s, WalExit, cap), es, cap)
    ensures NeverSheds(Step(s, WalExit, cap), es, cap) ==> NeverSheds(s, [WalExit] + es, cap)
  {
    hide Step;
    var all := [WalExit] + es;
    assert all[0] == WalExit && all[1..] == es;
  }

  lemma WalExitMatches(s: State, cap: nat)
    requires s.phase.Running?
    ensures Enabled(s, WalExit)
    ensures var t := Step(s, WalExit, cap);
            && Matches(t, StageOf(s)) && t.phase.Draining? && t.inflight == s.inflight && t.handoff == s.handoff
            && t.acked == s.acked && t.dir == s.dir
  {
  }

  lemma {:induction false} WorkerKeeps(s: State, es: seq<Event>, cap: nat)
    requires (forall e | e in es :: OfWorker(e)) && Legal(s, es, cap)
    ensures Exec(s, es, cap).acked == s.acked && Exec(s, es, cap).dir == s.dir
    decreases |es|
  {
    if es != [] {
      assert es[0] in es && forall e | e in es[1..] :: e in es;
      OneWorkerStepKeeps(s, es[0], cap);
      hide Step, OfWorker, Enabled;
      WorkerKeeps(Step(s, es[0], cap), es[1..], cap);
    }
  }

  lemma OneWorkerStepKeeps(s: State, e: Event, cap: nat)
    requires OfWorker(e) && Enabled(s, e)
    ensures Step(s, e, cap).acked == s.acked && Step(s, e, cap).dir == s.dir
  {
    hide Flat, Trim, ShedRows;
  }

  // ------------------------------------------------------------------ the drain

  /** What a drain starts from: the rest of the turn under way, and what follows it. */
  ghost predicate Drains(s: State, rest: seq<Event>, m: State, turns: seq<Turn>, last: FlushIo, limit: nat) {
    && s.phase.Running? && (forall e | e in rest :: OfWorker(e))
    && Legal(s, rest, LiveCap(limit)) && Exec(s, rest, LiveCap(limit)) == m && m.inflight == []
    && Received(turns) == m.handoff && FlushesFit(StageOf(m), turns, limit)
    && LandsWithin(last, Pushed(Loop(StageOf(m), turns, limit)).live)
  }

  /** Where the worker ends. */
  function DrainedStage(m: State, turns: seq<Turn>, last: FlushIo, limit: nat): Stage {
    Remainder(Loop(StageOf(m), turns, limit), last, limit)
  }

  function DrainEvents(rest: seq<Event>, k: nat, m: State, turns: seq<Turn>, last: FlushIo, limit: nat): seq<Event>
    requires k <= |rest|
  {
    ExitAfter(rest, k) + (LoopEvents(StageOf(m), turns, limit) + RemainderEvents(Loop(StageOf(m), turns, limit), last))
  }

  /** No flush from here on breaks with more rows than the cap. */
  ghost predicate DrainKeepsAll(s: State, rest: seq<Event>, m: State, turns: seq<Turn>, last: FlushIo, limit: nat)
    requires Drains(s, rest, m, turns, last, limit)
  {
    && NeverSheds(s, rest, LiveCap(limit)) && KeepsAll(StageOf(m), turns, limit)
    && Fits(Pushed(Loop(StageOf(m), turns, limit)).live, last, LiveCap(limit))
  }

  lemma AfterExit(m: State, turns: seq<Turn>, last: FlushIo, limit: nat) returns (t: State)
    requires m.phase.Running? && m.inflight == [] && Enabled(m, WalExit)
    requires Received(turns) == m.handoff && FlushesFit(StageOf(m), turns, limit)
    requires LandsWithin(last, Pushed(Loop(StageOf(m), turns, limit)).live)
    ensures MovesBy(Step(m, WalExit, LiveCap(limit)),
                    LoopEvents(StageOf(m), turns, limit) + RemainderEvents(Loop(StageOf(m), turns, limit), last), t,
                    LiveCap(limit), KeepsAll(StageOf(m), turns, limit)
                                    && Fits(Pushed(Loop(StageOf(m), turns, limit)).live, last, LiveCap(limit)))
    ensures Matches(t, DrainedStage(m, turns, last, limit)) && t.handoff == [] && t.inflight == [] && t.phase.Draining?
    ensures t.acked == m.acked && t.dir == m.dir
  {
    hide Legal, Exec, NeverSheds, Step, Loop, Remainder, Pushed, FlushesFit, KeepsAll, LandsWithin, Fits, Flat, Enabled,
      LoopEvents, RemainderEvents, Received;
    var cap, stage := LiveCap(limit), StageOf(m);
    var end := Loop(stage, turns, limit);
    var quiet := KeepsAll(stage, turns, limit) && Fits(Pushed(end).live, last, cap);
    WalExitMatches(m, cap);
    var a := Step(m, WalExit, cap);
    var b := LoopIsARun(a, stage, turns, limit);
    t := RemainderIsARun(b, end, last, limit);
    QuietOnlyIf(a, LoopEvents(stage, turns, limit), b, cap, KeepsAll(stage, turns, limit), quiet);
    QuietOnlyIf(b, RemainderEvents(end, last), t, cap, Fits(Pushed(end).live, last, cap), quiet);
    MovesJoin(a, LoopEvents(stage, turns, limit), b, RemainderEvents(end, last), t, cap, quiet);
  }

  lemma MovesMeans(s: State, es: seq<Event>, t: State, cap: nat, quiet: bool)
    requires MovesBy(s, es, t, cap, quiet)
    ensures Legal(s, es, cap) && Exec(s, es, cap) == t && (quiet ==> NeverSheds(s, es, cap))
  {
    hide Legal, Exec, NeverSheds;
  }

  /** From any running state, in the middle of a turn or of a flush or between two
      turns: the return of the WAL worker at any point of the rest of that turn, turns
      that take everything handed over and the final flush are a run of the write
      path. It ends where the worker ends, sheds only what a broken flush sheds, and
      leaves nothing staged if the last flush succeeds. */
  lemma DrainEmptiesTheStages(s: State, rest: seq<Event>, k: nat, m: State, turns: seq<Turn>, last: FlushIo, limit: nat)
    returns (t: State)
    requires Drains(s, rest, m, turns, last, limit) && k <= |rest|
    ensures var es := DrainEvents(rest, k, m, turns, last, limit);
            && Legal(s, es, LiveCap(limit)) && Exec(s, es, LiveCap(limit)) == t
            && (DrainKeepsAll(s, rest, m, turns, last, limit) ==> NeverSheds(s, es, LiveCap(limit)))
    ensures Matches(t, DrainedStage(m, turns, last, limit)) && t.phase.Draining? && t.acked == s.acked && t.dir == s.dir
    ensures last.Stored? ==> ZeroLoss.Staged(t) == []
  {
    hide Legal, Exec, NeverSheds, Step, Loop, Remainder, Pushed, FlushesFit, KeepsAll, LandsWithin, Fits, Flat, Enabled,
      LoopEvents, RemainderEvents, Received, ExitAfter, OfWorker;
    var cap := LiveCap(limit);
    ExitAnywhere(s, rest, k, cap);
    WorkerKeeps(s, rest, cap);
    t := AfterExit(m, turns, last, limit);
    var tail := LoopEvents(StageOf(m), turns, limit) + RemainderEvents(Loop(StageOf(m), turns, limit), last);
    MovesMeans(Step(m, WalExit, cap), tail, t, cap, KeepsAll(StageOf(m), turns, limit)
                                                    && Fits(Pushed(Loop(StageOf(m), turns, limit)).live, last, cap));
    RunsJoin(s, ExitAfter(rest, k), tail, cap);
    if DrainKeepsAll(s, rest, m, turns, last, limit) {
      NeverShedsJoin(s, ExitAfter(rest, k), tail, cap);
    }
    if last.Stored? {
      StoredRemainderIsEmpty(Loop(StageOf(m), turns, limit), limit);
      NothingStaged(t, DrainedStage(m, turns, last, limit));
    }
  }

  lemma NothingStaged(t: State, stage: Stage)
    requires Matches(t, stage) && t.handoff == [] && t.inflight == [] && stage.table == [] && Flat(stage.live) == []
    ensures ZeroLoss.Staged(t) == []
  {
    FlatNone<LogRecord>();
  }

  /** What the server prints when it has drained: every acknowledged row is on disk.
      It is, in Parquet or in the log, when no flush so far has shed a row and none
      breaks with more rows than the cap; and if the last flush succeeds, in Parquet. */
  lemma EveryAcknowledgedRowIsOnDisk(head: seq<Event>, s: State, rest: seq<Event>, k: nat, m: State, turns: seq<Turn>,
                                     last: FlushIo, limit: nat) returns (t: State)
    requires Legal(INIT, head, LiveCap(limit)) && NeverSheds(INIT, head, LiveCap(limit))
    requires Exec(INIT, head, LiveCap(limit)) == s
    requires Drains(s, rest, m, turns, last, limit) && k <= |rest| && DrainKeepsAll(s, rest, m, turns, last, limit)
    ensures Legal(s, DrainEvents(rest, k, m, turns, last, limit), LiveCap(limit))
            && Exec(s, DrainEvents(rest, k, m, turns, last, limit), LiveCap(limit)) == t
    ensures Matches(t, DrainedStage(m, turns, last, limit)) && t.acked == s.acked && t.dir == s.dir
    ensures ZeroLoss.NothingLost(t)
    ensures last.Stored? ==> s.acked <= DrainedStage(m, turns, last, limit).parquet
  {
    hide Legal, Exec, NeverSheds, Step, DrainedStage, DrainEvents, Drains, DrainKeepsAll, ZeroLoss.Staged,
      ZeroLoss.NothingLost, LiveCap;
    t := DrainEmptiesTheStages(s, rest, k, m, turns, last, limit);
    var es := DrainEvents(rest, k, m, turns, last, limit);
    NeverShedsJoin(INIT, head, es, LiveCap(limit));
    ZeroLoss.NoAcknowledgedRecordIsLost(head + es, LiveCap(limit));
    if last.Stored? {
      ZeroLoss.DrainedMeansStored(head + es, LiveCap(limit));
    }
  }
}
