/** Runs of the write path: interleavings of both workers, crashes and restarts. */
module WriteRuns {
  import opened Seqs
  import opened Records
  import opened WritePath

  /** Draining: the WAL worker has returned (its ingest channel closed) and the
      MemTable worker still runs; its confirmations go nowhere. */
  datatype Phase = Down | Running | Draining

  datatype State = State(
    dir: Dir,
    parquet: multiset<LogRecord>,
    phase: Phase,
    wal: Wal,
    signals: seq<nat>,
    handoff: seq<seq<LogRecord>>,
    table: seq<LogRecord>,
    live: seq<seq<LogRecord>>,
    inflight: seq<seq<LogRecord>>,
    // History, read by no step:
    acked: multiset<LogRecord>,     // everything ever answered with Ok
    counted: seq<LogRecord>,        // the counted log of this boot: replayed, then acknowledged
    released: nat,                  // how much of `counted` lies in segments no longer listed
    lost: nat,                      // rows flushed whose confirmation nobody received
    dropped: nat,                   // rows shed from the live buffer in this boot
    base: multiset<LogRecord>,      // counted rows whose segments were gone at boot
    shed: multiset<LogRecord>)      // every row ever shed

  const NO_WAL := Wal(false, [], 0, 0, 1)

  const INIT := State(Dir(map[], EMPTY_SEGMENT), multiset{}, Down, NO_WAL, [], [], [], [], [],
                      multiset{}, [], 0, 0, 0, multiset{}, multiset{})

  datatype Event =
    | Append(batches: seq<seq<LogRecord>>, commit: CommitIo)
    | Confirmed(rotate: RotateIo, stuck: set<nat>)
    | WalExit
    | Receive
    | Push
    | BeginFlush
    | FlushDone
    | FlushFailed(landed: multiset<LogRecord>)   // chunks already published when the flush failed
    | Crash(keep: map<nat, nat>, keepActive: nat)
    | Restart(writable: bool)

  function Cut(segment: Segment, keep: nat): Segment
    requires keep <= |segment.entries|
  {
    Segment(segment.entries[..keep], Min(segment.synced, keep))
  }

  /** After a restart every surviving record is counted by `record_count`. */
  function Promote(segment: Segment): Segment {
    Segment(seq(|segment.entries|, i requires 0 <= i < |segment.entries| =>
                  if segment.entries[i].status.Leftover? then segment.entries[i].(status := Counted)
                  else segment.entries[i]),
            segment.synced)
  }

  predicate Enabled(s: State, e: Event) {
    match e
    case Append(batches, io) =>
      s.phase.Running? && (io.Failed? ==> io.kept <= Rows(batches))
    case Confirmed(_, _) => s.phase.Running? && s.signals != []
    case WalExit => s.phase.Running?
    case Receive => !s.phase.Down? && s.handoff != []
    case Push => !s.phase.Down? && s.table != []
    case BeginFlush => !s.phase.Down? && s.live != [] && s.inflight == []
    case FlushDone => !s.phase.Down? && s.inflight != []
    case FlushFailed(landed) =>
      !s.phase.Down? && s.inflight != [] && landed <= multiset(Flat(s.inflight))
    case Crash(keep, keepActive) =>
      && keep.Keys == s.dir.files.Keys
      && (forall k | k in keep :: s.dir.files[k].synced <= keep[k] <= |s.dir.files[k].entries|)
      && s.dir.active.synced <= keepActive <= |s.dir.active.entries|
    case Restart(_) => s.phase.Down?
  }

  /** What may happen: while both workers run, any group, whole or broken off after any
      number of its records, the return of the WAL worker, and a confirmation for each
      signal, whatever fails in it; while the MemTable worker runs, each of its steps once
      there is something to take, a flush breaking after any of its rows; and a restart
      after a crash. */
  lemma WhatMayHappen(s: State, batches: seq<seq<LogRecord>>, kept: nat, io: RotateIo, stuck: set<nat>,
                      landed: multiset<LogRecord>, writable: bool)
    ensures Enabled(s, Append(batches, Durable)) <==> s.phase.Running?
    ensures Enabled(s, Append(batches, Failed(kept))) <==> s.phase.Running? && kept <= |Flat(batches)|
    ensures Enabled(s, Confirmed(io, stuck)) <==> s.phase.Running? && |s.signals| >= 1
    ensures Enabled(s, WalExit) <==> s.phase.Running?
    ensures Enabled(s, Receive) <==> (s.phase.Running? || s.phase.Draining?) && |s.handoff| >= 1
    ensures Enabled(s, Push) <==> (s.phase.Running? || s.phase.Draining?) && |s.table| >= 1
    ensures Enabled(s, BeginFlush) <==> (s.phase.Running? || s.phase.Draining?) && |s.live| >= 1 && |s.inflight| == 0
    ensures Enabled(s, FlushDone) <==> (s.phase.Running? || s.phase.Draining?) && |s.inflight| >= 1
    ensures Enabled(s, FlushFailed(landed))
            <==> (s.phase.Running? || s.phase.Draining?) && |s.inflight| >= 1 && landed <= multiset(Flat(s.inflight))
    ensures Enabled(s, Restart(writable)) <==> s.phase.Down?
  {
    hide Flat;
  }

  /** A crash may come at any moment and cut each file anywhere behind what was synced. */
  lemma CrashMayCutAnywhere(s: State, keep: map<nat, nat>, keepActive: nat)
    ensures Enabled(s, Crash(keep, keepActive))
            <==> (forall k :: k in keep <==> k in s.dir.files)
                 && (forall k | k in s.dir.files :: s.dir.files[k].synced <= keep[k] <= |s.dir.files[k].entries|)
                 && s.dir.active.synced <= keepActive <= |s.dir.active.entries|
  {
  }

  ghost function Step(s: State, e: Event, cap: nat): State
    requires Enabled(s, e)
  {
    match e
    case Append(batches, io) =>
      var (wal, dir, ok) := Commit(s.wal, s.dir, Flat(batches), io);
      if !ok then s.(wal := wal, dir := dir)
      else s.(wal := wal, dir := dir, handoff := s.handoff + batches,
              acked := s.acked + multiset(Flat(batches)), counted := s.counted + Flat(batches))
    case Confirmed(io, stuck) =>
      var (wal, dir) := Confirm(s.wal, s.dir, s.signals[0], io, stuck);
      s.(wal := wal, dir := dir, signals := s.signals[1..],
         released := ReleasedBy(s.wal, s.dir, s.signals[0], io, s.released))
    case WalExit => s.(phase := Draining, signals := [], lost := s.lost + Sum(s.signals))
    case Receive => s.(table := s.table + s.handoff[0], handoff := s.handoff[1..])
    case Push => s.(live := s.live + [s.table], table := [])
    case BeginFlush => s.(inflight := s.live, live := [])
    case FlushDone =>
      var rows := Flat(s.inflight);
      var t := s.(inflight := [], parquet := s.parquet + multiset(rows));
      if s.phase.Running? then t.(signals := s.signals + [|rows|]) else t.(lost := s.lost + |rows|)
    case FlushFailed(landed) =>
      var shed := ShedRows(s.inflight + s.live, cap);
      s.(inflight := [], live := Trim(s.inflight + s.live, cap), parquet := s.parquet + landed,
         shed := s.shed + multiset(shed), dropped := s.dropped + |shed|)
    case Crash(keep, keepActive) =>
      INIT.(dir := Dir(map k | k in s.dir.files :: Cut(s.dir.files[k], keep[k]), Cut(s.dir.active, keepActive)),
            parquet := s.parquet,
            acked := s.acked,
            shed := s.shed,
            base := if s.phase.Down? then s.base else Gone(s))
    case Restart(writable) =>
      var dir := Dir(map k | k in s.dir.files :: Promote(s.dir.files[k]), Promote(s.dir.active));
      var recovered := ReplayAll(dir);
      s.(phase := Running, dir := dir, wal := Reopen(dir, writable), counted := recovered,
         live := if recovered == [] then [] else [recovered])
  }

  /** Counted rows, this boot and before, that are no longer in any WAL file. */
  ghost function Gone(s: State): multiset<LogRecord> {
    s.base + multiset(s.counted) - multiset(Pick(DiskLog(s.dir), COUNTED_OR_ACKED))
  }

  ghost predicate Legal(s: State, es: seq<Event>, cap: nat)
    decreases |es|
  {
    es == [] || (Enabled(s, es[0]) && Legal(Step(s, es[0], cap), es[1..], cap))
  }

  ghost function Exec(s: State, es: seq<Event>, cap: nat): State
    requires Legal(s, es, cap)
    decreases |es|
  {
    if es == [] then s else Exec(Step(s, es[0], cap), es[1..], cap)
  }

  /** This step sheds rows: the guard of the dropping loop in `return_to_live_buffer` holds. */
  predicate Sheds(s: State, e: Event, cap: nat) {
    e.FlushFailed? && Rows(s.inflight + s.live) > cap
  }

  ghost predicate NeverSheds(s: State, es: seq<Event>, cap: nat)
    requires Legal(s, es, cap)
    decreases |es|
  {
    es == [] || (!Sheds(s, es[0], cap) && NeverSheds(Step(s, es[0], cap), es[1..], cap))
  }

  // ------------------------------------------------------- composing runs

  lemma OneStep(s: State, e: Event, cap: nat)
    requires Enabled(s, e)
    ensures Legal(s, [e], cap) && Exec(s, [e], cap) == Step(s, e, cap)
  {
    hide Step;
    assert [e][1..] == [];
  }

  lemma {:induction false} RunsJoin(s: State, a: seq<Event>, b: seq<Event>, cap: nat)
    requires Legal(s, a, cap) && Legal(Exec(s, a, cap), b, cap)
    ensures Legal(s, a + b, cap) && Exec(s, a + b, cap) == Exec(Exec(s, a, cap), b, cap)
    decreases |a|
  {
    hide Step;
    if a == [] {
      assert a + b == b;
    } else {
      assert (a + b)[0] == a[0] && (a + b)[1..] == a[1..] + b;
      RunsJoin(Step(s, a[0], cap), a[1..], b, cap);
    }
  }

  lemma {:induction false} NeverShedsJoin(s: State, a: seq<Event>, b: seq<Event>, cap: nat)
    requires Legal(s, a, cap) && NeverSheds(s, a, cap)
    requires Legal(Exec(s, a, cap), b, cap) && NeverSheds(Exec(s, a, cap), b, cap)
    ensures Legal(s, a + b, cap) && NeverSheds(s, a + b, cap) && Exec(s, a + b, cap) == Exec(Exec(s, a, cap), b, cap)
    decreases |a|
  {
    hide Step, Sheds;
    if a == [] {
      assert a + b == b;
    } else {
      assert (a + b)[0] == a[0] && (a + b)[1..] == a[1..] + b;
      NeverShedsJoin(Step(s, a[0], cap), a[1..], b, cap);
    }
  }
}
