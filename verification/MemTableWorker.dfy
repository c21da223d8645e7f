/** The MemTable worker: its loop, its bounded live buffer, and its place in the write path. */
module MemTableWorker {
  import opened Seqs
  import opened Records
  import opened WritePath
  import opened WriteRuns
  import opened WalWorker

  const USIZE_MAX: nat := 0xFFFF_FFFF_FFFF_FFFF

  /** What the worker owns or writes. */
  datatype Stage = Stage(
    table: seq<LogRecord>, live: seq<seq<LogRecord>>, parquet: multiset<LogRecord>, signals: seq<nat>)

  datatype Input = Records(records: seq<LogRecord>) | Timeout

  /** `Broken(landed)`: the flush failed after the chunks holding `landed` were published. */
  datatype FlushIo = Stored | Broken(landed: multiset<LogRecord>)

  /** One turn of the loop: what `recv_timeout` gives, whether the interval is due, how a flush would go. */
  datatype Turn = Turn(input: Input, due: bool, io: FlushIo)

  function LiveCap(limit: nat): nat {
    Max(Min(10 * limit, USIZE_MAX), 1)
  }

  /** Ten limits, at least one row, and no more than the largest `usize`. */
  lemma LiveCapIs(limit: nat)
    ensures LiveCap(limit)
            == if limit == 0 then 1 else if 10 * limit <= 0xFFFF_FFFF_FFFF_FFFF then 10 * limit
               else 0xFFFF_FFFF_FFFF_FFFF
  {
  }

  function Pushed(s: Stage): Stage {
    if s.table == [] then s else s.(table := [], live := s.live + [s.table])
  }

  function Flush(s: Stage, io: FlushIo, cap: nat): Stage {
    match io
    case Stored =>
      s.(live := [], parquet := s.parquet + multiset(Flat(s.live)), signals := s.signals + [Rows(s.live)])
    case Broken(landed) => s.(live := Trim(s.live, cap), parquet := s.parquet + landed)
  }

  /** The turn up to the point where the live buffer is measured. */
  function Staging(s: Stage, turn: Turn, limit: nat): Stage {
    var s1 := match turn.input
              case Records(rs) =>
                var t := s.(table := s.table + rs);
                if |t.table| >= limit then Pushed(t) else t
              case Timeout => Pushed(s);
    if turn.due then Pushed(s1) else s1
  }

  predicate FlushDue(s: Stage, turn: Turn, limit: nat) {
    (Rows(s.live) >= limit || turn.due) && Rows(s.live) > 0
  }

  function AfterTurn(s: Stage, turn: Turn, limit: nat): Stage {
    var staged := Staging(s, turn, limit);
    if FlushDue(staged, turn, limit) then Flush(staged, turn.io, LiveCap(limit)) else staged
  }

  function Loop(s: Stage, turns: seq<Turn>, limit: nat): Stage
    decreases |turns|
  {
    if turns == [] then s else Loop(AfterTurn(s, turns[0], limit), turns[1..], limit)
  }

  /** After the hand-off channel closes. */
  function Remainder(s: Stage, io: FlushIo, limit: nat): Stage {
    var pushed := Pushed(s);
    if Rows(pushed.live) > 0 then Flush(pushed, io, LiveCap(limit)) else pushed
  }

  // ------------------------------------------------------------------ bounds

  /** What is kept after a failed flush is the longest suffix of whole batches that fits the cap. */
  lemma {:induction false} TrimIsLongestSuffix(batches: seq<seq<LogRecord>>, cap: nat) returns (i: nat)
    ensures i <= |batches| && Trim(batches, cap) == batches[i..]
    ensures Rows(batches[i..]) <= cap
    ensures forall j | 0 <= j < i :: Rows(batches[j..]) > cap
  {
    if Rows(batches) <= cap {
      i := 0;
    } else {
      var k := TrimIsLongestSuffix(batches[1..], cap);
      i := k + 1;
      assert batches[1..][k..] == batches[i..];
      forall j | 0 <= j < i ensures Rows(batches[j..]) > cap {
        if 0 < j {
          assert batches[1..][j - 1..] == batches[j..];
        } else {
          assert batches[0..] == batches;
        }
      }
    }
  }

  /** The table holds fewer rows than the limit between turns. */
  predicate TableBelow(s: Stage, limit: nat) {
    |s.table| < Max(limit, 1)
  }

  lemma PushRows(s: Stage)
    ensures Rows(Pushed(s).live) + |Pushed(s).table| == Rows(s.live) + |s.table|
  {
    FlatAppend(s.live, [s.table]);
    FlatOne(s.table);
  }

  /** From any state, one turn brings the live buffer to the cap or below, and
      while it runs the buffer grows by at most one batch and one short table. */
  lemma TurnBounds(s: Stage, turn: Turn, limit: nat, batch: nat)
    requires limit <= USIZE_MAX && TableBelow(s, limit)
    requires turn.input.Records? ==> |turn.input.records| <= batch
    ensures TableBelow(AfterTurn(s, turn, limit), limit)
    ensures Rows(AfterTurn(s, turn, limit).live) <= LiveCap(limit)
    ensures Rows(Staging(s, turn, limit).live) <= Rows(s.live) + Max(limit, 1) - 1 + batch
  {
    hide Flat, Trim;
    PushRows(s);
    if turn.input.Records? {
      var t := s.(table := s.table + turn.input.records);
      PushRows(t);
      PushRows(Pushed(t));
    }
    PushRows(Pushed(s));
    var staged := Staging(s, turn, limit);
    TrimSplits(staged.live, LiveCap(limit));
    FlatNone<LogRecord>();
  }

  /** Over every run, whatever the flushes do: at most the cap at each loop head
      after the first, never more than the cap plus one short table and one batch. */
  lemma {:induction false} LiveBufferStaysBounded(s: Stage, turns: seq<Turn>, limit: nat, batch: nat, k: nat)
    requires limit <= USIZE_MAX && TableBelow(s, limit) && Rows(s.live) <= LiveCap(limit)
    requires forall i | 0 <= i < |turns| :: turns[i].input.Records? ==> |turns[i].input.records| <= batch
    requires k < |turns|
    ensures Rows(Loop(s, turns[..k], limit).live) <= LiveCap(limit)
    ensures Rows(Staging(Loop(s, turns[..k], limit), turns[k], limit).live)
            <= LiveCap(limit) + Max(limit, 1) - 1 + batch
    decreases k
  {
    hide AfterTurn, Staging;
    TurnBounds(s, turns[0], limit, batch);
    if k > 0 {
      var s' := AfterTurn(s, turns[0], limit);
      LiveBufferStaysBounded(s', turns[1..], limit, batch, k - 1);
      assert turns[..k][0] == turns[0] && turns[..k][1..] == turns[1..][..k - 1];
    } else {
      assert turns[..0] == [];
    }
  }

  // -------------------------------------------- the loop is a run of the model

  function StageOf(s: State): Stage {
    Stage(s.table, s.live, s.parquet, s.signals)
  }

  /** The worker that holds `stage` is where `s` says. What it signals after the WAL
      worker has returned, nobody receives. */
  predicate Matches(s: State, stage: Stage) {
    s.table == stage.table && s.live == stage.live && s.parquet == stage.parquet
    && (s.phase.Running? ==> s.signals == stage.signals)
  }

  /** `t` is `s` with another stage, reached by the run `es`, which sheds nothing if `quiet`. */
  ghost predicate MovesBy(s: State, es: seq<Event>, t: State, cap: nat, quiet: bool) {
    && Legal(s, es, cap) && Exec(s, es, cap) == t && (quiet ==> NeverSheds(s, es, cap))
    && t == s.(table := t.table, live := t.live, parquet := t.parquet, signals := t.signals, handoff := t.handoff,
               lost := t.lost, shed := t.shed, dropped := t.dropped)
    && (s.phase.Running? ==> t.lost == s.lost)
  }

  lemma MovesJoin(s: State, a: seq<Event>, m: State, b: seq<Event>, t: State, cap: nat, quiet: bool)
    requires MovesBy(s, a, m, cap, quiet) && MovesBy(m, b, t, cap, quiet)
    ensures MovesBy(s, a + b, t, cap, quiet)
  {
    RunsJoin(s, a, b, cap);
    if quiet {
      NeverShedsJoin(s, a, b, cap);
    }
  }

  /** The events of `finish_and_push`, of a flush, and of a turn. */
  function PushEvents(stage: Stage): seq<Event> {
    if stage.table == [] then [] else [Push]
  }

  function FlushEvents(io: FlushIo): seq<Event> {
    [BeginFlush] + [if io.Stored? then FlushDone else FlushFailed(io.landed)]
  }

  function StagingEvents(stage: Stage, turn: Turn, limit: nat): seq<Event> {
    match turn.input
    case Records(rs) =>
      var t := stage.(table := stage.table + rs);
      var full := |t.table| >= limit;
      [Receive] + (if full then PushEvents(t) else [])
          + (if turn.due then PushEvents(if full then Pushed(t) else t) else [])
    case Timeout => PushEvents(stage) + (if turn.due then PushEvents(Pushed(stage)) else [])
  }

  function TurnEvents(stage: Stage, turn: Turn, limit: nat): seq<Event> {
    StagingEvents(stage, turn,
                  limit) + (if FlushDue(Staging(stage, turn, limit), turn, limit) then FlushEvents(turn.io) else [])
  }

  lemma PushRun(s: State, stage: Stage, cap: nat) returns (t: State)
    requires !s.phase.Down? && Matches(s, stage)
    ensures MovesBy(s, PushEvents(stage), t, cap, true) && Matches(t, Pushed(stage)) && t.handoff == s.handoff
  {
    if s.table == [] {
      t := s;
    } else {
      t := Step(s, Push, cap);
      OneStep(s, Push, cap);
    }
  }

  /** A flush that breaks with more rows than the cap sheds. */
  predicate Fits(live: seq<seq<LogRecord>>, io: FlushIo, cap: nat) {
    io.Broken? ==> Rows(live) <= cap
  }

  lemma FlushRun(s: State, stage: Stage, io: FlushIo, cap: nat) returns (t: State)
    requires !s.phase.Down? && Matches(s, stage) && s.inflight == [] && s.live != []
    requires io.Broken? ==> io.landed <= multiset(Flat(s.live))
    ensures MovesBy(s, FlushEvents(io), t, cap, Fits(stage.live, io, cap))
    ensures Matches(t, Flush(stage, io, cap)) && t.handoff == s.handoff
  {
    hide Flat, Trim, ShedRows;
    var begun := Step(s, BeginFlush, cap);
    var end := if io.Stored? then FlushDone else FlushFailed(io.landed);
    assert begun.inflight + begun.live == s.live;
    t := Step(begun, end, cap);
    OneStep(s, BeginFlush, cap);
    OneStep(begun, end, cap);
    RunsJoin(s, [BeginFlush], [end], cap);
    if Fits(stage.live, io, cap) {
      NeverShedsJoin(s, [BeginFlush], [end], cap);
    }
  }

  /** What the environment may do in a turn: the records come from the hand-off
      queue, and a broken flush published only rows of its own batch. */
  ghost predicate TurnFits(s: State, stage: Stage, turn: Turn, limit: nat) {
    && !s.phase.Down? && s.inflight == [] && Matches(s, stage)
    && (turn.input.Records? ==> s.handoff != [] && s.handoff[0] == turn.input.records)
    && (turn.io.Broken? ==> turn.io.landed <= multiset(Flat(Staging(stage, turn, limit).live)))
  }

  function HandedOver(s: State, turn: Turn): seq<seq<LogRecord>>
    requires turn.input.Records? ==> s.handoff != []
  {
    if turn.input.Records? then s.handoff[1..] else s.handoff
  }

  lemma StagingIsARun(s: State, stage: Stage, turn: Turn, limit: nat, cap: nat) returns (t: State)
    requires TurnFits(s, stage, turn, limit)
    ensures MovesBy(s, StagingEvents(stage, turn, limit), t, cap, true)
    ensures Matches(t, Staging(stage, turn, limit)) && t.handoff == HandedOver(s, turn)
  {
    hide Step, Legal, Exec, NeverSheds;
    var es: seq<Event>, staged := [], stage;
    if turn.input.Records? {
      t := ReceiveStep(s, cap);
      es, staged := [Receive], stage.(table := stage.table + turn.input.records);
      if |t.table| >= limit {
        var t' := PushRun(t, staged, cap);
        MovesJoin(s, es, t, PushEvents(staged), t', cap, true);
        es, t, staged := es + PushEvents(staged), t', Pushed(staged);
      }
    } else {
      t := PushRun(s, stage, cap);
      es, staged := PushEvents(stage), Pushed(stage);
    }
    if turn.due {
      var t' := PushRun(t, staged, cap);
      MovesJoin(s, es, t, PushEvents(staged), t', cap, true);
      es, t := es + PushEvents(staged), t';
    }
    assert es == StagingEvents(stage, turn, limit);
  }

  lemma ReceiveStep(s: State, cap: nat) returns (t: State)
    requires !s.phase.Down? && s.handoff != []
    ensures MovesBy(s, [Receive], t, cap, true) && t == s.(table := s.table + s.handoff[0], handoff := s.handoff[1..])
  {
    t := Step(s, Receive, cap);
    OneStep(s, Receive, cap);
  }

  /** No flush of the turn breaks with more rows than the cap. */
  predicate TurnKeepsAll(stage: Stage, turn: Turn, limit: nat) {
    var staged := Staging(stage, turn, limit);
    FlushDue(staged, turn, limit) ==> Fits(staged.live, turn.io, LiveCap(limit))
  }

  /** Every turn of the worker's loop, before or after the WAL worker has returned,
      is a run of the write-path model, event by event. */
  lemma TurnIsARun(s: State, stage: Stage, turn: Turn, limit: nat) returns (t: State)
    requires TurnFits(s, stage, turn, limit)
    ensures MovesBy(s, TurnEvents(stage, turn, limit), t, LiveCap(limit), TurnKeepsAll(stage, turn, limit))
    ensures Matches(t, AfterTurn(stage, turn, limit)) && t.handoff == HandedOver(s, turn)
  {
    hide Step, Legal, Exec, NeverSheds, Staging, StagingEvents, FlushEvents;
    var es, cap, quiet := StagingEvents(stage, turn, limit), LiveCap(limit), TurnKeepsAll(stage, turn, limit);
    t := StagingIsARun(s, stage, turn, limit, cap);
    Quieter(s, es, t, cap, quiet);
    var staged := Staging(stage, turn, limit);
    if FlushDue(staged, turn, limit) {
      FlatNone<LogRecord>();
      var t' := FlushRun(t, staged, turn.io, cap);
      MovesJoin(s, es, t, FlushEvents(turn.io), t', cap, quiet);
      t := t';
    } else {
      assert es + [] == es;
    }
  }

  lemma Quieter(s: State, es: seq<Event>, t: State, cap: nat, quiet: bool)
    requires MovesBy(s, es, t, cap, true)
    ensures MovesBy(s, es, t, cap, quiet)
  {
    hide Legal, Exec, NeverSheds;
  }

  // --------------------------------------------------------------- the worker

  class Parquet {
    var rows: multiset<LogRecord>
  }

  class Worker {
    const limit: nat
    const liveCap: nat
    var table: seq<LogRecord>
    var live: seq<seq<LogRecord>>
    const parquet: Parquet
    const truncate: Channel<nat>

    ghost predicate Valid() {
      liveCap == LiveCap(limit)
    }

    function Value(): Stage
      reads this, parquet, truncate
    {
      Stage(table, live, parquet.rows, truncate.items)
    }

    constructor (limit: nat, parquet: Parquet, truncate: Channel<nat>, recovered: seq<LogRecord>)
      ensures Valid() && this.limit == limit && this.parquet == parquet && this.truncate == truncate
      ensures table == [] && live == if recovered == [] then [] else [recovered]
    {
      this.limit := limit;
      this.liveCap := Max(Min(10 * limit, USIZE_MAX), 1);
      this.parquet := parquet;
      this.truncate := truncate;
      this.table := [];
      this.live := if recovered == [] then [] else [recovered];
    }

    method FinishAndPush()
      modifies `table, `live
      ensures Value() == Pushed(old(Value()))
    {
      if table != [] {
        live := live + [table];
      }
      table := [];
    }

    method LiveRowCount() returns (n: nat)
      ensures n == Rows(live)
    {
      n := 0;
      var i := 0;
      while i < |live|
        invariant i <= |live| && n == Rows(live[..i])
      {
        FlatNext(live, i);
        n := n + |live[i]|;
        i := i + 1;
      }
      assert live[..|live|] == live;
    }

    /** `return_to_live_buffer`. */
    method ReturnToLiveBuffer(returned: seq<seq<LogRecord>>)
      requires Valid()
      modifies `live
      ensures live == Trim(returned + old(live), LiveCap(limit))
    {
      live := returned + live;
      ghost var all := live;
      var total := LiveRowCount();
      while total > liveCap
        invariant total == Rows(live)
        invariant Trim(all, liveCap) == Trim(live, liveCap)
        decreases |live|
      {
        assert live == [live[0]] + live[1..];
        total := total - |live[0]|;
        live := live[1..];
      }
    }

    /** `flush_live_buffer`. */
    method FlushLiveBuffer(io: FlushIo)
      requires Valid()
      modifies `live, parquet, truncate
      ensures Value() == Flush(old(Value()), io, LiveCap(limit))
    {
      var batches := live;
      live := [];
      match io
      case Stored =>
        parquet.rows := parquet.rows + multiset(Flat(batches));
        truncate.Send(|Flat(batches)|);
      case Broken(landed) =>
        parquet.rows := parquet.rows + landed;
        ReturnToLiveBuffer(batches);
        assert batches + [] == batches;
    }

    method Iterate(turn: Turn)
      requires Valid()
      modifies this, parquet, truncate
      ensures Value() == AfterTurn(old(Value()), turn, limit)
    {
      match turn.input {
        case Records(records) =>
          table := table + records;
          if |table| >= limit {
            FinishAndPush();
          }
        case Timeout =>
          if table != [] {
            FinishAndPush();
          }
      }
      if turn.due && table != [] {
        FinishAndPush();
      }
      var buffered := LiveRowCount();
      if (buffered >= limit || turn.due) && buffered > 0 {
        FlushLiveBuffer(turn.io);
      }
    }

    /** `run_memtable_loop`: `turns` happen until the hand-off channel closes;
        `last` is how the final flush would go. */
    method Run(turns: seq<Turn>, last: FlushIo)
      requires Valid()
      modifies this, parquet, truncate
      ensures Value() == Remainder(Loop(old(Value()), turns, limit), last, limit)
    {
      var i := 0;
      while i < |turns|
        invariant i <= |turns|
        invariant Loop(old(Value()), turns, limit) == Loop(Value(), turns[i..], limit)
      {
        assert turns[i..][0] == turns[i] && turns[i..][1..] == turns[i + 1..];
        Iterate(turns[i]);
        i := i + 1;
      }
      if table != [] {
        FinishAndPush();
      }
      var buffered := LiveRowCount();
      if buffered > 0 {
        FlushLiveBuffer(last);
      }
    }
  }
}
