/** What the turns of the MemTable worker do to the rows: which are stored, which are signalled, which stay held. */
module Turns {
  import opened Seqs
  import opened Records
  import opened WritePath
  import opened MemTableWorker

  function Received(turn: Turn): seq<LogRecord> {
    if turn.input.Records? then turn.input.records else []
  }

  /** The rows in memory, oldest first. */
  function Held(s: Stage): seq<LogRecord> {
    Flat(s.live) + s.table
  }

  ghost predicate NoEmptyBatch(s: Stage) {
    forall b | b in s.live :: b != []
  }

  /** The rows buffered when the turn measures the live buffer: those of the table are
      among them on a timeout, when the interval is due, and when the table is full. */
  function Measured(s: Stage, turn: Turn, limit: nat): nat {
    if turn.due || turn.input.Timeout? || |s.table| + |Received(turn)| >= limit
    then |Flat(s.live)| + |s.table| + |Received(turn)|
    else |Flat(s.live)|
  }

  lemma PushHolds(s: Stage)
    ensures var t := Pushed(s);
            && t.table == [] && Flat(t.live) == Held(s)
            && t.parquet == s.parquet && t.signals == s.signals && (NoEmptyBatch(s) ==> NoEmptyBatch(t))
  {
    FlatAppend(s.live, [s.table]);
    FlatOne(s.table);
    hide Flat;
    assert Flat(s.live) + [] == Flat(s.live);
  }

  /** Up to the flush a turn only moves rows. */
  lemma StagingHolds(s: Stage, turn: Turn, limit: nat)
    ensures var t := Staging(s, turn, limit);
            && Held(t) == Held(s) + Received(turn) && |Flat(t.live)| == Measured(s, turn, limit)
            && t.parquet == s.parquet && t.signals == s.signals && (NoEmptyBatch(s) ==> NoEmptyBatch(t))
    ensures turn.due || turn.input.Timeout? ==> Staging(s, turn, limit).table == []
  {
    hide Flat, NoEmptyBatch;
    var r := s.(table := s.table + Received(turn));
    assert s.table + [] == s.table;
    assert Held(r) == Held(s) + Received(turn);
    SameBatches(s, r);
    PushHolds(r);
    PushHolds(Pushed(r));
    assert Flat(Pushed(r).live) + [] == Flat(Pushed(r).live);
    assert Flat(Pushed(Pushed(r)).live) + [] == Flat(Pushed(Pushed(r)).live);
  }

  lemma SameBatches(s: Stage, t: Stage)
    requires s.live == t.live
    ensures NoEmptyBatch(s) ==> NoEmptyBatch(t)
  {
  }

  lemma SomethingLive(s: Stage)
    requires NoEmptyBatch(s) && s.live != []
    ensures Flat(s.live) != []
  {
    assert s.live[0] in s.live;
    assert |Flat(s.live)| >= |s.live[0]|;
  }

  /** A turn whose flush, if it makes one, succeeds: the flush comes exactly when rows are
      buffered and the interval is due or they reach the limit. It stores the buffered
      rows, the oldest held, and signals their number. */
  lemma StoredTurnIs(s: Stage, turn: Turn, limit: nat)
    requires turn.io.Stored?
    ensures var t, all, n := AfterTurn(s, turn, limit), Held(s) + Received(turn), Measured(s, turn, limit);
            && n <= |all|
            && if n > 0 && (turn.due || n >= limit)
               then t.parquet == s.parquet + multiset(all[..n]) && t.signals == s.signals + [n]
                    && t.live == [] && t.table == all[n..]
               else t.parquet == s.parquet && t.signals == s.signals && Held(t) == all && |Flat(t.live)| == n
  {
    StagingHolds(s, turn, limit);
    var t, all := Staging(s, turn, limit), Held(s) + Received(turn);
    hide Flat, Staging, NoEmptyBatch, Measured;
    assert all[..|Flat(t.live)|] == Flat(t.live) && all[|Flat(t.live)|..] == t.table;
  }

  /** When the interval is due everything held and received is stored, and signalled
      as one number if there is any. */
  lemma DueTurnStoresEverything(s: Stage, turn: Turn, limit: nat)
    requires turn.due && turn.io.Stored?
    ensures var t, all := AfterTurn(s, turn, limit), Held(s) + Received(turn);
            && t.table == [] && Flat(t.live) == [] && (NoEmptyBatch(s) ==> t.live == [])
            && t.parquet == s.parquet + multiset(all)
            && t.signals == s.signals + (if all == [] then [] else [|all|])
  {
    StagingHolds(s, turn, limit);
    StoredTurnIs(s, turn, limit);
    var all := Held(s) + Received(turn);
    FlatNone<LogRecord>();
    assert all[..|all|] == all;
    if NoEmptyBatch(s) && Staging(s, turn, limit).live != [] {
      SomethingLive(Staging(s, turn, limit));
    }
    hide Flat, Staging, NoEmptyBatch;
  }

  /** While flushes succeed fewer rows than the limit stay buffered, and none if it is zero. */
  lemma FewRowsStayBuffered(s: Stage, turn: Turn, limit: nat)
    requires turn.io.Stored?
    ensures var t := AfterTurn(s, turn, limit); |Flat(t.live)| < limit || Flat(t.live) == []
  {
    StoredTurnIs(s, turn, limit);
    FlatNone<LogRecord>();
    hide AfterTurn, Measured;
  }

  /** Below the limit and with the interval not due nothing is stored or signalled. */
  lemma QuietTurnKeepsEverything(s: Stage, turn: Turn, limit: nat)
    requires !turn.due && Measured(s, turn, limit) < limit
    ensures var t := AfterTurn(s, turn, limit);
            t.parquet == s.parquet && t.signals == s.signals && Held(t) == Held(s) + Received(turn)
  {
    StagingHolds(s, turn, limit);
    hide Flat, Staging, Measured, NoEmptyBatch;
  }

  /** After a timeout, and whenever the interval is due, the table is empty. */
  lemma TableIsEmptied(s: Stage, turn: Turn, limit: nat)
    requires turn.input.Timeout? || turn.due
    ensures AfterTurn(s, turn, limit).table == []
  {
    StagingHolds(s, turn, limit);
    hide Flat, Staging, Trim, NoEmptyBatch;
  }

  /** A flush that breaks signals nothing and keeps every row, but for the oldest batches
      of those that do not fit the cap of ten limits. */
  lemma BrokenTurnIs(s: Stage, turn: Turn, limit: nat) returns (k: nat)
    requires turn.io.Broken? && 1 <= limit && 10 * limit <= USIZE_MAX
    ensures var t, all, n := AfterTurn(s, turn, limit), Held(s) + Received(turn), Measured(s, turn, limit);
            && t.signals == s.signals && k <= n <= |all| && Held(t) == all[k..]
            && t.parquet == s.parquet + (if n > 0 && (turn.due || n >= limit) then turn.io.landed else multiset{})
            && n - k <= Max(n, 10 * limit) && (n <= 10 * limit ==> k == 0) && (k > 0 ==> n - k <= 10 * limit)
  {
    var staged, cap, all := Staging(s, turn, limit), LiveCap(limit), Held(s) + Received(turn);
    StagingHolds(s, turn, limit);
    hide Flat, Staging, Trim, NoEmptyBatch, Measured;
    k := 0;
    assert all[0..] == all;
    if FlushDue(staged, turn, limit) {
      k := TrimIsASuffix(staged.live, cap);
      assert Flat(staged.live)[k..] + staged.table == (Flat(staged.live) + staged.table)[k..];
    }
  }

  lemma TrimIsASuffix(batches: seq<seq<LogRecord>>, cap: nat) returns (k: nat)
    ensures k <= |Flat(batches)| && Flat(Trim(batches, cap)) == Flat(batches)[k..]
    ensures |Flat(batches)| - k <= cap && (|Flat(batches)| <= cap ==> k == 0)
  {
    k := 0;
    if |Flat(batches)| > cap {
      var i := TrimIsLongestSuffix(batches, cap);
      FlatSplit(batches, i);
      k := |Flat(batches[..i])|;
    }
  }

  // -------------------------------------------------------------- whole runs

  function AllReceived(turns: seq<Turn>): seq<LogRecord> {
    if turns == [] then [] else Received(turns[0]) + AllReceived(turns[1..])
  }

  /** Rows are neither lost nor stored twice while flushes succeed, and the signals add
      up to the rows stored. */
  lemma TurnConserves(s: Stage, turn: Turn, limit: nat)
    requires turn.io.Stored?
    ensures var t := AfterTurn(s, turn, limit);
            && t.parquet + multiset(Held(t)) == s.parquet + multiset(Held(s) + Received(turn))
            && Sum(t.signals) + |Held(t)| == Sum(s.signals) + |Held(s)| + |Received(turn)|
  {
    var t, all, n := AfterTurn(s, turn, limit), Held(s) + Received(turn), Measured(s, turn, limit);
    StoredTurnIs(s, turn, limit);
    FlatNone<LogRecord>();
    hide AfterTurn, Measured;
    SumAppend(s.signals, [n]);
    assert Sum([n]) == n by { assert [n][1..] == []; }
    assert all == all[..n] + all[n..];
    assert t.live == [] ==> Held(t) == t.table;
  }

  lemma {:induction false} RunsConserve(s: Stage, turns: seq<Turn>, limit: nat)
    requires forall turn | turn in turns :: turn.io.Stored?
    ensures var t := Loop(s, turns, limit);
            && t.parquet + multiset(Held(t)) == s.parquet + multiset(Held(s)) + multiset(AllReceived(turns))
            && Sum(t.signals) + |Held(t)| == Sum(s.signals) + |Held(s)| + |AllReceived(turns)|
    decreases |turns|
  {
    hide Held, AfterTurn;
    if turns != [] {
      TurnConserves(s, turns[0], limit);
      RunsConserve(AfterTurn(s, turns[0], limit), turns[1..], limit);
    }
  }

  lemma {:induction false} LoopSnoc(s: Stage, turns: seq<Turn>, last: Turn, limit: nat)
    ensures Loop(s, turns + [last], limit) == AfterTurn(Loop(s, turns, limit), last, limit)
    decreases |turns|
  {
    hide AfterTurn;
    if turns == [] {
      assert turns + [last] == [last] && [last][1..] == [];
      assert Loop(AfterTurn(s, last, limit), [], limit) == AfterTurn(s, last, limit);
    } else {
      assert (turns + [last])[0] == turns[0] && (turns + [last])[1..] == turns[1..] + [last];
      LoopSnoc(AfterTurn(s, turns[0], limit), turns[1..], last, limit);
    }
  }

  /** Whatever came before, once a turn comes at which the interval is due, everything
      received so far is in Parquet, once, and nothing is held. */
  lemma EverythingReceivedIsStored(s: Stage, turns: seq<Turn>, last: Turn, limit: nat)
    requires last.due && forall turn | turn in turns + [last] :: turn.io.Stored?
    ensures var t := Loop(s, turns + [last], limit);
            && Held(t) == []
            && t.parquet == s.parquet + multiset(Held(s)) + multiset(AllReceived(turns + [last]))
            && Sum(t.signals) == Sum(s.signals) + |Held(s)| + |AllReceived(turns + [last])|
  {
    assert last in turns + [last];
    hide AfterTurn, Loop, AllReceived;
    RunsConserve(s, turns + [last], limit);
    LoopSnoc(s, turns, last, limit);
    DueTurnStoresEverything(Loop(s, turns, limit), last, limit);
    assert Held(Loop(s, turns + [last], limit)) == [];
  }

  /** The final push and flush store all that is left. */
  lemma RemainderStoresEverything(s: Stage, limit: nat)
    ensures var t := Remainder(s, Stored, limit);
            && Held(t) == [] && t.parquet == s.parquet + multiset(Held(s))
            && t.signals == s.signals + (if Held(s) == [] then [] else [|Held(s)|])
  {
    PushHolds(s);
    FlatNone<LogRecord>();
    hide Flat, NoEmptyBatch;
  }
}
