/**
 Placement, retention and pruning of a row given by its date and its time of day,
 `DayNumber(d) * 86_400_000_000 + us`, where the day number is the calendar's
 independent one.
 */
module DatedRows {
  import opened Seqs
  import opened Records
  import opened Decimal
  import opened Calendar
  import opened Directories
  import opened Storage
  import Retention
  import StoreRuns
  import Pruning

  /** `r` was logged `us` microseconds into day `d`. */
  ghost predicate LoggedOn(r: LogRecord, d: Date, us: int, range: Range) {
    InRange(d, range) && 0 <= us < 86_400_000_000 && r.timestampUs == DayNumber(d) * 86_400_000_000 + us
  }

  lemma DayOfRow(r: LogRecord, d: Date, us: int, range: Range)
    requires LoggedOn(r, d, us, range)
    ensures DateOf(DayOf(r.timestampUs)) == d && DayOf(r.timestampUs) == DayNumber(d)
    ensures InRange(DateOf(DayOf(r.timestampUs)), range)
  {
    MomentIsOfItsDay(d, us);
    hide DateOf, DayNumber, DayOf;
  }

  /** The file a row of service `service` and date `d` goes to. */
  function ChunkOf(root: Path, service: string, d: Date, nanos: int): Path {
    root + ["year=" + SignedDec(d.year), "month=" + Padded(d.month, 2), "day=" + Padded(d.day, 2),
            "service=" + service, "chunk_" + SignedDec(nanos) + ".parquet"]
  }

  lemma ChunkIsChunkPath(root: Path, service: string, d: Date, nanos: int)
    ensures ChunkOf(root, service, d, nanos) == ChunkPath(root, (service, d), nanos)
  {
    hide SignedDec, Padded;
  }

  /** After a flush each row is in the chunk of its own service and date, with rows of
      that service and date only. */
  lemma FlushedRowLiesUnderItsDate(store: Store, base: Store, batch: seq<LogRecord>, root: Path, c: Clock,
                                   r: LogRecord, d: Date, us: int)
    requires Sane(c) && HasChunks(store, base, batch, Keys(batch, c), root, c)
    requires r in batch && LoggedOn(r, d, us, c.range)
    ensures var p := ChunkOf(root, r.service, d, c.nanos);
            && p in store && r in store[p].rows
            && forall q, e, vs | q in store[p].rows && LoggedOn(q, e, vs, c.range) :: q.service == r.service && e == d
  {
    var k, p := (r.service, d), ChunkOf(root, r.service, d, c.nanos);
    ChunkIsChunkPath(root, r.service, d, c.nanos);
    KeyOfRow(r, d, us, c);
    KeptOne(batch, k, c);
    KeptMembers(batch, {k}, c);
    hide LoggedOn, KeyOf, RowsFor, Kept, ChunkPath, ChunkOf, Sane, Replaces;
    assert k in Keys(batch, c);
    forall q, e, vs | q in store[p].rows && LoggedOn(q, e, vs, c.range) ensures q.service == r.service && e == d {
      KeyOfRow(q, e, vs, c);
      assert q in batch && KeyOf(q, c) == k;
    }
  }

  lemma KeyOfRow(r: LogRecord, d: Date, us: int, c: Clock)
    requires LoggedOn(r, d, us, c.range)
    ensures KeyOf(r, c) == (r.service, d)
  {
    DayOfRow(r, d, us, c.range);
    hide DateOf, DayOf, LoggedOn, InRange;
  }

  /** Whatever flushes, sweeps and purges came before, a purge run on day `today` with a
      retention of `days` removes the file of a row if and only if its date is more than
      `days` days before today. */
  lemma PurgeGoesByTheDate(run: seq<Store>, after: Store, root: Path, range: Range, today: Date, days: nat, p: Path,
                           r: LogRecord, d: Date, us: int)
    requires StoreRuns.FitsI32(range) && StoreRuns.Life(run, root, range) && Valid(today)
    requires Retention.Purged(run[|run| - 1], after, root, DateOf(DayNumber(today) - days), range, {})
    requires p in run[|run| - 1] && r in run[|run| - 1][p].rows && LoggedOn(r, d, us, range)
    ensures p in after <==> DayNumber(today) - DayNumber(d) <= days
    ensures p in after ==> after[p] == run[|run| - 1][p]
  {
    hide *;
    DayOfRow(r, d, us, range);
    StoreRuns.PurgeDropsExactlyTheExpired(run, after, root, range, DayNumber(today) - days, p, r);
  }

  /** A row of the window, not dated after today, lies on a day the clause lists. */
  lemma WindowListsTheDate(nowUs: int, windowSecs: nat, clause: Pruning.Clause, r: LogRecord, d: Date, us: int,
                           range: Range)
    requires Pruning.ClauseFor(clause,
                               Pruning.DatesFrom(Pruning.StartDay(nowUs, windowSecs), DayOf(nowUs)))
    requires LoggedOn(r, d, us, range)
    requires nowUs - windowSecs * 1_000_000 <= r.timestampUs && DayNumber(d) * 86_400_000_000 <= nowUs
    ensures match clause
            case Days(numbers) => d.day in numbers
            case Months(numbers) => d.month in numbers
            case Years(years) => d.year in years
  {
    DayOfRow(r, d, us, range);
    MomentIsOfItsDay(d, 0);
    DayOfGrows(DayNumber(d) * 86_400_000_000, nowUs);
    hide DateOf, DayOf, DayNumber, LoggedOn, InRange, Pruning.ClauseFor, Pruning.DatesFrom, Pruning.StartDay;
    Pruning.WindowIsListed(nowUs, windowSecs, clause, r.timestampUs);
  }
}
