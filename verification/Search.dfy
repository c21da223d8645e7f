/** `QueryEngine::search`: pruning, the two tiers, and the merge, against one query over all rows. */
module Search {
  import opened Seqs
  import opened Records
  import opened Calendar
  import opened Directories
  import opened Storage
  import opened Pruning
  import SearchRows
  import SearchAggregate

  /** The chunks a search may list, its filter, and the window it was asked for. */
  datatype Scan = Scan(store: Store, paths: seq<Path>, keep: LogRecord -> bool, root: Path, range: Range, nowUs: int,
      windowSecs: nat)

  /** A placed store, a filter within the window, and every row to be returned that
      is dated after today, or has no representable day, in a listed directory. */
  ghost predicate Ordinary(s: Scan, clause: Clause) {
    && -(I32_MAX as int) - 1 <= s.range.firstYear && s.range.lastYear <= I32_MAX
    && Placed(s.store, s.root, s.range) && (forall p | p in s.paths :: p in s.store)
    && ClauseFor(clause, DatesFrom(StartDay(s.nowUs, s.windowSecs), DayOf(s.nowUs)))
    && (forall r :: s.keep(r) ==> r.timestampUs >= Cutoff(s.nowUs, s.windowSecs))
    && forall p, r | p in s.paths && r in s.store[p].rows && s.keep(r)
                     && (DayOf(r.timestampUs) > DayOf(s.nowUs) || !InRange(DateOf(DayOf(r.timestampUs)), s.range)) ::
         Scanned(clause, p, s.root, s.range)
  }

  lemma PrunedIsWhole(s: Scan, clause: Clause)
    requires Ordinary(s, clause)
    ensures PrunedQuery(s.store, s.paths, s.keep, clause, s.root, s.range) == Query(s.store, s.paths, s.keep)
  {
    PruningPreservesMeaningIff(s.store, s.paths, s.keep, clause, s.root, s.range, s.nowUs, s.windowSecs);
    hide PrunedQuery, Query, Placed, ClauseFor, DatesFrom, DateOf, Scanned;
  }

  /** In rows mode the page shows, position by position, the timestamps of the
      newest-first order of every matching row of both tiers. */
  lemma RowsModeIsTheReference(s: Scan, clause: Clause, live: seq<LogRecord>, limit: nat, offset: nat,
                               page: seq<LogRecord>, reference: seq<LogRecord>)
    requires Ordinary(s, clause) && limit >= 1
    requires SearchRows.Answers(PrunedQuery(s.store, s.paths, s.keep, clause, s.root, s.range), Hits(live, s.keep),
            limit, offset, page)
    requires SearchRows.SortOf(reference, Query(s.store, s.paths, s.keep) + Hits(live, s.keep))
    ensures SearchRows.Timestamps(page) == SearchRows.Page(SearchRows.Timestamps(reference), limit, offset)
  {
    PrunedIsWhole(s, clause);
    hide *;
    SearchRows.AnswerShowsTheReference(Query(s.store, s.paths, s.keep), Hits(live, s.keep), limit, offset, page,
                                       reference);
  }

  /** And told by timestamps alone: the page holds the newest matching rows of both tiers
      past the offset, newest first. */
  lemma RowsModeShowsTheNewest(s: Scan, clause: Clause, live: seq<LogRecord>, limit: nat, offset: nat,
                               page: seq<LogRecord>)
    requires Ordinary(s, clause) && limit >= 1
    requires SearchRows.Answers(PrunedQuery(s.store, s.paths, s.keep, clause, s.root, s.range), Hits(live, s.keep),
            limit, offset, page)
    ensures var all := Query(s.store, s.paths, s.keep) + Hits(live, s.keep);
            && |page| == (if offset >= |all| then 0 else if |all| - offset < limit then |all| - offset else limit)
            && (forall i, j | 0 <= i < j < |page| :: page[i].timestampUs >= page[j].timestampUs)
            && forall i | 0 <= i < |page| ::
                 |SearchRows.Above(all, page[i].timestampUs)| <= offset + i
                 < |SearchRows.Above(all, page[i].timestampUs - 1)|
  {
    PrunedIsWhole(s, clause);
    hide *;
    SearchRows.PageIsNewest(Query(s.store, s.paths, s.keep), Hits(live, s.keep), limit, offset, page);
  }

  /** In aggregate mode the merged answer is that of one query over every matching row
      of both tiers, exactly when the query groups or no null of an empty tier gets in
      the way. */
  lemma AggregateModeIsTheReference(s: Scan, clause: Clause, live: seq<LogRecord>, metrics: seq<SearchAggregate.Metric>,
                                    groupBy: seq<SearchAggregate.Dimension>, bucketSecs: nat,
                                    fromParquet: seq<SearchAggregate.Group>, fromLive: seq<SearchAggregate.Group>,
                                    out: seq<SearchAggregate.Group>)
    requires Ordinary(s, clause) && Distinct(metrics)
    requires forall r | r in Query(s.store, s.paths, s.keep) + Hits(live, s.keep) ::
            r.timestampUs >= SearchAggregate.I64_MIN
    requires SearchAggregate.TierAnswers(fromParquet, PrunedQuery(s.store, s.paths, s.keep, clause, s.root, s.range),
            metrics, groupBy, bucketSecs)
    requires SearchAggregate.TierAnswers(fromLive, Hits(live, s.keep), metrics, groupBy, bucketSecs)
    requires SearchAggregate.WellFormed(fromParquet + fromLive, metrics)
             && SearchAggregate.MergeOf(out, fromParquet + fromLive, metrics)
    ensures var stored, recent := Query(s.store, s.paths, s.keep), Hits(live, s.keep);
            SearchAggregate.TierAnswers(out, stored + recent, metrics, groupBy, bucketSecs)
            <==> groupBy != []
                 || forall m | m in metrics :: SearchAggregate.NullIsHarmless(stored, recent, m, bucketSecs)
  {
    PrunedIsWhole(s, clause);
    hide *;
    SearchAggregate.MergedTiersAnswer(Query(s.store, s.paths, s.keep), Hits(live, s.keep), fromParquet, fromLive,
                                      metrics, groupBy, bucketSecs, out);
  }
}
