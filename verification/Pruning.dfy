/** Partition pruning: the days a search window covers, the one clause made of them, and what it leaves out. */
module Pruning {
  import opened Seqs
  import opened Records
  import opened Calendar
  import opened Sorting
  import opened Directories
  import opened Storage
  import Retention

  const PARTITION_PAD_DAYS := 1
  const I64_MAX: nat := 0x7FFF_FFFF_FFFF_FFFF
  const MICROS: nat := 1_000_000

  /** `day IN (...)`, `month IN (...)` or `year IN (...)`. */
  datatype Clause = Days(numbers: seq<nat>) | Months(numbers: seq<nat>) | Years(years: seq<int>)

  predicate Listed(clause: Clause, d: Date) {
    match clause
    case Days(numbers) => d.day in numbers
    case Months(numbers) => d.month in numbers
    case Years(years) => d.year in years
  }

  function Cutoff(nowUs: int, windowSecs: nat): int {
    nowUs - windowSecs * MICROS
  }

  /** The first day a window covers, padded on the left. */
  function StartDay(nowUs: int, windowSecs: nat): int {
    DayOf(Cutoff(nowUs, windowSecs)) - PARTITION_PAD_DAYS
  }

  function DatesFrom(first: int, last: int): seq<Date> {
    seq(Max(last - first + 1, 0), i requires 0 <= i < Max(last - first + 1, 0) => DateOf(first + i))
  }

  /** The date arithmetic stays in range: the length as a duration in milliseconds,
      the first day, and the day after today, which the loop computes too. */
  ghost predicate Computable(nowUs: int, windowSecs: nat, range: Range) {
    && windowSecs <= I64_MAX / 1000
    && InRange(DateOf(StartDay(nowUs, windowSecs)), range)
    && InRange(DateOf(DayOf(nowUs) + 1), range)
  }

  /** The dates listed are those of the padded window: their day starts no later than now,
      and the day after it ends later than the window begins. */
  lemma WindowDaysAre(nowUs: int, windowSecs: nat, d: Date)
    requires Valid(d)
    ensures d in DatesFrom(StartDay(nowUs, windowSecs), DayOf(nowUs))
            <==> DayNumber(d) * 86_400_000_000 <= nowUs
                 && nowUs - windowSecs * 1_000_000 < (DayNumber(d) + 2) * 86_400_000_000
  {
    var n, first, last := DayNumber(d), StartDay(nowUs, windowSecs), DayOf(nowUs);
    NumberIsRight(d);
    FloorIs(nowUs, n);
    FloorIs(nowUs - windowSecs * 1_000_000, n + 1);
    FloorIs(nowUs - windowSecs * 1_000_000, n + 2);
    assert first <= n <= last <==> n * 86_400_000_000 <= nowUs
                                   && nowUs - windowSecs * 1_000_000 < (n + 2) * 86_400_000_000;
    hide DateOf, DayNumber, StartDay, DayOf;
    AmongDates(first, last, n);
  }

  lemma FloorIs(micros: int, day: int)
    ensures day <= DayOf(micros) <==> day * 86_400_000_000 <= micros
  {
  }

  lemma AmongDates(first: int, last: int, n: int)
    ensures DateOf(n) in DatesFrom(first, last) <==> first <= n <= last
  {
    hide DateOf;
    var days := DatesFrom(first, last);
    if first <= n <= last {
      assert days[n - first] == DateOf(n);
    }
    if DateOf(n) in days {
      var i :| 0 <= i < |days| && days[i] == DateOf(n);
      BeforeIff(first + i, n);
    }
  }

  /** `partition_days`; no result where the original panics. */
  method PartitionDays(nowUs: int, windowSecs: nat, range: Range) returns (days: Option<seq<Date>>)
    requires InRange(DateOf(DayOf(nowUs)), range)
    ensures days.Some? <==> Computable(nowUs, windowSecs, range)
    ensures days.Some? <==> windowSecs <= 9_223_372_036_854_775
                            && InRange(DateOf(DayOf(nowUs - windowSecs * 1_000_000) - 1), range)
                            && InRange(DateOf(DayOf(nowUs) + 1), range)
    ensures days.Some? ==> days.value == DatesFrom(StartDay(nowUs, windowSecs), DayOf(nowUs))
    ensures days.Some? ==>
              forall d | Valid(d) :: d in days.value
                                     <==> DayNumber(d) * 86_400_000_000 <= nowUs
                                          && nowUs - windowSecs * 1_000_000 < (DayNumber(d) + 2) * 86_400_000_000
  {
    hide *;
    ComputableMeans(nowUs, windowSecs, range);
    if windowSecs > I64_MAX / 1000 {
      return None;
    }
    var first, last := StartDay(nowUs, windowSecs), DayOf(nowUs);
    var current, end := DateOf(first), DateOf(last);
    if !InRange(current, range) {
      return None;
    }
    StartIsEarlier(nowUs, windowSecs);
    var listed: seq<Date> := [];
    ghost var n := first;
    BeforeIff(n, last);
    NoDates(first);
    while NotAfter(current, end)
      invariant first <= n <= last + 1 && current == DateOf(n) && InRange(DateOf(n), range)
      invariant listed == DatesFrom(first, n - 1) && (NotAfter(current, end) <==> n <= last)
      decreases last - n
    {
      DatesNext(first, n);
      NextDay(n);
      BeforeIff(n + 1, last);
      listed, n, current := listed + [current], n + 1, Succ(current);
      if !InRange(current, range) {
        LeavesRange(first, n, last, range);
        return None;
      }
    }
    days := Some(listed);
    forall d | Valid(d)
      ensures d in listed <==> DayNumber(d) * 86_400_000_000 <= nowUs
                               && nowUs - windowSecs * 1_000_000 < (DayNumber(d) + 2) * 86_400_000_000
    {
      WindowDaysAre(nowUs, windowSecs, d);
    }
  }

  lemma NoDates(first: int)
    ensures DatesFrom(first, first - 1) == []
  {
  }

  lemma DatesNext(first: int, n: int)
    requires first <= n
    ensures DatesFrom(first, n) == DatesFrom(first, n - 1) + [DateOf(n)]
  {
    hide DateOf;
  }

  lemma ComputableMeans(nowUs: int, windowSecs: nat, range: Range)
    ensures Computable(nowUs, windowSecs, range)
            <==> windowSecs <= 9_223_372_036_854_775
                 && InRange(DateOf(DayOf(nowUs - windowSecs * 1_000_000) - 1), range)
                 && InRange(DateOf(DayOf(nowUs) + 1), range)
    ensures I64_MAX / 1000 == 9_223_372_036_854_775
    ensures StartDay(nowUs, windowSecs) == DayOf(nowUs - windowSecs * 1_000_000) - 1
  {
    hide DateOf, DayOf, InRange;
  }

  lemma StartIsEarlier(nowUs: int, windowSecs: nat)
    ensures StartDay(nowUs, windowSecs) < DayOf(nowUs)
  {
    DayOfGrows(Cutoff(nowUs, windowSecs), nowUs);
  }

  /** Between two days in range every day is. */
  lemma LeavesRange(first: int, n: int, last: int, range: Range)
    requires first <= n <= last + 1 && !InRange(DateOf(n), range) && InRange(DateOf(first), range)
    ensures !InRange(DateOf(last + 1), range)
  {
    if InRange(DateOf(last + 1), range) {
      RangeIsConvex(first, n, last + 1, range);
    }
  }

  function YearOf(d: Date): int {
    d.year
  }

  function MonthOf(d: Date): nat {
    d.month
  }

  function DayOfMonth(d: Date): nat {
    d.day
  }

  /** `found` are the values of `f` on `days`, each once. */
  ghost predicate Collects<V(!new)>(found: seq<V>, days: seq<Date>, f: Date -> V) {
    Distinct(found) && forall v :: v in found <==> exists d | d in days :: f(d) == v
  }

  /** The clause `partition_predicate` should make of `days`: by span, the day
      numbers, months or years that occur, each once. */
  ghost predicate ClauseFor(clause: Clause, days: seq<Date>) {
    match clause
    case Days(numbers) => |days| <= 32 && Collects(numbers, days, DayOfMonth) && Ascending(numbers, AtMost)
    case Months(numbers) => 32 < |days| <= 730 && Collects(numbers, days, MonthOf)
    case Years(years) => 730 < |days| && Collects(years, days, YearOf)
  }

  predicate AtMost(a: nat, b: nat) {
    a <= b
  }

  lemma CollectNext<V(!new)>(found: seq<V>, days: seq<Date>, i: nat, f: Date -> V)
    requires i < |days| && Collects(found, days[..i], f)
    ensures Collects(if f(days[i]) in found then found else found + [f(days[i])], days[..i + 1], f)
  {
    assert days[..i + 1] == days[..i] + [days[i]];
  }

  lemma CollectNone<V(!new)>(days: seq<Date>, f: Date -> V)
    ensures Collects([], days[..0], f)
  {
  }

  lemma SortedStillCollects(found: seq<nat>, days: seq<Date>)
    requires Collects(found, days, DayOfMonth)
    ensures Collects(SortBy(found, AtMost), days, DayOfMonth) && Ascending(SortBy(found, AtMost), AtMost)
  {
    SortByAscends(found, AtMost);
    PermutationKeeps(found, SortBy(found, AtMost));
  }

  method PartitionPredicate(days: seq<Date>) returns (clause: Option<Clause>)
    ensures clause.None? <==> days == []
    ensures clause.Some? ==> ClauseFor(clause.value, days)
    ensures clause.Some? ==> (clause.value.Days? <==> |days| <= 32) && (clause.value.Years? <==> |days| > 730)
  {
    if days == [] {
      return None;
    }
    hide Collects, Ascending, SortBy;
    var years: seq<int>, months: seq<nat>, dayNumbers: seq<nat> := [], [], [];
    CollectNone(days, YearOf);
    CollectNone(days, MonthOf);
    CollectNone(days, DayOfMonth);
    var i := 0;
    while i < |days|
      invariant i <= |days|
      invariant Collects(years, days[..i], YearOf) && Collects(months, days[..i], MonthOf)
      invariant Collects(dayNumbers, days[..i], DayOfMonth)
    {
      CollectNext(years, days, i, YearOf);
      CollectNext(months, days, i, MonthOf);
      CollectNext(dayNumbers, days, i, DayOfMonth);
      var d := days[i];
      if d.year !in years {
        years := years + [d.year];
      }
      if d.month !in months {
        months := months + [d.month];
      }
      if d.day !in dayNumbers {
        dayNumbers := dayNumbers + [d.day];
      }
      i := i + 1;
    }
    assert days[..|days|] == days;
    if |days| <= 32 {
      SortedStillCollects(dayNumbers, days);
      clause := Some(Days(SortBy(dayNumbers, AtMost)));
    } else if |days| <= 730 {
      clause := Some(Months(months));
    } else {
      clause := Some(Years(years));
    }
  }

  /** Every row of the window dated no later than today lies in a listed directory. */
  lemma WindowIsListed(nowUs: int, windowSecs: nat, clause: Clause, timestampUs: int)
    requires ClauseFor(clause, DatesFrom(StartDay(nowUs, windowSecs), DayOf(nowUs)))
    requires timestampUs >= Cutoff(nowUs, windowSecs) && DayOf(timestampUs) <= DayOf(nowUs)
    ensures Listed(clause, DateOf(DayOf(timestampUs)))
  {
    DayOfGrows(Cutoff(nowUs, windowSecs), timestampUs);
    hide DateOf, DayOf, Cutoff;
    var days := DatesFrom(StartDay(nowUs, windowSecs), DayOf(nowUs));
    var day := DayOf(timestampUs);
    var d := DateOf(day);
    assert days[day - StartDay(nowUs, windowSecs)] == d;
    assert d in days && DayOfMonth(d) == d.day && MonthOf(d) == d.month && YearOf(d) == d.year;
  }

  // ------------------------------------------------------ what a scan finds

  /** The rows a query keeps. */
  function Hits(rows: seq<LogRecord>, keep: LogRecord -> bool): seq<LogRecord> {
    if rows == [] then []
    else (if keep(rows[0]) then [rows[0]] else []) + Hits(rows[1..], keep)
  }

  /** The partition date of a file, as the listing table reads it off the path. */
  function DateOfFile(p: Path, root: Path, range: Range): Option<Date> {
    if |root| + 3 <= |p| then DayPartitionDate(p[..|root| + 3], range) else None
  }

  predicate Scanned(clause: Clause, p: Path, root: Path, range: Range) {
    DateOfFile(p, root, range).Some? && Listed(clause, DateOfFile(p, root, range).value)
  }

  /** A query over `paths`, with and without the partition clause. */
  function Query(store: Store, paths: seq<Path>, keep: LogRecord -> bool): seq<LogRecord>
    requires forall p | p in paths :: p in store
  {
    if paths == [] then [] else Hits(store[paths[0]].rows, keep) + Query(store, paths[1..], keep)
  }

  function PrunedQuery(store: Store, paths: seq<Path>, keep: LogRecord -> bool, clause: Clause, root: Path,
        range: Range): seq<LogRecord>
    requires forall p | p in paths :: p in store
  {
    if paths == [] then []
    else (if Scanned(clause, paths[0], root, range) then Hits(store[paths[0]].rows, keep) else [])
         + PrunedQuery(store, paths[1..], keep, clause, root, range)
  }

  lemma {:induction false} NoHits(rows: seq<LogRecord>, keep: LogRecord -> bool)
    ensures Hits(rows, keep) == [] <==> forall r | r in rows :: !keep(r)
  {
    if rows != [] {
      NoHits(rows[1..], keep);
    }
  }

  lemma {:induction false} PrunedIsShorter(store: Store, paths: seq<Path>, keep: LogRecord -> bool, clause: Clause,
                                           root: Path, range: Range)
    requires forall p | p in paths :: p in store
    ensures |PrunedQuery(store, paths, keep, clause, root, range)| <= |Query(store, paths, keep)|
  {
    if paths != [] {
      hide Scanned;
      PrunedIsShorter(store, paths[1..], keep, clause, root, range);
    }
  }

  ghost predicate KeptAreScanned(store: Store, paths: seq<Path>, keep: LogRecord -> bool, clause: Clause, root: Path,
        range: Range)
    requires forall p | p in paths :: p in store
  {
    forall p, r | p in paths && r in store[p].rows && keep(r) :: Scanned(clause, p, root, range)
  }

  lemma KeptNext(store: Store, paths: seq<Path>, keep: LogRecord -> bool, clause: Clause, root: Path, range: Range)
    requires paths != [] && forall p | p in paths :: p in store
    ensures KeptAreScanned(store, paths, keep, clause, root, range)
            <==> (Scanned(clause, paths[0], root, range) || Hits(store[paths[0]].rows, keep) == [])
                 && KeptAreScanned(store, paths[1..], keep, clause, root, range)
  {
    NoHits(store[paths[0]].rows, keep);
    hide Scanned, Hits;
    assert paths == [paths[0]] + paths[1..];
  }

  lemma JoinsAgree<T>(x: seq<T>, y: seq<T>, part: seq<T>, rest: seq<T>)
    requires (part == x || part == []) && |rest| <= |y|
    ensures part + rest == x + y <==> part == x && rest == y
  {
    if part + rest == x + y {
      assert |part + rest| == |x + y|;
      assert (part + rest)[|x|..] == rest && (x + y)[|x|..] == y;
    }
  }

  /** Pruning changes nothing exactly when every row the query keeps is scanned. */
  lemma {:induction false} PruningLosesNothingIff(store: Store, paths: seq<Path>, keep: LogRecord -> bool,
                                                  clause: Clause, root: Path, range: Range)
    requires forall p | p in paths :: p in store
    ensures PrunedQuery(store, paths, keep, clause, root, range) == Query(store, paths, keep)
            <==> KeptAreScanned(store, paths, keep, clause, root, range)
  {
    if paths != [] {
      hide Scanned, KeptAreScanned, Hits;
      KeptNext(store, paths, keep, clause, root, range);
      PruningLosesNothingIff(store, paths[1..], keep, clause, root, range);
      PrunedIsShorter(store, paths[1..], keep, clause, root, range);
      var here := Hits(store[paths[0]].rows, keep);
      JoinsAgree(here, Query(store, paths[1..], keep), if Scanned(clause, paths[0], root, range) then here else [],
                 PrunedQuery(store, paths[1..], keep, clause, root, range));
    } else {
      assert KeptAreScanned(store, paths, keep, clause, root, range);
    }
  }

  /** The partition clause keeps the meaning of a search over a placed store exactly
      when each row it should return that is dated after today, or has no
      representable day, lies in a listed directory. */
  lemma PruningPreservesMeaningIff(store: Store, paths: seq<Path>, keep: LogRecord -> bool, clause: Clause,
                                   root: Path, range: Range, nowUs: int, windowSecs: nat)
    requires -(I32_MAX as int) - 1 <= range.firstYear && range.lastYear <= I32_MAX
    requires Placed(store, root, range) && forall p | p in paths :: p in store
    requires ClauseFor(clause, DatesFrom(StartDay(nowUs, windowSecs), DayOf(nowUs)))
    requires forall r :: keep(r) ==> r.timestampUs >= Cutoff(nowUs, windowSecs)
    ensures PrunedQuery(store, paths, keep, clause, root, range) == Query(store, paths, keep)
            <==> forall p, r | p in paths && r in store[p].rows && keep(r)
                               && (DayOf(r.timestampUs) > DayOf(nowUs) || !InRange(DateOf(DayOf(r.timestampUs)), range))
                 :: Scanned(clause, p, root, range)
  {
    PruningLosesNothingIff(store, paths, keep, clause, root, range);
    hide PrunedQuery, Query, Scanned, ClauseFor, Placed, DatesFrom;
    forall p, r | p in paths && r in store[p].rows && keep(r)
                  && DayOf(r.timestampUs) <= DayOf(nowUs) && InRange(DateOf(DayOf(r.timestampUs)), range)
      ensures Scanned(clause, p, root, range)
    {
      WindowIsListed(nowUs, windowSecs, clause, r.timestampUs);
      ScannedByOwnDay(store, p, r, clause, root, range);
    }
  }

  lemma ScannedByOwnDay(store: Store, p: Path, r: LogRecord, clause: Clause, root: Path, range: Range)
    requires -(I32_MAX as int) - 1 <= range.firstYear && range.lastYear <= I32_MAX
    requires Placed(store, root, range) && p in store && r in store[p].rows
    requires InRange(DateOf(DayOf(r.timestampUs)), range) && Listed(clause, DateOf(DayOf(r.timestampUs)))
    ensures Scanned(clause, p, root, range)
  {
    var k: Key :| PlacedUnder(p, store[p].rows, root, k, range);
    Retention.PrefixesOfPlaced(p, store[p].rows, root, k, range, |root| + 3);
    hide DayPartitionDate, DateOf, Listed, DirOf;
  }

  /** A row from tomorrow can be left out: at noon on 1970-01-02, a one-hour window
      lists the first and second, not the third. */
  lemma TomorrowCanBePruned(clause: Clause)
    requires ClauseFor(clause, DatesFrom(StartDay(129_600_000_000, 3600), DayOf(129_600_000_000)))
    ensures DayOf(172_800_000_000) == DayOf(129_600_000_000) + 1
    ensures 172_800_000_000 >= Cutoff(129_600_000_000, 3600)
    ensures !Listed(clause, DateOf(DayOf(172_800_000_000)))
  {
    var days := DatesFrom(0, 1);
    assert DateOf(0) == EPOCH && DateOf(1) == Date(1970, 1, 2) && DateOf(2) == Date(1970, 1, 3);
    assert days == [DateOf(0), DateOf(1)];
    assert StartDay(129_600_000_000, 3600) == 0;
    hide DateOf, DatesFrom;
    assert clause.Days?;
  }
}
