/**
 The rows of one service in a flush, with the clock read anew for every row and every
 pass over the rows: `unique_days` is the first pass, `rows_for_day` one more for each
 day it found. The clock only matters to a row whose timestamp the date library cannot
 represent, and midnight may fall between two passes.
 */
module FlushClock {
  import opened Records
  import opened Calendar
  import opened Directories
  import opened Sorting
  import Storage

  predicate Representable(r: LogRecord, range: Range) {
    InRange(DateOf(DayOf(r.timestampUs)), range)
  }

  function Seen(r: LogRecord, today: Date, range: Range): Date {
    MicrosToDate(r.timestampUs, range, today)
  }

  /** The loop of `unique_days`; `pass` is what the clock said at each row. */
  function Found(split: seq<LogRecord>, pass: seq<Date>, range: Range): seq<Date>
    requires |pass| == |split|
  {
    if split == [] then []
    else
      var n := |split| - 1;
      var found := Found(split[..n], pass[..n], range);
      if Seen(split[n], pass[n], range) in found then found else found + [Seen(split[n], pass[n], range)]
  }

  function Days(split: seq<LogRecord>, pass: seq<Date>, range: Range): seq<Date>
    requires |pass| == |split|
  {
    SortBy(Found(split, pass, range), NotAfter)
  }

  /** `rows_for_day`. */
  function RowsForDay(split: seq<LogRecord>, d: Date, pass: seq<Date>, range: Range): seq<LogRecord>
    requires |pass| == |split|
  {
    if split == [] then []
    else (if Seen(split[0], pass[0], range) == d then [split[0]] else [])
         + RowsForDay(split[1..], d, pass[1..], range)
  }

  /** A pass to find the days, and one for each day found. */
  predicate Passes(split: seq<LogRecord>, clock: seq<seq<Date>>, range: Range) {
    && (forall p | 0 <= p < |clock| :: |clock[p]| == |split|)
    && 0 < |clock| && |clock| == |Days(split, clock[0], range)| + 1
  }

  /** The clock says day `t` up to some row of some pass, and the next day from there on. */
  ghost predicate OneMidnight(clock: seq<seq<Date>>, t: int) {
    && (forall p, i | 0 <= p < |clock| && 0 <= i < |clock[p]| :: clock[p][i] in {DateOf(t), DateOf(t + 1)})
    && (forall p, i, q, j | 0 <= p < |clock| && 0 <= q < |clock| && 0 <= i < |clock[p]| && 0 <= j < |clock[q]| ::
          (p < q || (p == q && i <= j)) && clock[p][i] == DateOf(t + 1) ==> clock[q][j] == DateOf(t + 1))
  }

  /** No pass comes back empty, which would be an error. */
  predicate Succeeds(split: seq<LogRecord>, days: seq<Date>, passes: seq<seq<Date>>, range: Range)
    requires |passes| == |days| && forall p | 0 <= p < |passes| :: |passes[p]| == |split|
  {
    forall j | 0 <= j < |days| :: RowsForDay(split, days[j], passes[j], range) != []
  }

  /** The rows of the chunks written. */
  function Published(split: seq<LogRecord>, days: seq<Date>, passes: seq<seq<Date>>, range: Range): multiset<LogRecord>
    requires |passes| == |days| && forall p | 0 <= p < |passes| :: |passes[p]| == |split|
  {
    if days == [] then multiset{}
    else multiset(RowsForDay(split, days[0], passes[0], range)) + Published(split, days[1..], passes[1..], range)
  }

  /** A flush that reports success has stored every row once. */
  ghost predicate Whole(split: seq<LogRecord>, clock: seq<seq<Date>>, range: Range)
    requires Passes(split, clock, range)
  {
    var days := Days(split, clock[0], range);
    Succeeds(split, days, clock[1..], range) ==> Published(split, days, clock[1..], range) == multiset(split)
  }

  // ------------------------------------------------------------- the days found

  lemma {:induction false} FoundIs(split: seq<LogRecord>, pass: seq<Date>, range: Range)
    requires |pass| == |split|
    ensures Distinct(Found(split, pass, range))
    ensures forall d ::
              d in Found(split, pass, range) <==> exists i | 0 <= i < |split| :: Seen(split[i], pass[i], range) == d
  {
    hide Seen;
    if split != [] {
      var n := |split| - 1;
      var found, last := Found(split[..n], pass[..n], range), Seen(split[n], pass[n], range);
      FoundIs(split[..n], pass[..n], range);
      assert forall i | 0 <= i < n :: split[i] == split[..n][i] && pass[i] == pass[..n][i];
      forall d
        ensures d in Found(split, pass, range) <==> exists i | 0 <= i < |split| :: Seen(split[i], pass[i], range) == d
      {
        if d in found {
          var i :| 0 <= i < n && Seen(split[..n][i], pass[..n][i], range) == d;
          assert Seen(split[i], pass[i], range) == d;
        }
        if i :| 0 <= i < |split| && Seen(split[i], pass[i], range) == d {
          if i < n {
            assert Seen(split[..n][i], pass[..n][i], range) == d;
          }
        }
      }
    }
  }

  lemma DaysAre(split: seq<LogRecord>, pass: seq<Date>, range: Range)
    requires |pass| == |split|
    ensures Distinct(Days(split, pass, range)) && Ascending(Days(split, pass, range), NotAfter)
    ensures forall d ::
              d in Days(split, pass, range) <==> exists i | 0 <= i < |split| :: Seen(split[i], pass[i], range) == d
  {
    var found := Found(split, pass, range);
    FoundIs(split, pass, range);
    Storage.DateOrder();
    hide Seen, Found, Ascending, Total;
    SortByAscends(found, NotAfter);
    PermutationKeeps(found, SortBy(found, NotAfter));
  }

  // ----------------------------------------------------------- when all is well

  /** The clock says `today` to every row it matters to. */
  predicate Steady(split: seq<LogRecord>, pass: seq<Date>, range: Range, today: Date)
    requires |pass| == |split|
  {
    forall i | 0 <= i < |split| :: Representable(split[i], range) || pass[i] == today
  }

  /** Then a pass sees what a flush with one date sees. */
  lemma {:induction false} OneDateServes(split: seq<LogRecord>, d: Date, pass: seq<Date>, c: Storage.Clock)
    requires |pass| == |split| && Steady(split, pass, c.range, c.today)
    ensures RowsForDay(split, d, pass, c.range) == Storage.RowsForDay(split, d, c)
  {
    if split != [] {
      OneDateServes(split[1..], d, pass[1..], c);
      hide DateOf, InRange;
    }
  }

  /** The rows a flush with one date publishes for `days`. */
  function OnDays(split: seq<LogRecord>, days: seq<Date>, c: Storage.Clock): multiset<LogRecord> {
    if days == [] then multiset{}
    else multiset(Storage.RowsForDay(split, days[0], c)) + OnDays(split, days[1..], c)
  }

  lemma {:induction false} PublishedOnDays(split: seq<LogRecord>, days: seq<Date>, passes: seq<seq<Date>>,
                                           c: Storage.Clock)
    requires |passes| == |days|
    requires forall p | 0 <= p < |passes| :: |passes[p]| == |split| && Steady(split, passes[p], c.range, c.today)
    ensures Published(split, days, passes, c.range) == OnDays(split, days, c)
  {
    hide RowsForDay, Storage.RowsForDay, Steady;
    if days != [] {
      OneDateServes(split, days[0], passes[0], c);
      PublishedOnDays(split, days[1..], passes[1..], c);
    }
  }

  lemma {:induction false} NextRow(split: seq<LogRecord>, days: seq<Date>, c: Storage.Clock)
    requires split != [] && Distinct(days)
    ensures OnDays(split, days, c)
            == OnDays(split[1..], days, c)
               + if Storage.KeyOf(split[0], c).1 in days then multiset{split[0]} else multiset{}
  {
    hide Storage.KeyOf;
    if days != [] {
      NextRow(split, days[1..], c);
    }
  }

  lemma {:induction false} NoRow(days: seq<Date>, c: Storage.Clock)
    ensures OnDays([], days, c) == multiset{}
  {
    if days != [] {
      NoRow(days[1..], c);
    }
  }

  lemma {:induction false} EveryRowOnItsDay(split: seq<LogRecord>, days: seq<Date>, c: Storage.Clock)
    requires Distinct(days) && forall i | 0 <= i < |split| :: Storage.KeyOf(split[i], c).1 in days
    ensures OnDays(split, days, c) == multiset(split)
  {
    hide Storage.KeyOf, OnDays;
    if split == [] {
      NoRow(days, c);
    } else {
      EveryRowOnItsDay(split[1..], days, c);
      NextRow(split, days, c);
      assert split == [split[0]] + split[1..];
    }
  }

  /** If midnight does not come between the passes, or no row minds, every row is stored once. */
  lemma SteadyIsWhole(split: seq<LogRecord>, clock: seq<seq<Date>>, range: Range, today: Date)
    requires Passes(split, clock, range)
    requires forall p | 0 <= p < |clock| :: Steady(split, clock[p], range, today)
    ensures Published(split, Days(split, clock[0], range), clock[1..], range) == multiset(split)
  {
    var c, days := Storage.Clock(range, today, 0), Days(split, clock[0], range);
    DaysAre(split, clock[0], range);
    hide Days, Ascending, Published, DateOf, InRange;
    assert Steady(split, clock[0], range, today);
    forall i | 0 <= i < |split| ensures Storage.KeyOf(split[i], c).1 in days {
      assert Storage.KeyOf(split[i], c).1 == Seen(split[i], clock[0][i], range);
    }
    PublishedOnDays(split, days, clock[1..], c);
    EveryRowOnItsDay(split, days, c);
  }

  // -------------------------------------------------------- when midnight comes

  /** The clock says `before` while the days are found and `after` from then on. */
  function Midnight(n: nat, before: Date, after: Date, passes: nat): seq<seq<Date>> {
    [seq(n, _ => before)] + seq(passes, _ => seq(n, _ => after))
  }

  lemma {:induction false} UnseenRow(split: seq<LogRecord>, d: Date, pass: seq<Date>, range: Range, r: LogRecord)
    requires |pass| == |split| && forall i | 0 <= i < |split| :: Seen(r, pass[i], range) != d
    ensures r !in RowsForDay(split, d, pass, range)
  {
    hide Seen;
    if split != [] {
      assert forall i | 0 <= i < |split[1..]| :: pass[1..][i] == pass[i + 1];
      UnseenRow(split[1..], d, pass[1..], range, r);
      assert Seen(r, pass[0], range) != d;
    }
  }

  lemma {:induction false} UnpublishedRow(split: seq<LogRecord>, days: seq<Date>, passes: seq<seq<Date>>, range: Range,
                                          r: LogRecord)
    requires |passes| == |days| && forall p | 0 <= p < |passes| :: |passes[p]| == |split|
    requires forall p, i | 0 <= p < |passes| && 0 <= i < |split| :: Seen(r, passes[p][i], range) !in days
    ensures r !in Published(split, days, passes, range)
  {
    hide Seen, RowsForDay;
    if days != [] {
      forall i | 0 <= i < |split| ensures Seen(r, passes[0][i], range) != days[0] {
        assert Seen(r, passes[0][i], range) !in days;
      }
      UnseenRow(split, days[0], passes[0], range, r);
      forall p, i | 0 <= p < |passes[1..]| && 0 <= i < |split| ensures Seen(r, passes[1..][p][i], range) !in days[1..] {
        assert Seen(r, passes[p + 1][i], range) !in days;
      }
      UnpublishedRow(split, days[1..], passes[1..], range, r);
    }
  }

  /** A row on its own day is found there whatever the clock says. */
  lemma {:induction false} DatedRowIsSeen(split: seq<LogRecord>, pass: seq<Date>, range: Range, i: nat)
    requires |pass| == |split| && i < |split| && Representable(split[i], range)
    ensures RowsForDay(split, DateOf(DayOf(split[i].timestampUs)), pass, range) != []
  {
    hide DateOf, InRange;
    if i > 0 {
      DatedRowIsSeen(split[1..], pass[1..], range, i - 1);
    }
  }

  /** Row `k` has the last day that rows have of their own. */
  predicate IsLatest(split: seq<LogRecord>, range: Range, k: nat) {
    && k < |split| && Representable(split[k], range)
    && forall i | 0 <= i < |split| && Representable(split[i], range) ::
         NotAfter(DateOf(DayOf(split[i].timestampUs)), DateOf(DayOf(split[k].timestampUs)))
  }

  lemma {:induction false} LatestDay(split: seq<LogRecord>, range: Range) returns (k: nat)
    requires exists i :: 0 <= i < |split| && Representable(split[i], range)
    ensures IsLatest(split, range, k)
  {
    hide DateOf, InRange;
    var n := |split| - 1;
    if i :| 0 <= i < n && Representable(split[i], range) {
      assert Representable(split[..n][i], range);
      k := LatestDay(split[..n], range);
      assert forall j | 0 <= j < n :: split[..n][j] == split[j];
      if Representable(split[n], range)
         && NotAfter(DateOf(DayOf(split[k].timestampUs)), DateOf(DayOf(split[n].timestampUs))) {
        k := n;
      }
    } else {
      k := n;
    }
  }

  lemma MidnightIs(n: nat, before: Date, after: Date, passes: nat)
    ensures var clock := Midnight(n, before, after, passes);
            && |clock| == passes + 1 && (forall p | 0 <= p < |clock| :: |clock[p]| == n)
            && clock[0] == seq(n, _ => before)
            && (forall p, i | 0 <= p < passes && 0 <= i < n :: clock[1..][p][i] == after)
  {
  }

  lemma MidnightIsOne(n: nat, t: int, passes: nat)
    ensures OneMidnight(Midnight(n, DateOf(t), DateOf(t + 1), passes), t) && DateOf(t) != DateOf(t + 1)
  {
    BeforeIff(t, t + 1);
    hide DateOf;
  }

  /** If the clock said row `k`'s own day while the days were found, each day still has rows. */
  lemma DayHasRows(split: seq<LogRecord>, pass: seq<Date>, range: Range, k: nat, d: Date)
    requires k < |split| == |pass| && Representable(split[k], range)
    requires d in Days(split, seq(|split|, _ => DateOf(DayOf(split[k].timestampUs))), range)
    ensures RowsForDay(split, d, pass, range) != []
  {
    var first := seq(|split|, _ => DateOf(DayOf(split[k].timestampUs)));
    DaysAre(split, first, range);
    hide DateOf, InRange, Days, RowsForDay, Ascending;
    var i :| 0 <= i < |split| && Seen(split[i], first[i], range) == d;
    DatedRowIsSeen(split, pass, range, if Representable(split[i], range) then i else k);
  }

  /** The day after is not among the days found. */
  lemma NextDayIsNotFound(split: seq<LogRecord>, range: Range, k: nat)
    requires IsLatest(split, range, k)
    ensures var t := DayOf(split[k].timestampUs);
            DateOf(t + 1) !in Days(split, seq(|split|, _ => DateOf(t)), range)
  {
    var t := DayOf(split[k].timestampUs);
    DaysAre(split, seq(|split|, _ => DateOf(t)), range);
    BeforeIff(t, t + 1);
    hide DateOf, InRange, Days, Ascending;
  }

  /** Midnight after the last of the rows' own days: the flush reports success, and a row
      that goes by the clock is in no chunk. */
  lemma MissedAtMidnight(split: seq<LogRecord>, range: Range, a: nat, k: nat) returns (clock: seq<seq<Date>>)
    requires a < |split| && !Representable(split[a], range) && IsLatest(split, range, k)
    ensures Passes(split, clock, range) && OneMidnight(clock, DayOf(split[k].timestampUs))
    ensures var days := Days(split, clock[0], range);
            && Succeeds(split, days, clock[1..], range)
            && split[a] !in Published(split, days, clock[1..], range)
  {
    var n, t := |split|, DayOf(split[k].timestampUs);
    var days := Days(split, seq(n, _ => DateOf(t)), range);
    hide DateOf, InRange, Days, RowsForDay, Published, OneMidnight;
    MidnightIsOne(n, t, |days|);
    NextDayIsNotFound(split, range, k);
    clock := Midnight(n, DateOf(t), DateOf(t + 1), |days|);
    MidnightIs(n, DateOf(t), DateOf(t + 1), |days|);
    hide IsLatest, Midnight;
    forall j | 0 <= j < |days| ensures RowsForDay(split, days[j], clock[1..][j], range) != [] {
      DayHasRows(split, clock[1..][j], range, k, days[j]);
    }
    UnpublishedRow(split, days, clock[1..], range, split[a]);
  }

  lemma {:induction false} NoneSeen(split: seq<LogRecord>, d: Date, pass: seq<Date>, range: Range)
    requires |pass| == |split| && forall i | 0 <= i < |split| :: Seen(split[i], pass[i], range) != d
    ensures RowsForDay(split, d, pass, range) == []
  {
    hide Seen;
    if split != [] {
      assert forall i | 0 <= i < |split[1..]| :: split[1..][i] == split[i + 1] && pass[1..][i] == pass[i + 1];
      NoneSeen(split[1..], d, pass[1..], range);
    }
  }

  lemma TwoDiffer<T>(s: seq<T>)
    requires Distinct(s) && |s| > 1
    ensures exists y :: y in s && y != s[0]
  {
    assert s[1] in s;
  }

  lemma Single<T>(s: seq<T>, x: T)
    requires Distinct(s) && x in s && forall y | y in s :: y == x
    ensures s == [x]
  {
    assert s[0] in s;
    if |s| > 1 {
      TwoDiffer(s);
    }
  }

  lemma OnlyDay(split: seq<LogRecord>, pass: seq<Date>, range: Range)
    requires |pass| == |split| > 0
    requires forall i | 0 <= i < |split| :: Seen(split[i], pass[i], range) == pass[0]
    ensures Days(split, pass, range) == [pass[0]]
  {
    DaysAre(split, pass, range);
    hide Days, Seen, Ascending;
    var days := Days(split, pass, range);
    assert Seen(split[0], pass[0], range) in days;
    Single(days, pass[0]);
  }

  lemma OneDay(split: seq<LogRecord>, d: Date, pass: seq<Date>, range: Range)
    requires |pass| == |split|
    ensures Published(split, [d], [pass], range) == multiset(RowsForDay(split, d, pass, range))
  {
    hide RowsForDay;
    assert [d][1..] == [];
  }

  /** Only the first row still sees the day that was found. */
  lemma OnlyFirst(split: seq<LogRecord>, d: Date, after: Date, range: Range)
    requires split != [] && d != after && forall i | 0 <= i < |split| :: !Representable(split[i], range)
    ensures RowsForDay(split, d, [d] + seq(|split| - 1, _ => after), range) == [split[0]]
  {
    var pass := [d] + seq(|split| - 1, _ => after);
    hide DateOf, InRange;
    assert pass[1..] == seq(|split| - 1, _ => after);
    NoneSeen(split[1..], d, pass[1..], range);
  }

  /** Midnight between two rows that both go by the clock. */
  lemma SplitAtMidnight(split: seq<LogRecord>, range: Range) returns (clock: seq<seq<Date>>)
    requires |split| > 1 && forall i | 0 <= i < |split| :: !Representable(split[i], range)
    ensures Passes(split, clock, range) && OneMidnight(clock, 0) && !Whole(split, clock, range)
  {
    var n, after := |split|, DateOf(1);
    assert EPOCH == DateOf(0) != after;
    var first, second := seq(n, _ => EPOCH), [EPOCH] + seq(n - 1, _ => after);
    clock := [first, second];
    hide DateOf, InRange;
    OnlyDay(split, first, range);
    OnlyFirst(split, EPOCH, after, range);
    OneDay(split, EPOCH, second, range);
    assert clock[1..] == [second];
    hide Days, RowsForDay, Published, Seen, Representable;
    assert |multiset(split)| == n && |multiset([split[0]])| == 1;
  }

  lemma LoneRow(split: seq<LogRecord>, clock: seq<seq<Date>>, range: Range)
    requires |split| == 1 && Passes(split, clock, range)
    ensures Whole(split, clock, range)
  {
    var d := Seen(split[0], clock[0][0], range);
    DaysAre(split, clock[0], range);
    hide Days, Seen, Ascending;
    var days := Days(split, clock[0], range);
    assert d in days;
    Single(days, d);
    assert clock[1..] == [clock[1]];
    OneDay(split, d, clock[1], range);
    assert split == [split[0]] && RowsForDay(split[1..], d, clock[1][1..], range) == [];
  }

  /** A flush that reports success has stored every row of a service once, whatever the
      clock says, if there is only one row or none that goes by the clock. Otherwise one
      midnight at the wrong moment is enough to break that. */
  lemma MidnightIsHarmlessIff(split: seq<LogRecord>, range: Range)
    ensures (|split| <= 1 || forall r | r in split :: Representable(r, range))
            <==> forall clock, t | Passes(split, clock, range) && OneMidnight(clock, t) :: Whole(split, clock, range)
    ensures (|split| <= 1 || forall r | r in split :: Representable(r, range))
            ==> forall clock | Passes(split, clock, range) :: Whole(split, clock, range)
  {
    if forall r | r in split :: Representable(r, range) {
      forall clock | Passes(split, clock, range) ensures Whole(split, clock, range) {
        SteadyIsWhole(split, clock, range, EPOCH);
      }
    } else if |split| <= 1 {
      forall clock | Passes(split, clock, range) ensures Whole(split, clock, range) {
        LoneRow(split, clock, range);
      }
    } else {
      hide OneMidnight, Representable;
      SomeMidnightBreaks(split, range);
    }
  }

  lemma SomeMidnightBreaks(split: seq<LogRecord>, range: Range)
    requires |split| > 1 && exists r :: r in split && !Representable(r, range)
    ensures exists clock, t :: Passes(split, clock, range) && OneMidnight(clock, t) && !Whole(split, clock, range)
  {
    hide OneMidnight, Representable, IsLatest, Published, Days, Succeeds, DateOf;
    if i :| 0 <= i < |split| && Representable(split[i], range) {
      var k := LatestDay(split, range);
      var a :| 0 <= a < |split| && !Representable(split[a], range);
      var clock := MissedAtMidnight(split, range, a, k);
      assert split[a] in multiset(split);
      assert !Whole(split, clock, range);
    } else {
      var clock := SplitAtMidnight(split, range);
    }
  }
}
