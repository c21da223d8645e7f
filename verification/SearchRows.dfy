/** Row search over two tiers: top rows of each, merged into one newest-first page. */
module SearchRows {
  import opened Seqs
  import opened Records
  import opened Sorting

  predicate NewestFirst(a: LogRecord, b: LogRecord) {
    a.timestampUs >= b.timestampUs
  }

  function Timestamps(rows: seq<LogRecord>): seq<int> {
    seq(|rows|, i requires 0 <= i < |rows| => rows[i].timestampUs)
  }

  /** `sorted` is some newest-first order of `rows`: rows of one timestamp may come in any order. */
  ghost predicate SortOf(sorted: seq<LogRecord>, rows: seq<LogRecord>) {
    Ascending(sorted, NewestFirst) && multiset(sorted) == multiset(rows)
  }

  /** `ORDER BY timestamp_us DESC LIMIT n`. */
  ghost predicate TopOf(top: seq<LogRecord>, rows: seq<LogRecord>, n: nat) {
    exists sorted :: SortOf(sorted, rows) && top == sorted[..Min(n, |sorted|)]
  }

  /** `[offset, offset + limit)` of `rows`, clipped to what there is. */
  function Page<T>(rows: seq<T>, limit: nat, offset: nat): seq<T> {
    if offset >= |rows| then [] else rows[offset..Min(offset + limit, |rows|)]
  }

  /** What `merge_rows` may make of the rows it was given. */
  ghost predicate Merges(combined: seq<LogRecord>, limit: nat, offset: nat, page: seq<LogRecord>) {
    if offset >= |combined| then page == []
    else exists top :: TopOf(top, combined, offset + limit) && offset <= |top| && page == top[offset..]
  }

  /** `concat_batches` over the batches that are not empty. */
  method Concat(batches: seq<seq<LogRecord>>) returns (combined: seq<LogRecord>)
    ensures combined == Flat(batches)
  {
    combined := [];
    var i := 0;
    while i < |batches|
      invariant i <= |batches| && combined == Flat(batches[..i])
    {
      FlatNext(batches, i);
      if batches[i] != [] {
        combined := combined + batches[i];
      }
      i := i + 1;
    }
    assert batches[..|batches|] == batches;
  }

  /** `merge_rows`: one sort of both tiers' rows that stops at the page's end. */
  method MergeRows(batches: seq<seq<LogRecord>>, limit: nat, offset: nat) returns (page: seq<LogRecord>)
    requires limit >= 1
    ensures Merges(Flat(batches), limit, offset, page)
  {
    hide *;
    var combined := Concat(batches);
    MergesNothing(combined, limit, offset);
    if offset >= |combined| {
      return [];
    }
    var rowsThroughPageEnd := Min(offset + limit, |combined|);
    MinIs(offset + limit, |combined|);
    SortedPrefixIsTop(combined, offset + limit);
    var sorted := SortBy(combined, NewestFirst)[..rowsThroughPageEnd];
    MergesFrom(combined, limit, offset, sorted);
    if offset == 0 {
      assert sorted == sorted[0..];
      return sorted;
    }
    var remaining := |sorted| - offset;
    MinIs(remaining, limit);
    page := sorted[offset..offset + Min(remaining, limit)];
    assert page == sorted[offset..];
  }

  lemma MinIs(a: int, b: int)
    ensures Min(a, b) <= a && Min(a, b) <= b && (Min(a, b) == a || Min(a, b) == b)
  {
  }

  lemma MergesNothing(combined: seq<LogRecord>, limit: nat, offset: nat)
    ensures offset >= |combined| ==> Merges(combined, limit, offset, [])
  {
  }

  lemma MergesFrom(combined: seq<LogRecord>, limit: nat, offset: nat, top: seq<LogRecord>)
    requires TopOf(top, combined, offset + limit) && offset < |combined| && offset <= |top|
    ensures Merges(combined, limit, offset, top[offset..])
  {
    hide TopOf;
  }

  lemma SortedPrefixIsTop(rows: seq<LogRecord>, n: nat)
    ensures |SortBy(rows, NewestFirst)| == |rows|
    ensures TopOf(SortBy(rows, NewestFirst)[..Min(n, |rows|)], rows, n)
  {
    NewestFirstIsTotal();
    SortByAscends(rows, NewestFirst);
    SameLength(SortBy(rows, NewestFirst), rows);
    hide SortBy;
    assert SortOf(SortBy(rows, NewestFirst), rows);
  }

  lemma NewestFirstIsTotal()
    ensures Total(NewestFirst)
  {
  }

  lemma SameLength(a: seq<LogRecord>, b: seq<LogRecord>)
    requires multiset(a) == multiset(b)
    ensures |a| == |b|
  {
    assert |multiset(a)| == |a| && |multiset(b)| == |b|;
  }

  // ------------------------------------------------- counting by inclusion

  lemma NoMoreThan(a: multiset<LogRecord>, b: multiset<LogRecord>)
    requires a <= b
    ensures |a| <= |b|
  {
    assert b == a + (b - a);
  }

  /** Rows newer than everything from position `i` on all come before it. */
  lemma NewerComeFirst(newer: seq<LogRecord>, s: seq<LogRecord>, i: nat, x: int)
    requires i <= |s| && multiset(newer) <= multiset(s)
    requires (forall r | r in newer :: r.timestampUs >= x) && forall j | i <= j < |s| :: s[j].timestampUs < x
    ensures |newer| <= i
  {
    assert s == s[..i] + s[i..];
    forall r ensures multiset(newer)[r] <= multiset(s[..i])[r] {
      if r in multiset(newer) {
        assert r in newer;
        assert r !in s[i..];
        assert multiset(s)[r] == multiset(s[..i])[r] + multiset(s[i..])[r];
      }
    }
    NoMoreThan(multiset(newer), multiset(s[..i]));
  }

  /** All newest-first orders of the same rows show the same timestamps. */
  lemma SortsShowSameTimestamps(s: seq<LogRecord>, t: seq<LogRecord>)
    requires Ascending(s, NewestFirst) && Ascending(t, NewestFirst) && multiset(s) == multiset(t)
    ensures Timestamps(s) == Timestamps(t)
  {
    SameLength(s, t);
    forall i | 0 <= i < |s| ensures s[i].timestampUs == t[i].timestampUs {
      NotOlderAt(s, t, i);
      NotOlderAt(t, s, i);
    }
  }

  lemma NotOlderAt(s: seq<LogRecord>, t: seq<LogRecord>, i: nat)
    requires Ascending(s, NewestFirst) && Ascending(t, NewestFirst) && multiset(s) == multiset(t)
    requires i < |s| && |s| == |t|
    ensures s[i].timestampUs >= t[i].timestampUs
  {
    if s[i].timestampUs < t[i].timestampUs {
      PrefixIsContained(t, i + 1);
      forall r | r in t[..i + 1] ensures r.timestampUs >= t[i].timestampUs {
        var j :| 0 <= j < i + 1 && t[j] == r;
      }
      NewerComeFirst(t[..i + 1], s, i, t[i].timestampUs);
    }
  }

  lemma PrefixIsContained(t: seq<LogRecord>, n: nat)
    requires n <= |t|
    ensures multiset(t[..n]) <= multiset(t)
  {
    assert t == t[..n] + t[n..];
  }

  // ------------------------------------------------------ the merged page

  /** No row that a tier held back is newer than one the merge picked. */
  lemma HeldBackAreOlder(sorted: seq<LogRecord>, merged: seq<LogRecord>, k: nat, i: nat, r: LogRecord)
    requires Ascending(sorted, NewestFirst) && Ascending(merged, NewestFirst)
    requires k <= |sorted| && multiset(sorted[..k]) <= multiset(merged)
    requires i < k && i < |merged| && r in sorted[k..]
    ensures NewestFirst(merged[i], r)
  {
    if merged[i].timestampUs < r.timestampUs {
      var j :| 0 <= j < |sorted[k..]| && sorted[k..][j] == r;
      assert sorted[k + j] == r;
      forall t | t in sorted[..k] ensures t.timestampUs >= r.timestampUs {
        var n :| 0 <= n < k && sorted[n] == t;
      }
      NewerComeFirst(sorted[..k], merged, i, r.timestampUs);
    }
  }

  lemma AscendingJoin(a: seq<LogRecord>, b: seq<LogRecord>)
    requires Ascending(a, NewestFirst) && Ascending(b, NewestFirst)
    requires forall i, j | 0 <= i < |a| && 0 <= j < |b| :: NewestFirst(a[i], b[j])
    ensures Ascending(a + b, NewestFirst)
  {
  }

  lemma SplitBag(s: seq<LogRecord>, n: nat)
    requires n <= |s|
    ensures multiset(s) == multiset(s[..n]) + multiset(s[n..])
  {
    assert s == s[..n] + s[n..];
  }

  lemma JoinBag(a: seq<LogRecord>, b: seq<LogRecord>)
    ensures multiset(a + b) == multiset(a) + multiset(b)
  {
  }

  lemma Regroup(m: multiset<LogRecord>, ma: multiset<LogRecord>, mb: multiset<LogRecord>, pa: multiset<LogRecord>,
                pb: multiset<LogRecord>, la: multiset<LogRecord>, lb: multiset<LogRecord>)
    requires m == ma + mb && m == pa + la
    ensures ma + (mb + pb + lb) == (pa + pb) + (la + lb)
  {
    assert ma + (mb + pb + lb) == (ma + mb) + (pb + lb);
    assert (pa + la) + (pb + lb) == (pa + pb) + (la + lb);
  }

  /** Picked rows and the rest make up all rows. */
  lemma PickedAndRest(p: seq<LogRecord>, l: seq<LogRecord>, merged: seq<LogRecord>, kp: nat, kl: nat, km: nat,
        tail: seq<LogRecord>)
    requires kp <= |p| && kl <= |l| && km <= |merged|
    requires multiset(merged) == multiset(p[..kp] + l[..kl])
    requires multiset(tail) == multiset(merged[km..] + p[kp..] + l[kl..])
    ensures multiset(merged[..km] + tail) == multiset(p + l)
  {
    SplitBag(p, kp);
    SplitBag(l, kl);
    SplitBag(merged, km);
    JoinBag(p[..kp], l[..kl]);
    JoinBag(merged[km..] + p[kp..], l[kl..]);
    JoinBag(merged[km..], p[kp..]);
    JoinBag(p, l);
    JoinBag(merged[..km], tail);
    Regroup(multiset(merged), multiset(merged[..km]), multiset(merged[km..]), multiset(p[..kp]), multiset(p[kp..]),
            multiset(l[..kl]), multiset(l[kl..]));
  }

  lemma AmongRest(a: seq<LogRecord>, b: seq<LogRecord>, c: seq<LogRecord>, tail: seq<LogRecord>, j: nat)
    requires multiset(tail) == multiset(a + b + c) && j < |tail|
    ensures tail[j] in a || tail[j] in b || tail[j] in c
  {
    assert tail[j] in multiset(tail);
    assert tail[j] in a + b + c;
  }

  lemma LaterInOrder(s: seq<LogRecord>, n: nat, i: nat, r: LogRecord)
    requires Ascending(s, NewestFirst) && i < n <= |s| && r in s[n..]
    ensures NewestFirst(s[i], r)
  {
    var j :| 0 <= j < |s[n..]| && s[n..][j] == r;
    assert s[n + j] == r;
  }

  lemma RestIsOlder(p: seq<LogRecord>, l: seq<LogRecord>, merged: seq<LogRecord>, kp: nat, kl: nat, km: nat,
                    tail: seq<LogRecord>, i: nat, j: nat)
    requires Ascending(p, NewestFirst) && Ascending(l, NewestFirst) && Ascending(merged, NewestFirst)
    requires kp <= |p| && kl <= |l| && i < km <= |merged| && j < |tail|
    requires (kp < |p| ==> km <= kp) && (kl < |l| ==> km <= kl)
    requires multiset(merged) == multiset(p[..kp] + l[..kl])
    requires multiset(tail) == multiset(merged[km..] + p[kp..] + l[kl..])
    ensures NewestFirst(merged[i], tail[j])
  {
    hide Ascending, NewestFirst;
    AmongRest(merged[km..], p[kp..], l[kl..], tail, j);
    PartsAreContained(p[..kp], l[..kl]);
    if tail[j] in p[kp..] {
      HeldBackAreOlder(p, merged, kp, i, tail[j]);
    } else if tail[j] in l[kl..] {
      HeldBackAreOlder(l, merged, kl, i, tail[j]);
    } else {
      LaterInOrder(merged, km, i, tail[j]);
    }
  }

  /** Everything a query did not pick, newest first, after what it picked. */
  lemma FullOrder(p: seq<LogRecord>, l: seq<LogRecord>, merged: seq<LogRecord>, k: nat) returns (full: seq<LogRecord>)
    requires Ascending(p, NewestFirst) && Ascending(l, NewestFirst) && Ascending(merged, NewestFirst)
    requires multiset(merged) == multiset(p[..Min(k, |p|)] + l[..Min(k, |l|)])
    ensures SortOf(full, p + l) && merged[..Min(k, |merged|)] <= full
  {
    var kp, kl, km := Min(k, |p|), Min(k, |l|), Min(k, |merged|);
    var rest := merged[km..] + p[kp..] + l[kl..];
    assert (kp < |p| ==> km <= kp) && (kl < |l| ==> km <= kl);
    hide *;
    var tail := SomeOrder(rest);
    SortIs(tail, rest);
    full := merged[..km] + tail;
    PickedAndRest(p, l, merged, kp, kl, km, tail);
    forall i, j | 0 <= i < km && 0 <= j < |tail| ensures NewestFirst(merged[..km][i], tail[j]) {
      RestIsOlder(p, l, merged, kp, kl, km, tail, i, j);
    }
    PrefixAscends(merged, km);
    AscendingJoin(merged[..km], tail);
    AreSorted(full, p + l);
    assert merged[..km] <= full;
  }

  lemma AreSorted(sorted: seq<LogRecord>, rows: seq<LogRecord>)
    requires Ascending(sorted, NewestFirst) && multiset(sorted) == multiset(rows)
    ensures SortOf(sorted, rows)
  {
  }

  lemma PrefixAscends(s: seq<LogRecord>, n: nat)
    requires n <= |s| && Ascending(s, NewestFirst)
    ensures Ascending(s[..n], NewestFirst)
  {
  }

  lemma PartsAreContained(a: seq<LogRecord>, b: seq<LogRecord>)
    ensures multiset(a) <= multiset(a + b) && multiset(b) <= multiset(a + b)
  {
  }

  lemma SortIs(sorted: seq<LogRecord>, rows: seq<LogRecord>)
    requires SortOf(sorted, rows)
    ensures Ascending(sorted, NewestFirst) && multiset(sorted) == multiset(rows) && |sorted| == |rows|
  {
    SameLength(sorted, rows);
  }

  lemma BagsAdd(p: seq<LogRecord>, l: seq<LogRecord>, parquet: seq<LogRecord>, live: seq<LogRecord>)
    requires multiset(p) == multiset(parquet) && multiset(l) == multiset(live)
    ensures multiset(p + l) == multiset(parquet + live)
  {
  }

  lemma PrefixTimestamps(a: seq<LogRecord>, full: seq<LogRecord>, reference: seq<LogRecord>)
    requires a <= full && Timestamps(full) == Timestamps(reference)
    ensures |a| <= |reference| && Timestamps(a) == Timestamps(reference)[..|a|]
  {
    assert |full| == |Timestamps(full)| == |reference|;
    assert forall i | 0 <= i < |a| :: Timestamps(full)[i] == a[i].timestampUs;
  }

  lemma TopOfSorted(p: seq<LogRecord>, l: seq<LogRecord>, merged: seq<LogRecord>, k: nat, reference: seq<LogRecord>)
    requires Ascending(p, NewestFirst) && Ascending(l, NewestFirst)
    requires SortOf(merged, p[..Min(k, |p|)] + l[..Min(k, |l|)]) && SortOf(reference, p + l)
    ensures var top := merged[..Min(k, |merged|)];
            |top| == Min(k, |reference|) && Timestamps(top) == Timestamps(reference)[..|top|]
  {
    SortIs(merged, p[..Min(k, |p|)] + l[..Min(k, |l|)]);
    SortIs(reference, p + l);
    hide SortOf, Ascending, Timestamps;
    var full := FullOrder(p, l, merged, k);
    SortIs(full, p + l);
    SortsShowSameTimestamps(full, reference);
    PrefixTimestamps(merged[..Min(k, |merged|)], full, reference);
  }

  lemma SortOfSame(sorted: seq<LogRecord>, a: seq<LogRecord>, b: seq<LogRecord>)
    requires SortOf(sorted, a) && multiset(a) == multiset(b)
    ensures SortOf(sorted, b)
  {
    hide Ascending;
  }

  /** The top `k` of the two tiers' top `k` shows the timestamps of the top `k` of all rows. */
  lemma TopOfTops(parquet: seq<LogRecord>, live: seq<LogRecord>, fromParquet: seq<LogRecord>, fromLive: seq<LogRecord>,
                  k: nat, top: seq<LogRecord>, reference: seq<LogRecord>)
    requires TopOf(fromParquet, parquet, k) && TopOf(fromLive, live, k) && TopOf(top, fromParquet + fromLive, k)
    requires SortOf(reference, parquet + live)
    ensures |top| == Min(k, |reference|) && Timestamps(top) == Timestamps(reference)[..|top|]
  {
    hide SortOf, Timestamps;
    var p :| SortOf(p, parquet) && fromParquet == p[..Min(k, |p|)];
    var l :| SortOf(l, live) && fromLive == l[..Min(k, |l|)];
    var merged :| SortOf(merged, fromParquet + fromLive) && top == merged[..Min(k, |merged|)];
    hide *;
    SortIs(p, parquet);
    SortIs(l, live);
    BagsAdd(p, l, parquet, live);
    SortOfSame(reference, parquet + live, p + l);
    TopOfSorted(p, l, merged, k, reference);
  }

  lemma PageOfTimestamps(page: seq<LogRecord>, top: seq<LogRecord>, limit: nat, offset: nat, reference: seq<LogRecord>)
    requires offset <= |top| && page == top[offset..] && offset < |reference|
    requires |top| == Min(offset + limit, |reference|) && Timestamps(top) == Timestamps(reference)[..|top|]
    ensures Timestamps(page) == Page(Timestamps(reference), limit, offset)
  {
    forall i | 0 <= i < |page| ensures page[i].timestampUs == Timestamps(reference)[offset + i] {
      assert Timestamps(top)[offset + i] == page[i].timestampUs;
    }
  }

  lemma PageBeyond(limit: nat, offset: nat, reference: seq<LogRecord>)
    requires offset >= |reference|
    ensures Page(Timestamps(reference), limit, offset) == Timestamps([])
  {
  }

  lemma MergesMeans(combined: seq<LogRecord>, limit: nat, offset: nat,
                    page: seq<LogRecord>) returns (top: seq<LogRecord>)
    requires Merges(combined, limit, offset, page)
    ensures offset >= |combined| ==> page == []
    ensures offset < |combined| ==> TopOf(top, combined, offset + limit) && offset <= |top| && page == top[offset..]
  {
    hide TopOf;
    top := [];
    if offset < |combined| {
      top :| TopOf(top, combined, offset + limit) && offset <= |top| && page == top[offset..];
    }
  }

  /** A search answer and the reference answer over both tiers' matching rows show
      the same timestamps, position by position, whichever way ties were broken. */
  lemma PageShowsTheReference(parquet: seq<LogRecord>, live: seq<LogRecord>, fromParquet: seq<LogRecord>,
                              fromLive: seq<LogRecord>, limit: nat, offset: nat, page: seq<LogRecord>,
                                  reference: seq<LogRecord>)
    requires limit >= 1
    requires TopOf(fromParquet, parquet, offset + limit) && TopOf(fromLive, live, offset + limit)
    requires Merges(fromParquet + fromLive, limit, offset, page)
    requires SortOf(reference, parquet + live)
    ensures Timestamps(page) == Page(Timestamps(reference), limit, offset)
  {
    hide *;
    ShortTiers(parquet, live, fromParquet, fromLive, offset + limit, reference);
    var top := MergesMeans(fromParquet + fromLive, limit, offset, page);
    if offset >= |fromParquet + fromLive| {
      PageBeyond(limit, offset, reference);
    } else {
      TopOfTops(parquet, live, fromParquet, fromLive, offset + limit, top, reference);
      PageOfTimestamps(page, top, limit, offset, reference);
    }
  }

  lemma LongEnough(top: seq<LogRecord>, rows: seq<LogRecord>, n: nat)
    requires TopOf(top, rows, n)
    ensures |top| == Min(n, |rows|)
  {
    var sorted :| SortOf(sorted, rows) && top == sorted[..Min(n, |sorted|)];
    SameLength(sorted, rows);
  }

  /** Tiers that gave fewer rows than asked for gave all they have. */
  lemma ShortTiers(parquet: seq<LogRecord>, live: seq<LogRecord>, fromParquet: seq<LogRecord>, fromLive: seq<LogRecord>,
                   k: nat, reference: seq<LogRecord>)
    requires TopOf(fromParquet, parquet, k) && TopOf(fromLive, live, k) && SortOf(reference, parquet + live)
    ensures |fromParquet + fromLive| < k ==> |reference| == |fromParquet + fromLive|
    ensures |fromParquet + fromLive| <= |reference|
  {
    LongEnough(fromParquet, parquet, k);
    LongEnough(fromLive, live, k);
    SortIs(reference, parquet + live);
    hide TopOf, SortOf;
  }

  /** When no two rows share a timestamp, the page is the reference page row for row. */
  lemma PageIsTheReference(parquet: seq<LogRecord>, live: seq<LogRecord>, fromParquet: seq<LogRecord>,
                           fromLive: seq<LogRecord>, limit: nat, offset: nat, page: seq<LogRecord>,
                               reference: seq<LogRecord>)
    requires limit >= 1
    requires TopOf(fromParquet, parquet, offset + limit) && TopOf(fromLive, live, offset + limit)
    requires Merges(fromParquet + fromLive, limit, offset, page)
    requires SortOf(reference, parquet + live)
    requires forall i, j | 0 <= i < j < |parquet + live| ::
               (parquet + live)[i].timestampUs != (parquet + live)[j].timestampUs
    ensures page == Page(reference, limit, offset)
  {
    hide *;
    PageShowsTheReference(parquet, live, fromParquet, fromLive, limit, offset, page, reference);
    PageRowsAreReal(parquet, live, fromParquet, fromLive, limit, offset, page);
    SortIs(reference, parquet + live);
    PermutationKeeps(reference, parquet + live);
    SameRows(parquet + live, page, reference, limit, offset);
  }

  lemma SameRows(rows: seq<LogRecord>, page: seq<LogRecord>, reference: seq<LogRecord>, limit: nat, offset: nat)
    requires forall i, j | 0 <= i < j < |rows| :: rows[i].timestampUs != rows[j].timestampUs
    requires (forall r | r in page :: r in rows) && forall r | r in reference :: r in rows
    requires Timestamps(page) == Page(Timestamps(reference), limit, offset)
    ensures page == Page(reference, limit, offset)
  {
    var expected := Page(reference, limit, offset);
    assert Timestamps(expected) == Page(Timestamps(reference), limit, offset);
    assert |page| == |Timestamps(page)| == |expected|;
    forall i | 0 <= i < |page| ensures page[i] == expected[i] {
      assert page[i].timestampUs == Timestamps(page)[i] == Timestamps(expected)[i] == expected[i].timestampUs;
      assert page[i] in rows && expected[i] in reference;
      OneRowPerTimestamp(rows, page[i], expected[i]);
    }
  }

  lemma OneRowPerTimestamp(rows: seq<LogRecord>, a: LogRecord, b: LogRecord)
    requires forall i, j | 0 <= i < j < |rows| :: rows[i].timestampUs != rows[j].timestampUs
    requires a in rows && b in rows && a.timestampUs == b.timestampUs
    ensures a == b
  {
    var i :| 0 <= i < |rows| && rows[i] == a;
    var j :| 0 <= j < |rows| && rows[j] == b;
  }

  lemma TopIsContained(top: seq<LogRecord>, rows: seq<LogRecord>, n: nat)
    requires TopOf(top, rows, n)
    ensures multiset(top) <= multiset(rows)
  {
    var sorted :| SortOf(sorted, rows) && top == sorted[..Min(n, |sorted|)];
    PrefixIsContained(sorted, Min(n, |sorted|));
  }

  /** A page never shows a row more often than the tiers hold it. */
  lemma PageRowsAreReal(parquet: seq<LogRecord>, live: seq<LogRecord>, fromParquet: seq<LogRecord>,
                        fromLive: seq<LogRecord>, limit: nat, offset: nat, page: seq<LogRecord>)
    requires TopOf(fromParquet, parquet, offset + limit) && TopOf(fromLive, live, offset + limit)
    requires Merges(fromParquet + fromLive, limit, offset, page)
    ensures multiset(page) <= multiset(parquet + live)
    ensures forall r | r in page :: r in parquet + live
  {
    hide *;
    TopIsContained(fromParquet, parquet, offset + limit);
    TopIsContained(fromLive, live, offset + limit);
    var combined := fromParquet + fromLive;
    BagsBound(fromParquet, fromLive, parquet, live);
    var top := MergesMeans(combined, limit, offset, page);
    if offset < |combined| {
      TopIsContained(top, combined, offset + limit);
      SplitBag(top, offset);
    }
    ContainedMembers(page, parquet + live);
  }

  lemma BagsBound(a: seq<LogRecord>, b: seq<LogRecord>, c: seq<LogRecord>, d: seq<LogRecord>)
    requires multiset(a) <= multiset(c) && multiset(b) <= multiset(d)
    ensures multiset(a + b) <= multiset(c + d)
  {
    JoinBag(a, b);
    JoinBag(c, d);
  }

  lemma ContainedMembers(a: seq<LogRecord>, b: seq<LogRecord>)
    requires multiset(a) <= multiset(b)
    ensures forall r | r in a :: r in b
  {
    forall r | r in a ensures r in b {
      assert r in multiset(a);
    }
  }

  /** Consecutive pages join into the unpaged answer. */
  lemma PagesJoin<T>(rows: seq<T>, first: nat, second: nat, offset: nat)
    ensures Page(rows, first, offset) + Page(rows, second, offset + first) == Page(rows, first + second, offset)
  {
  }

  /** What a search of two unchanged tiers may answer. */
  ghost predicate Answers(parquet: seq<LogRecord>, live: seq<LogRecord>, limit: nat, offset: nat,
                          page: seq<LogRecord>) {
    exists fromParquet, fromLive :: TopOf(fromParquet, parquet, offset + limit) && TopOf(fromLive, live, offset + limit)
                                    && Merges(fromParquet + fromLive, limit, offset, page)
  }

  lemma AnswerShowsTheReference(parquet: seq<LogRecord>, live: seq<LogRecord>, limit: nat, offset: nat,
        page: seq<LogRecord>,
                                reference: seq<LogRecord>)
    requires limit >= 1 && Answers(parquet, live, limit, offset, page) && SortOf(reference, parquet + live)
    ensures Timestamps(page) == Page(Timestamps(reference), limit, offset)
  {
    hide TopOf, Merges, SortOf, Timestamps, Page;
    var fromParquet, fromLive :| TopOf(fromParquet, parquet, offset + limit) && TopOf(fromLive, live, offset + limit)
                                 && Merges(fromParquet + fromLive, limit, offset, page);
    PageShowsTheReference(parquet, live, fromParquet, fromLive, limit, offset, page, reference);
  }

  lemma SomeOrder(rows: seq<LogRecord>) returns (sorted: seq<LogRecord>)
    ensures SortOf(sorted, rows)
  {
    NewestFirstIsTotal();
    SortByAscends(rows, NewestFirst);
    sorted := SortBy(rows, NewestFirst);
    hide SortBy;
  }

  /** Two consecutive pages show together what one page of both lengths shows. */
  lemma ConsecutivePagesJoin(parquet: seq<LogRecord>, live: seq<LogRecord>, first: nat, second: nat, offset: nat,
                             one: seq<LogRecord>, two: seq<LogRecord>, both: seq<LogRecord>)
    requires first >= 1 && second >= 1
    requires Answers(parquet, live, first, offset, one) && Answers(parquet, live, second, offset + first, two)
    requires Answers(parquet, live, first + second, offset, both)
    ensures Timestamps(one) + Timestamps(two) == Timestamps(both)
  {
    hide *;
    var reference := SomeOrder(parquet + live);
    AnswerShowsTheReference(parquet, live, first, offset, one, reference);
    AnswerShowsTheReference(parquet, live, second, offset + first, two, reference);
    AnswerShowsTheReference(parquet, live, first + second, offset, both, reference);
    PagesJoin(Timestamps(reference), first, second, offset);
  }

  // ------------------------------------------------- the page in timestamps

  /** The rows with a timestamp above `t`. */
  function Above(rows: seq<LogRecord>, t: int): seq<LogRecord> {
    if rows == [] then [] else (if rows[0].timestampUs > t then [rows[0]] else []) + Above(rows[1..], t)
  }

  lemma {:induction false} AboveCounts(rows: seq<LogRecord>, t: int, r: LogRecord)
    ensures multiset(Above(rows, t))[r] == if r.timestampUs > t then multiset(rows)[r] else 0
  {
    if rows != [] {
      AboveCounts(rows[1..], t, r);
      assert rows == [rows[0]] + rows[1..];
    }
  }

  /** The same rows in another order. */
  lemma AboveOfSame(a: seq<LogRecord>, b: seq<LogRecord>, t: int)
    requires multiset(a) == multiset(b)
    ensures |Above(a, t)| == |Above(b, t)|
  {
    forall r ensures multiset(Above(a, t))[r] == multiset(Above(b, t))[r] {
      AboveCounts(a, t, r);
      AboveCounts(b, t, r);
    }
    hide Above;
    SameLength(Above(a, t), Above(b, t));
  }

  lemma {:induction false} AboveAppend(a: seq<LogRecord>, b: seq<LogRecord>, t: int)
    ensures Above(a + b, t) == Above(a, t) + Above(b, t)
  {
    if a == [] {
      assert a + b == b;
    } else {
      assert (a + b)[0] == a[0] && (a + b)[1..] == a[1..] + b;
      AboveAppend(a[1..], b, t);
    }
  }

  lemma {:induction false} AllOrNoneAbove(rows: seq<LogRecord>, t: int)
    ensures (forall r | r in rows :: r.timestampUs > t) ==> Above(rows, t) == rows
    ensures (forall r | r in rows :: r.timestampUs <= t) ==> Above(rows, t) == []
    ensures |Above(rows, t)| <= |rows|
  {
    if rows != [] {
      AllOrNoneAbove(rows[1..], t);
      assert rows[0] in rows && forall r | r in rows[1..] :: r in rows;
    }
  }

  lemma EarlierAndLater(s: seq<LogRecord>, k: nat)
    requires Ascending(s, NewestFirst) && k < |s|
    ensures forall r | r in s[k..] :: r.timestampUs <= s[k].timestampUs
    ensures forall r | r in s[..k + 1] :: r.timestampUs >= s[k].timestampUs
  {
    forall r | r in s[k..] ensures r.timestampUs <= s[k].timestampUs {
      var j :| 0 <= j < |s[k..]| && s[k..][j] == r;
      assert s[k + j] == r;
    }
    forall r | r in s[..k + 1] ensures r.timestampUs >= s[k].timestampUs {
      var j :| 0 <= j < k + 1 && s[j] == r;
    }
  }

  lemma FewAbove(a: seq<LogRecord>, b: seq<LogRecord>, t: int)
    requires forall r | r in b :: r.timestampUs <= t
    ensures |Above(a + b, t)| <= |a|
  {
    hide Above;
    AboveAppend(a, b, t);
    AllOrNoneAbove(a, t);
    AllOrNoneAbove(b, t);
  }

  lemma ManyAbove(a: seq<LogRecord>, b: seq<LogRecord>, t: int)
    requires forall r | r in a :: r.timestampUs > t
    ensures |Above(a + b, t)| >= |a|
  {
    hide Above;
    AboveAppend(a, b, t);
    AllOrNoneAbove(a, t);
  }

  /** In a newest-first order no more than `k` rows are newer than row `k`, and more
      than `k` are at least as new. */
  lemma RankInOrder(s: seq<LogRecord>, k: nat)
    requires Ascending(s, NewestFirst) && k < |s|
    ensures |Above(s, s[k].timestampUs)| <= k < |Above(s, s[k].timestampUs - 1)|
  {
    hide *;
    EarlierAndLater(s, k);
    SplitAt(s, k);
    SplitAt(s, k + 1);
    FewAbove(s[..k], s[k..], s[k].timestampUs);
    ManyAbove(s[..k + 1], s[k + 1..], s[k].timestampUs - 1);
  }

  lemma SplitAt(s: seq<LogRecord>, k: nat)
    requires k <= |s|
    ensures s[..k] + s[k..] == s
  {
  }

  /** What it means to show the timestamps of a part of `reference`. */
  lemma PageIsPart(page: seq<LogRecord>, reference: seq<LogRecord>, limit: nat, offset: nat)
    requires Timestamps(page) == Page(Timestamps(reference), limit, offset)
    ensures var n := |reference|;
            |page| == if offset >= n then 0 else if n - offset < limit then n - offset else limit
    ensures forall i | 0 <= i < |page| ::
              offset + i < |reference| && page[i].timestampUs == reference[offset + i].timestampUs
  {
    assert |page| == |Timestamps(page)| == |Page(Timestamps(reference), limit, offset)|;
    forall i | 0 <= i < |page| ensures page[i].timestampUs == reference[offset + i].timestampUs {
      assert page[i].timestampUs == Timestamps(page)[i] == Timestamps(reference)[offset + i];
    }
  }

  lemma InOrder(reference: seq<LogRecord>, i: nat, j: nat)
    requires Ascending(reference, NewestFirst) && i < j < |reference|
    ensures reference[i].timestampUs >= reference[j].timestampUs
  {
    assert NewestFirst(reference[i], reference[j]);
  }

  /** The page is the newest rows past the offset, told by timestamps alone: of `n`
      matching rows of both tiers it holds as many as the limit and the offset leave;
      they never get newer from one to the next; and of the row at position `i` at most
      `offset + i` matching rows are newer, while more than that are at least as new. */
  lemma PageIsNewest(parquet: seq<LogRecord>, live: seq<LogRecord>, limit: nat, offset: nat, page: seq<LogRecord>)
    requires limit >= 1 && Answers(parquet, live, limit, offset, page)
    ensures var n := |parquet| + |live|;
            |page| == if offset >= n then 0 else if n - offset < limit then n - offset else limit
    ensures forall i, j | 0 <= i < j < |page| :: page[i].timestampUs >= page[j].timestampUs
    ensures forall i | 0 <= i < |page| ::
              |Above(parquet + live, page[i].timestampUs)| <= offset + i
              < |Above(parquet + live, page[i].timestampUs - 1)|
  {
    hide *;
    var reference := SomeOrder(parquet + live);
    AnswerShowsTheReference(parquet, live, limit, offset, page, reference);
    SortIs(reference, parquet + live);
    PageIsPart(page, reference, limit, offset);
    forall i, j | 0 <= i < j < |page| ensures page[i].timestampUs >= page[j].timestampUs {
      InOrder(reference, offset + i, offset + j);
    }
    forall i | 0 <= i < |page|
      ensures |Above(parquet + live, page[i].timestampUs)| <= offset + i
              < |Above(parquet + live, page[i].timestampUs - 1)|
    {
      RankInOrder(reference, offset + i);
      AboveOfSame(reference, parquet + live, page[i].timestampUs);
      AboveOfSame(reference, parquet + live, page[i].timestampUs - 1);
    }
  }
}
