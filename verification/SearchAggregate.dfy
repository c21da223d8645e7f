/** Aggregate search over two tiers: per-tier groups merged through a hash map. */
module SearchAggregate {
  import opened Seqs
  import opened Records
  import opened Sorting
  import opened Directories

  datatype Dimension = Bucket | Level | Service
  datatype Metric = Count | Errors | Warns | LastSeen
  datatype KeyPart = Micros(micros: int) | Text(text: string)
  type Key = seq<KeyPart>

  /** One row of a tier's answer, or of the merged one. */
  datatype Group = Group(key: Key, values: seq<int>)

  datatype AggregateRow = AggregateRow(count: int, errors: int, warns: int, lastSeen: int)

  const I64_MIN := -0x8000_0000_0000_0000

  // ------------------------------------------------- what the answer means

  /** `date_bin` with the epoch as origin; no request that groups by bucket has a zero length. */
  function BucketOf(timestampUs: int, bucketSecs: nat): int {
    if bucketSecs == 0 then timestampUs else timestampUs / (bucketSecs * 1_000_000) * (bucketSecs * 1_000_000)
  }

  function PartOf(r: LogRecord, d: Dimension, bucketSecs: nat): KeyPart {
    match d
    case Bucket => Micros(BucketOf(r.timestampUs, bucketSecs))
    case Level => Text(r.level)
    case Service => Text(r.service)
  }

  function KeyOf(r: LogRecord, groupBy: seq<Dimension>, bucketSecs: nat): Key {
    seq(|groupBy|, i requires 0 <= i < |groupBy| => PartOf(r, groupBy[i], bucketSecs))
  }

  /** What a metric starts from, and how it grows. */
  function Zero(m: Metric): int {
    if m.LastSeen? then I64_MIN else 0
  }

  function Combine(m: Metric, a: int, b: int): int {
    if m.LastSeen? then Max(a, b) else a + b
  }

  function Weight(r: LogRecord, m: Metric): int {
    match m
    case Count => 1
    case Errors => if r.level == "ERROR" then 1 else 0
    case Warns => if r.level == "WARN" then 1 else 0
    case LastSeen => r.timestampUs
  }

  function Fold(m: Metric, xs: seq<int>): int {
    if xs == [] then Zero(m) else Combine(m, Fold(m, xs[..|xs| - 1]), xs[|xs| - 1])
  }

  function Weights(rows: seq<LogRecord>, key: Key, m: Metric, groupBy: seq<Dimension>, bucketSecs: nat): seq<int> {
    if rows == [] then []
    else (if KeyOf(rows[0], groupBy, bucketSecs) == key then [Weight(rows[0], m)] else [])
         + Weights(rows[1..], key, m, groupBy, bucketSecs)
  }

  /** The metric over the rows of one group. */
  function Value(rows: seq<LogRecord>, key: Key, m: Metric, groupBy: seq<Dimension>, bucketSecs: nat): int {
    Fold(m, Weights(rows, key, m, groupBy, bucketSecs))
  }

  /** `groups` answers the aggregate query over `rows`: each group that has rows once, with its metrics. */
  ghost predicate Answers(groups: seq<Group>, rows: seq<LogRecord>, metrics: seq<Metric>, groupBy: seq<Dimension>,
        bucketSecs: nat) {
    && (forall i, j | 0 <= i < j < |groups| :: groups[i].key != groups[j].key)
    && (forall k :: HasKey(groups, k) <==> exists r | r in rows :: KeyOf(r, groupBy, bucketSecs) == k)
    && (forall g | g in groups :: |g.values| == |metrics|
          && forall i | 0 <= i < |metrics| :: g.values[i] == Value(rows, g.key, metrics[i], groupBy, bucketSecs))
  }

  predicate HasKey(groups: seq<Group>, k: Key) {
    exists g | g in groups :: g.key == k
  }

  // ------------------------------------------------------- order of the keys

  /** Comparison of `sort_rank`s. */
  predicate PartLe(a: KeyPart, b: KeyPart) {
    match (a, b)
    case (Micros(x), Micros(y)) => x <= y
    case (Micros(_), Text(_)) => true
    case (Text(_), Micros(_)) => false
    case (Text(s), Text(t)) => StringLe(s, t)
  }

  /** `Vec::cmp` on the ranks. */
  predicate KeyLe(a: Key, b: Key) {
    a == [] || (b != [] && PartLe(a[0], b[0]) && (a[0] == b[0] ==> KeyLe(a[1..], b[1..])))
  }

  lemma PartLeIsOrder(a: KeyPart, b: KeyPart, c: KeyPart)
    ensures PartLe(a, b) || PartLe(b, a)
    ensures PartLe(a, b) && PartLe(b, a) ==> a == b
    ensures PartLe(a, b) && PartLe(b, c) ==> PartLe(a, c)
  {
    if a.Text? && b.Text? {
      StringLeTotal(a.text, b.text);
      if c.Text? && PartLe(a, b) && PartLe(b, c) {
        StringLeTransitive(a.text, b.text, c.text);
      }
    }
  }

  lemma {:induction false} KeyLeTotal(a: Key, b: Key)
    ensures KeyLe(a, b) || KeyLe(b, a)
    ensures KeyLe(a, b) && KeyLe(b, a) ==> a == b
  {
    if a != [] && b != [] {
      hide PartLe;
      PartLeIsOrder(a[0], b[0], a[0]);
      KeyLeTotal(a[1..], b[1..]);
      assert a == [a[0]] + a[1..] && b == [b[0]] + b[1..];
    }
  }

  lemma {:induction false} KeyLeTransitive(a: Key, b: Key, c: Key)
    requires KeyLe(a, b) && KeyLe(b, c)
    ensures KeyLe(a, c)
  {
    if a != [] {
      hide PartLe;
      PartLeIsOrder(a[0], b[0], c[0]);
      PartLeIsOrder(b[0], c[0], a[0]);
      if a[0] == b[0] && b[0] == c[0] {
        KeyLeTransitive(a[1..], b[1..], c[1..]);
      } else {
        PartLeIsOrder(a[0], b[0], a[0]);
      }
    }
  }

  lemma KeyOrder()
    ensures Total(KeyLe)
  {
    forall a, b ensures KeyLe(a, b) || KeyLe(b, a) {
      KeyLeTotal(a, b);
    }
    forall a, b, c | KeyLe(a, b) && KeyLe(b, c) ensures KeyLe(a, c) {
      KeyLeTransitive(a, b, c);
    }
  }

  // --------------------------------------------------------------- the merge

  function Get(row: AggregateRow, m: Metric): int {
    match m
    case Count => row.count
    case Errors => row.errors
    case Warns => row.warns
    case LastSeen => row.lastSeen
  }

  /** The values that groups of key `k` report for metric number `i`, in order. */
  function Reported(groups: seq<Group>, k: Key, i: nat): seq<int>
    requires forall g | g in groups :: i < |g.values|
  {
    if groups == [] then []
    else
      var n := |groups| - 1;
      Reported(groups[..n], k, i) + (if groups[n].key == k then [groups[n].values[i]] else [])
  }

  ghost predicate WellFormed(groups: seq<Group>, metrics: seq<Metric>) {
    && Distinct(metrics)
    && forall g | g in groups :: |g.values| == |metrics|
  }

  /** `row` holds what `groups` add up to for key `k`. */
  ghost predicate AddsUp(row: AggregateRow, groups: seq<Group>, k: Key, metrics: seq<Metric>)
    requires WellFormed(groups, metrics)
  {
    forall i | 0 <= i < |metrics| :: Get(row, metrics[i]) == Fold(metrics[i], Reported(groups, k, i))
  }

  ghost predicate Tallies(rows: map<Key, AggregateRow>, groups: seq<Group>, metrics: seq<Metric>)
    requires WellFormed(groups, metrics)
  {
    && (forall k :: k in rows <==> HasKey(groups, k))
    && forall k | k in rows :: AddsUp(rows[k], groups, k, metrics)
  }

  /** The innermost loop of `merge_aggregate`: one reported row into its entry. */
  method AddMetrics(entry: AggregateRow, metrics: seq<Metric>, values: seq<int>) returns (row: AggregateRow)
    requires |values| == |metrics| && Distinct(metrics)
    ensures forall i | 0 <= i < |metrics| ::
              Get(row, metrics[i]) == Combine(metrics[i], Get(entry, metrics[i]), values[i])
  {
    row := entry;
    var offset := 0;
    while offset < |metrics|
      invariant offset <= |metrics|
      invariant forall i | 0 <= i < offset ::
                  Get(row, metrics[i]) == Combine(metrics[i], Get(entry, metrics[i]), values[i])
      invariant forall i | offset <= i < |metrics| :: Get(row, metrics[i]) == Get(entry, metrics[i])
    {
      match metrics[offset] {
        case Count => row := row.(count := row.count + values[offset]);
        case Errors => row := row.(errors := row.errors + values[offset]);
        case Warns => row := row.(warns := row.warns + values[offset]);
        case LastSeen => row := row.(lastSeen := Max(row.lastSeen, values[offset]));
      }
      offset := offset + 1;
    }
  }

  lemma {:induction false} NotReported(groups: seq<Group>, k: Key, i: nat)
    requires (forall g | g in groups :: i < |g.values|) && !HasKey(groups, k)
    ensures Reported(groups, k, i) == []
  {
    if groups != [] {
      var n := |groups| - 1;
      assert groups == groups[..n] + [groups[n]];
      NotReported(groups[..n], k, i);
    }
  }

  /** An entry starts from nothing reported. */
  lemma StartAddsUp(groups: seq<Group>, k: Key, metrics: seq<Metric>)
    requires WellFormed(groups, metrics) && !HasKey(groups, k)
    ensures AddsUp(AggregateRow(0, 0, 0, I64_MIN), groups, k, metrics)
  {
    hide HasKey;
    forall i | 0 <= i < |metrics| ensures Reported(groups, k, i) == [] {
      NotReported(groups, k, i);
    }
  }

  lemma AddsUpNext(groups: seq<Group>, g: Group, metrics: seq<Metric>, before: AggregateRow, after: AggregateRow)
    requires WellFormed(groups + [g], metrics) && WellFormed(groups, metrics) && AddsUp(before, groups, g.key, metrics)
    requires forall i | 0 <= i < |metrics| ::
               Get(after, metrics[i]) == Combine(metrics[i], Get(before, metrics[i]), g.values[i])
    ensures AddsUp(after, groups + [g], g.key, metrics)
  {
    hide Combine, Get;
    forall i | 0 <= i < |metrics|
      ensures Get(after, metrics[i]) == Fold(metrics[i], Reported(groups + [g], g.key, i))
    {
      assert (groups + [g])[..|groups|] == groups;
      var reported := Reported(groups, g.key, i);
      assert (reported + [g.values[i]])[..|reported|] == reported;
    }
  }

  lemma OthersStay(groups: seq<Group>, g: Group, metrics: seq<Metric>, k: Key, row: AggregateRow)
    requires WellFormed(groups + [g], metrics) && WellFormed(groups, metrics) && AddsUp(row, groups, k, metrics)
            && k != g.key
    ensures AddsUp(row, groups + [g], k, metrics)
  {
    forall i | 0 <= i < |metrics| ensures Reported(groups + [g], k, i) == Reported(groups, k, i) {
      assert (groups + [g])[..|groups|] == groups;
    }
  }

  lemma TalliesNext(rows: map<Key, AggregateRow>, groups: seq<Group>, g: Group, metrics: seq<Metric>,
                    after: AggregateRow)
    requires WellFormed(groups + [g], metrics) && WellFormed(groups, metrics) && Tallies(rows, groups, metrics)
    requires AddsUp(after, groups + [g], g.key, metrics)
    ensures Tallies(rows[g.key := after], groups + [g], metrics)
  {
    hide AddsUp;
    forall k ensures HasKey(groups + [g], k) <==> HasKey(groups, k) || k == g.key {
      if HasKey(groups, k) {
        var h :| h in groups && h.key == k;
        assert h in groups + [g];
      }
      assert g in groups + [g];
    }
    forall k | k in rows && k != g.key ensures AddsUp(rows[k], groups + [g], k, metrics) {
      OthersStay(groups, g, metrics, k, rows[k]);
    }
  }

  /** One reported row: `entry(key).or_insert(..)`, then its metrics. */
  method AddGroup(rows: map<Key, AggregateRow>, g: Group, metrics: seq<Metric>, ghost done: seq<Group>)
    returns (merged: map<Key, AggregateRow>)
    requires WellFormed(done + [g], metrics) && WellFormed(done, metrics) && Tallies(rows, done, metrics)
    ensures Tallies(merged, done + [g], metrics)
  {
    hide AddsUp;
    var entry := if g.key in rows then rows[g.key] else AggregateRow(0, 0, 0, I64_MIN);
    if g.key !in rows {
      StartAddsUp(done, g.key, metrics);
    }
    var row := AddMetrics(entry, metrics, g.values);
    hide Tallies;
    AddsUpNext(done, g, metrics, entry, row);
    TalliesNext(rows, done, g, metrics, row);
    merged := rows[g.key := row];
  }

  lemma PartIsWellFormed(all: seq<Group>, part: seq<Group>, metrics: seq<Metric>)
    requires WellFormed(all, metrics) && part <= all
    ensures WellFormed(part, metrics)
  {
  }

  method AddBatch(rows: map<Key, AggregateRow>, batch: seq<Group>, metrics: seq<Metric>, ghost done: seq<Group>)
    returns (merged: map<Key, AggregateRow>)
    requires WellFormed(done + batch, metrics) && WellFormed(done, metrics) && Tallies(rows, done, metrics)
    ensures Tallies(merged, done + batch, metrics)
  {
    hide *;
    merged := rows;
    var i := 0;
    assert done + batch[..0] == done;
    while i < |batch|
      invariant i <= |batch| && WellFormed(done + batch[..i], metrics) && Tallies(merged, done + batch[..i], metrics)
    {
      assert done + batch[..i + 1] == done + batch[..i] + [batch[i]];
      assert done + batch[..i + 1] <= done + batch;
      PartIsWellFormed(done + batch, done + batch[..i + 1], metrics);
      merged := AddGroup(merged, batch[i], metrics, done + batch[..i]);
      i := i + 1;
    }
    assert batch[..|batch|] == batch;
  }

  method SortedKeys(rows: map<Key, AggregateRow>) returns (keys: seq<Key>)
    ensures forall k :: k in keys <==> k in rows
    ensures forall i, j | 0 <= i < j < |keys| :: KeyLe(keys[i], keys[j]) && keys[i] != keys[j]
  {
    var listed := Enumerate(rows.Keys);
    KeyOrder();
    SortByAscends(listed, KeyLe);
    PermutationKeeps(listed, SortBy(listed, KeyLe));
    keys := SortBy(listed, KeyLe);
    hide KeyLe, SortBy, Total;
    forall k ensures k in keys <==> k in rows {
      assert k in listed <==> k in Elements(listed);
    }
  }

  /** `build_aggregate_batch`: the metrics asked for, in their order. */
  function Built(key: Key, row: AggregateRow, metrics: seq<Metric>): Group {
    Group(key, seq(|metrics|, i requires 0 <= i < |metrics| => Get(row, metrics[i])))
  }

  method BuildAggregateBatch(rows: map<Key, AggregateRow>, keys: seq<Key>,
                             metrics: seq<Metric>) returns (out: seq<Group>)
    requires forall k | k in keys :: k in rows
    ensures |out| == |keys| && forall i | 0 <= i < |out| :: out[i] == Built(keys[i], rows[keys[i]], metrics)
  {
    hide *;
    out := [];
    var i := 0;
    while i < |keys|
      invariant i <= |keys| && |out| == i && forall j | 0 <= j < i :: out[j] == Built(keys[j], rows[keys[j]], metrics)
    {
      out := out + [Built(keys[i], rows[keys[i]], metrics)];
      i := i + 1;
    }
  }

  /** `out` is the merge of `groups`: each key once, ascending, with its totals. */
  ghost predicate MergeOf(out: seq<Group>, groups: seq<Group>, metrics: seq<Metric>)
    requires WellFormed(groups, metrics)
  {
    && (forall i, j | 0 <= i < j < |out| :: KeyLe(out[i].key, out[j].key) && out[i].key != out[j].key)
    && (forall k :: HasKey(out, k) <==> HasKey(groups, k))
    && forall g | g in out :: |g.values| == |metrics|
         && forall i | 0 <= i < |metrics| :: g.values[i] == Fold(metrics[i], Reported(groups, g.key, i))
  }

  lemma BuiltIsMerge(out: seq<Group>, keys: seq<Key>, rows: map<Key, AggregateRow>, groups: seq<Group>,
        metrics: seq<Metric>)
    requires WellFormed(groups, metrics) && Tallies(rows, groups, metrics)
    requires forall k :: k in keys <==> k in rows
    requires forall i, j | 0 <= i < j < |keys| :: KeyLe(keys[i], keys[j]) && keys[i] != keys[j]
    requires |out| == |keys| && forall i | 0 <= i < |out| :: out[i] == Built(keys[i], rows[keys[i]], metrics)
    ensures MergeOf(out, groups, metrics)
  {
    hide KeyLe, Fold, Get;
    assert forall i | 0 <= i < |out| :: out[i].key == keys[i];
    forall k ensures HasKey(out, k) <==> k in keys {
      if k in keys {
        var i :| 0 <= i < |keys| && keys[i] == k;
        assert out[i] in out && out[i].key == k;
      }
    }
    forall g | g in out
      ensures |g.values| == |metrics|
              && forall i | 0 <= i < |metrics| :: g.values[i] == Fold(metrics[i], Reported(groups, g.key, i))
    {
      var j :| 0 <= j < |out| && out[j] == g;
      assert AddsUp(rows[keys[j]], groups, keys[j], metrics);
    }
  }

  lemma NothingTallies(batches: seq<seq<Group>>, metrics: seq<Metric>)
    requires WellFormed(Flat(batches), metrics)
    ensures WellFormed(Flat(batches[..0]), metrics) && Tallies(map[], Flat(batches[..0]), metrics)
  {
  }

  /** `merge_aggregate` over the batches of both tiers. */
  method MergeAggregate(batches: seq<seq<Group>>, metrics: seq<Metric>) returns (out: seq<Group>)
    requires WellFormed(Flat(batches), metrics)
    ensures MergeOf(out, Flat(batches), metrics)
  {
    NothingTallies(batches, metrics);
    hide *;
    var rows: map<Key, AggregateRow> := map[];
    var i := 0;
    while i < |batches|
      invariant i <= |batches| && WellFormed(Flat(batches[..i]), metrics) && Tallies(rows, Flat(batches[..i]), metrics)
    {
      FlatNext(batches, i);
      FlatSplit(batches, i + 1);
      PartIsWellFormed(Flat(batches), Flat(batches[..i + 1]), metrics);
      if batches[i] != [] {
        rows := AddBatch(rows, batches[i], metrics, Flat(batches[..i]));
      } else {
        assert Flat(batches[..i]) + batches[i] == Flat(batches[..i]);
      }
      i := i + 1;
    }
    assert batches[..|batches|] == batches;
    var keys := SortedKeys(rows);
    out := BuildAggregateBatch(rows, keys, metrics);
    BuiltIsMerge(out, keys, rows, Flat(batches), metrics);
  }

  // ----------------------------------------- merging tiers is one aggregate

  predicate AboveZero(m: Metric, xs: seq<int>) {
    m.LastSeen? ==> forall x | x in xs :: x >= I64_MIN
  }

  lemma {:induction false} FoldAppend(m: Metric, a: seq<int>, b: seq<int>)
    requires AboveZero(m, a) && AboveZero(m, b)
    ensures Fold(m, a + b) == Combine(m, Fold(m, a), Fold(m, b))
    ensures m.LastSeen? ==> Fold(m, a) >= I64_MIN
    decreases |a| + |b|
  {
    if b != [] {
      var init := b[..|b| - 1];
      assert (a + b)[..|a + b| - 1] == a + init;
      assert forall x | x in init :: x in b;
      FoldAppend(m, a, init);
    } else {
      assert a + b == a;
      if a != [] {
        var init := a[..|a| - 1];
        assert forall x | x in init :: x in a;
        FoldAppend(m, init, b);
      }
    }
  }

  lemma {:induction false} ReportedAppend(a: seq<Group>, b: seq<Group>, k: Key, i: nat)
    requires forall g | g in a + b :: i < |g.values|
    ensures Reported(a + b, k, i) == Reported(a, k, i) + Reported(b, k, i)
  {
    if b == [] {
      assert a + b == a;
    } else {
      var n := |b| - 1;
      assert (a + b)[..|a| + n] == a + b[..n];
      ReportedAppend(a, b[..n], k, i);
    }
  }

  lemma {:induction false} WeightsAppend(a: seq<LogRecord>, b: seq<LogRecord>, k: Key, m: Metric,
        groupBy: seq<Dimension>, bucketSecs: nat)
    ensures Weights(a + b, k, m, groupBy, bucketSecs)
            == Weights(a, k, m, groupBy, bucketSecs) + Weights(b, k, m, groupBy, bucketSecs)
  {
    if a == [] {
      assert a + b == b;
    } else {
      hide KeyOf, Weight;
      assert (a + b)[0] == a[0] && (a + b)[1..] == a[1..] + b;
      WeightsAppend(a[1..], b, k, m, groupBy, bucketSecs);
      var first := if KeyOf(a[0], groupBy, bucketSecs) == k then [Weight(a[0], m)] else [];
      Assoc(first, Weights(a[1..], k, m, groupBy, bucketSecs), Weights(b, k, m, groupBy, bucketSecs));
    }
  }

  lemma {:induction false} WeightsOf(rows: seq<LogRecord>, k: Key, m: Metric, groupBy: seq<Dimension>, bucketSecs: nat)
    requires forall r | r in rows :: r.timestampUs >= I64_MIN
    ensures AboveZero(m, Weights(rows, k, m, groupBy, bucketSecs))
    ensures (forall r | r in rows :: KeyOf(r, groupBy, bucketSecs) != k)
            ==> Weights(rows, k, m, groupBy, bucketSecs) == []
  {
    if rows != [] {
      hide KeyOf;
      WeightsOf(rows[1..], k, m, groupBy, bucketSecs);
    }
  }

  /** A key reported once is reported once. */
  lemma {:induction false} ReportedOnce(groups: seq<Group>, g: Group, i: nat)
    requires forall h | h in groups :: i < |h.values|
    requires g in groups && forall a, b | 0 <= a < b < |groups| :: groups[a].key != groups[b].key
    ensures Reported(groups, g.key, i) == [g.values[i]]
  {
    var n := |groups| - 1;
    assert groups == groups[..n] + [groups[n]];
    if groups[n] == g {
      assert !HasKey(groups[..n], g.key);
      NotReported(groups[..n], g.key, i);
    } else {
      assert g in groups[..n];
      ReportedOnce(groups[..n], g, i);
    }
  }

  /** What one tier reports for a key adds up to the metric over its rows. */
  lemma TierAddsUp(groups: seq<Group>, rows: seq<LogRecord>, metrics: seq<Metric>, groupBy: seq<Dimension>,
                   bucketSecs: nat, k: Key, i: nat)
    requires i < |metrics| && Answers(groups, rows, metrics, groupBy, bucketSecs)
    requires forall r | r in rows :: r.timestampUs >= I64_MIN
    ensures Fold(metrics[i], Reported(groups, k, i)) == Value(rows, k, metrics[i], groupBy, bucketSecs)
    ensures AboveZero(metrics[i], Reported(groups, k, i))
  {
    var m := metrics[i];
    WeightsOf(rows, k, m, groupBy, bucketSecs);
    if HasKey(groups, k) {
      var g :| g in groups && g.key == k;
      ReportedOnce(groups, g, i);
      FoldAppend(m, Weights(rows, k, m, groupBy, bucketSecs), []);
      var v := Value(rows, k, m, groupBy, bucketSecs);
      assert Fold(m, [v]) == Combine(m, Zero(m), v) by { assert [v][..0] == []; }
    } else {
      NotReported(groups, k, i);
    }
  }

  /** Merging the groups the two tiers report gives the groups of all rows of both,
      each key once and in strictly ascending order. */
  lemma MergedGroups(parquet: seq<LogRecord>, live: seq<LogRecord>, fromParquet: seq<Group>, fromLive: seq<Group>,
                          metrics: seq<Metric>, groupBy: seq<Dimension>, bucketSecs: nat, out: seq<Group>)
    requires Distinct(metrics)
    requires forall r | r in parquet + live :: r.timestampUs >= I64_MIN
    requires Answers(fromParquet, parquet, metrics, groupBy, bucketSecs)
            && Answers(fromLive, live, metrics, groupBy, bucketSecs)
    requires WellFormed(fromParquet + fromLive, metrics) && MergeOf(out, fromParquet + fromLive, metrics)
    ensures Answers(out, parquet + live, metrics, groupBy, bucketSecs)
    ensures forall i, j | 0 <= i < j < |out| :: KeyLe(out[i].key, out[j].key) && out[i].key != out[j].key
  {
    hide KeyLe, Fold, Weights, Reported, KeyOf;
    forall k ensures HasKey(out, k) <==> exists r | r in parquet + live :: KeyOf(r, groupBy, bucketSecs) == k {
      EitherHasKey(fromParquet, fromLive, k);
    }
    forall g, i | g in out && 0 <= i < |metrics|
      ensures g.values[i] == Value(parquet + live, g.key, metrics[i], groupBy, bucketSecs)
    {
      TotalsAgree(parquet, live, fromParquet, fromLive, metrics, groupBy, bucketSecs, g.key, i);
    }
  }

  lemma EitherHasKey(a: seq<Group>, b: seq<Group>, k: Key)
    ensures HasKey(a + b, k) <==> HasKey(a, k) || HasKey(b, k)
  {
    if HasKey(a, k) {
      var g :| g in a && g.key == k;
      assert g in a + b;
    }
    if HasKey(b, k) {
      var g :| g in b && g.key == k;
      assert g in a + b;
    }
  }

  lemma TotalsAgree(parquet: seq<LogRecord>, live: seq<LogRecord>, fromParquet: seq<Group>, fromLive: seq<Group>,
                    metrics: seq<Metric>, groupBy: seq<Dimension>, bucketSecs: nat, k: Key, i: nat)
    requires i < |metrics| && WellFormed(fromParquet + fromLive, metrics)
    requires forall r | r in parquet + live :: r.timestampUs >= I64_MIN
    requires Answers(fromParquet, parquet, metrics, groupBy, bucketSecs)
            && Answers(fromLive, live, metrics, groupBy, bucketSecs)
    ensures Fold(metrics[i], Reported(fromParquet + fromLive, k, i))
            == Value(parquet + live, k, metrics[i], groupBy, bucketSecs)
  {
    var m := metrics[i];
    ReportedAppend(fromParquet, fromLive, k, i);
    WeightsAppend(parquet, live, k, m, groupBy, bucketSecs);
    TierAddsUp(fromParquet, parquet, metrics, groupBy, bucketSecs, k, i);
    TierAddsUp(fromLive, live, metrics, groupBy, bucketSecs, k, i);
    WeightsOf(parquet, k, m, groupBy, bucketSecs);
    WeightsOf(live, k, m, groupBy, bucketSecs);
    hide Answers, WellFormed, Fold, Weights, Reported, AboveZero;
    FoldAppend(m, Reported(fromParquet, k, i), Reported(fromLive, k, i));
    FoldAppend(m, Weights(parquet, k, m, groupBy, bucketSecs), Weights(live, k, m, groupBy, bucketSecs));
  }

  // ----------------------------------------------------- global aggregates

  /** What a metric of a global aggregate reads as. Over no rows the count is zero and
      the other metrics are null, whose slot holds a zero. */
  function Reads(rows: seq<LogRecord>, m: Metric, bucketSecs: nat): int {
    if rows == [] then 0 else Value(rows, [], m, [], bucketSecs)
  }

  /** What a tier reports: without grouping always one row, otherwise a row for each group. */
  ghost predicate TierAnswers(groups: seq<Group>, rows: seq<LogRecord>, metrics: seq<Metric>, groupBy: seq<Dimension>,
                              bucketSecs: nat) {
    if groupBy == [] then
      && |groups| == 1 && groups[0].key == [] && |groups[0].values| == |metrics|
      && forall i | 0 <= i < |metrics| :: groups[0].values[i] == Reads(rows, metrics[i], bucketSecs)
    else Answers(groups, rows, metrics, groupBy, bucketSecs)
  }

  /** The zero of an empty tier does not exceed the last sighting of the other. */
  predicate NullIsHarmless(parquet: seq<LogRecord>, live: seq<LogRecord>, m: Metric, bucketSecs: nat) {
    !m.LastSeen? || (parquet == [] <==> live == []) || Reads(parquet + live, m, bucketSecs) >= 0
  }

  lemma ValueOfBoth(parquet: seq<LogRecord>, live: seq<LogRecord>, m: Metric, bucketSecs: nat)
    requires forall r | r in parquet + live :: r.timestampUs >= I64_MIN
    ensures Value(parquet + live, [], m, [], bucketSecs)
            == Combine(m, Value(parquet, [], m, [], bucketSecs), Value(live, [], m, [], bucketSecs))
    ensures m.LastSeen? ==>
              Value(parquet, [], m, [], bucketSecs) >= I64_MIN && Value(live, [], m, [], bucketSecs) >= I64_MIN
  {
    WeightsAppend(parquet, live, [], m, [], bucketSecs);
    WeightsOf(parquet, [], m, [], bucketSecs);
    WeightsOf(live, [], m, [], bucketSecs);
    hide Weights, AboveZero, Fold;
    FoldAppend(m, Weights(parquet, [], m, [], bucketSecs), Weights(live, [], m, [], bucketSecs));
    FoldAppend(m, Weights(live, [], m, [], bucketSecs), []);
  }

  lemma FoldTwo(m: Metric, a: int, b: int)
    ensures Fold(m, [a, b]) == Combine(m, Combine(m, Zero(m), a), b)
  {
    var both, one := [a, b], [a];
    assert both[..1] == one && one[..0] == [];
    assert Fold(m, one) == Combine(m, Fold(m, []), a);
    assert Fold(m, both) == Combine(m, Fold(m, one), b);
  }

  lemma NoRowsValue(m: Metric, bucketSecs: nat)
    ensures Value([], [], m, [], bucketSecs) == Zero(m)
  {
  }

  /** Reading both tiers' rows adds up exactly when no null gets in the way. */
  lemma ReadsOfBoth(parquet: seq<LogRecord>, live: seq<LogRecord>, m: Metric, bucketSecs: nat)
    requires forall r | r in parquet + live :: r.timestampUs >= I64_MIN
    ensures Fold(m, [Reads(parquet, m, bucketSecs), Reads(live, m, bucketSecs)]) == Reads(parquet + live, m, bucketSecs)
            <==> NullIsHarmless(parquet, live, m, bucketSecs)
  {
    ValueOfBoth(parquet, live, m, bucketSecs);
    FoldTwo(m, Reads(parquet, m, bucketSecs), Reads(live, m, bucketSecs));
    NoRowsValue(m, bucketSecs);
    hide Value, Fold;
    assert parquet == [] ==> parquet + live == live;
    assert live == [] ==> parquet + live == parquet;
  }

  lemma TwoKeys(out: seq<Group>)
    requires |out| > 1 && forall i, j | 0 <= i < j < |out| :: KeyLe(out[i].key, out[j].key) && out[i].key != out[j].key
    ensures exists g :: g in out && g.key != []
  {
    hide KeyLe;
    if out[0].key != [] {
      assert out[0] in out;
    } else {
      assert out[1] in out && out[1].key != [];
    }
  }

  /** Two rows without keys merge into one. */
  lemma MergedGlobals(a: Group, b: Group, metrics: seq<Metric>, out: seq<Group>)
    requires a.key == [] && b.key == [] && WellFormed([a] + [b], metrics) && MergeOf(out, [a] + [b], metrics)
    ensures |out| == 1 && out[0].key == [] && |out[0].values| == |metrics|
    ensures forall i | 0 <= i < |metrics| :: out[0].values[i] == Fold(metrics[i], [a.values[i], b.values[i]])
  {
    var both := [a] + [b];
    assert a in both && b in both;
    assert HasKey(both, []) && forall k :: HasKey(both, k) ==> k == [];
    hide Fold, Reported, KeyLe;
    assert HasKey(out, []);
    assert forall g | g in out :: HasKey(out, g.key);
    if |out| > 1 {
      TwoKeys(out);
    }
    assert out[0] in out;
    forall i | 0 <= i < |metrics| ensures Reported(both, [], i) == [a.values[i], b.values[i]] {
      ReportedTwo(a, b, i);
    }
  }

  lemma ReportedTwo(a: Group, b: Group, i: nat)
    requires a.key == [] && b.key == [] && i < |a.values| && i < |b.values|
    ensures Reported([a] + [b], [], i) == [a.values[i], b.values[i]]
  {
    var both := [a] + [b];
    assert both[..1] == [a] && both[..1][..0] == [];
    assert Reported([a], [], i) == Reported([], [], i) + [a.values[i]] by { assert [a][..0] == []; }
  }

  /** What the merge makes of the two tiers' answers is one aggregate over all rows of
      both, in strictly ascending order of the keys, exactly when the query groups, or
      no metric's null gets in the way: that of a last sighting before 1970. */
  lemma MergedTiersAnswer(parquet: seq<LogRecord>, live: seq<LogRecord>, fromParquet: seq<Group>, fromLive: seq<Group>,
                          metrics: seq<Metric>, groupBy: seq<Dimension>, bucketSecs: nat, out: seq<Group>)
    requires Distinct(metrics)
    requires forall r | r in parquet + live :: r.timestampUs >= I64_MIN
    requires TierAnswers(fromParquet, parquet, metrics, groupBy, bucketSecs)
             && TierAnswers(fromLive, live, metrics, groupBy, bucketSecs)
    requires WellFormed(fromParquet + fromLive, metrics) && MergeOf(out, fromParquet + fromLive, metrics)
    ensures TierAnswers(out, parquet + live, metrics, groupBy, bucketSecs)
            <==> groupBy != [] || forall m | m in metrics :: NullIsHarmless(parquet, live, m, bucketSecs)
    ensures forall i, j | 0 <= i < j < |out| :: KeyLe(out[i].key, out[j].key) && out[i].key != out[j].key
  {
    if groupBy != [] {
      MergedGroups(parquet, live, fromParquet, fromLive, metrics, groupBy, bucketSecs, out);
    } else {
      var a, b := fromParquet[0], fromLive[0];
      assert fromParquet + fromLive == [a] + [b];
      MergedGlobals(a, b, metrics, out);
      hide Reads, Fold, NullIsHarmless, MergeOf, WellFormed;
      forall i | 0 <= i < |metrics|
        ensures out[0].values[i] == Reads(parquet + live, metrics[i], bucketSecs)
                <==> NullIsHarmless(parquet, live, metrics[i], bucketSecs)
      {
        ReadsOfBoth(parquet, live, metrics[i], bucketSecs);
      }
    }
  }

  lemma OldRowReads(r: LogRecord, bucketSecs: nat)
    requires I64_MIN <= r.timestampUs
    ensures Reads([r], LastSeen, bucketSecs) == r.timestampUs
  {
    var seen := [r.timestampUs];
    assert [r][1..] == [];
    assert KeyOf(r, [], bucketSecs) == [];
    assert Weights([r], [], LastSeen, [], bucketSecs) == seen + Weights([], [], LastSeen, [], bucketSecs) == seen;
    assert seen[..0] == [];
    assert Fold(LastSeen, seen) == Combine(LastSeen, Fold(LastSeen, []), r.timestampUs);
  }

  /** With one matching row, dated before 1970 and in the chunks, the page says it was
      last seen at the epoch. */
  lemma NullHidesAnOldRow(r: LogRecord, bucketSecs: nat, fromParquet: seq<Group>, fromLive: seq<Group>, out: seq<Group>)
    requires I64_MIN <= r.timestampUs < 0
    requires TierAnswers(fromParquet, [r], [LastSeen], [], bucketSecs)
    requires TierAnswers(fromLive, [], [LastSeen], [], bucketSecs)
    requires WellFormed(fromParquet + fromLive, [LastSeen]) && MergeOf(out, fromParquet + fromLive, [LastSeen])
    ensures out == [Group([], [0])]
    ensures !TierAnswers(out, [r], [LastSeen], [], bucketSecs)
  {
    GlobalLastSeen(fromParquet, [r], bucketSecs);
    GlobalLastSeen(fromLive, [], bucketSecs);
    OldRowReads(r, bucketSecs);
    var a, b := fromParquet[0], fromLive[0];
    assert fromParquet + fromLive == [a] + [b];
    FoldTwo(LastSeen, a.values[0], b.values[0]);
    hide *;
    MergedGlobals(a, b, [LastSeen], out);
    assert out[0].values == [Fold(LastSeen, [a.values[0], b.values[0]])];
    assert out == [Group([], [0])] by { ZeroHidesIt(r.timestampUs); }
    NotTheEpoch(out, r, bucketSecs);
  }

  lemma GlobalLastSeen(groups: seq<Group>, rows: seq<LogRecord>, bucketSecs: nat)
    requires TierAnswers(groups, rows, [LastSeen], [], bucketSecs)
    ensures |groups| == 1 && groups[0].key == [] && |groups[0].values| == 1
    ensures groups[0].values[0] == (if rows == [] then 0 else Reads(rows, LastSeen, bucketSecs))
  {
    hide Value;
  }

  lemma ZeroHidesIt(seen: int)
    requires I64_MIN <= seen < 0
    ensures Combine(LastSeen, Combine(LastSeen, Zero(LastSeen), seen), 0) == 0
  {
  }

  lemma NotTheEpoch(out: seq<Group>, r: LogRecord, bucketSecs: nat)
    requires out == [Group([], [0])] && Reads([r], LastSeen, bucketSecs) < 0
    ensures !TierAnswers(out, [r], [LastSeen], [], bucketSecs)
  {
    if TierAnswers(out, [r], [LastSeen], [], bucketSecs) {
      GlobalLastSeen(out, [r], bucketSecs);
    }
  }

  // ------------------------------------------------ the answer in plain terms

  /** Where two keys in order first differ, times come before texts, the earlier bucket
      comes first, and of two texts the one that is first in the order of strings. */
  lemma {:induction false} KeysInOrder(a: Key, b: Key, d: nat)
    requires KeyLe(a, b) && d < |a| && d < |b| && a[..d] == b[..d] && a[d] != b[d]
    ensures match (a[d], b[d])
            case (Micros(x), Micros(y)) => x < y
            case (Micros(_), Text(_)) => true
            case (Text(_), Micros(_)) => false
            case (Text(s), Text(t)) => s != t && StringLe(s, t)
  {
    if d > 0 {
      assert a[0] == a[..d][0] == b[..d][0] == b[0];
      assert a[1..][..d - 1] == a[..d][1..] && b[1..][..d - 1] == b[..d][1..];
      KeysInOrder(a[1..], b[1..], d - 1);
    }
  }

  /** Of an answer whose keys begin with a bucket the buckets never go back in time. */
  lemma BucketsAscend(out: seq<Group>, groups: seq<Group>, metrics: seq<Metric>, i: nat, j: nat)
    requires WellFormed(groups, metrics) && MergeOf(out, groups, metrics) && i < j < |out|
    requires out[i].key != [] && out[j].key != [] && out[i].key[0].Micros? && out[j].key[0].Micros?
    ensures out[i].key[0].micros <= out[j].key[0].micros
  {
    var a, b := out[i].key, out[j].key;
    assert KeyLe(a, b);
    hide MergeOf, KeyLe;
    if a[0] != b[0] {
      KeysInOrder(a, b, 0);
    }
  }

  /** What a key says of a row: its level, its service, and the start of the bucket, a
      multiple of the length, that its time lies in. */
  lemma KeyPartsMean(r: LogRecord, groupBy: seq<Dimension>, bucketSecs: nat, i: nat)
    requires i < |groupBy| && bucketSecs > 0
    ensures var part, length := KeyOf(r, groupBy, bucketSecs)[i], bucketSecs * 1_000_000;
            match groupBy[i]
            case Bucket => part.Micros? && part.micros <= r.timestampUs < part.micros + length
                           && exists n: int :: part.micros == n * length
            case Level => part == Text(r.level)
            case Service => part == Text(r.service)
  {
    if groupBy[i].Bucket? {
      var length := bucketSecs * 1_000_000;
      var n := r.timestampUs / length;
      assert BucketOf(r.timestampUs, bucketSecs) == n * length;
    }
  }

  /** The rows of one group. */
  function OfGroup(rows: seq<LogRecord>, key: Key, groupBy: seq<Dimension>, bucketSecs: nat): seq<LogRecord> {
    if rows == [] then []
    else
      var n := |rows| - 1;
      OfGroup(rows[..n], key, groupBy, bucketSecs)
      + (if KeyOf(rows[n], groupBy, bucketSecs) == key then [rows[n]] else [])
  }

  function OfLevel(rows: seq<LogRecord>, level: string): seq<LogRecord> {
    if rows == [] then []
    else OfLevel(rows[..|rows| - 1], level) + (if rows[|rows| - 1].level == level then [rows[|rows| - 1]] else [])
  }

  lemma ValueNext(rows: seq<LogRecord>, r: LogRecord, key: Key, m: Metric, groupBy: seq<Dimension>, bucketSecs: nat)
    ensures Value(rows + [r], key, m, groupBy, bucketSecs)
            == if KeyOf(r, groupBy, bucketSecs) == key
               then Combine(m, Value(rows, key, m, groupBy, bucketSecs), Weight(r, m))
               else Value(rows, key, m, groupBy, bucketSecs)
  {
    hide KeyOf, Combine, Weight;
    WeightsAppend(rows, [r], key, m, groupBy, bucketSecs);
    assert [r][1..] == [];
    var ws := Weights(rows, key, m, groupBy, bucketSecs);
    assert (ws + [Weight(r, m)])[..|ws|] == ws;
    assert ws + [] == ws;
  }

  lemma OfGroupNext(rows: seq<LogRecord>, r: LogRecord, key: Key, groupBy: seq<Dimension>, bucketSecs: nat)
    ensures OfGroup(rows + [r], key, groupBy, bucketSecs)
            == OfGroup(rows, key, groupBy, bucketSecs) + (if KeyOf(r, groupBy, bucketSecs) == key then [r] else [])
  {
    hide KeyOf;
    assert (rows + [r])[..|rows|] == rows;
  }

  /** The count is the number of rows of the group. */
  lemma {:induction false} CountMeans(rows: seq<LogRecord>, key: Key, groupBy: seq<Dimension>, bucketSecs: nat)
    ensures Value(rows, key, Count, groupBy, bucketSecs) == |OfGroup(rows, key, groupBy, bucketSecs)|
  {
    if rows != [] {
      hide KeyOf, Value, OfGroup;
      var init, r := rows[..|rows| - 1], rows[|rows| - 1];
      assert rows == init + [r];
      CountMeans(init, key, groupBy, bucketSecs);
      ValueNext(init, r, key, Count, groupBy, bucketSecs);
      OfGroupNext(init, r, key, groupBy, bucketSecs);
    }
  }

  /** Errors and warns are the numbers of those of level ERROR and of level WARN. */
  lemma {:induction false} LevelsMean(rows: seq<LogRecord>, key: Key, m: Metric, level: string, groupBy: seq<Dimension>,
                                      bucketSecs: nat)
    requires (m.Errors? && level == "ERROR") || (m.Warns? && level == "WARN")
    ensures Value(rows, key, m, groupBy, bucketSecs) == |OfLevel(OfGroup(rows, key, groupBy, bucketSecs), level)|
  {
    if rows != [] {
      hide KeyOf, Value, OfGroup, OfLevel;
      var init, r := rows[..|rows| - 1], rows[|rows| - 1];
      assert rows == init + [r];
      LevelsMean(init, key, m, level, groupBy, bucketSecs);
      ValueNext(init, r, key, m, groupBy, bucketSecs);
      OfGroupNext(init, r, key, groupBy, bucketSecs);
      OfLevelNext(OfGroup(init, key, groupBy, bucketSecs), r, level);
      hide Combine, Weight;
      OneMore(m, r, level, Value(init, key, m, groupBy, bucketSecs));
      assert OfGroup(init, key, groupBy, bucketSecs) + [] == OfGroup(init, key, groupBy, bucketSecs);
    }
  }

  lemma OneMore(m: Metric, r: LogRecord, level: string, before: int)
    requires (m.Errors? && level == "ERROR") || (m.Warns? && level == "WARN")
    ensures Combine(m, before, Weight(r, m)) == before + if r.level == level then 1 else 0
  {
  }

  lemma OfLevelNext(of: seq<LogRecord>, r: LogRecord, level: string)
    ensures OfLevel(of + [r], level) == OfLevel(of, level) + (if r.level == level then [r] else [])
  {
    assert (of + [r])[..|of|] == of;
  }

  /** `last` is the greatest timestamp in `of`, or the least there is. */
  ghost predicate IsLast(of: seq<LogRecord>, last: int) {
    && (forall r | r in of :: r.timestampUs <= last)
    && if of == [] then last == -0x8000_0000_0000_0000 else exists r :: r in of && r.timestampUs == last
  }

  /** The last sighting is the greatest timestamp of the group. */
  lemma {:induction false} LastMeans(rows: seq<LogRecord>, key: Key, groupBy: seq<Dimension>, bucketSecs: nat)
    requires forall r | r in rows :: r.timestampUs >= I64_MIN
    ensures IsLast(OfGroup(rows, key, groupBy, bucketSecs), Value(rows, key, LastSeen, groupBy, bucketSecs))
  {
    if rows == [] {
      assert OfGroup([], key, groupBy, bucketSecs) == [] && Value([], key, LastSeen, groupBy, bucketSecs) == I64_MIN;
    } else {
      hide *;
      var init, r := rows[..|rows| - 1], rows[|rows| - 1];
      assert rows == init + [r];
      LastMeans(init, key, groupBy, bucketSecs);
      LastStep(init, r, key, groupBy, bucketSecs);
    }
  }

  lemma LastStep(init: seq<LogRecord>, r: LogRecord, key: Key, groupBy: seq<Dimension>, bucketSecs: nat)
    requires IsLast(OfGroup(init, key, groupBy, bucketSecs), Value(init, key, LastSeen, groupBy, bucketSecs))
    requires r.timestampUs >= I64_MIN
    ensures IsLast(OfGroup(init + [r], key, groupBy, bucketSecs),
                   Value(init + [r], key, LastSeen, groupBy, bucketSecs))
  {
    ValueNext(init, r, key, LastSeen, groupBy, bucketSecs);
    OfGroupNext(init, r, key, groupBy, bucketSecs);
    hide KeyOf, Value, OfGroup, IsLast;
    var of := OfGroup(init, key, groupBy, bucketSecs);
    LastNext(of, r, Value(init, key, LastSeen, groupBy, bucketSecs));
    assert of + [] == of;
  }

  lemma LastNext(of: seq<LogRecord>, r: LogRecord, last: int)
    requires IsLast(of, last) && r.timestampUs >= I64_MIN
    ensures IsLast(of + [r], Max(last, r.timestampUs))
  {
    assert r in of + [r];
    if r.timestampUs < last {
      var x :| x in of && x.timestampUs == last;
      assert x in of + [r];
    }
  }
}
