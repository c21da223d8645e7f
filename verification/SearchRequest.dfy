/** `LogSearch::validate`: which requests are run at all. */
module SearchRequest {
  import opened Seqs
  import opened Sorting
  import opened Directories
  import opened SearchText
  import SearchAggregate
  import SearchConditions

  const U64_MAX: nat := 0xFFFF_FFFF_FFFF_FFFF

  datatype Mode =
    | Rows(limit: nat, offset: nat)
    | Aggregate(groupBy: seq<SearchAggregate.Dimension>, bucketSecs: nat, metrics: seq<SearchAggregate.Metric>)

  datatype LogSearch = LogSearch(timeRangeSecs: nat, facets: map<string, string>, mode: Mode)

  function RankOf(d: SearchAggregate.Dimension): nat {
    match d
    case Bucket => 0
    case Level => 1
    case Service => 2
  }

  function RankOfMetric(m: SearchAggregate.Metric): nat {
    match m
    case Count => 0
    case Errors => 1
    case Warns => 2
    case LastSeen => 3
  }

  predicate RankLe(a: nat, b: nat) {
    a <= b
  }

  /** `Vec::dedup`: drops repeats that stand next to each other. */
  function Dedup(s: seq<nat>): seq<nat> {
    if |s| <= 1 then s
    else if s[|s| - 1] == s[|s| - 2] then Dedup(s[..|s| - 1])
    else Dedup(s[..|s| - 1]) + [s[|s| - 1]]
  }

  lemma {:induction false} DedupKeepsAllIff(s: seq<nat>)
    requires Ascending(s, RankLe)
    ensures |Dedup(s)| <= |s|
    ensures |Dedup(s)| == |s| <==> Distinct(s)
  {
    if |s| > 1 {
      var init := s[..|s| - 1];
      DedupKeepsAllIff(init);
      if Distinct(init) && s[|s| - 1] != s[|s| - 2] {
        forall i | 0 <= i < |s| - 1 ensures s[i] != s[|s| - 1] {
          assert RankLe(s[i], s[|s| - 2]) || i == |s| - 2;
        }
      }
      if Distinct(s) {
        assert forall i, j | 0 <= i < j < |init| :: s[i] != s[j];
      }
    }
  }

  /** Sorting, dropping neighbours and counting finds a repeat exactly when there is one. */
  method HasDuplicates(items: seq<nat>) returns (found: bool)
    ensures found <==> !Distinct(items)
  {
    assert Total(RankLe);
    SortByAscends(items, RankLe);
    var sorted := SortBy(items, RankLe);
    PermutationKeeps(items, sorted);
    PermutationKeeps(sorted, items);
    DedupKeepsAllIff(sorted);
    assert |multiset(sorted)| == |sorted| && |multiset(items)| == |items|;
    hide SortBy, Ascending, Dedup;
    found := |Dedup(sorted)| != |items|;
  }

  function Ranks(groupBy: seq<SearchAggregate.Dimension>): seq<nat> {
    seq(|groupBy|, i requires 0 <= i < |groupBy| => RankOf(groupBy[i]))
  }

  function MetricRanks(metrics: seq<SearchAggregate.Metric>): seq<nat> {
    seq(|metrics|, i requires 0 <= i < |metrics| => RankOfMetric(metrics[i]))
  }

  lemma RanksTellApart(groupBy: seq<SearchAggregate.Dimension>, metrics: seq<SearchAggregate.Metric>)
    ensures Distinct(Ranks(groupBy)) <==> Distinct(groupBy)
    ensures Distinct(MetricRanks(metrics)) <==> Distinct(metrics)
  {
    assert forall i, j | 0 <= i < j < |groupBy| :: Ranks(groupBy)[i] == Ranks(groupBy)[j] <==> groupBy[i] == groupBy[j];
    assert forall i, j | 0 <= i < j < |metrics| ::
        MetricRanks(metrics)[i] == MetricRanks(metrics)[j] <==> metrics[i] == metrics[j];
  }

  /** What the rest of the search relies on. */
  ghost predicate WellPosed(s: LogSearch, maxRows: nat) {
    && s.timeRangeSecs > 0
    && (forall f | f in s.facets :: (f == "level" || f == "service") && SearchConditions.Trim(s.facets[f]) != [])
    && match s.mode
       case Rows(limit, offset) => 1 <= limit <= maxRows && (offset + limit <= maxRows || maxRows == U64_MAX)
       case Aggregate(groupBy, bucketSecs, metrics) =>
         && Distinct(groupBy) && (SearchAggregate.Bucket in groupBy ==> bucketSecs > 0)
         && bucketSecs <= s.timeRangeSecs && metrics != [] && Distinct(metrics)
  }

  lemma {:induction false} BlankTrims(s: string)
    ensures SearchConditions.TrimStart(s) == [] <==> forall i | 0 <= i < |s| :: IsWhitespace(s[i])
  {
    hide IsWhitespace;
    if s != [] {
      BlankTrims(s[1..]);
      if IsWhitespace(s[0]) && forall i | 0 <= i < |s[1..]| :: IsWhitespace(s[1..][i]) {
        assert forall i | 1 <= i < |s| :: s[i] == s[1..][i - 1];
      }
      assert forall i | 0 <= i < |s[1..]| :: s[1..][i] == s[i + 1];
    }
  }

  lemma {:induction false} TrimStartKeepsFirst(s: string)
    ensures SearchConditions.TrimStart(s) != [] ==> !IsWhitespace(SearchConditions.TrimStart(s)[0])
  {
    hide IsWhitespace;
    if s != [] {
      TrimStartKeepsFirst(s[1..]);
    }
  }

  lemma {:induction false} TrimEndKeepsFirst(s: string)
    ensures s != [] && !IsWhitespace(s[0]) ==> SearchConditions.TrimEnd(s) != []
  {
    hide IsWhitespace;
    if |s| > 1 {
      TrimEndKeepsFirst(s[..|s| - 1]);
    }
  }

  /** Only blank text is empty once trimmed. */
  lemma TrimmedToNothing(s: string)
    ensures SearchConditions.Trim(s) == [] <==> forall i | 0 <= i < |s| :: IsWhitespace(s[i])
  {
    BlankTrims(s);
    TrimStartKeepsFirst(s);
    TrimEndKeepsFirst(SearchConditions.TrimStart(s));
    hide IsWhitespace, SearchConditions.TrimStart;
  }

  /** The requests accepted, condition by condition: a window; facets on level and service
      only, none of them blank; a page of at least one row that ends within the maximum; or
      dimensions and metrics without repeats, at least one metric, and a bucket length no
      longer than the window and not zero if buckets are asked for. */
  lemma WellPosedMeans(s: LogSearch, maxRows: nat)
    requires maxRows <= 0xFFFF_FFFF_FFFF_FFFF
    ensures WellPosed(s, maxRows)
            <==> s.timeRangeSecs >= 1
                 && s.facets.Keys <= {"level", "service"}
                 && (forall f | f in s.facets ::
                       exists i :: 0 <= i < |s.facets[f]| && !IsWhitespace(s.facets[f][i]))
                 && match s.mode
                    case Rows(limit, offset) =>
                      limit >= 1 && limit <= maxRows && (offset + limit <= maxRows || maxRows == 0xFFFF_FFFF_FFFF_FFFF)
                    case Aggregate(groupBy, bucketSecs, metrics) =>
                      && (forall i, j | 0 <= i < j < |groupBy| :: groupBy[i] != groupBy[j])
                      && (forall i, j | 0 <= i < j < |metrics| :: metrics[i] != metrics[j])
                      && |metrics| >= 1 && bucketSecs <= s.timeRangeSecs
                      && (SearchAggregate.Bucket in groupBy ==> bucketSecs >= 1)
  {
    forall f | f in s.facets
      ensures SearchConditions.Trim(s.facets[f]) != []
              <==> exists i :: 0 <= i < |s.facets[f]| && !IsWhitespace(s.facets[f][i])
    {
      TrimmedToNothing(s.facets[f]);
    }
    hide IsWhitespace, SearchConditions.Trim;
  }

  /** Accepts exactly the well-posed requests. The end of a page is compared after
      saturating at the largest `usize`. */
  method Validate(s: LogSearch, maxRows: nat) returns (ok: bool)
    requires maxRows <= U64_MAX
    ensures ok <==> WellPosed(s, maxRows)
  {
    if s.timeRangeSecs == 0 {
      return false;
    }
    var facets := s.facets.Keys;
    while facets != {}
      invariant facets <= s.facets.Keys
      invariant forall f | f in s.facets.Keys - facets ::
                  (f == "level" || f == "service") && SearchConditions.Trim(s.facets[f]) != []
      decreases |facets|
    {
      var facet :| facet in facets;
      if !(facet == "level" || facet == "service") || SearchConditions.Trim(s.facets[facet]) == [] {
        return false;
      }
      facets := facets - {facet};
    }
    match s.mode
    case Rows(limit, offset) =>
      ok := !(limit == 0 || limit > maxRows) && !(Min(offset + limit, U64_MAX) > maxRows);
    case Aggregate(groupBy, bucketSecs, metrics) =>
      RanksTellApart(groupBy, metrics);
      var repeatedGroup := HasDuplicates(Ranks(groupBy));
      var repeatedMetric := HasDuplicates(MetricRanks(metrics));
      ok := !repeatedGroup && !(bucketSecs == 0 && SearchAggregate.Bucket in groupBy)
            && !(bucketSecs > s.timeRangeSecs) && metrics != [] && !repeatedMetric;
  }
}
