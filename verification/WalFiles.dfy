/** File names of sealed WAL segments, and the order in which they are replayed. */
module WalFiles {
  import opened Seqs
  import opened Decimal
  import opened Sorting
  import WritePath
  import WalWorker

  const SEALED_PREFIX := "sealed-"
  const U64_MAX: nat := 0xFFFF_FFFF_FFFF_FFFF

  /** The file name `sealed_path` builds; `base` is the active file's name. */
  function SealedName(base: string, seqNo: nat): string {
    SEALED_PREFIX + Padded(seqNo, 6) + "-" + base
  }

  /** `split_once('-')`, the part before. */
  function BeforeDash(s: string): Option<string> {
    if s == [] then None
    else if s[0] == '-' then Some([])
    else
      match BeforeDash(s[1..])
      case None => None
      case Some(t) => Some([s[0]] + t)
  }

  function ParseSealedSeq(name: string): Option<nat> {
    if !(SEALED_PREFIX <= name) then None
    else
      match BeforeDash(name[|SEALED_PREFIX|..])
      case None => None
      case Some(digits) => ParseUnsigned(digits, U64_MAX)
  }

  lemma {:induction false} BeforeDashOf(digits: string, rest: string)
    requires AllDigits(digits)
    ensures BeforeDash(digits + "-" + rest) == Some(digits)
  {
    var s := digits + "-" + rest;
    if digits != [] {
      assert s[0] == digits[0] && s[1..] == digits[1..] + "-" + rest;
      BeforeDashOf(digits[1..], rest);
      assert digits == [digits[0]] + digits[1..];
    }
  }

  /** Every sequence number reads back from its file name, six digits or more. */
  lemma SealedNameParses(base: string, seqNo: nat)
    requires seqNo <= U64_MAX
    ensures ParseSealedSeq(SealedName(base, seqNo)) == Some(seqNo)
  {
    var name, digits := SealedName(base, seqNo), Padded(seqNo, 6);
    assert name == SEALED_PREFIX + (digits + "-" + base);
    assert name[|SEALED_PREFIX|..] == digits + "-" + base;
    BeforeDashOf(digits, base);
    PaddedParses(seqNo, 6, U64_MAX);
  }

  // ------------------------------------------------------- sealed_segments

  type Keyed = (nat, string)

  predicate Sorted(s: seq<Keyed>) {
    forall i, j | 0 <= i < j < |s| :: s[i].0 <= s[j].0
  }

  predicate KeyLe(a: Keyed, b: Keyed) {
    a.0 <= b.0
  }

  /** The names in a directory listing that carry a sequence number, with it. */
  function Parsed(entries: seq<string>): seq<Keyed> {
    if entries == [] then []
    else
      var rest := Parsed(entries[..|entries| - 1]);
      match ParseSealedSeq(entries[|entries| - 1])
      case None => rest
      case Some(n) => rest + [(n, entries[|entries| - 1])]
  }

  /** `sealed_segments` over whatever order `read_dir` lists the directory in. */
  method SealedSegments(entries: seq<string>) returns (segments: seq<Keyed>)
    ensures Sorted(segments) && multiset(segments) == multiset(Parsed(entries))
  {
    segments := [];
    var i := 0;
    while i < |entries|
      invariant i <= |entries| && segments == Parsed(entries[..i])
    {
      assert entries[..i + 1][..i] == entries[..i];
      var seqNo := ParseSealedSeq(entries[i]);
      if seqNo.Some? {
        segments := segments + [(seqNo.value, entries[i])];
      }
      i := i + 1;
    }
    assert entries[..|entries|] == entries;
    SortByAscends(segments, KeyLe);
    segments := SortBy(segments, KeyLe);
  }

  // --------------------------------------------------------- replay order

  /** `entries` lists, in some order and without repetition, a directory whose
      sealed files are exactly those numbered by `keys`. */
  ghost predicate Lists(entries: seq<string>, base: string, keys: set<nat>) {
    && (forall i, j | 0 <= i < j < |entries| :: entries[i] != entries[j])
    && (forall k | k in keys :: k <= U64_MAX && SealedName(base, k) in entries)
    && (forall e | e in entries && ParseSealedSeq(e).Some? :: exists k :: k in keys && e == SealedName(base, k))
  }

  lemma {:induction false} ParsedMembers(entries: seq<string>, x: Keyed)
    ensures x in Parsed(entries) <==> x.1 in entries && ParseSealedSeq(x.1) == Some(x.0)
  {
    if entries != [] {
      var init := entries[..|entries| - 1];
      assert entries == init + [entries[|entries| - 1]];
      ParsedMembers(init, x);
    }
  }

  lemma {:induction false} ParsedOnce(entries: seq<string>, x: Keyed)
    requires forall i, j | 0 <= i < j < |entries| :: entries[i] != entries[j]
    ensures multiset(Parsed(entries))[x] <= 1
  {
    if entries != [] {
      var init := entries[..|entries| - 1];
      assert entries == init + [entries[|entries| - 1]];
      ParsedOnce(init, x);
      ParsedMembers(init, x);
    }
  }

  lemma SortedOnceAscends(segments: seq<Keyed>)
    requires Sorted(segments)
    requires forall x :: multiset(segments)[x] <= 1
    requires forall x, y | x in segments && y in segments && x.0 == y.0 :: x == y
    ensures forall i, j | 0 <= i < j < |segments| :: segments[i].0 < segments[j].0
  {
    forall i, j | 0 <= i < j < |segments| ensures segments[i].0 < segments[j].0 {
      CountedOnceIsApart(segments, i, j);
    }
  }

  /** The listing replays segments in the order they were sealed: strictly
      ascending numbers, each sealed file once and nothing else. */
  lemma ReplayOrderIsSealOrder(entries: seq<string>, base: string, keys: set<nat>, segments: seq<Keyed>)
    requires Lists(entries, base, keys)
    requires Sorted(segments) && multiset(segments) == multiset(Parsed(entries))
    ensures forall i, j | 0 <= i < j < |segments| :: segments[i].0 < segments[j].0
    ensures forall i | 0 <= i < |segments| :: segments[i].0 in keys && segments[i].1 == SealedName(base, segments[i].0)
    ensures forall k | k in keys :: (k, SealedName(base, k)) in segments
  {
    forall x ensures multiset(segments)[x] <= 1 {
      ParsedOnce(entries, x);
    }
    forall x | x in segments ensures x.0 in keys && x.1 == SealedName(base, x.0) {
      assert x in multiset(Parsed(entries));
      ParsedMembers(entries, x);
      var k :| k in keys && x.1 == SealedName(base, k);
      SealedNameParses(base, k);
    }
    forall k | k in keys ensures (k, SealedName(base, k)) in segments {
      SealedNameParses(base, k);
      ParsedMembers(entries, (k, SealedName(base, k)));
      assert (k, SealedName(base, k)) in multiset(segments);
    }
    SortedOnceAscends(segments);
  }

  /** So the numbers are the listing `WalState::open` needs. */
  lemma OpenReadsTheListing(entries: seq<string>, base: string, files: map<nat, WritePath.Segment>,
                            segments: seq<Keyed>)
    requires Lists(entries, base, files.Keys)
    requires Sorted(segments) && multiset(segments) == multiset(Parsed(entries))
    ensures WalWorker.ListingOf(files, seq(|segments|, i requires 0 <= i < |segments| => segments[i].0))
  {
    hide SealedName, Lists, Sorted, Parsed;
    ReplayOrderIsSealOrder(entries, base, files.Keys, segments);
    var listing := seq(|segments|, i requires 0 <= i < |segments| => segments[i].0);
    forall k | k in files ensures k in listing {
      var i :| 0 <= i < |segments| && segments[i] == (k, SealedName(base, k));
      assert listing[i] == k;
    }
  }

  /** A sealed segment's name carries its number in six digits. */
  lemma SealedNamesLookLike()
    ensures SealedName("current.wal", 7) == "sealed-000007-current.wal"
  {
    PaddedLookLike();
    hide Padded;
    assert SEALED_PREFIX + "000007" + "-" + "current.wal" == "sealed-000007-current.wal";
  }
}
