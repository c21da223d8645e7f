/** `Compactor` at work on one partition directory: the loops that list, rename and delete. */
module Compactor {
  import opened Seqs
  import opened Records
  import opened Sorting
  import opened Directories
  import opened Compaction
  import opened CompactionSafety
  import opened MergeSizes

  /** `min_timestamp`: none for a chunk without rows. */
  function FirstTimestamp(rows: seq<LogRecord>): Option<int> {
    if rows == [] then None
    else
      match FirstTimestamp(rows[1..])
      case None => Some(rows[0].timestampUs)
      case Some(t) => Some(Min(rows[0].timestampUs, t))
  }

  type Keyed = (Option<int>, string)

  /** The comparison of `sort_by_first_timestamp`: chunks without a timestamp last, names break ties. */
  predicate NotAfter(a: Keyed, b: Keyed) {
    match (a.0, b.0)
    case (Some(x), Some(y)) => x < y || (x == y && StringLe(a.1, b.1))
    case (Some(_), None) => true
    case (None, Some(_)) => false
    case (None, None) => StringLe(a.1, b.1)
  }

  lemma NotAfterIsTotal()
    ensures Total(NotAfter)
  {
    StringOrder();
    forall a, b ensures NotAfter(a, b) || NotAfter(b, a) {
      StringLeTotal(a.1, b.1);
    }
    forall a, b, c | NotAfter(a, b) && NotAfter(b, c) ensures NotAfter(a, c) {
      if StringLe(a.1, b.1) && StringLe(b.1, c.1) {
        StringLeTransitive(a.1, b.1, c.1);
      }
    }
  }

  function KeyOf(d: Directory, name: string): Keyed {
    (if name in d then FirstTimestamp(d[name].rows) else None, name)
  }

  function ChunkOrder(d: Directory): (string, string) -> bool {
    (a: string, b: string) => NotAfter(KeyOf(d, a), KeyOf(d, b))
  }

  lemma ChunkOrderIsTotal(d: Directory)
    ensures Total(ChunkOrder(d))
  {
    NotAfterIsTotal();
    hide NotAfter, KeyOf;
    var le := ChunkOrder(d);
    assert forall a, b :: le(a, b) == NotAfter(KeyOf(d, a), KeyOf(d, b));
  }

  /** A published chunk below the target size. */
  predicate Mergeable(d: Directory, target: nat, name: string) {
    name in d && IsParquet(name) && d[name].bytes < target
  }

  /** `files` are exactly the mergeable chunks, each once, by first timestamp. */
  ghost predicate InMergeOrder(d: Directory, target: nat, files: seq<string>) {
    && TakesTheSmall(d, target, files)
    && Ascending(files, ChunkOrder(d))
  }

  lemma {:induction false} FirstTimestampIs(rows: seq<LogRecord>)
    ensures FirstTimestamp(rows).None? <==> rows == []
    ensures FirstTimestamp(rows).Some? ==>
              && (forall r | r in rows :: FirstTimestamp(rows).value <= r.timestampUs)
              && exists r :: r in rows && r.timestampUs == FirstTimestamp(rows).value
  {
    if rows != [] {
      FirstTimestampIs(rows[1..]);
      assert rows == [rows[0]] + rows[1..] && rows[0] in rows;
      if rows[1..] != [] {
        var r :| r in rows[1..] && r.timestampUs == FirstTimestamp(rows[1..]).value;
        assert r in rows;
      }
    }
  }

  /** No chunk of `rows` begins before one of `earlier` does. */
  ghost predicate BeginsNoLater(earlier: seq<LogRecord>, rows: seq<LogRecord>) {
    exists r :: r in earlier && forall q | q in rows :: r.timestampUs <= q.timestampUs
  }

  /** In merge order a chunk begins no later than the next ones, chunks without rows come
      last, and chunks that begin at the same time, or have no rows, go by name. */
  lemma MergeOrderIsByTime(d: Directory, target: nat, files: seq<string>, i: nat, j: nat)
    requires InMergeOrder(d, target, files) && i < j < |files|
    ensures files[i] in d && files[j] in d
    ensures d[files[j]].rows != [] ==> BeginsNoLater(d[files[i]].rows, d[files[j]].rows)
    ensures d[files[i]].rows == [] || BeginsNoLater(d[files[j]].rows, d[files[i]].rows) ==> StringLe(files[i], files[j])
  {
    assert files[i] in files && files[j] in files;
    var a, b := d[files[i]].rows, d[files[j]].rows;
    FirstTimestampIs(a);
    FirstTimestampIs(b);
    assert ChunkOrder(d)(files[i], files[j]);
    hide FirstTimestamp, IsParquet, StringLe;
    if BeginsNoLater(b, a) && a != [] {
      var r :| r in b && forall q | q in a :: r.timestampUs <= q.timestampUs;
    }
  }

  lemma {:induction false} SelectAppend(a: seq<string>, b: seq<string>, suffix: string)
    ensures Select(a + b, suffix) == Select(a, suffix) + Select(b, suffix)
  {
    hide HasSuffix;
    if a == [] {
      assert a + b == b;
      assert Select(a, suffix) + Select(b, suffix) == Select(b, suffix);
    } else {
      assert (a + b)[0] == a[0] && (a + b)[1..] == a[1..] + b;
      SelectAppend(a[1..], b, suffix);
      Assoc(if HasSuffix(a[0], suffix) then [a[0]] else [], Select(a[1..], suffix), Select(b, suffix));
    }
  }

  lemma SelectNext(listing: seq<string>, i: nat, suffix: string)
    requires i < |listing|
    ensures Select(listing[..i + 1], suffix)
            == Select(listing[..i], suffix) + (if HasSuffix(listing[i], suffix) then [listing[i]] else [])
  {
    hide HasSuffix;
    assert listing[..i + 1] == listing[..i] + [listing[i]];
    SelectAppend(listing[..i], [listing[i]], suffix);
    assert [listing[i]][1..] == [];
  }

  lemma OneSuffix(name: string)
    ensures !(HasSuffix(name, PART_SUFFIX) && HasSuffix(name, SUPERSEDED_SUFFIX))
  {
  }

  lemma SuffixIsNotParquet(name: string)
    ensures IsParquet(name) ==> !HasSuffix(name, PART_SUFFIX) && !HasSuffix(name, SUPERSEDED_SUFFIX)
  {
  }

  lemma {:induction false} RemovedAppend(a: seq<string>, b: seq<string>, stuck: set<string>)
    ensures Removed(a + b, stuck) == Removed(a, stuck) + Removed(b, stuck)
  {
    if a == [] {
      assert a + b == b;
    } else {
      hide Hidden;
      assert (a + b)[0] == a[0] && (a + b)[1..] == a[1..] + b;
      RemovedAppend(a[1..], b, stuck);
    }
  }

  lemma RemovedNext(files: seq<string>, i: nat, stuck: set<string>)
    requires i < |files|
    ensures var before := Removed(files[..i], stuck);
            var here := if Hidden(files[i]) in stuck then [] else [Hidden(files[i])];
            && Removed(files[..i + 1], stuck) == before + here
            && Removed(files, stuck) == before + here + Removed(files[i + 1..], stuck)
  {
    hide Hidden;
    assert files[..i + 1] == files[..i] + [files[i]];
    assert files == files[..i + 1] + files[i + 1..];
    RemovedAppend(files[..i], [files[i]], stuck);
    RemovedAppend(files[..i + 1], files[i + 1..], stuck);
    assert [files[i]][1..] == [];
  }

  lemma {:induction false} RowsOfAppend(d: Directory, a: seq<string>, b: seq<string>)
    requires forall f | f in a + b :: f in d
    ensures RowsOf(d, a + b) == RowsOf(d, a) + RowsOf(d, b)
  {
    if a == [] {
      assert a + b == b;
    } else {
      assert (a + b)[0] == a[0] && (a + b)[1..] == a[1..] + b;
      RowsOfAppend(d, a[1..], b);
    }
  }

  lemma RowsOfNext(d: Directory, files: seq<string>, i: nat)
    requires i < |files| && forall f | f in files :: f in d
    ensures RowsOf(d, files[..i + 1]) == RowsOf(d, files[..i]) + d[files[i]].rows
  {
    assert files[..i + 1] == files[..i] + [files[i]];
    RowsOfAppend(d, files[..i], [files[i]]);
    assert [files[i]][1..] == [];
  }

  function Chosen(d: Directory, target: nat, entries: seq<string>): seq<string> {
    if entries == [] then []
    else
      var rest := Chosen(d, target, entries[..|entries| - 1]);
      if Mergeable(d, target, entries[|entries| - 1]) then rest + [entries[|entries| - 1]] else rest
  }

  lemma ChosenNext(d: Directory, target: nat, entries: seq<string>, i: nat)
    requires i < |entries|
    ensures Chosen(d, target, entries[..i + 1])
            == Chosen(d, target, entries[..i]) + (if Mergeable(d, target, entries[i]) then [entries[i]] else [])
  {
    assert entries[..i + 1][..i] == entries[..i];
  }

  predicate FoundLeftover(entries: seq<string>) {
    exists n | n in entries :: HasSuffix(n, PART_SUFFIX) || HasSuffix(n, SUPERSEDED_SUFFIX)
  }

  lemma FoundNext(entries: seq<string>, i: nat)
    requires i < |entries|
    ensures FoundLeftover(entries[..i + 1])
            <==> (FoundLeftover(entries[..i])
                  || HasSuffix(entries[i], PART_SUFFIX) || HasSuffix(entries[i], SUPERSEDED_SUFFIX))
  {
    hide HasSuffix;
    assert entries[..i + 1] == entries[..i] + [entries[i]];
  }

  lemma LeftoversAre(d: Directory, entries: seq<string>)
    requires forall n :: n in d <==> n in entries
    ensures FoundLeftover(entries) <==> NeedsRecovery(d)
    ensures !FoundLeftover(entries[..0])
  {
    hide HasSuffix;
  }

  lemma {:induction false} ChosenMembers(d: Directory, target: nat, entries: seq<string>)
    requires Distinct(entries)
    ensures Distinct(Chosen(d, target, entries))
    ensures forall n :: n in Chosen(d, target, entries) <==> n in entries && Mergeable(d, target, n)
  {
    if entries != [] {
      hide Mergeable;
      var init := entries[..|entries| - 1];
      assert entries == init + [entries[|entries| - 1]];
      ChosenMembers(d, target, init);
    }
  }

  lemma SortedChosen(d: Directory, target: nat, entries: seq<string>)
    requires Enumerates(entries, d)
    ensures InMergeOrder(d, target, SortBy(Chosen(d, target, entries), ChunkOrder(d)))
  {
    var candidates := Chosen(d, target, entries);
    ChosenMembers(d, target, entries);
    ChunkOrderIsTotal(d);
    hide IsParquet, ChunkOrder, Total, Ascending, Chosen;
    SortByAscends(candidates, ChunkOrder(d));
    PermutationKeeps(candidates, SortBy(candidates, ChunkOrder(d)));
    assert forall n | n in d :: n in Elements(entries);
  }

  /** The walk counts the chunks below the target. */
  lemma ChosenCount(d: Directory, target: nat, entries: seq<string>)
    requires Enumerates(entries, d)
    ensures |Chosen(d, target, entries)| == |set n | n in d && IsParquet(n) && d[n].bytes < target|
  {
    ChosenMembers(d, target, entries);
    hide IsParquet, Chosen;
    assert forall n | n in d :: n in Elements(entries);
    SmallCount(d, target, Chosen(d, target, entries));
  }

  lemma LeftoverNames(d: Directory, stem: string)
    requires stem != []
    ensures stem + ".part" in d || stem + ".superseded" in d ==> NeedsRecovery(d)
  {
    ExtensionOf(stem, "part");
    ExtensionOf(stem, "superseded");
    assert stem + "." + "part" == stem + ".part" && stem + "." + "superseded" == stem + ".superseded";
    hide Extension, Stem;
  }

  lemma RecoverOpsAre(listing: seq<string>)
    ensures var parts, hidden, ops := Select(listing, PART_SUFFIX), Select(listing,
                                             SUPERSEDED_SUFFIX), RecoverOps(listing);
            && |ops| == |parts| + |hidden|
            && (forall i | 0 <= i < |parts| :: ops[i] == Delete(parts[i]))
            && (forall i {:trigger hidden[i]} | 0 <= i < |hidden| ::
                  ops[|parts| + i] == if parts != [] then Rename(hidden[i], Stem(hidden[i])) else Delete(hidden[i]))
  {
    hide Select, Stem;
  }

  /** The directory after the operations that `left` allows of `ops`. */
  function CutAt(d: Directory, ops: seq<Op<string>>, left: nat): Directory {
    ApplyAll(d, ops[..Min(left, |ops|)])
  }

  function FinalName(id: string): string {
    "compacted_" + id + "." + "parquet"
  }

  function PartName(id: string): string {
    FinalName(id) + "." + PART_SUFFIX
  }

  lemma MergeNamesLookLike()
    ensures FinalName("7f") == "compacted_7f.parquet" && PartName("7f") == "compacted_7f.parquet.part"
    ensures Hidden("chunk_5.parquet") == "chunk_5.parquet.superseded"
  {
  }

  lemma NamesOfMerge(id: string)
    ensures IsParquet(FinalName(id)) && HasSuffix(PartName(id), PART_SUFFIX) && !IsParquet(PartName(id))
  {
    ExtensionOf("compacted_" + id, "parquet");
    ExtensionOf(FinalName(id), PART_SUFFIX);
    hide Extension, Stem;
  }

  lemma SourcesAreParquet(d: Directory, target: nat, files: seq<string>, id: string)
    requires InMergeOrder(d, target, files)
    ensures forall f | f in files :: f in d && IsParquet(f) && f != PartName(id)
  {
    NamesOfMerge(id);
    hide IsParquet, PartName, ChunkOrder;
  }

  lemma MergeIsPlanned(d: Directory, target: nat, id: string, m: Plan)
    requires InMergeOrder(d, target, m.files) && m.part == PartName(id) && m.final == FinalName(id)
    requires (forall f | f in m.files :: f in d) && m.merged.rows == RowsOf(d, m.files)
    ensures Clean(d) && FinalName(id) !in d ==> Planned(d, m)
  {
    NamesOfMerge(id);
    hide IsParquet, HasSuffix, PartName, FinalName, ChunkOrder;
  }

  lemma MergeOpsAre(m: Plan)
    ensures var n, ops, removed := |m.files|, Ops(m), Removed(m.files, m.stuck);
            && |ops| == n + 3 + |removed|
            && (forall i {:trigger m.files[i]} | 0 <= i < n :: ops[2 + i] == Rename(m.files[i], Hidden(m.files[i])))
            && ops[n + 2] == Rename(m.part, m.final)
            && (forall i {:trigger removed[i]} | 0 <= i < |removed| :: ops[n + 3 + i] == Delete(removed[i]))
  {
    hide Hidden, Removed;
  }

  lemma HiddensAre(files: seq<string>)
    ensures |Hiddens(files)| == |files| && forall i | 0 <= i < |files| :: Hiddens(files)[i] == Hidden(files[i])
  {
  }

  lemma NoneRemoved(files: seq<string>, stuck: set<string>)
    ensures Removed(files[..0], stuck) == []
  {
  }

  lemma RemovedAt(files: seq<string>, i: nat, stuck: set<string>)
    requires i < |files|
    ensures var k := |Removed(files[..i], stuck)|;
            if Hidden(files[i]) in stuck then Removed(files[..i + 1], stuck) == Removed(files[..i], stuck)
            else k < |Removed(files, stuck)| && Removed(files, stuck)[k] == Hidden(files[i])
                 && |Removed(files[..i + 1], stuck)| == k + 1
  {
    RemovedNext(files, i, stuck);
    hide Hidden, Removed;
  }

  class Partition {
    var dir: Directory
    /** File operations until the next fault: an error return, or the process dying. */
    var left: nat

    constructor (d: Directory, budget: nat)
      ensures dir == d && left == budget
    {
      dir, left := d, budget;
    }

    /** `i` of `ops` are done, started on `d` with `budget` operations left. */
    ghost predicate Done(d: Directory, budget: nat, ops: seq<Op<string>>, i: nat)
      reads this
    {
      i <= |ops| && i <= budget && dir == ApplyAll(d, ops[..i]) && left == budget - i
    }

    /** All of `ops` are done, or as many as the budget allowed. */
    ghost predicate Ran(d: Directory, budget: nat, ops: seq<Op<string>>)
      reads this
    {
      dir == CutAt(d, ops, budget) && left == budget - Min(budget, |ops|)
    }

    /** One file operation. */
    method Perform(op: Op<string>, ghost d: Directory, ghost budget: nat, ghost ops: seq<Op<string>>, ghost i: nat)
      returns (ok: bool)
      requires Done(d, budget, ops, i) && i < |ops| && ops[i] == op
      modifies this
      ensures ok == (i < budget)
      ensures if ok then Done(d, budget, ops, i + 1) else Ran(d, budget, ops)
    {
      ok := left > 0;
      if ok {
        ApplyPrefixNext(d, ops, i);
        dir, left := Apply(dir, op), left - 1;
      }
    }

    /** `read_dir`, in no particular order. */
    method ReadDir() returns (listing: seq<string>)
      ensures Enumerates(listing, dir)
    {
      listing := Enumerate(dir.Keys);
    }

    /** What `walk_for_partitions` decides about one directory: there is something
        to clean up, or enough to merge. */
    method NeedsSweep(target: nat, maxFiles: nat) returns (picked: bool)
      ensures picked <==> (NeedsRecovery(dir)
                           || maxFiles < |set n | n in dir && IsParquet(n) && dir[n].bytes < target|)
      ensures forall stem | stem != [] && stem + ".part" in dir :: picked
      ensures forall stem | stem != [] && stem + ".superseded" in dir :: picked
    {
      var entries := ReadDir();
      ghost var d := dir;
      assert forall n :: n in d <==> n in entries by {
        assert forall n :: n in Elements(entries) <==> n in entries;
      }
      LeftoversAre(d, entries);
      hide IsParquet, HasSuffix, InMergeOrder, Chosen, FoundLeftover, NeedsRecovery;
      var needsRecovery, mergeable, i := false, 0, 0;
      while i < |entries|
        invariant i <= |entries|
        invariant needsRecovery <==> FoundLeftover(entries[..i])
        invariant mergeable == |Chosen(d, target, entries[..i])|
      {
        ChosenNext(d, target, entries, i);
        SuffixIsNotParquet(entries[i]);
        FoundNext(entries, i);
        if HasSuffix(entries[i], PART_SUFFIX) || HasSuffix(entries[i], SUPERSEDED_SUFFIX) {
          needsRecovery := true;
        } else if IsParquet(entries[i]) && entries[i] in dir && dir[entries[i]].bytes < target {
          mergeable := mergeable + 1;
        }
        i := i + 1;
      }
      assert entries[..|entries|] == entries;
      ChosenCount(d, target, entries);
      forall stem | stem != [] && (stem + ".part" in d || stem + ".superseded" in d) ensures NeedsRecovery(d) {
        LeftoverNames(d, stem);
      }
      picked := needsRecovery || mergeable > maxFiles;
    }

    method RecoverPartition() returns (ok: bool, ghost listing: seq<string>)
      modifies this
      ensures Enumerates(listing, old(dir))
      ensures Ran(old(dir), old(left), RecoverOps(listing)) && ok == (|RecoverOps(listing)| <= old(left))
    {
      ghost var d, budget := dir, left;
      var entries := ReadDir();
      listing := entries;
      var parts, superseded := SortEntries(entries);
      ghost var ops := RecoverOps(listing);
      RecoverOpsAre(listing);
      hide *;
      Started(d, budget, ops);
      if parts == [] && superseded == [] {
        Finished(d, budget, ops);
        return true, listing;
      }
      var rollingBack := parts != [];
      ok := DiscardParts(parts, d, budget, ops);
      if ok {
        ok := SettleSuperseded(superseded, rollingBack, d, budget, ops, |parts|);
      }
    }

    method DiscardParts(parts: seq<string>, ghost d: Directory, ghost budget: nat, ghost ops: seq<Op<string>>)
      returns (ok: bool)
      requires |parts| <= |ops| && forall i | 0 <= i < |parts| :: ops[i] == Delete(parts[i])
      requires Done(d, budget, ops, 0)
      modifies this
      ensures ok == (|parts| <= budget)
      ensures if ok then Done(d, budget, ops, |parts|) else Ran(d, budget, ops)
    {
      hide *;
      var i := 0;
      while i < |parts|
        invariant i <= |parts| && i <= budget && Done(d, budget, ops, i)
      {
        ok := Perform(Delete(parts[i]), d, budget, ops, i);
        if !ok {
          return;
        }
        i := i + 1;
      }
      ok := true;
    }

    method SettleSuperseded(superseded: seq<string>, rollingBack: bool,
                            ghost d: Directory, ghost budget: nat, ghost ops: seq<Op<string>>, ghost from: nat)
      returns (ok: bool)
      requires |ops| == from + |superseded| && from <= budget
      requires forall i {:trigger superseded[i]} | 0 <= i < |superseded| ::
                 ops[from + i] == if rollingBack then Rename(superseded[i], Stem(superseded[i]))
                     else Delete(superseded[i])
      requires Done(d, budget, ops, from)
      modifies this
      ensures Ran(d, budget, ops) && ok == (|ops| <= budget)
    {
      hide *;
      var i := 0;
      while i < |superseded|
        invariant i <= |superseded| && from + i <= budget && Done(d, budget, ops, from + i)
      {
        if rollingBack {
          ok := Perform(Rename(superseded[i], Stem(superseded[i])), d, budget, ops, from + i);
        } else {
          ok := Perform(Delete(superseded[i]), d, budget, ops, from + i);
        }
        if !ok {
          return;
        }
        i := i + 1;
      }
      Finished(d, budget, ops);
      ok := true;
    }

    lemma Started(d: Directory, budget: nat, ops: seq<Op<string>>)
      requires dir == d && left == budget
      ensures Done(d, budget, ops, 0)
    {
    }

    lemma Finished(d: Directory, budget: nat, ops: seq<Op<string>>)
      requires Done(d, budget, ops, |ops|)
      ensures Ran(d, budget, ops) && |ops| <= budget
    {
    }

    /** The two lists of `recover_partition`. */
    method SortEntries(entries: seq<string>) returns (parts: seq<string>, superseded: seq<string>)
      ensures parts == Select(entries, PART_SUFFIX) && superseded == Select(entries, SUPERSEDED_SUFFIX)
    {
      parts, superseded := [], [];
      var i := 0;
      while i < |entries|
        invariant i <= |entries|
        invariant parts == Select(entries[..i], PART_SUFFIX) && superseded == Select(entries[..i], SUPERSEDED_SUFFIX)
      {
        SelectNext(entries, i, PART_SUFFIX);
        SelectNext(entries, i, SUPERSEDED_SUFFIX);
        OneSuffix(entries[i]);
        if HasSuffix(entries[i], PART_SUFFIX) {
          parts := parts + [entries[i]];
        } else if HasSuffix(entries[i], SUPERSEDED_SUFFIX) {
          superseded := superseded + [entries[i]];
        }
        i := i + 1;
      }
      assert entries[..|entries|] == entries;
    }

    method MergeableFiles(target: nat) returns (files: seq<string>)
      ensures InMergeOrder(dir, target, files)
    {
      var entries := ReadDir();
      var candidates: seq<string> := [];
      ghost var d := dir;
      hide IsParquet, NotAfter, KeyOf, Total;
      var i := 0;
      while i < |entries|
        invariant i <= |entries| && candidates == Chosen(d, target, entries[..i])
      {
        ChosenNext(d, target, entries, i);
        if entries[i] in dir && IsParquet(entries[i]) && dir[entries[i]].bytes < target {
          candidates := candidates + [entries[i]];
        }
        i := i + 1;
      }
      assert entries[..|entries|] == entries;
      files := SortBy(candidates, ChunkOrder(dir));
      SortedChosen(d, target, entries);
    }

    method WriteMerged(files: seq<string>, part: string, partial: File, bytes: nat,
                       ghost m: Plan, ghost d: Directory, ghost budget: nat)
      returns (ok: bool)
      requires forall f | f in files :: f in d && f != part
      requires m.files == files && m.part == part && m.partial == partial && m.merged == File(RowsOf(d, files), bytes)
      requires Done(d, budget, Ops(m), 0)
      modifies this
      ensures ok == (2 <= budget)
      ensures if ok then Done(d, budget, Ops(m), 2) else Ran(d, budget, Ops(m))
    {
      OpsAt(m, 0);
      OpsAt(m, 1);
      assert dir == d;
      ok := Perform(Write(part, partial), d, budget, Ops(m), 0);
      if !ok {
        return;
      }
      assert dir == d[part := partial] by {
        ApplyPrefixNext(d, Ops(m), 0);
      }
      assert Done(d, budget, Ops(m), 1) && RowsOf(d, files[..0]) == [];
      hide *;
      var rows: seq<LogRecord> := [];
      var i := 0;
      while i < |files|
        invariant i <= |files| && rows == RowsOf(d, files[..i])
        invariant dir == d[part := partial] && Done(d, budget, Ops(m), 1)
      {
        RowsOfNext(d, files, i);
        assert files[i] in files && dir[files[i]] == d[files[i]];
        rows := rows + dir[files[i]].rows;
        i := i + 1;
      }
      assert files[..|files|] == files;
      ok := Perform(Write(part, File(rows, bytes)), d, budget, Ops(m), 1);
    }

    method PublishMerged(files: seq<string>, part: string, final: string, stuck: set<string>,
                         ghost m: Plan, ghost d: Directory, ghost budget: nat)
      returns (ok: bool)
      requires m.files == files && m.part == part && m.final == final && m.stuck == stuck
      requires Done(d, budget, Ops(m), 2)
      modifies this
      ensures Ran(d, budget, Ops(m)) && ok == (|Ops(m)| <= budget)
    {
      ghost var ops := Ops(m);
      MergeOpsAre(m);
      hide *;
      var superseded := Hiddens(files);
      HiddensAre(files);
      ok := HideSources(files, superseded, d, budget, ops);
      if !ok {
        return;
      }
      ok := Perform(Rename(part, final), d, budget, ops, |files| + 2);
      if !ok {
        return;
      }
      ok := RemoveSuperseded(files, superseded, stuck, d, budget, ops);
    }

    method HideSources(files: seq<string>, superseded: seq<string>,
                       ghost d: Directory, ghost budget: nat, ghost ops: seq<Op<string>>)
      returns (ok: bool)
      requires |superseded| == |files| && |files| + 2 < |ops|
      requires forall i {:trigger files[i]} | 0 <= i < |files| :: ops[2 + i] == Rename(files[i], superseded[i])
      requires Done(d, budget, ops, 2)
      modifies this
      ensures ok == (|files| + 2 <= budget)
      ensures if ok then Done(d, budget, ops, |files| + 2) else Ran(d, budget, ops)
    {
      StillIn(d, budget, ops, 2);
      hide *;
      var i := 0;
      while i < |files|
        invariant i <= |files| && 2 + i <= budget && Done(d, budget, ops, 2 + i)
      {
        ok := Perform(Rename(files[i], superseded[i]), d, budget, ops, 2 + i);
        if !ok {
          return;
        }
        i := i + 1;
      }
      ok := true;
    }

    /** A hidden chunk that cannot be removed is left for the next sweep. */
    method RemoveSuperseded(files: seq<string>, superseded: seq<string>, stuck: set<string>,
                            ghost d: Directory, ghost budget: nat, ghost ops: seq<Op<string>>)
      returns (ok: bool)
      requires |superseded| == |files| && forall i | 0 <= i < |files| :: superseded[i] == Hidden(files[i])
      requires |ops| == |files| + 3 + |Removed(files, stuck)|
      requires forall i {:trigger Removed(files, stuck)[i]} | 0 <= i < |Removed(files, stuck)| ::
                 ops[|files| + 3 + i] == Delete(Removed(files, stuck)[i])
      requires Done(d, budget, ops, |files| + 3)
      modifies this
      ensures Ran(d, budget, ops) && ok == (|ops| <= budget)
    {
      StillIn(d, budget, ops, |files| + 3);
      hide *;
      NoneRemoved(files, stuck);
      var i := 0;
      ghost var k := 0;
      while i < |files|
        invariant i <= |files| && k == |Removed(files[..i], stuck)|
        invariant |files| + 3 + k <= budget && Done(d, budget, ops, |files| + 3 + k)
      {
        assert superseded[i] == Hidden(files[i]);
        RemovedAt(files, i, stuck);
        ghost var next := |Removed(files[..i + 1], stuck)|;
        if superseded[i] !in stuck {
          assert next == k + 1 && ops[|files| + 3 + k] == Delete(superseded[i]);
          ok := Perform(Delete(superseded[i]), d, budget, ops, |files| + 3 + k);
          if !ok {
            return;
          }
        }
        i, k := i + 1, next;
      }
      assert files[..|files|] == files;
      Finished(d, budget, ops);
      ok := true;
    }

    lemma StillIn(d: Directory, budget: nat, ops: seq<Op<string>>, i: nat)
      requires Done(d, budget, ops, i)
      ensures i <= budget && i <= |ops|
    {
    }

    /** One sweep over the partition. `merged` is the merge it made, if there were
        files enough; `stuck` are the hidden chunks it will fail to remove. */
    method CompactPartition(target: nat, maxFiles: nat, id: string, partial: File, bytes: nat, stuck: set<string>)
      returns (ok: bool, ghost listing: seq<string>, ghost files: seq<string>, ghost merge: Option<Plan>)
      modifies this
      ensures Enumerates(listing, old(dir))
      ensures old(left) < |RecoverOps(listing)| ==> !ok && merge.None? && Ran(old(dir), old(left), RecoverOps(listing))
      ensures |RecoverOps(listing)| <= old(left) ==>
                var r := ApplyAll(old(dir), RecoverOps(listing));
                && InMergeOrder(r, target, files)
                && (merge.Some? <==> maxFiles < |set n | n in r && IsParquet(n) && r[n].bytes < target|)
                && (merge.None? ==> ok && dir == r)
                && (forall n | n in r && IsParquet(n) && r[n].bytes >= target && n != FinalName(id) ::
                      n in dir && dir[n] == r[n])
                && (merge.Some? && Clean(r) && FinalName(id) !in r ==>
                      && merge.value.files == files && Planned(r, merge.value)
                      && Ran(r, old(left) - |RecoverOps(listing)|, Ops(merge.value))
                      && Visible(dir) <= Visible(r)
                      && (ok ==> Visible(dir) == Visible(r)
                                 && OneForTheSmall(r, dir, target, FinalName(id), bytes)
                                 && (bytes == TotalBytes(r, files) ==>
                                       Follows(r, Swept(files, FinalName(id)), dir, target, maxFiles))))
    {
      files, merge := [], None;
      ok, listing := RecoverPartition();
      if !ok {
        return;
      }
      ghost var r, budget := dir, left;
      assert r == ApplyAll(old(dir), RecoverOps(listing)) by {
        WholeRun(old(dir), old(left), RecoverOps(listing));
      }
      assert budget == old(left) - |RecoverOps(listing)|;
      var sources := MergeableFiles(target);
      files := sources;
      assert TakesTheSmall(r, target, sources);
      hide *;
      SmallCount(r, target, sources);
      if |sources| <= maxFiles {
        return;
      }
      var part, final := PartName(id), FinalName(id);
      SourcesAreParquet(r, target, sources, id);
      ghost var m := Plan(sources, part, final, partial, File(RowsOf(r, sources), bytes), stuck);
      merge := Some(m);
      Started(r, budget, Ops(m));
      MergeIsPlanned(r, target, id, m);
      ok := WriteMerged(sources, part, partial, bytes, m, r, budget);
      if ok {
        ok := PublishMerged(sources, part, final, stuck, m, r, budget);
      }
      RanShows(r, budget, m, ok, id);
      RanLeaves(r, budget, m, ok, target, maxFiles, id);
    }

    /** What the sweep leaves of the chunks by their size. */
    lemma RanLeaves(r: Directory, budget: nat, m: Plan, ok: bool, target: nat, maxFiles: nat, id: string)
      requires Ran(r, budget, Ops(m)) && (ok ==> |Ops(m)| <= budget) && InMergeOrder(r, target, m.files)
      requires m.part == PartName(id) && m.final == FinalName(id) && maxFiles < |m.files|
      requires Clean(r) && FinalName(id) !in r ==> Planned(r, m)
      ensures forall n | n in r && IsParquet(n) && r[n].bytes >= target && n != FinalName(id) ::
                n in dir && dir[n] == r[n]
      ensures Clean(r) && FinalName(id) !in r && ok ==>
                OneForTheSmall(r, dir, target, FinalName(id), m.merged.bytes)
      ensures Clean(r) && FinalName(id) !in r && ok && m.merged.bytes == TotalBytes(r, m.files) ==>
                Follows(r, Swept(m.files, FinalName(id)), dir, target, maxFiles)
    {
      NamesOfMerge(id);
      hide Ops, IsParquet, Planned, Clean, FinalName, PartName, OneForTheSmall, HasSuffix, ChunkOrder;
      assert Ops(m)[..|Ops(m)|] == Ops(m);
      forall n | n in r && IsParquet(n) && r[n].bytes >= target && n != FinalName(id)
        ensures n in dir && dir[n] == r[n]
      {
        LargeChunkStays(r, m, target, Min(budget, |Ops(m)|), n);
      }
      if Clean(r) && FinalName(id) !in r && ok {
        MergeLeaves(r, m, target);
      }
    }

    lemma RanShows(r: Directory, budget: nat, m: Plan, ok: bool, id: string)
      requires Ran(r, budget, Ops(m)) && (ok ==> |Ops(m)| <= budget)
      requires Clean(r) && FinalName(id) !in r ==> Planned(r, m)
      ensures Clean(r) && FinalName(id) !in r ==> Visible(dir) <= Visible(r) && (ok ==> Visible(dir) == Visible(r))
    {
      hide Ops, Planned, Visible, Clean;
      if Clean(r) && FinalName(id) !in r {
        CutShows(r, m, Min(budget, |Ops(m)|));
      }
    }

    lemma WholeRun(d: Directory, budget: nat, ops: seq<Op<string>>)
      requires Ran(d, budget, ops) && |ops| <= budget
      ensures dir == ApplyAll(d, ops) && left == budget - |ops|
    {
      assert ops[..|ops|] == ops;
    }
  }
}
