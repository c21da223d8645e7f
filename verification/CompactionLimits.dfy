/** The two situations in which `recover_partition` shows wrong rows, with the exact condition for each. */
module CompactionLimits {
  import opened Seqs
  import opened Records
  import opened Directories
  import opened Compaction
  import opened CompactionSafety

  /** Every hidden chunk in `d` is empty. */
  ghost predicate HiddenAreEmpty(d: Directory) {
    forall n | n in d && HasSuffix(n, SUPERSEDED_SUFFIX) :: d[n].rows == []
  }

  lemma NothingAdded(a: multiset<LogRecord>, b: multiset<LogRecord>, c: multiset<LogRecord>)
    requires a == b + c
    ensures a == b <==> c == multiset{}
  {
    assert forall r :: a[r] == b[r] + c[r];
  }

  /** What a hidden chunk holds is what its source held. */
  lemma HiddenRows(base: Directory, m: Plan, d: Directory, moved: set<string>)
    requires Planned(base, m) && moved <= Elements(m.files) && Laid(base, d, moved, AsideOf(m.files), {})
    ensures HiddenAreEmpty(d) <==> RowsIn(base, moved) == multiset{}
  {
    AsideIsGood(base, m);
    NoRowsIn(base, moved);
    hide RowsOf, RowsIn, Hidden, HasSuffix, IsParquet, Stem, Laid;
    AsideEmpty(base, d, moved, AsideOf(m.files), WithSuffix(SUPERSEDED_SUFFIX));
  }

  // -------------------------------------------------- an interrupted rollback

  /** Recovery that finds hidden chunks and no `.part` deletes them: their rows are gone. */
  lemma CleanupForgets(base: Directory, m: Plan, d: Directory, moved: set<string>, listing: seq<string>)
    requires Planned(base, m) && moved <= Elements(m.files) && Laid(base, d, moved, AsideOf(m.files), {})
    requires Enumerates(listing, d)
    ensures Visible(base) == Visible(ApplyAll(d, RecoverOps(listing))) + RowsIn(base, moved)
  {
    FoundWithoutPart(base, m, d, moved, listing);
    AsideIsGood(base, m);
    var hidden, aside := Select(listing, SUPERSEDED_SUFFIX), AsideOf(m.files);
    hide RowsOf, RowsIn, Hidden, HasSuffix, IsParquet, Stem, Laid, Select, Clean;
    DeleteAll(d, hidden);
    var e := d - Elements(hidden);
    DropAside(base, d, moved, aside, {}, Elements(hidden));
    LaidMatches(base, e, moved, aside, {} + Elements(hidden), IsParquet);
    var names := Published(base) - moved;
    LaidKeepsRows(base, e, moved, aside, {} + Elements(hidden), names);
    RowsInSplit(base, Published(base), moved);
  }

  lemma FoundWithoutPart(base: Directory, m: Plan, d: Directory, moved: set<string>, listing: seq<string>)
    requires Planned(base, m) && moved <= Elements(m.files) && Laid(base, d, moved, AsideOf(m.files), {})
    requires Enumerates(listing, d)
    ensures Select(listing, PART_SUFFIX) == []
    ensures Elements(Select(listing, SUPERSEDED_SUFFIX)) == Image(moved, AsideOf(m.files))
  {
    AsideIsGood(base, m);
    SelectMatches(listing, d, PART_SUFFIX);
    SelectMatches(listing, d, SUPERSEDED_SUFFIX);
    hide Hidden, HasSuffix, IsParquet, RowsOf, Stem, Laid, Select;
    LaidFinds(base, d, moved, AsideOf(m.files), {}, WithSuffix(PART_SUFFIX), false);
    LaidFinds(base, d, moved, AsideOf(m.files), {}, WithSuffix(SUPERSEDED_SUFFIX), true);
    NoElements(Select(listing, PART_SUFFIX));
  }

  /** The first `j >= 1` operations of a rollback: the `.part` is gone and some sources are still hidden. */
  lemma RollbackPrefix(s: Merging, m: Plan, k: nat, listing: seq<string>, j: nat) returns (moved: set<string>)
    requires Planned(s.base, m) && k <= |m.files| && HidingPhase(s, m, k) && Enumerates(listing, s.dir)
    requires 1 <= j <= |RecoverOps(listing)|
    ensures moved <= Elements(m.files)
    ensures Laid(s.base, ApplyAll(s.dir, RecoverOps(listing)[..j]), moved, AsideOf(m.files), {})
  {
    AsideIsGood(s.base, m);
    FoundWhileHiding(s, m, k, listing);
    SourcesSoFar(m, k);
    hide Hidden, HasSuffix, IsParquet, RowsOf, Stem, Laid, Select, Stems, Clean, Planned, Elements, GoodAside,
      NamesAside;
    var hidden := Select(listing, SUPERSEDED_SUFFIX);
    moved := Elements(m.files[..k]) - Elements(Stems(hidden)[..j - 1]);
    RestorePrefix(s.base, s.dir, m.part, Elements(m.files[..k]), AsideOf(m.files), hidden, Stems(hidden), j);
  }

  lemma SourcesSoFar(m: Plan, k: nat)
    requires k <= |m.files|
    ensures Elements(m.files[..k]) <= Elements(m.files)
  {
  }

  lemma CutShort(s: Merging, m: Plan, k: nat, listing: seq<string>, j: nat, again: seq<string>)
    requires Planned(s.base, m) && k <= |m.files| && HidingPhase(s, m, k) && Enumerates(listing, s.dir)
    requires 1 <= j <= |RecoverOps(listing)| && Enumerates(again, ApplyAll(s.dir, RecoverOps(listing)[..j]))
    ensures var cut := ApplyAll(s.dir, RecoverOps(listing)[..j]);
            Visible(ApplyAll(cut, RecoverOps(again))) == Visible(s.base) <==> HiddenAreEmpty(cut)
  {
    hide *;
    var cut := ApplyAll(s.dir, RecoverOps(listing)[..j]);
    var moved := RollbackPrefix(s, m, k, listing, j);
    CleanupForgets(s.base, m, cut, moved, again);
    HiddenRows(s.base, m, cut, moved);
    NothingAdded(Visible(s.base), Visible(ApplyAll(cut, RecoverOps(again))), RowsIn(s.base, moved));
  }

  /** A rollback that crashes after `j` operations, followed by a completed
      recovery, shows the right rows exactly when it had not started or no hidden
      chunk left behind held rows: without the `.part`, the second pass takes the
      merge for a published one and deletes what the first had yet to restore. */
  lemma InterruptedRollback(start: Directory, m: Plan, acts: seq<Act>, listing: seq<string>, j: nat, again: seq<string>)
    requires Planned(start, m) && Legal(Begin(start), m, acts)
    requires 1 <= Exec(Begin(start), m, acts).pc <= |m.files| + 2
    requires Enumerates(listing, Exec(Begin(start), m, acts).dir) && j <= |RecoverOps(listing)|
    requires Enumerates(again, ApplyAll(Exec(Begin(start), m, acts).dir, RecoverOps(listing)[..j]))
    ensures var s := Exec(Begin(start), m, acts);
            var cut := ApplyAll(s.dir, RecoverOps(listing)[..j]);
            Visible(ApplyAll(cut, RecoverOps(again))) == Visible(s.base) <==> j == 0 || HiddenAreEmpty(cut)
  {
    RunKeepsPhase(Begin(start), m, acts);
    var s := Exec(Begin(start), m, acts);
    var k := Max(s.pc - 2, 0);
    assert Planned(s.base, m) && k <= |m.files| && HidingPhase(s, m, k) by {
      hide Planned, HidingPhase, PublishedPhase, GoneBy, Ops, Exec, Legal;
    }
    hide *;
    if j == 0 {
      assert RecoverOps(listing)[..0] == [];
      NoOps(s.dir);
      RollbackRestores(s, m, k, again);
    } else {
      CutShort(s, m, k, listing, j, again);
    }
  }

  lemma NoOps(d: Directory)
    ensures ApplyAll(d, []) == d
  {
  }

  // ------------------------------------------- a chunk being flushed meanwhile

  /** What a rollback makes of a merge that was already published. */
  function Undone(s: Merging, m: Plan, gone: set<string>): Directory {
    Undoing(s.base, AsideOf(m.files), gone, m.final, m.merged)
  }

  /** Seen from there, exactly the sources not yet removed are aside. */
  lemma PublishedAsLaid(s: Merging, m: Plan, gone: set<string>)
    requires Planned(s.base, m) && PublishedPhase(s, m, gone)
    ensures var left, aside := Left(AsideOf(m.files), gone), AsideLeft(AsideOf(m.files), gone);
            GoodAside(Undone(s, m, gone), aside) && Laid(Undone(s, m, gone), s.dir, left, aside, {})
  {
    AsideIsGood(s.base, m);
    FinalIsNew(s.base, m);
    hide Hidden, HasSuffix, IsParquet, RowsOf, Stem, Clean, Laid, GoodAside;
    assert Elements(m.files) == AsideOf(m.files).Keys;
    LaidAfterUndo(s.base, s.dir, AsideOf(m.files), gone, m.final, m.merged);
  }

  lemma NamesOfUndone(s: Merging, m: Plan, gone: set<string>)
    requires Planned(s.base, m)
    ensures forall n | n in Undone(s, m, gone) :: !HasSuffix(n, PART_SUFFIX) && !HasSuffix(n, SUPERSEDED_SUFFIX)
    ensures forall f | f in Left(AsideOf(m.files), gone) :: var n := AsideLeft(AsideOf(m.files), gone)[f];
              !HasSuffix(n, PART_SUFFIX) && HasSuffix(n, SUPERSEDED_SUFFIX) && Stem(n) == f
  {
    AsideIsGood(s.base, m);
    ParquetName(m.final);
    hide Hidden, HasSuffix, IsParquet, RowsOf, Stem;
  }

  /** With flushers' `.part` files there, recovery of a published merge restores the sources not yet removed. */
  lemma RollbackOfPublished(s: Merging, m: Plan, gone: set<string>, parts: Directory, listing: seq<string>)
    requires Planned(s.base, m) && PublishedPhase(s, m, gone)
    requires AreParts(parts, s.dir) && parts != map[] && Enumerates(listing, s.dir + parts)
    ensures ApplyAll(s.dir + parts, RecoverOps(listing)) == Undone(s, m, gone)
  {
    PublishedAsLaid(s, m, gone);
    NamesOfUndone(s, m, gone);
    hide *;
    RollbackBeside(Undone(s, m, gone), s.dir, Left(AsideOf(m.files), gone), AsideLeft(AsideOf(m.files), gone), parts,
                   listing);
  }

  /** Its scan shows the rows of those sources twice. */
  lemma UndoneRows(s: Merging, m: Plan, gone: set<string>)
    requires Planned(s.base, m) && PublishedPhase(s, m, gone)
    ensures Visible(Undone(s, m, gone)) == Visible(s.base) + RowsIn(s.base, Left(AsideOf(m.files), gone))
  {
    PublishedOfUndone(s, m, gone);
    RowsOfIsBag(s.base, m.files);
    hide Hidden, HasSuffix, IsParquet, RowsOf, Stem, Clean, Laid, PublishedPhase, Matching, RowsIn, Published;
    var aside := AsideOf(m.files);
    assert Elements(m.files) == aside.Keys;
    UndoingRows(s.base, aside, gone, m.final, m.merged, Published(s.base));
    Cancel(Visible(Undone(s, m, gone)), RowsIn(s.base, aside.Keys),
           Visible(s.base) + RowsIn(s.base, Left(aside, gone)));
  }

  lemma Cancel(a: multiset<LogRecord>, b: multiset<LogRecord>, c: multiset<LogRecord>)
    requires a + b == c + b
    ensures a == c
  {
    assert forall r :: (a + b)[r] == a[r] + b[r] && (c + b)[r] == c[r] + b[r];
  }

  lemma PublishedOfUndone(s: Merging, m: Plan, gone: set<string>)
    requires Planned(s.base, m)
    ensures Published(Undone(s, m, gone))
            == Published(s.base) - (AsideOf(m.files).Keys - Left(AsideOf(m.files), gone)) + {m.final}
    ensures AsideOf(m.files).Keys <= Published(s.base)
  {
    hide Hidden, HasSuffix, IsParquet, RowsOf, Stem, Clean;
  }

  /** If half-written `.part` files of flushers are there when recovery lists a
      published merge, the scan is right exactly when no hidden chunk still there
      holds rows: the pass takes them for an unpublished merge and restores what it
      should delete. */
  lemma ForeignParts(start: Directory, m: Plan, acts: seq<Act>, parts: Directory, listing: seq<string>)
    requires Planned(start, m) && Legal(Begin(start), m, acts)
    requires |m.files| + 3 <= Exec(Begin(start), m, acts).pc
    requires AreParts(parts, Exec(Begin(start), m, acts).dir) && parts != map[]
    requires Enumerates(listing, Exec(Begin(start), m, acts).dir + parts)
    ensures var s := Exec(Begin(start), m, acts);
            Visible(ApplyAll(s.dir + parts, RecoverOps(listing))) == Visible(s.base) <==> HiddenAreEmpty(s.dir)
  {
    RunKeepsPhase(Begin(start), m, acts);
    hide *;
    ForeignPartsFrom(Exec(Begin(start), m, acts), m, parts, listing);
  }

  lemma ForeignPartsFrom(s: Merging, m: Plan, parts: Directory, listing: seq<string>)
    requires Phase(s, m) && |m.files| + 3 <= s.pc
    requires AreParts(parts, s.dir) && parts != map[] && Enumerates(listing, s.dir + parts)
    ensures var r := ApplyAll(s.dir + parts, RecoverOps(listing));
            Clean(r) && (Visible(r) == Visible(s.base) <==> HiddenAreEmpty(s.dir))
  {
    DeletingPhase(s, m);
    var gone := GoneBy(m, s.pc);
    NamesOfUndone(s, m, gone);
    hide Visible, Planned, Laid, RecoverOps, GoneBy, HidingPhase, PublishedPhase, HiddenAreEmpty, Enumerates, AreParts,
      Undone, Left, AsideLeft, AsideOf, HasSuffix;
    RollbackOfPublished(s, m, gone, parts, listing);
    UndoneRows(s, m, gone);
    LeftoverRows(s, m, gone);
    NothingAdded(Visible(Undone(s, m, gone)), Visible(s.base), RowsIn(s.base, Left(AsideOf(m.files), gone)));
  }

  lemma LeftoverRows(s: Merging, m: Plan, gone: set<string>)
    requires Planned(s.base, m) && PublishedPhase(s, m, gone)
    ensures HiddenAreEmpty(s.dir) <==> RowsIn(s.base, Left(AsideOf(m.files), gone)) == multiset{}
  {
    var left, aside, u := Left(AsideOf(m.files), gone), AsideLeft(AsideOf(m.files), gone), Undone(s, m, gone);
    PublishedAsLaid(s, m, gone);
    NamesOfUndone(s, m, gone);
    NoRowsIn(s.base, left);
    KeptInUndone(s, m, gone);
    hide Hidden, HasSuffix, IsParquet, RowsOf, Stem, Laid, Planned, PublishedPhase, Undone, GoodAside, RowsIn,
        RowsAt, Left, AsideLeft;
    AsideEmpty(u, s.dir, left, aside, WithSuffix(SUPERSEDED_SUFFIX));
  }

  lemma KeptInUndone(s: Merging, m: Plan, gone: set<string>)
    requires Planned(s.base, m)
    ensures var left := Left(AsideOf(m.files), gone);
            && left <= Undone(s, m, gone).Keys && left <= AsideLeft(AsideOf(m.files), gone).Keys
            && forall f | f in left :: RowsAt(Undone(s, m, gone), f) == RowsAt(s.base, f)
  {
    hide Hidden, HasSuffix, IsParquet, RowsOf, Stem, Clean;
  }
}
