/** One partition over its life: chunks and `.part` files come in, merges run and are cut short, recovery follows. */
module PartitionLife {
  import opened Seqs
  import opened Directories
  import opened Compaction
  import opened CompactionSafety
  import opened StoreRuns
  import CompactionLimits
  import CompactionSweeps

  /** Idle: no merge since the last recovery. Sweeping: a merge under way, finished or
      cut short. `parts` are the `.part` files that flushers have there. */
  datatype Work = Idle(base: Directory, parts: Directory) | Sweeping(m: Plan, s: Merging, parts: Directory)

  /** The directory without them. */
  function Core(w: Work): Directory {
    match w
    case Idle(base, _) => base
    case Sweeping(_, s, _) => s.dir
  }

  function DirNow(w: Work): Directory {
    Core(w) + w.parts
  }

  /** The partition as it should read. */
  function BaseOf(w: Work): Directory {
    match w
    case Idle(base, _) => base
    case Sweeping(_, s, _) => s.base
  }

  ghost predicate Good(w: Work) {
    && AreParts(w.parts, Core(w))
    && match w
       case Idle(base, _) => Clean(base)
       case Sweeping(m, s, parts) => Phase(s, m) && m.partial.rows <= m.merged.rows && m.part !in parts
  }

  /** A chunk name used nowhere in the partition since its last recovery. */
  ghost predicate CanArrive(w: Work, name: string) {
    match w
    case Idle(base, _) => IsParquet(name) && name !in base
    case Sweeping(m, s, _) => Fresh(s, m, name)
  }

  function Arrived(w: Work, name: string, file: File): Work {
    match w
    case Idle(base, parts) => Idle(base[name := file], parts)
    case Sweeping(m, s, parts) => Sweeping(m, Merging(s.dir[name := file], s.base[name := file], s.pc), parts)
  }

  lemma ArrivesBeside<K>(d: map<K, File>, parts: map<K, File>, name: K, file: File)
    requires name !in parts
    ensures d[name := file] + parts == (d + parts)[name := file]
  {
  }

  lemma PartsStay(parts: Directory, d: Directory, name: string, file: File)
    requires AreParts(parts, d) && IsParquet(name)
    ensures name !in parts && AreParts(parts, d[name := file])
  {
    ParquetName(name);
  }

  lemma ArrivesIdle(base: Directory, parts: Directory, name: string, file: File)
    requires Good(Idle(base, parts)) && IsParquet(name)
    ensures Good(Arrived(Idle(base, parts), name, file))
  {
    ParquetName(name);
    PartsStay(parts, base, name, file);
    hide HasSuffix, IsParquet, AreParts;
  }

  lemma ArrivesWhileSweeping(m: Plan, s: Merging, parts: Directory, name: string, file: File)
    requires Good(Sweeping(m, s, parts)) && Fresh(s, m, name) && IsParquet(name)
    ensures Good(Arrived(Sweeping(m, s, parts), name, file))
  {
    PartsStay(parts, s.dir, name, file);
    hide Phase, Fresh, AreParts, IsParquet;
    StepKeepsPhase(s, m, Arrive(name, file));
  }

  lemma IsNew(w: Work, name: string)
    requires CanArrive(w, name)
    ensures IsParquet(name) && name !in BaseOf(w)
  {
  }

  lemma GoodParts(w: Work)
    requires Good(w)
    ensures AreParts(w.parts, Core(w))
  {
    hide AreParts, Phase, Clean;
  }

  lemma ArrivalIsGood(w: Work, name: string, file: File)
    requires Good(w) && CanArrive(w, name)
    ensures Good(Arrived(w, name, file)) && DirNow(Arrived(w, name, file)) == DirNow(w)[name := file]
    ensures Visible(BaseOf(Arrived(w, name, file))) == Visible(BaseOf(w)) + multiset(file.rows)
  {
    IsNew(w, name);
    GoodParts(w);
    PartsStay(w.parts, Core(w), name, file);
    hide Good, Visible, IsParquet, Fresh, AreParts;
    CompactionSweeps.ArriveAddsItsRows(BaseOf(w), name, file);
    ArrivesBeside(Core(w), w.parts, name, file);
    match w
    case Idle(base, parts) => ArrivesIdle(base, parts, name, file);
    case Sweeping(m, s, parts) => ArrivesWhileSweeping(m, s, parts, name, file);
  }

  /** A name for a flusher's `.part`. */
  predicate CanStray(w: Work, name: string) {
    HasSuffix(name, PART_SUFFIX) && name !in DirNow(w) && (w.Sweeping? ==> name != w.m.part)
  }

  function Strayed(w: Work, name: string, file: File): Work {
    w.(parts := w.parts[name := file])
  }

  lemma StraysBeside<K>(d: map<K, File>, parts: map<K, File>, name: K, file: File)
    requires name !in d + parts
    ensures d + parts[name := file] == (d + parts)[name := file] && name !in d
  {
  }

  /** A flusher's `.part` joins the others. */
  lemma PartsTakeOne(parts: Directory, d: Directory, name: string, file: File)
    requires AreParts(parts, d) && HasSuffix(name, PART_SUFFIX) && name !in d
    ensures AreParts(parts[name := file], d)
  {
    hide HasSuffix;
  }

  lemma StrayIsGood(w: Work, name: string, file: File)
    requires Good(w) && CanStray(w, name)
    ensures Good(Strayed(w, name, file)) && DirNow(Strayed(w, name, file)) == DirNow(w)[name := file]
    ensures BaseOf(Strayed(w, name, file)) == BaseOf(w)
  {
    StraysBeside(Core(w), w.parts, name, file);
    GoodParts(w);
    PartsTakeOne(w.parts, Core(w), name, file);
    hide HasSuffix, Clean, Phase, AreParts;
  }

  // ---------------------------------------------------- recovery of a partition

  /** No flusher's `.part` beside chunks that a published merge has yet to remove. */
  ghost predicate Harmless(w: Work) {
    w.Idle? || w.parts == map[] || w.s.pc <= |w.m.files| + 2 || CompactionLimits.HiddenAreEmpty(w.s.dir)
  }

  lemma NoneAside<K>(base: map<K, File>)
    ensures GoodAside(base, map[]) && Laid(base, base, {}, map[], {})
  {
    assert Image<K>({}, map[]) == {};
  }

  /** Where nothing is hidden, recovery only drops the `.part` files. */
  lemma OnlyPartsGo(base: Directory, parts: Directory, listing: seq<string>)
    requires Clean(base) && AreParts(parts, base) && Enumerates(listing, base + parts)
    ensures ApplyAll(base + parts, RecoverOps(listing)) == base
  {
    if parts == map[] {
      assert base + parts == base;
      hide Clean, RecoverOps;
      NothingToRecover(base, listing);
    } else {
      NoneAside(base);
      hide GoodAside, Laid, Clean, AreParts, RecoverOps, Enumerates, HasSuffix;
      RollbackBeside(base, base, {}, map[], parts, listing);
    }
  }

  lemma PartJoins<K>(d: map<K, File>, parts: map<K, File>, part: K)
    requires part in d && part !in parts && parts.Keys !! d.Keys
    ensures (d - {part}) + parts[part := d[part]] == d + parts
    ensures parts[part := d[part]].Keys !! (d - {part}).Keys && parts[part := d[part]] != map[]
  {
    assert part in parts[part := d[part]];
  }

  lemma HidingRecovers(m: Plan, s: Merging, parts: Directory, k: nat, listing: seq<string>)
    requires Planned(s.base, m) && k <= |m.files| && HidingPhase(s, m, k)
    requires AreParts(parts, s.dir) && m.part !in parts && Enumerates(listing, s.dir + parts)
    ensures ApplyAll(s.dir + parts, RecoverOps(listing)) == s.base
  {
    AsideIsGood(s.base, m);
    PlannedIsClean(s.base, m);
    PartJoins(s.dir, parts, m.part);
    assert Elements(m.files[..k]) <= AsideOf(m.files).Keys;
    hide Hidden, IsParquet, RowsOf, Stem, Laid, GoodAside, Clean, RecoverOps, Enumerates, HasSuffix;
    RollbackBeside(s.base, s.dir - {m.part}, Elements(m.files[..k]), AsideOf(m.files), parts[m.part := s.dir[m.part]],
                   listing);
  }

  lemma BeforePublishing(m: Plan, s: Merging)
    requires Phase(s, m) && s.pc <= |m.files| + 2
    ensures Planned(s.base, m) && (s.pc == 0 ==> s.dir == s.base)
    ensures 1 <= s.pc ==> HidingPhase(s, m, Max(s.pc - 2, 0))
  {
    hide Planned, HidingPhase, PublishedPhase, GoneBy, Ops;
  }

  lemma SweepRecovers(m: Plan, s: Merging, parts: Directory, listing: seq<string>)
    requires Good(Sweeping(m, s, parts)) && Enumerates(listing, s.dir + parts)
    ensures var r := ApplyAll(s.dir + parts, RecoverOps(listing));
            Clean(r) && (Visible(r) == Visible(s.base) <==> Harmless(Sweeping(m, s, parts)))
  {
    hide Phase, Visible, Clean, RecoverOps, AreParts, CompactionLimits.HiddenAreEmpty, HidingPhase, Planned, Enumerates;
    if parts == map[] {
      NoneBeside(s.dir);
      RecoveryFrom(s, m, listing);
      RecoveryCleans(s, m, listing);
    } else if s.pc <= |m.files| + 2 {
      BeforePublishing(m, s);
      PlannedIsClean(s.base, m);
      if s.pc == 0 {
        OnlyPartsGo(s.base, parts, listing);
      } else {
        HidingRecovers(m, s, parts, Max(s.pc - 2, 0), listing);
      }
    } else {
      CompactionLimits.ForeignPartsFrom(s, m, parts, listing);
    }
  }

  lemma NoneBeside<K>(d: map<K, File>)
    ensures d + map[] == d
  {
  }

  /** A completed recovery leaves the partition clean, and shows what it should show
      exactly when it was harmless to run it. */
  lemma RecoveredIsGood(w: Work, listing: seq<string>)
    requires Good(w) && Enumerates(listing, DirNow(w))
    ensures var r := ApplyAll(DirNow(w), RecoverOps(listing));
            Clean(r) && (Visible(r) == Visible(BaseOf(w)) <==> Harmless(w))
  {
    match w
    case Idle(base, parts) =>
      hide Visible, Clean, RecoverOps, AreParts, Enumerates;
      OnlyPartsGo(base, parts, listing);
    case Sweeping(m, s, parts) =>
      hide Good, Harmless, Visible, Clean, RecoverOps, Enumerates;
      SweepRecovers(m, s, parts, listing);
  }

  // ---------------------------------------------------------- what a scan shows

  lemma BesideUnmatched<K>(base: map<K, File>, parts: map<K, File>, p: K -> bool)
    requires base.Keys !! parts.Keys && forall n | n in parts :: !p(n)
    ensures Matching(base + parts, p) == Matching(base, p)
    ensures RowsIn(base + parts, Matching(base, p)) == RowsIn(base, Matching(base, p))
  {
    RowsInSame(base + parts, base, Matching(base, p));
  }

  /** The `.part` files are out of sight. */
  lemma PartsUnseen(w: Work)
    requires Good(w)
    ensures Visible(DirNow(w)) == Visible(Core(w))
  {
    GoodParts(w);
    forall n | n in w.parts ensures !IsParquet(n) {
      PartIsNotHidden(n);
    }
    hide IsParquet, HasSuffix, RowsIn, Good;
    BesideUnmatched(Core(w), w.parts, IsParquet);
  }

  /** At no moment is a row shown twice, or one that should not be. */
  lemma ShowsAtMost(w: Work)
    requires Good(w)
    ensures Visible(DirNow(w)) <= Visible(BaseOf(w))
  {
    PartsUnseen(w);
    hide Visible, Phase, AreParts;
    if w.Sweeping? {
      NeverShownTwice(w.s, w.m);
    }
  }

  /** Not between the first hiding and the publishing of a merge. */
  predicate Settled(w: Work) {
    w.Idle? || w.s.pc <= 2 || |w.m.files| + 3 <= w.s.pc
  }

  lemma SettledShows(w: Work)
    requires Good(w) && Settled(w)
    ensures Visible(DirNow(w)) == Visible(BaseOf(w))
  {
    PartsUnseen(w);
    hide Visible, Phase, AreParts;
    if w.Sweeping? {
      NeverShownTwice(w.s, w.m);
    }
  }

  // ------------------------------------------------ the next operation of a sweep

  ghost predicate Apart(op: Op<string>, parts: Directory) {
    match op
    case Write(n, _) => n !in parts
    case Rename(a, b) => a !in parts && b !in parts
    case Delete(n) => n !in parts
  }

  lemma HasNoPart(parts: Directory, d: Directory, name: string)
    requires AreParts(parts, d) && !HasSuffix(name, PART_SUFFIX)
    ensures name !in parts
  {
  }

  lemma NamesApart(m: Plan, base: Directory, parts: Directory, d: Directory)
    requires Planned(base, m) && AreParts(parts, d)
    ensures m.final !in parts
    ensures forall f | f in m.files :: f !in parts && Hidden(f) !in parts
  {
    AsideIsGood(base, m);
    ParquetName(m.final);
    HasNoPart(parts, d, m.final);
    hide RowsOf, Clean, Hidden, AreParts;
    forall f | f in m.files ensures f !in parts && Hidden(f) !in parts {
      ParquetName(f);
      HasNoPart(parts, d, f);
      HasNoPart(parts, d, Hidden(f));
    }
  }

  lemma RemovedApart(m: Plan, parts: Directory)
    requires forall f | f in m.files :: Hidden(f) !in parts
    ensures forall r | r in Removed(m.files, m.stuck) :: r !in parts
  {
    RemovedAreHidden(m.files, m.stuck);
    hide Hidden, Removed;
  }

  lemma GoodPlan(m: Plan, s: Merging, parts: Directory)
    requires Good(Sweeping(m, s, parts))
    ensures Planned(s.base, m) && m.part !in parts && AreParts(parts, s.dir)
  {
    hide Planned, AreParts, HidingPhase, PublishedPhase, GoneBy, Ops;
  }

  /** The operations of a merge touch no flusher's file. */
  lemma OperationApart(m: Plan, s: Merging, parts: Directory)
    requires Good(Sweeping(m, s, parts)) && s.pc < |Ops(m)|
    ensures Apart(Ops(m)[s.pc], parts)
  {
    OpsAt(m, s.pc);
    GoodPlan(m, s, parts);
    hide Good, Hidden, Ops, Removed, Planned, AreParts;
    NamesApart(m, s.base, parts, s.dir);
    RemovedApart(m, parts);
  }

  lemma AppliesBeside<K>(d: map<K, File>, parts: map<K, File>, op: Op<K>)
    requires parts.Keys !! d.Keys
    requires match op case Write(n, _) => n !in parts case Rename(a, b) => a !in parts && b !in parts
             case Delete(n) => n !in parts
    ensures Apply(d + parts, op) == Apply(d, op) + parts && parts.Keys !! Apply(d, op).Keys
  {
  }

  /** Where the next operation leads. */
  ghost function Operated(w: Work): Work
    requires w.Sweeping? && w.s.pc < |Ops(w.m)|
  {
    Sweeping(w.m, CompactionSafety.Step(w.s, w.m, Next), w.parts)
  }

  lemma OperationIsGood(m: Plan, s: Merging, parts: Directory)
    requires Good(Sweeping(m, s, parts)) && s.pc < |Ops(m)|
    ensures var w := Sweeping(m, s, parts);
            && Good(Operated(w)) && BaseOf(Operated(w)) == BaseOf(w)
            && DirNow(Operated(w)) == Apply(DirNow(w), Ops(m)[s.pc])
  {
    OperationApart(m, s, parts);
    hide Phase, Ops, HasSuffix;
    StepKeepsPhase(s, m, Next);
    AppliesBeside(s.dir, parts, Ops(m)[s.pc]);
  }

  lemma NothingHiddenYet(s: Merging, m: Plan)
    requires HidingPhase(s, m, 0)
    ensures s.dir - {m.part} == s.base
  {
    assert Elements(m.files[..0]) == {};
    hide Laid, Hidden;
    LaidNoneIsBase(s.base, s.dir - {m.part}, AsideOf(m.files));
  }

  lemma BesidePart<K>(base: map<K, File>, d: map<K, File>, part: K, f: K)
    requires d - {part} == base && f in base
    ensures f in d && d[f] == base[f]
  {
    assert f in d - {part};
  }

  lemma SourcesStillThere(m: Plan, s: Merging)
    requires Phase(s, m) && s.pc <= 1
    ensures forall f | f in m.files :: f in s.base && f in s.dir && s.dir[f] == s.base[f]
  {
    hide RowsOf, Clean, Ops, Hidden, HidingPhase, IsParquet, HasSuffix, PublishedPhase;
    if s.pc == 1 {
      NothingHiddenYet(s, m);
      forall f | f in m.files ensures f in s.dir && s.dir[f] == s.base[f] {
        BesidePart(s.base, s.dir, m.part, f);
      }
    }
  }

  /** It makes up no rows. */
  lemma OperationDraws(m: Plan, s: Merging, parts: Directory)
    requires Good(Sweeping(m, s, parts)) && s.pc < |Ops(m)|
    ensures RowsFrom(Apply(s.dir + parts, Ops(m)[s.pc]), s.dir + parts)
  {
    OpsAt(m, s.pc);
    assert RowsFrom(s.dir + parts, s.dir + parts);
    if s.pc <= 1 {
      GoodPhase(m, s, parts);
      SourcesStillThere(m, s);
      MergedRows(m, s, parts);
      hide Phase, Ops, RowsOf, Good;
      assert Draws(Ops(m)[s.pc], s.dir + parts);
    }
    hide Phase, Ops, Good;
    OpKeepsRowsFrom(s.dir + parts, Ops(m)[s.pc], s.dir + parts);
  }

  lemma GoodPhase(m: Plan, s: Merging, parts: Directory)
    requires Good(Sweeping(m, s, parts))
    ensures Phase(s, m) && m.partial.rows <= m.merged.rows && parts.Keys !! s.dir.Keys
  {
    hide Phase, HasSuffix;
  }

  lemma MergedRows(m: Plan, s: Merging, parts: Directory)
    requires Phase(s, m) && m.partial.rows <= m.merged.rows && parts.Keys !! s.dir.Keys && s.pc <= 1
    requires forall f | f in m.files :: f in s.base && f in s.dir && s.dir[f] == s.base[f]
    ensures forall r | r in m.merged.rows || r in m.partial.rows ::
              exists o :: o in s.dir + parts && r in (s.dir + parts)[o].rows
  {
    assert m.merged.rows == RowsOf(s.base, m.files);
    assert forall r | r in m.partial.rows :: r in m.merged.rows;
    hide Phase;
    RowsOfDraws(s.base, m.files);
    forall r | r in m.merged.rows ensures exists o :: o in s.dir + parts && r in (s.dir + parts)[o].rows {
      var f :| f in m.files && r in s.base[f].rows;
      assert f in s.dir + parts && (s.dir + parts)[f] == s.dir[f];
    }
  }
}
